/** The desktop extension's view of the daemon: a fold over the event stream. */
module Extension {
  import opened SessionState
  import opened DashView
  import opened Daemon

  datatype PendingView = PendingView(sessionId: string, tool: string, detail: string, suggestions: seq<string>)

  datatype Client = Client(sessions: seq<DashSession>, pending: map<string, PendingView>)
  {
    function Apply(event: Event): Client {
      match event
      case StateUpdate(sessions) => this.(sessions := sessions)
      case PermissionPending(sid, rid, tool, detail, suggestions) =>
        this.(pending := pending[rid := PendingView(sid, tool, detail, suggestions)])
      case PermissionResolved(rid, _) => this.(pending := pending - {rid})
    }

    function Fold(events: seq<Event>): Client
      decreases |events|
    {
      if events == [] then this else Apply(events[0]).Fold(events[1..])
    }
  }

  /** A client that has just connected. */
  const OFFLINE := Client([], map[])

  lemma {:induction false} FoldConcat(c: Client, a: seq<Event>, b: seq<Event>)
    ensures c.Fold(a + b) == c.Fold(a).Fold(b)
    decreases |a|
  {
    if a == [] {
      assert a + b == b;
    } else {
      FoldConcat(c.Apply(a[0]), a[1..], b);
      assert (a + b)[1..] == a[1..] + b;
    }
  }

  class Panel {
    var sessions: seq<DashSession>
    var pendingPermissions: map<string, PendingView>

    function View(): Client
      reads this
    {
      Client(sessions, pendingPermissions)
    }

    constructor ()
      ensures View() == OFFLINE
    {
      sessions, pendingPermissions := [], map[];
    }

    method HandleEvent(event: Event)
      modifies this
      ensures View() == old(View()).Apply(event)
    {
      match event {
        case StateUpdate(list) =>
          sessions := list;
        case PermissionPending(sid, rid, tool, detail, suggestions) =>
          pendingPermissions := pendingPermissions[rid := PendingView(sid, tool, detail, suggestions)];
        case PermissionResolved(rid, _) =>
          pendingPermissions := pendingPermissions - {rid};
      }
    }
  }
}
