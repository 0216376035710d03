/** The session and permission tables of the daemon. `State` is the value the
    tables hold; `DaemonState` is the object whose methods update them. */
module SessionState {
  import opened Wrappers

  datatype Status = NeedsInput | Working | Idle | Ended
  {
    function AsStr(): string {
      match this
      case NeedsInput => "needs_input"
      case Working => "working"
      case Idle => "idle"
      case Ended => "ended"
    }
  }

  datatype Tool = Tool(name: string, detail: string, useId: string)

  datatype Session = Session(
    sessionId: string,
    cwd: Option<string>,
    projectName: string,
    branch: string,
    status: Status,
    activeTool: Option<Tool>,
    jsonlPath: Option<string>,
    lastStatusChange: nat,
    hasPendingQuestion: bool,
    questionText: Option<string>,
    isMain: bool,
    parentWrapperId: Option<string>,
    agent: Option<string>,
    promptSuggestion: Option<string>,
    thinkingText: Option<string>)

  datatype Permission = Permission(
    requestId: string,
    sessionId: string,
    tool: string,
    detail: string,
    suggestions: seq<string>)

  datatype HookEvent =
    | ToolStart(sessionId: string, tool: string, detail: string, toolUseId: string)
    | ToolEnd(sessionId: string, toolUseId: string)
    | Stop(sessionId: string)
    | SessionStart(sessionId: string, cwd: Option<string>)
    | SessionEnd(sessionId: string)

  /** What a wrapper says about itself; `foundPath` is the transcript found on
      disk for `realSessionId`. */
  datatype WrapperInfo = WrapperInfo(
    agent: string,
    cwd: Option<string>,
    branch: Option<string>,
    projectName: Option<string>,
    realSessionId: Option<string>,
    foundPath: Option<string>)

  function NewSession(sid: string, now: nat): Session {
    Session(sid, None, "", "", Idle, None, None, now, false, None, false, None, None, None, None)
  }

  datatype State = State(sessions: map<string, Session>, pending: map<string, Permission>)
  {
    function EnsureSession(sid: string, now: nat): State {
      if sid in sessions then this else this.(sessions := sessions[sid := NewSession(sid, now)])
    }

    function SetStatus(sid: string, status: Status, now: nat): State {
      if sid in sessions && sessions[sid].status != status then
        this.(sessions := sessions[sid := sessions[sid].(status := status, lastStatusChange := now)])
      else
        this
    }

    function ParentOf(sid: string): Option<string> {
      if sid in sessions then sessions[sid].parentWrapperId else None
    }

    function PendingFor(sid: string): set<string> {
      set id | id in pending && pending[id].sessionId == sid
    }

    /** Permission `id` is shown on session `sid`: it is filed under `sid`
        itself or under a session linked to wrapper `sid`. */
    predicate Supports(id: string, sid: string) {
      && id in pending
      && (pending[id].sessionId == sid || ParentOf(pending[id].sessionId) == Some(sid))
    }

    function ClearNeedsInput(sid: string, now: nat): State {
      if sid in sessions && sessions[sid].status == NeedsInput then SetStatus(sid, Idle, now) else this
    }

    /** What happens to `sid` and its wrapper once nothing is pending under `sid`. */
    function Settle(sid: string, now: nat): State {
      var st := ClearNeedsInput(sid, now);
      match st.ParentOf(sid)
      case None => st
      case Some(parent) => st.ClearNeedsInput(parent, now)
    }

    /** Everything pending under `sid` is resolved, in whatever order. */
    function Dismiss(sid: string, now: nat): State {
      if PendingFor(sid) == {} then this else this.(pending := pending - PendingFor(sid)).Settle(sid, now)
    }

    function AddPermissionRequest(perm: Permission, now: nat): State {
      var st := this.(pending := pending[perm.requestId := perm]).SetStatus(perm.sessionId, NeedsInput, now);
      match st.ParentOf(perm.sessionId)
      case None => st
      case Some(parent) => st.SetStatus(parent, NeedsInput, now)
    }

    function ResolvePermission(rid: string, now: nat): State {
      if rid !in pending then
        this
      else
        var sid := pending[rid].sessionId;
        var st := this.(pending := pending - {rid});
        if st.PendingFor(sid) == {} then st.Settle(sid, now) else st
    }

    /** Sessions that disappear with wrapper `wid`: itself and its subagents. */
    function Household(wid: string): set<string> {
      set id | id in sessions && (id == wid || sessions[id].parentWrapperId == Some(wid))
    }

    function Without(gone: set<string>): State {
      State(map id | id in sessions && id !in gone :: sessions[id],
            map id | id in pending && pending[id].sessionId !in gone :: pending[id])
    }

    function RemoveWrapper(wid: string): State {
      Without(Household(wid))
    }

    /** Links `sid` to the wrapper a hook came from, unless it is a main session. */
    function Link(sid: string, wid: Option<string>, now: nat): State {
      match wid
      case None => this
      case Some(w) =>
        var st := EnsureSession(sid, now);
        if sid != w && !st.sessions[sid].isMain then
          st.(sessions := st.sessions[sid := st.sessions[sid].(parentWrapperId := Some(w))])
        else
          st
    }

    function FillPath(sid: string, path: string): State {
      if sid in sessions && sessions[sid].jsonlPath == None then
        this.(sessions := sessions[sid := sessions[sid].(jsonlPath := Some(path))])
      else
        this
    }

    /** Records a transcript path that was looked up for `sid`, also on its wrapper. */
    function PopulatePath(sid: string, wid: Option<string>, found: Option<string>): State {
      if sid in sessions && sessions[sid].jsonlPath == None && found.Some? then
        var st := FillPath(sid, found.value);
        if wid.Some? && wid.value != sid then st.FillPath(wid.value, found.value) else st
      else
        this
    }

    function Register(sid: string, info: WrapperInfo, now: nat): State {
      var st := EnsureSession(sid, now);
      var s := st.sessions[sid];
      var s' := s.(isMain := true,
                   agent := Some(info.agent),
                   cwd := if info.cwd.Some? then info.cwd else s.cwd,
                   branch := if info.branch.Some? then info.branch.value else s.branch,
                   projectName := if info.projectName.Some? then info.projectName.value else s.projectName);
      var st' := st.(sessions := st.sessions[sid := s']);
      if info.realSessionId.Some? && info.foundPath.Some? then st'.FillPath(sid, info.foundPath.value) else st'
    }

    function WithSuggestion(sid: string, suggestion: Option<string>): State {
      if sid in sessions then this.(sessions := sessions[sid := sessions[sid].(promptSuggestion := suggestion)]) else this
    }

    function WithThinking(sid: string, text: Option<string>): State {
      if sid in sessions then this.(sessions := sessions[sid := sessions[sid].(thinkingText := text)]) else this
    }

    function WithTool(sid: string, tool: Option<Tool>): State {
      if sid in sessions then this.(sessions := sessions[sid := sessions[sid].(activeTool := tool)]) else this
    }

    function ApplyHookEvent(event: HookEvent, now: nat): State {
      match event
      case ToolStart(sid, tool, detail, useId) =>
        EnsureSession(sid, now).WithTool(sid, Some(Tool(tool, detail, useId))).SetStatus(sid, Working, now)
      case ToolEnd(sid, useId) =>
        if sid in sessions && sessions[sid].activeTool.Some? && sessions[sid].activeTool.value.useId == useId then
          WithTool(sid, None)
        else
          this
      case Stop(sid) =>
        WithTool(sid, None).SetStatus(sid, Idle, now)
      case SessionStart(sid, cwd) =>
        var st := EnsureSession(sid, now);
        if cwd.Some? then st.(sessions := st.sessions[sid := st.sessions[sid].(cwd := cwd)]) else st
      case SessionEnd(sid) =>
        State(sessions - {sid}, map id | id in pending && pending[id].sessionId != sid :: pending[id])
    }

    /** Every key of a table is the identifier its entry carries, and no
        session is linked to itself. */
    ghost predicate WellFormed() {
      && (forall k :: k in sessions ==> sessions[k].sessionId == k && sessions[k].parentWrapperId != Some(k))
      && (forall k :: k in pending ==> pending[k].requestId == k)
    }
  }

  const EMPTY := State(map[], map[])

  class DaemonState {
    var sessions: map<string, Session>
    var pendingPermissions: map<string, Permission>

    function View(): State
      reads this
    {
      State(sessions, pendingPermissions)
    }

    constructor ()
      ensures View() == EMPTY
    {
      sessions, pendingPermissions := map[], map[];
    }

    method EnsureSession(sid: string, now: nat)
      modifies this
      ensures View() == old(View()).EnsureSession(sid, now)
    {
      if sid !in sessions {
        sessions := sessions[sid := NewSession(sid, now)];
      }
    }

    method SetStatus(sid: string, status: Status, now: nat)
      modifies this
      ensures View() == old(View()).SetStatus(sid, status, now)
    {
      if sid in sessions {
        if sessions[sid].status != status {
          sessions := sessions[sid := sessions[sid].(status := status, lastStatusChange := now)];
        }
      }
    }

    method ApplyHookEvent(event: HookEvent, now: nat)
      modifies this
      ensures View() == old(View()).ApplyHookEvent(event, now)
    {
      match event {
        case ToolStart(sid, tool, detail, useId) =>
          EnsureSession(sid, now);
          if sid in sessions {
            sessions := sessions[sid := sessions[sid].(activeTool := Some(Tool(tool, detail, useId)))];
          }
          SetStatus(sid, Working, now);
        case ToolEnd(sid, useId) =>
          if sid in sessions && sessions[sid].activeTool.Some? {
            if sessions[sid].activeTool.value.useId == useId {
              sessions := sessions[sid := sessions[sid].(activeTool := None)];
            }
          }
        case Stop(sid) =>
          if sid in sessions {
            sessions := sessions[sid := sessions[sid].(activeTool := None)];
          }
          SetStatus(sid, Idle, now);
        case SessionStart(sid, cwd) =>
          EnsureSession(sid, now);
          if cwd.Some? {
            sessions := sessions[sid := sessions[sid].(cwd := cwd)];
          }
        case SessionEnd(sid) =>
          sessions := sessions - {sid};
          pendingPermissions :=
            map id | id in pendingPermissions && pendingPermissions[id].sessionId != sid :: pendingPermissions[id];
      }
    }

    method AddPermissionRequest(perm: Permission, now: nat)
      modifies this
      ensures View() == old(View()).AddPermissionRequest(perm, now)
    {
      pendingPermissions := pendingPermissions[perm.requestId := perm];
      SetStatus(perm.sessionId, NeedsInput, now);
      if perm.sessionId in sessions && sessions[perm.sessionId].parentWrapperId.Some? {
        SetStatus(sessions[perm.sessionId].parentWrapperId.value, NeedsInput, now);
      }
    }

    method ResolvePermission(rid: string, now: nat) returns (perm: Option<Permission>)
      modifies this
      ensures View() == old(View()).ResolvePermission(rid, now)
      ensures perm == if rid in old(pendingPermissions) then Some(old(pendingPermissions)[rid]) else None
    {
      if rid !in pendingPermissions {
        return None;
      }
      perm := Some(pendingPermissions[rid]);
      var sid := pendingPermissions[rid].sessionId;
      pendingPermissions := pendingPermissions - {rid};
      var stillPending := exists id :: id in pendingPermissions && pendingPermissions[id].sessionId == sid;
      assert stillPending <==> View().PendingFor(sid) != {} by {
        if stillPending {
          var id :| id in pendingPermissions && pendingPermissions[id].sessionId == sid;
          assert id in View().PendingFor(sid);
        }
      }
      if !stillPending {
        if sid in sessions && sessions[sid].status == NeedsInput {
          SetStatus(sid, Idle, now);
        }
        if sid in sessions && sessions[sid].parentWrapperId.Some? {
          var parent := sessions[sid].parentWrapperId.value;
          if parent in sessions && sessions[parent].status == NeedsInput {
            SetStatus(parent, Idle, now);
          }
        }
      }
    }

    method PopulatePath(sid: string, wid: Option<string>, found: Option<string>)
      modifies this
      ensures View() == old(View()).PopulatePath(sid, wid, found)
    {
      if sid in sessions && sessions[sid].jsonlPath == None && found.Some? {
        sessions := sessions[sid := sessions[sid].(jsonlPath := found)];
        if wid.Some? && wid.value != sid {
          if wid.value in sessions && sessions[wid.value].jsonlPath == None {
            sessions := sessions[wid.value := sessions[wid.value].(jsonlPath := found)];
          }
        }
      }
    }

    method Register(sid: string, info: WrapperInfo, now: nat)
      modifies this
      ensures View() == old(View()).Register(sid, info, now)
    {
      EnsureSession(sid, now);
      var s := sessions[sid].(isMain := true, agent := Some(info.agent));
      if info.cwd.Some? {
        s := s.(cwd := info.cwd);
      }
      if info.branch.Some? {
        s := s.(branch := info.branch.value);
      }
      if info.projectName.Some? {
        s := s.(projectName := info.projectName.value);
      }
      if info.realSessionId.Some? && s.jsonlPath == None && info.foundPath.Some? {
        s := s.(jsonlPath := info.foundPath);
      }
      sessions := sessions[sid := s];
    }

    /** Removes the household one session at a time, in any order. */
    method RemoveWrapper(wid: string)
      modifies this
      ensures View() == old(View()).RemoveWrapper(wid)
    {
      ghost var before := View();
      var toRemove := set id | id in sessions && (id == wid || sessions[id].parentWrapperId == Some(wid));
      ghost var done: set<string> := {};
      while toRemove != {}
        invariant done !! toRemove && done + toRemove == before.Household(wid)
        invariant View() == before.Without(done)
        decreases toRemove
      {
        var id :| id in toRemove;
        sessions := sessions - {id};
        pendingPermissions :=
          map p | p in pendingPermissions && pendingPermissions[p].sessionId != id :: pendingPermissions[p];
        toRemove, done := toRemove - {id}, done + {id};
      }
      assert done == before.Household(wid);
    }
  }
}
