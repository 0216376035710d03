/** The daemon's main loop. `Snapshot` is the value of everything the loop
    owns, with one function per message; `Daemon` is the object whose methods,
    one per arm of the loop, update it in place. */
module Daemon {
  import opened Wrappers
  import opened SessionState
  import opened DashView

  datatype Event =
    | StateUpdate(sessions: seq<DashSession>)
    | PermissionPending(sessionId: string, requestId: string, tool: string, detail: string, suggestions: seq<string>)
    | PermissionResolved(requestId: string, resolvedBy: string)

  /** The outside world: whether the send made at a tick finds room in an open
      queue, and in which order a hash table is visited at a tick. */
  datatype Env = Env(
    accepts: (nat, nat) -> bool,
    promptAccepts: (nat, nat) -> bool,
    order: (nat, set<string>) -> seq<string>)
  {
    ghost predicate Valid() {
      forall tick: nat, s: set<string> :: Enumerates(order(tick, s), s)
    }
  }

  datatype Reply = Reply(channel: nat, requestId: string, decision: string, suggestion: Option<string>)

  /** History of one subscriber: the part of its greeting its queue took,
      whether that was all of it, the number of broadcasts made before it
      joined, and everything its queue took since. */
  datatype Mail = Mail(greeting: seq<Event>, complete: bool, joinedAt: nat, received: seq<Event>)

  datatype Envelope = Envelope(event: HookEvent, wrapperId: Option<string>)

  /** The only element of `keys` that starts with `prefix`. */
  ghost function UniqueMatch(keys: set<string>, prefix: string): Option<string> {
    if exists k :: k in keys && prefix <= k && forall k' :: k' in keys && prefix <= k' ==> k' == k then
      var k :| k in keys && prefix <= k && forall k' :: k' in keys && prefix <= k' ==> k' == k;
      Some(k)
    else
      None
  }

  /** Exact match first, then unique prefix match. */
  ghost function ResolveKey(keys: set<string>, id: string): Option<string> {
    if id in keys then Some(id) else UniqueMatch(keys, id)
  }

  /** The announcement of pending permission `rid`, under the id of the session
      the client shows it on. */
  function Announcement(st: State, rid: string): Event
    requires rid in st.pending
  {
    var perm := st.pending[rid];
    var shownOn := match st.ParentOf(perm.sessionId) case None => perm.sessionId case Some(parent) => parent;
    PermissionPending(shownOn, perm.requestId, perm.tool, perm.detail, perm.suggestions)
  }

  function Announcements(st: State, order: seq<string>): seq<Event> {
    if order == [] then []
    else (if order[0] in st.pending then [Announcement(st, order[0])] else []) + Announcements(st, order[1..])
  }

  /** Subscribers whose queue takes the send made at `tick`, in order. */
  function Kept(env: Env, tick: nat, subscribers: seq<nat>): seq<nat> {
    if subscribers == [] then []
    else (if env.accepts(tick, subscribers[0]) then [subscribers[0]] else []) + Kept(env, tick, subscribers[1..])
  }

  lemma {:induction false} KeptSnoc(env: Env, tick: nat, subscribers: seq<nat>, id: nat)
    ensures Kept(env, tick, subscribers + [id])
            == Kept(env, tick, subscribers) + (if env.accepts(tick, id) then [id] else [])
  {
    if subscribers == [] {
      assert (subscribers + [id])[1..] == [];
    } else {
      KeptSnoc(env, tick, subscribers[1..], id);
      assert (subscribers + [id])[1..] == subscribers[1..] + [id];
    }
  }

  function Delivered(env: Env, tick: nat, subscribers: seq<nat>, mail: map<nat, Mail>, event: Event): map<nat, Mail> {
    map id | id in mail ::
      if id in subscribers && env.accepts(tick, id) then mail[id].(received := mail[id].received + [event]) else mail[id]
  }

  /** Those of `offers`, sent one tick apart from `tick`, that subscriber `id` takes. */
  function Taken(env: Env, tick: nat, id: nat, offers: seq<Event>): seq<Event>
    decreases |offers|
  {
    if offers == [] then []
    else (if env.accepts(tick, id) then [offers[0]] else []) + Taken(env, tick + 1, id, offers[1..])
  }

  lemma TakenCons(env: Env, tick: nat, id: nat, event: Event, rest: seq<Event>)
    ensures Taken(env, tick, id, [event] + rest)
            == (if env.accepts(tick, id) then [event] else []) + Taken(env, tick + 1, id, rest)
  {
  }

  lemma {:induction false} TakenSnoc(env: Env, tick: nat, id: nat, offers: seq<Event>, event: Event)
    ensures Taken(env, tick, id, offers + [event])
            == Taken(env, tick, id, offers) + (if env.accepts(tick + |offers|, id) then [event] else [])
    decreases |offers|
  {
    if offers == [] {
      TakenCons(env, tick, id, event, []);
      assert [event] + [] == [] + [event];
    } else {
      TakenSnoc(env, tick + 1, id, offers[1..], event);
      assert (offers + [event])[1..] == offers[1..] + [event];
    }
  }

  lemma {:induction false} AnnouncementsSnoc(st: State, order: seq<string>, rid: string)
    ensures Announcements(st, order + [rid])
            == Announcements(st, order) + (if rid in st.pending then [Announcement(st, rid)] else [])
  {
    if order == [] {
      assert (order + [rid])[1..] == [];
    } else {
      AnnouncementsSnoc(st, order[1..], rid);
      assert (order + [rid])[1..] == order[1..] + [rid];
    }
  }

  datatype Snapshot = Snapshot(
    state: State,
    waiters: map<string, nat>,
    subscribers: seq<nat>,
    channels: map<string, nat>,
    tick: nat,
    // history
    joined: nat,
    mail: map<nat, Mail>,
    broadcasts: seq<Event>,
    issued: seq<string>,
    replies: seq<Reply>,
    dropped: set<nat>)
  {
    function CurrentUpdate(env: Env): Event {
      StateUpdate(Dash(state, false, env.order(tick, state.sessions.Keys), env.order(tick, state.pending.Keys)))
    }

    function Broadcast(env: Env, event: Event): Snapshot {
      this.(subscribers := Kept(env, tick, subscribers),
            mail := Delivered(env, tick, subscribers, mail, event),
            tick := tick + 1,
            broadcasts := broadcasts + [event])
    }

    function BroadcastState(env: Env): Snapshot {
      Broadcast(env, CurrentUpdate(env))
    }

    /** Resolves one request: the waiter is answered, then everyone is told. */
    function Resolve(env: Env, rid: string, decision: string, suggestion: Option<string>, who: string,
                     now: nat): Snapshot {
      if rid !in state.pending then
        this
      else
        var perm := state.pending[rid];
        var d := this.(state := state.ResolvePermission(rid, now));
        var answered := if rid in waiters then
                          d.(waiters := waiters - {rid},
                             replies := replies + [Reply(waiters[rid], rid, decision, suggestion)])
                        else d;
        answered.Broadcast(env, PermissionResolved(perm.requestId, who))
    }

    function ResolveAll(env: Env, rids: seq<string>, now: nat): Snapshot
      decreases rids
    {
      if rids == [] then this
      else Resolve(env, rids[0], "allow", None, "terminal", now).ResolveAll(env, rids[1..], now)
    }

    function LinkHook(sid: string, wid: Option<string>, now: nat): Snapshot {
      var aliased := if wid.Some? && sid !in channels && wid.value in channels
                     then channels[sid := channels[wid.value]] else channels;
      this.(channels := aliased, state := state.Link(sid, wid, now))
    }

    function Hook(env: Env, envelope: Envelope, now: nat, found: Option<string>): Snapshot {
      var sid := envelope.event.sessionId;
      var linked := LinkHook(sid, envelope.wrapperId, now);
      var settled := linked.ResolveAll(env, env.order(linked.tick, linked.state.PendingFor(sid)), now);
      settled.(state := settled.state.ApplyHookEvent(envelope.event, now).PopulatePath(sid, envelope.wrapperId, found))
             .BroadcastState(env)
    }

    function Greeting(env: Env): seq<Event> {
      [CurrentUpdate(env)] + Announcements(state, env.order(tick, state.pending.Keys))
    }

    /** Adds the next subscriber, whose queue took `taken` of its greeting. */
    function Enroll(taken: seq<Event>, complete: bool): Snapshot {
      this.(subscribers := subscribers + [joined],
            mail := mail[joined := Mail(taken, complete, |broadcasts|, taken)],
            joined := joined + 1)
    }

    function Subscribe(env: Env): Snapshot {
      var offers := Greeting(env);
      var taken := Taken(env, tick, joined, offers);
      this.(tick := tick + |offers|).Enroll(taken, taken == offers)
    }

    function PermissionResponse(env: Env, rid: string, decision: string, suggestion: Option<string>,
                                now: nat): Snapshot {
      if rid !in state.pending then this
      else Resolve(env, rid, decision, suggestion, "dashboard", now).BroadcastState(env)
    }

    function FileRequest(perm: Permission, now: nat): (d: Snapshot)
      ensures perm.requestId in d.state.pending && d.state.pending[perm.requestId] == perm
    {
      var rid := perm.requestId;
      this.(state := state.AddPermissionRequest(perm, now),
            waiters := waiters[rid := |issued|],
            issued := issued + [rid],
            dropped := if rid in waiters then dropped + {waiters[rid]} else dropped)
    }

    function PermissionRequest(env: Env, perm: Permission, now: nat): Snapshot {
      var d := FileRequest(perm, now);
      d.Broadcast(env, Announcement(d.state, perm.requestId)).BroadcastState(env)
    }

    function RegisterWrapper(env: Env, sid: string, info: WrapperInfo, channel: nat, now: nat): Snapshot {
      var own := channels[sid := channel];
      this.(state := state.Register(sid, info, now),
            channels := if info.realSessionId.Some? then own[info.realSessionId.value := channel] else own)
          .BroadcastState(env)
    }

    function UnregisterWrapper(env: Env, wid: string): Snapshot {
      this.(channels := channels - (state.Household(wid) + {wid}), state := state.RemoveWrapper(wid)).BroadcastState(env)
    }

    function UpdateSuggestion(env: Env, sid: string, suggestion: Option<string>): Snapshot {
      if sid in state.sessions && state.sessions[sid].promptSuggestion != suggestion then
        this.(state := state.WithSuggestion(sid, suggestion)).BroadcastState(env)
      else
        this
    }

    function UpdateThinking(env: Env, sid: string, text: Option<string>): Snapshot {
      if sid in state.sessions && state.sessions[sid].thinkingText != text then
        this.(state := state.WithThinking(sid, text)).BroadcastState(env)
      else
        this
    }

    /** The wrapper channel a prompt for `sid` goes to; none for a subagent. */
    ghost function PromptTarget(sid: string): Option<nat> {
      var key := ResolveKey(state.sessions.Keys, sid);
      if key.Some? && !state.sessions[key.value].isMain && state.sessions[key.value].parentWrapperId.Some? then
        None
      else
        match ResolveKey(channels.Keys, sid)
        case None => None
        case Some(k) => Some(channels[k])
    }

    ghost predicate PromptGoesOut(env: Env, sid: string) {
      PromptTarget(sid).Some? && env.promptAccepts(tick, PromptTarget(sid).value)
    }

    ghost function SendPrompt(env: Env, sid: string, now: nat): Snapshot {
      if PromptGoesOut(env, sid) then
        this.(tick := tick + 1, state := state.SetStatus(sid, Working, now)).BroadcastState(env)
      else if PromptTarget(sid).Some? then
        this.(tick := tick + 1)
      else
        this
    }
  }

  const INIT := Snapshot(EMPTY, map[], [], map[], 0, 0, map[], [], [], [], {})

  // ------------------------------------------------------------ runs

  datatype Input =
    | HookIn(envelope: Envelope, now: nat, found: Option<string>)
    | SubscribeIn
    | ResponseIn(requestId: string, decision: string, suggestion: Option<string>, now: nat)
    | RequestIn(perm: Permission, now: nat)
    | RegisterIn(sid: string, info: WrapperInfo, channel: nat, now: nat)
    | UnregisterIn(wid: string)
    | SuggestionIn(sid: string, suggestion: Option<string>)
    | ThinkingIn(sid: string, text: Option<string>)
    | PromptIn(sid: string, now: nat)

  ghost function Step(d: Snapshot, env: Env, input: Input): Snapshot {
    match input
    case HookIn(envelope, now, found) => d.Hook(env, envelope, now, found)
    case SubscribeIn => d.Subscribe(env)
    case ResponseIn(rid, decision, suggestion, now) => d.PermissionResponse(env, rid, decision, suggestion, now)
    case RequestIn(perm, now) => d.PermissionRequest(env, perm, now)
    case RegisterIn(sid, info, channel, now) => d.RegisterWrapper(env, sid, info, channel, now)
    case UnregisterIn(wid) => d.UnregisterWrapper(env, wid)
    case SuggestionIn(sid, suggestion) => d.UpdateSuggestion(env, sid, suggestion)
    case ThinkingIn(sid, text) => d.UpdateThinking(env, sid, text)
    case PromptIn(sid, now) => d.SendPrompt(env, sid, now)
  }

  /** The daemon after a whole run from start-up. */
  ghost function Run(env: Env, inputs: seq<Input>): Snapshot {
    if inputs == [] then INIT else Step(Run(env, inputs[..|inputs| - 1]), env, inputs[|inputs| - 1])
  }

  // ------------------------------------------------------------ the loop's arms

  datatype PromptOutcome = PromptSent | ChannelFull | NotWrapped | IsSubagent

  lemma SoleMatch(keys: set<string>, id: string, matches: set<string>)
    requires matches == set k | k in keys && id <= k
    ensures |matches| == 1 <==> UniqueMatch(keys, id).Some?
    ensures UniqueMatch(keys, id).Some? ==> matches == {UniqueMatch(keys, id).value}
  {
    if UniqueMatch(keys, id).Some? {
      assert matches == {UniqueMatch(keys, id).value};
    }
    if |matches| == 1 {
      var k :| k in matches;
      assert |matches - {k}| == 0;
      assert forall k' :: k' in keys && id <= k' ==> k' in matches && k' !in matches - {k};
    }
  }

  method FindKey(keys: set<string>, id: string) returns (key: Option<string>)
    ensures key == ResolveKey(keys, id)
    ensures key.Some? ==> key.value in keys && id <= key.value
  {
    if id in keys {
      return Some(id);
    }
    var matches := set k | k in keys && id <= k;
    SoleMatch(keys, id, matches);
    if |matches| == 1 {
      var k :| k in matches;
      key := Some(k);
    } else {
      key := None;
    }
  }

  class Daemon {
    const env: Env
    const state: DaemonState
    var waiters: map<string, nat>
    var subscribers: seq<nat>
    var channels: map<string, nat>
    var tick: nat
    ghost var joined: nat
    ghost var mail: map<nat, Mail>
    ghost var broadcasts: seq<Event>
    ghost var issued: seq<string>
    ghost var replies: seq<Reply>
    ghost var dropped: set<nat>

    ghost function Model(): Snapshot
      reads this, state
    {
      Snapshot(state.View(), waiters, subscribers, channels, tick, joined, mail, broadcasts, issued, replies, dropped)
    }

    constructor (env: Env)
      ensures Model() == INIT && this.env == env && fresh(state)
    {
      this.env := env;
      state := new DaemonState();
      waiters, subscribers, channels, tick := map[], [], map[], 0;
      joined, mail, broadcasts, issued, replies, dropped := 0, map[], [], [], [], {};
    }

    /** Sends to every subscriber and keeps those whose queue took the event. */
    method Retain()
      modifies this`subscribers
      ensures subscribers == Kept(env, tick, old(subscribers))
    {
      var kept := [];
      for i := 0 to |subscribers|
        invariant subscribers == old(subscribers)
        invariant kept == Kept(env, tick, subscribers[..i])
      {
        assert subscribers[..i + 1] == subscribers[..i] + [subscribers[i]];
        KeptSnoc(env, tick, subscribers[..i], subscribers[i]);
        if env.accepts(tick, subscribers[i]) {
          kept := kept + [subscribers[i]];
        }
      }
      assert subscribers[..|subscribers|] == subscribers;
      subscribers := kept;
    }

    method Broadcast(event: Event)
      modifies this
      ensures Model() == old(Model()).Broadcast(env, event)
    {
      mail := Delivered(env, tick, subscribers, mail, event);
      broadcasts := broadcasts + [event];
      Retain();
      tick := tick + 1;
    }

    method CurrentUpdate() returns (event: Event)
      requires env.Valid()
      ensures event == Model().CurrentUpdate(env)
    {
      assert Enumerates(env.order(tick, state.sessions.Keys), state.sessions.Keys);
      var list := BuildDashSessions(state.View(), false, env.order(tick, state.sessions.Keys),
                                    env.order(tick, state.pendingPermissions.Keys));
      event := StateUpdate(list);
    }

    method BroadcastState()
      requires env.Valid()
      modifies this
      ensures Model() == old(Model()).BroadcastState(env)
    {
      var event := CurrentUpdate();
      Broadcast(event);
    }

    /** Answers the waiter of `rid` and tells every subscriber. */
    method Resolve(rid: string, decision: string, suggestion: Option<string>, who: string, now: nat)
      returns (resolved: bool)
      modifies this, state
      ensures Model() == old(Model()).Resolve(env, rid, decision, suggestion, who, now)
      ensures resolved == (rid in old(state.pendingPermissions))
    {
      var perm := state.ResolvePermission(rid, now);
      resolved := perm.Some?;
      if resolved {
        if rid in waiters {
          replies := replies + [Reply(waiters[rid], rid, decision, suggestion)];
          waiters := waiters - {rid};
        }
        Broadcast(PermissionResolved(perm.value.requestId, who));
      }
    }

    method LinkHook(sid: string, wid: Option<string>, now: nat)
      modifies this, state
      ensures Model() == old(Model()).LinkHook(sid, wid, now)
    {
      if wid.Some? {
        if sid !in channels {
          if wid.value in channels {
            channels := channels[sid := channels[wid.value]];
          }
        }
        state.EnsureSession(sid, now);
        if sid != wid.value && !state.sessions[sid].isMain {
          state.sessions := state.sessions[sid := state.sessions[sid].(parentWrapperId := wid)];
        }
      }
    }

    method ResolveAll(pendingIds: seq<string>, now: nat)
      modifies this, state
      ensures Model() == old(Model()).ResolveAll(env, pendingIds, now)
    {
      ghost var start := Model();
      for i := 0 to |pendingIds|
        invariant start.ResolveAll(env, pendingIds, now) == Model().ResolveAll(env, pendingIds[i..], now)
      {
        assert pendingIds[i..][1..] == pendingIds[i + 1..];
        var _ := Resolve(pendingIds[i], "allow", None, "terminal", now);
      }
    }

    method Hook(envelope: Envelope, now: nat, found: Option<string>)
      requires env.Valid()
      modifies this, state
      ensures Model() == old(Model()).Hook(env, envelope, now, found)
    {
      var sid := envelope.event.sessionId;
      LinkHook(sid, envelope.wrapperId, now);
      var pendingIds := env.order(tick, state.View().PendingFor(sid));
      ResolveAll(pendingIds, now);
      state.ApplyHookEvent(envelope.event, now);
      state.PopulatePath(sid, envelope.wrapperId, found);
      BroadcastState();
    }

    /** Offers one event of the greeting to the newcomer `tx`. */
    method Offer(tx: nat, event: Event) returns (ghost taken: seq<Event>)
      modifies this`tick
      ensures tick == old(tick) + 1
      ensures taken == if env.accepts(old(tick), tx) then [event] else []
    {
      taken := if env.accepts(tick, tx) then [event] else [];
      tick := tick + 1;
    }

    /** Sends the announcements of `order` to the newcomer `tx`, one tick apart. */
    method Announce(tx: nat, order: seq<string>) returns (ghost taken: seq<Event>)
      modifies this`tick
      ensures tick == old(tick) + |Announcements(state.View(), order)|
      ensures taken == Taken(env, old(tick), tx, Announcements(state.View(), order))
    {
      ghost var st := state.View();
      ghost var offered: seq<Event> := [];
      taken := [];
      for i := 0 to |order|
        invariant state.View() == st
        invariant tick == old(tick) + |offered|
        invariant offered == Announcements(st, order[..i])
        invariant taken == Taken(env, old(tick), tx, offered)
      {
        AnnouncementsSnoc(st, order[..i], order[i]);
        assert order[..i + 1] == order[..i] + [order[i]];
        if order[i] in state.pendingPermissions {
          TakenSnoc(env, old(tick), tx, offered, Announcement(st, order[i]));
          ghost var more := Offer(tx, Announcement(state.View(), order[i]));
          taken, offered := taken + more, offered + [Announcement(st, order[i])];
        }
      }
      assert order[..|order|] == order;
    }

    /** `tx` is the new subscriber's queue; queues are numbered as they join. */
    method Subscribe(tx: nat)
      requires env.Valid() && tx == joined
      modifies this
      ensures Model() == old(Model()).Subscribe(env)
    {
      ghost var offers := Model().Greeting(env);
      var order := env.order(tick, state.pendingPermissions.Keys);
      var update := CurrentUpdate();
      ghost var first := Offer(tx, update);
      ghost var rest := Announce(tx, order);
      TakenCons(env, old(tick), tx, update, Announcements(state.View(), order));
      assert first + rest == Taken(env, old(tick), tx, offers);
      Enroll(tx, first + rest, first + rest == offers);
    }

    method Enroll(tx: nat, ghost taken: seq<Event>, ghost complete: bool)
      requires tx == joined
      modifies this`subscribers, this`mail, this`joined
      ensures Model() == old(Model()).Enroll(taken, complete)
    {
      subscribers := subscribers + [tx];
      mail := mail[tx := Mail(taken, complete, |broadcasts|, taken)];
      joined := joined + 1;
    }

    method PermissionResponse(rid: string, decision: string, suggestion: Option<string>, now: nat)
      requires env.Valid()
      modifies this, state
      ensures Model() == old(Model()).PermissionResponse(env, rid, decision, suggestion, now)
    {
      var resolved := Resolve(rid, decision, suggestion, "dashboard", now);
      if resolved {
        BroadcastState();
      }
    }

    /** `reply` is the one-shot channel the hook waits on; channels are numbered as they are issued. */
    method PermissionRequest(perm: Permission, reply: nat, now: nat)
      requires env.Valid() && reply == |issued|
      modifies this, state
      ensures Model() == old(Model()).PermissionRequest(env, perm, now)
    {
      FileRequest(perm, reply, now);
      var shownOn := perm.sessionId;
      if perm.sessionId in state.sessions && state.sessions[perm.sessionId].parentWrapperId.Some? {
        shownOn := state.sessions[perm.sessionId].parentWrapperId.value;
      }
      Broadcast(PermissionPending(shownOn, perm.requestId, perm.tool, perm.detail, perm.suggestions));
      BroadcastState();
    }

    method FileRequest(perm: Permission, reply: nat, now: nat)
      requires reply == |issued|
      modifies this, state
      ensures Model() == old(Model()).FileRequest(perm, now)
    {
      state.AddPermissionRequest(perm, now);
      dropped := if perm.requestId in waiters then dropped + {waiters[perm.requestId]} else dropped;
      waiters := waiters[perm.requestId := reply];
      issued := issued + [perm.requestId];
    }

    method RegisterWrapper(sid: string, info: WrapperInfo, channel: nat, now: nat)
      requires env.Valid()
      modifies this, state
      ensures Model() == old(Model()).RegisterWrapper(env, sid, info, channel, now)
    {
      state.Register(sid, info, now);
      channels := channels[sid := channel];
      if info.realSessionId.Some? {
        channels := channels[info.realSessionId.value := channel];
      }
      BroadcastState();
    }

    method UnregisterWrapper(wid: string)
      requires env.Valid()
      modifies this, state
      ensures Model() == old(Model()).UnregisterWrapper(env, wid)
    {
      var subs := set id | id in state.sessions && state.sessions[id].parentWrapperId == Some(wid);
      channels := channels - {wid};
      channels := channels - subs;
      assert channels == old(channels) - (old(state.View()).Household(wid) + {wid});
      state.RemoveWrapper(wid);
      BroadcastState();
    }

    method UpdateSuggestion(sid: string, suggestion: Option<string>)
      requires env.Valid()
      modifies this, state
      ensures Model() == old(Model()).UpdateSuggestion(env, sid, suggestion)
    {
      if sid in state.sessions && state.sessions[sid].promptSuggestion != suggestion {
        state.sessions := state.sessions[sid := state.sessions[sid].(promptSuggestion := suggestion)];
        BroadcastState();
      }
    }

    method UpdateThinking(sid: string, text: Option<string>)
      requires env.Valid()
      modifies this, state
      ensures Model() == old(Model()).UpdateThinking(env, sid, text)
    {
      if sid in state.sessions && state.sessions[sid].thinkingText != text {
        state.sessions := state.sessions[sid := state.sessions[sid].(thinkingText := text)];
        BroadcastState();
      }
    }

    method SendPrompt(sid: string, now: nat) returns (outcome: PromptOutcome)
      requires env.Valid()
      modifies this, state
      ensures Model() == old(Model()).SendPrompt(env, sid, now)
      ensures outcome == PromptSent <==> old(Model()).PromptGoesOut(env, sid)
    {
      var key := FindKey(state.sessions.Keys, sid);
      if key.Some? && !state.sessions[key.value].isMain && state.sessions[key.value].parentWrapperId.Some? {
        return IsSubagent;
      }
      var target := FindKey(channels.Keys, sid);
      if target == None {
        return NotWrapped;
      }
      var ok := env.promptAccepts(tick, channels[target.value]);
      tick := tick + 1;
      if !ok {
        return ChannelFull;
      }
      state.SetStatus(sid, Working, now);
      BroadcastState();
      outcome := PromptSent;
    }

    /** The loop: each message goes to its arm. `tx` is the queue of a new
        subscriber and `reply` the channel of a new request. */
    method Receive(input: Input, tx: nat, reply: nat)
      requires env.Valid()
      requires (input.SubscribeIn? ==> tx == joined) && (input.RequestIn? ==> reply == |issued|)
      modifies this, state
      ensures Model() == Step(old(Model()), env, input)
    {
      match input {
        case HookIn(envelope, now, found) => Hook(envelope, now, found);
        case SubscribeIn => Subscribe(tx);
        case ResponseIn(rid, decision, suggestion, now) => PermissionResponse(rid, decision, suggestion, now);
        case RequestIn(perm, now) => PermissionRequest(perm, reply, now);
        case RegisterIn(sid, info, channel, now) => RegisterWrapper(sid, info, channel, now);
        case UnregisterIn(wid) => UnregisterWrapper(wid);
        case SuggestionIn(sid, suggestion) => UpdateSuggestion(sid, suggestion);
        case ThinkingIn(sid, text) => UpdateThinking(sid, text);
        case PromptIn(sid, now) =>
          var _ := SendPrompt(sid, now);
      }
    }
  }
}
