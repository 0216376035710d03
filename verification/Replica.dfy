/** Subscribers as replicas of the daemon: what each queue has received, and
    what a client that folds it believes. */
module Replica {
  import opened Wrappers
  import opened SessionState
  import opened DashView
  import opened Daemon
  import opened Extension
  import opened Lifecycle

  // ------------------------------------------------------------ the stream

  /** Every subscriber still listed has received its greeting and then every
      broadcast made since it joined, in order. */
  ghost predicate Streams(d: Snapshot) {
    && (forall id :: id in d.subscribers ==>
          && id in d.mail
          && d.mail[id].joinedAt <= |d.broadcasts|
          && d.mail[id].received == d.mail[id].greeting + d.broadcasts[d.mail[id].joinedAt..])
    && (forall id :: id in d.mail ==> id < d.joined)
  }

  /** From `d` to `d'` nobody joined, `emitted` was broadcast, and whoever is
      still listed received all of it. */
  ghost predicate Extends(d: Snapshot, d': Snapshot, emitted: seq<Event>) {
    && d'.joined == d.joined
    && d'.mail.Keys == d.mail.Keys
    && d'.broadcasts == d.broadcasts + emitted
    && (forall id :: id in d'.subscribers ==> id in d.subscribers)
    && (forall id :: id in d'.subscribers && id in d.mail ==>
          d'.mail[id] == d.mail[id].(received := d.mail[id].received + emitted))
  }

  lemma {:induction false} KeptMembers(env: Env, tick: nat, subscribers: seq<nat>)
    ensures forall id :: id in Kept(env, tick, subscribers) <==> id in subscribers && env.accepts(tick, id)
  {
    if subscribers == [] {
    } else {
      KeptMembers(env, tick, subscribers[1..]);
      assert subscribers == [subscribers[0]] + subscribers[1..];
    }
  }

  lemma BroadcastExtends(d: Snapshot, env: Env, event: Event)
    ensures Extends(d, d.Broadcast(env, event), [event])
  {
    KeptMembers(env, d.tick, d.subscribers);
  }

  lemma ExtendsThrough(a: Snapshot, b: Snapshot, c: Snapshot, first: seq<Event>, second: seq<Event>)
    requires Extends(a, b, first) && Extends(b, c, second)
    ensures Extends(a, c, first + second)
  {
  }

  lemma ExtendsKeepsStreams(d: Snapshot, d': Snapshot, emitted: seq<Event>)
    requires Streams(d) && Extends(d, d', emitted)
    ensures Streams(d')
  {
  }

  // ------------------------------------------------------------ what a client believes

  function Shown(st: State, rid: string): PendingView
    requires rid in st.pending
  {
    var e := Announcement(st, rid);
    PendingView(e.sessionId, e.tool, e.detail, e.suggestions)
  }

  /** A request as a client lists it: under the wrapper its session is linked
      to, or else under its session, with what was asked. */
  ghost predicate ShownInFull(st: State, perm: Permission, view: PendingView) {
    && view.tool == perm.tool && view.detail == perm.detail && view.suggestions == perm.suggestions
    && (perm.sessionId !in st.sessions ==> view.sessionId == perm.sessionId)
    && (perm.sessionId in st.sessions && st.sessions[perm.sessionId].parentWrapperId == None ==>
          view.sessionId == perm.sessionId)
    && (perm.sessionId in st.sessions && st.sessions[perm.sessionId].parentWrapperId.Some? ==>
          view.sessionId == st.sessions[perm.sessionId].parentWrapperId.value)
  }

  /** The client knows every pending request as the daemon would announce it
      now (except those filed under `exempt`), and no request without a waiter. */
  ghost predicate AgreesOnPending(d: Snapshot, c: Client, exempt: set<string>) {
    && d.state.pending.Keys <= c.pending.Keys <= d.waiters.Keys
    && (forall rid :: rid in d.state.pending && d.state.pending[rid].sessionId !in exempt ==>
          c.pending[rid] == Shown(d.state, rid))
  }

  ghost predicate Agrees(d: Snapshot, c: Client) {
    AgreesOnPending(d, c, {}) && IsDashView(d.state, false, c.sessions)
  }

  ghost predicate Replicated(d: Snapshot) {
    forall id :: id in d.subscribers && id in d.mail && d.mail[id].complete ==>
        Agrees(d, OFFLINE.Fold(d.mail[id].received))
  }

  /** No request is pending without someone waiting for the answer. */
  ghost predicate Awaited(d: Snapshot) {
    d.state.pending.Keys <= d.waiters.Keys
  }

  // ------------------------------------------------------------ one message

  function Resolutions(rids: seq<string>): seq<Event> {
    if rids == [] then [] else [PermissionResolved(rids[0], "terminal")] + Resolutions(rids[1..])
  }

  lemma ResolveParents(st: State, rid: string, now: nat)
    ensures var st' := st.ResolvePermission(rid, now);
      && st'.pending == st.pending - {rid}
      && forall s :: st'.ParentOf(s) == st.ParentOf(s)
  {
  }

  lemma ResolveAgrees(d: Snapshot, env: Env, rid: string, decision: string, suggestion: Option<string>, who: string,
                      now: nat, c: Client, exempt: set<string>)
    requires d.state.WellFormed() && AgreesOnPending(d, c, exempt) && rid in d.state.pending
    ensures var d' := d.Resolve(env, rid, decision, suggestion, who, now);
      && Extends(d, d', [PermissionResolved(rid, who)])
      && AgreesOnPending(d', c.Apply(PermissionResolved(rid, who)), exempt)
      && d'.waiters == d.waiters - {rid}
      && d'.state.WellFormed()
  {
    var perm := d.state.pending[rid];
    var d1 := d.(state := d.state.ResolvePermission(rid, now));
    var d2 := d1.(waiters := d1.waiters - {rid}, replies := d1.replies + [Reply(d.waiters[rid], rid, decision, suggestion)]);
    assert d.Resolve(env, rid, decision, suggestion, who, now) == d2.Broadcast(env, PermissionResolved(rid, who));
    BroadcastExtends(d2, env, PermissionResolved(rid, who));
    ResolveKeepsWellFormed(d.state, rid, now);
    ResolveParents(d.state, rid, now);
  }

  lemma {:induction false} ResolveAllAgrees(d: Snapshot, env: Env, rids: seq<string>, sid: string, now: nat, c: Client,
                                            exempt: set<string>)
    requires d.state.WellFormed() && AgreesOnPending(d, c, exempt)
    requires Enumerates(rids, d.state.PendingFor(sid))
    ensures var d' := d.ResolveAll(env, rids, now);
      && Extends(d, d', Resolutions(rids))
      && AgreesOnPending(d', c.Fold(Resolutions(rids)), exempt)
      && c.Fold(Resolutions(rids)).sessions == c.sessions
      && d'.waiters == d.waiters - d.state.PendingFor(sid)
    decreases rids
  {
    if rids != [] {
      var rid := rids[0];
      assert rid in d.state.PendingFor(sid);
      var d' := d.Resolve(env, rid, "allow", None, "terminal", now);
      var c' := c.Apply(PermissionResolved(rid, "terminal"));
      ResolveAgrees(d, env, rid, "allow", None, "terminal", now, c, exempt);
      ResolveParents(d.state, rid, now);
      EnumerationTail(rids, d.state.PendingFor(sid));
      assert d'.state.PendingFor(sid) == d.state.PendingFor(sid) - {rid};
      ResolveAllAgrees(d', env, rids[1..], sid, now, c', exempt);
      ExtendsThrough(d, d', d'.ResolveAll(env, rids[1..], now), [PermissionResolved(rid, "terminal")],
          Resolutions(rids[1..]));
      assert Resolutions(rids)[1..] == Resolutions(rids[1..]);
    } else {
      assert d.state.PendingFor(sid) == {};
    }
  }

  lemma FinishWithUpdate(d: Snapshot, env: Env, c: Client)
    requires env.Valid() && d.state.WellFormed() && AgreesOnPending(d, c, {})
    ensures Extends(d, d.BroadcastState(env), [d.CurrentUpdate(env)])
    ensures Agrees(d.BroadcastState(env), c.Apply(d.CurrentUpdate(env)))
  {
    BroadcastExtends(d, env, d.CurrentUpdate(env));
    var sessionOrder, pendingOrder := env.order(d.tick, d.state.sessions.Keys), env.order(d.tick, d.state.pending.Keys);
    assert Enumerates(sessionOrder, d.state.sessions.Keys) && Enumerates(pendingOrder, d.state.pending.Keys);
    DashIsView(d.state, false, sessionOrder, pendingOrder);
  }

  /** Nothing a client knows about pending requests depends on sessions other
      than through their wrapper links. */
  lemma SamePending(d: Snapshot, d': Snapshot, c: Client, exempt: set<string>)
    requires AgreesOnPending(d, c, exempt)
    requires d'.waiters == d.waiters && d'.state.pending == d.state.pending
    requires forall rid :: rid in d.state.pending && d.state.pending[rid].sessionId !in exempt ==>
               d'.state.ParentOf(d.state.pending[rid].sessionId) == d.state.ParentOf(d.state.pending[rid].sessionId)
    ensures AgreesOnPending(d', c, exempt)
  {
  }

  ghost function Emitted(d: Snapshot, d': Snapshot): seq<Event>
    requires |d.broadcasts| <= |d'.broadcasts|
  {
    d'.broadcasts[|d.broadcasts|..]
  }

  /** `d'` follows `d`, and a client that agreed with `d` and hears what was
      broadcast in between agrees with `d'`. */
  ghost predicate Follows(d: Snapshot, d': Snapshot, c: Client) {
    && |d.broadcasts| <= |d'.broadcasts|
    && Extends(d, d', Emitted(d, d'))
    && Agrees(d', c.Fold(Emitted(d, d')))
  }

  lemma FollowsBy(d: Snapshot, d': Snapshot, c: Client, emitted: seq<Event>)
    requires Extends(d, d', emitted) && Agrees(d', c.Fold(emitted))
    ensures Follows(d, d', c)
  {
  }

  /** The part of a hook before its session is settled: link it and resolve
      what is pending under it. */
  lemma HookSettles(d: Snapshot, env: Env, envelope: Envelope, now: nat, c: Client)
    requires env.Valid() && d.state.WellFormed() && Agrees(d, c)
    ensures var sid := envelope.event.sessionId;
      var d1 := d.LinkHook(sid, envelope.wrapperId, now);
      var rids := env.order(d1.tick, d1.state.PendingFor(sid));
      var d2 := d1.ResolveAll(env, rids, now);
      && Extends(d, d2, Resolutions(rids))
      && AgreesOnPending(d2, c.Fold(Resolutions(rids)), {})
      && d2.state == d.state.Link(sid, envelope.wrapperId, now).Dismiss(sid, now)
      && d2.waiters == d.waiters - d.state.PendingFor(sid)
  {
    var sid := envelope.event.sessionId;
    var d1 := d.LinkHook(sid, envelope.wrapperId, now);
    LinkSame(d.state, sid, envelope.wrapperId, now);
    LinkKeepsWellFormed(d.state, sid, envelope.wrapperId, now);
    assert AgreesOnPending(d1, c, {sid});
    assert d1.state.PendingFor(sid) == d.state.PendingFor(sid);
    var rids := env.order(d1.tick, d1.state.PendingFor(sid));
    var d2 := d1.ResolveAll(env, rids, now);
    ResolveAllAgrees(d1, env, rids, sid, now, c, {sid});
    ResolveAllDismisses(d1, env, rids, sid, now);
    LinkedAndDismissed(d.state, sid, envelope.wrapperId, now);
    assert forall p :: p in d2.state.pending ==> p !in d2.state.PendingFor(sid);
  }

  lemma HookFollows(d: Snapshot, env: Env, envelope: Envelope, now: nat, found: Option<string>, c: Client)
    requires env.Valid() && d.state.WellFormed() && Agrees(d, c)
    ensures Follows(d, d.Hook(env, envelope, now, found), c)
  {
    var sid := envelope.event.sessionId;
    var d1 := d.LinkHook(sid, envelope.wrapperId, now);
    var rids := env.order(d1.tick, d1.state.PendingFor(sid));
    var d2, c2 := d1.ResolveAll(env, rids, now), c.Fold(Resolutions(rids));
    HookSettles(d, env, envelope, now, c);
    LinkedAndDismissed(d.state, sid, envelope.wrapperId, now);
    var d3 := d2.(state := d2.state.ApplyHookEvent(envelope.event, now).PopulatePath(sid, envelope.wrapperId, found));
    HookTailJustified(d2.state, envelope.event, envelope.wrapperId, found, now);
    assert forall p :: p in d2.state.pending ==> p !in d2.state.PendingFor(sid);
    SamePending(d2, d3, c2, {});
    HookKeepsWellFormed(d.state, envelope, now, found);
    FinishWithUpdate(d3, env, c2);
    var update := d3.CurrentUpdate(env);
    ExtendsThrough(d, d2, d3.BroadcastState(env), Resolutions(rids), [update]);
    FoldConcat(c, Resolutions(rids), [update]);
    FollowsBy(d, d3.BroadcastState(env), c, Resolutions(rids) + [update]);
  }

  lemma ResponseFollows(d: Snapshot, env: Env, rid: string, decision: string, suggestion: Option<string>, now: nat,
                        c: Client)
    requires env.Valid() && d.state.WellFormed() && Agrees(d, c)
    ensures Follows(d, d.PermissionResponse(env, rid, decision, suggestion, now), c)
  {
    if rid !in d.state.pending {
      FollowsBy(d, d, c, []);
    } else {
      var d1 := d.Resolve(env, rid, decision, suggestion, "dashboard", now);
      var resolved := PermissionResolved(rid, "dashboard");
      ResolveAgrees(d, env, rid, decision, suggestion, "dashboard", now, c, {});
      FinishWithUpdate(d1, env, c.Apply(resolved));
      var update := d1.CurrentUpdate(env);
      ExtendsThrough(d, d1, d1.BroadcastState(env), [resolved], [update]);
      FoldConcat(c, [resolved], [update]);
      FollowsBy(d, d1.BroadcastState(env), c, [resolved] + [update]);
    }
  }

  lemma RequestParents(st: State, perm: Permission, now: nat)
    ensures var st' := st.AddPermissionRequest(perm, now);
      && st'.pending == st.pending[perm.requestId := perm]
      && forall s :: st'.ParentOf(s) == st.ParentOf(s)
  {
  }

  lemma RequestFollows(d: Snapshot, env: Env, perm: Permission, now: nat, c: Client)
    requires env.Valid() && d.state.WellFormed() && Agrees(d, c)
    ensures Follows(d, d.PermissionRequest(env, perm, now), c)
  {
    var d1 := d.FileRequest(perm, now);
    RequestParents(d.state, perm, now);
    RequestKeepsWellFormed(d.state, perm, now);
    var asked := Announcement(d1.state, perm.requestId);
    var d2 := d1.Broadcast(env, asked);
    BroadcastExtends(d1, env, asked);
    assert Extends(d, d2, [asked]);
    assert AgreesOnPending(d2, c.Apply(asked), {});
    FinishWithUpdate(d2, env, c.Apply(asked));
    var update := d2.CurrentUpdate(env);
    ExtendsThrough(d, d2, d2.BroadcastState(env), [asked], [update]);
    FoldConcat(c, [asked], [update]);
    FollowsBy(d, d2.BroadcastState(env), c, [asked] + [update]);
  }

  /** A message that changes the tables without touching what clients know of
      pending requests, and then broadcasts the state. */
  lemma UpdateFollows(d: Snapshot, d1: Snapshot, env: Env, c: Client)
    requires env.Valid() && d1.state.WellFormed() && AgreesOnPending(d1, c, {})
    requires d1.subscribers == d.subscribers && d1.mail == d.mail && d1.broadcasts == d.broadcasts
            && d1.joined == d.joined
    ensures Follows(d, d1.BroadcastState(env), c)
  {
    FinishWithUpdate(d1, env, c);
    FollowsBy(d, d1.BroadcastState(env), c, [d1.CurrentUpdate(env)]);
  }

  lemma QuietUpdateFollows(d: Snapshot, st: State, env: Env, c: Client)
    requires env.Valid() && st.WellFormed() && Agrees(d, c)
    requires st.pending == d.state.pending && forall s :: st.ParentOf(s) == d.state.ParentOf(s)
    ensures Follows(d, d.(state := st).BroadcastState(env), c)
  {
    SamePending(d, d.(state := st), c, {});
    UpdateFollows(d, d.(state := st), env, c);
  }

  lemma RegisterFollows(d: Snapshot, env: Env, sid: string, info: WrapperInfo, channel: nat, now: nat, c: Client)
    requires env.Valid() && d.state.Register(sid, info, now).WellFormed() && Agrees(d, c)
    ensures Follows(d, d.RegisterWrapper(env, sid, info, channel, now), c)
  {
    RegisterSame(d.state, sid, info, now);
    var own := d.channels[sid := channel];
    var d1 := d.(state := d.state.Register(sid, info, now),
                 channels := if info.realSessionId.Some? then own[info.realSessionId.value := channel] else own);
    SamePending(d, d1, c, {});
    UpdateFollows(d, d1, env, c);
  }

  lemma UnregisterFollows(d: Snapshot, env: Env, wid: string, c: Client)
    requires env.Valid() && d.state.RemoveWrapper(wid).WellFormed() && Agrees(d, c)
    ensures Follows(d, d.UnregisterWrapper(env, wid), c)
    ensures c.Fold(Emitted(d, d.UnregisterWrapper(env, wid))).pending == c.pending
  {
    var d1 := d.(channels := d.channels - (d.state.Household(wid) + {wid}), state := d.state.RemoveWrapper(wid));
    assert AgreesOnPending(d1, c, {});
    UpdateFollows(d, d1, env, c);
    assert Emitted(d, d1.BroadcastState(env)) == [d1.CurrentUpdate(env)];
  }

  lemma PromptFollows(d: Snapshot, env: Env, sid: string, now: nat, c: Client)
    requires env.Valid() && d.state.WellFormed() && Agrees(d, c)
    ensures Follows(d, d.SendPrompt(env, sid, now), c)
  {
    if d.PromptGoesOut(env, sid) {
      var d1 := d.(tick := d.tick + 1, state := d.state.SetStatus(sid, Working, now));
      SamePending(d, d1, c, {});
      UpdateFollows(d, d1, env, c);
    } else {
      FollowsBy(d, d.SendPrompt(env, sid, now), c, []);
    }
  }

  lemma StepFollows(d: Snapshot, env: Env, input: Input, c: Client)
    requires env.Valid() && d.state.WellFormed() && Agrees(d, c) && !input.SubscribeIn?
    ensures Follows(d, Step(d, env, input), c)
  {
    StepState(d, env, input);
    StepKeepsWellFormed(d.state, input, Prompted(d, env, input));
    match input
    case HookIn(envelope, now, found) => HookFollows(d, env, envelope, now, found, c);
    case ResponseIn(rid, decision, suggestion, now) => ResponseFollows(d, env, rid, decision, suggestion, now, c);
    case RequestIn(perm, now) => RequestFollows(d, env, perm, now, c);
    case RegisterIn(sid, info, channel, now) => RegisterFollows(d, env, sid, info, channel, now, c);
    case UnregisterIn(wid) => UnregisterFollows(d, env, wid, c);
    case SuggestionIn(sid, suggestion) =>
      if Step(d, env, input) == d {
        FollowsBy(d, d, c, []);
      } else {
        QuietUpdateFollows(d, d.state.WithSuggestion(sid, suggestion), env, c);
      }
    case ThinkingIn(sid, text) =>
      if Step(d, env, input) == d {
        FollowsBy(d, d, c, []);
      } else {
        QuietUpdateFollows(d, d.state.WithThinking(sid, text), env, c);
      }
    case PromptIn(sid, now) => PromptFollows(d, env, sid, now, c);
  }

  // ------------------------------------------------------------ joining

  lemma {:induction false} FoldAnnouncements(st: State, order: seq<string>, c: Client)
    requires st.WellFormed()
    ensures var c' := c.Fold(Announcements(st, order));
      && c'.sessions == c.sessions
      && (forall rid :: rid in c'.pending <==> rid in c.pending || (rid in order && rid in st.pending))
      && (forall rid :: rid in order && rid in st.pending ==> c'.pending[rid] == Shown(st, rid))
      && (forall rid :: rid in c.pending && rid !in order ==> c'.pending[rid] == c.pending[rid])
    decreases |order|
  {
    if order == [] {
    } else {
      var rid, tail := order[0], order[1..];
      assert order == [rid] + tail;
      if rid in st.pending {
        var e := Announcement(st, rid);
        assert Announcements(st, order)[1..] == Announcements(st, tail);
        FoldAnnouncements(st, tail, c.Apply(e));
      } else {
        assert Announcements(st, order) == Announcements(st, tail);
        FoldAnnouncements(st, tail, c);
      }
    }
  }

  lemma GreetingAgrees(d: Snapshot, env: Env)
    requires env.Valid() && d.state.WellFormed() && Awaited(d)
    ensures Agrees(d, OFFLINE.Fold(d.Greeting(env)))
    ensures var pending := OFFLINE.Fold(d.Greeting(env)).pending;
      && pending.Keys == d.state.pending.Keys
      && forall rid :: rid in pending ==> ShownInFull(d.state, d.state.pending[rid], pending[rid])
  {
    var order := env.order(d.tick, d.state.pending.Keys);
    var update := d.CurrentUpdate(env);
    assert Enumerates(order, d.state.pending.Keys);
    assert Enumerates(env.order(d.tick, d.state.sessions.Keys), d.state.sessions.Keys);
    DashIsView(d.state, false, env.order(d.tick, d.state.sessions.Keys), order);
    FoldAnnouncements(d.state, order, OFFLINE.Apply(update));
    assert d.Greeting(env)[1..] == Announcements(d.state, order);
  }

  // ------------------------------------------------------------ whole runs

  ghost predicate Sound(d: Snapshot) {
    d.state.WellFormed() && Awaited(d) && Streams(d) && Replicated(d)
  }

  lemma SubscribeKeepsSound(d: Snapshot, env: Env)
    requires env.Valid() && Sound(d)
    ensures Sound(d.Subscribe(env))
  {
    var d' := d.Subscribe(env);
    GreetingAgrees(d, env);
    forall id | id in d'.subscribers && d'.mail[id].complete
      ensures Agrees(d', OFFLINE.Fold(d'.mail[id].received))
    {
      if id != d.joined {
        assert id in d.subscribers;
        assert Agrees(d, OFFLINE.Fold(d.mail[id].received));
      }
    }
  }

  /** Some client agrees with any well-formed daemon. */
  lemma SomeClientAgrees(d: Snapshot, env: Env) returns (c: Client)
    requires env.Valid() && d.state.WellFormed() && Awaited(d)
    ensures Agrees(d, c)
  {
    c := OFFLINE.Fold(d.Greeting(env));
    GreetingAgrees(d, env);
  }

  lemma StepKeepsSound(d: Snapshot, env: Env, input: Input)
    requires env.Valid() && Sound(d)
    ensures Sound(Step(d, env, input))
  {
    if input.SubscribeIn? {
      SubscribeKeepsSound(d, env);
    } else {
      var d' := Step(d, env, input);
      StepState(d, env, input);
      StepKeepsWellFormed(d.state, input, Prompted(d, env, input));
      var anyone := SomeClientAgrees(d, env);
      StepFollows(d, env, input, anyone);
      ExtendsKeepsStreams(d, d', Emitted(d, d'));
      forall id | id in d'.subscribers && d'.mail[id].complete
        ensures Agrees(d', OFFLINE.Fold(d'.mail[id].received))
      {
        var c := OFFLINE.Fold(d.mail[id].received);
        StepFollows(d, env, input, c);
        FoldConcat(OFFLINE, d.mail[id].received, Emitted(d, d'));
      }
    }
  }

  lemma {:induction false} RunSound(env: Env, inputs: seq<Input>)
    requires env.Valid()
    ensures Sound(Run(env, inputs))
  {
    if inputs == [] {
    } else {
      RunSound(env, inputs[..|inputs| - 1]);
      StepKeepsSound(Run(env, inputs[..|inputs| - 1]), env, inputs[|inputs| - 1]);
    }
  }

  /** Replica agreement: after any run, a listed subscriber whose greeting
      fitted its queue has missed no broadcast since it joined, and a client
      that folds what it received knows every pending request as the daemon
      would announce it now, knows no request that has no waiter, and lists the
      sessions faithfully. */
  lemma ReplicaAgreement(env: Env, inputs: seq<Input>, id: nat)
    requires env.Valid()
    requires id in Run(env, inputs).subscribers
    ensures var d := Run(env, inputs);
      && id in d.mail
      && d.mail[id].joinedAt <= |d.broadcasts|
      && d.mail[id].received == d.mail[id].greeting + d.broadcasts[d.mail[id].joinedAt..]
      && (d.mail[id].complete ==>
            var c := OFFLINE.Fold(d.mail[id].received);
            && d.state.pending.Keys <= c.pending.Keys <= d.waiters.Keys
            && (forall rid :: rid in d.state.pending ==> ShownInFull(d.state, d.state.pending[rid], c.pending[rid]))
            && IsDashView(d.state, false, c.sessions))
  {
    RunSound(env, inputs);
  }

  // ------------------------------------------------------------ orphans

  /** Requests someone still waits on although they are no longer pending. */
  function Orphans(d: Snapshot): set<string> {
    d.waiters.Keys - d.state.pending.Keys
  }

  /** Pending requests that unregistering `wid` discards without a word. */
  function Discarded(st: State, wid: string): set<string> {
    set rid | rid in st.pending && st.pending[rid].sessionId in st.Household(wid)
  }

  lemma ResponseOrphans(d: Snapshot, env: Env, rid: string, decision: string, suggestion: Option<string>, now: nat)
    requires Awaited(d)
    ensures Orphans(d.PermissionResponse(env, rid, decision, suggestion, now)) == Orphans(d)
  {
    ResolveParents(d.state, rid, now);
  }

  lemma RequestOrphans(d: Snapshot, env: Env, perm: Permission, now: nat)
    requires Awaited(d)
    ensures Orphans(d.PermissionRequest(env, perm, now)) == Orphans(d) - {perm.requestId}
  {
    RequestParents(d.state, perm, now);
  }

  lemma UnregisterOrphans(d: Snapshot, env: Env, wid: string)
    requires Awaited(d)
    ensures Orphans(d.UnregisterWrapper(env, wid)) == Orphans(d) + Discarded(d.state, wid)
  {
    assert d.state.RemoveWrapper(wid).pending.Keys == d.state.pending.Keys - Discarded(d.state, wid);
  }

  lemma RegisterOrphans(d: Snapshot, env: Env, sid: string, info: WrapperInfo, channel: nat, now: nat)
    ensures Orphans(d.RegisterWrapper(env, sid, info, channel, now)) == Orphans(d)
  {
    RegisterSame(d.state, sid, info, now);
  }

  lemma ClientOrphans(d: Snapshot, env: Env, input: Input)
    requires Awaited(d) && !input.HookIn?
    ensures Orphans(Step(d, env, input)) ==
            match input
            case UnregisterIn(wid) => Orphans(d) + Discarded(d.state, wid)
            case RequestIn(perm, _) => Orphans(d) - {perm.requestId}
            case _ => Orphans(d)
  {
    match input
    case ResponseIn(rid, decision, suggestion, now) => ResponseOrphans(d, env, rid, decision, suggestion, now);
    case RequestIn(perm, now) => RequestOrphans(d, env, perm, now);
    case RegisterIn(sid, info, channel, now) => RegisterOrphans(d, env, sid, info, channel, now);
    case UnregisterIn(wid) => UnregisterOrphans(d, env, wid);
    case _ =>
  }

  lemma HookWaiters(d: Snapshot, env: Env, envelope: Envelope, now: nat, found: Option<string>)
    requires env.Valid() && d.state.WellFormed() && Awaited(d)
    ensures var gone, d' := d.state.PendingFor(envelope.event.sessionId), d.Hook(env, envelope, now, found);
      d'.state.pending.Keys == d.state.pending.Keys - gone && d'.waiters == d.waiters - gone
  {
    var sid := envelope.event.sessionId;
    var d1 := d.LinkHook(sid, envelope.wrapperId, now);
    var c := SomeClientAgrees(d, env);
    HookSettles(d, env, envelope, now, c);
    LinkedAndDismissed(d.state, sid, envelope.wrapperId, now);
    var d2 := d1.ResolveAll(env, env.order(d1.tick, d1.state.PendingFor(sid)), now);
    HookTailJustified(d2.state, envelope.event, envelope.wrapperId, found, now);
    LinkSame(d.state, sid, envelope.wrapperId, now);
    assert d1.state.PendingFor(sid) == d.state.PendingFor(sid);
    SettleClears(d1.state.(pending := d1.state.pending - d1.state.PendingFor(sid)), sid, now);
  }

  /** The only messages that change the orphans: unregistering a wrapper adds
      what it discards, and reusing an orphan's id adopts it. */
  lemma OrphansExactly(d: Snapshot, env: Env, input: Input)
    requires env.Valid() && d.state.WellFormed() && Awaited(d)
    ensures Orphans(Step(d, env, input)) ==
            match input
            case UnregisterIn(wid) => Orphans(d) + Discarded(d.state, wid)
            case RequestIn(perm, _) => Orphans(d) - {perm.requestId}
            case _ => Orphans(d)
  {
    var d' := Step(d, env, input);
    if input.HookIn? {
      HookWaiters(d, env, input.envelope, input.now, input.found);
    } else {
      ClientOrphans(d, env, input);
    }
  }

  lemma Squeezed(d: Snapshot)
    requires Awaited(d)
    ensures Orphans(d) == {} <==> d.waiters.Keys == d.state.pending.Keys
  {
    if Orphans(d) == {} {
      forall rid | rid in d.waiters ensures rid in d.state.pending {
        assert rid !in Orphans(d);
      }
    }
  }

  lemma ExactAfterUnregister(d: Snapshot, env: Env, wid: string, c: Client)
    requires env.Valid() && d.state.WellFormed() && Agrees(d, c) && c.pending.Keys == d.state.pending.Keys
    ensures var d' := d.UnregisterWrapper(env, wid);
      && |d.broadcasts| <= |d'.broadcasts|
      && (c.Fold(Emitted(d, d')).pending.Keys == d'.state.pending.Keys <==> Discarded(d.state, wid) == {})
  {
    StepKeepsWellFormed(d.state, UnregisterIn(wid), false);
    UnregisterFollows(d, env, wid, c);
    assert d.state.RemoveWrapper(wid).pending.Keys == d.state.pending.Keys - Discarded(d.state, wid);
  }

  lemma ExactAfterOther(d: Snapshot, env: Env, input: Input, c: Client)
    requires env.Valid() && d.state.WellFormed() && Agrees(d, c) && Orphans(d) == {}
    requires !input.SubscribeIn? && !input.UnregisterIn?
    ensures var d' := Step(d, env, input);
      |d.broadcasts| <= |d'.broadcasts| && c.Fold(Emitted(d, d')).pending.Keys == d'.state.pending.Keys
  {
    var d' := Step(d, env, input);
    StepFollows(d, env, input, c);
    OrphansExactly(d, env, input);
    assert Orphans(d') == {} && Awaited(d');
    Squeezed(d');
  }

  /** A client with exactly the pending requests stays exact through a message
      if and only if the message does not unregister a wrapper with requests
      pending in its household. */
  lemma ExactUnlessDiscarded(d: Snapshot, env: Env, input: Input, c: Client)
    requires env.Valid() && d.state.WellFormed() && Agrees(d, c) && Orphans(d) == {}
    ensures var d' := Step(d, env, input);
      && |d.broadcasts| <= |d'.broadcasts|
      && (c.Fold(Emitted(d, d')).pending.Keys == d'.state.pending.Keys
          <==> !(input.UnregisterIn? && Discarded(d.state, input.wid) != {}))
  {
    Squeezed(d);
    assert c.pending.Keys == d.state.pending.Keys;
    match input
    case SubscribeIn => assert Emitted(d, Step(d, env, input)) == [];
    case UnregisterIn(wid) => ExactAfterUnregister(d, env, wid, c);
    case _ => ExactAfterOther(d, env, input, c);
  }

  ghost predicate DiscardsNothing(env: Env, inputs: seq<Input>) {
    forall i :: 0 <= i < |inputs| && inputs[i].UnregisterIn? ==>
      Discarded(Run(env, inputs[..i]).state, inputs[i].wid) == {}
  }

  lemma {:induction false} NoOrphans(env: Env, inputs: seq<Input>)
    requires env.Valid() && DiscardsNothing(env, inputs)
    ensures Run(env, inputs).waiters.Keys == Run(env, inputs).state.pending.Keys
  {
    if inputs == [] {
    } else {
      var n := |inputs| - 1;
      var before, d := inputs[..n], Run(env, inputs[..n]);
      assert forall i :: 0 <= i < n ==> before[..i] == inputs[..i];
      NoOrphans(env, before);
      RunSound(env, before);
      StepKeepsSound(d, env, inputs[n]);
      OrphansExactly(d, env, inputs[n]);
      Squeezed(d);
      Squeezed(Run(env, inputs));
    }
  }

  /** If no wrapper is unregistered while requests are pending in its
      household, a client's pending requests are exactly the daemon's. */
  lemma ReplicaExact(env: Env, inputs: seq<Input>, id: nat)
    requires env.Valid() && DiscardsNothing(env, inputs)
    requires id in Run(env, inputs).subscribers && id in Run(env, inputs).mail && Run(env, inputs).mail[id].complete
    ensures var d := Run(env, inputs);
      var pending := OFFLINE.Fold(d.mail[id].received).pending;
      && pending.Keys == d.state.pending.Keys
      && forall rid :: rid in pending ==> ShownInFull(d.state, d.state.pending[rid], pending[rid])
  {
    ReplicaAgreement(env, inputs, id);
    NoOrphans(env, inputs);
  }

  // ------------------------------------------------------------ a run that goes wrong

  /** Every queue has room for everything. */
  ghost predicate Roomy(env: Env) {
    forall tick: nat, id: nat :: env.accepts(tick, id)
  }

  /** Such worlds exist, so the run theorems are about something. */
  lemma RoomyWorld() returns (env: Env)
    ensures env.Valid() && Roomy(env)
  {
    env := Env((tick, id) => true, (tick, channel) => true, (tick, s) => Listing(s));
  }

  lemma {:induction false} RoomyTakes(env: Env, tick: nat, id: nat, offers: seq<Event>)
    requires Roomy(env)
    ensures Taken(env, tick, id, offers) == offers
    decreases |offers|
  {
    if offers == [] {
    } else {
      RoomyTakes(env, tick + 1, id, offers[1..]);
      assert offers == [offers[0]] + offers[1..];
    }
  }

  /** A subscriber that missed nothing shows request `rid`, on which a hook
      still waits, although it is no longer pending. */
  ghost predicate Misled(d: Snapshot, id: nat, rid: string) {
    && id in d.subscribers && id in d.mail && d.mail[id].complete
    && rid in OFFLINE.Fold(d.mail[id].received).pending && rid !in d.state.pending && rid in d.waiters
  }

  lemma DiscardedUnderSubscriber(d: Snapshot, env: Env, wid: string, rid: string)
    requires env.Valid() && Roomy(env) && Sound(d) && rid in Discarded(d.state, wid)
    ensures Misled(Step(Step(d, env, SubscribeIn), env, UnregisterIn(wid)), d.joined, rid)
  {
    var id, d1 := d.joined, d.Subscribe(env);
    RoomyTakes(env, d.tick, id, d.Greeting(env));
    SubscribeKeepsSound(d, env);
    assert id in d1.subscribers && d1.mail[id].complete;
    assert Agrees(d1, OFFLINE.Fold(d1.mail[id].received));
    var event := d1.(state := d1.state.RemoveWrapper(wid)).CurrentUpdate(env);
    KeptMembers(env, d1.tick, d1.subscribers);
    FoldConcat(OFFLINE, d1.mail[id].received, [event]);
    assert [event][1..] == [];
  }

  lemma RunTwoMore(env: Env, inputs: seq<Input>, a: Input, b: Input)
    ensures Run(env, inputs + [a] + [b]) == Step(Step(Run(env, inputs), env, a), env, b)
  {
    var more := inputs + [a];
    assert more[..|inputs|] == inputs && (more + [b])[..|more|] == more;
  }

  lemma DiscardedWith(st: State, wid: string, sid: string)
    requires WaitsFor(st, wid, sid)
    ensures "r" in Discarded(st, wid)
  {
  }

  /** A run that ends so: a wrapper's session asks, a client joins, and the
      wrapper is unregistered. */
  lemma DiscardRun(env: Env, wid: string, sid: string)
    requires env.Valid() && Roomy(env) && wid != sid
    ensures exists id :: Misled(Run(env, LinkedAsk(wid, sid) + [SubscribeIn] + [UnregisterIn(wid)]), id, "r")
  {
    var asked := LinkedAsk(wid, sid);
    LinkedAskState(env, wid, sid);
    RunSound(env, asked);
    DiscardedWith(Run(env, asked).state, wid, sid);
    DiscardedUnderSubscriber(Run(env, asked), env, wid, "r");
    RunTwoMore(env, asked, SubscribeIn, UnregisterIn(wid));
  }
}
