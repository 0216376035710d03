/** What each message makes the daemon tell its subscribers and answer its
    hooks: the events and replies themselves, in order. */
module Broadcasts {
  import opened Wrappers
  import opened SessionState
  import opened DashView
  import opened Daemon
  import opened Extension
  import opened Lifecycle
  import opened Replica

  /** Events and replies added from `d` to `d'`. */
  ghost predicate Adds(d: Snapshot, d': Snapshot, events: seq<Event>, replies: seq<Reply>) {
    d'.broadcasts == d.broadcasts + events && d'.replies == d.replies + replies
  }

  /** The state as clients are told it. */
  ghost predicate TellsState(d: Snapshot, event: Event) {
    event.StateUpdate? && IsDashView(d.state, false, event.sessions)
  }

  lemma UpdateTells(d: Snapshot, env: Env)
    requires env.Valid() && d.state.WellFormed()
    ensures TellsState(d.BroadcastState(env), d.CurrentUpdate(env))
    ensures Adds(d, d.BroadcastState(env), [d.CurrentUpdate(env)], [])
  {
    var sessionOrder, pendingOrder := env.order(d.tick, d.state.sessions.Keys), env.order(d.tick, d.state.pending.Keys);
    assert Enumerates(sessionOrder, d.state.sessions.Keys) && Enumerates(pendingOrder, d.state.pending.Keys);
    DashIsView(d.state, false, sessionOrder, pendingOrder);
    assert d.replies + [] == d.replies;
  }

  /** An answer reaches the hook that waits, as it was given; then subscribers
      hear of the resolution and of the new state. An answer to anything that
      is not pending does nothing. */
  lemma ResponseTells(d: Snapshot, env: Env, rid: string, decision: string, suggestion: Option<string>, now: nat)
    requires env.Valid() && d.state.WellFormed()
    ensures var d' := Step(d, env, ResponseIn(rid, decision, suggestion, now));
      if rid !in d.state.pending then d' == d
      else
        exists update ::
          && TellsState(d', update)
          && Adds(d, d', [PermissionResolved(rid, "dashboard"), update],
                  if rid in d.waiters then [Reply(d.waiters[rid], rid, decision, suggestion)] else [])
  {
    if rid in d.state.pending {
      var d1 := d.Resolve(env, rid, decision, suggestion, "dashboard", now);
      ResolveKeepsWellFormed(d.state, rid, now);
      UpdateTells(d1, env);
      var event := PermissionResolved(rid, "dashboard");
      assert d.broadcasts + [event] + [d1.CurrentUpdate(env)] == d.broadcasts + [event, d1.CurrentUpdate(env)];
      assert d.replies + [] == d.replies;
      assert d1.replies + [] == d1.replies;
    }
  }

  ghost predicate Announces(d: Snapshot, d': Snapshot, perm: Permission, shownOn: string, update: Event) {
    && TellsState(d', update)
    && (if perm.sessionId in d.state.sessions && d.state.sessions[perm.sessionId].parentWrapperId.Some?
        then d.state.sessions[perm.sessionId].parentWrapperId == Some(shownOn) else shownOn == perm.sessionId)
    && Adds(d, d', [PermissionPending(shownOn, perm.requestId, perm.tool, perm.detail, perm.suggestions), update], [])
  }

  /** A request is announced under the wrapper its session is linked to, or
      else under its session; then subscribers hear of the new state. */
  lemma RequestTells(d: Snapshot, env: Env, perm: Permission, now: nat)
    requires env.Valid() && d.state.WellFormed()
    ensures var d' := Step(d, env, RequestIn(perm, now));
      exists shownOn, update :: Announces(d, d', perm, shownOn, update)
  {
    var d1 := d.FileRequest(perm, now);
    var event := Announcement(d1.state, perm.requestId);
    var d2 := d1.Broadcast(env, event);
    RequestKeepsWellFormed(d.state, perm, now);
    RequestParents(d.state, perm, now);
    UpdateTells(d2, env);
    assert d.broadcasts + [event] + [d2.CurrentUpdate(env)] == d.broadcasts + [event, d2.CurrentUpdate(env)];
    assert d.replies + [] == d.replies;
    assert Announces(d, Step(d, env, RequestIn(perm, now)), perm, event.sessionId, d2.CurrentUpdate(env));
  }

  /** The answers a hook of a session gives to the requests `rids`. */
  function Allowed(waiters: map<string, nat>, rids: seq<string>): seq<Reply> {
    if rids == [] then []
    else
      (if rids[0] in waiters then [Reply(waiters[rids[0]], rids[0], "allow", None)] else []) + Allowed(waiters,
          rids[1..])
  }

  /** The resolutions it announces. */
  function Gone(rids: seq<string>): seq<Event> {
    if rids == [] then [] else [PermissionResolved(rids[0], "terminal")] + Gone(rids[1..])
  }

  lemma {:induction false} AllowedLater(waiters: map<string, nat>, rids: seq<string>, rid: string)
    requires rid !in rids
    ensures Allowed(waiters - {rid}, rids) == Allowed(waiters, rids)
  {
    if rids == [] {
    } else {
      assert rids[0] in rids && forall x :: x in rids[1..] ==> x in rids;
      AllowedLater(waiters, rids[1..], rid);
    }
  }

  lemma {:induction false} ResolveAllTells(d: Snapshot, env: Env, rids: seq<string>, now: nat)
    requires d.state.WellFormed() && forall rid :: rid in rids ==> rid in d.state.pending
    requires forall i, j :: 0 <= i < j < |rids| ==> rids[i] != rids[j]
    ensures Adds(d, d.ResolveAll(env, rids, now), Gone(rids), Allowed(d.waiters, rids))
    decreases rids
  {
    if rids == [] {
      assert d.broadcasts + [] == d.broadcasts && d.replies + [] == d.replies;
    } else {
      var rid, rest := rids[0], rids[1..];
      var d1 := d.Resolve(env, rid, "allow", None, "terminal", now);
      assert rid in rids && forall x :: x in rest ==> x in rids;
      assert rid !in rest;
      ResolveKeepsWellFormed(d.state, rid, now);
      ResolveParents(d.state, rid, now);
      ResolveAllTells(d1, env, rest, now);
      AllowedLater(d.waiters, rest, rid);
      assert d1.waiters == d.waiters - {rid};
      ConcatAssociative(d.broadcasts, [PermissionResolved(rid, "terminal")], Gone(rest));
      ConcatAssociative(d.replies, if rid in d.waiters then [Reply(d.waiters[rid], rid, "allow", None)] else [],
                        Allowed(d.waiters, rest));
      assert d.replies + [] == d.replies;
    }
  }

  /** A hook allows every request pending under its session, in some order, and
      tells subscribers that each was resolved at the terminal; then they hear
      of the new state. */
  lemma HookTells(d: Snapshot, env: Env, envelope: Envelope, now: nat, found: Option<string>)
    requires env.Valid() && d.state.WellFormed()
    ensures var d', sid := Step(d, env, HookIn(envelope, now, found)), envelope.event.sessionId;
      exists rids, update ::
        && Enumerates(rids, set p | p in d.state.pending && d.state.pending[p].sessionId == sid)
        && TellsState(d', update)
        && Adds(d, d', Gone(rids) + [update], Allowed(d.waiters, rids))
  {
    var sid := envelope.event.sessionId;
    var linked := d.LinkHook(sid, envelope.wrapperId, now);
    var rids := env.order(linked.tick, linked.state.PendingFor(sid));
    LinkSame(d.state, sid, envelope.wrapperId, now);
    assert linked.state.PendingFor(sid) == set p | p in d.state.pending && d.state.pending[p].sessionId == sid;
    assert Enumerates(rids, linked.state.PendingFor(sid));
    LinkKeepsWellFormed(d.state, sid, envelope.wrapperId, now);
    ResolveAllTells(linked, env, rids, now);
    var settled := linked.ResolveAll(env, rids, now);
    var last := settled.(state := settled.state.ApplyHookEvent(envelope.event, now)
                                               .PopulatePath(sid, envelope.wrapperId, found));
    StepState(d, env, HookIn(envelope, now, found));
    StepKeepsWellFormed(d.state, HookIn(envelope, now, found), false);
    UpdateTells(last, env);
    ConcatAssociative(d.broadcasts, Gone(rids), [last.CurrentUpdate(env)]);
    assert d.replies + Allowed(d.waiters, rids) + [] == d.replies + Allowed(d.waiters, rids);
  }

  /** Wrappers' messages: registering and unregistering tell the new state; a
      report tells it if it says something new, and a prompt if it went out. No
      hook is answered. */
  lemma OthersTell(d: Snapshot, env: Env, input: Input)
    requires env.Valid() && d.state.WellFormed()
    requires !input.HookIn? && !input.ResponseIn? && !input.RequestIn?
    ensures var d' := Step(d, env, input);
      var told := match input
                  case RegisterIn(_, _, _, _) => true
                  case UnregisterIn(_) => true
                  case SuggestionIn(sid, text) => sid in d.state.sessions
                      && d.state.sessions[sid].promptSuggestion != text
                  case ThinkingIn(sid, text) => sid in d.state.sessions && d.state.sessions[sid].thinkingText != text
                  case PromptIn(sid, _) => d.PromptGoesOut(env, sid)
                  case _ => false;
      if told then exists update :: TellsState(d', update) && Adds(d, d', [update], [])
      else Adds(d, d', [], [])
  {
    assert d.replies + [] == d.replies && d.broadcasts + [] == d.broadcasts;
    StepState(d, env, input);
    StepKeepsWellFormed(d.state, input, Prompted(d, env, input));
    match input
    case RegisterIn(sid, info, channel, now) =>
      var own := d.channels[sid := channel];
      var d1 := d.(state := d.state.Register(sid, info, now),
                   channels := if info.realSessionId.Some? then own[info.realSessionId.value := channel] else own);
      UpdateTells(d1, env);
    case UnregisterIn(wid) =>
      UpdateTells(d.(channels := d.channels - (d.state.Household(wid) + {wid}), state := d.state.RemoveWrapper(wid)),
          env);
    case SuggestionIn(sid, text) => UpdateTells(d.(state := d.state.WithSuggestion(sid, text)), env);
    case ThinkingIn(sid, text) => UpdateTells(d.(state := d.state.WithThinking(sid, text)), env);
    case PromptIn(sid, now) => UpdateTells(d.(tick := d.tick + 1, state := d.state.SetStatus(sid, Working, now)), env);
    case _ =>
  }

  // ------------------------------------------------------------ over runs

  ghost predicate Grounds(d: Snapshot, input: Input, reply: Reply) {
    && reply.requestId in d.state.pending && reply.requestId in d.waiters && reply.channel == d.waiters[reply.requestId]
    && match input
       case ResponseIn(rid, decision, suggestion, _) =>
         reply.requestId == rid && reply.decision == decision && reply.suggestion == suggestion
       case HookIn(envelope, _, _) =>
         && d.state.pending[reply.requestId].sessionId == envelope.event.sessionId
         && reply.decision == "allow" && reply.suggestion == None
       case _ => false
  }

  /** Every answer was given by a client for that request, or by a hook of the
      session under which it was pending. */
  ghost predicate Grounded(env: Env, inputs: seq<Input>, reply: Reply) {
    exists n :: 0 <= n < |inputs| && Grounds(Run(env, inputs[..n]), inputs[n], reply)
  }

  lemma {:induction false} AllowedMembers(waiters: map<string, nat>, rids: seq<string>)
    ensures forall reply :: reply in Allowed(waiters, rids) ==>
              && reply.requestId in rids && reply.requestId in waiters
              && reply == Reply(waiters[reply.requestId], reply.requestId, "allow", None)
  {
    if rids == [] {
    } else {
      AllowedMembers(waiters, rids[1..]);
      assert rids == [rids[0]] + rids[1..];
    }
  }

  lemma StepGrounds(d: Snapshot, env: Env, input: Input)
    requires env.Valid() && d.state.WellFormed()
    ensures var d' := Step(d, env, input);
      && |d.replies| <= |d'.replies| && d'.replies[..|d.replies|] == d.replies
      && forall i :: |d.replies| <= i < |d'.replies| ==> Grounds(d, input, d'.replies[i])
  {
    var d' := Step(d, env, input);
    match input
    case HookIn(envelope, now, found) =>
      HookTells(d, env, envelope, now, found);
      var sid := envelope.event.sessionId;
      var rids, update :| && Enumerates(rids, set p | p in d.state.pending && d.state.pending[p].sessionId == sid)
                          && TellsState(d', update) && Adds(d, d', Gone(rids) + [update], Allowed(d.waiters, rids));
      AllowedMembers(d.waiters, rids);
      forall i | |d.replies| <= i < |d'.replies| ensures Grounds(d, input, d'.replies[i]) {
        assert d'.replies[i] in Allowed(d.waiters, rids);
      }
    case ResponseIn(rid, decision, suggestion, now) => ResponseTells(d, env, rid, decision, suggestion, now);
    case RequestIn(perm, now) => RequestTells(d, env, perm, now);
    case _ => OthersTell(d, env, input);
  }

  lemma {:induction false} RepliesGrounded(env: Env, inputs: seq<Input>)
    requires env.Valid()
    ensures forall i :: 0 <= i < |Run(env, inputs).replies| ==> Grounded(env, inputs, Run(env, inputs).replies[i])
  {
    if inputs == [] {
    } else {
      var n := |inputs| - 1;
      var before, d, d' := inputs[..n], Run(env, inputs[..n]), Run(env, inputs);
      RepliesGrounded(env, before);
      RunWellFormed(env, before);
      StepGrounds(d, env, inputs[n]);
      forall i | 0 <= i < |d'.replies| ensures Grounded(env, inputs, d'.replies[i]) {
        if i < |d.replies| {
          assert d'.replies[i] == d.replies[i];
          var k :| 0 <= k < |before| && Grounds(Run(env, before[..k]), before[k], d.replies[i]);
          assert before[..k] == inputs[..k];
        }
      }
    }
  }
}
