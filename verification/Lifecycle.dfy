/** What one message does to the session and permission tables alone, free of
    hash-table order, queues and replies, and when it leaves a session waiting
    for input that nobody is asking for. */
module Lifecycle {
  import opened Wrappers
  import opened SessionState
  import opened Daemon

  /** `prompted` says whether a prompt reached a wrapper. */
  function NextState(st: State, input: Input, prompted: bool): State {
    match input
    case HookIn(envelope, now, found) =>
      var sid := envelope.event.sessionId;
      st.Link(sid, envelope.wrapperId, now).Dismiss(sid, now).ApplyHookEvent(envelope.event, now)
        .PopulatePath(sid, envelope.wrapperId, found)
    case SubscribeIn => st
    case ResponseIn(rid, _, _, now) => st.ResolvePermission(rid, now)
    case RequestIn(perm, now) => st.AddPermissionRequest(perm, now)
    case RegisterIn(sid, info, _, now) => st.Register(sid, info, now)
    case UnregisterIn(wid) => st.RemoveWrapper(wid)
    case SuggestionIn(sid, suggestion) => st.WithSuggestion(sid, suggestion)
    case ThinkingIn(sid, text) => st.WithThinking(sid, text)
    case PromptIn(sid, now) => if prompted then st.SetStatus(sid, Working, now) else st
  }

  ghost predicate Prompted(d: Snapshot, env: Env, input: Input) {
    input.PromptIn? && d.PromptGoesOut(env, input.sid)
  }

  /** Resolving the requests pending under `sid` one by one, in any order, has
      the order-free effect `Dismiss`: only the last one settles the session. */
  lemma {:induction false} ResolveAllDismisses(d: Snapshot, env: Env, rids: seq<string>, sid: string, now: nat)
    requires Enumerates(rids, d.state.PendingFor(sid))
    ensures d.ResolveAll(env, rids, now).state == d.state.Dismiss(sid, now)
    decreases rids
  {
    if rids != [] {
      var rid := rids[0];
      assert rid in d.state.PendingFor(sid);
      EnumerationTail(rids, d.state.PendingFor(sid));
      var d' := d.Resolve(env, rid, "allow", None, "terminal", now);
      var less := d.state.(pending := d.state.pending - {rid});
      assert less.PendingFor(sid) == d.state.PendingFor(sid) - {rid};
      if rids[1..] == [] {
        assert less.PendingFor(sid) == {};
        assert d.state.PendingFor(sid) == {rid};
        assert d'.state == d.state.Dismiss(sid, now);
      } else {
        assert rids[1] in rids[1..];
        assert d'.state == less;
        ResolveAllDismisses(d', env, rids[1..], sid, now);
        assert d.state.pending - d.state.PendingFor(sid) == less.pending - less.PendingFor(sid);
      }
    } else {
      assert d.state.PendingFor(sid) == {};
    }
  }

  /** The loop's effect on the tables is `NextState`, whatever the environment does. */
  lemma StepState(d: Snapshot, env: Env, input: Input)
    requires env.Valid()
    ensures Step(d, env, input).state == NextState(d.state, input, Prompted(d, env, input))
  {
    match input
    case HookIn(envelope, now, found) =>
      var sid := envelope.event.sessionId;
      var linked := d.LinkHook(sid, envelope.wrapperId, now);
      ResolveAllDismisses(linked, env, env.order(linked.tick, linked.state.PendingFor(sid)), sid, now);
    case _ =>
  }

  lemma LinkKeepsWellFormed(st: State, sid: string, wid: Option<string>, now: nat)
    requires st.WellFormed()
    ensures st.Link(sid, wid, now).WellFormed()
  {
  }

  lemma DismissKeepsWellFormed(st: State, sid: string, now: nat)
    requires st.WellFormed()
    ensures st.Dismiss(sid, now).WellFormed()
  {
  }

  lemma ApplyKeepsWellFormed(st: State, event: HookEvent, now: nat)
    requires st.WellFormed()
    ensures st.ApplyHookEvent(event, now).WellFormed()
  {
  }

  lemma PopulateKeepsWellFormed(st: State, sid: string, wid: Option<string>, found: Option<string>)
    requires st.WellFormed()
    ensures st.PopulatePath(sid, wid, found).WellFormed()
  {
  }

  lemma HookKeepsWellFormed(st: State, envelope: Envelope, now: nat, found: Option<string>)
    requires st.WellFormed()
    ensures NextState(st, HookIn(envelope, now, found), false).WellFormed()
  {
    var sid := envelope.event.sessionId;
    var linked := st.Link(sid, envelope.wrapperId, now);
    LinkKeepsWellFormed(st, sid, envelope.wrapperId, now);
    DismissKeepsWellFormed(linked, sid, now);
    var dismissed := linked.Dismiss(sid, now);
    ApplyKeepsWellFormed(dismissed, envelope.event, now);
    PopulateKeepsWellFormed(dismissed.ApplyHookEvent(envelope.event, now), sid, envelope.wrapperId, found);
  }

  lemma ResolveKeepsWellFormed(st: State, rid: string, now: nat)
    requires st.WellFormed()
    ensures st.ResolvePermission(rid, now).WellFormed()
  {
  }

  lemma RequestKeepsWellFormed(st: State, perm: Permission, now: nat)
    requires st.WellFormed()
    ensures st.AddPermissionRequest(perm, now).WellFormed()
  {
  }

  lemma RegisterKeepsWellFormed(st: State, sid: string, info: WrapperInfo, now: nat)
    requires st.WellFormed()
    ensures st.Register(sid, info, now).WellFormed()
  {
    assert st.EnsureSession(sid, now).WellFormed();
  }

  lemma StepKeepsWellFormed(st: State, input: Input, prompted: bool)
    requires st.WellFormed()
    ensures NextState(st, input, prompted).WellFormed()
  {
    match input
    case HookIn(envelope, now, found) => HookKeepsWellFormed(st, envelope, now, found);
    case RegisterIn(sid, info, _, now) => RegisterKeepsWellFormed(st, sid, info, now);
    case ResponseIn(rid, _, _, now) => ResolveKeepsWellFormed(st, rid, now);
    case RequestIn(perm, now) => RequestKeepsWellFormed(st, perm, now);
    case _ =>
  }

  // ------------------------------------------------------------ waiting for input

  ghost predicate Supported(st: State, sid: string) {
    exists p :: st.Supports(p, sid)
  }

  /** Every session that needs input is asked for by some pending permission. */
  ghost predicate Justified(st: State) {
    forall sid :: sid in st.sessions && st.sessions[sid].status == NeedsInput ==> Supported(st, sid)
  }

  ghost predicate Waiting(st: State, sid: string) {
    sid in st.sessions && st.sessions[sid].status == NeedsInput
  }

  /** `sid` is waiting, and every permission shown on it is filed under `under`. */
  ghost predicate DependsOn(st: State, sid: string, under: string) {
    Waiting(st, sid) && forall p :: st.Supports(p, sid) ==> st.pending[p].sessionId == under
  }

  /** The wrapper that hook `envelope` takes its session away from, if any. */
  function Abandoned(st: State, envelope: Envelope): Option<string> {
    var sid := envelope.event.sessionId;
    if envelope.wrapperId.Some? && envelope.wrapperId.value != sid && sid in st.sessions && !st.sessions[sid].isMain
       && st.sessions[sid].parentWrapperId != envelope.wrapperId
    then st.sessions[sid].parentWrapperId
    else None
  }

  /** Permission `rid` is the only one shown on `sid`, which is waiting. */
  ghost predicate SoleSupport(st: State, rid: string, sid: string) {
    Waiting(st, sid) && forall p :: st.Supports(p, sid) ==> p == rid
  }

  /** The input takes away the last permission some waiting session was shown:
      a hook moves a session to another wrapper, a wrapper that is itself
      someone's subagent goes, or a request id is used again elsewhere. */
  ghost predicate Undercuts(st: State, input: Input) {
    match input
    case HookIn(envelope, _, _) =>
      var old_ := Abandoned(st, envelope);
      && old_.Some?
      && DependsOn(st, old_.value, envelope.event.sessionId)
    case UnregisterIn(wid) =>
      var boss := st.ParentOf(wid);
      && boss.Some?
      && st.ParentOf(boss.value) != Some(wid)
      && DependsOn(st, boss.value, wid)
    case RequestIn(perm, _) =>
      && perm.requestId in st.pending
      && exists sid :: (SoleSupport(st, perm.requestId, sid)
                        && sid != perm.sessionId && Some(sid) != st.ParentOf(perm.sessionId))
    case _ => false
  }

  /** A session that still waits after an answer is still shown a request. */
  lemma ResponseSupports(st: State, rid: string, now: nat, sid: string)
    requires st.WellFormed() && rid in st.pending && Waiting(st.ResolvePermission(rid, now), sid)
    requires st.Supports(rid, sid)
    ensures Supported(st.ResolvePermission(rid, now), sid)
  {
    var st', owner := st.ResolvePermission(rid, now), st.pending[rid].sessionId;
    var less := st.(pending := st.pending - {rid});
    assert less.PendingFor(owner) != {};
    var q :| q in less.PendingFor(owner);
    assert st'.Supports(q, sid);
  }

  lemma ResponseJustified(st: State, rid: string, now: nat)
    requires st.WellFormed() && Justified(st)
    ensures Justified(st.ResolvePermission(rid, now))
  {
    var st' := st.ResolvePermission(rid, now);
    if rid in st.pending {
      forall sid | Waiting(st', sid) ensures Supported(st', sid) {
        assert Waiting(st, sid);
        var p :| st.Supports(p, sid);
        if p != rid {
          assert st'.Supports(p, sid);
        } else {
          ResponseSupports(st, rid, now, sid);
        }
      }
    }
  }

  /** A request is shown on its session and that session's wrapper, and leaves
      every other session and request alone. */
  lemma RequestFrame(st: State, perm: Permission, now: nat)
    ensures var st', rid := st.AddPermissionRequest(perm, now), perm.requestId;
      forall sid ::
        if sid == perm.sessionId || Some(sid) == st.ParentOf(perm.sessionId) then st'.Supports(rid, sid)
        else
          && (Waiting(st', sid) <==> Waiting(st, sid)) && !st'.Supports(rid, sid)
          && forall p :: p != rid ==> (st'.Supports(p, sid) <==> st.Supports(p, sid))
  {
  }

  lemma RequestJustified(st: State, perm: Permission, now: nat)
    requires st.WellFormed() && Justified(st)
    ensures Justified(st.AddPermissionRequest(perm, now)) <==> !Undercuts(st, RequestIn(perm, now))
  {
    var st' := st.AddPermissionRequest(perm, now);
    var rid := perm.requestId;
    RequestFrame(st, perm, now);
    if !Undercuts(st, RequestIn(perm, now)) {
      forall sid | Waiting(st', sid) ensures Supported(st', sid) {
        if sid == perm.sessionId || Some(sid) == st.ParentOf(perm.sessionId) {
          assert st'.Supports(rid, sid);
        } else {
          var p :| st.Supports(p, sid);
          if p == rid {
            assert !SoleSupport(st, rid, sid);
            var q :| st.Supports(q, sid) && q != rid;
            assert st'.Supports(q, sid);
          } else {
            assert st'.Supports(p, sid);
          }
        }
      }
    } else {
      var sid :| SoleSupport(st, rid, sid) && sid != perm.sessionId && Some(sid) != st.ParentOf(perm.sessionId);
      assert Waiting(st', sid) && !Supported(st', sid);
    }
  }

  lemma UnregisterJustified(st: State, wid: string)
    requires st.WellFormed() && Justified(st)
    ensures Justified(st.RemoveWrapper(wid)) <==> !Undercuts(st, UnregisterIn(wid))
  {
    var st', gone := st.RemoveWrapper(wid), st.Household(wid);
    forall sid | Waiting(st', sid) && !Supported(st', sid)
      ensures st.ParentOf(wid) == Some(sid) && DependsOn(st, sid, wid) && st.ParentOf(sid) != Some(wid)
    {
      assert Waiting(st, sid) && sid !in gone;
      var q :| st.Supports(q, sid);
      forall p | st.Supports(p, sid) ensures st.pending[p].sessionId == wid && st.ParentOf(wid) == Some(sid) {
        assert !st'.Supports(p, sid);
        assert st.pending[p].sessionId in gone;
      }
    }
    if Undercuts(st, UnregisterIn(wid)) {
      var boss := st.ParentOf(wid).value;
      assert boss !in gone && Waiting(st', boss);
      forall p ensures !st'.Supports(p, boss) {
        assert st'.Supports(p, boss) ==> st.Supports(p, boss);
      }
    }
  }

  lemma LinkSame(st: State, sid: string, wid: Option<string>, now: nat)
    ensures var st' := st.Link(sid, wid, now);
      && st'.pending == st.pending
      && (forall s :: s != sid ==> st'.ParentOf(s) == st.ParentOf(s))
      && (forall s :: Waiting(st', s) <==> Waiting(st, s))
  {
  }

  lemma SettleClears(st: State, sid: string, now: nat)
    ensures var st' := st.Settle(sid, now);
      && st'.pending == st.pending
      && (forall s :: st'.ParentOf(s) == st.ParentOf(s))
      && (forall s :: Waiting(st', s) <==> Waiting(st, s) && s != sid && Some(s) != st.ParentOf(sid))
  {
  }

  /** Linking moves the support of `sid`'s permissions from one wrapper to
      another; dismissing them takes it away altogether. */
  lemma LinkedAndDismissed(st: State, sid: string, wid: Option<string>, now: nat)
    ensures var st' := st.Link(sid, wid, now).Dismiss(sid, now);
      && st'.PendingFor(sid) == {}
      && (forall p, s :: st'.Supports(p, s) <==> st.Supports(p, s) && st.pending[p].sessionId != sid)
      && (forall s :: Waiting(st', s) ==> Waiting(st, s))
      && (forall s :: Waiting(st, s) && !Waiting(st', s) ==> s == sid || Some(s) == st'.ParentOf(sid))
      && (st.PendingFor(sid) != {} ==> !Waiting(st', sid) && forall s :: Some(s) == st'.ParentOf(sid) ==> !Waiting(st', s))
  {
    var linked := st.Link(sid, wid, now);
    LinkSame(st, sid, wid, now);
    assert linked.PendingFor(sid) == st.PendingFor(sid);
    var less := linked.(pending := linked.pending - linked.PendingFor(sid));
    var st' := linked.Dismiss(sid, now);
    assert forall s :: less.ParentOf(s) == linked.ParentOf(s) && (Waiting(less, s) <==> Waiting(linked, s));
    SettleClears(less, sid, now);
    forall p ensures p in st'.pending <==> p in st.pending && st.pending[p].sessionId != sid {
      if p in st.pending && st.pending[p].sessionId == sid {
        assert p in linked.PendingFor(sid);
      }
    }
    assert forall s :: s != sid ==> st'.ParentOf(s) == st.ParentOf(s);
  }

  /** `st'` differs from `st` in session `sid` at most, and starts no wait there. */
  ghost predicate SameBut(st: State, st': State, sid: string) {
    && st'.pending == st.pending
    && (forall s :: s != sid ==> st'.ParentOf(s) == st.ParentOf(s) && (Waiting(st', s) <==> Waiting(st, s)))
    && (Waiting(st', sid) ==> Waiting(st, sid))
  }

  lemma ApplySameBut(st: State, event: HookEvent, now: nat)
    requires st.PendingFor(event.sessionId) == {}
    ensures SameBut(st, st.ApplyHookEvent(event, now), event.sessionId)
  {
    match event
    case ToolStart(sid, tool, detail, useId) =>
      var st1 := st.EnsureSession(sid, now);
      var st2 := st1.WithTool(sid, Some(Tool(tool, detail, useId)));
      assert SameBut(st, st1, sid) && SameBut(st1, st2, sid) && SameBut(st2, st2.SetStatus(sid, Working, now), sid);
    case Stop(sid) =>
      var st1 := st.WithTool(sid, None);
      assert SameBut(st, st1, sid) && SameBut(st1, st1.SetStatus(sid, Idle, now), sid);
    case SessionEnd(sid) =>
      forall p | p in st.pending ensures st.pending[p].sessionId != sid {
        assert p !in st.PendingFor(sid);
      }
    case _ =>
  }

  lemma PopulateSame(st: State, sid: string, wid: Option<string>, found: Option<string>)
    ensures var st' := st.PopulatePath(sid, wid, found);
      && st'.pending == st.pending
      && forall s :: st'.ParentOf(s) == st.ParentOf(s) && (Waiting(st', s) <==> Waiting(st, s))
  {
  }

  lemma HookTailJustified(st: State, event: HookEvent, wid: Option<string>, found: Option<string>, now: nat)
    requires st.PendingFor(event.sessionId) == {}
    ensures var st' := st.ApplyHookEvent(event, now).PopulatePath(event.sessionId, wid, found);
      && SameBut(st, st', event.sessionId)
      && (forall p, s :: st'.Supports(p, s) <==> st.Supports(p, s))
  {
    var st1 := st.ApplyHookEvent(event, now);
    ApplySameBut(st, event, now);
    PopulateSame(st1, event.sessionId, wid, found);
    forall p | p in st.pending ensures st.pending[p].sessionId != event.sessionId {
      assert p !in st.PendingFor(event.sessionId);
    }
  }

  /** A hook either keeps its session's wrapper or abandons it for another. */
  lemma LinkParent(st: State, envelope: Envelope, now: nat)
    requires st.WellFormed()
    ensures var sid := envelope.event.sessionId;
      var mid := st.Link(sid, envelope.wrapperId, now).Dismiss(sid, now);
      var left := Abandoned(st, envelope);
      && (left.Some? ==> left == st.ParentOf(sid) && left != mid.ParentOf(sid) && left.value != sid)
      && (left == None && st.ParentOf(sid).Some? ==> mid.ParentOf(sid) == st.ParentOf(sid))
  {
  }

  lemma HookJustified(st: State, envelope: Envelope, now: nat, found: Option<string>)
    requires st.WellFormed() && Justified(st)
    ensures Justified(NextState(st, HookIn(envelope, now, found), false))
            <==> !Undercuts(st, HookIn(envelope, now, found))
  {
    var sid := envelope.event.sessionId;
    var mid := st.Link(sid, envelope.wrapperId, now).Dismiss(sid, now);
    var st' := NextState(st, HookIn(envelope, now, found), false);
    LinkedAndDismissed(st, sid, envelope.wrapperId, now);
    HookTailJustified(mid, envelope.event, envelope.wrapperId, found, now);
    assert forall p, s :: st'.Supports(p, s) <==> st.Supports(p, s) && st.pending[p].sessionId != sid;
    var left := Abandoned(st, envelope);
    LinkParent(st, envelope, now);
    forall s | Waiting(st', s) && !Supported(st', s)
      ensures left == Some(s) && DependsOn(st, s, sid)
    {
      assert Waiting(mid, s) && Waiting(st, s);
      var q :| st.Supports(q, s);
      assert !st'.Supports(q, s);
      assert q in st.PendingFor(sid);
      assert s != sid && Some(s) != mid.ParentOf(sid);
      forall p | st.Supports(p, s) ensures st.pending[p].sessionId == sid {
        assert !st'.Supports(p, s);
      }
    }
    if left.Some? && DependsOn(st, left.value, sid) {
      forall p ensures !st'.Supports(p, left.value) {
      }
      assert Waiting(mid, left.value);
      assert Waiting(st', left.value) && !Supported(st', left.value);
    }
  }

  lemma RegisterSame(st: State, sid: string, info: WrapperInfo, now: nat)
    ensures var st' := st.Register(sid, info, now);
      && st'.pending == st.pending
      && forall s :: st'.ParentOf(s) == st.ParentOf(s) && (Waiting(st', s) ==> Waiting(st, s))
  {
  }

  lemma SameKeepsJustified(st: State, st': State)
    requires Justified(st)
    requires st'.pending == st.pending
    requires forall s :: st'.ParentOf(s) == st.ParentOf(s) && (Waiting(st', s) ==> Waiting(st, s))
    ensures Justified(st')
  {
    forall s | Waiting(st', s) ensures Supported(st', s) {
      assert Waiting(st, s);
      var p :| st.Supports(p, s);
      assert st'.Supports(p, s);
    }
  }

  /** One message keeps every waiting session justified exactly when it does
      not undercut one. */
  lemma JustifiedExactly(st: State, input: Input, prompted: bool)
    requires st.WellFormed() && Justified(st)
    ensures Justified(NextState(st, input, prompted)) <==> !Undercuts(st, input)
  {
    var st' := NextState(st, input, prompted);
    match input
    case HookIn(envelope, now, found) => HookJustified(st, envelope, now, found);
    case ResponseIn(rid, _, _, now) => ResponseJustified(st, rid, now);
    case RequestIn(perm, now) => RequestJustified(st, perm, now);
    case UnregisterIn(wid) => UnregisterJustified(st, wid);
    case RegisterIn(sid, info, _, now) =>
      RegisterSame(st, sid, info, now);
      SameKeepsJustified(st, st');
    case _ =>
      SameKeepsJustified(st, st');
  }

  /** Conditions a caller can check: no id is reused for another session, no
      session changes wrapper, no subagent is unregistered as a wrapper. */
  ghost predicate Careful(st: State, input: Input) {
    match input
    case HookIn(envelope, _, _) => Abandoned(st, envelope) == None
    case UnregisterIn(wid) => st.ParentOf(wid) == None
    case RequestIn(perm, _) => perm.requestId in st.pending ==> st.pending[perm.requestId].sessionId == perm.sessionId
    case _ => true
  }

  lemma CarefulNeverUndercuts(st: State, input: Input)
    requires Careful(st, input)
    ensures !Undercuts(st, input) || (exists s :: Waiting(st, s) && !Supported(st, s))
  {
  }

  lemma {:induction false} RunWellFormed(env: Env, inputs: seq<Input>)
    requires env.Valid()
    ensures Run(env, inputs).state.WellFormed()
  {
    if inputs == [] {
    } else {
      var before, last := inputs[..|inputs| - 1], inputs[|inputs| - 1];
      RunWellFormed(env, before);
      StepState(Run(env, before), env, last);
      StepKeepsWellFormed(Run(env, before).state, last, Prompted(Run(env, before), env, last));
    }
  }

  lemma CarefulStepJustified(env: Env, before: seq<Input>, last: Input)
    requires env.Valid()
    requires Justified(Run(env, before).state) && Careful(Run(env, before).state, last)
    ensures Justified(Step(Run(env, before), env, last).state)
  {
    var d := Run(env, before);
    RunWellFormed(env, before);
    StepState(d, env, last);
    CarefulNeverUndercuts(d.state, last);
    JustifiedExactly(d.state, last, Prompted(d, env, last));
  }

  /** In a careful run, every session that needs input is asked for by a
      pending permission, after every message. */
  lemma {:induction false} CarefulRunJustified(env: Env, inputs: seq<Input>)
    requires env.Valid()
    requires forall i :: 0 <= i < |inputs| ==> Careful(Run(env, inputs[..i]).state, inputs[i])
    ensures Justified(Run(env, inputs).state)
  {
    if inputs == [] {
    } else {
      var n := |inputs| - 1;
      var before, last := inputs[..n], inputs[n];
      forall i | 0 <= i < n ensures Careful(Run(env, before[..i]).state, before[i]) {
        assert before[..i] == inputs[..i];
      }
      CarefulRunJustified(env, before);
      CarefulStepJustified(env, before, last);
    }
  }

  lemma RunSnoc(env: Env, inputs: seq<Input>, last: Input)
    requires env.Valid()
    ensures Run(env, inputs + [last]).state
            == NextState(Run(env, inputs).state, last, Prompted(Run(env, inputs), env, last))
  {
    assert (inputs + [last])[..|inputs|] == inputs;
    StepState(Run(env, inputs), env, last);
  }

  // ------------------------------------------------------------ runs that go wrong

  function Start(sid: string): Input {
    HookIn(Envelope(SessionStart(sid, None), None), 0, None)
  }

  function Ask(sid: string): Input {
    RequestIn(Permission("r", sid, "Bash", "ls", []), 0)
  }

  lemma StartOnNothingPending(st: State, sid: string)
    requires st.pending == map[]
    ensures NextState(st, Start(sid), false) == st.EnsureSession(sid, 0)
  {
  }

  lemma StrandedByReuse(st: State)
    requires st.pending == map[] && "a" in st.sessions && st.ParentOf("a") == None && st.ParentOf("b") == None
    ensures !Justified(NextState(NextState(st, Ask("a"), false), Ask("b"), false))
  {
    var asked := NextState(st, Ask("a"), false);
    assert Waiting(asked, "a") && asked.ParentOf("b") == None;
    var st' := NextState(asked, Ask("b"), false);
    assert Waiting(st', "a");
    assert st'.pending == map["r" := Ask("b").perm];
    assert !Supported(st', "a");
  }

  /** Using a request id again for another session strands the first one: it
      needs input although nothing pending is shown on it. */
  lemma ReusedIdStrandsSession(env: Env)
    requires env.Valid()
    ensures !Justified(Run(env, [Start("a")] + [Start("b")] + [Ask("a")] + [Ask("b")]).state)
  {
    var a, b := NewSession("a", 0), NewSession("b", 0);
    RunSnoc(env, [], Start("a"));
    assert [] + [Start("a")] == [Start("a")];
    StartOnNothingPending(EMPTY, "a");
    var two := [Start("a")] + [Start("b")];
    RunSnoc(env, [Start("a")], Start("b"));
    StartOnNothingPending(EMPTY.EnsureSession("a", 0), "b");
    assert Run(env, two).state == State(map["a" := a, "b" := b], map[]);
    RunSnoc(env, two, Ask("a"));
    RunSnoc(env, two + [Ask("a")], Ask("b"));
    StrandedByReuse(Run(env, two).state);
  }

  function Register(wid: string): Input {
    RegisterIn(wid, WrapperInfo("claude", None, None, None, None, None), 0, 0)
  }

  /** A hook of session `sid` from wrapper `wid`. */
  function StartIn(sid: string, wid: string): Input {
    HookIn(Envelope(SessionStart(sid, None), Some(wid)), 0, None)
  }

  /** Wrapper `wid` registers, its session `sid` starts and asks for permission. */
  function LinkedAsk(wid: string, sid: string): seq<Input> {
    [Register(wid)] + [StartIn(sid, wid)] + [Ask(sid)]
  }

  /** The wrapper waits for the one request of its session. */
  ghost predicate WaitsFor(st: State, wid: string, sid: string) {
    && st.sessions.Keys == {wid, sid} && st.pending == map["r" := Ask(sid).perm]
    && Waiting(st, wid) && Waiting(st, sid)
    && st.ParentOf(sid) == Some(wid) && st.ParentOf(wid) == None && !st.sessions[sid].isMain
  }

  lemma Registered(wid: string)
    ensures var st := NextState(EMPTY, Register(wid), false);
      st.sessions.Keys == {wid} && st.pending == map[] && st.ParentOf(wid) == None
  {
  }

  lemma AskedInWrapper(st: State, wid: string, sid: string)
    requires st.sessions.Keys == {wid, sid} && st.pending == map[] && wid != sid
    requires st.ParentOf(sid) == Some(wid) && st.ParentOf(wid) == None && !st.sessions[sid].isMain
    ensures WaitsFor(NextState(st, Ask(sid), false), wid, sid)
  {
  }

  lemma StartedInWrapper(st: State, wid: string, sid: string)
    requires st.sessions.Keys == {wid} && st.pending == map[] && st.ParentOf(wid) == None && wid != sid
    ensures var st' := NextState(st, StartIn(sid, wid), false);
      && st'.sessions.Keys == {wid, sid} && st'.pending == map[]
      && st'.ParentOf(sid) == Some(wid) && st'.ParentOf(wid) == None && !st'.sessions[sid].isMain
  {
    assert st.Link(sid, Some(wid), 0).PendingFor(sid) == {};
  }

  lemma LinkedAskState(env: Env, wid: string, sid: string)
    requires env.Valid() && wid != sid
    ensures WaitsFor(Run(env, LinkedAsk(wid, sid)).state, wid, sid)
  {
    RunSnoc(env, [], Register(wid));
    assert [] + [Register(wid)] == [Register(wid)];
    Registered(wid);
    RunSnoc(env, [Register(wid)], StartIn(sid, wid));
    StartedInWrapper(NextState(EMPTY, Register(wid), false), wid, sid);
    RunSnoc(env, [Register(wid)] + [StartIn(sid, wid)], Ask(sid));
    AskedInWrapper(NextState(NextState(EMPTY, Register(wid), false), StartIn(sid, wid), false), wid, sid);
  }

  lemma WaitsForJustified(st: State, wid: string, sid: string)
    requires WaitsFor(st, wid, sid)
    ensures Justified(st) && DependsOn(st, wid, sid)
  {
    assert st.Supports("r", sid) && st.Supports("r", wid);
  }

  lemma StrandsAfter(env: Env, wid: string, sid: string, input: Input)
    requires env.Valid() && wid != sid
    requires var st := Run(env, LinkedAsk(wid, sid)).state;
      WaitsFor(st, wid, sid) && (DependsOn(st, wid, sid) ==> Undercuts(st, input))
    ensures !Justified(Run(env, LinkedAsk(wid, sid) + [input]).state)
  {
    var before := LinkedAsk(wid, sid);
    WaitsForJustified(Run(env, before).state, wid, sid);
    RunWellFormed(env, before);
    RunSnoc(env, before, input);
    JustifiedExactly(Run(env, before).state, input, Prompted(Run(env, before), env, input));
  }

  /** A hook that moves a waiting session to another wrapper strands the first
      wrapper: its request is resolved for the new one only. */
  lemma MovedSessionStrandsWrapper(env: Env, wid: string, sid: string, other: string)
    requires env.Valid() && wid != sid && other != sid && other != wid
    ensures !Justified(Run(env, LinkedAsk(wid, sid) + [StartIn(sid, other)]).state)
  {
    LinkedAskState(env, wid, sid);
    StrandsAfter(env, wid, sid, StartIn(sid, other));
  }

  /** Unregistering a waiting session as if it were a wrapper strands its wrapper. */
  lemma UnregisteredSubagentStrandsWrapper(env: Env, wid: string, sid: string)
    requires env.Valid() && wid != sid
    ensures !Justified(Run(env, LinkedAsk(wid, sid) + [UnregisterIn(sid)]).state)
  {
    LinkedAskState(env, wid, sid);
    StrandsAfter(env, wid, sid, UnregisterIn(sid));
  }
}
