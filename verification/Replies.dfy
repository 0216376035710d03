/** Every hook that asks for permission gets at most one answer, and loses its
    reply channel only to a later request under the same id. */
module Replies {
  import opened Wrappers
  import opened SessionState
  import opened Daemon
  import opened Replica

  ghost predicate Held(d: Snapshot, channel: nat) {
    exists rid :: rid in d.waiters && d.waiters[rid] == channel
  }

  ghost predicate Answered(d: Snapshot, channel: nat) {
    exists i :: 0 <= i < |d.replies| && d.replies[i].channel == channel
  }

  ghost predicate Superseded(d: Snapshot, channel: nat) {
    channel in d.dropped
  }

  ghost predicate OneFate(held: bool, answered: bool, superseded: bool) {
    (held && !answered && !superseded) || (!held && answered && !superseded) || (!held && !answered && superseded)
  }

  ghost predicate AskedAgain(d: Snapshot, channel: nat)
    requires channel < |d.issued|
  {
    exists later :: channel < later < |d.issued| && d.issued[later] == d.issued[channel]
  }

  ghost predicate Conserved(d: Snapshot) {
    // A waiter holds the channel issued for its own request.
    && (forall rid :: rid in d.waiters ==> d.waiters[rid] < |d.issued| && d.issued[d.waiters[rid]] == rid)
    // No channel is answered twice, and each answer names the request asked on it.
    && (forall i, j :: 0 <= i < j < |d.replies| ==> d.replies[i].channel != d.replies[j].channel)
    && (forall i :: 0 <= i < |d.replies| ==>
          d.replies[i].channel < |d.issued| && d.issued[d.replies[i].channel] == d.replies[i].requestId)
    // A channel is lost only to a later request with the same id.
    && (forall channel :: channel in d.dropped ==> channel < |d.issued| && AskedAgain(d, channel))
    && (forall channel: nat :: channel < |d.issued| ==>
          OneFate(Held(d, channel), Answered(d, channel), Superseded(d, channel)))
  }

  /** `Conserved` only looks at reply channels. */
  lemma SameChannels(d: Snapshot, d': Snapshot)
    requires Conserved(d)
    requires d'.waiters == d.waiters && d'.issued == d.issued && d'.replies == d.replies && d'.dropped == d.dropped
    ensures Conserved(d')
  {
    forall channel: nat | channel < |d'.issued|
      ensures OneFate(Held(d', channel), Answered(d', channel), Superseded(d', channel))
      ensures AskedAgain(d, channel) ==> AskedAgain(d', channel)
    {
      assert Held(d', channel) <==> Held(d, channel);
      assert Answered(d', channel) <==> Answered(d, channel);
    }
  }

  lemma AnswerConserves(d: Snapshot, rid: string, decision: string, suggestion: Option<string>)
    requires Conserved(d) && rid in d.waiters
    ensures Conserved(d.(waiters := d.waiters - {rid},
                         replies := d.replies + [Reply(d.waiters[rid], rid, decision, suggestion)]))
  {
    var answered := d.waiters[rid];
    var d' := d.(waiters := d.waiters - {rid}, replies := d.replies + [Reply(answered, rid, decision, suggestion)]);
    assert Held(d, answered);
    forall i | 0 <= i < |d.replies| ensures d.replies[i].channel != answered {
      assert d.replies[i].channel == answered ==> Answered(d, answered);
    }
    forall channel: nat | channel < |d'.issued|
      ensures OneFate(Held(d', channel), Answered(d', channel), Superseded(d', channel))
    {
      if channel == answered {
        assert d'.replies[|d.replies|].channel == channel;
        assert Answered(d', channel);
        forall r | r in d'.waiters ensures d'.waiters[r] != channel {
          assert d.issued[d.waiters[r]] == r;
        }
      } else {
        assert Answered(d', channel) <==> Answered(d, channel) by {
          if Answered(d, channel) {
            var i :| 0 <= i < |d.replies| && d.replies[i].channel == channel;
            assert d'.replies[i].channel == channel;
          }
        }
        assert Held(d', channel) <==> Held(d, channel) by {
          if Held(d, channel) {
            var r :| r in d.waiters && d.waiters[r] == channel;
            assert r in d'.waiters;
          }
        }
      }
    }
    forall channel | channel in d'.dropped ensures AskedAgain(d', channel) {
      assert AskedAgain(d, channel);
    }
  }

  lemma ResolveConserves(d: Snapshot, env: Env, rid: string, decision: string, suggestion: Option<string>,
                         who: string, now: nat)
    requires Conserved(d)
    ensures Conserved(d.Resolve(env, rid, decision, suggestion, who, now))
  {
    if rid in d.state.pending {
      if rid in d.waiters {
        AnswerConserves(d, rid, decision, suggestion);
        SameChannels(d.(waiters := d.waiters - {rid},
                        replies := d.replies + [Reply(d.waiters[rid], rid, decision, suggestion)]),
                     d.Resolve(env, rid, decision, suggestion, who, now));
      } else {
        SameChannels(d, d.Resolve(env, rid, decision, suggestion, who, now));
      }
    }
  }

  lemma {:induction false} ResolveAllConserves(d: Snapshot, env: Env, rids: seq<string>, now: nat)
    requires Conserved(d)
    ensures Conserved(d.ResolveAll(env, rids, now))
    decreases rids
  {
    if rids == [] {
    } else {
      ResolveConserves(d, env, rids[0], "allow", None, "terminal", now);
      ResolveAllConserves(d.Resolve(env, rids[0], "allow", None, "terminal", now), env, rids[1..], now);
    }
  }

  lemma FileConserves(d: Snapshot, perm: Permission, now: nat)
    requires Conserved(d)
    ensures Conserved(d.FileRequest(perm, now))
  {
    var d', rid, fresh_ := d.FileRequest(perm, now), perm.requestId, |d.issued|;
    assert forall c: nat :: c < fresh_ ==> d'.issued[c] == d.issued[c];
    forall channel: nat | channel < |d'.issued|
      ensures OneFate(Held(d', channel), Answered(d', channel), Superseded(d', channel))
    {
      assert Answered(d', channel) <==> Answered(d, channel);
      if channel == fresh_ {
        assert d'.waiters[rid] == channel;
        assert Held(d', channel);
        assert !Answered(d', channel);
      } else if rid in d.waiters && d.waiters[rid] == channel {
        assert Held(d, channel);
        forall r | r in d'.waiters ensures d'.waiters[r] != channel {
          if r != rid {
            assert d.issued[d.waiters[r]] == r;
          }
        }
      } else {
        assert Held(d', channel) <==> Held(d, channel) by {
          if Held(d, channel) {
            var r :| r in d.waiters && d.waiters[r] == channel;
            assert d'.waiters[r] == channel;
          }
        }
      }
    }
    forall channel | channel in d'.dropped ensures channel < |d'.issued| && AskedAgain(d', channel) {
      if channel in d.dropped {
        assert AskedAgain(d, channel);
        var later :| channel < later < |d.issued| && d.issued[later] == d.issued[channel];
        assert d'.issued[later] == d'.issued[channel];
      } else {
        assert d'.issued[fresh_] == d'.issued[channel];
      }
    }
  }

  lemma HookConserves(d: Snapshot, env: Env, envelope: Envelope, now: nat, found: Option<string>)
    requires Conserved(d)
    ensures Conserved(d.Hook(env, envelope, now, found))
  {
    var sid := envelope.event.sessionId;
    var linked := d.LinkHook(sid, envelope.wrapperId, now);
    var rids := env.order(linked.tick, linked.state.PendingFor(sid));
    SameChannels(d, linked);
    ResolveAllConserves(linked, env, rids, now);
    SameChannels(linked.ResolveAll(env, rids, now), d.Hook(env, envelope, now, found));
  }

  /** The other messages neither ask nor answer anything. */
  lemma QuietStep(d: Snapshot, env: Env, input: Input)
    requires !input.HookIn? && !input.ResponseIn? && !input.RequestIn?
    ensures var d' := Step(d, env, input);
      d'.waiters == d.waiters && d'.issued == d.issued && d'.replies == d.replies && d'.dropped == d.dropped
  {
  }

  lemma StepConserves(d: Snapshot, env: Env, input: Input)
    requires Conserved(d)
    ensures Conserved(Step(d, env, input))
  {
    var d' := Step(d, env, input);
    match input
    case HookIn(envelope, now, found) => HookConserves(d, env, envelope, now, found);
    case ResponseIn(rid, decision, suggestion, now) =>
      ResolveConserves(d, env, rid, decision, suggestion, "dashboard", now);
      SameChannels(d.Resolve(env, rid, decision, suggestion, "dashboard", now), d');
    case RequestIn(perm, now) =>
      FileConserves(d, perm, now);
      SameChannels(d.FileRequest(perm, now), d');
    case _ =>
      QuietStep(d, env, input);
      SameChannels(d, d');
  }

  /** Reply conservation: after any run, every reply channel ever issued is
      held under its request id, has carried exactly one answer, or was lost to
      a later request with the same id; and whoever asked a pending request is
      still unanswered. */
  lemma {:induction false} ReplyConservation(env: Env, inputs: seq<Input>)
    requires env.Valid()
    ensures Conserved(Run(env, inputs))
    ensures var d := Run(env, inputs);
      forall rid :: rid in d.state.pending ==> rid in d.waiters && !Answered(d, d.waiters[rid])
  {
    if inputs != [] {
      ReplyConservation(env, inputs[..|inputs| - 1]);
      StepConserves(Run(env, inputs[..|inputs| - 1]), env, inputs[|inputs| - 1]);
    }
    RunSound(env, inputs);
    var d := Run(env, inputs);
    forall rid | rid in d.state.pending ensures rid in d.waiters && !Answered(d, d.waiters[rid]) {
      assert Held(d, d.waiters[rid]);
    }
  }
}
