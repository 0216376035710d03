/** A handler that dies right after it was accepted: its key is never freed. */
module RelayStranded {
  import opened Wrappers
  import opened Utf8
  import opened RelayChannel
  import opened RelayServer
  import opened RelayIdentity

  /** Connection `id` is a member of its channel, its handler has ended, and
      nothing of it is left to process. */
  ghost predicate Stranded(s: System, id: nat, claim: Claim) {
    && MemberOf(s.conns, id, claim.cid) && s.conns[id].claim == Some(claim) && s.conns[id].phase == Closed
    && forall i :: 0 <= i < |s.queue| ==> s.queue[i].from != id
  }

  /** A handler that takes its acceptance goes on exactly when the start of its
      channel id can be logged, and is stranded otherwise. */
  lemma AcceptedExactly(s: System, id: nat, claim: Claim, world: World, config: Config)
    requires Identified(s) && MemberOf(s.conns, id, claim.cid)
    requires s.conns[id].phase == AwaitingAuth && s.conns[id].claim == Some(claim)
    ensures var s' := Next(s, world, config, TakeAuthReply(id));
      && (s'.conns[id].phase == Active <==> Loggable(claim.cid))
      && (Stranded(s', id, claim) <==> !Loggable(claim.cid))
  {
    forall i | 0 <= i < |s.queue| ensures s.queue[i].from != id {
      assert Conforms(s.conns, s.queue[i]);
    }
  }

  lemma ManageStranded(s: System, world: World, config: Config, now: nat, id: nat, claim: Claim)
    requires Identified(s) && Stranded(s, id, claim) && s.queue != []
    ensures Stranded(ManageHead(s, world, config, now), id, claim)
  {
    var head := s.queue[0];
    var outputs := Handle(s.channels, head.cmd, config, now).1;
    ManageCores(s, world, config, now);
    assert Conforms(s.conns, head) && head.from != id;
    var judged := Judge(s.conns, head, outputs);
    assert judged[id] == s.conns[id];
    assert Core(ManageHead(s, world, config, now).conns[id]) == Core(judged[id]);
  }

  lemma {:induction false} EnqueuedFrom(from: nat, cmds: seq<Cmd>)
    ensures forall i :: 0 <= i < |Enqueue(from, cmds)| ==> Enqueue(from, cmds)[i].from == from
  {
    if cmds == [] {
    } else {
      EnqueuedFrom(from, cmds[1..]);
    }
  }

  lemma StepStranded(s: System, world: World, config: Config, action: Action, id: nat, claim: Claim)
    requires Identified(s) && Stranded(s, id, claim)
    ensures Stranded(Next(s, world, config, action), id, claim)
  {
    if action.Manage? && s.queue != [] {
      ManageStranded(s, world, config, action.now, id, claim);
    } else if action.Receive? && action.id < |s.conns| {
      EnqueuedFrom(action.id, OnFrame(s.conns[action.id], action.id, action.frame, world.required).1);
    }
  }

  lemma RunStranded(world: World, config: Config, before: seq<Action>, action: Action, id: nat, claim: Claim)
    requires Stranded(Run(world, config, before), id, claim)
    ensures Stranded(Run(world, config, before + [action]), id, claim)
  {
    PeersAreMembers(world, config, before);
    StepStranded(Run(world, config, before), world, config, action, id, claim);
    assert (before + [action])[..|before|] == before;
  }

  lemma {:induction false} StrandedForever(world: World, config: Config, before: seq<Action>, after: seq<Action>,
                                           id: nat, claim: Claim)
    requires Stranded(Run(world, config, before), id, claim)
    ensures Stranded(Run(world, config, before + after), id, claim)
    decreases |after|
  {
    if after == [] {
      assert before + after == before;
    } else {
      RunStranded(world, config, before, after[0], id, claim);
      StrandedForever(world, config, before + [after[0]], after[1..], id, claim);
      assert before + [after[0]] + after[1..] == before + after;
    }
  }

  /** Its key is taken for good: whatever happens afterwards, the channel is
      never dropped and everyone who asks for the key is rejected. */
  lemma KeyStaysTaken(world: World, config: Config, before: seq<Action>, after: seq<Action>, id: nat, claim: Claim,
                      tx: nat, now: nat)
    requires Stranded(Run(world, config, before), id, claim)
    ensures var s := Run(world, config, before + after);
      claim.cid in s.channels && Handle(s.channels, Auth(claim.cid, claim.key, tx), config, now).1 == [Reject(tx)]
  {
    StrandedForever(world, config, before, after, id, claim);
    PeersAreMembers(world, config, before + after);
    var s := Run(world, config, before + after);
    var peers := s.channels[claim.cid].peers;
    var p :| p in peers && p.tx == id;
    assert p.publicKey == claim.key;
    assert HasKey(peers, claim.key);
  }

  /** Such a channel id: the eighth byte is inside a character. */
  lemma UnloggableId()
    ensures !Loggable("a\U{E9}\U{E9}\U{E9}\U{E9}")
  {
    var e := "\U{E9}";
    EncodeConcat("a", e + e + e + e);
    EncodeConcat(e + e + e, e);
    EncodeConcat(e + e, e);
    EncodeConcat(e, e);
    assert "a\U{E9}\U{E9}\U{E9}\U{E9}" == "a" + (e + e + e + e);
    assert "a"[1..] == "" && e[1..] == "";
    assert |Encode("a")| == 1 && Encode(e) == [0xC3, 0xA9];
  }
}
