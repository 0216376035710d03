/** Dropping a channel that a disconnect leaves empty cannot be noticed by
    connections that follow the handler's protocol. */
module RelayPruning {
  import opened RelayChannel
  import opened RelayServer
  import opened RelayIdentity
  import opened RelayHistory

  /** Equal except for a numbering that no buffer will ever show. */
  ghost predicate Alike(a: Channel, b: Channel, maxBuffer: nat) {
    a.peers == b.peers && a.buffer == b.buffer && a.lastActivity == b.lastActivity
        && (maxBuffer > 0 ==> a.nextSeq == b.nextSeq)
  }

  /** As good as absent: a fresh channel would behave the same. */
  ghost predicate Blank(ch: Channel, maxBuffer: nat) {
    ch.peers == [] && ch.buffer == [] && (maxBuffer > 0 ==> ch.nextSeq == 1)
  }

  /** The pruned table `a` has the channels of `b`, less some blank ones. */
  ghost predicate TablesAlike(a: Channels, b: Channels, maxBuffer: nat) {
    && a.Keys <= b.Keys
    && forall cid :: cid in b ==> if cid in a then Alike(a[cid], b[cid], maxBuffer) else Blank(b[cid], maxBuffer)
  }

  ghost predicate NumberedByBuffer(channels: Channels, maxBuffer: nat) {
    forall cid :: cid in channels ==>
      && |channels[cid].buffer| <= maxBuffer
      && (channels[cid].buffer == [] && maxBuffer > 0 ==> channels[cid].nextSeq == 1)
  }

  /** The one command that tells an absent channel from a blank one: it stores
      a message in a channel that has no member. */
  predicate Strays(a: Channels, b: Channels, cmd: Cmd, maxBuffer: nat) {
    cmd.Forward? && cmd.message.Encrypted? && maxBuffer > 0 && cmd.cid in b && cmd.cid !in a
  }

  lemma HandleAlike(a: Channels, b: Channels, cmd: Cmd, maxBuffer: nat, ttl: nat, now: nat)
    requires TablesAlike(a, b, maxBuffer) && NumberedByBuffer(a, maxBuffer)
    ensures var (a', out) := Handle(a, cmd, Config(maxBuffer, ttl, true), now);
      var (b', out') := Handle(b, cmd, Config(maxBuffer, ttl, false), now);
      out == out' && (TablesAlike(a', b', maxBuffer) <==> !Strays(a, b, cmd, maxBuffer))
  {
  }

  lemma EvictAlike(a: Channels, b: Channels, maxBuffer: nat, ttl: nat, now: nat)
    requires TablesAlike(a, b, maxBuffer)
    ensures TablesAlike(Evict(a, ttl, now), Evict(b, ttl, now), maxBuffer)
  {
  }

  /** What the manager does next: a command, or dropping stale channels. */
  datatype Turn = Serve(cmd: Cmd, now: nat) | Expire(now: nat)

  function Take(channels: Channels, turn: Turn, config: Config): (Channels, seq<Output>) {
    match turn
    case Serve(cmd, now) => Handle(channels, cmd, config, now)
    case Expire(now) => (Evict(channels, config.ttl, now), [])
  }

  predicate Stray(a: Channels, b: Channels, turn: Turn, maxBuffer: nat) {
    turn.Serve? && Strays(a, b, turn.cmd, maxBuffer)
  }

  /** No turn strays, as the two managers go along. */
  ghost predicate NoStrays(a: Channels, b: Channels, turns: seq<Turn>, maxBuffer: nat, ttl: nat)
    decreases |turns|
  {
    turns == []
    || (&& !Stray(a, b, turns[0], maxBuffer)
        && NoStrays(Take(a, turns[0], Config(maxBuffer, ttl, true)).0,
                    Take(b, turns[0], Config(maxBuffer, ttl, false)).0, turns[1..], maxBuffer, ttl))
  }

  function Answer(channels: Channels, cid: string, since: nat): seq<BufferedMessage> {
    if cid in channels then Since(channels[cid].buffer, since) else []
  }

  /** Two tables would answer every sync alike. */
  ghost predicate AnswerAlike(a: Channels, b: Channels) {
    forall cid, since :: Answer(a, cid, since) == Answer(b, cid, since)
  }

  /** After every turn both managers have put out the same, and would answer
      every sync alike. */
  ghost predicate Indistinct(a: Channels, b: Channels, turns: seq<Turn>, maxBuffer: nat, ttl: nat)
    decreases |turns|
  {
    turns == []
    || (var (a', out) := Take(a, turns[0], Config(maxBuffer, ttl, true));
        var (b', out') := Take(b, turns[0], Config(maxBuffer, ttl, false));
        out == out' && AnswerAlike(a', b') && Indistinct(a', b', turns[1..], maxBuffer, ttl))
  }

  /** `Answer` is what the manager replies to a sync. */
  lemma AnswerIsReply(channels: Channels, cid: string, since: nat, to: nat, config: Config, now: nat)
    ensures Handle(channels, Sync(cid, since, to), config, now)
            == (channels, [SyncReply(to, Answer(channels, cid, since))])
  {
  }

  lemma AlikeAnswer(a: Channels, b: Channels, maxBuffer: nat)
    requires TablesAlike(a, b, maxBuffer)
    ensures AnswerAlike(a, b)
  {
    forall cid, since ensures Answer(a, cid, since) == Answer(b, cid, since) {
      if cid in b && cid !in a {
        assert b[cid].buffer == [];
      }
    }
  }

  lemma StrayShows(a: Channels, b: Channels, cmd: Cmd, maxBuffer: nat, ttl: nat, now: nat)
    requires TablesAlike(a, b, maxBuffer) && Strays(a, b, cmd, maxBuffer)
    ensures !AnswerAlike(Handle(a, cmd, Config(maxBuffer, ttl, true), now).0,
                         Handle(b, cmd, Config(maxBuffer, ttl, false), now).0)
  {
    var a' := Handle(a, cmd, Config(maxBuffer, ttl, true), now).0;
    var b' := Handle(b, cmd, Config(maxBuffer, ttl, false), now).0;
    var m := BufferedMessage(1, cmd.message.ciphertext, cmd.message.nonce, now);
    assert [] + [m] == [m] && [m][1..] == [];
    assert b'[cmd.cid].buffer == [m];
    assert Since([m], 0) == [m] + Since([], 0) && [m] + [] == [m];
    assert Answer(b', cmd.cid, 0) == [m] && Answer(a', cmd.cid, 0) == [];
  }

  lemma StaysNumbered(a: Channels, turn: Turn, maxBuffer: nat, ttl: nat)
    requires NumberedByBuffer(a, maxBuffer)
    ensures NumberedByBuffer(Take(a, turn, Config(maxBuffer, ttl, true)).0, maxBuffer)
  {
  }

  lemma TakeAlike(a: Channels, b: Channels, turn: Turn, maxBuffer: nat, ttl: nat)
    requires TablesAlike(a, b, maxBuffer) && NumberedByBuffer(a, maxBuffer) && !Stray(a, b, turn, maxBuffer)
    ensures var (a', out) := Take(a, turn, Config(maxBuffer, ttl, true));
      var (b', out') := Take(b, turn, Config(maxBuffer, ttl, false));
      out == out' && TablesAlike(a', b', maxBuffer) && NumberedByBuffer(a', maxBuffer)
  {
    StaysNumbered(a, turn, maxBuffer, ttl);
    match turn
    case Serve(cmd, now) => HandleAlike(a, b, cmd, maxBuffer, ttl, now);
    case Expire(now) => EvictAlike(a, b, maxBuffer, ttl, now);
  }

  /** For the manager alone: over any sequence of commands and evictions, at
      any times, dropping empty channels does not show exactly when no message
      is stored in a channel without members that the dropping manager lacks. */
  lemma {:induction false} PruningExactly(a: Channels, b: Channels, turns: seq<Turn>, maxBuffer: nat, ttl: nat)
    requires TablesAlike(a, b, maxBuffer) && NumberedByBuffer(a, maxBuffer)
    ensures Indistinct(a, b, turns, maxBuffer, ttl) <==> NoStrays(a, b, turns, maxBuffer, ttl)
    decreases |turns|
  {
    if turns == [] {
    } else if Stray(a, b, turns[0], maxBuffer) {
      StrayShows(a, b, turns[0].cmd, maxBuffer, ttl, turns[0].now);
    } else {
      var a' := Take(a, turns[0], Config(maxBuffer, ttl, true)).0;
      var b' := Take(b, turns[0], Config(maxBuffer, ttl, false)).0;
      TakeAlike(a, b, turns[0], maxBuffer, ttl);
      AlikeAnswer(a', b', maxBuffer);
      PruningExactly(a', b', turns[1..], maxBuffer, ttl);
    }
  }

  ghost predicate SystemsAlike(a: System, b: System, maxBuffer: nat) {
    TablesAlike(a.channels, b.channels, maxBuffer) && a.queue == b.queue && a.conns == b.conns && a.tick == b.tick
  }

  lemma BufferedNumbers(s: System, config: Config)
    requires Buffered(s, config)
    ensures NumberedByBuffer(s.channels, config.maxBuffer)
  {
  }

  lemma ManageAlike(a: System, b: System, world: World, maxBuffer: nat, ttl: nat, now: nat)
    requires SystemsAlike(a, b, maxBuffer) && a.queue != []
    requires Conforms(a.conns, a.queue[0]) && Peered(a.channels, a.conns) && NumberedByBuffer(a.channels, maxBuffer)
    ensures SystemsAlike(ManageHead(a, world, Config(maxBuffer, ttl, true), now),
                         ManageHead(b, world, Config(maxBuffer, ttl, false), now), maxBuffer)
  {
    var head := a.queue[0];
    if head.cmd.Forward? {
      assert MemberOf(a.conns, head.from, head.cmd.cid);
    }
    HandleAlike(a.channels, b.channels, head.cmd, maxBuffer, ttl, now);
  }

  lemma StepAlike(a: System, b: System, world: World, maxBuffer: nat, ttl: nat, action: Action)
    requires SystemsAlike(a, b, maxBuffer)
    requires Identified(a) && Buffered(a, Config(maxBuffer, ttl, true))
    ensures SystemsAlike(Next(a, world, Config(maxBuffer, ttl, true), action),
                         Next(b, world, Config(maxBuffer, ttl, false), action), maxBuffer)
  {
    if action.Manage? && a.queue != [] {
      BufferedNumbers(a, Config(maxBuffer, ttl, true));
      assert Conforms(a.conns, a.queue[0]);
      ManageAlike(a, b, world, maxBuffer, ttl, action.now);
    } else if action.Sweep? {
      EvictAlike(a.channels, b.channels, maxBuffer, ttl, action.now);
    }
  }

  lemma {:induction false} RunsAlike(world: World, maxBuffer: nat, ttl: nat, actions: seq<Action>)
    ensures SystemsAlike(Run(world, Config(maxBuffer, ttl, true), actions),
                         Run(world, Config(maxBuffer, ttl, false), actions), maxBuffer)
  {
    if actions == [] {
    } else {
      var before := actions[..|actions| - 1];
      RunsAlike(world, maxBuffer, ttl, before);
      PeersAreMembers(world, Config(maxBuffer, ttl, true), before);
      BuffersAreTails(world, Config(maxBuffer, ttl, true), before);
      StepAlike(Run(world, Config(maxBuffer, ttl, true), before), Run(world, Config(maxBuffer, ttl, false), before),
                world, maxBuffer, ttl, actions[|actions| - 1]);
    }
  }

  /** Whatever clients send and however handlers and manager interleave, every
      connection is told, answered and offered the same with and without the
      removal of empty channels, for every buffer size. */
  lemma PruningIsInvisible(world: World, maxBuffer: nat, ttl: nat, actions: seq<Action>)
    ensures var pruned, kept :=
            Run(world, Config(maxBuffer, ttl, true), actions), Run(world, Config(maxBuffer, ttl, false), actions);
      pruned.conns == kept.conns && pruned.queue == kept.queue && pruned.tick == kept.tick
  {
    RunsAlike(world, maxBuffer, ttl, actions);
  }

  function HandleAll(channels: Channels, cmds: seq<Cmd>, config: Config): (Channels, seq<Output>)
    decreases |cmds|
  {
    if cmds == [] then (channels, [])
    else
      var (next, out) := Handle(channels, cmds[0], config, 0);
      var (last, more) := HandleAll(next, cmds[1..], config);
      (last, out + more)
  }

  lemma Chain(channels: Channels, cmd: Cmd, rest: seq<Cmd>, config: Config)
    ensures var (next, out) := Handle(channels, cmd, config, 0);
      HandleAll(channels, [cmd] + rest, config)
          == (HandleAll(next, rest, config).0, out + HandleAll(next, rest, config).1)
  {
  }

  /** After the member left: nothing, or a channel as new. */
  lemma StrangerLeft(config: Config)
    ensures var (left, out) := Handle(Handle(map[], Auth("c", "k", 0), config, 0).0, Disconnect("c", "k"), config, 0);
      out == [] && left == if config.prune then map[] else map["c" := NewChannel(0)]
  {
    var p := Peer("k", 0);
    var joined := Handle(map[], Auth("c", "k", 0), config, 0).0;
    assert [] + [p] == [p] && [p][1..] == [] && Others([p], "k") == [];
    assert joined == map["c" := Channel([p], [], 1, 0)];
  }

  /** A message from a stranger is lost, or kept. */
  lemma StrangerForwarded(channels: Channels, config: Config)
    requires config.maxBuffer > 0 && (channels == map[] || channels == map["c" := NewChannel(0)])
    ensures var (after, out) := Handle(channels, Forward("c", "s", Encrypted("c", "x", "y")), config, 0);
      && out == []
      && Answer(after, "c", 0) == if "c" in channels then [BufferedMessage(1, "x", "y", 0)] else []
  {
    var m := BufferedMessage(1, "x", "y", 0);
    assert [] + [m] == [m] && [m][1..] == [] && [m] + [] == [m];
    assert Since([m], 0) == [m] + Since([], 0);
  }

  lemma StrangerStory(config: Config)
    requires config.maxBuffer > 0
    ensures HandleAll(Handle(map[], Auth("c", "k", 0), config, 0).0,
                      [Disconnect("c", "k"), Forward("c", "s", Encrypted("c", "x", "y")), Sync("c", 0, 0)], config).1
            == [SyncReply(0, if config.prune then [] else [BufferedMessage(1, "x", "y", 0)])]
  {
    var leave, forward, sync := Disconnect("c", "k"), Forward("c", "s", Encrypted("c", "x", "y")), Sync("c", 0, 0);
    var joined := Handle(map[], Auth("c", "k", 0), config, 0).0;
    var left := Handle(joined, leave, config, 0).0;
    var after := Handle(left, forward, config, 0).0;
    StrangerLeft(config);
    StrangerForwarded(left, config);
    AnswerIsReply(after, "c", 0, 0, config, 0);
    Chain(joined, leave, [forward, sync], config);
    Chain(left, forward, [sync], config);
    Chain(after, sync, [], config);
    assert [leave, forward, sync] == [leave] + [forward, sync] && [forward, sync] == [forward] + [sync];
    assert [sync] == [sync] + [];
  }

  /** The handler's protocol is what hides it: a forward from someone who is
      not in the channel would be stored by a kept channel and lost by a
      dropped one, and the next sync would tell them apart. */
  lemma StrangersSeePruning(maxBuffer: nat, ttl: nat)
    requires maxBuffer > 0
    ensures var cmds := [Auth("c", "k", 0), Disconnect("c", "k"), Forward("c", "s", Encrypted("c", "x", "y")), Sync("c", 0, 0)];
      HandleAll(map[], cmds, Config(maxBuffer, ttl, true)).1 != HandleAll(map[], cmds, Config(maxBuffer, ttl, false)).1
  {
    var join, leave, forward, sync :=
        Auth("c", "k", 0), Disconnect("c", "k"), Forward("c", "s", Encrypted("c", "x", "y")), Sync("c", 0, 0);
    var opening := Handle(map[], join, Config(maxBuffer, ttl, true), 0).1;
    var m := BufferedMessage(1, "x", "y", 0);
    forall prune
      ensures HandleAll(map[], [join, leave, forward, sync], Config(maxBuffer, ttl, prune)).1
              == opening + [SyncReply(0, if prune then [] else [m])]
    {
      StrangerStory(Config(maxBuffer, ttl, prune));
      Chain(map[], join, [leave, forward, sync], Config(maxBuffer, ttl, prune));
      assert [join, leave, forward, sync] == [join] + [leave, forward, sync];
    }
    assert (opening + [SyncReply(0, [m])])[|opening|] != (opening + [SyncReply(0, [])])[|opening|];
  }
}
