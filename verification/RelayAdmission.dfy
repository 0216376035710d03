/** Who is let into the relay, and what a handler does with its client's frames
    once the manager has taken the command. */
module RelayAdmission {
  import opened Wrappers
  import opened RelayChannel
  import opened RelayServer
  import opened RelayIdentity
  import opened RelayHistory

  // ------------------------------------------------------------ the access token

  /** The action by which a client asks for `claim` with what the relay requires. */
  ghost predicate Presents(action: Action, id: nat, claim: Claim, required: Option<string>) {
    && action.Receive? && action.id == id && action.frame.AuthFrame?
    && action.frame.cid == claim.cid && action.frame.key == claim.key
    && (required.Some? ==> action.frame.token == required)
  }

  ghost predicate Presented(actions: seq<Action>, id: nat, claim: Claim, required: Option<string>) {
    exists n :: 0 <= n < |actions| && Presents(actions[n], id, claim, required)
  }

  lemma ManageKeepsClaims(s: System, world: World, config: Config, now: nat)
    requires s.queue != []
    ensures var s' := ManageHead(s, world, config, now);
      |s'.conns| == |s.conns| && forall id :: 0 <= id < |s.conns| ==> s'.conns[id].claim == s.conns[id].claim
  {
    ManageCores(s, world, config, now);
    var s' := ManageHead(s, world, config, now);
    var judged := Judge(s.conns, s.queue[0], Handle(s.channels, s.queue[0].cmd, config, now).1);
    forall id | 0 <= id < |s.conns| ensures s'.conns[id].claim == s.conns[id].claim {
      assert Core(s'.conns[id]) == Core(judged[id]);
    }
  }

  /** A step gives a connection a claim only if that step presents it. */
  lemma StepClaims(s: System, world: World, config: Config, action: Action, id: nat)
    requires Identified(s) && id < |Next(s, world, config, action).conns|
    ensures var claim := Next(s, world, config, action).conns[id].claim;
      || claim == None || (id < |s.conns| && s.conns[id].claim == claim)
      || Presents(action, id, claim.value, world.required)
  {
    if action.Manage? && s.queue != [] {
      ManageKeepsClaims(s, world, config, action.now);
    }
  }

  /** In every run whoever has a claim, and so every member, presented the
      token the relay requires. */
  lemma {:induction false} ClaimsArePresented(world: World, config: Config, actions: seq<Action>, id: nat)
    requires id < |Run(world, config, actions).conns|
    ensures var claim := Run(world, config, actions).conns[id].claim;
      claim.Some? ==> Presented(actions, id, claim.value, world.required)
  {
    if actions == [] {
    } else {
      var n := |actions| - 1;
      var s := Run(world, config, actions[..n]);
      PeersAreMembers(world, config, actions[..n]);
      StepClaims(s, world, config, actions[n], id);
      var claim := Run(world, config, actions).conns[id].claim;
      if claim.Some? && !Presents(actions[n], id, claim.value, world.required) {
        ClaimsArePresented(world, config, actions[..n], id);
        var k :| 0 <= k < n && Presents(actions[..n][k], id, claim.value, world.required);
        assert actions[k] == actions[..n][k];
      }
    }
  }

  lemma PeersPresented(world: World, config: Config, actions: seq<Action>, cid: string, p: Peer)
    requires var s := Run(world, config, actions); cid in s.channels && p in s.channels[cid].peers
    ensures Presented(actions, p.tx, Claim(cid, p.publicKey), world.required)
  {
    PeersAreMembers(world, config, actions);
    ClaimsArePresented(world, config, actions, p.tx);
  }

  /** The first frame, exactly: with the required token, or any if none is
      required, it asks the manager for the channel; with another or none the
      connection is over and nothing is asked. */
  lemma AuthFrameExactly(s: System, world: World, config: Config, id: nat, cid: string, key: string,
                         token: Option<string>)
    requires id < |s.conns| && s.conns[id].phase == Greeting
    ensures var s' := Next(s, world, config, Receive(id, AuthFrame(cid, key, token)));
      if world.required.Some? && token != world.required
      then s' == s.(conns := s.conns[id := s.conns[id].(phase := Closed)])
      else s' == s.(conns := s.conns[id := s.conns[id].(phase := AwaitingAuth, claim := Some(Claim(cid, key)))],
                    queue := s.queue + [Queued(id, Auth(cid, key, id))])
  {
    assert Enqueue(id, []) == [] && s.queue + [] == s.queue;
    assert Enqueue(id, [Auth(cid, key, id)]) == [Queued(id, Auth(cid, key, id))] + Enqueue(id, []);
  }

  // ------------------------------------------------------------ admission and counts

  ghost function MembersOf(conns: seq<Conn>, cid: string): set<nat> {
    set id: nat | id < |conns| && MemberOf(conns, id, cid)
  }

  function Queues(peers: seq<Peer>): set<nat> {
    set p | p in peers :: p.tx
  }

  lemma OneMoreQueue(front: seq<Peer>, last: Peer)
    requires forall i :: 0 <= i < |front| ==> front[i].tx != last.tx
    ensures |Queues(front + [last])| == |Queues(front)| + 1
  {
    assert last.tx !in Queues(front);
    assert Queues(front + [last]) == Queues(front) + {last.tx} by {
      assert (front + [last])[|front|] == last;
      forall p ensures p in front + [last] <==> p in front || p == last {
      }
    }
  }

  lemma {:induction false} DistinctQueuesCount(peers: seq<Peer>)
    requires forall i, j :: 0 <= i < j < |peers| ==> peers[i].tx != peers[j].tx
    ensures |Queues(peers)| == |peers|
  {
    if peers == [] {
    } else {
      var front, last := peers[..|peers| - 1], peers[|peers| - 1];
      DistinctQueuesCount(front);
      assert peers == front + [last];
      forall i | 0 <= i < |front| ensures front[i].tx != last.tx {
        assert peers[i] == front[i];
      }
      OneMoreQueue(front, last);
    }
  }

  /** A channel has as many peers as members. */
  lemma PeersCountMembers(channels: Channels, conns: seq<Conn>, cid: string)
    requires Peered(channels, conns) && cid in channels
    ensures |channels[cid].peers| == |MembersOf(conns, cid)|
  {
    var peers := channels[cid].peers;
    DistinctQueues(channels, conns, cid);
    DistinctQueuesCount(peers);
    forall id ensures id in Queues(peers) <==> id in MembersOf(conns, cid) {
      if id in MembersOf(conns, cid) {
        assert HasEntry(peers, id);
      }
    }
    assert Queues(peers) == MembersOf(conns, cid);
  }

  /** Some member of the channel holds the key. */
  ghost predicate KeyHeld(conns: seq<Conn>, cid: string, key: string) {
    exists id: nat :: MemberOf(conns, id, cid) && conns[id].claim.value.key == key
  }

  lemma HeldIsTaken(channels: Channels, conns: seq<Conn>, cid: string, key: string)
    requires Peered(channels, conns)
    ensures KeyHeld(conns, cid, key) <==> cid in channels && HasKey(channels[cid].peers, key)
  {
    if KeyHeld(conns, cid, key) {
      var id: nat :| MemberOf(conns, id, cid) && conns[id].claim.value.key == key;
      var p :| p in channels[cid].peers && p.tx == id;
      assert p.publicKey == key;
    }
    if cid in channels && HasKey(channels[cid].peers, key) {
      var i :| 0 <= i < |channels[cid].peers| && channels[cid].peers[i].publicKey == key;
      assert channels[cid].peers[i] in channels[cid].peers;
      assert MemberOf(conns, channels[cid].peers[i].tx, cid);
    }
  }

  /** A notice to each of `peers`, in order. */
  ghost predicate Notifies(outputs: seq<Output>, peers: seq<Peer>, notice: Message) {
    |outputs| == |peers| && forall i :: 0 <= i < |peers| ==> outputs[i] == Send(peers[i].tx, notice)
  }

  lemma {:induction false} SendAllNotifies(peers: seq<Peer>, notice: Message)
    ensures Notifies(SendAll(peers, notice), peers, notice)
  {
    if peers == [] {
    } else {
      SendAllNotifies(peers[1..], notice);
    }
  }

  function U32(n: nat): nat {
    n % 4294967296
  }

  /** A request to join is refused exactly if a member holds the key; otherwise
      it is told how many members there then are, and so is every member. */
  lemma JoinExactly(s: System, config: Config, now: nat)
    requires Identified(s) && s.queue != [] && s.queue[0].cmd.Auth?
    ensures var Auth(cid, key, tx) := s.queue[0].cmd;
      var (channels, outputs) := Handle(s.channels, s.queue[0].cmd, config, now);
      var peers := (if cid in s.channels then s.channels[cid].peers else []) + [Peer(key, tx)];
      if KeyHeld(s.conns, cid, key) then outputs == [Reject(tx)]
      else
        var count := U32(|MembersOf(s.conns, cid)| + 1);
        && cid in channels && channels[cid].peers == peers
        && outputs != [] && outputs[0] == Accept(tx, count) && Notifies(outputs[1..], peers, PeerChange("", count))
  {
    var Auth(cid, key, tx) := s.queue[0].cmd;
    HeldIsTaken(s.channels, s.conns, cid, key);
    var peers := (if cid in s.channels then s.channels[cid].peers else []) + [Peer(key, tx)];
    if cid in s.channels {
      PeersCountMembers(s.channels, s.conns, cid);
    } else {
      assert MembersOf(s.conns, cid) == {};
    }
    SendAllNotifies(peers, PeerChange("", AsU32(|peers|)));
  }

  /** A departure tells those who stay how many they are, under the channel's id. */
  lemma LeaveExactly(s: System, config: Config, now: nat) returns (i: nat)
    requires Identified(s) && s.queue != [] && s.queue[0].cmd.Disconnect?
    ensures var cid := s.queue[0].cmd.cid;
      && cid in s.channels
      && var peers, outputs := s.channels[cid].peers, Handle(s.channels, s.queue[0].cmd, config, now).1;
      && i < |peers| && peers[i].tx == s.queue[0].from
      && |MembersOf(s.conns, cid)| > 0
      && Notifies(outputs, peers[..i] + peers[i + 1..], PeerChange(cid, U32(|MembersOf(s.conns, cid)| - 1)))
  {
    var cid, key := s.queue[0].cmd.cid, s.queue[0].cmd.publicKey;
    assert Conforms(s.conns, s.queue[0]) && Member(s.conns, s.queue[0].from);
    i := DisconnectRemovesOwnEntry(s, config, now);
    var peers := s.channels[cid].peers;
    assert peers[i] in peers;
    KeyIsOwn(s.channels, s.conns, s.queue[0], peers[i]);
    OthersRemovesOne(peers, i);
    PeersCountMembers(s.channels, s.conns, cid);
    SendAllNotifies(Others(peers, key), PeerChange(cid, AsU32(|Others(peers, key)|)));
  }

  // ------------------------------------------------------------ from frame to effect

  lemma OneQueued(id: nat, cmd: Cmd)
    ensures Enqueue(id, [cmd]) == [Queued(id, cmd)]
  {
    assert [cmd][1..] == [];
    assert Enqueue(id, [cmd]) == [Queued(id, cmd)] + Enqueue(id, []);
  }

  /** An active handler passes its client's messages on under its own claim,
      waits for the answer to a sync, says farewell when the client hangs up,
      and ignores everything else. */
  lemma FrameExactly(s: System, world: World, config: Config, id: nat, frame: Frame, claim: Claim)
    requires id < |s.conns| && s.conns[id].phase == Active && s.conns[id].claim == Some(claim)
    requires frame.EncryptedFrame? ==> frame.message.Encrypted?
    ensures var conn := s.conns[id];
      Next(s, world, config, Receive(id, frame)) ==
      match frame
      case EncryptedFrame(message) => s.(queue := s.queue + [Queued(id, Forward(claim.cid, claim.key, message))])
      case SyncFrame(cid, since) =>
        s.(conns := s.conns[id := conn.(phase := AwaitingSync)], queue := s.queue + [Queued(id, Sync(cid, since, id))])
      case Hangup =>
        s.(conns := s.conns[id := conn.(phase := Closed)],
           queue := s.queue + [Queued(id, Disconnect(claim.cid, claim.key))])
      case _ => s
  {
    assert s.conns[id := s.conns[id]] == s.conns && s.queue + [] == s.queue;
    var (_, cmds) := OnFrame(s.conns[id], id, frame, world.required);
    if cmds != [] {
      assert cmds == [cmds[0]];
      OneQueued(id, cmds[0]);
    }
  }

  /** After the answer the handler takes frames again. */
  lemma SyncEnds(s: System, world: World, config: Config, id: nat)
    requires id < |s.conns| && s.conns[id].phase == AwaitingSync
    requires forall i :: 0 <= i < |s.queue| ==> s.queue[i].from != id
    ensures Next(s, world, config, TakeSyncReply(id)).conns[id] == s.conns[id].(phase := Active)
  {
  }

  /** A forwarded message is stored under the next number, with the time. */
  lemma MessageIsStored(s: System, world: World, config: Config, now: nat)
    requires Identified(s) && Buffered(s, config) && s.queue != [] && s.queue[0].cmd.Forward?
    ensures var Forward(cid, _, message) := s.queue[0].cmd;
      var s' := ManageHead(s, world, config, now);
      && cid in s.logs && cid in s'.logs && message.Encrypted?
      && s'.logs[cid] == s.logs[cid]
                         + [Logged(s.queue[0].from, message,
                                   BufferedMessage(|s.logs[cid]| + 1, message.ciphertext, message.nonce, now))]
  {
    assert Conforms(s.conns, s.queue[0]) && Member(s.conns, s.queue[0].from);
    var cid := s.queue[0].cmd.cid;
    assert ChannelBuffered(s.channels[cid], s.logs[cid], config.maxBuffer);
  }

  /** It is offered to every other member of the channel, and to its sender not. */
  lemma MessageIsOffered(s: System, world: World, config: Config, now: nat, other: nat)
    requires Identified(s) && s.queue != [] && s.queue[0].cmd.Forward?
    requires other < |s.conns|
    ensures var Forward(cid, _, message) := s.queue[0].cmd;
      var s' := ManageHead(s, world, config, now);
      && other < |s'.conns|
      && Relayed(s'.conns[other].offers)
         == Relayed(s.conns[other].offers)
            + if MemberOf(s.conns, other, cid) && other != s.queue[0].from then [message] else []
  {
    ForwardRelays(s, world, config, now, other);
  }

  /** A processed farewell ends one membership and no other. */
  lemma FarewellLeaves(s: System, world: World, config: Config, now: nat)
    requires Identified(s) && s.queue != [] && s.queue[0].cmd.Disconnect?
    ensures var s' := ManageHead(s, world, config, now);
      forall cid :: MembersOf(s'.conns, cid) == MembersOf(s.conns, cid) - {s.queue[0].from}
  {
    ManageCores(s, world, config, now);
    var s', judged := ManageHead(s, world, config, now), MarkLeft(s.conns, s.queue[0]);
    assert Conforms(s.conns, s.queue[0]);
    forall cid, k: nat ensures k in MembersOf(s'.conns, cid) <==> k in MembersOf(s.conns, cid) && k != s.queue[0].from {
      if k < |s.conns| {
        assert Core(s'.conns[k]) == Core(judged[k]);
      }
    }
  }

  lemma JoinJudged(s: System, config: Config, now: nat, k: nat)
    requires Identified(s) && s.queue != [] && s.queue[0].cmd.Auth? && k < |s.conns|
    ensures var Auth(cid, key, tx) := s.queue[0].cmd;
      var judged := Judge(s.conns, s.queue[0], Handle(s.channels, s.queue[0].cmd, config, now).1);
      && |judged| == |s.conns|
      && (MemberOf(judged, k, cid) <==> MemberOf(s.conns, k, cid) || (k == tx && !KeyHeld(s.conns, cid, key)))
  {
    JoinExactly(s, config, now);
    assert Conforms(s.conns, s.queue[0]);
  }

  /** A processed request to join adds its sender, unless its key is held. */
  lemma NewcomerJoins(s: System, world: World, config: Config, now: nat)
    requires Identified(s) && s.queue != [] && s.queue[0].cmd.Auth?
    ensures var Auth(cid, key, _) := s.queue[0].cmd;
      MembersOf(ManageHead(s, world, config, now).conns, cid)
      == if KeyHeld(s.conns, cid, key) then MembersOf(s.conns, cid) else MembersOf(s.conns, cid) + {s.queue[0].from}
  {
    var Auth(cid, key, tx) := s.queue[0].cmd;
    ManageCores(s, world, config, now);
    var s' := ManageHead(s, world, config, now);
    var judged := Judge(s.conns, s.queue[0], Handle(s.channels, s.queue[0].cmd, config, now).1);
    assert Conforms(s.conns, s.queue[0]);
    forall k: nat | k < |s.conns| ensures MemberOf(s'.conns, k, cid) <==> MemberOf(judged, k, cid) {
      assert Core(s'.conns[k]) == Core(judged[k]);
    }
    forall k: nat | k < |s.conns|
      ensures k in MembersOf(s'.conns, cid)
              <==> k in MembersOf(s.conns, cid) || (k == tx && !KeyHeld(s.conns, cid, key))
    {
      JoinJudged(s, config, now, k);
    }
  }
}
