/** Who is in a channel: peer entries and connections correspond one to one,
    under any interleaving of handlers and manager. */
module RelayIdentity {
  import opened Wrappers
  import opened RelayChannel
  import opened RelayServer

  /** `id` was accepted and its disconnect has not been processed. */
  ghost predicate MemberOf(conns: seq<Conn>, id: nat, cid: string) {
    && id < |conns|
    && conns[id].authReply.Some? && conns[id].authReply.value.Accepted?
    && !conns[id].left
    && conns[id].claim.Some? && conns[id].claim.value.cid == cid
  }

  ghost predicate Member(conns: seq<Conn>, id: nat) {
    id < |conns| && conns[id].claim.Some? && MemberOf(conns, id, conns[id].claim.value.cid)
  }

  ghost predicate DistinctKeys(peers: seq<Peer>) {
    forall i, j :: 0 <= i < j < |peers| ==> peers[i].publicKey != peers[j].publicKey
  }

  ghost predicate HasEntry(peers: seq<Peer>, id: nat) {
    exists p :: p in peers && p.tx == id
  }

  /** Peer entries are in bijection with members, and keys are distinct. */
  ghost predicate Peered(channels: Channels, conns: seq<Conn>) {
    && (forall cid, p :: cid in channels && p in channels[cid].peers ==>
          MemberOf(conns, p.tx, cid) && conns[p.tx].claim.value.key == p.publicKey)
    && (forall id, cid :: MemberOf(conns, id, cid) ==> cid in channels && HasEntry(channels[cid].peers, id))
    && (forall cid :: cid in channels ==> DistinctKeys(channels[cid].peers))
  }

  /** A queued command is one its sender's handler may still have outstanding. */
  ghost predicate Conforms(conns: seq<Conn>, q: Queued) {
    && q.from < |conns|
    && var conn := conns[q.from];
    match q.cmd
    case Auth(cid, key, tx) =>
      tx == q.from && conn.phase == AwaitingAuth && conn.authReply == None && conn.claim == Some(Claim(cid, key))
    case Forward(cid, key, message) =>
      Member(conns, q.from) && conn.phase != AwaitingAuth && conn.claim == Some(Claim(cid, key)) && message.Encrypted?
    case Sync(_, _, to) => to == q.from && Member(conns, q.from) && conn.phase != AwaitingAuth
    case Disconnect(cid, key) => Member(conns, q.from) && conn.claim == Some(Claim(cid, key)) && conn.phase == Closed
  }

  ghost predicate ConnOk(conn: Conn) {
    match conn.phase
    case Greeting => conn.claim == None && conn.authReply == None && !conn.left
    case AwaitingAuth => conn.claim.Some? && !conn.left
    case Active => conn.claim.Some? && conn.authReply.Some? && conn.authReply.value.Accepted? && !conn.left
    case AwaitingSync => conn.claim.Some? && conn.authReply.Some? && conn.authReply.value.Accepted? && !conn.left
    case Closed => conn.authReply.Some? && conn.authReply.value.Accepted? ==> conn.claim.Some?
  }

  /** After its request to join, or its farewell, a connection has nothing more in the queue. */
  ghost predicate Disciplined(queue: seq<Queued>, conns: seq<Conn>) {
    && (forall i :: 0 <= i < |queue| ==> Conforms(conns, queue[i]))
    && (forall i, j :: 0 <= i < j < |queue| && (queue[i].cmd.Auth? || queue[i].cmd.Disconnect?) ==>
          queue[j].from != queue[i].from)
    && (forall id :: 0 <= id < |conns| ==> ConnOk(conns[id]))
  }

  ghost predicate Identified(s: System) {
    Peered(s.channels, s.conns) && Disciplined(s.queue, s.conns)
  }

  // ------------------------------------------------------------ peers

  lemma {:induction false} OthersMembers(peers: seq<Peer>, key: string)
    ensures forall p :: p in Others(peers, key) <==> p in peers && p.publicKey != key
    ensures DistinctKeys(peers) ==> DistinctKeys(Others(peers, key))
  {
    if peers == [] {
    } else {
      OthersMembers(peers[1..], key);
      assert peers == [peers[0]] + peers[1..];
      assert Others(peers, key) == (if peers[0].publicKey != key then [peers[0]] else []) + Others(peers[1..], key);
      if DistinctKeys(peers) {
        assert DistinctKeys(peers[1..]);
        forall p | p in peers[1..] ensures p.publicKey != peers[0].publicKey {
          var i :| 0 <= i < |peers[1..]| && peers[1..][i] == p;
          assert peers[i + 1] == p;
        }
        var rest := Others(peers[1..], key);
        forall i | 0 <= i < |rest| ensures rest[i].publicKey != peers[0].publicKey {
          assert rest[i] in rest;
        }
      }
    }
  }

  lemma {:induction false} OthersAbsent(peers: seq<Peer>, key: string)
    requires forall i :: 0 <= i < |peers| ==> peers[i].publicKey != key
    ensures Others(peers, key) == peers
  {
    if peers == [] {
    } else {
      OthersAbsent(peers[1..], key);
    }
  }

  /** With distinct keys, retaining the others removes exactly one entry. */
  lemma {:induction false} OthersRemovesOne(peers: seq<Peer>, i: nat)
    requires DistinctKeys(peers) && i < |peers|
    ensures Others(peers, peers[i].publicKey) == peers[..i] + peers[i + 1..]
  {
    var key := peers[i].publicKey;
    if i == 0 {
      OthersAbsent(peers[1..], key);
    } else {
      assert peers[0].publicKey != key;
      OthersRemovesOne(peers[1..], i - 1);
      assert peers[1..][..i - 1] == peers[1..i] && peers[1..][i..] == peers[i + 1..];
      assert [peers[0]] + peers[1..i] == peers[..i];
    }
  }

  // ------------------------------------------------------------ delivery leaves identities alone

  /** The part of a connection that decides who it is. */
  function Core(conn: Conn): Conn {
    conn.(syncs := [], offers := [])
  }

  ghost predicate SameCores(a: seq<Conn>, b: seq<Conn>) {
    |a| == |b| && forall id :: 0 <= id < |a| ==> Core(a[id]) == Core(b[id])
  }

  lemma {:induction false} DeliverKeepsCores(conns: seq<Conn>, outputs: seq<Output>, world: World, tick: nat)
    requires forall i :: 0 <= i < |outputs| ==> outputs[i].Send? || outputs[i].SyncReply?
    ensures SameCores(conns, DeliverAll(conns, outputs, world, tick))
    decreases |outputs|
  {
    if outputs == [] {
    } else {
      var next := Deliver(conns, outputs[0], world.accepts(tick, outputs[0].to));
      assert SameCores(conns, next);
      DeliverKeepsCores(next, outputs[1..], world, tick + 1);
    }
  }

  lemma {:induction false} SendAllSends(peers: seq<Peer>, message: Message)
    ensures forall i :: 0 <= i < |SendAll(peers, message)| ==> SendAll(peers, message)[i].Send?
  {
    if peers == [] {
    } else {
      SendAllSends(peers[1..], message);
    }
  }

  /** What the manager's handling of `head` does to identities. */
  function Judge(conns: seq<Conn>, head: Queued, outputs: seq<Output>): seq<Conn> {
    var marked := MarkLeft(conns, head);
    if outputs != [] && (outputs[0].Accept? || outputs[0].Reject?) then Deliver(marked, outputs[0], false) else marked
  }

  lemma ManageCores(s: System, world: World, config: Config, now: nat)
    requires s.queue != []
    ensures var head := s.queue[0];
      SameCores(ManageHead(s, world, config, now).conns,
          Judge(s.conns, head, Handle(s.channels, head.cmd, config, now).1))
  {
    var head := s.queue[0];
    var outputs := Handle(s.channels, head.cmd, config, now).1;
    var marked := MarkLeft(s.conns, head);
    match head.cmd
    case Auth(cid, key, tx) =>
      var first := Deliver(marked, outputs[0], world.accepts(s.tick, outputs[0].to));
      assert first == Judge(s.conns, head, outputs);
      if outputs[0].Accept? {
        var ch := if cid in s.channels then s.channels[cid] else NewChannel(now);
        var peers := ch.peers + [Peer(key, tx)];
        assert outputs[1..] == SendAll(peers, PeerChange("", AsU32(|peers|)));
        SendAllSends(peers, PeerChange("", AsU32(|peers|)));
      }
      DeliverKeepsCores(first, outputs[1..], world, s.tick + 1);
    case Forward(cid, key, message) =>
      if cid in s.channels {
        SendAllSends(Others(s.channels[cid].peers, key), message);
      }
      DeliverKeepsCores(marked, outputs, world, s.tick);
    case Sync(_, _, _) =>
      DeliverKeepsCores(marked, outputs, world, s.tick);
    case Disconnect(cid, key) =>
      if cid in s.channels {
        var kept := Others(s.channels[cid].peers, key);
        SendAllSends(kept, PeerChange(cid, AsU32(|kept|)));
      }
      DeliverKeepsCores(marked, outputs, world, s.tick);
  }

  /** Identities depend on cores only. */
  lemma CoresDecide(channels: Channels, queue: seq<Queued>, a: seq<Conn>, b: seq<Conn>)
    requires SameCores(a, b)
    requires Peered(channels, a) && Disciplined(queue, a)
    ensures Peered(channels, b) && Disciplined(queue, b)
  {
    forall id: nat, cid ensures MemberOf(a, id, cid) <==> MemberOf(b, id, cid) {
      if id < |a| {
        assert Core(a[id]) == Core(b[id]);
      }
    }
    forall id | 0 <= id < |a|
      ensures a[id].phase == b[id].phase && a[id].claim == b[id].claim && a[id].authReply == b[id].authReply
              && a[id].left == b[id].left
    {
      assert Core(a[id]) == Core(b[id]);
    }
    forall i | 0 <= i < |queue| ensures Conforms(b, queue[i]) {
      assert Conforms(a, queue[i]);
    }
  }

  // ------------------------------------------------------------ the manager's steps

  lemma DisciplineAfterHead(queue: seq<Queued>, conns: seq<Conn>, conns': seq<Conn>)
    requires queue != [] && Disciplined(queue, conns)
    requires |conns'| == |conns|
    requires forall id :: 0 <= id < |conns| && id != queue[0].from ==> conns'[id] == conns[id]
    requires conns'[queue[0].from] == conns[queue[0].from] || queue[0].cmd.Auth? || queue[0].cmd.Disconnect?
    requires ConnOk(conns'[queue[0].from])
    ensures Disciplined(queue[1..], conns')
  {
  }

  lemma JoinedEntry(channels: Channels, q: Queued, ch: Channel, id: nat, cid: string)
    requires q.cmd.Auth? && cid in channels && HasEntry(channels[cid].peers, id)
    requires ch.peers == (if q.cmd.cid in channels then channels[q.cmd.cid].peers else []) + [Peer(q.cmd.publicKey, q.from)]
    ensures HasEntry(channels[q.cmd.cid := ch][cid].peers, id)
  {
  }

  lemma JoinPeered(channels: Channels, conns: seq<Conn>, q: Queued, now: nat, ch: Channel, conns': seq<Conn>)
    requires Peered(channels, conns) && q.cmd.Auth? && Conforms(conns, q)
    requires ch.peers == (if q.cmd.cid in channels then channels[q.cmd.cid].peers else []) + [Peer(q.cmd.publicKey, q.from)]
    requires q.cmd.cid in channels ==> !HasKey(channels[q.cmd.cid].peers, q.cmd.publicKey)
    requires |conns'| == |conns| && forall id :: 0 <= id < |conns| && id != q.from ==> conns'[id] == conns[id]
    requires !conns[q.from].left && conns'[q.from].authReply.Some? && conns'[q.from].authReply.value.Accepted?
    requires conns'[q.from].claim == conns[q.from].claim && !conns'[q.from].left
    ensures Peered(channels[q.cmd.cid := ch], conns')
  {
    var cid0 := q.cmd.cid;
    var channels' := channels[cid0 := ch];
    forall id: nat, cid | MemberOf(conns', id, cid) ensures cid in channels' && HasEntry(channels'[cid].peers, id) {
      if id == q.from {
        assert Peer(q.cmd.publicKey, q.from) in ch.peers;
      } else {
        assert MemberOf(conns, id, cid);
        JoinedEntry(channels, q, ch, id, cid);
      }
    }
    forall cid, p | cid in channels' && p in channels'[cid].peers
      ensures MemberOf(conns', p.tx, cid) && conns'[p.tx].claim.value.key == p.publicKey
    {
      if cid == cid0 && p == Peer(q.cmd.publicKey, q.from) {
      } else {
        assert cid in channels && p in channels[cid].peers;
      }
    }
  }

  /** The entry under a leaver's key is the leaver's. */
  lemma KeyIsOwn(channels: Channels, conns: seq<Conn>, q: Queued, p: Peer)
    requires Peered(channels, conns) && q.cmd.Disconnect? && Conforms(conns, q)
    requires q.cmd.cid in channels && p in channels[q.cmd.cid].peers
    ensures p.publicKey == q.cmd.publicKey <==> p.tx == q.from
  {
  }

  lemma LeavePeered(channels: Channels, conns: seq<Conn>, q: Queued, ch: Channel, conns': seq<Conn>)
    requires Peered(channels, conns) && q.cmd.Disconnect? && Conforms(conns, q)
    requires q.cmd.cid in channels && ch.peers == Others(channels[q.cmd.cid].peers, q.cmd.publicKey)
    requires conns' == conns[q.from := conns[q.from].(left := true)]
    ensures Peered(channels[q.cmd.cid := ch], conns')
  {
    var channels' := channels[q.cmd.cid := ch];
    OthersMembers(channels[q.cmd.cid].peers, q.cmd.publicKey);
    forall id: nat, cid ensures MemberOf(conns', id, cid) <==> MemberOf(conns, id, cid) && id != q.from {
    }
    forall id: nat, cid | MemberOf(conns', id, cid) ensures cid in channels' && HasEntry(channels'[cid].peers, id) {
      var p :| p in channels[cid].peers && p.tx == id;
      if cid == q.cmd.cid {
        KeyIsOwn(channels, conns, q, p);
      }
      assert p in channels'[cid].peers;
    }
    forall cid, p | cid in channels' && p in channels'[cid].peers
      ensures MemberOf(conns', p.tx, cid) && conns'[p.tx].claim.value.key == p.publicKey
    {
      assert p in channels[cid].peers && MemberOf(conns, p.tx, cid);
      if cid == q.cmd.cid {
        KeyIsOwn(channels, conns, q, p);
      }
    }
  }

  lemma DropEmptyPeered(channels: Channels, conns: seq<Conn>, cid: string)
    requires Peered(channels, conns) && cid in channels && channels[cid].peers == []
    ensures Peered(channels - {cid}, conns)
  {
  }

  lemma SamePeers(channels: Channels, channels': Channels, conns: seq<Conn>, conns': seq<Conn>)
    requires Peered(channels, conns)
    requires channels'.Keys == channels.Keys && forall cid :: cid in channels ==>
            channels'[cid].peers == channels[cid].peers
    requires |conns'| == |conns|
    requires forall id: nat, cid :: MemberOf(conns', id, cid) <==> MemberOf(conns, id, cid)
    requires forall id :: 0 <= id < |conns| ==> conns'[id].claim == conns[id].claim
    ensures Peered(channels', conns')
  {
  }

  lemma ManageLeave(s: System, config: Config, now: nat)
    requires Identified(s) && s.queue != [] && s.queue[0].cmd.Disconnect?
    ensures var (channels, outputs) := Handle(s.channels, s.queue[0].cmd, config, now);
      Peered(channels, Judge(s.conns, s.queue[0], outputs))
  {
    var head := s.queue[0];
    assert Conforms(s.conns, head) && Member(s.conns, head.from);
    var (channels, outputs) := Handle(s.channels, head.cmd, config, now);
    var judged, cid := Judge(s.conns, head, outputs), head.cmd.cid;
    var ch := s.channels[cid].(peers := Others(s.channels[cid].peers, head.cmd.publicKey));
    LeavePeered(s.channels, s.conns, head, ch, judged);
    if cid !in channels {
      DropEmptyPeered(s.channels[cid := ch], judged, cid);
      assert channels == s.channels[cid := ch] - {cid};
    }
  }

  lemma ManagePeered(s: System, config: Config, now: nat)
    requires Identified(s) && s.queue != []
    ensures var (channels, outputs) := Handle(s.channels, s.queue[0].cmd, config, now);
      Peered(channels, Judge(s.conns, s.queue[0], outputs))
  {
    var head := s.queue[0];
    assert Conforms(s.conns, head);
    var (channels, outputs) := Handle(s.channels, head.cmd, config, now);
    var judged := Judge(s.conns, head, outputs);
    match head.cmd
    case Auth(cid, key, tx) =>
      assert ConnOk(s.conns[tx]);
      if outputs[0].Accept? {
        JoinPeered(s.channels, s.conns, head, now, channels[cid], judged);
      } else {
        SamePeers(s.channels, channels, s.conns, judged);
      }
    case Disconnect(cid, key) =>
      ManageLeave(s, config, now);
    case Forward(cid, key, message) =>
      SamePeers(s.channels, channels, s.conns, judged);
    case Sync(_, _, _) =>
  }

  lemma ManageIdentified(s: System, world: World, config: Config, now: nat)
    requires Identified(s)
    ensures Identified(ManageHead(s, world, config, now))
  {
    if s.queue != [] {
      var head := s.queue[0];
      assert Conforms(s.conns, head);
      var (channels, outputs) := Handle(s.channels, head.cmd, config, now);
      var judged := Judge(s.conns, head, outputs);
      ManagePeered(s, config, now);
      assert ConnOk(s.conns[head.from]);
      DisciplineAfterHead(s.queue, s.conns, judged);
      ManageCores(s, world, config, now);
      CoresDecide(channels, s.queue[1..], judged, ManageHead(s, world, config, now).conns);
    }
  }

  // ------------------------------------------------------------ the handlers' steps

  lemma FrameConforms(conns: seq<Conn>, id: nat, frame: Frame, required: Option<string>)
    requires id < |conns| && ConnOk(conns[id])
    ensures var (conn, cmds) := OnFrame(conns[id], id, frame, required);
      |cmds| <= 1 && ConnOk(conn) && (cmds != [] ==> Conforms(conns[id := conn], Queued(id, cmds[0])))
  {
    if conns[id].claim.Some? {
      var claim := conns[id].claim.value;
      assert claim == Claim(claim.cid, claim.key);
    }
  }

  lemma ReceiveIdentified(s: System, world: World, config: Config, id: nat, frame: Frame)
    requires Identified(s) && id < |s.conns|
    ensures Identified(Next(s, world, config, Receive(id, frame)))
  {
    var (conn, cmds) := OnFrame(s.conns[id], id, frame, world.required);
    var conns := s.conns[id := conn];
    var s' := Next(s, world, config, Receive(id, frame));
    assert ConnOk(s.conns[id]);
    assert |cmds| <= 1;
    assert cmds != [] ==> cmds[1..] == [];
    assert Enqueue(id, cmds) == (if cmds == [] then [] else [Queued(id, cmds[0])]);
    assert s'.queue == s.queue + (if cmds == [] then [] else [Queued(id, cmds[0])]);
    forall k: nat, cid ensures MemberOf(conns, k, cid) <==> MemberOf(s.conns, k, cid) {
    }
    forall cid, p | cid in s.channels && p in s.channels[cid].peers ensures MemberOf(s.conns, p.tx, cid) {
    }
    assert Peered(s.channels, conns);
    forall i | 0 <= i < |s'.queue| ensures Conforms(conns, s'.queue[i]) {
      if i < |s.queue| {
        assert Conforms(s.conns, s.queue[i]);
      } else {
        FrameConforms(s.conns, id, frame, world.required);
      }
    }
    forall i, j | 0 <= i < j < |s'.queue| && (s'.queue[i].cmd.Auth? || s'.queue[i].cmd.Disconnect?)
      ensures s'.queue[j].from != s'.queue[i].from
    {
      assert Conforms(s.conns, s.queue[i]);
    }
  }

  lemma ReplyIdentified(s: System, id: nat, conn: Conn)
    requires Identified(s) && id < |s.conns|
    requires conn == OnAuthReply(s.conns[id]) || (conn == OnSyncReply(s.conns[id]))
    ensures Identified(s.(conns := s.conns[id := conn]))
  {
    var conns := s.conns[id := conn];
    assert ConnOk(s.conns[id]);
    forall k: nat, cid ensures MemberOf(conns, k, cid) <==> MemberOf(s.conns, k, cid) {
    }
    forall i | 0 <= i < |s.queue| ensures Conforms(conns, s.queue[i]) {
      assert Conforms(s.conns, s.queue[i]);
    }
    assert Peered(s.channels, conns);
  }

  lemma StepIdentified(s: System, world: World, config: Config, action: Action)
    requires Identified(s)
    ensures Identified(Next(s, world, config, action))
  {
    match action
    case Connect =>
      var conns := s.conns + [FRESH];
      forall k: nat, cid ensures MemberOf(conns, k, cid) <==> MemberOf(s.conns, k, cid) {
      }
      forall i | 0 <= i < |s.queue| ensures Conforms(conns, s.queue[i]) {
        assert Conforms(s.conns, s.queue[i]);
      }
    case Receive(id, frame) =>
      if id < |s.conns| {
        ReceiveIdentified(s, world, config, id, frame);
      }
    case TakeAuthReply(id) =>
      if id < |s.conns| {
        ReplyIdentified(s, id, OnAuthReply(s.conns[id]));
      }
    case TakeSyncReply(id) =>
      if id < |s.conns| {
        ReplyIdentified(s, id, OnSyncReply(s.conns[id]));
      }
    case Manage(now) => ManageIdentified(s, world, config, now);
    case Sweep(now) =>
      var channels := Evict(s.channels, config.ttl, now);
      forall id: nat, cid | MemberOf(s.conns, id, cid) ensures cid in channels {
        assert HasEntry(s.channels[cid].peers, id);
      }
  }

  /** In every reachable state, whatever the interleaving, each channel's peer
      entries correspond one to one with the connections that were accepted
      into it and whose disconnect has not been processed, under distinct keys. */
  lemma {:induction false} PeersAreMembers(world: World, config: Config, actions: seq<Action>)
    ensures Identified(Run(world, config, actions))
  {
    if actions == [] {
    } else {
      PeersAreMembers(world, config, actions[..|actions| - 1]);
      StepIdentified(Run(world, config, actions[..|actions| - 1]), world, config, actions[|actions| - 1]);
    }
  }

  /** A processed disconnect removes the sender's own entry and no other. */
  lemma DisconnectRemovesOwnEntry(s: System, config: Config, now: nat) returns (i: nat)
    requires Identified(s) && s.queue != [] && s.queue[0].cmd.Disconnect?
    ensures var cid, peers :=
            s.queue[0].cmd.cid, if s.queue[0].cmd.cid in s.channels then s.channels[s.queue[0].cmd.cid].peers else [];
      var after := Handle(s.channels, s.queue[0].cmd, config, now).0;
      && i < |peers| && peers[i].tx == s.queue[0].from
      && (cid in after ==> after[cid].peers == peers[..i] + peers[i + 1..])
      && (cid !in after ==> peers == [peers[i]])
  {
    var head := s.queue[0];
    assert Conforms(s.conns, head) && Member(s.conns, head.from);
    var peers := s.channels[head.cmd.cid].peers;
    var own :| own in peers && own.tx == head.from;
    i :| 0 <= i < |peers| && peers[i] == own;
    OthersRemovesOne(peers, i);
  }
}
