/** The relay's channel manager: one command at a time on a table of channels.
    `Handle` gives a command's effect as a value; `ChannelManager` is the object
    that carries it out in place. */
module RelayChannel {
  /** A relay message as parsed; `Opaque` is any text that is not an encrypted message. */
  datatype Message =
    | Encrypted(channelId: string, ciphertext: string, nonce: string)
    | PeerChange(changedId: string, peerCount: nat)
    | Opaque(text: string)

  datatype BufferedMessage = BufferedMessage(seqNo: nat, ciphertext: string, nonce: string, timestamp: nat)

  /** `tx` is the queue of the connection with that number. */
  datatype Peer = Peer(publicKey: string, tx: nat)

  datatype Channel = Channel(peers: seq<Peer>, buffer: seq<BufferedMessage>, nextSeq: nat, lastActivity: nat)

  type Channels = map<string, Channel>

  datatype Cmd =
    | Auth(cid: string, publicKey: string, peerTx: nat)
    | Forward(cid: string, senderKey: string, message: Message)
    | Sync(cid: string, sinceSeq: nat, replyTo: nat)
    | Disconnect(cid: string, publicKey: string)

  /** What a command makes the manager do to the outside: answer a one-shot
      reply channel, or try to put a message on a connection's queue. */
  datatype Output =
    | Accept(to: nat, peerCount: nat)
    | Reject(to: nat)
    | SyncReply(to: nat, messages: seq<BufferedMessage>)
    | Send(to: nat, message: Message)

  /** `prune` is the manager's habit of dropping a channel that a disconnect leaves empty. */
  datatype Config = Config(maxBuffer: nat, ttl: nat, prune: bool)

  function AsU32(n: nat): nat {
    n % 0x1_0000_0000
  }

  function NewChannel(now: nat): Channel {
    Channel([], [], 1, now)
  }

  predicate HasKey(peers: seq<Peer>, key: string) {
    exists i :: 0 <= i < |peers| && peers[i].publicKey == key
  }

  /** The peers other than those under `key`, in order. */
  function Others(peers: seq<Peer>, key: string): seq<Peer> {
    if peers == [] then []
    else (if peers[0].publicKey != key then [peers[0]] else []) + Others(peers[1..], key)
  }

  function SendAll(peers: seq<Peer>, message: Message): seq<Output> {
    if peers == [] then [] else [Send(peers[0].tx, message)] + SendAll(peers[1..], message)
  }

  function Remember(buffer: seq<BufferedMessage>, m: BufferedMessage, maxBuffer: nat): seq<BufferedMessage> {
    if |buffer| + 1 > maxBuffer then (buffer + [m])[1..] else buffer + [m]
  }

  function Since(buffer: seq<BufferedMessage>, sinceSeq: nat): seq<BufferedMessage> {
    if buffer == [] then []
    else (if buffer[0].seqNo > sinceSeq then [buffer[0]] else []) + Since(buffer[1..], sinceSeq)
  }

  function Store(ch: Channel, message: Message, maxBuffer: nat, now: nat): Channel {
    if message.Encrypted? then
      ch.(buffer := Remember(ch.buffer, BufferedMessage(ch.nextSeq, message.ciphertext, message.nonce, now), maxBuffer),
          nextSeq := ch.nextSeq + 1)
    else
      ch
  }

  function Handle(channels: Channels, cmd: Cmd, config: Config, now: nat): (Channels, seq<Output>) {
    match cmd
    case Auth(cid, key, tx) =>
      var ch := (if cid in channels then channels[cid] else NewChannel(now)).(lastActivity := now);
      if HasKey(ch.peers, key) then
        (channels[cid := ch], [Reject(tx)])
      else
        var peers := ch.peers + [Peer(key, tx)];
        (channels[cid := ch.(peers := peers)],
         [Accept(tx, AsU32(|peers|))] + SendAll(peers, PeerChange("", AsU32(|peers|))))
    case Forward(cid, key, message) =>
      if cid !in channels then (channels, [])
      else
        var ch := channels[cid].(lastActivity := now);
        (channels[cid := Store(ch, message, config.maxBuffer, now)], SendAll(Others(ch.peers, key), message))
    case Sync(cid, since, replyTo) =>
      (channels, [SyncReply(replyTo, if cid in channels then Since(channels[cid].buffer, since) else [])])
    case Disconnect(cid, key) =>
      if cid !in channels then (channels, [])
      else
        var ch := channels[cid].(peers := Others(channels[cid].peers, key));
        var left := if config.prune && ch.peers == [] && ch.buffer == [] then channels - {cid} else channels[cid := ch];
        (left, SendAll(ch.peers, PeerChange(cid, AsU32(|ch.peers|))))
  }

  predicate Stale(ch: Channel, ttl: nat, now: nat) {
    ch.peers == [] && now > ch.lastActivity + ttl
  }

  function Evict(channels: Channels, ttl: nat, now: nat): Channels {
    map cid | cid in channels && !Stale(channels[cid], ttl, now) :: channels[cid]
  }

  // ------------------------------------------------------------ the manager

  lemma {:induction false} OthersSnoc(peers: seq<Peer>, p: Peer, key: string)
    ensures Others(peers + [p], key) == Others(peers, key) + (if p.publicKey != key then [p] else [])
  {
    if peers == [] {
      assert (peers + [p])[1..] == [];
    } else {
      OthersSnoc(peers[1..], p, key);
      assert (peers + [p])[1..] == peers[1..] + [p];
    }
  }

  lemma {:induction false} SendAllSnoc(peers: seq<Peer>, p: Peer, message: Message)
    ensures SendAll(peers + [p], message) == SendAll(peers, message) + [Send(p.tx, message)]
  {
    if peers == [] {
      assert (peers + [p])[1..] == [];
    } else {
      SendAllSnoc(peers[1..], p, message);
      assert (peers + [p])[1..] == peers[1..] + [p];
    }
  }

  lemma {:induction false} SinceSnoc(buffer: seq<BufferedMessage>, m: BufferedMessage, since: nat)
    ensures Since(buffer + [m], since) == Since(buffer, since) + (if m.seqNo > since then [m] else [])
  {
    if buffer == [] {
      assert (buffer + [m])[1..] == [];
    } else {
      SinceSnoc(buffer[1..], m, since);
      assert (buffer + [m])[1..] == buffer[1..] + [m];
    }
  }

  method Notify(peers: seq<Peer>, message: Message) returns (sends: seq<Output>)
    ensures sends == SendAll(peers, message)
  {
    sends := [];
    for i := 0 to |peers|
      invariant sends == SendAll(peers[..i], message)
    {
      SendAllSnoc(peers[..i], peers[i], message);
      assert peers[..i + 1] == peers[..i] + [peers[i]];
      sends := sends + [Send(peers[i].tx, message)];
    }
    assert peers[..|peers|] == peers;
  }

  method ForwardToOthers(peers: seq<Peer>, key: string, message: Message) returns (sends: seq<Output>)
    ensures sends == SendAll(Others(peers, key), message)
  {
    sends := [];
    for i := 0 to |peers|
      invariant sends == SendAll(Others(peers[..i], key), message)
    {
      OthersSnoc(peers[..i], peers[i], key);
      SendAllSnoc(Others(peers[..i], key), peers[i], message);
      assert peers[..i + 1] == peers[..i] + [peers[i]];
      if peers[i].publicKey != key {
        sends := sends + [Send(peers[i].tx, message)];
      } else {
        assert Others(peers[..i], key) + [] == Others(peers[..i], key);
      }
    }
    assert peers[..|peers|] == peers;
  }

  method RetainOthers(peers: seq<Peer>, key: string) returns (kept: seq<Peer>)
    ensures kept == Others(peers, key)
  {
    kept := [];
    for i := 0 to |peers|
      invariant kept == Others(peers[..i], key)
    {
      OthersSnoc(peers[..i], peers[i], key);
      assert peers[..i + 1] == peers[..i] + [peers[i]];
      if peers[i].publicKey != key {
        kept := kept + [peers[i]];
      }
    }
    assert peers[..|peers|] == peers;
  }

  method CollectSince(buffer: seq<BufferedMessage>, since: nat) returns (messages: seq<BufferedMessage>)
    ensures messages == Since(buffer, since)
  {
    messages := [];
    for i := 0 to |buffer|
      invariant messages == Since(buffer[..i], since)
    {
      SinceSnoc(buffer[..i], buffer[i], since);
      assert buffer[..i + 1] == buffer[..i] + [buffer[i]];
      if buffer[i].seqNo > since {
        messages := messages + [buffer[i]];
      }
    }
    assert buffer[..|buffer|] == buffer;
  }

  class ChannelManager {
    const config: Config
    var channels: Channels

    constructor (config: Config)
      ensures this.config == config && channels == map[]
    {
      this.config := config;
      channels := map[];
    }

    method HandleCmd(cmd: Cmd, now: nat) returns (outputs: seq<Output>)
      modifies this
      ensures (channels, outputs) == Handle(old(channels), cmd, config, now)
    {
      ghost var before := channels;
      match cmd {
        case Auth(cid, key, tx) =>
          if cid !in channels {
            channels := channels[cid := NewChannel(now)];
          }
          channels := channels[cid := channels[cid].(lastActivity := now)];
          assert channels == before[cid := channels[cid]];
          if HasKey(channels[cid].peers, key) {
            return [Reject(tx)];
          }
          channels := channels[cid := channels[cid].(peers := channels[cid].peers + [Peer(key, tx)])];
          assert channels == before[cid := channels[cid]];
          var peerCount := AsU32(|channels[cid].peers|);
          var sends := Notify(channels[cid].peers, PeerChange("", peerCount));
          outputs := [Accept(tx, peerCount)] + sends;
        case Forward(cid, key, message) =>
          if cid !in channels {
            return [];
          }
          channels := channels[cid := channels[cid].(lastActivity := now)];
          if message.Encrypted? {
            var ch := channels[cid];
            var bm := BufferedMessage(ch.nextSeq, message.ciphertext, message.nonce, now);
            ch := ch.(nextSeq := ch.nextSeq + 1, buffer := ch.buffer + [bm]);
            if |ch.buffer| > config.maxBuffer {
              ch := ch.(buffer := ch.buffer[1..]);
            }
            channels := channels[cid := ch];
          }
          assert channels == before[cid := channels[cid]];
          outputs := ForwardToOthers(channels[cid].peers, key, message);
        case Sync(cid, since, replyTo) =>
          var messages := [];
          if cid in channels {
            messages := CollectSince(channels[cid].buffer, since);
          }
          outputs := [SyncReply(replyTo, messages)];
        case Disconnect(cid, key) =>
          if cid !in channels {
            return [];
          }
          var kept := RetainOthers(channels[cid].peers, key);
          channels := channels[cid := channels[cid].(peers := kept)];
          outputs := Notify(kept, PeerChange(cid, AsU32(|kept|)));
          if config.prune && channels[cid].peers == [] && channels[cid].buffer == [] {
            channels := channels - {cid};
            assert channels == before - {cid};
          }
      }
    }

    method EvictStale(now: nat)
      modifies this
      ensures channels == Evict(old(channels), config.ttl, now)
    {
      channels := map cid |
        && cid in channels
        && !(&& channels[cid].peers == []
             && (if now > channels[cid].lastActivity then now - channels[cid].lastActivity else 0) > config.ttl)
        :: channels[cid];
    }
  }
}
