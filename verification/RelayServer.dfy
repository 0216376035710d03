/** Connection handlers and the channel manager as one system: every handler
    follows its own protocol and they share one first-in first-out command queue. */
module RelayServer {
  import opened Wrappers
  import opened Utf8
  import opened RelayChannel

  /** What a client's socket yields to its handler. */
  datatype Frame =
    | AuthFrame(cid: string, key: string, token: Option<string>)
    | EncryptedFrame(message: Message)
    | SyncFrame(cid: string, since: nat)
    | OtherText
    | Ignored
    | Hangup

  datatype Phase = Greeting | AwaitingAuth | Active | AwaitingSync | Closed

  datatype Claim = Claim(cid: string, key: string)

  datatype AuthReply = Accepted(peerCount: nat) | Rejected

  /** A message offered to a connection's queue and whether the queue took it. */
  datatype Offer = Offer(message: Message, taken: bool)

  /** One connection: where its handler is, the channel and key it asked for,
      and what it was told and offered. `left` says its disconnect was processed. */
  datatype Conn = Conn(
    phase: Phase,
    claim: Option<Claim>,
    authReply: Option<AuthReply>,
    left: bool,
    syncs: seq<seq<BufferedMessage>>,
    offers: seq<Offer>)

  const FRESH := Conn(Greeting, None, None, false, [], [])

  // ------------------------------------------------------------ the handler

  predicate TokenOk(required: Option<string>, token: Option<string>) {
    required == None || token == required
  }

  /** What the handler of connection `id` does with one frame. */
  function OnFrame(conn: Conn, id: nat, frame: Frame, required: Option<string>): (Conn, seq<Cmd>) {
    match conn.phase
    case Greeting =>
      (match frame
       case AuthFrame(cid, key, token) =>
         if TokenOk(required, token) then
           (conn.(phase := AwaitingAuth, claim := Some(Claim(cid, key))), [Auth(cid, key, id)])
         else
           (conn.(phase := Closed), [])
       case Ignored => (conn, [])
       case _ => (conn.(phase := Closed), []))
    case Active =>
      if conn.claim == None then (conn, [])
      else
        var Claim(cid, key) := conn.claim.value;
        (match frame
         case EncryptedFrame(message) => (conn, if message.Encrypted? then [Forward(cid, key, message)] else [])
         case SyncFrame(other, since) => (conn.(phase := AwaitingSync), [Sync(other, since, id)])
         case Hangup => (conn.(phase := Closed), [Disconnect(cid, key)])
         case _ => (conn, []))
    case _ => (conn, [])
  }

  /** The first eight bytes of `cid`, or all of it, end at a character boundary. */
  predicate Loggable(cid: string) {
    var bytes := Encode(cid);
    IsBoundary(bytes, if |bytes| < 8 then |bytes| else 8)
  }

  /** A handler logs the start of its channel id as soon as it is accepted; if
      that cuts a character it dies, without a farewell. */
  function OnAuthReply(conn: Conn): Conn {
    if conn.phase == AwaitingAuth && conn.authReply.Some? then
      conn.(phase := if conn.authReply.value.Accepted? && (conn.claim == None || Loggable(conn.claim.value.cid)) then Active
                     else Closed)
    else
      conn
  }

  function OnSyncReply(conn: Conn): Conn {
    if conn.phase == AwaitingSync then conn.(phase := Active) else conn
  }

  class Handler {
    const id: nat
    const required: Option<string>
    var conn: Conn

    constructor (id: nat, required: Option<string>)
      ensures this.id == id && this.required == required && conn == FRESH
    {
      this.id, this.required, conn := id, required, FRESH;
    }

    method Receive(frame: Frame) returns (cmds: seq<Cmd>)
      modifies this
      ensures (conn, cmds) == OnFrame(old(conn), id, frame, required)
    {
      cmds := [];
      match conn.phase {
        case Greeting =>
          if frame.AuthFrame? {
            if required.Some? && frame.token != required {
              conn := conn.(phase := Closed);
            } else {
              conn := conn.(phase := AwaitingAuth, claim := Some(Claim(frame.cid, frame.key)));
              cmds := [Auth(frame.cid, frame.key, id)];
            }
          } else if !frame.Ignored? {
            conn := conn.(phase := Closed);
          }
        case Active =>
          if conn.claim.Some? {
            var claim := conn.claim.value;
            match frame {
              case EncryptedFrame(message) =>
                if message.Encrypted? {
                  cmds := [Forward(claim.cid, claim.key, message)];
                }
              case SyncFrame(cid, since) =>
                cmds := [Sync(cid, since, id)];
                conn := conn.(phase := AwaitingSync);
              case Hangup =>
                cmds := [Disconnect(claim.cid, claim.key)];
                conn := conn.(phase := Closed);
              case _ =>
            }
          }
        case _ =>
      }
    }

    method TakeAuthReply()
      modifies this
      ensures conn == OnAuthReply(old(conn))
    {
      if conn.phase == AwaitingAuth && conn.authReply.Some? {
        if conn.authReply.value.Rejected? {
          conn := conn.(phase := Closed);
        } else if conn.claim.Some? && !Loggable(conn.claim.value.cid) {
          conn := conn.(phase := Closed);
        } else {
          conn := conn.(phase := Active);
        }
      }
    }
  }

  // ------------------------------------------------------------ the system

  /** A command in the queue and the connection that put it there. */
  datatype Queued = Queued(from: nat, cmd: Cmd)

  /** An encrypted message stored in a channel, and who sent it. */
  datatype Logged = Logged(from: nat, message: Message, stored: BufferedMessage)

  /** `logs` holds, per channel, every encrypted message forwarded in the
      channel's present lifetime, and `joinedAt` how long the log was when a
      connection joined; both are history. */
  datatype System = System(
    channels: Channels,
    queue: seq<Queued>,
    conns: seq<Conn>,
    tick: nat,
    logs: map<string, seq<Logged>>,
    joinedAt: map<nat, nat>)

  const START := System(map[], [], [], 0, map[], map[])

  /** The outside world: the access token the relay asks for, and whether the
      send made at a tick finds room in a connection's queue. */
  datatype World = World(required: Option<string>, accepts: (nat, nat) -> bool)

  datatype Action =
    | Connect
    | Receive(id: nat, frame: Frame)
    | TakeAuthReply(id: nat)
    | TakeSyncReply(id: nat)
    | Manage(now: nat)
    | Sweep(now: nat)

  function Enqueue(from: nat, cmds: seq<Cmd>): seq<Queued> {
    if cmds == [] then [] else [Queued(from, cmds[0])] + Enqueue(from, cmds[1..])
  }

  function Deliver(conns: seq<Conn>, output: Output, taken: bool): seq<Conn> {
    if output.to >= |conns| then conns
    else
      var conn := conns[output.to];
      conns[output.to :=
        match output
        case Accept(_, count) => conn.(authReply := Some(Accepted(count)))
        case Reject(_) => conn.(authReply := Some(Rejected))
        case SyncReply(_, messages) => conn.(syncs := conn.syncs + [messages])
        case Send(_, message) => conn.(offers := conn.offers + [Offer(message, taken)])]
  }

  function DeliverAll(conns: seq<Conn>, outputs: seq<Output>, world: World, tick: nat): seq<Conn>
    decreases |outputs|
  {
    if outputs == [] then conns
    else DeliverAll(Deliver(conns, outputs[0], world.accepts(tick, outputs[0].to)), outputs[1..], world, tick + 1)
  }

  function NextLogs(s: System, channels: Channels, head: Queued, now: nat): map<string, seq<Logged>> {
    map cid | cid in channels ::
      (if cid in s.channels && cid in s.logs then s.logs[cid] else [])
      + (if head.cmd.Forward? && head.cmd.cid == cid && cid in s.channels && head.cmd.message.Encrypted? then
           var Encrypted(_, ciphertext, nonce) := head.cmd.message;
           [Logged(head.from, head.cmd.message, BufferedMessage(s.channels[cid].nextSeq, ciphertext, nonce, now))]
         else [])
  }

  function MarkLeft(conns: seq<Conn>, head: Queued): seq<Conn> {
    if head.cmd.Disconnect? && head.from < |conns| then conns[head.from := conns[head.from].(left := true)] else conns
  }

  /** The manager takes the command at the head of the queue. */
  function ManageHead(s: System, world: World, config: Config, now: nat): System {
    if s.queue == [] then s
    else
      var head := s.queue[0];
      var (channels, outputs) := Handle(s.channels, head.cmd, config, now);
      var logs := NextLogs(s, channels, head, now);
      System(channels,
             s.queue[1..],
             DeliverAll(MarkLeft(s.conns, head), outputs, world, s.tick),
             s.tick + |outputs|,
             logs,
             if head.cmd.Auth? && head.cmd.cid in logs then s.joinedAt[head.from := |logs[head.cmd.cid]|] else s.joinedAt)
  }

  function Next(s: System, world: World, config: Config, action: Action): System {
    match action
    case Connect => s.(conns := s.conns + [FRESH])
    case Receive(id, frame) =>
      if id >= |s.conns| then s
      else
        var (conn, cmds) := OnFrame(s.conns[id], id, frame, world.required);
        s.(conns := s.conns[id := conn], queue := s.queue + Enqueue(id, cmds))
    case TakeAuthReply(id) =>
      if id >= |s.conns| then s else s.(conns := s.conns[id := OnAuthReply(s.conns[id])])
    case TakeSyncReply(id) =>
      // The reply to the one outstanding request has been queued once the request has left the queue.
      if id >= |s.conns| || (exists i :: 0 <= i < |s.queue| && s.queue[i].from == id) then s
      else s.(conns := s.conns[id := OnSyncReply(s.conns[id])])
    case Manage(now) => ManageHead(s, world, config, now)
    case Sweep(now) =>
      var channels := Evict(s.channels, config.ttl, now);
      s.(channels := channels, logs := map cid | cid in channels && cid in s.logs :: s.logs[cid])
  }

  function Run(world: World, config: Config, actions: seq<Action>): System {
    if actions == [] then START
    else Next(Run(world, config, actions[..|actions| - 1]), world, config, actions[|actions| - 1])
  }
}
