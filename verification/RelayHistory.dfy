/** Numbering, replay and delivery: what a channel remembers, and what its
    members are offered, as functions of everything forwarded in its lifetime. */
module RelayHistory {
  import opened Wrappers
  import opened RelayChannel
  import opened RelayServer
  import opened RelayIdentity

  // ------------------------------------------------------------ the replay buffer

  function Stored(log: seq<Logged>): seq<BufferedMessage> {
    seq(|log|, i requires 0 <= i < |log| => log[i].stored)
  }

  function Tail<T>(s: seq<T>, n: nat): seq<T> {
    if |s| <= n then s else s[|s| - n..]
  }

  ghost predicate Numbered(messages: seq<BufferedMessage>) {
    forall i :: 0 <= i < |messages| ==> messages[i].seqNo == i + 1
  }

  /** The log entry stores the encrypted message it was made from. */
  ghost predicate Faithful(entry: Logged) {
    && entry.message.Encrypted?
    && entry.stored.ciphertext == entry.message.ciphertext
    && entry.stored.nonce == entry.message.nonce
  }

  /** A channel numbers its messages 1, 2, ... and keeps the last `maxBuffer`. */
  ghost predicate ChannelBuffered(ch: Channel, log: seq<Logged>, maxBuffer: nat) {
    && ch.nextSeq == |log| + 1
    && Numbered(Stored(log))
    && (forall i :: 0 <= i < |log| ==> Faithful(log[i]))
    && ch.buffer == Tail(Stored(log), maxBuffer)
  }

  ghost predicate Buffered(s: System, config: Config) {
    && s.logs.Keys == s.channels.Keys
    && forall cid :: cid in s.channels ==> ChannelBuffered(s.channels[cid], s.logs[cid], config.maxBuffer)
  }

  lemma RememberTail(all: seq<BufferedMessage>, m: BufferedMessage, n: nat)
    ensures Remember(Tail(all, n), m, n) == Tail(all + [m], n)
  {
  }

  lemma StoreBuffered(ch: Channel, log: seq<Logged>, from: nat, message: Message, maxBuffer: nat, now: nat)
    requires ChannelBuffered(ch, log, maxBuffer) && message.Encrypted?
    ensures ChannelBuffered(Store(ch, message, maxBuffer, now),
                            log + [Logged(from, message, BufferedMessage(ch.nextSeq, message.ciphertext, message.nonce, now))],
                            maxBuffer)
  {
    var m := BufferedMessage(ch.nextSeq, message.ciphertext, message.nonce, now);
    RememberTail(Stored(log), m, maxBuffer);
    assert Stored(log + [Logged(from, message, m)]) == Stored(log) + [m];
  }

  lemma ManageBuffered(s: System, world: World, config: Config, now: nat)
    requires Buffered(s, config)
    ensures Buffered(ManageHead(s, world, config, now), config)
  {
    if s.queue != [] {
      var head, s' := s.queue[0], ManageHead(s, world, config, now);
      forall cid | cid in s'.channels
        ensures ChannelBuffered(s'.channels[cid], s'.logs[cid], config.maxBuffer)
      {
        if cid in s.channels && head.cmd.Forward? && head.cmd.cid == cid && head.cmd.message.Encrypted? {
          StoreBuffered(s.channels[cid].(lastActivity := now), s.logs[cid], head.from, head.cmd.message,
              config.maxBuffer, now);
        } else if cid in s.channels {
          assert s'.logs[cid] == s.logs[cid];
        } else {
          assert s'.logs[cid] == [];
        }
      }
    }
  }

  lemma StepBuffered(s: System, world: World, config: Config, action: Action)
    requires Buffered(s, config)
    ensures Buffered(Next(s, world, config, action), config)
  {
    if action.Manage? {
      ManageBuffered(s, world, config, action.now);
    }
  }

  lemma {:induction false} BuffersAreTails(world: World, config: Config, actions: seq<Action>)
    ensures Buffered(Run(world, config, actions), config)
  {
    if actions == [] {
    } else {
      var s, last := Run(world, config, actions[..|actions| - 1]), actions[|actions| - 1];
      BuffersAreTails(world, config, actions[..|actions| - 1]);
      StepBuffered(s, world, config, last);
    }
  }

  // ------------------------------------------------------------ no restart under a member

  lemma StepKeepsLog(s: System, world: World, config: Config, action: Action, id: nat, cid: string)
    requires Identified(s) && Buffered(s, config)
    requires MemberOf(s.conns, id, cid) && MemberOf(Next(s, world, config, action).conns, id, cid)
    ensures var s' := Next(s, world, config, action);
      && cid in s.channels && cid in s'.channels && cid in s'.logs && s.logs[cid] <= s'.logs[cid]
      && s.channels[cid].nextSeq <= s'.channels[cid].nextSeq
  {
    var s' := Next(s, world, config, action);
    StepIdentified(s, world, config, action);
    assert HasEntry(s'.channels[cid].peers, id);
    if action.Manage? {
      ManageBuffered(s, world, config, action.now);
    }
    assert ChannelBuffered(s'.channels[cid], s'.logs[cid], config.maxBuffer);
  }

  lemma ManageKeepsOutcome(s: System, world: World, config: Config, now: nat, id: nat)
    requires Identified(s) && id < |s.conns| && s.queue != []
    ensures id < |ManageHead(s, world, config, now).conns|
    ensures var conn, conn' := s.conns[id], ManageHead(s, world, config, now).conns[id];
      && (conn.left ==> conn'.left)
      && (conn.authReply.Some? ==> conn'.authReply == conn.authReply && conn'.claim == conn.claim)
  {
    var head := s.queue[0];
    assert Conforms(s.conns, head);
    ManageCores(s, world, config, now);
    var judged := Judge(s.conns, head, Handle(s.channels, head.cmd, config, now).1);
    assert Core(judged[id]) == Core(ManageHead(s, world, config, now).conns[id]);
  }

  /** Membership ends once and for good. */
  lemma StepKeepsOutcome(s: System, world: World, config: Config, action: Action, id: nat)
    requires Identified(s) && id < |s.conns|
    ensures id < |Next(s, world, config, action).conns|
    ensures var conn, conn' := s.conns[id], Next(s, world, config, action).conns[id];
      && (conn.left ==> conn'.left)
      && (conn.authReply.Some? ==> conn'.authReply == conn.authReply && conn'.claim == conn.claim)
  {
    if action.Manage? && s.queue != [] {
      ManageKeepsOutcome(s, world, config, action.now, id);
    } else if action.Receive? && action.id == id {
      assert ConnOk(s.conns[id]);
    }
  }

  lemma RunExtend(world: World, config: Config, before: seq<Action>, last: Action)
    ensures Run(world, config, before + [last]) == Next(Run(world, config, before), world, config, last)
  {
  }

  lemma {:induction false} OutcomeSettled(world: World, config: Config, actions: seq<Action>, n: nat, id: nat)
    requires n <= |actions| && id < |Run(world, config, actions[..n]).conns|
    ensures id < |Run(world, config, actions).conns|
    ensures var conn, conn' := Run(world, config, actions[..n]).conns[id], Run(world, config, actions).conns[id];
      conn.authReply.Some? ==> conn'.authReply == conn.authReply && conn'.claim == conn.claim
    decreases |actions|
  {
    if n == |actions| {
      assert actions[..n] == actions;
    } else {
      var before := actions[..|actions| - 1];
      assert before[..n] == actions[..n];
      OutcomeSettled(world, config, before, n, id);
      PeersAreMembers(world, config, before);
      StepKeepsOutcome(Run(world, config, before), world, config, actions[|actions| - 1], id);
    }
  }

  /** A member before and after was a member in between. */
  lemma StillMember(world: World, config: Config, before: seq<Action>, last: Action, n: nat, id: nat, cid: string)
    requires n <= |before| && MemberOf(Run(world, config, before[..n]).conns, id, cid)
    requires MemberOf(Run(world, config, before + [last]).conns, id, cid)
    ensures MemberOf(Run(world, config, before).conns, id, cid)
  {
    RunExtend(world, config, before, last);
    PeersAreMembers(world, config, before);
    OutcomeSettled(world, config, before, n, id);
    StepKeepsOutcome(Run(world, config, before), world, config, last, id);
  }

  /** A channel is never dropped under a member, so its numbering never
      restarts: between any two moments of one membership its log only grows. */
  lemma {:induction false} LogOnlyGrows(world: World, config: Config, actions: seq<Action>, n: nat, id: nat,
                                        cid: string)
    requires n <= |actions|
    requires id < |Run(world, config, actions[..n]).conns|
    requires MemberOf(Run(world, config, actions[..n]).conns, id, cid)
            && MemberOf(Run(world, config, actions).conns, id, cid)
    ensures var early, late := Run(world, config, actions[..n]), Run(world, config, actions);
      cid in early.logs && cid in late.logs && early.logs[cid] <= late.logs[cid]
    decreases |actions|
  {
    if n == |actions| {
      assert actions[..n] == actions;
      BuffersAreTails(world, config, actions);
      PeersAreMembers(world, config, actions);
    } else {
      var before, last := actions[..|actions| - 1], actions[|actions| - 1];
      assert before[..n] == actions[..n];
      assert before + [last] == actions;
      StillMember(world, config, before, last, n, id, cid);
      LogOnlyGrows(world, config, before, n, id, cid);
      BuffersAreTails(world, config, before);
      PeersAreMembers(world, config, before);
      StepKeepsLog(Run(world, config, before), world, config, last, id, cid);
    }
  }

  // ------------------------------------------------------------ catching up

  /** The answer to a sync: everything newer that the buffer still holds. */
  function Round(all: seq<BufferedMessage>, maxBuffer: nat, since: nat): seq<BufferedMessage> {
    Since(Tail(all, maxBuffer), since)
  }

  lemma {:induction false} SinceNumbered(buffer: seq<BufferedMessage>, first: nat, since: nat)
    requires forall i :: 0 <= i < |buffer| ==> buffer[i].seqNo == first + 1 + i
    ensures Since(buffer, since) == (if since >= first + |buffer| then [] else buffer[Max(since - first, 0)..])
  {
    if buffer == [] {
    } else {
      SinceNumbered(buffer[1..], first + 1, since);
    }
  }

  /** The messages numbered above `since`. */
  function Above(all: seq<BufferedMessage>, since: nat): seq<BufferedMessage> {
    if since <= |all| then all[since..] else []
  }

  lemma RoundExactly(all: seq<BufferedMessage>, maxBuffer: nat, since: nat)
    requires Numbered(all)
    ensures Round(all, maxBuffer, since) == Above(all, Max(since, |all| - maxBuffer))
  {
    SinceNumbered(Tail(all, maxBuffer), Max(|all| - maxBuffer, 0), since);
  }

  /** The highest number a client has seen after an answer. */
  function Highest(since: nat, answer: seq<BufferedMessage>): nat {
    if answer == [] then since else answer[|answer| - 1].seqNo
  }

  /** What a client gathers that syncs from the highest number it has seen,
      each time the channel's messages so far are the next element of `logs`. */
  function Gathered(logs: seq<seq<BufferedMessage>>, maxBuffer: nat, since: nat): seq<BufferedMessage> {
    if logs == [] then []
    else
      var answer := Round(logs[0], maxBuffer, since);
      answer + Gathered(logs[1..], maxBuffer, Highest(since, answer))
  }

  ghost predicate Growing(logs: seq<seq<BufferedMessage>>) {
    && (forall i :: 0 <= i < |logs| ==> Numbered(logs[i]))
    && (forall i, j :: 0 <= i <= j < |logs| ==> logs[i] <= logs[j])
  }

  /** At most `maxBuffer` messages come between the client's last sight of the
      channel and its next sync, every time. */
  ghost predicate KeepsUp(logs: seq<seq<BufferedMessage>>, maxBuffer: nat, since: nat) {
    logs == [] || (|logs[0]| - since <= maxBuffer && KeepsUp(logs[1..], maxBuffer, Max(since, |logs[0]|)))
  }

  lemma GrowingTail(logs: seq<seq<BufferedMessage>>)
    requires Growing(logs) && |logs| > 1
    ensures Growing(logs[1..]) && |logs[0]| <= |logs[1..][0]|
  {
    assert logs[0] <= logs[1];
  }

  /** Without a buffer nothing is ever gathered. */
  lemma {:induction false} NothingBuffered(logs: seq<seq<BufferedMessage>>, since: nat, seen: nat)
    requires Growing(logs) && logs != [] && since <= seen <= |logs[0]|
    ensures Gathered(logs, 0, since) == []
    ensures KeepsUp(logs, 0, seen) <==> |logs[|logs| - 1]| == seen
  {
    RoundExactly(logs[0], 0, since);
    assert logs[0] <= logs[|logs| - 1];
    if |logs| == 1 {
      assert logs[1..] == [];
    } else {
      GrowingTail(logs);
      NothingBuffered(logs[1..], since, |logs[0]|);
    }
  }

  /** `m` is the message of `all` under its number, which is above `since`. */
  ghost predicate IsAbove(all: seq<BufferedMessage>, since: nat, m: BufferedMessage) {
    since < m.seqNo <= |all| && m == all[m.seqNo - 1]
  }

  /** `got` is a duplicate-free, in-order selection of the messages of `all`
      numbered above `since`. */
  ghost predicate Selection(all: seq<BufferedMessage>, since: nat, got: seq<BufferedMessage>) {
    && (forall i, j :: 0 <= i < j < |got| ==> got[i].seqNo < got[j].seqNo)
    && (forall i :: 0 <= i < |got| ==> IsAbove(all, since, got[i]))
    && |got| <= |Above(all, since)|
  }

  lemma PrependedAt(all: seq<BufferedMessage>, from: nat, n: nat, rest: seq<BufferedMessage>, i: nat)
    requires Numbered(all) && from <= n <= |all| && Selection(all, n, rest) && i < n - from + |rest|
    ensures var m := (all[from..n] + rest)[i];
      && IsAbove(all, from, m)
      && (if i < n - from then m.seqNo == from + i + 1 else m == rest[i - (n - from)] && n < m.seqNo)
  {
  }

  lemma PrependSelection(all: seq<BufferedMessage>, since: nat, from: nat, n: nat, rest: seq<BufferedMessage>)
    requires Numbered(all) && since <= from <= n <= |all| && Selection(all, n, rest)
    ensures Selection(all, since, all[from..n] + rest)
  {
    var got := all[from..n] + rest;
    forall i | 0 <= i < |got| ensures IsAbove(all, since, got[i]) {
      PrependedAt(all, from, n, rest, i);
    }
    forall i, j | 0 <= i < j < |got| ensures got[i].seqNo < got[j].seqNo {
      PrependedAt(all, from, n, rest, i);
      PrependedAt(all, from, n, rest, j);
    }
    assert |rest| <= |all| - n;
  }

  lemma PrependRound(all: seq<BufferedMessage>, since: nat, from: nat, n: nat, rest: seq<BufferedMessage>)
    requires since <= from <= n <= |all| && |rest| <= |all| - n
    ensures all[from..n] + rest == all[since..] <==> from == since && rest == all[n..]
  {
    var got := all[from..n] + rest;
    if from == since && rest == all[n..] {
      assert got == all[since..];
    }
    if got == all[since..] {
      assert |got| == |all| - since;
      assert got[n - from..] == rest;
      assert all[since..][n - since..] == all[n..];
    }
  }

  /** One answer and what is gathered after it. */
  lemma RoundThenRest(log: seq<BufferedMessage>, all: seq<BufferedMessage>, maxBuffer: nat, since: nat,
                      rest: seq<BufferedMessage>)
    requires Numbered(all) && log <= all && since <= |log| && maxBuffer > 0 && Selection(all, |log|, rest)
    ensures var answer := Round(log, maxBuffer, since);
      && Highest(since, answer) == |log| && Selection(all, since, answer + rest)
      && (answer + rest == Above(all, since) <==> |log| - since <= maxBuffer && rest == Above(all, |log|))
  {
    var n, from := |log|, Max(since, |log| - maxBuffer);
    assert Numbered(log) by {
      assert forall i :: 0 <= i < |log| ==> log[i] == all[i];
    }
    RoundExactly(log, maxBuffer, since);
    assert Round(log, maxBuffer, since) == all[from..n];
    PrependSelection(all, since, from, n, rest);
    PrependRound(all, since, from, n, rest);
  }

  lemma {:induction false} CatchUpByRounds(logs: seq<seq<BufferedMessage>>, maxBuffer: nat, since: nat)
    requires Growing(logs) && logs != [] && since <= |logs[0]| && maxBuffer > 0
    ensures var all, got := logs[|logs| - 1], Gathered(logs, maxBuffer, since);
      && Selection(all, since, got)
      && (got == Above(all, since) <==> KeepsUp(logs, maxBuffer, since))
  {
    var log, all := logs[0], logs[|logs| - 1];
    assert log <= all;
    var rest := Gathered(logs[1..], maxBuffer, |log|);
    if |logs| == 1 {
      assert logs[1..] == [];
    } else {
      GrowingTail(logs);
      CatchUpByRounds(logs[1..], maxBuffer, |log|);
    }
    RoundThenRest(log, all, maxBuffer, since, rest);
  }

  /** Syncs before the channel holds more than the client has seen tell it nothing. */
  lemma NothingNewYet(logs: seq<seq<BufferedMessage>>, maxBuffer: nat, since: nat)
    requires Growing(logs) && logs != [] && since > |logs[0]|
    ensures Gathered(logs, maxBuffer, since) == Gathered(logs[1..], maxBuffer, since)
    ensures KeepsUp(logs, maxBuffer, since) <==> KeepsUp(logs[1..], maxBuffer, since)
  {
    RoundExactly(logs[0], maxBuffer, since);
  }

  lemma CatchUpFrom(logs: seq<seq<BufferedMessage>>, maxBuffer: nat, since: nat)
    requires Growing(logs) && logs != [] && since <= |logs[0]|
    ensures var all, got := logs[|logs| - 1], Gathered(logs, maxBuffer, since);
      && Selection(all, since, got)
      && (got == Above(all, since) <==> KeepsUp(logs, maxBuffer, since))
  {
    if maxBuffer == 0 {
      NothingBuffered(logs, since, since);
      assert logs[0] <= logs[|logs| - 1];
    } else {
      CatchUpByRounds(logs, maxBuffer, since);
    }
  }

  /** Catch-up is exactly once: numbers strictly increase, nothing is gathered
      but messages of the channel after `since`, and none of those is missing if
      and only if the client keeps up. `since` may come from an earlier lifetime
      of the channel and exceed what it holds. */
  lemma {:induction false} CatchUpExactlyOnce(logs: seq<seq<BufferedMessage>>, maxBuffer: nat, since: nat)
    requires Growing(logs) && logs != []
    ensures var all, got := logs[|logs| - 1], Gathered(logs, maxBuffer, since);
      && Selection(all, since, got)
      && (got == Above(all, since) <==> KeepsUp(logs, maxBuffer, since))
  {
    if since <= |logs[0]| {
      CatchUpFrom(logs, maxBuffer, since);
    } else {
      NothingNewYet(logs, maxBuffer, since);
      if |logs| == 1 {
        assert logs[1..] == [] && Gathered([], maxBuffer, since) == [];
        assert Above(logs[0], since) == [];
      } else {
        GrowingTail(logs);
        CatchUpExactlyOnce(logs[1..], maxBuffer, since);
      }
    }
  }

  /** Such a client has every message of the present lifetime only if it starts
      from nothing: whatever is numbered up to `since` never reaches it. */
  lemma WholeLifetimeExactly(logs: seq<seq<BufferedMessage>>, maxBuffer: nat, since: nat)
    requires Growing(logs) && logs != []
    ensures var all := logs[|logs| - 1];
      Gathered(logs, maxBuffer, since) == all <==> all == [] || (since == 0 && KeepsUp(logs, maxBuffer, 0))
  {
    var all, got := logs[|logs| - 1], Gathered(logs, maxBuffer, since);
    CatchUpExactlyOnce(logs, maxBuffer, since);
    assert all[0..] == all;
    if all != [] && got == all {
      assert got[0].seqNo == 1;
    }
  }

  lemma HighestConcat(since: nat, a: seq<BufferedMessage>, b: seq<BufferedMessage>)
    ensures Highest(Highest(since, a), b) == Highest(since, a + b)
  {
    if b == [] {
      assert a + b == a;
    }
  }

  lemma GatheredOne(log: seq<BufferedMessage>, maxBuffer: nat, since: nat)
    ensures Gathered([log], maxBuffer, since) == Round(log, maxBuffer, since)
  {
    var only, answer := [log], Round(log, maxBuffer, since);
    assert only[1..] == [];
    assert Gathered(only, maxBuffer, since) == answer + Gathered([], maxBuffer, Highest(since, answer));
  }

  lemma GatheredTogether(answer: seq<BufferedMessage>, rest: seq<BufferedMessage>, log: seq<BufferedMessage>,
                         maxBuffer: nat, since: nat)
    ensures var last := Round(log, maxBuffer, Highest(Highest(since, answer), rest));
      answer + (rest + last) == (answer + rest) + Round(log, maxBuffer, Highest(since, answer + rest))
  {
    HighestConcat(since, answer, rest);
  }

  lemma {:induction false} GatheredSnoc(logs: seq<seq<BufferedMessage>>, log: seq<BufferedMessage>, maxBuffer: nat,
                                        since: nat)
    ensures var got := Gathered(logs, maxBuffer, since);
      Gathered(logs + [log], maxBuffer, since) == got + Round(log, maxBuffer, Highest(since, got))
    decreases |logs|
  {
    if logs == [] {
      assert logs + [log] == [log];
      GatheredOne(log, maxBuffer, since);
    } else {
      var answer := Round(logs[0], maxBuffer, since);
      GatheredSnoc(logs[1..], log, maxBuffer, Highest(since, answer));
      assert (logs + [log])[1..] == logs[1..] + [log];
      GatheredTogether(answer, Gathered(logs[1..], maxBuffer, Highest(since, answer)), log, maxBuffer, since);
    }
  }

  /** The channel's messages so far. */
  ghost function StoredIn(s: System, cid: string): seq<BufferedMessage> {
    if cid in s.logs then Stored(s.logs[cid]) else []
  }

  /** At every moment the manager answers a sync with `Round` of the channel's
      messages so far, and at successive moments of one membership those are a
      growing log: `CatchUpExactlyOnce` applies to a member's syncs in any run. */
  lemma SyncsOfAMember(world: World, config: Config, actions: seq<Action>, id: nat, cid: string, m: nat, n: nat,
                       since: nat, now: nat)
    requires m <= n <= |actions|
    requires MemberOf(Run(world, config, actions[..m]).conns, id, cid)
            && MemberOf(Run(world, config, actions[..n]).conns, id, cid)
    ensures cid in Run(world, config, actions[..m]).logs && cid in Run(world, config, actions[..n]).logs
    ensures var earlier, later :=
            StoredIn(Run(world, config, actions[..m]), cid), StoredIn(Run(world, config, actions[..n]), cid);
      && Numbered(later) && earlier <= later
      && Handle(Run(world, config, actions[..n]).channels, Sync(cid, since, id), config, now).1
         == [SyncReply(id, Round(later, config.maxBuffer, since))]
  {
    assert actions[..n][..m] == actions[..m];
    LogOnlyGrows(world, config, actions[..n], m, id, cid);
    BuffersAreTails(world, config, actions[..n]);
    var s := Run(world, config, actions[..n]);
    assert cid in s.channels;
    assert ChannelBuffered(s.channels[cid], s.logs[cid], config.maxBuffer);
  }

  /** The connection belongs to the channel at each of these moments of the run. */
  ghost predicate MemberThroughout(world: World, config: Config, actions: seq<Action>, id: nat, cid: string,
                                   moments: seq<nat>) {
    && (forall i, j :: 0 <= i <= j < |moments| ==> moments[i] <= moments[j] <= |actions|)
    && (forall i :: 0 <= i < |moments| ==> MemberOf(Run(world, config, actions[..moments[i]]).conns, id, cid))
  }

  ghost function Sights(world: World, config: Config, actions: seq<Action>, moments: seq<nat>,
                        cid: string): seq<seq<BufferedMessage>>
    requires forall i :: 0 <= i < |moments| ==> moments[i] <= |actions|
  {
    seq(|moments|, i requires 0 <= i < |moments| => StoredIn(Run(world, config, actions[..moments[i]]), cid))
  }

  lemma SightsGrow(world: World, config: Config, actions: seq<Action>, id: nat, cid: string, moments: seq<nat>)
    requires moments != [] && MemberThroughout(world, config, actions, id, cid, moments)
    ensures forall i :: 0 <= i < |moments| ==> cid in Run(world, config, actions[..moments[i]]).logs
    ensures Growing(Sights(world, config, actions, moments, cid))
  {
    forall i, j | 0 <= i <= j < |moments|
      ensures cid in Run(world, config, actions[..moments[i]]).logs
              && cid in Run(world, config, actions[..moments[j]]).logs
      ensures StoredIn(Run(world, config, actions[..moments[i]]), cid)
              <= StoredIn(Run(world, config, actions[..moments[j]]), cid)
      ensures Numbered(StoredIn(Run(world, config, actions[..moments[j]]), cid))
    {
      SyncsOfAMember(world, config, actions, id, cid, moments[i], moments[j], 0, 0);
    }
  }

  /** `got` is what a client that had seen `since` should have: the channel's
      messages above `since`, once each and in order, none missing if and only
      if it kept up; and all there are if and only if it also started from nothing. */
  ghost predicate CaughtUp(logs: seq<seq<BufferedMessage>>, maxBuffer: nat, since: nat, got: seq<BufferedMessage>)
    requires logs != []
  {
    var all := logs[|logs| - 1];
    && Selection(all, since, got)
    && (got == Above(all, since) <==> KeepsUp(logs, maxBuffer, since))
    && (got == all <==> all == [] || (since == 0 && KeepsUp(logs, maxBuffer, 0)))
  }

  /** Catch-up over any run: a member that syncs at `moments`, each time from
      the highest number it has seen, is caught up. */
  lemma MemberCatchesUp(world: World, config: Config, actions: seq<Action>, id: nat, cid: string, moments: seq<nat>,
                        since: nat)
    requires moments != [] && MemberThroughout(world, config, actions, id, cid, moments)
    ensures forall i :: 0 <= i < |moments| ==> cid in Run(world, config, actions[..moments[i]]).logs
    ensures var logs := Sights(world, config, actions, moments, cid);
      CaughtUp(logs, config.maxBuffer, since, Gathered(logs, config.maxBuffer, since))
  {
    SightsGrow(world, config, actions, id, cid, moments);
    var logs := Sights(world, config, actions, moments, cid);
    CatchUpExactlyOnce(logs, config.maxBuffer, since);
    WholeLifetimeExactly(logs, config.maxBuffer, since);
  }

  function Joined(syncs: seq<seq<BufferedMessage>>): seq<BufferedMessage> {
    if syncs == [] then [] else Joined(syncs[..|syncs| - 1]) + syncs[|syncs| - 1]
  }

  /** Everything connection `id` was told in answer to its syncs. */
  function Told(conns: seq<Conn>, id: nat): seq<BufferedMessage> {
    if id < |conns| then Joined(conns[id].syncs) else []
  }

  /** The action makes the manager answer a sync of connection `id`. */
  predicate Answers(s: System, action: Action, id: nat) {
    action.Manage? && s.queue != [] && s.queue[0].cmd.Sync? && s.queue[0].from == id
  }

  predicate AsksFrom(s: System, id: nat, cid: string, since: nat)
    requires s.queue != [] && s.queue[0].cmd.Sync?
  {
    && id < |s.conns| && s.conns[id].claim.Some? && s.conns[id].claim.value.cid == cid
    && s.queue[0].cmd.cid == cid && s.queue[0].cmd.sinceSeq == Highest(since, Told(s.conns, id))
  }

  /** Each sync of `id` that is answered asks for its own channel `cid`, from the
      highest number it has been told, `since` to begin with. */
  ghost predicate AsksOn(world: World, config: Config, actions: seq<Action>, id: nat, cid: string, since: nat) {
    forall n :: 0 <= n < |actions| && Answers(Run(world, config, actions[..n]), actions[n], id) ==>
      AsksFrom(Run(world, config, actions[..n]), id, cid, since)
  }

  /** The lengths of the run at which a sync of `id` is answered. */
  ghost function Moments(world: World, config: Config, actions: seq<Action>, id: nat): seq<nat> {
    if actions == [] then []
    else
      var n := |actions| - 1;
      var s := Run(world, config, actions[..n]);
      Moments(world, config, actions[..n], id) + if Answers(s, actions[n], id) then [n] else []
  }

  /** What the channel holds at each of those moments. */
  ghost function Asked(world: World, config: Config, actions: seq<Action>, id: nat,
                       cid: string): seq<seq<BufferedMessage>> {
    if actions == [] then []
    else
      var n := |actions| - 1;
      var s := Run(world, config, actions[..n]);
      Asked(world, config, actions[..n], id, cid) + if Answers(s, actions[n], id) then [StoredIn(s, cid)] else []
  }

  lemma JoinedSnoc(syncs: seq<seq<BufferedMessage>>, answer: seq<BufferedMessage>)
    ensures Joined(syncs + [answer]) == Joined(syncs) + answer
  {
    assert (syncs + [answer])[..|syncs|] == syncs;
  }

  lemma {:induction false} OthersToldNothing(conns: seq<Conn>, outputs: seq<Output>, world: World, tick: nat, id: nat)
    requires forall i :: 0 <= i < |outputs| ==> !(outputs[i].SyncReply? && outputs[i].to == id)
    ensures Told(DeliverAll(conns, outputs, world, tick), id) == Told(conns, id)
    decreases |outputs|
  {
    if outputs == [] {
    } else {
      OthersToldNothing(Deliver(conns, outputs[0], world.accepts(tick, outputs[0].to)), outputs[1..], world, tick + 1,
          id);
    }
  }

  /** Of the manager's outputs, only the answer to a sync of `id` tells it something. */
  lemma HandleTells(s: System, config: Config, now: nat, id: nat)
    requires s.queue != [] && Conforms(s.conns, s.queue[0])
    requires !(s.queue[0].cmd.Sync? && s.queue[0].from == id)
    ensures var outputs := Handle(s.channels, s.queue[0].cmd, config, now).1;
      forall i :: 0 <= i < |outputs| ==> !(outputs[i].SyncReply? && outputs[i].to == id)
  {
    var cmd := s.queue[0].cmd;
    match cmd
    case Auth(cid, key, tx) =>
      var ch := if cid in s.channels then s.channels[cid] else NewChannel(now);
      var peers := ch.peers + [Peer(key, tx)];
      SendAllSends(peers, PeerChange("", AsU32(|peers|)));
    case Forward(cid, key, message) =>
      if cid in s.channels {
        SendAllSends(Others(s.channels[cid].peers, key), message);
      }
    case Disconnect(cid, key) =>
      if cid in s.channels {
        var left := Others(s.channels[cid].peers, key);
        SendAllSends(left, PeerChange(cid, AsU32(|left|)));
      }
    case Sync(_, _, _) =>
  }

  lemma AnswerTells(s: System, world: World, config: Config, now: nat, id: nat, cid: string, since: nat)
    requires Identified(s) && Buffered(s, config)
    requires s.queue != [] && s.queue[0].cmd.Sync? && s.queue[0].from == id && AsksFrom(s, id, cid, since)
    ensures MemberOf(s.conns, id, cid) && cid in s.logs
    ensures Told(ManageHead(s, world, config, now).conns, id)
            == Told(s.conns, id) + Round(StoredIn(s, cid), config.maxBuffer, Highest(since, Told(s.conns, id)))
  {
    var head := s.queue[0];
    assert Conforms(s.conns, head) && MemberOf(s.conns, id, cid);
    assert ChannelBuffered(s.channels[cid], s.logs[cid], config.maxBuffer);
    var answer := Since(s.channels[cid].buffer, head.cmd.sinceSeq);
    var outputs := Handle(s.channels, head.cmd, config, now).1;
    assert outputs == [SyncReply(id, answer)] && outputs[1..] == [];
    assert DeliverAll(s.conns, outputs, world, s.tick) == Deliver(s.conns, outputs[0], world.accepts(s.tick, id));
    JoinedSnoc(s.conns[id].syncs, answer);
  }

  lemma OtherStepTells(s: System, world: World, config: Config, action: Action, id: nat)
    requires Identified(s) && !Answers(s, action, id)
    ensures Told(Next(s, world, config, action).conns, id) == Told(s.conns, id)
  {
    if action.Manage? && s.queue != [] {
      assert Conforms(s.conns, s.queue[0]);
      HandleTells(s, config, action.now, id);
      OthersToldNothing(MarkLeft(s.conns, s.queue[0]), Handle(s.channels, s.queue[0].cmd, config, action.now).1,
          world, s.tick, id);
    } else if action.Connect? && id == |s.conns| {
      assert Joined([]) == [];
    }
  }

  /** What the last action of a run tells a connection that asks so. */
  lemma StepTells(world: World, config: Config, before: seq<Action>, last: Action, id: nat, cid: string, since: nat)
    requires var s := Run(world, config, before); Answers(s, last, id) ==> AsksFrom(s, id, cid, since)
    ensures var s := Run(world, config, before);
      var told := Told(Next(s, world, config, last).conns, id);
      if Answers(s, last, id) then
        && MemberOf(s.conns, id, cid)
        && told == Told(s.conns, id) + Round(StoredIn(s, cid), config.maxBuffer, Highest(since, Told(s.conns, id)))
      else
        told == Told(s.conns, id)
  {
    var s := Run(world, config, before);
    PeersAreMembers(world, config, before);
    if Answers(s, last, id) {
      BuffersAreTails(world, config, before);
      AnswerTells(s, world, config, last.now, id, cid, since);
    } else {
      OtherStepTells(s, world, config, last, id);
    }
  }

  lemma AsksOnBefore(world: World, config: Config, actions: seq<Action>, id: nat, cid: string, since: nat)
    requires actions != [] && AsksOn(world, config, actions, id, cid, since)
    ensures AsksOn(world, config, actions[..|actions| - 1], id, cid, since)
    ensures var s := Run(world, config, actions[..|actions| - 1]);
      Answers(s, actions[|actions| - 1], id) ==> AsksFrom(s, id, cid, since)
  {
    var before := actions[..|actions| - 1];
    forall k | 0 <= k < |before| && Answers(Run(world, config, before[..k]), before[k], id)
      ensures AsksFrom(Run(world, config, before[..k]), id, cid, since)
    {
      assert before[..k] == actions[..k];
    }
  }

  lemma AskedStep(world: World, config: Config, actions: seq<Action>, id: nat, cid: string)
    requires actions != []
    ensures var n := |actions| - 1;
      var s, asked := Run(world, config, actions[..n]), Asked(world, config, actions[..n], id, cid);
      && Asked(world, config, actions, id, cid)
          == (if Answers(s, actions[n], id) then asked + [StoredIn(s, cid)] else asked)
      && Run(world, config, actions) == Next(s, world, config, actions[n])
  {
  }

  /** Over every run: what a connection that asks so was told is what a client
      gathers that syncs at those moments. */
  lemma {:induction false} ToldIsGathered(world: World, config: Config, actions: seq<Action>, id: nat, cid: string,
                                          since: nat)
    requires AsksOn(world, config, actions, id, cid, since)
    ensures Told(Run(world, config, actions).conns, id)
            == Gathered(Asked(world, config, actions, id, cid), config.maxBuffer, since)
  {
    if actions == [] {
    } else {
      var n := |actions| - 1;
      var before, s := actions[..n], Run(world, config, actions[..n]);
      AsksOnBefore(world, config, actions, id, cid, since);
      ToldIsGathered(world, config, before, id, cid, since);
      StepTells(world, config, before, actions[n], id, cid, since);
      GatheredSnoc(Asked(world, config, before, id, cid), StoredIn(s, cid), config.maxBuffer, since);
      AskedStep(world, config, actions, id, cid);
    }
  }

  /** Those moments belong to one membership, and there the channel's log is in the system. */
  ghost predicate AskedWhileMember(world: World, config: Config, actions: seq<Action>, id: nat, cid: string) {
    var moments, asked := Moments(world, config, actions, id), Asked(world, config, actions, id, cid);
    && |asked| == |moments|
    && (forall i :: 0 <= i < |moments| ==> moments[i] < |actions|)
    && (forall i, j :: 0 <= i < j < |moments| ==> moments[i] < moments[j])
    && (forall i :: 0 <= i < |moments| ==>
          var s := Run(world, config, actions[..moments[i]]);
          MemberOf(s.conns, id, cid) && asked[i] == StoredIn(s, cid))
  }

  lemma MembersStep(world: World, config: Config, actions: seq<Action>, id: nat, cid: string)
    requires actions != [] && AskedWhileMember(world, config, actions[..|actions| - 1], id, cid)
    requires var n := |actions| - 1;
      var s := Run(world, config, actions[..n]);
      Answers(s, actions[n], id) ==> MemberOf(s.conns, id, cid)
    ensures AskedWhileMember(world, config, actions, id, cid)
  {
    var n := |actions| - 1;
    var before := actions[..n];
    AskedStep(world, config, actions, id, cid);
    var moments, asked := Moments(world, config, actions, id), Asked(world, config, actions, id, cid);
    var earlier := Moments(world, config, before, id);
    assert moments == earlier || moments == earlier + [n];
    forall i | 0 <= i < |moments|
      ensures moments[i] < |actions|
      ensures var s := Run(world, config, actions[..moments[i]]);
        MemberOf(s.conns, id, cid) && asked[i] == StoredIn(s, cid)
    {
      if i < |earlier| {
        assert moments[i] == earlier[i] && before[..moments[i]] == actions[..moments[i]];
      } else {
        assert moments[i] == n && asked[i] == StoredIn(Run(world, config, before), cid);
      }
    }
  }

  lemma {:induction false} AsksAreMembers(world: World, config: Config, actions: seq<Action>, id: nat, cid: string,
                                          since: nat)
    requires AsksOn(world, config, actions, id, cid, since)
    ensures AskedWhileMember(world, config, actions, id, cid)
  {
    if actions == [] {
    } else {
      var n := |actions| - 1;
      var before, s := actions[..n], Run(world, config, actions[..n]);
      AsksOnBefore(world, config, actions, id, cid, since);
      AsksAreMembers(world, config, before, id, cid, since);
      StepTells(world, config, before, actions[n], id, cid, since);
      AskedStep(world, config, actions, id, cid);
      MembersStep(world, config, actions, id, cid);
    }
  }

  lemma AskedIsSeen(world: World, config: Config, actions: seq<Action>, id: nat, cid: string)
    requires AskedWhileMember(world, config, actions, id, cid)
    ensures var moments := Moments(world, config, actions, id);
      && MemberThroughout(world, config, actions, id, cid, moments)
      && Asked(world, config, actions, id, cid) == Sights(world, config, actions, moments, cid)
  {
  }

  /** Catch-up as it is recorded: over every run, a connection whose syncs each
      ask its own channel from the highest number it has been told is caught up
      by what it was told. */
  lemma ToldExactlyOnce(world: World, config: Config, actions: seq<Action>, id: nat, cid: string, since: nat)
    requires AsksOn(world, config, actions, id, cid, since)
    ensures var logs, got := Asked(world, config, actions, id, cid), Told(Run(world, config, actions).conns, id);
      logs != [] ==> CaughtUp(logs, config.maxBuffer, since, got)
  {
    var moments, logs := Moments(world, config, actions, id), Asked(world, config, actions, id, cid);
    ToldIsGathered(world, config, actions, id, cid, since);
    AsksAreMembers(world, config, actions, id, cid, since);
    AskedIsSeen(world, config, actions, id, cid);
    if moments != [] {
      MemberCatchesUp(world, config, actions, id, cid, moments, since);
    }
  }

  // ------------------------------------------------------------ delivery

  /** The encrypted messages among a connection's offers. */
  function Relayed(offers: seq<Offer>): seq<Message> {
    if offers == [] then []
    else
      var last := offers[|offers| - 1].message;
      Relayed(offers[..|offers| - 1]) + (if last.Encrypted? then [last] else [])
  }

  /** The messages of a log that others than `id` sent. */
  function FromOthers(log: seq<Logged>, id: nat): seq<Message> {
    if log == [] then []
    else
      var last := log[|log| - 1];
      FromOthers(log[..|log| - 1], id) + (if last.from != id then [last.message] else [])
  }

  /** Every member has been offered exactly what the others sent since it
      joined, in order; nobody is offered anything before being accepted. */
  ghost predicate Served(s: System) {
    && (forall id: nat, cid :: MemberOf(s.conns, id, cid) ==>
          && id in s.joinedAt && cid in s.logs && s.joinedAt[id] <= |s.logs[cid]|
          && Relayed(s.conns[id].offers) == FromOthers(s.logs[cid][s.joinedAt[id]..], id))
    && (forall id :: 0 <= id < |s.conns| && s.conns[id].authReply == None ==> s.conns[id].offers == [])
  }

  lemma EntryOfFirst(peers: seq<Peer>)
    requires peers != []
    ensures forall id: nat :: HasEntry(peers, id) <==> id == peers[0].tx || HasEntry(peers[1..], id)
  {
    forall id: nat ensures HasEntry(peers, id) <==> id == peers[0].tx || HasEntry(peers[1..], id) {
      assert peers[0] in peers;
      if HasEntry(peers[1..], id) {
        var q :| q in peers[1..] && q.tx == id;
        assert q in peers;
      }
    }
  }

  /** `SendAll` puts one offer on each peer's connection and none elsewhere. */
  lemma {:induction false} SendAllOffers(conns: seq<Conn>, peers: seq<Peer>, message: Message, world: World, tick: nat)
    requires forall i, j :: 0 <= i < j < |peers| ==> peers[i].tx != peers[j].tx
    requires forall i :: 0 <= i < |peers| ==> peers[i].tx < |conns|
    ensures var conns' := DeliverAll(conns, SendAll(peers, message), world, tick);
      && |conns'| == |conns|
      && forall id :: 0 <= id < |conns| ==>
           (HasEntry(peers, id) ==>
              |conns'[id].offers| == |conns[id].offers| + 1
              && conns'[id].offers[..|conns[id].offers|] == conns[id].offers
              && conns'[id].offers[|conns[id].offers|].message == message)
           && (!HasEntry(peers, id) ==> conns'[id] == conns[id])
    decreases |peers|
  {
    if peers == [] {
    } else {
      var p, rest := peers[0], peers[1..];
      var next := Deliver(conns, Send(p.tx, message), world.accepts(tick, p.tx));
      assert SendAll(peers, message)[1..] == SendAll(rest, message);
      SendAllOffers(next, rest, message, world, tick + 1);
      assert peers == [p] + rest;
      EntryOfFirst(peers);
      assert !HasEntry(rest, p.tx);
    }
  }

  lemma RelayedSnoc(offers: seq<Offer>, offers': seq<Offer>)
    requires |offers'| == |offers| + 1 && offers'[..|offers|] == offers
    ensures Relayed(offers')
            == Relayed(offers) + (if offers'[|offers|].message.Encrypted? then [offers'[|offers|].message] else [])
  {
  }

  lemma DistinctQueues(channels: Channels, conns: seq<Conn>, cid: string)
    requires Peered(channels, conns) && cid in channels
    ensures var peers := channels[cid].peers;
      && (forall i, j :: 0 <= i < j < |peers| ==> peers[i].tx != peers[j].tx)
      && (forall i :: 0 <= i < |peers| ==> peers[i].tx < |conns|)
  {
  }

  /** What one processed command adds to the messages relayed to `id`. */
  ghost function NewlyRelayed(s: System, head: Queued, id: nat): seq<Message> {
    if head.cmd.Forward? && MemberOf(s.conns, id, head.cmd.cid) && id != head.from then [head.cmd.message] else []
  }

  /** Sending to some peers of a channel relays `message`, if encrypted, to exactly those. */
  lemma SendsRelay(conns: seq<Conn>, peers: seq<Peer>, message: Message, world: World, tick: nat, id: nat)
    requires forall i, j :: 0 <= i < j < |peers| ==> peers[i].tx != peers[j].tx
    requires forall i :: 0 <= i < |peers| ==> peers[i].tx < |conns|
    requires id < |conns|
    ensures var conns' := DeliverAll(conns, SendAll(peers, message), world, tick);
      && |conns'| == |conns|
      && Relayed(conns'[id].offers)
         == Relayed(conns[id].offers) + (if HasEntry(peers, id) && message.Encrypted? then [message] else [])
      && (!HasEntry(peers, id) ==> conns'[id].offers == conns[id].offers)
  {
    SendAllOffers(conns, peers, message, world, tick);
    var conns' := DeliverAll(conns, SendAll(peers, message), world, tick);
    if HasEntry(peers, id) {
      RelayedSnoc(conns[id].offers, conns'[id].offers);
    }
  }

  lemma AuthConns(s: System, world: World, config: Config, now: nat) returns (first: seq<Conn>, peers: seq<Peer>)
    requires s.queue != [] && s.queue[0].cmd.Auth? && s.queue[0].cmd.peerTx < |s.conns|
    ensures var Auth(cid, key, tx) := s.queue[0].cmd;
      && |first| == |s.conns|
      && (forall id :: 0 <= id < |first| ==> first[id].offers == s.conns[id].offers)
      && (peers == [] || peers == (if cid in s.channels then s.channels[cid].peers else []) + [Peer(key, tx)])
      && ManageHead(s, world, config, now).conns
         == DeliverAll(first, SendAll(peers, PeerChange("", AsU32(|peers|))), world, s.tick + 1)
  {
    var Auth(cid, key, tx) := s.queue[0].cmd;
    var outputs := Handle(s.channels, s.queue[0].cmd, config, now).1;
    first := Deliver(s.conns, outputs[0], world.accepts(s.tick, tx));
    peers := if outputs[0].Accept? then (if cid in s.channels then s.channels[cid].peers else []) + [Peer(key, tx)] else [];
    assert outputs[1..] == SendAll(peers, PeerChange("", AsU32(|peers|)));
  }

  /** A newcomer's queue is none of its channel's. */
  lemma JoinedQueues(channels: Channels, conns: seq<Conn>, cid: string, key: string, tx: nat)
    requires Peered(channels, conns) && tx < |conns| && conns[tx].authReply == None
    ensures var peers := (if cid in channels then channels[cid].peers else []) + [Peer(key, tx)];
      && (forall i, j :: 0 <= i < j < |peers| ==> peers[i].tx != peers[j].tx)
      && (forall i :: 0 <= i < |peers| ==> peers[i].tx < |conns|)
      && (forall id: nat :: HasEntry(peers, id) && id != tx ==> MemberOf(conns, id, cid))
  {
    if cid in channels {
      DistinctQueues(channels, conns, cid);
      forall i | 0 <= i < |channels[cid].peers| ensures MemberOf(conns, channels[cid].peers[i].tx, cid) {
        assert channels[cid].peers[i] in channels[cid].peers;
      }
    }
  }

  /** A notice is no relayed message. */
  lemma NoticeRelays(conns: seq<Conn>, peers: seq<Peer>, notice: Message, world: World, tick: nat, id: nat)
    requires forall i, j :: 0 <= i < j < |peers| ==> peers[i].tx != peers[j].tx
    requires forall i :: 0 <= i < |peers| ==> peers[i].tx < |conns|
    requires id < |conns| && !notice.Encrypted?
    ensures var conns' := DeliverAll(conns, SendAll(peers, notice), world, tick);
      && |conns'| == |conns| && Relayed(conns'[id].offers) == Relayed(conns[id].offers)
      && (!HasEntry(peers, id) ==> conns'[id].offers == conns[id].offers)
  {
    SendsRelay(conns, peers, notice, world, tick, id);
    assert Relayed(conns[id].offers) + [] == Relayed(conns[id].offers);
  }

  lemma AuthRelays(s: System, world: World, config: Config, now: nat, id: nat)
    requires Identified(s) && s.queue != [] && s.queue[0].cmd.Auth? && id < |s.conns|
    ensures var s' := ManageHead(s, world, config, now);
      && id < |s'.conns|
      && Relayed(s'.conns[id].offers) == Relayed(s.conns[id].offers)
      && (s.conns[id].authReply == None && id != s.queue[0].from ==> s'.conns[id].offers == s.conns[id].offers)
  {
    assert Conforms(s.conns, s.queue[0]);
    var Auth(cid, key, tx) := s.queue[0].cmd;
    var first, peers := AuthConns(s, world, config, now);
    JoinedQueues(s.channels, s.conns, cid, key, tx);
    NoticeRelays(first, peers, PeerChange("", AsU32(|peers|)), world, s.tick + 1, id);
  }

  /** A forwarded message goes to the members of the channel except its sender. */
  lemma ForwardedTo(s: System, q: Queued, id: nat)
    requires Identified(s) && q.cmd.Forward? && Conforms(s.conns, q)
    ensures q.cmd.cid in s.channels
    ensures HasEntry(Others(s.channels[q.cmd.cid].peers, q.cmd.senderKey), id)
            <==> MemberOf(s.conns, id, q.cmd.cid) && id != q.from
  {
    var cid, key := q.cmd.cid, q.cmd.senderKey;
    assert Member(s.conns, q.from);
    var peers := s.channels[cid].peers;
    var others := Others(peers, key);
    OthersMembers(peers, key);
    if HasEntry(others, id) {
      var p :| p in others && p.tx == id;
      assert p in peers && MemberOf(s.conns, id, cid);
    }
    if MemberOf(s.conns, id, cid) && id != q.from {
      var p :| p in peers && p.tx == id;
      var own :| own in peers && own.tx == q.from;
      var i, j :| 0 <= i < |peers| && 0 <= j < |peers| && peers[i] == p && peers[j] == own;
      assert p in others;
    }
  }

  lemma ForwardConns(s: System, world: World, config: Config, now: nat)
    requires s.queue != [] && s.queue[0].cmd.Forward? && s.queue[0].cmd.cid in s.channels
    ensures var Forward(cid, key, message) := s.queue[0].cmd;
      ManageHead(s, world, config, now).conns
      == DeliverAll(s.conns, SendAll(Others(s.channels[cid].peers, key), message), world, s.tick)
  {
  }

  lemma DistinctOthers(channels: Channels, conns: seq<Conn>, cid: string, key: string)
    requires Peered(channels, conns) && cid in channels
    ensures var others := Others(channels[cid].peers, key);
      && (forall i, j :: 0 <= i < j < |others| ==> others[i].tx != others[j].tx)
      && (forall i :: 0 <= i < |others| ==> MemberOf(conns, others[i].tx, cid))
  {
    var peers := channels[cid].peers;
    var others := Others(peers, key);
    OthersMembers(peers, key);
    forall i | 0 <= i < |others|
      ensures MemberOf(conns, others[i].tx, cid) && conns[others[i].tx].claim.value.key == others[i].publicKey
    {
      assert others[i] in others;
    }
  }

  lemma ForwardRelays(s: System, world: World, config: Config, now: nat, id: nat)
    requires Identified(s) && s.queue != [] && s.queue[0].cmd.Forward? && id < |s.conns|
    ensures var s' := ManageHead(s, world, config, now);
      && id < |s'.conns|
      && Relayed(s'.conns[id].offers) == Relayed(s.conns[id].offers) + NewlyRelayed(s, s.queue[0], id)
      && (s.conns[id].authReply == None ==> s'.conns[id].offers == s.conns[id].offers)
  {
    var head := s.queue[0];
    assert Conforms(s.conns, head);
    ForwardedTo(s, head, id);
    ForwardConns(s, world, config, now);
    DistinctOthers(s.channels, s.conns, head.cmd.cid, head.cmd.senderKey);
    SendsRelay(s.conns, Others(s.channels[head.cmd.cid].peers, head.cmd.senderKey), head.cmd.message, world, s.tick,
        id);
  }

  lemma DisconnectConns(s: System, world: World, config: Config, now: nat)
    requires s.queue != [] && s.queue[0].cmd.Disconnect? && s.queue[0].cmd.cid in s.channels
    ensures var Disconnect(cid, key) := s.queue[0].cmd;
      var kept := Others(s.channels[cid].peers, key);
      ManageHead(s, world, config, now).conns
      == DeliverAll(MarkLeft(s.conns, s.queue[0]), SendAll(kept, PeerChange(cid, AsU32(|kept|))), world, s.tick)
  {
  }

  lemma DisconnectRelays(s: System, world: World, config: Config, now: nat, id: nat)
    requires Identified(s) && s.queue != [] && s.queue[0].cmd.Disconnect? && id < |s.conns|
    ensures var s' := ManageHead(s, world, config, now);
      && id < |s'.conns|
      && Relayed(s'.conns[id].offers) == Relayed(s.conns[id].offers)
      && (s.conns[id].authReply == None ==> s'.conns[id].offers == s.conns[id].offers)
  {
    var head := s.queue[0];
    assert Conforms(s.conns, head) && Member(s.conns, head.from);
    var Disconnect(cid, key) := head.cmd;
    var kept := Others(s.channels[cid].peers, key);
    DisconnectConns(s, world, config, now);
    DistinctOthers(s.channels, s.conns, cid, key);
    var marked := MarkLeft(s.conns, head);
    assert marked[id].offers == s.conns[id].offers;
    SendsRelay(marked, kept, PeerChange(cid, AsU32(|kept|)), world, s.tick, id);
    assert Relayed(s.conns[id].offers) + [] == Relayed(s.conns[id].offers);
  }

  lemma ManageRelays(s: System, world: World, config: Config, now: nat, id: nat)
    requires Identified(s) && s.queue != [] && id < |s.conns|
    ensures var s' := ManageHead(s, world, config, now);
      && id < |s'.conns|
      && Relayed(s'.conns[id].offers) == Relayed(s.conns[id].offers) + NewlyRelayed(s, s.queue[0], id)
      && (s.conns[id].authReply == None && (id == s.queue[0].from ==> !s.queue[0].cmd.Auth?) ==>
            s'.conns[id].offers == s.conns[id].offers)
  {
    match s.queue[0].cmd
    case Auth(_, _, _) => AuthRelays(s, world, config, now, id);
    case Forward(_, _, _) => ForwardRelays(s, world, config, now, id);
    case Disconnect(_, _) => DisconnectRelays(s, world, config, now, id);
    case Sync(_, _, to) =>
      var outputs := Handle(s.channels, s.queue[0].cmd, config, now).1;
      assert |outputs| == 1 && outputs[1..] == [];
      assert DeliverAll(s.conns, outputs, world, s.tick) == Deliver(s.conns, outputs[0], world.accepts(s.tick, to));
  }

  lemma FromOthersSnoc(log: seq<Logged>, from: nat, entry: Logged, id: nat)
    requires from <= |log|
    ensures FromOthers((log + [entry])[from..], id)
            == FromOthers(log[from..], id) + (if entry.from != id then [entry.message] else [])
  {
    var all := (log + [entry])[from..];
    assert all == log[from..] + [entry];
    assert all[..|all| - 1] == log[from..];
  }

  /** Processing a command makes at most its own sender a member. */
  lemma WhoJoins(s: System, world: World, config: Config, now: nat, id: nat)
    requires Identified(s) && s.queue != [] && id < |s.conns|
    ensures var head, s' := s.queue[0], ManageHead(s, world, config, now);
      && |s'.conns| == |s.conns|
      && (s'.conns[id].authReply == None ==> s.conns[id].authReply == None && !(head.cmd.Auth? && head.from == id))
      && forall cid :: MemberOf(s'.conns, id, cid) && !MemberOf(s.conns, id, cid) ==>
           head.cmd.Auth? && head.from == id && head.cmd.cid == cid && s.conns[id].authReply == None
  {
    var head := s.queue[0];
    assert Conforms(s.conns, head);
    var judged := Judge(s.conns, head, Handle(s.channels, head.cmd, config, now).1);
    ManageCores(s, world, config, now);
    assert Core(judged[id]) == Core(ManageHead(s, world, config, now).conns[id]);
  }

  lemma NewcomerServed(s: System, world: World, config: Config, now: nat, id: nat, cid: string)
    requires s.queue != [] && s.queue[0].cmd.Auth? && s.queue[0].from == id && s.queue[0].cmd.cid == cid
    requires cid in ManageHead(s, world, config, now).channels
    ensures var s' := ManageHead(s, world, config, now);
      && id in s'.joinedAt && cid in s'.logs && s'.joinedAt[id] == |s'.logs[cid]|
      && FromOthers(s'.logs[cid][s'.joinedAt[id]..], id) == []
  {
  }

  lemma MemberServed(s: System, world: World, config: Config, now: nat, id: nat, cid: string)
    requires Identified(s) && Buffered(s, config) && Served(s) && s.queue != []
    requires MemberOf(s.conns, id, cid) && cid in s.channels
    requires cid in ManageHead(s, world, config, now).channels
    ensures var s' := ManageHead(s, world, config, now);
      && id in s'.joinedAt && cid in s'.logs && s'.joinedAt[id] <= |s'.logs[cid]|
      && FromOthers(s'.logs[cid][s'.joinedAt[id]..], id)
         == Relayed(s.conns[id].offers) + NewlyRelayed(s, s.queue[0], id)
  {
    var head, s' := s.queue[0], ManageHead(s, world, config, now);
    assert Conforms(s.conns, head);
    assert head.cmd.Auth? ==> head.from != id;
    assert s'.joinedAt[id] == s.joinedAt[id];
    if head.cmd.Forward? && head.cmd.cid == cid {
      var message := head.cmd.message;
      var entry := Logged(head.from, message, BufferedMessage(s.channels[cid].nextSeq, message.ciphertext, message.nonce, now));
      assert s'.logs[cid] == s.logs[cid] + [entry];
      FromOthersSnoc(s.logs[cid], s.joinedAt[id], entry, id);
    } else {
      assert s'.logs[cid] == s.logs[cid];
      assert Relayed(s.conns[id].offers) + [] == Relayed(s.conns[id].offers);
    }
  }

  lemma ManageServed(s: System, world: World, config: Config, now: nat)
    requires Identified(s) && Buffered(s, config) && Served(s) && s.queue != []
    ensures Served(ManageHead(s, world, config, now))
  {
    var head, s' := s.queue[0], ManageHead(s, world, config, now);
    ManageIdentified(s, world, config, now);
    assert |s'.conns| == |s.conns| by {
      assert Conforms(s.conns, head);
      WhoJoins(s, world, config, now, head.from);
    }
    forall id: nat, cid | MemberOf(s'.conns, id, cid)
      ensures id in s'.joinedAt && cid in s'.logs && s'.joinedAt[id] <= |s'.logs[cid]|
      ensures Relayed(s'.conns[id].offers) == FromOthers(s'.logs[cid][s'.joinedAt[id]..], id)
    {
      assert cid in s'.channels;
      WhoJoins(s, world, config, now, id);
      ManageRelays(s, world, config, now, id);
      if MemberOf(s.conns, id, cid) {
        MemberServed(s, world, config, now, id, cid);
      } else {
        NewcomerServed(s, world, config, now, id, cid);
      }
    }
    forall id | 0 <= id < |s'.conns| && s'.conns[id].authReply == None ensures s'.conns[id].offers == [] {
      WhoJoins(s, world, config, now, id);
      ManageRelays(s, world, config, now, id);
    }
  }

  /** Only the manager's commands offer anything or change who is a member. */
  lemma QuietStep(s: System, world: World, config: Config, action: Action, id: nat)
    requires Identified(s) && !action.Manage?
    requires id < |Next(s, world, config, action).conns|
    ensures var s' := Next(s, world, config, action);
      && (forall cid :: MemberOf(s'.conns, id, cid) ==> MemberOf(s.conns, id, cid))
      && s'.conns[id].offers == (if id < |s.conns| then s.conns[id].offers else [])
      && (id < |s.conns| ==> s'.conns[id].authReply == s.conns[id].authReply)
  {
  }

  lemma QuietServed(s: System, world: World, config: Config, action: Action)
    requires Identified(s) && Buffered(s, config) && Served(s) && !action.Manage?
    ensures Served(Next(s, world, config, action))
  {
    var s' := Next(s, world, config, action);
    StepIdentified(s, world, config, action);
    forall id: nat, cid | MemberOf(s'.conns, id, cid)
      ensures id in s'.joinedAt && cid in s'.logs && s'.joinedAt[id] <= |s'.logs[cid]|
      ensures Relayed(s'.conns[id].offers) == FromOthers(s'.logs[cid][s'.joinedAt[id]..], id)
    {
      QuietStep(s, world, config, action, id);
      assert cid in s'.channels && cid in s.logs;
      assert s'.logs[cid] == s.logs[cid];
    }
    forall id | 0 <= id < |s'.conns| && s'.conns[id].authReply == None ensures s'.conns[id].offers == [] {
      QuietStep(s, world, config, action, id);
    }
  }

  lemma StepServed(s: System, world: World, config: Config, action: Action)
    requires Identified(s) && Buffered(s, config) && Served(s)
    ensures Served(Next(s, world, config, action))
  {
    if !action.Manage? {
      QuietServed(s, world, config, action);
    } else if s.queue != [] {
      ManageServed(s, world, config, action.now);
    }
  }

  /** In every reachable state, each member has been offered exactly the
      encrypted messages that other members sent since it joined, in order and
      never its own. */
  lemma {:induction false} MembersAreServed(world: World, config: Config, actions: seq<Action>)
    ensures Served(Run(world, config, actions))
  {
    if actions == [] {
    } else {
      var before := actions[..|actions| - 1];
      MembersAreServed(world, config, before);
      PeersAreMembers(world, config, before);
      BuffersAreTails(world, config, before);
      StepServed(Run(world, config, before), world, config, actions[|actions| - 1]);
    }
  }
}
