/** When a channel ends: what the time it carries means, and exactly when a
    sweep or a farewell drops it. */
module RelayEviction {
  import opened Wrappers
  import opened RelayChannel
  import opened RelayServer
  import opened RelayIdentity
  import opened RelayHistory
  import opened RelayAdmission

  /** The action makes the manager take a join or a message for channel `cid`. */
  predicate Touches(s: System, action: Action, cid: string) {
    && action.Manage? && s.queue != []
    && (s.queue[0].cmd.Auth? || s.queue[0].cmd.Forward?) && s.queue[0].cmd.cid == cid
  }

  /** When that last happened. */
  ghost function LastTouch(world: World, config: Config, actions: seq<Action>, cid: string): nat {
    if actions == [] then 0
    else
      var n := |actions| - 1;
      if Touches(Run(world, config, actions[..n]), actions[n], cid) then actions[n].now
      else LastTouch(world, config, actions[..n], cid)
  }

  lemma StepTouches(s: System, world: World, config: Config, action: Action, cid: string)
    requires cid in Next(s, world, config, action).channels
    ensures var ch := Next(s, world, config, action).channels[cid];
      if Touches(s, action, cid) then ch.lastActivity == action.now
      else cid in s.channels && ch.lastActivity == s.channels[cid].lastActivity
  {
  }

  /** A channel remembers the time of the last join or message, refused joins included. */
  lemma {:induction false} ActivityIsLastTouch(world: World, config: Config, actions: seq<Action>, cid: string)
    requires cid in Run(world, config, actions).channels
    ensures Run(world, config, actions).channels[cid].lastActivity == LastTouch(world, config, actions, cid)
  {
    if actions == [] {
    } else {
      var n := |actions| - 1;
      var s := Run(world, config, actions[..n]);
      StepTouches(s, world, config, actions[n], cid);
      if !Touches(s, actions[n], cid) {
        ActivityIsLastTouch(world, config, actions[..n], cid);
      }
    }
  }

  lemma EmptyMeansMemberless(channels: Channels, conns: seq<Conn>, cid: string)
    requires Peered(channels, conns) && cid in channels
    ensures channels[cid].peers == [] <==> MembersOf(conns, cid) == {}
  {
    PeersCountMembers(channels, conns, cid);
  }

  /** In every run a sweep drops exactly the channels without members whose last
      join or message lies more than the limit back, and leaves the others alone. */
  lemma SweepExactly(world: World, config: Config, actions: seq<Action>, now: nat, cid: string)
    requires cid in Run(world, config, actions).channels
    ensures var s := Run(world, config, actions);
      var s' := Next(s, world, config, Sweep(now));
      && (cid !in s'.channels <==>
          MembersOf(s.conns, cid) == {} && now > LastTouch(world, config, actions, cid) + config.ttl)
      && (cid in s'.channels ==> s'.channels[cid] == s.channels[cid])
  {
    PeersAreMembers(world, config, actions);
    ActivityIsLastTouch(world, config, actions, cid);
    EmptyMeansMemberless(Run(world, config, actions).channels, Run(world, config, actions).conns, cid);
  }

  /** A farewell drops the channel, where empty ones are dropped, exactly if
      nobody stays and nothing is buffered. */
  lemma FarewellDropsExactly(s: System, world: World, config: Config, now: nat)
    requires Identified(s) && Buffered(s, config) && s.queue != [] && s.queue[0].cmd.Disconnect? && config.prune
    ensures var cid := s.queue[0].cmd.cid;
      var s' := ManageHead(s, world, config, now);
      && cid in s.logs
      && (cid !in s'.channels <==> MembersOf(s'.conns, cid) == {} && (s.logs[cid] == [] || config.maxBuffer == 0))
  {
    var cid, key := s.queue[0].cmd.cid, s.queue[0].cmd.publicKey;
    assert Conforms(s.conns, s.queue[0]) && Member(s.conns, s.queue[0].from);
    assert ChannelBuffered(s.channels[cid], s.logs[cid], config.maxBuffer);
    ManageIdentified(s, world, config, now);
    var s' := ManageHead(s, world, config, now);
    assert forall id :: id in MembersOf(s'.conns, cid) ==> cid in s'.channels;
    if cid in s'.channels {
      EmptyMeansMemberless(s'.channels, s'.conns, cid);
    }
  }
}
