/** Prompt channels: which ids still lead to a wrapper's channel once the
    wrapper is unregistered. */
module Prompts {
  import opened Wrappers
  import opened SessionState
  import opened Daemon
  import opened Lifecycle

  /** The ids under which prompts reach `channel`. */
  function LeadingTo(d: Snapshot, channel: nat): set<string> {
    set k | k in d.channels && d.channels[k] == channel
  }

  /** Exactly the aliases whose session is gone, or is not linked to the
      wrapper, outlive it; so none does if and only if there are none. */
  lemma AliasesLeft(d: Snapshot, env: Env, wid: string, channel: nat)
    ensures var left := LeadingTo(d.UnregisterWrapper(env, wid), channel);
      && left == (set k | k in LeadingTo(d, channel) && k != wid && d.state.ParentOf(k) != Some(wid))
      && (left == {} <==> forall k :: k in LeadingTo(d, channel) ==> k == wid || d.state.ParentOf(k) == Some(wid))
  {
    var left := LeadingTo(d.UnregisterWrapper(env, wid), channel);
    assert forall k :: k in left <==> k in LeadingTo(d, channel) && k != wid && d.state.ParentOf(k) != Some(wid);
  }

  lemma {:induction false} ResolveAllChannels(d: Snapshot, env: Env, rids: seq<string>, now: nat)
    ensures d.ResolveAll(env, rids, now).channels == d.channels
    decreases rids
  {
    if rids == [] {
    } else {
      ResolveAllChannels(d.Resolve(env, rids[0], "allow", None, "terminal", now), env, rids[1..], now);
    }
  }

  /** A wrapped session's hook gives it the wrapper's channel if it has none. */
  lemma HookChannels(d: Snapshot, env: Env, envelope: Envelope, now: nat, found: Option<string>)
    ensures var sid, wid := envelope.event.sessionId, envelope.wrapperId;
      Step(d, env, HookIn(envelope, now, found)).channels
      == if wid.Some? && sid !in d.channels && wid.value in d.channels
         then d.channels[sid := d.channels[wid.value]] else d.channels
  {
    var linked := d.LinkHook(envelope.event.sessionId, envelope.wrapperId, now);
    var order := env.order(linked.tick, linked.state.PendingFor(envelope.event.sessionId));
    ResolveAllChannels(linked, env, order, now);
  }

  /** Registering gives the wrapper's id, and the real session's id if it is
      known, the new channel; of the other messages only unregistering and
      hooks change channels. */
  lemma ChannelsOtherwise(d: Snapshot, env: Env, input: Input)
    requires !input.HookIn? && !input.UnregisterIn?
    ensures Step(d, env, input).channels ==
            match input
            case RegisterIn(sid, info, channel, _) =>
              if info.realSessionId == None then d.channels[sid := channel]
              else d.channels[sid := channel][info.realSessionId.value := channel]
            case _ => d.channels
  {
  }

  /** `k` is what `id` names among `keys`: itself, or else the only key it begins. */
  ghost predicate Names(keys: set<string>, id: string, k: string) {
    k in keys && (k == id || (id !in keys && id <= k && forall k' :: k' in keys && id <= k' ==> k' == k))
  }

  lemma NamesResolves(keys: set<string>, id: string)
    ensures forall k :: Names(keys, id, k) <==> ResolveKey(keys, id) == Some(k)
  {
    forall k ensures Names(keys, id, k) <==> ResolveKey(keys, id) == Some(k) {
      if Names(keys, id, k) && id !in keys {
        assert UniqueMatch(keys, id) == Some(k);
      }
    }
  }

  /** A prompt goes out exactly if the session it names is no linked subagent
      and the channel it names takes it; then the session of that very id works. */
  lemma PromptExactly(d: Snapshot, env: Env, sid: string, now: nat)
    ensures d.PromptGoesOut(env, sid) <==>
            && (forall k :: Names(d.state.sessions.Keys, sid, k) ==>
                  d.state.sessions[k].isMain || d.state.sessions[k].parentWrapperId == None)
            && (exists c :: Names(d.channels.Keys, sid, c) && env.promptAccepts(d.tick, d.channels[c]))
    ensures Step(d, env, PromptIn(sid, now)).state ==
            if d.PromptGoesOut(env, sid) then d.state.SetStatus(sid, Working, now) else d.state
  {
    NamesResolves(d.state.sessions.Keys, sid);
    NamesResolves(d.channels.Keys, sid);
  }

  /** The last hook of session `sid`, sent from wrapper `wid`. */
  function EndIn(sid: string, wid: string): Input {
    HookIn(Envelope(SessionEnd(sid), Some(wid)), 0, None)
  }

  /** A wrapper's session ends before the wrapper is unregistered. */
  function EndedFirst(wid: string, sid: string): seq<Input> {
    [Register(wid)] + [StartIn(sid, wid)] + [EndIn(sid, wid)] + [UnregisterIn(wid)]
  }

  lemma RunChannels(env: Env, inputs: seq<Input>, last: Input)
    ensures Run(env, inputs + [last]) == Step(Run(env, inputs), env, last)
  {
    assert (inputs + [last])[..|inputs|] == inputs;
  }

  lemma EndedSession(st: State, wid: string, sid: string)
    requires st.sessions.Keys == {wid, sid} && st.pending == map[] && wid != sid
    ensures NextState(st, EndIn(sid, wid), false).sessions.Keys == {wid}
  {
    assert st.Link(sid, Some(wid), 0).PendingFor(sid) == {};
  }

  lemma EndedFirstState(env: Env, wid: string, sid: string)
    requires env.Valid() && wid != sid
    ensures Run(env, [Register(wid)] + [StartIn(sid, wid)] + [EndIn(sid, wid)]).state.sessions.Keys == {wid}
  {
    var one := [Register(wid)];
    assert [] + one == one;
    Registered(wid);
    RunSnoc(env, [], Register(wid));
    StartedInWrapper(Run(env, one).state, wid, sid);
    RunSnoc(env, one, StartIn(sid, wid));
    EndedSession(Run(env, one + [StartIn(sid, wid)]).state, wid, sid);
    RunSnoc(env, one + [StartIn(sid, wid)], EndIn(sid, wid));
  }

  lemma EndedFirstAliases(env: Env, wid: string, sid: string)
    requires wid != sid
    ensures Run(env, [Register(wid)] + [StartIn(sid, wid)] + [EndIn(sid, wid)]).channels == map[wid := 0, sid := 0]
  {
    var one := [Register(wid)];
    var two := one + [StartIn(sid, wid)];
    assert [] + one == one;
    RunChannels(env, [], Register(wid));
    assert Run(env, one).channels == map[wid := 0];
    RunChannels(env, one, StartIn(sid, wid));
    HookChannels(Run(env, one), env, StartIn(sid, wid).envelope, 0, None);
    RunChannels(env, two, EndIn(sid, wid));
    HookChannels(Run(env, two), env, EndIn(sid, wid).envelope, 0, None);
  }

  lemma LastUnregistered(d: Snapshot, env: Env, wid: string, sid: string)
    requires d.channels == map[wid := 0, sid := 0] && d.state.sessions.Keys == {wid} && wid != sid
    ensures var d' := d.UnregisterWrapper(env, wid); d'.channels == map[sid := 0] && d'.state.sessions.Keys == {}
  {
  }

  lemma EndedFirstChannels(env: Env, wid: string, sid: string)
    requires env.Valid() && wid != sid
    ensures Run(env, EndedFirst(wid, sid)).channels == map[sid := 0]
    ensures Run(env, EndedFirst(wid, sid)).state.sessions.Keys == {}
  {
    var three := [Register(wid)] + [StartIn(sid, wid)] + [EndIn(sid, wid)];
    EndedFirstState(env, wid, sid);
    EndedFirstAliases(env, wid, sid);
    LastUnregistered(Run(env, three), env, wid, sid);
    RunChannels(env, three, UnregisterIn(wid));
  }

  /** After that run a prompt for the ended session still goes to the channel of
      the wrapper that is gone. */
  lemma StaleAliasRun(env: Env, wid: string, sid: string)
    requires env.Valid() && wid != sid
    ensures var d := Run(env, EndedFirst(wid, sid));
      && d.PromptTarget(sid) == Some(0)
      && (d.PromptGoesOut(env, sid) <==> env.promptAccepts(d.tick, 0))
  {
    EndedFirstChannels(env, wid, sid);
    var d := Run(env, EndedFirst(wid, sid));
    assert sid !in d.state.sessions.Keys;
  }
}
