/** What each message does to the session table, field by field: who is present,
    each session's status and when it last changed, its links and its details,
    and which requests are pending. */
module Effects {
  import opened Wrappers
  import opened SessionState
  import opened Daemon
  import opened Lifecycle

  // ------------------------------------------------------------ hooks

  /** The wrapper session `sid` belongs to after a hook of it from `wid`: a main
      session stays on its own, another goes to the wrapper the hook came from. */
  function ParentAfterHook(st: State, sid: string, wid: Option<string>): Option<string> {
    if wid.Some? && wid.value != sid && !(sid in st.sessions && st.sessions[sid].isMain) then wid
    else if sid in st.sessions then st.sessions[sid].parentWrapperId
    else None
  }

  predicate HadRequests(st: State, sid: string) {
    exists p :: p in st.pending && st.pending[p].sessionId == sid
  }

  /** A status that waits for input goes idle. */
  function Answered(status: Status): Status {
    if status == NeedsInput then Idle else status
  }

  lemma LinkEffect(st: State, sid: string, wid: Option<string>, now: nat)
    ensures var st' := st.Link(sid, wid, now);
      && st'.sessions.Keys == st.sessions.Keys + (if wid.Some? then {sid} else {})
      && (forall s :: s in st.sessions && s != sid ==> st'.sessions[s] == st.sessions[s])
      && (sid in st'.sessions ==>
            st'.sessions[sid] == (if sid in st.sessions then st.sessions[sid] else NewSession(sid, now))
                                 .(parentWrapperId := ParentAfterHook(st, sid, wid)))
      && st'.pending == st.pending
  {
  }

  lemma DismissEffect(st: State, sid: string, now: nat)
    ensures var st' := st.Dismiss(sid, now);
      && st'.sessions.Keys == st.sessions.Keys
      && st'.pending == st.pending - (set p | p in st.pending && st.pending[p].sessionId == sid)
      && (forall s :: s in st.sessions ==>
            var settled := HadRequests(st, sid) && st.sessions[s].status == NeedsInput
                           && (s == sid || (sid in st.sessions && st.sessions[sid].parentWrapperId == Some(s)));
            st'.sessions[s] == if settled then st.sessions[s].(status := Idle, lastStatusChange := now) else st.sessions[s])
  {
    assert st.PendingFor(sid) == set p | p in st.pending && st.pending[p].sessionId == sid;
    assert HadRequests(st, sid) <==> st.PendingFor(sid) != {} by {
      if HadRequests(st, sid) {
        var p :| p in st.pending && st.pending[p].sessionId == sid;
        assert p in st.PendingFor(sid);
      }
    }
    assert st.pending - {} == st.pending;
  }

  /** The session's own hook: what becomes of `sid` itself. */
  function Acted(s: Session, event: HookEvent, now: nat): Session {
    match event
    case ToolStart(_, tool, detail, useId) =>
      var busy := s.(activeTool := Some(Tool(tool, detail, useId)));
      if s.status == Working then busy else busy.(status := Working, lastStatusChange := now)
    case ToolEnd(_, useId) =>
      if s.activeTool.Some? && s.activeTool.value.useId == useId then s.(activeTool := None) else s
    case Stop(_) =>
      var quiet := s.(activeTool := None);
      if s.status == Idle then quiet else quiet.(status := Idle, lastStatusChange := now)
    case SessionStart(_, cwd) => if cwd.Some? then s.(cwd := cwd) else s
    case SessionEnd(_) => s
  }

  lemma ApplyEffect(st: State, event: HookEvent, now: nat)
    requires forall p :: p in st.pending ==> st.pending[p].sessionId != event.sessionId
    ensures var sid, st' := event.sessionId, st.ApplyHookEvent(event, now);
      && st'.pending == st.pending
      && st'.sessions.Keys == (match event
                               case SessionEnd(_) => st.sessions.Keys - {sid}
                               case ToolStart(_, _, _, _) => st.sessions.Keys + {sid}
                               case SessionStart(_, _) => st.sessions.Keys + {sid}
                               case _ => st.sessions.Keys)
      && (forall s :: s in st.sessions && s != sid ==> st'.sessions[s] == st.sessions[s])
      && (sid in st'.sessions ==>
            st'.sessions[sid] == Acted(if sid in st.sessions then st.sessions[sid] else NewSession(sid, now), event, now))
  {
  }

  lemma PopulateEffect(st: State, sid: string, wid: Option<string>, found: Option<string>)
    ensures var st' := st.PopulatePath(sid, wid, found);
      && st'.pending == st.pending && st'.sessions.Keys == st.sessions.Keys
      && forall s :: s in st.sessions ==>
           st'.sessions[s] ==
           if found.Some? && sid in st.sessions && st.sessions[sid].jsonlPath == None
              && (s == sid || Some(s) == wid) && st.sessions[s].jsonlPath == None
           then st.sessions[s].(jsonlPath := found) else st.sessions[s]
  {
  }

  /** Who is present after a hook, and what is still pending. */
  lemma HookPresence(st: State, envelope: Envelope, now: nat, found: Option<string>)
    ensures var st' := NextState(st, HookIn(envelope, now, found), false);
      var sid := envelope.event.sessionId;
      && st'.sessions.Keys == (if envelope.event.SessionEnd? then st.sessions.Keys - {sid}
                               else if envelope.event.ToolStart? || envelope.event.SessionStart?
                                   || envelope.wrapperId.Some?
                               then st.sessions.Keys + {sid} else st.sessions.Keys)
      && st'.pending == map p | p in st.pending && st.pending[p].sessionId != sid :: st.pending[p]
  {
    var sid, wid := envelope.event.sessionId, envelope.wrapperId;
    var linked := st.Link(sid, wid, now);
    LinkEffect(st, sid, wid, now);
    DismissEffect(linked, sid, now);
    var dismissed := linked.Dismiss(sid, now);
    ApplyEffect(dismissed, envelope.event, now);
    PopulateEffect(dismissed.ApplyHookEvent(envelope.event, now), sid, wid, found);
  }

  /** One session through the four stages of a hook: linked, settled, acted on, given a path. */
  function Settled(st: State, envelope: Envelope, now: nat, s: string): Session {
    var sid, old_ := envelope.event.sessionId, if s in st.sessions then st.sessions[s] else NewSession(s, now);
    var parent := ParentAfterHook(st, sid, envelope.wrapperId);
    var linked := if s == sid then old_.(parentWrapperId := parent) else old_;
    if HadRequests(st, sid) && linked.status == NeedsInput && (s == sid || parent == Some(s))
    then linked.(status := Idle, lastStatusChange := now) else linked
  }

  function Pathed(st: State, envelope: Envelope, found: Option<string>, s: string, acted: Session): Session {
    var sid := envelope.event.sessionId;
    if found.Some? && (s == sid || Some(s) == envelope.wrapperId) && acted.jsonlPath == None
       && !envelope.event.SessionEnd? && (sid in st.sessions ==> st.sessions[sid].jsonlPath == None)
       && (sid in st.sessions || envelope.wrapperId.Some? || envelope.event.ToolStart? || envelope.event.SessionStart?)
    then acted.(jsonlPath := found) else acted
  }

  lemma LinkedAndSettled(st: State, envelope: Envelope, now: nat, s: string)
    ensures var sid, wid := envelope.event.sessionId, envelope.wrapperId;
      var mid := st.Link(sid, wid, now).Dismiss(sid, now);
      && mid.sessions.Keys == st.sessions.Keys + (if wid.Some? then {sid} else {})
      && (forall p :: p in mid.pending ==> mid.pending[p].sessionId != sid)
      && (s in mid.sessions ==> mid.sessions[s] == Settled(st, envelope, now, s))
  {
    var sid, wid := envelope.event.sessionId, envelope.wrapperId;
    LinkEffect(st, sid, wid, now);
    DismissEffect(st.Link(sid, wid, now), sid, now);
  }

  lemma ActedAndPathed(mid: State, event: HookEvent, wid: Option<string>, now: nat, found: Option<string>, s: string)
    requires forall p :: p in mid.pending ==> mid.pending[p].sessionId != event.sessionId
    requires s in mid.ApplyHookEvent(event, now).sessions
    ensures var sid, applied := event.sessionId, mid.ApplyHookEvent(event, now);
      var st' := applied.PopulatePath(sid, wid, found);
      var acted := if s != sid then mid.sessions[s]
                   else Acted(if sid in mid.sessions then mid.sessions[sid] else NewSession(sid, now), event, now);
      && s in st'.sessions && (s != sid ==> s in mid.sessions)
      && st'.sessions[s] ==
         if found.Some? && (s == sid || Some(s) == wid) && acted.jsonlPath == None && sid in applied.sessions
            && (sid in mid.sessions ==> mid.sessions[sid].jsonlPath == None)
         then acted.(jsonlPath := found) else acted
  {
    ApplyEffect(mid, event, now);
    PopulateEffect(mid.ApplyHookEvent(event, now), event.sessionId, wid, found);
  }

  lemma HookSession(st: State, envelope: Envelope, now: nat, found: Option<string>, s: string)
    requires var st' := NextState(st, HookIn(envelope, now, found), false); s in st'.sessions
    ensures var st' := NextState(st, HookIn(envelope, now, found), false);
      var settled := Settled(st, envelope, now, s);
      st'.sessions[s]
      == Pathed(st, envelope, found, s, if s == envelope.event.sessionId then Acted(settled, envelope.event, now) else settled)
  {
    var sid, wid, event := envelope.event.sessionId, envelope.wrapperId, envelope.event;
    var mid := st.Link(sid, wid, now).Dismiss(sid, now);
    HookPresence(st, envelope, now, found);
    LinkedAndSettled(st, envelope, now, s);
    LinkedAndSettled(st, envelope, now, sid);
    ApplyEffect(mid, event, now);
    ActedAndPathed(mid, event, wid, now, found, s);
  }

  /** The status of every session after a hook: a tool makes its session work,
      a stop makes it idle; any other hook, and every other session, only loses
      its wait for the requests that the hook answers, as does the wrapper. */
  lemma HookStatus(st: State, envelope: Envelope, now: nat, found: Option<string>, s: string)
    requires var st' := NextState(st, HookIn(envelope, now, found), false); s in st'.sessions
    ensures var st' := NextState(st, HookIn(envelope, now, found), false);
      var sid, asked := envelope.event.sessionId, HadRequests(st, envelope.event.sessionId);
      && (s == sid && envelope.event.ToolStart? ==> st'.sessions[s].status == Working)
      && (s == sid && envelope.event.Stop? ==> st'.sessions[s].status == Idle)
      && (s == sid && !envelope.event.ToolStart? && !envelope.event.Stop? ==>
            st'.sessions[s].status == if s !in st.sessions then Idle
                                      else if asked && st.sessions[s].status == NeedsInput then Idle
                                      else st.sessions[s].status)
      && (s != sid ==>
            && s in st.sessions
            && st'.sessions[s].status ==
               if asked && ParentAfterHook(st, sid, envelope.wrapperId) == Some(s)
                   && st.sessions[s].status == NeedsInput
               then Idle else st.sessions[s].status)
      && st'.sessions[s].lastStatusChange ==
         if s in st.sessions && st.sessions[s].status
             == st'.sessions[s].status then st.sessions[s].lastStatusChange else now
  {
    HookPresence(st, envelope, now, found);
    HookSession(st, envelope, now, found, s);
  }

  function ToolAfter(tool: Option<Tool>, event: HookEvent): Option<Tool> {
    match event
    case ToolStart(_, name, detail, useId) => Some(Tool(name, detail, useId))
    case ToolEnd(_, useId) => if tool.Some? && tool.value.useId == useId then None else tool
    case Stop(_) => None
    case _ => tool
  }

  /** The fields of session `s` that a hook may change, other than its status. */
  ghost predicate Details(st: State, envelope: Envelope, now: nat, found: Option<string>, s: string, new_: Session,
                          present: bool) {
    var event, sid, wid := envelope.event, envelope.event.sessionId, envelope.wrapperId;
    var old_ := if s in st.sessions then st.sessions[s] else NewSession(s, now);
    && new_.parentWrapperId == (if s == sid then ParentAfterHook(st, sid, wid) else old_.parentWrapperId)
    && new_.cwd == (if s == sid && event.SessionStart? && event.cwd.Some? then event.cwd else old_.cwd)
    && new_.activeTool == (if s == sid then ToolAfter(old_.activeTool, event) else old_.activeTool)
    && new_.jsonlPath ==
       if old_.jsonlPath == None && (s == sid || wid == Some(s)) && present
          && (sid !in st.sessions || st.sessions[sid].jsonlPath == None)
       then found else old_.jsonlPath
  }

  /** The fields no hook touches. */
  ghost predicate Kept(old_: Session, new_: Session) {
    && new_.sessionId == old_.sessionId && new_.isMain == old_.isMain && new_.agent == old_.agent
    && new_.projectName == old_.projectName && new_.branch == old_.branch
    && new_.promptSuggestion == old_.promptSuggestion && new_.thinkingText == old_.thinkingText
    && new_.hasPendingQuestion == old_.hasPendingQuestion && new_.questionText == old_.questionText
  }

  lemma SettledFields(st: State, envelope: Envelope, now: nat, s: string)
    ensures var old_, new_ :=
            if s in st.sessions then st.sessions[s] else NewSession(s, now), Settled(st, envelope, now, s);
      && Kept(old_, new_) && new_.cwd == old_.cwd && new_.activeTool == old_.activeTool
          && new_.jsonlPath == old_.jsonlPath
      && new_.parentWrapperId == if s == envelope.event.sessionId
                                 then ParentAfterHook(st, s, envelope.wrapperId) else old_.parentWrapperId
  {
  }

  lemma ActedFields(s: Session, event: HookEvent, now: nat)
    ensures var s' := Acted(s, event, now);
      && Kept(s, s') && s'.activeTool == ToolAfter(s.activeTool, event)
      && s'.jsonlPath == s.jsonlPath && s'.parentWrapperId == s.parentWrapperId
      && s'.cwd == if event.SessionStart? && event.cwd.Some? then event.cwd else s.cwd
  {
  }

  /** The other fields after a hook: only the session it is about, and the
      missing transcript path of its wrapper, can change. */
  lemma HookDetails(st: State, envelope: Envelope, now: nat, found: Option<string>, s: string)
    requires s in NextState(st, HookIn(envelope, now, found), false).sessions
    ensures var st' := NextState(st, HookIn(envelope, now, found), false);
      && Details(st, envelope, now, found, s, st'.sessions[s], envelope.event.sessionId in st'.sessions)
      && Kept(if s in st.sessions then st.sessions[s] else NewSession(s, now), st'.sessions[s])
  {
    HookPresence(st, envelope, now, found);
    HookSession(st, envelope, now, found, s);
    SettledFields(st, envelope, now, s);
    ActedFields(Settled(st, envelope, now, s), envelope.event, now);
  }

  /** A session no one has heard of before starts idle, unlinked and unnamed. */
  lemma NewSessionInFull(sid: string, now: nat)
    ensures var s := NewSession(sid, now);
      && s.sessionId == sid && s.status == Idle && s.lastStatusChange == now && !s.isMain && s.parentWrapperId == None
      && s.cwd == None && s.projectName == "" && s.branch == "" && s.activeTool == None && s.jsonlPath == None
      && !s.hasPendingQuestion && s.questionText == None && s.agent == None
      && s.promptSuggestion == None && s.thinkingText == None
  {
  }

  // ------------------------------------------------------------ clients' messages

  /** A request makes its session and that session's wrapper wait; nothing else changes. */
  lemma RequestEffect(st: State, perm: Permission, now: nat, s: string)
    requires s in st.sessions
    ensures var st' := NextState(st, RequestIn(perm, now), false);
      && st'.sessions.Keys == st.sessions.Keys && st'.pending == st.pending[perm.requestId := perm]
      && var asked := s == perm.sessionId
                      || (perm.sessionId in st.sessions && st.sessions[perm.sessionId].parentWrapperId == Some(s));
         st'.sessions[s] == if asked && st.sessions[s].status != NeedsInput
                            then st.sessions[s].(status := NeedsInput, lastStatusChange := now) else st.sessions[s]
  {
  }

  /** An answer ends the wait of the session and its wrapper when it was the
      last request of the session; nothing else changes. */
  lemma ResponseEffect(st: State, rid: string, decision: string, suggestion: Option<string>, now: nat, s: string)
    requires s in st.sessions
    ensures var st' := NextState(st, ResponseIn(rid, decision, suggestion, now), false);
      && st'.sessions.Keys == st.sessions.Keys && st'.pending == st.pending - {rid}
      && var settled := && rid in st.pending && st.sessions[s].status == NeedsInput
                        && var sid := st.pending[rid].sessionId;
                        && (s == sid || (sid in st.sessions && st.sessions[sid].parentWrapperId == Some(s)))
                        && forall p :: p in st.pending && p != rid ==> st.pending[p].sessionId != sid;
         st'.sessions[s] == if settled then st.sessions[s].(status := Idle, lastStatusChange := now) else st.sessions[s]
  {
    if rid in st.pending {
      var sid := st.pending[rid].sessionId;
      var less := st.(pending := st.pending - {rid});
      if p :| p in st.pending && p != rid && st.pending[p].sessionId == sid {
        assert p in less.PendingFor(sid);
      } else {
        assert less.PendingFor(sid) == {};
      }
    }
  }

  /** A wrapper that registers becomes a main session under what it says of
      itself; nothing else changes. */
  lemma RegisterEffect(st: State, sid: string, info: WrapperInfo, channel: nat, now: nat)
    ensures var st' := NextState(st, RegisterIn(sid, info, channel, now), false);
      var old_ := if sid in st.sessions then st.sessions[sid] else NewSession(sid, now);
      && st'.sessions.Keys == st.sessions.Keys + {sid} && st'.pending == st.pending
      && (forall s :: s in st.sessions && s != sid ==> st'.sessions[s] == st.sessions[s])
      && var path := if old_.jsonlPath == None && info.realSessionId.Some? then info.foundPath else old_.jsonlPath;
         st'.sessions[sid] ==
         old_.(isMain := true, agent := Some(info.agent), jsonlPath := path,
               cwd := if info.cwd == None then old_.cwd else info.cwd,
               branch := if info.branch == None then old_.branch else info.branch.value,
               projectName := if info.projectName == None then old_.projectName else info.projectName.value)
  {
  }

  /** A wrapper goes with every session linked to it and all their requests. */
  lemma UnregisterEffect(st: State, wid: string)
    ensures var st' := NextState(st, UnregisterIn(wid), false);
      && (forall s :: s in st'.sessions <==> s in st.sessions && s != wid && st.sessions[s].parentWrapperId != Some(wid))
      && (forall s :: s in st'.sessions ==> st'.sessions[s] == st.sessions[s])
      && (forall p :: p in st'.pending <==>
            p in st.pending
            && var sid := st.pending[p].sessionId;
               sid in st.sessions ==> sid != wid && st.sessions[sid].parentWrapperId != Some(wid))
      && (forall p :: p in st'.pending ==> st'.pending[p] == st.pending[p])
  {
  }

  /** What a wrapper reports about itself is stored, and nothing else changes. */
  lemma ReportEffect(st: State, sid: string, text: Option<string>, s: string)
    requires s in st.sessions
    ensures var st' := NextState(st, SuggestionIn(sid, text), false);
      && st'.sessions.Keys == st.sessions.Keys && st'.pending == st.pending
      && st'.sessions[s] == if s == sid then st.sessions[s].(promptSuggestion := text) else st.sessions[s]
    ensures var st' := NextState(st, ThinkingIn(sid, text), false);
      && st'.sessions.Keys == st.sessions.Keys && st'.pending == st.pending
      && st'.sessions[s] == if s == sid then st.sessions[s].(thinkingText := text) else st.sessions[s]
  {
  }

  /** A prompt that went out makes the session it names work. */
  lemma PromptEffect(st: State, sid: string, now: nat, prompted: bool, s: string)
    requires s in st.sessions
    ensures var st' := NextState(st, PromptIn(sid, now), prompted);
      && st'.sessions.Keys == st.sessions.Keys && st'.pending == st.pending
      && st'.sessions[s] == if prompted && s == sid && st.sessions[s].status != Working
                            then st.sessions[s].(status := Working, lastStatusChange := now) else st.sessions[s]
  {
  }
}
