/** The serialisable session list sent to clients: `build_dash_sessions`. The
    two hash tables are visited in arbitrary orders, passed as parameters. */
module DashView {
  import opened Wrappers
  import opened SessionState

  datatype InputReason = Question(text: Option<string>) | PermissionReason(tool: string, detail: string)

  datatype ActiveTool = ActiveTool(name: string, detail: string)

  datatype DashSession = DashSession(
    sessionId: string,
    projectName: string,
    branch: string,
    status: string,
    lastStatusChange: nat,
    jsonlPath: Option<string>,
    inputReason: Option<InputReason>,
    activeTool: Option<ActiveTool>,
    subagentCount: nat,
    promptSuggestion: Option<string>,
    thinkingText: Option<string>)

  // ------------------------------------------------------------ order

  /** Strict lexicographic order on strings. */
  predicate StrLess(a: string, b: string) {
    if b == [] then false
    else if a == [] then true
    else a[0] < b[0] || (a[0] == b[0] && StrLess(a[1..], b[1..]))
  }

  lemma {:induction false} StrLessTransitive(a: string, b: string, c: string)
    requires StrLess(a, b) && StrLess(b, c)
    ensures StrLess(a, c)
  {
    if a != [] && a[0] == b[0] == c[0] {
      StrLessTransitive(a[1..], b[1..], c[1..]);
    }
  }

  lemma {:induction false} StrLessTotal(a: string, b: string)
    ensures StrLess(a, b) || a == b || StrLess(b, a)
    ensures !(StrLess(a, b) && StrLess(b, a)) && !StrLess(a, a)
  {
    if a == [] {
    } else {
      StrLessTotal(a[1..], a[1..]);
      if b != [] {
        StrLessTotal(a[1..], b[1..]);
        assert a == [a[0]] + a[1..] && b == [b[0]] + b[1..];
      }
    }
  }

  predicate Before(a: DashSession, b: DashSession) {
    StrLess(a.status, b.status) || (a.status == b.status && StrLess(a.sessionId, b.sessionId))
  }

  lemma BeforeTransitive(a: DashSession, b: DashSession, c: DashSession)
    requires Before(a, b) && Before(b, c)
    ensures Before(a, c)
  {
    if StrLess(a.status, b.status) && StrLess(b.status, c.status) {
      StrLessTransitive(a.status, b.status, c.status);
    } else if a.status == b.status == c.status {
      StrLessTransitive(a.sessionId, b.sessionId, c.sessionId);
    }
  }

  lemma BeforeTotal(a: DashSession, b: DashSession)
    ensures a.sessionId != b.sessionId ==> Before(a, b) || Before(b, a)
    ensures !(Before(a, b) && Before(b, a)) && !Before(a, a)
  {
    StrLessTotal(a.status, b.status);
    StrLessTotal(a.sessionId, b.sessionId);
    StrLessTotal(a.status, a.status);
    StrLessTotal(a.sessionId, a.sessionId);
  }

  predicate Ordered(list: seq<DashSession>) {
    forall i, j :: 0 <= i < j < |list| ==> Before(list[i], list[j])
  }

  /** Insertion into an ordered list: stands for the library's comparison sort. */
  function Insert(d: DashSession, list: seq<DashSession>): seq<DashSession> {
    if list == [] || Before(d, list[0]) then [d] + list else [list[0]] + Insert(d, list[1..])
  }

  function Sort(list: seq<DashSession>): seq<DashSession> {
    if list == [] then [] else Insert(list[0], Sort(list[1..]))
  }

  lemma {:induction false} InsertKeepsOrder(d: DashSession, list: seq<DashSession>)
    requires Ordered(list)
    requires forall i :: 0 <= i < |list| ==> list[i].sessionId != d.sessionId
    ensures Ordered(Insert(d, list))
    ensures multiset(Insert(d, list)) == multiset(list) + multiset{d}
  {
    if list == [] {
    } else if Before(d, list[0]) {
      forall i | 0 < i < |list| ensures Before(d, list[i]) {
        BeforeTransitive(d, list[0], list[i]);
      }
    } else {
      BeforeTotal(d, list[0]);
      var rest := Insert(d, list[1..]);
      InsertKeepsOrder(d, list[1..]);
      assert list == [list[0]] + list[1..];
      forall i | 0 <= i < |rest| ensures Before(list[0], rest[i]) {
        assert rest[i] in multiset(rest);
        assert rest[i] == d || rest[i] in multiset(list[1..]);
      }
    }
  }

  lemma {:induction false} SortOrders(list: seq<DashSession>)
    requires forall i, j :: 0 <= i < j < |list| ==> list[i].sessionId != list[j].sessionId
    ensures Ordered(Sort(list))
    ensures multiset(Sort(list)) == multiset(list)
  {
    if list == [] {
    } else {
      SortOrders(list[1..]);
      assert list == [list[0]] + list[1..];
      var rest := Sort(list[1..]);
      forall i | 0 <= i < |rest| ensures rest[i].sessionId != list[0].sessionId {
        assert rest[i] in multiset(rest);
        assert rest[i] in list[1..];
      }
      InsertKeepsOrder(list[0], rest);
    }
  }

  // ------------------------------------------------------------ rendering

  predicate Selected(st: State, includeSubagents: bool, sid: string) {
    sid in st.sessions && (includeSubagents || st.sessions[sid].isMain)
  }

  function Subagents(st: State, sid: string): set<string> {
    set k | k in st.sessions && st.sessions[k].parentWrapperId == Some(sid)
  }

  /** The first permission, in visiting order, shown on session `sid`. */
  function FirstSupport(st: State, sid: string, pendingOrder: seq<string>): Option<InputReason> {
    if pendingOrder == [] then None
    else if st.Supports(pendingOrder[0], sid) then
      var perm := st.pending[pendingOrder[0]];
      Some(PermissionReason(perm.tool, perm.detail))
    else FirstSupport(st, sid, pendingOrder[1..])
  }

  function ToolView(s: Session): Option<ActiveTool> {
    match s.activeTool
    case None => None
    case Some(tool) => Some(ActiveTool(tool.name, tool.detail))
  }

  function Render(st: State, s: Session, pendingOrder: seq<string>): DashSession {
    var reason := if s.hasPendingQuestion then Some(Question(s.questionText))
                  else FirstSupport(st, s.sessionId, pendingOrder);
    DashSession(s.sessionId, s.projectName, s.branch, s.status.AsStr(), s.lastStatusChange, s.jsonlPath,
                reason, ToolView(s), |Subagents(st, s.sessionId)|, s.promptSuggestion, s.thinkingText)
  }

  function Collect(st: State, includeSubagents: bool, sessionOrder: seq<string>, pendingOrder: seq<string>)
    : seq<DashSession>
  {
    if sessionOrder == [] then []
    else
      var rest := Collect(st, includeSubagents, sessionOrder[1..], pendingOrder);
      if Selected(st, includeSubagents, sessionOrder[0]) then
        [Render(st, st.sessions[sessionOrder[0]], pendingOrder)] + rest
      else rest
  }

  function Dash(st: State, includeSubagents: bool, sessionOrder: seq<string>, pendingOrder: seq<string>)
    : seq<DashSession>
  {
    Sort(Collect(st, includeSubagents, sessionOrder, pendingOrder))
  }

  // ------------------------------------------------------------ meaning

  /** `d` shows the session filed under its id; the input reason, when it comes
      from a permission, is some permission that supports the session. */
  ghost predicate Shows(st: State, d: DashSession) {
    && d.sessionId in st.sessions
    && var s := st.sessions[d.sessionId];
    && d == DashSession(d.sessionId, s.projectName, s.branch, s.status.AsStr(), s.lastStatusChange, s.jsonlPath,
                        d.inputReason, ToolView(s), |Subagents(st, d.sessionId)|, s.promptSuggestion, s.thinkingText)
    && (match d.inputReason
        case None => !s.hasPendingQuestion && forall p :: !st.Supports(p, d.sessionId)
        case Some(Question(text)) => s.hasPendingQuestion && text == s.questionText
        case Some(PermissionReason(tool, detail)) =>
          && !s.hasPendingQuestion
          && exists p :: st.Supports(p, d.sessionId) && st.pending[p].tool == tool && st.pending[p].detail == detail)
  }

  /** `list` is a faithful client view: strictly ordered by (status, id), and
      showing exactly the selected sessions. */
  ghost predicate IsDashView(st: State, includeSubagents: bool, list: seq<DashSession>) {
    && Ordered(list)
    && (forall i :: 0 <= i < |list| ==> Shows(st, list[i]) && Selected(st, includeSubagents, list[i].sessionId))
    && (forall sid :: Selected(st, includeSubagents, sid) ==> exists i :: 0 <= i < |list| && list[i].sessionId == sid)
  }

  lemma {:induction false} FirstSupportFinds(st: State, sid: string, pendingOrder: seq<string>)
    requires forall id :: id in st.pending ==> id in pendingOrder || !st.Supports(id, sid)
    ensures match FirstSupport(st, sid, pendingOrder)
            case None => forall p :: !st.Supports(p, sid)
            case Some(Question(_)) => false
            case Some(PermissionReason(tool, detail)) =>
              exists p :: st.Supports(p, sid) && st.pending[p].tool == tool && st.pending[p].detail == detail
  {
    if pendingOrder != [] && !st.Supports(pendingOrder[0], sid) {
      forall id | id in st.pending ensures id in pendingOrder[1..] || !st.Supports(id, sid) {
        if id in pendingOrder {
          var i :| 0 <= i < |pendingOrder| && pendingOrder[i] == id;
          assert i == 0 || pendingOrder[1..][i - 1] == id;
        }
      }
      FirstSupportFinds(st, sid, pendingOrder[1..]);
    }
  }

  lemma RenderShows(st: State, sid: string, pendingOrder: seq<string>)
    requires st.WellFormed() && Enumerates(pendingOrder, st.pending.Keys) && sid in st.sessions
    ensures Shows(st, Render(st, st.sessions[sid], pendingOrder))
    ensures Render(st, st.sessions[sid], pendingOrder).sessionId == sid
  {
    FirstSupportFinds(st, sid, pendingOrder);
  }

  /** `list` shows exactly the selected sessions of `order`, once each. */
  ghost predicate Collected(st: State, includeSubagents: bool, order: seq<string>, list: seq<DashSession>) {
    && (forall d :: d in list ==> Shows(st, d) && Selected(st, includeSubagents, d.sessionId) && d.sessionId in order)
    && (forall i, j :: 0 <= i < j < |list| ==> list[i].sessionId != list[j].sessionId)
    && (forall sid :: sid in order && Selected(st, includeSubagents, sid) ==> exists d :: d in list && d.sessionId == sid)
  }

  lemma PrependCollected(st: State, includeSubagents: bool, head: string, tail: seq<string>, d: DashSession,
                         rest: seq<DashSession>)
    requires Collected(st, includeSubagents, tail, rest) && head !in tail
    requires Shows(st, d) && d.sessionId == head && Selected(st, includeSubagents, head)
    ensures Collected(st, includeSubagents, [head] + tail, [d] + rest)
  {
  }

  lemma SkipCollected(st: State, includeSubagents: bool, head: string, tail: seq<string>, rest: seq<DashSession>)
    requires Collected(st, includeSubagents, tail, rest) && !Selected(st, includeSubagents, head)
    ensures Collected(st, includeSubagents, [head] + tail, rest)
  {
  }

  lemma {:induction false} CollectShows(st: State, includeSubagents: bool, order: seq<string>,
                                        pendingOrder: seq<string>)
    requires st.WellFormed() && Enumerates(pendingOrder, st.pending.Keys)
    requires forall i, j :: 0 <= i < j < |order| ==> order[i] != order[j]
    ensures Collected(st, includeSubagents, order, Collect(st, includeSubagents, order, pendingOrder))
  {
    if order == [] {
    } else {
      var head, tail := order[0], order[1..];
      var rest := Collect(st, includeSubagents, tail, pendingOrder);
      CollectShows(st, includeSubagents, tail, pendingOrder);
      assert order == [head] + tail;
      assert head !in tail;
      if Selected(st, includeSubagents, head) {
        var d := Render(st, st.sessions[head], pendingOrder);
        RenderShows(st, head, pendingOrder);
        PrependCollected(st, includeSubagents, head, tail, d, rest);
      } else {
        SkipCollected(st, includeSubagents, head, tail, rest);
      }
    }
  }

  /** The list built from any visiting order is a faithful view. */
  lemma DashIsView(st: State, includeSubagents: bool, sessionOrder: seq<string>, pendingOrder: seq<string>)
    requires st.WellFormed()
    requires Enumerates(sessionOrder, st.sessions.Keys) && Enumerates(pendingOrder, st.pending.Keys)
    ensures IsDashView(st, includeSubagents, Dash(st, includeSubagents, sessionOrder, pendingOrder))
  {
    var raw := Collect(st, includeSubagents, sessionOrder, pendingOrder);
    var list := Sort(raw);
    CollectShows(st, includeSubagents, sessionOrder, pendingOrder);
    SortOrders(raw);
    forall i | 0 <= i < |list|
      ensures Shows(st, list[i]) && Selected(st, includeSubagents, list[i].sessionId)
    {
      assert list[i] in multiset(list);
      assert list[i] in raw;
    }
    forall sid | Selected(st, includeSubagents, sid)
      ensures exists i :: 0 <= i < |list| && list[i].sessionId == sid
    {
      var d :| d in raw && d.sessionId == sid;
      assert d in multiset(list);
      assert d in list;
    }
  }

  // ------------------------------------------------------------ consequences

  /** A permission is shown on its own session and on the wrapper that is linked to. */
  ghost predicate AskedOn(st: State, perm: Permission, sid: string) {
    perm.sessionId == sid
    || (perm.sessionId in st.sessions && st.sessions[perm.sessionId].parentWrapperId == Some(sid))
  }

  ghost predicate EntryInFull(st: State, d: DashSession) {
    && d.sessionId in st.sessions
    && var s := st.sessions[d.sessionId];
    && d.projectName == s.projectName && d.branch == s.branch && d.jsonlPath == s.jsonlPath
    && d.lastStatusChange == s.lastStatusChange
    && d.promptSuggestion == s.promptSuggestion && d.thinkingText == s.thinkingText
    && (s.status == NeedsInput ==> d.status == "needs_input") && (s.status == Working ==> d.status == "working")
    && (s.status == Idle ==> d.status == "idle") && (s.status == Ended ==> d.status == "ended")
    && (s.activeTool == None ==> d.activeTool == None)
    && (s.activeTool.Some? ==> d.activeTool == Some(ActiveTool(s.activeTool.value.name, s.activeTool.value.detail)))
    && d.subagentCount == |set k | k in st.sessions && st.sessions[k].parentWrapperId == Some(d.sessionId)|
    && (s.hasPendingQuestion ==> d.inputReason == Some(Question(s.questionText)))
    && (!s.hasPendingQuestion ==>
          if exists p :: p in st.pending && AskedOn(st, st.pending[p], d.sessionId)
          then exists p :: p in st.pending && AskedOn(st, st.pending[p], d.sessionId)
                           && d.inputReason == Some(PermissionReason(st.pending[p].tool, st.pending[p].detail))
          else d.inputReason == None)
  }

  lemma ShownInFull(st: State, d: DashSession)
    requires Shows(st, d)
    ensures EntryInFull(st, d)
  {
    assert Subagents(st, d.sessionId) == set k | k in st.sessions
        && st.sessions[k].parentWrapperId == Some(d.sessionId);
    forall p | p in st.pending ensures AskedOn(st, st.pending[p], d.sessionId) <==> st.Supports(p, d.sessionId) {
    }
  }

  /** A view in full: exactly the main sessions, or all of them, each under its
      own data, its status by name, and the number of sessions linked to it. */
  lemma ViewInFull(st: State, includeSubagents: bool, list: seq<DashSession>)
    requires IsDashView(st, includeSubagents, list)
    ensures forall sid :: (exists i :: 0 <= i < |list| && list[i].sessionId == sid)
                          <==> sid in st.sessions && (includeSubagents || st.sessions[sid].isMain)
    ensures forall i :: 0 <= i < |list| ==> EntryInFull(st, list[i])
  {
    forall sid ensures (exists i :: 0 <= i < |list| && list[i].sessionId == sid)
                       <==> sid in st.sessions && (includeSubagents || st.sessions[sid].isMain)
    {
      assert Selected(st, includeSubagents, sid)
          <==> sid in st.sessions && (includeSubagents || st.sessions[sid].isMain);
    }
    forall i | 0 <= i < |list| ensures EntryInFull(st, list[i]) {
      ShownInFull(st, list[i]);
    }
  }

  function WithoutReason(d: DashSession): DashSession {
    d.(inputReason := None)
  }

  function WithoutReasons(list: seq<DashSession>): seq<DashSession> {
    seq(|list|, i requires 0 <= i < |list| => WithoutReason(list[i]))
  }

  lemma TailMembers(list: seq<DashSession>)
    requires Ordered(list) && list != []
    ensures forall d :: d in list[1..] <==> d in list && d != list[0]
  {
    BeforeTotal(list[0], list[0]);
    forall d ensures d in list[1..] <==> d in list && d != list[0] {
      if d in list && d != list[0] {
        var i :| 0 <= i < |list| && list[i] == d;
        assert list[1..][i - 1] == d;
      }
    }
  }

  lemma {:induction false} OrderedListsCoincide(a: seq<DashSession>, b: seq<DashSession>)
    requires Ordered(a) && Ordered(b)
    requires forall d :: d in a <==> d in b
    ensures a == b
  {
    assert b != [] ==> b[0] in a;
    assert a != [] ==> a[0] in b;
    if a != [] {
      BeforeTotal(a[0], b[0]);
      assert a[0] == b[0];
      assert a == [a[0]] + a[1..] && b == [b[0]] + b[1..];
      TailMembers(a);
      TailMembers(b);
      OrderedListsCoincide(a[1..], b[1..]);
    }
  }

  lemma ViewContains(st: State, includeSubagents: bool, a: seq<DashSession>, b: seq<DashSession>, d: DashSession)
    requires IsDashView(st, includeSubagents, a) && IsDashView(st, includeSubagents, b)
    requires d in WithoutReasons(a)
    ensures d in WithoutReasons(b)
  {
    var i :| 0 <= i < |a| && d == WithoutReasons(a)[i];
    assert Selected(st, includeSubagents, a[i].sessionId);
    var j :| 0 <= j < |b| && b[j].sessionId == a[i].sessionId;
    assert WithoutReasons(b)[j] == d;
  }

  /** Hash-table order is invisible except in which of several pending
      permissions is named: any two faithful views agree on everything else,
      entry by entry. */
  lemma ViewsAgree(st: State, includeSubagents: bool, a: seq<DashSession>, b: seq<DashSession>)
    requires IsDashView(st, includeSubagents, a) && IsDashView(st, includeSubagents, b)
    ensures WithoutReasons(a) == WithoutReasons(b)
  {
    forall d ensures d in WithoutReasons(a) <==> d in WithoutReasons(b) {
      if d in WithoutReasons(a) {
        ViewContains(st, includeSubagents, a, b, d);
      }
      if d in WithoutReasons(b) {
        ViewContains(st, includeSubagents, b, a, d);
      }
    }
    OrderedListsCoincide(WithoutReasons(a), WithoutReasons(b));
  }

  /** Session `a` is listed before session `b`: its status string is smaller,
      or the same and its id is. */
  predicate Precedes(st: State, a: string, b: string)
    requires a in st.sessions && b in st.sessions
  {
    var x, y := st.sessions[a].status.AsStr(), st.sessions[b].status.AsStr();
    StrLess(x, y) || (x == y && StrLess(a, b))
  }

  ghost function SelectedBefore(st: State, includeSubagents: bool, sid: string): set<string>
    requires sid in st.sessions
  {
    set k | k in st.sessions && Selected(st, includeSubagents, k) && Precedes(st, k, sid)
  }

  ghost function Listed(list: seq<DashSession>): set<string> {
    set i | 0 <= i < |list| :: list[i].sessionId
  }

  lemma ListedSnoc(front: seq<DashSession>, last: DashSession)
    ensures Listed(front + [last]) == Listed(front) + {last.sessionId}
  {
    var list := front + [last];
    assert list[|front|] == last;
    forall sid | sid in Listed(front) ensures sid in Listed(list) {
      var i :| 0 <= i < |front| && front[i].sessionId == sid;
      assert list[i].sessionId == sid;
    }
  }

  ghost predicate DistinctIds(list: seq<DashSession>) {
    forall i, j :: 0 <= i < j < |list| ==> list[i].sessionId != list[j].sessionId
  }

  lemma LastIsNew(front: seq<DashSession>, last: DashSession)
    requires DistinctIds(front + [last])
    ensures last.sessionId !in Listed(front) && DistinctIds(front)
  {
    var list := front + [last];
    forall i | 0 <= i < |front| ensures front[i].sessionId != last.sessionId {
      assert list[i] == front[i] && list[|front|] == last;
    }
    forall i, j | 0 <= i < j < |front| ensures front[i].sessionId != front[j].sessionId {
      assert list[i] == front[i] && list[j] == front[j];
    }
  }

  lemma {:induction false} DistinctCount(list: seq<DashSession>)
    requires DistinctIds(list)
    ensures |Listed(list)| == |list|
  {
    if list == [] {
    } else {
      var front, last := list[..|list| - 1], list[|list| - 1];
      assert list == front + [last];
      LastIsNew(front, last);
      DistinctCount(front);
      ListedSnoc(front, last);
    }
  }

  lemma EntryBefore(st: State, includeSubagents: bool, list: seq<DashSession>, i: nat, j: nat)
    requires IsDashView(st, includeSubagents, list) && i < |list| && j < |list|
    ensures list[i].sessionId in st.sessions && list[j].sessionId in st.sessions
    ensures j < i <==> Precedes(st, list[j].sessionId, list[i].sessionId)
  {
    assert Shows(st, list[i]) && Shows(st, list[j]);
    assert Before(list[j], list[i]) <==> Precedes(st, list[j].sessionId, list[i].sessionId);
    if j < i {
      assert Before(list[j], list[i]);
    } else if i < j {
      assert Before(list[i], list[j]);
      if Before(list[j], list[i]) {
        BeforeTransitive(list[i], list[j], list[i]);
        BeforeTotal(list[i], list[i]);
      }
    } else {
      BeforeTotal(list[i], list[i]);
    }
  }

  /** The entry tells the session's status and the size of its family. */
  ghost predicate Tallied(st: State, d: DashSession) {
    && d.sessionId in st.sessions && d.status == st.sessions[d.sessionId].status.AsStr()
    && d.subagentCount == |Subagents(st, d.sessionId)|
  }

  lemma OrderedDistinct(st: State, list: seq<DashSession>)
    requires Ordered(list)
    requires forall i :: 0 <= i < |list| ==> Tallied(st, list[i])
    ensures DistinctIds(list)
  {
    forall i, j | 0 <= i < j < |list| ensures list[i].sessionId != list[j].sessionId {
      assert Before(list[i], list[j]) && Tallied(st, list[i]) && Tallied(st, list[j]);
      StrLessTotal(list[i].sessionId, list[i].sessionId);
      StrLessTotal(list[i].status, list[i].status);
    }
  }

  /** The place of a session in a view is the number of selected sessions that
      precede it. */
  lemma ViewPlaces(st: State, includeSubagents: bool, list: seq<DashSession>, i: nat)
    requires IsDashView(st, includeSubagents, list) && i < |list|
    ensures list[i].sessionId in st.sessions
    ensures i == |SelectedBefore(st, includeSubagents, list[i].sessionId)|
  {
    var sid := list[i].sessionId;
    EntryBefore(st, includeSubagents, list, i, i);
    forall k ensures k in Listed(list[..i]) <==> k in SelectedBefore(st, includeSubagents, sid) {
      if k in Listed(list[..i]) {
        var j :| 0 <= j < i && list[..i][j].sessionId == k;
        EntryBefore(st, includeSubagents, list, i, j);
      }
      if k in SelectedBefore(st, includeSubagents, sid) {
        var j :| 0 <= j < |list| && list[j].sessionId == k;
        EntryBefore(st, includeSubagents, list, i, j);
        assert list[..i][j].sessionId == k;
      }
    }
    assert Listed(list[..i]) == SelectedBefore(st, includeSubagents, sid);
    forall j | 0 <= j < |list| ensures Tallied(st, list[j]) {
      assert Shows(st, list[j]);
    }
    OrderedDistinct(st, list);
    assert DistinctIds(list[..i]);
    DistinctCount(list[..i]);
  }

  function TotalSubagents(list: seq<DashSession>): nat {
    if list == [] then 0 else list[|list| - 1].subagentCount + TotalSubagents(list[..|list| - 1])
  }

  ghost function ChildrenOf(st: State, parents: set<string>): set<string> {
    set k | k in st.sessions && st.sessions[k].parentWrapperId.Some? && st.sessions[k].parentWrapperId.value in parents
  }

  lemma ChildrenOfOneMore(st: State, parents: set<string>, sid: string)
    requires sid !in parents
    ensures |ChildrenOf(st, parents + {sid})| == |ChildrenOf(st, parents)| + |Subagents(st, sid)|
  {
    assert ChildrenOf(st, parents + {sid}) == ChildrenOf(st, parents) + Subagents(st, sid);
    assert ChildrenOf(st, parents) !! Subagents(st, sid);
  }

  lemma {:induction false} TotalCountsChildren(st: State, list: seq<DashSession>)
    requires DistinctIds(list)
    requires forall i :: 0 <= i < |list| ==> list[i].subagentCount == |Subagents(st, list[i].sessionId)|
    ensures TotalSubagents(list) == |ChildrenOf(st, Listed(list))|
  {
    if list == [] {
      assert ChildrenOf(st, Listed(list)) == {};
    } else {
      var front, last := list[..|list| - 1], list[|list| - 1];
      assert list == front + [last];
      LastIsNew(front, last);
      TotalCountsChildren(st, front);
      ListedSnoc(front, last);
      ChildrenOfOneMore(st, Listed(front), last.sessionId);
    }
  }

  /** In a full list the subagent counts add up to the number of sessions
      whose wrapper is itself present. */
  lemma CountsAddUp(st: State, list: seq<DashSession>)
    requires IsDashView(st, true, list)
    ensures TotalSubagents(list) == |ChildrenOf(st, st.sessions.Keys)|
  {
    forall i | 0 <= i < |list| ensures Tallied(st, list[i]) {
      assert Shows(st, list[i]);
    }
    OrderedDistinct(st, list);
    TotalCountsChildren(st, list);
    assert Listed(list) == st.sessions.Keys by {
      forall k | k in st.sessions ensures k in Listed(list) {
        assert Selected(st, true, k);
      }
    }
  }

  // ------------------------------------------------------------ the loops

  /** The sessions of `visited` that are linked to wrapper `sid`. */
  function VisitedSubagents(st: State, visited: seq<string>, sid: string): set<string> {
    set k | k in visited && k in st.sessions && st.sessions[k].parentWrapperId == Some(sid)
  }

  lemma VisitOne(st: State, visited: seq<string>, k: string, sid: string)
    requires k !in visited && k in st.sessions
    ensures |VisitedSubagents(st, visited + [k], sid)|
            == |VisitedSubagents(st, visited, sid)| + (if st.sessions[k].parentWrapperId == Some(sid) then 1 else 0)
  {
    var linked := if st.sessions[k].parentWrapperId == Some(sid) then {k} else {};
    assert VisitedSubagents(st, visited + [k], sid) == VisitedSubagents(st, visited, sid) + linked;
  }

  function CountOf(counts: map<string, nat>, sid: string): nat {
    if sid in counts then counts[sid] else 0
  }

  ghost predicate CountsVisited(st: State, visited: seq<string>, counts: map<string, nat>) {
    forall sid :: CountOf(counts, sid) == |VisitedSubagents(st, visited, sid)|
  }

  function Counted(counts: map<string, nat>, parent: Option<string>): map<string, nat> {
    match parent
    case None => counts
    case Some(wid) => counts[wid := CountOf(counts, wid) + 1]
  }

  lemma CountOne(st: State, visited: seq<string>, k: string, counts: map<string, nat>)
    requires CountsVisited(st, visited, counts) && k !in visited && k in st.sessions
    ensures CountsVisited(st, visited + [k], Counted(counts, st.sessions[k].parentWrapperId))
  {
    forall sid
      ensures CountOf(Counted(counts, st.sessions[k].parentWrapperId), sid)
              == |VisitedSubagents(st, visited + [k], sid)|
    {
      assert CountOf(counts, sid) == |VisitedSubagents(st, visited, sid)|;
      VisitOne(st, visited, k, sid);
    }
  }

  method CountSubagents(st: State, sessionOrder: seq<string>) returns (counts: map<string, nat>)
    requires Enumerates(sessionOrder, st.sessions.Keys)
    ensures forall sid :: CountOf(counts, sid) == |Subagents(st, sid)|
  {
    counts := map[];
    for i := 0 to |sessionOrder|
      invariant CountsVisited(st, sessionOrder[..i], counts)
    {
      var k := sessionOrder[i];
      assert sessionOrder[..i + 1] == sessionOrder[..i] + [k];
      assert k in st.sessions.Keys;
      CountOne(st, sessionOrder[..i], k, counts);
      var parent := st.sessions[k].parentWrapperId;
      if parent.Some? {
        counts := counts[parent.value := CountOf(counts, parent.value) + 1];
      }
    }
    forall sid ensures CountOf(counts, sid) == |Subagents(st, sid)| {
      assert sessionOrder[..|sessionOrder|] == sessionOrder;
      assert VisitedSubagents(st, sessionOrder, sid) == Subagents(st, sid);
    }
  }

  method BuildDashSessions(st: State, includeSubagents: bool, sessionOrder: seq<string>, pendingOrder: seq<string>)
    returns (list: seq<DashSession>)
    requires Enumerates(sessionOrder, st.sessions.Keys)
    ensures list == Dash(st, includeSubagents, sessionOrder, pendingOrder)
    ensures st.WellFormed() && Enumerates(pendingOrder, st.pending.Keys) ==> IsDashView(st, includeSubagents, list)
  {
    var counts := CountSubagents(st, sessionOrder);
    list := [];
    var i := |sessionOrder|;
    while i > 0
      invariant 0 <= i <= |sessionOrder|
      invariant list == Collect(st, includeSubagents, sessionOrder[i..], pendingOrder)
    {
      i := i - 1;
      assert sessionOrder[i..][1..] == sessionOrder[i + 1..];
      var s := st.sessions[sessionOrder[i]];
      if includeSubagents || s.isMain {
        var reason := if s.hasPendingQuestion then Some(Question(s.questionText))
                      else FirstSupport(st, s.sessionId, pendingOrder);
        var count := CountOf(counts, s.sessionId);
        list := [DashSession(s.sessionId, s.projectName, s.branch, s.status.AsStr(), s.lastStatusChange, s.jsonlPath,
                             reason, ToolView(s), count, s.promptSuggestion, s.thinkingText)] + list;
      }
    }
    assert sessionOrder[0..] == sessionOrder;
    list := Sort(list);
    if st.WellFormed() && Enumerates(pendingOrder, st.pending.Keys) {
      DashIsView(st, includeSubagents, sessionOrder, pendingOrder);
    }
  }
}
