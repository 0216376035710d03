/** Installing hooks into a settings document: the merge, its meaning, and the
    in-place loops that carry it out. */
module Setup {
  import opened Wrappers
  import opened Consolidation

  datatype Json =
    | Null
    | Bool(b: bool)
    | Num(n: real)
    | Str(s: string)
    | Arr(items: seq<Json>)
    | Obj(fields: map<string, Json>)
  {
    /** Member access; nothing for a value that is not an object. */
    function Get(key: string): Option<Json> {
      if Obj? && key in fields then Some(fields[key]) else None
    }
  }

  const HOOK_ENTRIES: seq<(string, string)> := [
    ("PreToolUse", "agent-dash hook pre-tool-use"),
    ("PostToolUse", "agent-dash hook post-tool-use"),
    ("PermissionRequest", "agent-dash hook permission"),
    ("Stop", "agent-dash hook stop"),
    ("SessionStart", "agent-dash hook session-start"),
    ("SessionEnd", "agent-dash hook session-end")
  ]

  const INVALID_EVENT := "NotificationStart"

  predicate Contains(s: string, part: string) {
    exists i :: 0 <= i <= |s| && part <= s[i..]
  }

  predicate IsOwnCommand(cmd: string) {
    "agent-dash hook" <= cmd || Contains(cmd, "agent-dash-hook")
  }

  predicate HasOwnCommand(v: Json) {
    v.Get("command").Some? && v.Get("command").value.Str? && IsOwnCommand(v.Get("command").value.s)
  }

  /** An entry of ours, in the nested or the old flat format. */
  predicate IsOwn(entry: Json) {
    || (entry.Get("hooks").Some? && entry.Get("hooks").value.Arr?
        && exists i :: 0 <= i < |entry.Get("hooks").value.items| && HasOwnCommand(entry.Get("hooks").value.items[i]))
    || HasOwnCommand(entry)
  }

  function MakeEntry(command: string): Json {
    Obj(map["hooks" := Arr([Obj(map["type" := Str("command"), "command" := Str(command)])])])
  }

  type Hooks = map<string, Json>

  function EntriesOf(hooks: Hooks, event: string): Option<seq<Json>> {
    if event !in hooks then Some([]) else if hooks[event].Arr? then Some(hooks[event].items) else None
  }

  function MergeSingle(hooks: Hooks, event: string, command: string): Hooks {
    match EntriesOf(hooks, event)
    case None => hooks
    case Some(entries) => hooks[event := Arr(Consolidated(entries, MakeEntry(command), IsOwn))]
  }

  function MergeTable(hooks: Hooks, table: seq<(string, string)>): Hooks
    decreases |table|
  {
    if table == [] then hooks else MergeTable(MergeSingle(hooks, table[0].0, table[0].1), table[1..])
  }

  predicate OnlyOwn(hooks: Hooks, event: string) {
    event in hooks && hooks[event].Arr? && forall i :: 0 <= i < |hooks[event].items| ==> IsOwn(hooks[event].items[i])
  }

  function Cleanup(hooks: Hooks): Hooks {
    if OnlyOwn(hooks, INVALID_EVENT) then hooks - {INVALID_EVENT} else hooks
  }

  /** The settings after installation. */
  function Merge(settings: Json): Json {
    if !settings.Obj? then settings
    else
      match settings.Get("hooks")
      case None => Obj(settings.fields["hooks" := Obj(MergeTable(map[], HOOK_ENTRIES))])
      case Some(hooks) =>
        if !hooks.Obj? then settings
        else Obj(settings.fields["hooks" := Obj(MergeTable(Cleanup(hooks.fields), HOOK_ENTRIES))])
  }

  // ------------------------------------------------------------ one event

  lemma OwnEntry(command: string)
    requires "agent-dash hook" <= command
    ensures IsOwn(MakeEntry(command))
  {
    var items := MakeEntry(command).Get("hooks").value.items;
    assert HasOwnCommand(items[0]);
  }

  // ------------------------------------------------------------ all events

  function At(hooks: Hooks, key: string): Option<Json> {
    if key in hooks then Some(hooks[key]) else None
  }

  /** What an event's value becomes. */
  function Merged(v: Option<Json>, command: string): Option<Json> {
    match v
    case None => Some(Arr([MakeEntry(command)]))
    case Some(j) => if j.Arr? then Some(Arr(Consolidated(j.items, MakeEntry(command), IsOwn))) else v
  }

  lemma SingleAt(hooks: Hooks, event: string, command: string, key: string)
    ensures At(MergeSingle(hooks, event, command), key)
            == if key == event then Merged(At(hooks, event), command) else At(hooks, key)
  {
    NoOwn([], MakeEntry(command), IsOwn);
    assert [] + [MakeEntry(command)] == [MakeEntry(command)];
  }

  lemma MergedTwice(v: Option<Json>, command: string)
    requires "agent-dash hook" <= command
    ensures Merged(Merged(v, command), command) == Merged(v, command)
  {
    OwnEntry(command);
    NoOwn([], MakeEntry(command), IsOwn);
    var items := if v.Some? && v.value.Arr? then v.value.items else [];
    assert [] + [MakeEntry(command)] == [MakeEntry(command)];
    ConsolidatedTwice(items, MakeEntry(command), IsOwn);
  }

  ghost predicate DistinctEvents(table: seq<(string, string)>) {
    forall i, j :: 0 <= i < j < |table| ==> table[i].0 != table[j].0
  }

  ghost predicate OwnCommands(table: seq<(string, string)>) {
    forall i :: 0 <= i < |table| ==> "agent-dash hook" <= table[i].1
  }

  ghost predicate Mentions(table: seq<(string, string)>, key: string) {
    exists i :: 0 <= i < |table| && table[i].0 == key
  }

  /** No key outside the table changes. */
  lemma {:induction false} TableElsewhere(hooks: Hooks, table: seq<(string, string)>, key: string)
    requires !Mentions(table, key)
    ensures At(MergeTable(hooks, table), key) == At(hooks, key)
    decreases |table|
  {
    if table == [] {
    } else {
      assert table[0].0 != key;
      assert !Mentions(table[1..], key) by {
        assert forall i :: 0 <= i < |table[1..]| ==> table[1..][i] == table[i + 1];
      }
      SingleAt(hooks, table[0].0, table[0].1, key);
      TableElsewhere(MergeSingle(hooks, table[0].0, table[0].1), table[1..], key);
    }
  }

  /** Each event of the table is merged on its own. */
  lemma {:induction false} TableAt(hooks: Hooks, table: seq<(string, string)>, i: nat)
    requires DistinctEvents(table) && i < |table|
    ensures At(MergeTable(hooks, table), table[i].0) == Merged(At(hooks, table[i].0), table[i].1)
    decreases |table|
  {
    var next := MergeSingle(hooks, table[0].0, table[0].1);
    SingleAt(hooks, table[0].0, table[0].1, table[i].0);
    if i == 0 {
      assert forall k :: 0 <= k < |table[1..]| ==> table[1..][k].0 != table[0].0;
      TableElsewhere(next, table[1..], table[0].0);
    } else {
      assert table[1..][i - 1] == table[i];
      TableAt(next, table[1..], i - 1);
    }
  }

  lemma SameTables(a: Hooks, b: Hooks)
    requires forall key :: At(a, key) == At(b, key)
    ensures a == b
  {
    forall key ensures key in a <==> key in b {
      assert At(a, key) == At(b, key);
    }
    forall key | key in a ensures a[key] == b[key] {
      assert At(a, key) == At(b, key);
    }
  }

  lemma TableTwice(hooks: Hooks, table: seq<(string, string)>)
    requires DistinctEvents(table) && OwnCommands(table)
    ensures MergeTable(MergeTable(hooks, table), table) == MergeTable(hooks, table)
  {
    var once := MergeTable(hooks, table);
    var twice := MergeTable(once, table);
    forall key ensures At(twice, key) == At(once, key) {
      if Mentions(table, key) {
        var i :| 0 <= i < |table| && table[i].0 == key;
        TableAt(hooks, table, i);
        TableAt(once, table, i);
        MergedTwice(At(hooks, key), table[i].1);
      } else {
        TableElsewhere(once, table, key);
      }
    }
    SameTables(twice, once);
  }

  lemma HookTable()
    ensures DistinctEvents(HOOK_ENTRIES) && OwnCommands(HOOK_ENTRIES) && !Mentions(HOOK_ENTRIES, INVALID_EVENT)
  {
    assert |"PreToolUse"| == 10 && |"PostToolUse"| == 11 && |"PermissionRequest"| == 17 && |"Stop"| == 4;
    assert |"SessionStart"| == 12 && |"SessionEnd"| == 10 && |INVALID_EVENT| == 17;
    assert "PreToolUse"[0] == 'P' && "SessionEnd"[0] == 'S' && "PermissionRequest"[0] == 'P' && INVALID_EVENT[0] == 'N';
  }

  lemma CleanupIsFinal(hooks: Hooks, table: seq<(string, string)>)
    requires !Mentions(table, INVALID_EVENT)
    ensures var after := MergeTable(Cleanup(hooks), table);
      Cleanup(after) == after && At(after, INVALID_EVENT) == At(Cleanup(hooks), INVALID_EVENT)
  {
    TableElsewhere(Cleanup(hooks), table, INVALID_EVENT);
    var after := MergeTable(Cleanup(hooks), table);
    assert At(after, INVALID_EVENT) == At(Cleanup(hooks), INVALID_EVENT);
    assert !OnlyOwn(Cleanup(hooks), INVALID_EVENT);
  }

  lemma CleanedTableAt(hooks: Hooks, table: seq<(string, string)>, i: nat)
    requires DistinctEvents(table) && !Mentions(table, INVALID_EVENT) && i < |table|
    ensures At(MergeTable(Cleanup(hooks), table), table[i].0) == Merged(At(hooks, table[i].0), table[i].1)
  {
    TableAt(Cleanup(hooks), table, i);
    assert table[i].0 != INVALID_EVENT;
  }

  /** The hooks of `settings`, missing ones counting as none, if installation applies to it. */
  function HooksOf(settings: Json): Option<Hooks> {
    if !settings.Obj? then None
    else if "hooks" !in settings.fields then Some(map[])
    else if settings.fields["hooks"].Obj? then Some(settings.fields["hooks"].fields)
    else None
  }

  lemma MergeByHooks(settings: Json)
    ensures HooksOf(settings) == None ==> Merge(settings) == settings
    ensures HooksOf(settings).Some? ==>
              Merge(settings) == Obj(settings.fields["hooks" := Obj(MergeTable(Cleanup(HooksOf(settings).value), HOOK_ENTRIES))])
  {
  }

  /** Installing twice is installing once, on every document. */
  lemma MergeIdempotent(settings: Json)
    ensures Merge(Merge(settings)) == Merge(settings)
  {
    MergeByHooks(settings);
    if HooksOf(settings).Some? {
      var before := Cleanup(HooksOf(settings).value);
      var after := MergeTable(before, HOOK_ENTRIES);
      HookTable();
      CleanupIsFinal(HooksOf(settings).value, HOOK_ENTRIES);
      TableTwice(before, HOOK_ENTRIES);
      MergeByHooks(Merge(settings));
      assert HooksOf(Merge(settings)) == Some(after);
      assert settings.fields["hooks" := Obj(after)]["hooks" := Obj(after)] == settings.fields["hooks" := Obj(after)];
    }
  }

  /** Installation touches nothing but the hooks, and of those only its own
      events and the invalid one. */
  lemma MergeTouchesOnlyItsOwn(settings: Json, key: string)
    requires HooksOf(settings).Some?
    ensures Merge(settings).Obj? && HooksOf(Merge(settings)).Some?
    ensures key != "hooks" ==> Merge(settings).Get(key) == settings.Get(key)
    ensures key != INVALID_EVENT && !Mentions(HOOK_ENTRIES, key) ==>
              At(HooksOf(Merge(settings)).value, key) == At(HooksOf(settings).value, key)
  {
    MergeByHooks(settings);
    if key != INVALID_EVENT && !Mentions(HOOK_ENTRIES, key) {
      TableElsewhere(Cleanup(HooksOf(settings).value), HOOK_ENTRIES, key);
    }
  }

  /** The nested format: a list of one hook of type "command" under "hooks",
      and nothing else. */
  ghost predicate IsCurrent(entry: Json, command: string) {
    && entry.Obj? && entry.fields.Keys == {"hooks"}
    && entry.fields["hooks"].Arr? && |entry.fields["hooks"].items| == 1
    && var hook := entry.fields["hooks"].items[0];
    && hook.Obj? && hook.fields.Keys == {"type", "command"}
    && hook.fields["type"] == Str("command") && hook.fields["command"] == Str(command)
  }

  lemma MadeIsCurrent(command: string)
    ensures IsCurrent(MakeEntry(command), command)
    ensures forall entry :: IsCurrent(entry, command) ==> entry == MakeEntry(command)
  {
    forall entry | IsCurrent(entry, command) ensures entry == MakeEntry(command) {
      var hook := entry.fields["hooks"].items[0];
      assert hook.fields == map["type" := Str("command"), "command" := Str(command)];
      assert entry.fields["hooks"].items == [hook];
      assert entry.fields == map["hooks" := Arr([hook])];
    }
  }

  /** `after` holds exactly one entry of ours, the current one, at the place of
      our first old entry or at the end, among the other entries of `before`
      in their old order. */
  ghost predicate InstalledIn(before: seq<Json>, after: seq<Json>, command: string) {
    var place := FirstOwn(before, IsOwn);
    && place < |after| && IsCurrent(after[place], command) && after[..place] == before[..place]
    && (forall j :: 0 <= j < |after| && IsOwn(after[j]) ==> j == place)
    && Foreign(after, IsOwn) == Foreign(before, IsOwn)
  }

  lemma InstalledEntries(entries: seq<Json>, command: string)
    requires "agent-dash hook" <= command
    ensures InstalledIn(entries, Consolidated(entries, MakeEntry(command), IsOwn), command)
  {
    OwnEntry(command);
    MadeIsCurrent(command);
    var target := MakeEntry(command);
    var out := Consolidated(entries, target, IsOwn);
    ConsolidatedMeaning(entries, target, IsOwn);
    forall j | 0 <= j < |out| && IsOwn(out[j]) ensures j == FirstOwn(entries, IsOwn) {
      ConsolidatedOnlyOwn(entries, target, IsOwn, j);
    }
  }

  lemma EventMerged(settings: Json, i: nat)
    requires HooksOf(settings).Some? && i < |HOOK_ENTRIES|
    ensures HooksOf(Merge(settings)).Some?
    ensures var (event, command) := HOOK_ENTRIES[i];
      At(HooksOf(Merge(settings)).value, event) == Merged(At(HooksOf(settings).value, event), command)
  {
    MergeByHooks(settings);
    HookTable();
    CleanedTableAt(HooksOf(settings).value, HOOK_ENTRIES, i);
  }

  /** Installation leaves every event of the installer in that shape; an event
      whose value is no array is left as it is. */
  lemma Installed(settings: Json, i: nat)
    requires HooksOf(settings).Some? && i < |HOOK_ENTRIES|
    ensures HooksOf(Merge(settings)).Some?
    ensures var (event, command) := HOOK_ENTRIES[i];
      var before, after := HooksOf(settings).value, HooksOf(Merge(settings)).value;
      match EntriesOf(before, event)
      case None => At(after, event) == At(before, event)
      case Some(entries) => event in after && after[event].Arr? && InstalledIn(entries, after[event].items, command)
  {
    EventMerged(settings, i);
    HookTable();
    var (event, command) := HOOK_ENTRIES[i];
    match EntriesOf(HooksOf(settings).value, event)
    case None =>
    case Some(entries) => InstalledEntries(entries, command);
  }

  /** What the six events run, by name. */
  lemma CommandsByName()
    ensures |HOOK_ENTRIES| == 6
    ensures HOOK_ENTRIES[0] == ("PreToolUse", "agent-dash hook pre-tool-use")
    ensures HOOK_ENTRIES[1] == ("PostToolUse", "agent-dash hook post-tool-use")
    ensures HOOK_ENTRIES[2] == ("PermissionRequest", "agent-dash hook permission")
    ensures HOOK_ENTRIES[3] == ("Stop", "agent-dash hook stop")
    ensures HOOK_ENTRIES[4] == ("SessionStart", "agent-dash hook session-start")
    ensures HOOK_ENTRIES[5] == ("SessionEnd", "agent-dash hook session-end")
  {
  }

  /** The invalid event goes exactly if it holds a list of entries of ours only;
      otherwise it stays as it is. */
  lemma InvalidEventExactly(settings: Json)
    requires HooksOf(settings).Some?
    ensures HooksOf(Merge(settings)).Some?
    ensures var before, after := HooksOf(settings).value, HooksOf(Merge(settings)).value;
      if "NotificationStart" in before && before["NotificationStart"].Arr?
         && forall i :: 0 <= i < |before["NotificationStart"].items| ==> IsOwn(before["NotificationStart"].items[i])
      then "NotificationStart" !in after
      else At(after, "NotificationStart") == At(before, "NotificationStart")
  {
    MergeByHooks(settings);
    HookTable();
    CleanupIsFinal(HooksOf(settings).value, HOOK_ENTRIES);
  }

  lemma StartsExactly(cmd: string, part: string)
    ensures part <= cmd <==> exists q :: cmd == part + q
  {
    if part <= cmd {
      assert cmd == part + cmd[|part|..];
    }
  }

  lemma ContainsExactly(cmd: string, part: string)
    ensures Contains(cmd, part) <==> exists p, q :: cmd == p + part + q
  {
    if Contains(cmd, part) {
      var i :| 0 <= i <= |cmd| && part <= cmd[i..];
      assert cmd == cmd[..i] + part + cmd[i..][|part|..];
    }
    if p, q :| cmd == p + part + q {
      assert cmd[|p|..] == part + q;
    }
  }

  /** A command is ours if it starts like the present one or holds the old name anywhere. */
  lemma OwnCommandExactly(cmd: string)
    ensures IsOwnCommand(cmd) <==>
            (exists q :: cmd == "agent-dash hook" + q) || (exists p, q :: cmd == p + "agent-dash-hook" + q)
  {
    StartsExactly(cmd, "agent-dash hook");
    ContainsExactly(cmd, "agent-dash-hook");
  }

  ghost predicate IsOwnHook(hook: Json) {
    hook.Obj? && "command" in hook.fields && hook.fields["command"].Str? && IsOwnCommand(hook.fields["command"].s)
  }

  /** An entry is ours, in the flat format or the nested one, exactly if a
      command of it is; an entry that is no object is not. */
  lemma OwnEntryExactly(fields: map<string, Json>)
    ensures IsOwn(Obj(fields)) <==>
            || ("command" in fields && fields["command"].Str? && IsOwnCommand(fields["command"].s))
            || ("hooks" in fields && fields["hooks"].Arr?
                && exists i :: 0 <= i < |fields["hooks"].items| && IsOwnHook(fields["hooks"].items[i]))
  {
    if "hooks" in fields && fields["hooks"].Arr? {
      var items := fields["hooks"].items;
      forall i | 0 <= i < |items| ensures IsOwnHook(items[i]) <==> HasOwnCommand(items[i]) {
      }
    }
  }

  lemma NoObjectIsOwn(entry: Json)
    requires !entry.Obj?
    ensures !IsOwn(entry)
  {
  }

  /** A lone entry of ours in another shape, the flat one say, is replaced, and
      that is a change. */
  lemma StaleEntryReplaced(hooks: Hooks, event: string, command: string, entry: Json)
    requires "agent-dash hook" <= command && event in hooks && hooks[event] == Arr([entry])
    requires IsOwn(entry) && !IsCurrent(entry, command)
    ensures var after := MergeSingle(hooks, event, command);
      event in after && after != hooks && after[event].Arr? && |after[event].items| == 1
      && IsCurrent(after[event].items[0], command)
  {
    MadeIsCurrent(command);
    assert [entry][1..] == [] && FirstOwn([entry], IsOwn) == 0;
    assert [entry][..0] + [MakeEntry(command)] + Foreign([entry][1..], IsOwn) == [MakeEntry(command)];
    assert MergeSingle(hooks, event, command)[event] == Arr([MakeEntry(command)]);
  }

  // ------------------------------------------------------------ the loops

  method MergeSingleHook(hooks: Hooks, event: string, command: string) returns (out: Hooks, changed: bool)
    requires "agent-dash hook" <= command
    ensures out == MergeSingle(hooks, event, command)
    ensures changed <==> At(out, event) != At(hooks, event)
  {
    out := hooks;
    if event !in out {
      out := out[event := Arr([])];
    }
    if !out[event].Arr? {
      return out, false;
    }
    var entries := out[event].items;
    var target := MakeEntry(command);
    OwnEntry(command);
    var indices := FindOwn(entries, IsOwn);
    var merged;
    if |indices| == 0 {
      NoOwn(entries, target, IsOwn);
      merged, changed := entries + [target], true;
    } else if |indices| == 1 {
      SoleOwn(entries, indices[0], target, IsOwn);
      merged, changed := entries[indices[0] := target], entries[indices[0]] != target;
    } else {
      SeveralOwn(entries, indices[0], indices[1], target, IsOwn);
      merged := Consolidate(entries, indices, target, IsOwn);
      changed := true;
    }
    assert changed <==> merged != entries;
    out := out[event := Arr(merged)];
    assert out == hooks[event := Arr(merged)];
  }

  /** Merges every event of the table; the answer is exactly whether any changed. */
  method MergeEvents(hooks: Hooks) returns (out: Hooks, changed: bool)
    ensures out == MergeTable(hooks, HOOK_ENTRIES)
    ensures changed <==> out != hooks
  {
    out, changed := hooks, false;
    ghost var witness_ := "";
    HookTable();
    for i := 0 to |HOOK_ENTRIES|
      invariant MergeTable(out, HOOK_ENTRIES[i..]) == MergeTable(hooks, HOOK_ENTRIES)
      invariant forall j :: i <= j < |HOOK_ENTRIES| ==> At(out, HOOK_ENTRIES[j].0) == At(hooks, HOOK_ENTRIES[j].0)
      invariant !changed ==> out == hooks
      invariant changed ==> At(out, witness_) != At(hooks, witness_)
      invariant changed ==> forall j :: i <= j < |HOOK_ENTRIES| ==> HOOK_ENTRIES[j].0 != witness_
    {
      assert HOOK_ENTRIES[i..][1..] == HOOK_ENTRIES[i + 1..];
      var (event, command) := HOOK_ENTRIES[i];
      ghost var before := out;
      var touched;
      out, touched := MergeSingleHook(out, event, command);
      forall key ensures At(out, key) == if key == event then Merged(At(before, event), command) else At(before, key) {
        SingleAt(before, event, command, key);
      }
      if touched {
        changed, witness_ := true, event;
      } else {
        SameTables(out, before);
      }
    }
  }

  /** Cleaning up and merging never cancel out. */
  lemma ChangedExactly(hooks: Hooks)
    ensures var after := MergeTable(Cleanup(hooks), HOOK_ENTRIES);
      && (after != hooks <==> Cleanup(hooks) != hooks || after != Cleanup(hooks))
      && (hooks == map[] ==> after != hooks)
  {
  }

  lemma SettingsChange(settings: Json)
    requires HooksOf(settings).Some?
    ensures Merge(settings) != settings
            <==> MergeTable(Cleanup(HooksOf(settings).value), HOOK_ENTRIES) != HooksOf(settings).value
  {
  }

  method CleanAndMerge(hooks: Hooks) returns (out: Hooks, changed: bool)
    ensures out == MergeTable(Cleanup(hooks), HOOK_ENTRIES)
    ensures changed <==> out != hooks
  {
    ChangedExactly(hooks);
    out, changed := hooks, false;
    if OnlyOwn(out, INVALID_EVENT) {
      out := out - {INVALID_EVENT};
      changed := true;
    }
    var touched;
    out, touched := MergeEvents(out);
    changed := changed || touched;
  }

  lemma SameRoot(fields: map<string, Json>, root: map<string, Json>, hooks: Json)
    requires root == fields || root == fields["hooks" := Obj(map[])]
    ensures root["hooks" := hooks] == fields["hooks" := hooks]
  {
  }

  class Settings {
    var value: Json

    constructor (value: Json)
      ensures this.value == value
    {
      this.value := value;
    }

    /** Installs the hooks; the answer is exactly whether anything changed. */
    method MergeHooks() returns (changed: bool)
      modifies this
      ensures value == Merge(old(value))
      ensures changed <==> value != old(value)
    {
      MergeByHooks(value);
      if !value.Obj? {
        return false;
      }
      var root := value.fields;
      if "hooks" !in root {
        root := root["hooks" := Obj(map[])];
      }
      if !root["hooks"].Obj? {
        return false;
      }
      SettingsChange(value);
      var merged;
      merged, changed := CleanAndMerge(root["hooks"].fields);
      SameRoot(value.fields, root, Obj(merged));
      value := Obj(root["hooks" := Obj(merged)]);
    }
  }
}
