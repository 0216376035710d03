/** Reading a transcript in pieces, and cutting long text. Line parsing is a
    parameter: a total function from a line to an optional message. */
module Transcript {
  import opened Wrappers
  import opened Utf8

  // ------------------------------------------------------------ lines

  predicate IsWhitespace(c: char) {
    var n := c as int;
    9 <= n <= 13 || n in {0x20, 0x85, 0xA0, 0x1680, 0x2028, 0x2029, 0x202F, 0x205F, 0x3000} || 0x2000 <= n <= 0x200A
  }

  predicate Blank(line: string) {
    line == [] || (IsWhitespace(line[0]) && Blank(line[1..]))
  }

  lemma {:induction false} BlankSuffix(a: string, b: string)
    requires Blank(a + b)
    ensures Blank(b)
  {
    if a == [] {
      assert a + b == b;
    } else {
      assert (a + b)[1..] == a[1..] + b;
      BlankSuffix(a[1..], b);
    }
  }

  /** Position of the first newline, or the end. */
  function FirstNewline(text: string): (i: nat)
    ensures i <= |text|
    ensures i < |text| ==> text[i] == '\n'
  {
    if text == [] || text[0] == '\n' then 0 else 1 + FirstNewline(text[1..])
  }

  /** A terminated line loses its newline and one carriage return before it. */
  function StripCr(line: string): string {
    if line != [] && line[|line| - 1] == '\r' then line[..|line| - 1] else line
  }

  function FirstLine(text: string): string {
    var i := FirstNewline(text);
    if i == |text| then text else StripCr(text[..i])
  }

  /** What follows the first line and its newline. */
  function Rest(text: string): (rest: string)
    ensures text != [] ==> |rest| < |text|
  {
    var i := FirstNewline(text);
    if i == |text| then "" else text[i + 1..]
  }

  function Lines(text: string): seq<string>
    decreases |text|
  {
    if text == [] then [] else [FirstLine(text)] + Lines(Rest(text))
  }

  function NonBlank(lines: seq<string>): seq<string> {
    if lines == [] then []
    else (if Blank(lines[0]) then [] else [lines[0]]) + NonBlank(lines[1..])
  }

  function ParseLines<M>(lines: seq<string>, parse: string -> Option<M>): seq<M> {
    if lines == [] then []
    else
      (match parse(lines[0]) case None => [] case Some(m) => [m]) + ParseLines(lines[1..], parse)
  }

  /** The lines of a whole text that are worth parsing. */
  function Content(text: string): seq<string> {
    NonBlank(Lines(text))
  }

  lemma {:induction false} NonBlankConcat(a: seq<string>, b: seq<string>)
    ensures NonBlank(a + b) == NonBlank(a) + NonBlank(b)
  {
    if a == [] {
      assert a + b == b;
    } else {
      NonBlankConcat(a[1..], b);
      assert (a + b)[1..] == a[1..] + b;
      ConcatAssociative(if Blank(a[0]) then [] else [a[0]], NonBlank(a[1..]), NonBlank(b));
    }
  }

  lemma {:induction false} ParseConcat<M>(a: seq<string>, b: seq<string>, parse: string -> Option<M>)
    ensures ParseLines(a + b, parse) == ParseLines(a, parse) + ParseLines(b, parse)
  {
    if a == [] {
      assert a + b == b;
    } else {
      ParseConcat(a[1..], b, parse);
      assert (a + b)[1..] == a[1..] + b;
      ConcatAssociative(match parse(a[0]) case None => [] case Some(m) => [m], ParseLines(a[1..], parse),
          ParseLines(b, parse));
    }
  }

  predicate EndsLine(text: string) {
    text == [] || text[|text| - 1] == '\n'
  }

  lemma {:induction false} FirstNewlineConcat(a: string, b: string)
    ensures FirstNewline(a + b) == if FirstNewline(a) < |a| then FirstNewline(a) else |a| + FirstNewline(b)
  {
    if a == [] {
      assert a + b == b;
    } else {
      FirstNewlineConcat(a[1..], b);
      assert (a + b)[1..] == a[1..] + b;
    }
  }

  lemma {:induction false} FirstNewlineEnd(a: string)
    requires a != [] && a[|a| - 1] == '\n'
    ensures FirstNewline(a) < |a|
  {
    if a[0] != '\n' {
      FirstNewlineEnd(a[1..]);
    }
  }

  lemma FirstLineConcat(a: string, b: string)
    requires a != [] && EndsLine(a)
    ensures FirstLine(a + b) == FirstLine(a) && Rest(a + b) == Rest(a) + b && EndsLine(Rest(a))
  {
    var i := FirstNewline(a);
    FirstNewlineEnd(a);
    FirstNewlineConcat(a, b);
    assert (a + b)[..i] == a[..i] && (a + b)[i + 1..] == a[i + 1..] + b;
  }

  lemma {:induction false} NoNewline(line: string)
    requires forall i :: 0 <= i < |line| ==> line[i] != '\n'
    ensures FirstNewline(line) == |line|
  {
    if line == [] {
    } else {
      NoNewline(line[1..]);
    }
  }

  /** Splitting, in full: a text without newline is one line, unless empty; a
      terminated line comes first, without a carriage return before its newline. */
  lemma LinesInFull(line: string, rest: string)
    requires forall i :: 0 <= i < |line| ==> line[i] != '\n'
    ensures Lines(line) == if line == "" then [] else [line]
    ensures Lines(line + "\n" + rest)
            == [if line != "" && line[|line| - 1] == '\r' then line[..|line| - 1] else line] + Lines(rest)
  {
    NoNewline(line);
    if line != "" {
      assert Lines(line) == [line] + Lines("");
    }
    var text := line + "\n" + rest;
    assert text == line + ("\n" + rest);
    FirstNewlineConcat(line, "\n" + rest);
    assert text[..|line|] == line && text[|line| + 1..] == rest;
  }

  /** Text that ends a line can be split into lines on its own. */
  lemma {:induction false} LinesConcat(a: string, b: string)
    requires EndsLine(a)
    ensures Lines(a + b) == Lines(a) + Lines(b)
    decreases |a|
  {
    if a == [] {
      assert a + b == b;
    } else {
      FirstLineConcat(a, b);
      LinesConcat(Rest(a), b);
      ConcatAssociative([FirstLine(a)], Lines(Rest(a)), Lines(b));
    }
  }

  lemma ContentConcat(a: string, b: string)
    requires EndsLine(a)
    ensures Content(a + b) == Content(a) + Content(b)
  {
    LinesConcat(a, b);
    NonBlankConcat(Lines(a), Lines(b));
  }

  // ------------------------------------------------------------ incremental reading

  /** Parses what lies beyond `offset`; on any failure nothing is read and the
      offset stays. `file` is missing when it cannot be opened. */
  function ReadNew<M>(file: Option<Bytes>, offset: nat, parse: string -> Option<M>): (seq<M>, nat) {
    match file
    case None => ([], offset)
    case Some(bytes) =>
      if |bytes| <= offset then ([], offset)
      else
        match Decode(bytes[offset..])
        case None => ([], offset)
        case Some(text) => (ParseLines(Content(text), parse), |bytes|)
  }

  /** Successive reads, each from the offset the previous one returned. */
  function ReadAll<M>(files: seq<Bytes>, offset: nat, parse: string -> Option<M>): (seq<M>, nat) {
    if files == [] then ([], offset)
    else
      var (first, next) := ReadNew(Some(files[0]), offset, parse);
      var (rest, last) := ReadAll(files[1..], next, parse);
      (first + rest, last)
  }

  /** `bytes` was extended by whole lines since `offset`. */
  predicate AtLineEnd(bytes: Bytes, offset: nat) {
    offset == |bytes| || (offset < |bytes| && bytes[|bytes| - 1] == NEWLINE)
  }

  ghost predicate GrowsByLines(files: seq<Bytes>, offset: nat) {
    && (forall i :: 0 <= i < |files| ==> AtLineEnd(files[i], offset))
    && (forall i, j :: 0 <= i <= j < |files| ==> files[i] <= files[j])
  }

  /** Text up to a line end decodes on its own, and so does what follows. */
  lemma DecodeAtLineEnd(a: Bytes, b: Bytes, s: string) returns (u: string, v: string)
    requires Decode(a + b) == Some(s)
    requires a == [] || a[|a| - 1] == NEWLINE
    ensures s == u + v && Decode(a) == Some(u) && Decode(b) == Some(v) && EndsLine(u)
  {
    EncodeDecode(a + b);
    if a == [] {
      u, v := "", s;
      assert a + b == b;
    } else {
      var k := AfterNewline(s, |a|);
      OffsetCuts(s, k);
      u, v := s[..k], s[k..];
      assert (a + b)[..|a|] == a && (a + b)[|a|..] == b;
      DecodeEncode(u);
      DecodeEncode(v);
    }
  }

  // ------------------------------------------------------------ what a cut between two reads does

  /** What a read of `file` from `offset` decodes; nothing if the read fails. */
  function Seen(file: Option<Bytes>, offset: nat): string {
    if file == None || |file.value| <= offset || Decode(file.value[offset..]) == None then ""
    else Decode(file.value[offset..]).value
  }

  function NextOffset(file: Bytes, offset: nat): nat {
    if |file| <= offset || Decode(file[offset..]) == None then offset else |file|
  }

  /** The lines that successive reads hand to the parser. */
  function LinesRead(files: seq<Bytes>, offset: nat): seq<string> {
    if files == [] then []
    else Content(Seen(Some(files[0]), offset)) + LinesRead(files[1..], NextOffset(files[0], offset))
  }

  lemma ReadSeen<M>(file: Option<Bytes>, offset: nat, parse: string -> Option<M>)
    ensures ReadNew(file, offset, parse).0 == ParseLines(Content(Seen(file, offset)), parse)
    ensures file.Some? ==> ReadNew(file, offset, parse).1 == NextOffset(file.value, offset)
  {
  }

  lemma FirstRead<M>(file: Bytes, offset: nat, parse: string -> Option<M>, text: string)
    requires offset <= |file| && Decode(file[offset..]) == Some(text)
    ensures ReadNew(Some(file), offset, parse) == (ParseLines(Content(text), parse), |file|)
  {
  }

  lemma {:induction false} ReadAllLines<M>(files: seq<Bytes>, offset: nat, parse: string -> Option<M>)
    ensures ReadAll(files, offset, parse).0 == ParseLines(LinesRead(files, offset), parse)
  {
    if files == [] {
    } else {
      var next := NextOffset(files[0], offset);
      ReadSeen(Some(files[0]), offset, parse);
      ReadAllLines(files[1..], next, parse);
      ParseConcat(Content(Seen(Some(files[0]), offset)), LinesRead(files[1..], next), parse);
    }
  }

  /** The start of a line that `text` leaves unfinished. */
  function Unfinished(text: string): string {
    if text == [] || text[|text| - 1] == '\n' then "" else Unfinished(text[..|text| - 1]) + [text[|text| - 1]]
  }

  /** A read that stops after `u` when `v` follows does no harm: it stops at a
      line end, or the line it stops in is blank or was read in full, but for
      its terminator. */
  predicate HarmlessCut(u: string, v: string) {
    EndsLine(u) || var line := FirstLine(Unfinished(u) + v); Blank(line) || line == Unfinished(u)
  }

  /** What is left of `text` after its beginning `u`. */
  function After(text: string, u: string): string {
    if |u| <= |text| then text[|u|..] else ""
  }

  /** No successful read of these files stops harmfully in the text that is
      still to be read, `text` being all of it. */
  predicate HarmlessReads(files: seq<Bytes>, offset: nat, text: string) {
    if files == [] then true
    else
      var u := Seen(Some(files[0]), offset);
      HarmlessCut(u, After(text, u)) && HarmlessReads(files[1..], NextOffset(files[0], offset), After(text, u))
  }

  /** Every read finds a beginning of what the last one finds. */
  predicate Growing(files: seq<Bytes>) {
    files == [] || (files[0] <= files[|files| - 1] && Growing(files[1..]))
  }

  lemma {:induction false} AppendsGrow(files: seq<Bytes>)
    requires forall i, j :: 0 <= i <= j < |files| ==> files[i] <= files[j]
    ensures Growing(files)
  {
    if files == [] {
    } else {
      AppendsGrow(files[1..]);
    }
  }

  lemma {:induction false} UnfinishedSplit(text: string) returns (front: string)
    ensures text == front + Unfinished(text) && EndsLine(front)
    ensures FirstNewline(Unfinished(text)) == |Unfinished(text)|
    ensures Unfinished(text) == "" <==> EndsLine(text)
  {
    if EndsLine(text) {
      front := text;
      assert text == text + "";
    } else {
      var before, last := text[..|text| - 1], text[|text| - 1];
      front := UnfinishedSplit(before);
      ConcatAssociative(front, Unfinished(before), [last]);
      assert text == before + [last];
      FirstNewlineConcat(Unfinished(before), [last]);
      assert [last][1..] == "";
    }
  }

  // Leading whitespace tells a line that lost its beginning from the whole line.

  function Lead(s: string): nat {
    if s == [] || !IsWhitespace(s[0]) then 0 else 1 + Lead(s[1..])
  }

  lemma {:induction false} LeadConcat(a: string, b: string)
    ensures Lead(a + b) == if Blank(a) then |a| + Lead(b) else Lead(a)
  {
    if a == [] {
      assert a + b == b;
    } else {
      assert (a + b)[1..] == a[1..] + b;
      LeadConcat(a[1..], b);
    }
  }

  lemma {:induction false} BlankConcat(a: string, b: string)
    ensures Blank(a + b) <==> Blank(a) && Blank(b)
  {
    if a == [] {
      assert a + b == b;
    } else {
      assert (a + b)[1..] == a[1..] + b;
      BlankConcat(a[1..], b);
    }
  }

  /** A text is its first line, the line's terminator and the rest. */
  lemma FirstLineEnd(text: string) returns (end: string)
    ensures text == FirstLine(text) + end + Rest(text) && Blank(end)
  {
    var i := FirstNewline(text);
    if i == |text| {
      end := "";
    } else {
      end := text[|FirstLine(text)|..i + 1];
      assert end == "\n" || end == "\r\n";
      assert end[1..] == "" || (end[1..] == "\n" && end[1..][1..] == "");
    }
  }

  lemma ContentUnfold(text: string)
    requires text != []
    ensures Content(text) == (if Blank(FirstLine(text)) then [] else [FirstLine(text)]) + Content(Rest(text))
  {
  }

  /** Only whitespace has no lines worth parsing, and the first such line starts
      with the whitespace right before the first other character, or some of it. */
  lemma {:induction false} ContentLead(text: string)
    ensures Content(text) == [] <==> Blank(text)
    ensures Content(text) != [] ==> !Blank(Content(text)[0]) && Lead(Content(text)[0]) <= Lead(text)
    decreases |text|
  {
    if text == [] {
    } else {
      var line, rest := FirstLine(text), Rest(text);
      var end := FirstLineEnd(text);
      ContentUnfold(text);
      ContentLead(rest);
      BlankConcat(line, end);
      BlankConcat(line + end, rest);
      LeadConcat(line + end, rest);
      LeadConcat(line, end);
    }
  }

  /** Lines read piece by piece from `v` start like `v` itself. */
  ghost predicate LeadsLike(lines: seq<string>, v: string) {
    lines == [] || Lead(lines[0]) <= Lead(v)
  }

  lemma PieceLeads(u: string, later: seq<string>, v: string)
    requires LeadsLike(later, v)
    ensures LeadsLike(Content(u) + later, u + v)
  {
    ContentLead(u);
    LeadConcat(u, v);
  }

  /** The first line, unless blank, has all the leading whitespace. */
  lemma LineLead(p: string, v: string)
    requires !Blank(FirstLine(p + v))
    ensures Lead(FirstLine(p + v)) == Lead(p + v)
  {
    var end := FirstLineEnd(p + v);
    LeadConcat(FirstLine(p + v) + end, Rest(p + v));
    BlankConcat(FirstLine(p + v), end);
    LeadConcat(FirstLine(p + v), end);
  }

  lemma UncutContent(t: string)
    requires FirstNewline(t) == |t|
    ensures Content(t) == if Blank(t) then [] else [t]
  {
    if t != [] {
      assert Lines(t) == [t] + Lines("");
      assert [t] + Lines("") == [t] && [t][1..] == [];
      assert NonBlank([t]) == (if Blank(t) then [] else [t]) + NonBlank([]);
    }
  }

  /** A cut inside the line that starts `p + v`. */
  lemma CutInside(p: string, v: string, later: seq<string>)
    requires p != "" && FirstNewline(p) == |p| && LeadsLike(later, v)
    requires var line := FirstLine(p + v); !Blank(line) && line != p
    ensures Content(p + v) != Content(p) + later
  {
    ContentUnfold(p + v);
    UncutContent(p);
    var line := FirstLine(p + v);
    assert Content(p + v)[0] == line;
    if Blank(p) && later != [] {
      ContentLead(p + v);
      LineLead(p, v);
      LeadConcat(p, v);
    }
  }

  function Ended(body: string, ended: bool): string {
    if ended then StripCr(body) else body
  }

  /** The line that `p` starts and `v` goes on. */
  lemma CutLine(p: string, v: string)
    requires FirstNewline(p) == |p|
    ensures var i := FirstNewline(v);
      && FirstLine(p + v) == Ended(p + v[..i], i < |v|) && FirstLine(v) == Ended(v[..i], i < |v|)
      && Rest(p + v) == Rest(v)
  {
    FirstNewlineConcat(p, v);
    var i := FirstNewline(v);
    assert (p + v)[..|p| + i] == p + v[..i];
    if i < |v| {
      assert (p + v)[|p| + i + 1..] == v[i + 1..];
    } else {
      assert v[..i] == v;
    }
  }

  lemma StripBlank(line: string)
    ensures Blank(StripCr(line)) <==> Blank(line)
  {
    if line != [] && line[|line| - 1] == '\r' {
      var last := [line[|line| - 1]];
      assert line == StripCr(line) + last && last[1..] == "";
      BlankConcat(StripCr(line), last);
    }
  }

  lemma CutBody(p: string, body: string, ended: bool)
    requires var line := Ended(p + body, ended); Blank(line) || line == p
    ensures Blank(Ended(body, ended))
    ensures Blank(Ended(p + body, ended)) <==> Blank(p)
  {
    StripBlank(p + body);
    StripBlank(body);
    BlankConcat(p, body);
    if body != "" {
      assert (p + body)[|p + body| - 1] == body[|body| - 1];
      assert (p + body)[..|p + body| - 1] == p + body[..|body| - 1];
    }
  }

  lemma CutLineRest(p: string, v: string)
    requires FirstNewline(p) == |p|
    requires var line := FirstLine(p + v); Blank(line) || line == p
    ensures Rest(p + v) == Rest(v) && Blank(FirstLine(v)) && (Blank(FirstLine(p + v)) <==> Blank(p))
  {
    var i := FirstNewline(v);
    CutLine(p, v);
    CutBody(p, v[..i], i < |v|);
  }

  /** A harmless cut in a line leaves the same lines. */
  lemma CutOutside(p: string, v: string)
    requires p != "" && FirstNewline(p) == |p|
    requires var line := FirstLine(p + v); Blank(line) || line == p
    ensures Content(p + v) == Content(p) + Content(v)
  {
    UncutContent(p);
    if v == "" {
      assert p + v == p;
    } else {
      CutLineRest(p, v);
      ContentUnfold(v);
      ContentUnfold(p + v);
      assert Content(v) == Content(Rest(v));
    }
  }

  lemma SameAfter<T>(front: seq<T>, a: seq<T>, b: seq<T>)
    ensures front + a == front + b <==> a == b
  {
    assert (front + a)[|front|..] == a && (front + b)[|front|..] == b;
  }

  /** A cut does no harm exactly when both parts on their own have the lines of
      the whole; after a harmful one, no way of reading on makes up for it. */
  lemma CutExactly(u: string, v: string, later: seq<string>)
    ensures HarmlessCut(u, v) ==> Content(u + v) == Content(u) + Content(v)
    ensures !HarmlessCut(u, v) && LeadsLike(later, v) ==> Content(u + v) != Content(u) + later
  {
    var front := UnfinishedSplit(u);
    var p := Unfinished(u);
    ConcatAssociative(front, p, v);
    ContentConcat(front, p + v);
    ContentConcat(front, p);
    if EndsLine(u) {
      ContentConcat(u, v);
    } else if HarmlessCut(u, v) {
      CutOutside(p, v);
      ConcatAssociative(Content(front), Content(p), Content(v));
    } else if LeadsLike(later, v) {
      CutInside(p, v, later);
      ConcatAssociative(Content(front), Content(p), later);
      SameAfter(Content(front), Content(p + v), Content(p) + later);
    }
  }

  /** What follows `u` adds no line exactly when it is blank and the cut harmless. */
  lemma NothingFollows(u: string, v: string)
    ensures Content(u) == Content(u + v) <==> HarmlessCut(u, v) && Blank(v)
  {
    CutExactly(u, v, []);
    ContentLead(v);
    assert Content(u) + [] == Content(u);
  }

  /** A text whose bytes begin another's begins it, and what is left decodes. */
  lemma DecodePrefix(u: string, s: string)
    requires Encode(u) <= Encode(s)
    ensures u <= s && Decode(Encode(s)[|Encode(u)|..]) == Some(s[|u|..])
  {
    EncodePrefix(u, s);
    var v := s[|u|..];
    assert s == u + v;
    EncodeConcat(u, v);
    assert (Encode(u) + Encode(v))[|Encode(u)|..] == Encode(v);
    DecodeEncode(v);
  }

  /** What a read sees of a growing file begins what it would see at the end. */
  lemma SeenBegins(file: Bytes, last: Bytes, offset: nat, text: string)
    requires file <= last && offset <= |last| && Decode(last[offset..]) == Some(text)
    ensures var u := Seen(Some(file), offset);
      && u <= text && NextOffset(file, offset) <= |last|
      && Decode(last[NextOffset(file, offset)..]) == Some(text[|u|..])
  {
    var next := NextOffset(file, offset);
    if next == offset {
      assert text[0..] == text;
    } else {
      var a, b := file[offset..], last[|file|..];
      assert last[offset..] == a + b;
      EncodeDecode(a);
      EncodeDecode(a + b);
      DecodePrefix(Decode(a).value, text);
    }
  }

  lemma {:induction false} ReadsLead(files: seq<Bytes>, offset: nat, last: Bytes, text: string)
    requires Growing(files) && (files != [] ==> files[|files| - 1] == last)
    requires offset <= |last| && Decode(last[offset..]) == Some(text)
    ensures LeadsLike(LinesRead(files, offset), text)
    decreases |files|
  {
    if files == [] {
    } else {
      var u, next := Seen(Some(files[0]), offset), NextOffset(files[0], offset);
      SeenBegins(files[0], last, offset, text);
      var v := text[|u|..];
      assert text == u + v;
      assert files[1..] != [] ==> files[1..][|files[1..]| - 1] == last;
      ReadsLead(files[1..], next, last, v);
      PieceLeads(u, LinesRead(files[1..], next), v);
    }
  }

  lemma AllRead(u: string)
    ensures HarmlessCut(u, "") && Content(u) + [] == Content(u)
  {
    var front := UnfinishedSplit(u);
    assert Unfinished(u) + "" == Unfinished(u);
  }

  lemma CutStep(u: string, v: string, later: seq<string>)
    requires LeadsLike(later, v)
    ensures Content(u) + later == Content(u + v) <==> HarmlessCut(u, v) && later == Content(v)
  {
    CutExactly(u, v, later);
    SameAfter(Content(u), later, Content(v));
  }

  /** Incremental reading, exactly: successive reads of a growing file hand the
      parser the lines of the appended text if and only if each successful read
      stops harmlessly in what was still to be read. */
  lemma {:induction false} IncrementalExactly(files: seq<Bytes>, offset: nat, text: string)
    requires files != [] && Growing(files) && offset <= |files[|files| - 1]|
    requires Decode(files[|files| - 1][offset..]) == Some(text)
    ensures LinesRead(files, offset) == Content(text) <==> HarmlessReads(files, offset, text)
    decreases |files|
  {
    var last := files[|files| - 1];
    var u, next := Seen(Some(files[0]), offset), NextOffset(files[0], offset);
    assert files[0] <= last;
    SeenBegins(files[0], last, offset, text);
    var v, later := text[|u|..], LinesRead(files[1..], next);
    assert text == u + v && After(text, u) == v;
    ReadsLead(files[1..], next, last, v);
    if files[1..] == [] {
      assert u == text && v == "" && later == [];
      AllRead(u);
    } else {
      assert files[1..][|files[1..]| - 1] == last;
      IncrementalExactly(files[1..], next, v);
      CutStep(u, v, later);
    }
  }

  lemma {:induction false} KeepAll(lines: seq<string>, keep: string -> Option<string>)
    requires forall line :: keep(line) == Some(line)
    ensures ParseLines(lines, keep) == lines
  {
    if lines == [] {
    } else {
      KeepAll(lines[1..], keep);
      assert lines == [lines[0]] + lines[1..];
    }
  }

  lemma SameForEveryParser(a: seq<string>, b: seq<string>)
    ensures (forall parse: string -> Option<string> :: ParseLines(a, parse) == ParseLines(b, parse)) <==> a == b
  {
    var keep: string -> Option<string> := line => Some(line);
    KeepAll(a, keep);
    KeepAll(b, keep);
    assert ParseLines(a, keep) == ParseLines(b, keep) ==> a == b;
  }

  /** So the messages agree for every parser exactly then: a parser that keeps
      every line tells any difference. */
  lemma IncrementalForEveryParser(files: seq<Bytes>, offset: nat, text: string)
    requires files != [] && Growing(files) && offset <= |files[|files| - 1]|
    requires Decode(files[|files| - 1][offset..]) == Some(text)
    ensures (forall parse: string -> Option<string> :: ReadAll(files, offset, parse).0 == ParseLines(Content(text), parse))
            <==> HarmlessReads(files, offset, text)
  {
    var lines := LinesRead(files, offset);
    IncrementalExactly(files, offset, text);
    SameForEveryParser(lines, Content(text));
    forall parse: string -> Option<string> ensures ReadAll(files, offset, parse).0 == ParseLines(lines, parse) {
      ReadAllLines(files, offset, parse);
    }
  }

  lemma LaterReads(files: seq<Bytes>, offset: nat)
    requires files != [] && GrowsByLines(files, offset)
    ensures GrowsByLines(files[1..], |files[0]|)
  {
  }

  /** In particular reads that find the file at a line end do no harm. */
  lemma {:induction false} LineEndsAreHarmless(files: seq<Bytes>, offset: nat, text: string)
    requires files != [] && GrowsByLines(files, offset)
    requires Decode(files[|files| - 1][offset..]) == Some(text)
    ensures HarmlessReads(files, offset, text)
    decreases |files|
  {
    var first, last := files[0], files[|files| - 1];
    assert first <= last && AtLineEnd(first, offset);
    var a, b := first[offset..], last[|first|..];
    assert last[offset..] == a + b;
    var u, v := DecodeAtLineEnd(a, b, text);
    assert Seen(Some(first), offset) == u && NextOffset(first, offset) == |first|;
    assert text[|u|..] == v;
    if files[1..] == [] {
    } else {
      LaterReads(files, offset);
      assert files[1..][|files[1..]| - 1] == last;
      LineEndsAreHarmless(files[1..], |first|, v);
    }
  }

  /** Whatever it reads, the offset ends at the end of a file that decodes there. */
  lemma {:induction false} ReadsReachEnd<M>(files: seq<Bytes>, offset: nat, text: string, parse: string -> Option<M>)
    requires files != [] && Growing(files) && offset <= |files[|files| - 1]|
    requires Decode(files[|files| - 1][offset..]) == Some(text)
    ensures ReadAll(files, offset, parse).1 == |files[|files| - 1]|
    decreases |files|
  {
    var last := files[|files| - 1];
    assert files[0] <= last;
    ReadSeen(Some(files[0]), offset, parse);
    SeenBegins(files[0], last, offset, text);
    if files[1..] == [] {
    } else {
      assert files[1..][|files[1..]| - 1] == last;
      ReadsReachEnd(files[1..], NextOffset(files[0], offset), text[|Seen(Some(files[0]), offset)|..], parse);
    }
  }

  /** Incremental reading refines whole reading: when every read of a growing
      file finds it at a line end, the messages of successive reads are those
      of the appended text read at once, and the offset ends at the file's end. */
  lemma IncrementalIsWhole<M>(files: seq<Bytes>, offset: nat, parse: string -> Option<M>, text: string)
    requires files != [] && GrowsByLines(files, offset)
    requires Decode(files[|files| - 1][offset..]) == Some(text)
    ensures ReadAll(files, offset, parse) == (ParseLines(Content(text), parse), |files[|files| - 1]|)
  {
    assert AtLineEnd(files[|files| - 1], offset);
    AppendsGrow(files);
    LineEndsAreHarmless(files, offset, text);
    IncrementalExactly(files, offset, text);
    ReadAllLines(files, offset, parse);
    ReadsReachEnd(files, offset, text, parse);
  }

  lemma {:induction false} OffsetsMonotone<M>(files: seq<Bytes>, offset: nat, parse: string -> Option<M>)
    ensures offset <= ReadAll(files, offset, parse).1
  {
    if files == [] {
    } else {
      OffsetsMonotone(files[1..], ReadNew(Some(files[0]), offset, parse).1, parse);
    }
  }

  lemma ReadText<M>(before: string, text: string, parse: string -> Option<M>)
    requires text != []
    ensures var all := Encode(before + text);
      ReadNew(Some(all), |Encode(before)|, parse) == (ParseLines(Content(text), parse), |all|)
  {
    EncodeConcat(before, text);
    var all := Encode(before + text);
    assert all[|Encode(before)|..] == Encode(text);
    DecodeEncode(text);
    assert Encode(text) == EncodeChar(text[0]) + Encode(text[1..]);
  }

  /** Reading `u` and then `u + v` parses `u` and `v` on their own. */
  lemma TwoReads<M>(u: string, v: string, parse: string -> Option<M>)
    requires u != [] && v != []
    ensures ReadAll([Encode(u), Encode(u + v)], 0, parse).0
            == ParseLines(Content(u), parse) + ParseLines(Content(v), parse)
  {
    assert "" + u == u && Encode("") == [];
    ReadText("", u, parse);
    ReadText(u, v, parse);
    var files: seq<Bytes> := [Encode(u), Encode(u + v)];
    assert files[1..] == [Encode(u + v)];
    assert ReadAll(files[1..], |Encode(u)|, parse).0 == ParseLines(Content(v), parse) + [];
  }

  /** One line, terminated or not. */
  lemma SingleLine(line: string, end: string)
    requires line != [] && FirstNewline(line) == |line| && StripCr(line) == line && !Blank(line)
    requires end == "" || end == "\n"
    ensures Content(line + end) == [line]
  {
    FirstNewlineConcat(line, end);
    if end == "" {
      assert line + end == line;
    } else {
      assert (line + end)[..|line|] == line;
    }
    assert FirstLine(line + end) == line && Rest(line + end) == "";
    assert Lines(line + end) == [line] + Lines("");
    assert [line] + Lines("") == [line] && [line][1..] == [];
    assert NonBlank([line]) == [line] + NonBlank([]);
  }

  /** A read in the middle of a line is not harmless: the two halves are parsed
      as two lines, whatever the parser makes of the line itself. */
  lemma MidLineReadSplitsLine<M>(u: string, v: string, parse: string -> Option<M>)
    requires FirstNewline(u) == |u| && FirstNewline(v) == |v| && StripCr(v) == v
    requires !Blank(u) && !Blank(v)
    ensures ReadAll([Encode(u), Encode(u + (v + "\n"))], 0, parse).0 == ParseLines([u], parse) + ParseLines([v], parse)
    ensures ReadNew(Some(Encode(u + v + "\n")), 0, parse).0 == ParseLines([u + v], parse)
  {
    TwoReads(u, v + "\n", parse);
    SingleLine(v, "\n");
    UncutContent(u);
    FirstNewlineConcat(u, v);
    if Blank(u + v) {
      BlankSuffix(u, v);
    }
    SingleLine(u + v, "\n");
    var whole := u + v + "\n";
    assert "" + whole == whole && Encode("") == [];
    ReadText("", whole, parse);
  }

  // ------------------------------------------------------------ tail reading

  const TAIL_BYTES: nat := 128 * 1024

  function TailStart(bytes: Bytes): nat {
    if |bytes| > TAIL_BYTES then |bytes| - TAIL_BYTES else 0
  }

  /** Drops a first line that may be cut, if anything follows it. */
  function DropCut(text: string): string {
    var i := FirstNewline(text);
    if i < |text| then text[i + 1..] else text
  }

  /** The lines of the file's last window, dropping a first line that may be cut. */
  function TailLines(file: Option<Bytes>): seq<string> {
    match file
    case None => []
    case Some(bytes) =>
      match Decode(bytes[TailStart(bytes)..])
      case None => []
      case Some(text) =>
        Content(if TailStart(bytes) > 0 then DropCut(text) else text)
  }

  function LastN<M>(all: seq<M>, limit: nat): seq<M> {
    if |all| > limit then all[|all| - limit..] else all
  }

  function ReadMessages<M>(file: Option<Bytes>, limit: nat, parse: string -> Option<M>): seq<M> {
    LastN(ParseLines(TailLines(file), parse), limit)
  }

  predicate IsSuffix<M(==)>(part: seq<M>, whole: seq<M>) {
    |part| <= |whole| && part == whole[|whole| - |part|..]
  }

  /** The tail is cut inside a line that it does not recognise as cut: it is
      not the whole file, decodes, holds no newline, does not start a line, and
      is not blank. */
  predicate CutsLine(bytes: Bytes) {
    var start := TailStart(bytes);
    && start > 0
    && bytes[start - 1] != NEWLINE
    && Decode(bytes[start..]).Some?
    && FirstNewline(Decode(bytes[start..]).value) == |Decode(bytes[start..]).value|
    && !Blank(Decode(bytes[start..]).value)
  }

  lemma OneLineLeft(p: string, t: string)
    requires t != [] && FirstNewline(p) == |p| && FirstNewline(t) == |t|
    ensures Lines(p + t) == [p + t]
  {
    FirstNewlineConcat(p, t);
    assert Lines(p + t) == [p + t] + Lines("");
  }

  /** The last line of a text that ends in the middle of a line. */
  lemma LastLine(u: string, t: string) returns (cut: string)
    requires !EndsLine(u) && t != [] && FirstNewline(t) == |t|
    ensures cut != [] && Lines(u + t) != [] && Lines(u + t)[|Lines(u + t)| - 1] == cut + t
  {
    var front := UnfinishedSplit(u);
    cut := Unfinished(u);
    ConcatAssociative(front, cut, t);
    LinesConcat(front, cut + t);
    OneLineLeft(cut, t);
  }

  lemma {:induction false} NonBlankLast(lines: seq<string>)
    requires lines != [] && !Blank(lines[|lines| - 1])
    ensures NonBlank(lines) != [] && NonBlank(lines)[|NonBlank(lines)| - 1] == lines[|lines| - 1]
  {
    var front, last := lines[..|lines| - 1], lines[|lines| - 1];
    assert lines == front + [last] && [last][1..] == [];
    NonBlankConcat(front, [last]);
  }

  lemma TrivialSuffixes<M>(whole: seq<M>)
    ensures IsSuffix(whole, whole) && IsSuffix([], whole)
  {
  }

  lemma DroppedLine(t: string) returns (line: string)
    requires FirstNewline(t) < |t|
    ensures t == line + DropCut(t) && line != [] && EndsLine(line)
  {
    line := t[..FirstNewline(t) + 1];
  }

  lemma SuffixOfConcat<M>(front: seq<M>, back: seq<M>)
    ensures IsSuffix(back, front + back)
  {
  }

  lemma AfterFirstLine(u: string, line: string, later: string)
    requires line != [] && EndsLine(line)
    ensures IsSuffix(Content(later), Content(u + (line + later)))
  {
    ConcatAssociative(u, line, later);
    ContentConcat(u + line, later);
    SuffixOfConcat(Content(u + line), Content(later));
  }

  lemma AfterCut(u: string, t: string)
    requires FirstNewline(t) < |t|
    ensures IsSuffix(Content(DropCut(t)), Content(u + t))
  {
    var line := DroppedLine(t);
    AfterFirstLine(u, line, DropCut(t));
  }

  lemma CutUnnoticed(u: string, t: string)
    requires !EndsLine(u) && FirstNewline(t) == |t| && !Blank(t)
    ensures !IsSuffix(Content(t), Content(u + t))
  {
    var cut := LastLine(u, t);
    if Blank(cut + t) {
      BlankSuffix(cut, t);
    }
    NonBlankLast(Lines(u + t));
    UncutContent(t);
    assert |cut + t| > |t|;
    var whole := Content(u + t);
    assert whole[|whole| - 1..][0] == cut + t;
  }

  lemma CutTail(u: string, t: string)
    requires !EndsLine(u) && FirstNewline(t) == |t|
    ensures IsSuffix(Content(t), Content(u + t)) <==> Blank(t)
  {
    if Blank(t) {
      UncutContent(t);
      assert Content(u + t)[|Content(u + t)|..] == [];
    } else {
      CutUnnoticed(u, t);
    }
  }

  lemma TailOfText(u: string, t: string)
    ensures IsSuffix(Content(DropCut(t)), Content(u + t)) <==> EndsLine(u) || FirstNewline(t) < |t| || Blank(t)
  {
    if FirstNewline(t) < |t| {
      AfterCut(u, t);
    } else if EndsLine(u) {
      ContentConcat(u, t);
      SuffixOfConcat(Content(u), Content(t));
    } else {
      CutTail(u, t);
    }
  }

  /** A text ends a line exactly when its last byte is a newline. */
  lemma EndsLineByte(u: string)
    requires u != []
    ensures Encode(u) != [] && (EndsLine(u) <==> Encode(u)[|Encode(u)| - 1] == NEWLINE)
  {
  }

  lemma LineBefore(s: string, bytes: Bytes, k: nat)
    requires bytes == Encode(s) && k <= |s| && 0 < Offset(s, k)
    ensures Offset(s, k) <= |bytes|
    ensures EndsLine(s[..k]) <==> bytes[Offset(s, k) - 1] == NEWLINE
  {
    OffsetCuts(s, k);
    var i := Offset(s, k);
    assert bytes[i - 1] == bytes[..i][i - 1];
    EndsLineByte(s[..k]);
  }

  lemma TailInside(bytes: Bytes, s: string, start: nat, t: string)
    requires bytes == Encode(s) && 0 < start <= |bytes| && Decode(bytes[start..]) == Some(t)
    ensures IsSuffix(Content(DropCut(t)), Content(s))
            <==> bytes[start - 1] == NEWLINE || FirstNewline(t) < |t| || Blank(t)
  {
    var k := DecodeEnd(s, start, t);
    assert s == s[..k] + t;
    LineBefore(s, bytes, k);
    TailOfText(s[..k], t);
  }

  /** The tail's lines end the whole file's lines exactly when the tail does not
      cut a line unnoticed. */
  lemma TailIsSuffixExactly(bytes: Bytes, s: string)
    requires Decode(bytes) == Some(s)
    ensures IsSuffix(TailLines(Some(bytes)), Content(s)) <==> !CutsLine(bytes)
  {
    var start := TailStart(bytes);
    EncodeDecode(bytes);
    if start == 0 {
      assert bytes[0..] == bytes;
      TrivialSuffixes(Content(s));
    } else if Decode(bytes[start..]) == None {
      TrivialSuffixes(Content(s));
    } else {
      TailInside(bytes, s, start, Decode(bytes[start..]).value);
    }
  }

  lemma SuffixParsed<M>(tail: seq<string>, all: seq<string>, parse: string -> Option<M>)
    requires IsSuffix(tail, all)
    ensures IsSuffix(ParseLines(tail, parse), ParseLines(all, parse))
  {
  }

  lemma LastOfSuffix<M>(part: seq<M>, whole: seq<M>, limit: nat)
    requires IsSuffix(part, whole)
    ensures IsSuffix(LastN(part, limit), whole)
    ensures |part| >= limit ==> LastN(part, limit) == LastN(whole, limit)
  {
  }

  /** Unless the tail cuts a line unnoticed, what `ReadMessages` returns is a
      suffix of the whole file's messages, and its last `limit` whenever the
      tail yields that many. */
  lemma TailMessages<M>(bytes: Bytes, s: string, limit: nat, parse: string -> Option<M>)
    requires Decode(bytes) == Some(s) && !CutsLine(bytes)
    ensures var whole, got := ParseLines(Content(s), parse), ReadMessages(Some(bytes), limit, parse);
      && IsSuffix(got, whole)
      && (|ParseLines(TailLines(Some(bytes)), parse)| >= limit ==> got == LastN(whole, limit))
      && (TailStart(bytes) == 0 ==> got == LastN(whole, limit))
  {
    TailIsSuffixExactly(bytes, s);
    var tail, all := TailLines(Some(bytes)), Content(s);
    SuffixParsed(tail, all, parse);
    LastOfSuffix(ParseLines(tail, parse), ParseLines(all, parse), limit);
    if TailStart(bytes) == 0 {
      assert bytes[0..] == bytes;
      assert tail == all;
    }
  }

  /** Position `k` of the text follows the first newline at or after byte `start`. */
  ghost predicate FollowsNewline(s: string, start: nat, k: nat) {
    && 0 < k <= |s| && s[k - 1] == '\n' && Offset(s, k - 1) >= start
    && forall j :: 0 <= j < k - 1 && Offset(s, j) >= start ==> s[j] != '\n'
  }

  lemma {:induction false} FirstNewlineMeans(text: string)
    ensures forall j :: 0 <= j < FirstNewline(text) ==> text[j] != '\n'
  {
    if text == [] || text[0] == '\n' {
    } else {
      FirstNewlineMeans(text[1..]);
      forall j | 0 <= j < FirstNewline(text) ensures text[j] != '\n' {
        assert j > 0 ==> text[j] == text[1..][j - 1];
      }
    }
  }

  lemma OffsetOrder(s: string, j: nat, k: nat)
    requires j <= |s| && k <= |s|
    ensures Offset(s, j) >= Offset(s, k) <==> j >= k
  {
    if j >= k {
      OffsetMonotone(s, k, j);
    } else {
      OffsetMonotone(s, j, k);
    }
  }

  /** A window that starts at a character boundary decodes to the rest of the text. */
  lemma WindowText(s: string, start: nat) returns (from: nat)
    requires start <= |Encode(s)| && IsBoundary(Encode(s), start)
    ensures from <= |s| && Offset(s, from) == start && Decode(Encode(s)[start..]) == Some(s[from..])
  {
    from := BoundaryIsOffset(s, start);
    DecodeEncode(s[from..]);
  }

  lemma NewlineInWindow(s: string, from: nat, start: nat, k: nat)
    requires from <= |s| && Offset(s, from) == start && FollowsNewline(s, start, k)
    ensures from + FirstNewline(s[from..]) + 1 == k
  {
    var t := s[from..];
    var i := FirstNewline(t);
    FirstNewlineMeans(t);
    OffsetOrder(s, k - 1, from);
    assert t[k - 1 - from] == '\n';
    assert i <= k - 1 - from && s[from + i] == t[i];
    OffsetOrder(s, from + i, from);
  }

  lemma KeptText(s: string, from: nat, start: nat, k: nat)
    requires from <= |s| && Offset(s, from) == start && FollowsNewline(s, start, k)
    ensures DropCut(s[from..]) == s[k..] && s == s[..k] + s[k..] && EndsLine(s[..k])
  {
    NewlineInWindow(s, from, start, k);
    assert s[from..][k - from..] == s[k..];
  }

  /** The window is the last 128 KiB, or the whole of a shorter file. */
  lemma WindowInFull(bytes: Bytes)
    ensures TailStart(bytes) <= |bytes|
    ensures |bytes[TailStart(bytes)..]| == if |bytes| < 131072 then |bytes| else 131072
  {
  }

  /** A file that fits the window is read whole. */
  lemma TailOfShort(bytes: Bytes, s: string)
    requires Decode(bytes) == Some(s) && |bytes| <= TAIL_BYTES
    ensures TailLines(Some(bytes)) == Content(s)
  {
    assert bytes[0..] == bytes;
  }

  /** Of a longer one, every line after the window's first newline is read. */
  lemma TailAfterNewline(bytes: Bytes, s: string, k: nat)
    requires Decode(bytes) == Some(s) && TailStart(bytes) > 0 && IsBoundary(bytes, TailStart(bytes))
    requires FollowsNewline(s, TailStart(bytes), k)
    ensures TailLines(Some(bytes)) == Content(s[k..])
    ensures Content(s) == Content(s[..k]) + TailLines(Some(bytes))
  {
    EncodeDecode(bytes);
    var from := WindowText(s, TailStart(bytes));
    KeptText(s, from, TailStart(bytes), k);
    ContentConcat(s[..k], s[k..]);
  }

  /** A window without newline is read as it is, and one that starts inside a
      character not at all. */
  lemma TailWithoutNewline(bytes: Bytes, s: string, from: nat)
    requires Decode(bytes) == Some(s) && TailStart(bytes) > 0
    requires from <= |s| && Offset(s, from) == TailStart(bytes) && forall j :: from <= j < |s| ==> s[j] != '\n'
    ensures TailLines(Some(bytes)) == Content(s[from..])
  {
    EncodeDecode(bytes);
    OffsetCuts(s, from);
    DecodeEncode(s[from..]);
    NoNewline(s[from..]);
  }

  /** `got` is the last `limit` of `after`, or all of it if there are fewer; so it
      is the last `limit` of `before + after` exactly if `after` has that many or
      `before` none. */
  ghost predicate LastOf<M>(before: seq<M>, after: seq<M>, limit: nat, got: seq<M>) {
    var whole, n := before + after, |after|;
    var wanted := if |whole| < limit then |whole| else limit;
    && got == whole[|whole| - (if n < limit then n else limit)..]
    && (got == whole[|whole| - wanted..] <==> n >= limit || before == [])
  }

  lemma LastOfConcat<M>(before: seq<M>, after: seq<M>, limit: nat)
    ensures LastOf(before, after, limit, LastN(after, limit))
  {
  }

  /** What is returned: the last `limit` messages after the window's first
      newline, or all there are after it. That is the last `limit` of the file
      exactly if there are that many after it, or none before it. */
  lemma MessagesInFull<M>(bytes: Bytes, s: string, k: nat, limit: nat, parse: string -> Option<M>)
    requires Decode(bytes) == Some(s) && TailStart(bytes) > 0 && IsBoundary(bytes, TailStart(bytes))
    requires FollowsNewline(s, TailStart(bytes), k)
    ensures var before, after := ParseLines(Content(s[..k]), parse), ParseLines(Content(s[k..]), parse);
      && ParseLines(Content(s), parse) == before + after
      && LastOf(before, after, limit, ReadMessages(Some(bytes), limit, parse))
  {
    TailAfterNewline(bytes, s, k);
    ParseConcat(Content(s[..k]), Content(s[k..]), parse);
    LastOfConcat(ParseLines(Content(s[..k]), parse), ParseLines(Content(s[k..]), parse), limit);
  }

  /** A line of `n` letters. */
  function Letters(n: nat): string {
    seq(n, _ => 'a')
  }

  lemma {:induction false} LettersFacts(n: nat)
    ensures Encode(Letters(n)) == seq(n, _ => 97)
    ensures FirstNewline(Letters(n)) == n && (n > 0 ==> !Blank(Letters(n)))
  {
    if n == 0 {
    } else {
      LettersFacts(n - 1);
      assert Letters(n)[1..] == Letters(n - 1);
      assert EncodeChar('a') + seq(n - 1, _ => 97) == seq(n, _ => 97);
    }
  }

  /** A file of one line longer than the window is such a file: what is read of
      it is no line of it. */
  lemma LongLineIsCut(n: nat)
    requires n > TAIL_BYTES
    ensures var bytes := Encode(Letters(n));
      CutsLine(bytes) && !IsSuffix(TailLines(Some(bytes)), Content(Letters(n)))
  {
    var bytes := Encode(Letters(n));
    LettersFacts(n);
    var k := n - TailStart(bytes);
    LettersFacts(k);
    assert bytes[TailStart(bytes)..] == Encode(Letters(k));
    DecodeEncode(Letters(k));
    DecodeEncode(Letters(n));
    TailIsSuffixExactly(bytes, Letters(n));
  }

  /** A window that starts inside a character yields nothing. */
  lemma MidCharacterTail<M>(bytes: Bytes, limit: nat, parse: string -> Option<M>)
    requires TailStart(bytes) > 0 && Continuation(bytes[TailStart(bytes)])
    ensures ReadMessages(Some(bytes), limit, parse) == []
  {
  }

  // ------------------------------------------------------------ the readers

  method FindNewline(text: string) returns (i: nat)
    ensures i == FirstNewline(text)
  {
    i := 0;
    while i < |text| && text[i] != '\n'
      invariant 0 <= i <= |text|
      invariant FirstNewline(text) == i + FirstNewline(text[i..])
    {
      assert text[i..][1..] == text[i + 1..];
      i := i + 1;
    }
  }

  lemma LineTaken(lines: seq<string>, rest: string)
    requires rest != []
    ensures var line := FirstLine(rest);
      lines + Content(rest) == (if Blank(line) then lines else lines + [line]) + Content(Rest(rest))
  {
    var line := FirstLine(rest);
    ContentUnfold(rest);
    ConcatAssociative(lines, if Blank(line) then [] else [line], Content(Rest(rest)));
  }

  method SplitLines(text: string) returns (lines: seq<string>)
    ensures lines == Content(text)
  {
    lines := [];
    var rest := text;
    while rest != []
      invariant Content(text) == lines + Content(rest)
      decreases |rest|
    {
      var i := FindNewline(rest);
      var line := if i == |rest| then rest else StripCr(rest[..i]);
      LineTaken(lines, rest);
      if !Blank(line) {
        lines := lines + [line];
      }
      rest := if i == |rest| then "" else rest[i + 1..];
    }
  }

  method ParseAll<M>(lines: seq<string>, parse: string -> Option<M>) returns (messages: seq<M>)
    ensures messages == ParseLines(lines, parse)
  {
    messages := [];
    for i := 0 to |lines|
      invariant messages == ParseLines(lines[..i], parse)
    {
      assert lines[..i + 1] == lines[..i] + [lines[i]] && [lines[i]][1..] == [];
      ParseConcat(lines[..i], [lines[i]], parse);
      match parse(lines[i]) {
        case None =>
        case Some(m) => messages := messages + [m];
      }
    }
    assert lines[..|lines|] == lines;
  }

  method ReadNewMessages<M>(file: Option<Bytes>, offset: nat, parse: string -> Option<M>)
    returns (messages: seq<M>, newOffset: nat)
    ensures (messages, newOffset) == ReadNew(file, offset, parse)
    ensures newOffset >= offset
  {
    if file == None || |file.value| <= offset {
      return [], offset;
    }
    var text := Decode(file.value[offset..]);
    if text == None {
      return [], offset;
    }
    var lines := SplitLines(text.value);
    messages := ParseAll(lines, parse);
    newOffset := |file.value|;
  }

  // ------------------------------------------------------------ cutting text

  /** The number of characters of `s` that fit in `max` bytes. */
  function Fitting(s: string, max: nat): (k: nat)
    ensures k <= |s|
  {
    if s == [] || |EncodeChar(s[0])| > max then 0 else 1 + Fitting(s[1..], max - |EncodeChar(s[0])|)
  }

  /** `Fitting` is the largest prefix that fits, and wastes at most 3 bytes. */
  lemma {:induction false} FittingIsLargest(s: string, max: nat)
    ensures var k := Fitting(s, max);
      && k <= |s| && Offset(s, k) <= max
      && (k < |s| ==> Offset(s, k + 1) > max && max - Offset(s, k) <= 3)
  {
    if s == [] || |EncodeChar(s[0])| > max {
      assert s[..0] == [];
      if s != [] {
        assert s[..1] == [s[0]] && [s[0]][1..] == [];
        assert Encode([s[0]]) == EncodeChar(s[0]) + [];
      }
    } else {
      FittingIsLargest(s[1..], max - |EncodeChar(s[0])|);
      var k := Fitting(s, max);
      OffsetStep(s, k);
      if k < |s| {
        OffsetStep(s, k + 1);
      }
    }
  }

  /** Backs off from `max` to a character boundary. */
  method FloorBoundary(s: string, max: nat) returns (end: nat)
    requires max < |Encode(s)|
    ensures end == Offset(s, Fitting(s, max))
    ensures max - 3 <= end <= max && IsBoundary(Encode(s), end)
  {
    var bytes, k := Encode(s), Fitting(s, max);
    FittingIsLargest(s, max);
    assert s[..|s|] == s;
    OffsetIsBoundary(s, k);
    end := max;
    while end > 0 && !IsBoundary(bytes, end)
      invariant Offset(s, k) <= end <= max
    {
      end := end - 1;
    }
    var j := BoundaryIsOffset(s, end);
    if j > k {
      OffsetMonotone(s, k + 1, j);
    } else {
      OffsetMonotone(s, j, k);
    }
  }

  /** Cuts after at most `max` bytes, at a character boundary, and marks the cut. */
  method TruncateOutput(s: string, max: nat) returns (out: Bytes)
    ensures out == if |Encode(s)| <= max then Encode(s) else Encode(s[..Fitting(s, max)] + "...")
  {
    FittingIsLargest(s, max);
    var bytes := Encode(s);
    if |bytes| <= max {
      return bytes;
    }
    var end := FloorBoundary(s, max);
    OffsetCuts(s, Fitting(s, max));
    EncodeConcat(s[..Fitting(s, max)], "...");
    out := bytes[..end] + Encode("...");
  }

  function OneLine(s: string): string {
    seq(|s|, i requires 0 <= i < |s| => if s[i] == '\n' then ' ' else s[i])
  }

  /** As `TruncateOutput`, on one line and with an ellipsis. */
  method TruncateDetail(s: string, max: nat) returns (out: Bytes)
    ensures var line := OneLine(s);
      && |line| == |s|
      && (forall i :: 0 <= i < |s| ==> line[i] == if s[i] == '\n' then ' ' else s[i])
      &&
      out == if |Encode(line)| <= max then Encode(line) else Encode(line[..Fitting(line, max)] + "\U{2026}")
  {
    var line := OneLine(s);
    FittingIsLargest(line, max);
    var bytes := Encode(line);
    if |bytes| <= max {
      return bytes;
    }
    var end := FloorBoundary(line, max);
    OffsetCuts(line, Fitting(line, max));
    EncodeConcat(line[..Fitting(line, max)], "\U{2026}");
    out := bytes[..end] + Encode("\U{2026}");
  }
}
