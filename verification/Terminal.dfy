/** What the wrapper reads off the terminal screen, and how it batches terminal
    output for the daemon. */
module Terminal {
  import opened Wrappers
  import opened Utf8
  import opened Transcript

  /** One terminal cell: empty, or some text that may be dim. */
  datatype Cell = Cell(contents: string, dim: bool)

  type Row = seq<Cell>

  datatype Screen = Screen(alternate: bool, width: nat, rows: seq<Row>)
  {
    predicate Valid() {
      forall i :: 0 <= i < |rows| ==> |rows[i]| == width
    }
  }

  // ------------------------------------------------------------ trimming

  function TrimStart(s: string): string {
    if s != [] && IsWhitespace(s[0]) then TrimStart(s[1..]) else s
  }

  function TrimEnd(s: string): string {
    if s != [] && IsWhitespace(s[|s| - 1]) then TrimEnd(s[..|s| - 1]) else s
  }

  function Trim(s: string): string {
    TrimEnd(TrimStart(s))
  }

  /** A text trimmed, unless nothing is left of it. */
  function Trimmed(s: string): Option<string> {
    if Trim(s) == "" then None else Some(Trim(s))
  }

  lemma {:induction false} TrimmedStart(s: string) returns (a: string)
    ensures s == a + TrimStart(s) && Blank(a)
    ensures TrimStart(s) != "" ==> !IsWhitespace(TrimStart(s)[0])
  {
    if s == "" || !IsWhitespace(s[0]) {
      a := "";
    } else {
      var rest := TrimmedStart(s[1..]);
      a := [s[0]] + rest;
      assert a[1..] == rest;
    }
  }

  lemma {:induction false} TrimmedEnd(s: string) returns (b: string)
    ensures s == TrimEnd(s) + b && Blank(b)
    ensures TrimEnd(s) != "" ==> !IsWhitespace(TrimEnd(s)[|TrimEnd(s)| - 1])
  {
    if s == "" || !IsWhitespace(s[|s| - 1]) {
      b := "";
    } else {
      var front, last := s[..|s| - 1], s[|s| - 1];
      var rest := TrimmedEnd(front);
      b := rest + [last];
      assert s == front + [last];
      assert [last][1..] == "";
      BlankConcat(rest, [last]);
    }
  }

  /** Trimming takes whitespace off both ends and nothing else. */
  lemma TrimExactly(s: string) returns (a: string, b: string)
    ensures s == a + Trim(s) + b && Blank(a) && Blank(b)
    ensures Trim(s) != "" ==> !IsWhitespace(Trim(s)[0]) && !IsWhitespace(Trim(s)[|Trim(s)| - 1])
  {
    a := TrimmedStart(s);
    var middle := TrimStart(s);
    b := TrimmedEnd(middle);
    ConcatAssociative(a, TrimEnd(middle), b);
    if TrimEnd(middle) != "" {
      assert middle[0] == TrimEnd(middle)[0];
    }
  }

  // ------------------------------------------------------------ the suggestion

  predicate IsPrompt(cell: Cell) {
    cell.contents == "\U{276F}" || cell.contents == ">"
  }

  /** The prompt of a row: the first prompt character in its first four columns. */
  predicate PromptAt(row: Row, col: nat) {
    && col < |row| && col < 4 && IsPrompt(row[col])
    && forall c :: 0 <= c < col ==> !IsPrompt(row[c])
  }

  /** A row with a prompt that some column follows settles the search. */
  ghost predicate Settles(row: Row, col: nat) {
    PromptAt(row, col) && col + 1 < |row|
  }

  predicate DimAt(row: Row, c: nat) {
    c < |row| && row[c].contents != "" && row[c].dim
  }

  ghost predicate HasNext(row: Row, c: nat, last: nat) {
    exists d: nat :: c < d <= last && d <= c + 3 && DimAt(row, d)
  }

  /** Every dim cell but the last is followed by one at most 3 columns on. */
  ghost predicate Steps(row: Row, first: nat, last: nat) {
    forall c: nat {:trigger HasNext(row, c, last)} :: first <= c < last && DimAt(row, c) ==> HasNext(row, c, last)
  }

  /** `first` is the first dim cell after column `after`, and `last` the last
      one reachable from it through steps of at most 3 columns between dim cells. */
  ghost predicate Region(row: Row, after: nat, first: nat, last: nat) {
    && after < first <= last < |row| && DimAt(row, first) && DimAt(row, last)
    && (forall c: nat :: after < c < first ==> !DimAt(row, c))
    && Steps(row, first, last)
    && (forall d: nat :: last < d <= last + 3 ==> !DimAt(row, d))
  }

  function Render(row: Row, from: nat, end: nat): string
    requires from <= end <= |row|
    decreases end - from
  {
    if from == end then ""
    else Render(row, from, end - 1) + if row[end - 1].contents == "" then " " else row[end - 1].contents
  }

  ghost predicate RendersRegion(row: Row, after: nat, first: nat, last: nat, text: string) {
    Region(row, after, first, last) && text == Render(row, first, last + 1)
  }

  ghost predicate ShowsRegion(row: Row, after: nat, first: nat, last: nat, shown: Option<string>) {
    Region(row, after, first, last) && shown == Trimmed(Render(row, first, last + 1))
  }

  /** What a settling row shows: its dim region rendered, if it has any. */
  ghost predicate Shows(row: Row, after: nat, shown: Option<string>) {
    if exists c: nat :: c > after && DimAt(row, c) then
      exists first: nat, last: nat :: ShowsRegion(row, after, first, last, shown)
    else
      shown == None
  }

  ghost predicate Lowest(rows: seq<Row>, r: nat, col: nat) {
    && r < |rows| && Settles(rows[r], col)
    && forall below: nat, c: nat :: r < below < |rows| ==> !Settles(rows[below], c)
  }

  /** The suggestion is what the lowest settling row shows. */
  ghost predicate Suggests(screen: Screen, shown: Option<string>) {
    if !screen.alternate && (exists r: nat, col: nat :: r < |screen.rows| && Settles(screen.rows[r], col)) then
      exists r: nat, col: nat :: Lowest(screen.rows, r, col) && Shows(screen.rows[r], col, shown)
    else
      shown == None
  }

  function Texts(cells: seq<Cell>): string {
    if cells == [] then "" else Texts(cells[..|cells| - 1]) + cells[|cells| - 1].contents
  }

  lemma {:induction false} RenderTexts(row: Row, from: nat, end: nat)
    requires from <= end <= |row| && forall c :: from <= c < end ==> row[c].contents != ""
    ensures Render(row, from, end) == Texts(row[from..end])
    decreases end - from
  {
    if from == end {
    } else {
      RenderTexts(row, from, end - 1);
      assert row[from..end][..end - from - 1] == row[from..end - 1];
    }
  }

  /** The usual case in full: one run of dim texts, after cells that are not dim
      and at least three columns away from the next dim cell, shows trimmed. */
  lemma RunShows(row: Row, col: nat, from: nat, end: nat)
    requires col < from < end <= |row|
    requires forall c :: from <= c < end ==> row[c].contents != "" && row[c].dim
    requires forall c :: (col < c < from || end <= c < end + 3) && c < |row| ==> row[c].contents == "" || !row[c].dim
    ensures Shows(row, col, if Trim(Texts(row[from..end])) == "" then None else Some(Trim(Texts(row[from..end]))))
  {
    var last := end - 1;
    assert DimAt(row, from) && DimAt(row, last);
    forall c: nat | from <= c < last && DimAt(row, c) ensures HasNext(row, c, last) {
      assert DimAt(row, c + 1);
    }
    assert Region(row, col, from, last);
    RenderTexts(row, from, end);
    assert ShowsRegion(row, col, from, last, Trimmed(Texts(row[from..end])));
  }

  /** What cells show between two runs: their text, and a space for an empty one. */
  function Fill(cells: seq<Cell>): string {
    if cells == [] then ""
    else
      var last := cells[|cells| - 1];
      Fill(cells[..|cells| - 1]) + if last.contents == "" then " " else last.contents
  }

  lemma {:induction false} RenderConcat(row: Row, from: nat, mid: nat, end: nat)
    requires from <= mid <= end <= |row|
    ensures Render(row, from, end) == Render(row, from, mid) + Fill(row[mid..end])
    decreases end - mid
  {
    if mid == end {
      assert row[mid..end] == [];
    } else {
      RenderConcat(row, from, mid, end - 1);
      assert row[mid..end][..end - mid - 1] == row[mid..end - 1];
      ConcatAssociative(Render(row, from, mid), Fill(row[mid..end - 1]),
                        if row[end - 1].contents == "" then " " else row[end - 1].contents);
    }
  }

  lemma NearRunsRegion(row: Row, col: nat, from: nat, mid: nat, next: nat, end: nat)
    requires col < from < mid < next < end <= |row| && next - mid <= 2
    requires forall c :: from <= c < mid || next <= c < end ==> row[c].contents != "" && row[c].dim
    requires forall c :: (col < c < from || mid <= c < next || end <= c < end + 3) && c < |row| ==>
               row[c].contents == "" || !row[c].dim
    ensures Region(row, col, from, end - 1)
  {
    var last := end - 1;
    assert DimAt(row, from) && DimAt(row, last) && DimAt(row, next);
    forall c: nat | from <= c < last && DimAt(row, c) ensures HasNext(row, c, last) {
      assert DimAt(row, if c == mid - 1 then next else c + 1);
    }
  }

  /** Two runs with one or two columns between them show as one, with what lies
      between. */
  lemma NearRunsShow(row: Row, col: nat, from: nat, mid: nat, next: nat, end: nat)
    requires col < from < mid < next < end <= |row| && next - mid <= 2
    requires forall c :: from <= c < mid || next <= c < end ==> row[c].contents != "" && row[c].dim
    requires forall c :: (col < c < from || mid <= c < next || end <= c < end + 3) && c < |row| ==>
               row[c].contents == "" || !row[c].dim
    ensures Shows(row, col, Trimmed(Texts(row[from..mid]) + Fill(row[mid..end])))
  {
    NearRunsRegion(row, col, from, mid, next, end);
    RenderTexts(row, from, mid);
    RenderConcat(row, from, mid, end);
    assert ShowsRegion(row, col, from, end - 1, Trimmed(Texts(row[from..mid]) + Fill(row[mid..end])));
    assert DimAt(row, from);
  }

  /** Either prompt character marks a prompt, and no other text does. */
  lemma PromptExactly(cell: Cell)
    ensures IsPrompt(cell) <==> |cell.contents| == 1 && (cell.contents[0] == '\U{276F}' || cell.contents[0] == '>')
  {
  }

  /** A row has a prompt exactly if one of its first four cells is one. */
  lemma PromptInFull(row: Row)
    ensures (exists col :: PromptAt(row, col)) <==> exists c :: 0 <= c < |row| && c < 4 && IsPrompt(row[c])
  {
    if c :| 0 <= c < |row| && c < 4 && IsPrompt(row[c]) {
      var first := if IsPrompt(row[0]) then 0 else if IsPrompt(row[1]) then 1 else if IsPrompt(row[2]) then 2 else 3;
      assert PromptAt(row, first);
    }
  }

  lemma RegionUnique(row: Row, after: nat, first: nat, last: nat, first': nat, last': nat)
    requires Region(row, after, first, last) && Region(row, after, first', last')
    ensures first == first' && last == last'
  {
    assert !(first < first') && !(first' < first);
    assert first == first';
    assert last < last' ==> HasNext(row, last, last');
    assert last' < last ==> HasNext(row, last', last);
  }

  lemma ShowsUnique(row: Row, after: nat, a: Option<string>, b: Option<string>)
    requires Shows(row, after, a) && Shows(row, after, b)
    ensures a == b
  {
    if exists c: nat :: c > after && DimAt(row, c) {
      var f: nat, l: nat :| ShowsRegion(row, after, f, l, a);
      var f': nat, l': nat :| ShowsRegion(row, after, f', l', b);
      RegionUnique(row, after, f, l, f', l');
    }
  }

  lemma PromptUnique(row: Row, c: nat, d: nat)
    requires PromptAt(row, c) && PromptAt(row, d)
    ensures c == d
  {
  }

  lemma LowestUnique(rows: seq<Row>, r: nat, c: nat, q: nat, d: nat)
    requires Lowest(rows, r, c) && Lowest(rows, q, d)
    ensures r == q && c == d
  {
  }

  lemma SameBelow(a: seq<Row>, b: seq<Row>, r: nat, q: nat, low: nat, col: nat)
    requires r <= low && q <= |b| && Lowest(a, low, col) && a[r..] == b[q..]
    ensures Lowest(b, q + (low - r), col) && b[q + (low - r)] == a[low]
  {
  }

  /** No row above the lowest settling row has any bearing on the suggestion. */
  lemma RowsAboveDoNotMatter(a: Screen, b: Screen, r: nat, q: nat, col: nat, shown: Option<string>)
    requires !a.alternate && !b.alternate
    requires r < |a.rows| && q < |b.rows| && a.rows[r..] == b.rows[q..] && Settles(a.rows[r], col)
    ensures Suggests(a, shown) ==> Suggests(b, shown)
  {
    if Suggests(a, shown) {
      var low: nat, c: nat :| Lowest(a.rows, low, c) && Shows(a.rows[low], c, shown);
      assert low >= r;
      SameBelow(a.rows, b.rows, r, q, low, c);
      assert Lowest(b.rows, q + (low - r), c);
    }
  }

  lemma SuggestsUnique(screen: Screen, a: Option<string>, b: Option<string>)
    requires Suggests(screen, a) && Suggests(screen, b)
    ensures a == b
  {
    if !screen.alternate && (exists r: nat, col: nat :: r < |screen.rows| && Settles(screen.rows[r], col)) {
      var r: nat, c: nat :| Lowest(screen.rows, r, c) && Shows(screen.rows[r], c, a);
      var q: nat, d: nat :| Lowest(screen.rows, q, d) && Shows(screen.rows[q], d, b);
      LowestUnique(screen.rows, r, c, q, d);
      ShowsUnique(screen.rows[r], c, a, b);
    }
  }

  method FindPrompt(row: Row) returns (col: Option<nat>)
    ensures col.Some? ==> PromptAt(row, col.value)
    ensures col == None ==> forall c: nat :: !PromptAt(row, c)
  {
    for c := 0 to 4
      invariant forall d :: 0 <= d < c && d < |row| ==> !IsPrompt(row[d])
    {
      if c < |row| && IsPrompt(row[c]) {
        return Some(c);
      }
    }
    col := None;
  }

  datatype Part = Part(col: nat, text: string)

  /** No dim cell lies strictly between the two columns. */
  ghost predicate NextDim(row: Row, from: nat, to: nat) {
    from < to && forall c: nat :: from < c < to ==> !DimAt(row, c)
  }

  function ColAt(parts: seq<Part>, k: nat, end: nat): nat {
    if k < |parts| then parts[k].col else end
  }

  function ColBefore(parts: seq<Part>, k: nat, after: nat): nat
    requires k <= |parts|
  {
    if k == 0 then after else parts[k - 1].col
  }

  /** `parts` are the dim cells of the row after column `after` and before
      `end`, from left to right. */
  ghost predicate DimParts(row: Row, after: nat, end: nat, parts: seq<Part>) {
    && (forall k :: 0 <= k < |parts| ==> DimAt(row, parts[k].col) && parts[k].text == row[parts[k].col].contents)
    && (forall k :: 0 <= k <= |parts| ==> NextDim(row, ColBefore(parts, k, after), ColAt(parts, k, end)))
  }

  lemma AddPart(row: Row, after: nat, c: nat, parts: seq<Part>)
    requires DimParts(row, after, c, parts) && DimAt(row, c)
    ensures DimParts(row, after, c + 1, parts + [Part(c, row[c].contents)])
  {
    var more := parts + [Part(c, row[c].contents)];
    forall k | 0 <= k <= |more| ensures NextDim(row, ColBefore(more, k, after), ColAt(more, k, c + 1)) {
      if k <= |parts| {
        assert NextDim(row, ColBefore(parts, k, after), ColAt(parts, k, c));
      }
    }
  }

  lemma SkipCell(row: Row, after: nat, c: nat, parts: seq<Part>)
    requires DimParts(row, after, c, parts) && !DimAt(row, c)
    ensures DimParts(row, after, c + 1, parts)
  {
  }

  method CollectDim(row: Row, after: nat) returns (parts: seq<Part>, plain: bool)
    requires after < |row|
    ensures DimParts(row, after, |row|, parts)
    ensures parts == [] ==> forall c: nat :: c > after ==> !DimAt(row, c)
    ensures plain ==> after + 1 < |row|
  {
    parts, plain := [], false;
    for c := after + 1 to |row|
      invariant DimParts(row, after, c, parts)
      invariant plain ==> after + 1 < |row|
    {
      if DimAt(row, c) {
        AddPart(row, after, c, parts);
      } else {
        SkipCell(row, after, c, parts);
      }
      if row[c].contents != "" {
        if row[c].dim {
          parts := parts + [Part(c, row[c].contents)];
        } else {
          plain := true;
        }
      }
    }
    if parts == [] {
      assert NextDim(row, ColBefore(parts, 0, after), ColAt(parts, 0, |row|));
    }
  }

  /** Appends what the columns from `from` to before `to` show. */
  method FillGap(row: Row, first: nat, from: nat, to: nat, text: string) returns (filled: string)
    requires first <= from <= to <= |row| && text == Render(row, first, from)
    ensures filled == Render(row, first, to)
  {
    filled := text;
    for g := from to to
      invariant filled == Render(row, first, g)
    {
      filled := filled + if row[g].contents == "" then " " else row[g].contents;
    }
  }

  lemma BetweenParts(row: Row, after: nat, parts: seq<Part>, k: nat)
    requires DimParts(row, after, |row|, parts) && k <= |parts|
    ensures NextDim(row, ColBefore(parts, k, after), ColAt(parts, k, |row|))
    ensures k < |parts| ==> DimAt(row, parts[k].col) && parts[k].text == row[parts[k].col].contents
  {
  }

  lemma ExtendSteps(row: Row, first: nat, from: nat, to: nat)
    requires Steps(row, first, from) && first <= from < to <= from + 3 && DimAt(row, to)
    requires forall c: nat :: from < c < to ==> !DimAt(row, c)
    ensures Steps(row, first, to)
  {
    forall c: nat | first <= c < to && DimAt(row, c)
      ensures HasNext(row, c, to)
    {
      if c < from {
        assert HasNext(row, c, from);
      }
    }
  }

  /** Rendering the dim region that starts at the first part. */
  method JoinParts(row: Row, after: nat, parts: seq<Part>) returns (text: string)
    requires DimParts(row, after, |row|, parts) && parts != []
    ensures exists last: nat :: RendersRegion(row, after, parts[0].col, last, text)
  {
    var first := parts[0].col;
    BetweenParts(row, after, parts, 0);
    text := parts[0].text;
    ghost var last: nat := first;
    var i := 1;
    while i < |parts|
      invariant 1 <= i <= |parts|
      invariant last == parts[i - 1].col && after < first <= last < |row| && DimAt(row, last)
      invariant text == Render(row, first, last + 1)
      invariant Steps(row, first, last)
    {
      BetweenParts(row, after, parts, i);
      if parts[i].col - parts[i - 1].col > 3 {
        break;
      }
      ExtendSteps(row, first, last, parts[i].col);
      text := FillGap(row, first, parts[i - 1].col + 1, parts[i].col, text);
      text := text + parts[i].text;
      last := parts[i].col;
      i := i + 1;
    }
    BetweenParts(row, after, parts, i);
    assert RendersRegion(row, after, first, last, text);
  }

  method DetectSuggestion(screen: Screen) returns (shown: Option<string>)
    requires screen.Valid()
    ensures Suggests(screen, shown)
  {
    if screen.alternate {
      return None;
    }
    var r := |screen.rows|;
    while r > 0
      invariant 0 <= r <= |screen.rows|
      invariant forall below: nat, c: nat :: r <= below < |screen.rows| ==> !Settles(screen.rows[below], c)
    {
      r := r - 1;
      var row := screen.rows[r];
      var prompt := FindPrompt(row);
      if prompt.Some? {
        var col := prompt.value;
        var parts, plain := CollectDim(row, col);
        if parts != [] {
          var text := JoinParts(row, col, parts);
          ghost var last: nat :| RendersRegion(row, col, parts[0].col, last, text);
          assert Lowest(screen.rows, r, col);
          assert ShowsRegion(row, col, parts[0].col, last, Trimmed(text));
          assert Shows(row, col, Trimmed(text));
          var trimmed := Trim(text);
          if trimmed != "" {
            return Some(trimmed);
          }
        }
        if plain || col + 1 < screen.width {
          assert Lowest(screen.rows, r, col);
          assert Shows(row, col, None);
          return None;
        }
        forall c: nat ensures !Settles(row, c) {
          if PromptAt(row, c) {
            PromptUnique(row, c, col);
          }
        }
      }
    }
    shown := None;
  }

  // ------------------------------------------------------------ batching

  const BATCH_BYTES: nat := 16384

  /** The largest chunk one read of the terminal yields. */
  const READ_BYTES: nat := 4096

  datatype Batch = Batch(data: Bytes, sent: bool)

  function Flatten(chunks: seq<Bytes>): Bytes {
    if chunks == [] then [] else Flatten(chunks[..|chunks| - 1]) + chunks[|chunks| - 1]
  }

  function Data(batches: seq<Batch>): Bytes {
    if batches == [] then [] else Data(batches[..|batches| - 1]) + batches[|batches| - 1].data
  }

  /** What reaches the daemon: the batches whose sending succeeded. */
  function Arrived(batches: seq<Batch>): Bytes {
    if batches == [] then []
    else Arrived(batches[..|batches| - 1]) + if batches[|batches| - 1].sent then batches[|batches| - 1].data else []
  }

  predicate SmallChunks(chunks: seq<Bytes>) {
    forall k :: 0 <= k < |chunks| ==> |chunks[k]| <= READ_BYTES
  }

  predicate SmallBatches(batches: seq<Batch>) {
    forall k :: 0 <= k < |batches| ==> |batches[k].data| <= BATCH_BYTES + READ_BYTES
  }

  /** The k-th batch arrives exactly when the k-th sending succeeds. */
  predicate Outcomes(batches: seq<Batch>, sends: nat -> bool) {
    forall k :: 0 <= k < |batches| ==> batches[k].sent == sends(k)
  }

  lemma BatchAdded(batches: seq<Batch>, batch: Batch, sends: nat -> bool)
    requires Outcomes(batches, sends) && batch.sent == sends(|batches|)
    ensures Outcomes(batches + [batch], sends)
  {
  }

  predicate RealBatches(batches: seq<Batch>) {
    forall k :: 0 <= k < |batches| ==> batches[k].data != []
  }

  lemma DataAdded(batches: seq<Batch>, batch: Batch)
    ensures SmallBatches(batches) && |batch.data| <= BATCH_BYTES + READ_BYTES ==> SmallBatches(batches + [batch])
    ensures RealBatches(batches) && batch.data != [] ==> RealBatches(batches + [batch])
    ensures Data(batches + [batch]) == Data(batches) + batch.data
  {
  }

  lemma {:induction false} AllArrive(batches: seq<Batch>)
    requires forall k :: 0 <= k < |batches| ==> batches[k].sent
    ensures Arrived(batches) == Data(batches)
  {
    if batches == [] {
    } else {
      AllArrive(batches[..|batches| - 1]);
    }
  }

  lemma FlattenNext(chunks: seq<Bytes>, n: nat)
    requires n < |chunks|
    ensures Flatten(chunks[..n + 1]) == Flatten(chunks[..n]) + chunks[n]
  {
    assert chunks[..n + 1][..n] == chunks[..n];
  }

  /** Takes one chunk and then more while they are ready, until the batch is
      over the size at which it stops. */
  method OneBatch(chunks: seq<Bytes>, start: nat, ready: nat -> bool) returns (combined: Bytes, next: nat)
    requires start < |chunks|
    ensures start < next <= |chunks| && Flatten(chunks[..start]) + combined == Flatten(chunks[..next])
    ensures next > start + 1 ==> |combined| <= Max(BATCH_BYTES, |chunks[start]|) + |chunks[next - 1]|
    ensures next == start + 1 ==> combined == chunks[start]
    ensures SmallChunks(chunks) ==> |combined| <= BATCH_BYTES + READ_BYTES
    ensures chunks[start] != [] ==> combined != []
    ensures next < |chunks| && ready(next) ==> |combined| > BATCH_BYTES
  {
    combined, next := chunks[start], start + 1;
    FlattenNext(chunks, start);
    while next < |chunks| && ready(next)
      invariant start < next <= |chunks| && Flatten(chunks[..start]) + combined == Flatten(chunks[..next])
      invariant if next == start + 1 then combined == chunks[start] else |combined| <= BATCH_BYTES
      invariant |combined| >= |chunks[start]|
    {
      ConcatAssociative(Flatten(chunks[..start]), combined, chunks[next]);
      FlattenNext(chunks, next);
      combined := combined + chunks[next];
      next := next + 1;
      if |combined| > BATCH_BYTES {
        break;
      }
    }
  }

  /** Every read of the terminal yields something. */
  predicate RealChunks(chunks: seq<Bytes>) {
    forall k :: 0 <= k < |chunks| ==> chunks[k] != []
  }

  lemma {:induction false} FlattenLength(chunks: seq<Bytes>, n: nat)
    requires n <= |chunks|
    ensures |Flatten(chunks[..n])| <= |Flatten(chunks)|
    ensures RealChunks(chunks) && n < |chunks| ==> |Flatten(chunks[..n])| < |Flatten(chunks)|
    decreases |chunks| - n
  {
    if n == |chunks| {
      assert chunks[..n] == chunks;
    } else {
      FlattenNext(chunks, n);
      FlattenLength(chunks, n + 1);
    }
  }

  /** A lost batch is missing from what arrives, whatever the others hold. */
  lemma {:induction false} ArrivedLength(batches: seq<Batch>)
    ensures |Arrived(batches)| <= |Data(batches)|
    ensures RealBatches(batches) ==>
            (|Arrived(batches)| == |Data(batches)| <==> forall k :: 0 <= k < |batches| ==> batches[k].sent)
  {
    if batches == [] {
    } else {
      ArrivedLength(batches[..|batches| - 1]);
    }
  }

  /** Everything arrives exactly when everything was taken and every send succeeded. */
  lemma ArrivesExactly(chunks: seq<Bytes>, taken: nat, batches: seq<Batch>)
    requires taken <= |chunks| && Data(batches) == Flatten(chunks[..taken])
    requires RealChunks(chunks) && RealBatches(batches)
    ensures Arrived(batches) == Flatten(chunks)
            <==> taken == |chunks| && forall k :: 0 <= k < |batches| ==> batches[k].sent
  {
    FlattenLength(chunks, taken);
    ArrivedLength(batches);
    if taken == |chunks| && forall k :: 0 <= k < |batches| ==> batches[k].sent {
      assert chunks[..taken] == chunks;
      AllArrive(batches);
    }
  }

  /** What has been sent so far: the chunks before `taken`, in order. */
  predicate SentSoFar(chunks: seq<Bytes>, taken: nat, batches: seq<Batch>, running: nat -> bool, sends: nat -> bool) {
    && taken <= |chunks| && Data(batches) == Flatten(chunks[..taken])
    && Outcomes(batches, sends) && (forall k :: 0 <= k < |batches| ==> running(k))
    && (SmallChunks(chunks) ==> SmallBatches(batches)) && (RealChunks(chunks) ==> RealBatches(batches))
  }

  lemma OneMoreSent(chunks: seq<Bytes>, taken: nat, next: nat, batches: seq<Batch>, combined: Bytes,
                    running: nat -> bool, sends: nat -> bool)
    requires SentSoFar(chunks, taken, batches, running, sends) && running(|batches|)
    requires taken < next <= |chunks| && Flatten(chunks[..taken]) + combined == Flatten(chunks[..next])
    requires (SmallChunks(chunks) ==> |combined| <= BATCH_BYTES + READ_BYTES) && (RealChunks(chunks) ==> combined != [])
    ensures SentSoFar(chunks, next, batches + [Batch(combined, sends(|batches|))], running, sends)
  {
    BatchAdded(batches, Batch(combined, sends(|batches|)), sends);
    DataAdded(batches, Batch(combined, sends(|batches|)));
  }

  lemma SentInAll(chunks: seq<Bytes>, taken: nat, batches: seq<Batch>, running: nat -> bool, sends: nat -> bool)
    requires SentSoFar(chunks, taken, batches, running, sends)
    ensures RealChunks(chunks) ==>
              (Arrived(batches) == Flatten(chunks) <==>
               taken == |chunks| && forall k :: 0 <= k < |batches| ==> sends(k))
    ensures (forall k: nat :: sends(k)) ==> Arrived(batches) == Flatten(chunks[..taken])
    ensures taken == |chunks| ==> chunks[..taken] == chunks
  {
    if RealChunks(chunks) {
      ArrivesExactly(chunks, taken, batches);
    }
    if forall k: nat :: sends(k) {
      AllArrive(batches);
    }
  }

  /** Sending queued chunks in batches. `running` says whether the session still
      runs when it is looked at before a batch, `ready` whether a chunk is
      already queued when a batch asks for more, `sends` whether sending a batch
      succeeds, and `reconnects` whether a lost connection is restored before
      the session ends. */
  method SendBatches(chunks: seq<Bytes>, running: nat -> bool, ready: nat -> bool, sends: nat -> bool,
                     reconnects: nat -> bool)
    returns (batches: seq<Batch>, taken: nat)
    ensures taken <= |chunks| && Data(batches) == Flatten(chunks[..taken])
    ensures Outcomes(batches, sends) && forall k :: 0 <= k < |batches| ==> running(k)
    ensures taken < |chunks| ==>
              !running(|batches|) || (batches != [] && !sends(|batches| - 1) && !reconnects(|batches| - 1))
    ensures RealChunks(chunks) ==>
              (Arrived(batches) == Flatten(chunks) <==>
               taken == |chunks| && forall k :: 0 <= k < |batches| ==> sends(k))
    ensures (forall k: nat :: sends(k)) ==> Arrived(batches) == Flatten(chunks[..taken])
    ensures (forall k: nat :: sends(k) && running(k)) ==> Arrived(batches) == Flatten(chunks)
    ensures SmallChunks(chunks) ==> SmallBatches(batches)
  {
    batches, taken := [], 0;
    while taken < |chunks| && running(|batches|)
      invariant SentSoFar(chunks, taken, batches, running, sends)
    {
      var combined, next := OneBatch(chunks, taken, ready);
      var n := |batches|;
      OneMoreSent(chunks, taken, next, batches, combined, running, sends);
      batches := batches + [Batch(combined, sends(n))];
      taken := next;
      if !sends(n) && !reconnects(n) {
        break;
      }
    }
    SentInAll(chunks, taken, batches, running, sends);
  }
}
