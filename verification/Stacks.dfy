/** Looking up original positions, and rewriting the frames of a stack trace
    (`crates/usai-runtime/src/sourcemap.rs`). */
module Stacks {
  import opened Wrappers
  import opened SourceMap
  import opened Text

  datatype Position = Position(source: string, line: nat, column: nat)

  datatype Map = Map(sources: seq<string>, lines: seq<Line>)

  // ---- Lookup ---------------------------------------------------------------

  predicate Sorted(line: Line)
  {
    forall i, j :: 0 <= i <= j < |line| ==> line[i].generated <= line[j].generated
  }

  /** The last segment at or before a column, by looking at every one from the end. */
  function LastAtOrBefore(line: Line, target: nat): (s: Option<Segment>)
    ensures s.Some? ==> s.value in line && s.value.generated <= target
    ensures s.None? ==> forall i :: 0 <= i < |line| ==> line[i].generated > target
  {
    if line == [] then None
    else if line[|line| - 1].generated <= target then Some(line[|line| - 1])
    else LastAtOrBefore(line[..|line| - 1], target)
  }

  function PositionOf(m: Map, s: Segment): Option<Position>
  {
    if s.source < |m.sources| then Some(Position(m.sources[s.source], s.line + 1, s.column + 1)) else None
  }

  function Target(column: nat): nat
  {
    if column == 0 then 0 else column - 1
  }

  /** The original position, by scanning. Lines and columns count from one. */
  function Looked(m: Map, line: nat, column: nat): Option<Position>
  {
    if line == 0 || line > |m.lines| then None
    else match LastAtOrBefore(m.lines[line - 1], Target(column))
      case None => None
      case Some(s) => PositionOf(m, s)
  }

  /** What is just before `n` is at or before the target, and what is at `n` is past it. */
  predicate Boundary(line: Line, target: nat, n: nat)
  {
    && n <= |line|
    && (n > 0 ==> line[n - 1].generated <= target)
    && (n < |line| ==> line[n].generated > target)
  }

  /** Where halving ends: at a boundary, whatever the order of the columns. */
  function Halved(line: Line, target: nat, lo: nat, hi: nat): (n: nat)
    requires lo <= hi <= |line| && (lo > 0 ==> line[lo - 1].generated <= target)
    requires hi < |line| ==> line[hi].generated > target
    ensures lo <= n <= hi && Boundary(line, target, n)
    decreases hi - lo
  {
    if lo == hi then lo else
      var mid := (lo + hi) / 2;
      if line[mid].generated <= target then Halved(line, target, mid + 1, hi) else Halved(line, target, lo, mid)
  }

  /** On columns that do not decrease there is one boundary, and the scan stops before it. */
  lemma {:induction false} BoundaryIsLast(line: Line, target: nat, n: nat)
    requires Sorted(line) && Boundary(line, target, n)
    ensures LastAtOrBefore(line, target) == if n == 0 then None else Some(line[n - 1])
    decreases |line|
  {
    if n < |line| {
      assert line[|line| - 1].generated >= line[n].generated;
      BoundaryIsLast(line[..|line| - 1], target, n);
    }
  }

  /** `partition_point`: by halving. */
  method PartitionPoint(line: Line, target: nat) returns (n: nat)
    ensures n == Halved(line, target, 0, |line|)
  {
    var lo, hi := 0, |line|;
    while lo < hi
      invariant 0 <= lo <= hi <= |line|
      invariant lo > 0 ==> line[lo - 1].generated <= target
      invariant hi < |line| ==> line[hi].generated > target
      invariant Halved(line, target, lo, hi) == Halved(line, target, 0, |line|)
    {
      var mid := (lo + hi) / 2;
      if line[mid].generated <= target {
        assert Halved(line, target, lo, hi) == Halved(line, target, mid + 1, hi);
        lo := mid + 1;
      } else {
        assert Halved(line, target, lo, hi) == Halved(line, target, lo, mid);
        hi := mid;
      }
    }
    n := lo;
  }

  /** The original position, by halving. */
  function Found(m: Map, line: nat, column: nat): Option<Position>
  {
    if line == 0 || line > |m.lines| then None else
      var segments := m.lines[line - 1];
      var index := Halved(segments, Target(column), 0, |segments|);
      if index == 0 then None else PositionOf(m, segments[index - 1])
  }

  /** `lookup` finds what the scan finds, on a line whose columns do not decrease. */
  lemma FoundIsScanned(m: Map, line: nat, column: nat)
    requires 0 < line <= |m.lines| ==> Sorted(m.lines[line - 1])
    ensures Found(m, line, column) == Looked(m, line, column)
  {
    if 0 < line <= |m.lines| {
      var segments := m.lines[line - 1];
      BoundaryIsLast(segments, Target(column), Halved(segments, Target(column), 0, |segments|));
    }
  }

  method Lookup(m: Map, line: nat, column: nat) returns (r: Option<Position>)
    ensures r == Found(m, line, column)
    ensures (0 < line <= |m.lines| ==> Sorted(m.lines[line - 1])) ==> r == Looked(m, line, column)
  {
    if 0 < line <= |m.lines| ==> Sorted(m.lines[line - 1]) {
      FoundIsScanned(m, line, column);
    }
    if line == 0 || line > |m.lines| {
      return None;
    }
    var segments := m.lines[line - 1];
    var index := PartitionPoint(segments, Target(column));
    if index == 0 {
      return None;
    }
    return PositionOf(m, segments[index - 1]);
  }

  // ---- Rewriting a stack ----------------------------------------------------

  const PREFIX := "usai:app:"

  /** What a line and a column become, if they are known. */
  type Look = (nat, nat) -> Option<string>

  predicate PrefixAt(s: string, i: nat)
  {
    i + |PREFIX| <= |s| && s[i..i + |PREFIX|] == PREFIX
  }

  /** How many digits follow. */
  function Digits(s: string, i: nat): (n: nat)
    ensures i + n <= |s| || n == 0
    ensures forall j :: i <= j < i + n ==> '0' <= s[j] <= '9'
    decreases |s| - i
  {
    if i < |s| && '0' <= s[i] <= '9' then 1 + Digits(s, i + 1) else 0
  }

  /** `parse().unwrap_or(0)` for a `u32`: what does not fit is zero. */
  function Number(s: string): nat
  {
    if 0 <= Value(s) < U32 then Value(s) else 0
  }

  /** A line and a column, and where they end. */
  datatype Numbers = Numbers(line: nat, column: nat, end: nat)

  function NumbersAt(s: string, i: nat): (r: Option<Numbers>)
    ensures r.Some? ==> i < r.value.end <= |s|
  {
    var n := Digits(s, i);
    if n == 0 || i + n >= |s| || s[i + n] != ':' then None else
      var from := i + n + 1;
      var k := Digits(s, from);
      if k == 0 then None
      else Some(Numbers(Number(s[i..i + n]), Number(s[from..from + k]), from + k))
  }

  /** The frame whose numbers start here: what it becomes and where it ends. */
  function FrameAt(s: string, i: nat, look: Look): (r: Option<(string, nat)>)
    ensures r.Some? ==> i < r.value.1 <= |s|
  {
    match NumbersAt(s, i)
    case None => None
    case Some(numbers) =>
      match look(numbers.line, numbers.column)
      case None => None
      case Some(text) => Some((text, numbers.end))
  }

  function Mapped(s: string, i: nat, look: Look): (r: Option<(string, nat)>)
    ensures r.Some? ==> i < r.value.1 <= |s|
  {
    if PrefixAt(s, i) then FrameAt(s, i + |PREFIX|, look) else None
  }

  /** The trace read one character at a time: a frame that looks up is replaced, all else is copied. */
  function Rewritten(s: string, i: nat, look: Look): string
    decreases |s| - i
  {
    if i >= |s| then ""
    else match Mapped(s, i, look)
      case Some((text, end)) => text + Rewritten(s, end, look)
      case None => [s[i]] + Rewritten(s, i + 1, look)
  }

  lemma CopiesOne(s: string, i: nat, look: Look)
    requires i < |s| && Mapped(s, i, look) == None
    ensures Rewritten(s, i, look) == [s[i]] + Rewritten(s, i + 1, look)
  {
  }

  /** No known frame starts from `i` up to `j`. */
  predicate Quiet(s: string, i: nat, j: nat, look: Look)
    decreases j - i
  {
    i < j ==> Mapped(s, i, look) == None && Quiet(s, i + 1, j, look)
  }

  lemma {:induction false} QuietIf(s: string, i: nat, j: nat, look: Look)
    requires forall k: nat :: i <= k < j ==> Mapped(s, k, look) == None
    ensures Quiet(s, i, j, look)
    decreases j - i
  {
    if i < j {
      assert Mapped(s, i, look) == None;
      QuietIf(s, i + 1, j, look);
    }
  }

  /** Text in which no known frame starts is copied as it is. */
  lemma {:induction false} CopiedVerbatim(s: string, i: nat, j: nat, look: Look)
    requires i <= j <= |s| && Quiet(s, i, j, look)
    ensures Rewritten(s, i, look) == s[i..j] + Rewritten(s, j, look)
    decreases j - i
  {
    if i == j {
      assert s[i..j] == "";
    } else {
      CopiedVerbatim(s, i + 1, j, look);
      CopiesOne(s, i, look);
      Cut(s, i, j, Rewritten(s, j, look));
    }
  }

  lemma Cut(s: string, i: nat, j: nat, rest: string)
    requires i < j <= |s|
    ensures s[i..j] + rest == [s[i]] + (s[i + 1..j] + rest)
  {
  }

  /** A trace none of whose frames is known comes back unchanged. */
  lemma UnknownUnchanged(s: string, look: Look)
    requires forall k: nat :: k < |s| ==> Mapped(s, k, look) == None
    ensures Rewritten(s, 0, look) == s
  {
    QuietIf(s, 0, |s|, look);
    CopiedVerbatim(s, 0, |s|, look);
    assert s[0..|s|] + "" == s;
  }

  /** The prefix does not overlap itself. */
  lemma NoOverlap(s: string, i: nat, k: nat)
    requires PrefixAt(s, i) && i < k < i + |PREFIX|
    ensures !PrefixAt(s, k)
  {
    assert s[k] == s[i..i + |PREFIX|][k - i] == PREFIX[k - i];
    if k + |PREFIX| <= |s| {
      assert s[k..k + |PREFIX|][0] == s[k];
    }
  }

  /** `str::find`. */
  method NextPrefix(s: string, from: nat) returns (i: nat)
    requires from <= |s|
    ensures from <= i <= |s| && (i < |s| ==> PrefixAt(s, i))
    ensures forall k: nat :: from <= k < i ==> !PrefixAt(s, k)
  {
    i := from;
    while i < |s| && !PrefixAt(s, i)
      invariant from <= i <= |s|
      invariant forall k: nat :: from <= k < i ==> !PrefixAt(s, k)
    {
      i := i + 1;
    }
  }

  // ---- With a source map --------------------------------------------------------

  predicate AllSorted(m: Map)
  {
    forall line :: line in m.lines ==> Sorted(line)
  }

  function Show(p: Position): string
  {
    p.source + ":" + Decimal(p.line) + ":" + Decimal(p.column)
  }

  function Written(p: Option<Position>): Option<string>
  {
    match p
    case None => None
    case Some(p) => Some(Show(p))
  }

  /** What a map knows of a line and a column, as it is written into a trace. */
  function Shown(m: Map): Look
  {
    (line: nat, column: nat) => Written(Found(m, line, column))
  }

  /** The same, by scanning. */
  function Scanned(m: Map): Look
  {
    (line: nat, column: nat) => Written(Looked(m, line, column))
  }

  /** One prefix: its numbers are read and looked up, or it is copied. */
  method TakeFrame(m: Map, s: string, i: nat) returns (piece: string, at: nat)
    requires PrefixAt(s, i)
    ensures i < at <= |s| && piece == PieceOver(s, i, Shown(m)) && at == StepOver(s, i, Shown(m))
  {
    piece, at := PREFIX, i + |PREFIX|;
    var numbers := NumbersAt(s, at);
    if numbers.Some? {
      var found := Lookup(m, numbers.value.line, numbers.value.column);
      if found.Some? {
        piece, at := Show(found.value), numbers.value.end;
      }
    }
  }

  /** `map_stack`: it skips from prefix to prefix and always ends, and the result is the trace with exactly
      the frames the map knows replaced; with lines in column order, as scanning knows them. */
  method MapStack(m: Map, stack: string) returns (out: string)
    ensures out == Rewritten(stack, 0, Shown(m))
    ensures AllSorted(m) ==> out == Rewritten(stack, 0, Scanned(m))
  {
    ghost var look := Shown(m);
    out := "";
    var at := 0;
    while at < |stack|
      invariant 0 <= at <= |stack|
      invariant out + Rewritten(stack, at, look) == Rewritten(stack, 0, look)
      decreases |stack| - at
    {
      var i := NextPrefix(stack, at);
      QuietIf(stack, at, i, look);
      CopiedVerbatim(stack, at, i, look);
      Joins(out, stack[at..i], Rewritten(stack, i, look));
      out := out + stack[at..i];
      at := i;
      if i < |stack| {
        var piece, next := TakeFrame(m, stack, i);
        OverPrefix(stack, i, look);
        Joins(out, piece, Rewritten(stack, next, look));
        out, at := out + piece, next;
      }
    }
    if AllSorted(m) {
      ScannedRewrites(m, stack, 0);
    }
  }

  /** Scanning and halving rewrite a trace alike when every line is in column order. */
  lemma {:induction false} ScannedRewrites(m: Map, s: string, i: nat)
    requires AllSorted(m)
    ensures Rewritten(s, i, Shown(m)) == Rewritten(s, i, Scanned(m))
    decreases |s| - i
  {
    if i < |s| {
      ScannedFrame(m, s, i);
      var frame := Mapped(s, i, Shown(m));
      ScannedRewrites(m, s, if frame.Some? then frame.value.1 else i + 1);
    }
  }

  lemma ScannedFrame(m: Map, s: string, i: nat)
    requires AllSorted(m)
    ensures Mapped(s, i, Shown(m)) == Mapped(s, i, Scanned(m))
  {
    if PrefixAt(s, i) {
      var numbers := NumbersAt(s, i + |PREFIX|);
      if numbers.Some? {
        FoundIsScanned(m, numbers.value.line, numbers.value.column);
      }
    }
  }

  lemma Joins(a: string, b: string, c: string)
    ensures (a + b) + c == a + (b + c)
  {
  }

  /** What a turn of the loop writes at a prefix, and where it goes on. */
  function PieceOver(s: string, i: nat, look: Look): string
    requires PrefixAt(s, i)
  {
    match FrameAt(s, i + |PREFIX|, look)
    case Some((text, _)) => text
    case None => PREFIX
  }

  function StepOver(s: string, i: nat, look: Look): (at: nat)
    requires PrefixAt(s, i)
    ensures i < at <= |s|
  {
    match FrameAt(s, i + |PREFIX|, look)
    case Some((_, end)) => end
    case None => i + |PREFIX|
  }

  lemma OverPrefix(s: string, i: nat, look: Look)
    requires PrefixAt(s, i)
    ensures Rewritten(s, i, look) == PieceOver(s, i, look) + Rewritten(s, StepOver(s, i, look), look)
  {
    if FrameAt(s, i + |PREFIX|, look).None? {
      forall k: nat | i <= k < i + |PREFIX| ensures Mapped(s, k, look) == None {
        if k > i {
          NoOverlap(s, i, k);
        }
      }
      QuietIf(s, i, i + |PREFIX|, look);
      CopiedVerbatim(s, i, i + |PREFIX|, look);
    }
  }

  // ---- From a frame to its source ---------------------------------------------------

  predicate IsDigit(c: char)
  {
    '0' <= c <= '9'
  }

  lemma {:induction false} DecimalDigits(n: nat)
    ensures forall i :: 0 <= i < |Decimal(n)| ==> IsDigit(Decimal(n)[i])
  {
    if n >= 10 {
      DecimalDigits(n / 10);
    }
  }

  lemma {:induction false} DigitsRun(s: string, i: nat, n: nat)
    requires i + n <= |s| && (forall j :: i <= j < i + n ==> IsDigit(s[j])) && (i + n < |s| ==> !IsDigit(s[i + n]))
    ensures Digits(s, i) == n
    decreases n
  {
    if n > 0 {
      DigitsRun(s, i + 1, n - 1);
    }
  }

  /** A number that stands here in decimal, with no digit after it. */
  lemma NumberStands(s: string, i: nat, n: nat)
    requires n < U32 && i + |Decimal(n)| <= |s| && s[i..i + |Decimal(n)|] == Decimal(n)
    requires i + |Decimal(n)| < |s| ==> !IsDigit(s[i + |Decimal(n)|])
    ensures Digits(s, i) == |Decimal(n)| && Number(s[i..i + |Decimal(n)|]) == n
  {
    var d := Decimal(n);
    DecimalDigits(n);
    forall j | i <= j < i + |d| ensures IsDigit(s[j]) { assert s[j] == s[i..i + |d|][j - i]; }
    DigitsRun(s, i, |d|);
  }

  lemma NumbersStand(s: string, i: nat, line: nat, column: nat)
    requires line < U32 && column < U32
    requires var from := i + |Decimal(line)| + 1;
      && from + |Decimal(column)| == |s| && s[i..from - 1] == Decimal(line) && s[from - 1] == ':'
      && s[from..from + |Decimal(column)|] == Decimal(column)
    ensures NumbersAt(s, i) == Some(Numbers(line, column, |s|))
  {
    NumberStands(s, i, line);
    NumberStands(s, i + |Decimal(line)| + 1, column);
  }

  /** A line and a column written in decimal are read where they stand. */
  lemma NumbersBack(s: string, before: string, a: string, b: string, line: nat, column: nat)
    requires line < U32 && column < U32 && a == Decimal(line) && b == Decimal(column)
    requires s == before + (a + (":" + b))
    ensures NumbersAt(s, |before|) == Some(Numbers(line, column, |s|))
  {
    Layout(s, before, a, b);
    NumbersStand(s, |before|, line, column);
  }

  lemma Layout(s: string, before: string, a: string, b: string)
    requires s == before + (a + (":" + b))
    ensures var i := |before|;
      && |s| == i + |a| + 1 + |b| && s[i..i + |a|] == a && s[i + |a|] == ':' && s[i + |a| + 1..i + |a| + 1 + |b|] == b
  {
  }

  /** A position as it is written into a trace: its source, and then its line and its column. */
  lemma ShownReadsBack(p: Position)
    requires p.line < U32 && p.column < U32
    ensures Show(p)[..|p.source|] == p.source
    ensures NumbersAt(Show(p), |p.source| + 1) == Some(Numbers(p.line, p.column, |Show(p)|))
  {
    var before := p.source + ":";
    assert Show(p) == before + (Decimal(p.line) + (":" + Decimal(p.column)));
    NumbersBack(Show(p), before, Decimal(p.line), Decimal(p.column), p.line, p.column);
  }

  /** The column, counted from one, is from segment `j` on and before the next. */
  predicate Covers(line: Line, j: nat, column: nat)
    requires j < |line|
  {
    line[j].generated < column && (j + 1 < |line| ==> column <= line[j + 1].generated)
  }

  /** Every column that a segment covers is found at the segment's source, line and column, counted from one. */
  lemma FindsItsSegment(m: Map, i: nat, j: nat, column: nat)
    requires i < |m.lines| && Sorted(m.lines[i]) && j < |m.lines[i]| && Covers(m.lines[i], j, column)
    requires m.lines[i][j].source < |m.sources|
    ensures var s := m.lines[i][j];
      Found(m, i + 1, column) == Some(Position(m.sources[s.source], s.line + 1, s.column + 1))
  {
    var line := m.lines[i];
    FoundIsScanned(m, i + 1, column);
    BoundaryIsLast(line, column - 1, j + 1);
  }

  /** A frame at such a column is rewritten to that source, line and column. */
  lemma FrameRewritten(m: Map, i: nat, j: nat, column: nat)
    requires i < |m.lines| && Sorted(m.lines[i]) && j < |m.lines[i]| && Covers(m.lines[i], j, column)
    requires m.lines[i][j].source < |m.sources| && i + 1 < U32 && column < U32
    ensures var s := m.lines[i][j];
      Rewritten("usai:app:" + (Decimal(i + 1) + (":" + Decimal(column))), 0, Shown(m))
      == m.sources[s.source] + ":" + Decimal(s.line + 1) + ":" + Decimal(s.column + 1)
  {
    var text := PREFIX + (Decimal(i + 1) + (":" + Decimal(column)));
    assert PrefixAt(text, 0);
    NumbersBack(text, PREFIX, Decimal(i + 1), Decimal(column), i + 1, column);
    FindsItsSegment(m, i, j, column);
    var shown := Show(Found(m, i + 1, column).value);
    assert Mapped(text, 0, Shown(m)) == Some((shown, |text|));
    assert Rewritten(text, |text|, Shown(m)) == "" && shown + "" == shown;
  }
}
