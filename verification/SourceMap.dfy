/** The mappings of a source map and the stack frames they rewrite
    (`crates/usai-runtime/src/sourcemap.rs`; section 6 of ECMA-426). */
module SourceMap {
  import opened Wrappers
  import opened Vlq

  const U32 := 0x1_0000_0000

  datatype Segment = Segment(generated: nat, source: nat, line: nat, column: nat)

  type Line = seq<Segment>

  /** The running sums that the deltas go onto. */
  datatype Sums = Sums(generated: int, source: int, line: int, column: int)

  /** `max(0) as u32`. */
  function ToU32(x: int): nat
  {
    if x < 0 then 0 else x % U32
  }

  // ---- Splitting ------------------------------------------------------------

  function SplitOn(s: string, separator: char): (parts: seq<string>)
    ensures parts != []
  {
    if s == "" then [""]
    else
      var rest := SplitOn(s[1..], separator);
      if s[0] == separator then [""] + rest else [[s[0]] + rest[0]] + rest[1..]
  }

  function Join(parts: seq<string>, separator: char): string
  {
    if parts == [] then ""
    else if |parts| == 1 then parts[0]
    else parts[0] + ([separator] + Join(parts[1..], separator))
  }

  lemma {:induction false} SplitFirst(part: string, rest: string, separator: char)
    requires separator !in part
    ensures SplitOn(part + ([separator] + rest), separator) == [part] + SplitOn(rest, separator)
  {
    var s := part + ([separator] + rest);
    if part == "" {
      assert s[1..] == rest;
    } else {
      SplitFirst(part[1..], rest, separator);
      assert s[1..] == part[1..] + ([separator] + rest);
      assert s[0] == part[0] && part == [part[0]] + part[1..];
    }
  }

  lemma {:induction false} SplitOnly(part: string, separator: char)
    requires separator !in part
    ensures SplitOn(part, separator) == [part]
  {
    if part != "" {
      SplitOnly(part[1..], separator);
      assert part == [part[0]] + part[1..];
    }
  }

  lemma {:induction false} SplitJoin(parts: seq<string>, separator: char)
    requires parts != [] && forall p :: p in parts ==> separator !in p
    ensures SplitOn(Join(parts, separator), separator) == parts
    decreases |parts|
  {
    if |parts| == 1 {
      SplitOnly(parts[0], separator);
    } else {
      SplitFirst(parts[0], Join(parts[1..], separator), separator);
      SplitJoin(parts[1..], separator);
    }
  }

  // ---- Parsing --------------------------------------------------------------

  /** How a number is read at a place; `vlq` is the one used. */
  type Reader = (string, nat) -> Option<(int, nat)>

  /** The numbers of a segment after the first, if it has more. */
  function RestOf(text: string, pos: nat, read: Reader, sums: Sums): Option<Sums>
  {
    match read(text, pos)
    case None => None
    case Some((source, p)) =>
      match read(text, p)
      case None => None
      case Some((line, q)) =>
        match read(text, q)
        case None => None
        case Some((column, end)) =>
          if end < |text| && read(text, end).None? then None
          else Some(sums.(source := sums.source + source, line := sums.line + line, column := sums.column + column))
  }

  function SegmentOf(s: Sums): Segment
  {
    Segment(ToU32(s.generated), ToU32(s.source), ToU32(s.line), ToU32(s.column))
  }

  /** One segment's text: an empty one is nothing, a number alone moves the column. */
  function SegmentBy(text: string, read: Reader, sums: Sums, line: Line): Option<(Sums, Line)>
  {
    if text == "" then Some((sums, line))
    else match read(text, 0)
      case None => None
      case Some((delta, pos)) =>
        var moved := sums.(generated := sums.generated + delta);
        if pos >= |text| then Some((moved, line))
        else match RestOf(text, pos, read, moved)
          case None => None
          case Some(sums') => Some((sums', line + [SegmentOf(sums')]))
  }

  function OneSegment(text: string, sums: Sums, line: Line): Option<(Sums, Line)>
  {
    SegmentBy(text, Read, sums, line)
  }

  /** How one segment's text is taken; what is done with the sums is the same for any. */
  type Taking = (string, Sums, Line) -> Option<(Sums, Line)>

  function Segments(texts: seq<string>, take: Taking, sums: Sums, line: Line): Option<(Sums, Line)>
    decreases |texts|
  {
    if texts == [] then Some((sums, line))
    else match take(texts[0], sums, line)
      case None => None
      case Some((sums', line')) => Segments(texts[1..], take, sums', line')
  }

  /** A line's column starts over, the other sums run on. */
  function Lines(texts: seq<string>, take: Taking, sums: Sums, lines: seq<Line>): Option<seq<Line>>
    decreases |texts|
  {
    if texts == [] then Some(lines)
    else match Segments(SplitOn(texts[0], ','), take, sums.(generated := 0), [])
      case None => None
      case Some((sums', line)) => Lines(texts[1..], take, sums', lines + [line])
  }

  const ZERO := Sums(0, 0, 0, 0)

  function Parsed(mappings: string): Option<seq<Line>>
  {
    Lines(SplitOn(mappings, ';'), OneSegment, ZERO, [])
  }

  method TakeSegment(text: string, sums: Sums, line: Line) returns (r: Option<(Sums, Line)>)
    ensures r == OneSegment(text, sums, line)
  {
    if text == "" {
      return Some((sums, line));
    }
    var generated := Decode(text, 0);
    if generated.None? {
      return None;
    }
    var moved, pos := sums.(generated := sums.generated + generated.value.0), generated.value.1;
    if pos >= |text| {
      return Some((moved, line));
    }
    var rest := TakeRest(text, pos, moved);
    if rest.None? {
      return None;
    }
    return Some((rest.value, line + [SegmentOf(rest.value)]));
  }

  method TakeRest(text: string, pos: nat, sums: Sums) returns (r: Option<Sums>)
    ensures r == RestOf(text, pos, Read, sums)
  {
    var source := Decode(text, pos);
    if source.None? {
      return None;
    }
    var line := Decode(text, source.value.1);
    if line.None? {
      return None;
    }
    var column := Decode(text, line.value.1);
    if column.None? {
      return None;
    }
    if column.value.1 < |text| {
      var name := Decode(text, column.value.1);
      if name.None? {
        return None;
      }
    }
    return Some(sums.(source := sums.source + source.value.0, line := sums.line + line.value.0,
                      column := sums.column + column.value.0));
  }

  method TakeLine(text: string, sums: Sums) returns (r: Option<(Sums, Line)>)
    ensures r == Segments(SplitOn(text, ','), OneSegment, sums.(generated := 0), [])
  {
    var texts := SplitOn(text, ',');
    ghost var answer := Segments(texts, OneSegment, sums.(generated := 0), []);
    var now, line := sums.(generated := 0), [];
    for i := 0 to |texts|
      invariant answer == Segments(texts[i..], OneSegment, now, line)
    {
      assert texts[i..][1..] == texts[i + 1..];
      var step := TakeSegment(texts[i], now, line);
      if step.None? {
        return None;
      }
      now, line := step.value.0, step.value.1;
    }
    return Some((now, line));
  }

  /** The loops of `parse`: a line's column starts over, the other sums run on. */
  method Parse(mappings: string) returns (r: Option<seq<Line>>)
    ensures r == Parsed(mappings)
  {
    var texts := SplitOn(mappings, ';');
    var sums, lines := ZERO, [];
    for i := 0 to |texts|
      invariant Parsed(mappings) == Lines(texts[i..], OneSegment, sums, lines)
    {
      assert texts[i..][1..] == texts[i + 1..];
      var step := TakeLine(texts[i], sums);
      if step.None? {
        return None;
      }
      sums, lines := step.value.0, lines + [step.value.1];
    }
    return Some(lines);
  }

  // ---- Printing, and reading back -------------------------------------------

  predicate Fits(s: Segment)
  {
    s.generated < U32 && s.source < U32 && s.line < U32 && s.column < U32
  }

  function SumsOf(s: Segment): Sums
  {
    Sums(s.generated, s.source, s.line, s.column)
  }

  function PrintSegment(s: Segment, sums: Sums): string
  {
    Encoded(s.generated - sums.generated)
    + (Encoded(s.source - sums.source) + (Encoded(s.line - sums.line) + Encoded(s.column - sums.column)))
  }

  type Showing = (Segment, Sums) -> string

  function PrintSegments(line: Line, show: Showing, sums: Sums): seq<string>
  {
    if line == [] then [] else [show(line[0], sums)] + PrintSegments(line[1..], show, SumsOf(line[0]))
  }

  function SumsAfter(line: Line, sums: Sums): Sums
  {
    if line == [] then sums else SumsOf(line[|line| - 1])
  }

  function PrintLines(lines: seq<Line>, show: Showing, sums: Sums): seq<string>
  {
    if lines == [] then []
    else
      var start := sums.(generated := 0);
      [Join(PrintSegments(lines[0], show, start), ',')] + PrintLines(lines[1..], show, SumsAfter(lines[0], start))
  }

  function Printed(lines: seq<Line>): string
  {
    Join(PrintLines(lines, PrintSegment, ZERO), ';')
  }

  /** Sums that a u32 away from is a delta `vlq` can carry. */
  predicate SumsFit(sums: Sums)
  {
    && 0 <= sums.generated < U32 && 0 <= sums.source < U32
    && 0 <= sums.line < U32 && 0 <= sums.column < U32
  }

  // ---- One segment ------------------------------------------------------------

  lemma StandsPart(text: string, a: string, b: string, pos: nat)
    requires Stands(text, pos, a + b)
    ensures Stands(text, pos, a) && Stands(text, pos + |a|, b)
  {
    forall j | pos <= j < pos + |a| ensures text[j] == a[j - pos] {
      assert (a + b)[j - pos] == a[j - pos];
    }
    forall j | pos + |a| <= j < pos + |a| + |b| ensures text[j] == b[j - pos - |a|] {
      assert (a + b)[j - pos] == b[j - pos - |a|];
    }
  }

  /** An encoding that is read back wherever it stands. */
  ghost predicate ReadBack(read: Reader, enc: int -> string)
  {
    forall text, pos: nat, v :: ReadBackAt(read, enc, text, pos, v)
  }

  predicate ReadBackAt(read: Reader, enc: int -> string, text: string, pos: nat, v: int)
  {
    -U32 < v < U32 && Stands(text, pos, enc(v)) ==> read(text, pos) == Some((v, pos + |enc(v)|))
  }

  /** The first number of what stands here, and the rest after it. */
  lemma NumberBack(text: string, pos: nat, v: int, rest: string, read: Reader, enc: int -> string)
    requires ReadBack(read, enc) && Stands(text, pos, enc(v) + rest) && -U32 < v < U32
    ensures read(text, pos) == Some((v, pos + |enc(v)|)) && Stands(text, pos + |enc(v)|, rest)
  {
    StandsPart(text, enc(v), rest, pos);
    assert ReadBackAt(read, enc, text, pos, v);
  }

  lemma ThreeBack(text: string, pos: nat, sums: Sums, b: int, c: int, d: int, read: Reader, enc: int -> string)
    requires ReadBack(read, enc) && Stands(text, pos, enc(b) + (enc(c) + enc(d)))
    requires pos + |enc(b)| + |enc(c)| + |enc(d)| == |text|
    requires -U32 < b < U32 && -U32 < c < U32 && -U32 < d < U32
    ensures RestOf(text, pos, read, sums)
         == Some(Sums(sums.generated, sums.source + b, sums.line + c, sums.column + d))
  {
    var q := pos + |enc(b)|;
    NumberBack(text, pos, b, enc(c) + enc(d), read, enc);
    NumberBack(text, q, c, enc(d), read, enc);
    assert enc(d) + "" == enc(d);
    NumberBack(text, q + |enc(c)|, d, "", read, enc);
  }

  lemma SegmentTextBack(text: string, s: Segment, sums: Sums, line: Line, read: Reader, enc: int -> string)
    requires Fits(s) && SumsFit(sums) && ReadBack(read, enc) && enc(s.source - sums.source) != ""
    requires text == enc(s.generated - sums.generated)
                     + (enc(s.source - sums.source) + (enc(s.line - sums.line) + enc(s.column - sums.column)))
    ensures SegmentBy(text, read, sums, line) == Some((SumsOf(s), line + [s]))
  {
    var a, b, c, d := s.generated - sums.generated, s.source - sums.source, s.line - sums.line, s.column - sums.column;
    var moved := sums.(generated := s.generated);
    assert Stands(text, 0, text);
    NumberBack(text, 0, a, enc(b) + (enc(c) + enc(d)), read, enc);
    ThreeBack(text, |enc(a)|, moved, b, c, d, read, enc);
    SegmentOfSums(s);
  }

  lemma SegmentOfSums(s: Segment)
    requires Fits(s)
    ensures SegmentOf(SumsOf(s)) == s
  {
  }

  lemma SmallReadsBack(text: string, pos: nat, v: int)
    ensures ReadBackAt(Read, Encoded, text, pos, v)
  {
    if Stands(text, pos, Encoded(v)) {
      ReadsBack(text, pos, v);
    }
  }

  lemma EncodedReadBack()
    ensures ReadBack(Read, Encoded)
  {
    forall text, pos: nat, v ensures ReadBackAt(Read, Encoded, text, pos, v) {
      SmallReadsBack(text, pos, v);
    }
  }

  lemma SegmentBack(s: Segment, sums: Sums, line: Line)
    requires Fits(s) && SumsFit(sums)
    ensures OneSegment(PrintSegment(s, sums), sums, line) == Some((SumsOf(s), line + [s]))
  {
    EncodedReadBack();
    SegmentTextBack(PrintSegment(s, sums), s, sums, line, Read, Encoded);
  }

  lemma EncodedFree(v: int)
    ensures ',' !in Encoded(v) && ';' !in Encoded(v)
  {
    forall i | 0 <= i < |Encoded(v)| ensures Encoded(v)[i] != ',' && Encoded(v)[i] != ';' {
      NoSeparator(Zigzag(v), i);
    }
  }

  lemma ConcatFree(a: string, b: string, x: char)
    requires x !in a && x !in b
    ensures x !in a + b
  {
  }

  lemma PrintedFree(s: Segment, sums: Sums, x: char)
    requires x == ',' || x == ';'
    ensures x !in PrintSegment(s, sums)
  {
    var a, b := Encoded(s.generated - sums.generated), Encoded(s.source - sums.source);
    var c, d := Encoded(s.line - sums.line), Encoded(s.column - sums.column);
    EncodedFree(s.generated - sums.generated);
    EncodedFree(s.source - sums.source);
    EncodedFree(s.line - sums.line);
    EncodedFree(s.column - sums.column);
    ConcatFree(c, d, x);
    ConcatFree(b, c + d, x);
    ConcatFree(a, b + (c + d), x);
  }

  // ---- Whole tables, for any segment printing and its inverse -------------------

  /** `take` undoes `show`, which writes no separator. */
  ghost predicate Undoes(take: Taking, show: Showing)
  {
    && (forall s, sums, line :: Fits(s) && SumsFit(sums) ==>
          take(show(s, sums), sums, line) == Some((SumsOf(s), line + [s])))
    && (forall s, sums :: ',' !in show(s, sums) && ';' !in show(s, sums))
    && (forall sums, line :: take("", sums, line) == Some((sums, line)))
  }

  predicate LineFits(line: Line)
  {
    forall s :: s in line ==> Fits(s)
  }

  lemma {:induction false} SegmentsBack(line: Line, take: Taking, show: Showing, sums: Sums, done: Line)
    requires Undoes(take, show) && SumsFit(sums) && LineFits(line)
    ensures Segments(PrintSegments(line, show, sums), take, sums, done) == Some((SumsAfter(line, sums), done + line))
    ensures forall p :: p in PrintSegments(line, show, sums) ==> ',' !in p && ';' !in p
    decreases |line|
  {
    if line != [] {
      SegmentsBack(line[1..], take, show, SumsOf(line[0]), done + [line[0]]);
      assert done + [line[0]] + line[1..] == done + line;
      assert PrintSegments(line, show, sums)[1..] == PrintSegments(line[1..], show, SumsOf(line[0]));
    } else {
      assert done + line == done;
    }
  }

  lemma {:induction false} JoinFree(parts: seq<string>)
    requires forall p :: p in parts ==> ';' !in p
    ensures ';' !in Join(parts, ',')
    decreases |parts|
  {
    if |parts| > 1 {
      JoinFree(parts[1..]);
    }
  }

  lemma LineBack(line: Line, take: Taking, show: Showing, sums: Sums)
    requires Undoes(take, show) && SumsFit(sums) && LineFits(line)
    ensures var text := Join(PrintSegments(line, show, sums), ',');
            ';' !in text && Segments(SplitOn(text, ','), take, sums, []) == Some((SumsAfter(line, sums), line))
  {
    SegmentsBack(line, take, show, sums, []);
    JoinFree(PrintSegments(line, show, sums));
    assert [] + line == line;
    if line != [] {
      SplitJoin(PrintSegments(line, show, sums), ',');
    } else {
      assert Segments([""], take, sums, []) == Segments([""][1..], take, sums, []);
    }
  }

  lemma SumsAfterFit(line: Line, sums: Sums)
    requires LineFits(line) && SumsFit(sums)
    ensures SumsFit(SumsAfter(line, sums))
  {
    if line != [] {
      assert line[|line| - 1] in line;
    }
  }

  lemma {:induction false} LinesBack(lines: seq<Line>, take: Taking, show: Showing, sums: Sums, done: seq<Line>)
    requires Undoes(take, show) && SumsFit(sums) && forall line :: line in lines ==> LineFits(line)
    ensures var texts := PrintLines(lines, show, sums);
            && |texts| == |lines| && (forall text :: text in texts ==> ';' !in text)
            && Lines(texts, take, sums, done) == Some(done + lines)
    decreases |lines|
  {
    if lines == [] {
      assert done + lines == done;
    } else {
      var start := sums.(generated := 0);
      LineBack(lines[0], take, show, start);
      var after := SumsAfter(lines[0], start);
      SumsAfterFit(lines[0], start);
      LinesBack(lines[1..], take, show, after, done + [lines[0]]);
      assert done + [lines[0]] + lines[1..] == done + lines;
      assert PrintLines(lines, show, sums)[1..] == PrintLines(lines[1..], show, after);
    }
  }

  lemma OneSegmentUndoes()
    ensures Undoes(OneSegment, PrintSegment)
  {
    forall s, sums, line | Fits(s) && SumsFit(sums)
      ensures OneSegment(PrintSegment(s, sums), sums, line) == Some((SumsOf(s), line + [s]))
    {
      SegmentBack(s, sums, line);
    }
    forall s, sums ensures ',' !in PrintSegment(s, sums) && ';' !in PrintSegment(s, sums) {
      PrintedFree(s, sums, ',');
      PrintedFree(s, sums, ';');
    }
  }

  /** Parsing the delta-encoded print of a table gives the table back. */
  lemma MappingsRoundTrip(lines: seq<Line>)
    requires lines != [] && forall line :: line in lines ==> LineFits(line)
    ensures Parsed(Printed(lines)) == Some(lines)
  {
    OneSegmentUndoes();
    LinesBack(lines, OneSegment, PrintSegment, ZERO, []);
    SplitJoin(PrintLines(lines, PrintSegment, ZERO), ';');
    assert [] + lines == lines;
  }

  // ---- Segments of other lengths --------------------------------------------------

  /** Numbers that are read back, are never empty, and of which there is none at the end of a text. */
  ghost predicate Numbers(read: Reader, enc: int -> string)
  {
    && ReadBack(read, enc) && (forall v :: enc(v) != "") && (forall text: string :: read(text, |text|) == None)
  }

  predicate Small(v: int)
  {
    -U32 < v < U32
  }

  lemma LastBack(text: string, pos: nat, v: int, read: Reader, enc: int -> string)
    requires Numbers(read, enc) && Stands(text, pos, enc(v)) && Small(v)
    ensures read(text, pos) == Some((v, pos + |enc(v)|))
  {
    assert ReadBackAt(read, enc, text, pos, v);
  }

  lemma OneBack(text: string, d: int, sums: Sums, line: Line, read: Reader, enc: int -> string)
    requires Numbers(read, enc) && Small(d) && text == enc(d)
    ensures SegmentBy(text, read, sums, line) == Some((sums.(generated := sums.generated + d), line))
  {
    assert Stands(text, 0, enc(d));
    LastBack(text, 0, d, read, enc);
  }

  lemma TwoBack(text: string, a: int, b: int, sums: Sums, line: Line, read: Reader, enc: int -> string)
    requires Numbers(read, enc) && Small(a) && Small(b) && text == enc(a) + enc(b)
    ensures SegmentBy(text, read, sums, line) == None
  {
    assert Stands(text, 0, text);
    NumberBack(text, 0, a, enc(b), read, enc);
    LastBack(text, |enc(a)|, b, read, enc);
  }

  lemma OnlyThreeBack(text: string, a: int, b: int, c: int, sums: Sums, line: Line, read: Reader, enc: int -> string)
    requires Numbers(read, enc) && Small(a) && Small(b) && Small(c) && text == enc(a) + (enc(b) + enc(c))
    ensures SegmentBy(text, read, sums, line) == None
  {
    assert Stands(text, 0, text);
    NumberBack(text, 0, a, enc(b) + enc(c), read, enc);
    NumberBack(text, |enc(a)|, b, enc(c), read, enc);
    LastBack(text, |enc(a)| + |enc(b)|, c, read, enc);
    assert enc(b) != "" && |enc(a)| + |enc(b)| + |enc(c)| == |text|;
  }

  lemma NamedRest(text: string, pos: nat, sums: Sums, b: int, c: int, d: int, name: int, read: Reader, enc: int -> string)
    requires Numbers(read, enc) && Stands(text, pos, enc(b) + (enc(c) + (enc(d) + enc(name))))
    requires Small(b) && Small(c) && Small(d) && Small(name)
    ensures RestOf(text, pos, read, sums) == Some(Sums(sums.generated, sums.source + b, sums.line + c, sums.column + d))
  {
    var q := pos + |enc(b)|;
    NumberBack(text, pos, b, enc(c) + (enc(d) + enc(name)), read, enc);
    NumberBack(text, q, c, enc(d) + enc(name), read, enc);
    NumberBack(text, q + |enc(c)|, d, enc(name), read, enc);
    LastBack(text, q + |enc(c)| + |enc(d)|, name, read, enc);
  }

  lemma FiveBack(text: string, a: int, b: int, c: int, d: int, name: int, sums: Sums, line: Line, read: Reader, enc: int -> string)
    requires Numbers(read, enc) && Small(a) && Small(b) && Small(c) && Small(d) && Small(name)
    requires text == enc(a) + (enc(b) + (enc(c) + (enc(d) + enc(name))))
    ensures var sums' := Sums(sums.generated + a, sums.source + b, sums.line + c, sums.column + d);
      SegmentBy(text, read, sums, line) == Some((sums', line + [SegmentOf(sums')]))
  {
    assert Stands(text, 0, text) && enc(b) != "";
    NumberBack(text, 0, a, enc(b) + (enc(c) + (enc(d) + enc(name))), read, enc);
    NamedRest(text, |enc(a)|, sums.(generated := sums.generated + a), b, c, d, name, read, enc);
  }

  lemma EncodedNumbers()
    ensures Numbers(Read, Encoded)
  {
    EncodedReadBack();
    forall v ensures Encoded(v) != "" { EncodedSome(v); }
    forall text: string ensures Read(text, |text|) == None { NothingLeft(text); }
  }

  lemma EncodedSome(v: int)
    ensures Encoded(v) != ""
  {
  }

  /** Nothing is read at the end of a text. */
  lemma NothingLeft(text: string)
    ensures Read(text, |text|) == None
  {
  }

  /** A number alone moves the generated column and maps nothing. */
  lemma OneNumberMoves(d: int, sums: Sums, line: Line)
    requires Small(d)
    ensures OneSegment(Encoded(d), sums, line) == Some((sums.(generated := sums.generated + d), line))
  {
    EncodedNumbers();
    OneBack(Encoded(d), d, sums, line, Read, Encoded);
  }

  /** Two numbers, or three, are no segment: the whole map is refused. */
  lemma ShortSegmentRefused(a: int, b: int, c: int, sums: Sums, line: Line)
    requires Small(a) && Small(b) && Small(c)
    ensures OneSegment(Encoded(a) + Encoded(b), sums, line) == None
    ensures OneSegment(Encoded(a) + (Encoded(b) + Encoded(c)), sums, line) == None
  {
    EncodedNumbers();
    TwoBack(Encoded(a) + Encoded(b), a, b, sums, line, Read, Encoded);
    OnlyThreeBack(Encoded(a) + (Encoded(b) + Encoded(c)), a, b, c, sums, line, Read, Encoded);
  }

  /** A fifth number, a name, is read over: the segment is as the first four say. */
  lemma NameIsIgnored(a: int, b: int, c: int, d: int, name: int, sums: Sums, line: Line)
    requires Small(a) && Small(b) && Small(c) && Small(d) && Small(name)
    ensures var sums' := Sums(sums.generated + a, sums.source + b, sums.line + c, sums.column + d);
      OneSegment(Encoded(a) + (Encoded(b) + (Encoded(c) + (Encoded(d) + Encoded(name)))), sums, line)
      == Some((sums', line + [SegmentOf(sums')]))
  {
    EncodedNumbers();
    FiveBack(Encoded(a) + (Encoded(b) + (Encoded(c) + (Encoded(d) + Encoded(name)))), a, b, c, d, name, sums, line, Read, Encoded);
  }
}
