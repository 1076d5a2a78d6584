/** `multipart/form-data`: the parser and the encoder of `packages/usai/src/multipart.ts`,
    on bytes written as characters (section 5.1.1 of RFC 2046, section 4 of RFC 7578). */
module Multipart {
  import opened Wrappers

  const CRLF := "\r\n"
  const BLANK := "\r\n\r\n"
  const OCTETS := "application/octet-stream"

  datatype File = File(name: string, filename: string, contentType: string, data: string)

  /** `fields` keeps the last value of a repeated name, `all` every one in order. */
  datatype Form = Form(fields: map<string, string>, files: seq<File>, all: seq<(string, string)>)

  datatype Failure =
    | NotMultipart | NoBoundary | NoFirstBoundary | BadBoundaryLine
    | NoHeaders | NoName | NoClosingBoundary | BadName(name: string)

  // ---- Finding --------------------------------------------------------------

  predicate Occurs(text: string, needle: string, i: nat)
  {
    i + |needle| <= |text| && text[i..i + |needle|] == needle
  }

  /** The first place at or after `from` where `needle` occurs. */
  ghost predicate First(text: string, needle: string, from: nat, i: nat)
  {
    from <= i && Occurs(text, needle, i) && forall k: nat :: from <= k < i ==> !Occurs(text, needle, k)
  }

  /** That place, or -1. */
  ghost function Find(text: string, needle: string, from: nat): (i: int)
    ensures i == -1 || from <= i <= |text| - |needle|
  {
    if exists i: nat :: First(text, needle, from, i) then var i: nat :| First(text, needle, from, i); i else -1
  }

  lemma FindIs(text: string, needle: string, from: nat, i: nat)
    requires First(text, needle, from, i)
    ensures Find(text, needle, from) == i
  {
  }

  method IndexOf(haystack: string, needle: string, from: nat) returns (r: int)
    ensures r == Find(haystack, needle, from)
  {
    var i := from;
    while i + |needle| <= |haystack|
      invariant from <= i
      invariant forall k: nat :: from <= k < i ==> !Occurs(haystack, needle, k)
      decreases |haystack| - i
    {
      var j := 0;
      while j < |needle| && haystack[i + j] == needle[j]
        invariant j <= |needle| && forall k :: 0 <= k < j ==> haystack[i + k] == needle[k]
      {
        j := j + 1;
      }
      if j == |needle| {
        FindIs(haystack, needle, from, i);
        return i;
      }
      assert haystack[i..i + |needle|][j] == haystack[i + j];
      i := i + 1;
    }
    return -1;
  }

  // ---- Header parameters ----------------------------------------------------

  /** What `\s` and `trim` take for white space. */
  predicate IsSpace(c: char)
  {
    || c == ' ' || '\t' <= c <= '\r' || c == '\U{A0}' || c == '\U{1680}' || '\U{2000}' <= c <= '\U{200A}'
    || c == '\U{2028}' || c == '\U{2029}' || c == '\U{202F}' || c == '\U{205F}' || c == '\U{3000}' || c == '\U{FEFF}'
  }

  /** What `.` does not match. */
  predicate EndsLine(c: char)
  {
    c == '\n' || c == '\r' || c == '\U{2028}' || c == '\U{2029}'
  }

  function TrimLeft(s: string): string
  {
    if s != "" && IsSpace(s[0]) then TrimLeft(s[1..]) else s
  }

  function TrimRight(s: string): string
  {
    if s != "" && IsSpace(s[|s| - 1]) then TrimRight(s[..|s| - 1]) else s
  }

  function Trim(s: string): string
  {
    TrimRight(TrimLeft(s))
  }

  function Lower(c: char): char
  {
    if 'A' <= c <= 'Z' then (c as int + 32) as char else c
  }

  /** Whether `s` starts with `word`, in either case. */
  predicate StartsWith(s: string, word: string)
  {
    |word| <= |s| && forall i :: 0 <= i < |word| ==> Lower(s[i]) == Lower(word[i])
  }

  function UpTo(s: string, stop: char): string
  {
    if s == "" || s[0] == stop then "" else [s[0]] + UpTo(s[1..], stop)
  }

  /** What a quoted string holds, unescaped, after its opening quote; nothing if it does not end. */
  function Quoted(s: string): Option<string>
  {
    if s == "" then None
    else if s[0] == '"' then Some("")
    else if s[0] != '\\' then Prepend(s[0], Quoted(s[1..]))
    else if |s| >= 2 && !EndsLine(s[1]) then Prepend(s[1], Quoted(s[2..]))
    else None
  }

  function Prepend(c: char, s: Option<string>): Option<string>
  {
    match s
    case None => None
    case Some(t) => Some([c] + t)
  }

  /** A parameter's value, quoted or bare. */
  function ValueOf(s: string): string
  {
    if s != "" && s[0] == '"' && Quoted(s[1..]).Some? then Quoted(s[1..]).value else Trim(UpTo(s, ';'))
  }

  function ParameterHere(s: string, name: string): Option<string>
  {
    var t := TrimLeft(s);
    if !StartsWith(t, name) then None else
      var u := TrimLeft(t[|name|..]);
      if u != "" && u[0] == '=' then Some(ValueOf(TrimLeft(u[1..]))) else None
  }

  function ParameterAfter(s: string, name: string): Option<string>
  {
    if s == "" then None
    else if s[0] == ';' && ParameterHere(s[1..], name).Some? then ParameterHere(s[1..], name)
    else ParameterAfter(s[1..], name)
  }

  /** `parameter`: at the start of the header, or after the first `;` that it follows. */
  function Parameter(s: string, name: string): Option<string>
  {
    if ParameterHere(s, name).Some? then ParameterHere(s, name) else ParameterAfter(s, name)
  }

  /** The pieces between CRLFs. */
  function Lines(s: string): (lines: seq<string>)
    ensures lines != []
  {
    if s == "" then [""]
    else if CRLF <= s then [""] + Lines(s[2..])
    else var rest := Lines(s[1..]); [[s[0]] + rest[0]] + rest[1..]
  }

  /** The value of the first header of this name. */
  function Header(lines: seq<string>, name: string): Option<string>
  {
    if lines == [] then None
    else if StartsWith(lines[0], name) then Some(Trim(lines[0][|name|..]))
    else Header(lines[1..], name)
  }

  predicate IsWord(c: char)
  {
    'a' <= c <= 'z' || 'A' <= c <= 'Z' || '0' <= c <= '9' || c == '_'
  }

  const FORM_DATA := "multipart/form-data"

  predicate IsFormData(contentType: string)
  {
    StartsWith(contentType, FORM_DATA) && (|contentType| > |FORM_DATA| ==> !IsWord(contentType[|FORM_DATA|]))
  }

  // ---- Parsing --------------------------------------------------------------

  /** What a part's headers say of it. */
  datatype Content = Content(name: string, filename: Option<string>, contentType: string)

  function ContentOf(block: string): Option<Content>
  {
    var headers := Lines(block);
    var disposition := match Header(headers, "content-disposition:") case Some(d) => d case None => "";
    var contentType := match Header(headers, "content-type:") case Some(t) => t case None => OCTETS;
    match Parameter(disposition, "name")
    case None => None
    case Some(name) => Some(Content(name, Parameter(disposition, "filename"), contentType))
  }

  function Pushed(out: Form, c: Content, data: string): Form
  {
    match c.filename
    case Some(filename) => out.(files := out.files + [File(c.name, filename, c.contentType, data)])
    case None => out.(fields := out.fields[c.name := data], all := out.all + [(c.name, data)])
  }

  /** The data between its start and a delimiter: the CRLF before that belongs to the framing. */
  function Data(body: string, start: nat, next: nat): string
    requires 2 <= start <= next <= |body|
  {
    var end := if body[next - 2] == '\r' && body[next - 1] == '\n' then next - 2 else next;
    if start <= end then body[start..end] else ""
  }

  /** How a part's headers are read; the walk over the body is the same for any reading. */
  type Reading = string -> Option<Content>

  /** What a turn of the parser's loop comes to: the end, or a cursor further on. */
  datatype Turn = Finish(r: Result<Form, Failure>) | On(at: nat, out: Form)

  predicate Pair(body: string, at: nat, a: char, b: char)
  {
    at + 1 < |body| && body[at] == a && body[at + 1] == b
  }

  /** A part whose headers, already read, end here. */
  ghost function PartOf(body: string, headersEnd: nat, delimiter: string, content: Option<Content>, out: Form): (t: Turn)
    requires delimiter != "" && headersEnd + 4 <= |body|
    ensures t.On? ==> headersEnd < t.at <= |body|
  {
    var next := Find(body, delimiter, headersEnd + 4);
    if content.None? then Finish(Err(NoName))
    else if next < 2 then Finish(Err(NoClosingBoundary))
    else On(next + |delimiter|, Pushed(out, content.value, Data(body, headersEnd + 4, next)))
  }

  /** One turn, from just past a delimiter: the end of the body, or one part of it. */
  ghost function TurnOf(body: string, at: nat, delimiter: string, read: Reading, out: Form): (t: Turn)
    requires delimiter != "" && at <= |body|
    ensures t.On? ==> at < t.at <= |body|
  {
    if Pair(body, at, '-', '-') then Finish(Ok(out))
    else if !Pair(body, at, '\r', '\n') then Finish(Err(BadBoundaryLine))
    else
      var headersEnd := Find(body, BLANK, at + 2);
      if headersEnd < 0 then Finish(Err(NoHeaders))
      else PartOf(body, headersEnd, delimiter, read(body[at + 2..headersEnd]), out)
  }

  ghost function Parts(body: string, at: nat, delimiter: string, read: Reading, out: Form): Result<Form, Failure>
    requires delimiter != "" && at <= |body|
    decreases |body| - at
  {
    match TurnOf(body, at, delimiter, read, out)
    case Finish(r) => r
    case On(at', out') => Parts(body, at', delimiter, read, out')
  }

  const START := Form(map[], [], [])

  ghost function Parsed(body: string, contentType: Option<string>): Result<Form, Failure>
  {
    match contentType
    case None => Err(NotMultipart)
    case Some(text) =>
      if !IsFormData(text) then Err(NotMultipart) else
        match Parameter(text, "boundary")
        case None => Err(NoBoundary)
        case Some(boundary) => if boundary == "" then Err(NoBoundary) else Split(body, "--" + boundary, ContentOf)
  }

  ghost function Split(body: string, delimiter: string, read: Reading): Result<Form, Failure>
    requires delimiter != ""
  {
    var at := Find(body, delimiter, 0);
    if at < 0 then Err(NoFirstBoundary) else Parts(body, at + |delimiter|, delimiter, read, START)
  }

  /** `parseMultipart`. */
  method Parse(body: string, contentType: Option<string>) returns (r: Result<Form, Failure>)
    ensures r == Parsed(body, contentType)
  {
    if contentType.None? || !IsFormData(contentType.value) {
      return Err(NotMultipart);
    }
    var boundary := Parameter(contentType.value, "boundary");
    if boundary.None? || boundary.value == "" {
      return Err(NoBoundary);
    }
    r := TakeParts(body, "--" + boundary.value, ContentOf);
  }

  /** The parser's loop: the cursor moves past a delimiter each time round. */
  method TakeParts(body: string, delimiter: string, read: Reading) returns (r: Result<Form, Failure>)
    requires delimiter != ""
    ensures r == Split(body, delimiter, read)
  {
    var first := IndexOf(body, delimiter, 0);
    if first < 0 {
      return Err(NoFirstBoundary);
    }
    var at: nat, out := first + |delimiter|, START;
    var done := false;
    r := Ok(out);
    while !done
      invariant at <= |body|
      invariant Split(body, delimiter, read) == if done then r else Parts(body, at, delimiter, read, out)
      decreases if done then 0 else 1 + |body| - at
    {
      var turn := TakeTurn(body, at, delimiter, read, out);
      match turn {
        case Finish(result) => done, r := true, result;
        case On(at', out') => at, out := at', out';
      }
    }
  }

  method TakeTurn(body: string, at: nat, delimiter: string, read: Reading, out: Form) returns (turn: Turn)
    requires delimiter != "" && at <= |body|
    ensures turn == TurnOf(body, at, delimiter, read, out)
  {
    if Pair(body, at, '-', '-') {
      return Finish(Ok(out));
    }
    if !Pair(body, at, '\r', '\n') {
      return Finish(Err(BadBoundaryLine));
    }
    var headersEnd := IndexOf(body, BLANK, at + 2);
    if headersEnd < 0 {
      return Finish(Err(NoHeaders));
    }
    var content := read(body[at + 2..headersEnd]);
    if content.None? {
      return Finish(Err(NoName));
    }
    var dataStart := headersEnd + 4;
    var next := IndexOf(body, delimiter, dataStart);
    if next < 2 {
      return Finish(Err(NoClosingBoundary));
    }
    turn := On(next + |delimiter|, Pushed(out, content.value, Data(body, dataStart, next)));
  }

  // ---- Encoding -------------------------------------------------------------

  datatype Part =
    | Text(name: string, value: string)
    | Upload(name: string, filename: string, contentType: Option<string>, data: string)

  predicate NameSafe(s: string)
  {
    s != "" && forall i :: 0 <= i < |s| ==> s[i] !in "\"\r\n;="
  }

  /** A filename with quotes and backslashes replaced. */
  function Sanitized(s: string): string
  {
    seq(|s|, i requires 0 <= i < |s| => if s[i] == '"' || s[i] == '\\' then '_' else s[i])
  }

  /** Sanitising replaces quotes and backslashes by underscores and nothing else. */
  lemma SanitizedEach(a: string, c: char, b: string)
    ensures Sanitized(a + [c] + b) == Sanitized(a) + (if c in "\"\\" then "_" else [c]) + Sanitized(b)
  {
  }

  function TypeOf(p: Part): string
    requires p.Upload?
  {
    match p.contentType
    case Some(t) => t
    case None => OCTETS
  }

  /** A disposition with this name, and what follows it. */
  function Disposition(name: string, rest: string): string
  {
    "form-data" + (";" + (" " + ("name" + ("=\"" + (name + ("\"" + rest))))))
  }

  function FilenameSuffix(filename: string): string
  {
    ";" + (" " + ("filename" + ("=\"" + (filename + ("\"" + "")))))
  }

  function DispositionOf(p: Part): string
  {
    match p
    case Text(name, _) => Disposition(name, "")
    case Upload(name, filename, _, _) => Disposition(name, FilenameSuffix(Sanitized(filename)))
  }

  function Headers(p: Part): string
  {
    var line := "Content-Disposition:" + (" " + DispositionOf(p));
    match p
    case Text(_, _) => line
    case Upload(_, _, _, _) => line + (CRLF + ("Content-Type:" + (" " + TypeOf(p))))
  }

  function DataOf(p: Part): string
  {
    match p
    case Text(_, value) => value
    case Upload(_, _, _, data) => data
  }

  /** One framed part: its delimiter, its headers, its data. */
  function Frame(delimiter: string, h: string, data: string): string
  {
    delimiter + (CRLF + (h + (BLANK + (data + CRLF))))
  }

  function Frames(pieces: seq<Piece>, delimiter: string): string
  {
    if pieces == [] then delimiter + "--\r\n"
    else Frame(delimiter, pieces[0].headers, pieces[0].data) + Frames(pieces[1..], delimiter)
  }

  datatype Piece = Piece(headers: string, data: string)

  function Pieces(parts: seq<Part>): seq<Piece>
  {
    if parts == [] then [] else [Piece(Headers(parts[0]), DataOf(parts[0]))] + Pieces(parts[1..])
  }

  /** The `content-type` to send with a body. */
  function ContentType(boundary: string): string
  {
    FORM_DATA + (";" + (" " + ("boundary" + ("=" + boundary))))
  }

  function FirstUnsafe(parts: seq<Part>): Option<string>
  {
    if parts == [] then None
    else if !NameSafe(parts[0].name) then Some(parts[0].name)
    else FirstUnsafe(parts[1..])
  }

  function Encoded(parts: seq<Part>, boundary: string): Result<(string, string), Failure>
  {
    match FirstUnsafe(parts)
    case Some(name) => Err(BadName(name))
    case None => Ok((Frames(Pieces(parts), "--" + boundary), ContentType(boundary)))
  }

  function Joined(chunks: seq<string>): string
  {
    if chunks == [] then "" else chunks[0] + Joined(chunks[1..])
  }

  lemma JoinedSnoc(chunks: seq<string>, last: string)
    ensures Joined(chunks + [last]) == Joined(chunks) + last
  {
    if chunks != [] {
      JoinedSnoc(chunks[1..], last);
      assert (chunks + [last])[1..] == chunks[1..] + [last];
    }
  }

  lemma FramePushed(chunks: seq<string>, pieces: seq<Piece>, delimiter: string)
    requires pieces != []
    ensures Joined(chunks + [Frame(delimiter, pieces[0].headers, pieces[0].data)]) + Frames(pieces[1..], delimiter)
         == Joined(chunks) + Frames(pieces, delimiter)
  {
    var frame, after := Frame(delimiter, pieces[0].headers, pieces[0].data), Frames(pieces[1..], delimiter);
    JoinedSnoc(chunks, frame);
    Associates(Joined(chunks), frame, after);
  }

  lemma Associates(a: string, b: string, c: string)
    ensures (a + b) + c == a + (b + c)
  {
  }

  lemma PiecesRest(parts: seq<Part>, i: nat)
    requires i < |parts|
    ensures Pieces(parts[i..]) != [] && Pieces(parts[i..])[1..] == Pieces(parts[i + 1..])
    ensures Pieces(parts[i..])[0] == Piece(Headers(parts[i]), DataOf(parts[i]))
    ensures FirstUnsafe(parts[i..]) == if NameSafe(parts[i].name) then FirstUnsafe(parts[i + 1..]) else Some(parts[i].name)
  {
    assert parts[i..][1..] == parts[i + 1..];
  }

  /** `encodeMultipart`: the chunks are collected, then copied into one buffer. */
  method Encode(parts: seq<Part>, boundary: string) returns (r: Result<(string, string), Failure>)
    ensures r == Encoded(parts, boundary)
  {
    var delimiter := "--" + boundary;
    var chunks: seq<string> := [];
    var i := 0;
    while i < |parts|
      invariant i <= |parts| && FirstUnsafe(parts[i..]) == FirstUnsafe(parts)
      invariant Joined(chunks) + Frames(Pieces(parts[i..]), delimiter) == Frames(Pieces(parts), delimiter)
    {
      PiecesRest(parts, i);
      if !NameSafe(parts[i].name) {
        return Err(BadName(parts[i].name));
      }
      FramePushed(chunks, Pieces(parts[i..]), delimiter);
      chunks := chunks + [Frame(delimiter, Headers(parts[i]), DataOf(parts[i]))];
      i := i + 1;
    }
    JoinedSnoc(chunks, delimiter + "--\r\n");
    var body := Join(chunks + [delimiter + "--\r\n"]);
    return Ok((body, ContentType(boundary)));
  }

  method Join(chunks: seq<string>) returns (text: string)
    ensures text == Joined(chunks)
  {
    var total := 0;
    for i := 0 to |chunks|
      invariant total == |Joined(chunks[..i])|
    {
      JoinedSnoc(chunks[..i], chunks[i]);
      assert chunks[..i + 1] == chunks[..i] + [chunks[i]];
      total := total + |chunks[i]|;
    }
    assert chunks[..|chunks|] == chunks;
    var body := new char[total](_ => ' ');
    var at := 0;
    for i := 0 to |chunks|
      invariant at == |Joined(chunks[..i])| && at + |Joined(chunks[i..])| == total
      invariant body[..at] == Joined(chunks[..i])
    {
      assert chunks[i..][1..] == chunks[i + 1..];
      JoinedSnoc(chunks[..i], chunks[i]);
      assert chunks[..i + 1] == chunks[..i] + [chunks[i]];
      Set(body, at, chunks[i]);
      at := at + |chunks[i]|;
    }
    text := body[..];
  }

  /** `Uint8Array.set`. */
  method Set(body: array<char>, at: nat, chunk: string)
    requires at + |chunk| <= body.Length
    modifies body
    ensures body[..at + |chunk|] == old(body[..at]) + chunk
  {
    for j := 0 to |chunk|
      invariant body[..at] == old(body[..at]) && body[at..at + j] == chunk[..j]
    {
      body[at + j] := chunk[j];
    }
  }

  // ---- What comes back ------------------------------------------------------

  predicate Free(s: string, c: char)
  {
    c !in s
  }

  /** A boundary that a header and a body can carry. */
  predicate BoundaryOk(b: string)
  {
    b != "" && Trim(b) == b && Free(b, '\r') && Free(b, '\n') && Free(b, '"') && Free(b, ';')
  }

  ghost predicate Absent(text: string, needle: string)
  {
    forall k: nat :: !Occurs(text, needle, k)
  }

  /** A part that comes back: its data does not hold the delimiter, and no header breaks a line. */
  ghost predicate PartOk(p: Part, delimiter: string)
  {
    && NameSafe(p.name) && Free(p.name, '\\')
    && Absent(DataOf(p), delimiter)
    && (p.Upload? ==> Free(p.filename, '\r') && Free(p.filename, '\n') && Free(TypeOf(p), '\r') && Free(TypeOf(p), '\n'))
  }

  function ContentFor(p: Part): Content
  {
    match p
    case Text(name, _) => Content(name, None, OCTETS)
    case Upload(name, filename, _, _) => Content(name, Some(Sanitized(filename)), Trim(TypeOf(p)))
  }

  function Collected(parts: seq<Part>, out: Form): Form
  {
    if parts == [] then out else Collected(parts[1..], Pushed(out, ContentFor(parts[0]), DataOf(parts[0])))
  }

  // ---- The framing round trip, for any reading of the headers ----------------

  lemma OccursSplit(text: string, a: string, b: string, i: nat)
    requires Occurs(text, a + b, i)
    ensures Occurs(text, a, i) && Occurs(text, b, i + |a|)
  {
    var ab := text[i..i + |a| + |b|];
    assert ab[..|a|] == a && ab[|a|..] == b;
    assert text[i..i + |a|] == ab[..|a|];
    assert text[i + |a|..i + |a| + |b|] == ab[|a|..];
  }

  lemma OccursAt(text: string, s: string, i: nat, j: nat)
    requires Occurs(text, s, i) && j < |s|
    ensures text[i + j] == s[j]
  {
    assert text[i..i + |s|][j] == text[i + j];
  }

  /** No blank line before the one that ends the headers. */
  predicate NoBlankIn(h: string)
  {
    forall j :: 0 <= j < |h| && h[j] == '\r' ==> j + 2 < |h| && h[j + 2] != '\r'
  }

  lemma HeadersEnd(text: string, at: nat, h: string)
    requires Occurs(text, h + BLANK, at) && NoBlankIn(h)
    ensures Find(text, BLANK, at) == at + |h| && text[at..at + |h|] == h
  {
    OccursSplit(text, h, BLANK, at);
    forall k: nat | at <= k < at + |h| ensures !Occurs(text, BLANK, k) {
      OccursAt(text, h, at, k - at);
      if Occurs(text, BLANK, k) {
        OccursAt(text, BLANK, k, 0);
        OccursAt(text, BLANK, k, 2);
        OccursAt(text, h, at, k - at + 2);
      }
    }
    FindIs(text, BLANK, at, at + |h|);
  }

  lemma InnerSlice(text: string, s: string, at: nat, k: nat, n: nat)
    requires Occurs(text, s, at) && at <= k && k + n <= at + |s|
    ensures s[k - at..k - at + n] == text[k..k + n]
  {
    forall j | k <= j < k + n ensures s[j - at] == text[j] {
      OccursAt(text, s, at, j - at);
    }
    var a, b := s[k - at..k - at + n], text[k..k + n];
    assert forall i :: 0 <= i < n ==> a[i] == s[k + i - at] && b[i] == text[k + i];
  }

  lemma NotAcross(text: string, needle: string, k: nat, j: nat)
    requires k <= j < k + |needle| && j < |text| && Free(needle, text[j])
    ensures !Occurs(text, needle, k)
  {
    if k + |needle| <= |text| {
      assert text[k..k + |needle|][j - k] == text[j];
    }
  }

  lemma DataEnds(text: string, at: nat, data: string, delimiter: string)
    requires Occurs(text, data + CRLF + delimiter, at) && delimiter != ""
    requires Absent(data, delimiter)
    requires Free(delimiter, '\r') && Free(delimiter, '\n')
    ensures Find(text, delimiter, at) == at + |data| + 2
    ensures at >= 2 ==> Data(text, at, at + |data| + 2) == data
  {
    var end := at + |data|;
    OccursSplit(text, data + CRLF, delimiter, at);
    OccursSplit(text, data, CRLF, at);
    OccursAt(text, CRLF, end, 0);
    OccursAt(text, CRLF, end, 1);
    forall k: nat | at <= k < end + 2 ensures !Occurs(text, delimiter, k) {
      if k + |delimiter| <= end {
        InnerSlice(text, data, at, k, |delimiter|);
        assert !Occurs(data, delimiter, k - at);
      } else {
        NotAcross(text, delimiter, k, if k <= end then end else end + 1);
      }
    }
    FindIs(text, delimiter, at, end + 2);
  }

  lemma TurnIs(text: string, at: nat, headersEnd: nat, next: nat, c: Content, delimiter: string, read: Reading, out: Form)
    requires at + 2 <= headersEnd && headersEnd + 4 <= next <= |text| && delimiter != ""
    requires Pair(text, at, '\r', '\n') && Find(text, BLANK, at + 2) == headersEnd
    requires read(text[at + 2..headersEnd]) == Some(c) && Find(text, delimiter, headersEnd + 4) == next
    ensures TurnOf(text, at, delimiter, read, out)
         == On(next + |delimiter|, Pushed(out, c, Data(text, headersEnd + 4, next)))
  {
  }

  lemma OpensPart(text: string, at: nat)
    requires Occurs(text, CRLF, at)
    ensures Pair(text, at, '\r', '\n')
  {
    OccursAt(text, CRLF, at, 0);
    OccursAt(text, CRLF, at, 1);
  }

  lemma HeadersFound(text: string, at: nat, h: string, data: string, delimiter: string)
    requires PartAt(text, at, h, data, delimiter) && NoBlankIn(h)
    ensures Find(text, BLANK, at + 2) == at + 2 + |h| <= |text| && text[at + 2..at + 2 + |h|] == h
  {
    HeadersEnd(text, at + 2, h);
  }

  lemma DataFound(text: string, at: nat, h: string, data: string, delimiter: string)
    requires PartAt(text, at, h, data, delimiter) && Absent(data, delimiter)
    requires delimiter != "" && Free(delimiter, '\r') && Free(delimiter, '\n')
    ensures at + |h| + |data| + 8 + |delimiter| <= |text|
    ensures Find(text, delimiter, at + |h| + 6) == at + |h| + |data| + 8
    ensures Data(text, at + |h| + 6, at + |h| + |data| + 8) == data
  {
    DataEnds(text, at + |h| + 6, data, delimiter);
  }

  lemma PartTurn(text: string, at: nat, h: string, data: string, delimiter: string, read: Reading, out: Form)
    requires PartAt(text, at, h, data, delimiter)
    requires NoBlankIn(h) && read(h).Some? && Absent(data, delimiter)
    requires delimiter != "" && Free(delimiter, '\r') && Free(delimiter, '\n')
    ensures at + |h| + |data| + 8 + |delimiter| <= |text|
    ensures TurnOf(text, at, delimiter, read, out)
         == On(at + |h| + |data| + 8 + |delimiter|, Pushed(out, read(h).value, data))
  {
    OpensPart(text, at);
    HeadersFound(text, at, h, data, delimiter);
    DataFound(text, at, h, data, delimiter);
    TurnIs(text, at, at + 2 + |h|, at + |h| + |data| + 8, read(h).value, delimiter, read, out);
  }

  lemma FrameIs(delimiter: string, h: string, data: string, rest: string)
    ensures Frame(delimiter, h, data) + rest == delimiter + (CRLF + ((h + BLANK) + (data + (CRLF + rest))))
  {
    var tail := data + (CRLF + rest);
    assert (data + CRLF) + rest == tail;
    assert (BLANK + (data + CRLF)) + rest == BLANK + tail;
    assert (h + (BLANK + (data + CRLF))) + rest == (h + BLANK) + tail;
  }

  lemma FrameSplits(text: string, from: nat, delimiter: string, h: string, data: string, rest: string)
    requires Occurs(text, Frame(delimiter, h, data) + rest, from)
    ensures var at := from + |delimiter|;
            && Occurs(text, CRLF, at) && Occurs(text, h + BLANK, at + 2) && Occurs(text, data, at + |h| + 6)
            && Occurs(text, CRLF + rest, at + |h| + |data| + 6)
  {
    var at, tail := from + |delimiter|, data + (CRLF + rest);
    FrameIs(delimiter, h, data, rest);
    OccursSplit(text, delimiter, CRLF + ((h + BLANK) + tail), from);
    OccursSplit(text, CRLF, (h + BLANK) + tail, at);
    OccursSplit(text, h + BLANK, tail, at + 2);
    OccursSplit(text, data, CRLF + rest, at + |h| + 6);
  }

  lemma OccursJoin(text: string, a: string, b: string, i: nat)
    requires Occurs(text, a, i) && Occurs(text, b, i + |a|)
    ensures Occurs(text, a + b, i)
  {
    assert text[i..i + |a| + |b|] == text[i..i + |a|] + text[i + |a|..i + |a| + |b|];
  }

  /** What follows the data is a CRLF and what starts with a delimiter. */
  lemma DataFramed(text: string, at: nat, data: string, rest: string, delimiter: string)
    requires Occurs(text, data, at) && Occurs(text, CRLF + rest, at + |data|) && Occurs(rest, delimiter, 0)
    ensures Occurs(text, data + CRLF + delimiter, at) && Occurs(text, rest, at + |data| + 2)
  {
    OccursSplit(text, CRLF, rest, at + |data|);
    InnerSlice(text, rest, at + |data| + 2, at + |data| + 2, |delimiter|);
    OccursJoin(text, data, CRLF, at);
    OccursJoin(text, data + CRLF, delimiter, at);
  }

  /** A piece that can be framed, and that this reading finds a name in. */
  ghost predicate PieceOk(piece: Piece, delimiter: string, read: Reading)
  {
    NoBlankIn(piece.headers) && read(piece.headers).Some? && Absent(piece.data, delimiter)
  }

  ghost predicate PiecesOk(pieces: seq<Piece>, delimiter: string, read: Reading)
  {
    forall piece :: piece in pieces ==> PieceOk(piece, delimiter, read)
  }

  function Gathered(pieces: seq<Piece>, read: Reading, out: Form): Form
  {
    if pieces == [] then out
    else match read(pieces[0].headers)
      case None => out
      case Some(c) => Gathered(pieces[1..], read, Pushed(out, c, pieces[0].data))
  }

  lemma FramesStart(pieces: seq<Piece>, delimiter: string)
    ensures Occurs(Frames(pieces, delimiter), delimiter, 0)
  {
  }

  lemma NextFrame(text: string, from: nat, piece: Piece, rest: string, delimiter: string)
    requires Occurs(text, Frame(delimiter, piece.headers, piece.data) + rest, from) && Occurs(rest, delimiter, 0)
    ensures PartAt(text, from + |delimiter|, piece.headers, piece.data, delimiter)
    ensures Occurs(text, rest, from + |delimiter| + PartSize(piece))
  {
    FrameSplits(text, from, delimiter, piece.headers, piece.data, rest);
    DataFramed(text, from + |delimiter| + |piece.headers| + 6, piece.data, rest, delimiter);
  }

  lemma FramesUnfold(text: string, from: nat, pieces: seq<Piece>, delimiter: string)
    requires pieces != [] && Occurs(text, Frames(pieces, delimiter), from)
    ensures var h, data, at := pieces[0].headers, pieces[0].data, from + |delimiter|;
            && PartAt(text, at, h, data, delimiter)
            && Occurs(text, Frames(pieces[1..], delimiter), at + PartSize(pieces[0]))
  {
    var rest := Frames(pieces[1..], delimiter);
    assert Occurs(text, Frame(delimiter, pieces[0].headers, pieces[0].data) + rest, from);
    assert Occurs(rest, delimiter, 0) by { FramesStart(pieces[1..], delimiter); }
    NextFrame(text, from, pieces[0], rest, delimiter);
  }

  /** One part's framing, from the CRLF after its delimiter to the next delimiter. */
  predicate PartAt(text: string, at: nat, h: string, data: string, delimiter: string)
  {
    && Occurs(text, CRLF, at) && Occurs(text, h + BLANK, at + 2)
    && Occurs(text, data + CRLF + delimiter, at + |h| + 6)
  }

  function PartSize(piece: Piece): nat
  {
    |piece.headers| + |piece.data| + 8
  }

  /** Where the parts of a body stand, from after their first delimiter. */
  predicate Framed(text: string, at: nat, pieces: seq<Piece>, delimiter: string)
    decreases |pieces|
  {
    if pieces == [] then Pair(text, at, '-', '-')
    else
      && PartAt(text, at, pieces[0].headers, pieces[0].data, delimiter)
      && Framed(text, at + PartSize(pieces[0]) + |delimiter|, pieces[1..], delimiter)
  }

  lemma LastFrame(text: string, from: nat, delimiter: string)
    requires Occurs(text, delimiter + "--\r\n", from)
    ensures Pair(text, from + |delimiter|, '-', '-')
  {
    OccursAt(text, delimiter + "--\r\n", from, |delimiter|);
    OccursAt(text, delimiter + "--\r\n", from, |delimiter| + 1);
  }

  lemma {:induction false} FramesAreFramed(text: string, from: nat, pieces: seq<Piece>, delimiter: string)
    requires Occurs(text, Frames(pieces, delimiter), from)
    ensures Framed(text, from + |delimiter|, pieces, delimiter)
    decreases |pieces|
  {
    if pieces == [] {
      LastFrame(text, from, delimiter);
    } else {
      FramesUnfold(text, from, pieces, delimiter);
      FramesAreFramed(text, from + |delimiter| + PartSize(pieces[0]), pieces[1..], delimiter);
    }
  }

  /** The parser takes the parts one by one, and then ends. */
  ghost predicate Walks(text: string, at: nat, pieces: seq<Piece>, delimiter: string, read: Reading, out: Form)
    decreases |pieces|
  {
    && delimiter != "" && at <= |text|
    && var turn := TurnOf(text, at, delimiter, read, out);
    if pieces == [] then turn == Finish(Ok(out))
    else
      && read(pieces[0].headers).Some?
      && turn == On(at + PartSize(pieces[0]) + |delimiter|, Pushed(out, read(pieces[0].headers).value, pieces[0].data))
      && Walks(text, turn.at, pieces[1..], delimiter, read, turn.out)
  }

  lemma PieceTurn(text: string, at: nat, piece: Piece, delimiter: string, read: Reading, out: Form)
    requires PartAt(text, at, piece.headers, piece.data, delimiter) && PieceOk(piece, delimiter, read)
    requires delimiter != "" && Free(delimiter, '\r') && Free(delimiter, '\n')
    ensures at + PartSize(piece) + |delimiter| <= |text|
    ensures TurnOf(text, at, delimiter, read, out)
         == On(at + PartSize(piece) + |delimiter|, Pushed(out, read(piece.headers).value, piece.data))
  {
    PartTurn(text, at, piece.headers, piece.data, delimiter, read, out);
  }

  lemma EndWalks(text: string, at: nat, delimiter: string, read: Reading, out: Form)
    requires Pair(text, at, '-', '-') && delimiter != "" && at <= |text|
    ensures Walks(text, at, [], delimiter, read, out)
  {
  }

  lemma StepWalks(text: string, at: nat, next: nat, pieces: seq<Piece>, delimiter: string, read: Reading, out: Form, out': Form)
    requires pieces != [] && delimiter != "" && at <= |text| && read(pieces[0].headers).Some?
    requires next == at + PartSize(pieces[0]) + |delimiter|
    requires out' == Pushed(out, read(pieces[0].headers).value, pieces[0].data)
    requires TurnOf(text, at, delimiter, read, out) == On(next, out') && Walks(text, next, pieces[1..], delimiter, read, out')
    ensures Walks(text, at, pieces, delimiter, read, out)
  {
  }

  lemma {:induction false} FramedWalks(text: string, at: nat, pieces: seq<Piece>, delimiter: string, read: Reading, out: Form)
    requires Framed(text, at, pieces, delimiter) && at <= |text|
    requires PiecesOk(pieces, delimiter, read) && delimiter != "" && Free(delimiter, '\r') && Free(delimiter, '\n')
    ensures Walks(text, at, pieces, delimiter, read, out)
    decreases |pieces|
  {
    if pieces == [] {
      EndWalks(text, at, delimiter, read, out);
    } else {
      var piece := pieces[0];
      assert PieceOk(piece, delimiter, read);
      var next, out' := at + PartSize(piece) + |delimiter|, Pushed(out, read(piece.headers).value, piece.data);
      PieceTurn(text, at, piece, delimiter, read, out);
      FramedWalks(text, next, pieces[1..], delimiter, read, out');
      StepWalks(text, at, next, pieces, delimiter, read, out, out');
    }
  }

  lemma {:induction false} WalksParse(text: string, at: nat, pieces: seq<Piece>, delimiter: string, read: Reading, out: Form)
    requires Walks(text, at, pieces, delimiter, read, out)
    ensures Parts(text, at, delimiter, read, out) == Ok(Gathered(pieces, read, out))
    decreases |pieces|
  {
    if pieces != [] {
      var turn := TurnOf(text, at, delimiter, read, out);
      WalksParse(text, turn.at, pieces[1..], delimiter, read, turn.out);
    }
  }

  lemma FramesWalk(text: string, pieces: seq<Piece>, delimiter: string, read: Reading, out: Form)
    requires PiecesOk(pieces, delimiter, read) && delimiter != "" && Free(delimiter, '\r') && Free(delimiter, '\n')
    requires text == Frames(pieces, delimiter)
    ensures Find(text, delimiter, 0) == 0 && Walks(text, |delimiter|, pieces, delimiter, read, out)
  {
    assert Find(text, delimiter, 0) == 0 by {
      FramesStart(pieces, delimiter);
      FindIs(text, delimiter, 0, 0);
    }
    assert Framed(text, |delimiter|, pieces, delimiter) by {
      assert Occurs(text, text, 0);
      FramesAreFramed(text, 0, pieces, delimiter);
    }
    FramedWalks(text, |delimiter|, pieces, delimiter, read, out);
  }

  lemma WalksSplit(text: string, pieces: seq<Piece>, delimiter: string, read: Reading)
    requires Find(text, delimiter, 0) == 0 && Walks(text, |delimiter|, pieces, delimiter, read, START)
    ensures Split(text, delimiter, read) == Ok(Gathered(pieces, read, START))
  {
    WalksParse(text, |delimiter|, pieces, delimiter, read, START);
  }

  /** Whatever the parts are, parsing their frames gives them back in order. */
  lemma FramesParse(pieces: seq<Piece>, delimiter: string, read: Reading)
    requires PiecesOk(pieces, delimiter, read) && delimiter != "" && Free(delimiter, '\r') && Free(delimiter, '\n')
    ensures Split(Frames(pieces, delimiter), delimiter, read) == Ok(Gathered(pieces, read, START))
  {
    var text := Frames(pieces, delimiter);
    FramesWalk(text, pieces, delimiter, read, START);
    WalksSplit(text, pieces, delimiter, read);
  }

  // ---- Reading back the headers ----------------------------------------------

  lemma {:induction false} LinesFirst(line: string, rest: string)
    requires Free(line, '\r')
    ensures Lines(line + (CRLF + rest)) == [line] + Lines(rest)
  {
    var s := line + (CRLF + rest);
    if line == "" {
      assert s[2..] == rest;
    } else {
      LinesFirst(line[1..], rest);
      assert s[1..] == line[1..] + (CRLF + rest);
      assert s[0] == line[0] != '\r' && line == [line[0]] + line[1..];
      assert Lines(s) == [[s[0]] + Lines(s[1..])[0]] + Lines(s[1..])[1..];
    }
  }

  lemma {:induction false} LinesOnly(line: string)
    requires Free(line, '\r')
    ensures Lines(line) == [line]
  {
    if line != "" {
      LinesOnly(line[1..]);
      assert line[0] != '\r' && line == [line[0]] + line[1..];
    }
  }

  lemma {:induction false} QuotedBack(s: string, rest: string)
    requires Free(s, '"') && Free(s, '\\')
    ensures Quoted(s + ("\"" + rest)) == Some(s)
  {
    var t := s + ("\"" + rest);
    if s != "" {
      QuotedBack(s[1..], rest);
      assert t[1..] == s[1..] + ("\"" + rest);
      assert t[0] == s[0] && s == [s[0]] + s[1..];
    }
  }

  lemma {:induction false} AfterSkips(s: string, rest: string, name: string)
    requires Free(s, ';')
    ensures ParameterAfter(s + rest, name) == ParameterAfter(rest, name)
  {
    if s == "" {
      assert s + rest == rest;
    } else {
      AfterSkips(s[1..], rest, name);
      assert (s + rest)[1..] == s[1..] + rest;
    }
  }

  lemma TrimmedHere(s: string)
    requires s != "" && !IsSpace(s[0])
    ensures TrimLeft(" " + s) == s && TrimLeft(s) == s
  {
    assert (" " + s)[1..] == s;
  }

  lemma StartsSelf(word: string, rest: string)
    ensures StartsWith(word + rest, word)
  {
  }

  /** A quoted parameter is found where it stands. */
  lemma HereQuoted(word: string, value: string, rest: string)
    requires word != "" && !IsSpace(word[0]) && Free(value, '"') && Free(value, '\\')
    ensures ParameterHere(" " + (word + ("=\"" + (value + ("\"" + rest)))), word) == Some(value)
  {
    var quoted := "\"" + (value + ("\"" + rest));
    var tail := "=\"" + (value + ("\"" + rest));
    assert tail == "=" + quoted;
    TrimmedHere(word + tail);
    StartsSelf(word, tail);
    assert (word + tail)[|word|..] == tail;
    TrimmedHere(tail);
    assert tail[1..] == quoted;
    TrimmedHere(quoted);
    assert quoted[1..] == value + ("\"" + rest);
    QuotedBack(value, rest);
  }

  lemma HereNot(s: string, word: string, i: nat)
    requires s != "" && !IsSpace(s[0]) && i < |word| && i < |s| && Lower(s[i]) != Lower(word[i])
    ensures ParameterHere(s, word) == None && ParameterHere(" " + s, word) == None
  {
    TrimmedHere(s);
  }

  lemma NameFound(name: string, rest: string)
    requires Free(name, '"') && Free(name, '\\')
    ensures Parameter(Disposition(name, rest), "name") == Some(name)
  {
    var quoted := " " + ("name" + ("=\"" + (name + ("\"" + rest))));
    HereNot(Disposition(name, rest), "name", 0);
    HereQuoted("name", name, rest);
    AfterSkips("form-data", ";" + quoted, "name");
    assert (";" + quoted)[1..] == quoted;
  }

  lemma ValueSkips(name: string, rest: string)
    requires Free(name, ';')
    ensures ParameterAfter(" " + ("name" + ("=\"" + (name + ("\"" + rest)))), "filename") == ParameterAfter(rest, "filename")
  {
    AfterSkips(" ", "name" + ("=\"" + (name + ("\"" + rest))), "filename");
    AfterSkips("name", "=\"" + (name + ("\"" + rest)), "filename");
    AfterSkips("=\"", name + ("\"" + rest), "filename");
    AfterSkips(name, "\"" + rest, "filename");
    AfterSkips("\"", rest, "filename");
  }

  lemma FilenameFound(name: string, rest: string)
    requires Free(name, ';')
    ensures Parameter(Disposition(name, rest), "filename") == ParameterAfter(rest, "filename")
  {
    var value := "name" + ("=\"" + (name + ("\"" + rest)));
    HereNot(Disposition(name, rest), "filename", 1);
    AfterSkips("form-data", ";" + (" " + value), "filename");
    HereNot(value, "filename", 0);
    ValueSkips(name, rest);
    assert (";" + (" " + value))[1..] == " " + value;
  }

  lemma SuffixRead(filename: string)
    requires Free(filename, '"') && Free(filename, '\\')
    ensures ParameterAfter(FilenameSuffix(filename), "filename") == Some(filename)
  {
    HereQuoted("filename", filename, "");
    var s := FilenameSuffix(filename);
    assert s[1..] == " " + ("filename" + ("=\"" + (filename + ("\"" + ""))));
  }

  lemma TrimSpaced(s: string)
    ensures Trim(" " + s) == Trim(s)
  {
    assert (" " + s)[1..] == s;
  }

  lemma TrimmedAlready(s: string)
    requires s != "" && !IsSpace(s[0]) && !IsSpace(s[|s| - 1])
    ensures Trim(s) == s
  {
  }

  lemma DispositionIs(line: string, d: string)
    requires d != "" && !IsSpace(d[0]) && !IsSpace(d[|d| - 1]) && line == "Content-Disposition:" + (" " + d)
    ensures StartsWith(line, "content-disposition:") && Trim(line[|"content-disposition:"|..]) == d
    ensures !StartsWith(line, "content-type:")
  {
    var word := "Content-Disposition:";
    assert line[..|word|] == word && line[|word|..] == " " + d;
    assert Trim(" " + d) == d by {
      TrimSpaced(d);
      TrimmedAlready(d);
    }
    assert line[8] == word[8] == 'D';
  }

  lemma TypeIs(line: string, t: string)
    requires line == "Content-Type:" + (" " + t)
    ensures StartsWith(line, "content-type:") && Trim(line[|"content-type:"|..]) == Trim(t)
  {
    assert line[|"Content-Type:"|..] == " " + t;
    TrimSpaced(t);
  }

  lemma DispositionEnds(p: Part)
    ensures var d := DispositionOf(p); d != "" && !IsSpace(d[0]) && !IsSpace(d[|d| - 1])
  {
    var d := DispositionOf(p);
    assert d[|d| - 1] == '"';
  }

  lemma SanitizedFree(s: string)
    ensures Free(Sanitized(s), '"') && Free(Sanitized(s), '\\')
    ensures Free(s, '\r') ==> Free(Sanitized(s), '\r')
  {
  }

  lemma ParametersBack(p: Part)
    requires NameSafe(p.name) && Free(p.name, '\\')
    ensures Parameter(DispositionOf(p), "name") == Some(p.name)
    ensures Parameter(DispositionOf(p), "filename") == ContentFor(p).filename
  {
    var rest := if p.Text? then "" else FilenameSuffix(Sanitized(p.filename));
    NameFound(p.name, rest);
    FilenameFound(p.name, rest);
    if p.Upload? {
      SanitizedFree(p.filename);
      SuffixRead(Sanitized(p.filename));
    }
  }

  lemma HeaderLines(p: Part)
    requires NameSafe(p.name) && (p.Upload? ==> Free(p.filename, '\r') && Free(TypeOf(p), '\r'))
    ensures var line := "Content-Disposition:" + (" " + DispositionOf(p));
            && Free(line, '\r')
            && Lines(Headers(p)) == if p.Text? then [line] else [line, "Content-Type:" + (" " + TypeOf(p))]
  {
    var line := "Content-Disposition:" + (" " + DispositionOf(p));
    DispositionFree(p);
    if p.Text? {
      LinesOnly(line);
    } else {
      var second := "Content-Type:" + (" " + TypeOf(p));
      LinesFirst(line, second);
      LinesOnly(second);
    }
  }

  lemma DispositionFree(p: Part)
    requires NameSafe(p.name) && (p.Upload? ==> Free(p.filename, '\r'))
    ensures Free("Content-Disposition:" + (" " + DispositionOf(p)), '\r')
  {
    var rest := if p.Text? then "" else FilenameSuffix(Sanitized(p.filename));
    if p.Upload? {
      SanitizedFree(p.filename);
      SuffixFree(Sanitized(p.filename));
    }
    NameFree(p.name, rest);
  }

  lemma SuffixFree(filename: string)
    requires Free(filename, '\r')
    ensures Free(FilenameSuffix(filename), '\r')
  {
    assert Free("=\"", '\r') && Free("filename", '\r');
    assert Free("=\"" + (filename + ("\"" + "")), '\r');
  }

  lemma NameFree(name: string, rest: string)
    requires Free(name, '\r') && Free(rest, '\r')
    ensures Free("Content-Disposition:" + (" " + Disposition(name, rest)), '\r')
  {
    var value := "=\"" + (name + ("\"" + rest));
    assert Free("Content-Disposition:", '\r') && Free("form-data", '\r') && Free("name", '\r');
    assert Free(value, '\r');
    assert Free(";" + (" " + ("name" + value)), '\r');
  }

  lemma NoBlank(p: Part)
    requires NameSafe(p.name) && (p.Upload? ==> Free(p.filename, '\r') && Free(TypeOf(p), '\r'))
    ensures NoBlankIn(Headers(p))
  {
    var h, line := Headers(p), "Content-Disposition:" + (" " + DispositionOf(p));
    DispositionFree(p);
    if p.Upload? {
      NoBlankTwo(line, " " + TypeOf(p));
    }
  }

  lemma NoBlankTwo(line: string, t: string)
    requires Free(line, '\r') && Free(t, '\r')
    ensures NoBlankIn(line + (CRLF + ("Content-Type:" + t)))
  {
    var second := "Content-Type:" + t;
    var h := line + (CRLF + second);
    assert Free("Content-Type:", '\r');
    forall j | 0 <= j < |h| && j != |line| ensures h[j] != '\r' {
      if j < |line| {
        assert h[j] == line[j];
      } else if j > |line| + 1 {
        assert h[j] == second[j - |line| - 2];
      }
    }
    assert |line| < |h| ==> h[|line| + 2] == second[0] == 'C';
  }

  /** What the parser reads in an encoded part's headers is what went into them. */
  lemma HeadersBack(p: Part)
    requires NameSafe(p.name) && Free(p.name, '\\')
    requires p.Upload? ==> Free(p.filename, '\r') && Free(TypeOf(p), '\r')
    ensures ContentOf(Headers(p)) == Some(ContentFor(p))
  {
    var line := "Content-Disposition:" + (" " + DispositionOf(p));
    var lines := Lines(Headers(p));
    HeaderLines(p);
    DispositionEnds(p);
    DispositionIs(line, DispositionOf(p));
    assert Header(lines, "content-disposition:") == Some(DispositionOf(p));
    assert Header(lines, "content-type:") == if p.Text? then None else Some(Trim(TypeOf(p))) by {
      if p.Upload? {
        TypeIs(lines[1], TypeOf(p));
        assert Header(lines[1..], "content-type:") == Some(Trim(TypeOf(p)));
      } else {
        assert Header(lines[1..], "content-type:") == None;
      }
    }
    ParametersBack(p);
  }

  lemma {:induction false} UpToAll(s: string)
    requires Free(s, ';')
    ensures UpTo(s, ';') == s
  {
    if s != "" {
      UpToAll(s[1..]);
      assert s == [s[0]] + s[1..];
    }
  }

  lemma TrimShorter(s: string)
    ensures |TrimLeft(s)| <= |s| && |TrimRight(s)| <= |s|
    ensures |TrimLeft(s)| == |s| ==> TrimLeft(s) == s
  {
  }

  lemma BoundaryBack(b: string)
    requires BoundaryOk(b)
    ensures IsFormData(ContentType(b)) && Parameter(ContentType(b), "boundary") == Some(b)
  {
    var value := "boundary" + ("=" + b);
    assert ParameterHere(" " + value, "boundary") == Some(b) by { BoundaryHere(b); }
    assert ParameterHere(ContentType(b), "boundary") == None by { HereNot(ContentType(b), "boundary", 0); }
    assert ParameterAfter(ContentType(b), "boundary") == ParameterAfter(";" + (" " + value), "boundary") by {
      AfterSkips(FORM_DATA, ";" + (" " + value), "boundary");
    }
    assert (";" + (" " + value))[1..] == " " + value;
    StartsSelf(FORM_DATA, ";" + (" " + value));
    assert ContentType(b)[|FORM_DATA|] == ';';
  }

  lemma BoundaryHere(b: string)
    requires BoundaryOk(b)
    ensures ParameterHere(" " + ("boundary" + ("=" + b)), "boundary") == Some(b)
  {
    var value := "boundary" + ("=" + b);
    assert ValueOf(TrimLeft(b)) == b by {
      TrimShorter(b);
      TrimShorter(TrimLeft(b));
      UpToAll(b);
    }
    TrimmedHere(value);
    StartsSelf("boundary", "=" + b);
    assert value[|"boundary"|..] == "=" + b;
    TrimmedHere("=" + b);
    assert ("=" + b)[1..] == b;
  }

  lemma {:induction false} PiecesBack(parts: seq<Part>, delimiter: string, out: Form)
    requires forall p :: p in parts ==> PartOk(p, delimiter)
    ensures PiecesOk(Pieces(parts), delimiter, ContentOf) && FirstUnsafe(parts) == None
    ensures Gathered(Pieces(parts), ContentOf, out) == Collected(parts, out)
    decreases |parts|
  {
    if parts != [] {
      var p := parts[0];
      assert PartOk(p, delimiter);
      HeadersBack(p);
      NoBlank(p);
      assert PieceOk(Piece(Headers(p), DataOf(p)), delimiter, ContentOf);
      PiecesBack(parts[1..], delimiter, Pushed(out, ContentFor(p), DataOf(p)));
      assert Pieces(parts)[1..] == Pieces(parts[1..]);
    }
  }

  // ---- The theorem ------------------------------------------------------------

  function FilesOf(parts: seq<Part>): seq<File>
  {
    if parts == [] then []
    else match parts[0]
      case Text(_, _) => FilesOf(parts[1..])
      case Upload(name, filename, _, data) =>
        [File(name, Sanitized(filename), Trim(TypeOf(parts[0])), data)] + FilesOf(parts[1..])
  }

  function TextsOf(parts: seq<Part>): seq<(string, string)>
  {
    if parts == [] then []
    else match parts[0]
      case Text(name, value) => [(name, value)] + TextsOf(parts[1..])
      case Upload(_, _, _, _) => TextsOf(parts[1..])
  }

  /** What a name maps to: its last value, or what was there before. */
  function LastOf(texts: seq<(string, string)>, name: string, before: Option<string>): Option<string>
  {
    if texts == [] then before
    else LastOf(texts[1..], name, if texts[0].0 == name then Some(texts[0].1) else before)
  }

  function Lookup(m: map<string, string>, name: string): Option<string>
  {
    if name in m then Some(m[name]) else None
  }

  lemma {:induction false} CollectedFiles(parts: seq<Part>, out: Form)
    ensures Collected(parts, out).files == out.files + FilesOf(parts)
    decreases |parts|
  {
    if parts != [] {
      var out' := Pushed(out, ContentFor(parts[0]), DataOf(parts[0]));
      CollectedFiles(parts[1..], out');
      assert out'.files + FilesOf(parts[1..]) == out.files + FilesOf(parts);
    }
  }

  lemma {:induction false} CollectedTexts(parts: seq<Part>, out: Form)
    ensures Collected(parts, out).all == out.all + TextsOf(parts)
    decreases |parts|
  {
    if parts != [] {
      var out' := Pushed(out, ContentFor(parts[0]), DataOf(parts[0]));
      CollectedTexts(parts[1..], out');
      assert out'.all + TextsOf(parts[1..]) == out.all + TextsOf(parts);
    }
  }

  lemma {:induction false} CollectedLast(parts: seq<Part>, out: Form, name: string)
    ensures Lookup(Collected(parts, out).fields, name) == LastOf(TextsOf(parts), name, Lookup(out.fields, name))
    decreases |parts|
  {
    if parts != [] {
      CollectedLast(parts[1..], Pushed(out, ContentFor(parts[0]), DataOf(parts[0])), name);
      if parts[0].Text? {
        assert TextsOf(parts)[1..] == TextsOf(parts[1..]);
      }
    }
  }

  lemma SanitizedSame(s: string)
    requires Free(s, '"') && Free(s, '\\')
    ensures Sanitized(s) == s
  {
  }

  /** An upload that needs no change on its way. */
  predicate Verbatim(p: Part)
  {
    p.Upload? ==> Free(p.filename, '"') && Free(p.filename, '\\') && Trim(TypeOf(p)) == TypeOf(p)
  }

  /** The uploads as they were given. */
  function Uploads(parts: seq<Part>): seq<File>
  {
    if parts == [] then []
    else match parts[0]
      case Text(_, _) => Uploads(parts[1..])
      case Upload(name, filename, _, data) => [File(name, filename, TypeOf(parts[0]), data)] + Uploads(parts[1..])
  }

  lemma {:induction false} FilesVerbatim(parts: seq<Part>)
    requires forall p :: p in parts ==> Verbatim(p)
    ensures FilesOf(parts) == Uploads(parts)
    decreases |parts|
  {
    if parts != [] {
      assert Verbatim(parts[0]);
      if parts[0].Upload? {
        SanitizedSame(parts[0].filename);
      }
      FilesVerbatim(parts[1..]);
    }
  }

  /** Parsing what was encoded gives back every file and every field, in order; files whose names have no
      quote or backslash, and whose types are trimmed, exactly as they were given. */
  lemma RoundTrip(parts: seq<Part>, boundary: string, name: string)
    requires BoundaryOk(boundary) && forall p :: p in parts ==> PartOk(p, "--" + boundary)
    ensures Encoded(parts, boundary).Ok?
    ensures var (body, contentType) := Encoded(parts, boundary).value;
            var r := Parsed(body, Some(contentType));
            && r.Ok? && r.value.files == FilesOf(parts) && r.value.all == TextsOf(parts)
            && Lookup(r.value.fields, name) == LastOf(TextsOf(parts), name, None)
            && ((forall p :: p in parts ==> Verbatim(p)) ==> r.value.files == Uploads(parts))
  {
    var delimiter := "--" + boundary;
    PiecesBack(parts, delimiter, START);
    ParsedIsSplit(Frames(Pieces(parts), delimiter), boundary);
    FramesParse(Pieces(parts), delimiter, ContentOf);
    CollectedFiles(parts, START);
    CollectedTexts(parts, START);
    CollectedLast(parts, START, name);
    if forall p :: p in parts ==> Verbatim(p) {
      FilesVerbatim(parts);
    }
  }

  lemma ParsedIsSplit(body: string, boundary: string)
    requires BoundaryOk(boundary)
    ensures Parsed(body, Some(ContentType(boundary))) == Split(body, "--" + boundary, ContentOf)
  {
    BoundaryBack(boundary);
  }
}
