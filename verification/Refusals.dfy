/** What a multipart body is, and when it is refused (`packages/usai/src/multipart.ts`).

    `Multipart` follows the parser. Here a body is described by its places: where a delimiter first
    occurs, where a part's headers end, where its data does. A body is accepted exactly when a walk
    over its parts reaches a closing mark, and refused for the reason the walk meets first. */
module Refusals {
  import opened Wrappers
  import opened Multipart

  // ---- Places -----------------------------------------------------------------

  /** From just past a delimiter, a part: its headers end at `e` and the next delimiter is at `next`. */
  ghost predicate PartFrom(body: string, at: nat, e: nat, next: nat, delimiter: string)
  {
    Pair(body, at, '\r', '\n') && First(body, BLANK, at + 2, e) && First(body, delimiter, e + 4, next)
  }

  /** That part is taken: it has a name, and its data goes into the form. */
  ghost predicate TakesPart(
    body: string, delimiter: string, read: Reading, at: nat, out: Form, e: nat, next: nat, at': nat, out': Form)
  {
    && PartFrom(body, at, e, next, delimiter) && next <= |body| && e <= |body|
    && at' == next + |delimiter|
    && match read(body[at + 2..e])
       case None => false
       case Some(c) => out' == Pushed(out, c, Data(body, e + 4, next))
  }

  ghost predicate Takes(body: string, delimiter: string, read: Reading, at: nat, out: Form, at': nat, out': Form)
  {
    exists e: nat, next: nat :: TakesPart(body, delimiter, read, at, out, e, next, at', out')
  }

  /** After `n` parts the walk is at this place with this form. */
  ghost predicate Reaches(body: string, delimiter: string, read: Reading, n: nat, at: nat, out: Form)
    decreases n, 1
  {
    if n == 0 then out == START && at >= |delimiter| && First(body, delimiter, 0, at - |delimiter|)
    else exists at0: nat, out0 :: Comes(body, delimiter, read, n, at0, out0, at, out)
  }

  /** The n-th part is the one from `at0` on. */
  ghost predicate Comes(
    body: string, delimiter: string, read: Reading, n: nat, at0: nat, out0: Form, at: nat, out: Form)
    decreases n, 0
  {
    n > 0 && Reaches(body, delimiter, read, n - 1, at0, out0) && Takes(body, delimiter, read, at0, out0, at, out)
  }

  ghost predicate Nowhere(body: string, needle: string, from: nat)
  {
    forall k: nat :: k >= from ==> !Occurs(body, needle, k)
  }

  /** Headers that end at `e`. */
  ghost predicate HeadersTo(body: string, at: nat, e: nat)
  {
    Pair(body, at, '\r', '\n') && First(body, BLANK, at + 2, e) && at + 2 <= e <= |body|
  }

  ghost predicate Nameless(body: string, read: Reading, at: nat, e: nat)
  {
    HeadersTo(body, at, e) && read(body[at + 2..e]).None?
  }

  ghost predicate Unclosed(body: string, delimiter: string, read: Reading, at: nat, e: nat)
  {
    HeadersTo(body, at, e) && read(body[at + 2..e]).Some? && Nowhere(body, delimiter, e + 4)
  }

  /** What is wrong at a place that is no closing mark. */
  ghost predicate Refuses(body: string, delimiter: string, read: Reading, at: nat, why: Failure)
  {
    && !Pair(body, at, '-', '-')
    && match why
       case BadBoundaryLine => !Pair(body, at, '\r', '\n')
       case NoHeaders => Pair(body, at, '\r', '\n') && Nowhere(body, BLANK, at + 2)
       case NoName => exists e: nat :: Nameless(body, read, at, e)
       case NoClosingBoundary => exists e: nat :: Unclosed(body, delimiter, read, at, e)
       case _ => false
  }

  // ---- Finding ----------------------------------------------------------------------

  lemma {:induction false} FirstFrom(text: string, needle: string, from: nat, k: nat) returns (i: nat)
    requires from <= k && Occurs(text, needle, k)
    ensures First(text, needle, from, i)
    decreases k
  {
    if j: nat :| from <= j < k && Occurs(text, needle, j) {
      i := FirstFrom(text, needle, from, j);
    } else {
      i := k;
    }
  }

  lemma FindsIff(text: string, needle: string, from: nat)
    ensures Find(text, needle, from) < 0 <==> Nowhere(text, needle, from)
    ensures Find(text, needle, from) >= 0 ==> First(text, needle, from, Find(text, needle, from))
  {
    if k: nat :| from <= k && Occurs(text, needle, k) {
      var i := FirstFrom(text, needle, from, k);
      FindIs(text, needle, from, i);
    }
  }

  lemma OneFirst(text: string, needle: string, from: nat, i: nat, j: nat)
    requires First(text, needle, from, i) && First(text, needle, from, j)
    ensures i == j
  {
  }

  // ---- One turn ---------------------------------------------------------------------------

  lemma TakesFrom(body: string, delimiter: string, read: Reading, at: nat, out: Form, e: nat, next: nat, at': nat, out': Form)
    requires delimiter != "" && at <= |body| && TakesPart(body, delimiter, read, at, out, e, next, at', out')
    ensures TurnOf(body, at, delimiter, read, out) == On(at', out')
  {
    assert Find(body, BLANK, at + 2) == e by { FindIs(body, BLANK, at + 2, e); }
    assert Find(body, delimiter, e + 4) == next by { FindIs(body, delimiter, e + 4, next); }
    TurnIs(body, at, e, next, read(body[at + 2..e]).value, delimiter, read, out);
  }

  lemma TurnTakesPart(body: string, delimiter: string, read: Reading, at: nat, out: Form)
    requires delimiter != "" && at <= |body| && TurnOf(body, at, delimiter, read, out).On?
    ensures var t, e := TurnOf(body, at, delimiter, read, out), Find(body, BLANK, at + 2);
      && e >= 0 && Find(body, delimiter, e + 4) >= 0
      && TakesPart(body, delimiter, read, at, out, e, Find(body, delimiter, e + 4), t.at, t.out)
  {
    FindsIff(body, BLANK, at + 2);
    FindsIff(body, delimiter, Find(body, BLANK, at + 2) + 4);
  }

  lemma TurnTakes(body: string, delimiter: string, read: Reading, at: nat, out: Form, at': nat, out': Form)
    requires delimiter != "" && at <= |body|
    ensures TurnOf(body, at, delimiter, read, out) == On(at', out') <==> Takes(body, delimiter, read, at, out, at', out')
  {
    if TurnOf(body, at, delimiter, read, out) == On(at', out') {
      TurnTakesPart(body, delimiter, read, at, out);
    }
    if Takes(body, delimiter, read, at, out, at', out') {
      var e: nat, next: nat :| TakesPart(body, delimiter, read, at, out, e, next, at', out');
      TakesFrom(body, delimiter, read, at, out, e, next, at', out');
    }
  }

  lemma TurnRefuses(body: string, delimiter: string, read: Reading, at: nat, out: Form, why: Failure)
    requires delimiter != "" && at <= |body|
    ensures TurnOf(body, at, delimiter, read, out) == Finish(Err(why)) <==> Refuses(body, delimiter, read, at, why)
  {
    FindsIff(body, BLANK, at + 2);
    var e := Find(body, BLANK, at + 2);
    if Pair(body, at, '\r', '\n') && e >= 0 {
      FindsIff(body, delimiter, e + 4);
      forall e': nat | HeadersTo(body, at, e') ensures e' == e { OneFirst(body, BLANK, at + 2, e, e'); }
      assert HeadersTo(body, at, e);
      assert Nameless(body, read, at, e) <==> read(body[at + 2..e]).None?;
      assert Unclosed(body, delimiter, read, at, e) <==>
        read(body[at + 2..e]).Some? && Find(body, delimiter, e + 4) < 0;
    }
  }

  // ---- The walk -----------------------------------------------------------------------------

  lemma TakesParses(body: string, delimiter: string, read: Reading, at: nat, out: Form, at': nat, out': Form)
    requires delimiter != "" && at <= |body| && Takes(body, delimiter, read, at, out, at', out')
    ensures at' <= |body| && Parts(body, at, delimiter, read, out) == Parts(body, at', delimiter, read, out')
  {
    TurnTakes(body, delimiter, read, at, out, at', out');
  }

  lemma StartParses(body: string, delimiter: string, read: Reading, at: nat)
    requires delimiter != "" && at >= |delimiter| && First(body, delimiter, 0, at - |delimiter|)
    ensures at <= |body| && Split(body, delimiter, read) == Parts(body, at, delimiter, read, START)
  {
    FindIs(body, delimiter, 0, at - |delimiter|);
  }

  /** Wherever the walk is, the rest of the parse is what the whole comes to. */
  lemma {:induction false} ReachedParse(body: string, delimiter: string, read: Reading, n: nat, at: nat, out: Form)
    requires delimiter != "" && Reaches(body, delimiter, read, n, at, out)
    ensures at <= |body| && Split(body, delimiter, read) == Parts(body, at, delimiter, read, out)
    decreases n
  {
    if n == 0 {
      StartParses(body, delimiter, read, at);
    } else {
      var at0: nat, out0 :| Comes(body, delimiter, read, n, at0, out0, at, out);
      ComesFrom(body, delimiter, read, n, at0, out0, at, out);
      ReachedParse(body, delimiter, read, n - 1, at0, out0);
      ComesParses(body, delimiter, read, n, at0, out0, at, out);
    }
  }

  lemma ComesFrom(body: string, delimiter: string, read: Reading, n: nat, at0: nat, out0: Form, at: nat, out: Form)
    requires Comes(body, delimiter, read, n, at0, out0, at, out)
    ensures n > 0 && Reaches(body, delimiter, read, n - 1, at0, out0)
  {
  }

  lemma ComesParses(body: string, delimiter: string, read: Reading, n: nat, at0: nat, out0: Form, at: nat, out: Form)
    requires delimiter != "" && at0 <= |body| && Comes(body, delimiter, read, n, at0, out0, at, out)
    ensures at <= |body| && Parts(body, at0, delimiter, read, out0) == Parts(body, at, delimiter, read, out)
  {
    TakesParses(body, delimiter, read, at0, out0, at, out);
  }

  lemma OnReaches(body: string, delimiter: string, read: Reading, n: nat, at: nat, out: Form, at': nat, out': Form)
    requires delimiter != "" && at <= |body| && Reaches(body, delimiter, read, n, at, out)
    requires TurnOf(body, at, delimiter, read, out) == On(at', out')
    ensures Reaches(body, delimiter, read, n + 1, at', out')
  {
    TurnTakes(body, delimiter, read, at, out, at', out');
    assert Comes(body, delimiter, read, n + 1, at, out, at', out');
  }

  /** From wherever the walk is, it reaches a place where the parse ends. */
  lemma {:induction false} WalkEnds(body: string, delimiter: string, read: Reading, n: nat, at: nat, out: Form)
    returns (m: nat, at': nat, out': Form)
    requires delimiter != "" && at <= |body| && Reaches(body, delimiter, read, n, at, out)
    ensures at' <= |body| && Reaches(body, delimiter, read, m, at', out')
    ensures TurnOf(body, at', delimiter, read, out') == Finish(Parts(body, at, delimiter, read, out))
    decreases |body| - at
  {
    var turn := TurnOf(body, at, delimiter, read, out);
    if turn.Finish? {
      m, at', out' := n, at, out;
    } else {
      OnReaches(body, delimiter, read, n, at, out, turn.at, turn.out);
      m, at', out' := WalkEnds(body, delimiter, read, n + 1, turn.at, turn.out);
    }
  }

  lemma Start(body: string, delimiter: string, read: Reading) returns (start: nat)
    requires delimiter != "" && !Nowhere(body, delimiter, 0)
    ensures start >= |delimiter| && First(body, delimiter, 0, start - |delimiter|)
    ensures Reaches(body, delimiter, read, 0, start, START)
  {
    FindsIff(body, delimiter, 0);
    start := Find(body, delimiter, 0) + |delimiter|;
  }

  lemma WalkFromStart(body: string, delimiter: string, read: Reading) returns (m: nat, at: nat, out: Form)
    requires delimiter != "" && !Nowhere(body, delimiter, 0)
    ensures at <= |body| && Reaches(body, delimiter, read, m, at, out)
    ensures TurnOf(body, at, delimiter, read, out) == Finish(Split(body, delimiter, read))
  {
    var start := Start(body, delimiter, read);
    StartParses(body, delimiter, read, start);
    m, at, out := WalkEnds(body, delimiter, read, 0, start, START);
  }

  ghost predicate Accepts(body: string, delimiter: string, read: Reading, n: nat, at: nat, form: Form)
  {
    Reaches(body, delimiter, read, n, at, form) && Pair(body, at, '-', '-')
  }

  ghost predicate Fails(body: string, delimiter: string, read: Reading, n: nat, at: nat, out: Form, why: Failure)
  {
    Reaches(body, delimiter, read, n, at, out) && Refuses(body, delimiter, read, at, why)
  }

  /** A body is accepted, with a form, if and only if the walk over its parts reaches a closing mark with it.
      In particular a body that is cut off before its closing mark is refused. */
  lemma AcceptedIff(body: string, delimiter: string, read: Reading, form: Form)
    requires delimiter != ""
    ensures Split(body, delimiter, read) == Ok(form) <==>
      exists n: nat, at: nat :: Accepts(body, delimiter, read, n, at, form)
  {
    if Split(body, delimiter, read) == Ok(form) {
      FindsIff(body, delimiter, 0);
      var m, at, out := WalkFromStart(body, delimiter, read);
      assert Accepts(body, delimiter, read, m, at, form);
    }
    if n: nat, at: nat :| Accepts(body, delimiter, read, n, at, form) {
      ReachedParse(body, delimiter, read, n, at, form);
    }
  }

  /** A body is refused for a reason if and only if that is what the walk meets: no first delimiter, a delimiter
      followed by neither mark nor line end, headers without an end, a part without a name, or without a
      delimiter after it. */
  lemma RefusedIff(body: string, delimiter: string, read: Reading, why: Failure)
    requires delimiter != ""
    ensures Split(body, delimiter, read) == Err(why) <==>
      || (why == NoFirstBoundary && Nowhere(body, delimiter, 0))
      || exists n: nat, at: nat, out :: Fails(body, delimiter, read, n, at, out, why)
  {
    FindsIff(body, delimiter, 0);
    if Split(body, delimiter, read) == Err(why) && !Nowhere(body, delimiter, 0) {
      var m, at, out := WalkFromStart(body, delimiter, read);
      TurnRefuses(body, delimiter, read, at, out, why);
      assert Fails(body, delimiter, read, m, at, out, why);
    }
    if n: nat, at: nat, out :| Fails(body, delimiter, read, n, at, out, why) {
      ReachedParse(body, delimiter, read, n, at, out);
      TurnRefuses(body, delimiter, read, at, out, why);
    }
  }

  /** Before the walk: the content type has to be form data and to have a boundary. */
  lemma HeaderRefusedIff(body: string, contentType: Option<string>)
    ensures Parsed(body, contentType) == Err(NotMultipart) <==> contentType.None? || !IsFormData(contentType.value)
    ensures Parsed(body, contentType) == Err(NoBoundary) <==>
      && contentType.Some? && IsFormData(contentType.value)
      && (Parameter(contentType.value, "boundary") == None || Parameter(contentType.value, "boundary") == Some(""))
  {
    if contentType.Some? {
      match Parameter(contentType.value, "boundary")
      case None =>
      case Some(boundary) =>
        if boundary != "" {
          RefusedIff(body, "--" + boundary, ContentOf, NotMultipart);
          RefusedIff(body, "--" + boundary, ContentOf, NoBoundary);
        }
    }
  }

  /** Parts are encoded if and only if every name is safe; otherwise the first that is not is named. */
  lemma {:induction false} EncodesIff(parts: seq<Part>, boundary: string)
    ensures Encoded(parts, boundary).Ok? <==> forall p :: p in parts ==> NameSafe(p.name)
    ensures Encoded(parts, boundary).Err? ==> exists k :: FirstBad(parts, k) && Encoded(parts, boundary) == Err(BadName(parts[k].name))
    decreases |parts|
  {
    if parts != [] {
      assert forall p :: p in parts <==> p == parts[0] || p in parts[1..];
      if NameSafe(parts[0].name) {
        EncodesIff(parts[1..], boundary);
        if Encoded(parts, boundary).Err? {
          var k :| FirstBad(parts[1..], k) && Encoded(parts[1..], boundary) == Err(BadName(parts[1..][k].name));
          assert FirstBad(parts, k + 1);
        }
      } else {
        assert FirstBad(parts, 0);
      }
    }
  }

  predicate FirstBad(parts: seq<Part>, k: int)
  {
    0 <= k < |parts| && !NameSafe(parts[k].name) && forall i :: 0 <= i < k ==> NameSafe(parts[i].name)
  }
}
