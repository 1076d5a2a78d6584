/** The timestamps of log lines (`crates/usai-cli/src/logfmt.rs`; section 5.6 of RFC 3339). */
module Timestamps {
  import opened Civil
  import opened Text

  function Power10(w: nat): nat
  {
    if w == 0 then 1 else 10 * Power10(w - 1)
  }

  /** The last `w` digits. */
  function Digits(n: nat, w: nat): (s: string)
    ensures |s| == w
    decreases w
  {
    if w == 0 then "" else Digits(n / 10, w - 1) + [DigitChar(n % 10)]
  }

  /** Zero-padded to at least `w` digits. */
  function Padded(n: nat, w: nat): string
  {
    if n < Power10(w) then Digits(n, w) else Decimal(n)
  }

  /** Fields of fixed width, each followed by its separator. */
  function Render(values: seq<nat>, layout: seq<(nat, string)>): string
    requires |values| == |layout|
  {
    if values == [] then ""
    else Padded(values[0], layout[0].0) + (layout[0].1 + Render(values[1..], layout[1..]))
  }

  const LAYOUT := [(4, "-"), (2, "-"), (2, "T"), (2, ":"), (2, ":"), (2, "."), (6, "Z")]

  /** Year, month, day, hour, minute, second, microsecond of a time in microseconds. */
  function Fields(t: nat): (values: seq<int>)
    ensures |values| == 7
  {
    var secs := t / 1_000_000;
    var date, sod := FromDays(secs / 86_400), secs % 86_400;
    [date.year, date.month, date.day, sod / 3600, sod % 3600 / 60, sod % 60, t % 1_000_000]
  }

  lemma FieldsNatural(t: nat)
    ensures forall i :: 0 <= i < 7 ==> Fields(t)[i] >= 0
    ensures var f := Fields(t); f[1] < 100 && f[2] < 100 && f[3] < 100 && f[4] < 100 && f[5] < 100 && f[6] < 1_000_000
  {
    var days := t / 1_000_000 / 86_400;
    DayRoundTrip(days);
    Epoch();
    InOrder(days, 0);
    InOrder(0, days);
  }

  function Naturals(values: seq<int>): (r: seq<nat>)
    requires forall i :: 0 <= i < |values| ==> values[i] >= 0
    ensures |r| == |values| && forall i :: 0 <= i < |values| ==> r[i] == values[i]
  {
    seq(|values|, i requires 0 <= i < |values| => values[i])
  }

  function Stamp(t: nat): string
  {
    FieldsNatural(t);
    Render(Naturals(Fields(t)), LAYOUT)
  }

  // ---- Order ----------------------------------------------------------------------

  lemma {:induction false} DigitsOrder(a: nat, b: nat, w: nat)
    requires a < b < Power10(w)
    ensures Less(Digits(a, w), Digits(b, w))
    decreases w
  {
    if w > 0 {
      var x, y := Digits(a / 10, w - 1), Digits(b / 10, w - 1);
      if a / 10 < b / 10 {
        DigitsOrder(a / 10, b / 10, w - 1);
      } else {
        assert a / 10 == b / 10 && a % 10 < b % 10;
      }
      LessConcat(x, y, [DigitChar(a % 10)], [DigitChar(b % 10)]);
    }
  }

  predicate Fit(values: seq<nat>, layout: seq<(nat, string)>)
  {
    |values| == |layout| && forall i :: 0 <= i < |values| ==> values[i] < Power10(layout[i].0)
  }

  /** The first field in which they differ decides. */
  predicate LexLess(a: seq<int>, b: seq<int>)
  {
    a != [] && b != [] && (a[0] < b[0] || (a[0] == b[0] && LexLess(a[1..], b[1..])))
  }

  lemma {:induction false} RenderOrder(a: seq<nat>, b: seq<nat>, layout: seq<(nat, string)>)
    requires Fit(a, layout) && Fit(b, layout) && LexLess(a, b)
    ensures Less(Render(a, layout), Render(b, layout))
    decreases |a|
  {
    var w, separator := layout[0].0, layout[0].1;
    var x, y := Digits(a[0], w), Digits(b[0], w);
    var c, d := Render(a[1..], layout[1..]), Render(b[1..], layout[1..]);
    if a[0] < b[0] {
      DigitsOrder(a[0], b[0], w);
    } else {
      RenderOrder(a[1..], b[1..], layout[1..]);
      LessConcat(separator, separator, c, d);
    }
    LessConcat(x, y, separator + c, separator + d);
  }

  lemma LexFirst(a: seq<int>, b: seq<int>)
    requires |a| == 7 && |b| == 7
    requires a[0] < b[0] || (a[0] == b[0] && (a[1] < b[1] || (a[1] == b[1] && (a[2] < b[2] || (a[2] == b[2]
             && LexLess(a[3..], b[3..]))))))
    ensures LexLess(a, b)
  {
    assert a[1..][1..] == a[2..] && b[1..][1..] == b[2..];
    assert a[2..][1..] == a[3..] && b[2..][1..] == b[3..];
    assert LexLess(a[2..], b[2..]) == (a[2] < b[2] || (a[2] == b[2] && LexLess(a[3..], b[3..])));
    assert LexLess(a[1..], b[1..]) == (a[1] < b[1] || (a[1] == b[1] && LexLess(a[2..], b[2..])));
  }

  lemma LexFour(a: seq<int>, b: seq<int>)
    requires |a| == 4 && |b| == 4
    requires a[0] < b[0] || (a[0] == b[0] && (a[1] < b[1] || (a[1] == b[1] && (a[2] < b[2] || (a[2] == b[2] && a[3] < b[3])))))
    ensures LexLess(a, b)
  {
    assert LexLess(a[3..], b[3..]) == (a[3] < b[3]);
    assert a[2..][1..] == a[3..] && b[2..][1..] == b[3..];
    assert LexLess(a[2..], b[2..]) == (a[2] < b[2] || (a[2] == b[2] && LexLess(a[3..], b[3..])));
    assert a[1..][1..] == a[2..] && b[1..][1..] == b[2..];
    assert LexLess(a[1..], b[1..]) == (a[1] < b[1] || (a[1] == b[1] && LexLess(a[2..], b[2..])));
  }

  lemma Seconds(sod: nat)
    ensures sod == 3600 * (sod / 3600) + 60 * (sod % 3600 / 60) + sod % 60 && sod % 3600 / 60 < 60 && sod % 60 < 60
  {
    assert sod % 60 == sod % 3600 % 60;
  }

  lemma ByParts(h: int, m: int, s: int, h': int, m': int, s': int)
    requires 0 <= m < 60 && 0 <= s < 60 && 0 <= m' < 60 && 0 <= s' < 60
    requires 3600 * h + 60 * m + s < 3600 * h' + 60 * m' + s'
    ensures h < h' || (h == h' && (m < m' || (m == m' && s < s')))
  {
  }

  /** The time of day, by hour, minute, second and microsecond. */
  lemma TimeOfDay(sod: nat, sod': nat, us: nat, us': nat)
    requires sod < sod' || (sod == sod' && us < us')
    ensures LexLess([sod / 3600, sod % 3600 / 60, sod % 60, us], [sod' / 3600, sod' % 3600 / 60, sod' % 60, us'])
  {
    if sod < sod' {
      Seconds(sod);
      Seconds(sod');
      ByParts(sod / 3600, sod % 3600 / 60, sod % 60, sod' / 3600, sod' % 3600 / 60, sod' % 60);
    }
    LexFour([sod / 3600, sod % 3600 / 60, sod % 60, us], [sod' / 3600, sod' % 3600 / 60, sod' % 60, us']);
  }

  lemma FieldsOrder(s: nat, t: nat)
    requires s < t
    ensures LexLess(Fields(s), Fields(t))
  {
    var a, b := Fields(s), Fields(t);
    var p, q := s / 1_000_000, t / 1_000_000;
    var d, e := p / 86_400, q / 86_400;
    assert a[3..] == [p % 86_400 / 3600, p % 86_400 % 3600 / 60, p % 86_400 % 60, s % 1_000_000];
    assert b[3..] == [q % 86_400 / 3600, q % 86_400 % 3600 / 60, q % 86_400 % 60, t % 1_000_000];
    if d < e {
      InOrder(d, e);
    } else {
      assert d == e;
      TimeOfDay(p % 86_400, q % 86_400, s % 1_000_000, t % 1_000_000);
    }
    LexFirst(a, b);
  }

  lemma FieldsFit(t: nat)
    requires FromDays(t / 1_000_000 / 86_400).year <= 9999
    ensures forall i :: 0 <= i < 7 ==> Fields(t)[i] >= 0
    ensures Fit(Naturals(Fields(t)), LAYOUT)
  {
    FieldsNatural(t);
    assert Power10(2) == 100;
    assert Power10(4) == 100 * Power10(2);
    assert Power10(6) == 100 * Power10(4);
  }

  /** Through the year 9999, later lines sort after earlier ones. */
  lemma StampsInOrder(s: nat, t: nat)
    requires s < t && FromDays(t / 1_000_000 / 86_400).year <= 9999
    ensures Less(Stamp(s), Stamp(t))
  {
    var d, e := s / 1_000_000 / 86_400, t / 1_000_000 / 86_400;
    if d < e {
      InOrder(d, e);
    }
    FieldsOrder(s, t);
    FieldsFit(s);
    FieldsFit(t);
    LexSame(Fields(s), Fields(t));
    RenderOrder(Naturals(Fields(s)), Naturals(Fields(t)), LAYOUT);
  }

  lemma LexSame(a: seq<int>, b: seq<int>)
    requires forall i :: 0 <= i < |a| ==> a[i] >= 0
    requires forall i :: 0 <= i < |b| ==> b[i] >= 0
    requires LexLess(a, b)
    ensures LexLess(Naturals(a), Naturals(b))
  {
    assert Naturals(a) == a && Naturals(b) == b;
  }

  lemma LeadingDecimal(n: nat)
    requires 10_000 <= n < 20_000
    ensures Decimal(n)[0] == '1'
  {
    var a, b, c := n / 10, n / 10 / 10, n / 10 / 10 / 10;
    assert c / 10 == 1;
    assert Decimal(c)[0] == Decimal(1)[0];
    assert Decimal(b)[0] == Decimal(c)[0];
    assert Decimal(a)[0] == Decimal(b)[0];
  }

  lemma LeadingDigit(n: nat)
    requires 2000 <= n < 10_000
    ensures Digits(n, 4)[0] >= '2'
  {
    var a, b := n / 10, n / 10 / 10;
    assert b / 10 >= 2;
    assert Digits(b / 10, 1) == [DigitChar(b / 10 % 10)];
    assert Digits(b, 2)[0] == Digits(b / 10, 1)[0];
    assert Digits(a, 3)[0] == Digits(b, 2)[0];
  }

  /** A fifth digit of the year breaks the order: it only holds through 9999. */
  lemma FifthDigitBreaksOrder(s: nat, t: nat)
    requires 2000 <= FromDays(s / 1_000_000 / 86_400).year <= 9999
    requires 10_000 <= FromDays(t / 1_000_000 / 86_400).year < 20_000
    ensures s < t && Less(Stamp(t), Stamp(s))
  {
    var y, z := FromDays(s / 1_000_000 / 86_400).year, FromDays(t / 1_000_000 / 86_400).year;
    InOrder(s / 1_000_000 / 86_400, t / 1_000_000 / 86_400);
    LeadingDigit(y);
    LeadingDecimal(z);
    assert Power10(4) == 10_000 by {
      assert Power10(2) == 100;
      assert Power10(4) == 100 * Power10(2);
    }
    FieldsNatural(s);
    FieldsNatural(t);
    assert Stamp(s)[0] == Digits(y, 4)[0] && Stamp(t)[0] == Decimal(z)[0];
  }

  /** The year of a time. */
  function YearOf(t: nat): int
  {
    FromDays(t / 1_000_000 / 86_400).year
  }

  /** Up to `last`, timestamps sort as the clock does. */
  ghost predicate SortedThrough(last: nat)
  {
    forall s: nat, t: nat :: s < t <= last ==> Less(Stamp(s), Stamp(t))
  }

  /** The first microsecond of a year. */
  function StartOf(year: int): int
  {
    ToDays(Date(year, 1, 1)) * 86_400 * 1_000_000
  }

  lemma DaysGrow(s: nat, t: nat)
    requires s <= t
    ensures s / 1_000_000 / 86_400 <= t / 1_000_000 / 86_400
  {
    assert s / 1_000_000 <= t / 1_000_000;
  }

  lemma DatesGrow(d: int, e: int)
    requires d <= e
    ensures FromDays(d).year <= FromDays(e).year
  {
    if d < e {
      InOrder(d, e);
    }
  }

  lemma YearsGrow(s: nat, t: nat)
    requires s <= t
    ensures YearOf(s) <= YearOf(t)
  {
    DaysGrow(s, t);
    DatesGrow(s / 1_000_000 / 86_400, t / 1_000_000 / 86_400);
  }

  lemma StartsThere(year: int)
    requires StartOf(year) >= 0
    ensures YearOf(StartOf(year)) == year
  {
    var days := ToDays(Date(year, 1, 1));
    assert StartOf(year) / 1_000_000 == days * 86_400;
    assert days * 86_400 / 86_400 == days;
    DateRoundTrip(Date(year, 1, 1));
  }

  lemma Starts()
    ensures 0 <= StartOf(2000) < StartOf(10_000)
  {
    assert ToDays(Date(2000, 1, 1)) == 10_957;
    assert ToDays(Date(10_000, 1, 1)) == 2_932_897;
  }

  /** A time of a later year is not before that year. */
  lemma NotBefore(t: nat, year: int)
    requires StartOf(year) >= 0 && YearOf(t) >= year
    ensures StartOf(year) <= t
  {
    if t < StartOf(year) {
      var d, e := t / 1_000_000 / 86_400, ToDays(Date(year, 1, 1));
      assert d < e;
      DateRoundTrip(Date(year, 1, 1));
      DayRoundTrip(d);
      InOrder(d, e);
    }
  }

  /** Timestamps sort as the clock does up to a time if and only if its year has four digits. */
  lemma SortedThroughIff(last: nat)
    ensures SortedThrough(last) <==> YearOf(last) <= 9999
  {
    if YearOf(last) <= 9999 {
      forall s: nat, t: nat | s < t <= last ensures Less(Stamp(s), Stamp(t)) {
        YearsGrow(t, last);
        StampsInOrder(s, t);
      }
    } else {
      Starts();
      var s, t := StartOf(2000), StartOf(10_000);
      StartsThere(2000);
      StartsThere(10_000);
      NotBefore(last, 10_000);
      FifthDigitBreaksOrder(s, t);
      assert !Less(Stamp(s), Stamp(t)) by {
        if Less(Stamp(s), Stamp(t)) {
          LessTransitive(Stamp(s), Stamp(t), Stamp(s));
          LessIrreflexive(Stamp(s));
          assert false;
        }
      }
    }
  }

  // ---- Reading back -----------------------------------------------------------------

  /** How long fields of fixed width are, with their separators. */
  function Width(layout: seq<(nat, string)>): nat
  {
    if layout == [] then 0 else layout[0].0 + |layout[0].1| + Width(layout[1..])
  }

  /** Fields read from a text: the first takes what the fixed width of the others leaves. */
  function ReadFields(s: string, layout: seq<(nat, string)>): seq<int>
    decreases |layout|
  {
    if layout == [] then []
    else
      var rest := Width(layout[1..]);
      if |s| < rest + |layout[0].1| then []
      else [Value(s[..|s| - rest - |layout[0].1|])] + ReadFields(s[|s| - rest..], layout[1..])
  }

  lemma {:induction false} DigitsValue(n: nat, w: nat)
    requires n < Power10(w)
    ensures Value(Digits(n, w)) == n
    decreases w
  {
    if w > 0 {
      DigitsValue(n / 10, w - 1);
      ValueAppends(Digits(n / 10, w - 1), n % 10);
    }
  }

  lemma ValueAppends(s: string, d: nat)
    requires d < 10
    ensures Value(s + [DigitChar(d)]) == 10 * Value(s) + d
  {
    assert (s + [DigitChar(d)])[..|s|] == s;
  }

  lemma PaddedValue(n: nat, w: nat)
    ensures Value(Padded(n, w)) == n
  {
    if n < Power10(w) { DigitsValue(n, w); }
  }

  lemma {:induction false} RenderWidth(values: seq<nat>, layout: seq<(nat, string)>)
    requires Fit(values, layout)
    ensures |Render(values, layout)| == Width(layout)
    decreases |values|
  {
    if values != [] {
      RenderWidth(values[1..], layout[1..]);
    }
  }

  lemma ReadFirst(s: string, head: string, separator: string, rest: string, layout: seq<(nat, string)>)
    requires layout != [] && layout[0].1 == separator && |rest| == Width(layout[1..]) && s == head + (separator + rest)
    ensures ReadFields(s, layout) == [Value(head)] + ReadFields(rest, layout[1..])
  {
    assert s[..|s| - |rest| - |separator|] == head;
    assert s[|s| - |rest|..] == rest;
  }

  /** Whatever fields are rendered are read back, if all but the first have their width. */
  lemma {:induction false} RenderReadsBack(values: seq<nat>, layout: seq<(nat, string)>)
    requires values != [] && |values| == |layout| && Fit(values[1..], layout[1..])
    ensures ReadFields(Render(values, layout), layout) == values
    decreases |values|
  {
    var rest := Render(values[1..], layout[1..]);
    RenderWidth(values[1..], layout[1..]);
    var head := Padded(values[0], layout[0].0);
    ReadFirst(Render(values, layout), head, layout[0].1, rest, layout);
    PaddedValue(values[0], layout[0].0);
    assert values == [values[0]] + values[1..];
    if |values| > 1 {
      FitRest(values[1..], layout[1..]);
      RenderReadsBack(values[1..], layout[1..]);
    }
  }

  lemma FitRest(values: seq<nat>, layout: seq<(nat, string)>)
    requires values != [] && Fit(values, layout)
    ensures Fit(values[1..], layout[1..])
  {
  }

  lemma RenderFrom(v: seq<nat>, layout: seq<(nat, string)>, k: nat)
    requires |v| == |layout| && k < |v|
    ensures Render(v[k..], layout[k..]) == Padded(v[k], layout[k].0) + (layout[k].1 + Render(v[k + 1..], layout[k + 1..]))
  {
    assert v[k..][1..] == v[k + 1..] && layout[k..][1..] == layout[k + 1..];
  }

  /** The fields in the form of RFC 3339: date, `T`, time, fraction, `Z`. */
  lemma Rendered(v: seq<nat>)
    requires |v| == 7
    ensures Render(v, LAYOUT) ==
      Padded(v[0], 4) + ("-" + (Padded(v[1], 2) + ("-" + (Padded(v[2], 2) + ("T" + ClockOf(v))))))
  {
    assert v[0..] == v && LAYOUT[0..] == LAYOUT;
    RenderFrom(v, LAYOUT, 0);
    RenderFrom(v, LAYOUT, 1);
    RenderFrom(v, LAYOUT, 2);
    RenderedClock(v);
  }

  function ClockOf(v: seq<nat>): string
    requires |v| == 7
  {
    Padded(v[3], 2) + (":" + (Padded(v[4], 2) + (":" + (Padded(v[5], 2) + ("." + (Padded(v[6], 6) + ("Z" + "")))))))
  }

  lemma RenderedClock(v: seq<nat>)
    requires |v| == 7
    ensures Render(v[3..], LAYOUT[3..]) == ClockOf(v)
  {
    RenderFrom(v, LAYOUT, 3);
    RenderFrom(v, LAYOUT, 4);
    RenderFrom(v, LAYOUT, 5);
    RenderFrom(v, LAYOUT, 6);
    assert v[7..] == [];
  }

  /** The microseconds since the epoch that a date and a time of day stand for. */
  function TimeOf(f: seq<int>): int
    requires |f| == 7
  {
    ((ToDays(Date(f[0], f[1], f[2])) * 24 + f[3]) * 60 + f[4]) * 60_000_000 + f[5] * 1_000_000 + f[6]
  }

  /** A printed timestamp reads back to its time, in every year. */
  lemma StampReadsBack(t: nat)
    ensures var f := ReadFields(Stamp(t), LAYOUT); |f| == 7 && TimeOf(f) == t
  {
    FieldsNatural(t);
    var values := Naturals(Fields(t));
    assert Fit(values[1..], LAYOUT[1..]) by { FieldsTailFit(t); }
    RenderReadsBack(values, LAYOUT);
    assert ReadFields(Stamp(t), LAYOUT) == Fields(t);
    FieldsTime(t);
  }

  lemma FieldsTailFit(t: nat)
    ensures (FieldsNatural(t); Fit(Naturals(Fields(t))[1..], LAYOUT[1..]))
  {
    FieldsNatural(t);
    assert Power10(2) == 100 && Power10(6) == 1_000_000;
  }

  lemma FieldsTime(t: nat)
    ensures TimeOf(Fields(t)) == t
  {
    var secs := t / 1_000_000;
    var days, sod := secs / 86_400, secs % 86_400;
    DayRoundTrip(days);
    Seconds(sod);
    assert t == secs * 1_000_000 + t % 1_000_000 && secs == days * 86_400 + sod;
  }
}
