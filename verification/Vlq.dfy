/** Base64 VLQ numbers (`crates/usai-runtime/src/sourcemap.rs`; section 6 of ECMA-426). */
module Vlq {
  import opened Wrappers

  const MAX_DIGITS := 8

  function CharOf(d: nat): char
    requires d < 64
  {
    if d < 26 then ('A' as int + d) as char
    else if d < 52 then ('a' as int + d - 26) as char
    else if d < 62 then ('0' as int + d - 52) as char
    else if d == 62 then '+' else '/'
  }

  /** The place of a character in the alphabet. */
  function DigitOf(c: char): (d: Option<nat>)
    ensures d.Some? ==> d.value < 64 && CharOf(d.value) == c
  {
    if 'A' <= c <= 'Z' then Some(c as int - 'A' as int)
    else if 'a' <= c <= 'z' then Some(c as int - 'a' as int + 26)
    else if '0' <= c <= '9' then Some(c as int - '0' as int + 52)
    else if c == '+' then Some(62) else if c == '/' then Some(63) else None
  }

  function Power32(n: nat): (p: nat)
    ensures p > 0
  {
    if n == 0 then 1 else 32 * Power32(n - 1)
  }

  /** The digits from `pos`, least significant first, at most `left` of them, and where they end. */
  function Raw(text: string, pos: nat, left: nat): (r: Option<(nat, nat)>)
    ensures r.Some? ==> pos < r.value.1 <= |text| && r.value.1 <= pos + left
    decreases left
  {
    if left == 0 || pos >= |text| then None
    else match DigitOf(text[pos])
      case None => None
      case Some(d) =>
        if d < 32 then Some((d, pos + 1))
        else Below(d - 32, Raw(text, pos + 1, left - 1))
  }

  /** A digit below the rest of its number. */
  function Below(d: nat, more: Option<(nat, nat)>): Option<(nat, nat)>
  {
    match more
    case None => None
    case Some((raw, end)) => Some((d + 32 * raw, end))
  }

  /** No reading takes more than five bits a digit. */
  lemma {:induction false} RawFits(text: string, pos: nat, left: nat)
    ensures var r := Raw(text, pos, left); r.Some? ==> r.value.0 < Power32(left)
    decreases left
  {
    if left > 0 {
      assert Power32(left) == 32 * Power32(left - 1);
      RawFits(text, pos + 1, left - 1);
    }
  }

  /** The lowest bit is the sign. */
  function Signed(raw: nat): int
  {
    if raw % 2 == 1 then -(raw / 2) else raw / 2
  }

  function Read(text: string, pos: nat): (r: Option<(int, nat)>)
  {
    match Raw(text, pos, MAX_DIGITS)
    case None => None
    case Some((raw, end)) => Some((Signed(raw), end))
  }

  function Times(a: nat, b: nat): nat
  {
    a * b
  }

  /** What more digits come to above `count` already read. */
  function Above(result: nat, count: nat, more: Option<(nat, nat)>): Option<(nat, nat)>
  {
    match more
    case None => None
    case Some((raw, end)) => Some((result + Times(raw, Power32(count)), end))
  }

  lemma AboveBelow(result: nat, count: nat, d: nat, more: Option<(nat, nat)>)
    ensures Above(result, count, Below(d, more)) == Above(result + Times(d, Power32(count)), count + 1, more)
  {
    if more.Some? {
      Shifted(d, more.value.0, Power32(count), result);
    }
  }

  lemma Shifted(d: nat, more: nat, power: nat, result: nat)
    ensures result + (d + 32 * more) * power == (result + d * power) + more * (32 * power)
  {
  }

  lemma RawStep(text: string, at: nat, left: nat, result: nat, count: nat, d: nat)
    requires at < |text| && left > 0 && DigitOf(text[at]) == Some(d)
    ensures Above(result, count, Raw(text, at, left))
         == if d < 32 then Some((result + Times(d, Power32(count)), at + 1))
            else Above(result + Times(d - 32, Power32(count)), count + 1, Raw(text, at + 1, left - 1))
  {
    if d >= 32 {
      AboveBelow(result, count, d - 32, Raw(text, at + 1, left - 1));
    }
  }

  /** The loop of `vlq`: the bits of each digit go above those already read, so `|` there is `+` here. */
  method RawDigits(text: string, pos: nat) returns (r: Option<(nat, nat)>)
    ensures r == Raw(text, pos, MAX_DIGITS)
  {
    ghost var answer := Raw(text, pos, MAX_DIGITS);
    var result: nat, at: nat, count: nat, unit: nat := 0, pos, 0, 1;
    while count < MAX_DIGITS
      invariant count <= MAX_DIGITS && unit == Power32(count)
      invariant answer == Above(result, count, Raw(text, at, MAX_DIGITS - count))
    {
      if at >= |text| || DigitOf(text[at]).None? {
        return None;
      }
      var digit := DigitOf(text[at]).value;
      RawStep(text, at, MAX_DIGITS - count, result, count, digit);
      if digit < 32 {
        return Some((result + Times(digit, unit), at + 1));
      }
      result := result + Times(digit - 32, unit);
      at, count, unit := at + 1, count + 1, 32 * unit;
    }
    return None;
  }

  /** `vlq`. */
  method Decode(text: string, pos: nat) returns (r: Option<(int, nat)>)
    ensures r == Read(text, pos)
  {
    var raw := RawDigits(text, pos);
    match raw {
      case None => return None;
      case Some((n, end)) => return Some((Signed(n), end));
    }
  }

  // ---- The encoding and its inverse -----------------------------------------

  function Digits(n: nat): (s: string)
    ensures s != ""
  {
    if n < 32 then [CharOf(n)] else [CharOf(32 + n % 32)] + Digits(n / 32)
  }

  function Zigzag(v: int): nat
  {
    if v < 0 then 2 * -v + 1 else 2 * v
  }

  function Encoded(v: int): (s: string)
    ensures s != ""
  {
    Digits(Zigzag(v))
  }

  /** Whether `s` stands in `text` at `pos`. */
  predicate Stands(text: string, pos: nat, s: string)
  {
    pos + |s| <= |text| && forall j :: pos <= j < pos + |s| ==> text[j] == s[j - pos]
  }

  lemma StandsTail(text: string, pos: nat, c: char, s: string)
    requires Stands(text, pos, [c] + s)
    ensures text[pos] == c && Stands(text, pos + 1, s)
  {
    assert forall j :: pos + 1 <= j < pos + 1 + |s| ==> text[j] == ([c] + s)[j - pos];
  }

  /** What reading the digits of `n` gives, with room for `left` of them. */
  function RawResult(n: nat, pos: nat, left: nat): Option<(nat, nat)>
  {
    if left > 0 && n < Power32(left) then Some((n, pos + |Digits(n)|)) else None
  }

  lemma RawOfOne(text: string, pos: nat, n: nat, left: nat)
    requires n < 32 && pos < |text| && text[pos] == CharOf(n) && left > 0
    ensures Raw(text, pos, left) == RawResult(n, pos, left)
  {
    assert Power32(left) == 32 * Power32(left - 1);
  }

  lemma RawOfMore(text: string, pos: nat, n: nat, left: nat)
    requires n >= 32 && pos < |text| && text[pos] == CharOf(32 + n % 32) && left > 0
    requires Raw(text, pos + 1, left - 1) == RawResult(n / 32, pos + 1, left - 1)
    ensures Raw(text, pos, left) == RawResult(n, pos, left)
  {
    assert DigitOf(text[pos]) == Some(32 + n % 32);
    Quotient(n, Power32(left - 1));
  }

  /** Reading gives the number back, and stops at its end, exactly when it has room for its digits. */
  lemma {:induction false} RawOfDigits(text: string, pos: nat, n: nat, left: nat)
    requires Stands(text, pos, Digits(n))
    ensures Raw(text, pos, left) == RawResult(n, pos, left)
    decreases left
  {
    if left > 0 {
      if n < 32 {
        assert text[pos] == Digits(n)[0];
        RawOfOne(text, pos, n, left);
      } else {
        StandsTail(text, pos, CharOf(32 + n % 32), Digits(n / 32));
        RawOfDigits(text, pos + 1, n / 32, left - 1);
        RawOfMore(text, pos, n, left);
      }
    }
  }

  lemma Quotient(n: nat, p: nat)
    ensures n / 32 < p <==> n < 32 * p
  {
  }

  const BOUND := 0x80_0000_0000  // 2^39

  lemma EightDigits()
    ensures Power32(MAX_DIGITS) == 2 * BOUND
  {
    assert Power32(2) == 1024;
    assert Power32(4) == 32 * (32 * Power32(2));
    assert Power32(6) == 32 * (32 * Power32(4));
    assert Power32(8) == 32 * (32 * Power32(6));
  }

  lemma ZigzagBack(v: int)
    ensures Signed(Zigzag(v)) == v
  {
  }

  lemma ZigzagFits(v: int)
    ensures Zigzag(v) < Power32(MAX_DIGITS) <==> -BOUND < v < BOUND
  {
    EightDigits();
  }

  /** `vlq` undoes the encoding, wherever it stands, exactly below the bound; above it, it refuses. */
  lemma ReadsBack(text: string, pos: nat, v: int)
    requires Stands(text, pos, Encoded(v))
    ensures Read(text, pos) == if -BOUND < v < BOUND then Some((v, pos + |Encoded(v)|)) else None
  {
    RawOfDigits(text, pos, Zigzag(v), MAX_DIGITS);
    ZigzagFits(v);
    ZigzagBack(v);
  }

  /** No digit is a separator, so an encoding survives being joined. */
  lemma {:induction false} NoSeparator(n: nat, i: nat)
    requires i < |Digits(n)|
    ensures Digits(n)[i] != ',' && Digits(n)[i] != ';'
    decreases n
  {
    if n >= 32 && i > 0 {
      NoSeparator(n / 32, i - 1);
    }
  }
}
