/**
  The parts of Go's `strings`, `strconv` and `fmt` packages that the bot relies on,
  over strings of byte-sized characters: substring search, splitting on a
  one-character separator, `%d` formatting and `strconv.Atoi` on a 64-bit platform.
 */
module Strings {
  import opened Wrappers

  const MinInt64: int := -0x8000_0000_0000_0000
  const MaxInt64: int := 0x7FFF_FFFF_FFFF_FFFF
  const MaxUint64: int := 0xFFFF_FFFF_FFFF_FFFF

  /** Go's `int64`, and `int` on a 64-bit platform. */
  type Int64 = x: int | -0x8000_0000_0000_0000 <= x <= 0x7FFF_FFFF_FFFF_FFFF

  // ---------------------------------------------------------------------------
  // Substrings
  // ---------------------------------------------------------------------------

  /** `sub` occurs in `s` at index `i`. */
  predicate OccursAt(s: string, sub: string, i: nat)
  {
    i + |sub| <= |s| && s[i..i + |sub|] == sub
  }

  predicate StartsWith(s: string, prefix: string)
  {
    |prefix| <= |s| && s[..|prefix|] == prefix
  }

  /** `strings.Contains`: a plain substring test over the whole string. */
  function Contains(s: string, sub: string): (r: bool)
    ensures r <==> exists i: nat :: OccursAt(s, sub, i)
    decreases |s|
  {
    if |sub| > |s| then
      assert forall i: nat :: !OccursAt(s, sub, i);
      false
    else if s[..|sub|] == sub then
      assert OccursAt(s, sub, 0);
      true
    else
      ShiftOccurrence(s, sub);
      Contains(s[1..], sub)
  }

  /** Occurrences in a non-empty string that do not start at 0 are those of its tail. */
  lemma ShiftOccurrence(s: string, sub: string)
    requires |sub| <= |s| && s[..|sub|] != sub
    ensures (exists i: nat :: OccursAt(s, sub, i)) <==> (exists i: nat :: OccursAt(s[1..], sub, i))
  {
    if i: nat :| OccursAt(s, sub, i) {
      assert i != 0;
      assert s[1..][i - 1..i - 1 + |sub|] == s[i..i + |sub|];
      assert OccursAt(s[1..], sub, i - 1);
    }
    if i: nat :| OccursAt(s[1..], sub, i) {
      assert s[1..][i..i + |sub|] == s[i + 1..i + 1 + |sub|];
      assert OccursAt(s, sub, i + 1);
    }
  }

  /** Index of the first `c` in `s` (`strings.IndexByte`). */
  function IndexOf(s: string, c: char): (i: nat)
    requires c in s
    ensures i < |s| && s[i] == c && c !in s[..i]
  {
    if s[0] == c then 0 else IndexOf(s[1..], c) + 1
  }

  // ---------------------------------------------------------------------------
  // Splitting on one character
  // ---------------------------------------------------------------------------

  /** The fields joined back with the separator between consecutive ones. */
  function Join(fields: seq<string>, sep: char): string
    requires |fields| >= 1
  {
    if |fields| == 1 then fields[0] else fields[0] + [sep] + Join(fields[1..], sep)
  }

  /** `strings.Split(s, sep)` for a one-character separator. */
  function Split(s: string, sep: char): (fields: seq<string>)
    ensures |fields| >= 1
    ensures |fields| > 1 <==> sep in s
    ensures forall k :: 0 <= k < |fields| ==> sep !in fields[k]
    ensures Join(fields, sep) == s
    decreases |s|
  {
    if sep !in s then [s]
    else
      var i := IndexOf(s, sep);
      var rest := Split(s[i + 1..], sep);
      assert s == s[..i] + [sep] + s[i + 1..];
      [s[..i]] + rest
  }

  /** The first separator of `a + [sep] + rest` is the one after `a` when `a` has none. */
  lemma IndexOfAfterPrefix(a: string, sep: char, rest: string)
    requires sep !in a
    ensures IndexOf(a + [sep] + rest, sep) == |a|
  {
    var s := a + [sep] + rest;
    var i := IndexOf(s, sep);
    assert s[..|a|] == a;
    assert s[|a|] == sep;
  }

  /** Splitting a string whose first field is `a` yields `a` followed by the fields of the rest. */
  lemma SplitCons(a: string, sep: char, rest: string)
    requires sep !in a
    ensures Split(a + [sep] + rest, sep) == [a] + Split(rest, sep)
  {
    var s := a + [sep] + rest;
    assert s[|a|] == sep;
    IndexOfAfterPrefix(a, sep, rest);
    assert s[..|a|] == a;
    assert s[|a| + 1..] == rest;
  }

  /** Splitting undoes joining when no field contains the separator. */
  lemma {:induction false} SplitJoin(fields: seq<string>, sep: char)
    requires |fields| >= 1
    requires forall k :: 0 <= k < |fields| ==> sep !in fields[k]
    ensures Split(Join(fields, sep), sep) == fields
    decreases |fields|
  {
    if |fields| > 1 {
      SplitJoin(fields[1..], sep);
      SplitCons(fields[0], sep, Join(fields[1..], sep));
      assert [fields[0]] + fields[1..] == fields;
    }
  }

  // ---------------------------------------------------------------------------
  // Decimal numerals
  // ---------------------------------------------------------------------------

  predicate IsDigit(c: char)
  {
    '0' <= c <= '9'
  }

  predicate AllDigits(s: string)
  {
    forall k :: 0 <= k < |s| ==> IsDigit(s[k])
  }

  function DigitChar(d: nat): (c: char)
    requires d < 10
    ensures IsDigit(c)
  {
    (48 + d) as char
  }

  function DigitValue(c: char): (d: nat)
    requires IsDigit(c)
    ensures d < 10
  {
    (c as int) - 48
  }

  /** `%d` of a non-negative number: its shortest decimal numeral. */
  function NatToDecimal(n: nat): (s: string)
    ensures |s| >= 1 && AllDigits(s)
    ensures |s| > 1 ==> s[0] != '0'
    decreases n
  {
    if n < 10 then [DigitChar(n)] else NatToDecimal(n / 10) + [DigitChar(n % 10)]
  }

  /**
    `%d` of any integer (`fmt.Sprintf("%d", n)`): a "-" exactly for a negative
    number, then the shortest numeral of its magnitude.
   */
  function IntToDecimal(n: int): (s: string)
    ensures IsNegative(s) <==> n < 0
    ensures var u := Unsigned(s);
      u != [] && AllDigits(u) && (|u| > 1 ==> u[0] != '0') && DigitsValue(u) == if n < 0 then -n else n
  {
    var m: nat := if n < 0 then -n else n;
    DigitsValueOfDecimal(m);
    var u := NatToDecimal(m);
    if n < 0 then
      assert ("-" + u)[1..] == u;
      "-" + u
    else u
  }

  /** The number a string of digits denotes, read left to right. */
  function DigitsValue(s: string): nat
    requires AllDigits(s)
  {
    if s == [] then 0 else DigitsValue(s[..|s| - 1]) * 10 + DigitValue(s[|s| - 1])
  }

  /** The text after an optional leading sign. */
  function Unsigned(s: string): (u: string)
    ensures |u| <= |s|
  {
    if |s| > 0 && (s[0] == '+' || s[0] == '-') then s[1..] else s
  }

  predicate IsNegative(s: string)
  {
    |s| > 0 && s[0] == '-'
  }

  /** The longest prefix of `s` made of decimal digits. */
  function DigitRun(s: string): (r: string)
    ensures AllDigits(r) && |r| <= |s| && r == s[..|r|]
    ensures |r| < |s| ==> !IsDigit(s[|r|])
  {
    if s == [] || !IsDigit(s[0]) then [] else [s[0]] + DigitRun(s[1..])
  }

  /**
    `strconv.ParseUint` reads the digits after the sign from left to right and
    stops with a range error as soon as the digits read so far exceed the largest
    `uint64`, before it looks at any later character.
   */
  predicate RunOverflows(s: string)
  {
    DigitsValue(DigitRun(Unsigned(s))) > MaxUint64
  }

  /**
    `strconv.ParseInt(s, 10, 64)` before its range check: an optional sign followed
    by at least one decimal digit, and nothing else (no spaces, no underscores).
   */
  function ParseDecimal(s: string): Option<int>
  {
    var digits := Unsigned(s);
    if digits == [] || !AllDigits(digits) then None
    else if IsNegative(s) then Some(0 - DigitsValue(digits))
    else Some(DigitsValue(digits))
  }

  /** The `int64` bound on the side of `s`'s sign. */
  function Bound(s: string): Int64
  {
    if IsNegative(s) then MinInt64 else MaxInt64
  }

  /**
    `n, _ := strconv.Atoi(s)` on a 64-bit platform with the error discarded. A
    digit run that overflows `uint64` gives the bound on the side of the sign,
    whatever follows it; otherwise a syntax error gives 0, and a numeral outside
    the `int64` range gives the nearest bound (ParseInt returns the clamped
    value together with ErrRange).
   */
  function Atoi(s: string): (n: Int64)
    ensures RunOverflows(s) ==> n == Bound(s)
    ensures !RunOverflows(s) && ParseDecimal(s).None? ==> n == 0
    ensures ParseDecimal(s).Some? && MinInt64 <= ParseDecimal(s).value <= MaxInt64 ==> n == ParseDecimal(s).value
    ensures ParseDecimal(s).Some? && ParseDecimal(s).value > MaxInt64 ==> n == MaxInt64
    ensures ParseDecimal(s).Some? && ParseDecimal(s).value < MinInt64 ==> n == MinInt64
  {
    ParsedRunIsWhole(s);
    if RunOverflows(s) then Bound(s)
    else match ParseDecimal(s)
      case None => 0
      case Some(v) => if v > MaxInt64 then MaxInt64 else if v < MinInt64 then MinInt64 else v
  }

  /** A string of digits is its own digit run. */
  lemma {:induction false} DigitRunOfDigits(d: string)
    requires AllDigits(d)
    ensures DigitRun(d) == d
  {
    if d != [] {
      DigitRunOfDigits(d[1..]);
    }
  }

  /** A numeral that parses is one digit run, so the overflow test and the range check agree. */
  lemma ParsedRunIsWhole(s: string)
    ensures ParseDecimal(s).Some? ==> DigitRun(Unsigned(s)) == Unsigned(s)
  {
    if ParseDecimal(s).Some? {
      DigitRunOfDigits(Unsigned(s));
    }
  }

  /** A run of digits stops at the first non-digit. */
  lemma {:induction false} DigitRunOfConcat(d: string, rest: string)
    requires AllDigits(d)
    requires rest == [] || !IsDigit(rest[0])
    ensures DigitRun(d + rest) == d
  {
    if d != [] {
      assert (d + rest)[1..] == d[1..] + rest;
      DigitRunOfConcat(d[1..], rest);
    }
  }

  /**
    Digits beyond the `uint64` range give `MaxInt64` even when a non-digit
    follows, while digits within that range followed by a non-digit give 0.
   */
  lemma AtoiStopsAtOverflow(d: string, rest: string)
    requires d != [] && AllDigits(d)
    requires rest != [] && !IsDigit(rest[0])
    ensures DigitsValue(d) > MaxUint64 ==> Atoi(d + rest) == MaxInt64
    ensures DigitsValue(d) <= MaxUint64 ==> Atoi(d + rest) == 0
  {
    assert Unsigned(d + rest) == d + rest;
    DigitRunOfConcat(d, rest);
    assert (d + rest)[|d|] == rest[0];
  }

  /** Reading back a numeral gives the number it was printed from. */
  lemma {:induction false} DigitsValueOfDecimal(n: nat)
    ensures DigitsValue(NatToDecimal(n)) == n
    decreases n
  {
    var s := NatToDecimal(n);
    if n >= 10 {
      DigitsValueOfDecimal(n / 10);
      assert s[..|s| - 1] == NatToDecimal(n / 10);
    }
  }

  /** `strconv.Atoi` inverts `%d` on every 64-bit integer. */
  lemma AtoiOfDecimal(n: Int64)
    ensures Atoi(IntToDecimal(n)) == n
  {
    var m: nat := if n < 0 then -(n as int) else n;
    var d := NatToDecimal(m);
    var s := IntToDecimal(n);
    DigitsValueOfDecimal(m);
    DigitRunOfDigits(d);
    if n < 0 {
      assert s == "-" + d;
      assert Unsigned(s) == d;
      assert IsNegative(s);
    } else {
      assert s == d;
      assert Unsigned(s) == d;
      assert !IsNegative(s);
    }
    assert ParseDecimal(s) == Some(n as int);
  }

  /** `%d` is injective on 64-bit integers, so distinct ids print differently. */
  lemma DecimalInjective(a: Int64, b: Int64)
    ensures IntToDecimal(a) == IntToDecimal(b) <==> a == b
  {
    if IntToDecimal(a) == IntToDecimal(b) {
      AtoiOfDecimal(a);
      AtoiOfDecimal(b);
    }
  }
}
