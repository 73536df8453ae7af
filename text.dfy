/**
 * The string conversions the page performs on numbers: `String(n)` of a
 * non-negative integer, `padStart` with a one-character fill, and
 * `Array.prototype.join(',')` of a list of integers, together with the
 * parsers that invert them.
 */
module Text {
  predicate IsDigit(c: char) { '0' <= c <= '9' }

  predicate AllDigits(s: string) { forall i :: 0 <= i < |s| ==> IsDigit(s[i]) }

  function DigitValue(c: char): nat
  {
    if IsDigit(c) then c as int - '0' as int else 0
  }

  function DigitChar(d: nat): (c: char)
    requires d < 10
    ensures IsDigit(c) && DigitValue(c) == d
  {
    ('0' as int + d) as char
  }

  /** The shortest decimal spelling of `n`, as `String(n)` gives it. */
  function Decimal(n: nat): (s: string)
    ensures |s| >= 1 && AllDigits(s)
    ensures s[0] == '0' <==> n == 0
    decreases n
  {
    if n < 10 then [DigitChar(n)] else Decimal(n / 10) + [DigitChar(n % 10)]
  }

  /** The value of a string of decimal digits; leading zeros are allowed. */
  function ParseDecimal(s: string): nat
  {
    if s == [] then 0 else ParseDecimal(s[..|s| - 1]) * 10 + DigitValue(s[|s| - 1])
  }

  lemma {:induction false} DecimalRoundTrip(n: nat)
    ensures ParseDecimal(Decimal(n)) == n
    decreases n
  {
    if n >= 10 {
      var s := Decimal(n);
      assert s[..|s| - 1] == Decimal(n / 10);
      DecimalRoundTrip(n / 10);
    }
  }

  /** `Decimal(n)` has at most three digits exactly when `n < 1000`. */
  lemma {:induction false} DecimalWidth(n: nat)
    ensures n < 10 ==> |Decimal(n)| == 1
    ensures 10 <= n < 100 ==> |Decimal(n)| == 2
    ensures 100 <= n < 1000 ==> |Decimal(n)| == 3
    ensures n >= 1000 ==> |Decimal(n)| >= 4
    decreases n
  {
    if n >= 10 {
      DecimalWidth(n / 10);
    }
  }

  function Zeros(k: nat): (z: string)
  {
    seq(k, _ => '0')
  }

  lemma {:induction false} ZerosParse(k: nat)
    ensures ParseDecimal(Zeros(k)) == 0
  {
    if k > 0 {
      assert Zeros(k)[..k - 1] == Zeros(k - 1);
      ZerosParse(k - 1);
    }
  }

  /** Leading zeros do not change the value of a digit string. */
  lemma {:induction false} LeadingZerosParse(k: nat, s: string)
    ensures ParseDecimal(Zeros(k) + s) == ParseDecimal(s)
    decreases |s|
  {
    if s == [] {
      assert Zeros(k) + s == Zeros(k);
      ZerosParse(k);
    } else {
      var t := Zeros(k) + s;
      assert t[..|t| - 1] == Zeros(k) + s[..|s| - 1];
      assert t[|t| - 1] == s[|s| - 1];
      LeadingZerosParse(k, s[..|s| - 1]);
    }
  }

  /**
   * `s.padStart(width, fill)` for a one-character fill: the result is never
   * shorter than `width`, never truncates `s`, and ends with `s`.
   */
  function PadStart(s: string, width: nat, fill: char): (r: string)
    ensures |r| >= width && |r| >= |s|
    ensures |s| >= width ==> r == s
    ensures |s| < width ==> |r| == width
  {
    if |s| >= width then s else seq(width - |s|, _ => fill) + s
  }

  /** The padded string is `s` behind fill characters only. */
  lemma {:induction false} PadStartLayout(s: string, width: nat, fill: char)
    ensures var r := PadStart(s, width, fill);
      && r[|r| - |s|..] == s
      && forall i :: 0 <= i < |r| - |s| ==> r[i] == fill
  {
  }

  /** Digit strings padded with '0' keep their value. */
  lemma {:induction false} PadStartParse(s: string, width: nat)
    ensures ParseDecimal(PadStart(s, width, '0')) == ParseDecimal(s)
    ensures AllDigits(s) ==> AllDigits(PadStart(s, width, '0'))
  {
    var r := PadStart(s, width, '0');
    var k := |r| - |s|;
    assert r == Zeros(k) + s;
    LeadingZerosParse(k, s);
  }

  /** `xs.join(',')` for a list of non-negative integers. */
  function Join(xs: seq<nat>): (s: string)
    ensures s == [] <==> xs == []
  {
    if |xs| == 0 then ""
    else if |xs| == 1 then Decimal(xs[0])
    else Decimal(xs[0]) + "," + Join(xs[1..])
  }

  /** The pieces of `s` between commas; the inverse of joining with ','. */
  function Split(s: string): (parts: seq<string>)
    ensures |parts| >= 1
  {
    if s == [] then [[]]
    else
      var rest := Split(s[1..]);
      if s[0] == ',' then [[]] + rest else [[s[0]] + rest[0]] + rest[1..]
  }

  /** Reads back a comma-separated list of decimal numbers. */
  function ParseList(s: string): seq<nat>
  {
    if s == "" then []
    else
      var parts := Split(s);
      seq(|parts|, k requires 0 <= k < |parts| => ParseDecimal(parts[k]))
  }

  lemma {:induction false} SplitCommaFree(a: string, t: string)
    requires ',' !in a
    ensures Split(a + t) == [a + Split(t)[0]] + Split(t)[1..]
    decreases |a|
  {
    if a == [] {
      assert a + t == t;
      assert [] + Split(t)[0] == Split(t)[0];
      assert Split(t) == [Split(t)[0]] + Split(t)[1..];
    } else {
      assert (a + t)[1..] == a[1..] + t;
      SplitCommaFree(a[1..], t);
      assert [a[0]] + (a[1..] + Split(t)[0]) == a + Split(t)[0];
    }
  }

  lemma DecimalCommaFree(n: nat)
    ensures ',' !in Decimal(n)
  {
  }

  /** The decimal spellings of the entries of `xs`, in order. */
  function Spellings(xs: seq<nat>): (ss: seq<string>)
    ensures |ss| == |xs|
    ensures forall k :: 0 <= k < |xs| ==> ss[k] == Decimal(xs[k])
  {
    if xs == [] then [] else [Decimal(xs[0])] + Spellings(xs[1..])
  }

  /** Splitting a joined list gives back the decimal spellings of its entries. */
  lemma {:induction false} SplitJoin(xs: seq<nat>)
    requires xs != []
    ensures Split(Join(xs)) == Spellings(xs)
    decreases |xs|
  {
    var a := Decimal(xs[0]);
    DecimalCommaFree(xs[0]);
    if |xs| == 1 {
      SplitCommaFree(a, []);
      assert a + [] == a;
      assert Spellings(xs) == [a];
    } else {
      var t := "," + Join(xs[1..]);
      SplitCommaFree(a, t);
      assert Join(xs) == a + t;
      assert Split(t) == [[]] + Split(Join(xs[1..]));
      SplitJoin(xs[1..]);
      assert a + [] == a;
    }
  }

  /** Joining with ',' loses nothing: the list can be read back. */
  lemma {:induction false} JoinRoundTrip(xs: seq<nat>)
    ensures ParseList(Join(xs)) == xs
  {
    if xs != [] {
      SplitJoin(xs);
      var parts := Split(Join(xs));
      forall k | 0 <= k < |xs|
        ensures ParseDecimal(parts[k]) == xs[k]
      {
        DecimalRoundTrip(xs[k]);
      }
    }
  }
}
