/**
 * Strings as the screens use them: the ordinary string order that
 * `localeCompare` is taken to give, `String(n)` for integers, `parseInt`
 * on a run of digits, `padStart`, `split`, and the `id-ID` grouping of
 * thousands that `toLocaleString("id-ID")` prints for an integer.
 */
module Text {
  import opened Common

  // ---------------------------------------------------------------------
  // Order.

  /** a sorts strictly before b: first differing character, or a proper prefix. */
  predicate Less(a: string, b: string) {
    if a == [] then b != []
    else if b == [] then false
    else if a[0] != b[0] then a[0] < b[0]
    else Less(a[1..], b[1..])
  }

  lemma {:induction false} LessIrreflexive(a: string)
    ensures !Less(a, a)
  {
    if a != [] {
      LessIrreflexive(a[1..]);
    }
  }

  lemma {:induction false} LessTransitive(a: string, b: string, c: string)
    requires Less(a, b) && Less(b, c)
    ensures Less(a, c)
  {
    if a != [] && a[0] == b[0] && b[0] == c[0] {
      LessTransitive(a[1..], b[1..], c[1..]);
    }
  }

  /** Any two different strings are ordered one way, and only one way. */
  lemma {:induction false} LessTrichotomy(a: string, b: string)
    ensures a == b || Less(a, b) || Less(b, a)
    ensures !(Less(a, b) && Less(b, a))
  {
    if a != [] && b != [] && a[0] == b[0] {
      LessTrichotomy(a[1..], b[1..]);
      if a[1..] == b[1..] {
        assert a == [a[0]] + a[1..] && b == [b[0]] + b[1..];
      }
    }
  }

  /** Between strings that start with prefixes of one length, the prefixes decide first. */
  lemma {:induction false} LessAppend(p: string, q: string, p': string, q': string)
    requires |p| == |p'|
    ensures Less(p + q, p' + q') <==> Less(p, p') || (p == p' && Less(q, q'))
  {
    if p == [] {
      assert p + q == q && p' + q' == q';
    } else {
      assert (p + q)[0] == p[0] && (p' + q')[0] == p'[0];
      assert (p + q)[1..] == p[1..] + q && (p' + q')[1..] == p'[1..] + q';
      LessAppend(p[1..], q, p'[1..], q');
      if p[0] == p'[0] && p[1..] == p'[1..] {
        assert p == p';
      }
      if p == p' {
        assert p[1..] == p'[1..];
      }
    }
  }

  // ---------------------------------------------------------------------
  // Decimal digits.

  predicate IsDigit(c: char) {
    '0' <= c <= '9'
  }

  predicate AllDigits(s: string) {
    forall i :: 0 <= i < |s| ==> IsDigit(s[i])
  }

  function DigitChar(d: int): (c: char)
    requires 0 <= d < 10
    ensures IsDigit(c) && c as int - '0' as int == d
  {
    ('0' as int + d) as char
  }

  function Pow10(n: nat): (r: nat)
    ensures r >= 1
  {
    if n == 0 then 1 else 10 * Pow10(n - 1)
  }

  /** The number a run of digits spells, read left to right as `parseInt` does. */
  function Value(s: string): nat
    requires AllDigits(s)
  {
    if s == [] then 0 else Value(s[..|s| - 1]) * 10 + (s[|s| - 1] as int - '0' as int)
  }

  /** The digits of a natural number, without leading zeros: `String(n)`. */
  function Decimal(n: nat): (s: string)
    ensures |s| >= 1 && AllDigits(s)
  {
    if n < 10 then [DigitChar(n)] else Decimal(n / 10) + [DigitChar(n % 10)]
  }

  /** `String(n)` for an integer: a minus sign, then the digits of its magnitude. */
  function Show(n: int): (s: string)
    ensures |s| >= 1
    ensures forall i :: 0 <= i < |s| ==> IsDigit(s[i]) || s[i] == '-'
  {
    if n < 0 then "-" + Decimal(-n) else Decimal(n)
  }

  lemma {:induction false} DecimalValue(n: nat)
    ensures Value(Decimal(n)) == n
  {
    if n >= 10 {
      DecimalValue(n / 10);
      var s := Decimal(n);
      assert s[..|s| - 1] == Decimal(n / 10);
    }
  }

  lemma {:induction false} ValueAppend(a: string, b: string)
    requires AllDigits(a) && AllDigits(b)
    ensures AllDigits(a + b)
    ensures Value(a + b) == Value(a) * Pow10(|b|) + Value(b)
  {
    if b != [] {
      var b' := b[..|b| - 1];
      var d := b[|b| - 1] as int - '0' as int;
      assert (a + b)[..|a + b| - 1] == a + b';
      assert (a + b)[|a + b| - 1] == b[|b| - 1];
      ValueAppend(a, b');
      calc {
        Value(a + b);
        Value(a + b') * 10 + d;
        (Value(a) * Pow10(|b'|) + Value(b')) * 10 + d;
        { MulAssoc(Value(a), Pow10(|b'|), 10); }
        Value(a) * (Pow10(|b'|) * 10) + Value(b') * 10 + d;
        Value(a) * Pow10(|b|) + Value(b);
      }
    } else {
      assert a + b == a;
    }
  }

  lemma MulAssoc(x: int, y: int, z: int)
    ensures (x * y) * z == x * (y * z)
  {
  }

  lemma {:induction false} ValueBound(s: string)
    requires AllDigits(s)
    ensures Value(s) < Pow10(|s|)
  {
    if s != [] {
      ValueBound(s[..|s| - 1]);
    }
  }

  /** Digit strings of one length compare as the numbers they spell. */
  lemma {:induction false} LessDigits(a: string, b: string)
    requires AllDigits(a) && AllDigits(b) && |a| == |b|
    ensures Less(a, b) <==> Value(a) < Value(b)
  {
    if a != [] {
      var a', b' := a[1..], b[1..];
      var p := Pow10(|a'|);
      var da, db := a[0] as int - '0' as int, b[0] as int - '0' as int;
      LeadingDigit(a);
      LeadingDigit(b);
      ValueBound(a');
      ValueBound(b');
      LessDigits(a', b');
      var va, vb := Value(a'), Value(b');
      if da < db {
        MulLe(da + 1, db, p);
        assert Value(a) < (da + 1) * p by { Distribute(da, p); }
        assert Less(a, b);
      } else if db < da {
        MulLe(db + 1, da, p);
        assert Value(b) < (db + 1) * p by { Distribute(db, p); }
        assert Less(b, a);
        LessTrichotomy(a, b);
      } else {
        assert a[0] == b[0];
        assert Less(a, b) == Less(a', b');
      }
    }
  }

  lemma Distribute(x: int, p: int)
    ensures (x + 1) * p == x * p + p
  {
  }

  /** The leading digit of a digit string weighs a power of ten. */
  lemma LeadingDigit(a: string)
    requires AllDigits(a) && a != []
    ensures Value(a) == (a[0] as int - '0' as int) * Pow10(|a| - 1) + Value(a[1..])
  {
    ValueAppend([a[0]], a[1..]);
    assert a == [a[0]] + a[1..];
    assert [a[0]][..0] == [];
  }

  lemma MulLe(x: int, y: int, p: int)
    requires x <= y && p >= 0
    ensures x * p <= y * p
  {
  }

  /** `s.padStart(width, fill)`. */
  function PadStart(s: string, width: nat, fill: char): (r: string)
    ensures |r| == if |s| < width then width else |s|
    ensures r[|r| - |s|..] == s
    ensures forall i :: 0 <= i < |r| - |s| ==> r[i] == fill
  {
    if |s| < width then
      var pad := seq(width - |s|, _ => fill);
      assert (pad + s)[|pad|..] == s;
      pad + s
    else s
  }

  /** `parseInt` on a string of the form `-?digits`; None (NaN) on anything else. */
  function ParseInteger(s: string): (r: Option<int>)
    ensures r.Some? ==> |s| >= 1
  {
    if |s| >= 2 && s[0] == '-' && AllDigits(s[1..]) then Some(0 - Value(s[1..]) as int)
    else if |s| >= 1 && AllDigits(s) then Some(Value(s))
    else None
  }

  /** Printing an integer and reading it back gives the integer. */
  lemma ParseShow(n: int)
    ensures ParseInteger(Show(n)) == Some(n)
  {
    if n < 0 {
      DecimalValue(-n);
      assert Show(n)[1..] == Decimal(-n);
    } else {
      DecimalValue(n);
    }
  }

  // ---------------------------------------------------------------------
  // `s.split(sep)`.

  function Split(s: string, sep: char): (parts: seq<string>)
    ensures |parts| >= 1
  {
    if s == [] then [""]
    else if s[0] == sep then [""] + Split(s[1..], sep)
    else
      var rest := Split(s[1..], sep);
      [[s[0]] + rest[0]] + rest[1..]
  }

  lemma {:induction false} SplitNoSeparator(a: string, sep: char)
    requires sep !in a
    ensures Split(a, sep) == [a]
  {
    if a != [] {
      SplitNoSeparator(a[1..], sep);
      assert a == [a[0]] + a[1..];
    }
  }

  /** The text after the last separator is the last field; the part before it splits as before. */
  lemma {:induction false} SplitLast(a: string, b: string, sep: char)
    requires sep !in b
    ensures Split(a + [sep] + b, sep) == Split(a, sep) + [b]
  {
    if a == [] {
      assert a + [sep] + b == [sep] + b;
      assert ([sep] + b)[1..] == b;
      SplitNoSeparator(b, sep);
    } else {
      var s := a + [sep] + b;
      assert s[0] == a[0];
      assert s[1..] == a[1..] + [sep] + b;
      SplitLast(a[1..], b, sep);
    }
  }

  // ---------------------------------------------------------------------
  // `n.toLocaleString("id-ID")` for an integer: groups of three digits
  // separated by '.', a leading '-' for a negative number.

  function Grouped(n: nat): (s: string)
    ensures |s| >= 1
  {
    if n < 1000 then Decimal(n)
    else Grouped(n / 1000) + "." + PadStart(Decimal(n % 1000), 3, '0')
  }

  function IdLocale(n: int): string {
    if n < 0 then "-" + Grouped(-n) else Grouped(n)
  }

  /** `s.replace(/[^\d]/g, "")`: the decimal digits of s, in their order. */
  function DigitsOf(s: string): (d: string)
    ensures AllDigits(d)
  {
    Filter(s, IsDigit)
  }

  lemma DigitsOfAppend(a: string, b: string)
    ensures DigitsOf(a + b) == DigitsOf(a) + DigitsOf(b)
  {
    FilterAppend(a, b, IsDigit);
  }

  lemma DigitsOfDigits(s: string)
    requires AllDigits(s)
    ensures DigitsOf(s) == s
  {
    FilterKeepsAll(s, IsDigit);
  }

  /** Removing the grouping separators from a grouped number gives back its digits' value. */
  lemma {:induction false} GroupedValue(n: nat)
    ensures Value(DigitsOf(Grouped(n))) == n
  {
    if n < 1000 {
      DigitsOfDigits(Decimal(n));
      DecimalValue(n);
    } else {
      var q, m := n / 1000, n % 1000;
      var dh, lo := DigitsOf(Grouped(q)), PadStart(Decimal(m), 3, '0');
      assert Value(dh) == q by { GroupedValue(q); }
      assert AllDigits(lo) && |lo| == 3 && Value(lo) == m by { PaddedValue(m); }
      assert DigitsOf(Grouped(n)) == dh + lo by { GroupedDigits(n); }
      assert Value(dh + lo) == q * 1000 + m by {
        ValueAppend(dh, lo);
        assert Pow10(3) == 1000;
      }
    }
  }

  lemma GroupedDigits(n: nat)
    requires n >= 1000
    ensures DigitsOf(Grouped(n)) == DigitsOf(Grouped(n / 1000)) + PadStart(Decimal(n % 1000), 3, '0')
  {
    PaddedValue(n % 1000);
    DotDigits(Grouped(n / 1000), PadStart(Decimal(n % 1000), 3, '0'));
  }

  /** A grouping separator contributes no digit. */
  lemma DotDigits(hi: string, lo: string)
    requires AllDigits(lo)
    ensures DigitsOf(hi + "." + lo) == DigitsOf(hi) + lo
  {
    assert DigitsOf(".") == [] by {
      assert "."[1..] == [];
    }
    calc {
      DigitsOf(hi + "." + lo);
      { DigitsOfAppend(hi + ".", lo); }
      DigitsOf(hi + ".") + DigitsOf(lo);
      { DigitsOfAppend(hi, "."); DigitsOfDigits(lo); }
      DigitsOf(hi) + DigitsOf(".") + lo;
    }
  }

  /** Three zero-padded digits spell the number they pad. */
  lemma PaddedValue(n: nat)
    requires n < 1000
    ensures AllDigits(PadStart(Decimal(n), 3, '0'))
    ensures |PadStart(Decimal(n), 3, '0')| == 3
    ensures Value(PadStart(Decimal(n), 3, '0')) == n
  {
    var d := Decimal(n);
    DecimalLength(n);
    DecimalValue(n);
    var lo := PadStart(d, 3, '0');
    var z := lo[..3 - |d|];
    assert lo == z + d by {
      assert lo[3 - |d|..] == d;
    }
    ZerosValue(z);
    ValueAppend(z, d);
    assert Value(z) * Pow10(|d|) == 0;
  }

  lemma {:induction false} ZerosValue(z: string)
    requires forall i :: 0 <= i < |z| ==> z[i] == '0'
    ensures AllDigits(z) && Value(z) == 0
  {
    if z != [] {
      ZerosValue(z[..|z| - 1]);
    }
  }

  lemma DecimalLength(n: nat)
    requires n < 1000
    ensures |Decimal(n)| <= 3
  {
    if n >= 10 {
      DecimalLength(n / 10);
    }
  }
}
