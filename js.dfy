/** The JavaScript built-ins the application leans on, stated once:
    `Math.round`/`Math.floor`/`Math.min`/`Math.max`, the truncating `%`,
    `Number#toString(radix)`, `Number#toFixed(1)`, `String#padStart`,
    `toLowerCase`, `includes`, `trim` and `Array#filter`. JS numbers are `real`. */
module Js {

  datatype Option<+T> = None | Some(value: T)

  // ---------------------------------------------------------------- numbers

  function Min(a: real, b: real): real { if a <= b then a else b }
  function Max(a: real, b: real): real { if a >= b then a else b }

  /** `Math.max(lo, Math.min(hi, x))` */
  function Clamp(lo: real, hi: real, x: real): (r: real)
    ensures lo <= r
    ensures lo <= hi ==> r <= hi
    ensures lo <= x <= hi ==> r == x
    ensures x < lo ==> r == lo
    ensures lo <= hi < x ==> r == hi
  {
    Max(lo, Min(hi, x))
  }

  /** `Math.floor` */
  function Floor(x: real): (r: int)
    ensures r as real <= x < r as real + 1.0
  {
    x.Floor
  }

  /** `Math.round`: the nearest integer, halves rounded towards +infinity */
  function Round(x: real): (r: int)
    ensures r as real - 0.5 <= x < r as real + 0.5
  {
    (x + 0.5).Floor
  }

  /** Rounding towards zero, which JavaScript's `%` uses */
  function Trunc(x: real): (r: int)
    ensures 0.0 <= x ==> r == Floor(x)
    ensures x < 0.0 ==> r == -Floor(-x)
  {
    if x >= 0.0 then x.Floor else -((-x).Floor)
  }

  /** `x % y` on JS numbers: the remainder keeps the sign of `x` */
  function Rem(x: real, y: real): (r: real)
    requires y != 0.0
    ensures 0.0 <= x && 0.0 < y ==> 0.0 <= r < y && r == x - y * Floor(x / y) as real
  {
    FloorScaled(x, y);
    x - y * Trunc(x / y) as real
  }

  lemma FloorScaled(x: real, y: real)
    requires y != 0.0
    ensures 0.0 <= x && 0.0 < y ==> y * Floor(x / y) as real <= x < y * Floor(x / y) as real + y
  {
    if 0.0 <= x && 0.0 < y {
      var q := x / y;
      var f := Floor(q) as real;
      assert f <= q < f + 1.0;
      calc {
        x;
      ==
        y * q;
      <  { assert q < f + 1.0; }
        y * (f + 1.0);
      ==
        y * f + y;
      }
      assert y * f <= y * q;
    }
  }

  lemma RoundMonotone(x: real, y: real)
    requires x <= y
    ensures Round(x) <= Round(y)
  {
  }

  lemma DivMonotone(a: real, b: real, d: real)
    requires 0.0 < d && a <= b
    ensures a / d <= b / d
  {
    assert (b / d - a / d) * d == b - a;
  }

  // ---------------------------------------------------------------- digits

  /** `Math.random() * m`: a draw from [0, 1) scales a non-negative bound into [0, m] */
  function Scale(x: real, m: real): (r: real)
    requires 0.0 <= x < 1.0 && 0.0 <= m
    ensures 0.0 <= r <= m
  {
    ScaleBounds(x, m);
    x * m
  }

  lemma ScaleBounds(x: real, m: real)
    requires 0.0 <= x < 1.0 && 0.0 <= m
    ensures 0.0 <= x * m <= m
  {
    assert m - x * m == (1.0 - x) * m;
  }

  const DigitChars: string := "0123456789abcdef"

  /** A digit of `Number#toString(radix)`, lower-case for radix 16 */
  function DigitChar(d: nat): char
    requires d < 16
  {
    DigitChars[d]
  }

  predicate IsDigitIn(c: char, radix: nat)
  {
    ('0' <= c <= '9' && (c as int - '0' as int) < radix) ||
    ('a' <= c <= 'f' && (c as int - 'a' as int) + 10 < radix)
  }

  function DigitValue(c: char): nat
  {
    if '0' <= c <= '9' then c as int - '0' as int
    else if 'a' <= c <= 'f' then c as int - 'a' as int + 10
    else 0
  }

  predicate AllDigitsIn(s: string, radix: nat)
  {
    forall i :: 0 <= i < |s| ==> IsDigitIn(s[i], radix)
  }

  lemma DigitCharValue(d: nat, radix: nat)
    requires d < radix <= 16
    ensures IsDigitIn(DigitChar(d), radix) && DigitValue(DigitChar(d)) == d
  {
  }

  /** `n.toString(radix)` for a non-negative integer `n` */
  function ToRadix(n: nat, radix: nat): (s: string)
    requires 2 <= radix <= 16
    ensures 1 <= |s| && AllDigitsIn(s, radix)
    ensures n < radix <==> |s| == 1
    decreases n
  {
    DigitCharValue(n % radix, radix);
    if n < radix then [DigitChar(n)]
    else
      QuotientSmaller(n, radix);
      ToRadix(n / radix, radix) + [DigitChar(n % radix)]
  }

  lemma QuotientSmaller(n: nat, radix: nat)
    requires 2 <= radix <= n
    ensures 1 <= n / radix < n
  {
    var q := n / radix;
    assert n == q * radix + n % radix;
    assert n % radix < radix;
    assert q * radix > 0;
    assert q * 2 <= q * radix;
  }

  /** `n.toString()` for a non-negative integer `n` */
  function Decimal(n: nat): (s: string)
    ensures 1 <= |s| && AllDigitsIn(s, 10)
    ensures n < 10 <==> |s| == 1
  {
    ToRadix(n, 10)
  }

  /** `i.toString()` for any integer `i` */
  function IntString(i: int): string
  {
    if i < 0 then "-" + Decimal(-i) else Decimal(i)
  }

  /** Reads a digit string back; the inverse of `ToRadix` */
  function ParseRadix(s: string, radix: nat): nat
    decreases |s|
  {
    if s == [] then 0
    else ParseRadix(s[..|s| - 1], radix) * radix + DigitValue(s[|s| - 1])
  }

  lemma ParseSnoc(p: string, c: char, radix: nat)
    ensures ParseRadix(p + [c], radix) == ParseRadix(p, radix) * radix + DigitValue(c)
  {
    assert (p + [c])[..|p + [c]| - 1] == p;
  }

  lemma {:induction false} ParseToRadix(n: nat, radix: nat)
    requires 2 <= radix <= 16
    ensures ParseRadix(ToRadix(n, radix), radix) == n
    decreases n
  {
    if n < radix {
      DigitCharValue(n, radix);
      ParseSnoc([], DigitChar(n), radix);
      assert [] + [DigitChar(n)] == ToRadix(n, radix);
    } else {
      var q, d := n / radix, n % radix;
      DivMod(n, radix);
      QuotientSmaller(n, radix);
      ParseToRadix(q, radix);
      LastDigit(n, radix);
      ParseSnoc(ToRadix(q, radix), DigitChar(d), radix);
    }
  }

  lemma LastDigit(n: nat, radix: nat)
    requires 2 <= radix <= n && radix <= 16
    ensures n % radix < 16 && n / radix < n
    ensures ToRadix(n, radix) == ToRadix(n / radix, radix) + [DigitChar(n % radix)]
    ensures DigitValue(DigitChar(n % radix)) == n % radix
  {
    QuotientSmaller(n, radix);
    DigitCharValue(n % radix, radix);
  }

  lemma DivMod(n: nat, radix: nat)
    requires 2 <= radix
    ensures n == (n / radix) * radix + n % radix && n % radix < radix
  {
  }

  /** Different numbers print differently */
  lemma DecimalInjective(m: nat, n: nat)
    requires Decimal(m) == Decimal(n)
    ensures m == n
  {
    ParseToRadix(m, 10);
    ParseToRadix(n, 10);
  }

  /** Leading zeros do not change the value read back */
  lemma {:induction false} ParseLeadingZero(s: string, radix: nat)
    ensures ParseRadix(['0'] + s, radix) == ParseRadix(s, radix)
    decreases |s|
  {
    if s == [] {
      assert (['0'] + s)[..0] == [];
    } else {
      var t := ['0'] + s;
      assert t[..|t| - 1] == ['0'] + s[..|s| - 1];
      ParseLeadingZero(s[..|s| - 1], radix);
    }
  }

  // ---------------------------------------------------------------- strings

  /** `s.padStart(width, fill)` with a one-character fill */
  function PadStart(s: string, width: nat, fill: char): (r: string)
    ensures |r| == if |s| >= width then |s| else width
    ensures r[|r| - |s|..] == s
    ensures forall i :: 0 <= i < |r| - |s| ==> r[i] == fill
    decreases width - |s|
  {
    if |s| >= width then s else PadStart([fill] + s, width, fill)
  }

  lemma {:induction false} ParsePadded(s: string, width: nat, radix: nat)
    ensures ParseRadix(PadStart(s, width, '0'), radix) == ParseRadix(s, radix)
    decreases width - |s|
  {
    if |s| < width {
      ParsePadded(['0'] + s, width, radix);
      ParseLeadingZero(s, radix);
    }
  }

  lemma PaddedDigits(s: string, width: nat, radix: nat)
    requires AllDigitsIn(s, radix) && 1 <= radix
    ensures AllDigitsIn(PadStart(s, width, '0'), radix)
  {
    var r := PadStart(s, width, '0');
    forall i | 0 <= i < |r|
      ensures IsDigitIn(r[i], radix)
    {
      if i >= |r| - |s| {
        assert r[i] == r[|r| - |s|..][i - (|r| - |s|)];
      }
    }
  }

  /** The digits of a number text without its decimal point */
  function Unpoint(r: string): string
    requires 3 <= |r|
  {
    r[..|r| - 2] + r[|r| - 1..]
  }

  /** The text `I.D` of `t` tenths, as `toFixed(1)` prints it */
  function Tenths(t: nat): (r: string)
    ensures 3 <= |r| && r[|r| - 2] == '.'
    ensures AllDigitsIn(Unpoint(r), 10) && ParseRadix(Unpoint(r), 10) == t
  {
    var whole := Decimal(t / 10);
    DigitCharValue(t % 10, 10);
    ParseToRadix(t / 10, 10);
    ParseSnoc(whole, DigitChar(t % 10), 10);
    var r := whole + "." + [DigitChar(t % 10)];
    assert Unpoint(r) == whole + [DigitChar(t % 10)];
    r
  }

  /** `x.toFixed(1)` for |x| below 1e21: one decimal, the halfway case rounded up */
  function Fixed1(x: real): (r: string)
    ensures 3 <= |r| && r[|r| - 2] == '.'
    ensures 0.0 <= x ==> AllDigitsIn(Unpoint(r), 10) && ParseRadix(Unpoint(r), 10) == Round(x * 10.0)
  {
    if x < 0.0 then
      var r := Tenths(Round(-x * 10.0));
      assert ("-" + r)[|"-" + r| - 2] == r[|r| - 2];
      "-" + r
    else Tenths(Round(x * 10.0))
  }

  function LowerChar(c: char): char
  {
    if 'A' <= c <= 'Z' then (c as int + 32) as char else c
  }

  /** `s.toLowerCase()`, on the ASCII letters */
  function Lower(s: string): (r: string)
    ensures |r| == |s| && forall i :: 0 <= i < |s| ==> r[i] == LowerChar(s[i])
  {
    seq(|s|, i requires 0 <= i < |s| => LowerChar(s[i]))
  }

  /** `hay.includes(needle)` */
  predicate Includes(hay: string, needle: string)
  {
    exists i :: 0 <= i <= |hay| && needle <= hay[i..]
  }

  lemma IncludesEmpty(hay: string)
    ensures Includes(hay, "")
  {
    assert "" <= hay[0..];
  }

  /** The characters `String#trim` removes (WhiteSpace and LineTerminator) */
  predicate IsJsSpace(c: char)
  {
    c == ' ' || c == '\t' || c == '\n' || c == '\r' || c == '\U{B}' || c == '\U{C}' ||
    c == '\U{A0}' || c == '\U{1680}' || ('\U{2000}' <= c <= '\U{200A}') ||
    c == '\U{2028}' || c == '\U{2029}' || c == '\U{202F}' || c == '\U{205F}' ||
    c == '\U{3000}' || c == '\U{FEFF}'
  }

  /** `s.trim() === ""` */
  predicate IsBlank(s: string)
  {
    forall i :: 0 <= i < |s| ==> IsJsSpace(s[i])
  }

  /** `s.startsWith(p)` */
  predicate StartsWith(s: string, p: string)
  {
    p <= s
  }

  // ---------------------------------------------------------------- arrays

  /** `s.filter(p)` */
  function Filter<T(!new)>(s: seq<T>, p: T -> bool): (r: seq<T>)
    ensures |r| <= |s|
    ensures forall x :: x in r <==> x in s && p(x)
    decreases |s|
  {
    if s == [] then []
    else if p(s[0]) then [s[0]] + Filter(s[1..], p)
    else Filter(s[1..], p)
  }

  /** Filtering keeps relative order: it distributes over concatenation */
  lemma {:induction false} FilterAppend<T(!new)>(a: seq<T>, b: seq<T>, p: T -> bool)
    ensures Filter(a + b, p) == Filter(a, p) + Filter(b, p)
    decreases |a|
  {
    if a == [] {
      assert a + b == b;
    } else {
      assert (a + b)[1..] == a[1..] + b;
      FilterAppend(a[1..], b, p);
    }
  }

  lemma {:induction false} FilterAll<T(!new)>(s: seq<T>, p: T -> bool)
    requires forall x :: x in s ==> p(x)
    ensures Filter(s, p) == s
    decreases |s|
  {
    if s != [] {
      FilterAll(s[1..], p);
    }
  }

  lemma {:induction false} FilterNone<T(!new)>(s: seq<T>, p: T -> bool)
    requires forall x :: x in s ==> !p(x)
    ensures Filter(s, p) == []
    decreases |s|
  {
    if s != [] {
      FilterNone(s[1..], p);
    }
  }

  /** `s.filter(p).length` */
  function Count<T(!new)>(s: seq<T>, p: T -> bool): nat
  {
    |Filter(s, p)|
  }

  /** `s.includes(x) ? s.filter(y => y !== x) : [...s, x]`, the toggle idiom used for id lists */
  function Toggle<T(==,!new)>(s: seq<T>, x: T): (r: seq<T>)
    ensures x in s ==> x !in r
    ensures x !in s ==> r == s + [x]
    ensures forall y :: y != x ==> (y in r <==> y in s)
  {
    if x in s then Filter(s, y => y != x) else s + [x]
  }

  predicate NoDup<T(==)>(s: seq<T>)
  {
    forall i, j :: 0 <= i < j < |s| ==> s[i] != s[j]
  }

  lemma {:induction false} FilterNoDup<T(!new)>(s: seq<T>, p: T -> bool)
    requires NoDup(s)
    ensures NoDup(Filter(s, p))
    decreases |s|
  {
    if s != [] {
      FilterNoDup(s[1..], p);
      assert s[0] !in s[1..];
    }
  }

  /** Toggling keeps an id list free of duplicates; toggling twice restores membership
      for every id, and restores the list itself when the id was absent */
  lemma ToggleTwice<T(!new)>(s: seq<T>, x: T)
    requires NoDup(s)
    ensures NoDup(Toggle(s, x))
    ensures forall y :: y in Toggle(Toggle(s, x), x) <==> y in s
    ensures x !in s ==> Toggle(Toggle(s, x), x) == s
  {
    if x in s {
      FilterNoDup(s, y => y != x);
    } else {
      FilterAppend(s, [x], y => y != x);
      FilterAll(s, y => y != x);
      assert Filter([x], y => y != x) == [];
    }
  }
}
