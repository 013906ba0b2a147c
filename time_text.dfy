/** Reading clock texts such as `m:ss` back as numbers */
module TimeText {
  import opened Js

  /** Minutes and seconds of a non-negative time: whole seconds below 60, and
      under 100 minutes for times below 6000 s */
  lemma MinutesSeconds(seconds: real)
    requires 0.0 <= seconds
    ensures 0 <= Floor(seconds / 60.0) && 0 <= Floor(Rem(seconds, 60.0)) < 60
    ensures Trunc(Rem(seconds, 60.0)) == Floor(Rem(seconds, 60.0))
    ensures seconds < 6000.0 ==> Floor(seconds / 60.0) < 100
  {
  }

  /** `r` is `m:ss` (one or more minute digits) whose digit groups read back as `mins` and `secs` */
  ghost predicate ReadsAs(r: string, mins: int, secs: int)
  {
    4 <= |r| && r[|r| - 3] == ':' &&
    AllDigitsIn(r[..|r| - 3], 10) && AllDigitsIn(r[|r| - 2..], 10) &&
    ParseRadix(r[..|r| - 3], 10) == mins && ParseRadix(r[|r| - 2..], 10) == secs
  }

  /** Both numbers padded to two digits around a colon */
  function PaddedClock(mins: nat, secs: nat): (r: string)
    requires secs < 60
    ensures ReadsAs(r, mins, secs)
    ensures mins < 100 ==> |r| == 5
  {
    var m, s := PadStart(Decimal(mins), 2, '0'), PadStart(Decimal(secs), 2, '0');
    TwoDigits(mins);
    TwoDigits(secs);
    ClockReads(m, s, mins, secs);
    m + ":" + s
  }

  lemma ClockReads(m: string, s: string, mins: int, secs: int)
    requires 1 <= |m| && |s| == 2 && AllDigitsIn(m, 10) && AllDigitsIn(s, 10)
    requires ParseRadix(m, 10) == mins && ParseRadix(s, 10) == secs
    ensures ReadsAs(m + ":" + s, mins, secs)
  {
    var r := m + ":" + s;
    assert r[..|r| - 3] == m && r[|r| - 2..] == s;
  }

  /** A non-negative number padded to two digits reads back as itself */
  lemma TwoDigits(n: int)
    requires 0 <= n
    ensures var p := PadStart(Decimal(n), 2, '0');
      2 <= |p| && AllDigitsIn(p, 10) && ParseRadix(p, 10) == n && (n < 100 ==> |p| == 2)
  {
    ParsePadded(Decimal(n), 2, 10);
    ParseToRadix(n, 10);
    PaddedDigits(Decimal(n), 2, 10);
    if n < 100 {
      DecimalShort(n);
    }
  }

  lemma DecimalShort(n: nat)
    requires n < 100
    ensures |Decimal(n)| <= 2
  {
    if n >= 10 {
      assert Decimal(n) == Decimal(n / 10) + [DigitChar(n % 10)];
    }
  }
}
