/** Minor units as a decimal: the digits that came in, zeros before them, and a dot. */
module MinorUnits {
  import opened Basics

  /** A JavaScript number, as far as `Number.isInteger` looks at it. */
  datatype Scale = Whole(n: int) | NotWhole

  predicate IsDigit(c: char) { '0' <= c <= '9' }

  predicate AllDigits(s: string) { forall i :: 0 <= i < |s| ==> IsDigit(s[i]) }

  function Zeros(n: nat): string { if n == 0 then "" else Zeros(n - 1) + "0" }

  function PadStart(s: string, length: nat): string { if |s| < length then Zeros(length - |s|) + s else s }

  function DecimalOfMinorUnits(minor: string, scale: Scale): Option<string> {
    if minor == "" || !AllDigits(minor) then None
    else if scale.NotWhole? || scale.n < 0 then None
    else if scale.n == 0 then Some(minor)
    else
      var digits := PadStart(minor, scale.n + 1);
      ZerosAre(if |minor| < scale.n + 1 then scale.n + 1 - |minor| else 0);
      Some(digits[..|digits| - scale.n] + "." + digits[|digits| - scale.n..])
  }

  lemma {:induction false} ZerosAre(n: nat)
    ensures |Zeros(n)| == n && AllDigits(Zeros(n)) && NatOf(Zeros(n)) == 0
  {
    if n > 0 {
      ZerosAre(n - 1);
      assert Zeros(n)[..n - 1] == Zeros(n - 1);
    }
  }

  // ---------------------------------------------------------------------------------------
  // Reading a decimal back.

  function NatOf(s: string): nat
    requires AllDigits(s)
  {
    if s == "" then 0 else 10 * NatOf(s[..|s| - 1]) + (s[|s| - 1] as int - '0' as int)
  }

  function Pow10(n: nat): nat { if n == 0 then 1 else 10 * Pow10(n - 1) }

  /** How many characters come before the dot, all of them where there is none. */
  function DotAt(s: string): nat { if s == "" || s[0] == '.' then 0 else 1 + DotAt(s[1..]) }

  lemma {:induction false} DotIsFirst(s: string, at: nat)
    requires at <= |s| && (forall i :: 0 <= i < at ==> s[i] != '.') && (at < |s| ==> s[at] == '.')
    ensures DotAt(s) == at
  {
    if at > 0 { DotIsFirst(s[1..], at - 1); }
  }

  lemma {:induction false} DotAtWithin(s: string)
    ensures DotAt(s) <= |s|
  {
    if s != "" && s[0] != '.' { DotAtWithin(s[1..]); }
  }

  function IntegerPart(s: string): string { DotAtWithin(s); s[..DotAt(s)] }

  function FractionPart(s: string): string { DotAtWithin(s); if DotAt(s) == |s| then "" else s[DotAt(s) + 1..] }

  /** A number with so many zeros written after it. */
  function Shifted(n: nat, places: nat): nat { if places == 0 then n else 10 * Shifted(n, places - 1) }

  lemma {:induction false} ShiftedIsTimes(n: nat, places: nat)
    ensures Shifted(n, places) == n * Pow10(places)
  {
    if places > 0 { ShiftedIsTimes(n, places - 1); }
  }

  lemma {:induction false} NatOfJoined(a: string, b: string)
    requires AllDigits(a) && AllDigits(b)
    ensures AllDigits(a + b) && NatOf(a + b) == Shifted(NatOf(a), |b|) + NatOf(b)
  {
    if b == "" {
      assert a + b == a;
    } else {
      NatOfJoined(a, b[..|b| - 1]);
      assert (a + b)[..|a + b| - 1] == a + b[..|b| - 1];
    }
  }

  lemma {:induction false} ShiftedZero(places: nat)
    ensures Shifted(0, places) == 0
  {
    if places > 0 { ShiftedZero(places - 1); }
  }

  lemma ReadBack(whole: string, fraction: string)
    requires AllDigits(whole)
    ensures IntegerPart(whole + "." + fraction) == whole && FractionPart(whole + "." + fraction) == fraction
    ensures IntegerPart(whole) == whole && FractionPart(whole) == ""
  {
    DotIsFirst(whole + "." + fraction, |whole|);
    DotIsFirst(whole, |whole|);
  }

  lemma PadIsExact(minor: string, length: nat)
    requires AllDigits(minor)
    ensures var p := PadStart(minor, length);
            AllDigits(p) && |p| == (if |minor| < length then length else |minor|) && NatOf(p) == NatOf(minor)
  {
    if |minor| < length {
      ZerosAre(length - |minor|);
      NatOfJoined(Zeros(length - |minor|), minor);
      ShiftedZero(|minor|);
    }
  }

  lemma CutIsExact(digits: string, scale: nat)
    requires AllDigits(digits) && scale < |digits|
    ensures var whole, fraction := digits[..|digits| - scale], digits[|digits| - scale..];
            && AllDigits(whole) && AllDigits(fraction) && whole + fraction == digits
            && Shifted(NatOf(whole), scale) + NatOf(fraction) == NatOf(digits)
  {
    var whole, fraction := digits[..|digits| - scale], digits[|digits| - scale..];
    NatOfJoined(whole, fraction);
    assert whole + fraction == digits;
  }

  /** Exact for every digit string and scale: as many fractional digits as the scale says, at
      least one before them, and nothing rounded. The digits are the shop's, after zeros. */
  lemma DecimalIsExact(minor: string, scale: nat)
    requires minor != "" && AllDigits(minor)
    ensures DecimalOfMinorUnits(minor, Whole(scale)).Some?
    ensures var d := DecimalOfMinorUnits(minor, Whole(scale)).value;
            var whole, fraction := IntegerPart(d), FractionPart(d);
            && |fraction| == scale && |whole| >= 1 && AllDigits(whole) && AllDigits(fraction)
            && NatOf(whole) * Pow10(scale) + NatOf(fraction) == NatOf(minor)
            && whole + fraction == PadStart(minor, scale + 1)
            && (scale == 0 <==> d == whole)
  {
    var digits := PadStart(minor, scale + 1);
    PadIsExact(minor, scale + 1);
    var whole, fraction := digits[..|digits| - scale], digits[|digits| - scale..];
    CutIsExact(digits, scale);
    ReadBack(whole, fraction);
    ShiftedIsTimes(NatOf(whole), scale);
    if scale == 0 {
      assert digits == minor && whole == minor && fraction == "";
    } else {
      assert |whole + "." + fraction| > |whole|;
    }
  }

  /** And nothing but a digit string with a natural scale is a price. */
  lemma NoPriceOtherwise(minor: string, scale: Scale)
    ensures DecimalOfMinorUnits(minor, scale).Some? <==>
              minor != "" && AllDigits(minor) && scale.Whole? && scale.n >= 0
  {
  }

  /** Two prices of one scale read the same only where they are the same number. */
  lemma DecimalTellsPricesApart(a: string, b: string, scale: nat)
    requires a != "" && AllDigits(a) && b != "" && AllDigits(b)
    requires DecimalOfMinorUnits(a, Whole(scale)) == DecimalOfMinorUnits(b, Whole(scale))
    ensures NatOf(a) == NatOf(b)
  {
    DecimalIsExact(a, scale);
    DecimalIsExact(b, scale);
  }
}
