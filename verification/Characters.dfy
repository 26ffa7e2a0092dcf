/** White space as JavaScript has it, and the runs and trims of any text. */
module Characters {

  /** White space and line terminators, for `\s` and for `trim`. */
  predicate IsSpaceCode(n: int) {
    || 9 <= n <= 13 || n == 32 || n == 0xA0 || n == 0x1680 || 0x2000 <= n <= 0x200A || n == 0x2028 || n == 0x2029
    || n == 0x202F || n == 0x205F || n == 0x3000 || n == 0xFEFF
  }

  function RunOf<T>(t: seq<T>, fits: T -> bool): (n: nat)
    ensures n <= |t| && (forall i :: 0 <= i < n ==> fits(t[i])) && (n < |t| ==> !fits(t[n]))
  {
    if t == [] || !fits(t[0]) then 0 else 1 + RunOf(t[1..], fits)
  }

  /** A run ends where it first fails. */
  lemma {:induction false} RunIs<T>(t: seq<T>, fits: T -> bool, n: nat)
    requires n <= |t| && (forall i :: 0 <= i < n ==> fits(t[i])) && (n < |t| ==> !fits(t[n]))
    ensures RunOf(t, fits) == n
  {
    if n > 0 { RunIs(t[1..], fits, n - 1); }
  }

  function TrimLeft<T>(t: seq<T>, space: T -> bool): seq<T> { t[RunOf(t, space)..] }

  function TrimRight<T>(t: seq<T>, space: T -> bool): seq<T> {
    if t != [] && space(t[|t| - 1]) then TrimRight(t[..|t| - 1], space) else t
  }

  function Trim<T>(t: seq<T>, space: T -> bool): seq<T> { TrimRight(TrimLeft(t, space), space) }
}
