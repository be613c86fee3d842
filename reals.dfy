/** Sums, maxima and the first-maximum index of sequences of exact reals,
    as the sound classifier uses them (`sum`, `max`, `list.index`). */
module Reals {

  /** `sum(s)`, accumulated from left to right. */
  function Sum(s: seq<real>): real
    decreases |s|
  {
    if s == [] then 0.0 else Sum(s[..|s| - 1]) + s[|s| - 1]
  }

  /** Subtracting `c` from every entry lowers the sum by `|a| * c`. */
  lemma {:induction false} SumShifted(a: seq<real>, b: seq<real>, c: real)
    requires |a| == |b|
    requires forall i :: 0 <= i < |a| ==> b[i] == a[i] - c
    ensures Sum(b) == Sum(a) - |a| as real * c
    decreases |a|
  {
    if a != [] {
      var n := |a| - 1;
      SumShifted(a[..n], b[..n], c);
    }
  }

  /** Dividing every entry by `c` divides the sum by `c`. */
  lemma {:induction false} SumScaled(a: seq<real>, b: seq<real>, c: real)
    requires c != 0.0
    requires |a| == |b|
    requires forall i :: 0 <= i < |a| ==> b[i] == a[i] / c
    ensures Sum(b) == Sum(a) / c
    decreases |a|
  {
    if a != [] {
      var n := |a| - 1;
      SumScaled(a[..n], b[..n], c);
      assert Sum(b) == Sum(a[..n]) / c + a[n] / c;
    }
  }

  /** A sum of non-negative entries is non-negative; it is positive when the
      sequence is non-empty and every entry is positive. */
  lemma {:induction false} SumNonNegative(s: seq<real>)
    requires forall i :: 0 <= i < |s| ==> s[i] >= 0.0
    ensures Sum(s) >= 0.0
    ensures s != [] && (forall i :: 0 <= i < |s| ==> s[i] > 0.0) ==> Sum(s) > 0.0
    decreases |s|
  {
    if s != [] {
      SumNonNegative(s[..|s| - 1]);
    }
  }

  /** No non-negative entry exceeds the sum. */
  lemma {:induction false} EntryAtMostSum(s: seq<real>, k: nat)
    requires k < |s|
    requires forall i :: 0 <= i < |s| ==> s[i] >= 0.0
    ensures s[k] <= Sum(s)
    decreases |s|
  {
    var n := |s| - 1;
    SumNonNegative(s[..n]);
    if k < n {
      EntryAtMostSum(s[..n], k);
    }
  }

  /** A sum of `n` copies of `c` is `n * c`. */
  lemma {:induction false} SumConstant(s: seq<real>, c: real)
    requires forall i :: 0 <= i < |s| ==> s[i] == c
    ensures Sum(s) == |s| as real * c
    decreases |s|
  {
    if s != [] {
      SumConstant(s[..|s| - 1], c);
    }
  }

  /** Dividing by a positive number keeps the order. */
  lemma DivKeepsOrder(a: real, b: real, c: real)
    requires c > 0.0
    ensures a < b <==> a / c < b / c
  {
    assert b / c - a / c == (b - a) / c;
  }

  /** A non-zero number divided by itself is one. */
  lemma DivSelf(x: real)
    requires x != 0.0
    ensures x / x == 1.0
  {
  }

  /** `max(s)`: the largest entry. */
  function Max(s: seq<real>): (m: real)
    requires s != []
    ensures m in s
    ensures forall i :: 0 <= i < |s| ==> s[i] <= m
    decreases |s|
  {
    if |s| == 1 then s[0]
    else
      var m := Max(s[..|s| - 1]);
      if s[|s| - 1] > m then s[|s| - 1] else m
  }

  /** Adding `c` to every entry adds `c` to the maximum. */
  lemma MaxShifted(a: seq<real>, b: seq<real>, c: real)
    requires a != [] && |a| == |b|
    requires forall i :: 0 <= i < |a| ==> b[i] == a[i] + c
    ensures Max(b) == Max(a) + c
  {
    var i :| 0 <= i < |a| && a[i] == Max(a);
    var j :| 0 <= j < |b| && b[j] == Max(b);
    assert b[i] <= Max(b) && a[j] <= Max(a);
  }

  /** `s.index(v)`: the first position holding `v`. */
  function IndexOf(s: seq<real>, v: real): (k: nat)
    requires v in s
    ensures k < |s| && s[k] == v
    ensures forall i :: 0 <= i < k ==> s[i] != v
    decreases |s|
  {
    if s[0] == v then 0 else 1 + IndexOf(s[1..], v)
  }

  /** `s.index(max(s))`: the position of the first maximum. */
  function ArgMax(s: seq<real>): (k: nat)
    requires s != []
    ensures k < |s|
    ensures forall i :: 0 <= i < |s| ==> s[i] <= s[k]
    ensures forall i :: 0 <= i < k ==> s[i] < s[k]
  {
    IndexOf(s, Max(s))
  }

  /** Two sequences whose entries compare the same way have the same first
      maximum. */
  lemma ArgMaxOfSameOrder(a: seq<real>, b: seq<real>)
    requires a != [] && |a| == |b|
    requires forall i, j :: 0 <= i < |a| && 0 <= j < |a| ==> (a[i] < a[j] <==> b[i] < b[j])
    ensures ArgMax(a) == ArgMax(b)
  {
  }
}
