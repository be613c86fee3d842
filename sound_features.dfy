/** Feature extraction of the sound classifier: a window of raw ADC samples
    is reduced to `[mean, var, rms, zcr]`. Arithmetic is exact over `real`;
    the square root is a parameter of the model. */
module SoundFeatures {

  import opened Wrappers
  import opened Reals

  /** The samples as exact reals. */
  function ToReals(samples: seq<int>): (r: seq<real>)
    ensures |r| == |samples|
    ensures forall i :: 0 <= i < |samples| ==> r[i] == samples[i] as real
  {
    seq(|samples|, i requires 0 <= i < |samples| => samples[i] as real)
  }

  /** `sum(samples) / n`. */
  function Mean(samples: seq<int>): (m: real)
    requires samples != []
    ensures m * |samples| as real == Sum(ToReals(samples))
  {
    Sum(ToReals(samples)) / |samples| as real
  }

  /** `norm = [x - mean for x in samples]`. */
  function Centered(samples: seq<int>): (norm: seq<real>)
    requires samples != []
    ensures |norm| == |samples|
  {
    seq(|samples|, i requires 0 <= i < |samples| => samples[i] as real - Mean(samples))
  }

  function Squares(s: seq<real>): (r: seq<real>)
    ensures |r| == |s|
  {
    seq(|s|, i requires 0 <= i < |s| => s[i] * s[i])
  }

  /** `sum(x * x for x in norm) / n`: the population variance. */
  function Variance(samples: seq<int>): real
    requires samples != []
  {
    Sum(Squares(Centered(samples))) / |samples| as real
  }

  /** The signal crosses zero between positions `i - 1` and `i`. */
  predicate CrossesAt(s: seq<real>, i: int)
  {
    1 <= i < |s| && s[i - 1] * s[i] < 0.0
  }

  /** The number of positions `i` in `[1, |s|)` where `s[i-1] * s[i] < 0`,
      counted from left to right as the script's loop does. */
  function Crossings(s: seq<real>): nat
    decreases |s|
  {
    if |s| < 2 then 0
    else Crossings(s[..|s| - 1]) + (if CrossesAt(s, |s| - 1) then 1 else 0)
  }

  /** The crossing count divided by the window length. */
  function ZeroCrossingRate(samples: seq<int>): real
    requires samples != []
  {
    Crossings(Centered(samples)) as real / |samples| as real
  }

  /** The feature vector `[mean, var, rms, zcr]` of a non-empty window, with
      `sqrt` for `math.sqrt`; `rms` is derived from `var`. */
  function Features(samples: seq<int>, sqrt: real -> real): (f: seq<real>)
    requires samples != []
    ensures |f| == 4 && f[2] == sqrt(f[1])
  {
    [Mean(samples), Variance(samples), sqrt(Variance(samples)), ZeroCrossingRate(samples)]
  }

  /** `extract_features(samples)`. An empty window makes `sum(samples) / n`
      divide by zero; the result is then `None`. */
  method ExtractFeatures(samples: seq<int>, sqrt: real -> real) returns (features: Option<seq<real>>)
    ensures features.None? <==> samples == []
    ensures features.Some? ==> features.value == Features(samples, sqrt)
  {
    var n := |samples|;
    if n == 0 {
      return None;
    }
    var mean := Mean(samples);
    var norm := Centered(samples);
    var variance := Sum(Squares(norm)) / n as real;
    var rms := sqrt(variance);
    var zcr := 0;
    for i := 1 to n
      invariant zcr == Crossings(norm[..i])
    {
      assert norm[..i + 1][..i] == norm[..i];
      if norm[i - 1] * norm[i] < 0.0 {
        zcr := zcr + 1;
      }
    }
    assert norm[..n] == norm;
    features := Some([mean, variance, rms, zcr as real / n as real]);
  }

  /** The centered samples sum to zero. */
  lemma CenteredSumsToZero(samples: seq<int>)
    requires samples != []
    ensures Sum(Centered(samples)) == 0.0
  {
    SumShifted(ToReals(samples), Centered(samples), Mean(samples));
  }

  /** The variance is never negative. */
  lemma VarianceNonNegative(samples: seq<int>)
    requires samples != []
    ensures Variance(samples) >= 0.0
  {
    var sq := Squares(Centered(samples));
    forall i | 0 <= i < |sq| ensures sq[i] >= 0.0 {
      var x := Centered(samples)[i];
      assert sq[i] == x * x;
      if x < 0.0 {
        assert (-x) * (-x) > 0.0;
      }
    }
    SumNonNegative(sq);
  }

  /** At most every adjacent pair crosses: the count is at most `|s| - 1`. */
  lemma {:induction false} CrossingsAtMostPairs(s: seq<real>)
    requires s != []
    ensures Crossings(s) <= |s| - 1
    decreases |s|
  {
    if |s| >= 2 {
      CrossingsAtMostPairs(s[..|s| - 1]);
    }
  }

  /** The positions `i` where the signal crosses zero between `i - 1` and `i`. */
  function CrossingSet(s: seq<real>): set<int>
  {
    set i | 0 <= i < |s| && CrossesAt(s, i)
  }

  /** Extending a signal by one sample adds at most its last position. */
  lemma CrossingSetOfPrefix(s: seq<real>)
    requires |s| >= 2
    ensures CrossingSet(s) ==
      CrossingSet(s[..|s| - 1]) + (if CrossesAt(s, |s| - 1) then {|s| - 1} else {})
  {
    var p := s[..|s| - 1];
    forall i | 0 <= i < |p| ensures CrossesAt(p, i) <==> CrossesAt(s, i) {
      if 1 <= i {
        assert p[i - 1] == s[i - 1] && p[i] == s[i];
      }
    }
  }

  /** The crossing count is the number of indices `i` in `[1, |s|)` with
      `s[i-1] * s[i] < 0`. */
  lemma {:induction false} CrossingsIsCount(s: seq<real>)
    ensures Crossings(s) == |CrossingSet(s)|
    decreases |s|
  {
    if |s| < 2 {
      assert CrossingSet(s) == {};
    } else {
      var p := s[..|s| - 1];
      CrossingsIsCount(p);
      CrossingSetOfPrefix(s);
      assert |s| - 1 !in CrossingSet(p);
    }
  }

  /** When every adjacent pair has opposite signs, all `|s| - 1` pairs cross. */
  lemma {:induction false} CrossingsAllPairs(s: seq<real>)
    requires s != []
    requires forall i :: 1 <= i < |s| ==> CrossesAt(s, i)
    ensures Crossings(s) == |s| - 1
    decreases |s|
  {
    if |s| >= 2 {
      var p := s[..|s| - 1];
      assert forall i :: 1 <= i < |p| ==> (CrossesAt(p, i) <==> CrossesAt(s, i));
      CrossingsAllPairs(p);
    }
  }

  /** When no adjacent pair has opposite signs, nothing crosses. */
  lemma {:induction false} CrossingsNoPairs(s: seq<real>)
    requires forall i :: 0 <= i < |s| ==> !CrossesAt(s, i)
    ensures Crossings(s) == 0
    decreases |s|
  {
    if |s| >= 2 {
      var p := s[..|s| - 1];
      assert forall i :: 0 <= i < |p| ==> (CrossesAt(p, i) <==> CrossesAt(s, i));
      CrossingsNoPairs(p);
    }
  }

  /** The zero-crossing rate lies in `[0, (n - 1) / n]`. */
  lemma ZeroCrossingRateBounds(samples: seq<int>)
    requires samples != []
    ensures 0.0 <= ZeroCrossingRate(samples) <= (|samples| - 1) as real / |samples| as real
  {
    var n := |samples| as real;
    var c := Crossings(Centered(samples));
    CrossingsAtMostPairs(Centered(samples));
    assert c as real <= n - 1.0;
    assert (n - 1.0) / n - c as real / n == (n - 1.0 - c as real) / n;
  }

  /** A constant window has its value as mean, no variance and no crossings. */
  lemma ConstantWindow(samples: seq<int>, c: int)
    requires samples != []
    requires forall i :: 0 <= i < |samples| ==> samples[i] == c
    ensures Mean(samples) == c as real
    ensures Variance(samples) == 0.0
    ensures ZeroCrossingRate(samples) == 0.0
  {
    SumConstant(ToReals(samples), c as real);
    assert Mean(samples) == c as real;
    var norm := Centered(samples);
    assert forall i :: 0 <= i < |norm| ==> norm[i] == 0.0;
    SumConstant(Squares(norm), 0.0);
    CrossingsNoPairs(norm);
  }

  /** `a, -a, a, -a, ...`, `n` samples long. */
  function Alternating(n: nat, a: int): (w: seq<int>)
    ensures |w| == n
  {
    seq(n, i requires 0 <= i < n => if i % 2 == 0 then a else -a)
  }

  /** An even number of alternating values sums to zero. */
  lemma {:induction false} AlternatingSum(s: seq<real>, a: real)
    requires |s| % 2 == 0
    requires forall i :: 0 <= i < |s| ==> s[i] == if i % 2 == 0 then a else -a
    ensures Sum(s) == 0.0
    decreases |s|
  {
    if s != [] {
      var n := |s|;
      assert s[..n - 1][..n - 2] == s[..n - 2];
      AlternatingSum(s[..n - 2], a);
      assert s[n - 2] == a && s[n - 1] == -a;
    }
  }

  /** An alternating window of even length has mean 0, so centering leaves
      it unchanged. */
  lemma AlternatingCentered(n: nat, a: int)
    requires n > 0 && n % 2 == 0
    ensures Mean(Alternating(n, a)) == 0.0
    ensures Centered(Alternating(n, a)) == ToReals(Alternating(n, a))
  {
    AlternatingSum(ToReals(Alternating(n, a)), a as real);
  }

  /** Every sample of an alternating window has square `a * a`. */
  lemma AlternatingSquares(n: nat, a: int)
    requires n > 0 && n % 2 == 0
    ensures forall i :: 0 <= i < n ==> Squares(Centered(Alternating(n, a)))[i] == (a * a) as real
  {
    AlternatingCentered(n, a);
    var norm := Centered(Alternating(n, a));
    var x := a as real;
    assert x * x == (a * a) as real;
    forall i | 0 <= i < n ensures Squares(norm)[i] == x * x {
      assert norm[i] == x || norm[i] == -x;
      if norm[i] == -x {
        assert Squares(norm)[i] == (-x) * (-x);
      }
    }
  }

  /** For `a != 0` every adjacent pair of an alternating window has opposite signs. */
  lemma AlternatingCrosses(n: nat, a: int)
    requires n > 0 && n % 2 == 0 && a != 0
    ensures forall i :: 1 <= i < n ==> CrossesAt(Centered(Alternating(n, a)), i)
  {
    AlternatingCentered(n, a);
    var norm := Centered(Alternating(n, a));
    var x := a as real;
    assert x * x > 0.0;
    forall i | 1 <= i < n ensures CrossesAt(norm, i) {
      assert norm[i] == x || norm[i] == -x;
      assert norm[i - 1] == -norm[i];
      assert norm[i - 1] * norm[i] == -(x * x);
    }
  }

  /** For `a != 0`, every one of the `n - 1` adjacent pairs of an alternating
      window of even length `n` crosses zero. */
  lemma AlternatingRate(n: nat, a: int)
    requires n > 0 && n % 2 == 0 && a != 0
    ensures ZeroCrossingRate(Alternating(n, a)) == (n - 1) as real / n as real
  {
    AlternatingCrosses(n, a);
    CrossingsAllPairs(Centered(Alternating(n, a)));
  }

  /** An alternating window of even length `n`: mean 0, variance `a * a`, and
      for `a != 0` every one of the `n - 1` adjacent pairs crosses zero. */
  lemma AlternatingWindow(n: nat, a: int)
    requires n > 0 && n % 2 == 0
    ensures Mean(Alternating(n, a)) == 0.0
    ensures Variance(Alternating(n, a)) == (a * a) as real
    ensures a != 0 ==> ZeroCrossingRate(Alternating(n, a)) == (n - 1) as real / n as real
  {
    AlternatingCentered(n, a);
    AlternatingSquares(n, a);
    SumConstant(Squares(Centered(Alternating(n, a))), (a * a) as real);
    if a != 0 {
      AlternatingRate(n, a);
    }
  }

  /** `[100, -100]` repeated 64 times: 127 crossings among 128 samples. */
  lemma AlternatingWindow128()
    ensures Mean(Alternating(128, 100)) == 0.0
    ensures Variance(Alternating(128, 100)) == 10000.0
    ensures ZeroCrossingRate(Alternating(128, 100)) == 0.9921875
  {
    AlternatingWindow(128, 100);
  }
}
