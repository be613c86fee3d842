/** The fixed-weight network of the sound classifier: 4 features, a hidden
    layer of 6 ReLU units, 3 outputs, and a softmax stabilised by subtracting
    the largest logit. Weights are the script's literals, read as exact reals;
    the exponential is a parameter of the model. */
module SoundNetwork {

  import opened Reals

  /** Hidden-layer weights, one row of 4 per hidden unit. */
  const W1: seq<seq<real>> := [
    [0.15, -0.05, 0.04, 0.2],
    [-0.2, 0.3, 0.1, -0.1],
    [0.1, 0.2, -0.15, 0.25],
    [0.3, -0.2, 0.15, 0.1],
    [-0.1, 0.25, 0.3, -0.05],
    [0.2, 0.1, -0.2, 0.15]
  ]

  const B1: seq<real> := [0.05, -0.1, 0.02, 0.05, -0.05, 0.1]

  /** Output weights, one row of 6 per class: CLAP, KNOCK, NOISE. */
  const W2: seq<seq<real>> := [
    [0.3, -0.2, 0.35, 0.1, -0.25, 0.2],
    [-0.1, 0.4, -0.2, 0.25, 0.2, -0.3],
    [0.2, -0.1, 0.1, -0.15, 0.25, 0.3]
  ]

  const B2: seq<real> := [0.1, -0.05, 0.05]

  const INPUTS := 4
  const HIDDEN := 6
  const OUTPUTS := 3

  /** The weight tables have the shape 4 -> 6 -> 3. */
  lemma Shapes()
    ensures |W1| == |B1| == HIDDEN && forall i :: 0 <= i < HIDDEN ==> |W1[i]| == INPUTS
    ensures |W2| == |B2| == OUTPUTS && forall i :: 0 <= i < OUTPUTS ==> |W2[i]| == HIDDEN
  {
  }

  /** `relu(x)`: the larger of `x` and 0. */
  function Relu(x: real): (r: real)
    ensures r >= 0.0 && r >= x
    ensures r == x || r == 0.0
  {
    if x > 0.0 then x else 0.0
  }

  /** `s = bias; for j in range(k): s += w[j] * x[j]`. */
  function Affine(bias: real, w: seq<real>, x: seq<real>, k: nat): real
    requires k <= |w| && k <= |x|
  {
    if k == 0 then bias else Affine(bias, w, x, k - 1) + w[k - 1] * x[k - 1]
  }

  /** The products `w[j] * x[j]` for `j < k`. */
  function Products(w: seq<real>, x: seq<real>, k: nat): (p: seq<real>)
    requires k <= |w| && k <= |x|
    ensures |p| == k
  {
    seq(k, j requires 0 <= j < k => w[j] * x[j])
  }

  /** The accumulation loop computes `bias + Σ_{j < k} w[j] * x[j]`. */
  lemma {:induction false} AffineIsDotProduct(bias: real, w: seq<real>, x: seq<real>, k: nat)
    requires k <= |w| && k <= |x|
    ensures Affine(bias, w, x, k) == bias + Sum(Products(w, x, k))
  {
    if k > 0 {
      AffineIsDotProduct(bias, w, x, k - 1);
      assert Products(w, x, k)[..k - 1] == Products(w, x, k - 1);
    }
  }

  /** The hidden layer: `relu(B1[i] + Σ_j W1[i][j] * f[j])` for each of the 6 units. */
  function Hidden(f: seq<real>): (h: seq<real>)
    requires |f| >= INPUTS
    ensures |h| == HIDDEN
    ensures forall i :: 0 <= i < HIDDEN ==> h[i] >= 0.0
  {
    Shapes();
    seq(HIDDEN, i requires 0 <= i < HIDDEN => Relu(Affine(B1[i], W1[i], f, INPUTS)))
  }

  /** The output layer: `B2[k] + Σ_i W2[k][i] * h[i]` for each of the 3 classes. */
  function Output(h: seq<real>): (out: seq<real>)
    requires |h| >= HIDDEN
    ensures |out| == OUTPUTS
  {
    Shapes();
    seq(OUTPUTS, k requires 0 <= k < OUTPUTS => Affine(B2[k], W2[k], h, HIDDEN))
  }

  /** The logits of the network for features `f`, before the softmax. */
  function Logits(f: seq<real>): (out: seq<real>)
    requires |f| >= INPUTS
    ensures |out| == OUTPUTS
  {
    Output(Hidden(f))
  }

  /** The first loop of `predict`: builds `hidden` unit by unit. */
  method HiddenLayer(features: seq<real>) returns (hidden: seq<real>)
    requires |features| >= INPUTS
    ensures |hidden| == HIDDEN
    ensures forall i :: 0 <= i < HIDDEN ==>
      hidden[i] == Relu(B1[i] + Sum(Products(W1[i], features, INPUTS)))
    ensures forall i :: 0 <= i < HIDDEN ==> hidden[i] >= 0.0
    ensures hidden == Hidden(features)
  {
    Shapes();
    hidden := [];
    for i := 0 to HIDDEN
      invariant hidden == Hidden(features)[..i]
    {
      var s := B1[i];
      for j := 0 to INPUTS
        invariant s == Affine(B1[i], W1[i], features, j)
      {
        s := s + W1[i][j] * features[j];
      }
      hidden := hidden + [Relu(s)];
    }
    forall i | 0 <= i < HIDDEN
      ensures hidden[i] == Relu(B1[i] + Sum(Products(W1[i], features, INPUTS)))
    {
      AffineIsDotProduct(B1[i], W1[i], features, INPUTS);
    }
  }

  /** The second loop of `predict`: builds `out` class by class. */
  method OutputLayer(hidden: seq<real>) returns (out: seq<real>)
    requires |hidden| >= HIDDEN
    ensures |out| == OUTPUTS
    ensures forall k :: 0 <= k < OUTPUTS ==>
      out[k] == B2[k] + Sum(Products(W2[k], hidden, HIDDEN))
    ensures out == Output(hidden)
  {
    Shapes();
    out := [];
    for k := 0 to OUTPUTS
      invariant out == Output(hidden)[..k]
    {
      var s := B2[k];
      for j := 0 to HIDDEN
        invariant s == Affine(B2[k], W2[k], hidden, j)
      {
        s := s + W2[k][j] * hidden[j];
      }
      out := out + [s];
    }
    forall k | 0 <= k < OUTPUTS
      ensures out[k] == B2[k] + Sum(Products(W2[k], hidden, HIDDEN))
    {
      AffineIsDotProduct(B2[k], W2[k], hidden, HIDDEN);
    }
  }

  /** `[i - max_x for i in x]`: every entry is at most 0 and the largest is 0. */
  function Shifted(x: seq<real>): (r: seq<real>)
    requires x != []
    ensures |r| == |x|
    ensures forall i :: 0 <= i < |r| ==> r[i] <= 0.0
    ensures exists i :: 0 <= i < |r| && r[i] == 0.0
  {
    var m := Max(x);
    var r := seq(|x|, i requires 0 <= i < |x| => x[i] - m);
    var k :| 0 <= k < |x| && x[k] == m;
    assert r[k] == 0.0;
    r
  }

  /** `[i / s for i in exps]` with `s = sum(exps)`: for positive entries, a
      probability vector with positive entries. */
  function Normalize(e: seq<real>): (p: seq<real>)
    requires e != []
    requires forall i :: 0 <= i < |e| ==> e[i] > 0.0
    ensures |p| == |e|
    ensures Sum(e) > 0.0 && forall i :: 0 <= i < |p| ==> p[i] == e[i] / Sum(e)
    ensures forall i :: 0 <= i < |p| ==> p[i] > 0.0
    ensures Sum(p) == 1.0
  {
    var s := Sum(e);
    SumNonNegative(e);
    assert s > 0.0;
    var p := seq(|e|, i requires 0 <= i < |e| => e[i] / s);
    SumScaled(e, p, s);
    DivSelf(s);
    p
  }

  /** The exponential never returns a non-positive value. */
  ghost predicate Positive(exp: real -> real)
  {
    forall t :: exp(t) > 0.0
  }

  /** The exponential is strictly increasing. */
  ghost predicate Increasing(exp: real -> real)
  {
    forall t, u :: t < u ==> exp(t) < exp(u)
  }

  /** `softmax(x)`, with `exp` for `math.exp`. */
  function Softmax(x: seq<real>, exp: real -> real): (p: seq<real>)
    requires x != [] && Positive(exp)
    ensures |p| == |x|
    ensures forall i :: 0 <= i < |p| ==> p[i] > 0.0
    ensures Sum(p) == 1.0
  {
    Normalize(Exps(x, exp))
  }

  /** `[math.exp(i - max_x) for i in x]`. */
  function Exps(x: seq<real>, exp: real -> real): (e: seq<real>)
    requires x != [] && Positive(exp)
    ensures |e| == |x|
    ensures forall i :: 0 <= i < |e| ==> e[i] > 0.0
  {
    var sx := Shifted(x);
    seq(|x|, i requires 0 <= i < |x| => exp(sx[i]))
  }

  /** Adding the same constant to every logit does not change the softmax. */
  lemma SoftmaxShiftInvariant(x: seq<real>, c: real, exp: real -> real)
    requires x != [] && Positive(exp)
    ensures Softmax(seq(|x|, i requires 0 <= i < |x| => x[i] + c), exp) == Softmax(x, exp)
  {
    var y := seq(|x|, i requires 0 <= i < |x| => x[i] + c);
    MaxShifted(x, y, c);
    assert Shifted(y) == Shifted(x);
  }

  /** For a strictly increasing exponential, two softmax entries compare as
      their logits do. */
  lemma SoftmaxKeepsOrder(x: seq<real>, exp: real -> real, i: nat, j: nat)
    requires x != [] && Positive(exp) && Increasing(exp)
    requires i < |x| && j < |x|
    ensures x[i] < x[j] <==> Softmax(x, exp)[i] < Softmax(x, exp)[j]
  {
    var sx := Shifted(x);
    var e := Exps(x, exp);
    assert e[i] == exp(sx[i]) && e[j] == exp(sx[j]);
    assert x[i] < x[j] <==> sx[i] < sx[j];
    assert x[i] < x[j] <==> e[i] < e[j];
    var p := Normalize(e);
    assert Sum(e) > 0.0 && p[i] == e[i] / Sum(e) && p[j] == e[j] / Sum(e);
    DivKeepsOrder(e[i], e[j], Sum(e));
  }

  /** Hence the softmax and the logits have the same first maximum. */
  lemma SoftmaxKeepsArgMax(x: seq<real>, exp: real -> real)
    requires x != [] && Positive(exp) && Increasing(exp)
    ensures ArgMax(Softmax(x, exp)) == ArgMax(x)
  {
    var p := Softmax(x, exp);
    forall i, j | 0 <= i < |x| && 0 <= j < |x|
      ensures x[i] < x[j] <==> p[i] < p[j]
    {
      SoftmaxKeepsOrder(x, exp, i, j);
    }
    ArgMaxOfSameOrder(x, p);
  }

  /** `predict(features)`: the two layers, then the softmax. */
  method Predict(features: seq<real>, exp: real -> real) returns (probs: seq<real>)
    requires |features| >= INPUTS && Positive(exp)
    ensures probs == Softmax(Logits(features), exp)
    ensures |probs| == OUTPUTS && Sum(probs) == 1.0
  {
    var hidden := HiddenLayer(features);
    var out := OutputLayer(hidden);
    probs := Softmax(out, exp);
  }

  /** The logits for the all-zero feature vector, from the weight tables. */
  lemma ZeroFeatureLogits()
    ensures Logits([0.0, 0.0, 0.0, 0.0]) == [0.147, -0.0765, 0.0845]
  {
    var f := [0.0, 0.0, 0.0, 0.0];
    assert Hidden(f) == [0.05, 0.0, 0.02, 0.05, 0.0, 0.1];
  }

  /** `predict((0, 0, 0, 0))` ranks the first class (CLAP) highest. */
  lemma ZeroFeaturesFavourFirstClass(exp: real -> real)
    requires Positive(exp) && Increasing(exp)
    ensures ArgMax(Softmax(Logits([0.0, 0.0, 0.0, 0.0]), exp)) == 0
  {
    ZeroFeatureLogits();
    SoftmaxKeepsArgMax(Logits([0.0, 0.0, 0.0, 0.0]), exp);
  }
}
