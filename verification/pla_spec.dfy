/** Definitions shared by the two perceptron trainers: a training sample,
    the linear activation over a bias and four feature weights, the sign
    classifier, the error count, and one training pass.  Doubles are
    modelled as mathematical reals. */
module PlaSpec {

  /** Number of features per sample. */
  const Dimension: nat := 4

  /** Decision threshold of the sign function, 10^-15. */
  const Epsilon: real := 0.000000000000001

  type Features = x: seq<real> | |x| == Dimension witness [0.0, 0.0, 0.0, 0.0]

  /** w[0] is the bias; w[k] weighs feature x[k-1]. */
  type Weights = w: seq<real> | |w| == Dimension + 1 witness [0.0, 0.0, 0.0, 0.0, 0.0]

  /** A labelled sample.  The label is any int: nothing checks it is 1 or -1. */
  datatype TrainElem = TrainElem(x: Features, y: int)

  /** Ties and small positive values classify as -1. */
  function Sign(v: real): (r: int)
    ensures r == 1 || r == -1
    ensures r == 1 <==> v > Epsilon
  {
    if v > Epsilon then 1 else -1
  }

  /** w[0] + w[1]*x[0] + ... + w[n]*x[n-1], accumulated left to right. */
  function PartialWX(w: Weights, x: Features, n: nat): (r: real)
    requires n <= Dimension
  {
    if n == 0 then w[0] else PartialWX(w, x, n - 1) + w[n] * x[n - 1]
  }

  /** The activation of the linear model on features x. */
  function WX(w: Weights, x: Features): (r: real)
  {
    PartialWX(w, x, Dimension)
  }

  /** The activation written out: the bias plus each feature weight times its
      feature, added in index order. */
  lemma WXExpanded(w: Weights, x: Features)
    ensures WX(w, x) == w[0] + w[1] * x[0] + w[2] * x[1] + w[3] * x[2] + w[4] * x[3]
  {
    assert PartialWX(w, x, 1) == w[0] + w[1] * x[0];
    assert PartialWX(w, x, 2) == w[0] + w[1] * x[0] + w[2] * x[1];
    assert PartialWX(w, x, 3) == w[0] + w[1] * x[0] + w[2] * x[1] + w[3] * x[2];
  }

  /** The label the model predicts for a sample. */
  function Classify(w: Weights, e: TrainElem): (r: int)
    ensures r == 1 || r == -1
  {
    Sign(WX(w, e.x))
  }

  /** The prediction agrees with the label; a label other than 1 or -1 never does. */
  predicate Correct(w: Weights, e: TrainElem)
    ensures Correct(w, e) ==> e.y == 1 || e.y == -1
  {
    Classify(w, e) == e.y
  }

  /** Number of samples the model misclassifies. */
  function Errors(w: Weights, data: seq<TrainElem>): (n: nat)
    ensures n <= |data|
    ensures data == [] ==> n == 0
  {
    if data == [] then 0
    else Errors(w, data[..|data| - 1]) + (if Correct(w, data[|data| - 1]) then 0 else 1)
  }

  /** Indices of the misclassified samples: the reference reading of the error count. */
  ghost function Misclassified(w: Weights, data: seq<TrainElem>): set<int> {
    set k | 0 <= k < |data| && !Correct(w, data[k])
  }

  /** The step size of an update on sample e: the learning rate times the label. */
  function Rate(e: TrainElem, eta: real): (r: real) {
    eta * e.y as real
  }

  /** The change a misclassified sample makes to weight k. */
  function Delta(e: TrainElem, eta: real, k: nat): (r: real)
    requires k <= Dimension
  {
    if k == 0 then Rate(e, eta) else Rate(e, eta) * e.x[k - 1]
  }

  /** The weights after the perceptron update on sample e with learning rate eta. */
  function Updated(w: Weights, e: TrainElem, eta: real): (r: Weights)
  {
    seq(Dimension + 1, k requires 0 <= k <= Dimension => w[k] + Delta(e, eta, k))
  }

  /** The update adds the step to the bias and the step times feature k-1 to
      feature weight k, leaving no weight out. */
  lemma UpdatedAt(w: Weights, e: TrainElem, eta: real)
    ensures Updated(w, e, eta)[0] == w[0] + Rate(e, eta)
    ensures forall k :: 1 <= k <= Dimension ==>
              Updated(w, e, eta)[k] == w[k] + Rate(e, eta) * e.x[k - 1]
  {
  }

  /** Weights that differ from w by the update on every component are Updated(w, e, eta). */
  lemma UpdatedIs(w: Weights, e: TrainElem, eta: real, v: seq<real>)
    requires |v| == Dimension + 1
    requires v[0] == w[0] + Rate(e, eta)
    requires forall k :: 1 <= k <= Dimension ==> v[k] == w[k] + Rate(e, eta) * e.x[k - 1]
    ensures v == Updated(w, e, eta)
  {
    UpdatedAt(w, e, eta);
  }

  /** One sample of a pass: a correctly classified sample leaves w alone. */
  function Step(w: Weights, e: TrainElem, eta: real): (r: Weights) {
    if Correct(w, e) then w else Updated(w, e, eta)
  }

  /** The weights after one pass over data in order, updating at once on each
      misclassified sample. */
  function Pass(w: Weights, data: seq<TrainElem>, eta: real): (r: Weights)
    decreases |data|
  {
    if data == [] then w
    else Step(Pass(w, data[..|data| - 1], eta), data[|data| - 1], eta)
  }

  /** A pass over samples that the starting weights all classify correctly
      never updates, so it ends on the weights it started from. */
  lemma {:induction false} PassKeepsCorrect(w: Weights, data: seq<TrainElem>, eta: real)
    requires forall k :: 0 <= k < |data| ==> Correct(w, data[k])
    ensures Pass(w, data, eta) == w
  {
    if data != [] {
      var prefix := data[..|data| - 1];
      assert forall k :: 0 <= k < |prefix| ==> prefix[k] == data[k];
      PassKeepsCorrect(w, prefix, eta);
    }
  }

  /** The number of updates made during that pass. */
  function Fixes(w: Weights, data: seq<TrainElem>, eta: real): (n: nat)
    ensures n <= |data|
    decreases |data|
  {
    if data == [] then 0
    else
      var prefix := data[..|data| - 1];
      Fixes(w, prefix, eta) + (if Correct(Pass(w, prefix, eta), data[|data| - 1]) then 0 else 1)
  }

  /** The weights a trainer starts from when only the bias and the first three
      feature weights are zeroed; the last one is whatever the memory held. */
  function InitialWeights(lastWeight: real): (r: Weights) {
    [0.0, 0.0, 0.0, 0.0, lastWeight]
  }

  /** All weights zero. */
  const Zeros: Weights := [0.0, 0.0, 0.0, 0.0, 0.0]

  /** The error count is the number of misclassified samples. */
  lemma {:induction false} ErrorsCountsMisclassified(w: Weights, data: seq<TrainElem>)
    ensures Errors(w, data) == |Misclassified(w, data)|
  {
    if data != [] {
      var n := |data| - 1;
      var prefix := data[..n];
      ErrorsCountsMisclassified(w, prefix);
      assert n !in Misclassified(w, prefix);
      if Correct(w, data[n]) {
        assert Misclassified(w, data) == Misclassified(w, prefix);
      } else {
        assert Misclassified(w, data) == Misclassified(w, prefix) + {n};
      }
    }
  }

  /** The error count is zero exactly when every sample is classified correctly. */
  lemma {:induction false} ErrorsZeroIff(w: Weights, data: seq<TrainElem>)
    ensures Errors(w, data) == 0 <==> forall k :: 0 <= k < |data| ==> Correct(w, data[k])
  {
    if data != [] {
      var n := |data| - 1;
      var prefix := data[..n];
      ErrorsZeroIff(w, prefix);
      assert forall k :: 0 <= k < n ==> prefix[k] == data[k];
    }
  }

  /** A pass makes no update exactly when the weights it starts from already
      classify every sample correctly, and such a pass leaves them unchanged. */
  lemma {:induction false} FixesZeroIff(w: Weights, data: seq<TrainElem>, eta: real)
    ensures Fixes(w, data, eta) == 0 <==> Errors(w, data) == 0
    ensures Fixes(w, data, eta) == 0 ==> Pass(w, data, eta) == w
  {
    if data != [] {
      FixesZeroIff(w, data[..|data| - 1], eta);
    }
  }

  function PartialSquares(x: Features, n: nat): (r: real)
    requires n <= Dimension
  {
    if n == 0 then 0.0 else PartialSquares(x, n - 1) + x[n - 1] * x[n - 1]
  }

  /** x[0]^2 + ... + x[3]^2. */
  function SquaredNorm(x: Features): (r: real) {
    PartialSquares(x, Dimension)
  }

  /** Weights u that differ from w by c on the bias and by c * x[k-1] on the
      first n feature weights have a partial activation larger by
      c * (1 + x[0]^2 + ... + x[n-1]^2). */
  lemma {:induction false} ShiftPartial(w: Weights, u: Weights, x: Features, c: real, n: nat)
    requires n <= Dimension
    requires u[0] == w[0] + c
    requires forall k :: 1 <= k <= n ==> u[k] == w[k] + c * x[k - 1]
    ensures PartialWX(u, x, n) == PartialWX(w, x, n) + c * (1.0 + PartialSquares(x, n))
  {
    if n == 0 {
      assert c * (1.0 + 0.0) == c;
    } else {
      ShiftPartial(w, u, x, c, n - 1);
      ShiftArithmetic(PartialWX(u, x, n), PartialWX(w, x, n), PartialSquares(x, n),
                      PartialWX(u, x, n - 1), PartialWX(w, x, n - 1), PartialSquares(x, n - 1),
                      c, w[n], u[n], x[n - 1]);
    }
  }

  /** The arithmetic of one induction step, over plain reals. */
  lemma ShiftArithmetic(pun: real, pwn: real, sn: real,
                        pu: real, a: real, b: real, c: real, wn: real, un: real, xi: real)
    requires pun == pu + un * xi && pwn == a + wn * xi && sn == b + xi * xi
    requires pu == a + c * (1.0 + b)
    requires un == wn + c * xi
    ensures pun == pwn + c * (1.0 + sn)
  {
    assert un * xi == wn * xi + c * (xi * xi);
    assert c * (1.0 + b) + c * (xi * xi) == c * (1.0 + (b + xi * xi));
  }

  /** A sum of squares is never negative. */
  lemma {:induction false} PartialSquaresNonnegative(x: Features, n: nat)
    requires n <= Dimension
    ensures PartialSquares(x, n) >= 0.0
  {
    if n > 0 {
      PartialSquaresNonnegative(x, n - 1);
      assert x[n - 1] * x[n - 1] >= 0.0;
    }
  }

  /** A positive step times a factor of at least one stays positive, and
      likewise for a negative step. */
  lemma ScaledStepSign(c: real, s: real)
    requires s >= 0.0
    ensures c > 0.0 ==> c * (1.0 + s) > 0.0
    ensures c < 0.0 ==> c * (1.0 + s) < 0.0
  {
    assert c * (1.0 + s) == c + c * s;
  }

  /** The perceptron update moves the sample's own activation by
      eta * y * (1 + |x|^2): up for a positive step eta * y, down for a
      negative one, so towards label 1 or -1 when eta > 0. */
  lemma UpdateShiftsActivation(w: Weights, e: TrainElem, eta: real)
    ensures WX(Updated(w, e, eta), e.x) == WX(w, e.x) + Rate(e, eta) * (1.0 + SquaredNorm(e.x))
    ensures SquaredNorm(e.x) >= 0.0
    ensures Rate(e, eta) > 0.0 ==> WX(Updated(w, e, eta), e.x) > WX(w, e.x)
    ensures Rate(e, eta) < 0.0 ==> WX(Updated(w, e, eta), e.x) < WX(w, e.x)
  {
    var u := Updated(w, e, eta);
    UpdatedAt(w, e, eta);
    ShiftPartial(w, u, e.x, Rate(e, eta), Dimension);
    PartialSquaresNonnegative(e.x, Dimension);
    ScaledStepSign(Rate(e, eta), SquaredNorm(e.x));
  }

  lemma {:induction false} ZerosPartial(x: Features, n: nat)
    requires n <= Dimension
    ensures PartialWX(Zeros, x, n) == 0.0
  {
    if n > 0 {
      ZerosPartial(x, n - 1);
    }
  }

  /** All-zero weights predict -1 for every sample, so they misclassify exactly
      the samples whose label is not -1. */
  lemma ZerosRejectAll(data: seq<TrainElem>)
    ensures forall e :: Classify(Zeros, e) == -1
    ensures Misclassified(Zeros, data) == set k | 0 <= k < |data| && data[k].y != -1
  {
    forall e: TrainElem ensures Classify(Zeros, e) == -1 {
      ZerosPartial(e.x, Dimension);
    }
  }

  /** A sample that only the uninitialised last weight can see. */
  const Probe: TrainElem := TrainElem([0.0, 0.0, 0.0, 1.0], 1)

  /** The first classification of a freshly constructed trainer depends on the
      weight its constructor leaves unset. */
  lemma UninitialisedWeightMatters()
    ensures Correct(InitialWeights(1.0), Probe)
    ensures !Correct(InitialWeights(0.0), Probe)
  {
    assert PartialWX(InitialWeights(1.0), Probe.x, 3) == 0.0;
    assert PartialWX(InitialWeights(0.0), Probe.x, 3) == 0.0;
  }
}
