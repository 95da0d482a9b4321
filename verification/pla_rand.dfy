/** The basic perceptron trainer: full passes over the samples, updating at
    once on each misclassified one, until a pass finds nothing to update.
    It returns the total number of per-sample updates. */
module PlaRand {
  import opened PlaSpec

  /** Final weights, updates counted, and whether a pass without updates was
      reached within the pass budget. */
  datatype Run = Run(w: Weights, updates: nat, converged: bool)

  /** The training loop from weights w with at most `fuel` more passes and
      `done` updates already counted.  The loop itself has no cap; the budget
      only bounds how far the model follows it. */
  function BasicRun(w: Weights, data: seq<TrainElem>, fuel: nat, done: nat): (r: Run)
    ensures r.updates >= done
    ensures !r.converged ==> r.updates >= done + fuel
    decreases fuel
  {
    if fuel == 0 then Run(w, done, false)
    else
      var n := Fixes(w, data, 1.0);
      if n == 0 then Run(Pass(w, data, 1.0), done, true)
      else BasicRun(Pass(w, data, 1.0), data, fuel - 1, done + n)
  }

  /** One step of the training loop, as BasicRun takes it. */
  lemma BasicRunNext(w: Weights, data: seq<TrainElem>, fuel: nat, done: nat, next: Weights, nError: nat)
    requires fuel >= 1
    requires next == Pass(w, data, 1.0) && nError == Fixes(w, data, 1.0)
    ensures nError == 0 ==> BasicRun(w, data, fuel, done) == Run(next, done, true)
    ensures nError != 0 ==> BasicRun(w, data, fuel, done) == BasicRun(next, data, fuel - 1, done + nError)
  {
  }

  /** A run that converges ends on weights that classify every sample
      correctly, and its last pass left the weights unchanged. */
  lemma {:induction false} BasicRunConverged(w: Weights, data: seq<TrainElem>, fuel: nat, done: nat)
    ensures BasicRun(w, data, fuel, done).converged ==>
              Errors(BasicRun(w, data, fuel, done).w, data) == 0
    ensures BasicRun(w, data, fuel, done).converged ==>
              Pass(BasicRun(w, data, fuel, done).w, data, 1.0) == BasicRun(w, data, fuel, done).w
    decreases fuel
  {
    FixesZeroIff(BasicRun(w, data, fuel, done).w, data, 1.0);
    if fuel > 0 {
      FixesZeroIff(w, data, 1.0);
      if Fixes(w, data, 1.0) != 0 {
        BasicRunConverged(Pass(w, data, 1.0), data, fuel - 1, done + Fixes(w, data, 1.0));
      }
    }
  }

  /** A converged run makes no update exactly when the starting weights
      already classify every sample correctly; those weights converge at once
      and unchanged, whatever the pass budget (at least one). */
  lemma BasicRunZeroIff(w: Weights, data: seq<TrainElem>, fuel: nat, done: nat)
    ensures Errors(w, data) == 0 && fuel >= 1 ==> BasicRun(w, data, fuel, done) == Run(w, done, true)
    ensures BasicRun(w, data, fuel, done).converged ==>
              (BasicRun(w, data, fuel, done).updates == done <==> Errors(w, data) == 0)
  {
    FixesZeroIff(w, data, 1.0);
  }

  /** Once a run converges, a larger pass budget gives the same run: the
      budget never changes what the model says about a converging trainer. */
  lemma {:induction false} BasicRunFuelIndependent(w: Weights, data: seq<TrainElem>, fuel: nat, extra: nat, done: nat)
    requires BasicRun(w, data, fuel, done).converged
    ensures BasicRun(w, data, fuel + extra, done) == BasicRun(w, data, fuel, done)
    decreases fuel
  {
    if Fixes(w, data, 1.0) != 0 {
      BasicRunFuelIndependent(Pass(w, data, 1.0), data, fuel - 1, extra, done + Fixes(w, data, 1.0));
    }
  }

  /** A sample labelled neither 1 nor -1 is misclassified by every weight
      vector, so no pass is ever free of updates and training never ends. */
  lemma {:induction false} BadLabelNeverConverges(w: Weights, data: seq<TrainElem>, fuel: nat, done: nat, k: int)
    requires 0 <= k < |data| && data[k].y != 1 && data[k].y != -1
    ensures !BasicRun(w, data, fuel, done).converged
    decreases fuel
  {
    if fuel > 0 {
      ErrorsZeroIff(w, data);
      FixesZeroIff(w, data, 1.0);
      BadLabelNeverConverges(Pass(w, data, 1.0), data, fuel - 1, done + Fixes(w, data, 1.0), k);
    }
  }

  /** Two samples separable by the first feature: from zero weights (and any
      unset last weight) training makes one update in its first pass, and
      its second pass makes none. */
  lemma SeparableExample(l: real)
    ensures BasicRun(InitialWeights(l), [TrainElem([1.0, 0.0, 0.0, 0.0], 1), TrainElem([-1.0, 0.0, 0.0, 0.0], -1)], 2, 0)
            == Run([1.0, 1.0, 0.0, 0.0, l], 1, true)
  {
    var a := TrainElem([1.0, 0.0, 0.0, 0.0], 1);
    var b := TrainElem([-1.0, 0.0, 0.0, 0.0], -1);
    var data := [a, b];
    var w0 := InitialWeights(l);
    var w1: Weights := [1.0, 1.0, 0.0, 0.0, l];
    assert data[..1] == [a] && [a][..0] == [] && data[..0] == [];
    // First pass: a is misclassified (activation 0), b is then correct.
    WXExpanded(w0, a.x);
    assert !Correct(w0, a);
    UpdatedAt(w0, a, 1.0);
    assert Updated(w0, a, 1.0) == w1;
    assert Pass(w0, [a], 1.0) == w1;
    WXExpanded(w1, b.x);
    assert Correct(w1, b);
    assert Pass(w0, data, 1.0) == w1;
    assert Fixes(w0, [a], 1.0) == 1;
    assert Fixes(w0, data, 1.0) == 1;
    // Second pass: both samples are correct, so nothing changes.
    WXExpanded(w1, a.x);
    assert Correct(w1, a);
    assert Pass(w1, [a], 1.0) == w1;
    assert Fixes(w1, [a], 1.0) == 0;
    assert Fixes(w1, data, 1.0) == 0;
    assert Pass(w1, data, 1.0) == w1;
  }

  class Pla {
    /** w[0] is the bias, w[1..4] the feature weights. */
    var w: array<real>

    ghost predicate Valid()
      reads this
    {
      w.Length == Dimension + 1
    }

    /** As written, the constructor zeroes w[0..3] only; w[4] keeps whatever
        the memory held, which the model takes as the parameter lastWeight. */
    constructor (lastWeight: real)
      ensures Valid() && fresh(w)
      ensures w[..] == InitialWeights(lastWeight)
    {
      w := new real[Dimension + 1];
      new;
      for i := 0 to Dimension
        modifies w
        invariant forall k :: 0 <= k < i ==> w[k] == 0.0
      {
        w[i] := 0.0;
      }
      w[Dimension] := lastWeight;
    }

    /** The evidently intended constructor: every weight, bias included, zeroed. */
    constructor Zeroed()
      ensures Valid() && fresh(w)
      ensures w[..] == Zeros
    {
      w := new real[Dimension + 1];
      new;
      for i := 0 to Dimension + 1
        modifies w
        invariant forall k :: 0 <= k < i ==> w[k] == 0.0
      {
        w[i] := 0.0;
      }
    }

    /** The predicted label of a sample: the sign of the bias plus the
        weighted features, accumulated left to right. */
    method GetWX(e: TrainElem) returns (r: int)
      requires Valid()
      ensures r == Classify(w[..], e)
      ensures r == 1 <==> WX(w[..], e.x) > Epsilon
    {
      var val := w[0];
      for i := 0 to Dimension
        invariant val == PartialWX(w[..], e.x, i)
      {
        val := val + w[i + 1] * e.x[i];
      }
      r := Sign(val);
    }

    method IsCorrect(e: TrainElem) returns (b: bool)
      requires Valid()
      ensures b == Correct(w[..], e)
      ensures b ==> e.y == 1 || e.y == -1
    {
      var r := GetWX(e);
      b := r == e.y;
    }

    /** The unscaled update on one sample: y is added to the bias and
        y*x[j] to feature weight j+1, which is the update with rate 1. */
    method Adjust(e: TrainElem)
      requires Valid()
      modifies w
      ensures w[..] == Updated(old(w[..]), e, 1.0)
    {
      ghost var before: Weights := w[..];
      w[0] := w[0] + e.y as real;
      for j := 0 to Dimension
        invariant w[0] == before[0] + Rate(e, 1.0)
        invariant forall k :: 1 <= k <= j ==> w[k] == before[k] + Rate(e, 1.0) * e.x[k - 1]
        invariant forall k :: j < k <= Dimension ==> w[k] == before[k]
      {
        w[j + 1] := w[j + 1] + e.y as real * e.x[j];
      }
      UpdatedIs(before, e, 1.0, w[..]);
    }

    /** Basic training, followed for at most `fuel` passes: when a pass makes
        no update within that budget, converged is true and nUpdate is the
        number of per-sample updates the source returns. */
    method Train(data: seq<TrainElem>, fuel: nat) returns (nUpdate: int, converged: bool)
      requires Valid()
      modifies w
      ensures Valid()
      ensures nUpdate >= 0
      ensures BasicRun(old(w[..]), data, fuel, 0) == Run(w[..], nUpdate, converged)
      ensures converged ==> forall k :: 0 <= k < |data| ==> Correct(w[..], data[k])
      ensures converged ==> (nUpdate == 0 <==> Errors(old(w[..]), data) == 0)
    {
      ghost var w0: Weights := w[..];
      ghost var goal := BasicRun(w0, data, fuel, 0);
      ghost var cur: Weights := w0;
      nUpdate := 0;
      var nError := 0;
      var passes := 0;
      while passes < fuel && (passes == 0 || nError != 0)
        invariant cur == w[..]
        invariant 0 <= passes <= fuel && 0 <= nUpdate
        invariant passes == 0 || nError != 0 ==> goal == BasicRun(cur, data, fuel - passes, nUpdate)
        invariant passes > 0 && nError == 0 ==> goal == Run(cur, nUpdate, true)
        decreases fuel - passes
      {
        nError := 0;
        ghost var n0 := nUpdate;
        for i := 0 to |data|
          invariant w[..] == Pass(cur, data[..i], 1.0)
          invariant nError == Fixes(cur, data[..i], 1.0)
          invariant nUpdate == n0 + nError
        {
          assert data[..i + 1][..i] == data[..i];
          var ok := IsCorrect(data[i]);
          if !ok {
            nError := nError + 1;
            nUpdate := nUpdate + 1;
            Adjust(data[i]);
          }
        }
        assert data[..|data|] == data;
        BasicRunNext(cur, data, fuel - passes, n0, w[..], nError);
        cur := w[..];
        passes := passes + 1;
      }
      converged := passes > 0 && nError == 0;
      assert goal == Run(w[..], nUpdate, converged);
      BasicRunConverged(w0, data, fuel, 0);
      ErrorsZeroIff(w[..], data);
      BasicRunZeroIff(w0, data, fuel, 0);
    }
  }
}
