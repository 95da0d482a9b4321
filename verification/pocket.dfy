/** The pocket perceptron trainer: each pass applies eta-scaled updates to a
    copy of the weights and keeps the result only when it misclassifies
    strictly fewer training samples than the weights the pass started from. */
module Pocket {
  import opened PlaSpec

  /** Final weights and the number of passes run. */
  datatype Outcome = Outcome(w: Weights, passes: nat)

  /** The pass cap: the loop body always runs once, so a limit below 1 acts as 1. */
  function PassBudget(updateLimit: int): (b: nat)
    ensures b >= 1 && b >= updateLimit
    ensures updateLimit < 1 ==> b == 1
    ensures updateLimit >= 1 ==> b == updateLimit
  {
    if updateLimit < 1 then 1 else updateLimit
  }

  /** One pass with checkpoint and rollback. */
  function PocketPass(w: Weights, data: seq<TrainElem>, eta: real): (r: Weights)
    ensures r == w || (r == Pass(w, data, eta) && Errors(r, data) < Errors(w, data))
    ensures Errors(r, data) <= Errors(w, data)
    ensures Errors(Pass(w, data, eta), data) < Errors(w, data) ==> r == Pass(w, data, eta)
  {
    var trial := Pass(w, data, eta);
    if Errors(trial, data) < Errors(w, data) then trial else w
  }

  /** The remaining run of the training loop from weights w with `left` passes
      still allowed and `done` passes already counted: a pass runs, and the
      loop goes on while that pass made an update and the cap is not reached. */
  function PocketRun(w: Weights, data: seq<TrainElem>, eta: real, left: nat, done: nat): (r: Outcome)
    requires left >= 1
    ensures done + 1 <= r.passes <= done + left
    ensures Errors(r.w, data) <= Errors(w, data)
    decreases left
  {
    var next := PocketPass(w, data, eta);
    if Fixes(w, data, eta) == 0 || left == 1 then Outcome(next, done + 1)
    else PocketRun(next, data, eta, left - 1, done + 1)
  }

  /** One step of the training loop, as PocketRun takes it. */
  lemma PocketRunNext(w: Weights, data: seq<TrainElem>, eta: real, left: nat, done: nat,
                      next: Weights, nError: int)
    requires left >= 1
    requires next == PocketPass(w, data, eta) && nError == Fixes(w, data, eta)
    ensures nError == 0 || left == 1 ==> PocketRun(w, data, eta, left, done) == Outcome(next, done + 1)
    ensures nError != 0 && left != 1 ==>
              PocketRun(w, data, eta, left, done) == PocketRun(next, data, eta, left - 1, done + 1)
  {
  }

  /** Weights that already classify every sample correctly end the run after
      one pass that changes nothing; this includes an empty sample list. */
  lemma PocketRunOnPerfect(w: Weights, data: seq<TrainElem>, eta: real, left: nat, done: nat)
    requires left >= 1
    requires Errors(w, data) == 0
    ensures PocketRun(w, data, eta, left, done) == Outcome(w, done + 1)
  {
    FixesZeroIff(w, data, eta);
  }

  /** A run that stops before its cap stops on weights with no training error. */
  lemma {:induction false} PocketRunStopsEarly(w: Weights, data: seq<TrainElem>, eta: real, left: nat, done: nat)
    requires left >= 1
    ensures PocketRun(w, data, eta, left, done).passes < done + left ==>
              Errors(PocketRun(w, data, eta, left, done).w, data) == 0
    decreases left
  {
    FixesZeroIff(w, data, eta);
    if Fixes(w, data, eta) != 0 && left != 1 {
      PocketRunStopsEarly(PocketPass(w, data, eta), data, eta, left - 1, done + 1);
    }
  }

  /** A pass that makes updates and is then rolled back restores the weights
      exactly; with the sample order fixed every later pass repeats it, so
      training runs to the cap and ends on the weights it started from. */
  lemma {:induction false} StuckAfterRollback(w: Weights, data: seq<TrainElem>, eta: real, left: nat, done: nat)
    requires left >= 1
    requires Fixes(w, data, eta) != 0 && PocketPass(w, data, eta) == w
    ensures PocketRun(w, data, eta, left, done) == Outcome(w, done + left)
    decreases left
  {
    if left > 1 {
      StuckAfterRollback(w, data, eta, left - 1, done + 1);
    }
  }

  class Pla {
    /** w[0] is the bias, w[1..4] the feature weights. */
    var w: array<real>
    /** The learning rate. */
    const eta: real

    ghost predicate Valid()
      reads this
    {
      w.Length == Dimension + 1
    }

    /** As written, the constructor zeroes w[0..3] only; w[4] keeps whatever
        the memory held, which the model takes as the parameter lastWeight. */
    constructor (eta: real, lastWeight: real)
      ensures Valid() && fresh(w) && this.eta == eta
      ensures w[..] == InitialWeights(lastWeight)
    {
      this.eta := eta;
      w := new real[Dimension + 1];
      new;
      for i := 0 to Dimension
        modifies w
        invariant forall k :: 0 <= k < i ==> w[k] == 0.0
      {
        w[i] := 0.0;
      }
      w[Dimension] := lastWeight;
    }

    /** The evidently intended constructor: every weight, bias included, zeroed. */
    constructor Zeroed(eta: real)
      ensures Valid() && fresh(w) && this.eta == eta
      ensures w[..] == Zeros
    {
      this.eta := eta;
      w := new real[Dimension + 1];
      new;
      for i := 0 to Dimension + 1
        modifies w
        invariant forall k :: 0 <= k < i ==> w[k] == 0.0
      {
        w[i] := 0.0;
      }
    }

    /** The predicted label of a sample: the sign of the bias plus the
        weighted features, accumulated left to right. */
    method GetWX(e: TrainElem) returns (r: int)
      requires Valid()
      ensures r == Classify(w[..], e)
      ensures r == 1 <==> WX(w[..], e.x) > Epsilon
    {
      var val := w[0];
      for i := 0 to Dimension
        invariant val == PartialWX(w[..], e.x, i)
      {
        val := val + w[i + 1] * e.x[i];
      }
      r := Sign(val);
    }

    method IsCorrect(e: TrainElem) returns (b: bool)
      requires Valid()
      ensures b == Correct(w[..], e)
      ensures b ==> e.y == 1 || e.y == -1
    {
      var r := GetWX(e);
      b := r == e.y;
    }

    /** The number of samples the current weights misclassify. */
    method CountError(data: seq<TrainElem>) returns (ans: int)
      requires Valid()
      ensures ans == Errors(w[..], data)
      ensures 0 <= ans <= |data|
    {
      ans := 0;
      for i := 0 to |data|
        invariant ans == Errors(w[..], data[..i])
      {
        assert data[..i + 1][..i] == data[..i];
        var ok := IsCorrect(data[i]);
        if !ok {
          ans := ans + 1;
        }
      }
      assert data[..|data|] == data;
    }

    /** The perceptron update on one sample: eta*y is added to the bias and
        eta*y*x[j] to feature weight j+1; eta*y is computed first, as the
        left-to-right products of the source do. */
    method Adjust(e: TrainElem)
      requires Valid()
      modifies w
      ensures w[..] == Updated(old(w[..]), e, eta)
    {
      ghost var before: Weights := w[..];
      var rate := eta * e.y as real;
      w[0] := w[0] + rate;
      for j := 0 to Dimension
        invariant w[0] == before[0] + rate
        invariant forall k :: 1 <= k <= j ==> w[k] == before[k] + rate * e.x[k - 1]
        invariant forall k :: j < k <= Dimension ==> w[k] == before[k]
      {
        w[j + 1] := w[j + 1] + rate * e.x[j];
      }
      UpdatedIs(before, e, eta, w[..]);
    }

    /** One pass over the samples in order, updating at once on each
        misclassified one; returns the number of updates. */
    method UpdatePass(data: seq<TrainElem>) returns (nError: int)
      requires Valid()
      modifies w
      ensures w[..] == Pass(old(w[..]), data, eta)
      ensures nError == Fixes(old(w[..]), data, eta)
    {
      ghost var start: Weights := w[..];
      nError := 0;
      for i := 0 to |data|
        invariant w[..] == Pass(start, data[..i], eta)
        invariant nError == Fixes(start, data[..i], eta)
      {
        assert data[..i + 1][..i] == data[..i];
        var ok := IsCorrect(data[i]);
        if !ok {
          Adjust(data[i]);
          nError := nError + 1;
        }
      }
      assert data[..|data|] == data;
    }

    /** One pass of pocket training: checkpoint the weights, count their
        errors, update through the samples, count again, and roll back to the
        checkpoint unless the error count strictly fell.  Returns the number
        of updates the pass made. */
    method CheckpointPass(data: seq<TrainElem>) returns (nError: int)
      requires Valid()
      modifies w
      ensures w[..] == PocketPass(old(w[..]), data, eta)
      ensures nError == Fixes(old(w[..]), data, eta)
    {
      ghost var start: Weights := w[..];
      var backupW := new real[Dimension + 1];
      for j := 0 to Dimension + 1
        modifies backupW
        invariant forall k :: 0 <= k < j ==> backupW[k] == w[k]
      {
        backupW[j] := w[j];
      }
      assert backupW[..] == start && w[..] == start;
      var prevErr := CountError(data);
      nError := UpdatePass(data);
      assert backupW[..] == start;
      ghost var trial: Weights := w[..];
      assert trial == Pass(start, data, eta) && nError == Fixes(start, data, eta);
      var curErr := CountError(data);
      if curErr >= prevErr {
        for j := 0 to Dimension + 1
          modifies w
          invariant forall k :: 0 <= k < j ==> w[k] == backupW[k]
        {
          w[j] := backupW[j];
        }
        assert w[..] == backupW[..];
      }
    }

    /** Pocket training: returns the number of passes (not of updates). */
    method Train(data: seq<TrainElem>, updateLimit: int) returns (nUpdate: int)
      requires Valid()
      modifies w
      ensures Valid()
      ensures 1 <= nUpdate <= PassBudget(updateLimit)
      ensures PocketRun(old(w[..]), data, eta, PassBudget(updateLimit), 0) == Outcome(w[..], nUpdate)
      ensures Errors(w[..], data) <= Errors(old(w[..]), data)
      ensures nUpdate < PassBudget(updateLimit) ==> Errors(w[..], data) == 0
    {
      ghost var w0: Weights := w[..];
      ghost var budget := PassBudget(updateLimit);
      ghost var goal := PocketRun(w0, data, eta, budget, 0);
      ghost var cur, left: nat := w0, budget;
      nUpdate := 0;
      var nError := 0;
      while nUpdate == 0 || (nError != 0 && nUpdate < updateLimit)
        invariant cur == w[..]
        invariant 0 <= nUpdate <= budget && left == budget - nUpdate
        invariant nUpdate == 0 || (nError != 0 && nUpdate < updateLimit) ==>
                    left >= 1 && goal == PocketRun(cur, data, eta, left, nUpdate)
        invariant !(nUpdate == 0 || (nError != 0 && nUpdate < updateLimit)) ==>
                    goal == Outcome(cur, nUpdate)
        decreases left
      {
        nError := CheckpointPass(data);
        ghost var next: Weights := w[..];
        PocketRunNext(cur, data, eta, left, nUpdate, next, nError);
        cur, left := next, left - 1;
        nUpdate := nUpdate + 1;
      }
      assert goal == Outcome(w[..], nUpdate);
      PocketRunStopsEarly(w0, data, eta, budget, 0);
    }
  }
}
