/** The error accumulator of a replicated filesystem call.
  *
  * Every per-branch native call yields a return value and the errno it left
  * behind. The caller threads an accumulator through `error::calc(rv, prev,
  * errno)`, seeded with -1, and reports the negated accumulator. The body of
  * `error::calc` is not part of this model: it is a parameter `errorCalc`, and
  * its intended contract is the predicate `CalcContract`, assumed explicitly
  * by every lemma that needs it.
  */
module ErrorCalc {

  /** What one native call reported: its return value and the errno it set. */
  datatype BranchOutcome = BranchOutcome(rv: int, errno: int)

  /** The native call failed exactly when it returned -1. */
  predicate Succeeded(o: BranchOutcome) {
    o.rv != -1
  }

  /** `error::calc(rv, prev, cur)`. */
  type CalcFn = (int, int, int) -> int

  /** The accumulator's seed: "no branch tried yet". */
  const NoResult: int := -1

  /** Intended contract of `error::calc`: a success yields 0; a failure keeps
    * an accumulator that is already 0; otherwise a failure takes the current
    * errno.
    */
  ghost predicate CalcContract(errorCalc: CalcFn) {
    (forall rv, prev, cur :: rv != -1 ==> errorCalc(rv, prev, cur) == 0) &&
    (forall prev, cur :: errorCalc(-1, prev, cur) == if prev == 0 then 0 else cur)
  }

  /** One definition meeting the contract, so that the assumption can be met. */
  function IntendedCalc(rv: int, prev: int, cur: int): int {
    if rv == -1 then (if prev == 0 then 0 else cur) else 0
  }

  lemma IntendedCalcMeetsContract()
    ensures CalcContract(IntendedCalc)
  {
  }

  /** One step of the accumulator: `errorCalc(rv, acc, errno)` for outcome `o`. */
  function Accumulate(errorCalc: CalcFn, acc: int, o: BranchOutcome): int {
    errorCalc(o.rv, acc, o.errno)
  }

  /** Left fold of `errorCalc` over the outcomes, in order, starting from `seed`.
    * Defined by its last step, which is how a loop over a prefix extends it.
    */
  function Fold(errorCalc: CalcFn, seed: int, outs: seq<BranchOutcome>): int
    decreases |outs|
  {
    if outs == [] then seed
    else Accumulate(errorCalc, Fold(errorCalc, seed, outs[..|outs| - 1]), outs[|outs| - 1])
  }

  predicate AnySucceeded(outs: seq<BranchOutcome>) {
    exists i :: 0 <= i < |outs| && Succeeded(outs[i])
  }

  /** Every failed native call set a nonzero errno, as POSIX promises. */
  predicate FailuresCarryErrno(outs: seq<BranchOutcome>) {
    forall i :: 0 <= i < |outs| && !Succeeded(outs[i]) ==> outs[i].errno != 0
  }

  /** Independent reference for the aggregate: success if any branch
    * succeeded, otherwise the failure of the last branch.
    */
  datatype FinalResult = Success | Failure(errno: int)

  function Aggregate(outs: seq<BranchOutcome>): FinalResult
    requires outs != []
  {
    if AnySucceeded(outs) then Success else Failure(outs[|outs| - 1].errno)
  }

  /** The native-style code a FUSE call returns for a final result. */
  function ReturnCode(f: FinalResult): int {
    match f
    case Success => 0
    case Failure(e) => -e
  }

  /** Success dominates: once some branch succeeded the fold is 0, whatever
    * fails after it.
    */
  lemma {:induction false} FoldAfterSuccess(errorCalc: CalcFn, seed: int, outs: seq<BranchOutcome>)
    requires CalcContract(errorCalc)
    requires AnySucceeded(outs)
    ensures Fold(errorCalc, seed, outs) == 0
    decreases |outs|
  {
    var n := |outs|;
    var init, last := outs[..n - 1], outs[n - 1];
    if !Succeeded(last) {
      var i :| 0 <= i < n && Succeeded(outs[i]);
      assert init[i] == outs[i];
      FoldAfterSuccess(errorCalc, seed, init);
      assert errorCalc(-1, 0, last.errno) == 0;
    }
  }

  /** Last failure wins: from a nonzero seed, a run of failures ends with
    * the errno of the last one. Every failure but the last must have set a
    * nonzero errno; the last one's errno is taken whatever it is.
    */
  lemma {:induction false} FoldAllFailed(errorCalc: CalcFn, seed: int, outs: seq<BranchOutcome>)
    requires CalcContract(errorCalc)
    requires seed != 0 && outs != []
    requires !AnySucceeded(outs) && FailuresCarryErrno(outs[..|outs| - 1])
    ensures Fold(errorCalc, seed, outs) == outs[|outs| - 1].errno
    decreases |outs|
  {
    var n := |outs|;
    var init, last := outs[..n - 1], outs[n - 1];
    assert !Succeeded(last);
    if n == 1 {
      assert init == [];
      assert errorCalc(-1, seed, last.errno) == last.errno;
    } else {
      assert !AnySucceeded(init) by {
        forall i | 0 <= i < |init| ensures !Succeeded(init[i]) {
          assert init[i] == outs[i];
        }
      }
      var earlier := init[..n - 2];
      assert FailuresCarryErrno(earlier) by {
        forall i | 0 <= i < |earlier| && !Succeeded(earlier[i]) ensures earlier[i].errno != 0 {
          assert earlier[i] == init[i];
        }
      }
      FoldAllFailed(errorCalc, seed, init);
      assert init[n - 2].errno != 0;
      assert errorCalc(-1, init[n - 2].errno, last.errno) == last.errno;
    }
  }

  /** The fold seeded with the sentinel agrees with the reference aggregate:
    * the negated accumulator is 0 when any branch succeeded and the negated
    * errno of the last branch when all failed.
    */
  lemma {:induction false} FoldMatchesAggregate(errorCalc: CalcFn, outs: seq<BranchOutcome>)
    requires CalcContract(errorCalc)
    requires outs != [] && FailuresCarryErrno(outs[..|outs| - 1])
    ensures -Fold(errorCalc, NoResult, outs) == ReturnCode(Aggregate(outs))
  {
    if AnySucceeded(outs) {
      FoldAfterSuccess(errorCalc, NoResult, outs);
    } else {
      FoldAllFailed(errorCalc, NoResult, outs);
    }
  }

  /** Both directions: the accumulator ends at 0 exactly when some branch
    * succeeded (an empty run keeps the sentinel).
    */
  lemma {:induction false} FoldZeroIffSucceeded(errorCalc: CalcFn, outs: seq<BranchOutcome>)
    requires CalcContract(errorCalc)
    requires FailuresCarryErrno(outs)
    ensures Fold(errorCalc, NoResult, outs) == 0 <==> AnySucceeded(outs)
  {
    if AnySucceeded(outs) {
      FoldAfterSuccess(errorCalc, NoResult, outs);
    } else if outs != [] {
      FoldAllFailed(errorCalc, NoResult, outs);
    }
  }

  /** Why `FailuresCarryErrno` is needed: a failure that left errno at 0
    * zeroes the accumulator, and every later failure keeps it 0, so the
    * call would report success although no branch succeeded.
    */
  lemma ZeroErrnoMasksFailure(errorCalc: CalcFn)
    requires CalcContract(errorCalc)
    ensures var outs := [BranchOutcome(-1, 0), BranchOutcome(-1, 13)];
            !AnySucceeded(outs) && Fold(errorCalc, NoResult, outs) == 0
  {
    var outs := [BranchOutcome(-1, 0), BranchOutcome(-1, 13)];
    assert outs[..1] == [BranchOutcome(-1, 0)];
    assert outs[..1][..0] == [];
    assert errorCalc(-1, NoResult, 0) == 0;
    assert errorCalc(-1, 0, 13) == 0;
  }
}
