/**
 * The initiator's progress steps and the checkpoint runner behind them: each
 * stage sets the progress tracker to its step and then runs a collaborator
 * that either succeeds or raises; the first failure ends the flow.
 */
module Pipeline {
  import opened Wrappers

  datatype Step =
    | LoanEligibilityResponse
    | VerifyingTransaction
    | SigningTransaction
    | GatheringSigs
    | FinalisingTransaction

  /** The label each step is created with. */
  function Label(s: Step): string
  {
    match s
    case VerifyingTransaction => "Verifying contract constraints."
    case LoanEligibilityResponse => "Response from credit rating agency about loan eligibility and approval"
    case SigningTransaction => "Signing transaction with our private key."
    case GatheringSigs => "Gathering the counterparty's signature."
    case FinalisingTransaction => "Obtaining notary signature and recording transaction."
  }

  /** The order in which the steps are handed to the progress tracker. */
  const DeclaredOrder: seq<Step> :=
    [VerifyingTransaction, SigningTransaction, LoanEligibilityResponse, GatheringSigs, FinalisingTransaction]

  /** The order in which the initiator sets them. */
  const StageOrder: seq<Step> :=
    [LoanEligibilityResponse, VerifyingTransaction, SigningTransaction, GatheringSigs, FinalisingTransaction]

  /**
   * A step's place in the tracker's list, counting the tracker's own initial
   * UNSTARTED step as place 0.
   */
  function Position(s: Step): (p: nat)
    ensures 1 <= p <= |DeclaredOrder| && DeclaredOrder[p - 1] == s
  {
    match s
    case VerifyingTransaction => 1
    case SigningTransaction => 2
    case LoanEligibilityResponse => 3
    case GatheringSigs => 4
    case FinalisingTransaction => 5
  }

  /**
   * Against the declared list, the initiator's moves go forward except the
   * second one, from the loan-eligibility response back to verification.
   */
  lemma OnlySecondMoveGoesBack()
    ensures 0 < Position(StageOrder[0])
    ensures forall i :: 0 <= i < |StageOrder| - 1 ==>
      (Position(StageOrder[i + 1]) < Position(StageOrder[i]) <==> i == 0)
  {
  }

  /** The first steps of the stage order, written out. */
  lemma StageOrderPrefixes()
    ensures StageOrder[..0] == []
    ensures StageOrder[..1] == [LoanEligibilityResponse]
    ensures StageOrder[..2] == [LoanEligibilityResponse, VerifyingTransaction]
    ensures StageOrder[..3] == [LoanEligibilityResponse, VerifyingTransaction, SigningTransaction]
    ensures StageOrder[..4] == [LoanEligibilityResponse, VerifyingTransaction, SigningTransaction, GatheringSigs]
    ensures StageOrder[..5] == StageOrder
  {
  }

  /** One stage: the step it announces and the failure its collaborator raised, if any. */
  datatype Checkpoint<F> = Checkpoint(step: Step, failure: Option<F>)

  /** The steps announced, and the failure that stopped the run (`None`: every stage passed). */
  datatype Run<F> = Run(trace: seq<Step>, failure: Option<F>)

  predicate AllPass<F>(cps: seq<Checkpoint<F>>)
  {
    forall i :: 0 <= i < |cps| ==> cps[i].failure.None?
  }

  /**
   * Runs the stages in order. The trace is the steps up to and including the
   * first failing stage; no step after it is announced.
   */
  function RunCheckpoints<F>(cps: seq<Checkpoint<F>>): (r: Run<F>)
    ensures |r.trace| <= |cps|
    ensures forall i :: 0 <= i < |r.trace| ==> r.trace[i] == cps[i].step
    ensures r.failure.None? <==> AllPass(cps)
    ensures r.failure.None? ==> |r.trace| == |cps|
    ensures r.failure.Some? ==> 0 < |r.trace| && cps[|r.trace| - 1].failure == r.failure
    ensures forall i :: 0 <= i < |r.trace| - 1 ==> cps[i].failure.None?
    decreases |cps|
  {
    if cps == [] then Run([], None)
    else if cps[0].failure.Some? then Run([cps[0].step], cps[0].failure)
    else
      var rest := RunCheckpoints(cps[1..]);
      assert forall i :: 0 < i < |cps| ==> cps[i] == cps[1..][i - 1];
      Run([cps[0].step] + rest.trace, rest.failure)
  }

  /** A run whose first failure is at stage `k` announces exactly the first `k + 1` steps. */
  lemma {:induction false} RunStopsAtFirstFailure<F>(cps: seq<Checkpoint<F>>, k: nat)
    requires k < |cps| && cps[k].failure.Some?
    requires forall j :: 0 <= j < k ==> cps[j].failure.None?
    ensures |RunCheckpoints(cps).trace| == k + 1
    ensures RunCheckpoints(cps).failure == cps[k].failure
  {
    var r := RunCheckpoints(cps);
    assert !AllPass(cps);
    assert |r.trace| - 1 == k;
  }
}
