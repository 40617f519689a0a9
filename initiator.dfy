/**
 * The proposing side of the notification flow: replace the bank/credit record
 * found in the vault by a new version naming this node as credit rating
 * agency, get it verified, signed by both parties and finalised.
 */
module Flow {
  import opened Wrappers
  import opened Ledger
  import opened Pipeline
  import Acceptor

  /** The initiator's constructor arguments. */
  datatype FlowArgs = FlowArgs(otherParty: Party, companyName: string, loanEligibleFlag1: bool, amount: int32)

  /**
   * The vault query's answer: it threw, or it returned a list (`None` is a
   * null list).
   */
  datatype VaultAnswer = QueryThrew | Listed(states: Option<seq<StateAndRef>>)

  /**
   * What the node's services answer. They are inputs here, not behaviour to
   * verify.
   */
  datatype Environment = Environment(
    /** The vault query's answer for bank/credit records. */
    vault: VaultAnswer,
    /** The network map's notary identities. */
    notaries: seq<Party>,
    /** This node's legal identities. */
    myIdentities: seq<Party>,
    /** Whether contract verification of the built transaction passes. */
    contractVerifies: bool,
    /** Whether signing with this node's key succeeds. */
    signingSucceeds: bool,
    /** Whether signature collection succeeds apart from the counterparty's own check. */
    collectSucceeds: bool,
    /** Whether notarisation and recording succeed. */
    finalitySucceeds: bool,
    /** Whether a `BankAndCreditState` is also a `FinanceAndBankState` in the (unseen) class hierarchy. */
    bankAndCreditIsFinanceAndBank: bool)
  {
    /** The initiator's input list after the query: still null when the query threw. */
    function InputStateList(): (l: Option<seq<StateAndRef>>)
      ensures vault.QueryThrew? ==> l.None?
      ensures vault.Listed? ==> l == vault.states
    {
      match vault
      case QueryThrew => None
      case Listed(states) => states
    }
  }

  /** How a run ends: the notarised transaction, or the exception that stopped it. */
  datatype FlowOutcome = Finalised(stx: SignedTransaction) | Aborted(failure: Failure)

  datatype Failure =
      /** No notary identity: the lookup of the first one fails. */
    | NoNotary
      /** No legal identity for this node. */
    | NoLegalIdentity
      /** The vault list is null when the first element is read. */
    | InputListNull
      /** The vault list is empty when the first element is read. */
    | InputListEmpty
      /** The first record is recorded under another notary than the transaction's: adding it as input raises. */
    | InputNotaryMismatch
      /** "State Cannot be found", raised by the lookup; only the intended flow reports it. */
    | StateNotFound
      /** The vault query's own exception; only the intended flow reports it. */
    | VaultQueryFailed
    | ContractRejected
    | SigningFailed
    | CollectFailed
    | CounterpartyRejected(reason: Acceptor.Rejection)
    | FinalityFailed

  const StateNotFoundMessage: string := "State Cannot be found"

  /** What the lookup's try block raises: the query's own exception, or "State Cannot be found". */
  datatype LookupError = QueryFailed | NotFound(message: string)

  /**
   * The vault lookup's own decision: the query's exception when it throws;
   * otherwise the first record, or "State Cannot be found" when the list is
   * null or empty.
   */
  function LookupInput(vault: VaultAnswer): (r: Result<StateAndRef, LookupError>)
    ensures r == Failure(QueryFailed) <==> vault.QueryThrew?
    ensures r == Failure(NotFound(StateNotFoundMessage)) <==>
      vault.Listed? && (vault.states.None? || |vault.states.value| == 0)
    ensures r.Failure? ==> r == Failure(QueryFailed) || r == Failure(NotFound(StateNotFoundMessage))
    ensures r.Success? ==> vault.Listed? && vault.states.Some? && |vault.states.value| > 0 && r.value == vault.states.value[0]
  {
    match vault
    case QueryThrew => Failure(QueryFailed)
    case Listed(states) =>
      if states.Some? && |states.value| > 0 then Success(states.value[0])
      else Failure(NotFound(StateNotFoundMessage))
  }

  /**
   * The structural rules of a notification transition from `input`: it
   * consumes exactly `input`, produces exactly one bank/credit record under
   * the template contract with the same linear id, and carries exactly one
   * credit-approval command whose signers are the record's two parties.
   */
  ghost predicate IsNotificationOf(tx: TransactionBuilder, input: StateAndRef)
  {
    && tx.inputs == [input.ref]
    && input.notary == tx.notary
    && |tx.outputs| == 1
    && tx.outputs[0].contract == TemplateContractId
    && tx.outputs[0].notary == tx.notary
    && tx.outputs[0].data.BankAndCredit?
    && tx.outputs[0].data.record.linearId.SameAs(input.state.linearId)
    && |tx.commands| == 1
    && tx.commands[0].value == ReceiveCreditApproval
    && tx.commands[0].signers ==
       [tx.outputs[0].data.record.creditRatingAgency.owningKey, tx.outputs[0].data.record.stateBank.owningKey]
  }

  /**
   * The transaction the initiator builds from `input`: the new record names
   * `me` as credit rating agency and the counterparty as state bank, clears
   * the status, takes the eligibility flag, company name and amount from the
   * arguments, and keeps the input's UUID with `externalId` as external id.
   */
  function Proposal(args: FlowArgs, externalId: Option<string>, notary: Party, me: Party,
                    input: StateAndRef, isFinanceAndBank: bool): (tx: TransactionBuilder)
    requires input.notary == notary
    ensures IsNotificationOf(tx, input)
    ensures tx.notary == notary
    ensures tx.outputs[0].data == BankAndCredit(
      BankAndCreditState(me, args.otherParty, false, args.loanEligibleFlag1, args.companyName, args.amount,
                         UniqueIdentifier(externalId, input.state.linearId.id)),
      isFinanceAndBank)
    ensures tx.commands[0].signers == [me.owningKey, args.otherParty.owningKey]
  {
    var linearId := input.state.linearId.Copy(externalId, input.state.linearId.id);
    var record := BankAndCreditState(me, args.otherParty, false, args.loanEligibleFlag1,
                                     args.companyName, args.amount, linearId);
    var command := Command(ReceiveCreditApproval, [record.creditRatingAgency.owningKey, record.stateBank.owningKey]);
    NewTransactionBuilder(notary)
      .AddInputState(input).value
      .AddOutputState(BankAndCredit(record, isFinanceAndBank), TemplateContractId)
      .AddCommand(command)
  }

  /** What the construction stage produces: this node's identity, the input, the transaction. */
  datatype Built = Built(me: Party, input: StateAndRef, tx: TransactionBuilder)

  /**
   * The construction stage, run after the progress tracker announces the
   * loan-eligibility response: look up this node's identity, dereference the
   * first vault record and build the proposal, whose input must be recorded
   * under the chosen notary.
   */
  function Construct(args: FlowArgs, externalId: Option<string>, notary: Party, env: Environment): (r: Result<Built, Failure>)
    ensures r.Success? <==>
      && |env.myIdentities| > 0 && env.InputStateList().Some? && |env.InputStateList().value| > 0
      && env.InputStateList().value[0].notary == notary
    ensures r.Success? ==>
      var me, input := env.myIdentities[0], env.InputStateList().value[0];
      r.value == Built(me, input, Proposal(args, externalId, notary, me, input, env.bankAndCreditIsFinanceAndBank))
    ensures r.Failure? ==> r.error in {NoLegalIdentity, InputListNull, InputListEmpty, InputNotaryMismatch}
    ensures r.Failure? ==> StagesAnnounced(r.error) == 1
  {
    if |env.myIdentities| == 0 then Failure(NoLegalIdentity)
    else if env.InputStateList().None? then Failure(InputListNull)
    else if |env.InputStateList().value| == 0 then Failure(InputListEmpty)
    else
      var me := env.myIdentities[0];
      var input := env.InputStateList().value[0];
      if input.notary != notary then Failure(InputNotaryMismatch)
      else Success(Built(me, input, Proposal(args, externalId, notary, me, input, env.bankAndCreditIsFinanceAndBank)))
  }

  /** How many steps a run that ends with `f` has announced: the failing stage is the last. */
  function StagesAnnounced(f: Failure): nat
  {
    match f
    case NoNotary => 0
    case StateNotFound => 0
    case VaultQueryFailed => 0
    case NoLegalIdentity => 1
    case InputListNull => 1
    case InputListEmpty => 1
    case InputNotaryMismatch => 1
    case ContractRejected => 2
    case SigningFailed => 3
    case CollectFailed => 4
    case CounterpartyRejected(_) => 4
    case FinalityFailed => 5
  }

  /**
   * The signature-collection stage: the counterparty runs its check and, if
   * it accepts, returns the transaction with its signature added.
   */
  function Collect(partSigned: SignedTransaction, args: FlowArgs, env: Environment): (r: Result<SignedTransaction, Failure>)
    ensures r.Success? <==> env.collectSucceeds && Acceptor.CheckTransaction(partSigned).Accepted?
    ensures r.Success? ==> r.value.tx == partSigned.tx && r.value.sigs == partSigned.sigs + [args.otherParty.owningKey]
    ensures r.Failure? ==>
              r.error == (if !env.collectSucceeds then CollectFailed
                          else CounterpartyRejected(Acceptor.CheckTransaction(partSigned).reason))
    ensures r.Failure? ==> StagesAnnounced(r.error) == 4
  {
    if !env.collectSucceeds then Failure(CollectFailed)
    else match Acceptor.SignTransaction(partSigned, args.otherParty.owningKey)
      case Success(stx) => Success(stx)
      case Failure(reason) => Failure(CounterpartyRejected(reason))
  }

  function FailureOf<T>(r: Result<T, Failure>): Option<Failure>
  {
    if r.Failure? then Some(r.error) else None
  }

  /**
   * The five stages of a run once the transaction is built; `collectFailure`
   * is what signature collection raised, if anything.
   */
  function BuiltCheckpoints(env: Environment, collectFailure: Option<Failure>): seq<Checkpoint<Failure>>
  {
    [ Checkpoint(LoanEligibilityResponse, None),
      Checkpoint(VerifyingTransaction, if env.contractVerifies then None else Some(ContractRejected)),
      Checkpoint(SigningTransaction, if env.signingSucceeds then None else Some(SigningFailed)),
      Checkpoint(GatheringSigs, collectFailure),
      Checkpoint(FinalisingTransaction, if env.finalitySucceeds then None else Some(FinalityFailed)) ]
  }

  /** The stages of a run, once a notary has been found. */
  function Checkpoints(args: FlowArgs, externalId: Option<string>, notary: Party, env: Environment): seq<Checkpoint<Failure>>
  {
    match Construct(args, externalId, notary, env)
    case Failure(f) => [Checkpoint(LoanEligibilityResponse, Some(f))]
    case Success(b) => BuiltCheckpoints(env, FailureOf(Collect(SignedTransaction(b.tx, [b.me.owningKey]), args, env)))
  }

  /** How far a run gets: how many steps it announces, and how it ends. */
  datatype FlowRun = FlowRun(reached: nat, outcome: FlowOutcome)

  /**
   * A run, stage by stage: the notary lookup precedes every step; then the
   * construction stage, and the stages that follow it.
   */
  function Execute(args: FlowArgs, externalId: Option<string>, env: Environment): (r: FlowRun)
    ensures r.reached <= |StageOrder|
    ensures r.outcome.Aborted? ==> r.reached == StagesAnnounced(r.outcome.failure)
    ensures r.outcome.Finalised? ==> r.reached == |StageOrder|
  {
    if |env.notaries| == 0 then FlowRun(0, Aborted(NoNotary))
    else
      var notary := env.notaries[0];
      match Construct(args, externalId, notary, env)
      case Failure(f) => FlowRun(1, Aborted(f))
      case Success(b) => AfterConstruction(env, notary, Collect(SignedTransaction(b.tx, [b.me.owningKey]), args, env))
  }

  /**
   * The stages after construction, each announced before it runs:
   * verification, local signing, signature collection (whose result is
   * `collected`) and finality.
   */
  function AfterConstruction(env: Environment, notary: Party, collected: Result<SignedTransaction, Failure>): (r: FlowRun)
    requires collected.Failure? ==> StagesAnnounced(collected.error) == 4
    ensures 2 <= r.reached <= |StageOrder|
    ensures r.outcome.Aborted? ==> r.reached == StagesAnnounced(r.outcome.failure)
    ensures r.outcome.Finalised? ==> r.reached == |StageOrder|
  {
    if !env.contractVerifies then FlowRun(2, Aborted(ContractRejected))
    else if !env.signingSucceeds then FlowRun(3, Aborted(SigningFailed))
    else match collected
      case Failure(f) => FlowRun(4, Aborted(f))
      case Success(fullySigned) =>
        if !env.finalitySucceeds then FlowRun(5, Aborted(FinalityFailed))
        else FlowRun(5, Finalised(fullySigned.WithSignature(notary.owningKey)))
  }

  /** The steps the progress tracker is set to during a run. */
  function Trace(args: FlowArgs, externalId: Option<string>, env: Environment): seq<Step>
  {
    StageOrder[..Execute(args, externalId, env).reached]
  }

  /** How a run ends. */
  function Outcome(args: FlowArgs, externalId: Option<string>, env: Environment): FlowOutcome
  {
    Execute(args, externalId, env).outcome
  }

  function FailureOfOutcome(o: FlowOutcome): Option<Failure>
  {
    if o.Aborted? then Some(o.failure) else None
  }

  /** The stages after construction are the checkpoint run of `BuiltCheckpoints`. */
  lemma {:induction false} AfterConstructionIsRun(env: Environment, notary: Party, collected: Result<SignedTransaction, Failure>)
    requires collected.Failure? ==> StagesAnnounced(collected.error) == 4
    ensures var r := AfterConstruction(env, notary, collected);
      RunCheckpoints(BuiltCheckpoints(env, FailureOf(collected))) == Run(StageOrder[..r.reached], FailureOfOutcome(r.outcome))
  {
    var cps := BuiltCheckpoints(env, FailureOf(collected));
    var run := RunCheckpoints(cps);
    var r := AfterConstruction(env, notary, collected);
    if !env.contractVerifies {
      RunStopsAtFirstFailure(cps, 1);
    } else if !env.signingSucceeds {
      RunStopsAtFirstFailure(cps, 2);
    } else if collected.Failure? {
      RunStopsAtFirstFailure(cps, 3);
    } else if !env.finalitySucceeds {
      RunStopsAtFirstFailure(cps, 4);
    } else {
      assert AllPass(cps);
    }
    assert run.trace == StageOrder[..r.reached];
  }

  /**
   * Once a notary is found, a run is the abort-on-first-failure run of its
   * checkpoints: it announces exactly the steps up to the first failing
   * stage and ends with that stage's failure, or finalises when none fails.
   */
  lemma {:induction false} RunOfCheckpoints(args: FlowArgs, externalId: Option<string>, env: Environment)
    requires |env.notaries| > 0
    ensures RunCheckpoints(Checkpoints(args, externalId, env.notaries[0], env))
         == Run(Trace(args, externalId, env), FailureOfOutcome(Outcome(args, externalId, env)))
  {
    var notary := env.notaries[0];
    match Construct(args, externalId, notary, env)
    case Failure(f) =>
      var run := RunCheckpoints(Checkpoints(args, externalId, notary, env));
      RunStopsAtFirstFailure(Checkpoints(args, externalId, notary, env), 0);
      assert run.trace == StageOrder[..1];
    case Success(b) =>
      AfterConstructionIsRun(env, notary, Collect(SignedTransaction(b.tx, [b.me.owningKey]), args, env));
  }

  /** Whether a run gets as far as dereferencing the first vault record (and so builds a transaction). */
  predicate ReachesConstruction(env: Environment)
  {
    |env.notaries| > 0 && |env.myIdentities| > 0 && env.InputStateList().Some? && |env.InputStateList().value| > 0
  }

  /** Whether the first vault record is recorded under the first notary, so that it can be added as input. */
  predicate InputUnderNotary(env: Environment)
    requires ReachesConstruction(env)
  {
    env.InputStateList().value[0].notary == env.notaries[0]
  }

  /**
   * The stages run in the fixed order, a failing stage is the last one
   * announced, and only a run that announces every stage can finalise.
   */
  lemma StagesRunInOrder(args: FlowArgs, externalId: Option<string>, env: Environment)
    ensures Trace(args, externalId, env) <= StageOrder
    ensures Outcome(args, externalId, env).Aborted? ==>
      Trace(args, externalId, env) == StageOrder[..StagesAnnounced(Outcome(args, externalId, env).failure)]
    ensures Outcome(args, externalId, env).Finalised? ==> Trace(args, externalId, env) == StageOrder
  {
  }

  /**
   * A run finalises exactly when a notary, an identity and a vault record are
   * found, the record is under that notary, the contract verifies, local signing succeeds, collection succeeds
   * and the counterparty's check passes (which, for the record the
   * initiator builds, needs a `BankAndCreditState` to be a
   * `FinanceAndBankState`), and finality succeeds.
   */
  lemma FinalisedIffEveryStagePasses(args: FlowArgs, externalId: Option<string>, env: Environment)
    ensures Outcome(args, externalId, env).Finalised? <==>
      && ReachesConstruction(env)
      && InputUnderNotary(env)
      && env.contractVerifies
      && env.signingSucceeds
      && env.collectSucceeds
      && env.bankAndCreditIsFinanceAndBank
      && env.finalitySucceeds
  {
    if ReachesConstruction(env) && InputUnderNotary(env) {
      var notary, me, input := env.notaries[0], env.myIdentities[0], env.InputStateList().value[0];
      var tx := Proposal(args, externalId, notary, me, input, env.bankAndCreditIsFinanceAndBank);
      assert Acceptor.CheckTransaction(SignedTransaction(tx, [me.owningKey])).Accepted?
        <==> env.bankAndCreditIsFinanceAndBank;
    }
  }

  /**
   * A run that finds no vault record produces no transaction: it stops at the
   * construction stage at the latest, so nothing is signed or finalised.
   */
  lemma NoStatesNoTransaction(args: FlowArgs, externalId: Option<string>, env: Environment)
    requires env.InputStateList().None? || |env.InputStateList().value| == 0
    ensures Outcome(args, externalId, env) in
      {Aborted(NoNotary), Aborted(NoLegalIdentity), Aborted(InputListNull), Aborted(InputListEmpty)}
    ensures |Trace(args, externalId, env)| <= 1
    ensures SigningTransaction !in Trace(args, externalId, env)
    ensures FinalisingTransaction !in Trace(args, externalId, env)
  {
  }

  /**
   * A first record under another notary than the first one is rejected when
   * it is added as input, before verification is announced.
   */
  lemma ForeignNotaryFailsAtInput(args: FlowArgs, externalId: Option<string>, env: Environment)
    requires ReachesConstruction(env) && !InputUnderNotary(env)
    ensures Outcome(args, externalId, env) == Aborted(InputNotaryMismatch)
    ensures Trace(args, externalId, env) == [LoanEligibilityResponse]
  {
  }

  /**
   * The lookup's failure is never what a run reports: with a notary and an
   * identity, an empty or null vault list (null also when the query threw) is
   * dereferenced anyway, after the first step has been announced.
   */
  lemma EmptyVaultFailsAtDereference(args: FlowArgs, externalId: Option<string>, env: Environment)
    requires |env.notaries| > 0 && |env.myIdentities| > 0
    requires env.InputStateList().None? || |env.InputStateList().value| == 0
    ensures LookupInput(env.vault).Failure?
    ensures env.vault.Listed? ==> LookupInput(env.vault) == Failure(NotFound(StateNotFoundMessage))
    ensures Outcome(args, externalId, env) == (if env.InputStateList().None? then Aborted(InputListNull) else Aborted(InputListEmpty))
    ensures Trace(args, externalId, env) == [LoanEligibilityResponse]
  {
  }

  /**
   * The flow with the lookup's failure propagated: a query that throws ends
   * the run with its own exception, and a null or empty vault list with
   * "State Cannot be found", both before any step; with a record it runs as
   * written.
   */
  function ExecuteIntended(args: FlowArgs, externalId: Option<string>, env: Environment): (r: FlowRun)
    ensures r.outcome == Aborted(VaultQueryFailed) <==> env.vault.QueryThrew?
    ensures r.outcome == Aborted(StateNotFound) <==>
      env.vault.Listed? && (env.vault.states.None? || |env.vault.states.value| == 0)
    ensures LookupInput(env.vault).Failure? ==> r.reached == 0
    ensures LookupInput(env.vault).Success? ==> r == Execute(args, externalId, env)
    ensures r.outcome.Aborted? ==> r.outcome.failure !in {InputListNull, InputListEmpty}
  {
    match LookupInput(env.vault)
    case Failure(QueryFailed) => FlowRun(0, Aborted(VaultQueryFailed))
    case Failure(NotFound(_)) => FlowRun(0, Aborted(StateNotFound))
    case Success(_) => Execute(args, externalId, env)
  }

  /**
   * A finalised run's transaction is the proposal built from the first vault
   * record: it consumes that record, keeps its UUID, and carries the
   * signatures of this node, the counterparty (exactly the command's
   * required signers, in that order) and the notary.
   */
  lemma FinalisedTransaction(args: FlowArgs, externalId: Option<string>, env: Environment)
    requires Outcome(args, externalId, env).Finalised?
    ensures ReachesConstruction(env) && InputUnderNotary(env)
    ensures var stx := Outcome(args, externalId, env).stx;
      var notary, me, input := env.notaries[0], env.myIdentities[0], env.InputStateList().value[0];
      && stx.tx == Proposal(args, externalId, notary, me, input, env.bankAndCreditIsFinanceAndBank)
      && IsNotificationOf(stx.tx, input)
      && stx.tx.outputs[0].data.record.linearId == UniqueIdentifier(externalId, input.state.linearId.id)
      && stx.sigs == stx.tx.commands[0].signers + [notary.owningKey]
      && stx.tx.commands[0].signers == [me.owningKey, args.otherParty.owningKey]
  {
  }

  /**
   * If a `BankAndCreditState` is not a `FinanceAndBankState`, no run
   * finalises: a run that reaches the counterparty is rejected by its check.
   */
  lemma NeverFinalisedUnlessSubclass(args: FlowArgs, externalId: Option<string>, env: Environment)
    requires !env.bankAndCreditIsFinanceAndBank
    ensures !Outcome(args, externalId, env).Finalised?
    ensures (ReachesConstruction(env) && InputUnderNotary(env)
             && env.contractVerifies && env.signingSucceeds && env.collectSucceeds) ==>
      Outcome(args, externalId, env)
        == Aborted(CounterpartyRejected(Acceptor.RequirementFailed(Acceptor.FinanceAndBankMessage)))
  {
    FinalisedIffEveryStagePasses(args, externalId, env);
  }

  /** The intended check accepts every proposal, whatever the class hierarchy. */
  lemma IntendedCheckAcceptsProposal(args: FlowArgs, externalId: Option<string>, notary: Party, me: Party,
                                     input: StateAndRef, isFinanceAndBank: bool, sigs: seq<PublicKey>)
    requires input.notary == notary
    ensures Acceptor.CheckTransactionIntended(
      SignedTransaction(Proposal(args, externalId, notary, me, input, isFinanceAndBank), sigs)).Accepted?
  {
  }

  /** The initiating flow; the fields are those of the Java class. */
  class Initiator {
    const otherParty: Party
    const companyName: string
    const loanEligibleFlag1: bool
    const amount: int32
    var linearId: Option<UniqueIdentifier>
    var id: Option<string>
    /** Every step the progress tracker has been set to, in order. */
    var progress: seq<Step>

    constructor (otherParty: Party, companyName: string, loanEligibleFlag1: bool, amount: int32)
      ensures this.otherParty == otherParty && this.companyName == companyName
      ensures this.loanEligibleFlag1 == loanEligibleFlag1 && this.amount == amount
      ensures linearId == None && id == None && progress == []
    {
      this.otherParty := otherParty;
      this.companyName := companyName;
      this.loanEligibleFlag1 := loanEligibleFlag1;
      this.amount := amount;
      linearId := None;
      id := None;
      progress := [];
    }

    function Args(): FlowArgs
    {
      FlowArgs(otherParty, companyName, loanEligibleFlag1, amount)
    }

    method SetCurrentStep(step: Step)
      modifies this`progress
      ensures progress == old(progress) + [step]
    {
      progress := progress + [step];
    }

    /**
     * Runs the flow. The tracker's new steps and the outcome are those of
     * `Trace` and `Outcome`; `linearId` is set once the first vault record
     * has been dereferenced.
     */
    method Call(env: Environment) returns (result: FlowOutcome)
      modifies this`linearId, this`progress
      ensures result == Outcome(Args(), id, env)
      ensures progress == old(progress) + Trace(Args(), id, env)
      ensures ReachesConstruction(env) ==>
        linearId == Some(env.InputStateList().value[0].state.linearId.Copy(id, env.InputStateList().value[0].state.linearId.id))
      ensures !ReachesConstruction(env) ==> linearId == old(linearId)
    {
      StageOrderPrefixes();
      // The list stays null when the query throws; a failed lookup
      // (`LookupInput`) is caught and only printed, so nothing below depends on it.
      var inputStateList: Option<seq<StateAndRef>> := None;
      if env.vault.Listed? {
        inputStateList := env.vault.states;
      }

      if |env.notaries| == 0 {
        return Aborted(NoNotary);
      }
      var notary := env.notaries[0];
      SetCurrentStep(LoanEligibilityResponse);
      if |env.myIdentities| == 0 {
        return Aborted(NoLegalIdentity);
      }
      var me := env.myIdentities[0];
      if inputStateList.None? {
        return Aborted(InputListNull);
      }
      if |inputStateList.value| == 0 {
        return Aborted(InputListEmpty);
      }
      var stateAsInput := inputStateList.value[0];
      linearId := Some(stateAsInput.state.linearId.Copy(id, stateAsInput.state.linearId.id));
      var bankAndCreditStates := BankAndCreditState(me, otherParty, false, loanEligibleFlag1, companyName, amount, linearId.value);
      var receiveCreditApproval := Command(ReceiveCreditApproval,
        [bankAndCreditStates.creditRatingAgency.owningKey, bankAndCreditStates.stateBank.owningKey]);
      var withInput := NewTransactionBuilder(notary).AddInputState(stateAsInput);
      if withInput.None? {
        return Aborted(InputNotaryMismatch);
      }
      var txBuilder := withInput.value
        .AddOutputState(BankAndCredit(bankAndCreditStates, env.bankAndCreditIsFinanceAndBank), TemplateContractId)
        .AddCommand(receiveCreditApproval);
      assert Construct(Args(), id, notary, env) == Success(Built(me, stateAsInput, txBuilder));

      SetCurrentStep(VerifyingTransaction);
      if !env.contractVerifies {
        return Aborted(ContractRejected);
      }
      SetCurrentStep(SigningTransaction);
      if !env.signingSucceeds {
        return Aborted(SigningFailed);
      }
      var partSignedTx := SignedTransaction(txBuilder, [me.owningKey]);
      SetCurrentStep(GatheringSigs);
      var collected := Collect(partSignedTx, Args(), env);
      if collected.Failure? {
        return Aborted(collected.error);
      }
      var fullySignedTx := collected.value;
      SetCurrentStep(FinalisingTransaction);
      if !env.finalitySucceeds {
        return Aborted(FinalityFailed);
      }
      result := Finalised(fullySignedTx.WithSignature(notary.owningKey));
    }
  }
}
