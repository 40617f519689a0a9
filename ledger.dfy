/**
 * The ledger values the notification flow reads and builds: parties, linear
 * identifiers, the bank/credit record, contract states, commands and
 * transactions. The Corda classes behind them are library code; only the
 * parts the flow touches are kept.
 */
module Ledger {
  import opened Wrappers

  /** Java's `int`: the record's amount is passed through unchanged. */
  newtype int32 = x: int | -0x8000_0000 <= x < 0x8000_0000

  datatype PublicKey = PublicKey(encoded: nat)

  /** A node identity on the network, with the key it signs with. */
  datatype Party = Party(name: string, owningKey: PublicKey)

  datatype Uuid = Uuid(bits: nat)

  /**
   * Corda's `UniqueIdentifier`: an optional external id (`None` is `null`)
   * and the UUID that identifies the record across its versions.
   */
  datatype UniqueIdentifier = UniqueIdentifier(externalId: Option<string>, id: Uuid)
  {
    /** The data-class `copy(externalId, id)`. */
    function Copy(externalId: Option<string>, id: Uuid): UniqueIdentifier
    {
      UniqueIdentifier(externalId, id)
    }

    /** `UniqueIdentifier.equals` compares the UUIDs only. */
    predicate SameAs(other: UniqueIdentifier)
    {
      id == other.id
    }
  }

  /**
   * The bank/credit record, its fields in the order of the constructor call
   * that builds the new version.
   */
  datatype BankAndCreditState = BankAndCreditState(
    creditRatingAgency: Party,
    stateBank: Party,
    status: bool,
    loanEligibleFlag: bool,
    companyName: string,
    amount: int32,
    linearId: UniqueIdentifier)

  /**
   * A contract state as the counterparty sees it. Whether a state is a
   * `BankAndCreditState` is the variant; whether it is a
   * `FinanceAndBankState` is a separate flag, since the class hierarchy that
   * would relate the two is not part of this model.
   */
  datatype ContractState =
    | BankAndCredit(record: BankAndCreditState, isFinanceAndBank: bool)
    | OtherState(isFinanceAndBank: bool)

  datatype StateRef = StateRef(txHash: nat, index: nat)

  /**
   * A state in the vault: the record, the notary it is recorded under, and
   * the reference that consumes it.
   */
  datatype StateAndRef = StateAndRef(state: BankAndCreditState, notary: Party, ref: StateRef)

  /** An output: the state, the contract that governs it, and its notary. */
  datatype TransactionState = TransactionState(data: ContractState, contract: string, notary: Party)

  datatype CommandData = ReceiveCreditApproval

  /** A command and the keys that must sign any transaction carrying it. */
  datatype Command = Command(value: CommandData, signers: seq<PublicKey>)

  /** `FinanceContract.TEMPLATE_CONTRACT_ID`; its value is defined outside this model. */
  const TemplateContractId: string

  /**
   * A transaction under construction; each `Add…` appends one component. An
   * input must be recorded under the builder's notary, otherwise adding it
   * raises (`None`).
   */
  datatype TransactionBuilder = TransactionBuilder(
    notary: Party,
    inputs: seq<StateRef>,
    outputs: seq<TransactionState>,
    commands: seq<Command>)
  {
    function AddInputState(s: StateAndRef): (r: Option<TransactionBuilder>)
      ensures r.Some? <==> s.notary == notary
      ensures r.Some? ==> r.value.inputs == inputs + [s.ref] && r.value.outputs == outputs && r.value.commands == commands
      ensures r.Some? ==> r.value.notary == notary
    {
      if s.notary == notary then Some(this.(inputs := inputs + [s.ref])) else None
    }

    function AddOutputState(data: ContractState, contract: string): TransactionBuilder
    {
      this.(outputs := outputs + [TransactionState(data, contract, notary)])
    }

    function AddCommand(c: Command): TransactionBuilder
    {
      this.(commands := commands + [c])
    }
  }

  function NewTransactionBuilder(notary: Party): TransactionBuilder
  {
    TransactionBuilder(notary, [], [], [])
  }

  /** A transaction and the keys that have signed it, in signing order. */
  datatype SignedTransaction = SignedTransaction(tx: TransactionBuilder, sigs: seq<PublicKey>)
  {
    function WithSignature(key: PublicKey): SignedTransaction
    {
      this.(sigs := sigs + [key])
    }
  }
}
