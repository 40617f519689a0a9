/**
 * The counterparty's side of the notification flow: the check it runs on a
 * proposed transaction before signing it, and the signature it returns.
 */
module Acceptor {
  import opened Wrappers
  import opened Ledger

  const FinanceAndBankMessage: string := "This must be an FinanceAndBankState transaction."

  /** Why the counterparty refuses to sign. */
  datatype Rejection =
      /** The transaction has no output: reading output 0 fails. */
    | NoOutputs
      /** A `requireThat` condition is false; the message is the requirement's. */
    | RequirementFailed(message: string)
      /** Output 0 is not a `BankAndCreditState`: the cast fails. */
    | CastFailed

  datatype Verdict = Accepted | Rejected(reason: Rejection)

  /**
   * The check as written: output 0 must be a `FinanceAndBankState`, and is
   * then cast to `BankAndCreditState`. It passes only when output 0 is both.
   */
  function CheckTransaction(stx: SignedTransaction): (v: Verdict)
    ensures v.Accepted? <==>
      |stx.tx.outputs| > 0 && stx.tx.outputs[0].data.isFinanceAndBank && stx.tx.outputs[0].data.BankAndCredit?
    ensures v == Rejected(RequirementFailed(FinanceAndBankMessage)) <==>
      |stx.tx.outputs| > 0 && !stx.tx.outputs[0].data.isFinanceAndBank
    ensures v == Rejected(NoOutputs) <==> |stx.tx.outputs| == 0
    ensures v == Rejected(CastFailed) <==> |stx.tx.outputs| > 0 && stx.tx.outputs[0].data == OtherState(true)
  {
    if |stx.tx.outputs| == 0 then Rejected(NoOutputs)
    else
      var output := stx.tx.outputs[0].data;
      if !output.isFinanceAndBank then Rejected(RequirementFailed(FinanceAndBankMessage))
      else if !output.BankAndCredit? then Rejected(CastFailed)
      else Accepted
  }

  /**
   * The check the cast implies was meant: output 0 must be a
   * `BankAndCreditState`. It never fails at the cast.
   */
  function CheckTransactionIntended(stx: SignedTransaction): (v: Verdict)
    ensures v.Accepted? <==> |stx.tx.outputs| > 0 && stx.tx.outputs[0].data.BankAndCredit?
    ensures v != Rejected(CastFailed)
  {
    if |stx.tx.outputs| == 0 then Rejected(NoOutputs)
    else if !stx.tx.outputs[0].data.BankAndCredit? then
      Rejected(RequirementFailed("This must be a BankAndCreditState transaction."))
    else Accepted
  }

  /**
   * A `FinanceAndBankState` output that is not a `BankAndCreditState` passes
   * the stated requirement and still fails, at the cast.
   */
  lemma FinanceOnlyOutputFailsAtCast(stx: SignedTransaction)
    requires |stx.tx.outputs| > 0 && stx.tx.outputs[0].data == OtherState(true)
    ensures CheckTransaction(stx) == Rejected(CastFailed)
    ensures CheckTransactionIntended(stx).Rejected?
  {
  }

  /**
   * When every `BankAndCreditState` output is also a `FinanceAndBankState`,
   * the check as written accepts exactly what the intended check accepts.
   */
  lemma AsWrittenAgreesWhenSubclass(stx: SignedTransaction)
    requires |stx.tx.outputs| > 0 && stx.tx.outputs[0].data.BankAndCredit? ==> stx.tx.outputs[0].data.isFinanceAndBank
    ensures CheckTransaction(stx).Accepted? <==> CheckTransactionIntended(stx).Accepted?
  {
  }

  /**
   * The counterparty's signing step: on acceptance the transaction comes back
   * with `myKey` appended to its signatures; on rejection nothing is signed.
   */
  function SignTransaction(stx: SignedTransaction, myKey: PublicKey): (r: Result<SignedTransaction, Rejection>)
    ensures r.Success? <==> CheckTransaction(stx).Accepted?
    ensures r.Success? ==> r.value.tx == stx.tx && r.value.sigs == stx.sigs + [myKey]
    ensures r.Failure? ==> CheckTransaction(stx) == Rejected(r.error)
  {
    match CheckTransaction(stx)
    case Accepted => Success(stx.WithSignature(myKey))
    case Rejected(reason) => Failure(reason)
  }
}
