# Credit agency → bank notification flow, modelled in Dafny

This project models the Corda flow pair `CreditAgencyBankNotificationFlow`.
A credit rating agency node (the **initiator**) replaces the bank/credit record
in its vault with a new version. The new version names the agency and a state
bank (the **counterparty**), carries a loan-eligibility flag, a company name
and an amount, and keeps the old record's linear id. The counterparty (the
**acceptor**) checks the proposal before signing it, and the notary finalises
it.

The model has five modules:

- `Wrappers`: `Option` (Java's `null`) and `Result`.
- `Ledger`: the ledger values the flow reads and builds. These are parties,
  `UniqueIdentifier`, `BankAndCreditState`, a tagged `ContractState`,
  commands, a `TransactionBuilder` and a `SignedTransaction`.
- `Pipeline`: the progress-tracker steps and an abort-on-first-failure
  checkpoint runner. This is the stage state machine. The step labels and the
  order in which the steps are handed to the tracker are kept as `Label` and
  `DeclaredOrder`.
- `Acceptor`: the counterparty's `checkTransaction` as written, the check the
  cast implies was meant, and the signature the counterparty returns.
- `Flow`: the class `Initiator`. Its `Call` is imperative, as in the source:
  it assigns the `linearId` field mid-call, advances the progress tracker
  stage by stage and threads the vault list and the builder through the
  stages. `Call` is specified by the functions `Execute`, `Outcome` and
  `Trace`, and the flow's properties are lemmas about those functions.

The node's services are not modelled. They are fields of `Environment`:
- the vault query's answer (`VaultAnswer`): either the query threw, or it returned a list, which may be null. When the query throws, the initiator's list stays null;
- the notary list and this node's legal identities;
- whether contract verification, local signing, signature collection and
  finality succeed;
- whether a `BankAndCreditState` is also a `FinanceAndBankState`, because that
  class hierarchy is not part of the model.

The signature-collection stage runs the acceptor's check as written on the
partly signed transaction.

Some behaviour of the code is worth stating up front. The model keeps all of
it:
- The code catches the "State Cannot be found" failure and then dereferences
  the vault list anyway (see "## Findings").
- The new record's status flag is always `false` (line 97).
- The new linear id keeps the old UUID, but its external id is the `id` field
  (line 96). That field is never assigned, so it stays `null`.
- The counterparty checks for `FinanceAndBankState` and then casts to
  `BankAndCreditState` (lines 147-148; see "## Findings").
- `addInputState` rejects a record that is recorded under a notary other than
  the first notary found (line 100). This happens before verification is
  announced.

Corda's `UniqueIdentifier` compares by UUID only. So "same linear id" is
`SameAs`, which compares the UUID.

## Model

| member | source | states |
|---|---|---|
| `Pipeline.RunCheckpoints` | java-source/src/main/java/com/example/flow/CreditAgencyBankNotificationFlow.java:93-118 | The trace is the stages' steps up to and including the first failing stage. The run ends with that failure. It completes only when every stage passes, and then it announces every step. |
| `Pipeline.RunStopsAtFirstFailure` | java-source/src/main/java/com/example/flow/CreditAgencyBankNotificationFlow.java:93-118 | If the first failure is at stage k, the run announces exactly k + 1 steps and ends with stage k's failure. |
| `Acceptor.CheckTransaction` | java-source/src/main/java/com/example/flow/CreditAgencyBankNotificationFlow.java:143-151 | Accepts exactly when output 0 exists, is a `FinanceAndBankState` and is a `BankAndCreditState`. It rejects with "This must be an FinanceAndBankState transaction." exactly when output 0 is not a `FinanceAndBankState`. It fails reading output 0 exactly when there is no output. It fails at the cast exactly when output 0 is a `FinanceAndBankState` but not a `BankAndCreditState`. |
| `Acceptor.FinanceOnlyOutputFailsAtCast` | java-source/src/main/java/com/example/flow/CreditAgencyBankNotificationFlow.java:146-148 | An output that is a `FinanceAndBankState` but not a `BankAndCreditState` passes the requirement and then fails at the cast. |
| `Acceptor.CheckTransactionIntended` | java-source/src/main/java/com/example/flow/CreditAgencyBankNotificationFlow.java:147-148 | The corrected check accepts exactly when output 0 is a `BankAndCreditState`, and it never fails at a cast. |
| `Acceptor.AsWrittenAgreesWhenSubclass` | java-source/src/main/java/com/example/flow/CreditAgencyBankNotificationFlow.java:147-148 | If every `BankAndCreditState` output is also a `FinanceAndBankState`, the written check and the corrected check accept the same transactions. |
| `Acceptor.SignTransaction` | java-source/src/main/java/com/example/flow/CreditAgencyBankNotificationFlow.java:135-153 | The counterparty signs exactly when its check accepts, and it appends only its own key. On rejection it returns the check's reason and signs nothing. |
| `Flow.LookupInput` | java-source/src/main/java/com/example/flow/CreditAgencyBankNotificationFlow.java:74-91 | When the query throws, the lookup fails with the query's own exception. When the query returns a null or empty list, it fails with "State Cannot be found". It has no other failure. Otherwise it yields the list's first record. |
| `Flow.Proposal` | java-source/src/main/java/com/example/flow/CreditAgencyBankNotificationFlow.java:96-102 | The input must be recorded under the transaction's notary. The built transaction meets `IsNotificationOf`: its sole input is the given record, under the transaction's notary; it has one output under `TEMPLATE_CONTRACT_ID` with the same UUID; and it has one `receiveCreditApproval` command signed by the record's two parties. The output record is (me, otherParty, status false, `loanEligibleFlag1`, company name, amount), with linear id (the given external id, the input's UUID). The signers are [me, otherParty], in that order. |
| `Flow.Construct` | java-source/src/main/java/com/example/flow/CreditAgencyBankNotificationFlow.java:94-102 | Construction succeeds exactly when this node has an identity, the initiator's list has a first record, and that record is under the chosen notary. It then yields this node's first identity, that record and the `Proposal` built from them. Otherwise it fails with one of: no legal identity, null list, empty list, or notary mismatch. Each failure comes after exactly one announced step. |
| `Flow.Collect` | java-source/src/main/java/com/example/flow/CreditAgencyBankNotificationFlow.java:111-114 | Collection succeeds exactly when the session succeeds and the counterparty's check accepts. It then adds exactly the counterparty's key to the transaction. On failure it reports `CollectFailed` when the session fails. Otherwise it reports the counterparty's rejection with the check's own reason. |
| `Flow.Execute` | java-source/src/main/java/com/example/flow/CreditAgencyBankNotificationFlow.java:74-118 | A run announces at most the five steps. An aborted run's last announced step is the stage that failed. A finalised run has announced all five steps. |
| `Flow.AfterConstruction` | java-source/src/main/java/com/example/flow/CreditAgencyBankNotificationFlow.java:104-118 | The stages after construction always announce verification. A failing stage is the last step announced, and finality is reached only after all five steps. |
| `Flow.AfterConstructionIsRun` | java-source/src/main/java/com/example/flow/CreditAgencyBankNotificationFlow.java:104-118 | Verification, signing, collection and finality behave as the checkpoint runner over the five stages. |
| `Flow.RunOfCheckpoints` | java-source/src/main/java/com/example/flow/CreditAgencyBankNotificationFlow.java:92-118 | Once a notary is found, the flow's trace and outcome are those of the abort-on-first-failure run of its checkpoints. |
| `Flow.StagesRunInOrder` | java-source/src/main/java/com/example/flow/CreditAgencyBankNotificationFlow.java:93-116 | The steps announced are a prefix of LOAN_ELIGIBILITY_RESPONSE, VERIFYING, SIGNING, GATHERING_SIGS, FINALISING. An aborted run stops at its failing stage, and a finalised run has announced all five steps. |
| `Flow.FinalisedIffEveryStagePasses` | java-source/src/main/java/com/example/flow/CreditAgencyBankNotificationFlow.java:92-118 | A run finalises if and only if all of these hold: a notary, an identity and a vault record are found; the record is under that notary; verification, local signing, collection and finality succeed; and a `BankAndCreditState` is a `FinanceAndBankState`. |
| `Flow.NoStatesNoTransaction` | java-source/src/main/java/com/example/flow/CreditAgencyBankNotificationFlow.java:74-95 | With a null or empty vault list, a run aborts at the notary lookup, the identity lookup or the dereference. It announces at most the first step, and it never signs or finalises. |
| `Flow.ForeignNotaryFailsAtInput` | java-source/src/main/java/com/example/flow/CreditAgencyBankNotificationFlow.java:99-100 | When the first vault record is under a notary other than the first notary found, the run fails at `addInputState` after announcing only LOAN_ELIGIBILITY_RESPONSE. |
| `Ledger.TransactionBuilder.AddInputState` | java-source/src/main/java/com/example/flow/CreditAgencyBankNotificationFlow.java:100 | Adding an input succeeds exactly when it is recorded under the builder's notary. It then appends just that input's reference and changes nothing else. |
| `Pipeline.Position` | java-source/src/main/java/com/example/flow/CreditAgencyBankNotificationFlow.java:62-68 | A step's place in the tracker's declared list, with the initial UNSTARTED step at place 0. |
| `Pipeline.OnlySecondMoveGoesBack` | java-source/src/main/java/com/example/flow/CreditAgencyBankNotificationFlow.java:62-68 | Of the initiator's moves through that list, only the second one goes backwards: from LOAN_ELIGIBILITY_RESPONSE to VERIFYING. |
| `Flow.EmptyVaultFailsAtDereference` | java-source/src/main/java/com/example/flow/CreditAgencyBankNotificationFlow.java:74-95 | With a notary, an identity and no record in the initiator's list (the query threw, or returned a null or empty list), the lookup fails. For a returned list it fails with "State Cannot be found". Either way, the run reports the dereference failure instead (null pointer or index out of bounds), after announcing LOAN_ELIGIBILITY_RESPONSE. |
| `Flow.ExecuteIntended` | java-source/src/main/java/com/example/flow/CreditAgencyBankNotificationFlow.java:74-95 | The corrected flow reports the query's own exception exactly when the query throws. It reports StateNotFound exactly when the query returns a null or empty list. Both happen before any step. Otherwise it runs as written, and it never reports a dereference failure. |
| `Flow.FinalisedTransaction` | java-source/src/main/java/com/example/flow/CreditAgencyBankNotificationFlow.java:94-118 | A finalised transaction is the proposal built from the first vault record. It keeps that record's UUID and uses `id` as the external id. Its signatures are the command's required signers (me, then otherParty) followed by the notary. |
| `Flow.NeverFinalisedUnlessSubclass` | java-source/src/main/java/com/example/flow/CreditAgencyBankNotificationFlow.java:97-148 | If a `BankAndCreditState` is not a `FinanceAndBankState`, no run finalises. A run that reaches the counterparty is rejected with the "FinanceAndBankState" message. |
| `Flow.IntendedCheckAcceptsProposal` | java-source/src/main/java/com/example/flow/CreditAgencyBankNotificationFlow.java:97-148 | The corrected check accepts every transaction the initiator builds. |
| `Flow.Initiator.constructor` | java-source/src/main/java/com/example/flow/CreditAgencyBankNotificationFlow.java:29-42 | Stores the four arguments. `linearId` and `id` start null. |
| `Flow.Initiator.SetCurrentStep` | java-source/src/main/java/com/example/flow/CreditAgencyBankNotificationFlow.java:93 | Appends the step to the tracker's history. |
| `Flow.Initiator.Call` | java-source/src/main/java/com/example/flow/CreditAgencyBankNotificationFlow.java:70-119 | Returns `Outcome`. It appends `Trace` to the tracker's history. Once the first record has been dereferenced, `linearId` is that record's UUID with `id` as the external id; otherwise `linearId` is unchanged. |

## Left out

- Vault querying, the network-map notary lookup and the `getMyInfo` identity lookup are service I/O. Their answers are inputs (`Environment`).
- `txBuilder.verify` runs `FinanceContract`, which is not part of this model. It is a boolean outcome. `TransactionBuilder`'s check that the input's notary matches is modelled (`AddInputState`). Its other checks are left out.
- Cryptographic signing is not modelled. A signature is the signer's key appended to the transaction.
- The internals of `CollectSignaturesFlow`, `SignTransactionFlow` and `FinalityFlow` are not modelled: sessions, the counterparty's own verification, notarisation, recording in both vaults and consuming the input. Each is a success-or-failure input. The only exception is the acceptor's `checkTransaction`, which is modelled.
- The idempotence of finality and the race between two proposals for the same record are left out. Both are the notary's and the vault's behaviour, not this code's.
- Fiber suspension (`@Suspendable`) and concurrent flows on the same record are left out, because they concern concurrency.
- Console output (`printStackTrace`, `System.out.println`) is left out.
- The child progress trackers of GATHERING_SIGS and FINALISING are left out. The tracker is modelled as the history of steps it was set to.
- The tracker declares its steps in the order VERIFYING, SIGNING, LOAN_ELIGIBILITY_RESPONSE, GATHERING_SIGS, FINALISING, after its own UNSTARTED step. The flow's second move, from LOAN_ELIGIBILITY_RESPONSE to VERIFYING, goes backwards in that list (`Pipeline.OnlySecondMoveGoesBack`). The tracker's own rules for a backward move are not modelled. The history records every step it is set to.
- The value of `FinanceContract.TEMPLATE_CONTRACT_ID` is defined outside this model. It is an unspecified constant string.
- The class hierarchy between `BankAndCreditState` and `FinanceAndBankState` is not part of this model. It is a flag in `Environment`, and a `ContractState` carries the "is a `FinanceAndBankState`" flag.
- `null` is modelled only where the code tests it or dereferences it: the vault list, the linear id's external id, and the `linearId`/`id` fields. The linear id of a stored record, the parties and the company name are taken to be non-null.
- When a `requireThat` condition fails, Corda adds its own "Failed requirement: " prefix to the message. `RequirementFailed` carries the requirement's own message without that prefix.
- `amount` is a 32-bit `int32`. The flow only copies it, so there is no arithmetic to wrap.

## Findings

| source | as written | input that shows it | evidently intended | confidence | as-written member | corrected member |
|---|---|---|---|---|---|---|
| java-source/src/main/java/com/example/flow/CreditAgencyBankNotificationFlow.java:74-95 | The "State Cannot be found" exception is caught, printed and ignored. The flow goes on to the notary lookup, announces LOAN_ELIGIBILITY_RESPONSE and looks up the identity. It then calls `inputStateList.get(0)` on the empty list, or on `null` if the query threw. | An empty vault list, with one notary and one identity. The run fails with an index-out-of-bounds error after one step. | Abort with "State Cannot be found" before any step. | high; not executed | `Flow.EmptyVaultFailsAtDereference` | `Flow.ExecuteIntended` |
| java-source/src/main/java/com/example/flow/CreditAgencyBankNotificationFlow.java:147-148 | The requirement checks `instanceof FinanceAndBankState`, but the next line casts to `BankAndCreditState`. | Output 0 is a `FinanceAndBankState` that is not a `BankAndCreditState` (`OtherState(true)`). It passes the requirement and then fails at the cast. And if `BankAndCreditState` is not a `FinanceAndBankState`, every proposal is rejected. | Require `output instanceof BankAndCreditState`. | medium (the class hierarchy is not shown); not executed | `Acceptor.FinanceOnlyOutputFailsAtCast` | `Acceptor.CheckTransactionIntended` |

`Flow.Initiator.Call` and its specification `Flow.Execute` keep the behaviour
as written, because they model the code. The corrected definitions sit beside
them, with their intended properties proved: `Flow.ExecuteIntended` and
`Flow.IntendedCheckAcceptsProposal`.
