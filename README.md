# IOU contract, modelled in Dafny

This project models the verification logic of the Corda training IOU contract
(`IOUContract.verify`). A ledger transaction consumes input states and creates
output states. Some of those states are IOUs: an amount owed by a borrower to
a lender, of which some part has been paid, identified across versions by a
linear id. The others are cash. The transaction also carries commands, each
signed by some keys.

The contract demands exactly one command of its own command interface,
which declares `Issue`, `Transfer` and `Settle`. It then checks that
command's rules in a fixed order. It rejects
the transaction at the first rule that fails.

The model is pure: data types and functions, plus lemmas about them.

- `ledger.dfy` (module `Ledger`) holds the transaction data. It also holds the
  platform operations the contract calls, each reduced to the plain operation
  the contract relies on:
  - command selection by type;
  - selection of states by type;
  - grouping of IOU states by linear id;
  - cash summation.
- `iou_contract.dfy` (module `IOUContract`) holds the contract. Every
  `requireThat ... using` clause becomes a `Check`: whether it holds, and the
  failure reported when it does not. `RequireThat` evaluates a list of checks
  in order. `Verify` gives the verdict: `Accepted`, or `Rejected` with the
  first failure.
- Failures come in two kinds:
  - rule violations, one per clause of the source;
  - structural failures, for a transaction the contract cannot read:
    - not exactly one command of the contract;
    - a state cast to an IOU that is not one;
    - IOU states that do not form exactly one lineage;
    - an outstanding amount that would be negative.
  `Message` gives the text the source reports for each rule.
- `iou_spec.dfy` (module `IOUSpec`) states the same rules as flat predicates,
  with no ordering. These are `IssueValid`, `TransferValid`, `PaymentValid`,
  `SettleValid` and `Valid`. Lemmas prove that the ordered clauses all hold
  exactly when these predicates hold.
- `iou_properties.dfy` (module `IOUContractProperties`) proves what the
  contract accepts, what it rejects and with which failure, and what it
  ignores:
  - signer order and repetition;
  - commands of other contracts;
  - cash paid to others;
  - the `paid` field of the successor IOU.
- `iou_scenarios.dfy` (module `IOUScenarios`) checks concrete transactions
  over one IOU of 100 owed by X to A. The IOU is issued and transferred to B.
  The IOU as issued, still owed to A, is settled in full or in part.
  Overpayment, a wrong payee and a command with no branch are also covered.

Behaviour of the code worth noting:

- **First failure only.** The contract stops at the first failing clause and
  reports only that one.
- **Commands of other contracts.** The single-command requirement counts only
  this contract's commands. Commands of other contracts, such as the cash
  contract's, are ignored. `ForeignCommandIgnored` proves this.
- **Commands with no branch.** The command interface is open, and the
  contract's `when` has no `else` branch. A single command of the interface
  that is not `Issue`, `Transfer` or `Settle` is accepted with no clause
  checked. The model carries such commands as `Unlisted`;
  `UnlistedCommandAccepted` proves they are accepted.
- **`paid` never checked on issue.** `IssueOverpaidAccepted` shows that an IOU
  whose `paid` exceeds its `amount` can be issued.
- **New lender may be the borrower.** Nothing keeps the new lender of a
  Transfer apart from the borrower. `TransferToBorrowerAccepted` shows this.
- **Successor `paid` not rederived.** A partial Settle does not rederive the
  successor's `paid` from the cash paid. `SettleIgnoresSuccessorPaid` shows
  this.

Three modelling decisions:

- **Party equality.** Parties are identified by their owning key, as party
  equality is key equality in Corda.
- **Quantities.** Amounts are natural numbers in one currency.
- **Negative outstanding amount.** Subtracting `paid` from `amount` fails when
  the result would be negative, because an amount cannot be negative. The
  model reports this as the structural failure `NegativeAmount`. It comes
  after the clause that requires cash paid to the lender and before the
  overpayment clause, where the subtraction occurs in the source.

## Model

All source paths are under `kotlin-source/src/main/kotlin/net/corda/training/contract/`.

| member | source | states |
|---|---|---|
| Ledger.IOUCommands | kotlin-source/src/main/kotlin/net/corda/training/contract/IOUContract.kt:24-31 | the commands considered are exactly those of the contract's command interface (Issue, Transfer, Settle or any other implementation), in order |
| Ledger.IOUsOf | kotlin-source/src/main/kotlin/net/corda/training/contract/IOUContract.kt:59 | the IOU states of a list are exactly its states of the IOU type |
| Ledger.CashOf | kotlin-source/src/main/kotlin/net/corda/training/contract/IOUContract.kt:61 | the cash outputs are exactly the outputs of the cash type |
| Ledger.PaidTo | kotlin-source/src/main/kotlin/net/corda/training/contract/IOUContract.kt:63 | the acceptable cash is exactly the cash whose owner is the given lender |
| Ledger.SumCash | kotlin-source/src/main/kotlin/net/corda/training/contract/IOUContract.kt:65 | the sum of no cash is 0, and the sum of the acceptable cash is at least each of its amounts |
| Ledger.Distinct | kotlin-source/src/main/kotlin/net/corda/training/contract/IOUContract.kt:59 | the grouping keys are the linear ids that occur, each exactly once |
| Ledger.GroupStates | kotlin-source/src/main/kotlin/net/corda/training/contract/IOUContract.kt:59 | grouping by linear id never repeats a key |
| Ledger.GroupsCoverStates | kotlin-source/src/main/kotlin/net/corda/training/contract/IOUContract.kt:59 | every IOU input and output has its linear id as the key of some group |
| Ledger.GroupKeysOccur | kotlin-source/src/main/kotlin/net/corda/training/contract/IOUContract.kt:59 | every group key is the linear id of some IOU input or output |
| Ledger.GroupContents | kotlin-source/src/main/kotlin/net/corda/training/contract/IOUContract.kt:59 | a group's inputs are exactly the IOU inputs carrying its key, and its outputs exactly the IOU outputs carrying its key |
| Ledger.LinearIdsOccur | kotlin-source/src/main/kotlin/net/corda/training/contract/IOUContract.kt:59 | the linear ids listed are exactly those the IOU states carry |
| Ledger.WithLinearIdOfOneLineage | kotlin-source/src/main/kotlin/net/corda/training/contract/IOUContract.kt:59 | the group of an id that every state carries holds all the states, in order |
| Ledger.SingleDistinctId | kotlin-source/src/main/kotlin/net/corda/training/contract/IOUContract.kt:59 | there is exactly one grouping key iff there is some IOU state and all share one linear id |
| Ledger.SingleGroup | kotlin-source/src/main/kotlin/net/corda/training/contract/IOUContract.kt:59 | `single()` on the groups succeeds iff all IOU states of the transaction share one linear id; the group then holds all IOU inputs and all IOU outputs |
| Ledger.OneInputLineage | kotlin-source/src/main/kotlin/net/corda/training/contract/IOUContract.kt:59-60 | with one input, all IOU states share the first one's id iff every output carries the input's id |
| Ledger.SingleGroupOneInput | kotlin-source/src/main/kotlin/net/corda/training/contract/IOUContract.kt:59-60 | a single group with a single input exists iff there is exactly one IOU input and every IOU output carries its linear id |
| Ledger.SumCashOne | kotlin-source/src/main/kotlin/net/corda/training/contract/IOUContract.kt:65 | the sum of one cash state is its amount |
| Ledger.SumCashAppend | kotlin-source/src/main/kotlin/net/corda/training/contract/IOUContract.kt:65 | the sum of concatenated cash is the sum of the sums |
| Ledger.IOUCommandsAppend | kotlin-source/src/main/kotlin/net/corda/training/contract/IOUContract.kt:39 | selecting the contract's commands distributes over concatenation |
| Ledger.IOUsOfAppend | kotlin-source/src/main/kotlin/net/corda/training/contract/IOUContract.kt:59 | selecting IOU states distributes over concatenation |
| Ledger.CashOfAppend | kotlin-source/src/main/kotlin/net/corda/training/contract/IOUContract.kt:61 | selecting cash states distributes over concatenation |
| Ledger.PaidToAppend | kotlin-source/src/main/kotlin/net/corda/training/contract/IOUContract.kt:63 | selecting the lender's cash distributes over concatenation |
| IOUContract.RequireThat | kotlin-source/src/main/kotlin/net/corda/training/contract/IOUContract.kt:41-48 | a block of clauses accepts iff every clause holds; a rejection reports a clause that fails while every earlier clause holds |
| IOUContract.RequireThatReportsFirstFailing | kotlin-source/src/main/kotlin/net/corda/training/contract/IOUContract.kt:41-48 | the failure reported is that of the first failing clause, whichever it is |
| IOUContract.FirstFailingAfter | kotlin-source/src/main/kotlin/net/corda/training/contract/IOUContract.kt:58-81 | clauses that all hold, evaluated first, leave the first failing clause of the next blocks first |
| IOUContract.RequireThatAfterHolding | kotlin-source/src/main/kotlin/net/corda/training/contract/IOUContract.kt:58-81 | after blocks that hold, the verdict is the first failure of the following clauses |
| IOUContract.IssueChecks | kotlin-source/src/main/kotlin/net/corda/training/contract/IOUContract.kt:41-48 | the Issue clauses never report the command-count failure, which only the command selection raises |
| IOUContract.IssueChecksMeetSpec | kotlin-source/src/main/kotlin/net/corda/training/contract/IOUContract.kt:41-48 | the Issue clauses all hold iff there is no input, there is exactly one output, it is an IOU of positive amount with lender and borrower distinct, and the signers are exactly lender and borrower |
| IOUContract.TransferChecks | kotlin-source/src/main/kotlin/net/corda/training/contract/IOUContract.kt:49-57 | the Transfer clauses never report the command-count failure |
| IOUContract.TransferChecksMeetSpec | kotlin-source/src/main/kotlin/net/corda/training/contract/IOUContract.kt:49-57 | the Transfer clauses all hold iff one IOU input and one IOU output agree in amount, paid, borrower and linear id, the lender differs, and the signers are exactly old lender, borrower and new lender |
| IOUContract.SettleChecks | kotlin-source/src/main/kotlin/net/corda/training/contract/IOUContract.kt:58-82 | the Settle clauses never report the command-count failure |
| IOUContract.SettleChecksOfOneLineage | kotlin-source/src/main/kotlin/net/corda/training/contract/IOUContract.kt:59-60 | with one IOU input and every IOU output in its lineage, the group and input clauses hold and the payment clauses follow on all IOU inputs and outputs |
| IOUContract.SettleChecksMeetSpec | kotlin-source/src/main/kotlin/net/corda/training/contract/IOUContract.kt:58-82 | the Settle clauses all hold iff there is exactly one IOU input, every IOU output continues its lineage, and the payment is valid |
| IOUContract.PaymentChecks | kotlin-source/src/main/kotlin/net/corda/training/contract/IOUContract.kt:61-81 | the payment clauses never report the command-count failure |
| IOUContract.PaymentChecksMeetSpec | kotlin-source/src/main/kotlin/net/corda/training/contract/IOUContract.kt:61-81 | the payment clauses all hold iff some cash goes to the lender, paid plus that cash does not exceed the amount, a cleared debt leaves no IOU and an uncleared one leaves one IOU with the same amount, borrower and lender, and the signers are exactly lender and borrower |
| IOUContract.VerifyCommand | kotlin-source/src/main/kotlin/net/corda/training/contract/IOUContract.kt:40-83 | the clauses of a command never report the command-count failure |
| IOUContract.VerifySingleCommand | kotlin-source/src/main/kotlin/net/corda/training/contract/IOUContract.kt:39-40 | with exactly one command of the contract, that command's clauses decide the verdict |
| IOUContract.Verify | kotlin-source/src/main/kotlin/net/corda/training/contract/IOUContract.kt:39 | the transaction is rejected for its commands, before any rule, iff it does not carry exactly one command of the contract |
| IOUContractProperties.VerifyAcceptsValid | kotlin-source/src/main/kotlin/net/corda/training/contract/IOUContract.kt:37-84 | the contract accepts a transaction iff it carries exactly one command of the contract and is valid for that command |
| IOUContractProperties.TransferChangesOnlyLender | kotlin-source/src/main/kotlin/net/corda/training/contract/IOUContract.kt:49-57 | an accepted Transfer has one IOU input and one IOU output that differ in the lender only, the lender changes, and old lender, borrower and new lender sign |
| IOUContractProperties.TransferRejectsOtherChanges | kotlin-source/src/main/kotlin/net/corda/training/contract/IOUContract.kt:54 | a Transfer whose output differs from its input in a field other than the lender is rejected with the only-the-lender rule |
| IOUContractProperties.TransferRejectsNoOp | kotlin-source/src/main/kotlin/net/corda/training/contract/IOUContract.kt:55 | a Transfer whose output is its input is rejected with the lender-must-change rule |
| IOUContractProperties.IOUCommandsUpToSignerOrder | kotlin-source/src/main/kotlin/net/corda/training/contract/IOUContract.kt:39 | commands that agree up to signer order select to commands that agree up to signer order |
| IOUContractProperties.ChecksSeeSignerSet | kotlin-source/src/main/kotlin/net/corda/training/contract/IOUContract.kt:47 | the clauses of every command depend on the signers only through their set |
| IOUContractProperties.SignerOrderIrrelevant | kotlin-source/src/main/kotlin/net/corda/training/contract/IOUContract.kt:56 | the order and repetition of signers never change the verdict |
| IOUContractProperties.ForeignCommandIgnored | kotlin-source/src/main/kotlin/net/corda/training/contract/IOUContract.kt:39 | adding a command of another contract anywhere never changes the verdict |
| IOUContractProperties.UnlistedCommandAccepted | kotlin-source/src/main/kotlin/net/corda/training/contract/IOUContract.kt:40-83 | a single command of the interface other than Issue, Transfer and Settle is accepted whatever the states and signers |
| IOUContractProperties.SettleNeverOverpays | kotlin-source/src/main/kotlin/net/corda/training/contract/IOUContract.kt:61-67 | an accepted Settle consumes one IOU and pays its lender some cash, at most the outstanding amount |
| IOUContractProperties.SettleChecksReportPaymentFailure | kotlin-source/src/main/kotlin/net/corda/training/contract/IOUContract.kt:59-81 | over one lineage with one input, the Settle clauses report the first payment clause that fails |
| IOUContractProperties.SettleReportsPaymentFailure | kotlin-source/src/main/kotlin/net/corda/training/contract/IOUContract.kt:58-82 | a Settle over one lineage with one input is rejected with its first failing payment clause |
| IOUContractProperties.SettleRejectsNoCash | kotlin-source/src/main/kotlin/net/corda/training/contract/IOUContract.kt:62 | a Settle with no cash output is rejected with the output-cash rule |
| IOUContractProperties.PaymentRejectsWrongPayee | kotlin-source/src/main/kotlin/net/corda/training/contract/IOUContract.kt:62-64 | cash, none of it to the lender, makes the acceptable-cash clause the first to fail |
| IOUContractProperties.SettleRejectsWrongPayee | kotlin-source/src/main/kotlin/net/corda/training/contract/IOUContract.kt:63-64 | a Settle whose cash goes only to others than the lender is rejected with the cash-to-recipient rule |
| IOUContractProperties.PaymentRejectsOverpayment | kotlin-source/src/main/kotlin/net/corda/training/contract/IOUContract.kt:65-67 | paying the lender more than is outstanding makes the overpayment clause the first to fail |
| IOUContractProperties.SettleRejectsOverpayment | kotlin-source/src/main/kotlin/net/corda/training/contract/IOUContract.kt:65-67 | a Settle that pays the lender more than is outstanding is rejected with the overpayment rule, whatever IOU it creates |
| IOUContractProperties.PaymentRejectsLeftoverIOU | kotlin-source/src/main/kotlin/net/corda/training/contract/IOUContract.kt:68-69 | clearing the debt while an IOU remains makes the no-output clause the first to fail |
| IOUContractProperties.SettleRejectsLeftoverIOU | kotlin-source/src/main/kotlin/net/corda/training/contract/IOUContract.kt:68-69 | a Settle that clears the debt but creates an IOU of the lineage is rejected with the no-output rule |
| IOUContractProperties.FullSettlementEndsLineage | kotlin-source/src/main/kotlin/net/corda/training/contract/IOUContract.kt:68-69 | an accepted Settle that clears the debt creates no IOU at all |
| IOUContractProperties.PartialSettlementKeepsTerms | kotlin-source/src/main/kotlin/net/corda/training/contract/IOUContract.kt:70-78 | an accepted Settle that does not clear the debt creates exactly one IOU, in the same lineage, with the same amount, borrower and lender |
| IOUContractProperties.PaymentChecksSeeLenderCash | kotlin-source/src/main/kotlin/net/corda/training/contract/IOUContract.kt:61-67 | the payment clauses see the cash only through whether there is any and what goes to the lender |
| IOUContractProperties.SettleChecksSeeLenderCash | kotlin-source/src/main/kotlin/net/corda/training/contract/IOUContract.kt:58-82 | the Settle clauses see the cash only through whether there is any and what goes to the lender of a consumed IOU |
| IOUContractProperties.InsertCashStates | kotlin-source/src/main/kotlin/net/corda/training/contract/IOUContract.kt:61 | inserting a cash output keeps the IOU outputs and adds that cash to the cash outputs at its place |
| IOUContractProperties.InsertCashToOther | kotlin-source/src/main/kotlin/net/corda/training/contract/IOUContract.kt:63 | inserting cash owned by someone else keeps the lender's cash |
| IOUContractProperties.SettleIgnoresCashToOthers | kotlin-source/src/main/kotlin/net/corda/training/contract/IOUContract.kt:61-65 | once there is some cash output, adding cash owned by anyone but the consumed IOU's lender never changes the verdict of a Settle |
| IOUContractProperties.WithLinearIdSameButPaid | kotlin-source/src/main/kotlin/net/corda/training/contract/IOUContract.kt:59 | grouping IOU lists that differ only in `paid` yields groups that differ only in `paid` |
| IOUContractProperties.PaymentChecksIgnorePaid | kotlin-source/src/main/kotlin/net/corda/training/contract/IOUContract.kt:68-78 | the payment clauses never read the `paid` field of an IOU output |
| IOUContractProperties.SettleChecksIgnoreOutputPaid | kotlin-source/src/main/kotlin/net/corda/training/contract/IOUContract.kt:58-82 | the Settle clauses never read the `paid` field of an IOU output |
| IOUContractProperties.InsertIOUStates | kotlin-source/src/main/kotlin/net/corda/training/contract/IOUContract.kt:59-61 | an IOU output is selected as an IOU at its place and adds nothing to the cash |
| IOUContractProperties.RepaidStates | kotlin-source/src/main/kotlin/net/corda/training/contract/IOUContract.kt:59-61 | changing the `paid` of an IOU output keeps the cash and changes the IOU outputs in `paid` only |
| IOUContractProperties.SameButPaidAround | kotlin-source/src/main/kotlin/net/corda/training/contract/IOUContract.kt:59 | lists differing in the `paid` of one element differ only in `paid` |
| IOUContractProperties.SettleIgnoresSuccessorPaid | kotlin-source/src/main/kotlin/net/corda/training/contract/IOUContract.kt:70-78 | changing the `paid` field of an IOU a Settle creates never changes the verdict |
| IOUScenarios.IssueAccepted | kotlin-source/src/main/kotlin/net/corda/training/contract/IOUContract.kt:41-48 | issuing 100 from X to A, signed by A and X, is accepted |
| IOUScenarios.IssueOverpaidAccepted | kotlin-source/src/main/kotlin/net/corda/training/contract/IOUContract.kt:41-48 | issuing an IOU whose `paid` exceeds its amount is accepted |
| IOUScenarios.IssueWithoutBorrowerRejected | kotlin-source/src/main/kotlin/net/corda/training/contract/IOUContract.kt:47 | issuing it signed by the lender alone is rejected with the signers rule |
| IOUScenarios.TransferAccepted | kotlin-source/src/main/kotlin/net/corda/training/contract/IOUContract.kt:49-57 | transferring it to B, signed by A, B and X, is accepted |
| IOUScenarios.TransferToBorrowerAccepted | kotlin-source/src/main/kotlin/net/corda/training/contract/IOUContract.kt:49-57 | transferring it to its own borrower is accepted |
| IOUScenarios.TransferChangingAmountRejected | kotlin-source/src/main/kotlin/net/corda/training/contract/IOUContract.kt:54 | transferring it while changing the amount is rejected with the only-the-lender rule |
| IOUScenarios.FullSettleAccepted | kotlin-source/src/main/kotlin/net/corda/training/contract/IOUContract.kt:58-82 | paying A 100 and creating no IOU is accepted |
| IOUScenarios.FullSettleKeepingIOURejected | kotlin-source/src/main/kotlin/net/corda/training/contract/IOUContract.kt:68-69 | paying A 100 and creating an IOU is rejected with the no-output rule |
| IOUScenarios.PartialSettleAccepted | kotlin-source/src/main/kotlin/net/corda/training/contract/IOUContract.kt:58-82 | paying A 40 and keeping the IOU is accepted |
| IOUScenarios.PartialSettleChangingAmountRejected | kotlin-source/src/main/kotlin/net/corda/training/contract/IOUContract.kt:74 | paying A 40 and lowering the IOU's amount to 90 is rejected with the amount rule |
| IOUScenarios.OverpaymentRejected | kotlin-source/src/main/kotlin/net/corda/training/contract/IOUContract.kt:67 | paying A 150 against 100 outstanding is rejected with the overpayment rule |
| IOUScenarios.UnlistedCommandUnchecked | kotlin-source/src/main/kotlin/net/corda/training/contract/IOUContract.kt:40-83 | an unsigned transaction paying A's IOU to someone else under a command with no branch is accepted |
| IOUScenarios.WrongPayeeRejected | kotlin-source/src/main/kotlin/net/corda/training/contract/IOUContract.kt:64 | paying 100 to someone other than A is rejected with the cash-to-recipient rule |

## Left out

- The platform types and helpers (`LedgerTransaction`, `requireSingleCommand`, `groupStates`, `outputsOfType`, `sumCash`, `withoutIssuer`, `Cash.State`) are platform code that is not part of this model. Each is modelled only as the operation the contract relies on. Group order, for example, never matters: `single()` rejects more than one group.
- Signature verification and key material: signers are opaque keys compared as sets.
- Currencies, issuers and token mismatches in `Amount`: quantities are natural numbers in one currency, so the exceptions a mismatch would raise are not modelled.
- The 64-bit range of `Amount` quantities and the overflow of cash summation: quantities are unbounded naturals.
- The `IOUState` class is not part of this model. Its fields are modelled as used here. `participants` is taken to be lender then borrower, and `withNewLender` to change the lender only.
- The exception messages of `requireSingleCommand`, of `single()` and of a failed cast are not modelled. They are reported as the structural failures `NotSingleCommand`, `NotSingleGroup` and `NotAnIOU`.
- The contract identifier `IOU_CONTRACT_ID` (line 16) is a name used by the platform to attach the contract. It plays no part in verification.
- Flows, persistence and consensus are outside the contract.
