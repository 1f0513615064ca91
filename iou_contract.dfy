// The IOU contract's verification: one command of the contract must be
// present, and the rules of that command must all hold. Each `requireThat`
// clause becomes a `Check`; the clauses are evaluated in order and the first
// one that fails is the verdict.

module IOUContract {
  import opened Ledger
  import opened IOUSpec

  /** The rules the contract names, one per `requireThat` clause. */
  datatype Rule =
    // Issue
    | IssueConsumesNothing
    | IssueCreatesOne
    | IssuePositiveAmount
    | IssueDistinctParties
    | IssueSigners
    // Transfer
    | TransferConsumesOne
    | TransferCreatesOne
    | TransferOnlyLenderChanges
    | TransferLenderChanges
    | TransferSigners
    // Settle
    | SettleOneInputIOU
    | SettleOutputCash
    | SettleCashToLender
    | SettleNoOverpayment
    | SettleNoOutputWhenSettled
    | SettleOneOutputIOU
    | SettleAmountUnchanged
    | SettleBorrowerUnchanged
    | SettleLenderUnchanged
    | SettleSigners

  /** Why a transaction is rejected: a named rule, or a shape the contract
      cannot even read. */
  datatype Failure =
    | NotSingleCommand     // not exactly one command of this contract
    | NotAnIOU             // a state cast to an IOU is something else
    | NotSingleGroup       // the IOU states do not form exactly one lineage
    | NegativeAmount       // the outstanding amount would be negative
    | Violated(rule: Rule) // a requirement does not hold

  datatype Verdict = Accepted | Rejected(failure: Failure)

  /** One requirement, evaluated: whether it holds, and what is reported if not. */
  datatype Check = Check(holds: bool, failure: Failure)

  /** The message the contract gives for each rule: a verdict names the rule,
      and this table ties each rule to the text the contract reports. */
  function Message(rule: Rule): string {
    match rule
    case IssueConsumesNothing => "No inputs should be consumed when issuing an IOU."
    case IssueCreatesOne => "Only one output state should be created when issuing an IOU."
    case IssuePositiveAmount => "A newly issued IOU must have a positive amount."
    case IssueDistinctParties => "The lender and borrower cannot have the same identity."
    case IssueSigners => "Both lender and borrower together only may sign IOU issue transaction."
    case TransferConsumesOne => "An IOU transfer transaction should only consume one input state."
    case TransferCreatesOne => "An IOU transfer transaction should only create one output state."
    case TransferOnlyLenderChanges => "Only the lender property may change."
    case TransferLenderChanges => "The lender property must change in a transfer."
    case TransferSigners => "The borrower, old lender and new lender only must sign an IOU transfer transaction"
    case SettleOneInputIOU => "There must be one input IOU."
    case SettleOutputCash => "There must be output cash."
    case SettleCashToLender => "There must be output cash paid to the recipient."
    case SettleNoOverpayment => "The amount settled cannot be more than the amount outstanding."
    case SettleNoOutputWhenSettled => "There must be no output IOU as it has been fully settled."
    case SettleOneOutputIOU => "There must be one output IOU."
    case SettleAmountUnchanged => "The amount may not change when settling."
    case SettleBorrowerUnchanged => "The borrower may not change when settling."
    case SettleLenderUnchanged => "The lender may not change when settling."
    case SettleSigners => "Both lender and borrower together only must sign IOU settle transaction."
  }

  predicate AllHold(checks: seq<Check>) {
    forall c :: c in checks ==> c.holds
  }

  /** Check `i` fails and every check before it holds. */
  predicate FirstFailing(checks: seq<Check>, i: nat)
    requires i < |checks|
  {
    !checks[i].holds && forall j :: 0 <= j < i ==> checks[j].holds
  }

  /** Evaluate requirements in order, stopping at the first that fails
      (a `requireThat` block, and consecutive blocks). */
  function RequireThat(checks: seq<Check>): (verdict: Verdict)
    ensures verdict == Accepted <==> AllHold(checks)
    ensures verdict.Rejected? ==>
      exists i :: 0 <= i < |checks| && FirstFailing(checks, i) && verdict.failure == checks[i].failure
  {
    if checks == [] then Accepted
    else if !checks[0].holds then Rejected(checks[0].failure)
    else
      var rest := RequireThat(checks[1..]);
      assert forall i :: 1 <= i < |checks| ==> checks[i] == checks[1..][i - 1];
      rest
  }

  /** Whenever some requirement fails, the verdict reports the first one that
      fails, and nothing else. */
  lemma {:induction false} RequireThatReportsFirstFailing(checks: seq<Check>, i: nat)
    requires i < |checks| && FirstFailing(checks, i)
    ensures RequireThat(checks) == Rejected(checks[i].failure)
  {
    if i > 0 {
      assert checks[0].holds;
      assert FirstFailing(checks[1..], i - 1) by {
        forall j | 0 <= j < i - 1
          ensures checks[1..][j].holds
        {
          assert checks[1..][j] == checks[j + 1];
        }
      }
      RequireThatReportsFirstFailing(checks[1..], i - 1);
    }
  }

  /** Requirements that all hold, put before others, move the first failing
      one along. */
  lemma FirstFailingAfter(prefix: seq<Check>, rest: seq<Check>, i: nat)
    requires AllHold(prefix)
    requires i < |rest| && FirstFailing(rest, i)
    ensures FirstFailing(prefix + rest, |prefix| + i)
  {
    var all := prefix + rest;
    forall j | 0 <= j < |prefix| + i
      ensures all[j].holds
    {
      if j < |prefix| {
        assert all[j] == prefix[j] && prefix[j] in prefix;
      } else {
        assert all[j] == rest[j - |prefix|];
      }
    }
  }

  /** Requirements that all hold, put before others, leave the verdict to the
      first of the others that fails. */
  lemma RequireThatAfterHolding(prefix: seq<Check>, rest: seq<Check>, i: nat)
    requires AllHold(prefix)
    requires i < |rest| && FirstFailing(rest, i)
    ensures RequireThat(prefix + rest) == Rejected(rest[i].failure)
  {
    FirstFailingAfter(prefix, rest, i);
    assert (prefix + rest)[|prefix| + i] == rest[i];
    RequireThatReportsFirstFailing(prefix + rest, |prefix| + i);
  }

  /** The requirements of an Issue, in the contract's order. */
  function IssueChecks(tx: LedgerTransaction, signers: seq<PublicKey>): (checks: seq<Check>)
    ensures forall c :: c in checks ==> c.failure != NotSingleCommand
  {
    var outs := tx.outputStates;
    [ Check(|tx.inputStates| == 0, Violated(IssueConsumesNothing)),
      Check(|outs| == 1, Violated(IssueCreatesOne)) ] +
    if |outs| != 1 then [] else
    [ Check(outs[0].IOU?, NotAnIOU) ] +
    if !outs[0].IOU? then [] else
    var state := outs[0].iou;
    [ Check(state.amount > 0, Violated(IssuePositiveAmount)),
      Check(state.borrower != state.lender, Violated(IssueDistinctParties)),
      Check(ToSet(signers) == OwningKeys(state.Participants()), Violated(IssueSigners)) ]
  }

  /** The Issue clauses all hold exactly when the Issue is valid. */
  lemma IssueChecksMeetSpec(tx: LedgerTransaction, signers: seq<PublicKey>)
    ensures AllHold(IssueChecks(tx, signers)) <==> IssueValid(tx, signers)
  {
  }

  /** The requirements of a Transfer, in the contract's order. */
  function TransferChecks(tx: LedgerTransaction, signers: seq<PublicKey>): (checks: seq<Check>)
    ensures forall c :: c in checks ==> c.failure != NotSingleCommand
  {
    var ins := tx.inputStates;
    var outs := tx.outputStates;
    [ Check(|ins| == 1, Violated(TransferConsumesOne)),
      Check(|outs| == 1, Violated(TransferCreatesOne)) ] +
    if |ins| != 1 || |outs| != 1 then [] else
    [ Check(ins[0].IOU?, NotAnIOU) ] +
    if !ins[0].IOU? then [] else
    [ Check(outs[0].IOU?, NotAnIOU) ] +
    if !outs[0].IOU? then [] else
    var input := ins[0].iou;
    var output := outs[0].iou;
    [ Check(input == output.WithNewLender(input.lender), Violated(TransferOnlyLenderChanges)),
      Check(input.lender != output.lender, Violated(TransferLenderChanges)),
      Check(ToSet(signers) == OwningKeys(input.Participants()) + OwningKeys(output.Participants()),
            Violated(TransferSigners)) ]
  }

  /** The Transfer clauses all hold exactly when the Transfer is valid. */
  lemma TransferChecksMeetSpec(tx: LedgerTransaction, signers: seq<PublicKey>)
    ensures AllHold(TransferChecks(tx, signers)) <==> TransferValid(tx, signers)
  {
  }

  /** The requirements of a Settle, in the contract's order: the IOU states
      form one lineage with one input, then the payment rules hold. */
  function SettleChecks(tx: LedgerTransaction, signers: seq<PublicKey>): (checks: seq<Check>)
    ensures forall c :: c in checks ==> c.failure != NotSingleCommand
  {
    var groups := GroupStates(tx);
    var checks :=
      [ Check(|groups| == 1, NotSingleGroup) ] +
      if |groups| != 1 then [] else
      var ious := groups[0];
      [ Check(|ious.inputs| == 1, Violated(SettleOneInputIOU)) ] +
      if |ious.inputs| != 1 then [] else
      PaymentChecks(ious.inputs[0], ious.outputs, CashOf(tx.outputStates), signers);
    checks
  }

  /** When the IOU states are one lineage with one input, the Settle clauses
      are the two lineage clauses, both holding, then the payment clauses. */
  lemma SettleChecksOfOneLineage(tx: LedgerTransaction, signers: seq<PublicKey>)
    requires |IOUsOf(tx.inputStates)| == 1
    requires OneLineage(IOUsOf(tx.outputStates), IOUsOf(tx.inputStates)[0].linearId)
    ensures SettleChecks(tx, signers) ==
      [ Check(true, NotSingleGroup), Check(true, Violated(SettleOneInputIOU)) ] +
      PaymentChecks(IOUsOf(tx.inputStates)[0], IOUsOf(tx.outputStates), CashOf(tx.outputStates), signers)
  {
    var groups := GroupStates(tx);
    assert |groups| == 1 && groups[0].inputs == IOUsOf(tx.inputStates)
        && groups[0].outputs == IOUsOf(tx.outputStates) by {
      SingleGroupOneInput(tx);
    }
  }

  lemma SettleChecksMeetSpec(tx: LedgerTransaction, signers: seq<PublicKey>)
    ensures AllHold(SettleChecks(tx, signers)) <==> SettleValid(tx, signers)
  {
    SingleGroupOneInput(tx);
    var groups := GroupStates(tx);
    var ins := IOUsOf(tx.inputStates);
    var outs := IOUsOf(tx.outputStates);
    var checks := SettleChecks(tx, signers);
    if |groups| == 1 && |groups[0].inputs| == 1 {
      var payment := PaymentChecks(ins[0], outs, CashOf(tx.outputStates), signers);
      PaymentChecksMeetSpec(ins[0], outs, CashOf(tx.outputStates), signers);
      assert checks == [ Check(true, NotSingleGroup) ] + ([ Check(true, Violated(SettleOneInputIOU)) ] + payment);
    } else {
      assert !SettleValid(tx, signers);
      assert !AllHold(checks);
    }
  }

  /** The Settle requirements once the lineage's one input IOU is known: cash
      is paid to its lender, no more than is outstanding, and the successor IOU
      (none when the debt is cleared) keeps amount and parties. The
      outstanding amount is an amount, so it may not go negative. */
  function PaymentChecks(input: IOUState, outputIous: seq<IOUState>, cash: seq<CashState>,
                         signers: seq<PublicKey>): (checks: seq<Check>)
    ensures forall c :: c in checks ==> c.failure != NotSingleCommand
  {
    var acceptableCash := PaidTo(cash, input.lender);
    var sumAcceptableCash := SumCash(acceptableCash);
    var amountOutstanding := input.amount - input.paid;
    [ Check(|cash| > 0, Violated(SettleOutputCash)),
      Check(|acceptableCash| > 0, Violated(SettleCashToLender)),
      Check(amountOutstanding >= 0, NegativeAmount),
      Check(amountOutstanding >= sumAcceptableCash, Violated(SettleNoOverpayment)) ] +
    (if amountOutstanding == sumAcceptableCash then
       [ Check(|outputIous| == 0, Violated(SettleNoOutputWhenSettled)) ]
     else
       [ Check(|outputIous| == 1, Violated(SettleOneOutputIOU)) ] +
       if |outputIous| != 1 then [] else
       var outputIou := outputIous[0];
       [ Check(input.amount == outputIou.amount, Violated(SettleAmountUnchanged)),
         Check(input.borrower == outputIou.borrower, Violated(SettleBorrowerUnchanged)),
         Check(input.lender == outputIou.lender, Violated(SettleLenderUnchanged)) ]) +
    [ Check(ToSet(signers) == OwningKeys(input.Participants()), Violated(SettleSigners)) ]
  }

  /** The payment clauses all hold exactly when the payment is valid. */
  lemma PaymentChecksMeetSpec(input: IOUState, outputIous: seq<IOUState>, cash: seq<CashState>,
                              signers: seq<PublicKey>)
    ensures AllHold(PaymentChecks(input, outputIous, cash, signers)) <==>
      PaymentValid(input, outputIous, cash, signers)
  {
  }

  /** The verdict for one command of the contract: its clauses, in order. A
      command of the interface that none of the three branches names has no
      clauses, so nothing is checked for it. */
  function VerifyCommand(tx: LedgerTransaction, command: Commands, signers: seq<PublicKey>): (verdict: Verdict)
    ensures verdict != Rejected(NotSingleCommand)
  {
    match command
    case Issue => RequireThat(IssueChecks(tx, signers))
    case Transfer => RequireThat(TransferChecks(tx, signers))
    case Settle => RequireThat(SettleChecks(tx, signers))
    case Unlisted(_) => Accepted
  }

  /** With a single command of this contract, the verdict is that command's. */
  lemma VerifySingleCommand(tx: LedgerTransaction, command: Commands, signers: seq<PublicKey>)
    requires IOUCommands(tx.commands) == [Command(IOUCommand(command), signers)]
    ensures Verify(tx) == VerifyCommand(tx, command, signers)
  {
  }

  /** The contract's verdict on a transaction: exactly one command of this
      contract must be present, and then its clauses decide. */
  function Verify(tx: LedgerTransaction): (verdict: Verdict)
    ensures verdict == Rejected(NotSingleCommand) <==> |IOUCommands(tx.commands)| != 1
  {
    var commands := IOUCommands(tx.commands);
    if |commands| != 1 then Rejected(NotSingleCommand)
    else
      assert commands[0] in commands;
      VerifyCommand(tx, commands[0].value.value, commands[0].signers)
  }
}
