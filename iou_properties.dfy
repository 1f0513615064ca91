// Properties of the IOU contract's verdict: which transactions it accepts,
// which failure it reports, and what it ignores.

module IOUContractProperties {
  import opened Ledger
  import opened IOUSpec
  import opened IOUContract

  /** The contract accepts a transaction exactly when it carries one IOU
      command and is valid for that command. */
  lemma VerifyAcceptsValid(tx: LedgerTransaction)
    ensures Verify(tx) == Accepted <==> Valid(tx)
  {
    var commands := IOUCommands(tx.commands);
    if |commands| == 1 {
      assert commands[0] in commands;
      var signers := commands[0].signers;
      match commands[0].value.value
      case Issue => IssueChecksMeetSpec(tx, signers);
      case Transfer => TransferChecksMeetSpec(tx, signers);
      case Settle => SettleChecksMeetSpec(tx, signers);
      case Unlisted(_) =>
    }
  }

  // ---------------------------------------------------------------- Transfer

  /** An accepted Transfer replaces one IOU by the same IOU owed to a new
      lender, and the old lender, the new lender and the borrower sign. */
  lemma TransferChangesOnlyLender(tx: LedgerTransaction, signers: seq<PublicKey>)
    requires IOUCommands(tx.commands) == [Command(IOUCommand(Transfer), signers)]
    requires Verify(tx) == Accepted
    ensures |tx.inputStates| == 1 && |tx.outputStates| == 1
    ensures tx.inputStates[0].IOU? && tx.outputStates[0].IOU?
    ensures var before := tx.inputStates[0].iou;
      var after := tx.outputStates[0].iou;
      && after == before.WithNewLender(after.lender)
      && after.lender != before.lender
      && ToSet(signers) == {before.lender.owningKey, before.borrower.owningKey, after.lender.owningKey}
  {
    VerifyAcceptsValid(tx);
  }

  /** A well-shaped Transfer whose output differs from its input in anything
      but the lender is rejected for that reason. */
  lemma TransferRejectsOtherChanges(tx: LedgerTransaction, signers: seq<PublicKey>)
    requires IOUCommands(tx.commands) == [Command(IOUCommand(Transfer), signers)]
    requires |tx.inputStates| == 1 && tx.inputStates[0].IOU?
    requires |tx.outputStates| == 1 && tx.outputStates[0].IOU?
    requires var before := tx.inputStates[0].iou;
      var after := tx.outputStates[0].iou;
      after != before.WithNewLender(after.lender)
    ensures Verify(tx) == Rejected(Violated(TransferOnlyLenderChanges))
  {
    var checks := TransferChecks(tx, signers);
    assert FirstFailing(checks, 4);
    RequireThatReportsFirstFailing(checks, 4);
  }

  /** A well-shaped Transfer whose output is its input is rejected: the lender
      must change. */
  lemma TransferRejectsNoOp(tx: LedgerTransaction, signers: seq<PublicKey>)
    requires IOUCommands(tx.commands) == [Command(IOUCommand(Transfer), signers)]
    requires |tx.inputStates| == 1 && tx.inputStates[0].IOU?
    requires tx.outputStates == tx.inputStates
    ensures Verify(tx) == Rejected(Violated(TransferLenderChanges))
  {
    var checks := TransferChecks(tx, signers);
    assert FirstFailing(checks, 5);
    RequireThatReportsFirstFailing(checks, 5);
  }

  // ------------------------------------------------------------------ Signers

  /** Two commands with the same data and the same set of signers. */
  predicate SameUpToSignerOrder(c: Command, d: Command) {
    c.value == d.value && ToSet(c.signers) == ToSet(d.signers)
  }

  /** Two command lists that agree position by position up to signer order. */
  predicate AllSameUpToSignerOrder(a: seq<Command>, b: seq<Command>) {
    |a| == |b| && forall i :: 0 <= i < |a| ==> SameUpToSignerOrder(a[i], b[i])
  }

  lemma {:induction false} IOUCommandsUpToSignerOrder(a: seq<Command>, b: seq<Command>)
    requires AllSameUpToSignerOrder(a, b)
    ensures AllSameUpToSignerOrder(IOUCommands(a), IOUCommands(b))
  {
    if a != [] {
      assert AllSameUpToSignerOrder(a[1..], b[1..]) by {
        forall i | 0 <= i < |a| - 1
          ensures SameUpToSignerOrder(a[1..][i], b[1..][i])
        {
          assert a[1..][i] == a[i + 1] && b[1..][i] == b[i + 1];
        }
      }
      IOUCommandsUpToSignerOrder(a[1..], b[1..]);
      assert SameUpToSignerOrder(a[0], b[0]);
    }
  }

  /** The clauses of each command see the transaction only through its
      states, and the signers only as a set. */
  lemma ChecksSeeSignerSet(tx: LedgerTransaction, other: LedgerTransaction,
                           s1: seq<PublicKey>, s2: seq<PublicKey>)
    requires other.inputStates == tx.inputStates && other.outputStates == tx.outputStates
    requires ToSet(s1) == ToSet(s2)
    ensures IssueChecks(tx, s1) == IssueChecks(other, s2)
    ensures TransferChecks(tx, s1) == TransferChecks(other, s2)
    ensures SettleChecks(tx, s1) == SettleChecks(other, s2)
  {
    var groups := GroupStates(tx);
    assert GroupStates(other) == groups;
    if |groups| == 1 && |groups[0].inputs| == 1 {
      var ious := groups[0];
      var cash := CashOf(tx.outputStates);
      assert PaymentChecks(ious.inputs[0], ious.outputs, cash, s1)
          == PaymentChecks(ious.inputs[0], ious.outputs, cash, s2);
    }
  }

  /** The verdict depends on the signers of a command only through their set:
      their order and repetitions do not matter. */
  lemma SignerOrderIrrelevant(tx: LedgerTransaction, other: LedgerTransaction)
    requires other.inputStates == tx.inputStates && other.outputStates == tx.outputStates
    requires AllSameUpToSignerOrder(tx.commands, other.commands)
    ensures Verify(other) == Verify(tx)
  {
    IOUCommandsUpToSignerOrder(tx.commands, other.commands);
    var mine := IOUCommands(tx.commands);
    var theirs := IOUCommands(other.commands);
    if |mine| == 1 {
      assert SameUpToSignerOrder(mine[0], theirs[0]);
      ChecksSeeSignerSet(tx, other, mine[0].signers, theirs[0].signers);
    }
  }

  /** Commands of other contracts do not affect the verdict. */
  lemma ForeignCommandIgnored(tx: LedgerTransaction, a: seq<Command>, b: seq<Command>, c: Command)
    requires c.value.OtherCommand?
    ensures Verify(tx.(commands := a + [c] + b)) == Verify(tx.(commands := a + b))
  {
    var with := tx.(commands := a + [c] + b);
    var without := tx.(commands := a + b);
    var commands := IOUCommands(without.commands);
    assert IOUCommands(with.commands) == commands by {
      IOUCommandsAppend(a + [c], b);
      IOUCommandsAppend(a, [c]);
      IOUCommandsAppend(a, b);
      assert IOUCommands([c]) == [];
    }
    if |commands| == 1 {
      var single := commands[0];
      assert single in commands;
      assert commands == [Command(IOUCommand(single.value.value), single.signers)];
      ChecksSeeSignerSet(with, without, single.signers, single.signers);
      VerifySingleCommand(with, single.value.value, single.signers);
      VerifySingleCommand(without, single.value.value, single.signers);
    }
  }

  /** A single command of the contract's interface other than Issue, Transfer
      and Settle is accepted whatever the states and signers: the contract's
      branches have no case for it. */
  lemma UnlistedCommandAccepted(tx: LedgerTransaction, tag: nat, signers: seq<PublicKey>)
    requires IOUCommands(tx.commands) == [Command(IOUCommand(Unlisted(tag)), signers)]
    ensures Verify(tx) == Accepted
  {
    VerifySingleCommand(tx, Unlisted(tag), signers);
  }

  // ------------------------------------------------------------------ Settle

  /** An accepted Settle consumes one IOU and pays its lender some cash, no
      more than is outstanding. */
  lemma SettleNeverOverpays(tx: LedgerTransaction, signers: seq<PublicKey>)
    requires IOUCommands(tx.commands) == [Command(IOUCommand(Settle), signers)]
    requires Verify(tx) == Accepted
    ensures |IOUsOf(tx.inputStates)| == 1
    ensures var input := IOUsOf(tx.inputStates)[0];
      var toLender := PaidTo(CashOf(tx.outputStates), input.lender);
      |toLender| > 0 && input.paid + SumCash(toLender) <= input.amount
  {
    VerifyAcceptsValid(tx);
  }

  /** Over one lineage with one input, the Settle clauses report the first
      payment clause that fails. */
  lemma SettleChecksReportPaymentFailure(tx: LedgerTransaction, signers: seq<PublicKey>, i: nat)
    requires |IOUsOf(tx.inputStates)| == 1
    requires OneLineage(IOUsOf(tx.outputStates), IOUsOf(tx.inputStates)[0].linearId)
    requires var payment := PaymentChecks(IOUsOf(tx.inputStates)[0], IOUsOf(tx.outputStates),
                                          CashOf(tx.outputStates), signers);
      i < |payment| && FirstFailing(payment, i)
    ensures RequireThat(SettleChecks(tx, signers))
         == Rejected(PaymentChecks(IOUsOf(tx.inputStates)[0], IOUsOf(tx.outputStates),
                                   CashOf(tx.outputStates), signers)[i].failure)
  {
    var prefix := [ Check(true, NotSingleGroup), Check(true, Violated(SettleOneInputIOU)) ];
    var payment := PaymentChecks(IOUsOf(tx.inputStates)[0], IOUsOf(tx.outputStates),
                                 CashOf(tx.outputStates), signers);
    assert SettleChecks(tx, signers) == prefix + payment by {
      SettleChecksOfOneLineage(tx, signers);
    }
    RequireThatAfterHolding(prefix, payment, i);
  }

  /** A Settle over one lineage with one input reports the first payment
      clause that fails. */
  lemma SettleReportsPaymentFailure(tx: LedgerTransaction, signers: seq<PublicKey>, i: nat)
    requires IOUCommands(tx.commands) == [Command(IOUCommand(Settle), signers)]
    requires |IOUsOf(tx.inputStates)| == 1
    requires OneLineage(IOUsOf(tx.outputStates), IOUsOf(tx.inputStates)[0].linearId)
    requires var payment := PaymentChecks(IOUsOf(tx.inputStates)[0], IOUsOf(tx.outputStates),
                                          CashOf(tx.outputStates), signers);
      i < |payment| && FirstFailing(payment, i)
    ensures Verify(tx) == Rejected(PaymentChecks(IOUsOf(tx.inputStates)[0], IOUsOf(tx.outputStates),
                                                 CashOf(tx.outputStates), signers)[i].failure)
  {
    SettleChecksReportPaymentFailure(tx, signers, i);
    VerifySingleCommand(tx, Settle, signers);
  }

  /** A Settle with no cash among its outputs is rejected for that reason. */
  lemma SettleRejectsNoCash(tx: LedgerTransaction, signers: seq<PublicKey>)
    requires IOUCommands(tx.commands) == [Command(IOUCommand(Settle), signers)]
    requires |IOUsOf(tx.inputStates)| == 1
    requires OneLineage(IOUsOf(tx.outputStates), IOUsOf(tx.inputStates)[0].linearId)
    requires CashOf(tx.outputStates) == []
    ensures Verify(tx) == Rejected(Violated(SettleOutputCash))
  {
    SettleReportsPaymentFailure(tx, signers, 0);
  }

  /** Cash, none of it to the lender, fails the second payment clause, and
      the first holds. */
  lemma PaymentRejectsWrongPayee(input: IOUState, outputIous: seq<IOUState>, cash: seq<CashState>,
                                 signers: seq<PublicKey>)
    requires cash != [] && PaidTo(cash, input.lender) == []
    ensures FirstFailing(PaymentChecks(input, outputIous, cash, signers), 1)
    ensures PaymentChecks(input, outputIous, cash, signers)[1].failure == Violated(SettleCashToLender)
  {
  }

  /** A Settle whose cash all goes to others than the lender is rejected for
      that reason. */
  lemma SettleRejectsWrongPayee(tx: LedgerTransaction, signers: seq<PublicKey>)
    requires IOUCommands(tx.commands) == [Command(IOUCommand(Settle), signers)]
    requires |IOUsOf(tx.inputStates)| == 1
    requires OneLineage(IOUsOf(tx.outputStates), IOUsOf(tx.inputStates)[0].linearId)
    requires CashOf(tx.outputStates) != []
    requires PaidTo(CashOf(tx.outputStates), IOUsOf(tx.inputStates)[0].lender) == []
    ensures Verify(tx) == Rejected(Violated(SettleCashToLender))
  {
    PaymentRejectsWrongPayee(IOUsOf(tx.inputStates)[0], IOUsOf(tx.outputStates), CashOf(tx.outputStates), signers);
    SettleReportsPaymentFailure(tx, signers, 1);
  }

  /** Paying the lender more than is outstanding fails the fourth payment
      clause, and the three before it hold. */
  lemma PaymentRejectsOverpayment(input: IOUState, outputIous: seq<IOUState>, cash: seq<CashState>,
                                  signers: seq<PublicKey>)
    requires var toLender := PaidTo(cash, input.lender);
      && |toLender| > 0
      && input.paid <= input.amount
      && input.paid + SumCash(toLender) > input.amount
    ensures FirstFailing(PaymentChecks(input, outputIous, cash, signers), 3)
    ensures PaymentChecks(input, outputIous, cash, signers)[3].failure == Violated(SettleNoOverpayment)
  {
  }

  /** A Settle that pays the lender more than is outstanding is rejected for
      that reason, whatever IOU it creates. */
  lemma SettleRejectsOverpayment(tx: LedgerTransaction, signers: seq<PublicKey>)
    requires IOUCommands(tx.commands) == [Command(IOUCommand(Settle), signers)]
    requires |IOUsOf(tx.inputStates)| == 1
    requires var input := IOUsOf(tx.inputStates)[0];
      && OneLineage(IOUsOf(tx.outputStates), input.linearId)
      && input.paid <= input.amount
      && var toLender := PaidTo(CashOf(tx.outputStates), input.lender);
         |toLender| > 0 && input.paid + SumCash(toLender) > input.amount
    ensures Verify(tx) == Rejected(Violated(SettleNoOverpayment))
  {
    var input := IOUsOf(tx.inputStates)[0];
    PaymentRejectsOverpayment(input, IOUsOf(tx.outputStates), CashOf(tx.outputStates), signers);
    SettleReportsPaymentFailure(tx, signers, 3);
  }

  /** Clearing the debt while an IOU remains fails the fifth payment clause,
      and the four before it hold. */
  lemma PaymentRejectsLeftoverIOU(input: IOUState, outputIous: seq<IOUState>, cash: seq<CashState>,
                                  signers: seq<PublicKey>)
    requires var toLender := PaidTo(cash, input.lender);
      && |toLender| > 0
      && input.paid <= input.amount
      && input.paid + SumCash(toLender) == input.amount
      && outputIous != []
    ensures FirstFailing(PaymentChecks(input, outputIous, cash, signers), 4)
    ensures PaymentChecks(input, outputIous, cash, signers)[4].failure == Violated(SettleNoOutputWhenSettled)
  {
    var toLender := PaidTo(cash, input.lender);
    assert toLender[0] in toLender;
  }

  /** A Settle that clears the debt but still creates an IOU of the lineage is
      rejected for that reason. */
  lemma SettleRejectsLeftoverIOU(tx: LedgerTransaction, signers: seq<PublicKey>)
    requires IOUCommands(tx.commands) == [Command(IOUCommand(Settle), signers)]
    requires |IOUsOf(tx.inputStates)| == 1
    requires var input := IOUsOf(tx.inputStates)[0];
      && OneLineage(IOUsOf(tx.outputStates), input.linearId)
      && IOUsOf(tx.outputStates) != []
      && input.paid <= input.amount
      && var toLender := PaidTo(CashOf(tx.outputStates), input.lender);
         |toLender| > 0 && input.paid + SumCash(toLender) == input.amount
    ensures Verify(tx) == Rejected(Violated(SettleNoOutputWhenSettled))
  {
    var input := IOUsOf(tx.inputStates)[0];
    PaymentRejectsLeftoverIOU(input, IOUsOf(tx.outputStates), CashOf(tx.outputStates), signers);
    SettleReportsPaymentFailure(tx, signers, 4);
  }

  /** A Settle that clears the debt leaves no IOU at all among the outputs: the
      lineage ends. */
  lemma FullSettlementEndsLineage(tx: LedgerTransaction, signers: seq<PublicKey>)
    requires IOUCommands(tx.commands) == [Command(IOUCommand(Settle), signers)]
    requires Verify(tx) == Accepted
    requires |IOUsOf(tx.inputStates)| == 1
    requires var input := IOUsOf(tx.inputStates)[0];
      input.paid + SumCash(PaidTo(CashOf(tx.outputStates), input.lender)) == input.amount
    ensures IOUsOf(tx.outputStates) == []
  {
    VerifyAcceptsValid(tx);
  }

  /** A Settle that does not clear the debt leaves exactly one IOU among the
      outputs, continuing the same lineage with the same amount, borrower and
      lender. */
  lemma PartialSettlementKeepsTerms(tx: LedgerTransaction, signers: seq<PublicKey>)
    requires IOUCommands(tx.commands) == [Command(IOUCommand(Settle), signers)]
    requires Verify(tx) == Accepted
    requires |IOUsOf(tx.inputStates)| == 1
    requires var input := IOUsOf(tx.inputStates)[0];
      input.paid + SumCash(PaidTo(CashOf(tx.outputStates), input.lender)) != input.amount
    ensures |IOUsOf(tx.outputStates)| == 1
    ensures var input := IOUsOf(tx.inputStates)[0];
      var output := IOUsOf(tx.outputStates)[0];
      && output.linearId == input.linearId
      && output.amount == input.amount
      && output.borrower == input.borrower
      && output.lender == input.lender
  {
    VerifyAcceptsValid(tx);
    assert IOUsOf(tx.outputStates)[0] in IOUsOf(tx.outputStates);
  }

  /** The payment clauses see the cash only through whether there is any and
      through what is paid to the lender. */
  lemma PaymentChecksSeeLenderCash(input: IOUState, outputIous: seq<IOUState>,
                                   cash1: seq<CashState>, cash2: seq<CashState>, signers: seq<PublicKey>)
    requires |cash1| > 0 <==> |cash2| > 0
    requires PaidTo(cash1, input.lender) == PaidTo(cash2, input.lender)
    ensures PaymentChecks(input, outputIous, cash1, signers) == PaymentChecks(input, outputIous, cash2, signers)
  {
  }

  /** The Settle clauses see the cash among the outputs only through whether
      there is any and through what is paid to the lender of a consumed IOU. */
  lemma SettleChecksSeeLenderCash(tx1: LedgerTransaction, tx2: LedgerTransaction, signers: seq<PublicKey>)
    requires tx1.inputStates == tx2.inputStates
    requires IOUsOf(tx1.outputStates) == IOUsOf(tx2.outputStates)
    requires |CashOf(tx1.outputStates)| > 0 <==> |CashOf(tx2.outputStates)| > 0
    requires forall iou :: iou in IOUsOf(tx1.inputStates) ==>
      PaidTo(CashOf(tx1.outputStates), iou.lender) == PaidTo(CashOf(tx2.outputStates), iou.lender)
    ensures SettleChecks(tx1, signers) == SettleChecks(tx2, signers)
  {
    var groups := GroupStates(tx1);
    assert GroupStates(tx2) == groups;
    if |groups| == 1 && |groups[0].inputs| == 1 {
      SingleGroupOneInput(tx1);
      var input := groups[0].inputs[0];
      assert input in IOUsOf(tx1.inputStates);
      PaymentChecksSeeLenderCash(input, groups[0].outputs, CashOf(tx1.outputStates), CashOf(tx2.outputStates), signers);
    }
  }

  /** Inserting a cash state among the outputs keeps the IOUs and places the
      cash between the cash before and the cash after it. */
  lemma InsertCashStates(a: seq<ContractState>, b: seq<ContractState>, c: CashState)
    ensures IOUsOf(a + [Cash(c)] + b) == IOUsOf(a + b)
    ensures CashOf(a + [Cash(c)] + b) == CashOf(a) + [c] + CashOf(b)
    ensures CashOf(a + b) == CashOf(a) + CashOf(b)
  {
    assert IOUsOf(a + [Cash(c)] + b) == IOUsOf(a) + IOUsOf(b) by {
      IOUsOfAppend(a + [Cash(c)], b);
      IOUsOfAppend(a, [Cash(c)]);
      assert IOUsOf([Cash(c)]) == [];
    }
    IOUsOfAppend(a, b);
    assert CashOf(a + [Cash(c)] + b) == CashOf(a) + [c] + CashOf(b) by {
      CashOfAppend(a + [Cash(c)], b);
      CashOfAppend(a, [Cash(c)]);
      assert CashOf([Cash(c)]) == [c];
    }
    CashOfAppend(a, b);
  }

  /** Cash to `c.owner` inserted in a list does not change what is paid to
      anyone else. */
  lemma InsertCashToOther(a: seq<CashState>, b: seq<CashState>, c: CashState, owner: Party)
    requires owner != c.owner
    ensures PaidTo(a + [c] + b, owner) == PaidTo(a + b, owner)
  {
    PaidToAppend(a + [c], b, owner);
    PaidToAppend(a, [c], owner);
    PaidToAppend(a, b, owner);
    assert PaidTo([c], owner) == [];
  }

  /** Cash paid to anyone but the consumed IOU's lender does not affect the
      verdict of a Settle, once some cash is among the outputs. */
  lemma SettleIgnoresCashToOthers(tx: LedgerTransaction, signers: seq<PublicKey>,
                                  a: seq<ContractState>, b: seq<ContractState>, c: CashState)
    requires IOUCommands(tx.commands) == [Command(IOUCommand(Settle), signers)]
    requires |CashOf(a + b)| > 0
    requires forall iou :: iou in IOUsOf(tx.inputStates) ==> iou.lender != c.owner
    ensures Verify(tx.(outputStates := a + [Cash(c)] + b)) == Verify(tx.(outputStates := a + b))
  {
    InsertCashStates(a, b, c);
    forall iou | iou in IOUsOf(tx.inputStates)
      ensures PaidTo(CashOf(a + [Cash(c)] + b), iou.lender) == PaidTo(CashOf(a + b), iou.lender)
    {
      InsertCashToOther(CashOf(a), CashOf(b), c, iou.lender);
    }
    SettleChecksSeeLenderCash(tx.(outputStates := a + [Cash(c)] + b), tx.(outputStates := a + b), signers);
    VerifySingleCommand(tx.(outputStates := a + [Cash(c)] + b), Settle, signers);
    VerifySingleCommand(tx.(outputStates := a + b), Settle, signers);
  }

  /** Two IOU lists that agree in everything but the amount paid. */
  predicate SameButPaid(a: seq<IOUState>, b: seq<IOUState>) {
    && |a| == |b|
    && forall i :: 0 <= i < |a| ==> a[i].(paid := 0) == b[i].(paid := 0)
  }

  lemma {:induction false} WithLinearIdSameButPaid(a: seq<IOUState>, b: seq<IOUState>, id: UniqueIdentifier)
    requires SameButPaid(a, b)
    ensures SameButPaid(WithLinearId(a, id), WithLinearId(b, id))
  {
    if a != [] {
      assert SameButPaid(a[1..], b[1..]);
      WithLinearIdSameButPaid(a[1..], b[1..], id);
      assert a[0].linearId == b[0].linearId;
    }
  }

  /** The payment clauses never look at the paid field of the successor IOU. */
  lemma PaymentChecksIgnorePaid(input: IOUState, outs1: seq<IOUState>, outs2: seq<IOUState>,
                                cash: seq<CashState>, signers: seq<PublicKey>)
    requires SameButPaid(outs1, outs2)
    ensures PaymentChecks(input, outs1, cash, signers) == PaymentChecks(input, outs2, cash, signers)
  {
    if |outs1| == 1 {
      assert outs1[0].(paid := 0) == outs2[0].(paid := 0);
    }
  }

  /** The Settle clauses never look at the paid field of an IOU the
      transaction creates. */
  lemma SettleChecksIgnoreOutputPaid(tx1: LedgerTransaction, tx2: LedgerTransaction, signers: seq<PublicKey>)
    requires tx1.inputStates == tx2.inputStates
    requires CashOf(tx1.outputStates) == CashOf(tx2.outputStates)
    requires SameButPaid(IOUsOf(tx1.outputStates), IOUsOf(tx2.outputStates))
    ensures SettleChecks(tx1, signers) == SettleChecks(tx2, signers)
  {
    var ins: seq<IOUState> := IOUsOf(tx1.inputStates);
    var outs1: seq<IOUState> := IOUsOf(tx1.outputStates);
    var outs2: seq<IOUState> := IOUsOf(tx2.outputStates);
    assert LinearIds(ins + outs1) == LinearIds(ins + outs2) by {
      forall i | 0 <= i < |ins + outs1|
        ensures (ins + outs1)[i].linearId == (ins + outs2)[i].linearId
      {
        if i >= |ins| {
          assert outs1[i - |ins|].(paid := 0) == outs2[i - |ins|].(paid := 0);
        }
      }
    }
    var groups1 := GroupStates(tx1);
    var groups2 := GroupStates(tx2);
    assert |groups1| == |groups2|;
    if |groups1| == 1 {
      var k := groups1[0].groupingKey;
      assert groups1[0].inputs == groups2[0].inputs;
      WithLinearIdSameButPaid(outs1, outs2, k);
      if |groups1[0].inputs| == 1 {
        PaymentChecksIgnorePaid(groups1[0].inputs[0], groups1[0].outputs, groups2[0].outputs,
                                CashOf(tx1.outputStates), signers);
      }
    }
  }

  /** An IOU placed among other states is found by `IOUsOf` at its place and
      adds nothing to the cash. */
  lemma InsertIOUStates(a: seq<ContractState>, b: seq<ContractState>, iou: IOUState)
    ensures IOUsOf(a + [IOU(iou)] + b) == IOUsOf(a) + [iou] + IOUsOf(b)
    ensures CashOf(a + [IOU(iou)] + b) == CashOf(a) + CashOf(b)
  {
    assert IOUsOf(a + [IOU(iou)] + b) == IOUsOf(a) + [iou] + IOUsOf(b) by {
      IOUsOfAppend(a + [IOU(iou)], b);
      IOUsOfAppend(a, [IOU(iou)]);
      assert IOUsOf([IOU(iou)]) == [iou];
    }
    assert CashOf(a + [IOU(iou)] + b) == CashOf(a) + CashOf(b) by {
      CashOfAppend(a + [IOU(iou)], b);
      CashOfAppend(a, [IOU(iou)]);
      assert CashOf([IOU(iou)]) == [];
    }
  }

  /** Changing the paid field of one IOU among the outputs keeps the cash and
      changes the IOUs in that field only. */
  lemma RepaidStates(a: seq<ContractState>, b: seq<ContractState>, iou: IOUState, paid: nat)
    ensures CashOf(a + [IOU(iou.(paid := paid))] + b) == CashOf(a + [IOU(iou)] + b)
    ensures SameButPaid(IOUsOf(a + [IOU(iou.(paid := paid))] + b), IOUsOf(a + [IOU(iou)] + b))
  {
    InsertIOUStates(a, b, iou);
    InsertIOUStates(a, b, iou.(paid := paid));
    SameButPaidAround(IOUsOf(a), iou.(paid := paid), iou, IOUsOf(b));
  }

  /** Lists that differ in the paid field of one element are the same but
      for the paid fields. */
  lemma SameButPaidAround(p: seq<IOUState>, x: IOUState, y: IOUState, q: seq<IOUState>)
    requires x.(paid := 0) == y.(paid := 0)
    ensures SameButPaid(p + [x] + q, p + [y] + q)
  {
    var l, r := p + [x] + q, p + [y] + q;
    forall i | 0 <= i < |l|
      ensures l[i].(paid := 0) == r[i].(paid := 0)
    {
      if i < |p| {
        assert l[i] == p[i] == r[i];
      } else if i == |p| {
        assert l[i] == x && r[i] == y;
      } else {
        assert l[i] == q[i - |p| - 1] == r[i];
      }
    }
  }

  /** The `paid` field of the IOU a Settle creates is never examined: changing
      it does not change the verdict. */
  lemma SettleIgnoresSuccessorPaid(tx: LedgerTransaction, signers: seq<PublicKey>,
                                   a: seq<ContractState>, b: seq<ContractState>,
                                   successor: IOUState, paid: nat)
    requires IOUCommands(tx.commands) == [Command(IOUCommand(Settle), signers)]
    ensures Verify(tx.(outputStates := a + [IOU(successor.(paid := paid))] + b))
         == Verify(tx.(outputStates := a + [IOU(successor)] + b))
  {
    var original := tx.(outputStates := a + [IOU(successor)] + b);
    var changed := tx.(outputStates := a + [IOU(successor.(paid := paid))] + b);
    RepaidStates(a, b, successor, paid);
    SettleChecksIgnoreOutputPaid(changed, original, signers);
    VerifySingleCommand(original, Settle, signers);
    VerifySingleCommand(changed, Settle, signers);
  }
}
