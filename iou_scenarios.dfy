// Concrete transactions: an IOU of 100 from borrower X to lender A, issued,
// transferred to B, and, as issued, settled with A in full or in part, with
// the verdict the contract gives each.

module IOUScenarios {
  import opened Ledger
  import opened IOUSpec
  import opened IOUContract
  import opened IOUContractProperties

  const A := Party(PublicKey(1))
  const X := Party(PublicKey(2))
  const B := Party(PublicKey(3))
  const Someone := Party(PublicKey(4))

  /** The IOU: 100 owed by X to A, nothing paid yet. */
  const Debt := IOUState(100, A, X, 0, UniqueIdentifier(7))

  function Tx(inputs: seq<ContractState>, outputs: seq<ContractState>, command: Commands,
              signers: seq<PublicKey>): LedgerTransaction {
    LedgerTransaction(inputs, outputs, [Command(IOUCommand(command), signers)])
  }

  /** Issuing the IOU, signed by lender and borrower, is accepted. */
  lemma IssueAccepted()
    ensures Verify(Tx([], [IOU(Debt)], Issue, [A.owningKey, X.owningKey])) == Accepted
  {
    var signers := [A.owningKey, X.owningKey];
    var tx := Tx([], [IOU(Debt)], Issue, signers);
    assert ToSet(signers) == {A.owningKey, X.owningKey};
    assert IOUCommands(tx.commands) == tx.commands;
    VerifyAcceptsValid(tx);
  }

  /** Issuing an IOU whose paid part already exceeds its amount is accepted:
      the paid field is not examined on issue. */
  lemma IssueOverpaidAccepted()
    ensures Verify(Tx([], [IOU(Debt.(paid := 500))], Issue, [A.owningKey, X.owningKey])) == Accepted
  {
    var signers := [A.owningKey, X.owningKey];
    var tx := Tx([], [IOU(Debt.(paid := 500))], Issue, signers);
    assert ToSet(signers) == {A.owningKey, X.owningKey};
    assert IOUCommands(tx.commands) == tx.commands;
    VerifyAcceptsValid(tx);
  }

  /** Issuing it signed by the lender alone is rejected for the signers. */
  lemma IssueWithoutBorrowerRejected()
    ensures Verify(Tx([], [IOU(Debt)], Issue, [A.owningKey])) == Rejected(Violated(IssueSigners))
  {
    var tx := Tx([], [IOU(Debt)], Issue, [A.owningKey]);
    var checks := IssueChecks(tx, [A.owningKey]);
    assert X.owningKey !in ToSet([A.owningKey]);
    assert X in Debt.Participants();
    assert FirstFailing(checks, 5);
    RequireThatReportsFirstFailing(checks, 5);
    assert IOUCommands(tx.commands) == tx.commands;
  }

  /** Transferring it to B, signed by A, B and X, is accepted. */
  lemma TransferAccepted()
    ensures Verify(Tx([IOU(Debt)], [IOU(Debt.WithNewLender(B))], Transfer,
                      [A.owningKey, B.owningKey, X.owningKey])) == Accepted
  {
    var signers := [A.owningKey, B.owningKey, X.owningKey];
    var tx := Tx([IOU(Debt)], [IOU(Debt.WithNewLender(B))], Transfer, signers);
    assert ToSet(signers) == {A.owningKey, X.owningKey, B.owningKey};
    assert IOUCommands(tx.commands) == tx.commands;
    VerifyAcceptsValid(tx);
  }

  /** Transferring it to its own borrower is accepted: nothing keeps the new
      lender apart from the borrower. */
  lemma TransferToBorrowerAccepted()
    ensures Verify(Tx([IOU(Debt)], [IOU(Debt.WithNewLender(X))], Transfer,
                      [A.owningKey, X.owningKey])) == Accepted
  {
    var signers := [A.owningKey, X.owningKey];
    var tx := Tx([IOU(Debt)], [IOU(Debt.WithNewLender(X))], Transfer, signers);
    assert ToSet(signers) == {A.owningKey, X.owningKey, X.owningKey};
    assert IOUCommands(tx.commands) == tx.commands;
    VerifyAcceptsValid(tx);
  }

  /** Transferring it to B while halving the amount is rejected. */
  lemma TransferChangingAmountRejected()
    ensures Verify(Tx([IOU(Debt)], [IOU(Debt.(lender := B, amount := 50))], Transfer,
                      [A.owningKey, B.owningKey, X.owningKey]))
         == Rejected(Violated(TransferOnlyLenderChanges))
  {
    var signers := [A.owningKey, B.owningKey, X.owningKey];
    var tx := Tx([IOU(Debt)], [IOU(Debt.(lender := B, amount := 50))], Transfer, signers);
    assert IOUCommands(tx.commands) == [Command(IOUCommand(Transfer), signers)];
    TransferRejectsOtherChanges(tx, signers);
  }

  /** Paying A the whole 100 and creating no IOU is accepted. */
  lemma FullSettleAccepted()
    ensures Verify(Tx([IOU(Debt)], [Cash(CashState(A, 100))], Settle, [A.owningKey, X.owningKey]))
         == Accepted
  {
    var signers := [A.owningKey, X.owningKey];
    var tx := Tx([IOU(Debt)], [Cash(CashState(A, 100))], Settle, signers);
    assert PaymentValid(Debt, [], [CashState(A, 100)], signers) by {
      assert PaidTo([CashState(A, 100)], A) == [CashState(A, 100)];
      assert SumCash([CashState(A, 100)]) == 100;
      assert ToSet(signers) == {A.owningKey, X.owningKey};
    }
    assert SettleValid(tx, signers) by {
      assert IOUsOf(tx.inputStates) == [Debt];
      assert IOUsOf(tx.outputStates) == [];
      assert CashOf(tx.outputStates) == [CashState(A, 100)];
    }
    assert IOUCommands(tx.commands) == tx.commands;
    VerifyAcceptsValid(tx);
  }

  /** Paying A the whole 100 but keeping an IOU is rejected. */
  lemma FullSettleKeepingIOURejected()
    ensures Verify(Tx([IOU(Debt)], [Cash(CashState(A, 100)), IOU(Debt.(paid := 100))], Settle,
                      [A.owningKey, X.owningKey]))
         == Rejected(Violated(SettleNoOutputWhenSettled))
  {
    var signers := [A.owningKey, X.owningKey];
    var tx := Tx([IOU(Debt)], [Cash(CashState(A, 100)), IOU(Debt.(paid := 100))], Settle, signers);
    assert IOUsOf(tx.inputStates) == [Debt];
    assert IOUsOf(tx.outputStates) == [Debt.(paid := 100)];
    assert CashOf(tx.outputStates) == [CashState(A, 100)];
    assert PaidTo([CashState(A, 100)], A) == [CashState(A, 100)];
    assert IOUCommands(tx.commands) == tx.commands;
    SettleRejectsLeftoverIOU(tx, signers);
  }

  /** Paying A 40 and keeping the IOU with 40 paid is accepted. */
  lemma PartialSettleAccepted()
    ensures Verify(Tx([IOU(Debt)], [Cash(CashState(A, 40)), IOU(Debt.(paid := 40))], Settle,
                      [A.owningKey, X.owningKey])) == Accepted
  {
    var signers := [A.owningKey, X.owningKey];
    var tx := Tx([IOU(Debt)], [Cash(CashState(A, 40)), IOU(Debt.(paid := 40))], Settle, signers);
    assert PaymentValid(Debt, [Debt.(paid := 40)], [CashState(A, 40)], signers) by {
      assert PaidTo([CashState(A, 40)], A) == [CashState(A, 40)];
      assert SumCash([CashState(A, 40)]) == 40;
      assert ToSet(signers) == {A.owningKey, X.owningKey};
    }
    assert SettleValid(tx, signers) by {
      assert IOUsOf(tx.inputStates) == [Debt];
      assert IOUsOf(tx.outputStates) == [Debt.(paid := 40)];
      assert CashOf(tx.outputStates) == [CashState(A, 40)];
    }
    assert IOUCommands(tx.commands) == tx.commands;
    VerifyAcceptsValid(tx);
  }

  /** Paying A 40 and lowering the amount of the IOU to 90 is rejected. */
  lemma PartialSettleChangingAmountRejected()
    ensures Verify(Tx([IOU(Debt)], [Cash(CashState(A, 40)), IOU(Debt.(amount := 90, paid := 40))], Settle,
                      [A.owningKey, X.owningKey])) == Rejected(Violated(SettleAmountUnchanged))
  {
    var signers := [A.owningKey, X.owningKey];
    var successor := Debt.(amount := 90, paid := 40);
    var tx := Tx([IOU(Debt)], [Cash(CashState(A, 40)), IOU(successor)], Settle, signers);
    var payment := PaymentChecks(Debt, [successor], [CashState(A, 40)], signers);
    assert |payment| > 5 && FirstFailing(payment, 5) && payment[5].failure == Violated(SettleAmountUnchanged) by {
      assert PaidTo([CashState(A, 40)], A) == [CashState(A, 40)];
      assert SumCash([CashState(A, 40)]) == 40;
      assert payment[..6] == [
        Check(true, Violated(SettleOutputCash)),
        Check(true, Violated(SettleCashToLender)),
        Check(true, NegativeAmount),
        Check(true, Violated(SettleNoOverpayment)),
        Check(true, Violated(SettleOneOutputIOU)),
        Check(false, Violated(SettleAmountUnchanged)) ];
      assert forall j :: 0 <= j < 6 ==> payment[j] == payment[..6][j];
    }
    assert IOUsOf(tx.inputStates) == [Debt];
    assert IOUsOf(tx.outputStates) == [successor];
    assert CashOf(tx.outputStates) == [CashState(A, 40)];
    assert IOUCommands(tx.commands) == tx.commands;
    SettleReportsPaymentFailure(tx, signers, 5);
  }

  /** Paying A 150 against 100 outstanding is rejected. */
  lemma OverpaymentRejected()
    ensures Verify(Tx([IOU(Debt)], [Cash(CashState(A, 150))], Settle, [A.owningKey, X.owningKey]))
         == Rejected(Violated(SettleNoOverpayment))
  {
    var signers := [A.owningKey, X.owningKey];
    var tx := Tx([IOU(Debt)], [Cash(CashState(A, 150))], Settle, signers);
    assert IOUsOf(tx.inputStates) == [Debt];
    assert IOUsOf(tx.outputStates) == [];
    assert CashOf(tx.outputStates) == [CashState(A, 150)];
    assert PaidTo([CashState(A, 150)], A) == [CashState(A, 150)];
    assert IOUCommands(tx.commands) == tx.commands;
    SettleRejectsOverpayment(tx, signers);
  }

  /** A command of the contract's interface that is none of Issue, Transfer
      and Settle is accepted, even unsigned and paying A's IOU to someone else. */
  lemma UnlistedCommandUnchecked()
    ensures Verify(Tx([IOU(Debt)], [Cash(CashState(Someone, 100))], Unlisted(0), [])) == Accepted
  {
    var tx := Tx([IOU(Debt)], [Cash(CashState(Someone, 100))], Unlisted(0), []);
    assert IOUCommands(tx.commands) == tx.commands;
    UnlistedCommandAccepted(tx, 0, []);
  }

  /** Paying the 100 to someone other than A is rejected. */
  lemma WrongPayeeRejected()
    ensures Verify(Tx([IOU(Debt)], [Cash(CashState(Someone, 100))], Settle, [A.owningKey, X.owningKey]))
         == Rejected(Violated(SettleCashToLender))
  {
    var signers := [A.owningKey, X.owningKey];
    var tx := Tx([IOU(Debt)], [Cash(CashState(Someone, 100))], Settle, signers);
    assert IOUsOf(tx.inputStates) == [Debt];
    assert IOUsOf(tx.outputStates) == [];
    assert CashOf(tx.outputStates) == [CashState(Someone, 100)];
    assert PaidTo([CashState(Someone, 100)], A) == [];
    assert IOUCommands(tx.commands) == tx.commands;
    SettleRejectsWrongPayee(tx, signers);
  }
}
