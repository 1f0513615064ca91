// What makes an Issue, a Transfer and a Settle acceptable, stated as flat
// conditions on the transaction rather than as the contract's ordered
// clauses. The contract's clauses are proved to hold together exactly when
// these do.

module IOUSpec {
  import opened Ledger

  /** An Issue consumes nothing and creates one IOU of positive amount between
      two distinct parties, signed by exactly those two. */
  predicate IssueValid(tx: LedgerTransaction, signers: seq<PublicKey>) {
    && tx.inputStates == []
    && |tx.outputStates| == 1
    && tx.outputStates[0].IOU?
    && var iou := tx.outputStates[0].iou;
       && iou.amount > 0
       && iou.lender != iou.borrower
       && ToSet(signers) == {iou.lender.owningKey, iou.borrower.owningKey}
  }

  /** A Transfer replaces one IOU by one that differs from it in the lender
      only, and really changes the lender; old lender, new lender and borrower
      sign, and nobody else. */
  predicate TransferValid(tx: LedgerTransaction, signers: seq<PublicKey>) {
    && |tx.inputStates| == 1
    && |tx.outputStates| == 1
    && tx.inputStates[0].IOU?
    && tx.outputStates[0].IOU?
    && var before := tx.inputStates[0].iou;
       var after := tx.outputStates[0].iou;
       && after.amount == before.amount
       && after.paid == before.paid
       && after.borrower == before.borrower
       && after.linearId == before.linearId
       && after.lender != before.lender
       && ToSet(signers) == {before.lender.owningKey, before.borrower.owningKey, after.lender.owningKey}
  }

  /** The payment part of a Settle against the IOU `input`: some of `cash` goes
      to its lender, paid so far plus that cash does not exceed the amount, a
      debt cleared leaves no successor IOU and a debt not cleared leaves one
      with the same amount, borrower and lender; lender and borrower sign, and
      nobody else. */
  predicate PaymentValid(input: IOUState, outputIous: seq<IOUState>, cash: seq<CashState>,
                         signers: seq<PublicKey>) {
    var toLender := PaidTo(cash, input.lender);
    var settled := SumCash(toLender);
    && |toLender| > 0
    && input.paid + settled <= input.amount
    && (if input.paid + settled == input.amount then outputIous == []
        else
          && |outputIous| == 1
          && outputIous[0].amount == input.amount
          && outputIous[0].borrower == input.borrower
          && outputIous[0].lender == input.lender)
    && ToSet(signers) == {input.lender.owningKey, input.borrower.owningKey}
  }

  /** Every IOU state in `ious` has linear id `id`. */
  predicate OneLineage(ious: seq<IOUState>, id: UniqueIdentifier) {
    forall s :: s in ious ==> s.linearId == id
  }

  /** A Settle consumes exactly one IOU, every IOU it creates continues that
      IOU's lineage, and the payment against it is valid. */
  predicate SettleValid(tx: LedgerTransaction, signers: seq<PublicKey>) {
    var inputIous := IOUsOf(tx.inputStates);
    var outputIous := IOUsOf(tx.outputStates);
    && |inputIous| == 1
    && OneLineage(outputIous, inputIous[0].linearId)
    && PaymentValid(inputIous[0], outputIous, CashOf(tx.outputStates), signers)
  }

  /** The transaction carries exactly one command of the IOU contract, and the
      transaction is valid for that command; a command of the contract's
      interface that is not Issue, Transfer or Settle imposes nothing. */
  predicate Valid(tx: LedgerTransaction) {
    var commands := IOUCommands(tx.commands);
    && |commands| == 1
    && commands[0].value.IOUCommand?
    && match commands[0].value.value
       case Issue => IssueValid(tx, commands[0].signers)
       case Transfer => TransferValid(tx, commands[0].signers)
       case Settle => SettleValid(tx, commands[0].signers)
       case Unlisted(_) => true
  }
}
