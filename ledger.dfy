// The ledger data that the IOU contract reads, and the platform helpers it
// calls (command selection, grouping by linear id, selection by state type,
// cash summation), each reduced to the plain operation the contract relies on.

module Ledger {

  /** A signing key. Keys are opaque: the contract only compares them. */
  datatype PublicKey = PublicKey(id: nat)

  /** A ledger identity. Parties compare equal exactly when their owning keys
      do, so the key is all a party carries here. */
  datatype Party = Party(owningKey: PublicKey)

  /** The identifier shared by every version of one IOU. */
  datatype UniqueIdentifier = UniqueIdentifier(id: nat)

  /** An IOU: `amount` owed by `borrower` to `lender`, of which `paid` has been
      settled so far. Quantities are in one currency and never negative. */
  datatype IOUState = IOUState(
    amount: nat,
    lender: Party,
    borrower: Party,
    paid: nat,
    linearId: UniqueIdentifier)
  {
    /** The parties whose keys must sign: lender first, then borrower. */
    function Participants(): seq<Party> {
      [lender, borrower]
    }

    /** A copy of this IOU owed to `newLender`; every other field is kept. */
    function WithNewLender(newLender: Party): IOUState {
      this.(lender := newLender)
    }
  }

  /** A cash state: `amount` of the one currency, owned by `owner`. */
  datatype CashState = CashState(owner: Party, amount: nat)

  /** A state in a transaction: an IOU or cash. */
  datatype ContractState = IOU(iou: IOUState) | Cash(cash: CashState)

  /** The commands of the IOU contract: the three it declares, and any other
      implementation of its open command interface, told apart by a tag. */
  datatype Commands = Issue | Transfer | Settle | Unlisted(tag: nat)

  /** A command's data: one of the IOU contract's commands, or a command of some
      other contract (the cash contract's, say) that the IOU contract ignores. */
  datatype CommandData = IOUCommand(value: Commands) | OtherCommand(tag: nat)

  /** A command together with the keys that signed it. */
  datatype Command = Command(value: CommandData, signers: seq<PublicKey>)

  /** A transaction as the contract sees it: the states it consumes, the states
      it creates (of mixed types, in order) and its commands. */
  datatype LedgerTransaction = LedgerTransaction(
    inputStates: seq<ContractState>,
    outputStates: seq<ContractState>,
    commands: seq<Command>)

  /** The elements of a list, as a set (Kotlin's `toSet`). */
  function ToSet<T>(s: seq<T>): set<T> {
    set x | x in s
  }

  /** The owning keys of some parties, as a set (`map { it.owningKey }.toSet()`). */
  function OwningKeys(parties: seq<Party>): set<PublicKey> {
    set p | p in parties :: p.owningKey
  }

  /** The commands that carry one of the IOU contract's tags, in their order:
      the candidates among which `requireSingleCommand<Commands>` wants one. */
  function IOUCommands(commands: seq<Command>): (selected: seq<Command>)
    ensures |selected| <= |commands|
    ensures forall c :: c in selected <==> c in commands && c.value.IOUCommand?
  {
    if commands == [] then []
    else (if commands[0].value.IOUCommand? then [commands[0]] else []) + IOUCommands(commands[1..])
  }

  /** The IOU states among some states, in order (a selection by type). */
  function IOUsOf(states: seq<ContractState>): (ious: seq<IOUState>)
    ensures |ious| <= |states|
    ensures forall s :: s in ious <==> IOU(s) in states
  {
    if states == [] then []
    else (if states[0].IOU? then [states[0].iou] else []) + IOUsOf(states[1..])
  }

  /** The cash states among some states, in order (`outputsOfType<Cash.State>`
      when applied to the outputs). */
  function CashOf(states: seq<ContractState>): (cash: seq<CashState>)
    ensures |cash| <= |states|
    ensures forall c :: c in cash <==> Cash(c) in states
  {
    if states == [] then []
    else (if states[0].Cash? then [states[0].cash] else []) + CashOf(states[1..])
  }

  /** The cash states owned by `owner`, in order. */
  function PaidTo(cash: seq<CashState>, owner: Party): (paid: seq<CashState>)
    ensures |paid| <= |cash|
    ensures forall c :: c in paid <==> c in cash && c.owner == owner
  {
    if cash == [] then []
    else (if cash[0].owner == owner then [cash[0]] else []) + PaidTo(cash[1..], owner)
  }

  /** The total quantity of some cash states, issuer left aside
      (`sumCash().withoutIssuer()` over one currency). */
  function SumCash(cash: seq<CashState>): (total: nat)
    ensures cash == [] ==> total == 0
    ensures forall c :: c in cash ==> c.amount <= total
  {
    if cash == [] then 0 else cash[0].amount + SumCash(cash[1..])
  }

  /** The IOU states with linear id `id`, in order. */
  function WithLinearId(ious: seq<IOUState>, id: UniqueIdentifier): (group: seq<IOUState>)
    ensures |group| <= |ious|
    ensures forall s :: s in group <==> s in ious && s.linearId == id
  {
    if ious == [] then []
    else (if ious[0].linearId == id then [ious[0]] else []) + WithLinearId(ious[1..], id)
  }

  /** The linear ids of some IOU states, position by position. */
  function LinearIds(ious: seq<IOUState>): (ids: seq<UniqueIdentifier>)
    ensures |ids| == |ious|
  {
    seq(|ious|, i requires 0 <= i < |ious| => ious[i].linearId)
  }

  /** The ids in `s` without repetition, in order of first occurrence. */
  function Distinct(s: seq<UniqueIdentifier>): (r: seq<UniqueIdentifier>)
    ensures forall x :: x in r <==> x in s
    ensures forall i, j :: 0 <= i < j < |r| ==> r[i] != r[j]
    ensures |s| > 0 && (forall x :: x in s ==> x == s[0]) ==> r == [s[0]]
  {
    if s == [] then []
    else
      var prefix := s[..|s| - 1];
      var d := Distinct(prefix);
      assert s == prefix + [s[|s| - 1]];
      assert |prefix| > 0 ==> prefix[0] == s[0];
      assert forall x :: x in prefix ==> x in s;
      assert s[|s| - 1] in s;
      if s[|s| - 1] in d then d else d + [s[|s| - 1]]
  }

  /** The IOU inputs and outputs that share one linear id. */
  datatype InOutGroup = InOutGroup(
    inputs: seq<IOUState>,
    outputs: seq<IOUState>,
    groupingKey: UniqueIdentifier)

  /** `groupStates<IOUState, UniqueIdentifier> { it.linearId }`: the IOU states
      of the transaction partitioned by linear id, one group per id, groups in
      order of the id's first occurrence among the inputs, then the outputs. */
  function GroupStates(tx: LedgerTransaction): (groups: seq<InOutGroup>)
    ensures forall i, j :: 0 <= i < j < |groups| ==> groups[i].groupingKey != groups[j].groupingKey
  {
    var ins := IOUsOf(tx.inputStates);
    var outs := IOUsOf(tx.outputStates);
    var keys := Distinct(LinearIds(ins + outs));
    seq(|keys|, i requires 0 <= i < |keys| =>
      InOutGroup(WithLinearId(ins, keys[i]), WithLinearId(outs, keys[i]), keys[i]))
  }

  /** The group keys are the distinct linear ids of the IOU inputs and outputs. */
  lemma GroupKeys(tx: LedgerTransaction)
    ensures var groups := GroupStates(tx);
      var keys := Distinct(LinearIds(IOUsOf(tx.inputStates) + IOUsOf(tx.outputStates)));
      |groups| == |keys| && forall i :: 0 <= i < |groups| ==> groups[i].groupingKey == keys[i]
  {
  }

  /** Every IOU state's linear id is the key of a group. */
  lemma GroupsCoverStates(tx: LedgerTransaction)
    ensures var groups := GroupStates(tx);
      forall s :: s in IOUsOf(tx.inputStates) + IOUsOf(tx.outputStates) ==>
        exists i :: 0 <= i < |groups| && groups[i].groupingKey == s.linearId
  {
    var all := IOUsOf(tx.inputStates) + IOUsOf(tx.outputStates);
    var keys := Distinct(LinearIds(all));
    var groups := GroupStates(tx);
    GroupKeys(tx);
    LinearIdsOccur(all);
    forall s | s in all
      ensures exists i :: 0 <= i < |groups| && groups[i].groupingKey == s.linearId
    {
      assert s.linearId in keys;
      var i :| 0 <= i < |keys| && keys[i] == s.linearId;
      assert groups[i].groupingKey == s.linearId;
    }
  }

  /** Every group key is the linear id of some IOU state: no group is empty. */
  lemma GroupKeysOccur(tx: LedgerTransaction)
    ensures var groups := GroupStates(tx);
      forall i :: 0 <= i < |groups| ==>
        exists s :: s in IOUsOf(tx.inputStates) + IOUsOf(tx.outputStates) && s.linearId == groups[i].groupingKey
  {
    var all := IOUsOf(tx.inputStates) + IOUsOf(tx.outputStates);
    var keys := Distinct(LinearIds(all));
    var groups := GroupStates(tx);
    GroupKeys(tx);
    LinearIdsOccur(all);
    forall i | 0 <= i < |groups|
      ensures exists s :: s in all && s.linearId == groups[i].groupingKey
    {
      assert keys[i] in keys;
    }
  }

  /** Each group holds exactly the IOU inputs and exactly the IOU outputs that
      carry its key. */
  lemma GroupContents(tx: LedgerTransaction)
    ensures var groups := GroupStates(tx);
      forall i :: 0 <= i < |groups| ==> forall s ::
        s in groups[i].inputs <==> s in IOUsOf(tx.inputStates) && s.linearId == groups[i].groupingKey
    ensures var groups := GroupStates(tx);
      forall i :: 0 <= i < |groups| ==> forall s ::
        s in groups[i].outputs <==> s in IOUsOf(tx.outputStates) && s.linearId == groups[i].groupingKey
  {
  }

  /** The linear ids listed are exactly those of the states. */
  lemma LinearIdsOccur(ious: seq<IOUState>)
    ensures forall s :: s in ious ==> s.linearId in LinearIds(ious)
    ensures forall x :: x in LinearIds(ious) ==> exists s :: s in ious && s.linearId == x
  {
    var ids := LinearIds(ious);
    forall s | s in ious
      ensures s.linearId in ids
    {
      var i :| 0 <= i < |ious| && ious[i] == s;
      assert ids[i] == s.linearId;
    }
    forall x | x in ids
      ensures exists s :: s in ious && s.linearId == x
    {
      var i :| 0 <= i < |ids| && ids[i] == x;
      assert ious[i] in ious;
    }
  }

  /** Selecting one linear id keeps every state of a single lineage. */
  lemma {:induction false} WithLinearIdOfOneLineage(ious: seq<IOUState>, id: UniqueIdentifier)
    requires forall s :: s in ious ==> s.linearId == id
    ensures WithLinearId(ious, id) == ious
  {
    if ious != [] {
      assert ious[0] in ious;
      WithLinearIdOfOneLineage(ious[1..], id);
    }
  }

  /** Some IOU states have exactly one distinct linear id when there is at
      least one state and all share the first one's id. */
  lemma SingleDistinctId(all: seq<IOUState>)
    ensures |Distinct(LinearIds(all))| == 1 <==>
      |all| > 0 && forall s :: s in all ==> s.linearId == all[0].linearId
    ensures |Distinct(LinearIds(all))| == 1 ==> Distinct(LinearIds(all))[0] == all[0].linearId
  {
    var ids := LinearIds(all);
    var keys := Distinct(ids);
    if |keys| == 1 {
      var k := keys[0];
      assert forall x :: x in ids ==> x == k;
      assert k in ids;
      forall s | s in all
        ensures s.linearId == k
      {
        var i :| 0 <= i < |all| && all[i] == s;
        assert ids[i] in ids;
      }
      assert all[0] in all;
    }
    if |all| > 0 && forall s :: s in all ==> s.linearId == all[0].linearId {
      var k := all[0].linearId;
      forall x | x in ids
        ensures x == k
      {
        var i :| 0 <= i < |ids| && ids[i] == x;
        assert all[i] in all;
      }
      assert ids[0] in ids;
      assert k in keys;
    }
  }

  /** Grouping yields a single group exactly when there is at least one IOU
      state and all IOU states share one linear id; that group then holds all
      IOU inputs and all IOU outputs, in order. */
  lemma SingleGroup(tx: LedgerTransaction)
    ensures var all := IOUsOf(tx.inputStates) + IOUsOf(tx.outputStates);
      |GroupStates(tx)| == 1 <==> |all| > 0 && forall s :: s in all ==> s.linearId == all[0].linearId
    ensures var all := IOUsOf(tx.inputStates) + IOUsOf(tx.outputStates);
      |GroupStates(tx)| == 1 ==>
        GroupStates(tx)[0] == InOutGroup(IOUsOf(tx.inputStates), IOUsOf(tx.outputStates), all[0].linearId)
  {
    var ins := IOUsOf(tx.inputStates);
    var outs := IOUsOf(tx.outputStates);
    var all := ins + outs;
    SingleDistinctId(all);
    if |GroupStates(tx)| == 1 {
      var k := all[0].linearId;
      assert forall s :: s in ins ==> s in all;
      assert forall s :: s in outs ==> s in all;
      WithLinearIdOfOneLineage(ins, k);
      WithLinearIdOfOneLineage(outs, k);
    }
  }

  /** One input followed by outputs all share the first id exactly when
      every output carries the input's id. */
  lemma OneInputLineage(ins: seq<IOUState>, outs: seq<IOUState>)
    requires |ins| == 1
    ensures var all := ins + outs;
      (forall s :: s in all ==> s.linearId == all[0].linearId) <==>
      (forall s :: s in outs ==> s.linearId == ins[0].linearId)
  {
    var all := ins + outs;
    assert all[0] == ins[0];
    assert forall s :: s in all <==> s == ins[0] || s in outs;
  }

  /** A single group with a single input is exactly one IOU input whose linear
      id every IOU output carries; the group is then all IOU inputs and all
      IOU outputs. */
  lemma SingleGroupOneInput(tx: LedgerTransaction)
    ensures var groups := GroupStates(tx);
      var ins := IOUsOf(tx.inputStates);
      var outs := IOUsOf(tx.outputStates);
      (|groups| == 1 && |groups[0].inputs| == 1) <==>
        (|ins| == 1 && forall s :: s in outs ==> s.linearId == ins[0].linearId)
    ensures var groups := GroupStates(tx);
      |groups| == 1 ==> groups[0].inputs == IOUsOf(tx.inputStates) && groups[0].outputs == IOUsOf(tx.outputStates)
  {
    SingleGroup(tx);
    if |IOUsOf(tx.inputStates)| == 1 {
      OneInputLineage(IOUsOf(tx.inputStates), IOUsOf(tx.outputStates));
    }
  }

  /** Selecting this contract's commands distributes over concatenation. */
  lemma {:induction false} IOUCommandsAppend(a: seq<Command>, b: seq<Command>)
    ensures IOUCommands(a + b) == IOUCommands(a) + IOUCommands(b)
  {
    if a == [] {
      assert a + b == b;
    } else {
      assert (a + b)[0] == a[0];
      assert (a + b)[1..] == a[1..] + b;
      IOUCommandsAppend(a[1..], b);
    }
  }

  /** Selecting IOU states distributes over concatenation. */
  lemma {:induction false} IOUsOfAppend(a: seq<ContractState>, b: seq<ContractState>)
    ensures IOUsOf(a + b) == IOUsOf(a) + IOUsOf(b)
  {
    if a == [] {
      assert a + b == b;
    } else {
      assert (a + b)[0] == a[0];
      assert (a + b)[1..] == a[1..] + b;
      IOUsOfAppend(a[1..], b);
    }
  }

  /** Selecting cash states distributes over concatenation. */
  lemma {:induction false} CashOfAppend(a: seq<ContractState>, b: seq<ContractState>)
    ensures CashOf(a + b) == CashOf(a) + CashOf(b)
  {
    if a == [] {
      assert a + b == b;
    } else {
      assert (a + b)[0] == a[0];
      assert (a + b)[1..] == a[1..] + b;
      CashOfAppend(a[1..], b);
    }
  }

  /** Selecting the cash of one owner distributes over concatenation. */
  lemma {:induction false} PaidToAppend(a: seq<CashState>, b: seq<CashState>, owner: Party)
    ensures PaidTo(a + b, owner) == PaidTo(a, owner) + PaidTo(b, owner)
  {
    if a == [] {
      assert a + b == b;
    } else {
      assert (a + b)[0] == a[0];
      assert (a + b)[1..] == a[1..] + b;
      PaidToAppend(a[1..], b, owner);
    }
  }

  /** The total of one cash state is its amount. */
  lemma SumCashOne(c: CashState)
    ensures SumCash([c]) == c.amount
  {
    assert [c][1..] == [];
  }

  /** Summing cash distributes over concatenation. */
  lemma {:induction false} SumCashAppend(a: seq<CashState>, b: seq<CashState>)
    ensures SumCash(a + b) == SumCash(a) + SumCash(b)
  {
    if a == [] {
      assert a + b == b;
    } else {
      assert (a + b)[0] == a[0];
      assert (a + b)[1..] == a[1..] + b;
      SumCashAppend(a[1..], b);
    }
  }
}
