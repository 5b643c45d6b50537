/**
 * The settle-up modal: it projects the group's records onto the two
 * parallel arrays the settlement engine takes and hands the member names
 * through unchanged.
 */
module SettleUp {
  import opened Common
  import opened GroupLedger
  import opened Splitwise

  /** The `paidBy` of every record, in ledger order. */
  function PaidByColumn(records: seq<GroupRecord>): (c: seq<Option<string>>)
    ensures |c| == |records|
  {
    seq(|records|, i requires 0 <= i < |records| => records[i].paidBy)
  }

  /** The `amount` of every record, in ledger order. */
  function AmountColumn(records: seq<GroupRecord>): (c: seq<Option<real>>)
    ensures |c| == |records|
  {
    seq(|records|, i requires 0 <= i < |records| => records[i].amount)
  }

  /** The `forEach` that pushes each record's payer and amount. */
  method Project(groupExpenses: seq<GroupRecord>) returns (paidByArray: seq<Option<string>>, amountArray: seq<Option<real>>)
    ensures |paidByArray| == |groupExpenses| && |amountArray| == |groupExpenses|
    ensures forall i :: 0 <= i < |groupExpenses| ==>
      paidByArray[i] == groupExpenses[i].paidBy && amountArray[i] == groupExpenses[i].amount
    ensures paidByArray == PaidByColumn(groupExpenses) && amountArray == AmountColumn(groupExpenses)
  {
    paidByArray, amountArray := [], [];
    var i := 0;
    while i < |groupExpenses|
      invariant 0 <= i <= |groupExpenses|
      invariant |paidByArray| == i && |amountArray| == i
      invariant forall k :: 0 <= k < i ==>
        paidByArray[k] == groupExpenses[k].paidBy && amountArray[k] == groupExpenses[k].amount
    {
      paidByArray := paidByArray + [groupExpenses[i].paidBy];
      amountArray := amountArray + [groupExpenses[i].amount];
      i := i + 1;
    }
  }

  /** Well-formed records give the engine an amount wherever the payer is a member. */
  lemma ColumnsHaveAmounts(memberNames: seq<string>, records: seq<GroupRecord>)
    requires AllWellFormed(records)
    ensures AmountsPresent(memberNames, PaidByColumn(records), AmountColumn(records))
  {
  }

  /** What the modal shows: the engine's view of the projected columns. */
  function SettleUpView(memberNames: seq<string>, groupExpenses: seq<GroupRecord>): (v: View)
    requires AllWellFormed(groupExpenses)
    ensures v != InvalidPaymentData
    ensures v == NoMembers <==> memberNames == []
    ensures v.Plan? ==> v.logs == Settle(memberNames, PaidByColumn(groupExpenses), AmountColumn(groupExpenses))
  {
    ColumnsHaveAmounts(memberNames, groupExpenses);
    Render(Some(memberNames), Some(PaidByColumn(groupExpenses)), Some(AmountColumn(groupExpenses)))
  }

  /**
   * A record with no payer (a date bucket created by the add-expense
   * modal) shows up in the plan as an invalid-payer error.
   */
  lemma MissingPayerReported(memberNames: seq<string>, groupExpenses: seq<GroupRecord>, k: nat)
    requires AllWellFormed(groupExpenses) && memberNames != []
    requires k < |groupExpenses| && groupExpenses[k].paidBy.None?
    ensures SettleUpView(memberNames, groupExpenses).Plan?
    ensures InvalidPayer(None) in SettleUpView(memberNames, groupExpenses).logs
  {
    var payers := PaidByColumn(groupExpenses);
    ColumnsHaveAmounts(memberNames, groupExpenses);
    InvalidLogsExact(memberNames, payers);
    FilterMember(payers, IsNotMember(memberNames), None);
    assert payers[k] == None;
    var invalid := Filter(payers, IsNotMember(memberNames));
    var j :| 0 <= j < |invalid| && invalid[j] == None;
    assert AsInvalid(invalid)[j] == InvalidPayer(None);
    var logs := Settle(memberNames, payers, AmountColumn(groupExpenses));
    assert logs[j] == InvalidPayer(None);
  }

  /**
   * Adding an item on a date no record has yet, then settling, reports an
   * undefined payer: the new bucket has items but no `paidBy`.
   */
  lemma NewBucketReportedInvalid(memberNames: seq<string>, records: seq<GroupRecord>, date: string, item: Item)
    requires AllWellFormed(records) && memberNames != []
    requires forall k :: 0 <= k < |records| ==> records[k].date != date
    ensures AllWellFormed(AddItem(records, date, item))
    ensures InvalidPayer(None) in SettleUpView(memberNames, AddItem(records, date, item)).logs
  {
    AddItemWellFormed(records, date, item);
    AddItemNewDate(records, date, item);
    MissingPayerReported(memberNames, AddItem(records, date, item), |records|);
  }
}
