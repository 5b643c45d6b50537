/**
 * The records a group's expense list holds, and how the group
 * `AddExpenseModal` inserts a new item into them.
 *
 * A record loaded from storage carries `date`, `name`, `amount` and
 * `paidBy`; a record created by the modal carries only `date` and an
 * `items` list. Fields a record does not have are `None`.
 */
module GroupLedger {
  import opened Common

  /** `{name, amount, paidBy}` as the modal builds it. */
  datatype Item = Item(name: string, amount: real, paidBy: string)

  /** One entry of `groupExpenses`. */
  datatype GroupRecord = GroupRecord(
    date: string,
    name: Option<string>,
    amount: Option<real>,
    paidBy: Option<string>,
    items: Option<seq<Item>>)

  /** A record that names a payer also carries an amount. */
  predicate WellFormed(r: GroupRecord)
  {
    r.paidBy.Some? ==> r.amount.Some?
  }

  predicate AllWellFormed(rs: seq<GroupRecord>)
  {
    forall i :: 0 <= i < |rs| ==> WellFormed(rs[i])
  }

  /** `findIndex(e => e.date === date)`: the first record with that date, or -1. */
  function DateIndex(records: seq<GroupRecord>, date: string): (r: int)
    ensures -1 <= r < |records|
    ensures r >= 0 ==> records[r].date == date && forall k :: 0 <= k < r ==> records[k].date != date
    ensures r == -1 <==> forall k :: 0 <= k < |records| ==> records[k].date != date
  {
    if records == [] then -1
    else if records[0].date == date then 0
    else
      var r := DateIndex(records[1..], date);
      if r == -1 then -1 else r + 1
  }

  /** The `items` of a record, an absent list read as empty. */
  function ItemsOf(r: GroupRecord): seq<Item>
  {
    if r.items.Some? then r.items.value else []
  }

  /** A fresh date bucket `{date, items: [item]}`. */
  function Bucket(date: string, item: Item): GroupRecord
  {
    GroupRecord(date, None, None, None, Some([item]))
  }

  /**
   * The list after an add: the item joins the `items` of the first record
   * with the same date, or a new bucket is appended.
   */
  function AddItem(records: seq<GroupRecord>, date: string, item: Item): seq<GroupRecord>
  {
    var i := DateIndex(records, date);
    if i >= 0 then records[i := records[i].(items := Some(ItemsOf(records[i]) + [item]))]
    else records + [Bucket(date, item)]
  }

  /**
   * When a record already has the date, the count is unchanged, the first
   * such record gains the item at the end of its items, and every other
   * record is untouched.
   */
  lemma AddItemExistingDate(records: seq<GroupRecord>, date: string, item: Item)
    requires exists k :: 0 <= k < |records| && records[k].date == date
    ensures var r := AddItem(records, date, item);
      var i := DateIndex(records, date);
      && |r| == |records|
      && 0 <= i < |records| && records[i].date == date
      && (forall k :: 0 <= k < i ==> records[k].date != date)
      && r[i] == records[i].(items := Some(ItemsOf(records[i]) + [item]))
      && (forall k :: 0 <= k < |records| && k != i ==> r[k] == records[k])
  {
  }

  /**
   * When no record has the date, one bucket holding just the item is
   * appended after the unchanged records.
   */
  lemma AddItemNewDate(records: seq<GroupRecord>, date: string, item: Item)
    requires forall k :: 0 <= k < |records| ==> records[k].date != date
    ensures var r := AddItem(records, date, item);
      && |r| == |records| + 1
      && r[..|records|] == records
      && r[|records|] == GroupRecord(date, None, None, None, Some([item]))
  {
  }

  /** After an add, some record with that date holds the item. */
  lemma AddItemStores(records: seq<GroupRecord>, date: string, item: Item)
    ensures var r := AddItem(records, date, item);
      var i := DateIndex(r, date);
      i >= 0 && item in ItemsOf(r[i])
  {
    var r := AddItem(records, date, item);
    var i := DateIndex(records, date);
    if i >= 0 {
      assert r[i].date == date;
      assert DateIndex(r, date) == i by {
        forall k | 0 <= k < i ensures r[k].date != date {
          assert r[k] == records[k];
        }
      }
    } else {
      assert r[|records|].date == date;
      assert DateIndex(r, date) == |records| by {
        forall k | 0 <= k < |records| ensures r[k].date != date {
          assert r[k] == records[k];
        }
      }
    }
  }

  /** Adding never gives two records the same date when none had it before. */
  lemma AddItemKeepsDatesDistinct(records: seq<GroupRecord>, date: string, item: Item)
    requires forall i, j :: 0 <= i < j < |records| ==> records[i].date != records[j].date
    ensures var r := AddItem(records, date, item);
      forall i, j :: 0 <= i < j < |r| ==> r[i].date != r[j].date
  {
  }

  /** Adding keeps every record well formed: a new bucket names no payer. */
  lemma AddItemWellFormed(records: seq<GroupRecord>, date: string, item: Item)
    requires AllWellFormed(records)
    ensures AllWellFormed(AddItem(records, date, item))
  {
  }

  /** `findIndex` written as the loop it performs. */
  method FindDate(records: seq<GroupRecord>, date: string) returns (index: int)
    ensures index == DateIndex(records, date)
  {
    index := 0;
    while index < |records|
      invariant 0 <= index <= |records|
      invariant forall k :: 0 <= k < index ==> records[k].date != date
    {
      if records[index].date == date {
        return;
      }
      index := index + 1;
    }
    index := -1;
  }
}
