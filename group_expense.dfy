/**
 * The group expense page: it loads the group's stored expenses into a flat
 * list, shows that list newest first, lets the add-expense modal insert
 * items, and disables the add-members button once names are known.
 */
module GroupExpense {
  import opened Common
  import opened Sorting
  import opened Stored
  import opened GroupLedger

  // ---------------------------------------------------------------------
  // Flattening the stored snapshot
  // ---------------------------------------------------------------------

  /** A stored child counts as an expense when `name`, `amount` and `paidBy` are all truthy. */
  predicate IsExpense(n: Node)
  {
    TruthyText(n.name) && TruthyNumber(n.amount) && TruthyText(n.paidBy)
  }

  /** `{date, name, amount, paidBy}` for a child stored under `date`. */
  function AsRecord(date: string, n: Node): GroupRecord
  {
    GroupRecord(date, n.name, n.amount, n.paidBy, None)
  }

  /** The records the inner loop pushes for the children of one date. */
  function FlattenChildren(date: string, children: seq<(string, Node)>): seq<GroupRecord>
  {
    if children == [] then []
    else
      var last := children[|children| - 1].1;
      FlattenChildren(date, children[..|children| - 1]) + (if IsExpense(last) then [AsRecord(date, last)] else [])
  }

  /** The records the two loops push, in visiting order. */
  function Flattened(data: Tree): seq<GroupRecord>
  {
    if data == [] then []
    else
      var (date, value) := data[|data| - 1];
      Flattened(data[..|data| - 1]) + (if value.Object? then FlattenChildren(date, value.children) else [])
  }

  /** Every record of one date is a complete expense stored under that date. */
  lemma {:induction false} FlattenChildrenSound(date: string, children: seq<(string, Node)>)
    ensures forall k :: 0 <= k < |FlattenChildren(date, children)| ==>
      var r := FlattenChildren(date, children)[k];
      && r.date == date && r.items.None?
      && TruthyText(r.name) && TruthyNumber(r.amount) && TruthyText(r.paidBy)
  {
    if children != [] {
      FlattenChildrenSound(date, children[..|children| - 1]);
    }
  }

  /** Every expense child of one date gives its record. */
  lemma {:induction false} FlattenChildrenComplete(date: string, children: seq<(string, Node)>, j: nat)
    requires j < |children| && IsExpense(children[j].1)
    ensures AsRecord(date, children[j].1) in FlattenChildren(date, children)
  {
    if j < |children| - 1 {
      FlattenChildrenComplete(date, children[..|children| - 1], j);
    }
  }

  /**
   * Every flattened record is a complete expense (truthy name, amount and
   * payer, no items) whose date is a top-level key holding an object.
   */
  lemma {:induction false} FlattenedSound(data: Tree)
    ensures forall k :: 0 <= k < |Flattened(data)| ==>
      var r := Flattened(data)[k];
      && r.items.None? && TruthyText(r.name) && TruthyNumber(r.amount) && TruthyText(r.paidBy)
      && exists i :: 0 <= i < |data| && data[i].0 == r.date && data[i].1.Object?
  {
    if data != [] {
      var init := data[..|data| - 1];
      FlattenedSound(init);
      var (date, value) := data[|data| - 1];
      if value.Object? {
        FlattenChildrenSound(date, value.children);
      }
      var rs := Flattened(data);
      forall k | 0 <= k < |rs|
        ensures exists i :: 0 <= i < |data| && data[i].0 == rs[k].date && data[i].1.Object?
      {
        if k < |Flattened(init)| {
          var i :| 0 <= i < |init| && init[i].0 == rs[k].date && init[i].1.Object?;
          assert data[i] == init[i];
        } else {
          assert data[|data| - 1].0 == rs[k].date;
        }
      }
    }
  }

  /** Every complete expense child of an object-valued date gives its record. */
  lemma {:induction false} FlattenedComplete(data: Tree, i: nat, j: nat)
    requires i < |data| && data[i].1.Object?
    requires j < |data[i].1.children| && IsExpense(data[i].1.children[j].1)
    ensures AsRecord(data[i].0, data[i].1.children[j].1) in Flattened(data)
  {
    if i < |data| - 1 {
      FlattenedComplete(data[..|data| - 1], i, j);
    } else {
      FlattenChildrenComplete(data[i].0, data[i].1.children, j);
    }
  }

  /** Flattened records are well formed, so they can feed the settlement. */
  lemma FlattenedWellFormed(data: Tree)
    ensures AllWellFormed(Flattened(data))
  {
    FlattenedSound(data);
  }

  /** The nested `for…in` loops of `fetchGroupExpenses`. */
  method Flatten(data: Tree) returns (records: seq<GroupRecord>)
    ensures records == Flattened(data)
  {
    records := [];
    var i := 0;
    while i < |data|
      invariant 0 <= i <= |data|
      invariant records == Flattened(data[..i])
    {
      assert data[..i + 1][..i] == data[..i];
      var (date, value) := data[i];
      if value.Object? {
        var children := value.children;
        var j := 0;
        var before := records;
        while j < |children|
          invariant 0 <= j <= |children|
          invariant records == before + FlattenChildren(date, children[..j])
        {
          assert children[..j + 1][..j] == children[..j];
          var expense := children[j].1;
          if IsExpense(expense) {
            records := records + [AsRecord(date, expense)];
          }
          j := j + 1;
        }
        assert children[..j] == children;
      }
      i := i + 1;
    }
    assert data[..i] == data;
  }

  // ---------------------------------------------------------------------
  // The list as shown
  // ---------------------------------------------------------------------

  predicate HasDate(r: GroupRecord) { r.date != "" }

  /** The sort key: `new Date(date)` as a timestamp, supplied by the caller. */
  function ByDate(time: string -> real): GroupRecord -> real
  {
    (r: GroupRecord) => time(r.date)
  }

  /** `sortedGroupExpenses`: records with a date, newest first. */
  function SortedExpenses(records: seq<GroupRecord>, time: string -> real): seq<GroupRecord>
  {
    SortDesc(Filter(records, HasDate), ByDate(time))
  }

  /**
   * The shown list holds exactly the records that have a date, each as
   * often as in the list, and runs from the latest date to the earliest.
   */
  lemma SortedExpensesSpec(records: seq<GroupRecord>, time: string -> real)
    ensures multiset(SortedExpenses(records, time)) == multiset(Filter(records, HasDate))
    ensures forall r :: r in SortedExpenses(records, time) <==> r in records && r.date != ""
    ensures forall i, j :: 0 <= i < j < |SortedExpenses(records, time)| ==>
      time(SortedExpenses(records, time)[i].date) >= time(SortedExpenses(records, time)[j].date)
  {
    var kept := Filter(records, HasDate);
    SortDescPermutes(kept, ByDate(time));
    SortDescSorted(kept, ByDate(time));
    forall r ensures r in SortedExpenses(records, time) <==> r in records && r.date != "" {
      SortDescMember(kept, ByDate(time), r);
      FilterMember(records, HasDate, r);
    }
  }

  // ---------------------------------------------------------------------
  // The page state
  // ---------------------------------------------------------------------

  class GroupExpensePage {
    /** The member names handed over by the previous page. */
    const memberNames: seq<string>
    var groupExpenses: seq<GroupRecord>
    var loading: bool
    var isDisabled: bool
    /** The add-expense form fields and the modal's visibility. */
    var date: string
    var itemName: string
    var amount: string
    var paidBy: string
    var showModal: bool

    /** Every record that names a payer carries an amount. */
    ghost predicate Valid()
      reads this
    {
      AllWellFormed(groupExpenses)
    }

    constructor(memberNames: seq<string>)
      ensures Valid()
      ensures this.memberNames == memberNames && groupExpenses == [] && loading && !isDisabled
      ensures date == "" && itemName == "" && amount == "" && paidBy == "" && !showModal
    {
      this.memberNames := memberNames;
      groupExpenses := [];
      loading := true;
      isDisabled := false;
      date, itemName, amount, paidBy := "", "", "", "";
      showModal := false;
    }

    /**
     * `fetchGroupExpenses`: loading is set first; without a token the
     * request is never made and loading stays on; a failed request keeps
     * the list; absent data empties it; present data replaces it by the
     * flattened records and, when member names are known, disables the
     * add-members button.
     */
    method Load(outcome: Fetch)
      requires Valid()
      modifies this
      ensures Valid()
      ensures outcome.NoToken? ==> loading && groupExpenses == old(groupExpenses) && isDisabled == old(isDisabled)
      ensures outcome.Failed? ==> !loading && groupExpenses == old(groupExpenses) && isDisabled == old(isDisabled)
      ensures outcome == Loaded(None) ==> !loading && groupExpenses == [] && isDisabled == old(isDisabled)
      ensures outcome.Loaded? && outcome.data.Some? ==>
        && !loading
        && groupExpenses == Flattened(outcome.data.value)
        && isDisabled == (old(isDisabled) || |memberNames| > 0)
      ensures date == old(date) && itemName == old(itemName) && amount == old(amount)
      ensures paidBy == old(paidBy) && showModal == old(showModal)
    {
      loading := true;
      match outcome {
        case NoToken =>
        case Failed =>
          loading := false;
        case Loaded(data) =>
          if data.Some? {
            if |memberNames| > 0 {
              isDisabled := true;
            }
            var records := Flatten(data.value);
            FlattenedWellFormed(data.value);
            groupExpenses := records;
          } else {
            groupExpenses := [];
          }
          loading := false;
      }
    }

    /**
     * `handleAddExpense` with `parsed` the value of `parseFloat(amount)`:
     * unless all four fields are non-empty nothing changes and nothing is
     * posted; otherwise the item is inserted into its date bucket, the four
     * fields are cleared, the modal closes and the item is posted.
     */
    method HandleAddExpense(parsed: real) returns (posted: Option<Item>)
      requires Valid()
      modifies this
      ensures Valid()
      ensures old(date) == "" || old(itemName) == "" || old(amount) == "" || old(paidBy) == "" ==>
        && posted == None
        && groupExpenses == old(groupExpenses)
        && date == old(date) && itemName == old(itemName) && amount == old(amount) && paidBy == old(paidBy)
        && showModal == old(showModal)
      ensures old(date) != "" && old(itemName) != "" && old(amount) != "" && old(paidBy) != "" ==>
        && posted == Some(Item(old(itemName), parsed, old(paidBy)))
        && groupExpenses == AddItem(old(groupExpenses), old(date), posted.value)
        && date == "" && itemName == "" && amount == "" && paidBy == ""
        && !showModal
      ensures loading == old(loading) && isDisabled == old(isDisabled)
    {
      if date != "" && itemName != "" && amount != "" && paidBy != "" {
        var newItem := Item(itemName, parsed, paidBy);
        var dateIndex := FindDate(groupExpenses, date);
        AddItemWellFormed(groupExpenses, date, newItem);
        if dateIndex >= 0 {
          var record := groupExpenses[dateIndex];
          groupExpenses := groupExpenses[dateIndex := record.(items := Some(ItemsOf(record) + [newItem]))];
        } else {
          groupExpenses := groupExpenses + [Bucket(date, newItem)];
        }
        date, itemName, amount, paidBy := "", "", "", "";
        showModal := false;
        posted := Some(newItem);
      } else {
        posted := None;
      }
    }

    /** `onSaveSuccess` from the names modal disables the add-members button. */
    method NamesSaved()
      modifies this
      ensures isDisabled
      ensures groupExpenses == old(groupExpenses) && loading == old(loading)
    {
      isDisabled := true;
    }
  }
}
