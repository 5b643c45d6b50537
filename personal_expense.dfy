/**
 * The personal expense page: it loads the user's stored records (every
 * key of the user's node except the one holding the groups), adds the
 * form as a new record once the store accepted it, deletes records by id,
 * and shows the records of a category with their total.
 *
 * A record added in this session has no id until the page is reloaded,
 * since the page keeps a copy of the form rather than the key the store
 * assigned.
 */
module PersonalExpense {
  import opened Common
  import opened Expenses

  /** The key under which the groups of the same user are stored. */
  const GroupsKey := "split-smart"

  /** A listed record: the stored fields and the storage key, if known. */
  datatype Record = Record(id: Option<string>, form: Form)

  function RecordCategory(r: Record): string
  {
    r.form.category
  }

  function NotGroups(entry: (string, Form)): bool
  {
    entry.0 != GroupsKey
  }

  /** `.map(key => ({ ...data[key], id: key }))`. */
  function WithIds(entries: seq<(string, Form)>): (r: seq<Record>)
    ensures |r| == |entries|
  {
    seq(|entries|, i requires 0 <= i < |entries| => Record(Some(entries[i].0), entries[i].1))
  }

  /** The records of a loaded snapshot, in key order. */
  function LoadedRecords(data: seq<(string, Form)>): seq<Record>
  {
    WithIds(Filter(data, NotGroups))
  }

  /**
   * Every loaded record carries its key as id, and the groups key is never
   * among them; a snapshot entry under any other key is listed with its
   * fields.
   */
  lemma LoadedRecordsSpec(data: seq<(string, Form)>, key: string, form: Form)
    ensures forall r :: r in LoadedRecords(data) ==>
      r.id.Some? && r.id.value != GroupsKey && (r.id.value, r.form) in data
    ensures Record(Some(key), form) in LoadedRecords(data) <==> (key, form) in data && key != GroupsKey
  {
    var kept := Filter(data, NotGroups);
    FilterMember(data, NotGroups, (key, form));
    forall r | r in LoadedRecords(data)
      ensures r.id.Some? && r.id.value != GroupsKey && (r.id.value, r.form) in data
    {
      var i :| 0 <= i < |kept| && LoadedRecords(data)[i] == r;
      assert NotGroups(kept[i]) && kept[i] in data;
    }
    if (key, form) in kept {
      var i :| 0 <= i < |kept| && kept[i] == (key, form);
      assert LoadedRecords(data)[i] == Record(Some(key), form);
    }
  }

  function IdIsNot(id: Option<string>): Record -> bool
  {
    (r: Record) => r.id != id
  }

  /** `prev.filter(expense => expense.id !== id)`. */
  function Without(records: seq<Record>, id: Option<string>): seq<Record>
  {
    Filter(records, IdIsNot(id))
  }

  /** Every record with the id goes; every other record stays, in order. */
  lemma WithoutSpec(records: seq<Record>, id: Option<string>, r: Record)
    ensures r in Without(records, id) <==> r in records && r.id != id
    ensures forall more :: Without(records + more, id) == Without(records, id) + Without(more, id)
  {
    FilterMember(records, IdIsNot(id), r);
    forall more ensures Without(records + more, id) == Without(records, id) + Without(more, id) {
      FilterAppend(records, more, IdIsNot(id));
    }
  }

  /**
   * Deleting a record added in this session (it has no id) takes every
   * record added in this session off the list, not just that one.
   */
  lemma DeleteUnsavedDropsAllUnsaved(records: seq<Record>)
    ensures forall r :: r in Without(records, None) ==> r.id.Some?
    ensures forall r :: r in records && r.id.Some? ==> r in Without(records, None)
  {
    forall r | r in records && r.id.Some? ensures r in Without(records, None) {
      WithoutSpec(records, None, r);
    }
  }

  /** `filteredExpenses`. */
  function FilteredRecords(records: seq<Record>, filter: string): seq<Record>
  {
    CategoryFilter(records, RecordCategory, filter)
  }

  /** `totalAmount`, with `amountOf` reading a stored amount as `parseFloat` does. */
  function TotalAmount(records: seq<Record>, filter: string, amountOf: string -> real): real
  {
    SumOf(FilteredRecords(records, filter), (r: Record) => amountOf(r.form.amount))
  }

  /**
   * No filter shows every record, a filter exactly the records of its
   * category in list order; the total counts exactly the shown records.
   */
  lemma FilteredRecordsSpec(records: seq<Record>, filter: string, amountOf: string -> real, r: Record)
    ensures filter == "" ==> FilteredRecords(records, filter) == records
    ensures filter != "" ==> (r in FilteredRecords(records, filter) <==> r in records && r.form.category == filter)
    ensures TotalAmount(records, filter, amountOf) ==
      SumOf(records, CountedIn(RecordCategory, filter, (x: Record) => amountOf(x.form.amount)))
  {
    CategoryFilterSpec(records, RecordCategory, filter, r);
    CategoryFilterSum(records, RecordCategory, filter, (x: Record) => amountOf(x.form.amount));
  }

  /**
   * A record appended to the list is shown at the end of the filtered list
   * when no filter is set or it has the filter's category.
   */
  lemma AppendedShown(records: seq<Record>, r: Record, filter: string)
    ensures FilteredRecords(records + [r], filter) ==
      FilteredRecords(records, filter) + (if filter == "" || r.form.category == filter then [r] else [])
  {
    CategoryFilterSpec(records, RecordCategory, filter, r);
    assert FilteredRecords(records + [r], filter) == FilteredRecords(records, filter) + FilteredRecords([r], filter);
    if filter != "" {
      assert Filter([r], HasCategory(RecordCategory, filter)) ==
        Filter([r][..0], HasCategory(RecordCategory, filter)) + (if r.form.category == filter then [r] else []);
      assert [r][..0] == [];
    }
  }

  /** The outcome of reading the user's node. */
  datatype Snapshot =
    | Unreachable                                 // the request failed or answered an error
    | Answered(data: Option<seq<(string, Form)>>) // the parsed body; `null` for an empty node

  class PersonalExpensePage {
    var expenses: seq<Record>
    var form: Form
    var categoryFilter: string

    constructor()
      ensures expenses == [] && form == EmptyForm && categoryFilter == ""
    {
      expenses := [];
      form := EmptyForm;
      categoryFilter := "";
    }

    /**
     * `getExpense`: a snapshot replaces the list by its records; a failed
     * read and a `null` body (on which `Object.keys` throws) keep it.
     */
    method Load(outcome: Snapshot)
      modifies this
      ensures outcome.Answered? && outcome.data.Some? ==> expenses == LoadedRecords(outcome.data.value)
      ensures !(outcome.Answered? && outcome.data.Some?) ==> expenses == old(expenses)
      ensures form == old(form) && categoryFilter == old(categoryFilter)
    {
      if outcome.Answered? && outcome.data.Some? {
        expenses := LoadedRecords(outcome.data.value);
      }
    }

    /**
     * `handleSubmit`: a complete form is appended as a record without id
     * and the form is cleared; an incomplete one changes nothing.
     */
    method HandleSubmit()
      modifies this
      ensures Complete(old(form)) ==> expenses == old(expenses) + [Record(None, old(form))] && form == EmptyForm
      ensures !Complete(old(form)) ==> expenses == old(expenses) && form == old(form)
      ensures categoryFilter == old(categoryFilter)
    {
      if Complete(form) {
        expenses := expenses + [Record(None, form)];
        form := EmptyForm;
      }
    }

    /**
     * `addExpense`: an incomplete form is not sent; a complete one is
     * posted, and only an accepted post (`accepted`) runs `handleSubmit`.
     */
    method AddExpense(accepted: bool) returns (sent: Option<Form>)
      modifies this
      ensures sent == (if Complete(old(form)) then Some(old(form)) else None)
      ensures sent.Some? && accepted ==>
        expenses == old(expenses) + [Record(None, old(form))] && form == EmptyForm
      ensures !(sent.Some? && accepted) ==> expenses == old(expenses) && form == old(form)
      ensures categoryFilter == old(categoryFilter)
    {
      if !Complete(form) {
        return None;
      }
      sent := Some(form);
      if accepted {
        HandleSubmit();
      }
    }

    /**
     * `handleDelete`: once the delete request has settled without throwing
     * (`settled`; the status is not checked) the records with that id go.
     */
    method HandleDelete(id: Option<string>, settled: bool)
      modifies this
      ensures settled ==> expenses == Without(old(expenses), id)
      ensures !settled ==> expenses == old(expenses)
      ensures form == old(form) && categoryFilter == old(categoryFilter)
    {
      if settled {
        expenses := Without(expenses, id);
      }
    }
  }
}
