/**
 * The add/edit expense modal of the personal views: the form is filled
 * from the expense being edited or started empty with today's date, and
 * submission checks the fields before handing the form to the caller.
 *
 * `iso` is `new Date().toISOString()`, `show` is `Number.prototype.toString`
 * and `parsed` is what `parseFloat` makes of the amount text (`None` for
 * NaN); all three are parameters.
 */
module ExpenseForm {
  import opened Common
  import opened Text
  import opened Expenses

  /** `iso.split('T')[0]`: the date part of an ISO timestamp. */
  function Today(iso: string): string
  {
    BeforeFirst(iso, 'T')
  }

  /** The form the effect sets up for `expense`. */
  function InitialForm(expense: Option<Expense>, iso: string, show: real -> string): Form
  {
    if expense.Some? then
      Form(expense.value.name, show(expense.value.amount), expense.value.category, expense.value.date)
    else Form("", "", "", Today(iso))
  }

  /**
   * Editing copies name, category and date and shows the amount as text; a
   * new expense starts with empty name, amount and category and the text of
   * the timestamp up to its first 'T' as date.
   */
  lemma InitialFormSpec(expense: Option<Expense>, iso: string, show: real -> string)
    ensures expense.Some? ==>
      var f := InitialForm(expense, iso, show);
      && f.name == expense.value.name && f.category == expense.value.category
      && f.date == expense.value.date && f.amount == show(expense.value.amount)
    ensures expense.None? ==>
      var f := InitialForm(expense, iso, show);
      && f.name == "" && f.amount == "" && f.category == ""
      && iso == f.date + iso[|f.date|..] && 'T' !in f.date
      && (|f.date| < |iso| ==> iso[|f.date|] == 'T')
  {
  }

  /** The message the submit handler shows, if any. */
  function Problem(form: Form, parsed: Option<real>): Option<string>
  {
    if !Complete(form) then Some("All fields are required")
    else if parsed.Some? && parsed.value <= 0.0 then Some("Amount must be greater than 0")
    else None
  }

  /**
   * A form passes exactly when all four fields are filled and the amount
   * is not a number at most 0 (an amount that does not parse passes); a
   * missing field is reported before the amount.
   */
  lemma ProblemSpec(form: Form, parsed: Option<real>)
    ensures Problem(form, parsed).None? <==> Complete(form) && (parsed.None? || parsed.value > 0.0)
    ensures !Complete(form) ==> Problem(form, parsed) == Some("All fields are required")
    ensures Complete(form) && parsed.Some? && parsed.value <= 0.0 ==>
      Problem(form, parsed) == Some("Amount must be greater than 0")
  {
  }

  /** The call made to `onSave`. */
  datatype SaveCall = Update(id: string, form: Form) | Create(form: Form)

  class ExpenseModal {
    /** The expense being edited, if any. */
    const expense: Option<Expense>
    var form: Form
    var loading: bool

    /** Opening the modal: the effect fills the form. */
    constructor(expense: Option<Expense>, iso: string, show: real -> string)
      ensures this.expense == expense && form == InitialForm(expense, iso, show) && !loading
    {
      this.expense := expense;
      form := InitialForm(expense, iso, show);
      loading := false;
    }

    /**
     * `handleSubmit`: a form with a problem is refused with its message and
     * nothing changes; otherwise `onSave` receives the id and the form when
     * editing, the form alone when adding, and `loading` is off afterwards
     * whether or not `onSave` threw.
     */
    method HandleSubmit(parsed: Option<real>) returns (error: Option<string>, call: Option<SaveCall>)
      modifies this
      ensures error == Problem(old(form), parsed)
      ensures error.Some? ==> call.None? && loading == old(loading)
      ensures error.None? ==>
        call == Some(if expense.Some? then Update(expense.value.id, form) else Create(form)) && !loading
      ensures form == old(form)
    {
      if !Complete(form) {
        return Some("All fields are required"), None;
      }
      if parsed.Some? && parsed.value <= 0.0 {
        return Some("Amount must be greater than 0"), None;
      }
      error := None;
      loading := true;
      if expense.Some? {
        call := Some(Update(expense.value.id, form));
      } else {
        call := Some(Create(form));
      }
      loading := false;
    }
  }
}
