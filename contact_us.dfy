/**
 * The contact page: three tabs (feedback, support, business inquiry) share
 * one form; submitting runs the guards in order, builds the row sent to
 * the contact requests table, and on success shows the tab's message and
 * clears the form. The insert itself is reduced to whether it succeeded.
 */
module ContactUs {
  import opened Common
  import opened Text

  datatype Tab = Feedback | Support | Business

  /** The tab's name, as stored in `contact_type`. */
  function TabName(tab: Tab): string
  {
    match tab
    case Feedback => "feedback"
    case Support => "support"
    case Business => "business"
  }

  /** Different tabs are stored under different names. */
  lemma TabNameInjective(a: Tab, b: Tab)
    ensures TabName(a) == TabName(b) <==> a == b
  {
  }

  datatype ContactForm = ContactForm(name: string, email: string, subject: string, message: string, phone: string, company: string)

  const EmptyContact := ContactForm("", "", "", "", "", "")

  /** The signed-in user: id, the full name in the user metadata, and email. */
  datatype User = User(id: string, fullName: Option<string>, email: Option<string>)

  /** The toasts of `handleSubmit`; `NoticeText` gives their wording. */
  datatype Notice = LoginFirst | FieldsRequired | EmailRequired | Received(tab: Tab) | SendFailed

  function NoticeText(n: Notice): string
  {
    match n
    case LoginFirst => "Please login to submit feedback"
    case FieldsRequired => "Please fill in all required fields"
    case EmailRequired => "Email is required"
    case Received(Feedback) => "Feedback submitted successfully! We'll review it soon."
    case Received(Support) => "Support request received! We'll get back to you within 24 hours."
    case Received(Business) => "Business inquiry received! Our team will contact you shortly."
    case SendFailed => "Failed to send message. Please try again."
  }

  /** What the guards of `handleSubmit` decide. */
  datatype Guard =
    | NeedsLogin               // feedback without a user: refused and sent to "/login"
    | Missing(problem: Notice) // a required field is empty
    | Passes

  function Check(tab: Tab, user: Option<User>, form: ContactForm): Guard
  {
    if tab == Feedback && user.None? then NeedsLogin
    else if form.subject == "" || form.message == "" then Missing(FieldsRequired)
    else if tab != Feedback && form.email == "" then Missing(EmailRequired)
    else Passes
  }

  /**
   * Feedback without a signed-in user is refused before any field is
   * looked at; then subject and message are required on every tab, and
   * the email only on the support and business tabs. A form passes
   * exactly when none of these applies.
   */
  lemma CheckSpec(tab: Tab, user: Option<User>, form: ContactForm)
    ensures tab == Feedback && user.None? ==> Check(tab, user, form) == NeedsLogin
    ensures !(tab == Feedback && user.None?) && (form.subject == "" || form.message == "") ==>
      Check(tab, user, form) == Missing(FieldsRequired)
    ensures tab != Feedback && form.subject != "" && form.message != "" && form.email == "" ==>
      Check(tab, user, form) == Missing(EmailRequired)
    ensures Check(tab, user, form) == Passes <==>
      && form.subject != "" && form.message != ""
      && (if tab == Feedback then user.Some? else form.email != "")
  {
  }

  /** The row inserted into the contact requests table; `None` is `null`. */
  datatype Submission = Submission(
    userId: Option<string>, name: string, email: Option<string>, subject: string,
    message: string, contactType: string, phone: Option<string>, company: Option<string>)

  /** `text || null`. */
  function OrNull(text: string): Option<string>
  {
    if text == "" then None else Some(text)
  }

  /** `formData.name || user?.user_metadata?.full_name || formData.email.split('@')[0]`. */
  function SubmittedName(form: ContactForm, user: Option<User>): string
  {
    if form.name != "" then form.name
    else if user.Some? && user.value.fullName.Some? && user.value.fullName.value != "" then user.value.fullName.value
    else BeforeFirst(form.email, '@')
  }

  /** `formData.email || user?.email`. */
  function SubmittedEmail(form: ContactForm, user: Option<User>): Option<string>
  {
    if form.email != "" then Some(form.email)
    else if user.Some? then user.value.email
    else None
  }

  /** The `submissionData` built for a form that passed. */
  function Build(tab: Tab, user: Option<User>, form: ContactForm): Submission
  {
    Submission(
      if user.Some? then OrNull(user.value.id) else None,
      SubmittedName(form, user),
      SubmittedEmail(form, user),
      form.subject,
      form.message,
      TabName(tab),
      OrNull(form.phone),
      OrNull(form.company))
  }

  /**
   * The name is the typed one, else the user's full name, else the typed
   * email up to its first '@'; the email is the typed one, else the user's;
   * subject and message are sent as typed, the type is the tab's name, and
   * an empty phone or company is sent as null.
   */
  lemma BuildSpec(tab: Tab, user: Option<User>, form: ContactForm)
    ensures var r := Build(tab, user, form);
      && (form.name != "" ==> r.name == form.name)
      && (form.name == "" && user.Some? && user.value.fullName.Some? && user.value.fullName.value != "" ==>
            r.name == user.value.fullName.value)
      && (form.name == "" && !(user.Some? && user.value.fullName.Some? && user.value.fullName.value != "") ==>
            form.email == r.name + form.email[|r.name|..] && '@' !in r.name)
      && (form.email != "" ==> r.email == Some(form.email))
      && (form.email == "" ==> r.email == if user.Some? then user.value.email else None)
      && r.subject == form.subject && r.message == form.message
      && r.contactType == TabName(tab)
      && (r.phone.None? <==> form.phone == "") && (r.phone.Some? ==> r.phone.value == form.phone)
      && (r.company.None? <==> form.company == "") && (r.company.Some? ==> r.company.value == form.company)
      && (r.userId.Some? <==> user.Some? && user.value.id != "")
  {
  }

  /**
   * A support or business request that passed always carries the typed
   * email, and a feedback that passed always comes from a signed-in user.
   */
  lemma PassedHasContact(tab: Tab, user: Option<User>, form: ContactForm)
    requires Check(tab, user, form) == Passes
    ensures tab != Feedback ==> Build(tab, user, form).email == Some(form.email) && form.email != ""
    ensures tab == Feedback ==> user.Some?
  {
  }

  class ContactPage {
    var activeTab: Tab
    var form: ContactForm
    var loading: bool

    constructor()
      ensures activeTab == Feedback && form == EmptyContact && !loading
    {
      activeTab := Feedback;
      form := EmptyContact;
      loading := false;
    }

    /** A tab button: the tab changes, the form is kept. */
    method SelectTab(tab: Tab)
      modifies this
      ensures activeTab == tab && form == old(form) && loading == old(loading)
    {
      activeTab := tab;
    }

    /**
     * `handleSubmit`: feedback without a user is refused and redirected to
     * "/login"; a missing field is reported; in both cases nothing is sent
     * and nothing changes. Otherwise the row built by `Build` is sent; on
     * success (`ok`) the tab's message is shown and the whole form is
     * cleared, on failure the form is kept; loading is off at the end.
     */
    method HandleSubmit(user: Option<User>, ok: bool) returns (toast: Notice, redirect: Option<string>, sent: Option<Submission>)
      modifies this
      ensures Check(activeTab, user, old(form)) == NeedsLogin ==> toast == LoginFirst && redirect == Some("/login")
      ensures Check(activeTab, user, old(form)).Missing? ==> toast == Check(activeTab, user, old(form)).problem && redirect.None?
      ensures Check(activeTab, user, old(form)) != Passes ==> sent.None? && form == old(form) && loading == old(loading)
      ensures Check(activeTab, user, old(form)) == Passes ==>
        sent == Some(Build(activeTab, user, old(form))) && redirect.None? && !loading
      ensures Check(activeTab, user, old(form)) == Passes && ok ==> toast == Received(activeTab) && form == EmptyContact
      ensures Check(activeTab, user, old(form)) == Passes && !ok ==> toast == SendFailed && form == old(form)
      ensures activeTab == old(activeTab)
    {
      var f := form;
      var g := Check(activeTab, user, f);
      if g == NeedsLogin {
        return LoginFirst, Some("/login"), None;
      }
      if g.Missing? {
        return g.problem, None, None;
      }
      redirect := None;
      loading := true;
      sent := Some(Build(activeTab, user, f));
      if ok {
        toast := Received(activeTab);
        form := EmptyContact;
      } else {
        toast := SendFailed;
      }
      loading := false;
    }
  }
}
