/**
 * The forgot-password modal: the email is checked against the pattern
 * `/^[^\s@]+@[^\s@]+\.[^\s@]+$/` before a reset link is requested, and a
 * two-step state moves from entering the email to "link sent" and back.
 * The reset request itself is reduced to whether it succeeded.
 */
module ForgotPassword {
  import opened Text

  /** A character of the class `[^\s@]`. */
  predicate Plain(c: char)
  {
    !IsSpace(c) && c != '@'
  }

  /** `[^\s@]+` matching all of `s[a..b]`. */
  predicate Word(s: string, a: int, b: int)
  {
    0 <= a < b <= |s| && forall k :: a <= k < b ==> Plain(s[k])
  }

  /**
   * The pattern matches the whole of `s`: some '@' at `i` and some '.' at
   * `j` split it into three non-empty runs of characters that are neither
   * whitespace nor '@'.
   */
  predicate EmailMatches(s: string)
  {
    exists i, j :: 0 <= i < j < |s| && s[i] == '@' && s[j] == '.' && Word(s, 0, i) && Word(s, i + 1, j) && Word(s, j + 1, |s|)
  }

  /** `s` has exactly one '@', at `i`. */
  predicate OnlyAt(s: string, i: int)
  {
    0 <= i < |s| && s[i] == '@' && forall k :: 0 <= k < |s| && k != i ==> s[k] != '@'
  }

  /** The shape the pattern describes, stated without the pattern. */
  ghost predicate WellFormedEmail(s: string)
  {
    && (forall k :: 0 <= k < |s| ==> !IsSpace(s[k]))
    && exists i :: OnlyAt(s, i) && 0 < i && exists j :: i + 1 < j < |s| - 1 && s[j] == '.'
  }

  /**
   * The pattern accepts an email exactly when it has no whitespace, exactly
   * one '@', something before the '@', and after it a '.' that is neither
   * the first nor the last character of the part after the '@'.
   */
  lemma EmailMatchesIff(s: string)
    ensures EmailMatches(s) <==> WellFormedEmail(s)
  {
    if EmailMatches(s) {
      MatchIsWellFormed(s);
    }
    if WellFormedEmail(s) {
      WellFormedMatches(s);
    }
  }

  /** A match has the shape. */
  lemma MatchIsWellFormed(s: string)
    requires EmailMatches(s)
    ensures WellFormedEmail(s)
  {
    var i, j :| 0 <= i < j < |s| && s[i] == '@' && s[j] == '.' && Word(s, 0, i) && Word(s, i + 1, j) && Word(s, j + 1, |s|);
    forall k | 0 <= k < |s| ensures !IsSpace(s[k]) && (k != i ==> s[k] != '@') {
      if k < i {
        assert Plain(s[k]);
      } else if i < k < j {
        assert Plain(s[k]);
      } else if j < k {
        assert Plain(s[k]);
      }
    }
    assert OnlyAt(s, i);
  }

  /** The shape is matched, with the only '@' and any inner '.' as split points. */
  lemma WellFormedMatches(s: string)
    requires WellFormedEmail(s)
    ensures EmailMatches(s)
  {
    var i :| OnlyAt(s, i) && 0 < i && exists j :: i + 1 < j < |s| - 1 && s[j] == '.';
    var j :| i + 1 < j < |s| - 1 && s[j] == '.';
    assert Word(s, 0, i) && Word(s, i + 1, j) && Word(s, j + 1, |s|);
  }

  /** The empty email, and one with a space, never match. */
  lemma EmailMatchesNeedsText(s: string)
    ensures s == "" ==> !EmailMatches(s)
    ensures (exists k :: 0 <= k < |s| && IsSpace(s[k])) ==> !EmailMatches(s)
  {
    EmailMatchesIff(s);
  }

  /** Step 1 asks for the email; step 2 says the link was sent. */
  datatype Step = EnterEmail | LinkSent

  class ForgotPasswordModal {
    var step: Step
    var email: string
    var loading: bool

    constructor()
      ensures step == EnterEmail && email == "" && !loading
    {
      step := EnterEmail;
      email := "";
      loading := false;
    }

    /**
     * `handleSendResetEmail`: an empty email and one the pattern refuses
     * are reported, in that order, without a request; otherwise the reset
     * link is requested, success (`sent`) moves to step 2 and failure keeps
     * the step, and loading is off at the end. The email is kept.
     */
    method HandleSendResetEmail(sent: bool) returns (message: string, requested: bool)
      modifies this
      ensures old(email) == "" ==> message == "Please enter your email" && !requested
      ensures old(email) != "" && !EmailMatches(old(email)) ==> message == "Please enter a valid email address" && !requested
      ensures !requested ==> step == old(step) && loading == old(loading)
      ensures requested <==> EmailMatches(old(email))
      ensures requested && sent ==> step == LinkSent && message == "Password reset link sent! Check your email." && !loading
      ensures requested && !sent ==> step == old(step) && message == "Failed to send reset email. Please try again." && !loading
      ensures email == old(email)
    {
      if email == "" {
        EmailMatchesNeedsText(email);
        return "Please enter your email", false;
      }
      if !EmailMatches(email) {
        return "Please enter a valid email address", false;
      }
      requested := true;
      loading := true;
      if sent {
        message := "Password reset link sent! Check your email.";
        step := LinkSent;
      } else {
        message := "Failed to send reset email. Please try again.";
      }
      loading := false;
    }

    /** `handleClose`: the email is cleared and the modal is back at step 1. */
    method HandleClose()
      modifies this
      ensures email == "" && step == EnterEmail && loading == old(loading)
    {
      email := "";
      step := EnterEmail;
    }

    /** "Try Another Email": back to step 1 with the email kept. */
    method TryAnotherEmail()
      modifies this
      ensures step == EnterEmail && email == old(email) && loading == old(loading)
    {
      step := EnterEmail;
    }
  }
}
