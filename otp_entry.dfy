/**
 * The OTP entry modal: six one-character slots filled by typing or
 * pasting, a verify button that needs all six, and a resend button locked
 * behind a 60-second countdown.
 */
module OtpEntry {
  import opened Common
  import opened Text

  /** `/^\d*$/`: only ASCII digits (the empty string included). */
  predicate AllDigits(s: string)
  {
    forall i :: 0 <= i < |s| ==> IsDigit(s[i])
  }

  /** `otp.join("")`. */
  function Join(slots: seq<string>): string
  {
    if slots == [] then "" else Join(slots[..|slots| - 1]) + slots[|slots| - 1]
  }

  /** `s.split("")`: one single-character string per character. */
  function Chars(s: string): (r: seq<string>)
    ensures |r| == |s| && forall i :: 0 <= i < |s| ==> r[i] == [s[i]]
  {
    seq(|s|, i requires 0 <= i < |s| => [s[i]])
  }

  /** Each slot holds at most one digit. */
  predicate SlotsOk(slots: seq<string>)
  {
    forall i :: 0 <= i < |slots| ==> |slots[i]| <= 1 && AllDigits(slots[i])
  }

  lemma {:induction false} JoinLength(slots: seq<string>)
    requires SlotsOk(slots)
    ensures |Join(slots)| <= |slots|
    ensures |Join(slots)| == |slots| <==> forall i :: 0 <= i < |slots| ==> |slots[i]| == 1
  {
    if slots != [] {
      JoinLength(slots[..|slots| - 1]);
    }
  }

  /**
   * The joined code has six characters exactly when each of the six slots
   * holds one digit.
   */
  lemma CompleteIff(slots: seq<string>)
    requires |slots| == 6 && SlotsOk(slots)
    ensures |Join(slots)| == 6 <==> forall i :: 0 <= i < 6 ==> |slots[i]| == 1
  {
    JoinLength(slots);
  }

  /** `pastedData.split("").concat(Array(6).fill("")).slice(0, 6)`. */
  function PastedSlots(data: string): seq<string>
    requires |data| <= 6
  {
    (Chars(data) + EmptyStrings(6))[..6]
  }

  /** The pasted digits go into the slots in order and the rest are empty. */
  lemma PastedSlotsSpec(data: string)
    requires |data| <= 6 && AllDigits(data)
    ensures |PastedSlots(data)| == 6 && SlotsOk(PastedSlots(data))
    ensures forall i :: 0 <= i < |data| ==> PastedSlots(data)[i] == [data[i]]
    ensures forall i :: |data| <= i < 6 ==> PastedSlots(data)[i] == ""
  {
  }

  /** One run of the countdown effect: (timer, canResend) after it. */
  function Tick(timer: int, canResend: bool, isOpen: bool): (int, bool)
  {
    if isOpen && timer > 0 then (timer - 1, canResend)
    else if timer == 0 then (timer, true)
    else (timer, canResend)
  }

  /** `n` runs of the effect while the modal stays open. */
  function Ticks(timer: int, canResend: bool, n: nat): (int, bool)
    decreases n
  {
    if n == 0 then (timer, canResend)
    else
      var (t, c) := Tick(timer, canResend, true);
      Ticks(t, c, n - 1)
  }

  /**
   * While open, the timer drops by one per run without unlocking resend;
   * one run after reaching zero, resend is unlocked.
   */
  lemma {:induction false} CountdownUnlocks(timer: nat, n: nat)
    ensures n <= timer ==> Ticks(timer, false, n) == (timer - n, false)
    ensures n > timer ==> Ticks(timer, false, n) == (0, true)
  {
    if n > 0 {
      if timer > 0 {
        CountdownUnlocks(timer - 1, n - 1);
      } else {
        ZeroStays(n - 1);
      }
    }
  }

  lemma {:induction false} ZeroStays(n: nat)
    ensures Ticks(0, true, n) == (0, true)
  {
    if n > 0 {
      ZeroStays(n - 1);
    }
  }

  /** A closed modal with time left does not count down. */
  lemma ClosedHolds(timer: int, canResend: bool)
    requires timer > 0
    ensures Tick(timer, canResend, false) == (timer, canResend)
  {
  }

  class OtpModal {
    var otp: seq<string>
    var loading: bool
    var resendTimer: int
    var canResend: bool

    ghost predicate Valid()
      reads this
    {
      |otp| == 6 && SlotsOk(otp)
    }

    constructor()
      ensures Valid() && otp == EmptyStrings(6)
      ensures !loading && resendTimer == 60 && !canResend
    {
      otp := EmptyStrings(6);
      loading := false;
      resendTimer := 60;
      canResend := false;
    }

    /**
     * `handleChange`: a longer input is cut to its first character; a
     * non-digit is ignored; otherwise only slot `index` changes.
     */
    method HandleChange(index: nat, value: string)
      requires Valid() && index < 6
      modifies this
      ensures Valid()
      ensures var v := if |value| > 1 then value[..1] else value;
        otp == (if AllDigits(v) then old(otp)[index := v] else old(otp))
      ensures loading == old(loading) && resendTimer == old(resendTimer) && canResend == old(canResend)
    {
      var v := value;
      if |v| > 1 {
        v := v[..1];
      }
      if !AllDigits(v) {
        return;
      }
      otp := otp[index := v];
    }

    /**
     * `handlePaste`: the first six characters are kept; unless they are a
     * non-empty run of digits the paste is rejected and nothing changes.
     */
    method HandlePaste(pasted: string) returns (rejected: bool)
      requires Valid()
      modifies this
      ensures Valid()
      ensures var data := if |pasted| > 6 then pasted[..6] else pasted;
        && (rejected <==> data == "" || !AllDigits(data))
        && otp == (if rejected then old(otp) else PastedSlots(data))
      ensures loading == old(loading) && resendTimer == old(resendTimer) && canResend == old(canResend)
    {
      var data := if |pasted| > 6 then pasted[..6] else pasted;
      if data == "" || !AllDigits(data) {
        return true;
      }
      PastedSlotsSpec(data);
      otp := PastedSlots(data);
      rejected := false;
    }

    /**
     * `handleVerify`: the joined code is submitted only when it has six
     * characters, and loading is off again after the submission.
     */
    method HandleVerify() returns (submitted: Option<string>)
      requires Valid()
      modifies this
      ensures Valid() && otp == old(otp)
      ensures submitted.Some? <==> forall i :: 0 <= i < 6 ==> |otp[i]| == 1
      ensures submitted.Some? ==> submitted.value == Join(otp) && |submitted.value| == 6 && !loading
      ensures submitted.None? ==> loading == old(loading)
      ensures resendTimer == old(resendTimer) && canResend == old(canResend)
    {
      var code := Join(otp);
      CompleteIff(otp);
      if |code| != 6 {
        return None;
      }
      loading := true;
      submitted := Some(code);
      loading := false;
    }

    /** One run of the countdown effect. */
    method CountDown(isOpen: bool)
      modifies this
      ensures (resendTimer, canResend) == Tick(old(resendTimer), old(canResend), isOpen)
      ensures otp == old(otp) && loading == old(loading)
    {
      if isOpen && resendTimer > 0 {
        resendTimer := resendTimer - 1;
      } else if resendTimer == 0 {
        canResend := true;
      }
    }

    /**
     * `handleResend`: nothing happens unless resend is unlocked; after a
     * resend that succeeds the countdown restarts at 60, resend locks and
     * the slots are emptied.
     */
    method HandleResend(sent: bool) returns (requested: bool)
      requires Valid()
      modifies this
      ensures Valid()
      ensures requested == old(canResend)
      ensures requested && sent ==> resendTimer == 60 && !canResend && otp == EmptyStrings(6)
      ensures !(requested && sent) ==>
        resendTimer == old(resendTimer) && canResend == old(canResend) && otp == old(otp)
      ensures requested ==> !loading
      ensures !requested ==> loading == old(loading)
    {
      if !canResend {
        return false;
      }
      requested := true;
      loading := true;
      if sent {
        resendTimer := 60;
        canResend := false;
        otp := EmptyStrings(6);
      }
      loading := false;
    }
  }
}
