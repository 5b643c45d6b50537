/**
 * The one-time-password service of the backend: a six-digit code drawn at
 * random, an in-memory map from e-mail address to (code, expiry), its
 * store / verify / scheduled-cleanup operations, and the two request
 * handlers that use them.
 *
 * Time is a parameter (`now`, in milliseconds), the random draw is a
 * parameter, and each cleanup timer is an explicit event that fires no
 * earlier than its due time: all timers have the same delay, so they fire
 * in the order they were scheduled.
 */
module Otp {
  import opened Common

  /** Ten minutes, in milliseconds. */
  const Ttl: int := 10 * 60 * 1000

  datatype Entry = Entry(otp: string, expiresAt: int)

  type Store = map<string, Entry>

  /** The outcome of `verifyStoredOTP`. */
  datatype Verdict = Verified | NotFound | Expired | WrongCode

  /** The `error` text of a failed verification. */
  function ErrorText(v: Verdict): string
  {
    match v
    case Verified => ""
    case NotFound => "OTP not found or expired"
    case Expired => "OTP has expired"
    case WrongCode => "Invalid OTP"
  }

  // ---------------------------------------------------------------------
  // Codes
  // ---------------------------------------------------------------------

  function Digit(d: nat): char
    requires d < 10
  {
    ('0' as int + d) as char
  }

  /** `n.toString()` for a natural number. */
  function DecimalString(n: nat): string
  {
    if n < 10 then [Digit(n)] else DecimalString(n / 10) + [Digit(n % 10)]
  }

  /** The number a string of decimal digits denotes. */
  function DigitsValue(s: string): int
  {
    if s == [] then 0 else 10 * DigitsValue(s[..|s| - 1]) + (s[|s| - 1] as int - '0' as int)
  }

  function Pow10(k: nat): nat
  {
    if k == 0 then 1 else 10 * Pow10(k - 1)
  }

  /** Reading the decimal string back gives the number. */
  lemma {:induction false} DecimalRoundTrip(n: nat)
    ensures DigitsValue(DecimalString(n)) == n
    ensures forall i :: 0 <= i < |DecimalString(n)| ==> '0' <= DecimalString(n)[i] <= '9'
  {
    if n >= 10 {
      DecimalRoundTrip(n / 10);
      var s := DecimalString(n);
      assert s[..|s| - 1] == DecimalString(n / 10);
    }
  }

  /** A number with `k + 1` digits prints as `k + 1` characters, the first not '0'. */
  lemma {:induction false} DecimalLength(n: nat, k: nat)
    requires Pow10(k) <= n < Pow10(k + 1)
    ensures |DecimalString(n)| == k + 1 && DecimalString(n)[0] != '0'
  {
    if k > 0 {
      assert Pow10(k) == 10 * Pow10(k - 1);
      assert Pow10(k + 1) == 10 * Pow10(k);
      assert Pow10(k - 1) <= n / 10 < Pow10(k);
      DecimalLength(n / 10, k - 1);
    }
  }

  /** `Math.floor(100000 + r * 900000)` for the draw `r` of `Math.random()`. */
  function CodeNumber(r: real): (n: int)
    requires 0.0 <= r < 1.0
    ensures 100000 <= n <= 999999
  {
    (100000.0 + r * 900000.0).Floor
  }

  /** `generateOTP`: the code as a string. */
  function GenerateOtp(r: real): string
    requires 0.0 <= r < 1.0
  {
    DecimalString(CodeNumber(r))
  }

  /** Every generated code is six digits with no leading zero. */
  lemma GenerateOtpShape(r: real)
    requires 0.0 <= r < 1.0
    ensures |GenerateOtp(r)| == 6 && GenerateOtp(r)[0] != '0'
    ensures forall i :: 0 <= i < 6 ==> '0' <= GenerateOtp(r)[i] <= '9'
    ensures 100000 <= DigitsValue(GenerateOtp(r)) <= 999999
  {
    assert Pow10(5) == 100000 && Pow10(6) == 1000000;
    DecimalLength(CodeNumber(r), 5);
    DecimalRoundTrip(CodeNumber(r));
  }

  // ---------------------------------------------------------------------
  // The store as transitions
  // ---------------------------------------------------------------------

  /** `storeOTP`: the address now maps to the code, valid for ten minutes. */
  function StoreCode(m: Store, email: string, otp: string, now: int): Store
  {
    m[email := Entry(otp, now + Ttl)]
  }

  /** `verifyStoredOTP`: the verdict and the store afterwards. */
  function Verify(m: Store, email: string, otp: string, now: int): (Verdict, Store)
  {
    if email !in m then (NotFound, m)
    else if now > m[email].expiresAt then (Expired, m - {email})
    else if m[email].otp != otp then (WrongCode, m)
    else (Verified, m - {email})
  }

  /** The timer body: remove the entry only if it still holds the code it was set for. */
  function Cleanup(m: Store, email: string, otp: string): Store
  {
    if email in m && m[email].otp == otp then m - {email} else m
  }

  /** Storing overwrites any earlier code for the address and leaves other addresses alone. */
  lemma StoreCodeSpec(m: Store, email: string, otp: string, now: int)
    ensures StoreCode(m, email, otp, now)[email] == Entry(otp, now + 600000)
    ensures forall e :: e != email ==> (e in StoreCode(m, email, otp, now) <==> e in m)
    ensures forall e :: e != email && e in m ==> StoreCode(m, email, otp, now)[e] == m[e]
  {
  }

  /** An address without an entry is "not found", and nothing changes. */
  lemma VerifyMissing(m: Store, email: string, otp: string, now: int)
    requires email !in m
    ensures Verify(m, email, otp, now) == (NotFound, m)
  {
  }

  /**
   * Expiry is checked before the code: a late attempt removes the entry
   * even with the right code; at exactly the expiry time it is still live.
   */
  lemma VerifyExpiry(m: Store, email: string, otp: string, now: int)
    requires email in m
    ensures now > m[email].expiresAt ==> Verify(m, email, otp, now) == (Expired, m - {email})
    ensures now == m[email].expiresAt ==> Verify(m, email, otp, now).0 != Expired
  {
  }

  /** A wrong code within the validity period keeps the entry, so a retry is possible. */
  lemma VerifyWrongCodeKeeps(m: Store, email: string, otp: string, now: int)
    requires email in m && now <= m[email].expiresAt && m[email].otp != otp
    ensures Verify(m, email, otp, now) == (WrongCode, m)
  {
  }

  /** A successful verification consumes the code: the same code is then not found. */
  lemma VerifyNoReplay(m: Store, email: string, otp: string, now: int, later: int)
    requires Verify(m, email, otp, now).0 == Verified
    ensures email !in Verify(m, email, otp, now).1
    ensures Verify(Verify(m, email, otp, now).1, email, otp, later).0 == NotFound
  {
  }

  /**
   * Right after storing, verification succeeds exactly with that code and
   * no later than ten minutes after storing.
   */
  lemma VerifyAfterStore(m: Store, email: string, otp: string, attempt: string, stored: int, now: int)
    ensures Verify(StoreCode(m, email, otp, stored), email, attempt, now).0 == Verified
      <==> attempt == otp && now <= stored + Ttl
  {
  }

  /** A newer, different code for the same address survives the timer of an older one. */
  lemma CleanupKeepsNewerCode(m: Store, email: string, older: string, newer: string, t1: int, t2: int)
    requires older != newer
    ensures var m' := StoreCode(StoreCode(m, email, older, t1), email, newer, t2);
      Cleanup(m', email, older) == m'
  {
  }

  /**
   * A re-sent code equal to the older one is removed by the older timer:
   * at that timer's due time the newer entry still verifies, yet the
   * cleanup deletes it, five or more minutes early when re-sent that late.
   */
  lemma CleanupRemovesEqualNewerCode(m: Store, email: string, code: string, t1: int, t2: int)
    requires t1 < t2
    ensures var m' := StoreCode(StoreCode(m, email, code, t1), email, code, t2);
      && Verify(m', email, code, t1 + Ttl).0 == Verified
      && email !in Cleanup(m', email, code)
  {
  }

  /** The timer of the current code removes it and nothing else. */
  lemma CleanupRemovesOwnCode(m: Store, email: string, otp: string, now: int)
    ensures Cleanup(StoreCode(m, email, otp, now), email, otp) == m - {email}
  {
  }

  // ---------------------------------------------------------------------
  // The store as an object
  // ---------------------------------------------------------------------

  /** An HTTP reply: status and the `error` text (empty on success). */
  datatype Reply = Reply(status: int, error: string)

  class OtpStore {
    /** `otpStore`. */
    var entries: Store
    /** Cleanup timers not yet fired, oldest first: (address, code, due time). */
    var pending: seq<(string, string, int)>

    constructor()
      ensures entries == map[] && pending == []
    {
      entries := map[];
      pending := [];
    }

    /** `storeOTP`: sets the entry and schedules its cleanup. */
    method StoreOtp(email: string, otp: string, now: int)
      modifies this
      ensures entries == StoreCode(old(entries), email, otp, now)
      ensures pending == old(pending) + [(email, otp, now + Ttl)]
    {
      entries := entries[email := Entry(otp, now + Ttl)];
      pending := pending + [(email, otp, now + Ttl)];
    }

    /** `verifyStoredOTP`. */
    method VerifyStoredOtp(email: string, otp: string, now: int) returns (verdict: Verdict)
      modifies this
      ensures (verdict, entries) == Verify(old(entries), email, otp, now)
      ensures pending == old(pending)
    {
      if email !in entries {
        return NotFound;
      }
      if now > entries[email].expiresAt {
        entries := entries - {email};
        return Expired;
      }
      if entries[email].otp != otp {
        return WrongCode;
      }
      entries := entries - {email};
      verdict := Verified;
    }

    /**
     * The oldest scheduled cleanup fires at `now`, which is no earlier than
     * its due time, ten minutes after its code was stored.
     */
    method FireTimer(now: int)
      requires pending != [] && now >= pending[0].2
      modifies this
      ensures entries == Cleanup(old(entries), old(pending)[0].0, old(pending)[0].1)
      ensures pending == old(pending)[1..]
    {
      var (email, otp, _) := pending[0];
      pending := pending[1..];
      if email in entries && entries[email].otp == otp {
        entries := entries - {email};
      }
    }

    /**
     * `POST /api/send-otp` with the draw `r` and whether the mail went out:
     * a missing address or name answers 400 and changes nothing; otherwise
     * a fresh code is stored (and stays stored even when the mail fails,
     * which answers 500).
     */
    method SendOtp(email: Option<string>, fullName: Option<string>, r: real, now: int, mailSent: bool)
      returns (reply: Reply, code: Option<string>)
      requires 0.0 <= r < 1.0
      modifies this
      ensures email.None? || email.value == "" || fullName.None? || fullName.value == "" ==>
        && reply == Reply(400, "Email and full name are required")
        && code == None && entries == old(entries) && pending == old(pending)
      ensures email.Some? && email.value != "" && fullName.Some? && fullName.value != "" ==>
        && code == Some(GenerateOtp(r))
        && entries == StoreCode(old(entries), email.value, code.value, now)
        && pending == old(pending) + [(email.value, code.value, now + Ttl)]
        && reply == (if mailSent then Reply(200, "") else Reply(500, "Failed to send OTP. Please try again."))
    {
      if email.None? || email.value == "" || fullName.None? || fullName.value == "" {
        return Reply(400, "Email and full name are required"), None;
      }
      var otp := GenerateOtp(r);
      StoreOtp(email.value, otp, now);
      code := Some(otp);
      reply := if mailSent then Reply(200, "") else Reply(500, "Failed to send OTP. Please try again.");
    }

    /**
     * `POST /api/verify-otp`: a missing address or code answers 400 and
     * changes nothing; otherwise a failed verification answers 400 with the
     * store's error text and a successful one 200.
     */
    method VerifyOtp(email: Option<string>, otp: Option<string>, now: int) returns (reply: Reply)
      modifies this
      ensures email.None? || email.value == "" || otp.None? || otp.value == "" ==>
        reply == Reply(400, "Email and OTP are required") && entries == old(entries)
      ensures email.Some? && email.value != "" && otp.Some? && otp.value != "" ==>
        var (verdict, after) := Verify(old(entries), email.value, otp.value, now);
        && entries == after
        && reply == (if verdict == Verified then Reply(200, "") else Reply(400, ErrorText(verdict)))
      ensures pending == old(pending)
    {
      if email.None? || email.value == "" || otp.None? || otp.value == "" {
        return Reply(400, "Email and OTP are required");
      }
      var verdict := VerifyStoredOtp(email.value, otp.value, now);
      reply := if verdict == Verified then Reply(200, "") else Reply(400, ErrorText(verdict));
    }
  }
}
