/** The one-time-code page of modern-chat-app/app/verify-otp/page.tsx. The
    page's four state variables are the fields of `OtpForm`; `email` is the
    `email` query parameter (None when absent). handleSubmit is split at its
    `await`: `StartSubmit` returns the request it sends and `FinishSubmit`
    takes its outcome. */
module VerifyOtpPage {
  import opened Common

  /** The code length the page accepts. */
  const OTP_LENGTH: nat := 6

  /** `\D` without the `u` flag: anything but the ASCII digits. */
  predicate IsDigit(c: char) {
    '0' <= c <= '9'
  }

  predicate AllDigits(s: string) {
    forall i :: 0 <= i < |s| ==> IsDigit(s[i])
  }

  /** `value.replace(/\D/g, "")` (verify-otp/page.tsx:98): the digits of the
      input, in order. */
  function StripNonDigits(s: string): (r: string)
    ensures AllDigits(r) && |r| <= |s|
    // every digit of the input survives, and only characters of the input appear
    ensures forall i :: 0 <= i < |s| && IsDigit(s[i]) ==> s[i] in r
    ensures forall i :: 0 <= i < |r| ==> r[i] in s
  {
    Filter(s, IsDigit)
  }

  /** An input that is already all digits passes through unchanged; in
      particular stripping twice is stripping once. */
  lemma StripDigitsUnchanged(s: string)
    requires AllDigits(s)
    ensures StripNonDigits(s) == s
  {
    FilterKeepsAll(s, IsDigit);
  }

  lemma StripIdempotent(s: string)
    ensures StripNonDigits(StripNonDigits(s)) == StripNonDigits(s)
  {
    StripDigitsUnchanged(StripNonDigits(s));
  }

  /** Stripping keeps order: the digits of a concatenation are the digits
      of its parts. */
  lemma StripConcat(a: string, b: string)
    ensures StripNonDigits(a + b) == StripNonDigits(a) + StripNonDigits(b)
  {
    FilterConcat(a, b, IsDigit);
  }

  /** The request handleSubmit sends. */
  datatype VerifyRequest = VerifyRequest(email: string, otp: string)

  /** The redirect of the page's effect (verify-otp/page.tsx:23-27): without
      an email the page goes back to registration. */
  function MissingEmailRedirect(email: Option<string>): (r: Option<string>)
    ensures r.Some? <==> email.None? || email.value == ""
    ensures r.Some? ==> r.value == "/register"
  {
    if email.None? || email.value == "" then Some("/register") else None
  }

  class OtpForm {
    var otp: string
    var isLoading: bool
    var error: string
    var success: string

    /** The code held is a string of at most six digits. */
    ghost predicate Valid()
      reads this
    {
      |otp| <= OTP_LENGTH && AllDigits(otp)
    }

    constructor ()
      ensures Valid() && otp == "" && !isLoading && error == "" && success == ""
    {
      otp := "";
      isLoading := false;
      error := "";
      success := "";
    }

    /** handleOtpChange (verify-otp/page.tsx:50-54): a candidate longer than
        six is dropped and the code kept as it was; it is never cut down. */
    method HandleOtpChange(value: string)
      modifies this
      ensures |value| <= OTP_LENGTH ==> otp == value
      ensures |value| > OTP_LENGTH ==> otp == old(otp)
      ensures |old(otp)| <= OTP_LENGTH ==> |otp| <= OTP_LENGTH
      ensures isLoading == old(isLoading) && error == old(error) && success == old(success)
    {
      if |value| <= OTP_LENGTH {
        otp := value;
      }
    }

    /** The input's onChange (verify-otp/page.tsx:98): the digits of what was
        typed are offered to handleOtpChange. */
    method OnInput(raw: string)
      requires Valid()
      modifies this
      ensures Valid()
      ensures otp == (if |StripNonDigits(raw)| <= OTP_LENGTH then StripNonDigits(raw) else old(otp))
      ensures isLoading == old(isLoading) && error == old(error) && success == old(success)
    {
      HandleOtpChange(StripNonDigits(raw));
    }

    /** The submit button's `disabled` (verify-otp/page.tsx:110). */
    function SubmitDisabled(): (r: bool)
      reads this
      ensures !r <==> !isLoading && |otp| == OTP_LENGTH
    {
      isLoading || |otp| != OTP_LENGTH
    }

    /** handleSubmit up to its request (verify-otp/page.tsx:29-38): without
        an email nothing happens; otherwise the code is sent as it stands. */
    method StartSubmit(email: Option<string>) returns (request: Option<VerifyRequest>)
      modifies this
      ensures email.None? || email.value == "" ==> request == None && unchanged(this)
      ensures email.Some? && email.value != "" ==>
        && request == Some(VerifyRequest(email.value, old(otp)))
        && otp == old(otp) && isLoading && error == "" && success == ""
    {
      if email.None? || email.value == "" {
        return None;
      }
      isLoading := true;
      error := "";
      success := "";
      request := Some(VerifyRequest(email.value, otp));
    }

    /** handleSubmit after its request (verify-otp/page.tsx:39-47): success
        schedules the move to /login; a failure shows the error's message. */
    method FinishSubmit(verified: bool, message: Option<string>) returns (loginTimer: bool)
      modifies this
      ensures !isLoading && otp == old(otp) && loginTimer == verified
      ensures verified ==> success == "Email verified successfully! Redirecting to login..." && error == old(error)
      ensures !verified ==>
        error == (if message.Some? then message.value else "Verification failed. Please try again.")
        && success == old(success)
    {
      if verified {
        success := "Email verified successfully! Redirecting to login...";
      } else {
        error := if message.Some? then message.value else "Verification failed. Please try again.";
      }
      isLoading := false;
      loginTimer := verified;
    }
  }

  /** An enabled submit button means the code is exactly six digits. */
  lemma EnabledMeansSixDigits(f: OtpForm)
    requires f.Valid() && !f.SubmitDisabled()
    ensures |f.otp| == OTP_LENGTH && AllDigits(f.otp)
  {
  }
}
