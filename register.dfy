/** The two-step sign-up page: the account form, whose submission sends a
    one-time code by e-mail, and the code form with its ten-minute
    countdown and its resend button. */
module Register {
  import opened Common

  const MismatchError := "Passwords do not match"
  const ShortPasswordError := "Password must be at least 6 characters"
  const RegistrationFailed := "Registration failed"
  const InvalidCode := "Invalid OTP"
  const ResendFailed := "Failed to resend OTP"
  const CodeSent := "Verification code sent to your email!"
  const CodeResent := "New OTP sent to your email!"
  const MinPasswordLength := 6
  const CodeLength := 6
  /** Seconds a code stays valid. */
  const CodeLifetime := 600
  /** The resend button stays disabled until this many seconds are left. */
  const ResendAfter := 540

  /** `formatTime`: whole minutes, a colon, and the seconds padded to two
      digits. */
  function FormatTime(seconds: nat): string
  {
    Decimal(seconds / 60) + ":" + Pad2(seconds % 60)
  }

  /** `n.toString().padStart(2, '0')` for n below 100. */
  function Pad2(n: nat): (r: string)
    requires n < 100
    ensures |r| == 2 && AllDigits(r)
  {
    if n < 10 then "0" + Decimal(n)
    else
      assert Decimal(n) == Decimal(n / 10) + [DigitChar(n % 10)];
      assert |Decimal(n / 10)| == 1 by {
        assert Decimal(n / 10) == [DigitChar(n / 10)];
      }
      Decimal(n)
  }

  /** Reading the countdown back: the part before the colon is the number
      of minutes, the two digits after it the remaining seconds, and
      together they give the seconds left. */
  lemma FormatTimeRoundTrip(seconds: nat)
    ensures var t := FormatTime(seconds);
      var m := Decimal(seconds / 60);
      && t == m + ":" + t[|m| + 1..]
      && |t| == |m| + 3
      && AllDigits(t[|m| + 1..])
      && 60 * DigitsValue(m) + DigitsValue(t[|m| + 1..]) == seconds
  {
    var m := Decimal(seconds / 60);
    var p := Pad2(seconds % 60);
    var t := FormatTime(seconds);
    assert t == m + ":" + p;
    assert t[|m| + 1..] == p;
    DigitsValueOfDecimal(seconds / 60);
    Pad2Value(seconds % 60);
  }

  /** The padded digits read back as the number. */
  lemma Pad2Value(n: nat)
    requires n < 100
    ensures DigitsValue(Pad2(n)) == n
  {
    DigitsValueOfDecimal(n);
    if n < 10 {
      var d := Decimal(n);
      assert |d| == 1 by {
        assert d == [DigitChar(n)];
      }
      var r := "0" + d;
      assert r[..|r| - 1] == "0";
      assert r[|r| - 1] == d[0];
      assert d[..0] == [];
      assert "0"[..0] == [];
    }
  }

  /** `e.target.value.replace(/\D/g, '')` on what the browser lets into a
      field of at most six characters: the digits typed, in order. */
  function CodeField(typed: string): (code: string)
    ensures AllDigits(code) && |code| <= CodeLength
    ensures code == Filter(Take(typed, CodeLength), IsDigit)
  {
    var kept := Filter(Take(typed, CodeLength), IsDigit);
    DigitsOnly(Take(typed, CodeLength));
    kept
  }

  lemma DigitsOnly(s: string)
    ensures AllDigits(Filter(s, IsDigit))
  {
    var f := Filter(s, IsDigit);
    assert forall i :: 0 <= i < |f| ==> IsDigit(f[i]);
  }

  /** A field that already holds only digits is left as it is. */
  lemma CodeFieldKeepsDigits(typed: string)
    requires AllDigits(typed) && |typed| <= CodeLength
    ensures CodeField(typed) == typed
  {
    assert Take(typed, CodeLength) == typed;
    assert forall i :: 0 <= i < |typed| ==> IsDigit(typed[i]);
    FilterAll(typed, IsDigit);
  }

  predicate VerifyEnabled(loading: bool, code: string)
  {
    !loading && |code| == CodeLength
  }

  /** With no request on its way, the verify button is enabled exactly when
      the first six characters typed are all digits; while a request is on
      its way it is disabled whatever was typed. */
  lemma VerifyNeedsSixDigits(typed: string)
    ensures VerifyEnabled(false, CodeField(typed)) <==>
      |typed| >= CodeLength && AllDigits(typed[..CodeLength])
    ensures !VerifyEnabled(true, CodeField(typed))
  {
    var t := Take(typed, CodeLength);
    FilterKeepsAll(t, IsDigit);
    if |typed| >= CodeLength {
      assert t == typed[..CodeLength];
    }
  }

  predicate ResendEnabled(loading: bool, timeLeft: int)
  {
    !loading && timeLeft <= ResendAfter
  }

  /** The countdown after `ticks` one-second ticks on the code step. */
  function AfterTicks(timeLeft: int, ticks: nat): (t: int)
    ensures timeLeft >= 0 ==> t == Max(0, timeLeft - ticks)
    decreases ticks
  {
    if ticks == 0 then timeLeft
    else
      var before := AfterTicks(timeLeft, ticks - 1);
      if before > 0 then before - 1 else before
  }

  /** After a code is (re)sent the resend button waits exactly sixty ticks. */
  lemma ResendWaitsOneMinute(ticks: nat)
    ensures ResendEnabled(false, AfterTicks(CodeLifetime, ticks)) <==> ticks >= CodeLifetime - ResendAfter
  {
  }

  // --------------------------------------------- the browser's e-mail check

  predicate IsLetter(c: char) { 'a' <= c <= 'z' || 'A' <= c <= 'Z' }

  /** A character allowed before the '@' of a valid e-mail address as the
      HTML standard defines it (the `type="email"` input's check). */
  predicate LocalChar(c: char)
  {
    IsLetter(c) || IsDigit(c) || c in "!#$%&'*+-/=?^_`{|}~."
  }

  /** One dot-separated label of the domain: 1 to 63 letters, digits and
      hyphens, neither starting nor ending with a hyphen. */
  predicate DomainLabel(s: string)
  {
    && 1 <= |s| <= 63 && s[0] != '-' && s[|s| - 1] != '-'
    && forall i :: 0 <= i < |s| ==> IsLetter(s[i]) || IsDigit(s[i]) || s[i] == '-'
  }

  /** The position of the first `c` in `s`, or `|s|` when there is none. */
  function IndexOf(s: string, c: char): (r: nat)
    ensures r <= |s|
    ensures r < |s| ==> s[r] == c
    ensures forall j :: 0 <= j < r ==> s[j] != c
  {
    if |s| == 0 || s[0] == c then 0 else 1 + IndexOf(s[1..], c)
  }

  /** A domain: labels joined by single dots. */
  predicate Domain(s: string)
    decreases |s|
  {
    var dot := IndexOf(s, '.');
    if dot == |s| then DomainLabel(s) else DomainLabel(s[..dot]) && Domain(s[dot + 1..])
  }

  /** The local part: at least one allowed character. */
  predicate LocalPart(s: string)
  {
    |s| >= 1 && forall i :: 0 <= i < |s| ==> LocalChar(s[i])
  }

  /** A valid e-mail address: a local part, an '@' and a domain. */
  predicate ValidEmail(s: string)
  {
    var at := IndexOf(s, '@');
    at < |s| && LocalPart(s[..at]) && Domain(s[at + 1..])
  }

  /** An address is valid exactly when it splits into a local part, an '@'
      and a domain; since neither part may hold an '@', the split is the
      one at the first '@'. */
  lemma ValidEmailParts(local: string, domain: string)
    ensures ValidEmail(local + "@" + domain) <==> LocalPart(local) && Domain(domain)
  {
    var s := local + "@" + domain;
    assert s[|local|] == '@';
    var at := IndexOf(s, '@');
    if LocalPart(local) {
      assert !LocalChar('@');
      assert forall j :: 0 <= j < |local| ==> s[j] == local[j];
      assert at == |local|;
      assert s[..at] == local && s[at + 1..] == domain;
    } else if at == |local| {
      assert s[..at] == local && s[at + 1..] == domain;
    } else if at < |local| && ValidEmail(s) {
      assert s[..at] == local[..at] && s[at + 1..] == local[at + 1..] + "@" + domain;
      DomainHasNoAt(s[at + 1..]);
      assert false;
    }
  }

  /** No '@' appears in a domain. */
  lemma {:induction false} DomainHasNoAt(s: string)
    requires Domain(s)
    ensures forall i :: 0 <= i < |s| ==> s[i] != '@'
    decreases |s|
  {
    var dot := IndexOf(s, '.');
    if dot < |s| {
      DomainHasNoAt(s[dot + 1..]);
      forall i | 0 <= i < |s| ensures s[i] != '@' {
        if i < dot { assert s[i] == s[..dot][i]; }
        else if i > dot { assert s[i] == s[dot + 1..][i - dot - 1]; }
      }
    }
  }

  /** The browser's validation of the account form, run before
      `handleRegisterSubmit`: name, e-mail and both passwords are
      `required`, and the e-mail must be a valid address. The phone is
      optional. */
  predicate AccountFormAccepted(name: string, email: string, password: string, confirmPassword: string)
  {
    name != "" && ValidEmail(email) && password != "" && confirmPassword != ""
  }

  datatype Step = AccountForm | CodeForm

  datatype AuthCall =
    | RegisterCall(name: string, email: string, password: string, phone: string)
    | VerifyCall(email: string, code: string, name: string, password: string, phone: string)

  datatype FormField = Name | Email | Password | ConfirmPassword | Phone

  class RegisterPage {
    var step: Step
    var name: string
    var email: string
    var password: string
    var confirmPassword: string
    var phone: string
    var code: string
    var error: string
    var success: string
    var loading: bool
    var timeLeft: int
    var calls: seq<AuthCall>
    var navigation: Option<string>

    constructor ()
      ensures step == AccountForm && name == "" && email == "" && password == ""
      ensures confirmPassword == "" && phone == "" && code == ""
      ensures error == "" && success == "" && !loading && timeLeft == CodeLifetime
      ensures calls == [] && navigation == None && Valid()
    {
      step := AccountForm;
      name := "";
      email := "";
      password := "";
      confirmPassword := "";
      phone := "";
      code := "";
      error := "";
      success := "";
      loading := false;
      timeLeft := CodeLifetime;
      calls := [];
      navigation := None;
    }

    /** The countdown never goes below zero nor above a code's lifetime,
        and the code field holds at most six digits. */
    predicate Valid()
      reads this
    {
      0 <= timeLeft <= CodeLifetime && AllDigits(code) && |code| <= CodeLength
    }

    /** `handleChange`: the field takes the value and the error clears. */
    method ChangeField(field: FormField, value: string)
      requires Valid()
      modifies this
      ensures Valid() && error == ""
      ensures name == (if field == Name then value else old(name))
      ensures email == (if field == Email then value else old(email))
      ensures password == (if field == Password then value else old(password))
      ensures confirmPassword == (if field == ConfirmPassword then value else old(confirmPassword))
      ensures phone == (if field == Phone then value else old(phone))
      ensures step == old(step) && code == old(code) && success == old(success) && loading == old(loading)
      ensures timeLeft == old(timeLeft) && calls == old(calls) && navigation == old(navigation)
    {
      match field {
        case Name => name := value;
        case Email => email := value;
        case Password => password := value;
        case ConfirmPassword => confirmPassword := value;
        case Phone => phone := value;
      }
      error := "";
    }

    /** The account form's submit button, leading to `handleRegisterSubmit`.
        The button is disabled while a request is on its way, and the
        browser refuses a form whose required fields are empty or whose
        e-mail is not a valid address; in either case nothing happens.
        Otherwise a mismatch is reported before a short password and neither
        reaches the backend; failing those, the account is registered, and
        on success the code step starts with a full countdown. */
    method SubmitAccount(reply: Reply<()>) returns (submitted: bool)
      requires Valid()
      modifies this
      ensures Valid()
      ensures submitted <==> !old(loading) && AccountFormAccepted(old(name), old(email), old(password), old(confirmPassword))
      ensures !submitted ==>
        error == old(error) && success == old(success) && calls == old(calls) && step == old(step)
        && timeLeft == old(timeLeft) && loading == old(loading)
      ensures submitted && old(password) != old(confirmPassword) ==>
        error == MismatchError && success == "" && calls == old(calls) && step == old(step)
        && timeLeft == old(timeLeft) && loading == old(loading)
      ensures submitted && old(password) == old(confirmPassword) && |old(password)| < MinPasswordLength ==>
        error == ShortPasswordError && success == "" && calls == old(calls) && step == old(step)
        && timeLeft == old(timeLeft) && loading == old(loading)
      ensures submitted && old(password) == old(confirmPassword) && |old(password)| >= MinPasswordLength ==>
        calls == old(calls) + [RegisterCall(name, email, password, phone)] && !loading
        && (reply.Ok? ==> step == CodeForm && timeLeft == CodeLifetime && success == CodeSent && error == "")
        && (reply.Err? ==>
              step == old(step) && timeLeft == old(timeLeft) && success == ""
              && error == OrElse(reply.message, RegistrationFailed))
      ensures name == old(name) && email == old(email) && password == old(password)
      ensures confirmPassword == old(confirmPassword) && phone == old(phone) && code == old(code)
      ensures navigation == old(navigation)
    {
      submitted := !loading && AccountFormAccepted(name, email, password, confirmPassword);
      if !submitted {
        return;
      }
      error := "";
      success := "";
      if password != confirmPassword {
        error := MismatchError;
        return;
      }
      if |password| < MinPasswordLength {
        error := ShortPasswordError;
        return;
      }
      loading := true;
      calls := calls + [RegisterCall(name, email, password, phone)];
      if reply.Ok? {
        success := CodeSent;
        step := CodeForm;
        timeLeft := CodeLifetime;
      } else {
        error := OrElse(reply.message, RegistrationFailed);
      }
      loading := false;
    }

    /** Typing into the code field. */
    method TypeCode(typed: string)
      requires Valid()
      modifies this
      ensures Valid() && code == CodeField(typed) && error == ""
      ensures step == old(step) && success == old(success) && loading == old(loading)
      ensures timeLeft == old(timeLeft) && calls == old(calls) && navigation == old(navigation)
      ensures name == old(name) && email == old(email) && password == old(password)
      ensures confirmPassword == old(confirmPassword) && phone == old(phone)
    {
      code := CodeField(typed);
      error := "";
    }

    /** The verify button, leading to `handleOTPVerify`. The button is
        disabled while a request is on its way and until six characters
        are typed, and pressing it then does nothing. Otherwise the code is
        checked with the account details; a success leaves for the home
        page, a failure reports the backend's message or a default. */
    method VerifyCode(reply: Reply<()>) returns (started: bool)
      requires Valid()
      modifies this
      ensures Valid() && loading == old(loading)
      ensures started <==> VerifyEnabled(old(loading), old(code))
      ensures !started ==>
        calls == old(calls) && navigation == old(navigation) && error == old(error)
      ensures started ==> calls == old(calls) + [VerifyCall(email, code, name, password, phone)]
      ensures started && reply.Ok? ==> navigation == Some("/") && error == ""
      ensures started && reply.Err? ==> navigation == old(navigation) && error == OrElse(reply.message, InvalidCode)
      ensures step == old(step) && success == old(success) && timeLeft == old(timeLeft) && code == old(code)
      ensures name == old(name) && email == old(email) && password == old(password)
      ensures confirmPassword == old(confirmPassword) && phone == old(phone)
    {
      started := VerifyEnabled(loading, code);
      if !started {
        return;
      }
      error := "";
      loading := true;
      calls := calls + [VerifyCall(email, code, name, password, phone)];
      if reply.Ok? {
        navigation := Some("/");
      } else {
        error := OrElse(reply.message, InvalidCode);
      }
      loading := false;
    }

    /** The resend button, leading to `handleResendOTP`. The button is
        disabled while a request is on its way and during the first minute
        of the countdown, and pressing it then does nothing. Otherwise it
        registers again; a success restarts the countdown, a failure
        reports a fixed message whatever the backend said. */
    method ResendCode(reply: Reply<()>) returns (started: bool)
      requires Valid()
      modifies this
      ensures Valid() && loading == old(loading)
      ensures started <==> ResendEnabled(old(loading), old(timeLeft))
      ensures !started ==>
        calls == old(calls) && success == old(success) && error == old(error) && timeLeft == old(timeLeft)
      ensures started ==> calls == old(calls) + [RegisterCall(name, email, password, phone)]
      ensures started && reply.Ok? ==> success == CodeResent && error == "" && timeLeft == CodeLifetime
      ensures started && reply.Err? ==> success == "" && error == ResendFailed && timeLeft == old(timeLeft)
      ensures step == old(step) && code == old(code) && navigation == old(navigation)
      ensures name == old(name) && email == old(email) && password == old(password)
      ensures confirmPassword == old(confirmPassword) && phone == old(phone)
    {
      started := ResendEnabled(loading, timeLeft);
      if !started {
        return;
      }
      error := "";
      success := "";
      loading := true;
      calls := calls + [RegisterCall(name, email, password, phone)];
      if reply.Ok? {
        success := CodeResent;
        timeLeft := CodeLifetime;
      } else {
        error := ResendFailed;
      }
      loading := false;
    }

    /** The "back to details" button of the code step: the account form
        shows again with everything typed so far, and the countdown stops
        where it stood. */
    method BackToDetails()
      requires Valid()
      modifies this
      ensures Valid() && step == AccountForm
      ensures code == old(code) && error == old(error) && success == old(success)
      ensures loading == old(loading) && timeLeft == old(timeLeft) && calls == old(calls)
      ensures navigation == old(navigation) && name == old(name) && email == old(email)
      ensures password == old(password) && confirmPassword == old(confirmPassword) && phone == old(phone)
    {
      step := AccountForm;
    }

    /** One second of the countdown: it runs only on the code step and only
        while time is left. */
    method Tick()
      requires Valid()
      modifies this
      ensures Valid()
      ensures step == CodeForm && old(timeLeft) > 0 ==> timeLeft == old(timeLeft) - 1
      ensures !(step == CodeForm && old(timeLeft) > 0) ==> timeLeft == old(timeLeft)
      ensures step == old(step) && code == old(code) && error == old(error) && success == old(success)
      ensures loading == old(loading) && calls == old(calls) && navigation == old(navigation)
      ensures name == old(name) && email == old(email) && password == old(password)
      ensures confirmPassword == old(confirmPassword) && phone == old(phone)
    {
      if step == CodeForm && timeLeft > 0 {
        timeLeft := timeLeft - 1;
      }
    }
  }
}
