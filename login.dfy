/** The sign-in screen (`views/Login.tsx`): citizens go phone → one-time
    code → profile, staff sign in with an id and a password. */
module Login {
  import opened Wrappers
  import opened Strings
  import opened Domain

  /** The code accepted whatever was sent. */
  const MasterCode: string := "123456"

  const StaffDomain: string := "@posty.gov.in"

  /** `Math.floor(100000 + random * 900000).toString()` for `0 <= random < 1`. */
  function OtpCode(random: real): (code: string)
    requires 0.0 <= random < 1.0
    ensures |code| == 6 && AllDigits(code)
    ensures 100000 <= DigitsValue(code) <= 999999
  {
    var n: nat := (100000.0 + random * 900000.0).Floor;
    NatToStringLength(n, 5);
    NatToStringRoundTrip(n);
    NatToString(n)
  }

  /** The test of `handleVerifyOtp`. */
  predicate Accepts(input: string, generated: Option<string>) {
    generated == Some(input) || input == MasterCode
  }

  /** `staffId.split('-')[1]`, `None` when there is no `-`. */
  function SecondSegment(id: string): Option<string> {
    var parts := Split(id, '-');
    if |parts| > 1 then Some(parts[1]) else None
  }

  /** `Officer ${staffId.split('-')[1] || staffId}`. */
  function StaffName(id: string): string {
    "Officer " + OrElse(SecondSegment(id), id)
  }

  /** The user `handleStaffLogin` signs in, `None` unless both the id and
      the password were entered. */
  function StaffLogin(staffId: string, password: string): Option<User> {
    if staffId != "" && password != "" then
      Some(User(staffId, "N/A", StaffName(staffId), staffId + StaffDomain, Agent))
    else None
  }

  /** The user `handleCompleteProfile` signs in; `now` is `Date.now()`. */
  function CitizenProfile(phone: string, name: string, email: string, now: nat): User {
    User("CIT-" + NatToString(now), phone, name, email, Citizen)
  }

  datatype LoginRole = UserRole | StaffRole

  datatype Step = PhoneStep | OtpStep | ProfileStep | StaffFormStep

  class LoginScreen {
    var role: Option<LoginRole>
    var step: Step
    var phone: string
    var otpInput: string
    var generatedOtp: Option<string>
    var showToast: bool
    var resendTimer: nat

    constructor ()
      ensures role == None && step == PhoneStep && generatedOtp == None && resendTimer == 0
      ensures phone == "" && otpInput == "" && !showToast
    {
      role, step := None, PhoneStep;
      phone, otpInput := "", "";
      generatedOtp := None;
      showToast := false;
      resendTimer := 0;
    }

    /** The citizen button. */
    method ChooseCitizen()
      modifies this`role, this`step
      ensures role == Some(UserRole) && step == PhoneStep
    {
      role := Some(UserRole);
      step := PhoneStep;
    }

    /** The staff button. */
    method ChooseStaff()
      modifies this`role, this`step
      ensures role == Some(StaffRole) && step == StaffFormStep
    {
      role := Some(StaffRole);
      step := StaffFormStep;
    }

    /** The Back button: the role is cleared, the step is left as it was. */
    method Back()
      modifies this`role, this`showToast
      ensures role == None && !showToast
    {
      role := None;
      showToast := false;
    }

    /** `handleSendOtp` (also the resend button): with a phone number of at
        least ten characters a fresh code is generated, the step becomes
        `otp` and the resend countdown starts at 30; otherwise nothing. */
    method SendOtp(random: real)
      requires 0.0 <= random < 1.0
      modifies this`generatedOtp, this`step, this`showToast, this`resendTimer
      ensures |phone| >= 10 ==>
        generatedOtp == Some(OtpCode(random)) && step == OtpStep && showToast && resendTimer == 30
      ensures |phone| < 10 ==>
        (generatedOtp == old(generatedOtp) && step == old(step) && showToast == old(showToast)
         && resendTimer == old(resendTimer))
    {
      if |phone| >= 10 {
        var code := OtpCode(random);
        generatedOtp := Some(code);
        step := OtpStep;
        showToast := true;
        resendTimer := 30;
      }
    }

    /** Whether the resend button is disabled. */
    predicate ResendDisabled()
      reads this
    {
      resendTimer > 0
    }

    /** One firing of the countdown interval, which only runs while the
        timer is positive. */
    method Tick()
      modifies this`resendTimer
      ensures resendTimer == if old(resendTimer) > 0 then old(resendTimer) - 1 else 0
    {
      if resendTimer > 0 {
        resendTimer := resendTimer - 1;
      }
    }

    /** The delayed body of `handleVerifyOtp`: the profile step follows an
        accepted code; a rejected one leaves the step unchanged. */
    method VerifyOtp()
      modifies this`step
      ensures step == if Accepts(otpInput, generatedOtp) then ProfileStep else old(step)
    {
      if Some(otpInput) == generatedOtp || otpInput == MasterCode {
        step := ProfileStep;
      }
    }
  }

  /** The countdown after `n` ticks from `t`. */
  function Countdown(t: nat, n: nat): nat
    decreases n
  {
    if n == 0 then t else Countdown(if t > 0 then t - 1 else 0, n - 1)
  }
}

/** What the sign-in screen promises. */
module LoginProperties {
  import opened Wrappers
  import opened Strings
  import opened Domain
  import opened Login

  /** The code is accepted exactly when it is the one sent or the master code. */
  lemma AcceptsIff(input: string, generated: Option<string>)
    ensures Accepts(input, generated) <==> (generated.Some? && input == generated.value) || input == "123456"
  {
  }

  /** The countdown drops by one per tick, stops at 0, and after 30 ticks
      from a fresh send the resend button is enabled again. */
  lemma {:induction false} CountdownFloor(t: nat, n: nat)
    ensures Countdown(t, n) == if n <= t then t - n else 0
    decreases n
  {
    if n > 0 {
      CountdownFloor(if t > 0 then t - 1 else 0, n - 1);
    }
  }

  lemma ResendAfterThirty(n: nat)
    ensures Countdown(30, n) == 0 <==> n >= 30
  {
    CountdownFloor(30, n);
  }

  lemma {:induction false} SplitFirst(b: string, rest: string, sep: char)
    requires sep !in b
    requires rest == [] || rest[0] == sep
    ensures Split(b + rest, sep)[0] == b
    decreases |b|
  {
    if b == [] {
      if rest != [] {
        assert (b + rest)[0] == sep;
      }
    } else {
      SplitFirst(b[1..], rest, sep);
      assert (b + rest)[1..] == b[1..] + rest;
    }
  }

  /** The staff name is `Officer` and the text between the first and the
      second `-`, when that text is not empty. */
  lemma StaffNameSegment(a: string, b: string, rest: string)
    requires '-' !in a && '-' !in b && b != ""
    requires rest == [] || rest[0] == '-'
    ensures StaffName(a + "-" + b + rest) == "Officer " + b
  {
    SplitAfterPiece(a, '-', b + rest);
    assert a + "-" + b + rest == a + ['-'] + (b + rest);
    SplitFirst(b, rest, '-');
  }

  /** An id without `-` is used whole. */
  lemma StaffNameNoDash(id: string)
    requires '-' !in id
    ensures StaffName(id) == "Officer " + id
  {
    SplitPiece(id, '-');
  }

  /** So is an id whose first `-` is followed by another `-` or ends it:
      the second segment is empty, hence falsy. */
  lemma StaffNameEmptySegment(a: string, rest: string)
    requires '-' !in a
    requires rest == [] || rest[0] == '-'
    ensures StaffName(a + "-" + rest) == "Officer " + a + "-" + rest
  {
    SplitAfterPiece(a, '-', rest);
    assert a + "-" + rest == a + ['-'] + rest;
    SplitFirst([], rest, '-');
    assert [] + rest == rest;
  }

  /** Staff sign-in needs both fields; the user is an agent with phone
      `N/A` and an address at `posty.gov.in`. */
  lemma StaffLoginShape(staffId: string, password: string)
    ensures StaffLogin(staffId, password).Some? <==> staffId != "" && password != ""
    ensures StaffLogin(staffId, password).Some? ==>
      var u := StaffLogin(staffId, password).value;
      u.id == staffId && u.role == Agent && u.phone == "N/A"
      && u.email == staffId + "@posty.gov.in" && u.name[..8] == "Officer "
  {
  }

  /** A citizen profile carries the entered details and an id `CIT-` plus
      the clock reading, distinct for distinct readings. */
  lemma CitizenProfileShape(phone: string, name: string, email: string, now: nat, later: nat)
    ensures var u := CitizenProfile(phone, name, email, now);
      u.role == Citizen && u.phone == phone && u.name == name && u.email == email
      && u.id[..4] == "CIT-"
    ensures CitizenProfile(phone, name, email, now).id == CitizenProfile(phone, name, email, later).id
        <==> now == later
  {
    var i1 := CitizenProfile(phone, name, email, now).id;
    var i2 := CitizenProfile(phone, name, email, later).id;
    if i1 == i2 {
      assert i1[4..] == NatToString(now) && i2[4..] == NatToString(later);
      NatToStringInjective(now, later);
    }
  }
}
