/** The one-time-password screen: the 60-second resend countdown, the
    verify and resend handlers, and when their controls are enabled. Each
    firing of the one-second timer is an explicit `Tick`. */
module OtpVerify {

  const CountdownStart: int := 60
  const OtpLength: int := 6
  const VerifyFailed: string := "Kode OTP tidak valid. Silakan coba lagi."
  const ResendFailed: string := "Gagal mengirim ulang kode. Silakan coba lagi."

  /** The countdown and whether a new code may be requested. */
  datatype Timer = Timer(countdown: int, canResend: bool)

  /** One second passes: the pending timer lowers the countdown by one, and
      the countdown effect then either schedules the next timer or, at 0,
      enables resending. At 0 no timer is pending and nothing counts down. */
  function AfterTick(t: Timer): (r: Timer)
    ensures t.countdown > 0 ==> r.countdown == t.countdown - 1
    ensures t.countdown <= 0 ==> r.countdown == t.countdown
    ensures r.canResend <==> t.canResend || r.countdown <= 0
  {
    var c := if t.countdown > 0 then t.countdown - 1 else t.countdown;
    Timer(c, if c > 0 then t.canResend else true)
  }

  /** `n` seconds pass. */
  function Ticks(t: Timer, n: nat): Timer
    decreases n
  {
    if n == 0 then t else Ticks(AfterTick(t), n - 1)
  }

  /** After `n` seconds the countdown has fallen by `n` but not below zero,
      and resending is enabled once it reaches zero, not before. */
  lemma {:induction false} TicksCountDown(t: Timer, n: nat)
    requires t.countdown >= 0 && (t.countdown == 0 ==> t.canResend)
    ensures Ticks(t, n).countdown == if n >= t.countdown then 0 else t.countdown - n
    ensures Ticks(t, n).canResend <==> t.canResend || n >= t.countdown
    decreases n
  {
    if n > 0 {
      TicksCountDown(AfterTick(t), n - 1);
    }
  }

  /** From a fresh screen, or right after a successful resend, a new code
      can be requested after exactly sixty ticks. */
  lemma ResendAfterSixtyTicks(n: nat)
    ensures Ticks(Timer(CountdownStart, false), n).canResend <==> n >= 60
  {
    TicksCountDown(Timer(CountdownStart, false), n);
  }

  /** The handler that is waiting for its (simulated) call to return. */
  datatype Request = NoRequest | VerifyRequest | ResendRequest

  class VerifyScreen {
    var otp: string
    var isLoading: bool
    var error: string
    var countdown: int
    var canResend: bool
    var pending: Request

    /** The countdown lies in 0..60, resending is enabled exactly at 0, the
        code never exceeds six characters (the input's maximum length), and
        the screen is loading exactly while a handler awaits its call. */
    ghost predicate Valid()
      reads this
    {
      && 0 <= countdown <= CountdownStart
      && (canResend <==> countdown == 0)
      && |otp| <= OtpLength
      && (isLoading <==> pending != NoRequest)
    }

    function Clock(): Timer
      reads this
    {
      Timer(countdown, canResend)
    }

    /** The submit button is disabled iff the code is not six characters
        long or a call is in progress. */
    predicate SubmitDisabled()
      reads this
      ensures Valid() && !SubmitDisabled() ==> |otp| == OtpLength && pending == NoRequest
    {
      |otp| != OtpLength || isLoading
    }

    /** The resend button is disabled iff resending is not yet allowed or a
        call is in progress. */
    predicate ResendDisabled()
      reads this
      ensures Valid() && !ResendDisabled() ==> countdown == 0 && pending == NoRequest
      ensures Valid() && countdown > 0 ==> ResendDisabled()
    {
      !canResend || isLoading
    }

    constructor ()
      ensures Valid()
      ensures otp == "" && !isLoading && error == "" && pending == NoRequest
      ensures countdown == CountdownStart && !canResend
    {
      otp, isLoading, error := "", false, "";
      countdown, canResend := CountdownStart, false;
      pending := NoRequest;
    }

    /** The one-second timer fires. */
    method Tick()
      requires Valid()
      modifies this
      ensures Valid()
      ensures Clock() == AfterTick(old(Clock()))
      ensures otp == old(otp) && isLoading == old(isLoading) && error == old(error) && pending == old(pending)
    {
      if countdown > 0 {
        countdown := countdown - 1;
      }
      if countdown <= 0 {
        canResend := true;
      }
    }

    /** The code input, which holds at most six characters. */
    method SetOtp(value: string)
      requires Valid() && |value| <= OtpLength
      modifies this
      ensures Valid() && otp == value
      ensures Clock() == old(Clock()) && isLoading == old(isLoading) && error == old(error)
      ensures pending == old(pending)
    {
      otp := value;
    }

    /** `handleVerify` up to its `await`. It is reached by submitting the
        form, which the disabled submit button blocks while loading. A code
        of the wrong length does nothing; otherwise loading starts and the
        error is cleared. */
    method BeginVerify() returns (started: bool)
      requires Valid() && !isLoading
      modifies this
      ensures Valid()
      ensures started <==> |old(otp)| == OtpLength
      ensures started ==> isLoading && error == "" && pending == VerifyRequest
      ensures !started ==> isLoading == old(isLoading) && error == old(error) && pending == old(pending)
      ensures otp == old(otp) && Clock() == old(Clock())
    {
      if |otp| != OtpLength {
        return false;
      }
      isLoading := true;
      error := "";
      pending := VerifyRequest;
      started := true;
    }

    /** The rest of `handleVerify`. As written the awaited delay always
        resolves (`failed` is false) and the browser goes home; `failed` true
        stands for the failure of the verification call still to be written,
        which shows an error. Either way loading ends. */
    method FinishVerify(failed: bool) returns (goHome: bool)
      requires Valid() && pending == VerifyRequest
      modifies this
      ensures Valid()
      ensures goHome <==> !failed
      ensures !isLoading && pending == NoRequest
      ensures error == if failed then VerifyFailed else old(error)
      ensures otp == old(otp) && Clock() == old(Clock())
    {
      if failed {
        error := VerifyFailed;
      }
      goHome := !failed;
      isLoading := false;
      pending := NoRequest;
    }

    /** `handleResend` up to its `await`, reached from the resend button,
        which is disabled while loading. Before resending is allowed it does
        nothing; otherwise loading starts and the error is cleared. */
    method BeginResend() returns (started: bool)
      requires Valid() && !isLoading
      modifies this
      ensures Valid()
      ensures started <==> old(canResend)
      ensures started ==> isLoading && error == "" && pending == ResendRequest
      ensures !started ==> isLoading == old(isLoading) && error == old(error) && pending == old(pending)
      ensures otp == old(otp) && Clock() == old(Clock())
    {
      if !canResend {
        return false;
      }
      isLoading := true;
      error := "";
      pending := ResendRequest;
      started := true;
    }

    /** The rest of `handleResend`. As written the awaited delay always
        resolves (`failed` is false): the countdown restarts at 60, resending
        is disabled again and the code is cleared. `failed` true stands for
        the failure of the resend call still to be written, which shows an
        error. Either way loading ends. */
    method FinishResend(failed: bool)
      requires Valid() && pending == ResendRequest
      modifies this
      ensures Valid()
      ensures !isLoading && pending == NoRequest
      ensures !failed ==> countdown == CountdownStart && !canResend && otp == "" && error == old(error)
      ensures failed ==> Clock() == old(Clock()) && otp == old(otp) && error == ResendFailed
    {
      if !failed {
        countdown := CountdownStart;
        canResend := false;
        otp := "";
      } else {
        error := ResendFailed;
      }
      isLoading := false;
      pending := NoRequest;
    }
  }
}
