/** frontend/src/components/StepUpModal.js: the extra confirmation asked for before a
    sensitive action. A one-time code is "sent", typed in and checked locally. */
module StepUpModal {
  import opened Wrappers
  import opened JsString
  import opened Countdown

  const VALID_DEMO_CODE: string := "123456"
  const CODE_LENGTH: nat := 6
  const COUNTDOWN_SECONDS: int := 30

  /** The check handleVerify makes: the demo code, or any code of six UTF-16 units. */
  predicate VerifyAccepts(code: string) {
    code == VALID_DEMO_CODE || Length(code) == CODE_LENGTH
  }

  /** isCodeValid. */
  predicate IsCodeValid(code: string) {
    Length(code) == CODE_LENGTH
  }

  /** The demo code is itself six units long, so verification accepts exactly the codes
      that enable the confirm button: the demo code is no special case. */
  lemma VerifyAcceptsIffValid(code: string)
    ensures VerifyAccepts(code) <==> IsCodeValid(code)
  {
    assert Length(VALID_DEMO_CODE) == 6 by {
      assert Utf16(VALID_DEMO_CODE) == CodeUnits('1') + Utf16("23456");
      assert Utf16("23456") == CodeUnits('2') + Utf16("3456");
      assert Utf16("3456") == CodeUnits('3') + Utf16("456");
      assert Utf16("456") == CodeUnits('4') + Utf16("56");
      assert Utf16("56") == CodeUnits('5') + Utf16("6");
      assert Utf16("6") == CodeUnits('6') + Utf16("");
    }
  }

  /** The confirm button: absent before a code is sent, else enabled iff the code is
      valid. */
  function ConfirmButton(codeSent: bool, code: string): (r: Option<bool>)
    ensures r.Some? <==> codeSent
    ensures r.Some? ==> (r.value <==> Length(code) == 6)
  {
    if codeSent then Some(IsCodeValid(code)) else None
  }

  class StepUpDialog {
    var code: string
    var codeSent: bool
    const countdown: CountdownTimer

    /** The modal's state with a 30-second countdown that is not running. */
    constructor()
      ensures code == "" && !codeSent
      ensures fresh(countdown)
      ensures countdown.initialSeconds == COUNTDOWN_SECONDS
      ensures countdown.secondsLeft == COUNTDOWN_SECONDS && !countdown.isRunning
    {
      code := "";
      codeSent := false;
      countdown := new CountdownTimer(Some(COUNTDOWN_SECONDS), None);
    }

    /** The effect run when the modal becomes visible: empty code, no code sent, the
        countdown reset to its initial value and stopped. */
    method Open()
      modifies this, countdown
      ensures code == "" && !codeSent && ShowsSendSection()
      ensures countdown.secondsLeft == countdown.initialSeconds && !countdown.isRunning
    {
      code := "";
      codeSent := false;
      countdown.Reset(None);
    }

    /** handleSendCode: the code counts as sent and the countdown restarts. */
    method HandleSendCode()
      modifies this, countdown
      ensures codeSent && code == old(code) && !ShowsSendSection()
      ensures countdown.secondsLeft == countdown.initialSeconds && countdown.isRunning
    {
      codeSent := true;
      countdown.Restart();
    }

    /** The code input's change handler. */
    method ChangeCode(text: string)
      modifies this
      ensures code == text && codeSent == old(codeSent)
    {
      code := text;
    }

    /** handleVerify: confirms iff the code has six units. The countdown is not consulted,
        so an expired code still confirms, and nothing changes. */
    method HandleVerify() returns (confirmed: bool)
      ensures confirmed <==> IsCodeValid(code)
    {
      VerifyAcceptsIffValid(code);
      confirmed := VerifyAccepts(code);
    }

    /** The send-code section shows until a code is sent. */
    predicate ShowsSendSection()
      reads this
    {
      !codeSent
    }
  }
}
