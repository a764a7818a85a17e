/** The page's one-time-password state: sending a code to the e-mail address
    or the phone number, and checking the code the member types in.

    Remote calls are not made here: each operation receives the outcome the
    remote service would report, and records the call it would make as an
    event. */
module OtpVerification {
  import opened SignupTypes

  /** How a request to send a code ended. */
  datatype DispatchOutcome = Delivered | DispatchError

  /** How a request to check a code ended: the service's verdict, or a failure. */
  datatype ValidationOutcome = Checked(isValid: bool) | ValidationError

  /** A watched form value that JavaScript treats as false: missing or empty. */
  predicate Blank(value: Option<string>) {
    value.None? || value.value == ""
  }

  /** A watched code value that triggers a check: present and six characters long. */
  predicate CheckableCode(value: Option<string>) {
    value.Some? && |value.value| == 6
  }

  const EmailSentMessage := "OTP sent to email!"
  const PhoneSentMessage := "OTP sent to phone!"
  const SendFailedMessage := "Failed to send OTP."
  const VerifiedMessage := "OTP verified"

  class OtpController {
    /** A code has been delivered to the e-mail address / to the phone. */
    var emailSent: bool
    var phoneSent: bool
    /** The last verdict on the typed code; `None` until one arrives. */
    var isEmailOtpValid: Option<bool>
    var isPhoneOtpValid: Option<bool>
    /** The code values the effects last ran with; an effect runs again only
        when its value has changed. */
    var emailOtpSeen: Option<string>
    var phoneOtpSeen: Option<string>
    /** Everything the page has done so far, oldest first. */
    var events: seq<Event>

    /** A sent flag is only ever raised together with its success notification. */
    predicate Valid()
      reads this
    {
      && (emailSent ==> SuccessToast(EmailSentMessage) in events)
      && (phoneSent ==> SuccessToast(PhoneSentMessage) in events)
    }

    /** The e-mail button is disabled once a code has been sent. */
    function EmailSendDisabled(): bool
      reads this
    {
      emailSent
    }

    /** The phone button is disabled until a code has been sent. */
    function PhoneSendDisabled(): bool
      reads this
    {
      !phoneSent
    }

    constructor ()
      ensures Valid()
      ensures !emailSent && !phoneSent
      ensures isEmailOtpValid == None && isPhoneOtpValid == None
      ensures emailOtpSeen == None && phoneOtpSeen == None
      ensures events == []
      ensures !EmailSendDisabled() && PhoneSendDisabled()
    {
      emailSent := false;
      phoneSent := false;
      isEmailOtpValid := None;
      isPhoneOtpValid := None;
      emailOtpSeen := None;
      phoneOtpSeen := None;
      events := [];
    }

    /** Sends a code to `email`, the e-mail field's current value. A blank
        address is refused with a notification and no remote call. */
    method SendEmailOtp(email: Option<string>, outcome: DispatchOutcome)
      requires Valid()
      modifies this`emailSent, this`events
      ensures Valid()
      ensures Blank(email) ==>
                emailSent == old(emailSent) && events == old(events) + [ErrorToast("Enter a valid email first.")]
      ensures !Blank(email) && outcome == Delivered ==>
                emailSent && events == old(events) + [OtpDispatch(EmailChannel, email.value), SuccessToast(EmailSentMessage)]
      ensures !Blank(email) && outcome == DispatchError ==>
                emailSent == old(emailSent)
                && events == old(events) + [OtpDispatch(EmailChannel, email.value), ErrorToast(SendFailedMessage)]
    {
      if Blank(email) {
        events := events + [ErrorToast("Enter a valid email first.")];
        return;
      }
      events := events + [OtpDispatch(EmailChannel, email.value)];
      match outcome
      case Delivered =>
        emailSent := true;
        events := events + [SuccessToast(EmailSentMessage)];
      case DispatchError =>
        events := events + [ErrorToast(SendFailedMessage)];
    }

    /** Sends a code to `phoneNumber`, the phone field's current value. A blank
        number is refused with a notification and no remote call. */
    method SendPhoneOtp(phoneNumber: Option<string>, outcome: DispatchOutcome)
      requires Valid()
      modifies this`phoneSent, this`events
      ensures Valid()
      ensures Blank(phoneNumber) ==>
                phoneSent == old(phoneSent) && events == old(events) + [ErrorToast("Enter a valid phone number first.")]
      ensures !Blank(phoneNumber) && outcome == Delivered ==>
                phoneSent
                && events == old(events) + [OtpDispatch(PhoneChannel, phoneNumber.value), SuccessToast(PhoneSentMessage)]
      ensures !Blank(phoneNumber) && outcome == DispatchError ==>
                phoneSent == old(phoneSent)
                && events == old(events) + [OtpDispatch(PhoneChannel, phoneNumber.value), ErrorToast(SendFailedMessage)]
    {
      if Blank(phoneNumber) {
        events := events + [ErrorToast("Enter a valid phone number first.")];
        return;
      }
      events := events + [OtpDispatch(PhoneChannel, phoneNumber.value)];
      match outcome
      case Delivered =>
        phoneSent := true;
        events := events + [SuccessToast(PhoneSentMessage)];
      case DispatchError =>
        events := events + [ErrorToast(SendFailedMessage)];
    }

    /** A click on the e-mail button: ignored while the button is disabled,
        so at most one code is ever delivered to the e-mail address. */
    method ClickSendEmail(email: Option<string>, outcome: DispatchOutcome)
      requires Valid()
      modifies this`emailSent, this`events
      ensures Valid()
      ensures old(emailSent) ==> emailSent && events == old(events)
      ensures !old(emailSent) && Blank(email) ==>
                !emailSent && events == old(events) + [ErrorToast("Enter a valid email first.")]
      ensures !old(emailSent) && !Blank(email) && outcome == Delivered ==>
                emailSent && events == old(events) + [OtpDispatch(EmailChannel, email.value), SuccessToast(EmailSentMessage)]
      ensures !old(emailSent) && !Blank(email) && outcome == DispatchError ==>
                !emailSent && events == old(events) + [OtpDispatch(EmailChannel, email.value), ErrorToast(SendFailedMessage)]
    {
      if !EmailSendDisabled() {
        SendEmailOtp(email, outcome);
      }
    }

    /** A click on the phone button: ignored while the button is disabled. The
        button is disabled exactly while no code has been sent, so from the
        initial state a click never sends a code. */
    method ClickSendPhone(phoneNumber: Option<string>, outcome: DispatchOutcome)
      requires Valid()
      modifies this`phoneSent, this`events
      ensures Valid()
      ensures !old(phoneSent) ==> !phoneSent && events == old(events)
      ensures old(phoneSent) ==> phoneSent
      ensures old(phoneSent) && Blank(phoneNumber) ==>
                events == old(events) + [ErrorToast("Enter a valid phone number first.")]
      ensures old(phoneSent) && !Blank(phoneNumber) && outcome == Delivered ==>
                events == old(events) + [OtpDispatch(PhoneChannel, phoneNumber.value), SuccessToast(PhoneSentMessage)]
      ensures old(phoneSent) && !Blank(phoneNumber) && outcome == DispatchError ==>
                events == old(events) + [OtpDispatch(PhoneChannel, phoneNumber.value), ErrorToast(SendFailedMessage)]
    {
      if !PhoneSendDisabled() {
        SendPhoneOtp(phoneNumber, outcome);
      }
    }

    /** The e-mail code field was rendered with `value`. When the value has
        changed and is six characters long, the code is checked against the
        e-mail field's current value `email`. */
    method EmailOtpRendered(value: Option<string>, email: Option<string>, outcome: ValidationOutcome)
      requires Valid()
      modifies this`isEmailOtpValid, this`emailOtpSeen, this`events
      ensures Valid()
      ensures emailOtpSeen == value
      ensures value == old(emailOtpSeen) || !CheckableCode(value) ==>
                isEmailOtpValid == old(isEmailOtpValid) && events == old(events)
      ensures value != old(emailOtpSeen) && CheckableCode(value) ==>
                match outcome
                case Checked(b) =>
                  isEmailOtpValid == Some(b)
                  && events == old(events) + [OtpValidation(email, value.value), SuccessToast(VerifiedMessage)]
                case ValidationError =>
                  isEmailOtpValid == Some(false) && events == old(events) + [OtpValidation(email, value.value)]
    {
      var changed := value != emailOtpSeen;
      emailOtpSeen := value;
      if changed && CheckableCode(value) {
        events := events + [OtpValidation(email, value.value)];
        match outcome
        case Checked(b) =>
          isEmailOtpValid := Some(b);
          events := events + [SuccessToast(VerifiedMessage)];
        case ValidationError =>
          isEmailOtpValid := Some(false);
      }
    }

    /** The phone code field was rendered with `value`. When the value has
        changed and is six characters long, the code is checked against the
        phone field's current value `phoneNumber`. */
    method PhoneOtpRendered(value: Option<string>, phoneNumber: Option<string>, outcome: ValidationOutcome)
      requires Valid()
      modifies this`isPhoneOtpValid, this`phoneOtpSeen, this`events
      ensures Valid()
      ensures phoneOtpSeen == value
      ensures value == old(phoneOtpSeen) || !CheckableCode(value) ==>
                isPhoneOtpValid == old(isPhoneOtpValid) && events == old(events)
      ensures value != old(phoneOtpSeen) && CheckableCode(value) ==>
                match outcome
                case Checked(b) =>
                  isPhoneOtpValid == Some(b)
                  && events == old(events) + [OtpValidation(phoneNumber, value.value), SuccessToast(VerifiedMessage)]
                case ValidationError =>
                  isPhoneOtpValid == Some(false) && events == old(events) + [OtpValidation(phoneNumber, value.value)]
    {
      var changed := value != phoneOtpSeen;
      phoneOtpSeen := value;
      if changed && CheckableCode(value) {
        events := events + [OtpValidation(phoneNumber, value.value)];
        match outcome
        case Checked(b) =>
          isPhoneOtpValid := Some(b);
          events := events + [SuccessToast(VerifiedMessage)];
        case ValidationError =>
          isPhoneOtpValid := Some(false);
      }
    }
  }

  /** From a fresh page, no sequence of clicks on the phone button sends a
      code: the flag that would enable the button is only raised by a
      delivered code, which needs an enabled button. */
  method PhoneNeverSentByClicks(clicks: seq<(Option<string>, DispatchOutcome)>) returns (c: OtpController)
    ensures fresh(c)
    ensures !c.phoneSent && c.events == []
  {
    c := new OtpController();
    var i := 0;
    while i < |clicks|
      invariant 0 <= i <= |clicks|
      invariant c.Valid() && !c.phoneSent && c.events == []
    {
      c.ClickSendPhone(clicks[i].0, clicks[i].1);
      i := i + 1;
    }
  }
}
