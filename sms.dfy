/** Model of the SMS service: phone and message validation, a single send, the bulk
    fan-out with what each of its iterations does, and the alert message builders. The device (permission
    dialogs, the native SMS module, the `sms:` URL handler) is an oracle of `PlatformReply`s;
    progress reports, device requests and pauses are recorded per contact. */
module Sms {
  import opened Common
  import opened Contacts

  const SendDelayMs := 500

  /** What the device does when asked to deliver one message. */
  datatype PlatformReply =
      /** Android: whether the permission check passed, whether the request that follows a
          failed check was granted, and the failure the native module reported, if any. */
    | Android(permissionHeld: bool, permissionGranted: bool, failure: Option<string>)
      /** Other platforms: whether the `sms:` URL can be opened, and the error opening it raised, if any. */
    | SmsApp(canOpen: bool, openFailure: Option<string>)

  /** What a successful send resolves to (its message id and timestamp are left out). */
  datatype Receipt = Receipt(via: string, phoneNumber: string)

  /** The errors a send throws. */
  datatype SmsError =
    | InvalidPhone
    | EmptyMessage
    | PermissionDenied
    | SendFailed(reason: string)
    | AppUnavailable
    | OpenFailed(reason: string)
  {
    /** Raised by the device rather than by validation. */
    predicate FromDevice() {
      !InvalidPhone? && !EmptyMessage?
    }

    /** The thrown error's `message`. */
    function Text(): string {
      match this
      case InvalidPhone => "Invalid phone number format"
      case EmptyMessage => "Message cannot be empty"
      case PermissionDenied => "SMS permission denied by user"
      case SendFailed(reason) => "Failed to send SMS: " + reason
      case AppUnavailable => "Could not open SMS app: Cannot open SMS app on this device"
      case OpenFailed(reason) => "Could not open SMS app: " + reason
    }
  }

  type SendOutcome = Result<Receipt, SmsError>

  // ---------------------------------------------------------------- validation

  /** `validatePhoneNumber`: between 10 and 15 digits, whatever else the string holds. */
  function ValidatePhoneNumber(phone: string): (ok: bool)
    ensures ok <==> 10 <= CountDigits(phone) <= 15
  {
    DigitsCount(phone);
    var cleaned := Digits(phone);
    10 <= |cleaned| <= 15
  }

  /** `formatPhoneNumber`. */
  function FormatPhoneNumber(phone: string): string {
    Digits(phone)
  }

  /** A formatted number is the digits of the input: only digits, as many as the input has,
      and every digit the input holds. */
  lemma FormatPhoneNumberDigits(phone: string)
    ensures forall i :: 0 <= i < |FormatPhoneNumber(phone)| ==> IsDigit(FormatPhoneNumber(phone)[i])
    ensures |FormatPhoneNumber(phone)| == CountDigits(phone)
    ensures forall c :: IsDigit(c) ==> (c in FormatPhoneNumber(phone) <==> c in phone)
  {
    DigitsMembers(phone);
    DigitsCount(phone);
  }

  /** Formatting is idempotent and does not change whether a number is valid. */
  lemma FormatPhoneNumberStable(phone: string)
    ensures FormatPhoneNumber(FormatPhoneNumber(phone)) == FormatPhoneNumber(phone)
    ensures ValidatePhoneNumber(FormatPhoneNumber(phone)) == ValidatePhoneNumber(phone)
  {
    DigitsIdempotent(phone);
    DigitsCount(phone);
    DigitsCount(Digits(phone));
  }

  /** Both checks `sendSMS` makes before it touches the device. */
  predicate PassesValidation(phone: string, message: string) {
    ValidatePhoneNumber(phone) && |Trim(message)| != 0
  }

  // -------------------------------------------------------------------- sending

  /** `sendViaAndroid` / `openSMSApp`: the device half of a send. */
  function Deliver(phone: string, reply: PlatformReply): SendOutcome {
    match reply
    case Android(held, granted, failure) =>
      if !held && !granted then Err(PermissionDenied)
      else if failure.Some? then Err(SendFailed(failure.value))
      else Ok(Receipt("android_sms", FormatPhoneNumber(phone)))
    case SmsApp(canOpen, openFailure) =>
      if !canOpen then Err(AppUnavailable)
      else if openFailure.Some? then Err(OpenFailed(openFailure.value))
      else Ok(Receipt("sms_app", FormatPhoneNumber(phone)))
  }

  /** The device accepts a message exactly when permission is held or granted and the native
      module reports no failure (Android), or the `sms:` URL opens (elsewhere); an accepted
      message is addressed to the formatted number, and a refusal is a device error. */
  lemma DeliverOutcome(phone: string, reply: PlatformReply)
    ensures Deliver(phone, reply).Ok? <==> match reply
                                          case Android(held, granted, failure) => (held || granted) && failure.None?
                                          case SmsApp(canOpen, openFailure) => canOpen && openFailure.None?
    ensures Deliver(phone, reply).Ok? ==> Deliver(phone, reply).value.phoneNumber == FormatPhoneNumber(phone)
    ensures Deliver(phone, reply).Err? ==> Deliver(phone, reply).error.FromDevice()
    ensures reply.Android? && !reply.permissionHeld && !reply.permissionGranted ==> Deliver(phone, reply) == Err(PermissionDenied)
  {
  }

  /** `sendSMS`: the phone is checked first, then the message, and only then the device is asked. */
  function SendSMS(phone: string, message: string, reply: PlatformReply): SendOutcome {
    if !ValidatePhoneNumber(phone) then Err(InvalidPhone)
    else if |Trim(message)| == 0 then Err(EmptyMessage)
    else Deliver(phone, reply)
  }

  /** A number without 10 to 15 digits fails first, whatever the message; a valid number with a
      blank message fails next; only otherwise is the device asked, and its answer is the result. */
  lemma SendSMSOutcome(phone: string, message: string, reply: PlatformReply)
    ensures SendSMS(phone, message, reply) == Err(InvalidPhone) <==> !(10 <= CountDigits(phone) <= 15)
    ensures SendSMS(phone, message, reply) == Err(EmptyMessage) <==> 10 <= CountDigits(phone) <= 15 && IsBlank(message)
    ensures PassesValidation(phone, message) <==> 10 <= CountDigits(phone) <= 15 && !IsBlank(message)
    ensures PassesValidation(phone, message) ==> SendSMS(phone, message, reply) == Deliver(phone, reply)
  {
    TrimEmptyIffBlank(message);
    DeliverOutcome(phone, reply);
  }

  // ------------------------------------------------------------------ bulk send

  datatype Status = Sending | Sent

  /** The object handed to `onProgress`. */
  datatype ProgressUpdate = ProgressUpdate(current: int, total: int, contactName: string, status: Status)

  /** What the device is asked to send. */
  datatype Request = Request(phoneNumber: string, message: string)

  /** What one iteration of the bulk send does that an observer can see, in this order: the
      `sending` report (when a callback was given), the request handed to the device (when
      validation passes), the pause, and the `sent` report. */
  datatype Iteration = Iteration(sending: Option<ProgressUpdate>, request: Option<Request>, pauseMs: int, sent: Option<ProgressUpdate>)

  /** One element of the array `sendBulkSMS` resolves to. */
  datatype SendResult =
    | Delivered(contactId: string, contactName: string, phone: string, receipt: Receipt)
    | Undelivered(contactId: string, contactName: string, phone: string, error: SmsError)

  /** The result recorded for one contact: its identity, and the send's outcome. */
  function Dispatch(c: Contact, message: string, reply: PlatformReply): SendResult {
    match SendSMS(c.phone, message, reply)
    case Ok(receipt) => Delivered(c.id, c.name, c.phone, receipt)
    case Err(e) => Undelivered(c.id, c.name, c.phone, e)
  }

  /** A recorded result names its contact, and is a delivery exactly when validation passed and
      the device accepted; a failure keeps the error the send threw. */
  lemma DispatchRecords(c: Contact, message: string, reply: PlatformReply)
    ensures var r := Dispatch(c, message, reply);
      && r.contactId == c.id && r.contactName == c.name && r.phone == c.phone
      && (r.Delivered? <==> PassesValidation(c.phone, message) && Deliver(c.phone, reply).Ok?)
      && (r.Undelivered? ==> Err(r.error) == SendSMS(c.phone, message, reply))
  {
  }

  /** The device is asked for a contact exactly when its result is not a validation error. */
  lemma RequestIffValidated(c: Contact, message: string, reply: PlatformReply)
    ensures PassesValidation(c.phone, message)
            <==> !(Dispatch(c, message, reply).Undelivered? && !Dispatch(c, message, reply).error.FromDevice())
  {
    DeliverOutcome(c.phone, reply);
  }

  /** `if (onProgress) onProgress(update)`: the update is reported only when a callback was given. */
  function Notify(reporting: bool, update: ProgressUpdate): Option<ProgressUpdate> {
    if reporting then Some(update) else None
  }

  /** `sendBulkSMS`: `platform(i)` is the device's answer for the `i`-th contact; `reporting`
      says whether an `onProgress` callback was given. One contact's failure does not stop
      the others: every contact gets exactly one result and one round, in order. */
  method SendBulkSMS(contacts: seq<Contact>, message: string, reporting: bool, platform: nat -> PlatformReply)
    returns (results: seq<SendResult>, rounds: seq<Iteration>)
    ensures |results| == |contacts| && |rounds| == |contacts|
    ensures forall i :: 0 <= i < |contacts| ==> results[i] == Dispatch(contacts[i], message, platform(i))
    ensures forall i :: 0 <= i < |contacts| ==>
      && rounds[i].sending == Notify(reporting, ProgressUpdate(i + 1, |contacts|, contacts[i].name, Sending))
      && rounds[i].sent == Notify(reporting, ProgressUpdate(i + 1, |contacts|, contacts[i].name, Sent))
      && rounds[i].pauseMs == SendDelayMs
    ensures forall i :: 0 <= i < |contacts| ==>
      && (rounds[i].request.Some? <==> PassesValidation(contacts[i].phone, message))
      && (rounds[i].request.Some? ==> rounds[i].request.value == Request(FormatPhoneNumber(contacts[i].phone), message))
  {
    results, rounds := [], [];
    var i := 0;
    while i < |contacts|
      invariant 0 <= i <= |contacts| && |results| == i && |rounds| == i
      invariant forall j :: 0 <= j < i ==> results[j] == Dispatch(contacts[j], message, platform(j))
      invariant forall j :: 0 <= j < i ==>
        && rounds[j].sending == Notify(reporting, ProgressUpdate(j + 1, |contacts|, contacts[j].name, Sending))
        && rounds[j].sent == Notify(reporting, ProgressUpdate(j + 1, |contacts|, contacts[j].name, Sent))
        && rounds[j].pauseMs == SendDelayMs
      invariant forall j :: 0 <= j < i ==>
        && (rounds[j].request.Some? <==> PassesValidation(contacts[j].phone, message))
        && (rounds[j].request.Some? ==> rounds[j].request.value == Request(FormatPhoneNumber(contacts[j].phone), message))
    {
      var contact := contacts[i];
      var sending := Notify(reporting, ProgressUpdate(i + 1, |contacts|, contact.name, Sending));
      var request := if PassesValidation(contact.phone, message)
                     then Some(Request(FormatPhoneNumber(contact.phone), message)) else None;
      var outcome := SendSMS(contact.phone, message, platform(i));
      var result := match outcome
        case Ok(receipt) => Delivered(contact.id, contact.name, contact.phone, receipt)
        case Err(e) => Undelivered(contact.id, contact.name, contact.phone, e);
      results := results + [result];
      var sent := Notify(reporting, ProgressUpdate(i + 1, |contacts|, contact.name, Sent));
      rounds := rounds + [Iteration(sending, request, SendDelayMs, sent)];
      i := i + 1;
    }
  }

  // ----------------------------------------------------------- message builders

  const Signature := "📍 Sent via SafeSearch App"

  /** The closing lines every alert shares; `time` stands for `new Date().toLocaleString()`. */
  function Footer(time: string): string {
    "Time: " + time + "\n" + Signature
  }

  /** `sendAudioSMS`'s message; `duration` is `None` when absent. A zero duration is falsy and
      prints no duration text. */
  function AudioMessage(duration: Option<real>, audioUrl: string, time: string): string {
    AudioTitle + DurationText(duration) + AudioIntro + ("Audio URL: " + audioUrl) + ("\n\n" + Footer(time))
  }

  const AudioTitle := "🚨 EMERGENCY AUDIO MESSAGE"
  const AudioIntro := " 🚨\n\nI've sent an emergency audio message.\n\n"

  function DurationText(duration: Option<real>): string {
    if duration.Some? && duration.value != 0.0 then " (" + IntToString(Round(duration.value)) + " seconds)" else ""
  }

  /** The audio message is never blank: it opens with the siren emoji. */
  lemma AudioMessageNotBlank(duration: Option<real>, audioUrl: string, time: string)
    ensures AudioMessage(duration, audioUrl, time) != [] && AudioMessage(duration, audioUrl, time)[0] == '🚨'
    ensures !IsBlank(AudioMessage(duration, audioUrl, time))
  {
    assert AudioTitle[0] == '🚨';
    assert AudioMessage(duration, audioUrl, time)[0] == AudioTitle[0];
  }

  /** `sendAudioSMS`: only the phone check or the device can fail it. */
  lemma AudioSmsReachesDevice(phone: string, duration: Option<real>, audioUrl: string, time: string, reply: PlatformReply)
    ensures ValidatePhoneNumber(phone) ==> SendSMS(phone, AudioMessage(duration, audioUrl, time), reply) == Deliver(phone, reply)
  {
    AudioMessageNotBlank(duration, audioUrl, time);
    SendSMSOutcome(phone, AudioMessage(duration, audioUrl, time), reply);
  }

  /** The audio message carries the audio URL, and the rounded duration when one was given. */
  lemma AudioMessageCarries(duration: Option<real>, audioUrl: string, time: string)
    ensures Contains(AudioMessage(duration, audioUrl, time), "Audio URL: " + audioUrl)
    ensures duration.Some? && duration.value != 0.0 ==>
              Contains(AudioMessage(duration, audioUrl, time), " (" + IntToString(Round(duration.value)) + " seconds)")
  {
    var d := DurationText(duration);
    var url := "Audio URL: " + audioUrl;
    var rest := "\n\n" + Footer(time);
    ContainsMiddle(AudioTitle + d + AudioIntro, url, rest);
    assert AudioTitle + d + AudioIntro + url + rest == AudioTitle + d + (AudioIntro + url + rest);
    ContainsMiddle(AudioTitle, d, AudioIntro + url + rest);
  }

  /** What `sendEmergencyAlert` does with its alert type. */
  datatype AlertPlan =
    | ViaLocation             // delegates to the location SMS
    | Compose(message: string) // sends this text with `sendSMS`
    | Refuse(error: string)   // throws before any send

  /** The shape of every composed alert: a titled headline between sirens, a plea, the footer. */
  function AlertText(title: string, plea: string, time: string): string {
    "🚨 " + title + " 🚨\n\n" + plea + "\n\n" + Footer(time)
  }

  function GeneralAlertText(time: string): string {
    AlertText("EMERGENCY ALERT", "I need immediate assistance!", time)
  }

  /** `sendEmergencyAlert`'s switch; `customMessage` is `None` when not given, and an empty one is falsy. */
  function EmergencyAlertPlan(alertType: string, customMessage: Option<string>, time: string): AlertPlan {
    if alertType == "location" then ViaLocation
    else if alertType == "audio" then Refuse("Use sendAudioSMS for audio messages")
    else if alertType == "medical" then Compose(AlertText("MEDICAL EMERGENCY", "I need immediate medical assistance!", time))
    else if alertType == "police" then Compose(AlertText("POLICE ASSISTANCE NEEDED", "I need police assistance immediately!", time))
    else if alertType == "fire" then Compose(AlertText("FIRE EMERGENCY", "I need fire department assistance!", time))
    else if customMessage.Some? && customMessage.value != "" then Compose(customMessage.value)
    else Compose(GeneralAlertText(time))
  }

  /** Only an audio alert is refused and only a location alert is delegated; every other type is
      composed into a message that opens with the siren, except a non-empty custom message for an
      unknown type, which is sent as given. */
  lemma EmergencyAlertPlanCases(alertType: string, customMessage: Option<string>, time: string)
    ensures EmergencyAlertPlan(alertType, customMessage, time).Refuse? <==> alertType == "audio"
    ensures EmergencyAlertPlan(alertType, customMessage, time).ViaLocation? <==> alertType == "location"
    ensures alertType in {"medical", "police", "fire"} ==>
              EmergencyAlertPlan(alertType, customMessage, time).Compose?
              && EmergencyAlertPlan(alertType, customMessage, time).message[0] == '🚨'
    ensures alertType !in {"location", "audio", "medical", "police", "fire"} ==>
              EmergencyAlertPlan(alertType, customMessage, time)
              == if customMessage.Some? && customMessage.value != "" then Compose(customMessage.value)
                 else Compose(GeneralAlertText(time))
  {
  }

  /** The three typed alerts and the general alert open with the siren, so for a valid number
      only the device can fail them. A custom text for an unknown type is checked like any
      message: one of only whitespace is truthy, is sent as given, and is refused as empty. */
  lemma EmergencyAlertSend(phone: string, alertType: string, customMessage: Option<string>, time: string, reply: PlatformReply)
    requires EmergencyAlertPlan(alertType, customMessage, time).Compose?
    ensures var m := EmergencyAlertPlan(alertType, customMessage, time).message;
      (alertType in {"medical", "police", "fire"} || customMessage.None? || customMessage.value == "") ==>
        ValidatePhoneNumber(phone) ==> SendSMS(phone, m, reply) == Deliver(phone, reply)
    ensures var m := EmergencyAlertPlan(alertType, customMessage, time).message;
      (alertType !in {"medical", "police", "fire"} && customMessage.Some? && customMessage.value != "") ==>
        ValidatePhoneNumber(phone) ==> (SendSMS(phone, m, reply) == Err(EmptyMessage) <==> IsBlank(customMessage.value))
  {
    var m := EmergencyAlertPlan(alertType, customMessage, time).message;
    if alertType in {"medical", "police", "fire"} || customMessage.None? || customMessage.value == "" {
      assert m[0] == '🚨';
      assert !IsWhitespace(m[0]);
    }
    SendSMSOutcome(phone, m, reply);
  }
}
