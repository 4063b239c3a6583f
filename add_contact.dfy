/** The add-contact form's save: three guards on the form, then one call to the store. */
module AddContact {
  import opened Common
  import opened Contacts
  import Storage
  import Sms

  /** The first guard that failed; each is reported alone, as the message of an error dialog. */
  datatype FormError = MissingName | MissingPhone | MalformedPhone {
    function Message(): string {
      match this
      case MissingName => "Please enter a name"
      case MissingPhone => "Please enter a phone number"
      case MalformedPhone => "Please enter a valid phone number"
    }
  }

  /** `^[\+]?[1-9][\d]{1,14}$`: an optional plus, a non-zero digit, then 1 to 14 digits. */
  predicate MatchesPhonePattern(s: string) {
    var body := if s != [] && s[0] == '+' then s[1..] else s;
    && 2 <= |body| <= 15
    && '1' <= body[0] <= '9'
    && forall i :: 1 <= i < |body| ==> IsDigit(body[i])
  }

  /** The pattern is tested on the phone with every non-digit removed, so the plus can never
      be there: the phone passes exactly when it has 2 to 15 digits and the first is not 0. */
  lemma PatternOnDigits(phone: string)
    ensures MatchesPhonePattern(Digits(phone)) <==> 2 <= |Digits(phone)| <= 15 && Digits(phone)[0] != '0'
  {
    DigitsMembers(phone);
    DigitsCount(phone);
    if Digits(phone) != [] {
      assert IsDigit(Digits(phone)[0]);
    }
  }

  /** The guards of `handleSave`, in order: name, phone presence, phone pattern. */
  function Validate(form: ContactForm): Result<ContactForm, FormError> {
    if |Trim(form.name)| == 0 then Err(MissingName)
    else if |Trim(form.phone)| == 0 then Err(MissingPhone)
    else if !MatchesPhonePattern(Digits(form.phone)) then Err(MalformedPhone)
    else Ok(form)
  }

  /** Each guard fails exactly when the earlier ones pass and its own condition holds, and a
      form that passes them all goes to the store unchanged. */
  lemma ValidateCases(form: ContactForm)
    ensures Validate(form) == Err(MissingName) <==> IsBlank(form.name)
    ensures Validate(form) == Err(MissingPhone) <==> !IsBlank(form.name) && IsBlank(form.phone)
    ensures Validate(form) == Err(MalformedPhone) <==>
              !IsBlank(form.name) && !IsBlank(form.phone) && !MatchesPhonePattern(Digits(form.phone))
    ensures Validate(form).Ok? ==> Validate(form).value == form && 2 <= CountDigits(form.phone) <= 15
  {
    TrimEmptyIffBlank(form.name);
    TrimEmptyIffBlank(form.phone);
    PatternOnDigits(form.phone);
    DigitsCount(form.phone);
  }

  /** The form and the SMS service disagree: a phone of 2 to 9 digits is saved, and every
      later send to it is refused before reaching the device. */
  lemma AcceptedButUnsendable(form: ContactForm, message: string, reply: Sms.PlatformReply)
    requires Validate(form).Ok? && CountDigits(form.phone) < 10
    ensures Sms.SendSMS(form.phone, message, reply) == Err(Sms.InvalidPhone)
  {
    Sms.SendSMSOutcome(form.phone, message, reply);
  }

  /** A dialog: title and message. */
  datatype Alert = Alert(title: string, message: string)

  /** `handleSave`: the first failing guard is reported and nothing is stored; otherwise the
      contact is added, once, and the dialog reports how the add ended. */
  method HandleSave(store: Storage.ContactStore, form: ContactForm, nowMs: nat, nowIso: string, readOk: bool, writeFailure: Option<string>)
    returns (alert: Alert, addCalls: nat)
    modifies store
    ensures addCalls == if Validate(form).Ok? then 1 else 0
    ensures Validate(form).Err? ==> alert == Alert("Error", Validate(form).error.Message()) && store.persisted == old(store.persisted)
    ensures Validate(form).Ok? && writeFailure.None? ==>
              && alert == Alert("Success", "Contact added successfully")
              && store.persisted == Some(old(store.Loaded(readOk)) + [Storage.NewContact(NatToString(nowMs), form, nowIso)])
    ensures Validate(form).Ok? && writeFailure.Some? ==>
              && alert == Alert("Error", "Failed to add contact: " + writeFailure.value)
              && store.persisted == old(store.persisted)
  {
    match Validate(form)
    case Err(e) =>
      return Alert("Error", e.Message()), 0;
    case Ok(data) =>
      var added := store.AddContact(data, nowMs, nowIso, readOk, writeFailure);
      addCalls := 1;
      match added
      case Ok(_) => alert := Alert("Success", "Contact added successfully");
      case Err(e) => alert := Alert("Error", "Failed to add contact: " + e.Message());
  }
}
