/** The decisions of the home screen: which contacts are selected, which of them an alert goes
    to, the guard in front of a send, the history saved after it, the counts and alert shown at
    the end, and the progress line. Rendering and dialogs are not modelled; a dialog's choice
    is an input where it matters. */
module Home {
  import opened Common
  import opened Contacts
  import opened Sms
  import opened Storage
  import Location

  // ---------------------------------------------------------------- selection

  /** The filter predicate that drops one id. */
  function OtherId(id: string): string -> bool {
    (x: string) => x != id
  }

  /** `toggleContactSelection`: a selected id is removed (every copy of it), an unselected one
      is appended. */
  function Toggle(selected: seq<string>, id: string): seq<string> {
    if id in selected then Filter(selected, OtherId(id)) else selected + [id]
  }

  /** Toggling flips the membership of that id and of no other. */
  lemma ToggleFlips(selected: seq<string>, id: string, other: string)
    ensures id in Toggle(selected, id) <==> id !in selected
    ensures other != id ==> (other in Toggle(selected, id) <==> other in selected)
  {
    FilterMembers(selected, OtherId(id));
  }

  /** Toggling an unselected id twice restores the selection exactly. */
  lemma ToggleTwice(selected: seq<string>, id: string)
    requires id !in selected
    ensures Toggle(Toggle(selected, id), id) == selected
  {
    FilterAppend(selected, [id], OtherId(id));
    assert Filter([id], OtherId(id)) == [];
    FilterKeepsAll(selected, OtherId(id));
  }

  /** `selectAllContacts`: a selection as long as the contact list is cleared, any other is
      replaced by every id in list order. */
  function SelectAll(selected: seq<string>, contacts: seq<Contact>): seq<string> {
    if |selected| == |contacts| then [] else Map(contacts, IdOf)
  }

  // ------------------------------------------------------------------ targets

  /** The filter predicate of the dispatch: the contact's id is selected. */
  function Chosen(selected: seq<string>): Contact -> bool {
    (c: Contact) => c.id in selected
  }

  /** The contacts an alert goes to: the selected ones, in contact-list order. */
  function Targets(contacts: seq<Contact>, selected: seq<string>): seq<Contact> {
    Filter(contacts, Chosen(selected))
  }

  /** The targets are exactly the listed contacts whose id is selected. */
  lemma TargetsAreSelected(contacts: seq<Contact>, selected: seq<string>)
    ensures forall c :: c in Targets(contacts, selected) <==> c in contacts && c.id in selected
  {
    FilterMembers(contacts, Chosen(selected));
  }

  /** Only which ids are selected matters, not the order or repetition of the selection. */
  lemma TargetsIgnoreSelectionOrder(contacts: seq<Contact>, s1: seq<string>, s2: seq<string>)
    requires forall id :: id in s1 <==> id in s2
    ensures Targets(contacts, s1) == Targets(contacts, s2)
  {
    FilterCongruent(contacts, Chosen(s1), Chosen(s2));
  }

  /** Select-all clears a selection as long as the list; otherwise it selects every contact, so
      the next alert goes to the whole list. */
  lemma SelectAllCases(selected: seq<string>, contacts: seq<Contact>)
    ensures |selected| == |contacts| ==> SelectAll(selected, contacts) == []
    ensures |selected| != |contacts| ==> Targets(contacts, SelectAll(selected, contacts)) == contacts
  {
    if |selected| != |contacts| {
      var ids := SelectAll(selected, contacts);
      assert forall i :: 0 <= i < |contacts| ==> ids[i] == contacts[i].id;
      assert forall i :: 0 <= i < |contacts| ==> Chosen(ids)(contacts[i]);
      FilterKeepsAll(contacts, Chosen(ids));
    }
  }

  // -------------------------------------------------------------------- guard

  /** Which permission a send asks the user for. */
  datatype Permission = LocationAccess | SmsAccess

  /** Why a send stops before it starts; each is the title of the alert shown. */
  datatype Refusal = NoContactsSelected | LocationPermissionRequired | SmsPermissionRequired

  /** The permissions the screen believes it holds. */
  datatype PermissionStatus = PermissionStatus(sms: bool, location: bool)

  /** How the guard ends, with the permission requests it made on the way, in order. */
  datatype Gate = Stop(refusal: Refusal, requested: seq<Permission>) | Proceed(requested: seq<Permission>)

  /** The guard in front of a send: an empty selection stops first; then a missing location
      permission (only when the send needs a location) and a missing SMS permission are
      requested, in that order, and a refusal stops. `grantsLocation`/`grantsSms` are the
      user's answers. */
  function SendGate(selectedCount: nat, needsLocation: bool, status: PermissionStatus, grantsLocation: bool, grantsSms: bool): Gate {
    if selectedCount == 0 then Stop(NoContactsSelected, [])
    else
      var askLocation := needsLocation && !status.location;
      if askLocation && !grantsLocation then Stop(LocationPermissionRequired, [LocationAccess])
      else
        var asked := if askLocation then [LocationAccess] else [];
        if !status.sms && !grantsSms then Stop(SmsPermissionRequired, asked + [SmsAccess])
        else Proceed(asked + (if status.sms then [] else [SmsAccess]))
  }

  /** An empty selection stops before any permission request; a send proceeds exactly when
      something is selected and every permission asked for is granted; and only permissions
      not already held are asked for. */
  lemma SendGateCases(selectedCount: nat, needsLocation: bool, status: PermissionStatus, grantsLocation: bool, grantsSms: bool)
    ensures var g := SendGate(selectedCount, needsLocation, status, grantsLocation, grantsSms);
      && (selectedCount == 0 <==> g == Stop(NoContactsSelected, []))
      && (g.Proceed? <==> selectedCount > 0 && (needsLocation && !status.location ==> grantsLocation) && (!status.sms ==> grantsSms))
      && (LocationAccess in g.requested ==> needsLocation && !status.location)
      && (SmsAccess in g.requested ==> !status.sms)
      && (g.Proceed? ==> (LocationAccess in g.requested <==> needsLocation && !status.location) && (SmsAccess in g.requested <==> !status.sms))
  {
  }

  // ----------------------------------------------------------------- counting

  predicate Succeeded(r: SendResult) {
    r.Delivered?
  }

  predicate Failed(r: SendResult) {
    r.Undelivered?
  }

  function CountSuccessful(results: seq<SendResult>): nat {
    |Filter(results, Succeeded)|
  }

  function CountFailed(results: seq<SendResult>): nat {
    |Filter(results, Failed)|
  }

  /** Every result is counted once, and nothing failed exactly when every send was delivered. */
  lemma CountsAddUp(results: seq<SendResult>)
    ensures CountSuccessful(results) + CountFailed(results) == |results|
    ensures CountFailed(results) == 0 <==> forall i :: 0 <= i < |results| ==> results[i].Delivered?
  {
    FilterPartition(results, Succeeded, Failed);
    FilterMembers(results, Failed);
    if CountFailed(results) == 0 {
      assert forall i :: 0 <= i < |results| ==> results[i] in results && results[i] !in Filter(results, Failed);
    } else {
      var r := Filter(results, Failed)[0];
      assert r in Filter(results, Failed);
    }
  }

  /** A dialog: title and body. */
  datatype Alert = Alert(title: string, body: string)

  const SuccessTitle := "✅ Success"
  const PartialTitle := "⚠️ Partial Success"

  /** The dialog after a location send. */
  function LocationResultAlert(results: seq<SendResult>): Alert {
    var ok := NatToString(CountSuccessful(results));
    if CountFailed(results) == 0 then Alert(SuccessTitle, "Location sent to " + ok + " contact(s)")
    else Alert(PartialTitle, "Sent to " + ok + " contact(s), failed for " + NatToString(CountFailed(results))
                             + " contact(s)\n\nCheck SMS permissions and try again.")
  }

  /** The dialog after an audio send. */
  function AudioResultAlert(results: seq<SendResult>): Alert {
    var ok := NatToString(CountSuccessful(results));
    if CountFailed(results) == 0 then Alert(SuccessTitle, "Audio sent to " + ok + " contact(s)")
    else Alert(PartialTitle, "Audio sent to " + ok + " contact(s), failed for " + NatToString(CountFailed(results)) + " contact(s)")
  }

  /** Both dialogs announce full success exactly when every send was delivered. */
  lemma ResultAlertTitles(results: seq<SendResult>)
    ensures LocationResultAlert(results).title == SuccessTitle <==> forall i :: 0 <= i < |results| ==> results[i].Delivered?
    ensures AudioResultAlert(results).title == SuccessTitle <==> forall i :: 0 <= i < |results| ==> results[i].Delivered?
  {
    CountsAddUp(results);
  }

  /** One line of the failure details; a delivered result has no error to show. */
  function FailureLine(r: SendResult): string {
    match r
    case Undelivered(_, name, _, e) => "• " + name + ": " + e.Text()
    case Delivered(_, name, _, _) => "• " + name + ": undefined"
  }

  /** The "View Details" text: one line per failed send, or a fallback when there is none. */
  function FailureDetails(results: seq<SendResult>): string {
    var lines := Map(Filter(results, Failed), FailureLine);
    if Join(lines, "\n") == "" then "All messages sent successfully" else Join(lines, "\n")
  }

  /** The fallback text shows exactly when nothing failed; otherwise the details open with the
      first failed contact's line. */
  lemma FailureDetailsCases(results: seq<SendResult>)
    ensures FailureDetails(results) == "All messages sent successfully" <==> CountFailed(results) == 0
    ensures CountFailed(results) > 0 ==> FailureDetails(results)[0] == '•'
  {
    var failed := Filter(results, Failed);
    var lines := Map(failed, FailureLine);
    if failed != [] {
      assert lines[0] == FailureLine(failed[0]);
      assert lines[0][0] == '•';
      assert Join(lines, "\n")[0] == '•';
    }
  }

  // ----------------------------------------------------------------- progress

  /** The progress object the screen shows; `contactName` is missing before the first send. */
  datatype Progress = Progress(current: int, total: int, contactName: Option<string>, status: string)

  /** `(current/total)`. */
  function Fraction(p: Progress): string {
    "(" + IntToString(p.current) + "/" + IntToString(p.total) + ")"
  }

  /** The statuses with a text of their own. */
  const KnownStatuses: set<string> := {"getting_location", "processing_audio", "uploading_audio", "sending_audio", "sending", "sent"}

  /** `getProgressText`. A missing name prints as `undefined`, as a template literal does. */
  function ProgressText(progress: Option<Progress>): Option<string> {
    match progress
    case None => None
    case Some(p) =>
      Some(match p.status
        case "getting_location" => "Getting GPS location..."
        case "processing_audio" => "Processing audio..."
        case "uploading_audio" => "Uploading audio..."
        case "sending_audio" => "Sending audio... " + Fraction(p)
        case "sending" => "Sending... " + Fraction(p)
        case "sent" => "Sent to " + p.contactName.GetOr("undefined")
        case _ => "Processing... " + Fraction(p))
  }

  /** There is a text exactly when there is progress, and an unknown status falls back to the
      generic counter. */
  lemma ProgressTextCases(progress: Option<Progress>)
    ensures ProgressText(progress).None? <==> progress.None?
    ensures progress.Some? && progress.value.status !in KnownStatuses ==>
              ProgressText(progress) == Some("Processing... " + Fraction(progress.value))
  {
  }

  function StatusName(s: Status): string {
    match s
    case Sending => "sending"
    case Sent => "sent"
  }

  /** The progress a location send shows for a bulk-send update. */
  function LocationProgress(u: ProgressUpdate): Progress {
    Progress(u.current, u.total, Some(u.contactName), StatusName(u.status))
  }

  /** The progress an audio send shows: the update with its status overridden. */
  function AudioProgress(u: ProgressUpdate): Progress {
    Progress(u.current, u.total, Some(u.contactName), "sending_audio")
  }

  /** A location send counts up on `sending` and names the contact on `sent`; an audio send
      shows the counter for both, so it never names a contact. */
  lemma BulkProgressTexts(u: ProgressUpdate)
    ensures u.status == Sending ==> ProgressText(Some(LocationProgress(u))) == Some("Sending... " + Fraction(LocationProgress(u)))
    ensures u.status == Sent ==> ProgressText(Some(LocationProgress(u))) == Some("Sent to " + u.contactName)
    ensures ProgressText(Some(AudioProgress(u))) == Some("Sending audio... " + Fraction(AudioProgress(u)))
  {
  }

  // ------------------------------------------------------------------ history

  /** The first 100 characters of the message followed by "...", whatever its length. */
  function MessageSummary(message: string): string {
    message[..if |message| < 100 then |message| else 100] + "..."
  }

  /** The summary is a prefix of at most 100 characters plus the ellipsis, and a short message
      is kept whole. */
  lemma MessageSummaryShape(message: string)
    ensures var r := MessageSummary(message);
      && |r| <= 103 && r[|r| - 3..] == "..."
      && r[..|r| - 3] == message[..|r| - 3]
      && (|message| <= 100 ==> r == message + "...")
  {
  }

  /** The object saved to a contact's location history; a missing accuracy or address is
      absent from the stored object. */
  function LocationHistoryData(fix: Location.Fix, address: Option<Location.Address>, message: string, now: string): Entry {
    var base := map["latitude" := Num(fix.latitude), "longitude" := Num(fix.longitude),
                    "timestamp" := Str(now), "messageSent" := Str(MessageSummary(message))];
    var withAccuracy := if fix.accuracy.Some? then base["accuracy" := Num(fix.accuracy.value)] else base;
    if address.Some? then withAccuracy["address" := Str(address.value.formattedAddress)] else withAccuracy
  }

  /** The per-target location data, `now` read afresh on each iteration. */
  function LocationData(fix: Location.Fix, address: Option<Location.Address>, message: string, nowIso: nat -> string): nat -> Entry {
    (k: nat) => LocationHistoryData(fix, address, message, nowIso(k))
  }

  /** The object saved to a contact's recording history. */
  function RecordingHistoryData(url: string, duration: Option<real>, now: string): Entry {
    var base := map["url" := Str(url), "timestamp" := Str(now), "messageSent" := Str("Audio message sent")];
    if duration.Some? then base["duration" := Num(duration.value)] else base
  }

  function RecordingData(url: string, duration: Option<real>, nowIso: nat -> string): nat -> Entry {
    (k: nat) => RecordingHistoryData(url, duration, nowIso(k))
  }

  /** A stored location entry keeps its `location` tag (the data has no `type`), carries the
      summary of the message and the store's own timestamp. */
  lemma LocationEntryFields(fix: Location.Fix, address: Option<Location.Address>, message: string, now: string, stamp: string)
    ensures var item := HistoryItem(LocationShared, LocationHistoryData(fix, address, message, now), stamp);
      && item["type"] == Str("location")
      && item["messageSent"] == Str(MessageSummary(message))
      && item["timestamp"] == Str(stamp)
  {
    HistoryItemFields(LocationShared, LocationHistoryData(fix, address, message, now), stamp);
  }

  /** The stored value after the history loop over `targets`, the `k`-th save with the `k`-th
      inputs. */
  function SavedAll(persisted: Option<seq<Contact>>, targets: seq<Contact>, activity: Activity, data: nat -> Entry,
                    nowIso: nat -> string, readOk: nat -> bool, writeFailure: nat -> Option<string>, k: nat): Option<seq<Contact>>
    decreases |targets|
  {
    if targets == [] then persisted
    else SavedAll(Saved(persisted, activity, targets[0].id, data(k), nowIso(k), readOk(k), writeFailure(k)),
                  targets[1..], activity, data, nowIso, readOk, writeFailure, k + 1)
  }

  /** The history loop never adds, removes or reorders contacts, whichever saves fail. */
  lemma {:induction false} SavedAllKeepsIds(persisted: Option<seq<Contact>>, targets: seq<Contact>, activity: Activity, data: nat -> Entry,
                                            nowIso: nat -> string, readOk: nat -> bool, writeFailure: nat -> Option<string>, k: nat)
    ensures IdsOf(SavedAll(persisted, targets, activity, data, nowIso, readOk, writeFailure, k)) == IdsOf(persisted)
    decreases |targets|
  {
    if targets != [] {
      var next := Saved(persisted, activity, targets[0].id, data(k), nowIso(k), readOk(k), writeFailure(k));
      SavedKeepsIds(persisted, activity, targets[0].id, data(k), nowIso(k), readOk(k), writeFailure(k));
      SavedAllKeepsIds(next, targets[1..], activity, data, nowIso, readOk, writeFailure, k + 1);
    }
  }

  /** One logged history save: whose, and how it ended. */
  datatype HistoryAttempt = HistoryAttempt(contactId: string, outcome: Result<bool, StoreError>)

  /** The history loop: a save for every target in order, whatever the send did; a failed save
      is logged and the loop goes on. */
  method SaveHistories(store: ContactStore, targets: seq<Contact>, activity: Activity, data: nat -> Entry,
                       nowIso: nat -> string, readOk: nat -> bool, writeFailure: nat -> Option<string>)
    returns (log: seq<HistoryAttempt>)
    modifies store
    ensures |log| == |targets|
    ensures forall i :: 0 <= i < |targets| ==> log[i].contactId == targets[i].id
    ensures store.persisted == SavedAll(old(store.persisted), targets, activity, data, nowIso, readOk, writeFailure, 0)
  {
    log := [];
    var i := 0;
    while i < |targets|
      invariant 0 <= i <= |targets| && |log| == i
      invariant forall j :: 0 <= j < i ==> log[j].contactId == targets[j].id
      invariant SavedAll(old(store.persisted), targets, activity, data, nowIso, readOk, writeFailure, 0)
                == SavedAll(store.persisted, targets[i..], activity, data, nowIso, readOk, writeFailure, i)
    {
      assert targets[i..][0] == targets[i] && targets[i..][1..] == targets[i + 1..];
      var outcome := store.SaveActivity(activity, targets[i].id, data(i), nowIso(i), readOk(i), writeFailure(i));
      log := log + [HistoryAttempt(targets[i].id, outcome)];
      i := i + 1;
    }
    assert targets[i..] == [];
  }

  // ------------------------------------------------------------------- sends

  /** `sendLocationToContacts`: the bulk send to the selected contacts in list order, a
      location history save for each of them, and the result dialog. */
  method SendLocationToContacts(store: ContactStore, contacts: seq<Contact>, selected: seq<string>,
                                fix: Location.Fix, address: Option<Location.Address>, message: string,
                                platform: nat -> PlatformReply, nowIso: nat -> string,
                                readOk: nat -> bool, writeFailure: nat -> Option<string>)
    returns (results: seq<SendResult>, log: seq<HistoryAttempt>, alert: Alert)
    modifies store
    ensures var targets := Targets(contacts, selected);
      && |results| == |targets| && |log| == |targets|
      && (forall i :: 0 <= i < |targets| ==> results[i] == Dispatch(targets[i], message, platform(i)))
      && (forall i :: 0 <= i < |targets| ==> log[i].contactId == targets[i].id)
      && store.persisted == SavedAll(old(store.persisted), targets, LocationShared,
                                     LocationData(fix, address, message, nowIso), nowIso, readOk, writeFailure, 0)
    ensures alert == LocationResultAlert(results)
  {
    var targets := Targets(contacts, selected);
    var rounds;
    results, rounds := SendBulkSMS(targets, message, true, platform);
    log := SaveHistories(store, targets, LocationShared, LocationData(fix, address, message, nowIso), nowIso, readOk, writeFailure);
    alert := LocationResultAlert(results);
  }

  /** The text `handleStopAndSendAudio` sends; a missing or zero duration reads as 0 seconds. */
  function HomeAudioMessage(duration: Option<real>, downloadUrl: string, time: string): string {
    "🚨 EMERGENCY AUDIO MESSAGE 🚨\n\n"
    + ("I've sent an emergency audio message (" + IntToString(Round(duration.GetOr(0.0))) + " seconds).\n\n")
    + ("Listen here: " + downloadUrl + "\n\n")
    + Footer(time)
  }

  /** The audio text is never blank and always carries the link, so a send with a valid phone
      reaches the device. */
  lemma HomeAudioMessageSendable(duration: Option<real>, downloadUrl: string, time: string, phone: string, reply: PlatformReply)
    ensures Contains(HomeAudioMessage(duration, downloadUrl, time), "Listen here: " + downloadUrl + "\n\n")
    ensures ValidatePhoneNumber(phone) ==> SendSMS(phone, HomeAudioMessage(duration, downloadUrl, time), reply) == Deliver(phone, reply)
  {
    var head := "🚨 EMERGENCY AUDIO MESSAGE 🚨\n\n";
    var d := "I've sent an emergency audio message (" + IntToString(Round(duration.GetOr(0.0))) + " seconds).\n\n";
    var link := "Listen here: " + downloadUrl + "\n\n";
    ContainsMiddle(head + d, link, Footer(time));
    var m := HomeAudioMessage(duration, downloadUrl, time);
    assert m[0] == head[0] == '🚨';
    SendSMSOutcome(phone, m, reply);
  }

  /** The sending part of `handleStopAndSendAudio`, once the recording is stopped and uploaded:
      the bulk send of the audio text, a recording history save per target, and the dialog. */
  method SendAudioToContacts(store: ContactStore, contacts: seq<Contact>, selected: seq<string>,
                             downloadUrl: string, duration: Option<real>, time: string,
                             platform: nat -> PlatformReply, nowIso: nat -> string,
                             readOk: nat -> bool, writeFailure: nat -> Option<string>)
    returns (results: seq<SendResult>, log: seq<HistoryAttempt>, alert: Alert)
    modifies store
    ensures var targets := Targets(contacts, selected);
      && |results| == |targets| && |log| == |targets|
      && (forall i :: 0 <= i < |targets| ==> results[i] == Dispatch(targets[i], HomeAudioMessage(duration, downloadUrl, time), platform(i)))
      && (forall i :: 0 <= i < |targets| ==> log[i].contactId == targets[i].id)
      && store.persisted == SavedAll(old(store.persisted), targets, RecordingSent,
                                     RecordingData(downloadUrl, duration, nowIso), nowIso, readOk, writeFailure, 0)
    ensures alert == AudioResultAlert(results)
  {
    var targets := Targets(contacts, selected);
    var message := HomeAudioMessage(duration, downloadUrl, time);
    var rounds;
    results, rounds := SendBulkSMS(targets, message, true, platform);
    log := SaveHistories(store, targets, RecordingSent, RecordingData(downloadUrl, duration, nowIso), nowIso, readOk, writeFailure);
    alert := AudioResultAlert(results);
  }
}
