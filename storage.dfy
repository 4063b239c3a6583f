/** The contact store: one persisted array of contacts, read whole, changed in memory and
    written back whole by every operation. The device's key-value storage is the `persisted`
    field; whether a read or a write succeeds is an input of each call. */
module Storage {
  import opened Common
  import opened Contacts

  /** Why a store operation fails: the id is not in the collection, or the write was refused. */
  datatype StoreError = ContactNotFound | WriteFailed(reason: string) {
    /** The message of the error the operation throws. */
    function Message(): string {
      match this
      case ContactNotFound => "Contact not found"
      case WriteFailed(reason) => reason
    }
  }

  /** The three kinds of activity recorded in a contact's history. */
  datatype Activity = LocationShared | SmsSent | RecordingSent

  /** The `type` tag an activity's history entry is written with. */
  function Tag(a: Activity): string {
    match a
    case LocationShared => "location"
    case SmsSent => "sms"
    case RecordingSent => "recording"
  }

  // ------------------------------------------------------------------ lookups

  /** `findIndex` on the id: the position of the first contact with that id, if any. */
  function FindIndex(cs: seq<Contact>, id: string): (r: Option<nat>)
    ensures r.Some? ==> r.value < |cs| && cs[r.value].id == id
    ensures r.Some? ==> forall j :: 0 <= j < r.value ==> cs[j].id != id
    ensures r.None? ==> forall j :: 0 <= j < |cs| ==> cs[j].id != id
  {
    if cs == [] then None
    else if cs[0].id == id then Some(0)
    else match FindIndex(cs[1..], id)
      case None => None
      case Some(i) => Some(i + 1)
  }

  /** Appending a contact whose id is new makes it findable at the end, and leaves every id
      that was already there found where it was. */
  lemma {:induction false} AddThenFind(cs: seq<Contact>, c: Contact, id: string)
    requires FindIndex(cs, c.id).None?
    ensures FindIndex(cs + [c], c.id) == Some(|cs|)
    ensures FindIndex(cs, id).Some? ==> FindIndex(cs + [c], id) == FindIndex(cs, id)
  {
    if cs != [] {
      assert (cs + [c])[1..] == cs[1..] + [c];
      AddThenFind(cs[1..], c, id);
    }
  }

  // ------------------------------------------------------------------- records

  /** The object `addContact` builds: a fresh id, the form's fields, a creation time and an
      empty history. */
  function NewContact(id: string, form: ContactForm, createdAt: string): Contact {
    Contact(id, form.name, form.phone, form.email, form.relationship, form.notes, createdAt, None, Some([]))
  }

  /** The patch that sets nothing. */
  const NoChange := ContactPatch(None, None, None, None, None, None, None, None)

  /** `{...contact, ...patch, updatedAt}`: fields the patch carries override, the rest are
      kept, and the update time is always set. */
  function Merge(c: Contact, p: ContactPatch, updatedAt: string): Contact {
    Contact(
      p.id.GetOr(c.id),
      p.name.GetOr(c.name),
      p.phone.GetOr(c.phone),
      p.email.GetOr(c.email),
      p.relationship.GetOr(c.relationship),
      p.notes.GetOr(c.notes),
      p.createdAt.GetOr(c.createdAt),
      Some(updatedAt),
      if p.history.Some? then p.history else c.history)
  }

  /** A merge overrides exactly the fields the patch carries and stamps the update time. */
  lemma MergeFields(c: Contact, p: ContactPatch, updatedAt: string)
    ensures var m := Merge(c, p, updatedAt);
      && (p.id.Some? ==> m.id == p.id.value) && (p.id.None? ==> m.id == c.id)
      && (p.name.Some? ==> m.name == p.name.value) && (p.name.None? ==> m.name == c.name)
      && (p.phone.Some? ==> m.phone == p.phone.value) && (p.phone.None? ==> m.phone == c.phone)
      && (p.email.Some? ==> m.email == p.email.value) && (p.email.None? ==> m.email == c.email)
      && (p.relationship.Some? ==> m.relationship == p.relationship.value)
      && (p.relationship.None? ==> m.relationship == c.relationship)
      && (p.notes.Some? ==> m.notes == p.notes.value) && (p.notes.None? ==> m.notes == c.notes)
      && (p.createdAt.Some? ==> m.createdAt == p.createdAt.value) && (p.createdAt.None? ==> m.createdAt == c.createdAt)
      && (p.history.Some? ==> HistoryOf(m) == p.history.value) && (p.history.None? ==> m.history == c.history)
      && m.updatedAt == Some(updatedAt)
  {
  }

  /** An empty patch changes nothing but the update time, and merging the same patch twice is
      merging it once. */
  lemma MergeIdempotent(c: Contact, p: ContactPatch, t1: string, t2: string)
    ensures Merge(c, NoChange, t1) == c.(updatedAt := Some(t1))
    ensures Merge(Merge(c, p, t1), p, t2) == Merge(c, p, t2)
  {
  }

  /** `{type: tag, ...data, timestamp}`: the caller's data may override the tag, never the
      timestamp. */
  function HistoryItem(a: Activity, data: Entry, timestamp: string): Entry {
    map["type" := Str(Tag(a))] + data + map["timestamp" := Str(timestamp)]
  }

  /** The entry holds the caller's keys plus `type` and `timestamp`; the timestamp is the fresh
      one, the tag survives only when the data has no `type` of its own, and every other key
      keeps the caller's value. */
  lemma HistoryItemFields(a: Activity, data: Entry, timestamp: string)
    ensures HistoryItem(a, data, timestamp).Keys == data.Keys + {"type", "timestamp"}
    ensures HistoryItem(a, data, timestamp)["timestamp"] == Str(timestamp)
    ensures "type" !in data ==> HistoryItem(a, data, timestamp)["type"] == Str(Tag(a))
    ensures "type" in data ==> HistoryItem(a, data, timestamp)["type"] == data["type"]
    ensures forall k :: k in data && k != "timestamp" ==> HistoryItem(a, data, timestamp)[k] == data[k]
  {
  }

  /** The contact with `item` put in front of its history; a missing history starts empty. */
  function Record(c: Contact, item: Entry): (r: Contact)
    ensures HistoryOf(r) == [item] + HistoryOf(c)
    ensures r == c.(history := r.history)
  {
    c.(history := Some([item] + c.history.GetOr([])))
  }

  /** The filter predicate of `deleteContact`. */
  function OtherThan(id: string): Contact -> bool {
    (c: Contact) => c.id != id
  }

  /** The collection with every contact carrying `id` removed. */
  function Without(cs: seq<Contact>, id: string): seq<Contact> {
    Filter(cs, OtherThan(id))
  }

  /** Deleting removes every contact with the id and only those, leaves the collection as it
      was when the id is absent, and deleting twice is deleting once. */
  lemma DeleteRemovesOnly(cs: seq<Contact>, id: string)
    ensures forall c :: c in Without(cs, id) <==> c in cs && c.id != id
    ensures FindIndex(Without(cs, id), id).None?
    ensures FindIndex(cs, id).None? ==> Without(cs, id) == cs
    ensures Without(Without(cs, id), id) == Without(cs, id)
  {
    FilterMembers(cs, OtherThan(id));
    var w := Without(cs, id);
    assert forall j :: 0 <= j < |w| ==> w[j] in w;
    FilterKeepsAll(w, OtherThan(id));
    FilterKeepsAll(cs, OtherThan(id));
  }

  /** What a freshly created contact reads back as: the id and creation time it was given, the
      form's five fields, no update time and an empty history. */
  predicate CreatedFrom(c: Contact, id: string, form: ContactForm, createdAt: string) {
    && c.id == id && c.createdAt == createdAt
    && c.name == form.name && c.phone == form.phone && c.email == form.email
    && c.relationship == form.relationship && c.notes == form.notes
    && c.updatedAt.None? && HistoryOf(c) == []
  }

  /** Create, then read: once a contact built from a form under an id not yet stored is
      appended, a lookup by that id finds it, at the end, reading back as created. */
  lemma AddedContactReadsBack(cs: seq<Contact>, id: string, form: ContactForm, createdAt: string)
    requires FindIndex(cs, id).None?
    ensures FindIndex(cs + [NewContact(id, form, createdAt)], id) == Some(|cs|)
    ensures CreatedFrom((cs + [NewContact(id, form, createdAt)])[|cs|], id, form, createdAt)
  {
    AddThenFind(cs, NewContact(id, form, createdAt), id);
  }

  // --------------------------------------------------------------------- store

  /** What a load yields from the stored value: the stored array, or the empty list when the
      key is missing or the read fails. */
  function LoadedFrom(persisted: Option<seq<Contact>>, readOk: bool): seq<Contact> {
    if readOk && persisted.Some? then persisted.value else []
  }

  /** The stored value after one history save: the activity put in front of the first matching
      contact's history, or the stored value unchanged when the id is not found or the write
      is refused. */
  function Saved(persisted: Option<seq<Contact>>, activity: Activity, contactId: string, data: Entry,
                 nowIso: string, readOk: bool, writeFailure: Option<string>): Option<seq<Contact>> {
    var cs := LoadedFrom(persisted, readOk);
    match FindIndex(cs, contactId)
    case None => persisted
    case Some(i) => if writeFailure.Some? then persisted else Some(cs[i := Record(cs[i], HistoryItem(activity, data, nowIso))])
  }

  function IdOf(c: Contact): string {
    c.id
  }

  /** The ids of the stored contacts, in order. */
  function IdsOf(persisted: Option<seq<Contact>>): Option<seq<string>> {
    match persisted
    case None => None
    case Some(cs) => Some(Map(cs, IdOf))
  }

  /** A history save never adds, removes or reorders contacts. */
  lemma SavedKeepsIds(persisted: Option<seq<Contact>>, activity: Activity, contactId: string, data: Entry,
                      nowIso: string, readOk: bool, writeFailure: Option<string>)
    ensures IdsOf(Saved(persisted, activity, contactId, data, nowIso, readOk, writeFailure)) == IdsOf(persisted)
  {
    var cs := LoadedFrom(persisted, readOk);
    var found := FindIndex(cs, contactId);
    if found.Some? && writeFailure.None? {
      assert readOk && persisted.Some?;
      var i := found.value;
      var after := cs[i := Record(cs[i], HistoryItem(activity, data, nowIso))];
      assert Saved(persisted, activity, contactId, data, nowIso, readOk, writeFailure) == Some(after);
      assert Map(after, IdOf) == Map(cs, IdOf);
    }
  }


  /** The device storage as the service sees it: the contact array under the key `@safesearch_contacts`, or
      nothing when the key has never been written. */
  class ContactStore {
    var persisted: Option<seq<Contact>>

    constructor(initial: Option<seq<Contact>>)
      ensures persisted == initial
    {
      persisted := initial;
    }

    /** What a load yields now. */
    function Loaded(readOk: bool): seq<Contact>
      reads this
    {
      LoadedFrom(persisted, readOk)
    }

    /** Loads the collection, falling back to the empty list instead of failing. */
    method GetContactsFromJSON(readOk: bool) returns (contacts: seq<Contact>)
      ensures readOk && persisted.Some? ==> contacts == persisted.value
      ensures !readOk || persisted.None? ==> contacts == []
    {
      if !readOk {
        return [];
      }
      match persisted
      case None => contacts := [];
      case Some(cs) => contacts := cs;
    }

    /** Writes the whole collection; a refused write is rethrown and stores nothing. */
    method SaveContacts(contacts: seq<Contact>, writeFailure: Option<string>) returns (r: Result<bool, StoreError>)
      modifies this
      ensures writeFailure.None? ==> r == Ok(true) && persisted == Some(contacts)
      ensures writeFailure.Some? ==> r == Err(WriteFailed(writeFailure.value)) && persisted == old(persisted)
    {
      if writeFailure.Some? {
        return Err(WriteFailed(writeFailure.value));
      }
      persisted := Some(contacts);
      r := Ok(true);
    }

    /** Appends one new contact, built from the form, at the end of the loaded collection. */
    method AddContact(form: ContactForm, nowMs: nat, nowIso: string, readOk: bool, writeFailure: Option<string>)
      returns (r: Result<Contact, StoreError>)
      modifies this
      ensures r.Ok? <==> writeFailure.None?
      ensures r.Ok? ==> r.value == NewContact(NatToString(nowMs), form, nowIso)
      ensures r.Ok? ==> persisted == Some(old(Loaded(readOk)) + [r.value])
      ensures r.Err? ==> r.error == WriteFailed(writeFailure.value) && persisted == old(persisted)
    {
      var contacts := GetContactsFromJSON(readOk);
      var c := NewContact(NatToString(nowMs), form, nowIso);
      contacts := contacts + [c];
      var saved := SaveContacts(contacts, writeFailure);
      if saved.Err? {
        return Err(saved.error);
      }
      r := Ok(c);
    }

    /** Merges the patch over the first contact with the id, in place; an unknown id fails
        with `ContactNotFound` before anything is written. */
    method UpdateContact(contactId: string, patch: ContactPatch, nowIso: string, readOk: bool, writeFailure: Option<string>)
      returns (r: Result<Contact, StoreError>)
      modifies this
      ensures FindIndex(old(Loaded(readOk)), contactId).None? ==> r == Err(ContactNotFound) && persisted == old(persisted)
      ensures FindIndex(old(Loaded(readOk)), contactId).Some? && writeFailure.Some? ==>
                r == Err(WriteFailed(writeFailure.value)) && persisted == old(persisted)
      ensures FindIndex(old(Loaded(readOk)), contactId).Some? && writeFailure.None? ==>
                var i := FindIndex(old(Loaded(readOk)), contactId).value;
                && r == Ok(Merge(old(Loaded(readOk))[i], patch, nowIso))
                && persisted == Some(old(Loaded(readOk))[i := r.value])
    {
      var contacts := GetContactsFromJSON(readOk);
      var index := FindIndex(contacts, contactId);
      if index.None? {
        return Err(ContactNotFound);
      }
      var i := index.value;
      contacts := contacts[i := Merge(contacts[i], patch, nowIso)];
      var saved := SaveContacts(contacts, writeFailure);
      if saved.Err? {
        return Err(saved.error);
      }
      r := Ok(contacts[i]);
    }

    /** Removes every contact with the id, keeping the order of the rest; reports success
        whether or not the id was there. */
    method DeleteContact(contactId: string, readOk: bool, writeFailure: Option<string>)
      returns (r: Result<bool, StoreError>)
      modifies this
      ensures writeFailure.None? ==> r == Ok(true) && persisted == Some(Without(old(Loaded(readOk)), contactId))
      ensures writeFailure.Some? ==> r == Err(WriteFailed(writeFailure.value)) && persisted == old(persisted)
    {
      var contacts := GetContactsFromJSON(readOk);
      contacts := Without(contacts, contactId);
      r := SaveContacts(contacts, writeFailure);
    }

    /** Puts one activity entry in front of the history of the first contact with the id
        (the location, SMS and recording variants differ only in the tag); an unknown id
        fails with `ContactNotFound` before anything is written. */
    method SaveActivity(activity: Activity, contactId: string, data: Entry, nowIso: string, readOk: bool, writeFailure: Option<string>)
      returns (r: Result<bool, StoreError>)
      modifies this
      ensures FindIndex(old(Loaded(readOk)), contactId).None? ==> r == Err(ContactNotFound) && persisted == old(persisted)
      ensures FindIndex(old(Loaded(readOk)), contactId).Some? && writeFailure.Some? ==>
                r == Err(WriteFailed(writeFailure.value)) && persisted == old(persisted)
      ensures FindIndex(old(Loaded(readOk)), contactId).Some? && writeFailure.None? ==>
                var i := FindIndex(old(Loaded(readOk)), contactId).value;
                && r == Ok(true)
                && persisted == Some(old(Loaded(readOk))[i := Record(old(Loaded(readOk))[i], HistoryItem(activity, data, nowIso))])
      ensures persisted == Saved(old(persisted), activity, contactId, data, nowIso, readOk, writeFailure)
    {
      var contacts := GetContactsFromJSON(readOk);
      var index := FindIndex(contacts, contactId);
      if index.None? {
        return Err(ContactNotFound);
      }
      var i := index.value;
      var item := HistoryItem(activity, data, nowIso);
      contacts := contacts[i := Record(contacts[i], item)];
      r := SaveContacts(contacts, writeFailure);
    }

    /** The first contact with the id, or nothing. */
    method GetContactById(contactId: string, readOk: bool) returns (r: Option<Contact>)
      ensures r.None? <==> forall j :: 0 <= j < |Loaded(readOk)| ==> Loaded(readOk)[j].id != contactId
      ensures r.Some? ==> exists j :: 0 <= j < |Loaded(readOk)| && Loaded(readOk)[j] == r.value && r.value.id == contactId
                                      && forall k :: 0 <= k < j ==> Loaded(readOk)[k].id != contactId
    {
      var contacts := GetContactsFromJSON(readOk);
      assert contacts == Loaded(readOk);
      var index := FindIndex(contacts, contactId);
      match index
      case None => r := None;
      case Some(i) => r := Some(contacts[i]);
    }
  }
}
