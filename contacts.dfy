/** The records the contact store persists and the dispatch screens read. */
module Contacts {
  import opened Common

  /** A JSON value as it appears in a history entry. */
  datatype Value = Str(s: string) | Num(n: real) | Null

  /** A history entry: a JSON object, key to value. */
  type Entry = map<string, Value>

  /** A stored contact. `history` is `None` when the key is missing from the stored object;
      `updatedAt` is set by the first update. */
  datatype Contact = Contact(
    id: string,
    name: string,
    phone: string,
    email: string,
    relationship: string,
    notes: string,
    createdAt: string,
    updatedAt: Option<string>,
    history: Option<seq<Entry>>)

  /** The five fields the add-contact form collects. */
  datatype ContactForm = ContactForm(name: string, phone: string, email: string, relationship: string, notes: string)

  /** A partial object spread over a stored contact: a present field overrides, an absent one keeps. */
  datatype ContactPatch = ContactPatch(
    id: Option<string>,
    name: Option<string>,
    phone: Option<string>,
    email: Option<string>,
    relationship: Option<string>,
    notes: Option<string>,
    createdAt: Option<string>,
    history: Option<seq<Entry>>)

  /** A contact's history, reading a missing key as the empty list. */
  function HistoryOf(c: Contact): seq<Entry> {
    c.history.GetOr([])
  }
}
