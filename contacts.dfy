/** The Contact model (assets/app/app.js:79-91) and the mapping from the
    device's raw contact tuples onto it (assets/app/app.js:38-49). */
module Contacts {
  import opened Wrappers

  /** One element of `phoneNumbers` or `emails`. The model declares both
      fields as `auto`, so any value passes through; the device gives
      `{type, value}` objects and the desktop fixture bare strings. */
  datatype FieldValue = Entry(kind: string, value: string) | Plain(text: string)

  /** `name` of a raw device contact. */
  datatype RawName = RawName(formatted: string, givenName: string, familyName: string)

  /** A contact tuple as the device hands it to the success callback; its
      `name` may be null (None). */
  datatype RawContact = RawContact(
    id: int,
    name: Option<RawName>,
    phoneNumbers: seq<FieldValue>,
    emails: seq<FieldValue>)

  /** A Contact record: the fields of the `Contact` model. */
  datatype Contact = Contact(
    id: int,
    name: string,
    givenName: string,
    familyName: string,
    phoneNumbers: seq<FieldValue>,
    emails: seq<FieldValue>)

  /** Every tuple has a name, so reading `name.formatted` cannot throw. */
  predicate AllNamed(cs: seq<RawContact>) {
    forall c :: c in cs ==> c.name.Some?
  }

  /** Reads a raw tuple back out of a record: the partner of ToContact. */
  function RawOf(r: Contact): RawContact {
    RawContact(r.id, Some(RawName(r.name, r.givenName, r.familyName)), r.phoneNumbers, r.emails)
  }

  /** The record built for one named raw contact. Every field of the tuple
      is recoverable from it unchanged. */
  function ToContact(c: RawContact): (r: Contact)
    requires c.name.Some?
    ensures RawOf(r) == c
  {
    Contact(c.id, c.name.value.formatted, c.name.value.givenName, c.name.value.familyName,
            c.phoneNumbers, c.emails)
  }

  /** No two different raw tuples give the same record. */
  lemma ToContactInjective(c: RawContact, d: RawContact)
    requires c.name.Some? && d.name.Some?
    requires ToContact(c) == ToContact(d)
    ensures c == d
  {
    assert RawOf(ToContact(c)) == c;
  }

  /** The records for a whole list, one per tuple, in the order received. */
  function MapContacts(cs: seq<RawContact>): seq<Contact>
    requires AllNamed(cs)
  {
    if cs == [] then [] else [ToContact(cs[0])] + MapContacts(cs[1..])
  }

  lemma {:induction false} MapContactsAt(cs: seq<RawContact>, i: nat)
    requires AllNamed(cs)
    requires i < |cs|
    ensures |MapContacts(cs)| == |cs|
    ensures MapContacts(cs)[i] == ToContact(cs[i])
  {
    if i > 0 {
      MapContactsAt(cs[1..], i - 1);
    } else if |cs| > 1 {
      MapContactsAt(cs[1..], 0);
    }
  }

  /** Mapping commutes with appending a tuple at the end: what the loop in
      onSuccess relies on. */
  lemma {:induction false} MapContactsSnoc(cs: seq<RawContact>, c: RawContact)
    requires AllNamed(cs) && c.name.Some?
    ensures AllNamed(cs + [c])
    ensures MapContacts(cs + [c]) == MapContacts(cs) + [ToContact(c)]
  {
    if cs == [] {
      assert cs + [c] == [c];
    } else {
      assert (cs + [c])[1..] == cs[1..] + [c];
      MapContactsSnoc(cs[1..], c);
    }
  }

  /** The mapped list has one record per tuple, and record i comes from tuple i. */
  lemma MapContactsOrder(cs: seq<RawContact>)
    requires AllNamed(cs)
    ensures |MapContacts(cs)| == |cs|
    ensures forall i :: 0 <= i < |cs| ==> MapContacts(cs)[i] == ToContact(cs[i])
  {
    if cs != [] {
      MapContactsAt(cs, 0);
    }
    forall i | 0 <= i < |cs|
      ensures MapContacts(cs)[i] == ToContact(cs[i])
    {
      MapContactsAt(cs, i);
    }
  }
}
