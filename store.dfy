/** ContactStore: the records of the Contact model, kept sorted by family
    name (assets/app/app.js:95-98), loaded through ContactProxy
    (assets/app/app.js:124) and looked up by id (assets/app/app.js:204). */
module Store {
  import opened Wrappers
  import opened Contacts
  import opened FamilyOrder
  import opened Proxy

  /** Some record in s has this id. */
  predicate HasId(s: seq<Contact>, id: int) {
    exists c :: c in s && c.id == id
  }

  /** records is what a successful load of these contacts may leave in the
      store: the mapped records, in an order sorted by family name. The
      order among equal family names is left open. */
  predicate LoadedFrom(records: seq<Contact>, contacts: seq<RawContact>)
    requires AllNamed(contacts)
  {
    SortedByFamilyName(records) && multiset(records) == multiset(MapContacts(contacts))
  }

  /** One such order always exists: the model's sort produces it. */
  function Loaded(contacts: seq<RawContact>): (r: seq<Contact>)
    requires AllNamed(contacts)
    ensures LoadedFrom(r, contacts)
  {
    SortByFamilyNameSorted(MapContacts(contacts));
    SortByFamilyName(MapContacts(contacts))
  }

  class ContactStore {
    /** The store's records, in order. */
    var records: seq<Contact>

    /** A new store is empty. */
    constructor ()
      ensures records == []
    {
      records := [];
    }

    /** The store's load handler: when the operation succeeded, replaces the
        records wholesale with the operation's records, sorted by family
        name. */
    method OnProxyLoad(operation: LoadOperation)
      modifies this
      ensures operation.successful && operation.resultSet.Some? ==>
        && SortedByFamilyName(records)
        && multiset(records) == multiset(operation.resultSet.value.records)
      ensures !(operation.successful && operation.resultSet.Some?) ==> records == old(records)
    {
      if operation.successful && operation.resultSet.Some? {
        SortByFamilyNameSorted(operation.resultSet.value.records);
        records := SortByFamilyName(operation.resultSet.value.records);
      }
    }

    /** `load()`: reads through the proxy with the load handler as callback.
        A found list whose tuples all have names replaces the records with
        the mapped, sorted records. A device error, or a tuple without a
        name (onSuccess throws), never reaches the handler, so the records
        stay as they were. */
    method Load(outcome: FindOutcome)
      modifies this
      ensures LoadSucceeds(outcome) ==>
        LoadedFrom(records, ContactsOrEmpty(outcome.contacts))
      ensures !LoadSucceeds(outcome) ==>
        records == old(records)
    {
      var operation := new LoadOperation();
      var callbackRuns := Read(operation, outcome, true);
      if callbackRuns == 1 {
        OnProxyLoad(operation);
      }
    }

    /** `getById`: some record with that id, or None when there is none. */
    method GetById(id: int) returns (r: Option<Contact>)
      ensures r.Some? ==> r.value in records && r.value.id == id
      ensures r.None? <==> !HasId(records, id)
    {
      var i := 0;
      while i < |records|
        invariant 0 <= i <= |records|
        invariant forall k :: 0 <= k < i ==> records[k].id != id
      {
        if records[i].id == id {
          return Some(records[i]);
        }
        i := i + 1;
      }
      return None;
    }
  }

  /** A successful load stores exactly one record per contact received. */
  lemma LoadedLength(records: seq<Contact>, contacts: seq<RawContact>)
    requires AllNamed(contacts) && LoadedFrom(records, contacts)
    ensures |records| == |contacts|
  {
    MapContactsOrder(contacts);
    assert |multiset(records)| == |multiset(MapContacts(contacts))|;
  }

  /** Whatever order a successful load picks, the family name at each
      position of the store is the same. */
  lemma LoadedNamesDetermined(r1: seq<Contact>, r2: seq<Contact>, contacts: seq<RawContact>)
    requires AllNamed(contacts) && LoadedFrom(r1, contacts) && LoadedFrom(r2, contacts)
    ensures |r1| == |r2|
    ensures forall i :: 0 <= i < |r1| ==> r1[i].familyName == r2[i].familyName
  {
    SortedPermutationsAgree(r1, r2);
  }

  /** After a successful load some record has a given id exactly when some
      raw contact carried that id. */
  lemma {:induction false} LoadedHasId(records: seq<Contact>, contacts: seq<RawContact>, id: int)
    requires AllNamed(contacts) && LoadedFrom(records, contacts)
    ensures HasId(records, id) <==> exists c :: c in contacts && c.id == id
  {
    MapContactsOrder(contacts);
    if HasId(records, id) {
      var r :| r in records && r.id == id;
      assert r in multiset(MapContacts(contacts));
      var k :| 0 <= k < |contacts| && MapContacts(contacts)[k] == r;
      assert contacts[k] in contacts && contacts[k].id == id;
    }
    if c :| c in contacts && c.id == id {
      var k :| 0 <= k < |contacts| && contacts[k] == c;
      var r := MapContacts(contacts)[k];
      assert r in multiset(records);
      assert r in records && r.id == id;
    }
  }
}
