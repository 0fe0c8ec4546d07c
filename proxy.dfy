/** ContactProxy: the `read` operation that loads contacts from the device
    (assets/app/app.js:21-75). */
module Proxy {
  import opened Wrappers
  import opened Contacts

  /** What the device contact source reports: the success callback with a
      contact list (None when the list is null or undefined), or the error
      callback with an error value. */
  datatype FindOutcome = Found(contacts: Option<seq<RawContact>>) | Failed(error: string)

  /** The result set attached to a finished read. */
  datatype ResultSet = ResultSet(records: seq<Contact>, total: int, loaded: bool)

  /** The list onSuccess iterates over: a null list counts as empty. */
  function ContactsOrEmpty(contacts: Option<seq<RawContact>>): seq<RawContact> {
    match contacts
    case None => []
    case Some(list) => list
  }

  /** The device found a list and onSuccess runs to its end: every tuple
      has a name. Any other outcome records nothing. */
  predicate LoadSucceeds(outcome: FindOutcome) {
    outcome.Found? && AllNamed(ContactsOrEmpty(outcome.contacts))
  }

  /** The load operation a store hands to `read`. */
  class LoadOperation {
    var resultSet: Option<ResultSet>
    var successful: bool
    var completed: bool

    /** A fresh operation: pending, with no result set. */
    constructor ()
      ensures resultSet == None && !successful && !completed
    {
      resultSet := None;
      successful := false;
      completed := false;
    }
  }

  /** The loop of onSuccess: one record per raw contact, pushed in input
      order. Reading `name.formatted` of a tuple whose name is null throws,
      which ends onSuccess there: `thrown` is set and the records built so
      far are dropped. */
  method BuildModels(contacts: seq<RawContact>) returns (models: seq<Contact>, thrown: bool)
    ensures thrown <==> !AllNamed(contacts)
    ensures !thrown ==> |models| == |contacts|
    ensures !thrown ==> forall i :: 0 <= i < |contacts| ==> models[i] == ToContact(contacts[i])
    ensures !thrown ==> models == MapContacts(contacts)
  {
    models := [];
    var i := 0;
    while i < |contacts|
      invariant 0 <= i <= |contacts|
      invariant AllNamed(contacts[..i])
      invariant models == MapContacts(contacts[..i])
    {
      if contacts[i].name.None? {
        assert contacts[i] in contacts;
        return [], true;
      }
      MapContactsSnoc(contacts[..i], contacts[i]);
      assert contacts[..i + 1] == contacts[..i] + [contacts[i]];
      models := models + [ToContact(contacts[i])];
      i := i + 1;
    }
    assert contacts[..i] == contacts;
    MapContactsOrder(contacts);
    thrown := false;
  }

  /** The success callback. When every tuple has a name it builds the result
      set, marks the operation successful and completed, and reports how
      many times the caller's callback runs (once when one was given). When
      a tuple has no name the exception leaves the operation untouched and
      the callback never runs. */
  method OnSuccess(operation: LoadOperation, contacts: Option<seq<RawContact>>, hasCallback: bool)
    returns (callbackRuns: nat)
    modifies operation
    ensures AllNamed(ContactsOrEmpty(contacts)) ==>
      && operation.resultSet.Some?
      && operation.resultSet.value.records == MapContacts(ContactsOrEmpty(contacts))
      && operation.resultSet.value.total == |operation.resultSet.value.records|
      && operation.resultSet.value.loaded
      && operation.successful && operation.completed
      && callbackRuns == (if hasCallback then 1 else 0)
    ensures contacts.None? ==>
      && operation.resultSet.Some?
      && operation.resultSet.value.records == []
      && operation.resultSet.value.total == 0
    ensures !AllNamed(ContactsOrEmpty(contacts)) ==> unchanged(operation) && callbackRuns == 0
  {
    var list := ContactsOrEmpty(contacts);
    var models, thrown := BuildModels(list);
    if thrown {
      return 0;
    }
    operation.resultSet := Some(ResultSet(models, |models|, true));
    operation.successful := true;
    operation.completed := true;
    callbackRuns := if hasCallback then 1 else 0;
  }

  /** `read`: asks the device for its contacts and hands the outcome to
      onSuccess or onError. */
  method Read(operation: LoadOperation, outcome: FindOutcome, hasCallback: bool)
    returns (callbackRuns: nat)
    modifies operation
    ensures LoadSucceeds(outcome) ==>
      && operation.resultSet == Some(ResultSet(MapContacts(ContactsOrEmpty(outcome.contacts)),
                                               |ContactsOrEmpty(outcome.contacts)|, true))
      && operation.successful && operation.completed
      && callbackRuns == (if hasCallback then 1 else 0)
    ensures !LoadSucceeds(outcome) ==> unchanged(operation) && callbackRuns == 0
  {
    match outcome
    case Found(contacts) =>
      callbackRuns := OnSuccess(operation, contacts, hasCallback);
      if AllNamed(ContactsOrEmpty(contacts)) {
        MapContactsOrder(ContactsOrEmpty(contacts));
      }
    case Failed(error) =>
      // onError only logs: no operation state, no callback.
      callbackRuns := 0;
  }
}
