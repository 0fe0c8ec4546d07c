/** Screen navigation: the card-layout Viewport holding the list and detail
    screens (assets/app/app.js:173-191), the detail screen's
    updateWithRecord (assets/app/app.js:162-168), the `contacts` controller
    (assets/app/app.js:194-211), list selection (assets/app/app.js:128-136)
    and dispatch through the route table (assets/app/app.js:213-216). */
module Navigation {
  import opened Wrappers
  import opened Contacts
  import opened Proxy
  import opened Store
  import opened Router

  /** The Viewport's two cards. */
  datatype Screen = List | Detail

  /** The options payload of a dispatch: a transition animation, which the
      model ignores, and the id `show` parses (None when it is missing, so
      that parsing gives NaN and no record matches). */
  datatype Options = Options(animation: Option<string>, id: Option<int>)

  /** What the user sees: the active card, the detail toolbar's title and the
      record the detail screen's templates were last updated with. */
  datatype NavState = NavState(screen: Screen, title: string, record: Option<Contact>)

  /** The detail toolbar's title before any record is shown. */
  const InitialDetailTitle := "Contact Detail"

  /** `index` activates the list screen and touches nothing else. */
  function IndexStep(s: NavState): (t: NavState)
    ensures t.screen == List && t.title == s.title && t.record == s.record
  {
    s.(screen := List)
  }

  /** `show` of a found record: the detail screen shows it, under its name. */
  function ShowStep(s: NavState, r: Contact): (t: NavState)
    ensures t.screen == Detail && t.record == Some(r) && t.title == r.name
  {
    NavState(Detail, r.name, Some(r))
  }

  /** Running `index` again changes nothing. */
  lemma IndexIdempotent(s: NavState)
    ensures IndexStep(IndexStep(s)) == IndexStep(s)
  {
  }

  /** Only the latest `show` is visible. */
  lemma ShowLastWriteWins(s: NavState, a: Contact, b: Contact)
    ensures ShowStep(ShowStep(s, a), b) == ShowStep(s, b)
  {
  }

  class Viewport {
    const store: ContactStore
    var activeScreen: Screen
    var detailTitle: string
    var detailRecord: Option<Contact>

    function State(): NavState
      reads this
    {
      NavState(activeScreen, detailTitle, detailRecord)
    }

    /** Building the Viewport builds the list screen, whose initComponent
        loads the store; the list card is active first and the detail screen
        shows no record yet. */
    constructor (store: ContactStore, outcome: FindOutcome)
      modifies store
      ensures this.store == store
      ensures State() == NavState(List, InitialDetailTitle, None)
      ensures LoadSucceeds(outcome) ==>
        LoadedFrom(store.records, ContactsOrEmpty(outcome.contacts))
      ensures !LoadSucceeds(outcome) ==>
        store.records == old(store.records)
    {
      store.Load(outcome);
      this.store := store;
      activeScreen := List;
      detailTitle := InitialDetailTitle;
      detailRecord := None;
    }

    /** `setActiveItem`: switches the active card; the animation is ignored. */
    method SetActiveItem(screen: Screen, animation: Option<string>)
      modifies this
      ensures activeScreen == screen
      ensures detailTitle == old(detailTitle) && detailRecord == old(detailRecord)
    {
      activeScreen := screen;
    }

    /** The detail screen's `updateWithRecord`: its templates get the
        record's data and its toolbar the record's name. */
    method UpdateWithRecord(record: Contact)
      modifies this
      ensures detailRecord == Some(record) && detailTitle == record.name
      ensures activeScreen == old(activeScreen)
    {
      detailRecord := Some(record);
      detailTitle := record.name;
    }
  }

  class ContactsController {
    const viewport: Viewport

    constructor (viewport: Viewport)
      ensures this.viewport == viewport
    {
      this.viewport := viewport;
    }

    /** `index`: activates the list screen. */
    method Index(options: Options)
      modifies viewport
      ensures viewport.State() == IndexStep(old(viewport.State()))
    {
      viewport.SetActiveItem(List, options.animation);
    }

    /** `show`: looks the id up in the store; when a record is found the
        detail screen shows it and becomes active, otherwise nothing changes. */
    method Show(options: Options)
      modifies viewport
      ensures options.id.None? || !HasId(viewport.store.records, options.id.value) ==>
        viewport.State() == old(viewport.State())
      ensures options.id.Some? && HasId(viewport.store.records, options.id.value) ==>
        && viewport.detailRecord.Some?
        && viewport.detailRecord.value in viewport.store.records
        && viewport.detailRecord.value.id == options.id.value
        && viewport.State() == ShowStep(old(viewport.State()), viewport.detailRecord.value)
    {
      if options.id.Some? {
        var contact := viewport.store.GetById(options.id.value);
        if contact.Some? {
          viewport.UpdateWithRecord(contact.value);
          viewport.SetActiveItem(Detail, options.animation);
        }
      }
    }
  }

  /** The list screen's `select`: dispatches `show` with the record's id.
      A record of the store always leads to the detail screen, showing a
      stored record with that id: the selected record itself when no other
      stored record shares its id, possibly another one otherwise. */
  method Select(contacts: ContactsController, record: Contact)
    modifies contacts.viewport
    ensures record in contacts.viewport.store.records ==>
      && contacts.viewport.activeScreen == Detail
      && contacts.viewport.detailRecord.Some?
      && contacts.viewport.detailRecord.value.id == record.id
      && contacts.viewport.detailRecord.value in contacts.viewport.store.records
      && contacts.viewport.detailTitle == contacts.viewport.detailRecord.value.name
      && contacts.viewport.State() ==
           ShowStep(old(contacts.viewport.State()), contacts.viewport.detailRecord.value)
    ensures (record in contacts.viewport.store.records &&
             forall r :: r in contacts.viewport.store.records && r.id == record.id ==> r == record) ==>
      contacts.viewport.detailRecord == Some(record)
    ensures !HasId(contacts.viewport.store.records, record.id) ==>
      contacts.viewport.State() == old(contacts.viewport.State())
  {
    contacts.Show(Options(None, Some(record.id)));
  }

  /** Dispatches a route token to the `contacts` controller: `'list'` runs
      index and `'detail'` runs show, with the same effect as calling them
      directly. A token the route table does not know dispatches nothing. */
  method Dispatch(contacts: ContactsController, token: string, options: Options)
    returns (dispatched: bool)
    modifies contacts.viewport
    ensures dispatched <==> Resolve(token).Some?
    ensures token == TokenOf(Index) ==>
      contacts.viewport.State() == IndexStep(old(contacts.viewport.State()))
    ensures (token == TokenOf(Show) &&
             (options.id.None? || !HasId(contacts.viewport.store.records, options.id.value))) ==>
      contacts.viewport.State() == old(contacts.viewport.State())
    ensures (token == TokenOf(Show) && options.id.Some?
             && HasId(contacts.viewport.store.records, options.id.value)) ==>
      && contacts.viewport.detailRecord.Some?
      && contacts.viewport.detailRecord.value in contacts.viewport.store.records
      && contacts.viewport.detailRecord.value.id == options.id.value
      && contacts.viewport.State() ==
           ShowStep(old(contacts.viewport.State()), contacts.viewport.detailRecord.value)
    ensures !dispatched ==> contacts.viewport.State() == old(contacts.viewport.State())
  {
    match Resolve(token)
    case None =>
      dispatched := false;
    case Some(route) =>
      dispatched := true;
      match route.action
      case Index => contacts.Index(options);
      case Show => contacts.Show(options);
  }
}
