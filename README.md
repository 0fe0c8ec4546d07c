# Contacts navigation core

A Dafny model of the sequential core of a Sencha Touch + PhoneGap contacts
application (`assets/app/app.js`):

- **ContactProxy** (`Proxy`): `read` asks the device for its contacts; the
  success callback turns every raw contact tuple into a `Contact` record, in
  the order received, attaches a result set whose `total` is the number of
  records, marks the load operation successful and completed and runs the
  caller's callback once; the error callback only logs. A tuple whose
  `name` is null makes reading `name.formatted` throw, which ends the
  success callback before anything is recorded: the model treats that
  path like an error.
- **Contact** (`Contacts`): the record type and the field mapping
  (`name.formatted` becomes `name`; `id`, `givenName`, `familyName`,
  `phoneNumbers`, `emails` pass through). The mapping has an inverse, so
  every field of a tuple is recoverable from its record.
- **ContactStore** (`Store`, ordering in `FamilyOrder`): a class holding a
  sequence of records. A successful load replaces the whole sequence with
  the mapped records sorted non-decreasing by `familyName` (a permutation of
  them); a failed load leaves the sequence as it was. `getById` returns some
  record with that id, or nothing.
- **Route table** (`Router`): `'list'` resolves to `contacts/index`,
  `'detail'` to `contacts/show`, any other token to nothing.
- **Navigation** (`Navigation`): the Viewport (active card, detail title,
  detail record) and the `contacts` controller. `index` activates the list
  and changes nothing else; `show` activates the detail screen with the
  record found for the id and its name as title, or changes nothing when no
  record has that id. List selection dispatches `show` with the record's id.

The device call `navigator.contacts.find` is a parameter of type
`FindOutcome`: `Found(list)` (the list `None` when it is null) or
`Failed(error)`. Loading is therefore synchronous in the model, and two
loads can never overlap.

JavaScript's string comparison, which the `familyName` sorter uses, is
modelled as lexicographic order on characters (`FamilyOrder.NameLe`), proved
reflexive, total, transitive and antisymmetric. The code declares only the
sort key, so the store's contracts promise "sorted by family name and a
permutation of the mapped records" (`Store.LoadedFrom`) and leave the order
among equal family names open; `Store.LoadedNamesDetermined` shows that this
still fixes the family name at every position. The model does not assume
ids are unique (the desktop fixture reuses `id: 0`): `getById` and `show`
promise "a record with that id".

## Model

| member | source | states |
|---|---|---|
| Contacts.ToContact | assets/app/app.js:41-48 | for a tuple with a name, the record's fields give back the raw tuple unchanged (`RawOf(r) == c`): id, formatted name, given and family name, phone numbers and emails element for element |
| Contacts.ToContactInjective | assets/app/app.js:41-48 | two tuples mapping to the same record are the same tuple |
| Contacts.MapContactsAt | assets/app/app.js:38-49 | the mapped list has one record per tuple and record i is the mapping of tuple i |
| Contacts.MapContactsSnoc | assets/app/app.js:39-49 | mapping a list with one more tuple at the end appends that tuple's record at the end |
| Contacts.MapContactsOrder | assets/app/app.js:38-49 | same length as the input, and every record comes from the tuple at the same position |
| Proxy.LoadOperation.constructor | assets/app/app.js:29 | an operation starts with no result set, neither successful nor completed |
| Proxy.BuildModels | assets/app/app.js:38-49 | the loop throws exactly when some tuple has no name; otherwise it pushes exactly one record per contact, record i built from contact i |
| Proxy.OnSuccess | assets/app/app.js:33-66 | with every tuple named: result set holds the mapped records with `total` equal to their number and `loaded` set, operation successful and completed, callback runs once exactly when one is given; a null list gives no records and `total` 0; a nameless tuple leaves the operation unchanged and runs no callback |
| Proxy.Read | assets/app/app.js:29-74 | a found list with every tuple named ends as in OnSuccess; a nameless tuple or a device error leaves the operation unchanged and runs no callback |
| FamilyOrder.NameLeReflexive | assets/app/app.js:97 | every family name sorts no later than itself |
| FamilyOrder.NameLeTotal | assets/app/app.js:97 | any two family names are comparable |
| FamilyOrder.NameLeTransitive | assets/app/app.js:97 | the family-name order is transitive |
| FamilyOrder.NameLeAntisymmetric | assets/app/app.js:97 | two names that each sort no later than the other are equal |
| FamilyOrder.Insert | assets/app/app.js:95-98 | inserting a record adds exactly that record to the multiset of records |
| FamilyOrder.SortByFamilyName | assets/app/app.js:95-98 | sorting is a permutation of its input |
| FamilyOrder.InsertSorted | assets/app/app.js:95-98 | inserting into a sequence sorted by family name keeps it sorted |
| FamilyOrder.SortByFamilyNameSorted | assets/app/app.js:95-98 | the sorted sequence is non-decreasing by family name |
| FamilyOrder.SortedPermutationsAgree | assets/app/app.js:95-98 | two orders of the same records, both sorted by family name, agree on the family name at every position |
| Store.Loaded | assets/app/app.js:95-98 | for every named list there is an order a load may store: sorted by family name and a permutation of the mapped records |
| Store.LoadedLength | assets/app/app.js:52-56 | any order a successful load stores holds exactly one record per contact received, so the store's size equals the result set's `total` |
| Store.LoadedNamesDetermined | assets/app/app.js:95-98 | any two orders a successful load may store have the same family name at every position |
| Store.LoadedHasId | assets/app/app.js:204 | after a successful load some record has an id exactly when some loaded contact had it, whatever order was stored |
| Store.ContactStore.constructor | assets/app/app.js:95-98 | a new store is empty |
| Store.ContactStore.OnProxyLoad | assets/app/app.js:63-65 | a successful operation replaces the records wholesale with its records in an order sorted by family name; otherwise nothing changes |
| Store.ContactStore.Load | assets/app/app.js:124 | a found list with every tuple named replaces the records with the mapped records sorted by family name (`LoadedFrom`); a failed load or a nameless tuple leaves the records as they were |
| Store.ContactStore.GetById | assets/app/app.js:204 | returns a stored record carrying the id, and returns nothing exactly when no stored record has that id |
| Router.Resolve | assets/app/app.js:213-216 | a token resolves exactly when it is `'list'` or `'detail'`, to the `contacts` controller and the action connected under that token |
| Router.ResolveTokenOf | assets/app/app.js:213-216 | `'list'` resolves to index and `'detail'` to show, and no other token resolves to either action |
| Navigation.IndexStep | assets/app/app.js:195-199 | index makes the list screen active and keeps title and detail record |
| Navigation.ShowStep | assets/app/app.js:206-208 | a shown record makes the detail screen active, with that record and its name as title |
| Navigation.IndexIdempotent | assets/app/app.js:195-199 | index twice is index once |
| Navigation.ShowLastWriteWins | assets/app/app.js:162-168 | after two shows only the latest record is on the detail screen |
| Navigation.Viewport.constructor | assets/app/app.js:177-190 | building the viewport loads the store (as in `Load`), starts on the list screen with the initial detail title and no detail record |
| Navigation.Viewport.SetActiveItem | assets/app/app.js:198 | switches the active screen and changes nothing else |
| Navigation.Viewport.UpdateWithRecord | assets/app/app.js:162-168 | the detail screen gets the record's data and its name as title; the active screen is unchanged |
| Navigation.ContactsController.constructor | assets/app/app.js:194 | the controller acts on the given viewport |
| Navigation.ContactsController.Index | assets/app/app.js:195-199 | the new navigation state is IndexStep of the old one |
| Navigation.ContactsController.Show | assets/app/app.js:201-210 | when a stored record has the id, the detail screen shows such a record (ShowStep); when none has it, or the id is missing, nothing changes |
| Navigation.Select | assets/app/app.js:128-136 | selecting a stored record opens the detail screen on a stored record with its id (ShowStep), titled with that record's name, and on the selected record itself when no other stored record shares its id; an id no record has changes nothing |
| Navigation.Dispatch | assets/app/app.js:213-216 | dispatches exactly the tokens the route table resolves: `'list'` has index's effect and `'detail'` show's (found id: ShowStep with a stored record carrying it; missing or unknown id: nothing changes); any other token changes nothing |

## Left out

- Rendering: templates, `itemTpl`, toolbar and layout configuration, styles and the `slide` card animation (assets/app/app.js:102-112, 140-161, 173-176); the animation hint is a parameter the model ignores.
- Application launch, `defaultUrl` and `deviceready` gating (assets/app/app.js:4-16, 256): host plumbing.
- `navigator.contacts.find` itself and the requested attribute list and `multiple` option (assets/app/app.js:22-27, 73): replaced by the `FindOutcome` parameter.
- `console.log` / `console.error` logging, and the `scope` argument of the callback call.
- `parseInt` of the id: ids are integers, and a missing id (which parses to NaN) is `Options.id == None`, which matches no record.
- Ext framework internals: `Ext.dispatch`, the history handler, `ResultSet`, how the store sorter and `getById` are implemented; `OnProxyLoad` stands in for the store's load handler.
- The `itemtap` / `onItemDisclosure` list handlers (assets/app/app.js:113-121): they only call `select` with the tapped record, which `Navigation.Select` models.
- FamilyOrder.NameLe: compares Unicode characters, whereas JavaScript compares UTF-16 code units; the two orders differ only for characters outside the Basic Multilingual Plane.
- The order among records with equal family names: the code declares only the sort key, so no contract promises one (`Store.LoadedFrom` leaves it open).
- The desktop debug fixture (assets/app/app.js:219-252); it is why ids are not assumed unique.
- A tuple that is itself null, or a `name` lacking `formatted`, `givenName` or `familyName` (passed as `undefined` to the model constructor at assets/app/app.js:43-45): the model's names are always strings, and only a null `name` is modelled as an error path.
- Overlapping loads: the device outcome is a parameter, so a load always completes before the next operation.
