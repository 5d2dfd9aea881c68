# FullyObservableCollection in Dafny

A model of `FullyObservableCollection<T>`. This is an observable, ordered list
of `Entry` records. It keeps a subscription to every entry it holds, and it
re-raises each entry's `PropertyChanged` as its own
`ItemPropertyChanged(entry, propertyName)` event.

The project has four modules:

- `Entries` (`entry.dfy`): the mutable `Entry` class. Its `Id` and `Name`
  setters store the value and then always raise `PropertyChanged` with the
  property's name, even when the value did not change.
- `Events` (`events.dfy`): the payloads. `ItemPropertyChangedEventArgs` is an
  immutable (entry, property name) pair. The collection-changed arguments carry
  an action (Add, Remove, Replace, Move, Reset), the new and old items, and the
  indices. `CollectionChanged` pairs these arguments with the subscriptions in
  force at the moment the notification fires.
- `CollectionModel` (`model.dfy`): the collection's state as a value, the
  effect of each operation on it, and the lemmas.
- `Observable` (`collection.dfy`): the `FullyObservableCollection` class. Its
  methods update the items, the subscription counts and the two event logs in
  place. Each method is proved to agree with the matching function of
  `CollectionModel`.

Subscriptions are a `multiset<Entry>`. It counts how many times the
collection's handler sits in each entry's `PropertyChanged` invocation list.
A C# `+=` adds one invocation. A `-=` removes one, and does nothing when there
is none left; multiset difference behaves the same way. The central invariant,
`CollectionModel.Tracks`, says that the subscriptions equal the multiset of held
items. So each entry is subscribed once per occurrence, and an entry that is no
longer held is not subscribed. A duplicate entry therefore keeps its own
subscription per occurrence. Removing one occurrence leaves the others
subscribed. This differs from a reading in which duplicates share a single
subscription. The model follows the code's `+=`/`-=`, as
`DuplicateStaysSubscribed` states.

The entry setters and the collection meet in `SetEntryId` and `SetEntryName`.
The entry assigns its field and returns the `PropertyChangedEventArgs` it
raised. The collection's `ReceivePropertyChanged` then plays the entry's
invocation list: it runs `ChildPropertyChanged` once per subscription to that
entry.

## Model

| member | source | states |
|---|---|---|
| `Entries.OnPropertyChanged` | observable/Program.cs:185-188 | the event an entry raises carries exactly the property name its setter passes |
| `Entries.Entry.SetId` | observable/Program.cs:153-161 | the id is the new value, the name is unchanged, and PropertyChanged is raised with "Id" on every assignment, without comparing against the old value |
| `Entries.Entry.SetName` | observable/Program.cs:163-171 | the name is the new value, the id is unchanged, and PropertyChanged is raised with "Name" on every assignment |
| `Entries.Entry.constructor` | observable/Program.cs:177-181 | going through both setters leaves the given id and name |
| `Entries.Entry.Default` | observable/Program.cs:173-175 | the parameterless constructor leaves the default id 0 and the default name |
| `CollectionModel.OnCollectionChanged` | observable/Program.cs:70-87 | the hook leaves the items and the received events alone; Add attaches each new item once, Remove detaches each old item once, Replace does both, Move and Reset change no subscription; then exactly one notification is appended, carrying the subscriptions as they stand after the change |
| `CollectionModel.Empty` | observable/Program.cs:56-58 | the default constructor holds nothing, has no subscription and has raised nothing |
| `CollectionModel.FromItems` | observable/Program.cs:60-68 | the list and enumerable constructors hold the initial entries in order with one subscription per occurrence, and raise no collection-changed notification |
| `CollectionModel.InsertItem` | observable/Program.cs:79-86 | Add and Insert place the item at the index, add one subscription for it, and keep the invariant; the Add notification fires last and sees the new item subscribed |
| `CollectionModel.RemoveItem` | observable/Program.cs:72-77 | removal drops the item at the index and one subscription to it before the Remove notification fires; keeps the invariant |
| `CollectionModel.SetItem` | observable/Program.cs:72-86 | replacement overwrites one position, removes a subscription from the old item and adds one to the new item, then fires Replace; keeps the invariant |
| `CollectionModel.MoveItem` | observable/Program.cs:70-87 | a move permutes the items, puts the moved item at the new index, keeps every other item in its relative order (the list without the moved item is unchanged) and changes no subscription |
| `CollectionModel.ClearItems` | observable/Program.cs:96-102 | clearing removes one subscription per held occurrence and then empties the list; under the invariant nothing stays subscribed, and the Reset notification fires with no subscriptions |
| `CollectionModel.ItemChanged` | observable/Program.cs:110-115 | an entry's PropertyChanged appends exactly (entry, property name) once per subscription to that entry, and changes neither the items nor the subscriptions |
| `CollectionModel.Step` | observable/Program.cs:70-102 | each public call keeps the invariant; a call with an index out of range changes nothing. For Move with a valid old index and an out-of-range new index this is the corrected behaviour; the program itself removes the item and leaves it subscribed (see Findings) |
| `CollectionModel.SubscriptionsTrackMembership` | observable/Program.cs:70-108 | after any sequence of Add, Insert, RemoveAt, Set, Move, Clear and property changes, subscriptions still equal the held items' occurrences, given that a Move with an out-of-range new index is refused before it changes anything; the program's partially applied move breaks this (see Findings) |
| `CollectionModel.NotificationsMatchOccurrences` | observable/Program.cs:90-93 | under the invariant, a change to an entry raises ItemPropertyChanged once per occurrence of it in the list |
| `CollectionModel.FormerMembersAreSilent` | observable/Program.cs:72-77 | from construction and any calls after it, an entry that the collection no longer holds raises nothing through it, with a Move to an out-of-range index refused as in `Step`; the program's failed move is the exception (see Findings) |
| `CollectionModel.RemovedEntryIsSilent` | observable/Program.cs:72-77 | removing the only occurrence of an entry means a later change to it adds nothing to the ItemPropertyChanged log |
| `CollectionModel.DuplicateStaysSubscribed` | observable/Program.cs:75-76 | removing one of two occurrences leaves exactly one subscription, so a later change is raised once |
| `CollectionModel.ClearSilencesFormerMembers` | observable/Program.cs:96-102 | after Clear, no former member's change reaches the log, and the Reset notification fires with nothing subscribed |
| `CollectionModel.ConstructionSubscribesEachOnce` | observable/Program.cs:60-68 | building from two entries fires no collection-changed notification, and a change to either one afterwards raises exactly one ItemPropertyChanged |
| `CollectionModel.FailedMoveAsWritten` | observable/Program.cs:70-87 | a Move whose new index is past the end, as the program runs it: the item is removed from the list, and the subscriptions and both logs are left as they were, because the exception comes before `OnCollectionChanged` |
| `CollectionModel.FailedMoveKeepsFormerMemberSubscribed` | observable/Program.cs:72-77 | after such a failed move, the invariant no longer holds, and an entry held once is gone from the list yet still raises one ItemPropertyChanged per change |
| `CollectionModel.RefusedMoveKeepsTracking` | observable/Program.cs:70-87 | the same move as `Step` runs it is refused before anything changes, so the invariant holds |
| `CollectionModel.TwoAdds` | observable/Program.cs:22-23 | two Adds on an empty collection hold both entries in order, subscribe each once, and fire two Add notifications; each fires after its own item is subscribed |
| `Observable.FullyObservableCollection.constructor` | observable/Program.cs:56-58 | the object starts as the empty state, which satisfies the invariant |
| `Observable.FullyObservableCollection.FromItems` | observable/Program.cs:60-68 | the object starts as `CollectionModel.FromItems` of the initial entries |
| `Observable.FullyObservableCollection.ObserveAll` | observable/Program.cs:104-108 | one subscription is added per held occurrence, and nothing else changes |
| `Observable.FullyObservableCollection.OnCollectionChanged` | observable/Program.cs:70-87 | the new state is `CollectionModel.OnCollectionChanged` of the old one: detach old items, attach new items, then record the notification with the resulting subscriptions |
| `Observable.FullyObservableCollection.ClearItems` | observable/Program.cs:96-102 | the new state is `CollectionModel.ClearItems` of the old one |
| `Observable.FullyObservableCollection.OnItemPropertyChanged` | observable/Program.cs:90-93 | appends exactly one ItemPropertyChanged(entry, property) and changes nothing else |
| `Observable.FullyObservableCollection.ChildPropertyChanged` | observable/Program.cs:110-115 | forwards the sender and the property name as one ItemPropertyChanged event |
| `Observable.FullyObservableCollection.ReceivePropertyChanged` | observable/Program.cs:185-188 | the invocation list runs the handler once per subscription; the new state is `CollectionModel.ItemChanged` of the old one |
| `Observable.FullyObservableCollection.Get` | observable/Program.cs:32 | the indexer returns the entry at a valid index and reports out of range otherwise |
| `Observable.FullyObservableCollection.Add` | observable/Program.cs:79-86 | appends the entry; the new state is `CollectionModel.InsertItem` at the end of the old one, and the invariant is kept |
| `Observable.FullyObservableCollection.Insert` | observable/Program.cs:79-86 | succeeds exactly when 0 <= index <= Count; then the new state is `CollectionModel.InsertItem` of the old one, otherwise nothing changes; the invariant is kept |
| `Observable.FullyObservableCollection.RemoveAt` | observable/Program.cs:72-77 | succeeds exactly when 0 <= index < Count; then the new state is `CollectionModel.RemoveItem` of the old one, otherwise nothing changes; the invariant is kept |
| `Observable.FullyObservableCollection.Set` | observable/Program.cs:72-84 | succeeds exactly when 0 <= index < Count; then the new state is `CollectionModel.SetItem` of the old one, otherwise nothing changes; the invariant is kept |
| `Observable.FullyObservableCollection.Move` | observable/Program.cs:70-87 | succeeds exactly when both indices are valid; then the new state is `CollectionModel.MoveItem` of the old one, otherwise nothing changes; the invariant is kept |
| `Observable.FullyObservableCollection.Clear` | observable/Program.cs:96-102 | the new state is `CollectionModel.ClearItems` of the old one; under the invariant no subscription remains |
| `Observable.FullyObservableCollection.Names` | observable/Program.cs:35-38 | iteration yields each held entry's name, in order |
| `Observable.Attach` | observable/Program.cs:82-83 | attaching the handler to each entering item in turn adds exactly one subscription per occurrence |
| `Observable.Detach` | observable/Program.cs:75-76 | detaching from each leaving item in turn removes one subscription per occurrence, and never goes below zero |
| `Observable.NamesOf` | observable/Program.cs:35-38 | one name per entry, in order |
| `Observable.SetEntryId` | observable/Program.cs:153-161 | the entry's id is stored, and the collection then receives `CollectionModel.ItemChanged` for "Id" |
| `Observable.SetEntryName` | observable/Program.cs:163-171 | the entry's name is stored, and the collection then receives `CollectionModel.ItemChanged` for "Name" |
| `Observable.DemoSetUp` | observable/Program.cs:16-23 | two new entries (1, "One") and (2, "Two") are held in that order, each subscribed once, and nothing has been received; the two Add notifications fired, the first with entry 1 subscribed and the second with both subscribed |
| `Observable.Demo` | observable/Program.cs:16-32 | with entries (1, "One") and (2, "Two") added, setting the second name to "Three" raises exactly one event, for entry 2 and "Name", and the names read back are ["One", "Three"] |

## Left out

- The console output and the `Console.ReadKey` pauses of the demonstration driver. Only the scenario it drives is modelled, as `Observable.Demo`.
- The internals of the .NET `ObservableCollection<T>` base class: reentrancy blocking, the collection's own `Count` and `Item[]` property notifications, and event-argument construction. They belong to a foreign library. Only the structural change itself and the action kinds it reports are modelled.
- Listeners of the two events are not modelled one by one. `received` and `signals` are the sequences of events raised, and every listener sees them in that order. When there is no listener, the C# `?.Invoke` drops the event; the logs record it anyway.
- Multicast delegates are replaced by a subscription count per entry, and caller-member-name capture is replaced by the literals "Id" and "Name".
- An entry held by several collections at once: each collection is modelled on its own, with its own subscription counts.
- The element type is fixed to `Entry`, so the `(Entry) sender` cast cannot fail.
- Reentrant mutation from inside a handler, and concurrency.
- `Entries.Entry.Default`: the C# parameterless constructor leaves the name null. The model has no null string and uses "" instead.
- `Observable.FullyObservableCollection.Move`: it refuses an out-of-range new index before changing anything. The .NET base class removes the item first and only then fails on insertion. `OnCollectionChanged` then never runs, so the removed item stays subscribed. A caller that catches the exception is left with a collection that breaks the subscription invariant, and the removed entry's changes still reach `ItemPropertyChanged`. `CollectionModel.Step`, `SubscriptionsTrackMembership` and `FormerMembersAreSilent` hold for the refusing Move only. The program's path is modelled separately, as `CollectionModel.FailedMoveAsWritten` (see Findings).
- Null entries: `Entry` is a non-null reference type here, so null items are not modelled. In the program they fail as follows.
  - `Add(null)`, `Insert(i, null)` and a `Set` of null first change the base list. Then the `+=` on the null item throws a NullReferenceException, so no collection-changed notification fires. A `Set` of null has by then already detached the item it replaced.
  - `FromItems` with a null in the initial entries throws in `ObserveAll` after subscribing the entries before the null.
  - `Clear` with a null held throws after detaching the entries before it, and leaves the list uncleared.

## Findings

| source | as written | input that shows it | evidently intended | confidence | as-written member | corrected member |
|---|---|---|---|---|---|---|
| observable/Program.cs:70-87 | a removed item is detached only inside `OnCollectionChanged`, which runs only after the base class's change succeeds | `Move(0, 2)` on `[a, b]`: the base class removes `a`, then throws on insertion at index 2. After the caller catches the exception, `[b]` is held, `a` is still subscribed, and `a.Name = "x"` still raises ItemPropertyChanged | a failed Move leaves the held items and the subscriptions in step, so a former member raises nothing | not executed; medium (it depends on the .NET base class's `MoveItem`, which is not part of this model) | `CollectionModel.FailedMoveKeepsFormerMemberSubscribed` | `CollectionModel.RefusedMoveKeepsTracking` |
