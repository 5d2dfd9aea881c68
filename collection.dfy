/**
 * The fully observable collection: an ordered list of entries that keeps one
 * subscription to each entry per occurrence and turns an entry's
 * PropertyChanged into its own ItemPropertyChanged.
 */
module Observable {
  import opened Entries
  import opened Events
  import opened CollectionModel

  /** How an indexed call ended: done, or refused because an index was out of range (before anything changed). */
  datatype Outcome = Done | ArgumentOutOfRange

  /** The indexer's result: the entry, or out of range. */
  datatype Lookup = Found(entry: Entry) | OutOfRange

  class FullyObservableCollection {
    /** The entries, in order. */
    var items: seq<Entry>
    /** How many times this collection's handler is attached to each entry's PropertyChanged. */
    var subscriptions: multiset<Entry>
    /** The ItemPropertyChanged events raised so far, as a listener receives them. */
    var received: seq<ItemPropertyChangedEventArgs>
    /** The collection-changed notifications raised so far, with the subscriptions each one fired under. */
    var signals: seq<CollectionChanged>

    /** The collection's state as a value. */
    function Model(): State
      reads this
    {
      State(items, subscriptions, received, signals)
    }

    /** Subscriptions track membership. Every constructor establishes it and every method keeps it. */
    ghost predicate Valid()
      reads this
    {
      Tracks(Model())
    }

    /** The parameterless constructor: no items and no subscriptions. */
    constructor ()
      ensures Model() == Empty() && Valid()
    {
      items := [];
      subscriptions := multiset{};
      received := [];
      signals := [];
    }

    /**
     * The list and the enumerable constructors: the base collection copies the
     * entries, then each occurrence is subscribed; nothing goes through
     * OnCollectionChanged, so no collection-changed notification fires.
     */
    constructor FromItems(initial: seq<Entry>)
      ensures Model() == CollectionModel.FromItems(initial) && Valid()
    {
      items := initial;
      subscriptions := multiset{};
      received := [];
      signals := [];
      new;
      ObserveAll();
    }

    /** Attaches the handler once to every held occurrence. */
    method ObserveAll()
      modifies this
      ensures items == old(items) && received == old(received) && signals == old(signals)
      ensures subscriptions == old(subscriptions) + multiset(items)
    {
      subscriptions := Attach(subscriptions, items);
    }

    /**
     * Called by the base collection after every structural change: detaches
     * from each old item on Remove or Replace, attaches to each new item on Add
     * or Replace, then raises the base notification.
     */
    method OnCollectionChanged(e: NotifyCollectionChangedEventArgs)
      modifies this
      ensures Model() == CollectionModel.OnCollectionChanged(old(Model()), e)
    {
      ghost var before := Model();
      var current := subscriptions;
      if e.action.Remove? || e.action.Replace? {
        current := Detach(current, e.oldItems);
      }
      if e.action.Add? || e.action.Replace? {
        current := Attach(current, e.newItems);
      }
      assert current == CollectionModel.OnCollectionChanged(before, e).subscriptions;
      subscriptions := current;
      signals := signals + [CollectionChanged(e, current)];
    }

    /** Detaches from every held occurrence, then empties the list and raises Reset. */
    method ClearItems()
      modifies this
      ensures Model() == CollectionModel.ClearItems(old(Model()))
    {
      subscriptions := Detach(subscriptions, items);
      items := [];
      OnCollectionChanged(ResetArgs());
    }

    /** Raises ItemPropertyChanged for an entry and a property name. */
    method OnItemPropertyChanged(e: Entry, prop: string)
      modifies this
      ensures items == old(items) && subscriptions == old(subscriptions) && signals == old(signals)
      ensures received == old(received) + [ItemPropertyChangedEventArgs(e, prop)]
    {
      received := received + [ItemPropertyChangedEventArgs(e, prop)];
    }

    /** The handler attached to every held entry: forwards the entry and the property name. */
    method ChildPropertyChanged(sender: Entry, e: PropertyChangedEventArgs)
      modifies this
      ensures items == old(items) && subscriptions == old(subscriptions) && signals == old(signals)
      ensures received == old(received) + [ItemPropertyChangedEventArgs(sender, e.propertyName)]
    {
      OnItemPropertyChanged(sender, e.propertyName);
    }

    /**
     * The sender raised PropertyChanged: its invocation list runs this
     * collection's handler once per subscription.
     */
    method ReceivePropertyChanged(sender: Entry, e: PropertyChangedEventArgs)
      modifies this
      ensures Model() == ItemChanged(old(Model()), sender, e.propertyName)
    {
      var calls := 0;
      while calls < subscriptions[sender]
        invariant calls <= subscriptions[sender]
        invariant items == old(items) && subscriptions == old(subscriptions) && signals == old(signals)
        invariant received == old(received) + Repeat(ItemPropertyChangedEventArgs(sender, e.propertyName), calls)
      {
        ChildPropertyChanged(sender, e);
        calls := calls + 1;
      }
    }

    /** The indexer's getter. */
    method Get(index: int) returns (r: Lookup)
      ensures 0 <= index < |items| ==> r == Found(items[index])
      ensures !(0 <= index < |items|) ==> r == OutOfRange
    {
      if 0 <= index < |items| {
        r := Found(items[index]);
      } else {
        r := OutOfRange;
      }
    }

    /** Appends an entry. */
    method Add(item: Entry)
      modifies this
      ensures Model() == InsertItem(old(Model()), old(|items|), item)
      ensures items == old(items) + [item]
      ensures old(Valid()) ==> Valid()
    {
      var index := |items|;
      items := Inserted(items, index, item);
      OnCollectionChanged(AddArgs(item, index));
      assert items == old(items)[..index] + [item] + old(items)[index..];
    }

    /** Inserts an entry at index; an index beyond the end is refused before anything changes. */
    method Insert(index: int, item: Entry) returns (outcome: Outcome)
      modifies this
      ensures outcome == Done <==> 0 <= index <= old(|items|)
      ensures outcome == Done ==> Model() == InsertItem(old(Model()), index, item)
      ensures outcome == ArgumentOutOfRange ==> Model() == old(Model())
      ensures old(Valid()) ==> Valid()
    {
      if !(0 <= index <= |items|) {
        return ArgumentOutOfRange;
      }
      items := Inserted(items, index, item);
      OnCollectionChanged(AddArgs(item, index));
      outcome := Done;
    }

    /** Removes the entry at index; an index outside the list is refused before anything changes. */
    method RemoveAt(index: int) returns (outcome: Outcome)
      modifies this
      ensures outcome == Done <==> 0 <= index < old(|items|)
      ensures outcome == Done ==> Model() == RemoveItem(old(Model()), index)
      ensures outcome == ArgumentOutOfRange ==> Model() == old(Model())
      ensures old(Valid()) ==> Valid()
    {
      if !(0 <= index < |items|) {
        return ArgumentOutOfRange;
      }
      var removed := items[index];
      items := Removed(items, index);
      OnCollectionChanged(RemoveArgs(removed, index));
      outcome := Done;
    }

    /** The indexer's setter: replaces the entry at index; an index outside the list is refused before anything changes. */
    method Set(index: int, item: Entry) returns (outcome: Outcome)
      modifies this
      ensures outcome == Done <==> 0 <= index < old(|items|)
      ensures outcome == Done ==> Model() == SetItem(old(Model()), index, item)
      ensures outcome == ArgumentOutOfRange ==> Model() == old(Model())
      ensures old(Valid()) ==> Valid()
    {
      if !(0 <= index < |items|) {
        return ArgumentOutOfRange;
      }
      var original := items[index];
      items := items[index := item];
      OnCollectionChanged(ReplaceArgs(item, original, index));
      outcome := Done;
    }

    /** Moves the entry at oldIndex to newIndex; an index outside the list is refused before anything changes. */
    method Move(oldIndex: int, newIndex: int) returns (outcome: Outcome)
      modifies this
      ensures outcome == Done <==> 0 <= oldIndex < old(|items|) && 0 <= newIndex < old(|items|)
      ensures outcome == Done ==> Model() == MoveItem(old(Model()), oldIndex, newIndex)
      ensures outcome == ArgumentOutOfRange ==> Model() == old(Model())
      ensures old(Valid()) ==> Valid()
    {
      if !(0 <= oldIndex < |items| && 0 <= newIndex < |items|) {
        return ArgumentOutOfRange;
      }
      ghost var before := Model();
      var moved := items[oldIndex];
      items := Inserted(Removed(items, oldIndex), newIndex, moved);
      assert MoveItem(before, oldIndex, newIndex) == CollectionModel.OnCollectionChanged(Model(), MoveArgs(moved, newIndex, oldIndex));
      OnCollectionChanged(MoveArgs(moved, newIndex, oldIndex));
      outcome := Done;
    }

    /** Removes every entry. */
    method Clear()
      modifies this
      ensures Model() == CollectionModel.ClearItems(old(Model()))
      ensures old(Valid()) ==> Valid() && subscriptions == multiset{}
    {
      ClearItems();
    }

    /** The names of the entries, in order, as iterating the collection yields them. */
    function Names(): (names: seq<string>)
      reads this, items
      ensures |names| == |items|
      ensures forall k | 0 <= k < |items| :: names[k] == items[k].name
    {
      NamesOf(items)
    }
  }

  /** The handler is attached to each entering item in turn, one more subscription per occurrence. */
  method Attach(subscriptions: multiset<Entry>, entering: seq<Entry>) returns (r: multiset<Entry>)
    ensures r == subscriptions + multiset(entering)
  {
    r := subscriptions;
    for i := 0 to |entering|
      invariant r == subscriptions + multiset(entering[..i])
    {
      assert entering[..i + 1] == entering[..i] + [entering[i]];
      r := r + multiset{entering[i]};
    }
    assert entering[..|entering|] == entering;
  }

  /**
   * The handler is detached from each leaving item in turn, one subscription
   * fewer per occurrence; detaching from an item it is not attached to
   * changes nothing.
   */
  method Detach(subscriptions: multiset<Entry>, leaving: seq<Entry>) returns (r: multiset<Entry>)
    ensures r == subscriptions - multiset(leaving)
  {
    r := subscriptions;
    for i := 0 to |leaving|
      invariant r == subscriptions - multiset(leaving[..i])
    {
      assert leaving[..i + 1] == leaving[..i] + [leaving[i]];
      r := r - multiset{leaving[i]};
    }
    assert leaving[..|leaving|] == leaving;
  }

  /** The names of a sequence of entries, in order. */
  function NamesOf(entries: seq<Entry>): (names: seq<string>)
    reads entries
    ensures |names| == |entries|
    ensures forall k | 0 <= k < |entries| :: names[k] == entries[k].name
  {
    if entries == [] then [] else [entries[0].name] + NamesOf(entries[1..])
  }

  /**
   * Assigns an entry's Id while a collection observes it: the entry stores the
   * value and raises PropertyChanged("Id"), which reaches the collection once
   * per subscription.
   */
  method SetEntryId(entry: Entry, value: int, collection: FullyObservableCollection)
    modifies entry, collection
    ensures entry.id == value && entry.name == old(entry.name)
    ensures collection.Model() == ItemChanged(old(collection.Model()), entry, IdProperty)
  {
    var raised := entry.SetId(value);
    collection.ReceivePropertyChanged(entry, raised);
  }

  /**
   * Assigns an entry's Name while a collection observes it: the entry stores
   * the value and raises PropertyChanged("Name"), which reaches the collection
   * once per subscription.
   */
  method SetEntryName(entry: Entry, value: string, collection: FullyObservableCollection)
    modifies entry, collection
    ensures entry.name == value && entry.id == old(entry.id)
    ensures collection.Model() == ItemChanged(old(collection.Model()), entry, NameProperty)
  {
    var raised := entry.SetName(value);
    collection.ReceivePropertyChanged(entry, raised);
  }

  /** The demonstration's set-up: entries (1, "One") and (2, "Two") added, in that order, to a new collection. */
  method DemoSetUp() returns (items: FullyObservableCollection, entry1: Entry, entry2: Entry)
    ensures fresh(items) && fresh(entry1) && fresh(entry2)
    ensures items.items == [entry1, entry2] && items.received == []
    ensures items.subscriptions == multiset{entry1, entry2}
    ensures items.signals == [CollectionChanged(AddArgs(entry1, 0), multiset{entry1}),
                              CollectionChanged(AddArgs(entry2, 1), multiset{entry1, entry2})]
    ensures entry1.id == 1 && entry1.name == "One" && entry2.id == 2 && entry2.name == "Two"
  {
    items := new FullyObservableCollection();
    entry1 := new Entry(1, "One");
    entry2 := new Entry(2, "Two");
    ghost var start := items.Model();
    items.Add(entry1);
    items.Add(entry2);
    TwoAdds(entry1, entry2);
    assert items.Model() == InsertItem(InsertItem(start, 0, entry1), 1, entry2);
  }

  /**
   * The demonstration: after the set-up, the second entry's name is set to
   * "Three" through the indexer. Exactly one ItemPropertyChanged reaches the
   * listener, for entry 2 and "Name", and the names read back in order are
   * "One" and "Three".
   */
  method Demo() returns (events: seq<ItemPropertyChangedEventArgs>, names: seq<string>)
    ensures |events| == 1
    ensures events[0].property == NameProperty && events[0].collectionEntry.id == 2
    ensures names == ["One", "Three"]
  {
    var items, entry1, entry2 := DemoSetUp();
    var second := items.Get(1);
    SetEntryName(second.entry, "Three", items);
    assert items.received == [ItemPropertyChangedEventArgs(entry2, NameProperty)];
    events := items.received;
    names := items.Names();
  }
}
