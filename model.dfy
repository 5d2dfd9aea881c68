/**
 * The state of one fully observable collection as a value, and the effect of
 * each of its operations on it. The class in module Observable runs these
 * operations step by step and is proved to agree with the functions here; the
 * lemmas below state what the collection promises across many operations.
 */
module CollectionModel {
  import opened Entries
  import opened Events

  /**
   * items: the entries in order (the same entry may occur more than once).
   * subscriptions: how many times the collection's handler is attached to each
   *   entry's PropertyChanged; each attach adds one and each detach removes one.
   * received: every ItemPropertyChanged event the collection has raised, in order.
   * signals: every collection-changed notification it has raised, in order.
   */
  datatype State = State(
    items: seq<Entry>,
    subscriptions: multiset<Entry>,
    received: seq<ItemPropertyChangedEventArgs>,
    signals: seq<CollectionChanged>)

  /** Subscriptions track membership: every entry is subscribed once per occurrence, and nothing else is. */
  predicate Tracks(s: State)
  {
    s.subscriptions == multiset(s.items)
  }

  /** n copies of x. */
  function Repeat<T>(x: T, n: nat): (r: seq<T>)
    ensures |r| == n
    ensures forall k | 0 <= k < n :: r[k] == x
  {
    if n == 0 then [] else Repeat(x, n - 1) + [x]
  }

  /** The list with x placed at index. */
  function Inserted(s: seq<Entry>, index: nat, x: Entry): (r: seq<Entry>)
    requires index <= |s|
    ensures |r| == |s| + 1 && r[index] == x
    ensures r[..index] == s[..index] && r[index + 1..] == s[index..]
    ensures multiset(r) == multiset(s) + multiset{x}
  {
    assert s == s[..index] + s[index..];
    s[..index] + [x] + s[index..]
  }

  /** The list without the element at index. */
  function Removed(s: seq<Entry>, index: nat): (r: seq<Entry>)
    requires index < |s|
    ensures |r| == |s| - 1
    ensures r[..index] == s[..index] && r[index..] == s[index + 1..]
    ensures multiset(r) == multiset(s) - multiset{s[index]}
  {
    assert s == s[..index] + [s[index]] + s[index + 1..];
    s[..index] + s[index + 1..]
  }

  /** Removing what was just inserted gives back the list it was inserted into. */
  lemma RemoveUndoesInsert(s: seq<Entry>, index: nat, x: Entry)
    requires index <= |s|
    ensures Removed(Inserted(s, index, x), index) == s
  {
  }

  /**
   * The collection's hook on every structural change: detach from the items
   * that left on Remove or Replace, attach to those that entered on Add or
   * Replace, and only then raise the collection-changed notification.
   */
  function OnCollectionChanged(s: State, e: NotifyCollectionChangedEventArgs): (r: State)
    ensures r.items == s.items && r.received == s.received
    ensures e.action.Add? ==> r.subscriptions == s.subscriptions + multiset(e.newItems)
    ensures e.action.Remove? ==> r.subscriptions == s.subscriptions - multiset(e.oldItems)
    ensures e.action.Replace? ==> r.subscriptions == s.subscriptions - multiset(e.oldItems) + multiset(e.newItems)
    ensures e.action.Move? || e.action.Reset? ==> r.subscriptions == s.subscriptions
    ensures r.signals == s.signals + [CollectionChanged(e, r.subscriptions)]
  {
    var detached := if e.action == Remove || e.action == Replace then s.subscriptions - multiset(e.oldItems) else s.subscriptions;
    var attached := if e.action == Add || e.action == Replace then detached + multiset(e.newItems) else detached;
    s.(subscriptions := attached, signals := s.signals + [CollectionChanged(e, attached)])
  }

  /** A collection built with the parameterless constructor: no items, no subscriptions, no notifications. */
  function Empty(): (r: State)
    ensures Tracks(r) && r.items == []
    ensures r.signals == [] && r.received == []
  {
    State([], multiset{}, [], [])
  }

  /**
   * A collection built from a list or sequence of entries: it holds them in
   * order and subscribes each occurrence once, without raising any
   * collection-changed notification.
   */
  function FromItems(initial: seq<Entry>): (r: State)
    ensures Tracks(r) && r.items == initial
    ensures r.signals == [] && r.received == []
  {
    State(initial, multiset(initial), [], [])
  }

  /** Insertion at index (also the end, for Add): the new item is subscribed before the Add notification fires. */
  function InsertItem(s: State, index: nat, item: Entry): (r: State)
    requires index <= |s.items|
    ensures |r.items| == |s.items| + 1 && r.items[index] == item
    ensures r.items[..index] == s.items[..index] && r.items[index + 1..] == s.items[index..]
    ensures r.subscriptions == s.subscriptions + multiset{item}
    ensures Tracks(s) ==> Tracks(r)
    ensures r.signals == s.signals + [CollectionChanged(AddArgs(item, index), r.subscriptions)]
    ensures r.signals[|r.signals| - 1].subscriptions[item] > 0
    ensures r.received == s.received
  {
    OnCollectionChanged(s.(items := Inserted(s.items, index, item)), AddArgs(item, index))
  }

  /** Removal at index: the removed item loses one subscription before the Remove notification fires. */
  function RemoveItem(s: State, index: nat): (r: State)
    requires index < |s.items|
    ensures |r.items| == |s.items| - 1
    ensures r.items[..index] == s.items[..index] && r.items[index..] == s.items[index + 1..]
    ensures r.subscriptions == s.subscriptions - multiset{s.items[index]}
    ensures Tracks(s) ==> Tracks(r)
    ensures r.signals == s.signals + [CollectionChanged(RemoveArgs(s.items[index], index), r.subscriptions)]
    ensures r.received == s.received
  {
    OnCollectionChanged(s.(items := Removed(s.items, index)), RemoveArgs(s.items[index], index))
  }

  /** Replacement at index: the overwritten item loses a subscription and the new one gains one, then Replace fires. */
  function SetItem(s: State, index: nat, item: Entry): (r: State)
    requires index < |s.items|
    ensures |r.items| == |s.items| && r.items[index] == item
    ensures forall k | 0 <= k < |s.items| && k != index :: r.items[k] == s.items[k]
    ensures r.subscriptions == s.subscriptions - multiset{s.items[index]} + multiset{item}
    ensures Tracks(s) ==> Tracks(r)
    ensures r.signals == s.signals + [CollectionChanged(ReplaceArgs(item, s.items[index], index), r.subscriptions)]
    ensures r.received == s.received
  {
    OnCollectionChanged(s.(items := s.items[index := item]), ReplaceArgs(item, s.items[index], index))
  }

  /** Moving an item: a permutation of the items that changes no subscription. */
  function MoveItem(s: State, oldIndex: nat, newIndex: nat): (r: State)
    requires oldIndex < |s.items| && newIndex < |s.items|
    ensures |r.items| == |s.items| && r.items[newIndex] == s.items[oldIndex]
    ensures multiset(r.items) == multiset(s.items)
    ensures Removed(r.items, newIndex) == Removed(s.items, oldIndex)
    ensures r.subscriptions == s.subscriptions
    ensures Tracks(s) ==> Tracks(r)
    ensures r.signals == s.signals + [CollectionChanged(MoveArgs(s.items[oldIndex], newIndex, oldIndex), r.subscriptions)]
    ensures r.received == s.received
  {
    var moved := s.items[oldIndex];
    RemoveUndoesInsert(Removed(s.items, oldIndex), newIndex, moved);
    OnCollectionChanged(s.(items := Inserted(Removed(s.items, oldIndex), newIndex, moved)), MoveArgs(moved, newIndex, oldIndex))
  }

  /**
   * Clearing: every held item loses one subscription per occurrence, then the
   * list is emptied and a Reset notification fires, which changes no
   * subscription.
   */
  function ClearItems(s: State): (r: State)
    ensures r.items == []
    ensures r.subscriptions == s.subscriptions - multiset(s.items)
    ensures Tracks(s) ==> r.subscriptions == multiset{}
    ensures Tracks(s) ==> Tracks(r)
    ensures r.signals == s.signals + [CollectionChanged(ResetArgs(), r.subscriptions)]
    ensures r.received == s.received
  {
    OnCollectionChanged(s.(subscriptions := s.subscriptions - multiset(s.items), items := []), ResetArgs())
  }

  /**
   * An entry raised PropertyChanged: the collection's handler runs once per
   * subscription to that entry, and each run raises ItemPropertyChanged with
   * the entry and the property name.
   */
  function ItemChanged(s: State, sender: Entry, property: string): (r: State)
    ensures r.items == s.items && r.subscriptions == s.subscriptions && r.signals == s.signals
    ensures |r.received| == |s.received| + s.subscriptions[sender]
    ensures r.received[..|s.received|] == s.received
    ensures forall k | |s.received| <= k < |r.received| :: r.received[k] == ItemPropertyChangedEventArgs(sender, property)
  {
    s.(received := s.received + Repeat(ItemPropertyChangedEventArgs(sender, property), s.subscriptions[sender]))
  }

  /** Two Adds on an empty collection: each entry is subscribed by the time its Add notification fires. */
  lemma TwoAdds(a: Entry, b: Entry)
    ensures InsertItem(InsertItem(Empty(), 0, a), 1, b)
      == State([a, b], multiset{a, b}, [],
               [CollectionChanged(AddArgs(a, 0), multiset{a}), CollectionChanged(AddArgs(b, 1), multiset{a, b})])
  {
    var first := InsertItem(Empty(), 0, a);
    assert first == State([a], multiset{a}, [], [CollectionChanged(AddArgs(a, 0), multiset{a})]) by {
      assert first.items == [a];
      assert first.subscriptions == multiset{a};
    }
    var second := InsertItem(first, 1, b);
    assert second.items == [a, b] by {
      assert second.items == Inserted([a], 1, b) == [a] + [b] + [];
    }
    assert second.subscriptions == multiset{a, b};
  }

  /** A call a client can make on a collection or on an entry it holds. */
  datatype Call =
    | AddCall(item: Entry)
    | InsertCall(index: int, item: Entry)
    | RemoveAtCall(index: int)
    | SetCall(index: int, item: Entry)
    | MoveCall(oldIndex: int, newIndex: int)
    | ClearCall
    | ItemChangedCall(sender: Entry, property: string)

  /** Whether a call's indices are valid; an invalid one fails before anything changes. */
  predicate InRange(s: State, c: Call)
  {
    match c
    case InsertCall(index, _) => 0 <= index <= |s.items|
    case RemoveAtCall(index) => 0 <= index < |s.items|
    case SetCall(index, _) => 0 <= index < |s.items|
    case MoveCall(oldIndex, newIndex) => 0 <= oldIndex < |s.items| && 0 <= newIndex < |s.items|
    case _ => true
  }

  /** The effect of one call; a call with an index out of range leaves the state as it was. */
  function Step(s: State, c: Call): (r: State)
    ensures !InRange(s, c) ==> r == s
    ensures Tracks(s) ==> Tracks(r)
  {
    if !InRange(s, c) then s
    else
      match c
      case AddCall(item) => InsertItem(s, |s.items|, item)
      case InsertCall(index, item) => InsertItem(s, index, item)
      case RemoveAtCall(index) => RemoveItem(s, index)
      case SetCall(index, item) => SetItem(s, index, item)
      case MoveCall(oldIndex, newIndex) => MoveItem(s, oldIndex, newIndex)
      case ClearCall => ClearItems(s)
      case ItemChangedCall(sender, property) => ItemChanged(s, sender, property)
  }

  /**
   * A move whose new index is past the end, as the program runs it: the base
   * collection reads the item and removes it, then fails on the insertion and
   * throws, so OnCollectionChanged never runs and the removed item stays
   * subscribed. Step refuses such a move before changing anything instead.
   */
  function FailedMoveAsWritten(s: State, oldIndex: nat, newIndex: int): (r: State)
    requires oldIndex < |s.items| && !(0 <= newIndex < |s.items|)
    ensures r.items == Removed(s.items, oldIndex)
    ensures r.subscriptions == s.subscriptions && r.signals == s.signals && r.received == s.received
  {
    s.(items := Removed(s.items, oldIndex))
  }

  /**
   * After such a failed move the invariant is broken, and an entry that was held
   * once is no longer in the list yet still raises ItemPropertyChanged through it.
   */
  lemma FailedMoveKeepsFormerMemberSubscribed(s: State, oldIndex: nat, newIndex: int, property: string)
    requires Tracks(s) && oldIndex < |s.items| && !(0 <= newIndex < |s.items|)
    requires multiset(s.items)[s.items[oldIndex]] == 1
    ensures var r := FailedMoveAsWritten(s, oldIndex, newIndex);
      && !Tracks(r)
      && s.items[oldIndex] !in r.items
      && ItemChanged(r, s.items[oldIndex], property).received
        == r.received + [ItemPropertyChangedEventArgs(s.items[oldIndex], property)]
  {
  }

  /** The same move as Step runs it: refused before anything changes, so the invariant holds. */
  lemma RefusedMoveKeepsTracking(s: State, oldIndex: int, newIndex: int)
    requires Tracks(s) && 0 <= oldIndex < |s.items| && !(0 <= newIndex < |s.items|)
    ensures Step(s, MoveCall(oldIndex, newIndex)) == s
    ensures Tracks(Step(s, MoveCall(oldIndex, newIndex)))
  {
  }

  /** The effect of a sequence of calls, in order. */
  function Run(s: State, calls: seq<Call>): State
    decreases |calls|
  {
    if calls == [] then s else Run(Step(s, calls[0]), calls[1..])
  }

  /** After any sequence of calls, every entry is still subscribed exactly once per occurrence. */
  lemma {:induction false} SubscriptionsTrackMembership(s: State, calls: seq<Call>)
    requires Tracks(s)
    ensures Tracks(Run(s, calls))
    decreases |calls|
  {
    if calls != [] {
      SubscriptionsTrackMembership(Step(s, calls[0]), calls[1..]);
    }
  }

  /** A property change on a held entry raises ItemPropertyChanged once per occurrence of that entry. */
  lemma NotificationsMatchOccurrences(s: State, sender: Entry, property: string)
    requires Tracks(s)
    ensures ItemChanged(s, sender, property).received
         == s.received + Repeat(ItemPropertyChangedEventArgs(sender, property), multiset(s.items)[sender])
  {
  }

  /**
   * Whatever calls a collection has seen since it was built, an entry it no
   * longer holds raises nothing through it.
   */
  lemma {:induction false} FormerMembersAreSilent(initial: seq<Entry>, calls: seq<Call>, sender: Entry, property: string)
    ensures var s := Run(FromItems(initial), calls);
      sender !in s.items ==> ItemChanged(s, sender, property).received == s.received
  {
    SubscriptionsTrackMembership(FromItems(initial), calls);
  }

  /** Removing the only occurrence of an entry unsubscribes it: a later change to it raises nothing. */
  lemma RemovedEntryIsSilent(s: State, index: nat, property: string)
    requires Tracks(s) && index < |s.items|
    requires multiset(s.items)[s.items[index]] == 1
    ensures var r := RemoveItem(s, index);
      ItemChanged(r, s.items[index], property).received == r.received
  {
  }

  /** Removing one of two occurrences leaves one subscription: a later change is still raised, once. */
  lemma DuplicateStaysSubscribed(s: State, index: nat, property: string)
    requires Tracks(s) && index < |s.items|
    requires multiset(s.items)[s.items[index]] == 2
    ensures var r := RemoveItem(s, index);
      ItemChanged(r, s.items[index], property).received
        == r.received + [ItemPropertyChangedEventArgs(s.items[index], property)]
  {
  }

  /** After Clear, no former member's change reaches the collection, and one Reset fires with nothing subscribed. */
  lemma ClearSilencesFormerMembers(s: State, sender: Entry, property: string)
    requires Tracks(s)
    ensures var r := ClearItems(s);
      && ItemChanged(r, sender, property).received == r.received
      && r.signals[|r.signals| - 1] == CollectionChanged(ResetArgs(), multiset{})
  {
  }

  /**
   * Building from two entries fires no collection-changed notification, and a
   * change to either entry afterwards raises exactly one ItemPropertyChanged.
   */
  lemma ConstructionSubscribesEachOnce(a: Entry, b: Entry, property: string)
    requires a != b
    ensures FromItems([a, b]).signals == []
    ensures ItemChanged(FromItems([a, b]), a, property).received == [ItemPropertyChangedEventArgs(a, property)]
    ensures ItemChanged(FromItems([a, b]), b, property).received == [ItemPropertyChangedEventArgs(b, property)]
  {
  }
}
