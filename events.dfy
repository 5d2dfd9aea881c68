/** The two kinds of notification a collection sends to its listeners. */
module Events {
  import opened Entries

  /** The container-level event: which entry had a property changed, and which property. Immutable. */
  datatype ItemPropertyChangedEventArgs = ItemPropertyChangedEventArgs(collectionEntry: Entry, property: string)

  /** The kinds of structural change an observable collection reports. */
  datatype NotifyCollectionChangedAction = Add | Remove | Replace | Move | Reset

  /**
   * A collection-changed notification: the action, the items that entered and
   * left, and where (-1 when there is no such index).
   */
  datatype NotifyCollectionChangedEventArgs = NotifyCollectionChangedEventArgs(
    action: NotifyCollectionChangedAction,
    newItems: seq<Entry>,
    oldItems: seq<Entry>,
    newStartingIndex: int,
    oldStartingIndex: int)

  function AddArgs(item: Entry, index: nat): NotifyCollectionChangedEventArgs
  {
    NotifyCollectionChangedEventArgs(Add, [item], [], index, -1)
  }

  function RemoveArgs(item: Entry, index: nat): NotifyCollectionChangedEventArgs
  {
    NotifyCollectionChangedEventArgs(Remove, [], [item], -1, index)
  }

  function ReplaceArgs(newItem: Entry, oldItem: Entry, index: nat): NotifyCollectionChangedEventArgs
  {
    NotifyCollectionChangedEventArgs(Replace, [newItem], [oldItem], index, index)
  }

  function MoveArgs(item: Entry, newIndex: nat, oldIndex: nat): NotifyCollectionChangedEventArgs
  {
    NotifyCollectionChangedEventArgs(Move, [item], [item], newIndex, oldIndex)
  }

  function ResetArgs(): NotifyCollectionChangedEventArgs
  {
    NotifyCollectionChangedEventArgs(Reset, [], [], -1, -1)
  }

  /**
   * A collection-changed notification as its listeners receive it: the
   * arguments, and the collection's item subscriptions at the moment it fires.
   */
  datatype CollectionChanged = CollectionChanged(args: NotifyCollectionChangedEventArgs, subscriptions: multiset<Entry>)
}
