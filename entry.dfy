/** The mutable record held by the collection, and the notification its setters raise. */
module Entries {

  /** The payload of an entry's own PropertyChanged event: the name of the property that was assigned. */
  datatype PropertyChangedEventArgs = PropertyChangedEventArgs(propertyName: string)

  /** The property names the setters report, written out where the original captures the caller's member name. */
  const IdProperty: string := "Id"
  const NameProperty: string := "Name"

  /** The event an entry raises when one of its properties is assigned. */
  function OnPropertyChanged(propertyName: string): (r: PropertyChangedEventArgs)
    ensures r.propertyName == propertyName
  {
    PropertyChangedEventArgs(propertyName)
  }

  /**
   * A mutable record with an identifier and a display name. Each setter assigns
   * its field and then raises PropertyChanged, whether or not the value changed.
   * Who receives that event is not recorded here: a collection that holds the
   * entry keeps count of its own subscriptions (see FullyObservableCollection).
   */
  class Entry {
    var id: int
    var name: string

    /** The parameterless constructor: both fields keep their defaults. */
    constructor Default()
      ensures id == 0 && name == ""
    {
      id := 0;
      name := "";
    }

    /**
     * Goes through both setters, so "Id" and then "Name" are raised; a new
     * entry has no subscriber yet, so nobody receives them.
     */
    constructor (id: int, name: string)
      ensures this.id == id && this.name == name
    {
      this.id := 0;
      this.name := "";
      new;
      var raisedId := SetId(id);
      var raisedName := SetName(name);
    }

    /** The Id setter: stores the value, then raises PropertyChanged("Id"). */
    method SetId(value: int) returns (raised: PropertyChangedEventArgs)
      modifies this
      ensures id == value && name == old(name)
      ensures raised.propertyName == IdProperty
    {
      id := value;
      raised := OnPropertyChanged(IdProperty);
    }

    /** The Name setter: stores the value, then raises PropertyChanged("Name"). */
    method SetName(value: string) returns (raised: PropertyChangedEventArgs)
      modifies this
      ensures name == value && id == old(id)
      ensures raised.propertyName == NameProperty
    {
      name := value;
      raised := OnPropertyChanged(NameProperty);
    }
  }
}
