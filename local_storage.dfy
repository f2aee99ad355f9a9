/** The browser's key/value storage, reduced to the one entry the holdings
    stores use. The entry's JSON text is abstracted to the list it encodes. */
module LocalStorage {

  /** The value of the "portfolio" entry: missing, or the stored list. */
  datatype Slot<T> = Absent | Stored(items: seq<T>)

  /** loadFromLocalStorage: the stored list, or the empty list when the
      entry is missing. */
  function Load<T>(slot: Slot<T>): (r: seq<T>)
    ensures slot.Absent? ==> r == []
    ensures slot.Stored? ==> r == slot.items
  {
    match slot
    case Absent => []
    case Stored(items) => items
  }

  /** The entry that saveToLocalStorage(items) leaves behind. */
  function Save<T>(items: seq<T>): (slot: Slot<T>)
    ensures slot.Stored? && Load(slot) == items
  {
    Stored(items)
  }
}
