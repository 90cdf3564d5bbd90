/** The data the app-state reducer works on: items with boolean options, the
    display order of their ids, the reversed flag, and the parameters the
    dispatcher is called with. */
module AppModel {

  type ItemId = string
  type OptionKey = string

  /** One option of an item: `{ value: bool }`. */
  datatype Choice = Choice(value: bool)

  /** An item record as the store keeps it under its id. `title` stands for
      the record's other display data, which the reducer never touches. */
  datatype Item = Item(id: ItemId, title: string, options: map<OptionKey, Choice>)

  /** The three pieces of state: the `itemIds` atom, the `isReversed` atom and
      the item atom family, written as a map from id to the record stored
      under it (an id with no record set is not in the map). */
  datatype State = State(itemIds: seq<ItemId>, isReversed: bool, items: map<ItemId, Item>)

  /** The state before anything is dispatched: both atoms at their defaults
      and no item atom set. */
  const Initial: State := State([], false, map[])

  /** Every record is stored under its own id. */
  predicate KeyedById(items: map<ItemId, Item>)
  {
    forall id :: id in items ==> items[id].id == id
  }

  /** Every id in the order has a record. */
  predicate Referenced(ids: seq<ItemId>, items: map<ItemId, Item>)
  {
    forall i :: 0 <= i < |ids| ==> ids[i] in items
  }

  /** The invariant the reducer keeps. */
  predicate WellFormed(s: State)
  {
    KeyedById(s.items) && Referenced(s.itemIds, s.items)
  }

  /** The action type strings. */
  const TOGGLE_CHOICE: string := "TOGGLE_CHOICE"
  const ADD_ITEM: string := "ADD_ITEM"
  const REMOVE_ITEM: string := "REMOVE_ITEM"
  const REVERSE_LIST: string := "REVERSE_LIST"
  const RESET_DATA: string := "RESET_DATA"
  const SET_INITIAL_DATA: string := "SET_INITIAL_DATA"

  /** The parameter of the dispatch selector family: normally one of the
      action type strings, but JavaScript lets a caller pass any value, for
      instance the object `{ type: REVERSE_LIST }`. */
  datatype FamilyParam = Name(name: string) | ObjectParam(typeName: string)

  /** The value handed to the selector's setter: nothing, or the
      `{ itemId, optionKey }` object TOGGLE_CHOICE destructures. */
  datatype Payload = NoPayload | ChoiceRef(itemId: ItemId, optionKey: OptionKey)

  /** What one dispatch does: it completes with a new state, or the handler
      throws a TypeError before it has written anything. */
  datatype Outcome = Done(next: State) | Threw
}
