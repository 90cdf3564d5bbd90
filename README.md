# App-state reducer of react-optimizations, modelled in Dafny

The application shows a list of items as cards. Each item has a set of named
boolean options. The state lives in three places: the `itemIds` atom (the
display order), the `isReversed` atom, and one atom per item, keyed by id.
Every change goes through one dispatcher: the `set` handler of
`dispatchSelectorFamily`, selected by an action-type string. There are six
actions: TOGGLE_CHOICE, ADD_ITEM, REMOVE_ITEM, REVERSE_LIST, RESET_DATA and
SET_INITIAL_DATA. The read view `appStateSelector` returns the order, the flag
and the listed records in order.

The model has five modules:

- `AppModel` (model.dfy) holds the data. An `Item` has an id, a `title` and
  options, where each option is a `Choice` (`{ value: bool }`). A `State`
  holds the three pieces of state, with the atom family written as a map from
  id to record. `WellFormed` is the invariant the dispatcher keeps: every
  record is stored under its own id, and every listed id has a record.
  `FamilyParam` is the parameter of the selector family. It is either a
  string or an object. `Outcome` is a new state, or a thrown TypeError.
- `Reducer` (reducer.dfy) gives each `switch` case as a pure function, plus
  `Dispatch`, and proves the properties each action promises.
- `Sequences` (sequences.dfy) defines `Reverse`, the effect of
  `draft.reverse()`.
- `Selector` (selector.dfy) models `appStateSelector`.
- `AppStore` (store.dfy) has the class `Store`. It holds the fields
  `itemIds`, `isReversed` and `items` and has one method per action. It also
  has `Dispatch`, whose strict `switch` calls those methods. Each method
  updates the fields step by step. RESET_DATA and SET_INITIAL_DATA do this in
  loops, as the source's `forEach` calls do. Each method is proved to leave
  exactly the state that the matching `Reducer` function computes, and to
  keep `Valid()`.

`createNewItem` and the seed list `fakeData` come from a module that is not
part of this model. They are parameters: constructor arguments of `Store`,
and arguments of the `Reducer` functions. Nothing is assumed about the ids
or options they produce, beyond the factory being a function of the count.

RESET_DATA as written does not un-reverse the list. When `isReversed` is set,
the handler dispatches again with the object `{ type: REVERSE_LIST }`
(src/app-state.js:138). The comment at src/app-state.js:134 says that this
restores the order. But the family parameter is compared with `===` against
strings, so the object matches no case and the nested dispatch does nothing.
The model follows the code. `Store.ResetData` makes that nested call
literally. `Reducer.ResetDataAsWritten` proves that the order and the flag
stay as they were, even when the list is reversed.

TOGGLE_CHOICE on an unknown item or option throws, because the handler
dereferences `draft.options[optionKey]` unchecked (src/app-state.js:112-113).
RESET_DATA likewise throws when a listed id has no record, because its recipe
reads `draft.options` of the unset item (src/app-state.js:143-145). In both
cases the model returns `Threw` and leaves the state unchanged. The reachable
states never hit the RESET_DATA case (`Reducer.DispatchKeepsWellFormed`).

## Model

| member | source | states |
|---|---|---|
| `Reducer.ToggleChoiceEffect` | src/app-state.js:109-116 | TOGGLE_CHOICE succeeds iff the item and the option exist. It then negates exactly that option's value. The item's id, title, option key set and other options are unchanged, as are all other records, the order and the flag. |
| `Reducer.ToggleChoiceTwice` | src/app-state.js:109-116 | Toggling the same option twice restores the original state. |
| `Reducer.AddItemEffect` | src/app-state.js:117-123 | ADD_ITEM appends the id of `createNewItem(length)` to the order, keeping the old order as a prefix. It stores that record under its id and overwrites any record already there. The store grows by one only if the id was new. Other records and the flag are unchanged. |
| `Reducer.RemoveItemEffect` | src/app-state.js:124-127 | REMOVE_ITEM drops the last id when the order is non-empty and is a no-op on an empty order. The records and the flag are unchanged, so the dropped item's record stays in the store. |
| `Reducer.RemoveItemAfterAddItem` | src/app-state.js:117-127 | REMOVE_ITEM after ADD_ITEM restores the order, but the added record stays in the store. |
| `Reducer.ReverseListEffect` | src/app-state.js:128-132 | REVERSE_LIST mirrors every position of the order and keeps the same ids (as a multiset). It negates the flag and leaves the records unchanged. |
| `Reducer.ReverseListTwice` | src/app-state.js:128-132 | REVERSE_LIST applied twice is the identity. |
| `Sequences.ReverseAt` | src/app-state.js:129 | The reversed sequence has the same length, and position i holds the element at position length-1-i. |
| `Sequences.ReverseSameElements` | src/app-state.js:129 | Reversal keeps the multiset of elements. |
| `Sequences.ReverseInvolution` | src/app-state.js:129 | Reversing twice gives back the original sequence. |
| `Reducer.ResetAllItemsEffect` | src/app-state.js:141-148 | After the reset loop, every option of every listed item is false. Every record keeps its id, title and option key set. Records of unlisted ids keep their values. The order and the flag are unchanged. |
| `Reducer.ResetAllItemsIdempotent` | src/app-state.js:141-148 | Resetting twice equals resetting once. |
| `Reducer.ResetAllItemsAfterToggle` | src/app-state.js:109-148 | A toggle of a listed item has no effect on the state after the next reset. |
| `Reducer.ResetDataAsWritten` | src/app-state.js:133-149 | When every listed id has a record, RESET_DATA only resets the listed items' options. The nested dispatch with an object parameter is a no-op, so a reversed order stays reversed and the flag stays set. Otherwise it throws. |
| `Reducer.UnmatchedParamIsNoOp` | src/app-state.js:107-108 | A family parameter that is not one of the six action strings, in particular any object, leaves the state unchanged. |
| `Reducer.DispatchThrows` | src/app-state.js:107-148 | A dispatch throws iff it is TOGGLE_CHOICE with no payload or naming an item or option that does not exist, or RESET_DATA while some listed id has no record. |
| `Reducer.DispatchKeepsWellFormed` | src/app-state.js:93-157 | Every action that completes keeps the store keyed by id and every listed id backed by a record, whatever `createNewItem` and `fakeData` return. |
| `Reducer.StoreAllKeys` | src/app-state.js:152 | After the seed is written, an id has a record iff it had one before or some seed item carries it. |
| `Reducer.StoreAllLastWins` | src/app-state.js:152 | A seed item whose id no later seed item shares is the record stored under that id. For duplicate ids the later write wins. |
| `Reducer.StoreAllUntouched` | src/app-state.js:152 | Ids that no seed item carries keep their record, or stay absent. |
| `Reducer.StoreAllKeyedById` | src/app-state.js:152 | Writing each seed record under its own id keeps the store keyed by id. |
| `Reducer.SetInitialDataEffect` | src/app-state.js:151-154 | SET_INITIAL_DATA makes the order the seed's ids in seed order and backs every one with a record. The last seed item with a given id is stored under it. Other ids keep their records, and the flag is unchanged. |
| `Selector.ItemsFor` | src/app-state.js:76 | Resolving the listed atoms gives one record per id, in order, and position i is the record of the i-th id. |
| `Selector.AppStateSelector` | src/app-state.js:71-83 | The view returns the current order and flag, plus the records of the listed ids in the same order and of the same length. It is defined when every listed id has a record. |
| `Selector.AppStateSelectorMatchesIds` | src/app-state.js:71-83 | In a well-formed state, each record in the view carries the id it is listed under. |
| `AppStore.ClearOptions` | src/app-state.js:145-146 | Switching every option off keeps the option key set and leaves every value false. |
| `AppStore.Store.constructor` | src/app-state.js:42-52 | A new store has an empty order, the flag unset and no item records, and holds the given data provider. |
| `AppStore.Store.ToggleChoice` | src/app-state.js:109-116 | The method's result equals `Reducer.ToggleChoice`. When the handler would throw it returns false, and the store is unchanged. |
| `AppStore.Store.AddItem` | src/app-state.js:117-123 | The new state is `Reducer.AddItem` of the old one, and the store stays valid. |
| `AppStore.Store.RemoveItem` | src/app-state.js:124-127 | The new state is `Reducer.RemoveItem` of the old one, and the store stays valid. |
| `AppStore.Store.ReverseList` | src/app-state.js:128-132 | The new state is `Reducer.ReverseList` of the old one, and the store stays valid. |
| `AppStore.Store.ResetData` | src/app-state.js:133-150 | It makes the nested object-parameter dispatch, then loops over the listed ids. The new state is `Reducer.ResetAllItems` of the old one. |
| `AppStore.Store.SetInitialData` | src/app-state.js:151-154 | It writes the seed records in a loop, then sets the order. The new state is `Reducer.SetInitialData` of the old one, and the store stays valid. |
| `AppStore.Store.Dispatch` | src/app-state.js:93-157 | It selects the case by strict comparison with the action strings. Its outcome equals `Reducer.Dispatch`. When it throws, the store is unchanged. |

## Left out

- React components and hooks (`AppStateProvider`, `AddInitialData` with its one-time mount guard, the `use*` getters and the bound action creators): these are framework wrappers that only call the dispatcher or read the state.
- Recoil and immer mechanics (atom subscription, `waitForAll` suspension, copy-on-write drafts): each dispatch is modelled as one atomic update of the store. The `updateItemIds` and `updateItem` helpers (read, produce a copy, write back) are modelled as direct assignments to the `itemIds` and `items` fields.
- `console.log` in RESET_DATA: output only, with no effect on state.
- src/App.js: UI layout whose handlers are empty stubs.
- The module providing `createNewItem` and `fakeData` is not part of this model. Both are parameters, and their id scheme and default option values are not assumed.
- Item records may carry display fields beyond id and options. They are summarised as one `title` string, which no action changes.
- Selector.AppStateSelector: requires every listed id to have a record. When one lacks a value, the source yields no record there (`undefined`, or a suspension in later Recoil releases); that case is not modelled. `WellFormed` shows it never arises from the dispatcher.
- JavaScript property-lookup quirks (option keys that name inherited properties such as `constructor`) are not modelled. Options are a plain map.
- `Reverse` is computed on a sequence value; the in-place array reversal performed by `draft.reverse()` is not modelled step by step.
- `createNewItem` is modelled as a mathematical function of the count, so a factory that returns different items on repeated calls with the same count is not modelled.
- A dispatch that throws is modelled as changing nothing. When RESET_DATA throws partway through its loop, the model does not capture whether the item writes made before the throw are kept.
