/** The set handler of the dispatch selector family as a pure state
    transition, one function per `switch` case, with the properties each
    action promises. The store class in AppStore performs the same updates
    step by step and is proved to agree with these functions. */
module Reducer {
  import opened AppModel
  import opened Sequences

  // ---------------------------------------------------------------------
  // TOGGLE_CHOICE

  /** Negate one option of one item. The source reads
      `draft.options[optionKey].value` without checking, so a missing item
      or option makes it throw before anything is written. */
  function ToggleChoice(s: State, itemId: ItemId, optionKey: OptionKey): Outcome
  {
    if itemId in s.items && optionKey in s.items[itemId].options then
      var item := s.items[itemId];
      var flipped := Choice(!item.options[optionKey].value);
      Done(s.(items := s.items[itemId := item.(options := item.options[optionKey := flipped])]))
    else
      Threw
  }

  /** TOGGLE_CHOICE succeeds exactly when the item and the option exist; it
      then negates that one value and changes nothing else. */
  lemma ToggleChoiceEffect(s: State, itemId: ItemId, optionKey: OptionKey)
    ensures ToggleChoice(s, itemId, optionKey).Done?
            <==> itemId in s.items && optionKey in s.items[itemId].options
    ensures ToggleChoice(s, itemId, optionKey).Done? ==>
              var t := ToggleChoice(s, itemId, optionKey).next;
              var before := s.items[itemId];
              && t.itemIds == s.itemIds
              && t.isReversed == s.isReversed
              && t.items.Keys == s.items.Keys
              && (forall id :: id in s.items && id != itemId ==> t.items[id] == s.items[id])
              && t.items[itemId].id == before.id
              && t.items[itemId].title == before.title
              && t.items[itemId].options.Keys == before.options.Keys
              && t.items[itemId].options[optionKey].value == !before.options[optionKey].value
              && (forall k :: k in before.options && k != optionKey ==>
                    t.items[itemId].options[k] == before.options[k])
  {
  }

  /** Toggling the same option twice restores the state. */
  lemma ToggleChoiceTwice(s: State, itemId: ItemId, optionKey: OptionKey)
    requires ToggleChoice(s, itemId, optionKey).Done?
    ensures ToggleChoice(ToggleChoice(s, itemId, optionKey).next, itemId, optionKey) == Done(s)
  {
    var item := s.items[itemId];
    var t := ToggleChoice(s, itemId, optionKey).next;
    var item' := t.items[itemId];
    assert item'.options[optionKey := Choice(!item'.options[optionKey].value)] == item.options;
    assert item'.(options := item.options) == item;
    assert t.items[itemId := item] == s.items;
  }

  // ---------------------------------------------------------------------
  // ADD_ITEM

  /** Ask the data provider for an item numbered by the current length,
      store it under its own id (replacing any record already there) and
      append that id to the order. */
  function AddItem(s: State, createNewItem: nat -> Item): State
  {
    var newItem := createNewItem(|s.itemIds|);
    s.(items := s.items[newItem.id := newItem], itemIds := s.itemIds + [newItem.id])
  }

  lemma AddItemEffect(s: State, createNewItem: nat -> Item)
    ensures var t := AddItem(s, createNewItem);
            var newItem := createNewItem(|s.itemIds|);
            && |t.itemIds| == |s.itemIds| + 1
            && t.itemIds[..|s.itemIds|] == s.itemIds
            && t.itemIds[|s.itemIds|] == newItem.id
            && t.isReversed == s.isReversed
            && t.items.Keys == s.items.Keys + {newItem.id}
            && t.items[newItem.id] == newItem
            && (forall id :: id in s.items && id != newItem.id ==> t.items[id] == s.items[id])
            && |t.items| == if newItem.id in s.items then |s.items| else |s.items| + 1
  {
  }

  // ---------------------------------------------------------------------
  // REMOVE_ITEM

  /** Drop the last id of the order (`pop` on an empty array does nothing).
      The record of the dropped id stays in the store. */
  function RemoveItem(s: State): State
  {
    if |s.itemIds| == 0 then s else s.(itemIds := s.itemIds[..|s.itemIds| - 1])
  }

  lemma RemoveItemEffect(s: State)
    ensures var t := RemoveItem(s);
            && t.items == s.items
            && t.isReversed == s.isReversed
            && (s.itemIds == [] ==> t == s)
            && (s.itemIds != [] ==>
                  && |t.itemIds| == |s.itemIds| - 1
                  && s.itemIds == t.itemIds + [s.itemIds[|s.itemIds| - 1]])
  {
  }

  /** REMOVE_ITEM undoes the order change of ADD_ITEM, but the added record
      stays in the store. */
  lemma RemoveItemAfterAddItem(s: State, createNewItem: nat -> Item)
    ensures RemoveItem(AddItem(s, createNewItem)).itemIds == s.itemIds
    ensures RemoveItem(AddItem(s, createNewItem)).items == AddItem(s, createNewItem).items
  {
    var t := AddItem(s, createNewItem);
    assert t.itemIds[..|t.itemIds| - 1] == s.itemIds;
  }

  // ---------------------------------------------------------------------
  // REVERSE_LIST

  /** Reverse the order and flip the flag. */
  function ReverseList(s: State): State
  {
    s.(itemIds := Reverse(s.itemIds), isReversed := !s.isReversed)
  }

  lemma ReverseListEffect(s: State)
    ensures var t := ReverseList(s);
            && |t.itemIds| == |s.itemIds|
            && (forall i :: 0 <= i < |s.itemIds| ==> t.itemIds[i] == s.itemIds[|s.itemIds| - 1 - i])
            && multiset(t.itemIds) == multiset(s.itemIds)
            && t.isReversed == !s.isReversed
            && t.items == s.items
  {
    ReverseAt(s.itemIds);
    ReverseSameElements(s.itemIds);
  }

  /** REVERSE_LIST applied twice is the identity. */
  lemma ReverseListTwice(s: State)
    ensures ReverseList(ReverseList(s)) == s
  {
    ReverseInvolution(s.itemIds);
  }

  // ---------------------------------------------------------------------
  // RESET_DATA

  /** Every option of an item set to false, keys kept. */
  function ClearedItem(item: Item): Item
  {
    item.(options := map k | k in item.options :: Choice(false))
  }

  /** The loop of RESET_DATA: every item whose id is in the order gets all
      its options set to false; other records are left as they are. */
  function ResetAllItems(s: State): State
  {
    s.(items := map id | id in s.items :: if id in s.itemIds then ClearedItem(s.items[id]) else s.items[id])
  }

  lemma ResetAllItemsEffect(s: State)
    requires Referenced(s.itemIds, s.items)
    ensures var t := ResetAllItems(s);
            && t.itemIds == s.itemIds
            && t.isReversed == s.isReversed
            && t.items.Keys == s.items.Keys
            && (forall i, k :: 0 <= i < |s.itemIds| && k in t.items[s.itemIds[i]].options ==>
                  !t.items[s.itemIds[i]].options[k].value)
            && (forall id :: id in s.items ==>
                  && t.items[id].id == s.items[id].id
                  && t.items[id].title == s.items[id].title
                  && t.items[id].options.Keys == s.items[id].options.Keys)
            && (forall id :: id in s.items && id !in s.itemIds ==> t.items[id] == s.items[id])
  {
  }

  /** Resetting twice is the same as resetting once. */
  lemma ResetAllItemsIdempotent(s: State)
    ensures ResetAllItems(ResetAllItems(s)) == ResetAllItems(s)
  {
    var t := ResetAllItems(s);
    forall id | id in t.items
      ensures ResetAllItems(t).items[id] == t.items[id]
    {
      if id in s.itemIds {
        assert ClearedItem(ClearedItem(s.items[id])) == ClearedItem(s.items[id]);
      }
    }
    assert ResetAllItems(t).items == t.items;
  }

  /** A toggle of a listed item is forgotten by the next reset. */
  lemma ResetAllItemsAfterToggle(s: State, itemId: ItemId, optionKey: OptionKey)
    requires itemId in s.itemIds
    requires ToggleChoice(s, itemId, optionKey).Done?
    ensures ResetAllItems(ToggleChoice(s, itemId, optionKey).next) == ResetAllItems(s)
  {
    var t := ToggleChoice(s, itemId, optionKey).next;
    assert ClearedItem(t.items[itemId]) == ClearedItem(s.items[itemId]);
    assert ResetAllItems(t).items == ResetAllItems(s).items;
  }

  // ---------------------------------------------------------------------
  // SET_INITIAL_DATA

  /** `fakeData.map(({ id }) => id)` */
  function IdsOf(seed: seq<Item>): (ids: seq<ItemId>)
  {
    seq(|seed|, i requires 0 <= i < |seed| => seed[i].id)
  }

  /** The records of `seed` written one after another under their own ids,
      as `fakeData.forEach(item => updateItem(item.id, () => item))` does. */
  function StoreAll(items: map<ItemId, Item>, seed: seq<Item>): map<ItemId, Item>
  {
    if seed == [] then items
    else
      var last := seed[|seed| - 1];
      StoreAll(items, seed[..|seed| - 1])[last.id := last]
  }

  /** After storing the seed, an id has a record iff it had one before or
      it is the id of a seed item. */
  lemma {:induction false} StoreAllKeys(items: map<ItemId, Item>, seed: seq<Item>)
    ensures StoreAll(items, seed).Keys == items.Keys + set i | 0 <= i < |seed| :: seed[i].id
  {
    if seed != [] {
      var n := |seed| - 1;
      StoreAllKeys(items, seed[..n]);
      assert (set i | 0 <= i < |seed| :: seed[i].id)
          == (set i | 0 <= i < n :: seed[..n][i].id) + {seed[n].id};
    }
  }

  /** A seed item that no later seed item shares its id with is the record
      stored under that id: for duplicate ids the later write wins. */
  lemma {:induction false} StoreAllLastWins(items: map<ItemId, Item>, seed: seq<Item>, i: nat)
    requires i < |seed|
    requires forall j :: i < j < |seed| ==> seed[j].id != seed[i].id
    ensures seed[i].id in StoreAll(items, seed)
    ensures StoreAll(items, seed)[seed[i].id] == seed[i]
  {
    var n := |seed| - 1;
    if i < n {
      StoreAllLastWins(items, seed[..n], i);
    }
  }

  /** Ids that no seed item carries keep their record, or their absence. */
  lemma {:induction false} StoreAllUntouched(items: map<ItemId, Item>, seed: seq<Item>, id: ItemId)
    requires forall j :: 0 <= j < |seed| ==> seed[j].id != id
    ensures id in StoreAll(items, seed) <==> id in items
    ensures id in items ==> StoreAll(items, seed)[id] == items[id]
  {
    if seed != [] {
      StoreAllUntouched(items, seed[..|seed| - 1], id);
    }
  }

  /** Storing records under their own ids keeps the store keyed by id. */
  lemma {:induction false} StoreAllKeyedById(items: map<ItemId, Item>, seed: seq<Item>)
    requires KeyedById(items)
    ensures KeyedById(StoreAll(items, seed))
  {
    if seed != [] {
      StoreAllKeyedById(items, seed[..|seed| - 1]);
    }
  }

  /** Load the seed: store each seed item under its id, then make the order
      the seed's ids. The reversed flag is not touched. */
  function SetInitialData(s: State, fakeData: seq<Item>): State
  {
    s.(items := StoreAll(s.items, fakeData), itemIds := IdsOf(fakeData))
  }

  lemma SetInitialDataEffect(s: State, fakeData: seq<Item>)
    ensures var t := SetInitialData(s, fakeData);
            && |t.itemIds| == |fakeData|
            && (forall i :: 0 <= i < |fakeData| ==> t.itemIds[i] == fakeData[i].id)
            && t.isReversed == s.isReversed
            && Referenced(t.itemIds, t.items)
            && (forall i :: 0 <= i < |fakeData| && (forall j :: i < j < |fakeData| ==> fakeData[j].id != fakeData[i].id)
                  ==> t.items[fakeData[i].id] == fakeData[i])
            && (forall id :: (forall j :: 0 <= j < |fakeData| ==> fakeData[j].id != id) ==>
                  (id in t.items <==> id in s.items) && (id in s.items ==> t.items[id] == s.items[id]))
  {
    var t := SetInitialData(s, fakeData);
    StoreAllKeys(s.items, fakeData);
    forall i | 0 <= i < |fakeData| && (forall j :: i < j < |fakeData| ==> fakeData[j].id != fakeData[i].id)
      ensures t.items[fakeData[i].id] == fakeData[i]
    {
      StoreAllLastWins(s.items, fakeData, i);
    }
    forall id | forall j :: 0 <= j < |fakeData| ==> fakeData[j].id != id
      ensures (id in t.items <==> id in s.items) && (id in s.items ==> t.items[id] == s.items[id])
    {
      StoreAllUntouched(s.items, fakeData, id);
    }
  }

  // ---------------------------------------------------------------------
  // The dispatcher

  /** The `switch (type)` of the set handler. `type` is compared with `===`,
      so only the six action strings select a case; any other parameter,
      such as an object, falls through and nothing happens.

      RESET_DATA first tries to undo a reversal by dispatching again with
      the object `{ type: REVERSE_LIST }`. The comment beside it in the
      source says the list is un-reversed here, but the object matches no
      case, so the nested dispatch is a no-op and the order and flag stay
      as they were (see ResetDataAsWritten). */
  function Dispatch(s: State, createNewItem: nat -> Item, fakeData: seq<Item>,
                    param: FamilyParam, payload: Payload): Outcome
    decreases if param == Name(RESET_DATA) then 1 else 0
  {
    if param == Name(TOGGLE_CHOICE) then
      match payload
      case NoPayload => Threw
      case ChoiceRef(itemId, optionKey) => ToggleChoice(s, itemId, optionKey)
    else if param == Name(ADD_ITEM) then
      Done(AddItem(s, createNewItem))
    else if param == Name(REMOVE_ITEM) then
      Done(RemoveItem(s))
    else if param == Name(REVERSE_LIST) then
      Done(ReverseList(s))
    else if param == Name(RESET_DATA) then
      var nested :=
        if s.isReversed then Dispatch(s, createNewItem, fakeData, ObjectParam(REVERSE_LIST), NoPayload)
        else Done(s);
      match nested
      case Threw => Threw
      case Done(s1) =>
        // `updateItem` on a listed id with no record dereferences
        // `undefined.options` and throws
        if Referenced(s1.itemIds, s1.items) then Done(ResetAllItems(s1)) else Threw
    else if param == Name(SET_INITIAL_DATA) then
      Done(SetInitialData(s, fakeData))
    else
      Done(s)
  }

  predicate IsActionName(param: FamilyParam)
  {
    param in {Name(TOGGLE_CHOICE), Name(ADD_ITEM), Name(REMOVE_ITEM),
               Name(REVERSE_LIST), Name(RESET_DATA), Name(SET_INITIAL_DATA)}
  }

  /** A parameter that is not one of the six action strings changes
      nothing; in particular every object parameter is such a no-op. */
  lemma UnmatchedParamIsNoOp(s: State, createNewItem: nat -> Item, fakeData: seq<Item>,
                             param: FamilyParam, payload: Payload)
    ensures !IsActionName(param) ==> Dispatch(s, createNewItem, fakeData, param, payload) == Done(s)
    ensures param.ObjectParam? ==> Dispatch(s, createNewItem, fakeData, param, payload) == Done(s)
  {
  }

  /** RESET_DATA as written: the options of the listed items are cleared,
      while the order and the reversed flag are left as they were, even when
      the list is reversed. It throws only when a listed id has no record. */
  lemma ResetDataAsWritten(s: State, createNewItem: nat -> Item, fakeData: seq<Item>, payload: Payload)
    ensures Dispatch(s, createNewItem, fakeData, Name(RESET_DATA), payload)
            == if Referenced(s.itemIds, s.items) then Done(ResetAllItems(s)) else Threw
    ensures s.isReversed && Referenced(s.itemIds, s.items) ==>
              Dispatch(s, createNewItem, fakeData, Name(RESET_DATA), payload).next.itemIds == s.itemIds
              && Dispatch(s, createNewItem, fakeData, Name(RESET_DATA), payload).next.isReversed
  {
    UnmatchedParamIsNoOp(s, createNewItem, fakeData, ObjectParam(REVERSE_LIST), NoPayload);
  }

  /** A dispatch throws exactly in two cases: TOGGLE_CHOICE without a
      payload or naming an item or option that does not exist, and
      RESET_DATA when a listed id has no record. */
  lemma DispatchThrows(s: State, createNewItem: nat -> Item, fakeData: seq<Item>,
                       param: FamilyParam, payload: Payload)
    ensures Dispatch(s, createNewItem, fakeData, param, payload) == Threw
            <==> || (&& param == Name(TOGGLE_CHOICE)
                     && (payload.NoPayload?
                         || payload.itemId !in s.items
                         || payload.optionKey !in s.items[payload.itemId].options))
                 || (param == Name(RESET_DATA) && !Referenced(s.itemIds, s.items))
  {
    UnmatchedParamIsNoOp(s, createNewItem, fakeData, ObjectParam(REVERSE_LIST), NoPayload);
  }

  /** Every action keeps the store keyed by id and every listed id backed by
      a record, whatever the data provider returns. */
  lemma DispatchKeepsWellFormed(s: State, createNewItem: nat -> Item, fakeData: seq<Item>,
                                param: FamilyParam, payload: Payload)
    requires WellFormed(s)
    requires Dispatch(s, createNewItem, fakeData, param, payload).Done?
    ensures WellFormed(Dispatch(s, createNewItem, fakeData, param, payload).next)
  {
    var t := Dispatch(s, createNewItem, fakeData, param, payload).next;
    if param == Name(REVERSE_LIST) {
      ReverseListEffect(s);
      forall i | 0 <= i < |t.itemIds| ensures t.itemIds[i] in t.items {
        assert t.itemIds[i] in multiset(s.itemIds);
      }
    } else if param == Name(RESET_DATA) {
      ResetDataAsWritten(s, createNewItem, fakeData, payload);
    } else if param == Name(SET_INITIAL_DATA) {
      SetInitialDataEffect(s, fakeData);
      StoreAllKeyedById(s.items, fakeData);
    }
  }
}
