/** The store as the source keeps it: three pieces of mutable state that the
    dispatcher reads and overwrites, one method per action. Each method is
    proved to produce the state the matching Reducer function describes. */
module AppStore {
  import opened AppModel
  import opened Sequences
  import Reducer

  /** `Object.values(options).forEach(option => (option.value = false))`:
      every option of one item switched off, one at a time. */
  method ClearOptions(options: map<OptionKey, Choice>) returns (cleared: map<OptionKey, Choice>)
    ensures cleared.Keys == options.Keys
    ensures forall k :: k in cleared ==> !cleared[k].value
  {
    cleared := options;
    var pending := options.Keys;
    while pending != {}
      invariant pending <= options.Keys
      invariant cleared.Keys == options.Keys
      invariant forall k :: k in cleared && k !in pending ==> !cleared[k].value
      decreases pending
    {
      var k :| k in pending;
      cleared := cleared[k := cleared[k].(value := false)];
      pending := pending - {k};
    }
  }

  class Store {
    /** The `itemIds` atom. */
    var itemIds: seq<ItemId>
    /** The `isReversed` atom. */
    var isReversed: bool
    /** The item atom family, keyed by item id. */
    var items: map<ItemId, Item>

    /** The data provider the source imports: the factory for new items and
        the seed list. */
    const createNewItem: nat -> Item
    const fakeData: seq<Item>

    function Snapshot(): State
      reads this
    {
      State(itemIds, isReversed, items)
    }

    ghost predicate Valid()
      reads this
    {
      WellFormed(Snapshot())
    }

    constructor (createNewItem: nat -> Item, fakeData: seq<Item>)
      ensures Valid() && Snapshot() == Initial
      ensures this.createNewItem == createNewItem && this.fakeData == fakeData
    {
      itemIds, isReversed, items := [], false, map[];
      this.createNewItem := createNewItem;
      this.fakeData := fakeData;
    }

    /** TOGGLE_CHOICE; `ok` is false when the handler throws, which leaves
        the store as it was. */
    method ToggleChoice(itemId: ItemId, optionKey: OptionKey) returns (ok: bool)
      requires Valid()
      modifies this
      ensures Valid()
      ensures Reducer.ToggleChoice(old(Snapshot()), itemId, optionKey) == if ok then Done(Snapshot()) else Threw
      ensures !ok ==> Snapshot() == old(Snapshot())
    {
      if itemId !in items || optionKey !in items[itemId].options {
        ok := false;
        return;
      }
      var item := items[itemId];
      var option := item.options[optionKey];
      items := items[itemId := item.(options := item.options[optionKey := option.(value := !option.value)])];
      ok := true;
    }

    method AddItem()
      requires Valid()
      modifies this
      ensures Valid()
      ensures Snapshot() == Reducer.AddItem(old(Snapshot()), createNewItem)
    {
      var newItem := createNewItem(|itemIds|);
      items := items[newItem.id := newItem];
      itemIds := itemIds + [newItem.id];
    }

    method RemoveItem()
      requires Valid()
      modifies this
      ensures Valid()
      ensures Snapshot() == Reducer.RemoveItem(old(Snapshot()))
    {
      if |itemIds| > 0 {
        itemIds := itemIds[..|itemIds| - 1];
      }
    }

    method ReverseList()
      requires Valid()
      modifies this
      ensures Valid()
      ensures Snapshot() == Reducer.ReverseList(old(Snapshot()))
    {
      Reducer.DispatchKeepsWellFormed(Snapshot(), createNewItem, fakeData, Name(REVERSE_LIST), NoPayload);
      itemIds := Reverse(itemIds);
      isReversed := !isReversed;
    }

    /** RESET_DATA. When the list is reversed the source dispatches again
        with the object `{ type: REVERSE_LIST }` to un-reverse it, but that
        parameter matches no case of the switch, so the nested call changes
        nothing and the list stays reversed. */
    method ResetData()
      requires Valid()
      modifies this
      decreases 1
      ensures Valid()
      ensures Snapshot() == Reducer.ResetAllItems(old(Snapshot()))
    {
      if isReversed {
        var nestedOk := Dispatch(ObjectParam(REVERSE_LIST), NoPayload);
      }
      var ids := itemIds;
      for i := 0 to |ids|
        invariant itemIds == ids && isReversed == old(isReversed)
        invariant items.Keys == old(items).Keys
        invariant forall id :: id in items ==>
                    items[id] == if id in ids[..i] then Reducer.ClearedItem(old(items)[id]) else old(items)[id]
      {
        var id := ids[i];
        var item := items[id];
        var cleared := ClearOptions(item.options);
        assert cleared == Reducer.ClearedItem(old(items)[id]).options;
        items := items[id := item.(options := cleared)];
        assert ids[..i + 1] == ids[..i] + [id];
      }
      assert ids[..|ids|] == ids;
    }

    /** SET_INITIAL_DATA: the seed records are written one by one, then the
        order becomes the seed's ids. */
    method SetInitialData()
      requires Valid()
      modifies this
      ensures Valid()
      ensures Snapshot() == Reducer.SetInitialData(old(Snapshot()), fakeData)
    {
      for i := 0 to |fakeData|
        invariant items == Reducer.StoreAll(old(items), fakeData[..i])
        invariant itemIds == old(itemIds) && isReversed == old(isReversed)
      {
        assert fakeData[..i + 1][..i] == fakeData[..i];
        items := items[fakeData[i].id := fakeData[i]];
      }
      assert fakeData[..|fakeData|] == fakeData;
      itemIds := Reducer.IdsOf(fakeData);
      Reducer.DispatchKeepsWellFormed(old(Snapshot()), createNewItem, fakeData, Name(SET_INITIAL_DATA), NoPayload);
    }

    /** The set handler: select the case by strict comparison of the family
        parameter with the action strings. `ok` is false when the handler
        throws, which leaves the store as it was. */
    method Dispatch(param: FamilyParam, payload: Payload) returns (ok: bool)
      requires Valid()
      modifies this
      decreases if param == Name(RESET_DATA) then 2 else 0
      ensures Valid()
      ensures Reducer.Dispatch(old(Snapshot()), createNewItem, fakeData, param, payload)
              == if ok then Done(Snapshot()) else Threw
      ensures !ok ==> Snapshot() == old(Snapshot())
    {
      if param == Name(TOGGLE_CHOICE) {
        match payload
        case NoPayload =>
          // destructuring `undefined` throws
          ok := false;
        case ChoiceRef(itemId, optionKey) =>
          ok := ToggleChoice(itemId, optionKey);
      } else if param == Name(ADD_ITEM) {
        AddItem();
        ok := true;
      } else if param == Name(REMOVE_ITEM) {
        RemoveItem();
        ok := true;
      } else if param == Name(REVERSE_LIST) {
        ReverseList();
        ok := true;
      } else if param == Name(RESET_DATA) {
        Reducer.ResetDataAsWritten(Snapshot(), createNewItem, fakeData, payload);
        ResetData();
        ok := true;
      } else if param == Name(SET_INITIAL_DATA) {
        SetInitialData();
        ok := true;
      } else {
        // no case matches: nothing happens
        ok := true;
      }
    }
  }
}
