/** The derived read view `appStateSelector`: the current order, the flag
    and the records of the listed items in display order. */
module Selector {
  import opened AppModel

  datatype AppStateView = AppStateView(itemIds: seq<ItemId>, isReversed: bool, items: seq<Item>)

  /** `itemIds.map(id => itemsAtomFamily(id))`, resolved. */
  function ItemsFor(items: map<ItemId, Item>, ids: seq<ItemId>): (r: seq<Item>)
    requires Referenced(ids, items)
    ensures |r| == |ids|
    ensures forall i :: 0 <= i < |ids| ==> r[i] == items[ids[i]]
  {
    if ids == [] then [] else [items[ids[0]]] + ItemsFor(items, ids[1..])
  }

  /** The view resolves only once every listed item atom has a value, which
      the requires states. Position i of the items is the record of the
      i-th listed id. */
  function AppStateSelector(s: State): (v: AppStateView)
    requires Referenced(s.itemIds, s.items)
    ensures v.itemIds == s.itemIds && v.isReversed == s.isReversed
    ensures |v.items| == |s.itemIds|
    ensures forall i :: 0 <= i < |s.itemIds| ==> v.items[i] == s.items[s.itemIds[i]]
  {
    AppStateView(s.itemIds, s.isReversed, ItemsFor(s.items, s.itemIds))
  }

  /** In a well-formed state each card of the view carries the id it is
      listed under. */
  lemma AppStateSelectorMatchesIds(s: State)
    requires WellFormed(s)
    ensures var v := AppStateSelector(s);
            forall i :: 0 <= i < |v.items| ==> v.items[i].id == v.itemIds[i]
  {
  }
}
