/**
 * The FAQ page's accordion (frontend/src/pages/FAQ.jsx): a map from item id
 * to whether the item is expanded, flipped by `toggleItem`.
 */
module Faq {
  /** `expandedItems[id]` read as a condition: a missing entry is undefined,
      which is falsy, so the item is collapsed. */
  function IsExpanded(expandedItems: map<string, bool>, id: string): (open: bool)
    ensures open <==> id in expandedItems && expandedItems[id]
  {
    id in expandedItems && expandedItems[id]
  }

  /** The map `toggleItem` produces, as a value. */
  function Toggled(expandedItems: map<string, bool>, id: string): (m: map<string, bool>)
    ensures id in m && m[id] == !IsExpanded(expandedItems, id)
    ensures forall other :: other != id ==> (other in m <==> other in expandedItems)
    ensures forall other :: other != id && other in expandedItems ==> m[other] == expandedItems[other]
  {
    expandedItems[id := !IsExpanded(expandedItems, id)]
  }

  class FaqPage {
    var expandedItems: map<string, bool>

    /** `useState({})`: nothing is expanded. */
    constructor ()
      ensures expandedItems == map[]
      ensures forall id :: !IsExpanded(expandedItems, id)
    {
      expandedItems := map[];
    }

    /** `toggleItem`: the item's entry becomes the negation of its old flag
        (an undefined flag negates to true); every other entry is kept. */
    method ToggleItem(id: string)
      modifies this
      ensures expandedItems == Toggled(old(expandedItems), id)
      ensures IsExpanded(expandedItems, id) == !IsExpanded(old(expandedItems), id)
      ensures forall other :: other != id ==> IsExpanded(expandedItems, other) == IsExpanded(old(expandedItems), other)
    {
      expandedItems := expandedItems[id := !IsExpanded(expandedItems, id)];
    }
  }

  /** Toggling an item twice shows the page as before: the item is expanded
      again exactly when it was, and every other item is untouched. The map
      itself may gain an explicit `false` where there was no entry. */
  lemma ToggleTwiceRestoresView(expandedItems: map<string, bool>, id: string, other: string)
    ensures IsExpanded(Toggled(Toggled(expandedItems, id), id), other) == IsExpanded(expandedItems, other)
  {
  }

  /** Toggling two different items commutes. */
  lemma TogglesCommute(expandedItems: map<string, bool>, a: string, b: string)
    requires a != b
    ensures Toggled(Toggled(expandedItems, a), b) == Toggled(Toggled(expandedItems, b), a)
  {
  }
}
