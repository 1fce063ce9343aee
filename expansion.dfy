/** The expand toggle the dashboard cards share: one id, or none, is held
    as the expanded card. */
module Expansion {
  import opened Results

  /** `expanded === id ? null : id`. */
  function ToggleExpanded<T(==)>(expanded: Option<T>, id: T): (r: Option<T>)
    ensures r == Some(id) <==> expanded != Some(id)
    ensures r.None? <==> expanded == Some(id)
  {
    if expanded == Some(id) then None else Some(id)
  }

  /** Whether the card with `id` shows its details. */
  predicate IsExpanded<T(==)>(expanded: Option<T>, id: T)
  {
    expanded == Some(id)
  }

  /** When the cards' ids differ, at most one of them is expanded. */
  lemma AtMostOneExpanded<T>(expanded: Option<T>, ids: seq<T>, i: nat, j: nat)
    requires forall a, b :: 0 <= a < b < |ids| ==> ids[a] != ids[b]
    requires i < |ids| && j < |ids| && i != j
    ensures !(IsExpanded(expanded, ids[i]) && IsExpanded(expanded, ids[j]))
  {
    if i < j {
      assert ids[i] != ids[j];
    } else {
      assert ids[j] != ids[i];
    }
  }

  /** Opening a card closes the one that was open; clicking an open card
      twice leaves it open, and a closed one twice leaves it closed. */
  lemma ToggleSwitchesCards<T>(expanded: Option<T>, id: T)
    ensures expanded.Some? && expanded.value != id ==> ToggleExpanded(expanded, id) == Some(id)
    ensures expanded == Some(id) || expanded.None? ==>
      ToggleExpanded(ToggleExpanded(expanded, id), id) == expanded
  {
  }
}
