// The catalogue filter of src/components/DressUp/CategoryTabs.tsx. The
// DressUp page (src/pages/DressUp.tsx) runs the same filter over its own
// catalogue and selected gender; both call FilterItems.
module CategoryTabs {
  import opened Seqs
  import opened DressUpTypes

  /** `clothingItems.filter(item => item.category === category && item.gender === selectedGender)`. */
  function FilterItems(clothingItems: seq<ClothingItem>, selectedGender: Gender, category: string): (r: seq<ClothingItem>)
    ensures forall it :: it in r ==> it.category == category && it.gender == selectedGender
    ensures forall it :: it in clothingItems && it.category == category && it.gender == selectedGender ==> it in r
    ensures IsSubsequence(r, clothingItems)
    ensures forall it :: multiset(r)[it] ==
              if it.category == category && it.gender == selectedGender then multiset(clothingItems)[it] else 0
  {
    Filter(clothingItems, (it: ClothingItem) => it.category == category && it.gender == selectedGender)
  }

  /** The same category never lists one item for both avatars. */
  lemma GendersDisjoint(clothingItems: seq<ClothingItem>, category: string)
    ensures forall it :: it in FilterItems(clothingItems, Barbie, category) ==>
              it !in FilterItems(clothingItems, Ken, category)
  {
  }
}
