// src/pages/DressUp.tsx: the avatar state machine of the dress-up studio.
//
// The category strings an item carries are plural ("tops", "hairstyles", ...)
// while the avatar's slots are singular ("top", "hairstyle", ...). The update
// writes `newState[item.category]`, so a catalogue "tops" item is stored under
// a property the canvas never reads, and the dress branch only fires for the
// literal category "dress", which no catalogue item has. The functions below
// follow the code as written; the lemmas at the end spell out what that means.
module DressUpPage {
  import opened Seqs
  import opened DressUpTypes
  import CategoryTabs
  import AvatarCanvas

  /** The page's sample catalogue. */
  function SampleClothing(): seq<ClothingItem>
  {
    [ ClothingItem("hair1", "Elegant Updo", "hairstyles",
                   "/lovable-uploads/487b111f-a7ae-4b3c-9465-30c2c4a55b35.png", Barbie, 1, None, None, None),
      ClothingItem("hair2", "Classic Blonde", "hairstyles",
                   "/lovable-uploads/7ec8f711-ca81-44c1-a6a8-0f1e879d9437.png", Barbie, 1, None, None, None),
      ClothingItem("top1", "Striped Bandeau", "tops",
                   "/lovable-uploads/7ec8f711-ca81-44c1-a6a8-0f1e879d9437.png", Barbie, 3, None, None, None),
      ClothingItem("top2", "Blue Halter Top", "tops",
                   "/lovable-uploads/97c8b0c8-cab4-4e35-ab83-26633abc293b.png", Barbie, 3, None, None, None),
      ClothingItem("ken-hair1", "Classic Ken Hair", "hairstyles",
                   "/lovable-uploads/ad03bd41-bae8-4f65-9278-64b6fe6e72d1.png", Ken, 1, None, None, None),
      ClothingItem("ken-top1", "Blue Blazer", "tops",
                   "/lovable-uploads/ad03bd41-bae8-4f65-9278-64b6fe6e72d1.png", Ken, 3, None, None, None) ]
  }

  /** The state updater passed to `setAvatarState` by `handleItemDrop`. */
  function ApplyItem(prev: AvatarState, item: ClothingItem): (next: AvatarState)
    // accessories: appended at the end, earlier entries kept, duplicates allowed
    ensures item.category == "accessories" ==> next == prev.(accessories := prev.accessories + [item])
    ensures item.category != "accessories" ==> next.accessories == prev.accessories
    // the literal category "dress": the dress is set, top and bottom are cleared
    ensures item.category == "dress" ==>
              next.dress == Some(item) && next.top == None && next.bottom == None
              && forall k :: k !in {"accessories", "dress", "top", "bottom"} ==> Field(next, k) == Field(prev, k)
    // "tops" or "bottoms": the dress is cleared and only the key named by the category is written
    ensures item.category in {"tops", "bottoms"} ==>
              next.dress == None && Field(next, item.category) == Some(item)
              && forall k :: k !in {"accessories", "dress", item.category} ==> Field(next, k) == Field(prev, k)
    // anything else: exactly the key named by the category is written
    ensures item.category !in {"accessories", "dress", "tops", "bottoms"} ==>
              Field(next, item.category) == Some(item)
              && forall k :: k != "accessories" && k != item.category ==> Field(next, k) == Field(prev, k)
  {
    if item.category == "accessories" then
      prev.(accessories := prev.accessories + [item])
    else if item.category == "dress" then
      prev.(dress := Some(item), top := None, bottom := None)
    else if item.category == "tops" || item.category == "bottoms" then
      SetField(prev.(dress := None), item.category, item)
    else
      SetField(prev, item.category, item)
  }

  /** Applying the same item twice in a row, other than an accessory, is the same as applying it once. */
  lemma ApplyTwiceIsApplyOnce(s: AvatarState, item: ClothingItem)
    requires item.category != "accessories"
    ensures ApplyItem(ApplyItem(s, item), item) == ApplyItem(s, item)
  {
  }

  /** What the user can do on the page: apply an item (click or drop), reset,
      or switch the avatar. */
  datatype Event = Apply(item: ClothingItem) | Reset | ChooseGender(gender: Gender)

  /** The avatar state after one event; switching the avatar leaves it alone. */
  function Step(s: AvatarState, e: Event): AvatarState
  {
    match e
    case Apply(item) => ApplyItem(s, item)
    case Reset => EmptyAvatar
    case ChooseGender(_) => s
  }

  function Run(s: AvatarState, events: seq<Event>): AvatarState
    decreases |events|
  {
    if events == [] then s else Run(Step(s, events[0]), events[1..])
  }

  /** The dress is never worn together with a top or a bottom. */
  predicate DressExclusive(s: AvatarState)
  {
    s.dress.Some? ==> s.top == None && s.bottom == None
  }

  /** No applied item names the singular slot "top" or "bottom" as its category. */
  predicate NoSingularTopOrBottom(events: seq<Event>)
  {
    forall e :: e in events && e.Apply? ==> e.item.category != "top" && e.item.category != "bottom"
  }

  /** Dress exclusion is kept by every run whose items never carry the
      category "top" or "bottom"; that covers every item of the declared
      category union and so the whole catalogue. */
  lemma {:induction false} DressExclusionKept(s: AvatarState, events: seq<Event>)
    requires DressExclusive(s)
    requires NoSingularTopOrBottom(events)
    ensures DressExclusive(Run(s, events))
    decreases |events|
  {
    if events != [] {
      var e := events[0];
      assert e in events;
      DressExclusionKept(Step(s, e), events[1..]);
    }
  }

  /** A dropped payload whose category is the singular "top" lands in the else
      branch, which writes `top` without clearing `dress`: from the empty
      avatar, dropping a "dress" item and then a "top" item leaves both on. */
  lemma SingularTopBreaksExclusion(d: ClothingItem, t: ClothingItem)
    requires d.category == "dress" && t.category == "top"
    ensures !DressExclusive(Run(EmptyAvatar, [Apply(d), Apply(t)]))
  {
    var events := [Apply(d), Apply(t)];
    assert events[1..] == [Apply(t)] && events[1..][1..] == [];
    var dressed := ApplyItem(EmptyAvatar, d);
    var worn := ApplyItem(dressed, t);
    assert Run(EmptyAvatar, events) == Run(dressed, [Apply(t)]);
    assert Run(dressed, [Apply(t)]) == Run(worn, []);
    assert worn.dress == Some(d) && worn.top == Some(t);
  }

  /** The slots the canvas draws from hair to bottom are all empty. */
  predicate NoRenderedClothes(s: AvatarState)
  {
    s.hairstyle == None && s.top == None && s.bottom == None && s.dress == None
  }

  /** Items whose category is one of the declared plural categories never fill
      the hairstyle, top, bottom or dress slots: starting without them, every
      run keeps them empty (only shoes and accessories are ever drawn). */
  lemma {:induction false} DeclaredCategoriesMissSlots(s: AvatarState, events: seq<Event>)
    requires NoRenderedClothes(s)
    requires forall e :: e in events && e.Apply? ==> e.item.category in ClothingCategories
    ensures NoRenderedClothes(Run(s, events))
    decreases |events|
  {
    if events != [] {
      var e := events[0];
      assert e in events;
      DeclaredCategoriesMissSlots(Step(s, e), events[1..]);
    }
  }

  /** Every catalogue item's category is one of the declared ones. */
  lemma SampleCategoriesDeclared()
    ensures forall it :: it in SampleClothing() ==> it.category in ClothingCategories && it.category != "dress"
  {
  }

  /** The page component: the selected avatar, the avatar state and the catalogue. */
  class DressUpStudio {
    var selectedGender: Gender
    var avatarState: AvatarState
    const clothingItems: seq<ClothingItem>

    constructor ()
      ensures selectedGender == Barbie && avatarState == EmptyAvatar
      ensures clothingItems == SampleClothing()
    {
      selectedGender := Barbie;
      avatarState := EmptyAvatar;
      clothingItems := SampleClothing();
    }

    /** `handleItemDrop`: copy the state, then assign the fields the item's category selects. */
    method HandleItemDrop(item: ClothingItem)
      modifies this
      ensures avatarState == ApplyItem(old(avatarState), item)
      ensures selectedGender == old(selectedGender)
    {
      var newState := avatarState;
      if item.category == "accessories" {
        newState := newState.(accessories := avatarState.accessories + [item]);
      } else if item.category == "dress" {
        newState := newState.(dress := Some(item));
        newState := newState.(top := None);
        newState := newState.(bottom := None);
      } else if item.category == "tops" || item.category == "bottoms" {
        newState := newState.(dress := None);
        newState := SetField(newState, item.category, item);
      } else {
        newState := SetField(newState, item.category, item);
      }
      avatarState := newState;
    }

    /** `handleReset`: every slot empty and no accessories, whatever was worn. */
    method HandleReset()
      modifies this
      ensures avatarState == EmptyAvatar
      ensures avatarState.hairstyle == None && avatarState.top == None && avatarState.bottom == None
      ensures avatarState.dress == None && avatarState.shoes == None && avatarState.accessories == []
      ensures selectedGender == old(selectedGender)
    {
      avatarState := EmptyAvatar;
    }

    /** The avatar buttons: only the selected gender changes. */
    method SelectGender(g: Gender)
      modifies this
      ensures selectedGender == g && avatarState == old(avatarState)
    {
      selectedGender := g;
    }

    /** A drop on the canvas, whose `onItemDrop` is `handleItemDrop`. */
    method HandleDrop(dt: DataTransfer, parse: string -> Option<ClothingItem>) returns (outcome: AvatarCanvas.DropOutcome)
      modifies this
      ensures outcome == AvatarCanvas.HandleDrop(dt, parse)
      ensures outcome.Delivered? ==> avatarState == ApplyItem(old(avatarState), outcome.item)
      ensures !outcome.Delivered? ==> avatarState == old(avatarState)
      ensures selectedGender == old(selectedGender)
    {
      outcome := AvatarCanvas.HandleDrop(dt, parse);
      if outcome.Delivered? {
        HandleItemDrop(outcome.item);
      }
    }

    /** `getFilteredItems`: the catalogue items of one category for the selected avatar. */
    function GetFilteredItems(category: string): (r: seq<ClothingItem>)
      reads this
      ensures forall it :: it in r <==> it in clothingItems && it.category == category && it.gender == selectedGender
      ensures IsSubsequence(r, clothingItems)
      ensures forall it :: multiset(r)[it] ==
                if it.category == category && it.gender == selectedGender then multiset(clothingItems)[it] else 0
    {
      CategoryTabs.FilterItems(clothingItems, selectedGender, category)
    }
  }
}
