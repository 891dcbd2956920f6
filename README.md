# OOTD dress-up studio and shop: a Dafny model

This project models the two interactive pages of the OOTD fashion app:

- **The dress-up studio** (`src/pages/DressUp.tsx` and its components `AvatarCanvas`, `ClothingPanel` and `CategoryTabs`). The user picks a Barbie or Ken avatar. They browse a clothing catalogue filtered by category and avatar. They drag an item (or click it) onto the avatar, mark favourites and reset the avatar.
- **The shop** (`src/pages/Shop.tsx`). It searches a product list and filters it on seven attributes. It sorts the list by price or rating, and toggles a product's "liked" flag.

The model follows the code as written, including where it differs from the evident design:

- The declared clothing categories are plural (`"tops"`, `"hairstyles"`, …). The avatar's slots are singular (`top`, `hairstyle`, …).
- `handleItemDrop` writes `newState[item.category]`, so a `"tops"` item lands in a property the canvas never draws.
- The dress branch fires only for the literal category `"dress"`, which is not one of the declared categories.
- `AvatarState` therefore carries an `extra` map for those stray properties. Lemmas in `DressUpPage` state what this means:
  - only shoes and accessories ever appear on the canvas for catalogue items;
  - the dress/top exclusion still holds for declared categories;
  - it breaks for a payload whose category is the singular `"top"`.

Modules:

- `Seqs` holds `Option`, the subsequence relation and `Array.prototype.filter`.
- `Text` holds ASCII lower-casing, `String.prototype.includes` and the decimal rendering of an index.
- `DressUpTypes` holds the data model and the drag data store.
- `CategoryTabs`, `AvatarCanvas`, `ClothingPanel`, `DressUpPage` and `Shop` hold one source file each.

Component state becomes a class:

- `DressUpStudio` for the studio page;
- `FavoritesPanel` for the panel's favourites;
- `ShopPage` for the shop.

Each method is specified by the pure function it is proved against. `ShopPage` keeps the invariant `Consistent()`: the list on screen is the filtered and sorted product list.

Prices are stored in cents and ratings in tenths of a star, as integers. `JSON.stringify` and `JSON.parse` are function parameters, tied together by the predicate `ClothingPanel.IsCodec`.

## Model

| member | source | states |
|---|---|---|
| Seqs.Filter | src/components/DressUp/CategoryTabs.tsx:28-30 | the result keeps every element that satisfies the predicate as many times as it occurs, drops every other one, and keeps the original order (a subsequence) |
| Text.Lower | src/pages/Shop.tsx:172-174 | lower-casing keeps the length, lowers each character and leaves no upper-case letter |
| Text.Includes | src/pages/Shop.tsx:172-179 | `s.includes(t)` holds exactly when `t` occurs in `s` at some position |
| Text.NatToString | src/components/DressUp/AvatarCanvas.tsx:119 | an index renders as a non-empty string of decimal digits without a leading zero whose decimal value is the index |
| Text.NatToStringInjective | src/components/DressUp/AvatarCanvas.tsx:119 | distinct indices render as distinct strings (each text denotes its index) |
| DressUpTypes.SetField | src/pages/DressUp.tsx:105-108 | `state[key] = item` makes property `key` read as the item and leaves every other property and the accessories as they were; a key that is not a slot name only adds a stray property |
| DressUpTypes.SetData | src/components/DressUp/ClothingPanel.tsx:19 | after `setData(format, data)`, `getData(format)` returns the data and every other format reads as before |
| CategoryTabs.FilterItems | src/components/DressUp/CategoryTabs.tsx:27-31 | the panel lists exactly the catalogue items of the chosen category and avatar, each as often as in the catalogue, in catalogue order |
| CategoryTabs.GendersDisjoint | src/components/DressUp/CategoryTabs.tsx:27-31 | no item is listed for both Barbie and Ken |
| AvatarCanvas.AccessoryLayers | src/components/DressUp/AvatarCanvas.tsx:117-125 | one image per accessory, in order; the one at index i has z-index `zIndex + i` and key `${id}-${i}` |
| AvatarCanvas.ClothesLayers | src/components/DressUp/AvatarCanvas.tsx:75-104 | a worn dress is drawn alone with its image and z-index; otherwise the top (first) and the bottom (last) are drawn, each exactly when present, with its own image and z-index |
| AvatarCanvas.LowerLayers | src/components/DressUp/AvatarCanvas.tsx:75-114 | the clothes come first and the shoes, with their image and z-index, last; no shoes image without shoes; none of these is hair, body or an accessory |
| AvatarCanvas.FixedLayers | src/components/DressUp/AvatarCanvas.tsx:57-114 | hair comes first when present, then the body at z-index 2, then the lower layers; the body appears exactly once; no top or bottom is drawn beside a dress; none of these images is keyed |
| AvatarCanvas.Layers | src/components/DressUp/AvatarCanvas.tsx:57-125 | the number of images; the hair layer first when worn; the body once, right after it; then the clothes and shoes; the accessories last; no top or bottom beside a dress; no shoes image without shoes |
| AvatarCanvas.LayersClothes | src/components/DressUp/AvatarCanvas.tsx:67-104 | right after the body the canvas draws the clothes: the dress, or top then bottom |
| AvatarCanvas.LayersShoes | src/components/DressUp/AvatarCanvas.tsx:107-125 | when shoes are worn, the image right before the accessories is the shoes, with their image and z-index |
| AvatarCanvas.AccessoryKeyDeterminesIndex | src/components/DressUp/AvatarCanvas.tsx:119 | two equal accessory keys come from the same index, whatever the ids |
| AvatarCanvas.AccessoryKeysDistinct | src/components/DressUp/AvatarCanvas.tsx:117-125 | the accessory keys are pairwise distinct, even when one accessory was added twice |
| AvatarCanvas.LayerKeysDistinct | src/components/DressUp/AvatarCanvas.tsx:57-125 | every keyed image on the canvas has a key no other image has |
| AvatarCanvas.HandleDrop | src/components/DressUp/AvatarCanvas.tsx:18-25 | an empty JSON payload is ignored; an undecodable one fails; otherwise exactly the decoded item is delivered |
| ClothingPanel.Toggled | src/components/DressUp/ClothingPanel.tsx:23-33 | the id's membership flips, every other id keeps its membership, and the size changes by one |
| ClothingPanel.ToggleTwice | src/components/DressUp/ClothingPanel.tsx:23-33 | toggling the same id twice restores the favourites |
| ClothingPanel.FavoritesPanel.constructor | src/components/DressUp/ClothingPanel.tsx:16 | the favourites start empty |
| ClothingPanel.FavoritesPanel.ToggleFavorite | src/components/DressUp/ClothingPanel.tsx:23-33 | the new favourites are the toggled old ones, and the heart's state flips |
| ClothingPanel.HandleDragStart | src/components/DressUp/ClothingPanel.tsx:18-21 | the drag data holds the serialised item under "application/json" and nothing else changes |
| ClothingPanel.DragThenDropDeliversItem | src/components/DressUp/ClothingPanel.tsx:18-21 | dragging an item and dropping it on the canvas delivers exactly that item, given a serialiser that `parse` undoes |
| DressUpPage.ApplyItem | src/pages/DressUp.tsx:93-112 | accessories are appended; the literal "dress" sets the dress and clears top and bottom; "tops" and "bottoms" clear the dress and write the property the category names; any other category writes only its own property; nothing else changes |
| DressUpPage.ApplyTwiceIsApplyOnce | src/pages/DressUp.tsx:96-109 | applying a non-accessory item twice is the same as applying it once |
| DressUpPage.DressExclusionKept | src/pages/DressUp.tsx:92-133 | dress exclusion holds after any sequence of applies, resets and avatar switches whose items never carry the category "top" or "bottom" |
| DressUpPage.SingularTopBreaksExclusion | src/pages/DressUp.tsx:107-108 | from the empty avatar, applying a "dress" item and then a "top" item leaves both worn |
| DressUpPage.DeclaredCategoriesMissSlots | src/pages/DressUp.tsx:92-118 | items with declared (plural) categories never fill the hairstyle, top, bottom or dress slot |
| DressUpPage.SampleCategoriesDeclared | src/pages/DressUp.tsx:29-81 | every catalogue item has a declared category, none of them "dress" |
| DressUpPage.DressUpStudio.constructor | src/pages/DressUp.tsx:14-22 | the page starts with Barbie, an empty avatar and the sample catalogue |
| DressUpPage.DressUpStudio.HandleItemDrop | src/pages/DressUp.tsx:92-118 | the avatar state becomes the updater applied to the old state; the avatar choice is kept |
| DressUpPage.DressUpStudio.HandleReset | src/pages/DressUp.tsx:120-133 | every slot is emptied and the accessories are cleared |
| DressUpPage.DressUpStudio.SelectGender | src/pages/DressUp.tsx:180-195 | only the selected avatar changes |
| DressUpPage.DressUpStudio.HandleDrop | src/pages/DressUp.tsx:239-245 | a drop changes the avatar state exactly when the canvas delivers an item, and then as `handleItemDrop` does |
| DressUpPage.DressUpStudio.GetFilteredItems | src/pages/DressUp.tsx:143-147 | the items of one category for the selected avatar, each as often as in the catalogue, in catalogue order |
| Shop.WithFilter | src/pages/Shop.tsx:163-167 | `{ ...filters, [filterType]: value }` sets that filter, keeps every other one, and leaves the filters alone for an undeclared key |
| Shop.MatchesSearch | src/pages/Shop.tsx:171-174 | an empty query matches everything; otherwise the lower-cased query occurs in the lower-cased title, brand or some tag |
| Shop.Matches | src/pages/Shop.tsx:170-186 | a product matches exactly when it meets the search and every non-empty attribute filter (equality, location by substring); an empty filter imposes no constraint |
| Shop.Select | src/pages/Shop.tsx:170-186 | exactly the matching products, each as often as in the list, in list order |
| Shop.SelectCons | src/pages/Shop.tsx:170-186 | filtering a list is the first product if it matches, followed by the rest filtered |
| Shop.PriceRangeIgnored | src/pages/Shop.tsx:170-186 | the price-range filter never changes the result |
| Shop.Swap | src/pages/Shop.tsx:189-195 | exchanges two elements, keeping the multiset |
| Shop.Insert | src/pages/Shop.tsx:189-195 | inserts one element into the sorted prefix, keeping the multiset |
| Shop.SortInPlace | src/pages/Shop.tsx:189-195 | the array ends sorted by the comparator's key and is a permutation of what it held |
| Shop.InsertingStep | src/pages/Shop.tsx:189-195 | swapping an out-of-order neighbour pair keeps both sorted runs of an insertion step |
| Shop.InsertingDone | src/pages/Shop.tsx:189-195 | when the inserted element is in place, the prefix up to it is sorted |
| Shop.SortedCopy | src/pages/Shop.tsx:189-195 | sorting a copy gives a sorted permutation of the filtered list |
| Shop.SampleKeysDistinct | src/pages/Shop.tsx:34-132 | the five sample products have pairwise distinct prices and pairwise distinct ratings |
| Shop.SortOrderMeaning | src/pages/Shop.tsx:189-195 | "price-low" sorts by ascending price, "price-high" by descending price and "rating" by descending rating |
| Shop.FilterAndSort | src/pages/Shop.tsx:169-198 | without a known sort the result is the filtered list; with "price-low", "price-high" or "rating" it is a sorted permutation of it in that order; membership is exactly the matching products |
| Shop.ClearedFiltersShowAll | src/pages/Shop.tsx:216-230 | with the default filters and an empty query, the only filter result is the full product list |
| Shop.ToggleLike | src/pages/Shop.tsx:200-207 | same length; the products with the id have their like flag flipped and the others are unchanged |
| Shop.ToggleLikeTwice | src/pages/Shop.tsx:200-207 | pressing the like button twice restores the list |
| Shop.MatchesIgnoresLike | src/pages/Shop.tsx:170-186 | liking a product never changes whether it matches |
| Shop.SelectToggleLike | src/pages/Shop.tsx:170-207 | liking commutes with filtering |
| Shop.ToggleLikeMultiset | src/pages/Shop.tsx:200-207 | liking maps the multiset of products through the flag flip |
| Shop.LikePreservesPermutation | src/pages/Shop.tsx:200-207 | liking two permutations of one another gives permutations of one another |
| Shop.LikeKeepsSorted | src/pages/Shop.tsx:189-207 | the like flag is not a sort key, so liking keeps a sorted list sorted |
| Shop.LikeKeepsFilterResult | src/pages/Shop.tsx:169-207 | after a like, the list on screen is still the filter result of the liked product list |
| Shop.ShopPage.constructor | src/pages/Shop.tsx:34-147 | the page starts with the five sample products, all shown, default filters and an empty query, consistently |
| Shop.ShopPage.FilterProducts | src/pages/Shop.tsx:169-198 | the list on screen becomes the filter result for the given filters and query |
| Shop.ShopPage.HandleSearch | src/pages/Shop.tsx:158-161 | stores the query and leaves the page consistent |
| Shop.ShopPage.HandleFilterChange | src/pages/Shop.tsx:163-167 | updates one filter and leaves the page consistent |
| Shop.ShopPage.HandleLike | src/pages/Shop.tsx:200-207 | flips the like flag in both lists and keeps consistency |
| Shop.ShopPage.ClearAllFilters | src/pages/Shop.tsx:216-230 | default filters, an empty query, every product shown, consistently |

## Left out

- Toast notifications, `handleDownload`, `handleAddToCart` and the grid/list `viewMode`. They only produce UI feedback or do nothing yet.
- The `isDragging` flag, drag-end handling, CSS classes and layout. They have no effect on state the model tracks.
- The `selectedCategory` tab state is left out. It only decides which panel is visible; every panel is filtered by `GetFilteredItems`.
- The JSON encoding itself. `JSON.stringify` and `JSON.parse` are parameters, so the model says nothing about JSON payloads that decode to something other than a clothing item.
- DressUpPage.DressUpStudio.HandleItemDrop: React's batching of updater functions is not modelled. Each call applies the updater to the current state at once.
- Shop.SortInPlace: is proved sorted and a permutation but not stable. `Array.prototype.sort` is stable, so products with equal keys keep their filtered order there. The same gap carries into Shop.SortedCopy, Shop.FilterAndSort, Shop.IsFilterResult and Shop.ShopPage.Consistent: with a sort chosen they accept any sorted permutation. On this page the difference cannot be observed. The sample products have pairwise distinct prices and ratings (Shop.SampleKeysDistinct), and liking changes neither.
- Text.Lower: lowers ASCII letters only. `toLowerCase` also maps non-ASCII letters.
- Prices and ratings are integers (cents, tenths of a star), not floating point. The comparators only use their order.
- Property names with special meaning on JavaScript objects (such as `__proto__`) behave like any other key in the `extra` map.
- The other pages of the app (map, AI stylist, wishlist, profile and so on) are not part of this model.
