// src/components/DressUp/ClothingPanel.tsx: the favourites set behind the
// heart buttons, and the payload a drag of an item carries to the canvas.
module ClothingPanel {
  import opened Seqs
  import opened DressUpTypes
  import AvatarCanvas

  /** The favourites set after toggling `itemId`: removed if it was there,
      added otherwise. */
  function Toggled(favorites: set<string>, itemId: string): (r: set<string>)
    ensures itemId in r <==> itemId !in favorites
    ensures forall id :: id != itemId ==> (id in r <==> id in favorites)
    ensures |r| == if itemId in favorites then |favorites| - 1 else |favorites| + 1
  {
    if itemId in favorites then favorites - {itemId} else favorites + {itemId}
  }

  /** Toggling the same id twice gives back the set it started from. */
  lemma ToggleTwice(favorites: set<string>, itemId: string)
    ensures Toggled(Toggled(favorites, itemId), itemId) == favorites
  {
  }

  /** The panel's `favorites` state. */
  class FavoritesPanel {
    var favorites: set<string>

    constructor ()
      ensures favorites == {}
    {
      favorites := {};
    }

    /** `favorites.has(itemId)`, which decides how the heart is drawn. */
    function IsFavorite(itemId: string): bool
      reads this
    {
      itemId in favorites
    }

    /** `toggleFavorite`: copy the set, then delete or add the id in place. */
    method ToggleFavorite(itemId: string)
      modifies this
      ensures favorites == Toggled(old(favorites), itemId)
      ensures IsFavorite(itemId) == !old(IsFavorite(itemId))
    {
      var newFavorites := favorites;
      if itemId in newFavorites {
        newFavorites := newFavorites - {itemId};
      } else {
        newFavorites := newFavorites + {itemId};
      }
      favorites := newFavorites;
    }
  }

  /** `handleDragStart`: the item, serialised by `stringify` (standing for
      `JSON.stringify`), is stored under "application/json". */
  function HandleDragStart(dt: DataTransfer, item: ClothingItem, stringify: ClothingItem -> string): (r: DataTransfer)
    ensures GetData(r, JsonFormat) == stringify(item)
    ensures forall f :: f != JsonFormat ==> GetData(r, f) == GetData(dt, f)
  {
    SetData(dt, JsonFormat, stringify(item))
  }

  /** `parse` undoes `stringify`, and a serialised item is never the empty
      string (`JSON.stringify` of an object starts with a brace). */
  ghost predicate IsCodec(stringify: ClothingItem -> string, parse: string -> Option<ClothingItem>)
  {
    forall item :: stringify(item) != "" && parse(stringify(item)) == Some(item)
  }

  /** Dragging an item from the panel and dropping it on the canvas hands the
      canvas exactly that item, whatever else the drag data held. */
  lemma DragThenDropDeliversItem(dt: DataTransfer, item: ClothingItem,
                                 stringify: ClothingItem -> string, parse: string -> Option<ClothingItem>)
    requires IsCodec(stringify, parse)
    ensures AvatarCanvas.HandleDrop(HandleDragStart(dt, item, stringify), parse) == AvatarCanvas.Delivered(item)
  {
  }
}
