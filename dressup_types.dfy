// The dress-up data model of src/types/dressup.ts, plus the browser's drag
// data store that carries an item from the clothing panel to the canvas.
module DressUpTypes {
  import opened Seqs

  datatype Gender = Barbie | Ken

  /** The six values of the declared `ClothingCategory` union. They are plural,
      while the avatar slots are singular. */
  const ClothingCategories: set<string> :=
    {"hairstyles", "tops", "bottoms", "dresses", "shoes", "accessories"}

  /** A clothing item. `category` is kept as a plain string: an item that
      arrives through a drop payload is whatever JSON the payload held, and the
      state update branches on strings outside the declared union ("dress"). */
  datatype ClothingItem = ClothingItem(
    id: string,
    name: string,
    category: string,
    image: string,
    gender: Gender,
    zIndex: int,
    description: Option<string>,
    brand: Option<string>,
    price: Option<int>)

  /** The avatar state object. The five nullable slots and `accessories` are
      the declared fields; `extra` holds the properties that
      `newState[item.category] = item` creates when the category is not the
      name of a declared field (every plural category other than "shoes"). */
  datatype AvatarState = AvatarState(
    hairstyle: Option<ClothingItem>,
    top: Option<ClothingItem>,
    bottom: Option<ClothingItem>,
    dress: Option<ClothingItem>,
    shoes: Option<ClothingItem>,
    accessories: seq<ClothingItem>,
    extra: map<string, ClothingItem>)

  /** The state the page starts with and `handleReset` installs. */
  const EmptyAvatar := AvatarState(None, None, None, None, None, [], map[])

  predicate IsSlotName(key: string)
  {
    key == "hairstyle" || key == "top" || key == "bottom" || key == "dress" || key == "shoes"
  }

  /** Reading property `key` of the state object (null or absent reads as None). */
  function Field(s: AvatarState, key: string): Option<ClothingItem>
    requires key != "accessories"
  {
    if key == "hairstyle" then s.hairstyle
    else if key == "top" then s.top
    else if key == "bottom" then s.bottom
    else if key == "dress" then s.dress
    else if key == "shoes" then s.shoes
    else if key in s.extra then Some(s.extra[key])
    else None
  }

  /** Writing property `key` of the state object: `state[key] = item`. */
  function SetField(s: AvatarState, key: string, item: ClothingItem): (r: AvatarState)
    requires key != "accessories"
    ensures Field(r, key) == Some(item)
    ensures forall k :: k != "accessories" && k != key ==> Field(r, k) == Field(s, k)
    ensures r.accessories == s.accessories
    ensures IsSlotName(key) ==> r.extra == s.extra
    ensures !IsSlotName(key) ==> r == s.(extra := s.extra[key := item])
  {
    if key == "hairstyle" then s.(hairstyle := Some(item))
    else if key == "top" then s.(top := Some(item))
    else if key == "bottom" then s.(bottom := Some(item))
    else if key == "dress" then s.(dress := Some(item))
    else if key == "shoes" then s.(shoes := Some(item))
    else s.(extra := s.extra[key := item])
  }

  /** The drag data store: format name to data; `getData` of a missing format is "". */
  type DataTransfer = map<string, string>

  const JsonFormat := "application/json"

  function GetData(dt: DataTransfer, format: string): string
  {
    if format in dt then dt[format] else ""
  }

  function SetData(dt: DataTransfer, format: string, data: string): (r: DataTransfer)
    ensures GetData(r, format) == data
    ensures forall f :: f != format ==> GetData(r, f) == GetData(dt, f)
  {
    dt[format := data]
  }
}
