// src/components/DressUp/AvatarCanvas.tsx: the stack of images the canvas
// renders for an avatar state, and the drop handler's guard.
module AvatarCanvas {
  import opened Seqs
  import opened Text
  import opened DressUpTypes

  /** Which element of the canvas a layer is. */
  datatype Slot = HairSlot | BodySlot | DressSlot | TopSlot | BottomSlot | ShoesSlot | AccessorySlot

  /** One rendered `<img>`: its source, alt text, CSS z-index and React key
      (only the accessory images carry an explicit key). */
  datatype Layer = Layer(slot: Slot, image: string, alt: string, zIndex: int, key: Option<string>)

  const BarbieBodyImage := "/lovable-uploads/7ec8f711-ca81-44c1-a6a8-0f1e879d9437.png"
  const KenBodyImage := "/lovable-uploads/6ba15a48-a7a2-4291-a689-de2b2aee8e59.png"

  function GenderName(g: Gender): string
  {
    match g
    case Barbie => "barbie"
    case Ken => "ken"
  }

  function BaseAvatarImage(g: Gender): string
  {
    if g == Barbie then BarbieBodyImage else KenBodyImage
  }

  /** The base body, always drawn at z-index 2. */
  function BodyLayer(g: Gender): Layer
  {
    Layer(BodySlot, BaseAvatarImage(g), GenderName(g) + " avatar", 2, None)
  }

  /** `{slot && <img src={slot.image} style={{zIndex: slot.zIndex}} />}` */
  function SlotLayer(item: Option<ClothingItem>, slot: Slot, alt: string): seq<Layer>
  {
    if item.Some? then [Layer(slot, item.value.image, alt, item.value.zIndex, None)] else []
  }

  /** The React key of the accessory at `index`: `${id}-${index}`. */
  function AccessoryKey(id: string, index: nat): string
  {
    id + "-" + NatToString(index)
  }

  function AccessoryLayer(a: ClothingItem, index: nat): Layer
  {
    Layer(AccessorySlot, a.image, a.name, a.zIndex + index, Some(AccessoryKey(a.id, index)))
  }

  /** `accessories.map((accessory, index) => <img ... />)` */
  function AccessoryLayers(accessories: seq<ClothingItem>): (r: seq<Layer>)
    ensures |r| == |accessories|
    ensures forall i :: 0 <= i < |r| ==> r[i] == AccessoryLayer(accessories[i], i)
  {
    seq(|accessories|, i requires 0 <= i < |accessories| => AccessoryLayer(accessories[i], i))
  }

  function Present(item: Option<ClothingItem>): nat
  {
    if item.Some? then 1 else 0
  }

  /** The clothes between body and shoes: the dress alone, or else the top
      followed by the bottom, each when present. */
  function ClothesLayers(s: AvatarState): (r: seq<Layer>)
    ensures |r| == if s.dress.Some? then 1 else Present(s.top) + Present(s.bottom)
    ensures s.dress.Some? ==> r == [Layer(DressSlot, s.dress.value.image, "Dress", s.dress.value.zIndex, None)]
    ensures s.dress.None? && s.top.Some? ==> r[0] == Layer(TopSlot, s.top.value.image, "Top", s.top.value.zIndex, None)
    ensures s.dress.None? && s.bottom.Some? ==>
              r[|r| - 1] == Layer(BottomSlot, s.bottom.value.image, "Bottom", s.bottom.value.zIndex, None)
    ensures s.top.None? ==> forall l :: l in r ==> l.slot != TopSlot
    ensures s.bottom.None? ==> forall l :: l in r ==> l.slot != BottomSlot
    ensures forall l :: l in r ==> l.key == None
    ensures forall l :: l in r ==> l.slot in {DressSlot, TopSlot, BottomSlot}
    ensures s.dress.Some? ==> forall l :: l in r ==> l.slot == DressSlot
  {
    if s.dress.Some? then SlotLayer(s.dress, DressSlot, "Dress")
    else SlotLayer(s.top, TopSlot, "Top") + SlotLayer(s.bottom, BottomSlot, "Bottom")
  }

  /** The images below the body: the clothes, then the shoes when present. */
  function LowerLayers(s: AvatarState): (r: seq<Layer>)
    ensures |r| == |ClothesLayers(s)| + Present(s.shoes)
    ensures r[..|ClothesLayers(s)|] == ClothesLayers(s)
    ensures s.shoes.Some? ==> r[|r| - 1] == Layer(ShoesSlot, s.shoes.value.image, "Shoes", s.shoes.value.zIndex, None)
    ensures s.shoes.None? ==> forall l :: l in r ==> l.slot != ShoesSlot
    ensures s.dress.Some? ==> forall l :: l in r ==> l.slot != TopSlot && l.slot != BottomSlot
    ensures forall l :: l in r ==> l.key == None && l.slot !in {HairSlot, BodySlot, AccessorySlot}
  {
    var clothes := ClothesLayers(s);
    var shoes := SlotLayer(s.shoes, ShoesSlot, "Shoes");
    assert (clothes + shoes)[..|clothes|] == clothes;
    clothes + shoes
  }

  /** The images before the accessories: hair, body, then the lower layers. */
  function FixedLayers(s: AvatarState, g: Gender): (r: seq<Layer>)
    ensures |r| == 1 + Present(s.hairstyle) + |LowerLayers(s)|
    ensures r[Present(s.hairstyle)] == BodyLayer(g)
    ensures forall i :: 0 <= i < |r| && r[i].slot == BodySlot ==> i == Present(s.hairstyle)
    ensures s.hairstyle.Some? ==> r[0] == Layer(HairSlot, s.hairstyle.value.image, "Hairstyle", s.hairstyle.value.zIndex, None)
    ensures s.hairstyle.None? ==> forall l :: l in r ==> l.slot != HairSlot
    ensures r[Present(s.hairstyle) + 1..] == LowerLayers(s)
    ensures s.shoes.None? ==> forall l :: l in r ==> l.slot != ShoesSlot
    ensures s.dress.Some? ==> forall l :: l in r ==> l.slot != TopSlot && l.slot != BottomSlot
    ensures forall l :: l in r ==> l.key == None && l.slot != AccessorySlot
  {
    var hair := SlotLayer(s.hairstyle, HairSlot, "Hairstyle");
    var lower := LowerLayers(s);
    var r := hair + [BodyLayer(g)] + lower;
    InsertAt(hair, BodyLayer(g), lower);
    r
  }

  /** In `a + [x] + b`, `x` sits at `|a|`, `b` follows it, and every other
      element comes from `a` or `b`. */
  lemma InsertAt(a: seq<Layer>, x: Layer, b: seq<Layer>)
    ensures var r := a + [x] + b;
            r[|a|] == x && r[|a| + 1..] == b
            && (forall i :: 0 <= i < |r| && i != |a| ==> r[i] in a || r[i] in b)
  {
  }

  /** The canvas's images in document order: hair, body, dress or top and
      bottom, shoes, then the accessories. */
  function Layers(s: AvatarState, g: Gender): (r: seq<Layer>)
    ensures |r| == 1 + Present(s.hairstyle)
                 + (if s.dress.Some? then 1 else Present(s.top) + Present(s.bottom))
                 + Present(s.shoes) + |s.accessories|
    ensures r[Present(s.hairstyle)] == BodyLayer(g)
    ensures forall i :: 0 <= i < |r| && r[i].slot == BodySlot ==> i == Present(s.hairstyle)
    ensures s.hairstyle.Some? ==> r[0] == Layer(HairSlot, s.hairstyle.value.image, "Hairstyle", s.hairstyle.value.zIndex, None)
    ensures s.hairstyle.None? ==> forall l :: l in r ==> l.slot != HairSlot
    ensures r[Present(s.hairstyle) + 1..|r| - |s.accessories|] == LowerLayers(s)
    ensures s.shoes.None? ==> forall l :: l in r ==> l.slot != ShoesSlot
    ensures s.dress.Some? ==> forall l :: l in r ==> l.slot != TopSlot && l.slot != BottomSlot
    ensures r[|r| - |s.accessories|..] == AccessoryLayers(s.accessories)
    ensures forall l :: l in r[..|r| - |s.accessories|] ==> l.key == None && l.slot != AccessorySlot
  {
    var fixed := FixedLayers(s, g);
    var acc := AccessoryLayers(s.accessories);
    SplitConcat(fixed, acc);
    assert (fixed + acc)[Present(s.hairstyle) + 1..|fixed|] == fixed[Present(s.hairstyle) + 1..];
    fixed + acc
  }

  lemma SplitConcat(a: seq<Layer>, b: seq<Layer>)
    ensures (a + b)[..|a|] == a && (a + b)[|a|..] == b
    ensures forall i :: 0 <= i < |a| ==> (a + b)[i] == a[i]
    ensures forall l :: l in a + b <==> l in a || l in b
  {
  }

  /** Right after the body the canvas draws the clothes: the dress, or the
      top then the bottom. */
  lemma LayersClothes(s: AvatarState, g: Gender)
    ensures var r := Layers(s, g);
            var h := Present(s.hairstyle);
            r[h + 1..h + 1 + |ClothesLayers(s)|] == ClothesLayers(s)
  {
    var r := Layers(s, g);
    var h := Present(s.hairstyle);
    SliceOfSlice(r, h + 1, |r| - |s.accessories|, |ClothesLayers(s)|);
  }

  /** A prefix of a slice is a slice. */
  lemma SliceOfSlice(r: seq<Layer>, lo: int, hi: int, n: int)
    requires 0 <= lo <= hi <= |r| && 0 <= n <= hi - lo
    ensures r[lo..hi][..n] == r[lo..lo + n]
  {
  }

  /** Right before the accessories the canvas draws the shoes, when worn. */
  lemma LayersShoes(s: AvatarState, g: Gender)
    requires s.shoes.Some?
    ensures var r := Layers(s, g);
            r[|r| - |s.accessories| - 1] == Layer(ShoesSlot, s.shoes.value.image, "Shoes", s.shoes.value.zIndex, None)
  {
    var r := Layers(s, g);
    var lower := r[Present(s.hairstyle) + 1..|r| - |s.accessories|];
    assert r[|r| - |s.accessories| - 1] == lower[|lower| - 1];
  }

  /** In `x + "-" + d`, a suffix `d` without dashes is what follows the last dash. */
  lemma TextAfterLastDash(x: string, d1: string, y: string, d2: string)
    requires '-' !in d1 && '-' !in d2
    requires x + "-" + d1 == y + "-" + d2
    ensures d1 == d2
  {
    var s := x + "-" + d1;
    assert s == y + "-" + d2;
    assert s[|s| - 1 - |d1|] == '-';
    assert s[|s| - 1 - |d2|] == '-';
    assert forall j :: |s| - |d1| <= j < |s| ==> s[j] == d1[j - (|s| - |d1|)];
    assert forall j :: |s| - |d2| <= j < |s| ==> s[j] == d2[j - (|s| - |d2|)];
    assert |d1| == |d2|;
    assert d1 == s[|s| - |d1|..] == d2;
  }

  /** An accessory key determines the index it was made from. */
  lemma AccessoryKeyDeterminesIndex(id1: string, i: nat, id2: string, j: nat)
    ensures AccessoryKey(id1, i) == AccessoryKey(id2, j) ==> i == j
  {
    if AccessoryKey(id1, i) == AccessoryKey(id2, j) {
      assert id1 + "-" + NatToString(i) == id2 + "-" + NatToString(j);
      TextAfterLastDash(id1, NatToString(i), id2, NatToString(j));
      NatToStringInjective(i, j);
    }
  }

  /** The accessory images have pairwise distinct keys, even when the same
      accessory was added more than once. */
  lemma AccessoryKeysDistinct(accessories: seq<ClothingItem>)
    ensures var acc := AccessoryLayers(accessories);
            forall i, j :: 0 <= i < j < |acc| ==> acc[i].key != acc[j].key
  {
    var acc := AccessoryLayers(accessories);
    forall i, j | 0 <= i < j < |acc|
      ensures acc[i].key != acc[j].key
    {
      AccessoryKeyDeterminesIndex(accessories[i].id, i, accessories[j].id, j);
    }
  }

  /** Every keyed image of the canvas has a key no other image has. */
  lemma LayerKeysDistinct(s: AvatarState, g: Gender)
    ensures var r := Layers(s, g);
            forall i, j :: 0 <= i < j < |r| && r[i].key.Some? ==> r[i].key != r[j].key
  {
    var r := Layers(s, g);
    var n := |r| - |s.accessories|;
    var acc := AccessoryLayers(s.accessories);
    forall k | 0 <= k < n
      ensures r[k].key == None
    {
      assert r[..n][k] == r[k];
      assert r[..n][k] in r[..n];
    }
    forall k | n <= k < |r|
      ensures r[k] == acc[k - n]
    {
      assert r[n..][k - n] == r[k];
    }
    AccessoryKeysDistinct(s.accessories);
  }

  /** What `handleDrop` does with a drop event. */
  datatype DropOutcome =
    | Ignored                        // no JSON payload: `onItemDrop` is not called
    | Delivered(item: ClothingItem)  // `onItemDrop(item)` is called once
    | ParseFailed                    // `JSON.parse` throws; `onItemDrop` is not called

  /** The drop guard: read the JSON payload and, when it is non-empty, decode
      it with `parse` (standing for `JSON.parse`) and pass the item on. */
  function HandleDrop(dt: DataTransfer, parse: string -> Option<ClothingItem>): (r: DropOutcome)
    ensures r.Ignored? <==> GetData(dt, JsonFormat) == ""
    ensures r.ParseFailed? <==> GetData(dt, JsonFormat) != "" && parse(GetData(dt, JsonFormat)).None?
    ensures r.Delivered? ==> Some(r.item) == parse(GetData(dt, JsonFormat))
  {
    var itemData := GetData(dt, JsonFormat);
    if itemData != "" then
      match parse(itemData)
      case Some(item) => Delivered(item)
      case None => ParseFailed
    else
      Ignored
  }
}
