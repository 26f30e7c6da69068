/** Builds Cat entities from the cat API payload. */
module CatDto {
  import opened Wrappers
  import opened Js
  import Cats

  /** `CatDTO.fromAPI`: `null` for a falsy payload, otherwise a Cat whose breeds default to `[]`. */
  function FromAPI(data: Value): (r: Option<Cats.Cat>)
    ensures r.None? <==> !Truthy(data)
    ensures r.Some? ==>
              && r.value.id == Prop(data, "id") && r.value.url == Prop(data, "url")
              && r.value.width == Prop(data, "width") && r.value.height == Prop(data, "height")
    ensures r.Some? ==> Truthy(r.value.breeds)
    ensures r.Some? && Truthy(Prop(data, "breeds")) ==> r.value.breeds == Prop(data, "breeds")
    ensures r.Some? && !Truthy(Prop(data, "breeds")) ==> r.value.breeds == Arr([])
    ensures r.Some? && Prop(data, "breeds").Undefined? ==> !Cats.HasBreedInfo(r.value)
  {
    if !Truthy(data) then None else Some(Build(data))
  }

  function Build(data: Value): Cats.Cat
  {
    Cats.Make(Prop(data, "id"), Prop(data, "url"), Prop(data, "width"), Prop(data, "height"),
              Or(Prop(data, "breeds"), Arr([])))
  }

  /** `CatDTO.fromAPIArray`: `[]` for a non-array, else one Cat per truthy item, in order. */
  function FromAPIArray(list: Value): (r: seq<Cats.Cat>)
    ensures !list.Arr? ==> r == []
    ensures list.Arr? ==> |r| == |Truthies(list.items)| <= |list.items|
    ensures list.Arr? ==> forall k :: 0 <= k < |r| ==> Some(r[k]) == FromAPI(Truthies(list.items)[k])
  {
    if list.Arr? then MapTruthy(list.items, Build) else []
  }
}
