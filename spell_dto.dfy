/** Builds Spell entities from the spells API payload. */
module SpellDto {
  import opened Wrappers
  import opened Js
  import Spells

  /** `SpellDTO.fromAPI`: `null` for a falsy payload, otherwise its id, name and description. */
  function FromAPI(data: Value): (r: Option<Spells.Spell>)
    ensures r.None? <==> !Truthy(data)
    ensures r.Some? ==> r.value == Spells.Spell(Prop(data, "id"), Prop(data, "name"), Prop(data, "description"))
  {
    if !Truthy(data) then None else Some(Build(data))
  }

  function Build(data: Value): Spells.Spell
  {
    Spells.Spell(Prop(data, "id"), Prop(data, "name"), Prop(data, "description"))
  }

  /** `SpellDTO.fromAPIArray`: `[]` for a non-array, else one Spell per truthy item, in order. */
  function FromAPIArray(list: Value): (r: seq<Spells.Spell>)
    ensures !list.Arr? ==> r == []
    ensures list.Arr? ==> |r| == |Truthies(list.items)| <= |list.items|
    ensures list.Arr? ==> forall k :: 0 <= k < |r| ==> Some(r[k]) == FromAPI(Truthies(list.items)[k])
  {
    if list.Arr? then MapTruthy(list.items, Build) else []
  }
}
