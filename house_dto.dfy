/** Builds House entities from the locally held house records. */
module HouseDto {
  import opened Wrappers
  import opened Js
  import Houses

  /** `HouseDTO.fromLocal`: `null` for a falsy record, otherwise a House of its seven properties. */
  function FromLocal(data: Value): (r: Option<Houses.House>)
    ensures r.None? <==> !Truthy(data)
    ensures r.Some? ==>
              && r.value.name == Prop(data, "name") && r.value.founder == Prop(data, "founder")
              && r.value.traits == Prop(data, "traits") && r.value.animal == Prop(data, "animal")
              && r.value.element == Prop(data, "element")
              && r.value.description == Prop(data, "description")
              && (Truthy(Prop(data, "colors")) ==> r.value.colors == Prop(data, "colors"))
              && (!Truthy(Prop(data, "colors")) ==> r.value.colors == Arr([]))
              && Truthy(r.value.colors)
  {
    if !Truthy(data) then None else Some(Build(data))
  }

  function Build(data: Value): Houses.House
  {
    Houses.Make(Prop(data, "name"), Prop(data, "founder"), Prop(data, "colors"),
                Prop(data, "traits"), Prop(data, "animal"), Prop(data, "element"),
                Prop(data, "description"))
  }

  /** `HouseDTO.fromLocalArray`: `[]` for a non-array, else one House per truthy record, in order. */
  function FromLocalArray(list: Value): (r: seq<Houses.House>)
    ensures !list.Arr? ==> r == []
    ensures list.Arr? ==> |r| == |Truthies(list.items)| <= |list.items|
    ensures list.Arr? ==> forall k :: 0 <= k < |r| ==> Some(r[k]) == FromLocal(Truthies(list.items)[k])
  {
    if list.Arr? then MapTruthy(list.items, Build) else []
  }
}
