/** Builds Character entities from the characters API payload. */
module CharacterDto {
  import opened Wrappers
  import opened Js
  import Characters
  import Houses
  import HouseService

  /**
   * `HOUSES_DATA`: the house records by name. The file keeps its own copy of
   * the catalogue; its four records are the same as the house service's.
   */
  const HousesTable: map<string, Value> := map[
    "Gryffindor" := HouseService.Gryffindor,
    "Hufflepuff" := HouseService.Hufflepuff,
    "Ravenclaw" := HouseService.Ravenclaw,
    "Slytherin" := HouseService.Slytherin]

  /**
   * `data.house && HOUSES_DATA[data.house]`: a House built from the table
   * when the value, as a property key, names one of the four houses; `null`
   * otherwise.
   */
  function HouseFor(house: Value): (r: Value)
    ensures r != Null <==> Truthy(house) && ToStr(house) in HousesTable
    ensures r != Null ==> r == Houses.Record(Houses.New(HousesTable[ToStr(house)]))
  {
    if Truthy(house) && ToStr(house) in HousesTable then
      var record := HousesTable[ToStr(house)];
      assert record.Obj?;
      Houses.Record(Houses.New(record))
    else Null
  }

  function Build(data: Value): Characters.Character
  {
    Characters.Make(
      Prop(data, "id"), Prop(data, "name"), Or(Prop(data, "alternate_names"), Arr([])),
      Prop(data, "species"), Prop(data, "gender"), HouseFor(Prop(data, "house")),
      Prop(data, "dateOfBirth"), Prop(data, "yearOfBirth"), Prop(data, "wizard"),
      Prop(data, "ancestry"), Prop(data, "eyeColour"), Prop(data, "hairColour"),
      Prop(data, "wand"), Prop(data, "patronus"), Prop(data, "hogwartsStudent"),
      Prop(data, "hogwartsStaff"), Prop(data, "actor"), Or(Prop(data, "alternate_actors"), Arr([])),
      Prop(data, "alive"), Prop(data, "image"))
  }

  /**
   * `CharacterDTO.fromAPI`: `null` for a falsy payload; otherwise the API's
   * fields, the snake-case lists renamed and defaulted to `[]`, and the house
   * name resolved through the table.
   */
  function FromAPI(data: Value): (r: Option<Characters.Character>)
    ensures r.None? <==> !Truthy(data)
    ensures r.Some? ==> r.value.house == HouseFor(Prop(data, "house"))
    ensures r.Some? ==> r.value.alternateNames == Or(Prop(data, "alternate_names"), Arr([]))
    ensures r.Some? ==> r.value.alternateActors == Or(Prop(data, "alternate_actors"), Arr([]))
    ensures r.Some? ==>
              && r.value.id == Prop(data, "id") && r.value.name == Prop(data, "name")
              && r.value.species == Prop(data, "species") && r.value.gender == Prop(data, "gender")
              && r.value.dateOfBirth == Prop(data, "dateOfBirth")
              && r.value.yearOfBirth == Prop(data, "yearOfBirth")
              && r.value.wizard == Prop(data, "wizard") && r.value.ancestry == Prop(data, "ancestry")
              && r.value.eyeColour == Prop(data, "eyeColour")
              && r.value.hairColour == Prop(data, "hairColour")
              && r.value.wand == Prop(data, "wand") && r.value.patronus == Prop(data, "patronus")
              && r.value.hogwartsStudent == Prop(data, "hogwartsStudent")
              && r.value.hogwartsStaff == Prop(data, "hogwartsStaff")
              && r.value.actor == Prop(data, "actor") && r.value.alive == Prop(data, "alive")
              && r.value.image == Prop(data, "image")
  {
    if !Truthy(data) then None else Some(Build(data))
  }

  /** `CharacterDTO.fromAPIArray`: `[]` for a non-array, else one Character per truthy item, in order. */
  function FromAPIArray(list: Value): (r: seq<Characters.Character>)
    ensures !list.Arr? ==> r == []
    ensures list.Arr? ==> |r| == |Truthies(list.items)| <= |list.items|
    ensures list.Arr? ==> forall k :: 0 <= k < |r| ==> Some(r[k]) == FromAPI(Truthies(list.items)[k])
  {
    if list.Arr? then MapTruthy(list.items, Build) else []
  }

  /**
   * The getters of a built Character read the API fields: the flags only for
   * the boolean `true`, the image by truthiness, and the display name is never
   * empty.
   */
  lemma GettersOfBuilt(data: Value)
    requires Truthy(data)
    ensures var c := FromAPI(data).value;
            && (Characters.IsStudent(c) <==> Prop(data, "hogwartsStudent") == Bool(true))
            && (Characters.IsStaff(c) <==> Prop(data, "hogwartsStaff") == Bool(true))
            && (Characters.HasImage(c) <==> Truthy(Prop(data, "image")))
            && Truthy(Characters.DisplayName(c))
  {
  }

  /** A house given by name gets that house's record, and any other name gets none. */
  lemma HouseByName(data: Value, name: string)
    requires Prop(data, "house") == Str(name)
    ensures name in HousesTable ==>
              HouseFor(Prop(data, "house")) == Houses.Record(Houses.New(HousesTable[name]))
    ensures name !in HousesTable ==> HouseFor(Prop(data, "house")) == Null
  {
  }

  /** The table holds exactly the four houses. */
  lemma TableKeys()
    ensures HousesTable.Keys == {"Gryffindor", "Hufflepuff", "Ravenclaw", "Slytherin"}
  {
  }
}
