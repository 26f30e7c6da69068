/** The static catalogue of the four Hogwarts houses and its lookups. */
module HouseService {
  import opened Wrappers
  import opened Js
  import opened Text
  import Houses
  import HouseDto

  /** A house record as the catalogue writes it. */
  function HouseData(name: string, founder: string, primary: string, secondary: string,
                     traits: string, animal: string, element: string, description: string): Value
  {
    Obj(map[
      "name" := Str(name), "founder" := Str(founder),
      "colors" := Arr([Str(primary), Str(secondary)]),
      "traits" := Str(traits), "animal" := Str(animal), "element" := Str(element),
      "description" := Str(description)])
  }

  const Gryffindor: Value := HouseData(
    "Gryffindor", "Godric Gryffindor", "#8B1A1A", "#E6B84D",
    "Valentía, osadía, temple y caballerosidad", "🦁", "🔥",
    "Los miembros de Gryffindor son conocidos por su valentía y determinación.")

  const Hufflepuff: Value := HouseData(
    "Hufflepuff", "Helga Hufflepuff", "#E6C75E", "#3A3A3A",
    "Trabajo duro, dedicación, paciencia, lealtad y juego limpio", "🦡", "🌍",
    "Los tejones de Hufflepuff son leales, pacientes y valoran el trabajo duro.")

  const Ravenclaw: Value := HouseData(
    "Ravenclaw", "Rowena Ravenclaw", "#2E4E7C", "#B58A3E",
    "Inteligencia, conocimiento, curiosidad y creatividad", "🦅", "💨",
    "Los Ravenclaw son conocidos por su sabiduría y amor por el aprendizaje.")

  const Slytherin: Value := HouseData(
    "Slytherin", "Salazar Slytherin", "#2A6F3F", "#B8B8B8",
    "Ambición, astucia, liderazgo y determinación", "🐍", "💧",
    "Los Slytherin son astutos, ambiciosos y saben conseguir lo que quieren.")

  /** The catalogue, in its fixed order. */
  const HousesData: seq<Value> := [Gryffindor, Hufflepuff, Ravenclaw, Slytherin]

  /** A catalogue record is an object whose `name` is the name it was written with. */
  lemma HouseDataName(name: string, founder: string, primary: string, secondary: string,
                      traits: string, animal: string, element: string, description: string)
    ensures var d := HouseData(name, founder, primary, secondary, traits, animal, element, description);
            d.Obj? && Prop(d, "name") == Str(name)
  {
  }

  /** `getAll`: every catalogue record through `HouseDTO.fromLocalArray`. */
  function GetAll(): (r: seq<Houses.House>)
    ensures |r| == 4
    ensures forall k :: 0 <= k < 4 ==> Some(r[k]) == HouseDto.FromLocal(HousesData[k])
  {
    AllRecordsTruthy();
    HouseDto.FromLocalArray(Arr(HousesData))
  }

  lemma AllRecordsTruthy()
    ensures Truthies(HousesData) == HousesData
  {
    assert Gryffindor.Obj? && Hufflepuff.Obj? && Ravenclaw.Obj? && Slytherin.Obj?;
    AllTruthyKept(HousesData);
  }

  /** `getAll` lists Gryffindor, Hufflepuff, Ravenclaw and Slytherin, in that order. */
  lemma GetAllOrder()
    ensures |GetAll()| == 4
    ensures GetAll()[0].name == Str("Gryffindor") && GetAll()[1].name == Str("Hufflepuff")
    ensures GetAll()[2].name == Str("Ravenclaw") && GetAll()[3].name == Str("Slytherin")
  {
    var r := GetAll();
    assert Some(r[0]) == HouseDto.FromLocal(Gryffindor);
    assert Some(r[1]) == HouseDto.FromLocal(Hufflepuff);
    assert Some(r[2]) == HouseDto.FromLocal(Ravenclaw);
    assert Some(r[3]) == HouseDto.FromLocal(Slytherin);
    HouseDataName("Gryffindor", "Godric Gryffindor", "#8B1A1A", "#E6B84D",
      "Valentía, osadía, temple y caballerosidad", "🦁", "🔥",
      "Los miembros de Gryffindor son conocidos por su valentía y determinación.");
    HouseDataName("Hufflepuff", "Helga Hufflepuff", "#E6C75E", "#3A3A3A",
      "Trabajo duro, dedicación, paciencia, lealtad y juego limpio", "🦡", "🌍",
      "Los tejones de Hufflepuff son leales, pacientes y valoran el trabajo duro.");
    HouseDataName("Ravenclaw", "Rowena Ravenclaw", "#2E4E7C", "#B58A3E",
      "Inteligencia, conocimiento, curiosidad y creatividad", "🦅", "💨",
      "Los Ravenclaw son conocidos por su sabiduría y amor por el aprendizaje.");
    HouseDataName("Slytherin", "Salazar Slytherin", "#2A6F3F", "#B8B8B8",
      "Ambición, astucia, liderazgo y determinación", "🐍", "💧",
      "Los Slytherin son astutos, ambiciosos y saben conseguir lo que quieren.");
  }

  /** The record's `name.toLowerCase()` equals `name.toLowerCase()`. */
  predicate NameMatches(record: Value, name: string)
  {
    Prop(record, "name").Str? && Lower(Prop(record, "name").s) == Lower(name)
  }

  /** `Array.prototype.find` by name: the index of the first matching record. */
  function Find(records: seq<Value>, name: string): (r: Option<nat>)
    ensures r.Some? ==> r.value < |records| && NameMatches(records[r.value], name)
    ensures r.Some? ==> forall j :: 0 <= j < r.value ==> !NameMatches(records[j], name)
    ensures r.None? <==> forall j :: 0 <= j < |records| ==> !NameMatches(records[j], name)
  {
    if records == [] then None
    else if NameMatches(records[0], name) then Some(0)
    else match Find(records[1..], name)
      case None => None
      case Some(k) => Some(k + 1)
  }

  /** `getByName`: the first house whose name matches ignoring case, or `null`. */
  function GetByName(name: string): (r: Option<Houses.House>)
    ensures r.None? <==> forall j :: 0 <= j < |HousesData| ==> !NameMatches(HousesData[j], name)
    ensures r.Some? ==> exists j :: 0 <= j < |HousesData| && NameMatches(HousesData[j], name)
                                   && r == HouseDto.FromLocal(HousesData[j])
  {
    match Find(HousesData, name)
    case None => None
    case Some(k) => HouseDto.FromLocal(HousesData[k])
  }

  /** A found house's lower-cased name is the lower-cased argument. */
  lemma FoundNameMatches(name: string)
    requires GetByName(name).Some?
    ensures GetByName(name).value.name.Str?
    ensures Lower(GetByName(name).value.name.s) == Lower(name)
  {
  }

  /** The catalogue's names, as the lookup compares them. */
  lemma CatalogueNames()
    ensures Prop(Gryffindor, "name") == Str("Gryffindor") && Prop(Hufflepuff, "name") == Str("Hufflepuff")
    ensures Prop(Ravenclaw, "name") == Str("Ravenclaw") && Prop(Slytherin, "name") == Str("Slytherin")
  {
    HouseDataName("Gryffindor", "Godric Gryffindor", "#8B1A1A", "#E6B84D",
      "Valentía, osadía, temple y caballerosidad", "🦁", "🔥",
      "Los miembros de Gryffindor son conocidos por su valentía y determinación.");
    HouseDataName("Hufflepuff", "Helga Hufflepuff", "#E6C75E", "#3A3A3A",
      "Trabajo duro, dedicación, paciencia, lealtad y juego limpio", "🦡", "🌍",
      "Los tejones de Hufflepuff son leales, pacientes y valoran el trabajo duro.");
    HouseDataName("Ravenclaw", "Rowena Ravenclaw", "#2E4E7C", "#B58A3E",
      "Inteligencia, conocimiento, curiosidad y creatividad", "🦅", "💨",
      "Los Ravenclaw son conocidos por su sabiduría y amor por el aprendizaje.");
    HouseDataName("Slytherin", "Salazar Slytherin", "#2A6F3F", "#B8B8B8",
      "Ambición, astucia, liderazgo y determinación", "🐍", "💧",
      "Los Slytherin son astutos, ambiciosos y saben conseguir lo que quieren.");
  }

  /** The lookup returns the first matching record of the catalogue. */
  lemma {:induction false} FirstMatchFound(name: string, k: nat)
    requires k < |HousesData| && NameMatches(HousesData[k], name)
    requires forall j :: 0 <= j < k ==> !NameMatches(HousesData[j], name)
    ensures GetByName(name) == HouseDto.FromLocal(HousesData[k])
  {
    var f := Find(HousesData, name);
    assert f.Some?;
    assert f.value == k;
  }

  /** Names that agree in lower case find the same record. */
  lemma {:induction false} FindIgnoresCase(records: seq<Value>, a: string, b: string)
    requires Lower(a) == Lower(b)
    ensures Find(records, a) == Find(records, b)
  {
    if records != [] {
      FindIgnoresCase(records[1..], a, b);
    }
  }

  /** `getByName` ignores case: spellings that agree in lower case find the same house. */
  lemma GetByNameIgnoresCase(a: string, b: string)
    requires Lower(a) == Lower(b)
    ensures GetByName(a) == GetByName(b)
  {
    FindIgnoresCase(HousesData, a, b);
  }

  /** A lower-case spelling finds the house. */
  lemma LookupLowerCase()
    ensures GetByName("gryffindor") == HouseDto.FromLocal(Gryffindor)
  {
    CatalogueNames();
    assert Lower("gryffindor") == Lower("Gryffindor");
    FirstMatchFound("gryffindor", 0);
  }
}
