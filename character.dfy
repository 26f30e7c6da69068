/** The Character entity: a Harry Potter character as the application shows it. */
module Characters {
  import opened Js

  datatype Character = Character(
    id: Value, name: Value, alternateNames: Value, species: Value, gender: Value,
    house: Value, dateOfBirth: Value, yearOfBirth: Value, wizard: Value,
    ancestry: Value, eyeColour: Value, hairColour: Value, wand: Value,
    patronus: Value, hogwartsStudent: Value, hogwartsStaff: Value, actor: Value,
    alternateActors: Value, alive: Value, image: Value)

  /**
   * `new Character({...})` with every destructured property given: the two
   * list properties default to `[]` when they are `undefined`.
   */
  function Make(
    id: Value, name: Value, alternateNames: Value, species: Value, gender: Value,
    house: Value, dateOfBirth: Value, yearOfBirth: Value, wizard: Value,
    ancestry: Value, eyeColour: Value, hairColour: Value, wand: Value,
    patronus: Value, hogwartsStudent: Value, hogwartsStaff: Value, actor: Value,
    alternateActors: Value, alive: Value, image: Value): (c: Character)
    ensures Defaulted(c)
    ensures !alternateNames.Undefined? ==> c.alternateNames == alternateNames
    ensures alternateNames.Undefined? ==> c.alternateNames == Arr([])
    ensures alternateActors.Undefined? ==> c.alternateActors == Arr([])
    ensures !alternateActors.Undefined? ==> c.alternateActors == alternateActors
    ensures c.(alternateNames := alternateNames, alternateActors := alternateActors) ==
            Character(id, name, alternateNames, species, gender, house, dateOfBirth,
                      yearOfBirth, wizard, ancestry, eyeColour, hairColour, wand, patronus,
                      hogwartsStudent, hogwartsStaff, actor, alternateActors, alive, image)
  {
    Character(id, name, Default(alternateNames, Arr([])), species, gender, house,
              dateOfBirth, yearOfBirth, wizard, ancestry, eyeColour, hairColour, wand,
              patronus, hogwartsStudent, hogwartsStaff, actor,
              Default(alternateActors, Arr([])), alive, image)
  }

  /** What every constructed Character satisfies: its list defaults have been applied. */
  predicate Defaulted(c: Character)
  {
    !c.alternateNames.Undefined? && !c.alternateActors.Undefined?
  }

  /** `new Character(props)`: destructure the property bag (on `null`/`undefined` the source throws). */
  function New(props: Value): (c: Character)
    requires !Nullish(props)
    ensures Defaulted(c)
  {
    Make(Prop(props, "id"), Prop(props, "name"), Prop(props, "alternateNames"),
         Prop(props, "species"), Prop(props, "gender"), Prop(props, "house"),
         Prop(props, "dateOfBirth"), Prop(props, "yearOfBirth"), Prop(props, "wizard"),
         Prop(props, "ancestry"), Prop(props, "eyeColour"), Prop(props, "hairColour"),
         Prop(props, "wand"), Prop(props, "patronus"), Prop(props, "hogwartsStudent"),
         Prop(props, "hogwartsStaff"), Prop(props, "actor"), Prop(props, "alternateActors"),
         Prop(props, "alive"), Prop(props, "image"))
  }

  /** The own properties of a Character instance, as they are cached and persisted. */
  function Record(c: Character): Value
  {
    Obj(map[
      "id" := c.id, "name" := c.name, "alternateNames" := c.alternateNames,
      "species" := c.species, "gender" := c.gender, "house" := c.house,
      "dateOfBirth" := c.dateOfBirth, "yearOfBirth" := c.yearOfBirth,
      "wizard" := c.wizard, "ancestry" := c.ancestry, "eyeColour" := c.eyeColour,
      "hairColour" := c.hairColour, "wand" := c.wand, "patronus" := c.patronus,
      "hogwartsStudent" := c.hogwartsStudent, "hogwartsStaff" := c.hogwartsStaff,
      "actor" := c.actor, "alternateActors" := c.alternateActors, "alive" := c.alive,
      "image" := c.image])
  }

  /** Rebuilding a constructed Character from its record gives the same Character back. */
  lemma RecordRoundTrip(c: Character)
    requires Defaulted(c)
    ensures !Nullish(Record(c)) && New(Record(c)) == c
  {
    RecordProps1(c);
    RecordProps2(c);
    RecordProps3(c);
    RecordProps4(c);
  }

  lemma RecordProps1(c: Character)
    ensures Prop(Record(c), "id") == c.id
    ensures Prop(Record(c), "name") == c.name
    ensures Prop(Record(c), "alternateNames") == c.alternateNames
    ensures Prop(Record(c), "species") == c.species
    ensures Prop(Record(c), "gender") == c.gender
  {
  }

  lemma RecordProps2(c: Character)
    ensures Prop(Record(c), "house") == c.house
    ensures Prop(Record(c), "dateOfBirth") == c.dateOfBirth
    ensures Prop(Record(c), "yearOfBirth") == c.yearOfBirth
    ensures Prop(Record(c), "wizard") == c.wizard
    ensures Prop(Record(c), "ancestry") == c.ancestry
  {
  }

  lemma RecordProps3(c: Character)
    ensures Prop(Record(c), "eyeColour") == c.eyeColour
    ensures Prop(Record(c), "hairColour") == c.hairColour
    ensures Prop(Record(c), "wand") == c.wand
    ensures Prop(Record(c), "patronus") == c.patronus
    ensures Prop(Record(c), "hogwartsStudent") == c.hogwartsStudent
  {
  }

  lemma RecordProps4(c: Character)
    ensures Prop(Record(c), "hogwartsStaff") == c.hogwartsStaff
    ensures Prop(Record(c), "actor") == c.actor
    ensures Prop(Record(c), "alternateActors") == c.alternateActors
    ensures Prop(Record(c), "alive") == c.alive
    ensures Prop(Record(c), "image") == c.image
  {
  }

  /** `displayName`: the name, or 'Desconocido' when the name is falsy. */
  function DisplayName(c: Character): (r: Value)
    ensures Truthy(r)
    ensures Truthy(c.name) ==> r == c.name
    ensures !Truthy(c.name) ==> r == Str("Desconocido")
  {
    Or(c.name, Str("Desconocido"))
  }

  /** `hasImage`: `Boolean(image)`. */
  predicate HasImage(c: Character)
  {
    Truthy(c.image)
  }

  /** `isStudent`: strict comparison with `true`. */
  predicate IsStudent(c: Character)
  {
    c.hogwartsStudent == Bool(true)
  }

  /** `isStaff`: strict comparison with `true`. */
  predicate IsStaff(c: Character)
  {
    c.hogwartsStaff == Bool(true)
  }
}
