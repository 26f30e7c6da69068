/** The Spell entity. */
module Spells {
  import opened Js

  datatype Spell = Spell(id: Value, name: Value, description: Value)

  /** `new Spell(props)` (on `null`/`undefined` the source throws). */
  function New(props: Value): (s: Spell)
    requires !Nullish(props)
    ensures s.id == Prop(props, "id") && s.name == Prop(props, "name")
    ensures s.description == Prop(props, "description")
  {
    Spell(Prop(props, "id"), Prop(props, "name"), Prop(props, "description"))
  }

  /** The own properties of a Spell instance, as they are cached and persisted. */
  function Record(s: Spell): Value
  {
    Obj(map["id" := s.id, "name" := s.name, "description" := s.description])
  }

  /** Rebuilding a Spell from its record gives the same Spell back. */
  lemma RecordRoundTrip(s: Spell)
    ensures !Nullish(Record(s)) && New(Record(s)) == s
  {
  }

  /** `displayName`: the name, or 'Hechizo Desconocido' when the name is falsy. */
  function DisplayName(s: Spell): (r: Value)
    ensures Truthy(r)
    ensures Truthy(s.name) ==> r == s.name
    ensures !Truthy(s.name) ==> r == Str("Hechizo Desconocido")
  {
    Or(s.name, Str("Hechizo Desconocido"))
  }

  /** `hasDescription`: `Boolean(description)`. */
  predicate HasDescription(s: Spell)
  {
    Truthy(s.description)
  }
}
