/** The House entity: one of the four Hogwarts houses. */
module Houses {
  import opened Js

  datatype House = House(
    name: Value, founder: Value, colors: Value, traits: Value,
    animal: Value, element: Value, description: Value)

  /** `new House({...})` with every destructured property given: `colors` falls back to `[]` when falsy. */
  function Make(name: Value, founder: Value, colors: Value, traits: Value,
                animal: Value, element: Value, description: Value): (h: House)
    ensures Truthy(h.colors)
    ensures Truthy(colors) ==> h.colors == colors
    ensures !Truthy(colors) ==> h.colors == Arr([])
    ensures h.(colors := colors) == House(name, founder, colors, traits, animal, element, description)
  {
    House(name, founder, Or(colors, Arr([])), traits, animal, element, description)
  }

  /** `new House(props)` (on `null`/`undefined` the source throws). */
  function New(props: Value): (h: House)
    requires !Nullish(props)
    ensures Truthy(h.colors)
  {
    Make(Prop(props, "name"), Prop(props, "founder"), Prop(props, "colors"),
         Prop(props, "traits"), Prop(props, "animal"), Prop(props, "element"),
         Prop(props, "description"))
  }

  /** The own properties of a House instance. */
  function Record(h: House): Value
  {
    Obj(map[
      "name" := h.name, "founder" := h.founder, "colors" := h.colors,
      "traits" := h.traits, "animal" := h.animal, "element" := h.element,
      "description" := h.description])
  }

  /** `primaryColor`: the first colour, or '#2a2a2a' when it is missing or falsy. */
  function PrimaryColor(h: House): (r: Value)
    requires !Nullish(h.colors)
    ensures Truthy(r)
    ensures Truthy(At(h.colors, 0)) ==> r == At(h.colors, 0)
    ensures !Truthy(At(h.colors, 0)) ==> r == Str("#2a2a2a")
  {
    Or(At(h.colors, 0), Str("#2a2a2a"))
  }

  /** `secondaryColor`: the second colour, or '#4a4a4a' when it is missing or falsy. */
  function SecondaryColor(h: House): (r: Value)
    requires !Nullish(h.colors)
    ensures Truthy(r)
    ensures Truthy(At(h.colors, 1)) ==> r == At(h.colors, 1)
    ensures !Truthy(At(h.colors, 1)) ==> r == Str("#4a4a4a")
  {
    Or(At(h.colors, 1), Str("#4a4a4a"))
  }

  /** `colorGradient`: a CSS gradient from the primary to the secondary colour. */
  function ColorGradient(h: House): (r: string)
    requires !Nullish(h.colors)
  {
    "linear-gradient(135deg, " + ToStr(PrimaryColor(h)) + " 0%, "
      + ToStr(SecondaryColor(h)) + " 100%)"
  }

  /** A house whose colours are two strings shows exactly those two in its gradient. */
  lemma GradientOfTwoColors(h: House, first: string, second: string)
    requires h.colors == Arr([Str(first), Str(second)]) && first != "" && second != ""
    ensures ColorGradient(h)
         == "linear-gradient(135deg, " + first + " 0%, " + second + " 100%)"
  {
  }

  /** A house without colours shows the two fallback colours. */
  lemma GradientWithoutColors(h: House)
    requires h.colors == Arr([])
    ensures ColorGradient(h) == "linear-gradient(135deg, #2a2a2a 0%, #4a4a4a 100%)"
  {
  }
}
