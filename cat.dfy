/** The Cat entity: an image from the cat API with its breed information. */
module Cats {
  import opened Js

  datatype Cat = Cat(id: Value, url: Value, width: Value, height: Value, breeds: Value)

  /** `new Cat({...})` with every destructured property given: `breeds` defaults to `[]` when `undefined`. */
  function Make(id: Value, url: Value, width: Value, height: Value, breeds: Value): (c: Cat)
    ensures !c.breeds.Undefined?
    ensures !breeds.Undefined? ==> c.breeds == breeds
    ensures breeds.Undefined? ==> c.breeds == Arr([])
    ensures c.(breeds := breeds) == Cat(id, url, width, height, breeds)
  {
    Cat(id, url, width, height, Default(breeds, Arr([])))
  }

  /**
   * `mainBreed`: the first breed, or `null` when it is missing or falsy. The
   * getters below read `breeds[0]`, which throws when `breeds` is `null`.
   */
  function MainBreed(c: Cat): (r: Value)
    requires !Nullish(c.breeds)
    ensures r.Null? || Truthy(r)
    ensures Truthy(At(c.breeds, 0)) ==> r == At(c.breeds, 0)
    ensures !Truthy(At(c.breeds, 0)) ==> r == Null
  {
    Or(At(c.breeds, 0), Null)
  }

  /** `mainBreed?.key`: optional chaining stops at `null`. */
  function BreedProp(c: Cat, key: string): Value
    requires !Nullish(c.breeds)
  {
    var main := MainBreed(c);
    if Nullish(main) then Undefined else Prop(main, key)
  }

  /** `breedName`: the main breed's name, or 'Gato Mágico'. */
  function BreedName(c: Cat): (r: Value)
    requires !Nullish(c.breeds)
    ensures Truthy(r)
    ensures Truthy(BreedProp(c, "name")) ==> r == BreedProp(c, "name")
    ensures !Truthy(BreedProp(c, "name")) ==> r == Str("Gato Mágico")
  {
    Or(BreedProp(c, "name"), Str("Gato Mágico"))
  }

  /** A text getter of the main breed, or the empty string. */
  function BreedText(c: Cat, key: string): (r: Value)
    requires !Nullish(c.breeds)
    ensures Truthy(BreedProp(c, key)) ==> r == BreedProp(c, key)
    ensures !Truthy(BreedProp(c, key)) ==> r == Str("")
  {
    Or(BreedProp(c, key), Str(""))
  }

  /** `temperament`. */
  function Temperament(c: Cat): Value
    requires !Nullish(c.breeds)
  {
    BreedText(c, "temperament")
  }

  /** `lifeSpan`: read from the breed's `life_span` property. */
  function LifeSpan(c: Cat): Value
    requires !Nullish(c.breeds)
  {
    BreedText(c, "life_span")
  }

  /** `description`. */
  function Description(c: Cat): Value
    requires !Nullish(c.breeds)
  {
    BreedText(c, "description")
  }

  /** `origin`. */
  function Origin(c: Cat): Value
    requires !Nullish(c.breeds)
  {
    BreedText(c, "origin")
  }

  /** `hasBreedInfo`: `breeds.length > 0`. */
  predicate HasBreedInfo(c: Cat)
    requires !Nullish(c.breeds)
  {
    LengthPositive(c.breeds)
  }

  /**
   * For a list of breeds, the getters read the first one: without breeds
   * every getter falls back, and with a first breed object they read its
   * properties.
   */
  lemma BreedListGetters(c: Cat, list: seq<Value>)
    requires c.breeds == Arr(list)
    ensures HasBreedInfo(c) <==> list != []
    ensures list == [] ==> MainBreed(c) == Null && BreedName(c) == Str("Gato Mágico")
                           && Temperament(c) == Str("") && LifeSpan(c) == Str("")
                           && Description(c) == Str("") && Origin(c) == Str("")
    ensures list != [] && list[0].Obj? ==>
              MainBreed(c) == list[0] && LifeSpan(c) == Or(Prop(list[0], "life_span"), Str(""))
  {
  }
}
