/** `MealSchema`: a dish of the menu. */
module MealSchema {
  import opened Wrappers
  import opened SchemaTypes

  const Categories: set<string> := {"Déjeuner", "Petit-déjeuner"}

  /** A stored meal. */
  datatype MealDoc = MealDoc(name: string, image: string, category: string, price: real, available: bool)

  /** The constraints a stored meal satisfies: exactly those under which no validator fails on its fields. */
  predicate Valid(m: MealDoc): (b: bool)
    ensures b <==> MealFailures(AsInput(m)) == {}
  {
    m.name != "" && m.image != "" && m.category in Categories
  }

  /** The fields given for a new meal; any of them may be missing. */
  datatype MealInput = MealInput(name: Option<string>, image: Option<string>, category: Option<string>,
                                 price: Option<real>, available: Option<bool>)

  datatype MealPath = NamePath | ImagePath | CategoryPath | PricePath

  function MealFailures(input: MealInput): set<MealPath>
  {
    (if RequiredString(input.name) then {} else {NamePath}) +
    (if RequiredString(input.image) then {} else {ImagePath}) +
    (if RequiredString(input.category) && input.category.value in Categories then {} else {CategoryPath}) +
    (if Required(input.price) then {} else {PricePath})
  }

  /** Creating and validating a new meal document. */
  function CreateMeal(input: MealInput): (r: Result<MealDoc, set<MealPath>>)
    ensures r.Success? <==>
      RequiredString(input.name) && RequiredString(input.image) &&
      RequiredString(input.category) && input.category.value in Categories && Required(input.price)
    ensures r.Success? ==> Valid(r.value)
    ensures r.Success? ==>
      r.value == MealDoc(input.name.value, input.image.value, input.category.value, input.price.value,
                         WithDefault(input.available, true))
    ensures r.Failure? ==>
      (NamePath in r.error <==> !RequiredString(input.name)) &&
      (ImagePath in r.error <==> !RequiredString(input.image)) &&
      (CategoryPath in r.error <==> !(RequiredString(input.category) && input.category.value in Categories)) &&
      (PricePath in r.error <==> !Required(input.price))
  {
    var failures := MealFailures(input);
    if failures != {} then Failure(failures)
    else Success(MealDoc(input.name.value, input.image.value, input.category.value, input.price.value,
                         WithDefault(input.available, true)))
  }

  function AsInput(m: MealDoc): MealInput
  {
    MealInput(Some(m.name), Some(m.image), Some(m.category), Some(m.price), Some(m.available))
  }

  /** A valid meal, given back with all its fields, is accepted unchanged. */
  lemma ValidRoundTrip(m: MealDoc)
    requires Valid(m)
    ensures CreateMeal(AsInput(m)) == Success(m)
  {
  }

  /** A meal created without saying whether it is available is available. */
  lemma AvailableByDefault(name: string, image: string, category: string, price: real)
    requires name != "" && image != "" && category in Categories
    ensures CreateMeal(MealInput(Some(name), Some(image), Some(category), Some(price), None))
         == Success(MealDoc(name, image, category, price, true))
  {
  }
}
