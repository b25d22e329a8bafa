/**
 * The client's meal slice: the list of meals, replaced wholesale by `setMeals`
 * and edited field by field by `updateMealStatus`.
 */
module MealSlice {
  import opened Wrappers
  import opened ArrayFind
  import opened JsText

  /** A meal as the slice stores it; the price is kept as a string. */
  datatype Meal = Meal(id: int, status: string, category: string, price: string, available: bool)

  /** The payload of `updateMealStatus`: `price` and `available` may be left undefined. */
  datatype MealEdit = MealEdit(id: int, category: string, price: Option<string>, available: Option<bool>)

  /** The predicate `m => m.id === id` handed to `find`. */
  function HasId(id: int): Meal -> bool
  {
    (m: Meal) => m.id == id
  }

  /** The edit applied to the meal that was found. */
  function Edited(m: Meal, e: MealEdit): (r: Meal)
    ensures r.id == m.id && r.status == m.status
    ensures r.category == if Truthy(e.category) then e.category else m.category
    ensures r.price == if PresentAndTruthy(e.price) then e.price.value else m.price
    ensures r.available == if e.available.Some? then e.available.value else m.available
  {
    m.(category := if Truthy(e.category) then e.category else m.category,
       price := if PresentAndTruthy(e.price) then e.price.value else m.price,
       available := if e.available.Some? then e.available.value else m.available)
  }

  /** The meals list after `updateMealStatus(e)`. */
  function MealUpdated(meals: seq<Meal>, e: MealEdit): (r: seq<Meal>)
    ensures |r| == |meals|
    ensures forall j :: 0 <= j < |meals| ==> r[j].id == meals[j].id && r[j].status == meals[j].status
    ensures forall j :: 0 <= j < |meals| && meals[j].id != e.id ==> r[j] == meals[j]
    ensures forall j :: 0 <= j < |meals| && FirstIndex(meals, HasId(e.id)) != Some(j) ==> r[j] == meals[j]
  {
    match FirstIndex(meals, HasId(e.id))
    case None => meals
    case Some(k) => meals[k := Edited(meals[k], e)]
  }

  /** The slice's state: `state.meals`. */
  class MealStore {
    var meals: seq<Meal>

    /** `initialState`: no meals. */
    constructor ()
      ensures meals == []
    {
      meals := [];
    }

    /** `setMeals`: the payload becomes the whole list. */
    method SetMeals(payload: seq<Meal>)
      modifies this
      ensures meals == payload
    {
      meals := payload;
    }

    /** `updateMealStatus`: find the meal by id and overwrite the fields the payload supplies. */
    method UpdateMealStatus(e: MealEdit)
      modifies this
      ensures meals == MealUpdated(old(meals), e)
    {
      var found := Find(meals, HasId(e.id));
      if found.Some? {
        var k := found.value;
        var meal := meals[k];
        if e.category != "" {
          meal := meal.(category := e.category);
        }
        if e.price.Some? && e.price.value != "" {
          meal := meal.(price := e.price.value);
        }
        if e.available.Some? {
          meal := meal.(available := e.available.value);
        }
        meals := meals[k := meal];
      }
    }
  }

  /** An id that matches no meal leaves the list as it was. */
  lemma UnknownIdUnchanged(meals: seq<Meal>, e: MealEdit)
    requires forall j :: 0 <= j < |meals| ==> meals[j].id != e.id
    ensures MealUpdated(meals, e) == meals
  {
    assert FirstIndex(meals, HasId(e.id)).None?;
  }

  /**
   * With a matching id, only the first matching meal changes: its category when the
   * payload's is non-empty, its price when one is given and non-empty, and its
   * availability whenever one is given, `false` included. Its id and status stay.
   */
  lemma FirstMatchEdited(meals: seq<Meal>, e: MealEdit, k: nat)
    requires k < |meals| && meals[k].id == e.id
    requires forall j :: 0 <= j < k ==> meals[j].id != e.id
    ensures var r := MealUpdated(meals, e);
      |r| == |meals| &&
      r[k] == Meal(e.id, meals[k].status,
                   if e.category != "" then e.category else meals[k].category,
                   if e.price.Some? && e.price.value != "" then e.price.value else meals[k].price,
                   if e.available.Some? then e.available.value else meals[k].available) &&
      forall j :: 0 <= j < |meals| && j != k ==> r[j] == meals[j]
  {
    assert HasId(e.id)(meals[k]);
  }

  /** The list keeps its length; every meal keeps its id and status; other meals are untouched. */
  lemma ShapePreserved(meals: seq<Meal>, e: MealEdit)
    ensures var r := MealUpdated(meals, e);
      |r| == |meals| &&
      (forall j :: 0 <= j < |meals| ==> r[j].id == meals[j].id && r[j].status == meals[j].status) &&
      (forall j :: 0 <= j < |meals| && meals[j].id != e.id ==> r[j] == meals[j])
  {
  }

  /** Dispatching the same `updateMealStatus` action twice has the effect of dispatching it once. */
  lemma MealUpdateIdempotent(meals: seq<Meal>, e: MealEdit)
    ensures var once := MealUpdated(meals, e);
      MealUpdated(once, e) == once
  {
    var once := MealUpdated(meals, e);
    FirstIndexDependsOnVerdicts(meals, once, HasId(e.id));
  }
}
