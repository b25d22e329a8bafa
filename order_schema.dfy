/** `OrderSchema`: who ordered which meals, for when, and where the order stands. */
module OrderSchema {
  import opened Wrappers
  import opened SchemaTypes

  const Refused := "refused"
  const Statuses: set<string> := {"pending", "preparing", "completed", Refused}
  const Times: set<string> := {"morning", "afternoon", "evening"}
  const DefaultStatus := "pending"

  /** One entry of `meals`. */
  datatype MealLine = MealLine(meal: ObjectId, quantity: real)

  /** A stored order. */
  datatype OrderDoc = OrderDoc(client: ObjectId, meals: seq<MealLine>, time: string, status: string,
                               refusedReason: Option<string>, createdAt: Timestamp)

  /** The constraints a stored order satisfies: exactly those under which no validator fails on its fields. */
  predicate Valid(o: OrderDoc): (b: bool)
    ensures b <==> OrderFailures(AsInput(o)) == {}
  {
    var input := AsInput(o);
    assert forall i :: 0 <= i < |input.meals| ==> Required(input.meals[i].meal) && Required(input.meals[i].quantity);
    o.time in Times && o.status in Statuses
  }

  /** The fields given for a new order; any of them may be missing. */
  datatype LineInput = LineInput(meal: Option<ObjectId>, quantity: Option<real>)
  datatype OrderInput = OrderInput(client: Option<ObjectId>, meals: seq<LineInput>, time: Option<string>,
                                   status: Option<string>, refusedReason: Option<string>,
                                   createdAt: Option<Timestamp>)

  /** The paths a validation error can name. */
  datatype OrderPath = ClientPath | TimePath | StatusPath | LineMealPath(line: nat) | LineQuantityPath(line: nat)

  /** Every path whose validator fails. */
  function OrderFailures(input: OrderInput): set<OrderPath>
  {
    (if Required(input.client) then {} else {ClientPath}) +
    (if RequiredString(input.time) && input.time.value in Times then {} else {TimePath}) +
    (if InEnum(input.status, Statuses) then {} else {StatusPath}) +
    (set i | 0 <= i < |input.meals| && !Required(input.meals[i].meal) :: LineMealPath(i)) +
    (set i | 0 <= i < |input.meals| && !Required(input.meals[i].quantity) :: LineQuantityPath(i))
  }

  /** Creating and validating a new order document at time `now`. */
  function CreateOrder(input: OrderInput, now: Timestamp): (r: Result<OrderDoc, set<OrderPath>>)
    ensures r.Success? <==>
      Required(input.client) && RequiredString(input.time) && input.time.value in Times &&
      InEnum(input.status, Statuses) &&
      forall i :: 0 <= i < |input.meals| ==> Required(input.meals[i].meal) && Required(input.meals[i].quantity)
    ensures r.Success? ==> Valid(r.value)
    ensures r.Success? ==>
      r.value.client == input.client.value && r.value.time == input.time.value &&
      |r.value.meals| == |input.meals| &&
      (forall i :: 0 <= i < |input.meals| ==>
         r.value.meals[i] == MealLine(input.meals[i].meal.value, input.meals[i].quantity.value)) &&
      r.value.status == WithDefault(input.status, DefaultStatus) &&
      r.value.refusedReason == input.refusedReason &&
      r.value.createdAt == WithDefault(input.createdAt, now)
    ensures r.Failure? ==> r.error != {}
    ensures r.Failure? ==> (ClientPath in r.error <==> !Required(input.client))
    ensures r.Failure? ==> (TimePath in r.error <==> !(RequiredString(input.time) && input.time.value in Times))
    ensures r.Failure? ==> (StatusPath in r.error <==> !InEnum(input.status, Statuses))
    ensures r.Failure? ==> forall p :: p in r.error && (p.LineMealPath? || p.LineQuantityPath?) ==>
      p.line < |input.meals|
    ensures r.Failure? ==> forall i :: 0 <= i < |input.meals| ==>
      (LineMealPath(i) in r.error <==> !Required(input.meals[i].meal)) &&
      (LineQuantityPath(i) in r.error <==> !Required(input.meals[i].quantity))
  {
    var failures := OrderFailures(input);
    if failures != {} then Failure(failures)
    else
      assert forall i :: 0 <= i < |input.meals| ==> LineMealPath(i) !in failures && LineQuantityPath(i) !in failures;
      Success(OrderDoc(input.client.value,
                       seq(|input.meals|, i requires 0 <= i < |input.meals| =>
                           MealLine(input.meals[i].meal.value, input.meals[i].quantity.value)),
                       input.time.value, WithDefault(input.status, DefaultStatus),
                       input.refusedReason, WithDefault(input.createdAt, now)))
  }

  /** Every field of a stored order, given explicitly. */
  function AsInput(o: OrderDoc): OrderInput
  {
    OrderInput(Some(o.client), seq(|o.meals|, i requires 0 <= i < |o.meals| =>
                                   LineInput(Some(o.meals[i].meal), Some(o.meals[i].quantity))),
               Some(o.time), Some(o.status), o.refusedReason, Some(o.createdAt))
  }

  /** A valid order, given back with all its fields, is accepted unchanged: the schema admits exactly the valid orders. */
  lemma ValidRoundTrip(o: OrderDoc, now: Timestamp)
    requires Valid(o)
    ensures CreateOrder(AsInput(o), now) == Success(o)
  {
    var r := CreateOrder(AsInput(o), now);
    assert r.Success?;
    assert r.value.meals == o.meals;
  }

  /** An order created with only its required fields starts `pending`, with no refusal reason, stamped `now`. */
  lemma NewOrderDefaults(client: ObjectId, time: string, now: Timestamp)
    requires time in Times
    ensures CreateOrder(OrderInput(Some(client), [], Some(time), None, None, None), now)
         == Success(OrderDoc(client, [], time, "pending", None, now))
  {
  }
}
