/** `feedbackSchema`: a user's star rating and comment on a meal. */
module FeedbackSchema {
  import opened Wrappers
  import opened SchemaTypes

  const MinStars: real := 1.0
  const MaxStars: real := 5.0

  /** A stored feedback. */
  datatype FeedbackDoc = FeedbackDoc(user: ObjectId, meal: ObjectId, stars: real, feedback: string, date: Timestamp)

  /** `Number.isInteger` on a finite number. */
  predicate IsInteger(x: real)
  {
    x.Floor as real == x
  }

  /** The constraints a stored feedback satisfies: exactly those under which no validator fails on its fields. */
  predicate Valid(f: FeedbackDoc): (b: bool)
    ensures b <==> FeedbackFailures(AsInput(f)) == {}
  {
    MinStars <= f.stars <= MaxStars && IsInteger(f.stars) && f.feedback != ""
  }

  /** The fields given for a new feedback; any of them may be missing. */
  datatype FeedbackInput = FeedbackInput(user: Option<ObjectId>, meal: Option<ObjectId>, stars: Option<real>,
                                         feedback: Option<string>, date: Option<Timestamp>)

  datatype FeedbackPath = UserPath | MealPath | StarsPath | TextPath

  /** `stars`: required, then `min`, `max` and the integer validator. */
  predicate StarsOk(v: Option<real>)
  {
    Required(v) && MinStars <= v.value <= MaxStars && IsInteger(v.value)
  }

  function FeedbackFailures(input: FeedbackInput): set<FeedbackPath>
  {
    (if Required(input.user) then {} else {UserPath}) +
    (if Required(input.meal) then {} else {MealPath}) +
    (if StarsOk(input.stars) then {} else {StarsPath}) +
    (if RequiredString(input.feedback) then {} else {TextPath})
  }

  /** Creating and validating a new feedback document at time `now`. */
  function CreateFeedback(input: FeedbackInput, now: Timestamp): (r: Result<FeedbackDoc, set<FeedbackPath>>)
    ensures r.Success? <==>
      Required(input.user) && Required(input.meal) && StarsOk(input.stars) && RequiredString(input.feedback)
    ensures r.Success? ==> Valid(r.value)
    ensures r.Success? ==>
      r.value == FeedbackDoc(input.user.value, input.meal.value, input.stars.value, input.feedback.value,
                             WithDefault(input.date, now))
    ensures r.Failure? ==>
      (UserPath in r.error <==> !Required(input.user)) &&
      (MealPath in r.error <==> !Required(input.meal)) &&
      (StarsPath in r.error <==> !StarsOk(input.stars)) &&
      (TextPath in r.error <==> !RequiredString(input.feedback))
  {
    var failures := FeedbackFailures(input);
    if failures != {} then Failure(failures)
    else Success(FeedbackDoc(input.user.value, input.meal.value, input.stars.value, input.feedback.value,
                             WithDefault(input.date, now)))
  }

  function AsInput(f: FeedbackDoc): FeedbackInput
  {
    FeedbackInput(Some(f.user), Some(f.meal), Some(f.stars), Some(f.feedback), Some(f.date))
  }

  /** A valid feedback, given back with all its fields, is accepted unchanged. */
  lemma ValidRoundTrip(f: FeedbackDoc, now: Timestamp)
    requires Valid(f)
    ensures CreateFeedback(AsInput(f), now) == Success(f)
  {
  }

  /** The stars of a valid feedback are one of the five whole numbers 1 to 5. */
  lemma StarsAreWholeOneToFive(f: FeedbackDoc)
    requires Valid(f)
    ensures f.stars.Floor in {1, 2, 3, 4, 5} && f.stars == f.stars.Floor as real
  {
    var n := f.stars.Floor;
    assert 1 <= n <= 5 by {
      assert n as real == f.stars;
    }
  }

  /** A fractional rating inside the range (2.5, say) is still rejected, and only on `stars`. */
  lemma FractionalStarsRejected(user: ObjectId, meal: ObjectId, x: real, text: string, date: Option<Timestamp>,
                                now: Timestamp)
    requires MinStars <= x <= MaxStars && !IsInteger(x) && text != ""
    ensures CreateFeedback(FeedbackInput(Some(user), Some(meal), Some(x), Some(text), date), now)
         == Failure({StarsPath})
  {
    var input := FeedbackInput(Some(user), Some(meal), Some(x), Some(text), date);
    assert !StarsOk(input.stars);
    assert FeedbackFailures(input) == {StarsPath};
  }

  /** Without a date, the feedback is stamped `now`. */
  lemma DateDefaultsToNow(user: ObjectId, meal: ObjectId, stars: real, text: string, now: Timestamp)
    requires StarsOk(Some(stars)) && text != ""
    ensures CreateFeedback(FeedbackInput(Some(user), Some(meal), Some(stars), Some(text), None), now).value.date == now
  {
  }
}
