/**
 * The tour document: its validators, the query hooks that hide secret tours and populate the
 * guides, and the aggregation hook that filters secret tours out of every pipeline.
 */
module TourModel {
  import opened Wrappers
  import opened Text
  import opened Http
  import opened MongoQuery
  import opened AppErrors
  import opened UserModel

  const Difficulties: seq<string> := ["easy", "medium", "difficult"]
  const DefaultRatingsAverage: real := 4.5
  const NameMaxLength := 40
  const NameMinLength := 10

  /** A stored tour, with the fields the model reads or writes. */
  datatype Tour = Tour(
    id: Id,
    name: string,
    price: int,
    ratingsAverage: Option<real>,
    ratingsQuantity: real,
    secretTour: Option<bool>,
    guides: seq<Id>)

  /** The body of a tour creation, before defaults: every field may be missing. */
  datatype TourInput = TourInput(
    name: Option<string>,
    duration: Option<int>,
    maxGroupSize: Option<int>,
    difficulty: Option<string>,
    ratingsAverage: Option<real>,
    price: Option<int>,
    priceDiscount: Option<int>,
    summary: Option<string>,
    imageCover: Option<string>,
    secretTour: Option<bool>)

  /** The white space `String.prototype.trim` removes, as far as this model knows it. */
  predicate IsTrimmed(c: char) {
    c in {' ', '\t', '\n', '\r', '\U{000B}', '\U{000C}', '\U{00A0}', '\U{FEFF}', '\U{2028}', '\U{2029}'}
  }

  /** Drops the leading white space: what is removed is all white space, and what stays starts with none. */
  function TrimStart(s: string): (r: string)
    ensures |r| <= |s| && r == s[|s| - |r|..]
    ensures forall k :: 0 <= k < |s| - |r| ==> IsTrimmed(s[k])
    ensures r == [] || !IsTrimmed(r[0])
  {
    if s != [] && IsTrimmed(s[0]) then
      var t := s[1..];
      assert forall j :: 0 <= j < |t| ==> t[j] == s[j + 1];
      TrimStart(t)
    else s
  }

  /** Drops the trailing white space: what is removed is all white space, and what stays ends with none. */
  function TrimEnd(s: string): (r: string)
    ensures |r| <= |s| && r == s[..|r|]
    ensures forall k :: |r| <= k < |s| ==> IsTrimmed(s[k])
    ensures r == [] || !IsTrimmed(r[|r| - 1])
  {
    if s != [] && IsTrimmed(s[|s| - 1]) then TrimEnd(s[..|s| - 1]) else s
  }

  /**
   * The `trim: true` setter: the result is a slice of the text with only white space around it,
   * and it neither starts nor ends with white space.
   */
  function Trim(s: string): (r: string)
    ensures exists a, b :: (0 <= a <= b <= |s| && r == s[a..b] &&
                            (forall k :: 0 <= k < a ==> IsTrimmed(s[k])) &&
                            (forall k :: b <= k < |s| ==> IsTrimmed(s[k])))
    ensures r == [] || (!IsTrimmed(r[0]) && !IsTrimmed(r[|r| - 1]))
  {
    var t := TrimStart(s);
    var r := TrimEnd(t);
    var a := |s| - |t|;
    assert r == s[a..a + |r|] && t == s[a..];
    r
  }

  /** A required string after trimming: absent or empty fails. */
  function RequiredText(path: string, value: Option<string>, message: string): (r: Option<FieldError>)
    ensures r.None? <==> value.Some? && Trim(value.value) != ""
  {
    if value.None? || Trim(value.value) == "" then Some(FieldError(path, message)) else None
  }

  function RequiredNumber(path: string, value: Option<int>, message: string): (r: Option<FieldError>)
    ensures r.None? <==> value.Some?
  {
    if value.None? then Some(FieldError(path, message)) else None
  }

  /** `name`: required, then at most 40, then at least 10 characters, all after trimming. */
  function NameError(name: Option<string>): (r: Option<FieldError>)
    ensures r.None? <==> name.Some? && NameMinLength <= |Trim(name.value)| <= NameMaxLength
  {
    match name
    case None => RequiredText("name", name, "A tour must have a name")
    case Some(n) =>
      var t := Trim(n);
      if t == "" then RequiredText("name", name, "A tour must have a name")
      else if |t| > NameMaxLength then Some(FieldError("name", "A tour must have a length less than or equals 40 charachters"))
      else if |t| < NameMinLength then Some(FieldError("name", "A tour must have a length more than or equals 10 charachters"))
      else None
  }

  function DifficultyError(difficulty: Option<string>): (r: Option<FieldError>)
    ensures r.None? <==> difficulty.Some? && difficulty.value in Difficulties
  {
    match difficulty
    case None => Some(FieldError("difficulty", "A tour must have a difficulty"))
    case Some(d) =>
      if d == "" then Some(FieldError("difficulty", "A tour must have a difficulty"))
      else if d !in Difficulties then Some(FieldError("difficulty", "Difficulty has to be easy, medium or difficult"))
      else None
  }

  /** `ratingsAverage`, after its default of 4.5: at least 1, then at most 5. */
  function RatingsAverageError(ratingsAverage: Option<real>): (r: Option<FieldError>)
    ensures r.None? <==> 1.0 <= ratingsAverage.GetOr(DefaultRatingsAverage) <= 5.0
  {
    var v := ratingsAverage.GetOr(DefaultRatingsAverage);
    if v < 1.0 then Some(FieldError("ratingsAverage", "Rating must be above or equal 1.0"))
    else if v > 5.0 then Some(FieldError("ratingsAverage", "Rating must be below or equal 5.0"))
    else None
  }

  /** `priceDiscount < this.price`; with no price the comparison is false. */
  function PriceDiscountError(discount: Option<int>, price: Option<int>): (r: Option<FieldError>)
    ensures r.None? <==> discount.None? || (price.Some? && discount.value < price.value)
  {
    match discount
    case None => None
    case Some(d) =>
      if price.Some? && d < price.value then None
      else Some(FieldError("priceDiscount", "The price discount (" + DecimalText(d) + ") has to be less than the price"))
  }

  /** The failing validators of a new tour, listed in the order the schema declares the paths. */
  function TourErrors(t: TourInput): seq<FieldError> {
    Present(NameError(t.name))
    + Present(RequiredNumber("duration", t.duration, "A tour must have a duration"))
    + Present(RequiredNumber("maxGroupSize", t.maxGroupSize, "A tour must have a maximum group size"))
    + Present(DifficultyError(t.difficulty))
    + Present(RatingsAverageError(t.ratingsAverage))
    + Present(RequiredNumber("price", t.price, "A tour must have a price"))
    + Present(PriceDiscountError(t.priceDiscount, t.price))
    + Present(RequiredText("summary", t.summary, "A tour must have a summary"))
    + Present(RequiredError("imageCover", t.imageCover, "A tour must have a cover image"))
  }

  /**
   * A new tour is accepted exactly when its trimmed name has 10 to 40 characters, its
   * difficulty is in the enum, its (defaulted) rating lies in [1, 5], its discount is below
   * its price, duration, group size and price are given, its trimmed summary is not empty, and
   * its cover image, which is not trimmed, is not empty.
   */
  lemma TourValidIff(t: TourInput)
    ensures TourErrors(t) == [] <==> (
      t.name.Some? && NameMinLength <= |Trim(t.name.value)| <= NameMaxLength &&
      t.duration.Some? && t.maxGroupSize.Some? &&
      t.difficulty.Some? && t.difficulty.value in Difficulties &&
      1.0 <= t.ratingsAverage.GetOr(DefaultRatingsAverage) <= 5.0 &&
      t.price.Some? && (t.priceDiscount.None? || t.priceDiscount.value < t.price.value) &&
      t.summary.Some? && Trim(t.summary.value) != "" &&
      t.imageCover.Some? && t.imageCover.value != "")
  {
  }

  /** The `secretTour` field as stored (absent in tours written before it existed). */
  function SecretField(t: Tour): Option<Value> {
    match t.secretTour
    case None => None
    case Some(b) => Some(Bool(b))
  }

  /** The value a stored tour holds at each path a query condition can name. */
  function TourField(t: Tour): string -> Option<Value> {
    (path: string) =>
      if path == "_id" then Some(Oid(t.id))
      else if path == "name" then Some(Str(t.name))
      else if path == "price" then Some(Num(t.price))
      else if path == "secretTour" then SecretField(t)
      else None
  }

  /** The condition the pre-find hook adds to every find on tours. */
  const SecretFilter: Directive := FindNe("secretTour", Bool(true))

  /** The pre-find hook on tours. */
  function PreFindSecret(q: Query): (r: Query)
    ensures |r| == |q| + 1 && r[..|q|] == q && r[|q|] == SecretFilter
  {
    q + [SecretFilter]
  }

  /** A hooked query admits exactly the tours the query admitted that are not secret. */
  lemma PreFindSecretAdmits(q: Query, t: Tour)
    ensures NeAdmits(PreFindSecret(q), TourField(t)) <==> NeAdmits(q, TourField(t)) && t.secretTour != Some(true)
  {
    NeAdmitsAppend(q, "secretTour", Bool(true), TourField(t));
  }

  /** Whether a stored tour is admitted by a hooked find that carries no other `$ne` condition. */
  predicate Visible(t: Tour) {
    NeAdmits(PreFindSecret([]), TourField(t))
  }

  /** Finds hide exactly the secret tours; a tour without the field is found. */
  lemma VisibleIffNotSecret(t: Tour)
    ensures Visible(t) <==> t.secretTour != Some(true)
    ensures t.secretTour == None ==> Visible(t)
  {
    PreFindSecretAdmits([], t);
  }

  /**
   * The second pre-find hook: populate the guides unless a projection was applied that does
   * not ask for them.
   */
  function PopulateGuides(q: Query): (r: Query)
    ensures r == q || r == q + [Populate("guides")]
    ensures r == q + [Populate("guides")] <==> !Selected(q) || UserSelected(q, "guides")
  {
    if !Selected(q) || UserSelected(q, "guides") then q + [Populate("guides")] else q
  }

  /** The stages of an aggregation pipeline the model tells apart. */
  datatype Stage =
    | GeoNear(lng: string, lat: string, distanceField: string, multiplier: real)
    | MatchNe(path: string, value: Value)
    | Project(fields: seq<string>)
    | Other(name: string)

  const SecretMatch: Stage := MatchNe("secretTour", Bool(true))

  /** The pipeline the aggregation hook leaves behind, for a non-empty pipeline. */
  function WithSecretMatch(pipeline: seq<Stage>): seq<Stage>
    requires pipeline != []
  {
    if pipeline[0].GeoNear? then pipeline else [SecretMatch] + pipeline
  }

  /**
   * The hook keeps every original stage in order, adds at most one stage, never displaces a
   * leading `$geoNear`, and otherwise starts the pipeline with the secret-tour match.
   */
  lemma WithSecretMatchShape(pipeline: seq<Stage>)
    requires pipeline != []
    ensures var r := WithSecretMatch(pipeline);
      r[|r| - |pipeline|..] == pipeline && |r| - |pipeline| <= 1 &&
      (pipeline[0].GeoNear? <==> r == pipeline) &&
      (!pipeline[0].GeoNear? <==> r[0] == SecretMatch && |r| == |pipeline| + 1) &&
      r[0].GeoNear? == pipeline[0].GeoNear?
  {
  }

  /** An aggregation whose pipeline the pre-aggregate hook changes in place. */
  class Aggregate {
    var pipeline: seq<Stage>

    constructor (pipeline: seq<Stage>)
      ensures this.pipeline == pipeline
    {
      this.pipeline := pipeline;
    }

    /** The pre-aggregate hook; reading the first stage of an empty pipeline throws. */
    method PreAggregate(trace: string) returns (failure: Option<ErrorValue>)
      modifies this
      ensures old(pipeline) == [] ==> failure.Some? && failure.value.name == "TypeError" && pipeline == old(pipeline)
      ensures old(pipeline) != [] ==> failure.None? && pipeline == WithSecretMatch(old(pipeline))
    {
      if pipeline == [] {
        return Some(LibraryError("TypeError", "Cannot read property '$geoNear' of undefined", trace));
      }
      if !pipeline[0].GeoNear? {
        pipeline := [SecretMatch] + pipeline;
      }
      failure := None;
    }
  }
}
