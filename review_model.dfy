/**
 * Reviews: their validators, the one-review-per-user-and-tour index, and the recomputation of
 * a tour's rating statistics after a review is saved, updated or deleted.
 */
module ReviewModel {
  import opened Wrappers
  import opened Text
  import opened Http
  import opened AppErrors
  import opened UserModel
  import opened TourModel

  datatype Review = Review(id: Id, tour: Id, user: Id, rating: Option<real>, review: string, createdAt: int)

  /** The two collections a review write touches. */
  datatype Stores = Stores(reviews: seq<Review>, tours: map<Id, Tour>)

  /** A rating within the bounds the schema enforces, or no rating. */
  predicate RatingInRange(r: Review) {
    r.rating.None? || 0.0 <= r.rating.value <= 5.0
  }

  predicate AllRatingsInRange(reviews: seq<Review>) {
    forall i :: 0 <= i < |reviews| ==> RatingInRange(reviews[i])
  }

  /** The unique index on (user, tour). */
  predicate UniquePairs(reviews: seq<Review>) {
    forall i, j :: 0 <= i < j < |reviews| ==> reviews[i].user != reviews[j].user || reviews[i].tour != reviews[j].tour
  }

  /** `$match: { tour: id }`: the reviews of one tour, in stored order. */
  function OfTour(reviews: seq<Review>, id: Id): (r: seq<Review>)
    ensures |r| <= |reviews|
    ensures forall x :: multiset(r)[x] == if x.tour == id then multiset(reviews)[x] else 0
  {
    if reviews == [] then []
    else
      assert reviews == [reviews[0]] + reviews[1..];
      (if reviews[0].tour == id then [reviews[0]] else []) + OfTour(reviews[1..], id)
  }

  /** The sum of the ratings that are present: `$avg` skips missing values. */
  function RatedSum(rs: seq<Review>): real {
    if rs == [] then 0.0 else (if rs[0].rating.Some? then rs[0].rating.value else 0.0) + RatedSum(rs[1..])
  }

  function RatedCount(rs: seq<Review>): (n: nat)
    ensures n <= |rs|
  {
    if rs == [] then 0 else (if rs[0].rating.Some? then 1 else 0) + RatedCount(rs[1..])
  }

  /** The `$group` result for one tour: none without reviews; the count and the average (null when no rating is present). */
  datatype Stats = Stats(nRatings: nat, avgRating: Option<real>)

  function GroupStats(reviews: seq<Review>, id: Id): (r: Option<Stats>)
    ensures r.None? <==> forall i :: 0 <= i < |reviews| ==> reviews[i].tour != id
    ensures r.Some? ==> r.value.nRatings == |OfTour(reviews, id)| && r.value.nRatings > 0
    ensures r.Some? ==> (r.value.avgRating.None? <==> RatedCount(OfTour(reviews, id)) == 0)
  {
    var rs := OfTour(reviews, id);
    if rs == [] then
      assert forall i :: 0 <= i < |reviews| ==> reviews[i].tour != id by {
        forall i | 0 <= i < |reviews| ensures reviews[i].tour != id {
          assert reviews[i] in multiset(reviews);
        }
      }
      None
    else
      assert rs[0] in multiset(rs);
      var n := RatedCount(rs);
      Some(Stats(|rs|, if n == 0 then None else Some(RatedSum(rs) / (n as real))))
  }

  lemma {:induction false} RatedSumBounds(rs: seq<Review>)
    requires AllRatingsInRange(rs)
    ensures 0.0 <= RatedSum(rs) <= 5.0 * (RatedCount(rs) as real)
    decreases |rs|
  {
    if rs != [] {
      assert AllRatingsInRange(rs[1..]) by {
        forall i | 0 <= i < |rs[1..]| ensures RatingInRange(rs[1..][i]) { assert rs[1..][i] == rs[i + 1]; }
      }
      RatedSumBounds(rs[1..]);
    }
  }

  lemma OfTourKeepsRange(reviews: seq<Review>, id: Id)
    requires AllRatingsInRange(reviews)
    ensures AllRatingsInRange(OfTour(reviews, id))
  {
    var rs := OfTour(reviews, id);
    forall i | 0 <= i < |rs| ensures RatingInRange(rs[i]) {
      assert rs[i] in multiset(rs);
      assert rs[i] in multiset(reviews);
    }
  }

  /** With every stored rating in [0, 5], the recomputed average lies in [0, 5]. */
  lemma AverageInRange(reviews: seq<Review>, id: Id)
    requires AllRatingsInRange(reviews)
    ensures var s := GroupStats(reviews, id);
      s.Some? && s.value.avgRating.Some? ==> 0.0 <= s.value.avgRating.value <= 5.0
  {
    var rs := OfTour(reviews, id);
    OfTourKeepsRange(reviews, id);
    RatedSumBounds(rs);
    var n := RatedCount(rs);
    if n > 0 {
      MeanBounds(RatedSum(rs), n);
    }
  }

  lemma MeanBounds(sum: real, n: nat)
    requires n > 0 && 0.0 <= sum <= 5.0 * (n as real)
    ensures 0.0 <= sum / (n as real) <= 5.0
  {
    var m := sum / (n as real);
    assert m * (n as real) == sum;
  }

  /** `Math.round(val * 10) / 10`: the nearest tenth, halves rounded up. */
  function RoundTenth(x: real): real {
    ((x * 10.0 + 0.5).Floor as real) / 10.0
  }

  /** Rounding to a tenth moves a value by at most 0.05, keeps [0, 5], and leaves whole numbers alone. */
  lemma RoundTenthProperties(x: real)
    ensures x - 0.05 < RoundTenth(x) <= x + 0.05
    ensures 0.0 <= x <= 5.0 ==> 0.0 <= RoundTenth(x) <= 5.0
    ensures x == x.Floor as real ==> RoundTenth(x) == x
  {
    var y := x * 10.0 + 0.5;
    assert y - 1.0 < y.Floor as real <= y;
    if 0.0 <= x <= 5.0 {
      assert 0 <= y.Floor <= 50;
    }
    if x == x.Floor as real {
      assert y.Floor == 10 * x.Floor;
    }
  }

  /** `Tour.findByIdAndUpdate(id, update)`: the find hook applies, so only a visible tour with that id changes. */
  function UpdateTour(tours: map<Id, Tour>, id: Id, quantity: real, average: Option<real>): (r: map<Id, Tour>)
    ensures r.Keys == tours.Keys
    ensures forall k :: k in tours && k != id ==> r[k] == tours[k]
    ensures id in tours && Visible(tours[id]) ==>
      r[id] == tours[id].(ratingsQuantity := quantity, ratingsAverage := average)
    ensures !(id in tours && Visible(tours[id])) ==> r == tours
  {
    if id in tours && Visible(tours[id]) then tours[id := tours[id].(ratingsQuantity := quantity, ratingsAverage := average)]
    else tours
  }

  /** The statistics written for a tour: the group result, or 0 and 4.5 when it has no review. */
  function RatingsFor(reviews: seq<Review>, id: Id): (real, Option<real>) {
    match GroupStats(reviews, id)
    case None => (0.0, Some(DefaultRatingsAverage))
    case Some(s) => (s.nRatings as real, s.avgRating)
  }

  /**
   * `calcAverageRatings(id)` as written: the one-decimal rounding setter sits on
   * `ratingsQuantity`, where it never changes a count, so the average is stored unrounded.
   */
  function CalcAverageRatingsAsWritten(reviews: seq<Review>, tours: map<Id, Tour>, id: Id): (r: map<Id, Tour>)
    ensures r.Keys == tours.Keys && forall k :: k in tours && k != id ==> r[k] == tours[k]
  {
    var (quantity, average) := RatingsFor(reviews, id);
    UpdateTour(tours, id, RoundTenth(quantity), average)
  }

  /** `calcAverageRatings(id)` with the rounding setter on `ratingsAverage`, where its comment places it. */
  function CalcAverageRatings(reviews: seq<Review>, tours: map<Id, Tour>, id: Id): (r: map<Id, Tour>)
    ensures r.Keys == tours.Keys && forall k :: k in tours && k != id ==> r[k] == tours[k]
    ensures !(id in tours && Visible(tours[id])) ==> r == tours
  {
    var (quantity, average) := RatingsFor(reviews, id);
    UpdateTour(tours, id, quantity, if average.Some? then Some(RoundTenth(average.value)) else None)
  }

  /**
   * The statistics of a visible tour after recomputation: with no review, quantity 0 and
   * average 4.5; otherwise the number of its reviews and their mean rating to a tenth, which
   * lies in [0, 5] while every stored rating does. Nothing else changes.
   */
  lemma CalcAverageRatingsMeaning(reviews: seq<Review>, tours: map<Id, Tour>, id: Id)
    requires id in tours && Visible(tours[id])
    ensures var r := CalcAverageRatings(reviews, tours, id);
      ((forall i :: 0 <= i < |reviews| ==> reviews[i].tour != id) ==>
        r[id] == tours[id].(ratingsQuantity := 0.0, ratingsAverage := Some(4.5))) &&
      ((exists i :: 0 <= i < |reviews| && reviews[i].tour == id) ==>
        r[id].ratingsQuantity == |OfTour(reviews, id)| as real &&
        (RatedCount(OfTour(reviews, id)) == 0 ==> r[id].ratingsAverage == None) &&
        (RatedCount(OfTour(reviews, id)) > 0 ==>
          r[id].ratingsAverage == Some(RoundTenth(RatedSum(OfTour(reviews, id)) / (RatedCount(OfTour(reviews, id)) as real))))) &&
      (AllRatingsInRange(reviews) && r[id].ratingsAverage.Some? ==> 0.0 <= r[id].ratingsAverage.value <= 5.0)
  {
    var r := CalcAverageRatings(reviews, tours, id);
    if AllRatingsInRange(reviews) && r[id].ratingsAverage.Some? {
      AverageInRange(reviews, id);
      var s := GroupStats(reviews, id);
      if s.Some? && s.value.avgRating.Some? {
        RoundTenthProperties(s.value.avgRating.value);
      }
    }
  }

  /** Three reviews of one tour, rated 5, 5 and 4. */
  function ThreeRatings(tour: Id): seq<Review> {
    [Review("r1", tour, "u1", Some(5.0), "great", 0),
     Review("r2", tour, "u2", Some(5.0), "great", 0),
     Review("r3", tour, "u3", Some(4.0), "good", 0)]
  }

  /** A sequence made only of one tour's reviews is its own match. */
  lemma {:induction false} OfTourOfOwnReviews(rs: seq<Review>, id: Id)
    requires forall i :: 0 <= i < |rs| ==> rs[i].tour == id
    ensures OfTour(rs, id) == rs
    decreases |rs|
  {
    if rs != [] {
      OfTourOfOwnReviews(rs[1..], id);
      assert [rs[0]] + rs[1..] == rs;
    }
  }

  lemma ThreeRatingsSums(tour: Id)
    ensures RatedSum(ThreeRatings(tour)) == 14.0 && RatedCount(ThreeRatings(tour)) == 3
  {
    var reviews := ThreeRatings(tour);
    var last := reviews[1..][1..];
    assert last == [reviews[2]] && last[1..] == [];
    assert RatedSum(last) == 4.0 && RatedCount(last) == 1;
    assert RatedSum(reviews[1..]) == 9.0 && RatedCount(reviews[1..]) == 2;
  }

  lemma ThreeRatingsStats(tour: Id)
    ensures GroupStats(ThreeRatings(tour), tour) == Some(Stats(3, Some(14.0 / 3.0)))
  {
    OfTourOfOwnReviews(ThreeRatings(tour), tour);
    ThreeRatingsSums(tour);
  }

  lemma RoundFourteenThirds()
    ensures RoundTenth(14.0 / 3.0) == 4.7
  {
    var y := 14.0 / 3.0 * 10.0 + 0.5;
    assert 47.0 <= y < 48.0;
    assert y.Floor == 47;
  }

  /** As written, three ratings 5, 5 and 4 leave the tour's average at 14/3 instead of 4.7. */
  lemma UnroundedAverageAsWritten(t: Tour)
    requires Visible(t)
    ensures CalcAverageRatingsAsWritten(ThreeRatings(t.id), map[t.id := t], t.id)[t.id].ratingsAverage == Some(14.0 / 3.0)
    ensures CalcAverageRatings(ThreeRatings(t.id), map[t.id := t], t.id)[t.id].ratingsAverage == Some(4.7)
  {
    ThreeRatingsStats(t.id);
    RoundFourteenThirds();
  }

  /** The fields of a review creation body, after `setTourAndUserIds`. */
  datatype ReviewInput = ReviewInput(tour: Value, user: Value, rating: Option<real>, review: Option<string>, createdAt: Option<int>)

  /** An id as the ObjectId path receives it; anything else is missing. */
  function IdOf(v: Value): Option<Id> {
    match v
    case Oid(i) => Some(i)
    case Str(s) => if s != "" then Some(s) else None
    case _ => None
  }

  function RatingError(rating: Option<real>): (r: Option<FieldError>)
    ensures r.None? <==> rating.None? || 0.0 <= rating.value <= 5.0
  {
    match rating
    case None => None
    case Some(v) =>
      if v < 0.0 then Some(FieldError("rating", "Rating min value is 0"))
      else if v > 5.0 then Some(FieldError("rating", "Rating max value is 5"))
      else None
  }

  /** The failing validators of a new review, listed in the order the schema declares the paths. */
  function ReviewErrors(input: ReviewInput): (r: seq<FieldError>)
    ensures r == [] <==> (input.review.Some? && Trim(input.review.value) != "" &&
      (input.rating.None? || 0.0 <= input.rating.value <= 5.0) &&
      IdOf(input.tour).Some? && IdOf(input.user).Some?)
  {
    Present(RequiredText("review", input.review, "Review text cannot be empty"))
    + Present(RatingError(input.rating))
    + (if IdOf(input.tour).None? then [FieldError("tour", "Review must belong to a specified tour.")] else [])
    + (if IdOf(input.user).None? then [FieldError("user", "Review must belong to a specified user.")] else [])
  }

  function ReviewValidationError(errors: seq<FieldError>, trace: string): ErrorValue {
    ValidationError("Review validation failed: " + PathMessages(errors), FieldMessages(errors), trace)
  }

  /** Whether a review by this user for this tour is already stored. */
  predicate Taken(reviews: seq<Review>, user: Id, tour: Id) {
    exists i :: 0 <= i < |reviews| && reviews[i].user == user && reviews[i].tour == tour
  }

  /**
   * The `createdAt` default as written: `Date.now()` is evaluated once, when the schema is
   * defined at `loadedAt`, so every review created afterwards gets that same time.
   */
  function DefaultCreatedAtAsWritten(loadedAt: int, now: int): (t: int)
    ensures t == loadedAt
  {
    loadedAt
  }

  /** As written, two reviews created at different times get the same creation time. */
  lemma CreatedAtIgnoresCreationTime(loadedAt: int, first: int, second: int)
    requires loadedAt < first < second
    ensures DefaultCreatedAtAsWritten(loadedAt, first) == DefaultCreatedAtAsWritten(loadedAt, second)
    ensures DefaultCreatedAtAsWritten(loadedAt, second) != second
  {
  }

  /** The default evaluated per document (`default: Date.now`): the time of creation. */
  function DefaultCreatedAt(loadedAt: int, now: int): (t: int)
    ensures t == now
  {
    now
  }

  /** Appending a review whose pair is free and whose rating is in range keeps both store invariants. */
  lemma AppendKeepsInvariants(reviews: seq<Review>, added: Review)
    requires !Taken(reviews, added.user, added.tour)
    ensures UniquePairs(reviews) ==> UniquePairs(reviews + [added])
    ensures AllRatingsInRange(reviews) && RatingInRange(added) ==> AllRatingsInRange(reviews + [added])
  {
    var all := reviews + [added];
    assert forall j :: 0 <= j < |reviews| ==> all[j] == reviews[j];
  }

  /** `Review.create(body)`: validators, then the unique index, then the post-save recomputation. */
  function CreateReview(st: Stores, input: ReviewInput, id: Id, loadedAt: int, now: int, duplicateMessage: string,
                        trace: string): (r: Result<Stores, ErrorValue>)
    ensures ReviewErrors(input) != [] ==> r == Failure(ReviewValidationError(ReviewErrors(input), trace))
    ensures ReviewErrors(input) == [] && Taken(st.reviews, IdOf(input.user).value, IdOf(input.tour).value) ==>
      r == Failure(DuplicateKeyError(duplicateMessage, trace))
    ensures ReviewErrors(input) == [] && !Taken(st.reviews, IdOf(input.user).value, IdOf(input.tour).value) ==> r.Success?
    ensures r.Success? ==>
      var added := Review(id, IdOf(input.tour).value, IdOf(input.user).value, input.rating, Trim(input.review.value),
                          input.createdAt.GetOr(DefaultCreatedAt(loadedAt, now)));
      r.value.reviews == st.reviews + [added] &&
      r.value.tours == CalcAverageRatings(r.value.reviews, st.tours, added.tour)
  {
    var errors := ReviewErrors(input);
    if errors != [] then Failure(ReviewValidationError(errors, trace))
    else
      var tour, user := IdOf(input.tour).value, IdOf(input.user).value;
      if Taken(st.reviews, user, tour) then Failure(DuplicateKeyError(duplicateMessage, trace))
      else
        var added := Review(id, tour, user, input.rating, Trim(input.review.value), input.createdAt.GetOr(DefaultCreatedAt(loadedAt, now)));
        var reviews := st.reviews + [added];
        Success(Stores(reviews, CalcAverageRatings(reviews, st.tours, tour)))
  }

  /** Creation keeps the (user, tour) pairs unique and every rating in range. */
  lemma CreateReviewKeepsInvariants(st: Stores, input: ReviewInput, id: Id, loadedAt: int, now: int,
                                    duplicateMessage: string, trace: string)
    requires CreateReview(st, input, id, loadedAt, now, duplicateMessage, trace).Success?
    ensures var r := CreateReview(st, input, id, loadedAt, now, duplicateMessage, trace).value.reviews;
      (UniquePairs(st.reviews) ==> UniquePairs(r)) && (AllRatingsInRange(st.reviews) ==> AllRatingsInRange(r))
  {
    var r := CreateReview(st, input, id, loadedAt, now, duplicateMessage, trace).value.reviews;
    var added := r[|r| - 1];
    assert r == st.reviews + [added];
    AppendKeepsInvariants(st.reviews, added);
  }

  /** A review created without an explicit time is stamped with the time of its creation. */
  lemma CreatedAtIsCreationTime(st: Stores, input: ReviewInput, id: Id, loadedAt: int, now: int, duplicateMessage: string,
                                trace: string)
    requires input.createdAt.None?
    requires CreateReview(st, input, id, loadedAt, now, duplicateMessage, trace).Success?
    ensures var r := CreateReview(st, input, id, loadedAt, now, duplicateMessage, trace).value.reviews;
      r[|r| - 1].createdAt == now && r[|r| - 1].id == id
  {
  }

  /**
   * What a findOneAnd query does to the review it finds: delete it, or set the paths the
   * update body names (the others are None).
   */
  datatype ReviewChange =
    | Delete
    | Update(rating: Option<real>, text: Option<string>, tour: Option<Id>, user: Option<Id>)

  /** The review after an update: named paths replaced, the text through the `trim` setter. */
  function Changed(r: Review, change: ReviewChange): Review
    requires change.Update?
  {
    r.(rating := if change.rating.Some? then change.rating else r.rating,
       review := if change.text.Some? then Trim(change.text.value) else r.review,
       tour := change.tour.GetOr(r.tour),
       user := change.user.GetOr(r.user))
  }

  /** Whether a review other than the one at i already holds this (user, tour) pair. */
  predicate TakenByOther(reviews: seq<Review>, i: nat, user: Id, tour: Id) {
    exists j :: 0 <= j < |reviews| && j != i && reviews[j].user == user && reviews[j].tour == tour
  }

  function IndexOfReview(reviews: seq<Review>, id: Id): (r: Option<nat>)
    ensures r.Some? ==> r.value < |reviews| && reviews[r.value].id == id
    ensures r.None? ==> forall j :: 0 <= j < |reviews| ==> reviews[j].id != id
  {
    if reviews == [] then None
    else if reviews[0].id == id then Some(0)
    else match IndexOfReview(reviews[1..], id)
      case None => None
      case Some(i) => Some(i + 1)
  }

  /** The outcome of a findOneAnd query: the stores afterwards and the error it ends with, if any. */
  datatype Written = Written(stores: Stores, failure: Option<ErrorValue>)

  /** The failing update validators of the paths an update names, listed in the order the schema declares them. */
  function UpdateErrorsOf(change: ReviewChange): (r: seq<FieldError>)
    ensures r == [] <==> (change.Delete? ||
                          ((change.text.Some? ==> Trim(change.text.value) != "") &&
                           (change.rating.Some? ==> 0.0 <= change.rating.value <= 5.0)))
  {
    match change
    case Delete => []
    case Update(rating, text, _, _) =>
      (if text.Some? then Present(RequiredText("review", text, "Review text cannot be empty")) else [])
      + (if rating.Some? then Present(RatingError(rating)) else [])
  }

  /**
   * `findByIdAndUpdate` / `findByIdAndDelete` on a review with the two findOneAnd hooks: the pre
   * hook fails with a code-less AppError when no review has the id, and nothing is written; the
   * update validators and then the unique index can refuse an update, again writing nothing. The
   * post hook recomputes the statistics of the OLD review's tour, read through the populated
   * `tour`, which is null for a tour the find hook hides, so the post hook then throws after the
   * write. A tour the update moves the review to is not recomputed.
   */
  function FindOneAnd(st: Stores, id: Id, change: ReviewChange, duplicateMessage: string, trace: string): (r: Written)
    ensures IndexOfReview(st.reviews, id).None? ==>
      r == Written(st, Some(AppError("No document found with that ID", None, trace)))
    ensures IndexOfReview(st.reviews, id).Some? && UpdateErrorsOf(change) != [] ==>
      r == Written(st, Some(UpdateValidationError(UpdateErrorsOf(change), trace)))
    ensures IndexOfReview(st.reviews, id).Some? && UpdateErrorsOf(change) == [] && change.Update? &&
            (var i := IndexOfReview(st.reviews, id).value;
             var v := Changed(st.reviews[i], change);
             TakenByOther(st.reviews, i, v.user, v.tour)) ==>
      r == Written(st, Some(DuplicateKeyError(duplicateMessage, trace)))
    ensures r.failure.None? ==>
      var i := IndexOfReview(st.reviews, id).value;
      var found := st.reviews[i];
      found.tour in st.tours && Visible(st.tours[found.tour]) &&
      r.stores.tours == CalcAverageRatings(r.stores.reviews, st.tours, found.tour) &&
      r.stores.reviews == if change.Delete? then st.reviews[..i] + st.reviews[i + 1..]
                          else st.reviews[i := Changed(found, change)]
    ensures IndexOfReview(st.reviews, id).Some? && UpdateErrorsOf(change) == [] &&
            (var i := IndexOfReview(st.reviews, id).value;
             change.Delete? || !TakenByOther(st.reviews, i, Changed(st.reviews[i], change).user, Changed(st.reviews[i], change).tour)) ==>
      var i := IndexOfReview(st.reviews, id).value;
      var found := st.reviews[i];
      r.stores.reviews == (if change.Delete? then st.reviews[..i] + st.reviews[i + 1..]
                           else st.reviews[i := Changed(found, change)]) &&
      (r.failure.None? <==> found.tour in st.tours && Visible(st.tours[found.tour])) &&
      (!(found.tour in st.tours && Visible(st.tours[found.tour])) ==>
        r.failure == Some(LibraryError("TypeError", "Cannot read property '_id' of null", trace)) && r.stores.tours == st.tours)
    ensures r.failure.None? && change.Update? && change.tour.Some? ==>
      var found := st.reviews[IndexOfReview(st.reviews, id).value];
      forall t :: t in st.tours && t != found.tour ==> t in r.stores.tours && r.stores.tours[t] == st.tours[t]
  {
    match IndexOfReview(st.reviews, id)
    case None => Written(st, Some(AppError("No document found with that ID", None, trace)))
    case Some(i) =>
      var errors := UpdateErrorsOf(change);
      if errors != [] then Written(st, Some(UpdateValidationError(errors, trace)))
      else
        var found := st.reviews[i];
        if change.Update? && TakenByOther(st.reviews, i, Changed(found, change).user, Changed(found, change).tour) then
          Written(st, Some(DuplicateKeyError(duplicateMessage, trace)))
        else
          var reviews := if change.Delete? then st.reviews[..i] + st.reviews[i + 1..] else st.reviews[i := Changed(found, change)];
          if found.tour in st.tours && Visible(st.tours[found.tour]) then
            Written(Stores(reviews, CalcAverageRatings(reviews, st.tours, found.tour)), None)
          else
            Written(Stores(reviews, st.tours), Some(LibraryError("TypeError", "Cannot read property '_id' of null", trace)))
  }

  /** Removing a review keeps the pairs unique and the ratings in range. */
  lemma RemoveKeepsInvariants(reviews: seq<Review>, i: nat)
    requires i < |reviews|
    ensures UniquePairs(reviews) ==> UniquePairs(reviews[..i] + reviews[i + 1..])
    ensures AllRatingsInRange(reviews) ==> AllRatingsInRange(reviews[..i] + reviews[i + 1..])
  {
    var r := reviews[..i] + reviews[i + 1..];
    assert forall j :: 0 <= j < |r| ==> r[j] == reviews[if j < i then j else j + 1];
  }

  /** Replacing the review at i by one whose pair no other review holds keeps the pairs unique. */
  lemma ReplaceKeepsUniquePairs(reviews: seq<Review>, i: nat, v: Review)
    requires i < |reviews| && UniquePairs(reviews) && !TakenByOther(reviews, i, v.user, v.tour)
    ensures UniquePairs(reviews[i := v])
  {
    var r := reviews[i := v];
    forall a, b | 0 <= a < b < |r| ensures r[a].user != r[b].user || r[a].tour != r[b].tour {
      if a == i {
        assert r[b] == reviews[b];
      } else if b == i {
        assert r[a] == reviews[a];
      }
    }
  }

  /** A valid update whose pair is free keeps both store invariants. */
  lemma UpdateKeepsInvariants(reviews: seq<Review>, i: nat, change: ReviewChange)
    requires i < |reviews| && change.Update? && UpdateErrorsOf(change) == []
    requires !TakenByOther(reviews, i, Changed(reviews[i], change).user, Changed(reviews[i], change).tour)
    ensures UniquePairs(reviews) ==> UniquePairs(reviews[i := Changed(reviews[i], change)])
    ensures AllRatingsInRange(reviews) ==> AllRatingsInRange(reviews[i := Changed(reviews[i], change)])
  {
    var v := Changed(reviews[i], change);
    if UniquePairs(reviews) {
      ReplaceKeepsUniquePairs(reviews, i, v);
    }
    if AllRatingsInRange(reviews) {
      assert RatingInRange(reviews[i]);
      assert RatingInRange(v);
    }
  }

  /** A findOneAnd query keeps the (user, tour) pairs unique and every rating in range, whatever it ends with. */
  lemma FindOneAndKeepsInvariants(st: Stores, id: Id, change: ReviewChange, duplicateMessage: string, trace: string)
    ensures var r := FindOneAnd(st, id, change, duplicateMessage, trace).stores.reviews;
      (UniquePairs(st.reviews) ==> UniquePairs(r)) && (AllRatingsInRange(st.reviews) ==> AllRatingsInRange(r))
  {
    var r := FindOneAnd(st, id, change, duplicateMessage, trace).stores.reviews;
    var k := IndexOfReview(st.reviews, id);
    if k.Some? && UpdateErrorsOf(change) == [] {
      var i := k.value;
      if change.Delete? {
        RemoveKeepsInvariants(st.reviews, i);
      } else {
        var v := Changed(st.reviews[i], change);
        if !TakenByOther(st.reviews, i, v.user, v.tour) {
          UpdateKeepsInvariants(st.reviews, i, change);
        }
      }
    }
  }
}
