/**
 * The tour route handlers that hold logic of their own: the top-five alias, which rewrites
 * the query string before the list handler runs, and the two geospatial handlers, which
 * validate their route parameters and build a sphere query or a distance aggregation.
 */
module TourController {
  import opened Wrappers
  import opened Text
  import opened Http
  import opened AppErrors
  import opened ErrorController
  import opened ApiFeatures
  import opened TourModel

  const TopToursLimit := "5"
  const TopToursSort := "-ratingsAverage,price"
  const TopToursFields := "name,price,ratingsAverage,summary,difficulty"

  /** The query string after the alias: three parameters overwritten, all others kept. */
  function TopToursQuery(query: map<string, QVal>): map<string, QVal> {
    query["limit" := Param(TopToursLimit)]["sort" := Param(TopToursSort)]["fields" := Param(TopToursFields)]
  }

  /** `aliasTopTours`: overwrites `limit`, `sort` and `fields` of `req.query` and nothing else. */
  method AliasTopTours(req: Request)
    modifies req
    ensures req.query == TopToursQuery(old(req.query))
    ensures req.headers == old(req.headers) && req.body == old(req.body)
    ensures req.params == old(req.params) && req.user == old(req.user)
  {
    req.query := req.query["limit" := Param(TopToursLimit)];
    req.query := req.query["sort" := Param(TopToursSort)];
    req.query := req.query["fields" := Param(TopToursFields)];
  }

  /** The alias leaves the caller's filter unchanged: all three keys it sets are reserved. */
  lemma TopToursKeepsFilter(query: map<string, QVal>)
    ensures FilterCriteria(TopToursQuery(query)) == FilterCriteria(query)
  {
    assert TopToursQuery(query) - Reserved == query - Reserved;
  }

  /** Pages of five, with the caller's page kept. */
  lemma TopToursPages(query: map<string, QVal>)
    ensures LimitOf(TopToursQuery(query)) == 5
    ensures PageOf(TopToursQuery(query)) == PageOf(query)
  {
    assert AllDigits("5") && DigitsValue("5") == 5;
  }

  /** A segment free of the separator splits off as the first part. */
  lemma {:induction false} SplitSegment(a: string, rest: string, sep: char)
    requires sep !in a
    ensures Split(a + [sep] + rest, sep) == [a] + Split(rest, sep)
    decreases |a|
  {
    if a != [] {
      assert a[0] != sep && sep !in a[1..];
      SplitSegment(a[1..], rest, sep);
      assert (a + [sep] + rest)[1..] == a[1..] + [sep] + rest;
      assert [a[0]] + a[1..] == a;
    } else {
      assert (a + [sep] + rest)[1..] == rest;
    }
  }

  /** A string free of the separator splits into itself alone. */
  lemma {:induction false} SplitWithoutSeparator(a: string, sep: char)
    requires sep !in a
    ensures Split(a, sep) == [a]
    decreases |a|
  {
    if a != [] {
      SplitWithoutSeparator(a[1..], sep);
      assert [a[0]] + a[1..] == a;
    }
  }

  /**
   * `const [lat, lng] = latlng.split(',')` with the `!lat || !lng` check: the two leading
   * comma-separated parts when both are non-empty.
   */
  function Center(latlng: string): (r: Option<(string, string)>)
    ensures r.Some? ==> var (lat, lng) := r.value;
      lat != "" && lng != "" && ',' !in lat && ',' !in lng && StartsWith(latlng, lat + "," + lng) &&
      (|latlng| == |lat| + 1 + |lng| || latlng[|lat| + 1 + |lng|] == ',')
  {
    var parts := Split(latlng, ',');
    if parts[0] == "" || |parts| < 2 || parts[1] == "" then None
    else
      JoinSplit(latlng, ',');
      assert latlng == parts[0] + "," + Join(parts[1..], ",");
      assert |parts| == 2 || Join(parts[1..], ",") == parts[1] + "," + Join(parts[2..], ",") by {
        assert parts[1..][1..] == parts[2..];
      }
      assert latlng[..|parts[0]| + 1 + |parts[1]|] == parts[0] + "," + parts[1];
      Some((parts[0], parts[1]))
  }

  /** A latitude and a longitude separated by a comma, with anything after a further comma, are read back. */
  lemma CenterOfPair(lat: string, lng: string, rest: string)
    requires lat != "" && lng != "" && ',' !in lat && ',' !in lng
    requires rest == "" || rest[0] == ','
    ensures Center(lat + "," + lng + rest) == Some((lat, lng))
  {
    SplitSegment(lat, lng + rest, ',');
    assert lat + "," + lng + rest == lat + [','] + (lng + rest);
    if rest == "" {
      SplitWithoutSeparator(lng, ',');
      assert lng + rest == lng;
    } else {
      SplitSegment(lng, rest[1..], ',');
      assert lng + rest == lng + [','] + rest[1..];
    }
  }

  const MilesEarthRadius: real := 3963.2
  const KilometresEarthRadius: real := 6378.1
  const MilesPerMetre: real := 0.000621371
  const KilometresPerMetre: real := 0.001

  /** The earth's radius in the unit, for the two units the handlers accept. */
  function EarthRadius(unit: string): real {
    if unit == "mi" then MilesEarthRadius else KilometresEarthRadius
  }

  function GeoError(message: string, trace: string): (e: ErrorValue)
    ensures e.message == message && e.statusCode == None && e.isOperational
  {
    AppError(message, None, trace)
  }

  /** `$centerSphere: [[lng, lat], radius]`; a radius of None stands for NaN. */
  datatype Sphere = Sphere(lng: string, lat: string, radius: Option<real>)

  /**
   * The query of `getToursWithin`: the centre, then the distance, then the unit are checked,
   * each failure an AppError without a status code; the radius is the distance as a fraction
   * of the earth's radius.
   */
  function ToursWithin(distance: string, latlng: string, unit: string, trace: string): (r: Result<Sphere, ErrorValue>)
    ensures Center(latlng).None? ==> r == Failure(GeoError("Please specify the latitude and longitude", trace))
    ensures Center(latlng).Some? && distance == "" ==> r == Failure(GeoError("Please specify a distance", trace))
    ensures Center(latlng).Some? && distance != "" && unit == "" ==> r == Failure(GeoError("Please specify a distance unit", trace))
    ensures Center(latlng).Some? && distance != "" && unit != "" && unit != "mi" && unit != "km" ==>
      r == Failure(GeoError("Please specify a valid distance unit (mi or km", trace))
    ensures r.Failure? ==> r.error == GeoError(r.error.message, trace)
    ensures r.Success? <==> Center(latlng).Some? && distance != "" && (unit == "mi" || unit == "km")
    ensures r.Success? ==> r.value.lat == Center(latlng).value.0 && r.value.lng == Center(latlng).value.1
    ensures r.Success? ==> (r.value.radius.None? <==> ToNumber(distance).None?)
    ensures r.Success? && ToNumber(distance).Some? ==> r.value.radius.value * EarthRadius(unit) == ToNumber(distance).value as real
  {
    match Center(latlng)
    case None => Failure(GeoError("Please specify the latitude and longitude", trace))
    case Some((lat, lng)) =>
      if distance == "" then Failure(GeoError("Please specify a distance", trace))
      else if unit == "" then Failure(GeoError("Please specify a distance unit", trace))
      else if unit != "mi" && unit != "km" then Failure(GeoError("Please specify a valid distance unit (mi or km", trace))
      else
        var radius := match ToNumber(distance)
          case None => None
          case Some(d) => Some(d as real / EarthRadius(unit));
        Success(Sphere(lng, lat, radius))
  }

  /** The aggregation of `getDistances`: centre, then unit, checked as in `getToursWithin`; no distance is needed. */
  function Distances(latlng: string, unit: string, trace: string): (r: Result<seq<Stage>, ErrorValue>)
    ensures Center(latlng).None? ==> r == Failure(GeoError("Please specify the latitude and longitude", trace))
    ensures Center(latlng).Some? && unit == "" ==> r == Failure(GeoError("Please specify a distance unit", trace))
    ensures Center(latlng).Some? && unit != "" && unit != "mi" && unit != "km" ==>
      r == Failure(GeoError("Please specify a valid distance unit (mi or km", trace))
    ensures r.Failure? ==> r.error == GeoError(r.error.message, trace)
    ensures r.Success? <==> Center(latlng).Some? && (unit == "mi" || unit == "km")
    ensures r.Success? ==> (
      |r.value| == 2 && r.value[0].GeoNear? && r.value[1] == Project(["name", "distance"]) &&
      r.value[0].lat == Center(latlng).value.0 && r.value[0].lng == Center(latlng).value.1 &&
      r.value[0].distanceField == "distance" &&
      r.value[0].multiplier == (if unit == "mi" then MilesPerMetre else KilometresPerMetre))
  {
    match Center(latlng)
    case None => Failure(GeoError("Please specify the latitude and longitude", trace))
    case Some((lat, lng)) =>
      if unit == "" then Failure(GeoError("Please specify a distance unit", trace))
      else if unit != "mi" && unit != "km" then Failure(GeoError("Please specify a valid distance unit (mi or km", trace))
      else
        var multiplier := if unit == "mi" then MilesPerMetre else KilometresPerMetre;
        Success([GeoNear(lng, lat, "distance", multiplier), Project(["name", "distance"])])
  }

  /** The distance pipeline starts with `$geoNear`, so the aggregation hook adds no secret-tour match to it. */
  lemma DistancesIncludeSecretTours(latlng: string, unit: string, trace: string)
    requires Distances(latlng, unit, trace).Success?
    ensures WithSecretMatch(Distances(latlng, unit, trace).value) == Distances(latlng, unit, trace).value
    ensures SecretMatch !in Distances(latlng, unit, trace).value
  {
  }

  /**
   * A rejected geo request in production: the AppError carries no status code, so the client
   * receives 500 with status "error", and the message is kept because the error is operational.
   */
  method GeoErrorResponse(message: string, trace: string) returns (out: Handled)
    ensures out == Sent(Response(500, ProdBody("error", message)))
  {
    var err := GeoError(message, trace);
    StandardCodes();
    assert err.name == "Error" && err.code == None && err.status == Some("error");
    var updated;
    updated, out := GlobalErrorHandler(err, "production", trace);
  }

  /** Every rejection of `getDistances` is such an error, so it is answered 500 with its own message. */
  method DistancesErrorResponse(latlng: string, unit: string, trace: string) returns (out: Handled)
    requires Distances(latlng, unit, trace).Failure?
    ensures out == Sent(Response(500, ProdBody("error", Distances(latlng, unit, trace).error.message)))
  {
    out := GeoErrorResponse(Distances(latlng, unit, trace).error.message, trace);
  }
}
