/**
 * The middleware that completes a review creation body on the nested route
 * `/tours/:id/reviews`: the tour comes from the route, the author from the logged-in user.
 */
module ReviewController {
  import opened Wrappers
  import opened Http
  import opened AppErrors
  import opened ReviewModel

  /** The body after `setTourAndUserIds`: a falsy `tour` or `user` is replaced, everything else kept. */
  function WithTourAndUser(body: map<string, Value>, routeId: Value, userId: Value): (r: map<string, Value>)
    ensures r.Keys == body.Keys + {"tour", "user"}
    ensures forall k :: k in body && k != "tour" && k != "user" ==> r[k] == body[k]
    ensures r["tour"] == if Get(body, "tour").Truthy() then body["tour"] else routeId
    ensures r["user"] == if Get(body, "user").Truthy() then body["user"] else userId
  {
    var withTour := if Get(body, "tour").Truthy() then body else body["tour" := routeId];
    if Get(body, "user").Truthy() then withTour else withTour["user" := userId]
  }

  /**
   * `setTourAndUserIds`: `req.user._id` is read only when the body names no user, and throws a
   * TypeError when no user is logged in; the tour has been set by then.
   */
  method SetTourAndUserIds(req: Request, trace: string) returns (failure: Option<ErrorValue>)
    modifies req
    ensures req.headers == old(req.headers) && req.query == old(req.query)
    ensures req.params == old(req.params) && req.user == old(req.user)
    ensures failure.None? <==> Get(old(req.body), "user").Truthy() || old(req.user).Some?
    ensures failure.None? ==>
      req.body == WithTourAndUser(old(req.body), Get(req.params, "id"),
                                  if Get(old(req.body), "user").Truthy() then Undefined else Get(req.user.value, "_id"))
    ensures failure.Some? ==>
      failure.value.name == "TypeError" &&
      req.body == if Get(old(req.body), "tour").Truthy() then old(req.body)
                  else old(req.body)["tour" := Get(req.params, "id")]
  {
    if !Get(req.body, "tour").Truthy() {
      req.body := req.body["tour" := Get(req.params, "id")];
    }
    if !Get(req.body, "user").Truthy() {
      if req.user.None? {
        return Some(LibraryError("TypeError", "Cannot read property '_id' of undefined", trace));
      }
      req.body := req.body["user" := Get(req.user.value, "_id")];
    }
    failure := None;
  }

  /** The fields of a JSON body that the review schema reads; other types are treated as missing. */
  function ReviewInputOf(body: map<string, Value>): ReviewInput {
    ReviewInput(
      Get(body, "tour"),
      Get(body, "user"),
      match Get(body, "rating") case Num(n) => Some(n as real) case _ => None,
      match Get(body, "review") case Str(s) => Some(s) case _ => None,
      match Get(body, "createdAt") case DateMs(ms) => Some(ms) case _ => None)
  }

  /**
   * On the nested route the tour id from the URL and the logged-in user's id reach the new
   * review; without a route id and a tour in the body, creation fails validation.
   */
  lemma CompletedBodyNamesTourAndUser(body: map<string, Value>, routeId: Value, userId: Value)
    requires !Get(body, "tour").Truthy() && !Get(body, "user").Truthy()
    ensures var input := ReviewInputOf(WithTourAndUser(body, routeId, userId));
      input.tour == routeId && input.user == userId &&
      (IdOf(routeId).None? ==> ReviewErrors(input) != [])
  {
    var input := ReviewInputOf(WithTourAndUser(body, routeId, userId));
    if IdOf(routeId).None? {
      assert !(IdOf(input.tour).Some?);
    }
  }
}
