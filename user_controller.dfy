/**
 * The signed-in user's own routes: the allow-list copy of a body, updating one's name and
 * email, deactivating oneself, and pointing `/me` at one's own id.
 */
module UserController {
  import opened Wrappers
  import opened Http
  import opened AppErrors
  import opened UserModel
  import opened AuthController

  /** `filterObj(obj, ...allowed)`: a new object with exactly the allowed keys `obj` has, same values. */
  method FilterObj(obj: map<string, Value>, allowed: seq<string>) returns (newObj: map<string, Value>)
    ensures forall k :: k in newObj <==> k in obj && k in allowed
    ensures forall k :: k in newObj ==> newObj[k] == obj[k]
  {
    newObj := map[];
    var remaining := obj.Keys;
    while remaining != {}
      invariant remaining <= obj.Keys
      invariant forall k :: k in newObj <==> k in obj && k !in remaining && k in allowed
      invariant forall k :: k in newObj ==> newObj[k] == obj[k]
      decreases remaining
    {
      var el :| el in remaining;
      if el in allowed {
        newObj := newObj[el := obj[el]];
      }
      remaining := remaining - {el};
    }
  }

  const NotForPasswords := "This route is not for password updates. Please use 'updatePassword/'"
  const CouldNotUpdate := "We couldn't update this user'"

  /** The update validators for the paths present in the update; anything but a string counts as missing. */
  function UpdateErrors(update: map<string, Value>): (r: seq<FieldError>)
    ensures r == [] <==> ("name" in update ==> AsText(update["name"]).Some? && AsText(update["name"]).value != "") &&
                         ("email" in update ==> AsText(update["email"]).Some? && AsText(update["email"]).value != "")
  {
    (if "name" in update then Present(RequiredError("name", AsText(update["name"]), "A user must have a name")) else [])
    + (if "email" in update then Present(RequiredError("email", AsText(update["email"]), "A user must have an email")) else [])
  }

  /** A user with the name and email of an update applied. */
  function Applied(u: User, update: map<string, Value>): (v: User)
    requires UpdateErrors(update) == []
    ensures v == u.(name := if "name" in update then update["name"].s else u.name,
                    email := if "email" in update then update["email"].s else u.email)
  {
    u.(name := if "name" in update then AsText(update["name"]).value else u.name,
       email := if "email" in update then AsText(update["email"]).value else u.email)
  }

  /** `filterObj(req.body, 'name', 'email')`. */
  function Filtered(body: map<string, Value>): map<string, Value> {
    map k | k in body && k in ["name", "email"] :: body[k]
  }

  /** The unique index on `email`: another stored user, listed or not, already holds the update's email. */
  predicate EmailTakenByOther(users: seq<User>, i: nat, update: map<string, Value>) {
    "email" in update && update["email"].Str? &&
    exists j :: 0 <= j < |users| && j != i && users[j].email == update["email"].s
  }

  /** What the unique index on `email` keeps true of the store. */
  predicate UniqueEmails(users: seq<User>) {
    forall a, b :: 0 <= a < b < |users| ==> users[a].email != users[b].email
  }

  /** Replacing one user by one whose email no other user holds keeps the emails unique. */
  lemma ReplaceKeepsUniqueEmails(users: seq<User>, i: nat, v: User)
    requires i < |users| && UniqueEmails(users)
    requires forall j :: 0 <= j < |users| && j != i ==> users[j].email != v.email
    ensures UniqueEmails(users[i := v])
  {
    var r := users[i := v];
    forall a, b | 0 <= a < b < |r| ensures r[a].email != r[b].email {
      if a == i {
        assert r[b] == users[b];
      } else if b == i {
        assert r[a] == users[a];
      }
    }
  }

  /**
   * `updateMe`: a truthy password or confirmation is refused with 400 before anything else;
   * otherwise only `name` and `email` of the body are applied to the current user, after the
   * update validators; when the user is not found the result is 500, and an email another user
   * holds is refused by the unique index with the driver's duplicate-key error.
   */
  method UpdateMe(body: map<string, Value>, reqUser: map<string, Value>, users: seq<User>, duplicateMessage: string,
                  trace: string)
    returns (r: Result<User, ErrorValue>, stored: seq<User>)
    ensures Get(body, "password").Truthy() || Get(body, "passwordConfirm").Truthy() ==>
      r == Failure(AppError(NotForPasswords, Some(400), trace)) && stored == users
    ensures r.Success? ==>
      !Get(body, "password").Truthy() && !Get(body, "passwordConfirm").Truthy() &&
      Get(reqUser, "_id").Oid? && FindById(users, Get(reqUser, "_id").id).Some? &&
      var i := FindById(users, Get(reqUser, "_id").id).value;
      UpdateErrors(Filtered(body)) == [] && !EmailTakenByOther(users, i, Filtered(body)) &&
      r.value == Applied(users[i], Filtered(body)) && stored == users[i := r.value]
    ensures r.Failure? ==> stored == users
    ensures !Get(body, "password").Truthy() && !Get(body, "passwordConfirm").Truthy() ==>
      (UpdateErrors(Filtered(body)) != [] ==> r == Failure(UpdateValidationError(UpdateErrors(Filtered(body)), trace))) &&
      (UpdateErrors(Filtered(body)) == [] && !(Get(reqUser, "_id").Oid? && FindById(users, Get(reqUser, "_id").id).Some?) ==>
        r == Failure(AppError(CouldNotUpdate, Some(500), trace)))
    ensures (!Get(body, "password").Truthy() && !Get(body, "passwordConfirm").Truthy() &&
             UpdateErrors(Filtered(body)) == [] &&
             Get(reqUser, "_id").Oid? && FindById(users, Get(reqUser, "_id").id).Some?) ==>
      (EmailTakenByOther(users, FindById(users, Get(reqUser, "_id").id).value, Filtered(body)) <==>
       r == Failure(DuplicateKeyError(duplicateMessage, trace)))
    ensures (!Get(body, "password").Truthy() && !Get(body, "passwordConfirm").Truthy() &&
             UpdateErrors(Filtered(body)) == [] &&
             Get(reqUser, "_id").Oid? && FindById(users, Get(reqUser, "_id").id).Some? &&
             !EmailTakenByOther(users, FindById(users, Get(reqUser, "_id").id).value, Filtered(body))) ==> r.Success?
    ensures UniqueEmails(users) ==> UniqueEmails(stored)
  {
    if Get(body, "password").Truthy() || Get(body, "passwordConfirm").Truthy() {
      return Failure(AppError(NotForPasswords, Some(400), trace)), users;
    }
    var filteredBody := FilterObj(body, ["name", "email"]);
    assert filteredBody == Filtered(body);
    var errors := UpdateErrors(filteredBody);
    if errors != [] {
      return Failure(UpdateValidationError(errors, trace)), users;
    }
    var id := Get(reqUser, "_id");
    var found := if id.Oid? then FindById(users, id.id) else None;
    if found.None? {
      return Failure(AppError(CouldNotUpdate, Some(500), trace)), users;
    }
    if EmailTakenByOther(users, found.value, filteredBody) {
      return Failure(DuplicateKeyError(duplicateMessage, trace)), users;
    }
    var updatedUser := Applied(users[found.value], filteredBody);
    if UniqueEmails(users) {
      ReplaceKeepsUniqueEmails(users, found.value, updatedUser);
    }
    r, stored := Success(updatedUser), users[found.value := updatedUser];
  }

  /**
   * Whether `findByIdAndUpdate(target, ...)` may pick user `u`: an id target is the condition
   * `{_id: id}`; an undefined target is `{_id: undefined}`, which the query treats as the empty
   * condition; any other target matches nobody. When the pre-find hook runs, only listed users
   * can be picked.
   */
  predicate Admitted(u: User, target: Value, hooked: bool) {
    (!hooked || Listed(u)) && (target.Undefined? || target == Oid(u.id))
  }

  /** The user `findOneAndUpdate` picks: the first stored user the condition admits. */
  function FirstAdmitted(users: seq<User>, target: Value, hooked: bool): (r: Option<nat>)
    ensures r.Some? ==> r.value < |users| && Admitted(users[r.value], target, hooked)
    ensures r.Some? ==> forall j :: 0 <= j < r.value ==> !Admitted(users[j], target, hooked)
    ensures r.None? ==> forall j :: 0 <= j < |users| ==> !Admitted(users[j], target, hooked)
    decreases |users|
  {
    if users == [] then None
    else if Admitted(users[0], target, hooked) then Some(0)
    else
      match FirstAdmitted(users[1..], target, hooked)
      case None => None
      case Some(i) => Some(i + 1)
  }

  /** With the hook and an id target, the user picked is the one `findById` finds. */
  lemma FirstAdmittedById(users: seq<User>, id: Id)
    ensures FirstAdmitted(users, Oid(id), true) == FindById(users, id)
  {
  }

  /** `findByIdAndUpdate(target, { active: false })`: the user picked, if any, gets `active: false`. */
  function Deactivate(users: seq<User>, target: Value, hooked: bool): (r: seq<User>)
    ensures |r| == |users|
    ensures forall i :: FirstAdmitted(users, target, hooked) == Some(i) ==> r == users[i := users[i].(active := Some(false))]
    ensures FirstAdmitted(users, target, hooked).None? ==> r == users
  {
    match FirstAdmitted(users, target, hooked)
    case None => users
    case Some(i) => users[i := users[i].(active := Some(false))]
  }

  /** The outcome of `deleteMe`: always 204, and the store after the update. */
  datatype Deletion = Deletion(statusCode: int, users: seq<User>)

  /**
   * `deleteMe` as written: it updates by `req.user.id`. Whether the pre-find hook runs on
   * `findOneAndUpdate` depends on where that name falls in the hook list (see
   * `UserModel.GlobalRegexHooks`), so it is a parameter.
   */
  function DeleteMeAsWritten(reqUser: map<string, Value>, users: seq<User>, hooked: bool): (r: Deletion)
    ensures r.statusCode == 204 && |r.users| == |users|
    ensures "id" !in reqUser && !hooked && users != [] ==> r.users == users[0 := users[0].(active := Some(false))]
    ensures "id" !in reqUser && hooked ==>
      forall i :: 0 <= i < |users| && Listed(users[i]) && (forall j :: 0 <= j < i ==> !Listed(users[j])) ==>
        r.users == users[i := users[i].(active := Some(false))]
    ensures "id" !in reqUser && hooked && (forall j :: 0 <= j < |users| ==> !Listed(users[j])) ==> r.users == users
  {
    var r := Deletion(204, Deactivate(users, Get(reqUser, "id"), hooked));
    if "id" !in reqUser then
      assert !hooked && users != [] ==> FirstAdmitted(users, Undefined, hooked) == Some(0);
      assert forall i :: 0 <= i < |users| && hooked && Listed(users[i]) && (forall j :: 0 <= j < i ==> !Listed(users[j])) ==>
        FirstAdmitted(users, Undefined, hooked) == Some(i);
      r
    else
      r
  }

  /**
   * The `req.user` that `protect` sets is the scrubbed `_doc`, which has `_id` but no `id`:
   * as written, `deleteMe` answers 204 and deactivates the first user the find admits, whoever
   * that is; the caller's own record changes only if the caller is that user.
   */
  lemma DeleteMeAsWrittenDeactivatesFirst(u: User, users: seq<User>, hooked: bool, i: nat)
    requires i < |users| && (hooked ==> Listed(users[i]))
    requires forall j :: 0 <= j < i ==> hooked && !Listed(users[j])
    ensures "id" !in Scrubbed(DocOf(u, false), UserProjection)
    ensures var after := DeleteMeAsWritten(Scrubbed(DocOf(u, false), UserProjection), users, hooked).users;
      after == users[i := users[i].(active := Some(false))] &&
      forall j :: 0 <= j < |users| && j != i ==> after[j] == users[j]
  {
    assert "id" !in DocOf(u, false);
  }

  /** `deleteMe` reading the current user's `_id`: the soft delete sets `active` to false. */
  function DeleteMe(reqUser: map<string, Value>, users: seq<User>): (r: Deletion)
    ensures r.statusCode == 204 && |r.users| == |users|
    ensures forall i :: Get(reqUser, "_id").Oid? && FindById(users, Get(reqUser, "_id").id) == Some(i) ==>
      r.users == users[i := users[i].(active := Some(false))] && !Listed(r.users[i])
  {
    FirstAdmittedById(users, if Get(reqUser, "_id").Oid? then Get(reqUser, "_id").id else "");
    Deletion(204, Deactivate(users, Get(reqUser, "_id"), true))
  }

  /**
   * After `protect` let a user through, `deleteMe` takes that user out of every find, so the
   * same token is refused afterwards as belonging to no user (ids being unique in the store).
   */
  lemma DeletedUserLockedOut(authorization: Option<string>, verify: Option<string> -> Verification, users: seq<User>, trace: string)
    requires forall i, j :: 0 <= i < j < |users| ==> users[i].id != users[j].id
    requires Authenticate(authorization, verify, users, trace).Success?
    ensures var u := Authenticate(authorization, verify, users, trace).value;
      var after := DeleteMe(Scrubbed(DocOf(u, false), UserProjection), users).users;
      Authenticate(authorization, verify, after, trace) == Failure(AppError(UserGone, Some(401), trace))
  {
    var u := Authenticate(authorization, verify, users, trace).value;
    var reqUser := Scrubbed(DocOf(u, false), UserProjection);
    assert Get(reqUser, "_id") == Oid(u.id);
    var i := FindById(users, u.id).value;
    var after := DeleteMe(reqUser, users).users;
    assert after == users[i := users[i].(active := Some(false))];
    forall j | 0 <= j < |after| ensures !(Listed(after[j]) && after[j].id == u.id) {
      if j != i {
        assert users[j].id != users[i].id;
      }
    }
  }

  /** `getMe`: `/me` reads the current user, by pointing `params.id` at its `_id`. */
  method GetMe(req: Request)
    requires req.user.Some?
    modifies req
    ensures req.params == old(req.params)["id" := Get(old(req.user).value, "_id")]
    ensures req.headers == old(req.headers) && req.query == old(req.query) && req.body == old(req.body)
    ensures req.user == old(req.user)
  {
    req.params := req.params["id" := Get(req.user.value, "_id")];
  }
}
