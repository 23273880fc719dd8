/**
 * Authentication and authorisation: login, the `protect` chain of checks, role and ownership
 * checks, the in-place scrub of a user's `_doc`, and the password-reset flow.
 *
 * Token signing and verification, password hashing, digests and mail delivery are parameters:
 * `sign`, `verify`, `correct`, `bcrypt`, `sha256` and `deliver`.
 */
module AuthController {
  import opened Wrappers
  import opened Text
  import opened Http
  import opened AppErrors
  import opened UserModel

  /** The fields a user's `_doc` keeps when it is handed to a client or to later middleware. */
  const UserProjection: seq<string> := ["name", "email", "_id", "active", "role"]

  /** What a client may learn about a user. */
  function PublicView(u: User): map<string, Value> {
    map["_id" := Oid(u.id), "name" := Str(u.name), "email" := Str(u.email), "role" := Str(u.role)]
  }

  /** The stored fields a client must never see, those that are present; the password only when selected. */
  function Secrets(u: User, withPassword: bool): (s: map<string, Value>)
    ensures forall k :: k in s ==> k in {"password", "passwordChangedAt", "passwordResetToken", "passwordResetExpires"}
  {
    (if withPassword then map["password" := Str(u.password)] else map[])
    + (if u.passwordChangedAt.Some? then map["passwordChangedAt" := DateMs(u.passwordChangedAt.value)] else map[])
    + (if u.passwordResetToken.Some? then map["passwordResetToken" := Str(u.passwordResetToken.value)] else map[])
    + (if u.passwordResetExpires.Some? then map["passwordResetExpires" := DateMs(u.passwordResetExpires.value)] else map[])
  }

  /**
   * The `_doc` of a user loaded from the store; `active` is never selected. A stored `photo` and
   * the version key `__v` are not part of this model's user; the scrub blanks them like every
   * other key outside the projection, so they never reach a client.
   */
  function DocOf(u: User, withPassword: bool): map<string, Value> {
    PublicView(u) + Secrets(u, withPassword)
  }

  /** The same keys, every key outside `allowed` now holding undefined. */
  function Scrubbed(m: map<string, Value>, allowed: seq<string>): map<string, Value> {
    map k | k in m :: if k in allowed then m[k] else Undefined
  }

  /** The entries that are not undefined: what `JSON.stringify` puts on the wire. */
  function Defined(m: map<string, Value>): map<string, Value> {
    map k | k in m && m[k] != Undefined :: m[k]
  }

  /** A document's raw field object, which `filterUser` rewrites in place. */
  class RawDocument {
    var doc: map<string, Value>

    constructor (doc: map<string, Value>)
      ensures this.doc == doc
    {
      this.doc := doc;
    }
  }

  /** `filterUser(user, ...allowed)`: blanks every field outside `allowed` in the user's own `_doc` and returns it. */
  method FilterUser(user: RawDocument, allowed: seq<string>) returns (filtered: RawDocument)
    modifies user
    ensures filtered == user
    ensures user.doc == Scrubbed(old(user.doc), allowed)
  {
    ghost var original := user.doc;
    var remaining := user.doc.Keys;
    while remaining != {}
      invariant remaining <= original.Keys && user.doc.Keys == original.Keys
      invariant forall k :: k in original && k !in remaining ==>
        user.doc[k] == if k in allowed then original[k] else Undefined
      invariant forall k :: k in remaining ==> user.doc[k] == original[k]
      decreases remaining
    {
      var k :| k in remaining;
      if k !in allowed {
        user.doc := user.doc[k := Undefined];
      }
      remaining := remaining - {k};
    }
    filtered := user;
  }

  /** Scrubbing the union of allowed, defined entries and disallowed ones leaves exactly the first. */
  lemma ScrubKeepsAllowed(pub: map<string, Value>, sec: map<string, Value>, allowed: seq<string>)
    requires forall k :: k in pub ==> k in allowed && pub[k] != Undefined
    requires forall k :: k in sec ==> k !in allowed
    ensures Scrubbed(pub + sec, allowed).Keys == (pub + sec).Keys
    ensures Defined(Scrubbed(pub + sec, allowed)) == pub
  {
    var d := Scrubbed(pub + sec, allowed);
    forall k | k in d
      ensures k in pub <==> d[k] != Undefined
      ensures k in pub ==> d[k] == pub[k]
    {
      if k !in pub {
        assert k in sec && k !in allowed;
      }
    }
    assert Defined(d) == pub;
  }

  /**
   * Scrubbing a loaded user keeps its keys, and what a client then sees is exactly the public
   * view: never the password, the reset token, its expiry or the change time.
   */
  lemma ScrubbedDocIsPublicView(u: User, withPassword: bool)
    ensures Scrubbed(DocOf(u, withPassword), UserProjection).Keys == DocOf(u, withPassword).Keys
    ensures Defined(Scrubbed(DocOf(u, withPassword), UserProjection)) == PublicView(u)
  {
    var pub, sec := PublicView(u), Secrets(u, withPassword);
    assert forall k :: k in pub ==> k in UserProjection && pub[k] != Undefined;
    assert "password" !in UserProjection && "passwordChangedAt" !in UserProjection;
    assert "passwordResetToken" !in UserProjection && "passwordResetExpires" !in UserProjection;
    ScrubKeepsAllowed(pub, sec, UserProjection);
  }

  datatype CookieOptions = CookieOptions(expires: int, httpOnly: bool, secure: bool)

  /** The server configuration and clock a token response depends on. */
  datatype Config = Config(nodeEnv: string, cookieDays: int, now: int)

  /** The `jwt` cookie: expires `cookieDays` days from now, HTTP-only, secure only in production. */
  function CookieFor(cfg: Config): (c: CookieOptions)
    ensures c.expires == cfg.now + cfg.cookieDays * 86400000
    ensures c.httpOnly && (c.secure <==> cfg.nodeEnv == "production")
  {
    CookieOptions(cfg.now + cfg.cookieDays * 24 * 60 * 60 * 1000, true, cfg.nodeEnv == "production")
  }

  /** `createAndSendToken`: the status, the signed token (also set as a cookie) and the user. */
  datatype TokenResponse = TokenResponse(statusCode: int, token: string, cookie: CookieOptions, user: map<string, Value>)

  function TokenFor(user: map<string, Value>, statusCode: int, sign: Value -> string, cfg: Config): (r: TokenResponse)
    ensures r.token == sign(Get(user, "_id")) && r.cookie == CookieFor(cfg)
    ensures r.statusCode == statusCode && r.user == user
  {
    TokenResponse(statusCode, sign(Get(user, "_id")), CookieFor(cfg), user)
  }

  /** The condition `{email: v}`: an undefined value drops out, leaving a condition every user meets. */
  function EmailIs(v: Value): User -> bool {
    (u: User) => v.Undefined? || v == Str(u.email)
  }

  /**
   * `login`: both fields must be truthy; an unknown email and a wrong password fail with the
   * same message; otherwise a token for the first listed user with that email.
   */
  method Login(body: map<string, Value>, users: seq<User>, correct: (Value, string) -> bool, sign: Value -> string,
               cfg: Config, trace: string) returns (r: Result<TokenResponse, ErrorValue>)
    ensures !Get(body, "email").Truthy() || !Get(body, "password").Truthy() ==>
      r == Failure(AppError("Please provide email and password!", Some(400), trace))
    ensures Get(body, "email").Truthy() && Get(body, "password").Truthy() ==>
      match FindOne(users, EmailIs(Get(body, "email")))
      case None => r == Failure(AppError("Incorrect email or password", Some(400), trace))
      case Some(i) =>
        if correct(Get(body, "password"), users[i].password)
        then r == Success(TokenFor(Scrubbed(DocOf(users[i], true), UserProjection), 200, sign, cfg))
        else r == Failure(AppError("Incorrect email or password", Some(400), trace))
  {
    var email, password := Get(body, "email"), Get(body, "password");
    if !email.Truthy() || !password.Truthy() {
      return Failure(AppError("Please provide email and password!", Some(400), trace));
    }
    var found := FindOne(users, EmailIs(email));
    if found.None? {
      return Failure(AppError("Incorrect email or password", Some(400), trace));
    }
    var user := users[found.value];
    if !correct(password, user.password) {
      return Failure(AppError("Incorrect email or password", Some(400), trace));
    }
    var raw := new RawDocument(DocOf(user, true));
    var filteredUser := FilterUser(raw, UserProjection);
    r := Success(TokenFor(filteredUser.doc, 200, sign, cfg));
  }

  /** What the token library makes of a token: its payload, or the error it throws. */
  datatype Verification = Decoded(id: Id, iat: int) | Malformed(message: string) | Expired

  /**
   * The token of an Authorization header: None when the header is missing or does not start
   * with `Bearer`, otherwise the second space-separated word (None inside when there is none).
   */
  function BearerToken(authorization: Option<string>): (r: Option<Option<string>>)
    ensures r.Some? <==> authorization.Some? && StartsWith(authorization.value, "Bearer")
    ensures r.Some? ==> r.value == (if |Split(authorization.value, ' ')| >= 2 then Some(Split(authorization.value, ' ')[1]) else None)
  {
    match authorization
    case None => None
    case Some(h) =>
      if !StartsWith(h, "Bearer") then None
      else
        var parts := Split(h, ' ');
        Some(if |parts| >= 2 then Some(parts[1]) else None)
  }

  const NotLoggedIn := "you're not logged in. Please login to get access"
  const UserGone := "The user that belongs to this token no longer exists"
  const PasswordChanged := "User recently changed his password. Please login again"

  /** The checks of `protect`, in order: header, token, user still listed, password unchanged since issue. */
  function Authenticate(authorization: Option<string>, verify: Option<string> -> Verification, users: seq<User>,
                        trace: string): (r: Result<User, ErrorValue>)
    ensures BearerToken(authorization).None? ==> r == Failure(AppError(NotLoggedIn, Some(401), trace))
    ensures r.Success? ==>
      BearerToken(authorization).Some? && verify(BearerToken(authorization).value).Decoded? &&
      r.value in users && Listed(r.value) && r.value.id == verify(BearerToken(authorization).value).id &&
      !ChangedPasswordAfter(r.value.passwordChangedAt, verify(BearerToken(authorization).value).iat)
  {
    match BearerToken(authorization)
    case None => Failure(AppError(NotLoggedIn, Some(401), trace))
    case Some(token) =>
      match verify(token)
      case Malformed(message) => Failure(LibraryError("JsonWebTokenError", message, trace))
      case Expired => Failure(LibraryError("TokenExpiredError", "jwt expired", trace))
      case Decoded(id, iat) =>
        match FindById(users, id)
        case None => Failure(AppError(UserGone, Some(401), trace))
        case Some(i) =>
          if ChangedPasswordAfter(users[i].passwordChangedAt, iat) then Failure(AppError(PasswordChanged, Some(401), trace))
          else Success(users[i])
  }

  /**
   * `protect` lets a request through exactly when the header carries a token that verifies, its
   * user is still listed and that user's password did not change after the token was issued;
   * each failure is the one of the first check that fails.
   */
  lemma ProtectPassesIff(authorization: Option<string>, verify: Option<string> -> Verification, users: seq<User>, trace: string)
    ensures var r := Authenticate(authorization, verify, users, trace);
      r.Success? <==>
        BearerToken(authorization).Some? && verify(BearerToken(authorization).value).Decoded? &&
        var v := verify(BearerToken(authorization).value);
        FindById(users, v.id).Some? && !ChangedPasswordAfter(users[FindById(users, v.id).value].passwordChangedAt, v.iat)
    ensures var r := Authenticate(authorization, verify, users, trace);
      BearerToken(authorization).Some? && verify(BearerToken(authorization).value).Malformed? ==>
        r.Failure? && r.error.name == "JsonWebTokenError" && !r.error.isOperational
    ensures var r := Authenticate(authorization, verify, users, trace);
      BearerToken(authorization).Some? && verify(BearerToken(authorization).value).Expired? ==>
        r.Failure? && r.error.name == "TokenExpiredError" && !r.error.isOperational
    ensures var r := Authenticate(authorization, verify, users, trace);
      BearerToken(authorization).Some? && verify(BearerToken(authorization).value).Decoded? ==>
        var v := verify(BearerToken(authorization).value);
        (FindById(users, v.id).None? ==> r == Failure(AppError(UserGone, Some(401), trace))) &&
        (FindById(users, v.id).Some? && ChangedPasswordAfter(users[FindById(users, v.id).value].passwordChangedAt, v.iat) ==>
          r == Failure(AppError(PasswordChanged, Some(401), trace)))
  {
  }

  /** The `protect` middleware: on success `req.user` becomes the scrubbed `_doc` of the user. */
  method Protect(req: Request, verify: Option<string> -> Verification, users: seq<User>, trace: string)
    returns (failure: Option<ErrorValue>)
    modifies req
    ensures var a := Authenticate(if "authorization" in req.headers then Some(req.headers["authorization"]) else None,
                                  verify, users, trace);
      (a.Failure? ==> failure == Some(a.error) && req.user == old(req.user)) &&
      (a.Success? ==> failure == None && req.user == Some(Scrubbed(DocOf(a.value, false), UserProjection)))
    ensures req.headers == old(req.headers) && req.query == old(req.query)
    ensures req.body == old(req.body) && req.params == old(req.params)
  {
    var authorization := if "authorization" in req.headers then Some(req.headers["authorization"]) else None;
    var a := Authenticate(authorization, verify, users, trace);
    if a.Failure? {
      return Some(a.error);
    }
    var raw := new RawDocument(DocOf(a.value, false));
    var filteredUser := FilterUser(raw, UserProjection);
    req.user := Some(filteredUser.doc);
    failure := None;
  }

  /** `restrictTo(...roles)`: 403 exactly when the current user's role is not one of `roles`. */
  function RestrictTo(roles: seq<string>, user: map<string, Value>, trace: string): (r: Option<ErrorValue>)
    ensures r.None? <==> Get(user, "role").Str? && Get(user, "role").s in roles
    ensures r.Some? ==> r.value == AppError("You do not have permession to perform this action", Some(403), trace)
  {
    var role := Get(user, "role");
    if role.Str? && role.s in roles then None
    else Some(AppError("You do not have permession to perform this action", Some(403), trace))
  }

  /** After `protect`, the role check decides on the stored user's own role. */
  lemma RestrictToAfterProtect(u: User, roles: seq<string>, trace: string)
    ensures RestrictTo(roles, Scrubbed(DocOf(u, false), UserProjection), trace).None? <==> u.role in roles
  {
    assert Get(Scrubbed(DocOf(u, false), UserProjection), "role") == Str(u.role);
  }

  /**
   * The `user` field of a review: populated with the user's fields, the bare reference, or
   * `null` when population found no user (the user was removed, or the pre-find hook on users
   * filtered it out).
   */
  datatype Owner = Populated(id: Id) | Reference(id: Id) | Vanished

  /** Reading `_id` of `null`: the runtime's TypeError, which is not operational. */
  function NullOwnerError(trace: string): (e: ErrorValue)
    ensures e.name == "TypeError" && !e.isOperational && e.statusCode == None
  {
    LibraryError("TypeError", "Cannot read property '_id' of null", trace)
  }

  /**
   * `userAuthentication(Model)`: a missing document gives 401 (not 404); the current user
   * passes exactly when it owns the document. A document whose user population came back
   * empty throws, so the error handler receives a TypeError instead of an AppError.
   */
  function UserAuthentication(userId: Value, doc: Option<Owner>, trace: string): (r: Option<ErrorValue>)
    ensures doc.None? ==> r == Some(AppError("No document found with that ID", Some(401), trace))
    ensures doc == Some(Vanished) ==> r == Some(NullOwnerError(trace))
    ensures doc.Some? && !doc.value.Vanished? ==> (r.None? <==> userId == Oid(doc.value.id))
    ensures doc.Some? && !doc.value.Vanished? && r.Some? ==>
      r.value == AppError("You are not authorized to do this action", Some(401), trace)
  {
    match doc
    case None => Some(AppError("No document found with that ID", Some(401), trace))
    case Some(Vanished) => Some(NullOwnerError(trace))
    case Some(owner) =>
      if userId == Oid(owner.id) then None
      else Some(AppError("You are not authorized to do this action", Some(401), trace))
  }

  /** The link the reset mail carries. */
  function ResetUrl(protocol: string, host: string, resetToken: string): (url: string)
    ensures |url| >= |resetToken| && url[|url| - |resetToken|..] == resetToken
  {
    protocol + "://" + host + "/api/v1/resetPassword/" + resetToken
  }

  const NoSuchEmail := "There is no user with this email"
  const MailFailed := "There was an error sending the email. Try again later."

  /**
   * `forgotPassword`: 404 for an unknown email; otherwise the digest of a fresh token and its
   * expiry are saved without validation and the raw token is mailed. When the mail cannot be
   * delivered both fields are cleared again and the result is 500.
   */
  method ForgotPassword(body: map<string, Value>, users: seq<User>, raw: string, now: int, sha256: string -> string,
                        bcrypt: string -> string, protocol: string, host: string, deliver: (string, string) -> bool,
                        trace: string) returns (r: Result<string, ErrorValue>, stored: seq<User>)
    ensures FindOne(users, EmailIs(Get(body, "email"))).None? ==>
      r == Failure(AppError(NoSuchEmail, Some(404), trace)) && stored == users
    ensures FindOne(users, EmailIs(Get(body, "email"))).Some? ==>
      var i := FindOne(users, EmailIs(Get(body, "email"))).value;
      var u := users[i];
      if deliver(u.email, ResetUrl(protocol, host, raw))
      then r == Success("Token sent to email!") &&
           stored == users[i := u.(passwordResetToken := Some(sha256(raw)), passwordResetExpires := Some(now + 600000))]
      else r == Failure(AppError(MailFailed, Some(500), trace)) &&
           stored == users[i := u.(passwordResetToken := None, passwordResetExpires := None)]
  {
    var found := FindOne(users, EmailIs(Get(body, "email")));
    if found.None? {
      return Failure(AppError(NoSuchEmail, Some(404), trace)), users;
    }
    var at := found.value;
    ghost var u := users[at];
    var user := new UserDocument.Load(users[at], false);
    var resetToken := user.CreatePasswordResetToken(raw, now, sha256);
    var saved := user.Save(users, at, false, now, bcrypt, trace);
    stored := saved.value;
    assert stored == users[at := u.(passwordResetToken := Some(sha256(raw)), passwordResetExpires := Some(now + 600000))];
    var resetURL := ResetUrl(protocol, host, resetToken);
    if deliver(user.email, resetURL) {
      return Success("Token sent to email!"), stored;
    }
    user.ClearResetToken();
    saved := user.Save(stored, at, false, now, bcrypt, trace);
    stored := saved.value;
    r := Failure(AppError(MailFailed, Some(500), trace));
  }

  /** `{ passwordResetToken: digest, passwordResetExpires: { $gt: now } }`. */
  function ResetTokenIs(digest: string, now: int): User -> bool {
    (u: User) => u.passwordResetToken == Some(digest) && u.passwordResetExpires.Some? && u.passwordResetExpires.value > now
  }

  /** A body field as the string path casts it; anything but a string counts as missing. */
  function AsText(v: Value): Option<string> {
    if v.Str? then Some(v.s) else None
  }

  /** The validators a reset runs: the stored user's fields with the new password and confirmation. */
  function ResetErrors(u: User, body: map<string, Value>): seq<FieldError> {
    UserErrors(u.name, u.email, u.role, AsText(Get(body, "password")), true, AsText(Get(body, "passwordConfirm")))
  }

  /**
   * `resetPassword`: the user whose stored digest matches the token's and whose expiry is still
   * ahead gets the new password (validated, hashed, change time back-dated by one second) and
   * loses both reset fields; any other token gives 400 and changes nothing.
   */
  method ResetPassword(token: string, body: map<string, Value>, users: seq<User>, sha256: string -> string,
                       bcrypt: string -> string, sign: Value -> string, cfg: Config, trace: string)
    returns (r: Result<TokenResponse, ErrorValue>, stored: seq<User>)
    ensures FindOne(users, ResetTokenIs(sha256(token), cfg.now)).None? ==>
      r == Failure(AppError("Token is invalid or has expired", Some(400), trace)) && stored == users
    ensures FindOne(users, ResetTokenIs(sha256(token), cfg.now)).Some? ==>
      var i := FindOne(users, ResetTokenIs(sha256(token), cfg.now)).value;
      var u := users[i];
      if ResetErrors(u, body) != []
      then r == Failure(UserValidationError(ResetErrors(u, body), trace)) && stored == users
      else
        var changed := u.(password := bcrypt(Get(body, "password").s), passwordChangedAt := Some(cfg.now - 1000),
                          passwordResetToken := None, passwordResetExpires := None);
        stored == users[i := changed] &&
        r == Success(TokenFor(Scrubbed(DocOf(changed, true), UserProjection), 200, sign, cfg))
  {
    var hashedToken := sha256(token);
    var found := FindOne(users, ResetTokenIs(hashedToken, cfg.now));
    if found.None? {
      return Failure(AppError("Token is invalid or has expired", Some(400), trace)), users;
    }
    var at := found.value;
    ghost var u := users[at];
    var user := new UserDocument.Load(users[at], false);
    user.SetPassword(AsText(Get(body, "password")), AsText(Get(body, "passwordConfirm")));
    user.ClearResetToken();
    ghost var updatedState := user.State();
    assert ValidationErrorsOf(updatedState) == ResetErrors(u, body);
    var saved := user.Save(users, at, true, cfg.now, bcrypt, trace);
    if saved.Failure? {
      return Failure(saved.error), users;
    }
    stored := saved.value;
    assert StoredUser(PreSaveHook(updatedState, cfg.now, bcrypt), u) ==
      u.(password := bcrypt(Get(body, "password").s), passwordChangedAt := Some(cfg.now - 1000),
         passwordResetToken := None, passwordResetExpires := None);
    var raw := new RawDocument(DocOf(stored[at], true));
    var filteredUser := FilterUser(raw, UserProjection);
    r := Success(TokenFor(filteredUser.doc, 200, sign, cfg));
  }

  /**
   * The reset token's lifetime: once a user's fields hold the digest of `raw` from a request at
   * `issued`, a reset at `now` finds that user exactly while `now` is less than ten minutes later
   * (when no other listed user holds a live token with the same digest).
   */
  lemma ResetTokenLifetime(users: seq<User>, i: nat, raw: string, issued: int, now: int, sha256: string -> string)
    requires i < |users| && Listed(users[i])
    requires forall j :: 0 <= j < |users| && j != i ==> !(Listed(users[j]) && ResetTokenIs(sha256(raw), now)(users[j]))
    ensures var updated := users[i := users[i].(passwordResetToken := Some(sha256(raw)), passwordResetExpires := Some(issued + 600000))];
      (FindOne(updated, ResetTokenIs(sha256(raw), now)).Some? <==> now < issued + 600000) &&
      (now < issued + 600000 ==> FindOne(updated, ResetTokenIs(sha256(raw), now)) == Some(i))
  {
    var updated := users[i := users[i].(passwordResetToken := Some(sha256(raw)), passwordResetExpires := Some(issued + 600000))];
    assert Listed(updated[i]);
    assert forall j :: 0 <= j < |updated| && j != i ==> updated[j] == users[j];
  }
}
