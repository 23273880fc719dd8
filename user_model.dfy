/**
 * The user document: its stored fields, the validators that run before a save, the hook that
 * hashes a modified password and back-dates the change time, the hook that hides deactivated
 * users from every find, and the password-reset token.
 *
 * The store is a value (a sequence of users); a document loaded from it is a `UserDocument`
 * whose fields the handlers change in place and which `Save` writes back.
 */
module UserModel {
  import opened Wrappers
  import opened Text
  import opened Http
  import opened MongoQuery
  import opened AppErrors

  const Roles: seq<string> := ["user", "guide", "lead-guide", "admin"]
  const DefaultRole := "user"
  const MinPasswordLength := 8
  /** Ten minutes, in milliseconds. */
  const ResetTokenLifetime := 10 * 60 * 1000

  /** A stored user. Times are milliseconds since the epoch; `password` is the stored hash. */
  datatype User = User(
    id: Id,
    name: string,
    email: string,
    role: string,
    password: string,
    passwordChangedAt: Option<int>,
    passwordResetToken: Option<string>,
    passwordResetExpires: Option<int>,
    active: Option<bool>)

  /** The `active` field as a stored document holds it (absent in documents written before it existed). */
  function ActiveField(u: User): Option<Value> {
    match u.active
    case None => None
    case Some(b) => Some(Bool(b))
  }

  /** The value a stored user holds at each path a query condition can name. */
  function UserField(u: User): string -> Option<Value> {
    (path: string) =>
      if path == "_id" then Some(Oid(u.id))
      else if path == "name" then Some(Str(u.name))
      else if path == "email" then Some(Str(u.email))
      else if path == "role" then Some(Str(u.role))
      else if path == "active" then ActiveField(u)
      else None
  }

  /** The condition the pre-find hook adds to the finds it is registered for. */
  const ActiveFilter: Directive := FindNe("active", Bool(false))

  /** The pre-find hook: adds the active condition to the query being built. */
  function PreFind(q: Query): (r: Query)
    ensures |r| == |q| + 1 && r[..|q|] == q && r[|q|] == ActiveFilter
  {
    q + [ActiveFilter]
  }

  /** A hooked query admits exactly the users the query admitted whose `active` is not false. */
  lemma PreFindAdmits(q: Query, u: User)
    ensures NeAdmits(PreFind(q), UserField(u)) <==> NeAdmits(q, UserField(u)) && u.active != Some(false)
  {
    NeAdmitsAppend(q, "active", Bool(false), UserField(u));
  }

  /** Whether the user pre-find hook lets a stored user through: its `active` is not false. */
  predicate Listed(u: User) {
    u.active != Some(false)
  }

  /**
   * `Listed` is exactly what the hooked query admits when it carries no other `$ne` condition;
   * a user without the field is found.
   */
  lemma ListedIffNotDeactivated(u: User)
    ensures Listed(u) <==> NeAdmits(PreFind([]), UserField(u))
    ensures u.active == None ==> Listed(u)
  {
    PreFindAdmits([], u);
  }

  /**
   * Registering `pre(/^find/g, fn)` tests one global RegExp on each hook name in turn. A match
   * leaves `lastIndex` at 4, the length of `find`; the next test then starts there, where `^`
   * cannot match, fails and resets `lastIndex` to 0. `hooked[i]` says whether `names[i]` gets
   * the hook; `lastIndex` is the RegExp's state before the first name.
   */
  function GlobalRegexHooks(names: seq<string>, lastIndex: nat): (hooked: seq<bool>)
    ensures |hooked| == |names|
    ensures forall i :: 0 <= i < |names| && hooked[i] ==> StartsWith(names[i], "find")
    decreases |names|
  {
    if names == [] then []
    else
      var matched := lastIndex == 0 && StartsWith(names[0], "find");
      [matched] + GlobalRegexHooks(names[1..], if matched then 4 else 0)
  }

  /** A name gets the hook exactly when it starts with `find` and the name tested before it did not. */
  lemma {:induction false} GlobalRegexHooksIff(names: seq<string>, lastIndex: nat, i: nat)
    requires i < |names|
    ensures i == 0 ==> (GlobalRegexHooks(names, lastIndex)[0] <==> lastIndex == 0 && StartsWith(names[0], "find"))
    ensures i > 0 ==> (GlobalRegexHooks(names, lastIndex)[i] <==>
      StartsWith(names[i], "find") && !GlobalRegexHooks(names, lastIndex)[i - 1])
    decreases i
  {
    if i > 0 {
      var h := GlobalRegexHooks(names, lastIndex);
      var matched := lastIndex == 0 && StartsWith(names[0], "find");
      var next := if matched then 4 else 0;
      var t := GlobalRegexHooks(names[1..], next);
      assert h == [matched] + t;
      assert h[i] == t[i - 1] && h[i - 1] == if i == 1 then matched else t[i - 2];
      GlobalRegexHooksIff(names[1..], next, i - 1);
    }
  }

  /**
   * The hook list names `findOne` right after `find`: with the global RegExp `find` gets the
   * hook and `findOne`, tested next, does not.
   */
  lemma GlobalRegexSkipsFindOne(names: seq<string>, i: nat)
    requires i + 1 < |names| && names[i] == "find" && names[i + 1] == "findOne"
    requires i > 0 ==> !StartsWith(names[i - 1], "find")
    ensures GlobalRegexHooks(names, 0)[i] && !GlobalRegexHooks(names, 0)[i + 1]
  {
    assert StartsWith(names[i], "find") && StartsWith(names[i + 1], "find");
    if i > 0 {
      GlobalRegexHooksIff(names, 0, i - 1);
    }
    GlobalRegexHooksIff(names, 0, i);
    GlobalRegexHooksIff(names, 0, i + 1);
  }

  /**
   * `findOne(conditions)` when the pre-find hook runs: the position of the first listed user
   * that satisfies the conditions, or None.
   */
  function FindOne(users: seq<User>, matches: User -> bool): (r: Option<nat>)
    ensures r.Some? ==> r.value < |users| && Listed(users[r.value]) && matches(users[r.value])
    ensures r.Some? ==> forall j :: 0 <= j < r.value ==> !(Listed(users[j]) && matches(users[j]))
    ensures r.None? ==> forall j :: 0 <= j < |users| ==> !(Listed(users[j]) && matches(users[j]))
    decreases |users|
  {
    if users == [] then None
    else if Listed(users[0]) && matches(users[0]) then Some(0)
    else
      match FindOne(users[1..], matches)
      case None => None
      case Some(i) => Some(i + 1)
  }

  /** `findOne(conditions)` when the hook does not run: the first user that satisfies the conditions. */
  function FindFirst(users: seq<User>, matches: User -> bool): (r: Option<nat>)
    ensures r.Some? ==> r.value < |users| && matches(users[r.value])
    ensures r.Some? ==> forall j :: 0 <= j < r.value ==> !matches(users[j])
    ensures r.None? ==> forall j :: 0 <= j < |users| ==> !matches(users[j])
    decreases |users|
  {
    if users == [] then None
    else if matches(users[0]) then Some(0)
    else
      match FindFirst(users[1..], matches)
      case None => None
      case Some(i) => Some(i + 1)
  }

  /**
   * With the global RegExp and `findOne` listed right after `find`, a `findOne` runs without the
   * hook: a deactivated user is found, where the hooked find skips it.
   */
  lemma DeactivatedUserFoundAsWritten(names: seq<string>, i: nat, users: seq<User>, matches: User -> bool, k: nat)
    requires i + 1 < |names| && names[i] == "find" && names[i + 1] == "findOne"
    requires i > 0 ==> !StartsWith(names[i - 1], "find")
    requires k < |users| && matches(users[k]) && users[k].active == Some(false)
    requires forall j :: 0 <= j < k ==> !matches(users[j])
    ensures !GlobalRegexHooks(names, 0)[i + 1]
    ensures FindFirst(users, matches) == Some(k)
    ensures FindOne(users, matches) != Some(k)
  {
    GlobalRegexSkipsFindOne(names, i);
    ListedIffNotDeactivated(users[k]);
  }

  /** `findById(id)`: the first listed user with this id. */
  function FindById(users: seq<User>, id: Id): (r: Option<nat>)
    ensures r.Some? ==> r.value < |users| && Listed(users[r.value]) && users[r.value].id == id
    ensures r.Some? ==> forall j :: 0 <= j < r.value ==> !(Listed(users[j]) && users[j].id == id)
    ensures r.None? ==> forall j :: 0 <= j < |users| ==> !(Listed(users[j]) && users[j].id == id)
  {
    FindOne(users, (u: User) => u.id == id)
  }

  /** `parseInt(x / 1000, 10)` for an integer x: the quotient truncated toward zero. */
  function Seconds(ms: int): (s: int)
    ensures ms >= 0 ==> s == ms / 1000
    ensures ms < 0 ==> s == -((-ms) / 1000)
  {
    if ms >= 0 then ms / 1000 else -((-ms) / 1000)
  }

  /** `changedPasswordAfter(iat)`: whether the password changed in a later second than the token was issued. */
  function ChangedPasswordAfter(passwordChangedAt: Option<int>, iat: int): bool {
    match passwordChangedAt
    case None => false
    case Some(ms) => Seconds(ms) > iat
  }

  /** With no change time the token is never rejected; otherwise it is rejected iff the change falls in a later second. */
  lemma ChangedPasswordAfterIff(passwordChangedAt: Option<int>, iat: int)
    ensures passwordChangedAt == None ==> !ChangedPasswordAfter(passwordChangedAt, iat)
    ensures forall c: nat :: passwordChangedAt == Some(c) ==>
      (ChangedPasswordAfter(passwordChangedAt, iat) <==> c >= 1000 * (iat + 1))
  {
  }

  /** The issued-at second the token library records for a token signed at `ms`. */
  function IssuedAt(ms: int): int { ms / 1000 }

  /**
   * The one-second back-dating: a token signed at most one second before the save that changed
   * the password, or any time after it, is still accepted.
   */
  lemma TokenAroundSaveAccepted(savedAt: int, signedAt: int)
    requires savedAt >= 1000 && signedAt >= savedAt - 1000
    ensures !ChangedPasswordAfter(Some(savedAt - 1000), IssuedAt(signedAt))
  {
  }

  /** A token signed two seconds or more before the change is rejected. */
  lemma TokenBeforeChangeRejected(savedAt: int, signedAt: int)
    requires signedAt >= 0 && signedAt + 2000 <= savedAt
    ensures ChangedPasswordAfter(Some(savedAt - 1000), IssuedAt(signedAt))
  {
    assert (savedAt - 1000) / 1000 >= (signedAt + 1000) / 1000 == signedAt / 1000 + 1;
  }

  /** A failing validator: the path and the message the document mapper reports for it. */
  datatype FieldError = FieldError(path: string, message: string)

  /** A required string path fails when absent or empty. */
  function RequiredError(path: string, value: Option<string>, message: string): (r: Option<FieldError>)
    ensures r.Some? <==> value == None || value == Some("")
  {
    if value == None || value == Some("") then Some(FieldError(path, message)) else None
  }

  function MinLengthMessage(path: string, value: string, min: nat): string {
    "Path `" + path + "` (`" + value + "`) is shorter than the minimum allowed length (" + NatText(min) + ")."
  }

  function RoleError(role: string): (r: Option<FieldError>)
    ensures r.None? <==> role in Roles
  {
    if role in Roles then None
    else Some(FieldError("role", "`" + role + "` is not a valid enum value for path `role`."))
  }

  /** The password validators, first failing one only: required, then minlength 8. */
  function PasswordError(password: Option<string>): (r: Option<FieldError>)
    ensures r.None? <==> password.Some? && |password.value| >= MinPasswordLength
  {
    match password
    case None => RequiredError("password", password, "A user must have a password")
    case Some(p) =>
      if p == "" then RequiredError("password", password, "A user must have a password")
      else if |p| < MinPasswordLength then Some(FieldError("password", MinLengthMessage("password", p, MinPasswordLength)))
      else None
  }

  /** The confirmation validators: required, then minlength 8, then equal to the password being saved. */
  function ConfirmError(confirm: Option<string>, password: Option<string>): (r: Option<FieldError>)
    ensures r.None? <==> confirm.Some? && |confirm.value| >= MinPasswordLength && password == confirm
  {
    match confirm
    case None => RequiredError("passwordConfirm", confirm, "A user must confirm his password")
    case Some(c) =>
      if c == "" then RequiredError("passwordConfirm", confirm, "A user must confirm his password")
      else if |c| < MinPasswordLength then Some(FieldError("passwordConfirm", MinLengthMessage("passwordConfirm", c, MinPasswordLength)))
      else if password != confirm then Some(FieldError("passwordConfirm", "The user's password has to match the confirmation password"))
      else None
  }

  function Present(e: Option<FieldError>): seq<FieldError> {
    if e.Some? then [e.value] else []
  }

  function FieldMessages(errors: seq<FieldError>): (r: seq<string>)
    ensures |r| == |errors| && forall i :: 0 <= i < |errors| ==> r[i] == errors[i].message
  {
    if errors == [] then [] else [errors[0].message] + FieldMessages(errors[1..])
  }

  function PathMessages(errors: seq<FieldError>): string {
    if errors == [] then ""
    else if |errors| == 1 then errors[0].path + ": " + errors[0].message
    else errors[0].path + ": " + errors[0].message + ", " + PathMessages(errors[1..])
  }

  /** The error a save throws when validators fail. */
  function UserValidationError(errors: seq<FieldError>, trace: string): (e: ErrorValue)
    ensures e.name == "ValidationError" && e.fieldMessages == FieldMessages(errors)
  {
    ValidationError("User validation failed: " + PathMessages(errors), FieldMessages(errors), trace)
  }

  /**
   * The error update validators throw (`runValidators` on a findOneAndUpdate query): the error is
   * built without a document, so its message names no model.
   */
  function UpdateValidationError(errors: seq<FieldError>, trace: string): (e: ErrorValue)
    ensures e.name == "ValidationError" && e.fieldMessages == FieldMessages(errors)
    ensures |e.message| >= 19 && e.message[..19] == "Validation failed: "
  {
    ValidationError("Validation failed: " + PathMessages(errors), FieldMessages(errors), trace)
  }

  /**
   * The failing validators, listed in the order the schema declares the paths, for the paths this model validates: name and
   * email required, role in the enum, the password when it is loaded or set, the confirmation.
   */
  function UserErrors(name: string, email: string, role: string, password: Option<string>, checkPassword: bool,
                      confirm: Option<string>): (r: seq<FieldError>)
    ensures r == [] <==> (
      name != "" && email != "" && role in Roles &&
      (checkPassword ==> password.Some? && |password.value| >= MinPasswordLength) &&
      confirm.Some? && |confirm.value| >= MinPasswordLength && password == confirm)
  {
    Present(RequiredError("name", Some(name), "A user must have a name"))
    + Present(RequiredError("email", Some(email), "A user must have an email"))
    + Present(RoleError(role))
    + (if checkPassword then Present(PasswordError(password)) else [])
    + Present(ConfirmError(confirm, password))
  }

  /** The default of a newly created user's role. */
  function RoleOrDefault(role: Option<string>): (r: string)
    ensures role == None ==> r == "user"
    ensures role.Some? ==> r == role.value
  {
    role.GetOr(DefaultRole)
  }

  /** Every field of a user document, including the state the save hooks consult. */
  datatype DocState = DocState(
    id: Id,
    name: string,
    email: string,
    role: string,
    password: Option<string>,
    passwordConfirm: Option<string>,
    passwordChangedAt: Option<int>,
    passwordResetToken: Option<string>,
    passwordResetExpires: Option<int>,
    active: Option<bool>,
    isNew: bool,
    passwordModified: bool)

  /** A stored user as loaded; `withPassword` is `.select('+password')`. */
  function Loaded(u: User, withPassword: bool): (s: DocState)
    ensures !s.isNew && !s.passwordModified && s.passwordConfirm == None
  {
    DocState(u.id, u.name, u.email, u.role, if withPassword then Some(u.password) else None, None,
             u.passwordChangedAt, u.passwordResetToken, u.passwordResetExpires, u.active, false, false)
  }

  /** The user a document writes back, given the stored user it was loaded from. */
  function StoredUser(s: DocState, previous: User): User {
    User(s.id, s.name, s.email, s.role, s.password.GetOr(previous.password), s.passwordChangedAt,
         s.passwordResetToken, s.passwordResetExpires, s.active)
  }

  /** Writing back an unchanged loaded document stores the user it was loaded from. */
  lemma LoadedRoundTrip(u: User, withPassword: bool)
    ensures StoredUser(Loaded(u, withPassword), u) == u
  {
  }

  /** The failing validators of a document: the password is checked when loaded or set. */
  function ValidationErrorsOf(s: DocState): seq<FieldError> {
    UserErrors(s.name, s.email, s.role, s.password, s.password.Some? || s.passwordModified, s.passwordConfirm)
  }

  /** The pre-save hook's effect on a document. */
  function PreSaveHook(s: DocState, now: int, bcrypt: string -> string): DocState {
    var hashed := if s.passwordModified && s.password.Some? then Some(bcrypt(s.password.value)) else s.password;
    var changedAt := if s.passwordModified && !s.isNew then Some(now - 1000) else s.passwordChangedAt;
    s.(password := hashed, passwordChangedAt := changedAt, passwordConfirm := None)
  }

  /**
   * The pre-save hook hashes a modified password and leaves an unmodified one alone; it sets
   * the change time to one second before `now` exactly when the password was modified on a
   * document that is not new; it always drops the confirmation and touches nothing else.
   */
  lemma PreSaveHookEffects(s: DocState, now: int, bcrypt: string -> string)
    ensures var t := PreSaveHook(s, now, bcrypt);
      (s.passwordModified && s.password.Some? ==> t.password == Some(bcrypt(s.password.value))) &&
      (!s.passwordModified ==> t.password == s.password && t.passwordChangedAt == s.passwordChangedAt) &&
      (s.isNew ==> t.passwordChangedAt == s.passwordChangedAt) &&
      (s.passwordModified && !s.isNew ==> t.passwordChangedAt == Some(now - 1000)) &&
      t.passwordConfirm == None &&
      t.(password := s.password, passwordChangedAt := s.passwordChangedAt, passwordConfirm := s.passwordConfirm) == s
  {
  }

  /** A user as loaded or created, whose fields the handlers set one by one before saving. */
  class UserDocument {
    var id: Id
    var name: string
    var email: string
    var role: string
    /** The plain password after it was set, the stored hash when it was selected, None when not loaded. */
    var password: Option<string>
    /** Never stored: only present between setting it and the save. */
    var passwordConfirm: Option<string>
    var passwordChangedAt: Option<int>
    var passwordResetToken: Option<string>
    var passwordResetExpires: Option<int>
    var active: Option<bool>
    var isNew: bool
    /** `isModified('password')`. */
    var passwordModified: bool

    function State(): DocState
      reads this
    {
      DocState(id, name, email, role, password, passwordConfirm, passwordChangedAt, passwordResetToken,
               passwordResetExpires, active, isNew, passwordModified)
    }

    constructor Load(u: User, withPassword: bool)
      ensures State() == Loaded(u, withPassword)
    {
      id, name, email, role := u.id, u.name, u.email, u.role;
      password := if withPassword then Some(u.password) else None;
      passwordConfirm := None;
      passwordChangedAt, passwordResetToken, passwordResetExpires := u.passwordChangedAt, u.passwordResetToken, u.passwordResetExpires;
      active := u.active;
      isNew := false;
      passwordModified := false;
    }

    /** `User.create(...)`: a new, active document with the default role unless one is given. */
    constructor Create(id: Id, name: string, email: string, role: Option<string>, password: string, confirm: Option<string>)
      ensures State() == DocState(id, name, email, RoleOrDefault(role), Some(password), confirm, None, None, None,
                                  Some(true), true, true)
    {
      this.id, this.name, this.email := id, name, email;
      this.role := RoleOrDefault(role);
      this.password := Some(password);
      passwordConfirm := confirm;
      passwordChangedAt, passwordResetToken, passwordResetExpires := None, None, None;
      active := Some(true);
      isNew := true;
      passwordModified := true;
    }

    /** `user.password = p; user.passwordConfirm = c`. */
    method SetPassword(p: Option<string>, c: Option<string>)
      modifies this
      ensures State() == old(State()).(password := p, passwordConfirm := c, passwordModified := true)
    {
      password := p;
      passwordConfirm := c;
      passwordModified := true;
    }

    /** `user.passwordResetToken = undefined; user.passwordResetExpires = undefined`. */
    method ClearResetToken()
      modifies this
      ensures State() == old(State()).(passwordResetToken := None, passwordResetExpires := None)
    {
      passwordResetToken := None;
      passwordResetExpires := None;
    }

    /**
     * `createPasswordResetToken()`: `raw` stands for the 32 random bytes in hex, `sha256` for the
     * hex digest. The document keeps only the digest and an expiry ten minutes from `now`; the
     * raw token is returned for the mail.
     */
    method CreatePasswordResetToken(raw: string, now: int, sha256: string -> string) returns (token: string)
      modifies this
      ensures token == raw
      ensures State() == old(State()).(passwordResetToken := Some(sha256(raw)), passwordResetExpires := Some(now + 600000))
    {
      passwordResetToken := Some(sha256(raw));
      passwordResetExpires := Some(now + ResetTokenLifetime);
      token := raw;
    }

    /** The pre-save hook, run on this document. */
    method PreSave(now: int, bcrypt: string -> string)
      modifies this
      ensures State() == PreSaveHook(old(State()), now, bcrypt)
    {
      if passwordModified {
        if password.Some? {
          password := Some(bcrypt(password.value));
        }
        if !isNew {
          passwordChangedAt := Some(now - 1000);
        }
      }
      passwordConfirm := None;
    }

    /**
     * `save({ validateBeforeSave })` of a loaded document into the store at position `at`:
     * validators first (the store and the document stay as they were if one fails), then the
     * pre-save hook, then the write.
     */
    method Save(users: seq<User>, at: nat, validateBeforeSave: bool, now: int, bcrypt: string -> string, trace: string)
      returns (r: Result<seq<User>, ErrorValue>)
      requires at < |users|
      modifies this
      ensures validateBeforeSave && ValidationErrorsOf(old(State())) != [] ==>
        r == Failure(UserValidationError(ValidationErrorsOf(old(State())), trace)) && State() == old(State())
      ensures !(validateBeforeSave && ValidationErrorsOf(old(State())) != []) ==>
        State() == PreSaveHook(old(State()), now, bcrypt) &&
        r == Success(users[at := StoredUser(State(), users[at])])
    {
      if validateBeforeSave {
        var errors := ValidationErrorsOf(State());
        if errors != [] {
          return Failure(UserValidationError(errors, trace));
        }
      }
      PreSave(now, bcrypt);
      r := Success(users[at := StoredUser(State(), users[at])]);
    }
  }

  /** A reset confirmed with matching, long-enough passwords passes the validators it touches. */
  lemma MatchingPasswordsValidate(p: string)
    requires |p| >= MinPasswordLength
    ensures PasswordError(Some(p)).None? && ConfirmError(Some(p), Some(p)).None?
  {
  }

  /** A confirmation passes iff it equals the password; a short password is refused with its own message. */
  lemma ConfirmationMustMatch(p: string, c: string)
    requires |c| >= MinPasswordLength
    ensures ConfirmError(Some(c), Some(p)).None? <==> p == c
    ensures |p| < MinPasswordLength && p != "" ==> PasswordError(Some(p)) == Some(FieldError("password", MinLengthMessage("password", p, 8)))
  {
  }
}
