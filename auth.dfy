/**
 * The authentication controller (controllers/auth.js): `register` creates an
 * account and answers with its token; `login` runs three early-return guards
 * (credentials present, account exists, password matches) before answering
 * with the account and its token.
 *
 * The database is a user store keyed by email. Password comparison
 * (`matchPassword`, a bcrypt compare) and token signing
 * (`getSignedJwtToken`) belong to the User model and are parameters here.
 */
module AuthController {
  import opened Wrappers
  import opened ErrorMiddleware

  /** A stored account, as `User.create` receives it. */
  datatype User = User(name: Option<string>, email: string, password: Option<string>, role: Option<string>)

  /** The request body `req.body`; a missing field is `None`. */
  datatype RequestBody = RequestBody(name: Option<string>, email: Option<string>, password: Option<string>, role: Option<string>)

  /** The User model's opaque methods. */
  datatype Oracles = Oracles(matchPassword: (User, string) -> bool, signedJwtToken: User -> string)

  /** `{success: true, user, token}` sent with a status, or a failure passed to `next`. */
  datatype LoginResult =
    | Granted(status: int, success: bool, user: User, token: string)
    | Rejected(error: ErrorResponse)

  datatype RegisterResult =
    | Created(status: int, success: bool, user: User, token: string)
    | Failed(failure: Failure)

  const MissingCredentialsMessage := "Please provide and email & password"
  const UnknownEmailMessage := "Email can not registered yet."
  const WrongPasswordMessage := "Invalid Password."

  /** JavaScript truthiness of a string field: undefined and "" are falsy. */
  predicate Truthy(s: Option<string>) {
    s.Some? && s.value != ""
  }

  /** Every account is stored under its own email. */
  predicate KeyedByEmail(users: map<string, User>) {
    forall e :: e in users ==> users[e].email == e
  }

  /** The checks `login` makes, in the order it makes them. */
  datatype Guard = Presence | Existence | PasswordMatch

  const LoginGuards: seq<Guard> := [Presence, Existence, PasswordMatch]

  /** Whether a guard passes for this store and body. */
  predicate Holds(g: Guard, users: map<string, User>, body: RequestBody, o: Oracles) {
    match g
    case Presence => Truthy(body.email) && Truthy(body.password)
    case Existence => body.email.Some? && body.email.value in users
    case PasswordMatch =>
      body.email.Some? && body.email.value in users && body.password.Some? &&
      o.matchPassword(users[body.email.value], body.password.value)
  }

  /** The error a failing guard passes to `next`. */
  function GuardError(g: Guard): ErrorResponse {
    match g
    case Presence => ErrorResponse(Text(MissingCredentialsMessage), 400)
    case Existence => ErrorResponse(Text(UnknownEmailMessage), 401)
    case PasswordMatch => ErrorResponse(Text(WrongPasswordMessage), 401)
  }

  /** The first guard of `gs` that fails, if any. */
  function FirstFailing(gs: seq<Guard>, users: map<string, User>, body: RequestBody, o: Oracles): (g: Option<Guard>)
    ensures g.None? <==> forall i :: 0 <= i < |gs| ==> Holds(gs[i], users, body, o)
    ensures g.Some? ==>
      exists k :: 0 <= k < |gs| && gs[k] == g.value && !Holds(gs[k], users, body, o) &&
                  forall i :: 0 <= i < k ==> Holds(gs[i], users, body, o)
  {
    if gs == [] then None
    else if !Holds(gs[0], users, body, o) then Some(gs[0])
    else
      var rest := FirstFailing(gs[1..], users, body, o);
      assert forall i :: 1 <= i < |gs| ==> gs[i] == gs[1..][i - 1];
      rest
  }

  /** What `login` answers: the first failing guard's error, or the account and its token. */
  function LoginOutcome(users: map<string, User>, body: RequestBody, o: Oracles): LoginResult {
    match FirstFailing(LoginGuards, users, body, o)
    case Some(g) => Rejected(GuardError(g))
    case None =>
      assert Holds(LoginGuards[1], users, body, o);
      var u := users[body.email.value];
      Granted(200, true, u, o.signedJwtToken(u))
  }

  /** The account `register` creates from the body fields name, email, password and role. */
  function NewUser(body: RequestBody): User
    requires body.email.Some?
  {
    User(body.name, body.email.value, body.password, body.role)
  }

  /** The data layer's failure for a second account with a known email. */
  function DuplicateKeyFailure(email: string): Failure
  {
    Failure("MongoError", Some(DuplicateKeyCode), "undefined", None, None, None,
            "E11000 duplicate key error: email " + email, "")
  }

  /** The data layer's failure when the User schema rejects the body. */
  function SchemaFailure(errs: seq<FieldError>): Failure
  {
    Failure(ValidationErrorName, None, "undefined", Some(errs), None, None, "User validation failed", "")
  }

  /**
   * What the error middleware receives when a controller calls `next(error)`:
   * a plain record, so `name` is undefined and both fields reach the spread.
   */
  function Raised(e: ErrorResponse): Failure
  {
    Failure("", None, "undefined", None, Some(e.statusCode), Some(e.message), "", "")
  }

  class UserStore {
    var users: map<string, User>

    ghost predicate Valid()
      reads this
    {
      KeyedByEmail(users)
    }

    constructor ()
      ensures Valid() && users == map[]
    {
      users := map[];
    }

    /**
     * `register`: `User.create({name, email, password, role})`, then the
     * token. `schemaErrors` is the User schema's verdict on the body (the
     * schema is not part of this model; it is taken to require an email).
     * Validation runs before the insert; a known email then fails as a
     * duplicate key.
     */
    method Register(body: RequestBody, schemaErrors: seq<FieldError>, o: Oracles) returns (r: RegisterResult)
      requires Valid()
      requires body.email.None? ==> schemaErrors != []
      modifies this
      ensures Valid()
      ensures schemaErrors != [] ==> r == Failed(SchemaFailure(schemaErrors)) && users == old(users)
      ensures schemaErrors == [] && body.email.value in old(users) ==>
        r == Failed(DuplicateKeyFailure(body.email.value)) && users == old(users)
      ensures schemaErrors == [] && body.email.value !in old(users) ==>
        && r == Created(200, true, NewUser(body), o.signedJwtToken(NewUser(body)))
        && users == old(users)[body.email.value := NewUser(body)]
      // exactly one record is added; every other record is unchanged
      ensures r.Created? ==>
        && users.Keys == old(users).Keys + {body.email.value}
        && |users| == |old(users)| + 1
        && forall e :: e in old(users) ==> e in users && users[e] == old(users)[e]
    {
      if schemaErrors != [] {
        return Failed(SchemaFailure(schemaErrors));
      }
      var email := body.email.value;
      if email in users {
        return Failed(DuplicateKeyFailure(email));
      }
      var user := NewUser(body);
      users := users[email := user];
      var token := o.signedJwtToken(user);
      r := Created(200, true, user, token);
    }

    /**
     * `login`: the guards with early returns over one lookup. It has no
     * `modifies` clause, so it cannot change the store on any path.
     */
    method Login(body: RequestBody, o: Oracles) returns (r: LoginResult)
      ensures r == LoginOutcome(users, body, o)
    {
      LoginFirstFailing(users, body, o);
      if !Truthy(body.email) || !Truthy(body.password) {
        return Rejected(ErrorResponse(Text(MissingCredentialsMessage), 400));
      }
      var email := body.email.value;
      if email !in users {
        return Rejected(ErrorResponse(Text(UnknownEmailMessage), 401));
      }
      var user := users[email];
      var isMatch := o.matchPassword(user, body.password.value);
      if !isMatch {
        return Rejected(ErrorResponse(Text(WrongPasswordMessage), 401));
      }
      var token := o.signedJwtToken(user);
      r := Granted(200, true, user, token);
    }
  }

  /** The first guard that fails decides the error, whatever the later guards say. */
  lemma FirstFailingGuardDecides(gs: seq<Guard>, k: nat, users: map<string, User>, body: RequestBody, o: Oracles)
    requires k < |gs| && !Holds(gs[k], users, body, o)
    requires forall i :: 0 <= i < k ==> Holds(gs[i], users, body, o)
    ensures FirstFailing(gs, users, body, o) == Some(gs[k])
  {
  }

  /** For login's own guards, the first failing one, spelled out. */
  lemma LoginFirstFailing(users: map<string, User>, body: RequestBody, o: Oracles)
    ensures FirstFailing(LoginGuards, users, body, o) ==
      if !Holds(Presence, users, body, o) then Some(Presence)
      else if !Holds(Existence, users, body, o) then Some(Existence)
      else if !Holds(PasswordMatch, users, body, o) then Some(PasswordMatch)
      else None
  {
    if !Holds(Presence, users, body, o) {
      FirstFailingGuardDecides(LoginGuards, 0, users, body, o);
    } else if !Holds(Existence, users, body, o) {
      FirstFailingGuardDecides(LoginGuards, 1, users, body, o);
    } else if !Holds(PasswordMatch, users, body, o) {
      FirstFailingGuardDecides(LoginGuards, 2, users, body, o);
    } else {
      assert forall i :: 0 <= i < |LoginGuards| ==> Holds(LoginGuards[i], users, body, o);
    }
  }

  /** A falsy email or password answers 400 without consulting the store. */
  lemma MissingCredentialsRejected(users: map<string, User>, other: map<string, User>, body: RequestBody, o: Oracles)
    requires !Truthy(body.email) || !Truthy(body.password)
    ensures LoginOutcome(users, body, o) == Rejected(ErrorResponse(Text("Please provide and email & password"), 400))
    ensures LoginOutcome(users, body, o) == LoginOutcome(other, body, o)
  {
  }

  /** Present credentials for an unknown email answer 401 'Email can not registered yet.'. */
  lemma UnknownEmailRejected(users: map<string, User>, body: RequestBody, o: Oracles)
    requires Truthy(body.email) && Truthy(body.password) && body.email.value !in users
    ensures LoginOutcome(users, body, o) == Rejected(ErrorResponse(Text("Email can not registered yet."), 401))
  {
    LoginFirstFailing(users, body, o);
  }

  /** A known email with a password that does not match answers 401 'Invalid Password.'. */
  lemma WrongPasswordRejected(users: map<string, User>, body: RequestBody, o: Oracles)
    requires Truthy(body.email) && Truthy(body.password) && body.email.value in users
    requires !o.matchPassword(users[body.email.value], body.password.value)
    ensures LoginOutcome(users, body, o) == Rejected(ErrorResponse(Text("Invalid Password."), 401))
  {
    LoginFirstFailing(users, body, o);
  }

  /** Login succeeds exactly when every guard passes, with status 200, the stored account and its token. */
  lemma LoginGrantedIff(users: map<string, User>, body: RequestBody, o: Oracles)
    ensures var r := LoginOutcome(users, body, o);
      r.Granted? <==>
        Truthy(body.email) && Truthy(body.password) && body.email.value in users &&
        o.matchPassword(users[body.email.value], body.password.value)
    ensures var r := LoginOutcome(users, body, o);
      r.Granted? ==>
        && r.status == 200 && r.success
        && r.user == users[body.email.value]
        && r.token == o.signedJwtToken(r.user)
  {
    LoginFirstFailing(users, body, o);
  }

  /** On a store keyed by email, the account login answers with carries the email asked for. */
  lemma LoginGrantsThatAccount(users: map<string, User>, body: RequestBody, o: Oracles)
    requires KeyedByEmail(users)
    ensures var r := LoginOutcome(users, body, o);
      r.Granted? ==> body.email.Some? && r.user.email == body.email.value && r.user in users.Values
  {
    LoginGrantedIff(users, body, o);
  }

  /** Login reads only the account stored under the email asked for. */
  lemma LoginReadsOneRecord(users: map<string, User>, other: map<string, User>, body: RequestBody, o: Oracles)
    requires body.email.Some? ==> (body.email.value in users <==> body.email.value in other)
    requires body.email.Some? && body.email.value in users ==> users[body.email.value] == other[body.email.value]
    ensures LoginOutcome(users, body, o) == LoginOutcome(other, body, o)
  {
    LoginFirstFailing(users, body, o);
    LoginFirstFailing(other, body, o);
  }

  /** As written, a client can tell an unknown email from a wrong password by the message. */
  lemma LoginDistinguishesUnknownEmail(users: map<string, User>, a: RequestBody, b: RequestBody, o: Oracles)
    requires Truthy(a.email) && Truthy(a.password) && a.email.value !in users
    requires Truthy(b.email) && Truthy(b.password) && b.email.value in users
    requires !o.matchPassword(users[b.email.value], b.password.value)
    ensures LoginOutcome(users, a, o).Rejected? && LoginOutcome(users, b, o).Rejected?
    ensures LoginOutcome(users, a, o).error.statusCode == LoginOutcome(users, b, o).error.statusCode
    ensures LoginOutcome(users, a, o).error.message != LoginOutcome(users, b, o).error.message
  {
    LoginFirstFailing(users, a, o);
    LoginFirstFailing(users, b, o);
  }

  /** A fresh account can log in with a password it matches, and gets `signedJwtToken` of that account. */
  lemma RegisteredUserCanLogIn(users: map<string, User>, body: RequestBody, o: Oracles)
    requires Truthy(body.email) && Truthy(body.password) && body.email.value !in users
    requires o.matchPassword(NewUser(body), body.password.value)
    ensures LoginOutcome(users[body.email.value := NewUser(body)], body, o) ==
      Granted(200, true, NewUser(body), o.signedJwtToken(NewUser(body)))
  {
  }

  /** Each login error reaches the client with its own status and message. */
  lemma LoginRejectionResponse(users: map<string, User>, body: RequestBody, o: Oracles)
    ensures var r := LoginOutcome(users, body, o);
      r.Rejected? ==>
        r.error.statusCode in {400, 401} &&
        Classify(Raised(r.error)) == Sent(r.error.statusCode, ErrorBody(false, r.error.message))
  {
  }

  /** A register failure reaches the client as 400 through the error middleware. */
  lemma RegisterFailureResponse(email: string, errs: seq<FieldError>)
    ensures Classify(DuplicateKeyFailure(email)) == Sent(400, ErrorBody(false, Text("Duplicates fields entered")))
    ensures Classify(SchemaFailure(errs)) == Sent(400, ErrorBody(false, Texts(ValidationMessages(errs))))
  {
  }
}
