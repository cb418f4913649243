/**
 * The user routes of the backend (backend/routes/users.js): sign-up and
 * sign-in over a store of users keyed by email. Hashing a password is
 * salted and one-way, so the hash produced for a sign-up is a parameter and
 * checking a password against a stored hash is an oracle `compare`; the
 * email format check of the schema is an oracle `isEmail`. A missing or
 * falsy body field is the empty string.
 */
module UserRoutes {
  import opened JsValues

  /** A stored user: the password field holds the hash only. */
  datatype User = User(id: int, name: string, email: string, passwordHash: string)

  /** The fields a successful sign-in returns. */
  datatype PublicUser = PublicUser(id: int, name: string, email: string)

  datatype Body =
    | TextBody(text: string)
    | ErrorBody(error: string)
    | IssuesBody(errors: seq<string>)
    | RegisteredBody(message: string, data: User)
    | SignedInBody(message: string, user: PublicUser)

  datatype Reply = Reply(status: int, body: Body)

  const NAME_REQUIRED: string := "Name is required"
  const INVALID_EMAIL: string := "Invalid email address"
  const PASSWORD_TOO_SHORT: string := "Password must be at least 6 characters long"
  const MIN_PASSWORD_LENGTH: nat := 6

  /** GET /api/users answers with a fixed greeting rather than data. */
  const USERS_ROUTE_GREETING: string := "Users route working \U{1F680}"

  /**
   * The messages of the schema's failed checks, in field order. The name is
   * checked only when `name` is Some: sign-in uses the schema with the name
   * made optional and sends none.
   */
  function SchemaIssues(name: Option<string>, email: string, password: string, isEmail: string -> bool): (issues: seq<string>)
    ensures issues == [] <==> (name.Some? ==> |name.value| >= 1) && isEmail(email) && |password| >= MIN_PASSWORD_LENGTH
    ensures |password| < MIN_PASSWORD_LENGTH ==> issues != [] && issues[|issues| - 1] == PASSWORD_TOO_SHORT
  {
    (if name.Some? && |name.value| < 1 then [NAME_REQUIRED] else [])
    + (if !isEmail(email) then [INVALID_EMAIL] else [])
    + (if |password| < MIN_PASSWORD_LENGTH then [PASSWORD_TOO_SHORT] else [])
  }

  /** Every user is stored under its own email, and ids are distinct and below the next id. */
  predicate WellFormed(users: map<string, User>, nextId: int) {
    && (forall e :: e in users ==> users[e].email == e && users[e].id < nextId)
    && (forall e1, e2 :: e1 in users && e2 in users && e1 != e2 ==> users[e1].id != users[e2].id)
  }

  /** The reply to a sign-up and the store it leaves. */
  datatype Outcome = Outcome(reply: Reply, users: map<string, User>)

  /** POST /api/users/signup, as a function of the store; `hashed` is the hash computed for `password`. */
  function SignupOutcome(users: map<string, User>, nextId: int, name: string, email: string, password: string,
                         hashed: string, isEmail: string -> bool): (o: Outcome)
    ensures o.reply.status == 201 <==>
      name != "" && email != "" && password != "" && isEmail(email) && |password| >= MIN_PASSWORD_LENGTH && email !in users
    ensures o.reply.status != 201 ==> o.reply.status == 400 && o.users == users
    ensures (name == "" || email == "" || password == "") ==>
      o.reply == Reply(400, ErrorBody("Name, email and password are required"))
    ensures name != "" && email != "" && password != "" && |password| < MIN_PASSWORD_LENGTH ==>
      o.reply.status == 400 && o.reply.body.IssuesBody? && PASSWORD_TOO_SHORT in o.reply.body.errors
    ensures o.reply.status == 201 ==>
      && o.users == users[email := User(nextId, name, email, hashed)]
      && o.reply == Reply(201, RegisteredBody("User registered successfully", User(nextId, name, email, hashed)))
  {
    if name == "" || email == "" || password == "" then
      Outcome(Reply(400, ErrorBody("Name, email and password are required")), users)
    else
      var issues := SchemaIssues(Some(name), email, password, isEmail);
      if issues != [] then Outcome(Reply(400, IssuesBody(issues)), users)
      else if email in users then Outcome(Reply(400, ErrorBody("User with this email already exists")), users)
      else
        var user := User(nextId, name, email, hashed);
        Outcome(Reply(201, RegisteredBody("User registered successfully", user)), users[email := user])
  }

  /** A sign-up keeps the store well formed when the next id moves past the one it used. */
  lemma SignupKeepsWellFormed(users: map<string, User>, nextId: int, name: string, email: string, password: string,
                              hashed: string, isEmail: string -> bool)
    requires WellFormed(users, nextId)
    ensures WellFormed(SignupOutcome(users, nextId, name, email, password, hashed, isEmail).users, nextId + 1)
  {
  }

  /** POST /api/users/signin, which only reads the store. */
  function SigninReply(users: map<string, User>, email: string, password: string,
                       isEmail: string -> bool, compare: (string, string) -> bool): (r: Reply)
    ensures r.status == 200 <==>
      email != "" && password != "" && isEmail(email) && |password| >= MIN_PASSWORD_LENGTH
      && email in users && compare(password, users[email].passwordHash)
    ensures r.status != 200 ==> r.status == 400
    ensures r.status == 200 ==>
      r == Reply(200, SignedInBody("User signed in successfully", PublicUser(users[email].id, users[email].name, users[email].email)))
    ensures email != "" && password != "" && isEmail(email) && |password| >= MIN_PASSWORD_LENGTH && email !in users ==>
      r == Reply(400, ErrorBody("User with this email does not exist"))
    ensures (email != "" && password != "" && isEmail(email) && |password| >= MIN_PASSWORD_LENGTH
      && email in users && !compare(password, users[email].passwordHash)) ==>
      r == Reply(400, ErrorBody("Invalid password"))
  {
    if email == "" || password == "" then Reply(400, ErrorBody("Email and password are required"))
    else
      var issues := SchemaIssues(None, email, password, isEmail);
      if issues != [] then Reply(400, IssuesBody(issues))
      else if email !in users then Reply(400, ErrorBody("User with this email does not exist"))
      else
        var user := users[email];
        if !compare(password, user.passwordHash) then Reply(400, ErrorBody("Invalid password"))
        else Reply(200, SignedInBody("User signed in successfully", PublicUser(user.id, user.name, user.email)))
  }

  /**
   * Signing up and then signing in with the same email and password succeeds
   * and returns the new user's id, name and email, provided the hash check
   * accepts the password for the hash stored at sign-up.
   */
  lemma SignupThenSignin(users: map<string, User>, nextId: int, name: string, email: string, password: string,
                         hashed: string, isEmail: string -> bool, compare: (string, string) -> bool)
    requires SignupOutcome(users, nextId, name, email, password, hashed, isEmail).reply.status == 201
    requires compare(password, hashed)
    ensures SigninReply(SignupOutcome(users, nextId, name, email, password, hashed, isEmail).users, email, password, isEmail, compare)
      == Reply(200, SignedInBody("User signed in successfully", PublicUser(nextId, name, email)))
  {
  }

  /** The users store. */
  class UserStore {
    var users: map<string, User>
    var nextId: int

    ghost predicate Valid()
      reads this
    {
      WellFormed(users, nextId)
    }

    constructor()
      ensures Valid() && users == map[]
    {
      users := map[];
      nextId := 1;
    }

    /** POST /api/users/signup; `hashed` is what hashing `password` produced. */
    method Signup(name: string, email: string, password: string, hashed: string, isEmail: string -> bool) returns (reply: Reply)
      requires Valid()
      modifies this
      ensures Valid()
      ensures var o := SignupOutcome(old(users), old(nextId), name, email, password, hashed, isEmail);
        reply == o.reply && users == o.users
    {
      if name == "" || email == "" || password == "" {
        return Reply(400, ErrorBody("Name, email and password are required"));
      }
      var issues := SchemaIssues(Some(name), email, password, isEmail);
      if issues != [] {
        return Reply(400, IssuesBody(issues));
      }
      if email in users {
        return Reply(400, ErrorBody("User with this email already exists"));
      }
      var user := User(nextId, name, email, hashed);
      users := users[email := user];
      nextId := nextId + 1;
      return Reply(201, RegisteredBody("User registered successfully", user));
    }
  }
}
