/**
 * Signup and login: the early-return validation, the lookups in the user store, and the shape
 * of the answer (a token for the user's `Id` and the user record without its password hash).
 * Hashing, hash comparison and token signing are foreign: their outcomes are inputs, and a
 * token is modelled by the payload and expiry it is signed with.
 */
module AuthController {
  import opened Wrappers
  import opened JsonValue
  import UserController

  type Row = map<string, Value>
  type Env = map<string, string>

  const MissingSignupFields: string := "Please provide name, email, and password"
  const ShortPassword: string := "Password must be at least 8 characters"
  const EmailTaken: string := "User already exists with this email"
  const MissingLoginFields: string := "Please provide email and password"
  const InvalidCredentials: string := "Invalid credentials"

  /** A signed token: its payload and its `expiresIn` option. */
  datatype Token = Token(payload: Row, expiresIn: string)

  datatype Response =
    | Message(status: nat, message: string)
    | Session(status: nat, token: Token, user: Row)
    /** `next(error)`: a thrown error goes to the error middleware. */
    | PassedOn

  /** `findUserByEmail`: a thrown error, or the first matching record (null when none). */
  datatype FindResult = FindFailed | FoundUser(user: Option<Row>)

  /** `createUser`: a thrown error, or what the store returned (None when falsy). */
  datatype CreateResult = CreateFailed | Created(record: Option<Row>)

  /** `bcrypt.compare`: a thrown error, or whether the password matches the stored hash. */
  datatype CompareResult = CompareFailed | Compared(isMatch: bool)

  /** A response and the calls made on the way: the email looked up and the store's create call. */
  datatype Signed = Signed(response: Response, lookedUp: Option<Value>, createdWith: Option<(Value, Value, Value)>)

  /** `generateToken(userId)`: payload `{ id: userId }` (an undefined id leaves the key out). */
  function GenerateToken(userId: Option<Value>, env: Env): (t: Token)
    ensures "userId" !in t.payload
    ensures "id" in t.payload <==> userId.Some?
    ensures userId.Some? ==> t.payload["id"] == userId.value
    ensures |t.payload| <= 1
  {
    Token(if userId.Some? then map["id" := userId.value] else map[],
          UserController.Column(env, "JWT_EXPIRES_IN", "1d"))
  }

  /** `!x` for a destructured body field. */
  predicate Missing(x: Option<Value>)
  {
    x.None? || Falsy(x.value)
  }

  /**
   * `password.length < 8` on a present, truthy password: the length of a string or an array;
   * any other value has no `length` and `undefined < 8` is false.
   */
  predicate TooShort(password: Value)
  {
    (password.Str? && |password.s| < 8) || (password.List? && |password.items| < 8)
  }

  // ---------------------------------------------------------------------------------------
  // signup
  // ---------------------------------------------------------------------------------------

  /**
   * The key signup strips from the created record, as written: the bare environment value,
   * which as a computed key is the text "undefined" when the variable is not set.
   */
  function SignupColumnAsWritten(env: Env): string
  {
    if "NOCODB_PASSWORD_COLUMN" in env then env["NOCODB_PASSWORD_COLUMN"] else "undefined"
  }

  /**
   * Signup, stripping `column` from the record the store returns. `hash` is the outcome of
   * salting and hashing the password (None when bcrypt throws).
   */
  function SignupStripping(column: string, name: Option<Value>, email: Option<Value>, password: Option<Value>,
                           existing: FindResult, hash: Option<Value>, created: CreateResult, env: Env): Signed
  {
    if Missing(name) || Missing(email) || Missing(password) then Signed(Message(400, MissingSignupFields), None, None)
    else if TooShort(password.value) then Signed(Message(400, ShortPassword), None, None)
    else match existing
      case FindFailed => Signed(PassedOn, email, None)
      case FoundUser(user) =>
        if user.Some? then Signed(Message(400, EmailTaken), email, None)
        else if hash.None? then Signed(PassedOn, email, None)
        else
          var call := Some((name.value, email.value, hash.value));
          match created
          case CreateFailed => Signed(PassedOn, email, call)
          case Created(record) =>
            if record.None? then Signed(PassedOn, email, call)
            else
              var token := GenerateToken(Lookup(record.value, "Id"), env);
              Signed(Session(201, token, record.value - {column}), email, call)
  }

  /** Signup as written. */
  function SignupAsWritten(name: Option<Value>, email: Option<Value>, password: Option<Value>,
                           existing: FindResult, hash: Option<Value>, created: CreateResult, env: Env): Signed
  {
    SignupStripping(SignupColumnAsWritten(env), name, email, password, existing, hash, created, env)
  }

  /** Signup stripping the column `createUser` writes the hash to, as login does. */
  function Signup(name: Option<Value>, email: Option<Value>, password: Option<Value>,
                  existing: FindResult, hash: Option<Value>, created: CreateResult, env: Env): Signed
  {
    SignupStripping(UserController.PasswordColumn(env), name, email, password, existing, hash, created, env)
  }

  /**
   * Validation comes first and makes no store call: a missing name, email or password, then a
   * password shorter than 8 characters, each a 400; a taken email is a 400 with no create call.
   */
  lemma SignupRejects(name: Option<Value>, email: Option<Value>, password: Option<Value>, existing: FindResult,
                      hash: Option<Value>, created: CreateResult, env: Env)
    ensures Missing(name) || Missing(email) || Missing(password) ==>
              Signup(name, email, password, existing, hash, created, env) ==
              Signed(Message(400, MissingSignupFields), None, None)
    ensures !Missing(name) && !Missing(email) && password.Some? && password.value.Str? &&
            0 < |password.value.s| < 8 ==>
              Signup(name, email, password, existing, hash, created, env) == Signed(Message(400, ShortPassword), None, None)
    ensures !Missing(name) && !Missing(email) && !Missing(password) && !TooShort(password.value) &&
            existing.FoundUser? && existing.user.Some? ==>
              Signup(name, email, password, existing, hash, created, env) == Signed(Message(400, EmailTaken), email, None)
  {
  }

  /**
   * A signup that gets past validation, finds no user and creates one answers 201 with a token
   * for the new record's `Id` and the record without the column holding the hash; the store is
   * asked to create the user with the name, email and hash, never the plain password.
   */
  lemma SignupSucceeds(name: Value, email: Value, password: Value, hash: Value, record: Row, env: Env)
    requires !Falsy(name) && !Falsy(email) && !Falsy(password) && !TooShort(password)
    ensures var s := Signup(Some(name), Some(email), Some(password), FoundUser(None), Some(hash), Created(Some(record)), env);
            s.response.Session? && s.response.status == 201 &&
            s.response.token == GenerateToken(Lookup(record, "Id"), env) &&
            UserController.PasswordColumn(env) !in s.response.user &&
            (forall k :: k in record && k != UserController.PasswordColumn(env) ==>
               k in s.response.user && s.response.user[k] == record[k]) &&
            s.createdWith == Some((name, email, hash)) && s.lookedUp == Some(email)
  {
  }

  /** A signup answers 201 exactly when it passes every check and the store returns a record. */
  lemma SignupCreatedIff(name: Option<Value>, email: Option<Value>, password: Option<Value>, existing: FindResult,
                         hash: Option<Value>, created: CreateResult, env: Env)
    ensures Signup(name, email, password, existing, hash, created, env).response.Session? <==>
            !Missing(name) && !Missing(email) && !Missing(password) && !TooShort(password.value) &&
            existing == FoundUser(None) && hash.Some? && created.Created? && created.record.Some?
  {
  }

  /**
   * As written, with the column variable unset, signup strips the key "undefined" while the
   * store wrote the hash under "password", so a record that echoes its columns leaks the hash.
   */
  lemma SignupLeaksHash()
    ensures var record := map["Id" := Num(1), "password" := Str("$2b$10$hash")];
            var s := SignupAsWritten(Some(Str("Ann")), Some(Str("a@b.c")), Some(Str("longenough")),
                                     FoundUser(None), Some(Str("$2b$10$hash")), Created(Some(record)), map[]);
            s.response.Session? && "password" in s.response.user
  {
    var record := map["Id" := Num(1), "password" := Str("$2b$10$hash")];
    assert "password" != "undefined";
    assert UserController.Column(map[], "JWT_EXPIRES_IN", "1d") == "1d";
    assert "password" in record - {"undefined"};
  }

  /** With the column variable unset, the corrected signup strips "password", where the hash was written. */
  lemma SignupStripsDefaultColumn(record: Row)
    ensures var s := Signup(Some(Str("Ann")), Some(Str("a@b.c")), Some(Str("longenough")),
                            FoundUser(None), Some(Str("$2b$10$hash")), Created(Some(record)), map[]);
            s.response.Session? && "password" !in s.response.user
  {
    assert UserController.PasswordColumn(map[]) == "password";
  }

  /** The as-written and corrected signups differ only when the column variable is unset or empty. */
  lemma SignupsAgreeWhenSet(name: Option<Value>, email: Option<Value>, password: Option<Value>, existing: FindResult,
                            hash: Option<Value>, created: CreateResult, env: Env)
    requires "NOCODB_PASSWORD_COLUMN" in env && env["NOCODB_PASSWORD_COLUMN"] != ""
    ensures SignupAsWritten(name, email, password, existing, hash, created, env) ==
            Signup(name, email, password, existing, hash, created, env)
  {
    assert SignupColumnAsWritten(env) == UserController.PasswordColumn(env);
  }

  // ---------------------------------------------------------------------------------------
  // login
  // ---------------------------------------------------------------------------------------

  /** A response and the stored value the password was compared with, if the comparison was made. */
  datatype LoggedIn = LoggedIn(response: Response, comparedWith: Option<Option<Value>>)

  function Login(email: Option<Value>, password: Option<Value>, found: FindResult, compare: CompareResult,
                 env: Env): LoggedIn
  {
    if Missing(email) || Missing(password) then LoggedIn(Message(400, MissingLoginFields), None)
    else match found
      case FindFailed => LoggedIn(PassedOn, None)
      case FoundUser(user) =>
        if user.None? then LoggedIn(Message(401, InvalidCredentials), None)
        else
          var column := UserController.PasswordColumn(env);
          var stored := Lookup(user.value, column);
          match compare
          case CompareFailed => LoggedIn(PassedOn, Some(stored))
          case Compared(isMatch) =>
            if !isMatch then LoggedIn(Message(401, InvalidCredentials), Some(stored))
            else LoggedIn(Session(200, GenerateToken(Lookup(user.value, "Id"), env), user.value - {column}), Some(stored))
  }

  /** An unknown user and a wrong password get the same 401 answer, so neither is told apart. */
  lemma LoginSameRefusal(email: Value, password: Value, user: Row, found: FindResult, env: Env)
    requires !Falsy(email) && !Falsy(password)
    ensures Login(Some(email), Some(password), FoundUser(None), Compared(false), env).response ==
            Login(Some(email), Some(password), FoundUser(Some(user)), Compared(false), env).response ==
            Message(401, InvalidCredentials)
  {
  }

  /** Login answers 401 exactly when the checks pass and the user is unknown or the password does not match. */
  lemma LoginRefusedIff(email: Option<Value>, password: Option<Value>, found: FindResult, compare: CompareResult,
                        env: Env)
    ensures Login(email, password, found, compare, env).response == Message(401, InvalidCredentials) <==>
            !Missing(email) && !Missing(password) && found.FoundUser? &&
            (found.user.None? || compare == Compared(false))
  {
  }

  /**
   * A matching password answers 200 with a token for the user's `Id` and the record without
   * its password column; the password was compared with the value stored in that column.
   */
  lemma LoginSucceeds(email: Value, password: Value, user: Row, env: Env)
    requires !Falsy(email) && !Falsy(password)
    ensures var l := Login(Some(email), Some(password), FoundUser(Some(user)), Compared(true), env);
            var column := UserController.PasswordColumn(env);
            l.response.Session? && l.response.status == 200 &&
            l.response.token == GenerateToken(Lookup(user, "Id"), env) &&
            column !in l.response.user &&
            (forall k :: k in user && k != column ==> k in l.response.user && l.response.user[k] == user[k]) &&
            l.comparedWith == Some(Lookup(user, column))
  {
  }

  /** The token names the user by `id` and carries no `userId`; the default expiry is one day. */
  lemma TokenPayload(userId: Value)
    ensures GenerateToken(Some(userId), map[]).payload == map["id" := userId]
    ensures GenerateToken(Some(userId), map[]).expiresIn == "1d"
  {
  }
}
