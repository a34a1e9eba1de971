// Users in the database: the generic repository, the user repository and the service
// (app/Repositories/OdbRepository.h, app/Repositories/UserRepository.h, app/Services/UserService.h,
// app/Entities/odb/User.sql).
module UserStore {
  import opened Common
  import opened Entities
  import opened Hex
  import opened Password

  // Committed rows in insertion order; the table has no uniqueness constraint on usernames.
  datatype Db = Db(rows: seq<User>, nextId: int)

  const TRY_AGAIN: string := "Something happened, please try again later."
  const TRY_AGAIN_LATER: string := "Something happened, please try again later"

  // Where an exception leaves Create's transaction: nowhere, or at begin, persist or commit.
  datatype Fault = NoFault | AtBegin | AtPersist | AtCommit

  // begin, persist, commit. Without a commit the row is rolled back; the id sequence is not.
  function Create(db: Db, user: User, fault: Fault): (Db, OperationResult<bool>) {
    match fault
    case AtBegin => (db, FailureResult(TRY_AGAIN))
    case AtPersist => (db, FailureResult(TRY_AGAIN))
    case AtCommit => (db.(nextId := db.nextId + 1), FailureResult(TRY_AGAIN))
    case NoFault => (Db(db.rows + [user.(id := db.nextId)], db.nextId + 1), SuccessResult(true))
  }

  // The first row with that username.
  function FirstNamed(rows: seq<User>, username: string): Option<User> {
    if rows == [] then None
    else if rows[0].username == username then Some(rows[0])
    else FirstNamed(rows[1..], username)
  }

  // `fault`: the query or its transaction throws.
  function GetUserByUsername(db: Db, username: string, fault: bool): OperationResult<Option<User>> {
    if fault then FailureResult(TRY_AGAIN_LATER) else
      match FirstNamed(db.rows, username)
      case Some(user) => SuccessResult(Some(user))
      case None => FailureResult("Failed to find user with username: " + username)
  }

  function CreateUser(db: Db, user: User, lookupFault: bool, fault: Fault): (Db, OperationResult<User>) {
    if GetUserByUsername(db, user.username, lookupFault).SuccessResult?
    then (db, FailureResult("User with username: " + user.username + " already exist."))
    else
      var (db', created) := Create(db, user, fault);
      if created.FailureResult? then (db', FailureResult("Failed to create user with username: " + user.username))
      else (db', SuccessResult(user))
  }

  // ---- the service ----

  datatype Response = Success(username: string, token: string) | Failure(message: string)

  // A parsed request; None when the JSON or one of its two fields is unusable.
  type Request = Option<(string, string)>

  // Token signing; None when it throws.
  type SignFn = string -> Option<string>

  function Register(h: HashFn, sign: SignFn, db: Db, request: Request, salt: Bytes, lookupFault: bool, fault: Fault)
    : (Db, Response)
  {
    match request
    case None => (db, Failure("Invalid JSON format"))
    case Some((username, password)) =>
      match HashPassword(h, password, salt)
      case Throws(_) => (db, Failure(TRY_AGAIN_LATER))
      case Ok((hash, salt')) =>
        var (db', created) := CreateUser(db, User(0, username, hash, ToHex(salt')), lookupFault, fault);
        if created.FailureResult? then (db', Failure(created.errorMessage))
        else match sign(username)
          case None => (db', Failure(TRY_AGAIN_LATER))
          case Some(token) => (db', Success(username, token))
  }

  function Login(h: HashFn, sign: SignFn, db: Db, request: Request, lookupFault: bool): Response {
    match request
    case None => Failure("Invalid JSON format")
    case Some((username, password)) =>
      match GetUserByUsername(db, username, lookupFault)
      case FailureResult(message) => Failure(message)
      case SuccessResult(None) => Failure(TRY_AGAIN_LATER)   // its error message cannot be read
      case SuccessResult(Some(user)) =>
        match VerifyUserPassword(h, user.passwordHash, user.salt, password)
        case Throws(_) => Failure(TRY_AGAIN_LATER)
        case Ok(false) => Failure("Wrong username or password!")
        case Ok(true) =>
          match sign(user.username)
          case None => Failure(TRY_AGAIN_LATER)
          case Some(token) => Success(user.username, token)
  }

  // ---- what the two calls answer, for every request, table and fault ----

  // The row is the first of that name.
  ghost predicate FirstOf(rows: seq<User>, username: string, row: User) {
    exists i :: 0 <= i < |rows| && rows[i] == row && row.username == username
      && forall j :: 0 <= j < i ==> rows[j].username != username
  }

  ghost predicate Taken(rows: seq<User>, username: string) {
    exists i :: 0 <= i < |rows| && rows[i].username == username
  }

  // Hashing under the decoded salt works, and gives the stored text.
  predicate CanCheck(h: HashFn, row: User, password: string) {
    FromHex(row.salt).Ok? && h(password, FromHex(row.salt).value).Some?
  }

  predicate Matches(h: HashFn, row: User, password: string) {
    CanCheck(h, row, password) && ToHex(h(password, FromHex(row.salt).value).value) == row.passwordHash
  }

  lemma FirstIsFound(rows: seq<User>, username: string)
    ensures FirstNamed(rows, username).Some? <==> Taken(rows, username)
    ensures forall row :: FirstOf(rows, username, row) <==> FirstNamed(rows, username) == Some(row)
  {
    FirstNamedFinds(rows, username);
    forall row | FirstOf(rows, username, row) ensures FirstNamed(rows, username) == Some(row) {
      var i :| 0 <= i < |rows| && rows[i] == row && row.username == username
        && forall j :: 0 <= j < i ==> rows[j].username != username;
      var k :| 0 <= k < |rows| && rows[k] == FirstNamed(rows, username).value && rows[k].username == username
        && forall j :: 0 <= j < k ==> rows[j].username != username;
      assert i == k;
    }
  }

  // What the repositories themselves answer.
  lemma RepositoriesAnswer(db: Db, user: User, lookupFault: bool, fault: Fault)
    ensures var got := GetUserByUsername(db, user.username, lookupFault);
      && (got.SuccessResult? <==> !lookupFault && Taken(db.rows, user.username))
      && (got.SuccessResult? ==> got.result.Some? && FirstOf(db.rows, user.username, got.result.value))
      && (lookupFault ==> got == FailureResult("Something happened, please try again later"))
      && (!lookupFault && got.FailureResult? ==>
            got == FailureResult("Failed to find user with username: " + user.username))
    ensures var created := CreateUser(db, user, lookupFault, fault).1;
      var refused := !lookupFault && Taken(db.rows, user.username);
      && (refused ==> created == FailureResult("User with username: " + user.username + " already exist."))
      && (!refused && fault.NoFault? ==> created == SuccessResult(user))
      && (!refused && !fault.NoFault? ==>
            created == FailureResult("Failed to create user with username: " + user.username))
    ensures Create(db, user, fault).1 ==
      if fault.NoFault? then SuccessResult(true)
      else FailureResult("Something happened, please try again later.")
  {
    FirstIsFound(db.rows, user.username);
    hide FirstNamed, FirstOf, Taken;
    var first := FirstNamed(db.rows, user.username);
    assert first.Some? ==> FirstOf(db.rows, user.username, first.value);
  }

  // A login succeeds if and only if the request is usable, the lookup works, there is a first row
  // of that name, the password hashes to its text under its salt, and the name can be signed; and
  // then it answers with that name and that token. Every other login is answered as stated.
  lemma LoginIs(h: HashFn, sign: SignFn, db: Db, request: Request, lookupFault: bool)
    ensures var r := Login(h, sign, db, request, lookupFault);
      && (r.Success? <==>
            && request.Some? && !lookupFault && sign(request.value.0).Some?
            && exists row :: FirstOf(db.rows, request.value.0, row) && Matches(h, row, request.value.1))
      && (r.Success? ==> r.username == request.value.0 && sign(request.value.0) == Some(r.token))
      && (request.None? ==> r == Failure("Invalid JSON format"))
    ensures request.Some? && lookupFault ==>
      Login(h, sign, db, request, lookupFault) == Failure("Something happened, please try again later")
    ensures request.Some? && !lookupFault && !Taken(db.rows, request.value.0) ==>
      Login(h, sign, db, request, lookupFault) == Failure("Failed to find user with username: " + request.value.0)
    ensures request.Some? && !lookupFault ==> forall row :: FirstOf(db.rows, request.value.0, row) ==>
      var r := Login(h, sign, db, request, lookupFault);
      && (!CanCheck(h, row, request.value.1) ==> r == Failure("Something happened, please try again later"))
      && (CanCheck(h, row, request.value.1) && !Matches(h, row, request.value.1) ==>
            r == Failure("Wrong username or password!"))
      && (Matches(h, row, request.value.1) && sign(request.value.0).None? ==>
            r == Failure("Something happened, please try again later"))
  {
    if request.Some? {
      FirstIsFound(db.rows, request.value.0);
      FirstNamedFinds(db.rows, request.value.0);
      hide FromHex, ToHex, FirstOf, Taken, FirstNamed;
      var first := FirstNamed(db.rows, request.value.0);
      assert first.Some? ==> FirstOf(db.rows, request.value.0, first.value);
    }
  }

  // The row is added: the request is usable, hashing works, no lookup found the name, and no
  // exception leaves the transaction.
  ghost predicate Adds(h: HashFn, db: Db, request: Request, salt: Bytes, lookupFault: bool, fault: Fault) {
    && request.Some? && h(request.value.1, salt).Some? && fault.NoFault?
    && (lookupFault || !Taken(db.rows, request.value.0))
  }

  // A registration adds one row, of that name with the hex of its hash and salt under the next id,
  // in exactly those cases, and changes no row otherwise. It succeeds if and only if it adds the
  // row and the name can be signed, and then answers with that name and token.
  lemma RegisterIs(h: HashFn, sign: SignFn, db: Db, request: Request, salt: Bytes, lookupFault: bool, fault: Fault)
    ensures var (db', r) := Register(h, sign, db, request, salt, lookupFault, fault);
      && db'.rows == (if Adds(h, db, request, salt, lookupFault, fault)
           then db.rows + [User(db.nextId, request.value.0, ToHex(h(request.value.1, salt).value), ToHex(salt))]
           else db.rows)
      && (r.Success? <==> Adds(h, db, request, salt, lookupFault, fault) && sign(request.value.0).Some?)
      && (r.Success? ==> r.username == request.value.0 && sign(request.value.0) == Some(r.token))
  {
    if request.Some? { FirstIsFound(db.rows, request.value.0); }
    hide ToHex, FirstNamed, Taken;
  }

  // Every other registration is answered as stated; the id sequence moves whenever a row was
  // persisted, even if it was not committed.
  lemma RegisterRefuses(h: HashFn, sign: SignFn, db: Db, request: Request, salt: Bytes, lookupFault: bool, fault: Fault)
    ensures var (db', r) := Register(h, sign, db, request, salt, lookupFault, fault);
      && (request.None? ==> r == Failure("Invalid JSON format") && db' == db)
      && (request.Some? && h(request.value.1, salt).None? ==>
            r == Failure("Something happened, please try again later") && db' == db)
      && (request.Some? && h(request.value.1, salt).Some? ==>
            var refused := !lookupFault && Taken(db.rows, request.value.0);
            && (refused ==>
                  r == Failure("User with username: " + request.value.0 + " already exist.") && db' == db)
            && (!refused && !fault.NoFault? ==>
                  r == Failure("Failed to create user with username: " + request.value.0))
            && (!refused && fault.NoFault? && sign(request.value.0).None? ==>
                  r == Failure("Something happened, please try again later"))
            && (!refused ==> db'.nextId == db.nextId + if fault.NoFault? || fault.AtCommit? then 1 else 0))
  {
    if request.Some? { FirstIsFound(db.rows, request.value.0); }
    hide ToHex, FirstNamed, Taken;
  }

  // ---- a failed registration ----

  // A registration that answers failure leaves the rows as they were, except in exactly one
  // case: everything went well and the token could not be signed, after the commit.
  lemma FailedRegisterChangesNothingIff(h: HashFn, sign: SignFn, db: Db, request: Request, salt: Bytes,
                                        lookupFault: bool, fault: Fault)
    ensures var (db', response) := Register(h, sign, db, request, salt, lookupFault, fault);
      && (response.Success? ==> |db'.rows| == |db.rows| + 1)
      && (response.Failure? && db'.rows != db.rows <==>
            && request.Some? && h(request.value.1, salt).Some? && fault.NoFault?
            && (lookupFault || FirstNamed(db.rows, request.value.0).None?)
            && sign(request.value.0).None?)
  {
    if request.Some? && h(request.value.1, salt).Some? && fault.NoFault? {
      var u := User(0, request.value.0, ToHex(h(request.value.1, salt).value), ToHex(salt));
      assert |db.rows + [u.(id := db.nextId)]| == |db.rows| + 1;
    }
  }

  // That case is open: with a signer that fails, a registration into an empty table answers
  // failure and leaves its row; trying again is refused, and logging in works.
  lemma UnsignedRegistrationStays(request: (string, string), salt: Bytes, token: string)
    returns (h: HashFn, unable: SignFn, able: SignFn)
    ensures var (db, response) := Register(h, unable, Db([], 1), Some(request), salt, false, NoFault);
      && response.Failure? && |db.rows| == 1 && db.rows[0].username == request.0
      && Register(h, able, db, Some(request), salt, false, NoFault).1 ==
           Failure("User with username: " + request.0 + " already exist.")
      && Login(h, able, db, Some(request), false) == Success(request.0, token)
  {
    h, unable, able := (p, s) => Some([]), u => None, u => Some(token);
    DecodeInvertsEncode(salt);
    var db := Register(h, unable, Db([], 1), Some(request), salt, false, NoFault).0;
    assert db.rows == [User(1, request.0, ToHex([]), ToHex(salt))];
  }

  lemma {:induction false} FirstNamedFinds(rows: seq<User>, username: string)
    ensures FirstNamed(rows, username).None? <==> forall i :: 0 <= i < |rows| ==> rows[i].username != username
    ensures FirstNamed(rows, username).Some? ==>
      exists i :: 0 <= i < |rows| && rows[i] == FirstNamed(rows, username).value && rows[i].username == username
        && forall j :: 0 <= j < i ==> rows[j].username != username
  {
    if rows != [] && rows[0].username != username {
      FirstNamedFinds(rows[1..], username);
      assert forall i :: 1 <= i < |rows| ==> rows[i] == rows[1..][i - 1];
      if FirstNamed(rows, username).Some? {
        var i :| 0 <= i < |rows[1..]| && rows[1..][i] == FirstNamed(rows, username).value
          && rows[1..][i].username == username && forall j :: 0 <= j < i ==> rows[1..][j].username != username;
        assert rows[i + 1] == FirstNamed(rows, username).value;
        assert forall j :: 0 <= j < i + 1 ==> rows[j].username != username;
      }
    }
  }
}
