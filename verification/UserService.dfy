// Database, repositories and service as the layered objects of the server
// (app/Repositories/OdbRepository.h, app/Repositories/UserRepository.h, app/Services/UserService.h).
module UserObjects {
  import opened Common
  import opened Entities
  import opened Hex
  import opened Password
  import UserStore

  class Database {
    var rows: seq<User>             // committed
    var nextId: int                 // the id sequence, outside every transaction
    var working: Option<seq<User>>  // what an open transaction sees

    constructor ()
      ensures Value() == UserStore.Db([], 1) && working == None
    {
      rows, nextId, working := [], 1, None;
    }

    function Value(): UserStore.Db
      reads this
    {
      UserStore.Db(rows, nextId)
    }

    method Begin()
      modifies this`working
      ensures working == Some(rows)
    {
      working := Some(rows);
    }

    method Persist(user: User)
      requires working.Some?
      modifies this`working, this`nextId
      ensures working == Some(old(working).value + [user.(id := old(nextId))]) && nextId == old(nextId) + 1
    {
      working := Some(working.value + [user.(id := nextId)]);
      nextId := nextId + 1;
    }

    method Commit()
      requires working.Some?
      modifies this`rows, this`working
      ensures rows == old(working).value && working == None
    {
      rows, working := working.value, None;
    }

    // The transaction object is destroyed uncommitted.
    method Rollback()
      modifies this`working
      ensures working == None
    {
      working := None;
    }
  }

  class OdbRepository {
    const db: Database

    constructor (db: Database)
      ensures this.db == db
    {
      this.db := db;
    }

    method Create(user: User, fault: UserStore.Fault) returns (r: OperationResult<bool>)
      modifies db
      ensures (db.Value(), r) == UserStore.Create(old(db.Value()), user, fault)
      ensures db.working == None
    {
      r := FailureResult(UserStore.TRY_AGAIN);
      if fault.AtBegin? {
        db.Rollback();
        return;
      }
      db.Begin();
      if fault.AtPersist? {
        db.Rollback();
        return;
      }
      db.Persist(user);
      if fault.AtCommit? {
        db.Rollback();
        return;
      }
      db.Commit();
      r := SuccessResult(true);
    }
  }

  class UserRepository {
    const dbConnector: OdbRepository

    constructor (dbConnector: OdbRepository)
      ensures this.dbConnector == dbConnector
    {
      this.dbConnector := dbConnector;
    }

    // The loop over the query result returns on its first turn.
    method GetUserByUsername(username: string, fault: bool) returns (r: OperationResult<Option<User>>)
      ensures r == UserStore.GetUserByUsername(dbConnector.db.Value(), username, fault)
    {
      if fault { return FailureResult(UserStore.TRY_AGAIN_LATER); }
      var rows := dbConnector.db.rows;
      for i := 0 to |rows|
        invariant UserStore.FirstNamed(rows, username) == UserStore.FirstNamed(rows[i..], username)
      {
        assert rows[i..][1..] == rows[i + 1..];
        if rows[i].username == username { return SuccessResult(Some(rows[i])); }
      }
      r := FailureResult("Failed to find user with username: " + username);
    }

    method CreateUser(user: User, lookupFault: bool, fault: UserStore.Fault) returns (r: OperationResult<User>)
      modifies dbConnector.db
      ensures (dbConnector.db.Value(), r) == UserStore.CreateUser(old(dbConnector.db.Value()), user, lookupFault, fault)
    {
      var userExist := GetUserByUsername(user.username, lookupFault);
      if userExist.SuccessResult? {
        return FailureResult("User with username: " + user.username + " already exist.");
      }
      var userCreated := dbConnector.Create(user, fault);
      if !userCreated.SuccessResult? {
        return FailureResult("Failed to create user with username: " + user.username);
      }
      r := SuccessResult(user);
    }
  }

  class UserService {
    const userRepository: UserRepository
    const h: HashFn
    const sign: UserStore.SignFn

    constructor (userRepository: UserRepository, h: HashFn, sign: UserStore.SignFn)
      ensures this.userRepository == userRepository && this.h == h && this.sign == sign
    {
      this.userRepository, this.h, this.sign := userRepository, h, sign;
    }

    method CreateUser(request: UserStore.Request, salt: Bytes, lookupFault: bool, fault: UserStore.Fault)
      returns (r: UserStore.Response)
      modifies userRepository.dbConnector.db
      ensures (userRepository.dbConnector.db.Value(), r) ==
        UserStore.Register(h, sign, old(userRepository.dbConnector.db.Value()), request, salt, lookupFault, fault)
    {
      if request.None? { return UserStore.Failure("Invalid JSON format"); }
      var (username, password) := request.value;
      var hashed := HashPasswordWithArgon2(h, password, salt);
      if hashed.Throws? { return UserStore.Failure(UserStore.TRY_AGAIN_LATER); }
      var saltStr := ToHexString(hashed.value.1);
      var user := User(0, username, hashed.value.0, saltStr);
      var creationResult := userRepository.CreateUser(user, lookupFault, fault);
      if !creationResult.SuccessResult? { return UserStore.Failure(creationResult.errorMessage); }
      var token := sign(username);
      if token.None? { return UserStore.Failure(UserStore.TRY_AGAIN_LATER); }
      r := UserStore.Success(username, token.value);
    }

    method UserLogin(request: UserStore.Request, lookupFault: bool) returns (r: UserStore.Response)
      ensures r == UserStore.Login(h, sign, userRepository.dbConnector.db.Value(), request, lookupFault)
    {
      if request.None? { return UserStore.Failure("Invalid JSON format"); }
      var (username, password) := request.value;
      var userResult := userRepository.GetUserByUsername(username, lookupFault);
      if !userResult.SuccessResult? || userResult.GetResult().value.None? {
        var message := userResult.GetErrorMessage();
        if message.Throws? { return UserStore.Failure(UserStore.TRY_AGAIN_LATER); }
        return UserStore.Failure(message.value);
      }
      var user := userResult.GetResult().value.value;
      var isLoginSuccess := VerifyUser(h, user.passwordHash, user.salt, password);
      if isLoginSuccess.Throws? { return UserStore.Failure(UserStore.TRY_AGAIN_LATER); }
      if !isLoginSuccess.value { return UserStore.Failure("Wrong username or password!"); }
      var token := sign(user.username);
      if token.None? { return UserStore.Failure(UserStore.TRY_AGAIN_LATER); }
      r := UserStore.Success(user.username, token.value);
    }
  }
}
