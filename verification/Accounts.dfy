// Serial registrations and logins against the store behave like a map from usernames to the
// password and salt they were first registered with.
module Accounts {
  import opened Common
  import opened Entities
  import opened Hex
  import opened Password
  import opened UserStore

  datatype Account = Account(password: string, salt: Bytes)

  datatype Op =
    | Create(username: string, password: string, salt: Bytes, fault: Fault)
    | LogIn(username: string, password: string)

  // The store: what each call does to the rows and answers.
  function Step(h: HashFn, sign: SignFn, db: Db, op: Op): (Db, Response) {
    match op
    case Create(u, p, salt, fault) => Register(h, sign, db, Some((u, p)), salt, false, fault)
    case LogIn(u, q) => (db, Login(h, sign, db, Some((u, q)), false))
  }

  // The map: what each call means.
  function Meaning(h: HashFn, accounts: map<string, Account>, op: Op): (map<string, Account>, bool) {
    match op
    case Create(u, p, salt, fault) =>
      if u in accounts || h(p, salt).None? || !fault.NoFault? then (accounts, false)
      else (accounts[u := Account(p, salt)], true)
    case LogIn(u, q) =>
      (accounts, u in accounts && h(q, accounts[u].salt) == h(accounts[u].password, accounts[u].salt))
  }

  // One row per account, holding the hex of its hash and of its salt.
  ghost predicate RowFor(h: HashFn, row: User, a: Account) {
    h(a.password, a.salt).Some? && row.passwordHash == ToHex(h(a.password, a.salt).value) && row.salt == ToHex(a.salt)
  }

  ghost predicate Unique(rows: seq<User>) {
    forall i, j :: 0 <= i < j < |rows| ==> rows[i].username != rows[j].username
  }

  ghost predicate Represents(h: HashFn, rows: seq<User>, accounts: map<string, Account>) {
    && Unique(rows)
    && (forall i :: 0 <= i < |rows| ==> rows[i].username in accounts && RowFor(h, rows[i], accounts[rows[i].username]))
    && (forall u :: u in accounts ==> exists i :: 0 <= i < |rows| && rows[i].username == u)
  }

  lemma LookupIs(h: HashFn, rows: seq<User>, accounts: map<string, Account>, u: string)
    requires Represents(h, rows, accounts)
    ensures u in accounts <==> FirstNamed(rows, u).Some?
    ensures u in accounts ==>
      FirstNamed(rows, u).value.username == u && RowFor(h, FirstNamed(rows, u).value, accounts[u])
  {
    FirstNamedFinds(rows, u);
  }

  // While usernames are unique it does not matter in which order the database returns the rows.
  lemma LookupInAnyOrder(rows: seq<User>, rows': seq<User>, u: string)
    requires Unique(rows) && multiset(rows') == multiset(rows)
    ensures FirstNamed(rows', u) == FirstNamed(rows, u)
  {
    hide Unique;
    SoleNamed(rows, u);
    FirstNamedFinds(rows', u);
    assert forall row :: row in rows' <==> row in multiset(rows');
    assert forall row :: row in rows <==> row in multiset(rows);
  }

  lemma SoleNamed(rows: seq<User>, u: string)
    requires Unique(rows)
    ensures forall row :: row in rows && row.username == u ==> FirstNamed(rows, u) == Some(row)
    ensures FirstNamed(rows, u).Some? ==> FirstNamed(rows, u).value in rows && FirstNamed(rows, u).value.username == u
  {
    FirstNamedFinds(rows, u);
  }

  lemma InsertRepresents(h: HashFn, rows: seq<User>, accounts: map<string, Account>, row: User, a: Account)
    requires Represents(h, rows, accounts) && row.username !in accounts && RowFor(h, row, a)
    ensures Represents(h, rows + [row], accounts[row.username := a])
  {
    hide RowFor;
    var rows', accounts' := rows + [row], accounts[row.username := a];
    forall u | u in accounts' ensures exists i :: 0 <= i < |rows'| && rows'[i].username == u {
      if u == row.username {
        assert rows'[|rows|].username == u;
      } else {
        var i :| 0 <= i < |rows| && rows[i].username == u;
        assert rows'[i].username == u;
      }
    }
  }

  // The answer is the one the map gives, unless the token cannot be signed; a success carries the
  // caller's name and the token.
  ghost predicate Answers(sign: SignFn, op: Op, response: Response, ok: bool) {
    && (response.Success? <==> ok && sign(op.username).Some?)
    && (response.Success? ==> response.username == op.username && sign(op.username) == Some(response.token))
  }

  lemma CreateMeans(h: HashFn, sign: SignFn, db: Db, accounts: map<string, Account>, op: Op)
    requires Represents(h, db.rows, accounts) && op.Create?
    ensures var (db', response) := Step(h, sign, db, op);
      var (accounts', ok) := Meaning(h, accounts, op);
      Represents(h, db'.rows, accounts') && Answers(sign, op, response, ok) && (!ok ==> db'.rows == db.rows)
  {
    hide Represents, FirstNamed, ToHex, RowFor;
    LookupIs(h, db.rows, accounts, op.username);
    if op.username !in accounts && h(op.password, op.salt).Some? && op.fault.NoFault? {
      var row := User(db.nextId, op.username, ToHex(h(op.password, op.salt).value), ToHex(op.salt));
      NewRowFor(h, row, op.password, op.salt);
      InsertRepresents(h, db.rows, accounts, row, Account(op.password, op.salt));
    }
  }

  lemma NewRowFor(h: HashFn, row: User, p: string, salt: Bytes)
    requires h(p, salt).Some? && row.passwordHash == ToHex(h(p, salt).value) && row.salt == ToHex(salt)
    ensures RowFor(h, row, Account(p, salt))
  {
  }

  lemma LogInMeans(h: HashFn, sign: SignFn, db: Db, accounts: map<string, Account>, op: Op)
    requires Represents(h, db.rows, accounts) && op.LogIn?
    ensures var (_, ok) := Meaning(h, accounts, op); Answers(sign, op, Step(h, sign, db, op).1, ok)
  {
    hide Represents, FirstNamed, ToHex, FromHex;
    LookupIs(h, db.rows, accounts, op.username);
    if op.username in accounts {
      VerifiesIffSameHash(h, accounts[op.username].password, accounts[op.username].salt, op.password);
    }
  }

  lemma StepMeans(h: HashFn, sign: SignFn, db: Db, accounts: map<string, Account>, op: Op)
    requires Represents(h, db.rows, accounts)
    ensures var (db', response) := Step(h, sign, db, op);
      var (accounts', ok) := Meaning(h, accounts, op);
      && Represents(h, db'.rows, accounts') && Answers(sign, op, response, ok)
      && (op.Create? && !ok ==> db'.rows == db.rows)
  {
    hide Represents, Register, Login, Answers;
    if op.Create? { CreateMeans(h, sign, db, accounts, op); } else { LogInMeans(h, sign, db, accounts, op); }
  }

  function Run(h: HashFn, sign: SignFn, db: Db, ops: seq<Op>): (Db, seq<Response>)
    decreases ops
  {
    if ops == [] then (db, []) else
      var (db', response) := Step(h, sign, db, ops[0]);
      var (db'', responses) := Run(h, sign, db', ops[1..]);
      (db'', [response] + responses)
  }

  function Means(h: HashFn, accounts: map<string, Account>, ops: seq<Op>): (map<string, Account>, seq<bool>)
    decreases ops
  {
    if ops == [] then (accounts, []) else
      var (accounts', ok) := Meaning(h, accounts, ops[0]);
      var (accounts'', oks) := Means(h, accounts', ops[1..]);
      (accounts'', [ok] + oks)
  }

  // Serial runs with healthy lookups: usernames stay unique, the rows represent the accounts,
  // and every call answers success exactly when the map says so and the token can be signed. The
  // row of a registration is committed before the signing.
  lemma {:induction false} StoreRefinesMap(h: HashFn, sign: SignFn, db: Db, accounts: map<string, Account>,
                                           ops: seq<Op>)
    requires Represents(h, db.rows, accounts)
    ensures var (db', responses) := Run(h, sign, db, ops);
      var (accounts', oks) := Means(h, accounts, ops);
      && Represents(h, db'.rows, accounts')
      && |responses| == |oks| == |ops|
      && forall i :: 0 <= i < |ops| ==> Answers(sign, ops[i], responses[i], oks[i])
    decreases ops
  {
    hide Step, Meaning, Represents, Answers;
    if ops != [] {
      StepMeans(h, sign, db, accounts, ops[0]);
      var (db', _) := Step(h, sign, db, ops[0]);
      var (accounts', _) := Meaning(h, accounts, ops[0]);
      StoreRefinesMap(h, sign, db', accounts', ops[1..]);
    }
  }

  // The registration that owns u after the calls: the first that could succeed.
  function Owner(h: HashFn, ops: seq<Op>, u: string): Option<Account>
    decreases ops
  {
    if ops == [] then None
    else if ops[0].Create? && ops[0].username == u && ops[0].fault.NoFault? && h(ops[0].password, ops[0].salt).Some?
    then Some(Account(ops[0].password, ops[0].salt))
    else Owner(h, ops[1..], u)
  }

  lemma {:induction false} MapHoldsOwners(h: HashFn, accounts: map<string, Account>, ops: seq<Op>, u: string)
    ensures var accounts' := Means(h, accounts, ops).0;
      if u in accounts then u in accounts' && accounts'[u] == accounts[u]
      else (u in accounts' <==> Owner(h, ops, u).Some?) && (u in accounts' ==> accounts'[u] == Owner(h, ops, u).value)
    decreases ops
  {
    if ops != [] { MapHoldsOwners(h, Meaning(h, accounts, ops[0]).0, ops[1..], u); }
  }

  // From an empty table: a login whose token can be signed succeeds if and only if that username
  // was registered, and the password hashes, under the salt of the first registration whose row
  // was committed, to the same bytes as the password given then.
  lemma LoginIffRegistered(h: HashFn, sign: SignFn, nextId: int, ops: seq<Op>, u: string, q: string)
    ensures var (db, _) := Run(h, sign, Db([], nextId), ops);
      && Unique(db.rows)
      && (Login(h, sign, db, Some((u, q)), false).Success? <==>
            && sign(u).Some? && Owner(h, ops, u).Some?
            && var owner := Owner(h, ops, u).value; h(q, owner.salt) == h(owner.password, owner.salt))
  {
    StoreRefinesMap(h, sign, Db([], nextId), map[], ops);
    MapHoldsOwners(h, map[], ops, u);
    var (db, _) := Run(h, sign, Db([], nextId), ops);
    StepMeans(h, sign, db, Means(h, map[], ops).0, LogIn(u, q));
  }
}
