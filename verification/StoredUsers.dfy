// Registration down to the buffers: the rows the repositories speak of are the rows the
// generated persistence code writes and reads (app/Repositories/OdbRepository.h,
// app/Entities/odb/User-odb.cxx).
module StoredUsers {
  import opened Entities
  import opened Hex
  import opened Password
  import opened OdbModel
  import OdbStatements
  import OdbProof
  import OdbResults
  import UserStore
  import Accounts

  function RowsById(rows: seq<User>): map<int, Row> {
    if rows == [] then map[] else
      var n := |rows| - 1;
      RowsById(rows[..n])[rows[n].id := RowOf(rows[n])]
  }

  // The committed rows as the table that statements see.
  function TableOf(db: UserStore.Db): OdbStatements.Table { OdbStatements.Table(RowsById(db.rows), db.nextId) }

  ghost predicate IdsOk(db: UserStore.Db) {
    && (forall i :: 0 <= i < |db.rows| ==> db.rows[i].id < db.nextId)
    && (forall i, j :: 0 <= i < j < |db.rows| ==> db.rows[i].id != db.rows[j].id)
  }

  // What the repository's Create does to the rows is what persist on any coherent connection does
  // to the table. A fault at commit undoes the row, not the id; one at begin comes before persist.
  lemma CreateIsPersist(s: OdbStatements.Statements, db: UserStore.Db, user: User, fault: UserStore.Fault)
    requires OdbProof.Inv(s)
    ensures var (db', created) := UserStore.Create(db, user, fault);
      var (s', tab', out) := OdbStatements.DoPersist(s, TableOf(db), user, fault.AtPersist?);
      && OdbProof.Inv(s')
      && (created.SuccessResult? <==> fault.NoFault?)
      && (fault.NoFault? ==> TableOf(db') == tab' && out == OdbStatements.Id(db.nextId))
      && (fault.AtPersist? ==> TableOf(db') == tab' && out == OdbStatements.Failed)
      && (fault.AtCommit? ==> TableOf(db') == OdbStatements.Table(TableOf(db).rows, tab'.next))
      && (fault.AtBegin? ==> db' == db)
  {
    OdbResults.PersistMeans(s, TableOf(db), user, fault.AtPersist?);
    hide OdbProof.Inv, OdbStatements.DoPersist;
    var rows := db.rows + [user.(id := db.nextId)];
    assert rows[..|rows| - 1] == db.rows;
    assert RowsById(rows) == RowsById(db.rows)[db.nextId := RowOf(user)];
  }

  lemma CreateKeepsIds(db: UserStore.Db, user: User, fault: UserStore.Fault)
    requires IdsOk(db)
    ensures IdsOk(UserStore.Create(db, user, fault).0)
  {
  }

  lemma {:induction false} RowsByIdHas(rows: seq<User>, i: nat)
    requires i < |rows| && forall j, k :: 0 <= j < k < |rows| ==> rows[j].id != rows[k].id
    ensures rows[i].id in RowsById(rows) && RowsById(rows)[rows[i].id] == RowOf(rows[i])
  {
    var n := |rows| - 1;
    if i < n { RowsByIdHas(rows[..n], i); }
  }

  // Every committed row is read back whole by its id, on any coherent connection.
  lemma StoredIsFound(s: OdbStatements.Statements, db: UserStore.Db, i: nat)
    requires OdbProof.Inv(s) && IdsOk(db) && i < |db.rows|
    ensures OdbStatements.DoFind(s, TableOf(db), db.rows[i].id, false, false).2 == OdbStatements.Found(db.rows[i])
  {
    RowsByIdHas(db.rows, i);
    OdbResults.FindMeans(s, TableOf(db), db.rows[i].id, false, false);
    hide OdbProof.Inv, OdbStatements.DoFind, RowsById;
  }

  lemma StepKeepsIds(h: HashFn, sign: UserStore.SignFn, db: UserStore.Db, op: Accounts.Op)
    requires IdsOk(db)
    ensures IdsOk(Accounts.Step(h, sign, db, op).0)
  {
    hide IdsOk, ToHex, UserStore.Login, UserStore.GetUserByUsername, UserStore.Create;
    match op {
      case Create(u, p, salt, fault) =>
        if h(p, salt).Some? {
          CreateKeepsIds(db, User(0, u, ToHex(h(p, salt).value), ToHex(salt)), fault);
        }
      case LogIn(_, _) =>
    }
  }

  lemma {:induction false} RunKeepsIds(h: HashFn, sign: UserStore.SignFn, db: UserStore.Db, ops: seq<Accounts.Op>)
    requires IdsOk(db)
    ensures IdsOk(Accounts.Run(h, sign, db, ops).0)
    decreases ops
  {
    hide IdsOk, Accounts.Step;
    if ops != [] {
      StepKeepsIds(h, sign, db, ops[0]);
      RunKeepsIds(h, sign, Accounts.Step(h, sign, db, ops[0]).0, ops[1..]);
    }
  }

  // After any serial calls from an empty table, every name that is registered has a row holding
  // the hex of the owner's hash and salt, and a find of its id on any coherent connection, however
  // small its buffers, returns exactly that row.
  lemma RegisteredIsFound(h: HashFn, sign: UserStore.SignFn, nextId: int, ops: seq<Accounts.Op>, u: string,
                          s: OdbStatements.Statements) returns (i: nat)
    requires Accounts.Owner(h, ops, u).Some? && OdbProof.Inv(s)
    ensures var db := Accounts.Run(h, sign, UserStore.Db([], nextId), ops).0;
      var owner := Accounts.Owner(h, ops, u).value;
      && i < |db.rows| && db.rows[i].username == u && h(owner.password, owner.salt).Some?
      && db.rows[i].passwordHash == ToHex(h(owner.password, owner.salt).value) && db.rows[i].salt == ToHex(owner.salt)
      && OdbStatements.DoFind(s, TableOf(db), db.rows[i].id, false, false).2 == OdbStatements.Found(db.rows[i])
  {
    var empty := UserStore.Db([], nextId);
    var db := Accounts.Run(h, sign, empty, ops).0;
    Accounts.StoreRefinesMap(h, sign, empty, map[], ops);
    Accounts.MapHoldsOwners(h, map[], ops, u);
    RunKeepsIds(h, sign, empty, ops);
    hide Accounts.Run, Accounts.Means, Accounts.Owner, OdbProof.Inv, OdbStatements.DoFind;
    i :| 0 <= i < |db.rows| && db.rows[i].username == u;
    StoredIsFound(s, db, i);
  }
}
