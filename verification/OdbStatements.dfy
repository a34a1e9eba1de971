// The statements of one connection and the four operations on them
// (app/Entities/odb/User-odb.cxx: persist, update, erase, find_).
module OdbStatements {
  import opened Common
  import opened Entities
  import opened OdbModel

  // One slot of a binding array. IdBind points at the id image, TextBind at a buffer; `col` is
  // the column whose size field the slot points at.
  datatype Bind = IdBind | TextBind(addr: nat, capacity: nat, col: nat)
  datatype Binding = Binding(version: nat, binds: seq<Bind>)
  datatype Kind = Insert | Update | Select

  datatype Statements = Statements(
    mem: Mem,                     // the buffers and sizes of the shared image
    imageId: int,                 // its id column
    version: nat,                 // image.version
    idValue: int, idVersion: nat, // the id image
    insert: Binding, update: Binding, select: Binding, idBinding: Binding,
    insertImageVersion: nat, updateImageVersion: nat, selectImageVersion: nat,
    idImageVersion: nat, updateIdImageVersion: nat)

  // The database: rows by id and the next value of the id sequence.
  datatype Table = Table(rows: map<int, Row>, next: int)

  // bind(b, i, sk): insert and update leave the id column out.
  function FreshBind(cols: seq<Column>, kind: Kind): seq<Bind>
    requires |cols| == 3
  {
    (if kind.Select? then [IdBind] else []) +
    [TextBind(cols[0].value.addr, cols[0].value.capacity, 0),
     TextBind(cols[1].value.addr, cols[1].value.capacity, 1),
     TextBind(cols[2].value.addr, cols[2].value.capacity, 2)]
  }

  function SetImage(m: Mem, u: User): Mem
    requires |m.cols| == 3
  {
    SetColumn(SetColumn(SetColumn(m, 0, u.username), 1, u.passwordHash), 2, u.salt)
  }

  predicate SameCapacities(a: Mem, b: Mem)
    requires |a.cols| == 3 && |b.cols| == 3
  {
    && a.cols[0].value.capacity == b.cols[0].value.capacity
    && a.cols[1].value.capacity == b.cols[1].value.capacity
    && a.cols[2].value.capacity == b.cols[2].value.capacity
  }

  // `if (init(im, obj, sk)) im.version++`
  function InitImage(s: Statements, u: User): Statements
    requires |s.mem.cols| == 3
  {
    var m := SetImage(s.mem, u);
    s.(mem := m, version := if SameCapacities(s.mem, m) then s.version else s.version + 1)
  }

  function RefreshInsert(s: Statements): Statements
    requires |s.mem.cols| == 3
  {
    if s.version != s.insertImageVersion || s.insert.version == 0
    then s.(insert := Binding(s.insert.version + 1, FreshBind(s.mem.cols, Insert)), insertImageVersion := s.version)
    else s
  }

  function RefreshSelect(s: Statements): Statements
    requires |s.mem.cols| == 3
  {
    if s.version != s.selectImageVersion || s.select.version == 0
    then s.(select := Binding(s.select.version + 1, FreshBind(s.mem.cols, Select)), selectImageVersion := s.version)
    else s
  }

  function RefreshId(s: Statements): Statements {
    if s.idVersion != s.idImageVersion || s.idBinding.version == 0
    then s.(idBinding := Binding(s.idBinding.version + 1, [IdBind]), idImageVersion := s.idVersion)
    else s
  }

  // Both conditions of `update`: the image part, then the id part, which announces a change in
  // the combined binding unless the image part already did.
  function RefreshUpdate(s: Statements): Statements
    requires |s.mem.cols| == 3
  {
    var u := s.version != s.updateImageVersion || s.update.version == 0;
    var a := if u
      then s.(update := Binding(s.update.version + 1, FreshBind(s.mem.cols, Update)), updateImageVersion := s.version)
      else s;
    if a.idVersion != a.updateIdImageVersion || a.idBinding.version == 0 then
      var b := RefreshId(a);
      b.(updateIdImageVersion := b.idVersion,
         update := if u then b.update else b.update.(version := b.update.version + 1))
    else a
  }

  // The state in which each statement executes.
  function AtInsert(s: Statements, u: User): Statements
    requires |s.mem.cols| == 3
  {
    RefreshId(RefreshInsert(InitImage(s, u)))
  }

  function AtUpdate(s: Statements, u: User): Statements
    requires |s.mem.cols| == 3
  {
    RefreshUpdate(InitImage(s.(idValue := u.id), u))
  }

  function AtErase(s: Statements, id: int): Statements {
    RefreshId(s.(idValue := id))
  }

  function AtSelect(s: Statements, id: int): Statements
    requires |s.mem.cols| == 3
  {
    RefreshSelect(RefreshId(s.(idValue := id)))
  }

  // ---- statement execution: everything goes through the bound addresses ----

  // The parameters a statement sends: one text per TextBind.
  function ReadBinds(m: Mem, binds: seq<Bind>): seq<Option<string>> {
    if binds == [] then [] else
      (match binds[0]
       case IdBind => []
       case TextBind(addr, _, col) =>
         [if col < |m.cols| then ReadText(m.heap, addr, m.cols[col].size) else None])
      + ReadBinds(m, binds[1..])
  }

  function SentRow(m: Mem, binds: seq<Bind>): Option<Row> {
    var ps := ReadBinds(m, binds);
    if |ps| == 3 && ps[0].Some? && ps[1].Some? && ps[2].Some?
    then Some([ps[0].value, ps[1].value, ps[2].value]) else None
  }

  // A fetched value goes to the bound address as far as it fits; the size field gets its true size.
  function FetchOne(m: Mem, b: Bind, row: Row): Mem {
    match b
    case IdBind => m
    case TextBind(addr, capacity, col) =>
      if col < |m.cols| && col < 3
      then m.(heap := CopyTo(m.heap, addr, capacity, row[col]), cols := m.cols[col := m.cols[col].(size := |row[col]|)])
      else m
  }

  function Fetch(m: Mem, binds: seq<Bind>, row: Row): (r: Mem)
    ensures |r.cols| == |m.cols|
    decreases binds
  {
    if binds == [] then m else Fetch(FetchOne(m, binds[0], row), binds[1..], row)
  }

  // The flag array of a fetch: which columns did not fit.
  function Truncated(binds: seq<Bind>, row: Row): seq<bool> {
    seq(|binds|, i requires 0 <= i < |binds| =>
      binds[i].TextBind? && binds[i].col < 3 && |row[binds[i].col]| > binds[i].capacity)
  }

  // grow(i, t): each flagged buffer gets the size of its column.
  function Grow(m: Mem, t: seq<bool>): (g: Mem)
    requires |m.cols| == 3 && |t| == 4
    ensures |g.cols| == 3
  {
    var a := if t[1] then Reserve(m, 0, m.cols[0].size) else m;
    var b := if t[2] then Reserve(a, 1, a.cols[1].size) else a;
    if t[3] then Reserve(b, 2, b.cols[2].size) else b
  }

  // The truncated path of find_: grow, and when the image changed rebind and refetch.
  function Grown(s: Statements, t: seq<bool>): Statements
    requires |s.mem.cols| == 3 && |t| == 4
  {
    s.(mem := Grow(s.mem, t), version := if t[1] || t[2] || t[3] then s.version + 1 else s.version)
  }

  function Rebound(s: Statements): Statements
    requires |s.mem.cols| == 3
  {
    s.(select := Binding(s.select.version + 1, FreshBind(s.mem.cols, Select)), selectImageVersion := s.version)
  }

  // ---- the four operations ----

  datatype Op =
    | Persist(user: User, fault: bool) | UpdateUser(user: User, fault: bool)
    | Erase(id: int, fault: bool) | Find(id: int, fault: bool, refetchFault: bool)

  // Failed: the database refused the statement, or the second fetch of a find. NotPersistent: object_not_persistent.
  // Garbage: what was sent or read was not text, which the code never notices.
  datatype Outcome = Id(id: int) | Done | NotPersistent | Found(user: User) | NoRow | Failed | Garbage

  function DoPersist(s: Statements, tab: Table, u: User, fault: bool): (Statements, Table, Outcome)
    requires |s.mem.cols| == 3
  {
    var a := AtInsert(s, u);
    var sent := SentRow(a.mem, a.insert.binds);
    if fault then (a, tab, Failed)
    else if sent.None? || IdBind !in a.idBinding.binds then (a, tab, Garbage)
    else (a.(idValue := tab.next), Table(tab.rows[tab.next := sent.value], tab.next + 1), Id(tab.next))
  }

  function DoUpdate(s: Statements, tab: Table, u: User, fault: bool): (Statements, Table, Outcome)
    requires |s.mem.cols| == 3
  {
    var a := AtUpdate(s, u);
    var sent := SentRow(a.mem, a.update.binds);
    if fault then (a, tab, Failed)
    else if sent.None? || IdBind !in a.idBinding.binds then (a, tab, Garbage)
    else if a.idValue !in tab.rows then (a, tab, NotPersistent)
    else (a, tab.(rows := tab.rows[a.idValue := sent.value]), Done)
  }

  function DoErase(s: Statements, tab: Table, id: int, fault: bool): (Statements, Table, Outcome) {
    var a := AtErase(s, id);
    if fault then (a, tab, Failed)
    else if IdBind !in a.idBinding.binds then (a, tab, Garbage)
    else if a.idValue !in tab.rows then (a, tab, NotPersistent)
    else (a, tab.(rows := tab.rows - {a.idValue}), Done)
  }

  // The object read back from the image.
  function Load(s: Statements): Outcome
    requires |s.mem.cols| == 3
  {
    var v := seq(3, k requires 0 <= k < 3 => ReadText(s.mem.heap, s.mem.cols[k].value.addr, s.mem.cols[k].size));
    if v[0].Some? && v[1].Some? && v[2].Some?
    then Found(User(s.imageId, v[0].value, v[1].value, v[2].value)) else Garbage
  }

  function FetchRow(s: Statements, row: Row): Statements {
    s.(mem := Fetch(s.mem, s.select.binds, row), imageId := s.idValue)
  }

  // find_ from its first fetch to its return, for a row that exists.
  function Fetched(s: Statements, row: Row): (r: Statements)
    requires |s.mem.cols| == 3
    ensures |r.mem.cols| == 3
  {
    var f := FetchRow(s, row);
    var t := Truncated(s.select.binds, row);
    if |t| == 4 && true in t then
      var g := Grown(f, t);
      if g.version != g.selectImageVersion then FetchRow(Rebound(g), row) else g
    else f
  }

  // find_ once it has grown and rebound, about to refetch; None when it does not get there.
  function BeforeRefetch(s: Statements, row: Row): (r: Option<Statements>)
    requires |s.mem.cols| == 3
    ensures r.Some? ==> |r.value.mem.cols| == 3
  {
    var f := FetchRow(s, row);
    var t := Truncated(s.select.binds, row);
    if |t| != 4 || true !in t then None else
      var g := Grown(f, t);
      if g.version != g.selectImageVersion then Some(Rebound(g)) else None
  }

  function DoFind(s: Statements, tab: Table, id: int, fault: bool, refetchFault: bool)
    : (r: (Statements, Table, Outcome))
    requires |s.mem.cols| == 3
  {
    var a := AtSelect(s, id);
    if fault then (a, tab, Failed)
    else if IdBind !in a.idBinding.binds then (a, tab, Garbage)
    else if a.idValue !in tab.rows then (a, tab, NoRow)
    else
      var before := BeforeRefetch(a, tab.rows[a.idValue]);
      if refetchFault && before.Some? then (before.value, tab, Failed) else
        var f := Fetched(a, tab.rows[a.idValue]);
        (f, tab, Load(f))
  }

  function Apply(s: Statements, tab: Table, op: Op): (Statements, Table, Outcome)
    requires |s.mem.cols| == 3
  {
    match op
    case Persist(u, fault) => DoPersist(s, tab, u, fault)
    case UpdateUser(u, fault) => DoUpdate(s, tab, u, fault)
    case Erase(id, fault) => DoErase(s, tab, id, fault)
    case Find(id, fault, refetchFault) => DoFind(s, tab, id, fault, refetchFault)
  }

  // What the same call means for the table alone.
  function Meaning(tab: Table, op: Op): (Table, Outcome) {
    match op
    case Persist(u, fault) =>
      if fault then (tab, Failed) else (Table(tab.rows[tab.next := RowOf(u)], tab.next + 1), Id(tab.next))
    case UpdateUser(u, fault) =>
      if fault then (tab, Failed) else if u.id !in tab.rows then (tab, NotPersistent)
      else (tab.(rows := tab.rows[u.id := RowOf(u)]), Done)
    case Erase(id, fault) =>
      if fault then (tab, Failed) else if id !in tab.rows then (tab, NotPersistent)
      else (tab.(rows := tab.rows - {id}), Done)
    case Find(id, fault, _) =>
      if fault then (tab, Failed) else if id !in tab.rows then (tab, NoRow)
      else (tab, Found(User(id, tab.rows[id][0], tab.rows[id][1], tab.rows[id][2])))
  }
}
