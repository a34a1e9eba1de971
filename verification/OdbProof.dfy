// The lazily refreshed bindings always agree with a fresh bind, and hence the operations mean
// what they say about the table, whatever the buffers.
module OdbProof {
  import opened Common
  import opened Entities
  import opened OdbModel
  import opened OdbStatements

  // A binding that was ever bound, at the image's current version, is what bind would give now.
  ghost predicate Coherent(b: Binding, imageVersion: nat, version: nat, expected: seq<Bind>) {
    && imageVersion <= version
    && (b.version > 0 && imageVersion == version ==> b.binds == expected)
  }

  ghost predicate Inv(s: Statements) {
    && MemOk(s.mem)
    && Coherent(s.insert, s.insertImageVersion, s.version, FreshBind(s.mem.cols, Insert))
    && Coherent(s.update, s.updateImageVersion, s.version, FreshBind(s.mem.cols, Update))
    && Coherent(s.select, s.selectImageVersion, s.version, FreshBind(s.mem.cols, Select))
    && Coherent(s.idBinding, s.idImageVersion, s.idVersion, [IdBind])
    && s.updateIdImageVersion <= s.idVersion
    && s.idImageVersion == s.idVersion
    && (s.update.version > 0 ==> s.idBinding.version > 0)
  }

  // The buffers of b are those of a, or the image version moved on.
  ghost predicate Versioned(a: Statements, b: Statements)
    requires |a.mem.cols| == 3 && |b.mem.cols| == 3
  {
    && a.version <= b.version
    && (a.version == b.version ==> forall k :: 0 <= k < 3 ==> b.mem.cols[k].value == a.mem.cols[k].value)
    && b.insert == a.insert && b.update == a.update && b.select == a.select && b.idBinding == a.idBinding
    && b.insertImageVersion == a.insertImageVersion && b.updateImageVersion == a.updateImageVersion
    && b.selectImageVersion == a.selectImageVersion && b.idImageVersion == a.idImageVersion
    && b.updateIdImageVersion == a.updateIdImageVersion && b.idVersion == a.idVersion
  }

  // Changing the image under the version rule leaves no stale binding unmarked.
  lemma VersionedKeeps(a: Statements, b: Statements)
    requires Inv(a) && MemOk(b.mem) && Versioned(a, b)
    ensures Inv(b)
  {
    if a.version == b.version {
      assert FreshBind(b.mem.cols, Insert) == FreshBind(a.mem.cols, Insert);
      assert FreshBind(b.mem.cols, Select) == FreshBind(a.mem.cols, Select);
    }
  }

  lemma SetImageHolds(m: Mem, u: User)
    requires MemOk(m)
    ensures var s := SetImage(m, u);
      && MemOk(s) && Holds(s, 0, u.username) && Holds(s, 1, u.passwordHash) && Holds(s, 2, u.salt)
      && (SameCapacities(m, s) ==> forall k :: 0 <= k < 3 ==> s.cols[k].value == m.cols[k].value)
  {
    var a := SetColumn(m, 0, u.username);
    var b := SetColumn(a, 1, u.passwordHash);
    var c := SetColumn(b, 2, u.salt);
    SetColumnKeeps(m, 0, u.username);
    SetColumnKeeps(a, 1, u.passwordHash);
    SetColumnKeeps(b, 2, u.salt);
    hide SetColumn, MemOk, Holds;
    StillHolds(a, b, 0, u.username);
    StillHolds(b, c, 0, u.username);
    StillHolds(b, c, 1, u.passwordHash);
    assert SameColumn(m, a, 1) && SameColumn(m, a, 2) && SameColumn(a, b, 2);
  }

  lemma StillHolds(a: Mem, b: Mem, k: nat, v: string)
    requires k < |a.cols| && k < |b.cols| && SameColumn(a, b, k) && Holds(a, k, v)
    ensures Holds(b, k, v)
  {
  }

  lemma InitImageKeeps(s: Statements, u: User)
    requires Inv(s)
    ensures var b := InitImage(s, u);
      Inv(b) && Holds(b.mem, 0, u.username) && Holds(b.mem, 1, u.passwordHash) && Holds(b.mem, 2, u.salt)
  {
    SetImageHolds(s.mem, u);
    hide SetImage, MemOk, Holds;
    VersionedKeeps(s, InitImage(s, u));
  }

  // ---- coherence at each execution ----

  lemma InsertCoherent(s: Statements, u: User)
    requires Inv(s)
    ensures var a := AtInsert(s, u);
      && Inv(a) && a.mem == InitImage(s, u).mem
      && a.insert.binds == FreshBind(a.mem.cols, Insert) && a.idBinding.binds == [IdBind]
  {
    InitImageKeeps(s, u);
    hide InitImage, Holds, MemOk;
  }

  lemma UpdateCoherent(s: Statements, u: User)
    requires Inv(s)
    ensures var a := AtUpdate(s, u);
      && Inv(a) && a.mem == InitImage(s.(idValue := u.id), u).mem && a.idValue == u.id
      && a.update.binds == FreshBind(a.mem.cols, Update) && a.idBinding.binds == [IdBind]
  {
    InitImageKeeps(s.(idValue := u.id), u);
    assert InitImage(s.(idValue := u.id), u).idValue == u.id;
    hide InitImage, Holds, MemOk;
  }

  lemma EraseCoherent(s: Statements, id: int)
    requires Inv(s)
    ensures Inv(AtErase(s, id)) && AtErase(s, id).idBinding.binds == [IdBind]
  {
  }

  lemma SelectCoherent(s: Statements, id: int)
    requires Inv(s)
    ensures var a := AtSelect(s, id);
      && Inv(a) && a.idValue == id && a.selectImageVersion == a.version && a.mem == s.mem
      && a.select.binds == FreshBind(a.mem.cols, Select) && a.idBinding.binds == [IdBind]
  {
    hide MemOk;
  }

  // ---- what is sent and what is read back ----

  lemma SentRowIs(m: Mem, row: Row)
    requires MemOk(m) && Holds(m, 0, row[0]) && Holds(m, 1, row[1]) && Holds(m, 2, row[2])
    ensures SentRow(m, FreshBind(m.cols, Insert)) == Some(row)
  {
    var bs := FreshBind(m.cols, Insert);
    assert bs[1..] == [bs[1], bs[2]] && bs[1..][1..] == [bs[2]] && bs[1..][1..][1..] == [];
    assert ReadBinds(m, []) == [];
    assert ReadBinds(m, bs[1..][1..]) == [Some(row[2])];
    assert ReadBinds(m, bs[1..]) == [Some(row[1]), Some(row[2])];
    assert ReadBinds(m, bs) == [Some(row[0]), Some(row[1]), Some(row[2])];
    assert [row[0], row[1], row[2]] == row;
  }

  function BindOf(m: Mem, k: nat): Bind
    requires k < |m.cols|
  {
    TextBind(m.cols[k].value.addr, m.cols[k].value.capacity, k)
  }

  // One column of a fetch: its true size, its text if it fits, nothing else.
  ghost predicate FetchedColumn(a: Mem, b: Mem, k: nat, v: string)
    requires k < |a.cols| && k < |b.cols|
  {
    && b.cols[k].value == a.cols[k].value && b.cols[k].size == |v|
    && (|v| <= a.cols[k].value.capacity ==> Holds(b, k, v))
  }

  lemma FetchOneKeeps(m: Mem, k: nat, row: Row)
    requires MemOk(m) && k < 3
    ensures var b := FetchOne(m, BindOf(m, k), row);
      && MemOk(b) && FetchedColumn(m, b, k, row[k])
      && forall j :: 0 <= j < 3 && j != k ==> SameColumn(m, b, j)
  {
    var col := m.cols[k];
    if |row[k]| <= col.value.capacity { CopyReads(m.heap, col.value.addr, col.value.capacity, row[k]); }
  }

  lemma FetchedStill(a: Mem, b: Mem, c: Mem, k: nat, v: string)
    requires |a.cols| == |b.cols| == |c.cols| == 3 && k < 3
    requires (SameColumn(a, b, k) && FetchedColumn(b, c, k, v)) || (FetchedColumn(a, b, k, v) && SameColumn(b, c, k))
    ensures FetchedColumn(a, c, k, v)
  {
  }

  lemma FetchUnrolls(m: Mem, b0: Bind, b1: Bind, b2: Bind, b3: Bind, row: Row)
    ensures Fetch(m, [b0, b1, b2, b3], row) ==
      FetchOne(FetchOne(FetchOne(FetchOne(m, b0, row), b1, row), b2, row), b3, row)
  {
    var bs := [b0, b1, b2, b3];
    assert bs[1..] == [b1, b2, b3] && bs[1..][1..] == [b2, b3] && bs[1..][1..][1..] == [b3];
    var m1 := FetchOne(m, b0, row);
    var m2 := FetchOne(m1, b1, row);
    assert Fetch(m, bs, row) == Fetch(m1, [b1, b2, b3], row);
    assert Fetch(m1, [b1, b2, b3], row) == Fetch(m2, [b2, b3], row);
    var m3 := FetchOne(m2, b2, row);
    assert Fetch(m2, [b2, b3], row) == Fetch(m3, [b3], row) by { assert [b2, b3][1..] == [b3]; }
    assert Fetch(m3, [b3], row) == FetchOne(m3, b3, row) by { assert [b3][1..] == []; }
  }

  lemma FetchFresh(m: Mem, row: Row)
    requires MemOk(m)
    ensures var f := Fetch(m, FreshBind(m.cols, Select), row);
      MemOk(f) && forall k :: 0 <= k < 3 ==> FetchedColumn(m, f, k, row[k])
  {
    var a := FetchOne(m, BindOf(m, 0), row);
    FetchOneKeeps(m, 0, row);
    var b := FetchOne(a, BindOf(a, 1), row);
    FetchOneKeeps(a, 1, row);
    var c := FetchOne(b, BindOf(b, 2), row);
    FetchOneKeeps(b, 2, row);
    FetchUnrolls(m, IdBind, BindOf(m, 0), BindOf(m, 1), BindOf(m, 2), row);
    assert FreshBind(m.cols, Select) == [IdBind, BindOf(m, 0), BindOf(m, 1), BindOf(m, 2)];
    assert FetchOne(m, IdBind, row) == m;
    hide FetchOne, FetchedColumn, MemOk;
    assert SameColumn(m, a, 1) && SameColumn(m, a, 2) && SameColumn(a, b, 2);
    assert BindOf(m, 1) == BindOf(a, 1) && BindOf(m, 2) == BindOf(b, 2);
    FetchedStill(m, a, b, 0, row[0]);
    FetchedStill(m, b, c, 0, row[0]);
    FetchedStill(m, a, b, 1, row[1]);
    FetchedStill(m, b, c, 1, row[1]);
    FetchedStill(m, b, c, 2, row[2]) by { assert SameColumn(m, b, 2); }
  }

  // grow() makes a flagged column as large as its recorded size and touches no other.
  ghost predicate GrownColumn(a: Mem, b: Mem, k: nat, flag: bool)
    requires k < |a.cols| && k < |b.cols|
  {
    && b.cols[k].size == a.cols[k].size
    && (if flag then a.cols[k].size <= b.cols[k].value.capacity else SameColumn(a, b, k))
  }

  lemma GrowOne(m: Mem, k: nat, flag: bool)
    requires MemOk(m) && k < 3
    ensures var g := if flag then Reserve(m, k, m.cols[k].size) else m;
      MemOk(g) && GrownColumn(m, g, k, flag) && forall j :: 0 <= j < 3 && j != k ==> SameColumn(m, g, j)
  {
    ReserveKeeps(m, k, m.cols[k].size);
  }

  lemma GrownStill(a: Mem, b: Mem, c: Mem, k: nat, flag: bool)
    requires |a.cols| == |b.cols| == |c.cols| == 3 && k < 3
    requires (SameColumn(a, b, k) && GrownColumn(b, c, k, flag)) || (GrownColumn(a, b, k, flag) && SameColumn(b, c, k))
    ensures GrownColumn(a, c, k, flag)
  {
  }

  lemma GrowsFlagged(m: Mem, t: seq<bool>)
    requires MemOk(m) && |t| == 4
    ensures var g := Grow(m, t);
      MemOk(g) && GrownColumn(m, g, 0, t[1]) && GrownColumn(m, g, 1, t[2]) && GrownColumn(m, g, 2, t[3])
  {
    var a := if t[1] then Reserve(m, 0, m.cols[0].size) else m;
    GrowOne(m, 0, t[1]);
    var b := if t[2] then Reserve(a, 1, a.cols[1].size) else a;
    GrowOne(a, 1, t[2]);
    var c := Grow(m, t);
    GrowOne(b, 2, t[3]);
    hide Reserve, GrownColumn, MemOk, SameColumn;
    GrownStill(m, a, b, 0, t[1]);
    GrownStill(m, b, c, 0, t[1]);
    GrownStill(m, a, b, 1, t[2]);
    GrownStill(m, b, c, 1, t[2]);
    SameTwice(m, a, b, 2);
    GrownStill(m, b, c, 2, t[3]);
  }

  lemma SameTwice(a: Mem, b: Mem, c: Mem, k: nat)
    requires |a.cols| == |b.cols| == |c.cols| == 3 && k < 3 && SameColumn(a, b, k) && SameColumn(b, c, k)
    ensures SameColumn(a, c, k)
  {
  }

  lemma LoadReads(s: Statements, row: Row)
    requires MemOk(s.mem) && Holds(s.mem, 0, row[0]) && Holds(s.mem, 1, row[1]) && Holds(s.mem, 2, row[2])
    ensures Load(s) == Found(User(s.imageId, row[0], row[1], row[2]))
  {
  }

  // After the first fetch of a coherent select the flags say exactly which columns did not fit.
  lemma FlagsExact(m: Mem, row: Row)
    requires |m.cols| == 3
    ensures var t := Truncated(FreshBind(m.cols, Select), row);
      && |t| == 4 && !t[0]
      && (forall k :: 0 <= k < 3 ==> (t[k + 1] <==> |row[k]| > m.cols[k].value.capacity))
      && (true in t <==> t[1] || t[2] || t[3])
  {
    var bs := FreshBind(m.cols, Select);
    var t := Truncated(bs, row);
    assert bs[0] == IdBind && bs[1] == BindOf(m, 0) && bs[2] == BindOf(m, 1) && bs[3] == BindOf(m, 2);
    assert t[1] == (|row[0]| > m.cols[0].value.capacity);
    assert t[2] == (|row[1]| > m.cols[1].value.capacity);
    assert t[3] == (|row[2]| > m.cols[2].value.capacity);
  }

  ghost predicate ReadyToSelect(s: Statements) {
    && Inv(s) && s.selectImageVersion == s.version && s.select.binds == FreshBind(s.mem.cols, Select)
  }

  lemma FetchRowKeeps(s: Statements, row: Row)
    requires ReadyToSelect(s)
    ensures ReadyToSelect(FetchRow(s, row)) && FetchRow(s, row).imageId == s.idValue
    ensures forall k :: 0 <= k < 3 ==> FetchedColumn(s.mem, FetchRow(s, row).mem, k, row[k])
  {
    FetchFresh(s.mem, row);
    hide Fetch;
    var f := FetchRow(s, row);
    assert FetchedColumn(s.mem, f.mem, 0, row[0]) && FetchedColumn(s.mem, f.mem, 1, row[1])
      && FetchedColumn(s.mem, f.mem, 2, row[2]);
    assert FreshBind(f.mem.cols, Select) == FreshBind(s.mem.cols, Select);
    assert FreshBind(f.mem.cols, Insert) == FreshBind(s.mem.cols, Insert);
  }

  // Growing marks every binding of the image stale, the select binding is renewed, and then
  // every column fits.
  lemma RegrowKeeps(f: Statements, t: seq<bool>)
    requires ReadyToSelect(f) && |t| == 4 && (t[1] || t[2] || t[3])
    requires forall k :: 0 <= k < 3 ==> (t[k + 1] <==> f.mem.cols[k].size > f.mem.cols[k].value.capacity)
    ensures var g := Grown(f, t);
      && g.version != g.selectImageVersion
      && g.version != g.insertImageVersion && g.version != g.updateImageVersion
      && ReadyToSelect(Rebound(g)) && Rebound(g).idValue == f.idValue
      && forall k :: 0 <= k < 3 ==> f.mem.cols[k].size <= g.mem.cols[k].value.capacity
  {
    GrowsFlagged(f.mem, t);
    hide Grow, MemOk;
    VersionedKeeps(f, Grown(f, t));
  }

  // A find reads the whole row back, whatever the capacities were.
  lemma FindReads(s: Statements, row: Row)
    requires ReadyToSelect(s)
    ensures ReadyToSelect(Fetched(s, row))
    ensures Load(Fetched(s, row)) == Found(User(s.idValue, row[0], row[1], row[2]))
  {
    var f := FetchRow(s, row);
    FetchRowKeeps(s, row);
    FlagsExact(s.mem, row);
    var t := Truncated(s.select.binds, row);
    hide Truncated, FetchRow, MemOk, Coherent, Holds, Load, FreshBind;
    if true in t {
      RegrowKeeps(f, t);
      var g := Rebound(Grown(f, t));
      FetchRowKeeps(g, row);
      LoadReads(Fetched(s, row), row);
    } else {
      LoadReads(f, row);
    }
  }

  // Some text of the row is longer than its buffer.
  predicate TooSmall(m: Mem, row: Row)
    requires |m.cols| == 3
  {
    exists k :: 0 <= k < 3 && |row[k]| > m.cols[k].value.capacity
  }

  // A find refetches exactly when some text did not fit, and through a fresh binding. If the
  // refetch fails, growth and rebinding stay, and nothing is stale.
  lemma RefetchIsReady(s: Statements, row: Row)
    requires ReadyToSelect(s)
    ensures BeforeRefetch(s, row).Some? <==> TooSmall(s.mem, row)
    ensures BeforeRefetch(s, row).Some? ==> var b := BeforeRefetch(s, row).value;
      && ReadyToSelect(b) && b.version > s.version && b.select.version > s.select.version
      && Fetched(s, row) == FetchRow(b, row)
  {
    var f := FetchRow(s, row);
    FetchRowKeeps(s, row);
    FlagsExact(s.mem, row);
    var t := Truncated(s.select.binds, row);
    hide Truncated, FetchRow, MemOk, Coherent, Holds, FreshBind;
    if true in t { RegrowKeeps(f, t); }
  }
}
