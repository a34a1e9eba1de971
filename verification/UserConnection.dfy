// The statement cache of one connection as the object the generated code updates in place
// (app/Entities/odb/User-odb.cxx). The four operations are tied to their functions in
// OdbStatements and to what OdbResults proves these mean for the table.
module OdbObjects {
  import opened Entities
  import opened OdbModel
  import opened OdbStatements
  import OdbProof
  import OdbResults

  class UserConnection {
    var mem: Mem
    var imageId: int
    var version: nat
    var idValue: int
    var idVersion: nat
    var insert: Binding
    var update: Binding
    var select: Binding
    var idBinding: Binding
    var insertImageVersion: nat
    var updateImageVersion: nat
    var selectImageVersion: nat
    var idImageVersion: nat
    var updateIdImageVersion: nat
    var table: Table

    function Value(): Statements
      reads this
    {
      Statements(mem, imageId, version, idValue, idVersion, insert, update, select, idBinding,
                 insertImageVersion, updateImageVersion, selectImageVersion, idImageVersion, updateIdImageVersion)
    }

    predicate Shaped()
      reads this
    {
      |mem.cols| == 3
    }

    ghost predicate Valid()
      reads this
    {
      OdbProof.Inv(Value())
    }

    // Any buffers to start with.
    constructor (mem: Mem, table: Table)
      requires MemOk(mem)
      ensures Valid()
      ensures Value() == Statements(mem, 0, 0, 0, 0,
                                    Binding(0, []), Binding(0, []), Binding(0, []), Binding(0, []), 0, 0, 0, 0, 0)
      ensures this.table == table
    {
      this.mem, this.table := mem, table;
      imageId, version, idValue, idVersion := 0, 0, 0, 0;
      insert, update, select, idBinding := Binding(0, []), Binding(0, []), Binding(0, []), Binding(0, []);
      insertImageVersion, updateImageVersion, selectImageVersion := 0, 0, 0;
      idImageVersion, updateIdImageVersion := 0, 0;
    }

    method InitImageFrom(u: User)
      requires Shaped()
      modifies this`mem, this`version
      ensures Value() == InitImage(old(Value()), u) && Shaped()
    {
      var before := mem;
      mem := SetColumn(mem, 0, u.username);
      mem := SetColumn(mem, 1, u.passwordHash);
      mem := SetColumn(mem, 2, u.salt);
      if !SameCapacities(before, mem) { version := version + 1; }
    }

    method BindId()
      modifies this`idBinding, this`idImageVersion
      ensures Value() == RefreshId(old(Value()))
    {
      if idVersion != idImageVersion || idBinding.version == 0 {
        idBinding := Binding(idBinding.version + 1, [IdBind]);
        idImageVersion := idVersion;
      }
    }

    method PrepareInsert(u: User)
      requires Shaped()
      modifies this
      ensures Value() == AtInsert(old(Value()), u) && table == old(table) && Shaped()
    {
      hide InitImage, FreshBind;
      InitImageFrom(u);
      ghost var mid := Value();
      if version != insertImageVersion || insert.version == 0 {
        insert := Binding(insert.version + 1, FreshBind(mem.cols, Insert));
        insertImageVersion := version;
      }
      assert Value() == RefreshInsert(mid);
      BindId();
    }

    method Persist(u: User, fault: bool) returns (out: Outcome)
      requires Valid()
      modifies this
      ensures Valid() && (table, out) == Meaning(old(table), OdbStatements.Persist(u, fault))
      ensures (Value(), table, out) == DoPersist(old(Value()), old(table), u, fault)
    {
      OdbResults.PersistMeans(Value(), table, u, fault);
      assert Shaped();
      hide OdbProof.Inv, Meaning;
      hide AtInsert, SentRow;
      PrepareInsert(u);
      if fault { return Failed; }
      var sent := SentRow(mem, insert.binds);
      if sent.None? || IdBind !in idBinding.binds { return Garbage; }
      out := Id(table.next);
      idValue := table.next;
      table := Table(table.rows[table.next := sent.value], table.next + 1);
    }

    method BindUpdate()
      requires Shaped()
      modifies this
      ensures Value() == RefreshUpdate(old(Value())) && table == old(table) && mem == old(mem)
    {
      hide FreshBind;
      var imageChanged := version != updateImageVersion || update.version == 0;
      if imageChanged {
        update := Binding(update.version + 1, FreshBind(mem.cols, OdbStatements.Update));
        updateImageVersion := version;
      }
      if idVersion != updateIdImageVersion || idBinding.version == 0 {
        BindId();
        updateIdImageVersion := idVersion;
        if !imageChanged { update := update.(version := update.version + 1); }
      }
    }

    method Update(u: User, fault: bool) returns (out: Outcome)
      requires Valid()
      modifies this
      ensures Valid() && (table, out) == Meaning(old(table), OdbStatements.UpdateUser(u, fault))
      ensures (Value(), table, out) == DoUpdate(old(Value()), old(table), u, fault)
    {
      OdbResults.UpdateMeans(Value(), table, u, fault);
      assert Shaped();
      hide OdbProof.Inv, Meaning;
      hide InitImage, RefreshUpdate, SentRow;
      idValue := u.id;
      assert Value() == old(Value()).(idValue := u.id);
      InitImageFrom(u);
      BindUpdate();
      assert Value() == AtUpdate(old(Value()), u);
      hide AtUpdate;
      if fault { return Failed; }
      var sent := SentRow(mem, update.binds);
      if sent.None? || IdBind !in idBinding.binds { return Garbage; }
      if idValue !in table.rows { return NotPersistent; }
      table := table.(rows := table.rows[idValue := sent.value]);
      out := Done;
    }

    method Erase(id: int, fault: bool) returns (out: Outcome)
      requires Valid()
      modifies this
      ensures Valid() && (table, out) == Meaning(old(table), OdbStatements.Erase(id, fault))
      ensures (Value(), table, out) == DoErase(old(Value()), old(table), id, fault)
    {
      OdbResults.EraseMeans(Value(), table, id, fault);
      assert Shaped();
      hide OdbProof.Inv, Meaning;
      idValue := id;
      BindId();
      if fault { return Failed; }
      if IdBind !in idBinding.binds { return Garbage; }
      if idValue !in table.rows { return NotPersistent; }
      table := table.(rows := table.rows - {idValue});
      out := Done;
    }

    method BindSelect()
      requires Shaped()
      modifies this`select, this`selectImageVersion
      ensures Value() == Rebound(old(Value()))
    {
      select := Binding(select.version + 1, FreshBind(mem.cols, Select));
      selectImageVersion := version;
    }

    // One fetch through the select binding, for the row the id names.
    method FetchInto(row: Row)
      modifies this`mem, this`imageId
      ensures Value() == FetchRow(old(Value()), row)
    {
      mem := Fetch(mem, select.binds, row);
      imageId := idValue;
    }

    // The truncated path: grow, and when that changed the image, rebind and refetch.
    method GrowAndRefetch(row: Row, flags: seq<bool>, fault: bool) returns (fetched: bool)
      requires Shaped() && |flags| == 4
      modifies this
      ensures var g := Grown(old(Value()), flags);
        && Value() == (if g.version == g.selectImageVersion then g
                       else if fault then Rebound(g) else FetchRow(Rebound(g), row))
        && (fetched <==> g.version == g.selectImageVersion || !fault)
      ensures table == old(table)
    {
      hide Grow, Fetch, FreshBind;
      mem := Grow(mem, flags);
      if flags[1] || flags[2] || flags[3] { version := version + 1; }
      assert Value() == Grown(old(Value()), flags);
      if version != selectImageVersion {
        BindSelect();
        if fault { return false; }
        FetchInto(row);
      }
      fetched := true;
    }

    method PrepareSelect(id: int)
      requires Shaped()
      modifies this
      ensures Value() == AtSelect(old(Value()), id) && table == old(table) && Shaped()
    {
      idValue := id;
      assert Value() == old(Value()).(idValue := id);
      BindId();
      if version != selectImageVersion || select.version == 0 { BindSelect(); }
    }

    method Find(id: int, fault: bool, refetchFault: bool) returns (out: Outcome)
      requires Valid()
      modifies this
      ensures Valid() && table == old(table)
      ensures var op := OdbStatements.Find(id, fault, refetchFault);
        out == if OdbResults.RefetchFails(old(Value()), old(table), op) then Failed else Meaning(old(table), op).1
      ensures (Value(), table, out) == DoFind(old(Value()), old(table), id, fault, refetchFault)
    {
      OdbResults.FindMeans(Value(), table, id, fault, refetchFault);
      assert Shaped();
      hide OdbProof.Inv, Meaning, OdbResults.RefetchFails;
      hide AtSelect, Fetch, Truncated, Load, Grow, Rebound;
      PrepareSelect(id);
      if fault { return Failed; }
      if IdBind !in idBinding.binds { return Garbage; }
      if idValue !in table.rows { return NoRow; }
      var row := table.rows[idValue];
      ghost var at := Value();
      var flags := Truncated(select.binds, row);
      FetchInto(row);
      if |flags| == 4 && true in flags {
        var fetched := GrowAndRefetch(row, flags, refetchFault);
        if !fetched { return Failed; }
      }
      assert Value() == Fetched(at, row);
      hide Fetched;
      out := Load(Value());
    }
  }
}
