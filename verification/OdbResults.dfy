// The connection as a whole: coherent bindings after any sequence of operations, and the table
// such a sequence means.
module OdbResults {
  import opened Common
  import opened Entities
  import opened OdbModel
  import opened OdbStatements
  import opened OdbProof

  // A connection before its first statement: nothing bound, versions at zero, any buffers.
  ghost predicate Initial(s: Statements) {
    && MemOk(s.mem) && s.version == 0 && s.idVersion == 0
    && s.insert.version == 0 && s.update.version == 0 && s.select.version == 0 && s.idBinding.version == 0
    && s.insertImageVersion == 0 && s.updateImageVersion == 0 && s.selectImageVersion == 0
    && s.idImageVersion == 0 && s.updateIdImageVersion == 0
  }

  lemma PersistMeans(s: Statements, tab: Table, u: User, fault: bool)
    requires Inv(s)
    ensures var (s', tab', out) := DoPersist(s, tab, u, fault);
      Inv(s') && (tab', out) == Meaning(tab, Persist(u, fault))
  {
    InitImageKeeps(s, u);
    InsertCoherent(s, u);
    hide AtInsert, InitImage, Holds, Coherent;
    SentRowIs(AtInsert(s, u).mem, RowOf(u));
  }

  lemma UpdateMeans(s: Statements, tab: Table, u: User, fault: bool)
    requires Inv(s)
    ensures var (s', tab', out) := DoUpdate(s, tab, u, fault);
      Inv(s') && (tab', out) == Meaning(tab, UpdateUser(u, fault))
  {
    InitImageKeeps(s.(idValue := u.id), u);
    UpdateCoherent(s, u);
    hide AtUpdate, InitImage, Holds, Coherent;
    SentRowIs(AtUpdate(s, u).mem, RowOf(u));
  }

  // The second fetch of a find is reached and fails.
  predicate RefetchFails(s: Statements, tab: Table, op: Op)
    requires |s.mem.cols| == 3
  {
    op.Find? && !op.fault && op.refetchFault && op.id in tab.rows && TooSmall(s.mem, tab.rows[op.id])
  }

  lemma FindMeans(s: Statements, tab: Table, id: int, fault: bool, refetchFault: bool)
    requires Inv(s)
    ensures var (s', tab', out) := DoFind(s, tab, id, fault, refetchFault);
      var op := Find(id, fault, refetchFault);
      Inv(s') && tab' == tab && out == if RefetchFails(s, tab, op) then Failed else Meaning(tab, op).1
  {
    SelectCoherent(s, id);
    hide AtSelect, Fetched, BeforeRefetch, Load, FreshBind, Coherent, TooSmall;
    if id in tab.rows {
      FindReads(AtSelect(s, id), tab.rows[id]);
      RefetchIsReady(AtSelect(s, id), tab.rows[id]);
    }
  }

  lemma EraseMeans(s: Statements, tab: Table, id: int, fault: bool)
    requires Inv(s)
    ensures var (s', tab', out) := DoErase(s, tab, id, fault);
      Inv(s') && (tab', out) == Meaning(tab, Erase(id, fault))
  {
    EraseCoherent(s, id);
    hide AtErase, Coherent;
  }

  // One operation keeps the invariant and does to the table, and returns, what it means, except
  // that a find whose second fetch fails returns just that.
  lemma ApplyMeans(s: Statements, tab: Table, op: Op)
    requires Inv(s)
    ensures var (s', tab', out) := Apply(s, tab, op);
      && Inv(s') && tab' == Meaning(tab, op).0
      && out == if RefetchFails(s, tab, op) then Failed else Meaning(tab, op).1
  {
    hide Inv, DoPersist, DoUpdate, DoErase, DoFind, TooSmall;
    match op {
      case Persist(u, fault) => PersistMeans(s, tab, u, fault);
      case UpdateUser(u, fault) => UpdateMeans(s, tab, u, fault);
      case Erase(id, fault) => EraseMeans(s, tab, id, fault);
      case Find(id, fault, refetchFault) => FindMeans(s, tab, id, fault, refetchFault);
    }
  }

  function Run(s: Statements, tab: Table, ops: seq<Op>): (r: (Statements, Table, seq<Outcome>))
    requires |s.mem.cols| == 3
    decreases ops
  {
    if ops == [] then (s, tab, []) else
      var (s', tab', out) := Apply(s, tab, ops[0]);
      if |s'.mem.cols| != 3 then (s', tab', [out]) else
        var (s'', tab'', outs) := Run(s', tab', ops[1..]);
        (s'', tab'', [out] + outs)
  }

  function Means(tab: Table, ops: seq<Op>): (Table, seq<Outcome>)
    decreases ops
  {
    if ops == [] then (tab, []) else
      var (tab', out) := Meaning(tab, ops[0]);
      var (tab'', outs) := Means(tab', ops[1..]);
      (tab'', [out] + outs)
  }

  // The outcome is the one meant, or the find's second fetch was made to fail.
  predicate AsMeant(op: Op, out: Outcome, meant: Outcome) {
    out == meant || (op.Find? && op.refetchFault && out == Failed)
  }

  // Any sequence of operations on one connection does to the table, and returns, exactly what
  // the operations mean: caching of bindings and growth of buffers never show, whatever statements
  // and fetches fail on the way.
  lemma {:induction false} ConnectionRefinesTable(s: Statements, tab: Table, ops: seq<Op>)
    requires Inv(s)
    ensures Inv(Run(s, tab, ops).0)
    ensures Run(s, tab, ops).1 == Means(tab, ops).0
    ensures |Run(s, tab, ops).2| == |Means(tab, ops).1| == |ops|
    ensures forall i :: 0 <= i < |ops| ==> AsMeant(ops[i], Run(s, tab, ops).2[i], Means(tab, ops).1[i])
    ensures (forall i :: 0 <= i < |ops| ==> !(ops[i].Find? && ops[i].refetchFault)) ==>
      Run(s, tab, ops).2 == Means(tab, ops).1
    decreases ops
  {
    hide Apply, Meaning, TooSmall;
    if ops != [] {
      ApplyMeans(s, tab, ops[0]);
      var (s', tab', _) := Apply(s, tab, ops[0]);
      ConnectionRefinesTable(s', tab', ops[1..]);
    }
  }

  // What is bound at each kind of execution, and at the end of the fetching.
  ghost predicate ExecutesCoherently(s: Statements, u: User, id: int, row: Row)
    requires |s.mem.cols| == 3
  {
    && (var a := AtInsert(s, u);
        |a.mem.cols| == 3 && a.insert.binds == FreshBind(a.mem.cols, Insert) && a.idBinding.binds == [IdBind])
    && (var a := AtUpdate(s, u);
        |a.mem.cols| == 3 && a.update.binds == FreshBind(a.mem.cols, Update) && a.idBinding.binds == [IdBind])
    && AtErase(s, id).idBinding.binds == [IdBind]
    && (var a := AtSelect(s, id);
        && |a.mem.cols| == 3 && a.select.binds == FreshBind(a.mem.cols, Select) && a.idBinding.binds == [IdBind]
        && Fetched(a, row).select.binds == FreshBind(Fetched(a, row).mem.cols, Select)
        && (BeforeRefetch(a, row).Some? ==>
              BeforeRefetch(a, row).value.select.binds == FreshBind(BeforeRefetch(a, row).value.mem.cols, Select)))
  }

  // After any sequence of operations, whatever statement executes next finds its binding equal
  // to a fresh bind of the current buffers; so does a refetch.
  lemma BindingCoherence(s: Statements, tab: Table, ops: seq<Op>, u: User, id: int, row: Row)
    requires Initial(s)
    ensures var r := Run(s, tab, ops).0; |r.mem.cols| == 3 && ExecutesCoherently(r, u, id, row)
  {
    ConnectionRefinesTable(s, tab, ops);
    var r := Run(s, tab, ops).0;
    hide Run, Initial, AtInsert, AtUpdate, AtErase, AtSelect, Coherent;
    InsertCoherent(r, u);
    UpdateCoherent(r, u);
    EraseCoherent(r, id);
    SelectCoherent(r, id);
    hide Fetched, BeforeRefetch, FreshBind;
    FindReads(AtSelect(r, id), row);
    RefetchIsReady(AtSelect(r, id), row);
  }

  // The image buffers are the same in both states.
  predicate SameBuffers(a: Mem, b: Mem)
    requires |a.cols| == 3 && |b.cols| == 3
  {
    && a.cols[0].value == b.cols[0].value
    && a.cols[1].value == b.cols[1].value
    && a.cols[2].value == b.cols[2].value
  }

  // Growth moved the image version, and a binding whose contents changed has a new version;
  // the update statement's parameters are its own slots and the id slot.
  ghost predicate ChangesTold(a: Statements, b: Statements)
    requires |a.mem.cols| == 3 && |b.mem.cols| == 3
  {
    && b.version >= a.version && (b.version > a.version || SameBuffers(a.mem, b.mem))
    && (b.insert.version > a.insert.version || b.insert == a.insert)
    && (b.select.version > a.select.version || b.select == a.select)
    && (b.idBinding.version > a.idBinding.version || b.idBinding == a.idBinding)
    && (b.update.version > a.update.version || (a.update.version == 0 && b.update == a.update)
        || b.update.binds + b.idBinding.binds == a.update.binds + a.idBinding.binds)
  }

  lemma PersistTells(s: Statements, u: User)
    requires Inv(s)
    ensures |AtInsert(s, u).mem.cols| == 3 && ChangesTold(s, AtInsert(s, u))
  {
    SetImageHolds(s.mem, u);
    hide SetImage, Holds, Coherent, FreshBind;
  }

  lemma UpdateTells(s: Statements, u: User)
    requires Inv(s)
    ensures |AtUpdate(s, u).mem.cols| == 3 && ChangesTold(s, AtUpdate(s, u))
  {
    SetImageHolds(s.mem, u);
    hide SetImage, Holds, Coherent, FreshBind;
  }

  lemma SelectTells(s: Statements, id: int)
    requires Inv(s)
    ensures |AtSelect(s, id).mem.cols| == 3 && ChangesTold(s, AtSelect(s, id))
  {
    hide Coherent, FreshBind;
  }

  lemma RefetchTells(s: Statements, row: Row)
    requires ReadyToSelect(s) && BeforeRefetch(s, row).Some?
    ensures var b := BeforeRefetch(s, row).value;
      && b.version > s.version && b.select.version > s.select.version
      && b.insert == s.insert && b.update == s.update && b.idBinding == s.idBinding
  {
    RefetchIsReady(s, row);
    hide Truncated, Grow, MemOk, Coherent, FreshBind;
  }

  lemma FetchTells(s: Statements, row: Row)
    requires ReadyToSelect(s)
    ensures var f := Fetched(s, row);
      && (f.version > s.version || SameBuffers(s.mem, f.mem))
      && (f.select.version > s.select.version || f.select == s.select)
      && f.version >= s.version && f.select.version >= s.select.version
      && f.insert == s.insert && f.update == s.update && f.idBinding == s.idBinding
  {
    FetchRowKeeps(s, row);
    FlagsExact(s.mem, row);
    var f := FetchRow(s, row);
    assert FetchedColumn(s.mem, f.mem, 0, row[0]) && FetchedColumn(s.mem, f.mem, 1, row[1])
      && FetchedColumn(s.mem, f.mem, 2, row[2]);
    hide Truncated, FetchRow, Grow, MemOk, Coherent, Holds, FreshBind, FetchedColumn;
  }

  // Whatever one operation does, nobody who compares versions can miss it.
  lemma VersionsTell(s: Statements, tab: Table, op: Op)
    requires Inv(s)
    ensures var s' := Apply(s, tab, op).0; |s'.mem.cols| == 3 && ChangesTold(s, s')
  {
    hide Coherent, FreshBind, AtInsert, AtUpdate, AtSelect;
    match op {
      case Persist(u, _) => PersistTells(s, u);
      case UpdateUser(u, _) => UpdateTells(s, u);
      case Erase(_, _) =>
      case Find(id, _, _) =>
        SelectTells(s, id);
        SelectCoherent(s, id);
        hide Fetched, BeforeRefetch, Load;
        if id in tab.rows {
          var a, row := AtSelect(s, id), tab.rows[id];
          FetchTells(a, row);
          RefetchIsReady(a, row);
          if BeforeRefetch(a, row).Some? { RefetchTells(a, row); }
        }
    }
  }

  // No statement of the operation that goes through changes the row.
  predicate Spares(op: Op, id: int) {
    !(op.Erase? && op.id == id && !op.fault) && !(op.UpdateUser? && op.user.id == id && !op.fault)
  }

  // persist, then any operations that spare the new row, then find of the assigned id: the same
  // three strings.
  lemma PersistThenFind(s: Statements, tab: Table, u: User, between: seq<Op>)
    requires Inv(s)
    requires forall op :: op in between ==> Spares(op, tab.next)
    ensures var ops := [Persist(u, false)] + between + [Find(tab.next, false, false)];
      var outs := Run(s, tab, ops).2;
      && |outs| == |between| + 2 && outs[0] == Id(tab.next)
      && outs[|between| + 1] == Found(User(tab.next, u.username, u.passwordHash, u.salt))
  {
    var ops := between + [Find(tab.next, false, false)];
    var all := [Persist(u, false)] + between + [Find(tab.next, false, false)];
    assert all[0] == Persist(u, false) && all[1..] == ops;
    ConnectionRefinesTable(s, tab, all);
    SparedRowIsFound(Meaning(tab, Persist(u, false)).0, tab.next, RowOf(u), between);
    var n := |between| + 1;
    assert AsMeant(all[0], Run(s, tab, all).2[0], Means(tab, all).1[0]);
    assert all[n] == Find(tab.next, false, false) && AsMeant(all[n], Run(s, tab, all).2[n], Means(tab, all).1[n]);
  }

  lemma {:induction false} SparedRowIsFound(tab: Table, id: int, row: Row, ops: seq<Op>)
    requires id in tab.rows && tab.rows[id] == row && id < tab.next
    requires forall op :: op in ops ==> Spares(op, id)
    ensures var outs := Means(tab, ops + [Find(id, false, false)]).1;
      |outs| == |ops| + 1 && outs[|ops|] == Found(User(id, row[0], row[1], row[2]))
    decreases ops
  {
    var all := ops + [Find(id, false, false)];
    if ops != [] {
      assert all[0] == ops[0] && all[1..] == ops[1..] + [Find(id, false, false)];
      assert Spares(ops[0], id);
      SparedRowIsFound(Meaning(tab, ops[0]).0, id, row, ops[1..]);
    } else {
      assert all[0] == Find(id, false, false) && all[1..] == [];
    }
  }
}
