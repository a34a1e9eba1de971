// What callers of one connection see of it, told by outcomes alone; and when its bindings and
// buffers change.
module OdbLaws {
  import opened Entities
  import opened OdbModel
  import opened OdbStatements
  import opened OdbProof
  import opened OdbResults

  // The outcomes of operations on a connection.
  function Outcomes(s: Statements, tab: Table, ops: seq<Op>): seq<Outcome>
    requires |s.mem.cols| == 3
  {
    Run(s, tab, ops).2
  }

  lemma OutcomeIs(s: Statements, tab: Table, ops: seq<Op>, k: nat)
    requires Inv(s) && k < |ops| && (ops[k].Find? ==> !ops[k].refetchFault)
    ensures |Outcomes(s, tab, ops)| == |Means(tab, ops).1| == |ops|
    ensures Outcomes(s, tab, ops)[k] == Means(tab, ops).1[k]
  {
    ConnectionRefinesTable(s, tab, ops);
    hide Run, Means;
    assert AsMeant(ops[k], Run(s, tab, ops).2[k], Means(tab, ops).1[k]);
  }

  lemma {:induction false} AbsentStays(tab: Table, id: int, ops: seq<Op>)
    requires id !in tab.rows && id < tab.next
    ensures var outs := Means(tab, ops + [Find(id, false, false)]).1; |outs| == |ops| + 1 && outs[|ops|] == NoRow
    decreases ops
  {
    var all := ops + [Find(id, false, false)];
    if ops != [] {
      assert all[0] == ops[0] && all[1..] == ops[1..] + [Find(id, false, false)];
      AbsentStays(Meaning(tab, ops[0]).0, id, ops[1..]);
    } else {
      assert all[0] == Find(id, false, false) && all[1..] == [];
    }
  }

  lemma FirstMeans(tab: Table, op: Op, ops: seq<Op>)
    ensures Means(tab, [op] + ops).1 == [Meaning(tab, op).1] + Means(Meaning(tab, op).0, ops).1
  {
    hide Meaning;
    assert ([op] + ops)[1..] == ops;
  }

  lemma ThreePartsMean(s: Statements, tab: Table, op: Op, between: seq<Op>, id: int)
    requires Inv(s) && !op.Find?
    ensures var outs := Outcomes(s, tab, [op] + between + [Find(id, false, false)]);
      var rest := Means(Meaning(tab, op).0, between + [Find(id, false, false)]).1;
      && |outs| == |between| + 2 && |rest| == |between| + 1
      && outs[0] == Meaning(tab, op).1 && outs[|between| + 1] == rest[|between|]
  {
    var all := [op] + between + [Find(id, false, false)];
    assert all == [op] + (between + [Find(id, false, false)]);
    OutcomeIs(s, tab, all, 0);
    OutcomeIs(s, tab, all, |between| + 1);
    FirstMeans(tab, op, between + [Find(id, false, false)]);
    hide Outcomes, Means, Meaning;
  }

  // An update of an issued id says whether its row is there; if it is, then after any operations
  // that spare the row a find returns the new strings, and if it is not, no find ever returns it.
  lemma UpdateThenFind(s: Statements, tab: Table, u: User, between: seq<Op>)
    requires Inv(s) && u.id < tab.next && forall op :: op in between ==> Spares(op, u.id)
    ensures var outs := Outcomes(s, tab, [UpdateUser(u, false)] + between + [Find(u.id, false, false)]);
      && |outs| == |between| + 2
      && ((outs[0] == Done && outs[|between| + 1] == Found(u))
          || (outs[0] == NotPersistent && outs[|between| + 1] == NoRow))
      && (outs[0] == Done <==> u.id in tab.rows)
  {
    ThreePartsMean(s, tab, UpdateUser(u, false), between, u.id);
    var tab' := Meaning(tab, UpdateUser(u, false)).0;
    hide Outcomes;
    if u.id in tab.rows { SparedRowIsFound(tab', u.id, RowOf(u), between); } else { AbsentStays(tab', u.id, between); }
  }

  // After an erase of an issued id, whatever follows, no find returns its row.
  lemma EraseThenFind(s: Statements, tab: Table, id: int, between: seq<Op>)
    requires Inv(s) && id < tab.next
    ensures var outs := Outcomes(s, tab, [Erase(id, false)] + between + [Find(id, false, false)]);
      && |outs| == |between| + 2 && outs[|between| + 1] == NoRow
      && outs[0] == if id in tab.rows then Done else NotPersistent
  {
    ThreePartsMean(s, tab, Erase(id, false), between, id);
    hide Outcomes;
    AbsentStays(Meaning(tab, Erase(id, false)).0, id, between);
  }

  // An operation whose statement fails says so and leaves the table alone.
  lemma FaultsFail(s: Statements, tab: Table, op: Op)
    requires Inv(s) && op.fault
    ensures Apply(s, tab, op).1 == tab && Apply(s, tab, op).2 == Failed
  {
    ApplyMeans(s, tab, op);
    hide Apply, Inv;
  }

  // ---- when something is bound anew, and when a buffer grows ----

  // Initialising the image moves its version exactly when one of the strings is longer than its
  // buffer.
  lemma GrowsIffTooLong(s: Statements, u: User)
    requires Inv(s)
    ensures InitImage(s, u).version == s.version + if TooSmall(s.mem, RowOf(u)) then 1 else 0
  {
    var a := SetColumn(s.mem, 0, u.username);
    var b := SetColumn(a, 1, u.passwordHash);
    SetColumnKeeps(s.mem, 0, u.username);
    SetColumnKeeps(a, 1, u.passwordHash);
    SetColumnKeeps(b, 2, u.salt);
    hide SetColumn, Holds, MemOk;
    assert SameColumn(s.mem, a, 1) && SameColumn(s.mem, a, 2) && SameColumn(a, b, 2);
    assert SameColumn(a, b, 0) && SameColumn(b, SetColumn(b, 2, u.salt), 0);
    assert SameColumn(b, SetColumn(b, 2, u.salt), 1);
    SomeTooSmall(s.mem, RowOf(u));
  }

  lemma SomeTooSmall(m: Mem, row: Row)
    requires |m.cols| == 3
    ensures TooSmall(m, row) <==>
      || |row[0]| > m.cols[0].value.capacity || |row[1]| > m.cols[1].value.capacity
      || |row[2]| > m.cols[2].value.capacity
  {
  }

  // A binding is made anew only when it was never made or the image moved on since.
  lemma BoundAnewIffStale(s: Statements, u: User, id: int)
    requires Inv(s)
    ensures AtInsert(s, u).insert == s.insert <==>
      s.insert.version > 0 && InitImage(s, u).version == s.insertImageVersion
    ensures AtSelect(s, id).select == s.select <==> s.select.version > 0 && s.version == s.selectImageVersion
    ensures var i := InitImage(s.(idValue := u.id), u);
      AtUpdate(s, u).update == s.update <==>
        && s.update.version > 0 && i.version == s.updateImageVersion
        && s.idVersion == s.updateIdImageVersion && s.idBinding.version > 0
    ensures AtErase(s, id).idBinding == s.idBinding <==> s.idBinding.version > 0
  {
    hide SetImage, SameCapacities, FreshBind;
    assert InitImage(s, u).insert == s.insert && InitImage(s.(idValue := u.id), u).update == s.update;
  }
}
