// createUser's lookup and insert are separate transactions, so concurrent calls interleave
// between them (app/Repositories/UserRepository.h, app/Entities/odb/User.sql).
module CreateRace {
  import Entities
  import UserStore

  type Caller = nat

  // A committed row with what led to it. Times count steps of the run.
  datatype Row = Row(username: string, lookupAt: nat, lookupFailed: bool, insertedAt: nat)

  // Pending: the lookup found no such user, or ended in an error; the insert is to come.
  datatype Call = Idle | Pending(username: string, lookupAt: nat, lookupFailed: bool)

  datatype State = State(rows: seq<Row>, calls: map<Caller, Call>, now: nat)

  datatype Step =
    | Lookup(c: Caller, username: string, fault: bool)
    | Insert(c: Caller, fault: bool)

  predicate Known(rows: seq<Row>, username: string) {
    exists i :: 0 <= i < |rows| && rows[i].username == username
  }

  predicate Initial(st: State) {
    st.rows == [] && st.now == 0 && forall c :: c in st.calls ==> st.calls[c].Idle?
  }

  predicate Enabled(st: State, step: Step) {
    step.c in st.calls && (if step.Lookup? then st.calls[step.c].Idle? else st.calls[step.c].Pending?)
  }

  function Do(st: State, step: Step): State
    requires Enabled(st, step)
  {
    match step
    case Lookup(c, username, fault) =>
      // An error is a failure result, and a failure result means "go on and insert".
      if !fault && Known(st.rows, username) then st.(now := st.now + 1)
      else st.(calls := st.calls[c := Pending(username, st.now, fault)], now := st.now + 1)
    case Insert(c, fault) =>
      var p := st.calls[c];
      var row := Row(p.username, p.lookupAt, p.lookupFailed, st.now);
      State(if fault then st.rows else st.rows + [row], st.calls[c := Idle], st.now + 1)
  }

  ghost predicate IsRun(run: seq<State>, steps: seq<Step>) {
    && |run| == |steps| + 1
    && Initial(run[0])
    && forall i {:trigger steps[i]} :: 0 <= i < |steps| ==>
         Enabled(run[i], steps[i]) && run[i + 1] == Do(run[i], steps[i])
  }

  // The lookup could not have seen the earlier row.
  predicate Overlaps(earlier: Row, lookupAt: nat, lookupFailed: bool) {
    lookupFailed || lookupAt < earlier.insertedAt
  }

  ghost predicate RowsOk(rows: seq<Row>, now: nat) {
    && (forall i :: 0 <= i < |rows| ==> rows[i].lookupAt < rows[i].insertedAt < now)
    && (forall i, j :: 0 <= i < j < |rows| ==> rows[i].insertedAt < rows[j].insertedAt)
    && (forall i, j :: 0 <= i < j < |rows| && rows[i].username == rows[j].username ==>
          Overlaps(rows[i], rows[j].lookupAt, rows[j].lookupFailed))
  }

  // The rows of the name came after the lookup, or the lookup failed.
  ghost predicate CallOk(rows: seq<Row>, now: nat, p: Call)
    requires p.Pending?
  {
    && p.lookupAt < now
    && forall i :: 0 <= i < |rows| && rows[i].username == p.username ==>
         Overlaps(rows[i], p.lookupAt, p.lookupFailed)
  }

  ghost predicate Inv(st: State) {
    && RowsOk(st.rows, st.now)
    && forall c :: c in st.calls && st.calls[c].Pending? ==> CallOk(st.rows, st.now, st.calls[c])
  }

  lemma InsertKeepsRows(rows: seq<Row>, now: nat, p: Call)
    requires p.Pending? && RowsOk(rows, now) && CallOk(rows, now, p)
    ensures RowsOk(rows + [Row(p.username, p.lookupAt, p.lookupFailed, now)], now + 1)
  {
  }

  lemma InsertKeepsCall(rows: seq<Row>, now: nat, p: Call, row: Row)
    requires p.Pending? && CallOk(rows, now, p) && row.insertedAt == now
    ensures CallOk(rows + [row], now + 1, p)
  {
  }

  lemma TimePasses(rows: seq<Row>, now: nat)
    requires RowsOk(rows, now)
    ensures RowsOk(rows, now + 1)
    ensures forall p: Call :: p.Pending? && CallOk(rows, now, p) ==> CallOk(rows, now + 1, p)
  {
  }

  lemma StepKeepsInv(st: State, step: Step)
    requires Inv(st) && Enabled(st, step)
    ensures Inv(Do(st, step))
  {
    var p := st.calls[step.c];
    TimePasses(st.rows, st.now);
    if step.Insert? && !step.fault {
      InsertKeepsRows(st.rows, st.now, p);
      hide RowsOk, CallOk, Known;
      forall c | c in st.calls && c != step.c && st.calls[c].Pending?
        ensures CallOk(Do(st, step).rows, st.now + 1, st.calls[c])
      {
        InsertKeepsCall(st.rows, st.now, st.calls[c], Row(p.username, p.lookupAt, p.lookupFailed, st.now));
      }
    } else if step.Lookup? {
      LookupIsOk(st.rows, st.now, step.username, step.fault);
      hide RowsOk, CallOk, Known;
    }
  }

  lemma LookupIsOk(rows: seq<Row>, now: nat, username: string, fault: bool)
    ensures fault || !Known(rows, username) ==> CallOk(rows, now + 1, Pending(username, now, fault))
  {
  }

  lemma {:induction false} RunKeepsInv(run: seq<State>, steps: seq<Step>, i: nat)
    requires IsRun(run, steps) && i < |run|
    ensures Inv(run[i])
  {
    if i > 0 {
      RunKeepsInv(run, steps, i - 1);
      assert Enabled(run[i - 1], steps[i - 1]);
      StepKeepsInv(run[i - 1], steps[i - 1]);
    }
  }

  // In every run two rows share a username only if the later one's lookup came before the
  // earlier one's insert, or failed.
  lemma DuplicatesNeedOverlap(run: seq<State>, steps: seq<Step>, k: nat, i: nat, j: nat)
    requires IsRun(run, steps) && k < |run|
    requires i < j < |run[k].rows| && run[k].rows[i].username == run[k].rows[j].username
    ensures run[k].rows[j].lookupFailed || run[k].rows[j].lookupAt < run[k].rows[i].insertedAt
  {
    RunKeepsInv(run, steps, k);
  }

  // ---- rows and pending calls told from the steps ----

  // Row i was inserted by that step, and its lookup was that earlier step of the same caller, the
  // caller's last before it.
  ghost predicate RowTold(run: seq<State>, steps: seq<Step>, i: nat, r: Row)
    requires |run| == |steps| + 1
  {
    && r.lookupAt < r.insertedAt < |steps|
    && steps[r.insertedAt].Insert? && !steps[r.insertedAt].fault
    && steps[r.lookupAt] == Lookup(steps[r.insertedAt].c, r.username, r.lookupFailed)
    && (forall x {:trigger steps[x]} :: r.lookupAt < x < r.insertedAt ==> steps[x].c != steps[r.insertedAt].c)
    && |run[r.insertedAt].rows| == i && |run[r.insertedAt + 1].rows| == i + 1
  }

  ghost predicate CallTold(steps: seq<Step>, k: nat, c: Caller, p: Call)
    requires k <= |steps| && p.Pending?
  {
    && p.lookupAt < k && steps[p.lookupAt] == Lookup(c, p.username, p.lookupFailed)
    && forall x {:trigger steps[x]} :: p.lookupAt < x < k ==> steps[x].c != c
  }

  ghost predicate RowsTold(run: seq<State>, steps: seq<Step>, k: nat, rows: seq<Row>)
    requires |run| == |steps| + 1
  {
    forall i :: 0 <= i < |rows| ==> rows[i].insertedAt < k && RowTold(run, steps, i, rows[i])
  }

  ghost predicate CallsTold(steps: seq<Step>, k: nat, calls: map<Caller, Call>)
    requires k <= |steps|
  {
    forall c :: c in calls && calls[c].Pending? ==> CallTold(steps, k, c, calls[c])
  }

  // Inserts that go through among the first k steps.
  function Inserts(steps: seq<Step>, k: nat): nat
    requires k <= |steps|
  {
    if k == 0 then 0 else Inserts(steps, k - 1) + if steps[k - 1].Insert? && !steps[k - 1].fault then 1 else 0
  }

  // In every run the clock counts the steps; there is one row for each insert that went through,
  // in their order; each row and each pending call has the name, the outcome and the time of the
  // last lookup of its caller.
  lemma {:induction false} StepsTell(run: seq<State>, steps: seq<Step>, k: nat)
    requires IsRun(run, steps) && k < |run|
    ensures run[k].now == k && |run[k].rows| == Inserts(steps, k)
    ensures RowsTold(run, steps, k, run[k].rows) && CallsTold(steps, k, run[k].calls)
    decreases k
  {
    if k > 0 {
      StepsTell(run, steps, k - 1);
      var st, step := run[k - 1], steps[k - 1];
      assert Enabled(st, step) && run[k] == Do(st, step);
      hide IsRun;
      RowsNext(run, steps, k);
      CallsNext(run, steps, k);
    }
  }

  ghost predicate IsStep(run: seq<State>, steps: seq<Step>, k: nat) {
    && |run| == |steps| + 1 && 0 < k < |run|
    && Enabled(run[k - 1], steps[k - 1]) && run[k] == Do(run[k - 1], steps[k - 1]) && run[k - 1].now == k - 1
  }

  lemma RowsNext(run: seq<State>, steps: seq<Step>, k: nat)
    requires IsStep(run, steps, k)
    requires RowsTold(run, steps, k - 1, run[k - 1].rows) && CallsTold(steps, k - 1, run[k - 1].calls)
    ensures RowsTold(run, steps, k, run[k].rows)
  {
    hide RowTold, CallTold, Known;
    var n := |run[k - 1].rows|;
    if |run[k].rows| > n { NewRowTold(run, steps, k); }
  }

  lemma NewRowTold(run: seq<State>, steps: seq<Step>, k: nat)
    requires IsStep(run, steps, k) && steps[k - 1].Insert? && !steps[k - 1].fault
    requires CallTold(steps, k - 1, steps[k - 1].c, run[k - 1].calls[steps[k - 1].c])
    ensures var n := |run[k - 1].rows|; |run[k].rows| == n + 1 && RowTold(run, steps, n, run[k].rows[n])
  {
  }

  lemma CallsNext(run: seq<State>, steps: seq<Step>, k: nat)
    requires IsStep(run, steps, k) && CallsTold(steps, k - 1, run[k - 1].calls)
    ensures CallsTold(steps, k, run[k].calls)
  {
    hide Known;
  }

  // In every run, for any two rows of one username: the later one's lookup, the last step of its
  // caller before its insert, came before the earlier one's insert or ended in an error.
  lemma DuplicatesNeedOverlappingSteps(run: seq<State>, steps: seq<Step>, k: nat, i: nat, j: nat)
    returns (insert: nat, lookup: nat, insert': nat)
    requires IsRun(run, steps) && k < |run|
    requires i < j < |run[k].rows| && run[k].rows[i].username == run[k].rows[j].username
    ensures insert < insert' < k && lookup < insert'
    ensures |run[insert].rows| == i && |run[insert + 1].rows| == i + 1
    ensures |run[insert'].rows| == j && |run[insert' + 1].rows| == j + 1
    ensures steps[insert].Insert? && steps[insert'].Insert?
    ensures steps[lookup].Lookup? && steps[lookup].c == steps[insert'].c
    ensures steps[lookup].username == run[k].rows[j].username
    ensures forall x :: lookup < x < insert' ==> steps[x].c != steps[insert'].c
    ensures lookup < insert || steps[lookup].fault
  {
    hide Inv, RowTold, Do, Enabled;
    StepsTell(run, steps, k);
    RunKeepsInv(run, steps, k);
    hide IsRun;
    LaterRow(run[k], i, j);
    insert, lookup, insert' := run[k].rows[i].insertedAt, run[k].rows[j].lookupAt, run[k].rows[j].insertedAt;
    RowSays(run, steps, i, run[k].rows[i]);
    RowSays(run, steps, j, run[k].rows[j]);
  }

  lemma LaterRow(st: State, i: nat, j: nat)
    requires Inv(st) && i < j < |st.rows| && st.rows[i].username == st.rows[j].username
    ensures st.rows[i].insertedAt < st.rows[j].insertedAt
    ensures st.rows[j].lookupAt < st.rows[i].insertedAt || st.rows[j].lookupFailed
  {
  }

  lemma RowSays(run: seq<State>, steps: seq<Step>, i: nat, r: Row)
    requires |run| == |steps| + 1 && RowTold(run, steps, i, r)
    ensures r.lookupAt < r.insertedAt < |steps|
    ensures steps[r.insertedAt].Insert? && steps[r.lookupAt].Lookup?
    ensures steps[r.lookupAt].c == steps[r.insertedAt].c && steps[r.lookupAt].username == r.username
    ensures steps[r.lookupAt].fault == r.lookupFailed
    ensures forall x :: r.lookupAt < x < r.insertedAt ==> steps[x].c != steps[r.insertedAt].c
    ensures |run[r.insertedAt].rows| == i && |run[r.insertedAt + 1].rows| == i + 1
  {
  }

  // Row j has the username of an earlier one.
  predicate Duplicate(rows: seq<Row>, j: nat)
    requires j < |rows|
  {
    exists i :: 0 <= i < j && rows[i].username == rows[j].username
  }

  // The row an insert adds is a duplicate exactly when a row of that username is there that its
  // lookup came too early for, or that it failed to look for.
  lemma InsertDuplicatesIff(run: seq<State>, steps: seq<Step>, k: nat)
    requires IsRun(run, steps) && k < |steps| && steps[k].Insert? && !steps[k].fault
    ensures Enabled(run[k], steps[k])
    ensures var p, n, rows := run[k].calls[steps[k].c], |run[k].rows|, run[k + 1].rows;
      && |rows| == n + 1 && rows[..n] == run[k].rows && rows[n].username == p.username
      && (Duplicate(rows, n) <==>
            exists i :: 0 <= i < n && rows[i].username == p.username && Overlaps(rows[i], p.lookupAt, p.lookupFailed))
  {
    assert Enabled(run[k], steps[k]) && run[k + 1] == Do(run[k], steps[k]);
    RunKeepsInv(run, steps, k);
  }

  function Names(rows: seq<Row>): seq<string> { seq(|rows|, i requires 0 <= i < |rows| => rows[i].username) }

  function UserNames(rows: seq<Entities.User>): seq<string> {
    seq(|rows|, i requires 0 <= i < |rows| => rows[i].username)
  }

  lemma {:induction false} KnownIsFound(rows: seq<Row>, users: seq<Entities.User>, username: string)
    requires Names(rows) == UserNames(users)
    ensures Known(rows, username) <==> UserStore.FirstNamed(users, username).Some?
  {
    UserStore.FirstNamedFinds(users, username);
    assert |rows| == |Names(rows)| == |users|;
    forall i | 0 <= i < |users| ensures rows[i].username == users[i].username {
      assert Names(rows)[i] == UserNames(users)[i];
    }
  }

  // A lookup followed at once by its insert does to the usernames what createUser as a whole
  // does, and refuses or accepts as that does.
  lemma UninterruptedIsCreateUser(st: State, c: Caller, db: UserStore.Db, user: Entities.User, lookupFault: bool,
                                  fault: UserStore.Fault)
    requires c in st.calls && st.calls[c].Idle? && Names(st.rows) == UserNames(db.rows)
    ensures var (db', created) := UserStore.CreateUser(db, user, lookupFault, fault);
      var looked := Do(st, Lookup(c, user.username, lookupFault));
      if looked.calls[c].Idle?
      then created.FailureResult? && db' == db && looked.rows == st.rows
      else
        var inserted := Do(looked, Insert(c, !fault.NoFault?));
        Names(inserted.rows) == UserNames(db'.rows) && (created.SuccessResult? <==> inserted.rows != st.rows)
  {
    KnownIsFound(st.rows, db.rows, user.username);
    assert |st.rows| == |Names(st.rows)| == |db.rows|;
    var looked := Do(st, Lookup(c, user.username, lookupFault));
    if looked.calls[c].Pending? && fault.NoFault? {
      var inserted := Do(looked, Insert(c, false));
      assert |inserted.rows| == |st.rows| + 1;
      assert Names(inserted.rows) == Names(st.rows) + [user.username];
      assert UserNames(db.rows + [user.(id := db.nextId)]) == UserNames(db.rows) + [user.username];
    }
  }

  // Both ways to a duplicate are open: two calls whose transactions interleave, and one call
  // whose lookup fails.
  lemma DuplicatesHappen(name: string) returns (run: seq<State>, steps: seq<Step>, run': seq<State>, steps': seq<Step>)
    ensures IsRun(run, steps) && |run| == 5 && |run[4].rows| == 2
    ensures run[4].rows[0].username == run[4].rows[1].username && !run[4].rows[1].lookupFailed
    ensures IsRun(run', steps') && |run'| == 5 && |run'[4].rows| == 2
    ensures run'[4].rows[0].username == run'[4].rows[1].username
    ensures run'[4].rows[1].lookupAt > run'[4].rows[0].insertedAt
  {
    var s0 := State([], map[1 := Idle, 2 := Idle], 0);
    steps := [Lookup(1, name, false), Lookup(2, name, false), Insert(1, false), Insert(2, false)];
    var s1 := Do(s0, steps[0]);
    var s2 := Do(s1, steps[1]);
    var s3 := Do(s2, steps[2]);
    var s4 := Do(s3, steps[3]);
    run := [s0, s1, s2, s3, s4];
    steps' := [Lookup(1, name, false), Insert(1, false), Lookup(2, name, true), Insert(2, false)];
    var t1 := Do(s0, steps'[0]);
    var t2 := Do(t1, steps'[1]);
    var t3 := Do(t2, steps'[2]);
    var t4 := Do(t3, steps'[3]);
    run' := [s0, t1, t2, t3, t4];
  }
}
