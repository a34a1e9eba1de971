// The log service told from its steps: what was called and set, what a call does when nobody
// disturbs it, and what the worker and the destructor do when left alone.
module LogTrace {
  import opened LogModel
  import opened LogResults

  // ---- calls and levels are those of the steps ----

  // The level in force after the steps.
  function LevelAfter(past: seq<Step>, initial: int): int {
    if past == [] then initial else
      var n := |past| - 1;
      if past[n].SetLevel? then past[n].level else LevelAfter(past[..n], initial)
  }

  // The entries producer p logged at or above the level then in force, in order.
  function Logged(past: seq<Step>, initial: int, p: Pid): seq<Entry> {
    if past == [] then [] else
      var n := |past| - 1;
      Logged(past[..n], initial, p)
      + if past[n].Call? && past[n].p == p && past[n].level >= LevelAfter(past[..n], initial)
        then [Entry(p, past[n].text)] else []
  }

  lemma LoggedNext(past: seq<Step>, step: Step, initial: int, p: Pid)
    ensures LevelAfter(past + [step], initial) == if step.SetLevel? then step.level else LevelAfter(past, initial)
    ensures Logged(past + [step], initial, p) == Logged(past, initial, p)
      + if step.Call? && step.p == p && step.level >= LevelAfter(past, initial) then [Entry(p, step.text)] else []
  {
    assert (past + [step])[..|past|] == past;
  }

  lemma PassedNext(calls: seq<LogCall>, c: LogCall)
    ensures Passed(calls + [c]) == Passed(calls) + if c.level >= c.threshold then [c.entry] else []
  {
    assert (calls + [c])[..|calls|] == calls;
  }

  lemma StepLogs(st: State, step: Step, p: Pid)
    requires Enabled(st, step) && p in st.calls
    ensures p in Do(st, step).calls
    ensures Do(st, step).level == if step.SetLevel? then step.level else st.level
    ensures Passed(Do(st, step).calls[p]) == Passed(st.calls[p])
      + if step.Call? && step.p == p && step.level >= st.level then [Entry(p, step.text)] else []
  {
    hide Passed, WorkEnabled, DoWork;
    if step.Call? && step.p == p { PassedNext(st.calls[p], LogCall(Entry(p, step.text), step.level, st.level)); }
    assert Passed(st.calls[p]) + [] == Passed(st.calls[p]);
  }

  lemma {:induction false} StepsAreLogged(run: seq<State>, steps: seq<Step>, i: nat, p: Pid)
    requires IsRun(run, steps) && i < |run| && p in run[0].producers
    ensures p in run[i].calls && run[i].level == LevelAfter(steps[..i], run[0].level)
    ensures Passed(run[i].calls[p]) == Logged(steps[..i], run[0].level, p)
    decreases i
  {
    hide Do, Enabled, Logged, LevelAfter, Passed;
    if i > 0 {
      StepsAreLogged(run, steps, i - 1, p);
      assert Enabled(run[i - 1], steps[i - 1]) && run[i] == Do(run[i - 1], steps[i - 1]);
      assert steps[..i] == steps[..i - 1] + [steps[i - 1]];
      StepLogs(run[i - 1], steps[i - 1], p);
      LoggedNext(steps[..i - 1], steps[i - 1], run[0].level, p);
    } else {
      NothingLogged(run[0].level, p);
    }
  }

  lemma NothingLogged(initial: int, p: Pid)
    ensures Passed([]) == [] == Logged([], initial, p) && LevelAfter([], initial) == initial
  {
  }

  lemma SameProducers(run: seq<State>, steps: seq<Step>, i: nat)
    requires IsRun(run, steps) && i < |run|
    ensures run[i].producers.Keys == run[0].producers.Keys
    decreases i
  {
    if i > 0 {
      SameProducers(run, steps, i - 1);
      assert Enabled(run[i - 1], steps[i - 1]);
    }
  }

  // In every run: what a producer has pushed, and the entry it is about to push, are exactly the
  // calls it made at or above the level then in force, in order. The level is the last one set.
  lemma EveryCallIsLogged(run: seq<State>, steps: seq<Step>, i: nat, p: Pid)
    requires IsRun(run, steps) && i < |run| && p in run[0].producers
    ensures p in run[i].producers && run[i].level == LevelAfter(steps[..i], run[0].level)
    ensures From(run[i].pushed, p) + Pending(run[i].producers[p]) == Logged(steps[..i], run[0].level, p)
  {
    StepsAreLogged(run, steps, i, p);
    SameProducers(run, steps, i);
    LogConservation(run, steps, i);
    hide IsRun;
  }

  // ---- the destructor's progress is that of the steps ----

  function StopAfter(past: seq<Step>): Stop {
    if StopJoin in past then Joined else if StopNotify in past then Notified
    else if StopStore in past then Stored else NotYet
  }

  // What the steps so far say about the destructor and the flags.
  ghost predicate StopTold(st: State, past: seq<Step>) {
    && st.stop == StopAfter(past)
    && (StopJoin in past ==> StopNotify in past) && (StopNotify in past ==> StopStore in past)
    && (st.ch.running <==> StopStore !in past)
    && (st.ch.fileOpen <==> st.hasFile && StopJoin !in past)
    && (st.lost ==> StopNotify in past)
  }

  lemma StopNext(st: State, step: Step, past: seq<Step>)
    requires Enabled(st, step) && StopTold(st, past)
    ensures StopTold(Do(st, step), past + [step])
    ensures Do(st, step).lost <==> st.lost || (step == StopNotify && st.ch.worker.Decided?)
  {
    assert forall e :: e in past + [step] <==> e in past || e == step;
    if step.Work? { WorkConservesFlags(st.ch); }
    hide WorkEnabled, DoWork;
  }

  lemma WorkConservesFlags(c: Channel)
    requires WorkEnabled(c)
    ensures DoWork(c).running == c.running && DoWork(c).fileOpen == c.fileOpen
  {
  }

  ghost predicate LostAt(run: seq<State>, steps: seq<Step>, i: nat)
    requires i <= |steps| < |run|
  {
    exists k {:trigger steps[k]} :: 0 <= k < i && steps[k] == StopNotify && run[k].ch.worker.Decided?
  }

  lemma LostNext(run: seq<State>, steps: seq<Step>, i: nat)
    requires 0 < i <= |steps| < |run|
    ensures LostAt(run, steps, i) <==>
      LostAt(run, steps, i - 1) || (steps[i - 1] == StopNotify && run[i - 1].ch.worker.Decided?)
  {
    if LostAt(run, steps, i - 1) {
      var k :| 0 <= k < i - 1 && steps[k] == StopNotify && run[k].ch.worker.Decided?;
      assert steps[k] == StopNotify && 0 <= k < i;
    }
  }

  // In every run the flag is cleared by the store and by nothing else, the file is closed by the
  // join, and the stop notification is lost exactly when it comes while the worker is between its
  // predicate test and its block.
  lemma {:induction false} StopsTell(run: seq<State>, steps: seq<Step>, i: nat)
    requires IsRun(run, steps) && i < |run|
    ensures StopTold(run[i], steps[..i])
    ensures run[i].lost <==> LostAt(run, steps, i)
    decreases i
  {
    hide Do, Enabled, LostAt, StopTold;
    if i > 0 {
      StopsTell(run, steps, i - 1);
      assert Enabled(run[i - 1], steps[i - 1]) && run[i] == Do(run[i - 1], steps[i - 1]);
      assert steps[..i] == steps[..i - 1] + [steps[i - 1]];
      StopNext(run[i - 1], steps[i - 1], steps[..i - 1]);
      LostNext(run, steps, i);
    } else {
      StopBegins(run, steps);
    }
  }

  lemma StopBegins(run: seq<State>, steps: seq<Step>)
    requires |steps| < |run| && Initial(run[0])
    ensures StopTold(run[0], []) && !run[0].lost && !LostAt(run, steps, 0)
  {
  }

  // ---- one call, undisturbed ----

  // A call below the level does nothing. Any other is through after three more steps: its entry
  // is the last of the queue, the producer is idle again, and a blocked worker has been woken.
  lemma UndisturbedCall(st: State, p: Pid, text: string, level: int) returns (a: State, b: State, c: State, d: State)
    requires p in st.producers && p in st.calls && st.producers[p].Idle? && st.ch.mutex.Free?
    ensures Enabled(st, Call(p, text, level)) && a == Do(st, Call(p, text, level))
    ensures level < st.level ==> a.ch == st.ch && a.producers == st.producers && a.pushed == st.pushed
    ensures level >= st.level ==>
      && Enabled(a, ProdLock(p)) && b == Do(a, ProdLock(p))
      && Enabled(b, ProdPush(p)) && c == Do(b, ProdPush(p))
      && Enabled(c, ProdNotify(p)) && d == Do(c, ProdNotify(p))
      && d.producers == st.producers && d.pushed == st.pushed + [Entry(p, text)]
      && d.ch == st.ch.(queue := st.ch.queue + [Entry(p, text)],
                        worker := if st.ch.worker.Blocked? then Woken else st.ch.worker)
      && d.level == st.level && d.stop == st.stop
  {
    hide WorkEnabled, DoWork;
    a := Do(st, Call(p, text, level));
    if level >= st.level {
      b := Do(a, ProdLock(p));
      c := Do(b, ProdPush(p));
      d := Do(c, ProdNotify(p));
      assert d.producers == st.producers;
    } else {
      b, c, d := a, a, a;
    }
  }

  // ---- the worker alone, the service running ----

  // Distance to the next block while the stop flag is not set.
  function ToBlock(c: Channel): nat {
    8 * |c.queue| + match c.worker
      case TestRunning => if c.queue == [] then 4 else 8
      case Lock => if c.queue == [] then 3 else 7
      case Woken => if c.queue == [] then 3 else 7
      case Predicate => if c.queue == [] then 2 else 6
      case Drain => 5
      case Relock => 6
      case Writing(_) => 7
      case Decided => 1
      case _ => 0
  }

  ghost predicate Attending(c: Channel) {
    && Sound(c) && c.running && !c.worker.TestQueue? && !c.worker.Done?
    && (Asleep(c.worker) ==> c.queue == [])
  }

  lemma AttendingWorks(c: Channel)
    requires Attending(c) && !c.worker.Blocked?
    ensures WorkEnabled(c) && Attending(DoWork(c)) && ToBlock(DoWork(c)) < ToBlock(c)
  {
  }

  // While the service runs, a worker left alone takes everything that is queued to the file and
  // then blocks.
  lemma {:induction false} CatchesUp(c: Channel) returns (n: nat)
    requires Attending(c)
    ensures n <= ToBlock(c)
    ensures var d := Steps(c, n);
      && d.worker.Blocked? && d.mutex.Free? && d.running && d.queue == [] && d.consumed == Flow(c)
      && (c.fileOpen && c.file == c.consumed ==> d.file == Flow(c))
      && (!c.fileOpen ==> d.file == c.file)
    decreases ToBlock(c)
  {
    if c.worker.Blocked? {
      n := 0;
      assert c.consumed + [] + [] == c.consumed;
    } else {
      AttendingWorks(c);
      WorkConserves(c);
      hide WorkEnabled, DoWork, ToBlock;
      var m := CatchesUp(DoWork(c));
      n := m + 1;
      assert Steps(c, n) == Steps(DoWork(c), m);
    }
  }

  // n worker steps of the whole system.
  function Works(st: State, n: nat): State
    decreases n
  {
    if n == 0 || !Enabled(st, Work) then st else Works(Do(st, Work), n - 1)
  }

  lemma {:induction false} WorksAre(st: State, n: nat)
    ensures Works(st, n) == st.(ch := Steps(st.ch, n))
    decreases n
  {
    hide WorkEnabled, DoWork;
    if n > 0 && Enabled(st, Work) { WorksAre(Do(st, Work), n - 1); }
  }

  lemma ReadyWhenQuiet(st: State)
    requires MutexInv(st) && WakeupInv(st) && StopInv(st) && Quiet(st)
    ensures Sound(st.ch)
    ensures st.ch.running ==> Attending(st.ch)
  {
  }

  // In every run, whenever no call is under way and the service is not being stopped, some number
  // of worker steps brings all that was pushed to the file.
  lemma EverythingGetsWritten(run: seq<State>, steps: seq<Step>, i: nat) returns (n: nat)
    requires IsRun(run, steps) && i < |run| && Quiet(run[i]) && run[i].stop.NotYet?
    ensures var b := Works(run[i], n);
      && b.ch.worker.Blocked? && b.ch.queue == [] && b.ch.consumed == run[i].pushed == b.pushed
      && b.ch.file == if run[i].hasFile then run[i].pushed else []
  {
    RunKeepsInv(run, steps, i);
    ReadyWhenQuiet(run[i]);
    hide IsRun, MutexInv, WakeupInv, ProducersInv;
    n := CatchesUp(run[i].ch);
    WorksAre(run[i], n);
  }

  // In every run, whenever no call is under way, the worker is not between test and block, and the
  // destructor has not begun: its store, its notify, some worker steps and its join follow one on
  // the other, and leave the file closed with everything pushed in it.
  lemma DestructionCompletes(run: seq<State>, steps: seq<Step>, i: nat) returns (n: nat)
    requires IsRun(run, steps) && i < |run| && Quiet(run[i]) && run[i].stop.NotYet? && !run[i].ch.worker.Decided?
    ensures Enabled(run[i], StopStore) && Enabled(Do(run[i], StopStore), StopNotify)
    ensures var c := Works(Do(Do(run[i], StopStore), StopNotify), n);
      && Enabled(c, StopJoin)
      && Do(c, StopJoin).stop.Joined? && !Do(c, StopJoin).ch.fileOpen && !Do(c, StopJoin).ch.running
      && Do(c, StopJoin).ch.queue == []
      && Do(c, StopJoin).ch.file == if run[i].hasFile then run[i].pushed else []
  {
    RunKeepsInv(run, steps, i);
    ReadyWhenQuiet(run[i]);
    hide IsRun, MutexInv, WakeupInv, ProducersInv;
    var b := Do(Do(run[i], StopStore), StopNotify);
    StoppedIsAwake(run[i]);
    n := Finishes(b.ch);
    NoFileNoWrite(b.ch, n);
    WorksAre(b, n);
  }

  lemma StoppedIsAwake(st: State)
    requires Sound(st.ch) && StopInv(st) && st.stop.NotYet? && !st.ch.worker.Decided?
    ensures Enabled(st, StopStore) && Enabled(Do(st, StopStore), StopNotify)
    ensures var b := Do(Do(st, StopStore), StopNotify);
      && Sound(b.ch) && !b.ch.running && !Asleep(b.ch.worker) && !b.ch.worker.Done?
      && Flow(b.ch) == Flow(st.ch) && b.ch.file == st.ch.file && b.ch.consumed == st.ch.consumed
      && b.ch.fileOpen == st.ch.fileOpen && b.hasFile == st.hasFile && b.pushed == st.pushed && b.stop.Notified?
  {
  }

  lemma {:induction false} NoFileNoWrite(c: Channel, n: nat)
    ensures Steps(c, n).fileOpen == c.fileOpen && Steps(c, n).running == c.running
    ensures !c.fileOpen ==> Steps(c, n).file == c.file
    decreases n
  {
    if n > 0 && WorkEnabled(c) {
      WorkConserves(c);
      WorkConservesFlags(c);
      hide WorkEnabled, DoWork;
      NoFileNoWrite(DoWork(c), n - 1);
    }
  }

  // A spurious wakeup of a worker with nothing to do sends it through the test and back to sleep.
  lemma SpuriousIsHarmless(st: State)
    requires st.ch.worker.Blocked? && st.ch.queue == [] && st.ch.running && st.ch.mutex.Free?
    ensures Enabled(st, Spurious) && Do(st, Spurious).ch == st.ch.(worker := Woken)
    ensures Works(Do(st, Spurious), 3) == st
  {
    var a := Do(st, Spurious);
    var b := Do(a, Work);
    var c := Do(b, Work);
    assert Works(a, 3) == Works(b, 2) == Works(c, 1) == Works(Do(c, Work), 0);
  }
}
