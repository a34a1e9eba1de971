// What the log service keeps in every run, and exactly when its shutdown completes.
module LogResults {
  import opened LogModel

  // ---- conservation and order ----

  // Nothing is lost, duplicated or reordered between the pushes and the file, and each
  // producer's entries are the calls it made that passed the level filter, in order.
  lemma LogConservation(run: seq<State>, steps: seq<Step>, i: nat)
    requires IsRun(run, steps) && i < |run|
    ensures var st := run[i];
      && st.pushed == st.ch.consumed + Held(st.ch.worker) + st.ch.queue
      && st.ch.file == (if st.hasFile then st.ch.consumed else [])
      && st.calls.Keys == st.producers.Keys
      && forall p :: p in st.producers ==> From(st.pushed, p) + Pending(st.producers[p]) == Passed(st.calls[p])
  {
    RunKeepsInv(run, steps, i);
    hide From, Passed;
    forall p | p in run[i].producers
      ensures From(run[i].pushed, p) + Pending(run[i].producers[p]) == Passed(run[i].calls[p])
    {
      assert ProducerOk(run[i].pushed, p, run[i].producers[p], run[i].calls[p]);
    }
  }

  lemma StepGrows(st: State, step: Step)
    requires Inv(st) && Enabled(st, step)
    ensures var b := Do(st, step);
      && st.pushed <= b.pushed
      && (st.ch.worker.Done? ==> b.ch.worker.Done? && b.ch.consumed == st.ch.consumed)
  {
  }

  lemma {:induction false} RunGrows(run: seq<State>, steps: seq<Step>, i: nat, j: nat)
    requires IsRun(run, steps) && i <= j < |run|
    ensures run[i].pushed <= run[j].pushed
    ensures run[i].ch.worker.Done? ==> run[j].ch.worker.Done? && run[j].ch.consumed == run[i].ch.consumed
    decreases j
  {
    if i < j {
      RunGrows(run, steps, i, j - 1);
      RunKeepsInv(run, steps, j - 1);
      assert Enabled(run[j - 1], steps[j - 1]);
      StepGrows(run[j - 1], steps[j - 1]);
    }
  }

  // The step on which the worker exits leaves nothing behind; what it leaves unwritten later is
  // exactly what was pushed after that step.
  lemma ExitLosesNothing(run: seq<State>, steps: seq<Step>, i: nat, j: nat)
    requires IsRun(run, steps) && i < j < |run| && !run[i].ch.worker.Done? && run[i + 1].ch.worker.Done?
    ensures run[i + 1].ch.queue == [] && run[i + 1].ch.consumed == run[i + 1].pushed
    ensures run[j].pushed == run[i + 1].pushed + run[j].ch.queue
    ensures run[j].ch.queue == [] <==> run[j].pushed == run[i + 1].pushed
  {
    assert Enabled(run[i], steps[i]) && run[i + 1] == Do(run[i], steps[i]);
    RunGrows(run, steps, i + 1, j);
    QueueAt(run, steps, i + 1);
    QueueAt(run, steps, j);
    hide IsRun;
    ExitsEmpty(run[i], steps[i]);
    var a, b := run[i + 1], run[j];
    assert a.ch.consumed + [] + [] == a.ch.consumed;
    assert b.ch.consumed + [] + b.ch.queue == b.ch.consumed + b.ch.queue;
  }

  lemma QueueAt(run: seq<State>, steps: seq<Step>, i: nat)
    requires IsRun(run, steps) && i < |run|
    ensures run[i].pushed == run[i].ch.consumed + Held(run[i].ch.worker) + run[i].ch.queue
  {
    RunKeepsInv(run, steps, i);
  }

  lemma ExitsEmpty(st: State, step: Step)
    requires Enabled(st, step) && !st.ch.worker.Done? && Do(st, step).ch.worker.Done?
    ensures Do(st, step).ch.queue == []
  {
  }

  // ---- wakeups ----

  // A blocked worker with work to do is about to be notified; the worker owns the mutex exactly
  // at its locked points, and at Decided there is nothing to do.
  lemma NoLostWakeup(run: seq<State>, steps: seq<Step>, i: nat)
    requires IsRun(run, steps) && i < |run|
    ensures var st := run[i];
      && (st.ch.worker.Blocked? && st.ch.queue != [] ==> exists p :: p in st.producers && st.producers[p].Pushed?)
      && (st.ch.worker.Decided? ==> st.ch.queue == [])
      && (st.ch.mutex.ByWorker? <==> st.ch.worker.Predicate? || st.ch.worker.Decided? || st.ch.worker.Drain?)
  {
    RunKeepsInv(run, steps, i);
  }

  // ---- shutdown ----

  // Distance to the exit once the stop flag is set.
  function Measure(c: Channel): nat {
    8 * |c.queue| + match c.worker
      case TestRunning => if c.queue == [] then 2 else 7
      case TestQueue => if c.queue == [] then 1 else 6
      case Lock => 5
      case Woken => 5
      case Predicate => 4
      case Drain => 3
      case Relock => 4
      case Writing(_) => 5
      case _ => 0
  }

  predicate Asleep(w: Worker) { w.Decided? || w.Blocked? }

  // No producer is between its call and its notify.
  predicate Quiet(st: State) { forall p :: p in st.producers ==> st.producers[p].Idle? }

  // The worker's part of the mutex discipline, with no producer inside the lock.
  predicate Sound(c: Channel) {
    && !c.mutex.ByProducer?
    && (c.mutex.ByWorker? <==> c.worker.Predicate? || c.worker.Decided? || c.worker.Drain?)
  }

  lemma WorkDescends(c: Channel)
    requires WorkEnabled(c) && !c.running && !Asleep(c.worker)
    ensures Measure(DoWork(c)) < Measure(c)
    ensures !DoWork(c).running && !Asleep(DoWork(c).worker)
  {
  }

  lemma SoundWorks(c: Channel)
    requires Sound(c) && !Asleep(c.worker) && !c.worker.Done?
    ensures WorkEnabled(c)
    ensures Sound(DoWork(c))
  {
  }

  lemma OthersKeepMeasure(st: State, step: Step)
    requires Enabled(st, step) && !step.Work? && !step.ProdPush? && !st.ch.worker.Blocked?
    ensures Measure(Do(st, step).ch) == Measure(st.ch)
  {
  }

  lemma StaysAwake(st: State, step: Step)
    requires Enabled(st, step) && !st.ch.running && !Asleep(st.ch.worker)
    ensures !Do(st, step).ch.running && !Asleep(Do(st, step).ch.worker)
  {
  }

  // In any run, once the stop flag is set, a worker that is neither asleep nor done never falls
  // asleep again and gets strictly closer to the exit with each of its steps; it is kept waiting
  // only by a producer that can go on, and no step but a push takes it further away. After the
  // stop notification the worker is asleep only if that was lost.
  lemma ShutdownProgress(run: seq<State>, steps: seq<Step>, i: nat)
    requires IsRun(run, steps) && i < |run| && !run[i].ch.running && !run[i].ch.worker.Done?
    ensures var st := run[i];
      (st.stop.Notified? || st.stop.Joined?) && Asleep(st.ch.worker) ==> st.lost
    ensures var st := run[i]; !Asleep(st.ch.worker) ==>
      && (if st.ch.mutex.ByProducer?
          then st.ch.mutex.p in st.producers && Enabled(st, ProdPush(st.ch.mutex.p))
          else WorkEnabled(st.ch))
      && (WorkEnabled(st.ch) ==> Measure(DoWork(st.ch)) < Measure(st.ch))
      && forall step :: Enabled(st, step) ==>
           && !Asleep(Do(st, step).ch.worker)
           && (!step.Work? && !step.ProdPush? ==> Measure(Do(st, step).ch) == Measure(st.ch))
  {
    var st := run[i];
    RunKeepsInv(run, steps, i);
    hide IsRun, QueueInv, WakeupInv, ProducersInv, Measure;
    if !Asleep(st.ch.worker) {
      if !st.ch.mutex.ByProducer? { SoundWorks(st.ch); }
      if WorkEnabled(st.ch) { WorkDescends(st.ch); }
      hide MutexInv, WorkEnabled, DoWork;
      forall step | Enabled(st, step)
        ensures !Asleep(Do(st, step).ch.worker)
        ensures !step.Work? && !step.ProdPush? ==> Measure(Do(st, step).ch) == Measure(st.ch)
      {
        StaysAwake(st, step);
        if !step.Work? && !step.ProdPush? { OthersKeepMeasure(st, step); }
      }
    }
  }

  // n steps of the worker alone; it stands still where it cannot move.
  function Steps(c: Channel, n: nat): Channel
    decreases n
  {
    if n == 0 || !WorkEnabled(c) then c else Steps(DoWork(c), n - 1)
  }

  // Left alone after the stop flag, an awake worker consumes everything and exits; an open file
  // gets what it had not got yet.
  lemma {:induction false} Finishes(c: Channel) returns (n: nat)
    requires Sound(c) && !c.running && !Asleep(c.worker) && (c.worker.Done? ==> c.queue == [])
    ensures var d := Steps(c, n);
      && d.worker.Done? && d.queue == [] && d.consumed == Flow(c)
      && (c.fileOpen && c.file == c.consumed ==> d.file == Flow(c))
    decreases Measure(c)
  {
    if c.worker.Done? {
      n := 0;
    } else {
      SoundWorks(c);
      WorkDescends(c);
      WorkConserves(c);
      ExitsDrained(c);
      hide DoWork, WorkEnabled, Sound, Held, Measure;
      var m := Finishes(DoWork(c));
      n := m + 1;
      assert Steps(c, n) == Steps(DoWork(c), m);
    }
  }

  lemma ExitsDrained(c: Channel)
    requires WorkEnabled(c)
    ensures DoWork(c).worker.Done? ==> DoWork(c).queue == []
  {
  }

  lemma {:induction false} AsleepForever(c: Channel, n: nat)
    requires Asleep(c.worker)
    ensures Asleep(Steps(c, n).worker)
    decreases n
  {
    if n > 0 && WorkEnabled(c) { AsleepForever(DoWork(c), n - 1); }
  }

  // With the producers gone, the destructor's join returns if and only if its notification did
  // not fall between the worker's predicate test and its block; and then everything pushed has
  // been consumed.
  lemma ShutdownCompletesIff(run: seq<State>, steps: seq<Step>, i: nat)
    requires IsRun(run, steps) && i < |run| && run[i].stop.Stored? && Quiet(run[i])
    ensures var c := Do(run[i], StopNotify).ch;
      && ((exists n :: Steps(c, n).worker.Done?) <==> !run[i].ch.worker.Decided?)
      && (!run[i].ch.worker.Decided? && (run[i].ch.worker.Done? ==> run[i].ch.queue == []) ==>
            exists n :: Steps(c, n).worker.Done? && Steps(c, n).queue == [] && Steps(c, n).consumed == run[i].pushed
              && (run[i].hasFile ==> Steps(c, n).file == run[i].pushed))
  {
    var st := run[i];
    var c := Do(st, StopNotify).ch;
    RunKeepsInv(run, steps, i);
    hide IsRun, WakeupInv, ProducersInv;
    if st.ch.worker.Decided? {
      forall n | true ensures !Steps(c, n).worker.Done? { AsleepForever(c, n); }
    } else if st.ch.worker.Done? {
      assert Steps(c, 0).worker.Done? && Steps(c, 0).consumed == st.ch.consumed;
      if st.ch.queue == [] { assert st.ch.consumed + [] + [] == st.ch.consumed; }
    } else {
      assert Sound(c);
      var n := Finishes(c);
      assert Steps(c, n).worker.Done?;
    }
  }

  // The lost notification does happen: a six-step run after which the worker sleeps, the stop
  // flag is set and announced, and the worker never moves by itself again.
  lemma LostStopHappens() returns (run: seq<State>, steps: seq<Step>)
    ensures IsRun(run, steps) && |steps| == 6
    ensures var st := run[6];
      && st.stop.Notified? && st.lost && st.ch.worker.Blocked? && !st.ch.running
      && forall n :: Steps(st.ch, n) == st.ch
  {
    var s0 := State(Channel(true, [], Free, TestRunning, true, [], []), 0, map[], NotYet, true, [], map[], false);
    steps := [Work, Work, Work, StopStore, StopNotify, Work];
    var s1 := Do(s0, Work);
    var s2 := Do(s1, Work);
    var s3 := Do(s2, Work);
    var s4 := Do(s3, StopStore);
    var s5 := Do(s4, StopNotify);
    var s6 := Do(s5, Work);
    run := [s0, s1, s2, s3, s4, s5, s6];
  }
}
