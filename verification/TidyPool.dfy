// The bounded work queue of the clang-tidy runner: one producer, any number of workers
// (tools/run-clang-tidy.py, run_tidy and main).
module TidyPool {

  type File = string

  // What a worker has in hand. Ran: its process ended and a non-zero code was noted.
  // Lost: an exception ended the thread before task_done.
  datatype Hand = Empty | Got(file: File) | Ran(file: File) | Lost(file: File, hasRun: bool)

  datatype Main = Putting | Joining | Returned(code: int)

  datatype Pool = Pool(
    toPut: seq<File>,      // selected files the main thread has not put yet
    queue: seq<File>,
    hands: seq<Hand>,
    unfinished: int,       // the queue's count of puts without task_done
    failed: seq<File>,     // failed_files
    main: Main,
    ran: seq<File>,        // history: files whose process ran
    finished: seq<File>)   // history: files with task_done

  // The size of the queue (not positive: unbounded) and each file's exit code.
  datatype Config = Config(maxsize: int, exitCode: File -> int)

  datatype Step = Put | StartJoin | JoinReturns | Get(w: nat) | Run(w: nat) | TaskDone(w: nat) | Crash(w: nat)

  predicate Initial(p: Pool, selected: seq<File>) {
    && p.toPut == selected && p.queue == [] && p.unfinished == 0 && p.failed == [] && p.main.Putting?
    && p.ran == [] && p.finished == []
    && forall w :: 0 <= w < |p.hands| ==> p.hands[w].Empty?
  }

  predicate Enabled(c: Config, p: Pool, step: Step) {
    match step
    case Put => p.main.Putting? && p.toPut != [] && (c.maxsize <= 0 || |p.queue| < c.maxsize)
    case StartJoin => p.main.Putting? && p.toPut == []
    case JoinReturns => p.main.Joining? && p.unfinished == 0
    case Get(w) => w < |p.hands| && p.hands[w].Empty? && p.queue != []
    case Run(w) => w < |p.hands| && p.hands[w].Got?
    case TaskDone(w) => w < |p.hands| && p.hands[w].Ran?
    case Crash(w) => w < |p.hands| && (p.hands[w].Got? || p.hands[w].Ran?)
  }

  function Do(c: Config, p: Pool, step: Step): Pool
    requires Enabled(c, p, step)
  {
    match step
    case Put => p.(toPut := p.toPut[1..], queue := p.queue + [p.toPut[0]], unfinished := p.unfinished + 1)
    case StartJoin => p.(main := Joining)
    case JoinReturns => p.(main := Returned(if |p.failed| > 0 then 1 else 0))
    case Get(w) => p.(queue := p.queue[1..], hands := p.hands[w := Got(p.queue[0])])
    case Run(w) =>
      var f := p.hands[w].file;
      p.(hands := p.hands[w := Ran(f)], ran := p.ran + [f],
         failed := if c.exitCode(f) != 0 then p.failed + [f] else p.failed)
    case TaskDone(w) =>
      p.(hands := p.hands[w := Empty], unfinished := p.unfinished - 1, finished := p.finished + [p.hands[w].file])
    case Crash(w) => p.(hands := p.hands[w := Lost(p.hands[w].file, p.hands[w].Ran?)])
  }

  ghost predicate IsRun(c: Config, selected: seq<File>, run: seq<Pool>, steps: seq<Step>) {
    && |run| == |steps| + 1
    && Initial(run[0], selected)
    && forall i {:trigger steps[i]} :: 0 <= i < |steps| ==>
         Enabled(c, run[i], steps[i]) && run[i + 1] == Do(c, run[i], steps[i])
  }

  // ---- accounting ----

  function FileOf(h: Hand): multiset<File> { if h.Empty? then multiset{} else multiset{h.file} }

  function RunOf(h: Hand): multiset<File> {
    if h.Ran? || (h.Lost? && h.hasRun) then multiset{h.file} else multiset{}
  }

  function Held(hands: seq<Hand>): multiset<File> {
    if hands == [] then multiset{} else FileOf(hands[0]) + Held(hands[1..])
  }

  function HeldRun(hands: seq<Hand>): multiset<File> {
    if hands == [] then multiset{} else RunOf(hands[0]) + HeldRun(hands[1..])
  }

  // Changing one hand changes what the hands hold by that hand alone.
  lemma {:induction false} HeldChange(hands: seq<Hand>, w: nat, h: Hand)
    requires w < |hands|
    ensures Held(hands[w := h]) + FileOf(hands[w]) == Held(hands) + FileOf(h)
  {
    var b := hands[w := h];
    if w == 0 {
      assert b[1..] == hands[1..];
    } else {
      assert b[1..] == hands[1..][w - 1 := h];
      HeldChange(hands[1..], w - 1, h);
      Exchange(Held(b[1..]), FileOf(hands[w]), Held(hands[1..]), FileOf(h), FileOf(hands[0]));
    }
  }

  lemma {:induction false} HeldRunChange(hands: seq<Hand>, w: nat, h: Hand)
    requires w < |hands|
    ensures HeldRun(hands[w := h]) + RunOf(hands[w]) == HeldRun(hands) + RunOf(h)
  {
    var b := hands[w := h];
    if w == 0 {
      assert b[1..] == hands[1..];
    } else {
      assert b[1..] == hands[1..][w - 1 := h];
      HeldRunChange(hands[1..], w - 1, h);
      Exchange(HeldRun(b[1..]), RunOf(hands[w]), HeldRun(hands[1..]), RunOf(h), RunOf(hands[0]));
    }
  }

  lemma Exchange(a: multiset<File>, b: multiset<File>, c: multiset<File>, d: multiset<File>, e: multiset<File>)
    requires a + b == c + d
    ensures (e + a) + b == (e + c) + d
  {
    assert (e + a) + b == e + (a + b);
    assert (e + c) + d == e + (c + d);
  }

  function Failing(c: Config, files: seq<File>): seq<File> {
    if files == [] then [] else
      var n := |files| - 1;
      Failing(c, files[..n]) + if c.exitCode(files[n]) != 0 then [files[n]] else []
  }

  ghost predicate Inv(c: Config, p: Pool, selected: seq<File>) {
    && multiset(selected) == multiset(p.toPut) + multiset(p.queue) + Held(p.hands) + multiset(p.finished)
    && multiset(p.ran) == HeldRun(p.hands) + multiset(p.finished)
    && p.unfinished == |p.queue| + |Held(p.hands)|
    && p.failed == Failing(c, p.ran)
    && (!p.main.Putting? ==> p.toPut == [])
    && (p.main.Returned? ==> p.unfinished == 0 && p.main.code == if |p.failed| > 0 then 1 else 0)
  }

  lemma GetKeeps(c: Config, p: Pool, w: nat, selected: seq<File>)
    requires Inv(c, p, selected) && Enabled(c, p, Get(w))
    ensures Inv(c, Do(c, p, Get(w)), selected)
  {
    hide Held, HeldRun, Failing;
    HeldChange(p.hands, w, Got(p.queue[0]));
    HeldRunChange(p.hands, w, Got(p.queue[0]));
    var f, hands := p.queue[0], p.hands[w := Got(p.queue[0])];
    Cancel(Held(hands), Held(p.hands) + multiset{f}, multiset{});
    Cancel(HeldRun(hands), HeldRun(p.hands), multiset{});
    assert p.queue == [p.queue[0]] + p.queue[1..];
  }

  lemma RunMoves(hands: seq<Hand>, w: nat)
    requires w < |hands| && hands[w].Got?
    ensures Held(hands[w := Ran(hands[w].file)]) == Held(hands)
    ensures HeldRun(hands[w := Ran(hands[w].file)]) == HeldRun(hands) + multiset{hands[w].file}
  {
    hide Held, HeldRun;
    var f := hands[w].file;
    HeldChange(hands, w, Ran(f));
    HeldRunChange(hands, w, Ran(f));
    Cancel(Held(hands[w := Ran(f)]), Held(hands), multiset{f});
    Cancel(HeldRun(hands[w := Ran(f)]), HeldRun(hands) + multiset{f}, multiset{});
  }

  lemma RunKeeps(c: Config, p: Pool, w: nat, selected: seq<File>)
    requires Inv(c, p, selected) && Enabled(c, p, Run(w))
    ensures Inv(c, Do(c, p, Run(w)), selected)
  {
    hide Held, HeldRun, Failing;
    var f := p.hands[w].file;
    RunMoves(p.hands, w);
    FailingGrows(c, p.ran, f);
    assert multiset(p.ran + [f]) == multiset(p.ran) + multiset{f};
    HolderCounts(p.hands, w);
  }

  lemma FailingGrows(c: Config, files: seq<File>, f: File)
    ensures Failing(c, files + [f]) == if c.exitCode(f) != 0 then Failing(c, files) + [f] else Failing(c, files)
  {
    assert (files + [f])[..|files + [f]| - 1] == files;
  }

  lemma Cancel(a: multiset<File>, b: multiset<File>, c: multiset<File>)
    requires a + c == b + c
    ensures a == b
  {
    forall f ensures a[f] == b[f] { assert (a + c)[f] == (b + c)[f]; }
  }

  lemma TaskDoneKeeps(c: Config, p: Pool, w: nat, selected: seq<File>)
    requires Inv(c, p, selected) && Enabled(c, p, TaskDone(w))
    ensures Inv(c, Do(c, p, TaskDone(w)), selected)
  {
    hide Held, HeldRun, Failing;
    HeldChange(p.hands, w, Empty);
    HeldRunChange(p.hands, w, Empty);
    var f, hands := p.hands[w].file, p.hands[w := Empty];
    assert Held(hands) + multiset{f} == Held(p.hands) && HeldRun(hands) + multiset{f} == HeldRun(p.hands);
  }

  lemma CrashKeeps(c: Config, p: Pool, w: nat, selected: seq<File>)
    requires Inv(c, p, selected) && Enabled(c, p, Crash(w))
    ensures Inv(c, Do(c, p, Crash(w)), selected)
  {
    hide Held, HeldRun, Failing;
    HeldChange(p.hands, w, Lost(p.hands[w].file, p.hands[w].Ran?));
    HeldRunChange(p.hands, w, Lost(p.hands[w].file, p.hands[w].Ran?));
    var h := Lost(p.hands[w].file, p.hands[w].Ran?);
    Cancel(Held(p.hands[w := h]), Held(p.hands), FileOf(h));
    Cancel(HeldRun(p.hands[w := h]), HeldRun(p.hands), RunOf(h));
  }

  lemma StepKeepsInv(c: Config, p: Pool, step: Step, selected: seq<File>)
    requires Inv(c, p, selected) && Enabled(c, p, step)
    ensures Inv(c, Do(c, p, step), selected)
  {
    hide Held, HeldRun, Failing;
    match step {
      case Put => assert p.toPut == [p.toPut[0]] + p.toPut[1..];
      case StartJoin =>
      case JoinReturns =>
      case Get(w) => GetKeeps(c, p, w, selected);
      case Run(w) => RunKeeps(c, p, w, selected);
      case TaskDone(w) => TaskDoneKeeps(c, p, w, selected);
      case Crash(w) => CrashKeeps(c, p, w, selected);
    }
  }

  lemma {:induction false} NothingHeld(hands: seq<Hand>)
    requires forall w :: 0 <= w < |hands| ==> hands[w].Empty?
    ensures Held(hands) == multiset{} && HeldRun(hands) == multiset{}
  {
    if hands != [] { NothingHeld(hands[1..]); }
  }

  lemma InitialInv(c: Config, p: Pool, selected: seq<File>)
    requires Initial(p, selected)
    ensures Inv(c, p, selected)
  {
    NothingHeld(p.hands);
  }

  lemma {:induction false} RunKeepsInv(c: Config, selected: seq<File>, run: seq<Pool>, steps: seq<Step>, i: nat)
    requires IsRun(c, selected, run, steps) && i < |run|
    ensures Inv(c, run[i], selected)
    decreases i
  {
    hide Inv, Enabled, Do, Initial;
    if i > 0 {
      RunKeepsInv(c, selected, run, steps, i - 1);
      assert Enabled(c, run[i - 1], steps[i - 1]);
      StepKeepsInv(c, run[i - 1], steps[i - 1], selected);
    } else {
      InitialInv(c, run[0], selected);
    }
  }

  // ---- the queue as the steps see it ----

  // The files workers took out of the queue, in order: each is then in the taker's hand.
  function TakenBy(run: seq<Pool>, steps: seq<Step>, i: nat): seq<File>
    requires i <= |steps| < |run|
  {
    if i == 0 then [] else
      TakenBy(run, steps, i - 1)
      + if steps[i - 1].Get? && steps[i - 1].w < |run[i].hands| && !run[i].hands[steps[i - 1].w].Empty?
        then [run[i].hands[steps[i - 1].w].file] else []
  }

  lemma StepTakes(c: Config, p: Pool, step: Step)
    requires Enabled(c, p, step)
    ensures step.Get? ==> step.w < |p.hands|
    ensures var q := Do(c, p, step);
      && |q.hands| == |p.hands|
      && (if step.Get? then !q.hands[step.w].Empty? && [q.hands[step.w].file] + q.queue + q.toPut == p.queue + p.toPut
          else q.queue + q.toPut == p.queue + p.toPut)
      && (c.maxsize > 0 && |p.queue| <= c.maxsize ==> |q.queue| <= c.maxsize)
  {
    match step {
      case Put => assert p.toPut == [p.toPut[0]] + p.toPut[1..];
      case Get(w) => assert p.queue == [p.queue[0]] + p.queue[1..];
      case _ =>
    }
  }

  // In every run workers take the selected files in the order of selection, and a queue with a
  // bound never holds more than its bound.
  lemma {:induction false} TakenInOrder(c: Config, selected: seq<File>, run: seq<Pool>, steps: seq<Step>, i: nat)
    requires IsRun(c, selected, run, steps) && i < |run|
    ensures TakenBy(run, steps, i) + (run[i].queue + run[i].toPut) == selected
    ensures c.maxsize > 0 ==> |run[i].queue| <= c.maxsize
    decreases i
  {
    hide Do, Enabled;
    if i > 0 {
      TakenInOrder(c, selected, run, steps, i - 1);
      var p, step := run[i - 1], steps[i - 1];
      assert Enabled(c, p, step) && run[i] == Do(c, p, step);
      StepTakes(c, p, step);
      hide IsRun;
      var before := TakenBy(run, steps, i - 1);
      if step.Get? {
        var f := run[i].hands[step.w].file;
        assert TakenBy(run, steps, i) == before + [f];
        assert before + [f] + (run[i].queue + run[i].toPut) == before + ([f] + run[i].queue + run[i].toPut);
      } else {
        assert TakenBy(run, steps, i) == before;
      }
    } else {
      assert [] + ([] + selected) == selected;
    }
  }

  // The main thread waits to put only while a bounded queue is full, and to return only while
  // files are unfinished; an idle worker waits only while the queue is empty, a busy one never.
  ghost predicate WaitsOnly(c: Config, p: Pool, w: nat) {
    && (p.main.Putting? && p.toPut != [] && !Enabled(c, p, Put) ==> c.maxsize > 0 && |p.queue| == c.maxsize)
    && (p.main.Putting? && p.toPut == [] ==> Enabled(c, p, StartJoin))
    && (p.main.Joining? && !Enabled(c, p, JoinReturns) ==> p.unfinished != 0)
    && (w < |p.hands| && p.hands[w].Empty? && !Enabled(c, p, Get(w)) ==> p.queue == [])
    && (w < |p.hands| && p.hands[w].Got? ==> Enabled(c, p, Run(w)) && Enabled(c, p, Crash(w)))
    && (w < |p.hands| && p.hands[w].Ran? ==> Enabled(c, p, TaskDone(w)) && Enabled(c, p, Crash(w)))
  }

  lemma WithinBoundWaits(c: Config, p: Pool, w: nat)
    requires c.maxsize > 0 ==> |p.queue| <= c.maxsize
    ensures WaitsOnly(c, p, w)
  {
  }

  // In every run nobody waits for anything else.
  lemma WaitsOnlyFor(c: Config, selected: seq<File>, run: seq<Pool>, steps: seq<Step>, i: nat, w: nat)
    requires IsRun(c, selected, run, steps) && i < |run|
    ensures WaitsOnly(c, run[i], w)
    ensures run[i].unfinished != 0 <==> run[i].queue != [] || |Held(run[i].hands)| > 0
  {
    hide WaitsOnly, Held, TakenBy;
    TakenInOrder(c, selected, run, steps, i);
    FilesArePartitioned(c, selected, run, steps, i);
    hide IsRun;
    WithinBoundWaits(c, run[i], w);
  }

  // ---- what join means ----

  lemma {:induction false} FailingIs(c: Config, files: seq<File>)
    ensures forall f :: multiset(Failing(c, files))[f] == if c.exitCode(f) != 0 then multiset(files)[f] else 0
  {
    if files != [] {
      var n := |files| - 1;
      FailingIs(c, files[..n]);
      assert files == files[..n] + [files[n]];
    }
  }

  // A worker that holds something, for each thing held.
  lemma {:induction false} HolderExists(hands: seq<Hand>, f: File) returns (w: nat)
    requires f in Held(hands)
    ensures w < |hands| && !hands[w].Empty? && hands[w].file == f
  {
    if f in FileOf(hands[0]) {
      w := 0;
    } else {
      var v := HolderExists(hands[1..], f);
      w := v + 1;
    }
  }

  lemma {:induction false} HolderCounts(hands: seq<Hand>, w: nat)
    requires w < |hands| && !hands[w].Empty?
    ensures |Held(hands)| > 0
  {
    if w > 0 { HolderCounts(hands[1..], w - 1); }
  }

  // In every reachable state the selected files are those to put, queued, in some hand and done,
  // each accounted for once, and the queue's counter is what is queued or in hand.
  lemma FilesArePartitioned(c: Config, selected: seq<File>, run: seq<Pool>, steps: seq<Step>, i: nat)
    requires IsRun(c, selected, run, steps) && i < |run|
    ensures var p := run[i];
      && multiset(selected) == multiset(p.toPut) + multiset(p.queue) + Held(p.hands) + multiset(p.finished)
      && p.unfinished == |p.queue| + |Held(p.hands)|
  {
    RunKeepsInv(c, selected, run, steps, i);
  }

  // When join has returned, every selected file ran exactly as often as it was selected, no
  // thread died with a file in hand, failed_files holds exactly the failing ones, and the exit
  // code is 1 iff there is one.
  lemma JoinMeansAllRan(c: Config, selected: seq<File>, run: seq<Pool>, steps: seq<Step>, i: nat)
    requires IsRun(c, selected, run, steps) && i < |run| && run[i].main.Returned?
    ensures var p := run[i];
      && multiset(p.ran) == multiset(selected) == multiset(p.finished)
      && (forall w :: 0 <= w < |p.hands| ==> p.hands[w].Empty?)
      && (forall f :: multiset(p.failed)[f] == if c.exitCode(f) != 0 then multiset(selected)[f] else 0)
      && p.main.code == (if exists f :: f in selected && c.exitCode(f) != 0 then 1 else 0)
  {
    var p := run[i];
    RunKeepsInv(c, selected, run, steps, i);
    hide IsRun, Held, HeldRun, Failing;
    forall w | 0 <= w < |p.hands| ensures p.hands[w].Empty? {
      if !p.hands[w].Empty? { HolderCounts(p.hands, w); }
    }
    NothingHeld(p.hands);
    FailingIs(c, p.ran);
    if |p.failed| > 0 {
      assert p.failed[0] in multiset(p.failed);
      assert p.failed[0] in multiset(selected);
    }
    if f :| f in selected && c.exitCode(f) != 0 {
      assert f in multiset(selected);
      assert f in multiset(p.failed);
    }
  }

  // ---- progress ----

  function HandRank(h: Hand): nat { match h case Got(_) => 2 case Ran(_) => 1 case _ => 0 }

  function HandsRank(hands: seq<Hand>): nat {
    if hands == [] then 0 else HandRank(hands[0]) + HandsRank(hands[1..])
  }

  lemma {:induction false} HandsRankChange(hands: seq<Hand>, w: nat, h: Hand)
    requires w < |hands|
    ensures HandsRank(hands[w := h]) + HandRank(hands[w]) == HandsRank(hands) + HandRank(h)
  {
    if w == 0 {
      assert hands[w := h][1..] == hands[1..];
    } else {
      assert hands[w := h][1..] == hands[1..][w - 1 := h];
      HandsRankChange(hands[1..], w - 1, h);
    }
  }

  function Measure(p: Pool): nat {
    4 * |p.toPut| + 3 * |p.queue| + HandsRank(p.hands)
    + (match p.main case Putting => 2 case Joining => 1 case Returned(_) => 0)
  }

  lemma StepDescends(c: Config, p: Pool, step: Step)
    requires Enabled(c, p, step)
    ensures Measure(Do(c, p, step)) < Measure(p)
  {
    hide HandsRank;
    if step.Get? || step.Run? || step.TaskDone? || step.Crash? {
      HandsRankChange(p.hands, step.w, Do(c, p, step).hands[step.w]);
    }
  }

  // Every run is finite: it has at most as many steps as the measure of its start.
  lemma {:induction false} RunsAreBounded(c: Config, selected: seq<File>, run: seq<Pool>, steps: seq<Step>, i: nat)
    requires IsRun(c, selected, run, steps) && i < |run|
    ensures i + Measure(run[i]) <= Measure(run[0])
    decreases i
  {
    hide Measure, Do, Enabled;
    if i > 0 {
      RunsAreBounded(c, selected, run, steps, i - 1);
      assert Enabled(c, run[i - 1], steps[i - 1]);
      StepDescends(c, run[i - 1], steps[i - 1]);
    }
  }

  // Without workers nothing is ever done.
  lemma {:induction false} NobodyWorks(c: Config, selected: seq<File>, run: seq<Pool>, steps: seq<Step>, i: nat)
    requires IsRun(c, selected, run, steps) && i < |run|
    ensures |run[i].hands| == |run[0].hands|
    ensures run[0].hands == [] ==> run[i].finished == []
    decreases i
  {
    if i > 0 {
      NobodyWorks(c, selected, run, steps, i - 1);
      assert Enabled(c, run[i - 1], steps[i - 1]) && run[i] == Do(c, run[i - 1], steps[i - 1]);
    }
  }

  // A run that cannot go on has returned from join if and only if there was a worker, or nothing
  // to do, and no thread died with a file in hand. So with a worker and no crash the bounded queue
  // never deadlocks, and otherwise join is never reached or never returns.
  lemma StuckMeansReturned(c: Config, selected: seq<File>, run: seq<Pool>, steps: seq<Step>, i: nat)
    requires IsRun(c, selected, run, steps) && i < |run|
    requires forall step :: !Enabled(c, run[i], step)
    ensures run[i].main.Returned? <==>
      && (selected == [] || |run[i].hands| > 0)
      && forall w :: 0 <= w < |run[i].hands| ==> !run[i].hands[w].Lost?
  {
    var p := run[i];
    RunKeepsInv(c, selected, run, steps, i);
    NobodyWorks(c, selected, run, steps, i);
    if p.main.Returned? { JoinMeansAllRan(c, selected, run, steps, i); }
    hide IsRun, HeldRun, Failing, Held;
    if p.main.Returned? {
      if selected != [] { assert selected[0] in multiset(selected); }
    } else if (selected == [] || |p.hands| > 0) && forall w :: 0 <= w < |p.hands| ==> !p.hands[w].Lost? {
      var step := SomeStep(c, p, selected);
      assert false;
    }
  }

  // A negative -j starts no worker and leaves the queue unbounded: every file is put, and join
  // waits for ever although nobody died.
  lemma NegativeJobsStrandJoin(c: Config, f: File) returns (run: seq<Pool>, steps: seq<Step>)
    requires c.maxsize < 0
    ensures IsRun(c, [f], run, steps) && |run| == 3 && run[0].hands == []
    ensures run[2].main.Joining? && run[2].hands == [] && (forall step :: !Enabled(c, run[2], step))
  {
    steps := [Put, StartJoin];
    var p0 := Pool([f], [], [], 0, [], Putting, [], []);
    var p1 := Do(c, p0, Put);
    var p2 := Do(c, p1, StartJoin);
    run := [p0, p1, p2];
  }

  // It happens with one file and one worker: the worker dies, and join waits for ever.
  lemma CrashStrandsJoin(c: Config, f: File) returns (run: seq<Pool>, steps: seq<Step>)
    ensures IsRun(c, [f], run, steps) && |run| == 5
    ensures run[4].main.Joining? && (forall step :: !Enabled(c, run[4], step))
  {
    steps := [Put, StartJoin, Get(0), Crash(0)];
    var p0 := Pool([f], [], [Empty], 0, [], Putting, [], []);
    var p1 := Do(c, p0, Put);
    var p2 := Do(c, p1, StartJoin);
    var p3 := Do(c, p2, Get(0));
    var p4 := Do(c, p3, Crash(0));
    run := [p0, p1, p2, p3, p4];
  }

  lemma SomeStep(c: Config, p: Pool, selected: seq<File>) returns (step: Step)
    requires Inv(c, p, selected) && !p.main.Returned? && (selected == [] || |p.hands| > 0)
    requires forall w :: 0 <= w < |p.hands| ==> !p.hands[w].Lost?
    ensures Enabled(c, p, step)
  {
    hide HeldRun, Failing, Held;
    if p.queue != [] {
      match p.hands[0] {
        case Empty => step := Get(0);
        case Got(_) => step := Run(0);
        case Ran(_) => step := TaskDone(0);
      }
    } else if p.main.Putting? {
      step := if p.toPut == [] then StartJoin else Put;
    } else if p.unfinished == 0 {
      step := JoinReturns;
    } else {
      var f :| f in Held(p.hands);
      var w := HolderExists(p.hands, f);
      step := if p.hands[w].Got? then Run(w) else TaskDone(w);
    }
  }
}
