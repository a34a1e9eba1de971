// Producers, the worker and the destructor of the log service, interleaved
// (src/Utility/LogService.cc). One lock, one condition variable, one atomic stop flag.
module LogModel {

  type Pid = nat

  // One formatted message and the thread that logged it.
  datatype Entry = Entry(producer: Pid, text: string)

  // One call of `log`: its level and the service's level at that time.
  datatype LogCall = LogCall(entry: Entry, level: int, threshold: int)

  // The worker's program points. Predicate, Decided and Drain hold the mutex. Decided: the wait
  // predicate was false, the thread is about to block.
  datatype Worker =
    | TestRunning | TestQueue | Lock | Predicate | Decided | Blocked | Woken
    | Drain | Writing(entry: Entry) | Relock | Done

  // Pushed: the entry is queued and the mutex free, notify_one is still to come.
  datatype Producer = Idle | Wants(entry: Entry) | Locked(entry: Entry) | Pushed

  datatype Owner = Free | ByWorker | ByProducer(p: Pid)

  // How far the destructor is.
  datatype Stop = NotYet | Stored | Notified | Joined

  // What the worker reads and writes.
  datatype Channel = Channel(
    running: bool,
    queue: seq<Entry>,
    mutex: Owner,
    worker: Worker,
    fileOpen: bool,
    file: seq<Entry>,
    consumed: seq<Entry>)              // history: every entry the worker is done with

  datatype State = State(
    ch: Channel,
    level: int,
    producers: map<Pid, Producer>,
    stop: Stop,
    hasFile: bool,                     // the constructor could open the file
    pushed: seq<Entry>,                // history: every push, in order
    calls: map<Pid, seq<LogCall>>,     // history: every call of each producer
    lost: bool)                        // history: the stop notification found the worker in Decided

  datatype Step =
    | Call(p: Pid, text: string, level: int) | SetLevel(level: int)
    | ProdLock(p: Pid) | ProdPush(p: Pid) | ProdNotify(p: Pid)
    | StopStore | StopNotify | StopJoin
    | Spurious | Work

  predicate Initial(st: State) {
    && st.ch.running && st.ch.queue == [] && st.ch.mutex.Free? && st.ch.worker.TestRunning? && st.stop.NotYet?
    && (forall p :: p in st.producers ==> st.producers[p].Idle?)
    && st.ch.fileOpen == st.hasFile && st.ch.file == [] && st.pushed == [] && st.ch.consumed == []
    && st.calls.Keys == st.producers.Keys
    && (forall p :: p in st.calls ==> st.calls[p] == [])
    && !st.lost
  }

  predicate WorkEnabled(c: Channel) {
    match c.worker
    case Lock => c.mutex.Free?
    case Woken => c.mutex.Free?
    case Relock => c.mutex.Free?
    case Blocked => false
    case Done => false
    case _ => true
  }

  predicate Enabled(st: State, step: Step) {
    match step
    case Call(p, _, _) => p in st.producers && p in st.calls && st.producers[p].Idle?
    case SetLevel(_) => true
    case ProdLock(p) => p in st.producers && st.producers[p].Wants? && st.ch.mutex.Free?
    case ProdPush(p) => p in st.producers && st.producers[p].Locked?
    case ProdNotify(p) => p in st.producers && st.producers[p].Pushed?
    case StopStore => st.stop.NotYet?
    case StopNotify => st.stop.Stored?
    case StopJoin => st.stop.Notified? && st.ch.worker.Done?
    case Spurious => st.ch.worker.Blocked?
    case Work => WorkEnabled(st.ch)
  }

  // notify_one: the worker is the only waiter.
  function Notify(c: Channel): Channel { if c.worker.Blocked? then c.(worker := Woken) else c }

  function DoWork(c: Channel): Channel
    requires WorkEnabled(c)
  {
    match c.worker
    case TestRunning => c.(worker := if c.running then Lock else TestQueue)
    case TestQueue => c.(worker := if c.queue != [] then Lock else Done)
    case Lock => c.(worker := Predicate, mutex := ByWorker)
    case Predicate => c.(worker := if !c.running || c.queue != [] then Drain else Decided)
    case Decided => c.(worker := Blocked, mutex := Free)
    case Woken => c.(worker := Predicate, mutex := ByWorker)
    case Drain =>
      if c.queue == [] then c.(worker := TestRunning, mutex := Free)
      else c.(worker := Writing(c.queue[0]), queue := c.queue[1..], mutex := Free)
    case Writing(e) =>
      c.(worker := Relock, consumed := c.consumed + [e], file := if c.fileOpen then c.file + [e] else c.file)
    case Relock => c.(worker := Drain, mutex := ByWorker)
  }

  function Do(st: State, step: Step): State
    requires Enabled(st, step)
  {
    match step
    case Call(p, text, level) =>
      var b := st.(calls := st.calls[p := st.calls[p] + [LogCall(Entry(p, text), level, st.level)]]);
      if level < st.level then b else b.(producers := b.producers[p := Wants(Entry(p, text))])
    case SetLevel(level) => st.(level := level)
    case ProdLock(p) =>
      st.(producers := st.producers[p := Locked(st.producers[p].entry)], ch := st.ch.(mutex := ByProducer(p)))
    case ProdPush(p) =>
      var e := st.producers[p].entry;
      st.(producers := st.producers[p := Pushed], pushed := st.pushed + [e],
          ch := st.ch.(mutex := Free, queue := st.ch.queue + [e]))
    case ProdNotify(p) => st.(producers := st.producers[p := Idle], ch := Notify(st.ch))
    case StopStore => st.(stop := Stored, ch := st.ch.(running := false))
    case StopNotify => st.(stop := Notified, ch := Notify(st.ch), lost := st.ch.worker.Decided?)
    case StopJoin => st.(stop := Joined, ch := st.ch.(fileOpen := false))
    case Spurious => st.(ch := Notify(st.ch))
    case Work => st.(ch := DoWork(st.ch))
  }

  ghost predicate IsRun(run: seq<State>, steps: seq<Step>) {
    && |run| == |steps| + 1
    && Initial(run[0])
    && forall i {:trigger steps[i]} :: 0 <= i < |steps| ==>
         Enabled(run[i], steps[i]) && run[i + 1] == Do(run[i], steps[i])
  }

  // ---- the invariant ----

  function Held(w: Worker): seq<Entry> { if w.Writing? then [w.entry] else [] }

  // Everything on its way through the worker, oldest first.
  function Flow(c: Channel): seq<Entry> { c.consumed + Held(c.worker) + c.queue }

  function Pending(pr: Producer): seq<Entry> { if pr.Wants? || pr.Locked? then [pr.entry] else [] }

  // The entries of one producer.
  function From(s: seq<Entry>, p: Pid): seq<Entry> {
    if s == [] then [] else
      From(s[..|s| - 1], p) + if s[|s| - 1].producer == p then [s[|s| - 1]] else []
  }

  ghost predicate MutexInv(st: State) {
    && (st.ch.mutex.ByWorker? <==> st.ch.worker.Predicate? || st.ch.worker.Decided? || st.ch.worker.Drain?)
    && (forall p :: p in st.producers ==> (st.producers[p].Locked? <==> st.ch.mutex == ByProducer(p)))
    && (st.ch.mutex.ByProducer? ==> st.ch.mutex.p in st.producers)
  }

  ghost predicate QueueInv(st: State) {
    && st.pushed == Flow(st.ch)
    && st.ch.file == (if st.hasFile then st.ch.consumed else [])
    && st.ch.fileOpen == (st.hasFile && !st.stop.Joined?)
    && (st.stop.Joined? ==> st.ch.worker.Done?)
  }

  ghost predicate WakeupInv(st: State) {
    && (st.ch.worker.Decided? ==> st.ch.queue == [])
    && (st.ch.worker.Blocked? && st.ch.queue != [] ==> exists p :: p in st.producers && st.producers[p].Pushed?)
  }

  ghost predicate StopInv(st: State) {
    && (st.ch.running <==> st.stop.NotYet?)
    && (st.ch.worker.TestQueue? || st.ch.worker.Done? ==> !st.ch.running)
    && ((st.stop.Notified? || st.stop.Joined?) && (st.ch.worker.Decided? || st.ch.worker.Blocked?) ==> st.lost)
  }

  // The entries of the calls at or above the service's level.
  function Passed(calls: seq<LogCall>): seq<Entry> {
    if calls == [] then [] else
      var c := calls[|calls| - 1];
      Passed(calls[..|calls| - 1]) + if c.level >= c.threshold then [c.entry] else []
  }

  // What a producer's calls let through is what it pushed, in order, and the one it is about to push.
  ghost predicate ProducerOk(pushed: seq<Entry>, p: Pid, pr: Producer, calls: seq<LogCall>) {
    && From(pushed, p) + Pending(pr) == Passed(calls)
    && (pr.Wants? || pr.Locked? ==> pr.entry.producer == p)
  }

  ghost predicate ProducersInv(st: State) {
    && st.calls.Keys == st.producers.Keys
    && (forall p :: p in st.producers ==> ProducerOk(st.pushed, p, st.producers[p], st.calls[p]))
    && (forall e :: e in st.pushed ==> e.producer in st.producers)
  }

  ghost predicate Inv(st: State) {
    MutexInv(st) && QueueInv(st) && WakeupInv(st) && StopInv(st) && ProducersInv(st)
  }

  // The worker holds the mutex exactly at its locked program points, and so does each producer.
  lemma MutexKeeps(st: State, step: Step)
    requires MutexInv(st) && Enabled(st, step)
    ensures MutexInv(Do(st, step))
  {
  }

  lemma WorkConserves(c: Channel)
    requires WorkEnabled(c)
    ensures Flow(DoWork(c)) == Flow(c)
    ensures DoWork(c).fileOpen == c.fileOpen && DoWork(c).consumed[..|c.consumed|] == c.consumed
    ensures DoWork(c).file == c.file + if c.fileOpen then DoWork(c).consumed[|c.consumed|..] else []
  {
    if c.worker.Drain? && c.queue != [] {
      assert c.queue == [c.queue[0]] + c.queue[1..];
      assert c.consumed + [c.queue[0]] + c.queue[1..] == c.consumed + [] + ([c.queue[0]] + c.queue[1..]);
    } else if c.worker.Writing? {
      assert c.consumed + [c.worker.entry] + [] + c.queue == c.consumed + [c.worker.entry] + c.queue;
    }
  }

  lemma QueueKeeps(st: State, step: Step)
    requires QueueInv(st) && Enabled(st, step)
    ensures QueueInv(Do(st, step))
  {
    if step.Work? {
      WorkConserves(st.ch);
      hide WorkEnabled, DoWork;
    } else if step.ProdPush? {
      var e := st.producers[step.p].entry;
      assert Flow(Do(st, step).ch) == Flow(st.ch) + [e];
    }
  }

  lemma WakeupKeeps(st: State, step: Step)
    requires WakeupInv(st) && MutexInv(st) && Enabled(st, step)
    ensures WakeupInv(Do(st, step))
  {
    var b := Do(st, step);
    if step.ProdPush? {
      assert b.producers[step.p].Pushed?;
    } else if b.ch.worker.Blocked? && b.ch.queue != [] {
      var q :| q in st.producers && st.producers[q].Pushed?;
      assert b.producers[q].Pushed?;
    }
  }

  lemma StopKeeps(st: State, step: Step)
    requires StopInv(st) && Enabled(st, step)
    ensures StopInv(Do(st, step))
  {
  }

  lemma CallKeeps(pushed: seq<Entry>, p: Pid, calls: seq<LogCall>, c: LogCall)
    requires ProducerOk(pushed, p, Idle, calls) && c.entry.producer == p
    ensures ProducerOk(pushed, p, if c.level < c.threshold then Idle else Wants(c.entry), calls + [c])
  {
    assert (calls + [c])[..|calls + [c]| - 1] == calls;
    assert From(pushed, p) + [] == From(pushed, p);
  }

  // A push moves the pending entry of its producer and shows in nobody else's projection.
  lemma PushKeeps(pushed: seq<Entry>, e: Entry, p: Pid, pr: Producer, calls: seq<LogCall>)
    requires ProducerOk(pushed, p, pr, calls)
    requires e.producer == p ==> pr == Locked(e)
    ensures ProducerOk(pushed + [e], p, if e.producer == p then Pushed else pr, calls)
  {
    assert (pushed + [e])[..|pushed + [e]| - 1] == pushed;
  }

  lemma ProducersAfterPush(st: State, p: Pid)
    requires ProducersInv(st) && Enabled(st, ProdPush(p))
    ensures ProducersInv(Do(st, ProdPush(p)))
  {
    hide ProducerOk;
    var b := Do(st, ProdPush(p));
    var e := st.producers[p].entry;
    PendingIsOwn(st, p);
    forall q | q in b.producers ensures ProducerOk(b.pushed, q, b.producers[q], b.calls[q]) {
      PushKeeps(st.pushed, e, q, st.producers[q], st.calls[q]);
    }
  }

  lemma PendingIsOwn(st: State, p: Pid)
    requires ProducersInv(st) && p in st.producers && st.producers[p].Locked?
    ensures st.producers[p].entry.producer == p
  {
    assert ProducerOk(st.pushed, p, st.producers[p], st.calls[p]);
  }

  lemma ProducersAfterCall(st: State, p: Pid, text: string, level: int)
    requires ProducersInv(st) && Enabled(st, Call(p, text, level))
    ensures ProducersInv(Do(st, Call(p, text, level)))
  {
    hide ProducerOk;
    var b := Do(st, Call(p, text, level));
    forall q | q in b.producers ensures ProducerOk(b.pushed, q, b.producers[q], b.calls[q]) {
      assert ProducerOk(st.pushed, q, st.producers[q], st.calls[q]);
      if q == p { CallKeeps(st.pushed, p, st.calls[p], LogCall(Entry(p, text), level, st.level)); }
    }
  }

  // Steps that neither call nor push leave every producer's entries where they are.
  lemma ProducersFrame(a: State, b: State)
    requires ProducersInv(a) && b.pushed == a.pushed && b.calls == a.calls
    requires b.producers.Keys == a.producers.Keys
    requires forall p :: p in a.producers ==> Pending(b.producers[p]) == Pending(a.producers[p])
    ensures ProducersInv(b)
  {
    hide From, Passed;
    forall p | p in b.producers ensures ProducerOk(b.pushed, p, b.producers[p], b.calls[p]) {
      assert ProducerOk(a.pushed, p, a.producers[p], a.calls[p]);
    }
  }

  lemma ProducersKeep(st: State, step: Step)
    requires ProducersInv(st) && Enabled(st, step)
    ensures ProducersInv(Do(st, step))
  {
    hide ProducersInv;
    match step {
      case ProdPush(p) => ProducersAfterPush(st, p);
      case Call(p, text, level) => ProducersAfterCall(st, p, text, level);
      case _ => ProducersFrame(st, Do(st, step));
    }
  }

  lemma StepKeepsInv(st: State, step: Step)
    requires Inv(st) && Enabled(st, step)
    ensures Inv(Do(st, step))
  {
    hide MutexInv, QueueInv, WakeupInv, StopInv, ProducersInv, Do, Enabled;
    MutexKeeps(st, step);
    QueueKeeps(st, step);
    WakeupKeeps(st, step);
    StopKeeps(st, step);
    ProducersKeep(st, step);
  }

  lemma {:induction false} RunKeepsInv(run: seq<State>, steps: seq<Step>, i: nat)
    requires IsRun(run, steps) && i < |run|
    ensures Inv(run[i])
  {
    if i > 0 {
      RunKeepsInv(run, steps, i - 1);
      assert Enabled(run[i - 1], steps[i - 1]);
      StepKeepsInv(run[i - 1], steps[i - 1]);
    } else {
      assert forall p :: p in run[0].producers ==>
        From(run[0].pushed, p) + Pending(run[0].producers[p]) == [] == Passed(run[0].calls[p]);
    }
  }
}
