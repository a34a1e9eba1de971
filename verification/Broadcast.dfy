// Sessions, the shared membership set and any number of broadcasting threads,
// interleaved step by step (src/Network/SharedState.cc, src/Network/WebSocketSession.cc).
module Broadcast {
  import opened Common
  import opened SessionModel

  type Sid = nat

  // Where a thread stands inside SharedState::send. `rest` is the part of the vector of weak
  // pointers the fan-out loop has not reached.
  datatype Pc =
    | Idle
    | Wanting                                      // about to lock mutex_
    | Snapping(todo: set<Sid>, taken: seq<Sid>)    // inside the locked loop
    | FanOut(rest: seq<Sid>)                       // outside the lock, between iterations
    | Holding(s: Sid, rest: seq<Sid>)              // weak_ptr promoted
    | Posted(s: Sid, rest: seq<Sid>)               // message posted, pointer still held
    | InDtor(s: Sid, rest: seq<Sid>)               // dropped the last pointer, wants mutex_

  datatype Thread = Thread(pc: Pc, started: nat)

  datatype State = State(
    sessions: map<Sid, Session>,   // every session ever made; a Gone one is freed memory
    members: set<Sid>,             // sessions_
    mutex: Option<Tid>,            // mutex_, when the holder can be interrupted
    threads: map<Tid, Thread>,
    snaps: map<Msg, set<Sid>>,     // history: the snapshot each broadcast took
    missed: set<(Msg, Sid)>)       // history: weak pointers that could not be promoted

  datatype Step =
    | New(s: Sid)
    | AcceptDone(s: Sid, ok: bool) | JoinMembers(s: Sid) | ArmRead(s: Sid)
    | ReadDone(s: Sid, ok: bool) | RunSend(s: Sid) | WriteDone(s: Sid, ok: bool)
    | EndHandler(s: Sid) | StrandLeave(s: Sid)
    | Start(t: Tid) | Lock(t: Tid) | Snap(t: Tid, s: Sid) | Unlock(t: Tid)
    | Promote(t: Tid) | PostTo(t: Tid) | Drop(t: Tid) | ThreadLeave(t: Tid) | Finish(t: Tid)

  predicate Initial(st: State) {
    && st.sessions == map[] && st.members == {} && st.mutex == None
    && st.snaps == map[] && st.missed == {}
    && forall t :: t in st.threads ==> st.threads[t] == Thread(Idle, 0)
  }

  predicate StrandStep(step: Step) {
    step.AcceptDone? || step.JoinMembers? || step.ArmRead? || step.ReadDone? || step.RunSend?
    || step.WriteDone? || step.EndHandler? || step.StrandLeave?
  }

  predicate Enabled(st: State, step: Step) {
    if step.New? then step.s !in st.sessions
    else if StrandStep(step) then step.s in st.sessions && StrandEnabled(st, st.sessions[step.s], step)
    else step.t in st.threads && ThreadEnabled(st, st.threads[step.t].pc, step)
  }

  // The strand runs one handler at a time; join and leave need the mutex.
  predicate StrandEnabled(st: State, x: Session, step: Step)
    requires StrandStep(step)
  {
    match step
    case AcceptDone(_, _) => x.strand.Ready? && x.acceptOps > 0
    case JoinMembers(_) => x.strand.Accepted? && st.mutex.None?
    case ArmRead(_) => x.strand.Joined?
    case ReadDone(_, _) => x.strand.Ready? && x.readOps > 0
    case RunSend(_) => x.strand.Ready? && x.posted != []
    case WriteDone(_, _) => x.strand.Ready? && x.writeOps != [] && x.queue != []
    case EndHandler(_) => x.strand.Finishing? && x.strong > 0
    case StrandLeave(_) => x.life == Dying(None) && st.mutex.None?
  }

  predicate ThreadEnabled(st: State, pc: Pc, step: Step)
    requires !StrandStep(step) && !step.New?
  {
    match step
    case Start(_) => pc.Idle?
    case Lock(_) => pc.Wanting? && st.mutex.None?
    case Snap(_, s) => pc.Snapping? && s in pc.todo
    case Unlock(_) => pc.Snapping? && pc.todo == {}
    case Promote(_) => pc.FanOut? && pc.rest != [] && pc.rest[0] in st.sessions
    case PostTo(_) => pc.Holding? && pc.s in st.sessions
    case Drop(_) => pc.Posted? && pc.s in st.sessions && st.sessions[pc.s].strong > 0
    case ThreadLeave(_) => pc.InDtor? && pc.s in st.sessions && st.mutex.None?
    case Finish(_) => pc.FanOut? && pc.rest == []
  }

  function Do(st: State, step: Step): State
    requires Enabled(st, step)
  {
    if step.New? then st.(sessions := st.sessions[step.s := Fresh()])
    else if StrandStep(step) then DoStrand(st, step)
    else DoThread(st, step)
  }

  function SetSession(st: State, s: Sid, x: Session): State {
    st.(sessions := st.sessions[s := x])
  }

  function SetPc(st: State, t: Tid, pc: Pc): State
    requires t in st.threads
  {
    st.(threads := st.threads[t := st.threads[t].(pc := pc)])
  }

  // `leave`: the session goes out of the set and its memory goes away.
  function Leave(st: State, s: Sid): State
    requires s in st.sessions
  {
    st.(members := st.members - {s}, sessions := st.sessions[s := st.sessions[s].(life := Gone)])
  }

  function DoStrand(st: State, step: Step): State
    requires StrandStep(step) && step.s in st.sessions && StrandEnabled(st, st.sessions[step.s], step)
  {
    var x := st.sessions[step.s];
    match step
    case AcceptDone(s, ok) => SetSession(st, s, OnAccept(x, ok))
    case JoinMembers(s) => SetSession(st, s, OnJoin(x)).(members := st.members + {s})
    case ArmRead(s) => SetSession(st, s, ArmFirstRead(x))
    case ReadDone(s, ok) => SetSession(st, s, OnRead(x, ok))
    case RunSend(s) => SetSession(st, s, OnSend(x))
    case WriteDone(s, ok) => SetSession(st, s, OnWrite(x, ok))
    case EndHandler(s) => SetSession(st, s, HandlerOver(x))
    case StrandLeave(s) => Leave(st, s)
  }

  // The message thread t is broadcasting, or broadcast last.
  function Current(t: Tid, th: Thread): Msg
  {
    Msg(t, th.started)
  }

  function DoThread(st: State, step: Step): State
    requires !StrandStep(step) && !step.New? && step.t in st.threads
    requires ThreadEnabled(st, st.threads[step.t].pc, step)
  {
    var th := st.threads[step.t];
    match step
    case Start(t) => st.(threads := st.threads[t := Thread(Wanting, th.started + 1)])
    case Lock(t) => SetPc(st, t, Snapping(st.members, [])).(mutex := Some(t))
    case Snap(t, s) => SetPc(st, t, Snapping(th.pc.todo - {s}, th.pc.taken + [s]))
    case Unlock(t) =>
      SetPc(st, t, FanOut(th.pc.taken)).(mutex := None, snaps := st.snaps[Current(t, th) := Elems(th.pc.taken)])
    case Promote(t) =>
      var s := th.pc.rest[0];
      if st.sessions[s].life.Alive?
      then SetSession(SetPc(st, t, Holding(s, th.pc.rest[1..])), s, LockWeak(st.sessions[s]))
      else SetPc(st, t, FanOut(th.pc.rest[1..])).(missed := st.missed + {(Current(t, th), s)})
    case PostTo(t) =>
      SetSession(SetPc(st, t, Posted(th.pc.s, th.pc.rest)), th.pc.s, Post(st.sessions[th.pc.s], Current(t, th)))
    case Drop(t) =>
      var y := Release(st.sessions[th.pc.s], Some(t));
      SetSession(SetPc(st, t, if y.life.Alive? then FanOut(th.pc.rest) else InDtor(th.pc.s, th.pc.rest)),
                 th.pc.s, y)
    case ThreadLeave(t) => Leave(SetPc(st, t, FanOut(th.pc.rest)), th.pc.s)
    case Finish(t) => SetPc(st, t, Idle)
  }

  ghost predicate IsRun(run: seq<State>, steps: seq<Step>) {
    && |run| == |steps| + 1
    && Initial(run[0])
    && forall i {:trigger steps[i]} :: 0 <= i < |steps| ==>
         Enabled(run[i], steps[i]) && run[i + 1] == Do(run[i], steps[i])
  }

  // ---- the invariant ----

  // Sessions the current broadcast of a thread has still to post to.
  function Rest(pc: Pc): seq<Sid> {
    match pc
    case FanOut(rest) => rest
    case Holding(s, rest) => [s] + rest
    case Posted(_, rest) => rest
    case InDtor(_, rest) => rest
    case _ => []
  }

  function RestOf(th: Thread, m: Msg): seq<Sid> {
    if m.serial == th.started then Rest(th.pc) else []
  }

  predicate Promoting(pc: Pc, s: Sid) { (pc.Holding? || pc.Posted?) && pc.s == s }

  function Promoters(threads: map<Tid, Thread>, s: Sid): set<Tid> {
    set t | t in threads && Promoting(threads[t].pc, s)
  }

  ghost predicate MutexInv(st: State) {
    && (st.mutex.Some? ==> st.mutex.value in st.threads)
    && forall t :: t in st.threads ==> (st.threads[t].pc.Snapping? <==> st.mutex == Some(t))
  }

  ghost predicate MembersInv(st: State) {
    && st.members <= st.sessions.Keys
    && forall s :: s in st.sessions ==> (s in st.members <==> st.sessions[s].joined && !st.sessions[s].life.Gone?)
  }

  ghost predicate RefsInv(st: State) {
    forall s :: s in st.sessions ==> SessionOk(st.sessions[s], |Promoters(st.threads, s)|)
  }

  ghost predicate ThreadOk(st: State, t: Tid, th: Thread) {
    && (th.pc.Wanting? || th.pc.Snapping? ==> Current(t, th) !in st.snaps)
    && (th.pc.Snapping? ==>
          && NoDup(th.pc.taken)
          && (forall s :: s in th.pc.taken ==> s !in th.pc.todo)
          && th.pc.todo + Elems(th.pc.taken) == st.members)
    && NoDup(Rest(th.pc))
    && (th.pc.FanOut? || th.pc.Holding? || th.pc.Posted? || th.pc.InDtor? ==>
          Current(t, th) in st.snaps && forall s :: s in Rest(th.pc) ==> s in st.snaps[Current(t, th)])
    && (th.pc.Posted? || th.pc.InDtor? ==> th.pc.s in st.sessions)
    && (th.pc.InDtor? ==> st.sessions[th.pc.s].life == Dying(Some(t)))
  }

  ghost predicate ThreadsInv(st: State) {
    && (forall t :: t in st.threads ==> ThreadOk(st, t, st.threads[t]))
    && (forall m :: m in st.snaps ==>
          && m.origin in st.threads && m.serial <= st.threads[m.origin].started
          && st.snaps[m] <= st.sessions.Keys)
  }

  // Messages of one thread keep their order; in particular no message occurs twice.
  ghost predicate Ordered(sent: seq<Msg>) {
    forall i, j :: 0 <= i < j < |sent| && sent[i].origin == sent[j].origin ==> sent[i].serial < sent[j].serial
  }

  // A session got a broadcast iff it was in the snapshot, its turn has come and it could be promoted.
  ghost predicate SentOk(st: State, s: Sid, x: Session) {
    && Ordered(x.sent)
    && (forall m :: m in x.sent ==> m in st.snaps)
    && (forall m :: m in st.snaps && m.origin in st.threads ==>
          (m in x.sent <==> s in st.snaps[m] && (m, s) !in st.missed && s !in RestOf(st.threads[m.origin], m)))
  }

  ghost predicate MissedOk(st: State, m: Msg, s: Sid) {
    && m in st.snaps && s in st.snaps[m] && m.origin in st.threads
    && s !in RestOf(st.threads[m.origin], m)
    && s in st.sessions && !st.sessions[s].life.Alive?
  }

  ghost predicate SentInv(st: State) {
    && (forall s :: s in st.sessions ==> SentOk(st, s, st.sessions[s]))
    && (forall m, s :: (m, s) in st.missed ==> MissedOk(st, m, s))
  }

  ghost predicate Inv(st: State) {
    MutexInv(st) && MembersInv(st) && RefsInv(st) && ThreadsInv(st) && SentInv(st)
  }
}
