// What the invariant of the broadcast system means for every run.
module BroadcastResults {
  import opened Common
  import opened SessionModel
  import opened Broadcast
  import opened BroadcastProof

  // ---- one step never takes history back ----

  ghost predicate Onward(x: Session, y: Session) {
    && x.sent <= y.sent && x.delivered <= y.delivered
    && (x.failed ==> y.failed && y.delivered == x.delivered)
    && (!x.life.Alive? ==> !y.life.Alive? && y.sent == x.sent && y.delivered == x.delivered)
  }

  lemma StrandOnward(st: State, step: Step)
    requires StrandStep(step) && step.s in st.sessions && StrandEnabled(st, st.sessions[step.s], step)
    requires SessionOk(st.sessions[step.s], |Promoters(st.threads, step.s)|)
    ensures Onward(st.sessions[step.s], DoStrand(st, step).sessions[step.s])
  {
    hide Promoters;
  }

  lemma TurnOnward(st: State, step: Step)
    requires RefsInv(st) && Enabled(st, step) && (TurnStep(step) || step.ThreadLeave?)
    requires step.ThreadLeave? ==> !st.sessions[st.threads[step.t].pc.s].life.Alive?
    ensures var pc := st.threads[step.t].pc;
      var s := if pc.FanOut? then pc.rest[0] else pc.s;
      Onward(st.sessions[s], Do(st, step).sessions[s])
  {
    hide RefsInv, Promoters, StrandEnabled, DoStrand;
    var pc := st.threads[step.t].pc;
    if step.PostTo? || step.Drop? { PromotedIsAlive(st, step.t, pc.s); }
  }

  lemma StrandOthers(st: State, step: Step)
    requires StrandStep(step) && step.s in st.sessions && StrandEnabled(st, st.sessions[step.s], step)
    ensures var b := DoStrand(st, step);
      && b.sessions.Keys == st.sessions.Keys
      && forall r :: r in st.sessions && r != step.s ==> b.sessions[r] == st.sessions[r]
  {
  }

  lemma StepOnward(st: State, step: Step, s: Sid)
    requires Inv(st) && Enabled(st, step) && s in st.sessions
    ensures s in Do(st, step).sessions && Onward(st.sessions[s], Do(st, step).sessions[s])
  {
    hide MutexInv, MembersInv, SentInv, RefsInv, ThreadsInv, SessionOk, Promoters, DoStrand, StrandEnabled;
    if StrandStep(step) {
      StrandOthers(st, step);
      if step.s == s {
        CountsAt(st, s);
        StrandOnward(st, step);
      }
    } else if TurnStep(step) || step.ThreadLeave? {
      if step.ThreadLeave? { LeaverIsDead(st, step.t); }
      TurnOnward(st, step);
    }
  }

  lemma {:induction false} RunOnward(run: seq<State>, steps: seq<Step>, i: nat, j: nat, s: Sid)
    requires IsRun(run, steps) && i <= j < |run| && s in run[i].sessions
    ensures s in run[j].sessions && Onward(run[i].sessions[s], run[j].sessions[s])
    decreases j
  {
    if i < j {
      RunOnward(run, steps, i, j - 1, s);
      RunKeepsInv(run, steps, j - 1);
      assert Enabled(run[j - 1], steps[j - 1]);
      StepOnward(run[j - 1], steps[j - 1], s);
    }
  }

  lemma SessionAt(run: seq<State>, steps: seq<Step>, i: nat, s: Sid)
    requires IsRun(run, steps) && i < |run| && s in run[i].sessions
    ensures SessionOk(run[i].sessions[s], |Promoters(run[i].threads, s)|)
    ensures SentOk(run[i], s, run[i].sessions[s])
  {
    RunKeepsInv(run, steps, i);
  }

  // ---- drain before death ----

  // A session whose last pointer is gone, and which saw no write error, has delivered exactly
  // what was posted to it, in posting order; a queued message means one write is under way and
  // keeps the session alive.
  lemma DrainBeforeDeath(run: seq<State>, steps: seq<Step>, i: nat, s: Sid)
    requires IsRun(run, steps) && i < |run| && s in run[i].sessions && !run[i].sessions[s].failed
    ensures var x := run[i].sessions[s];
      && (!x.life.Alive? ==> x.delivered == x.sent && x.queue == [] && x.posted == [] && x.writeOps == [])
      && (x.queue != [] ==> x.life.Alive? && x.writeOps == [x.queue[0]])
  {
    SessionAt(run, steps, i, s);
    DeadIsDrained(run[i].sessions[s], |Promoters(run[i].threads, s)|);
  }

  // A session lives, with exactly one accept or read under way, until accept or read fails; so a
  // session that died had ended.
  lemma LivesUntilEnded(run: seq<State>, steps: seq<Step>, i: nat, s: Sid)
    requires IsRun(run, steps) && i < |run| && s in run[i].sessions
    ensures var x := run[i].sessions[s];
      && (!x.ended ==> x.life.Alive?)
      && (!x.ended ==> x.acceptOps + x.readOps + Bit(x.strand.Accepted? || x.strand.Joined?) == 1)
      && (x.ended ==> x.acceptOps == 0 && x.readOps == 0)
  {
    hide IsRun, Promoters, SentOk;
    SessionAt(run, steps, i, s);
  }

  // Completions find what they rely on: a finished write has its message at the head of the queue,
  // and a handler that returns still owns a pointer. Any pending work keeps the session alive.
  lemma CompletionsFindTheirState(run: seq<State>, steps: seq<Step>, i: nat, s: Sid)
    requires IsRun(run, steps) && i < |run| && s in run[i].sessions
    ensures var x := run[i].sessions[s];
      && (x.strand.Ready? && x.writeOps != [] ==>
            Enabled(run[i], WriteDone(s, true)) && Enabled(run[i], WriteDone(s, false)) && x.queue[0] == x.writeOps[0])
      && (x.strand.Finishing? ==> Enabled(run[i], EndHandler(s)))
      && (!x.strand.Ready? || x.acceptOps > 0 || x.readOps > 0 || x.writeOps != [] || x.posted != [] ==> x.life.Alive?)
  {
    hide IsRun, Promoters, SentOk;
    SessionAt(run, steps, i, s);
  }

  // The strand step that brings an unfailed session with undelivered messages on.
  function NextHandler(x: Session, s: Sid): Step {
    match x.strand
    case Accepted => JoinMembers(s)
    case Joined => ArmRead(s)
    case Finishing => EndHandler(s)
    case Ready => if x.writeOps != [] then WriteDone(s, true) else RunSend(s)
  }

  // No message gets stuck: while anything posted is undelivered and no write has failed, the
  // session has a step to take, held up by nothing but the mutex right after accept.
  lemma UndeliveredCanMove(run: seq<State>, steps: seq<Step>, i: nat, s: Sid)
    requires IsRun(run, steps) && i < |run| && s in run[i].sessions
    requires !run[i].sessions[s].failed && run[i].sessions[s].delivered != run[i].sessions[s].sent
    ensures run[i].sessions[s].life.Alive?
    ensures Enabled(run[i], NextHandler(run[i].sessions[s], s))
      || (run[i].sessions[s].strand.Accepted? && run[i].mutex.Some?)
  {
    hide IsRun, Promoters, SentOk, SessionOk;
    SessionAt(run, steps, i, s);
    UndeliveredEnabled(run[i], s);
  }

  // Handlers still to run until everything posted is delivered.
  function HandlersLeft(x: Session): nat {
    4 * |x.posted| + 2 * |x.queue| + match x.strand
      case Accepted => 3
      case Joined => 2
      case Finishing => 1
      case Ready => 0
  }

  lemma NextHandlerDescends(st: State, s: Sid)
    requires s in st.sessions && QueueOk(st.sessions[s])
    requires StrandEnabled(st, st.sessions[s], NextHandler(st.sessions[s], s))
    ensures var x, b := st.sessions[s], DoStrand(st, NextHandler(st.sessions[s], s));
      && s in b.sessions && b.mutex == st.mutex && HandlersLeft(b.sessions[s]) < HandlersLeft(x)
      && b.sessions[s].failed == x.failed && b.sessions[s].sent == x.sent && !b.sessions[s].strand.Accepted?
  {
    var x := st.sessions[s];
    if x.strand.Ready? {
      if x.writeOps != [] { WriteDescends(x); } else { SendDescends(x); }
      hide OnWrite, OnSend;
    }
  }

  lemma WriteDescends(x: Session)
    requires x.writeOps != [] && x.queue != [] && x.strand.Ready?
    ensures var y := OnWrite(x, true);
      HandlersLeft(y) < HandlersLeft(x) && y.failed == x.failed && y.sent == x.sent && y.strand.Finishing?
  {
  }

  lemma SendDescends(x: Session)
    requires x.posted != [] && x.strand.Ready?
    ensures var y := OnSend(x);
      HandlersLeft(y) < HandlersLeft(x) && y.failed == x.failed && y.sent == x.sent && y.strand.Finishing?
  {
  }

  lemma NextHandlerIsStrand(st: State, s: Sid)
    requires s in st.sessions
    ensures var step := NextHandler(st.sessions[s], s);
      && StrandStep(step) && (Enabled(st, step) <==> StrandEnabled(st, st.sessions[s], step))
      && (Enabled(st, step) ==> Do(st, step) == DoStrand(st, step))
  {
    hide StrandEnabled, DoStrand;
  }

  lemma UndeliveredEnabled(st: State, s: Sid)
    requires s in st.sessions && !st.sessions[s].failed && st.sessions[s].delivered != st.sessions[s].sent
    requires SessionOk(st.sessions[s], |Promoters(st.threads, s)|)
    ensures st.sessions[s].life.Alive?
    ensures Enabled(st, NextHandler(st.sessions[s], s)) || (st.sessions[s].strand.Accepted? && st.mutex.Some?)
  {
    hide Promoters;
    var x := st.sessions[s];
    assert x.delivered + [] + [] == x.delivered;
  }

  // n of these handlers, one after the other, every write succeeding.
  function Driven(st: State, s: Sid, n: nat): State
    requires s in st.sessions
    decreases n
  {
    var step := NextHandler(st.sessions[s], s);
    if n == 0 || !Enabled(st, step) || s !in Do(st, step).sessions then st else Driven(Do(st, step), s, n - 1)
  }

  // While its writes succeed a session delivers everything posted to it within that many
  // handlers, needing the mutex only if it has still to join.
  lemma {:induction false} DriveDelivers(st: State, s: Sid) returns (n: nat)
    requires Inv(st) && s in st.sessions && !st.sessions[s].failed
    requires st.sessions[s].strand.Accepted? ==> st.mutex.None?
    ensures n <= HandlersLeft(st.sessions[s])
    ensures var b := Driven(st, s, n);
      && s in b.sessions && b.sessions[s].sent == st.sessions[s].sent && b.sessions[s].delivered == st.sessions[s].sent
    decreases HandlersLeft(st.sessions[s])
  {
    hide Inv, Do, Enabled, DoStrand, StrandEnabled, SessionOk, QueueOk, Promoters, HandlersLeft, NextHandler;
    n := 0;
    if st.sessions[s].delivered != st.sessions[s].sent {
      StateCounts(st, s);
      UndeliveredEnabled(st, s);
      var step := NextHandler(st.sessions[s], s);
      NextHandlerIsStrand(st, s);
      NextHandlerDescends(st, s);
      StepKeepsInv(st, step);
      var m := DriveDelivers(Do(st, step), s);
      n := m + 1;
    }
  }

  lemma StateCounts(st: State, s: Sid)
    requires Inv(st) && s in st.sessions
    ensures SessionOk(st.sessions[s], |Promoters(st.threads, s)|) && QueueOk(st.sessions[s])
  {
    CountsAt(st, s);
  }

  lemma UndeliveredIsDelivered(run: seq<State>, steps: seq<Step>, i: nat, s: Sid) returns (n: nat)
    requires IsRun(run, steps) && i < |run| && s in run[i].sessions && !run[i].sessions[s].failed
    requires run[i].sessions[s].strand.Accepted? ==> run[i].mutex.None?
    ensures n <= HandlersLeft(run[i].sessions[s])
    ensures var b := Driven(run[i], s, n);
      s in b.sessions && b.sessions[s].delivered == b.sessions[s].sent == run[i].sessions[s].sent
  {
    RunKeepsInv(run, steps, i);
    n := DriveDelivers(run[i], s);
  }

  // ---- the write queue ----

  // At most one write in flight; while unfailed, one is in flight iff something is queued, and
  // it is the head. After an error nothing more is delivered and no write starts.
  lemma WriteProtocol(run: seq<State>, steps: seq<Step>, i: nat, j: nat, s: Sid)
    requires IsRun(run, steps) && i <= j < |run| && s in run[i].sessions
    ensures var x := run[i].sessions[s];
      && x.delivered + x.queue + x.posted == x.sent
      && |x.writeOps| <= 1
      && (!x.failed ==> x.writeOps == if x.queue == [] then [] else [x.queue[0]])
      && (x.failed ==>
            s in run[j].sessions && run[j].sessions[s].failed && run[j].sessions[s].writeOps == []
            && run[j].sessions[s].delivered == x.delivered)
  {
    hide IsRun, SentOk, Promoters;
    SessionAt(run, steps, i, s);
    RunOnward(run, steps, i, j, s);
    SessionAt(run, steps, j, s);
  }

  // ---- order and multiplicity ----

  // Two broadcasts one thread makes in order reach any session in that order, and no broadcast
  // is delivered, or even posted, twice.
  lemma FifoAtMostOnce(run: seq<State>, steps: seq<Step>, i: nat, s: Sid)
    requires IsRun(run, steps) && i < |run| && s in run[i].sessions
    ensures var x := run[i].sessions[s];
      && x.delivered <= x.sent
      && (forall p, q ::
            (0 <= p < |x.delivered| && 0 <= q < |x.delivered| && x.delivered[p].origin == x.delivered[q].origin) ==>
            (p < q <==> x.delivered[p].serial < x.delivered[q].serial))
      && (forall p, q :: 0 <= p < q < |x.sent| ==> x.sent[p] != x.sent[q])
  {
    hide IsRun, Promoters;
    SessionAt(run, steps, i, s);
    var x := run[i].sessions[s];
    assert x.delivered == x.sent[..|x.delivered|];
  }

  // The loop of broadcast m is over.
  predicate Completed(st: State, m: Msg) {
    && m in st.snaps && m.origin in st.threads
    && (m.serial != st.threads[m.origin].started || st.threads[m.origin].pc.Idle?)
  }

  // A finished broadcast was posted exactly once to each session of its snapshot that could be
  // promoted, to nobody else, and the ones that could not be promoted were dead.
  lemma ExactlyOnceToPromotable(run: seq<State>, steps: seq<Step>, i: nat, m: Msg, s: Sid)
    requires IsRun(run, steps) && i < |run| && s in run[i].sessions && Completed(run[i], m)
    ensures var st := run[i];
      && multiset(st.sessions[s].sent)[m] == (if s in st.snaps[m] && (m, s) !in st.missed then 1 else 0)
      && ((m, s) in st.missed ==> s in st.snaps[m] && !st.sessions[s].life.Alive?)
  {
    RunKeepsInv(run, steps, i);
    var st := run[i];
    assert SentOk(st, s, st.sessions[s]);
    assert (m, s) in st.missed ==> MissedOk(st, m, s);
    CountInOrdered(st.sessions[s].sent, m);
  }

  lemma {:induction false} CountInOrdered(sent: seq<Msg>, m: Msg)
    requires Ordered(sent)
    ensures multiset(sent)[m] == Bit(m in sent)
  {
    if sent != [] {
      var n := |sent| - 1;
      assert sent == sent[..n] + [sent[n]];
      CountInOrdered(sent[..n], m);
      assert sent[n] !in sent[..n];
    }
  }

  // A session is missed only because its count had reached zero when it was tried, and every
  // session whose count had not is posted to: nothing else comes between.
  lemma PromotionDecides(run: seq<State>, steps: seq<Step>, i: nat, t: Tid)
    requires IsRun(run, steps) && i < |steps| && steps[i] == Promote(t)
    ensures t in run[i].threads && run[i].threads[t].pc.FanOut? && run[i].threads[t].pc.rest != []
    ensures var s := run[i].threads[t].pc.rest[0];
      && s in run[i].sessions
      && (if run[i].sessions[s].strong > 0
          then Enabled(run[i + 1], PostTo(t)) && run[i + 1].missed == run[i].missed
          else run[i + 1].missed == run[i].missed + {(Current(t, run[i].threads[t]), s)})
  {
    assert Enabled(run[i], steps[i]);
    RunKeepsInv(run, steps, i);
    var st, s := run[i], run[i].threads[t].pc.rest[0];
    assert SessionOk(st.sessions[s], |Promoters(st.threads, s)|);
  }

  // ---- membership ----

  // Inside the locked loop every pointer taken from the set names a session that joined and
  // whose destructor has not passed `leave`; a published snapshot is exactly the membership.
  lemma SnapshotsAreSafe(run: seq<State>, steps: seq<Step>, i: nat)
    requires IsRun(run, steps) && i < |steps|
    ensures steps[i].Snap? ==>
      && steps[i].s in run[i].sessions
      && run[i].sessions[steps[i].s].joined && !run[i].sessions[steps[i].s].life.Gone?
    ensures steps[i].Unlock? ==>
      && steps[i].t in run[i].threads
      && var m := Current(steps[i].t, run[i].threads[steps[i].t]);
      && m in run[i + 1].snaps && run[i + 1].snaps[m] == run[i].members
      && forall s :: s in run[i].sessions ==>
           (s in run[i].members <==> run[i].sessions[s].joined && !run[i].sessions[s].life.Gone?)
  {
    assert Enabled(run[i], steps[i]);
    RunKeepsInv(run, steps, i);
    if steps[i].Snap? || steps[i].Unlock? {
      var t := steps[i].t;
      assert ThreadOk(run[i], t, run[i].threads[t]);
    }
  }

  // Once the count has reached zero nothing is ever posted again, however long the destructor
  // waits for the mutex.
  lemma NeverPostedToTheDead(run: seq<State>, steps: seq<Step>, i: nat, j: nat, s: Sid)
    requires IsRun(run, steps) && i <= j < |run| && s in run[i].sessions && run[i].sessions[s].strong == 0
    ensures s in run[j].sessions && run[j].sessions[s].sent == run[i].sessions[s].sent
    ensures run[j].sessions[s].strong == 0 && run[j].sessions[s].posted == []
  {
    hide IsRun, SentOk, Promoters;
    SessionAt(run, steps, i, s);
    RunOnward(run, steps, i, j, s);
    SessionAt(run, steps, j, s);
  }

  // ---- nobody gets stuck on the mutex ----

  // The step a broadcaster takes next; in the locked loop any pointer still to take will do.
  ghost function NextStep(st: State, t: Tid): Step
    requires t in st.threads && !st.threads[t].pc.Idle?
  {
    match st.threads[t].pc
    case Wanting => Lock(t)
    case Snapping(todo, _) => if todo == {} then Unlock(t) else var s :| s in todo; Snap(t, s)
    case FanOut(rest) => if rest == [] then Finish(t) else Promote(t)
    case Holding(_, _) => PostTo(t)
    case Posted(_, _) => Drop(t)
    case InDtor(_, _) => ThreadLeave(t)
  }

  // In every reachable state a broadcaster can go on, or waits for another one that can: nobody
  // runs a destructor, or asks for the mutex again, while holding it.
  lemma NoDeadlock(run: seq<State>, steps: seq<Step>, i: nat, t: Tid)
    requires IsRun(run, steps) && i < |run| && t in run[i].threads && !run[i].threads[t].pc.Idle?
    ensures var st := run[i];
      || Enabled(st, NextStep(st, t))
      || (st.mutex.Some? && st.mutex.value != t && st.mutex.value in st.threads
          && !st.threads[st.mutex.value].pc.Idle? && Enabled(st, NextStep(st, st.mutex.value)))
  {
    RunKeepsInv(run, steps, i);
    var st := run[i];
    hide RefsInv, SentInv, ThreadsInv, Promoters;
    OwnStep(st, if st.mutex.Some? then st.mutex.value else t);
  }

  // ---- a fan-out ends ----

  // Steps a thread can still take before its broadcast is over.
  function TurnsLeft(pc: Pc): nat {
    match pc
    case FanOut(rest) => 1 + 4 * |rest|
    case Holding(_, rest) => 4 + 4 * |rest|
    case Posted(_, rest) => 3 + 4 * |rest|
    case InDtor(_, rest) => 2 + 4 * |rest|
    case _ => 0
  }

  // Steps of thread t among those from i to j.
  function StepsOf(steps: seq<Step>, t: Tid, i: nat, j: nat): nat
    requires i <= j <= |steps|
    decreases j
  {
    if i == j then 0 else StepsOf(steps, t, i, j - 1) + Bit(IsStepOf(steps[j - 1], t))
  }

  predicate IsStepOf(step: Step, t: Tid) { !StrandStep(step) && !step.New? && step.t == t }

  predicate FanningOut(pc: Pc) { pc.FanOut? || pc.Holding? || pc.Posted? || pc.InDtor? }

  lemma OthersLeaveThread(st: State, step: Step, t: Tid)
    requires Enabled(st, step) && t in st.threads && !IsStepOf(step, t)
    ensures t in Do(st, step).threads && Do(st, step).threads[t] == st.threads[t]
  {
  }

  // One of its own steps: on with the fan-out, out of it, or another broadcast.
  lemma OwnStepDescends(st: State, step: Step, t: Tid)
    requires Enabled(st, step) && IsStepOf(step, t) && t in st.threads
    ensures t in Do(st, step).threads
    ensures var th, th' := st.threads[t], Do(st, step).threads[t];
      && th'.started >= th.started
      && (FanningOut(th.pc) ==>
            && th'.started == th.started && (FanningOut(th'.pc) || th'.pc.Idle?)
            && TurnsLeft(th'.pc) < TurnsLeft(th.pc))
      && (th.pc.Idle? ==> th'.started > th.started)
  {
    hide StrandEnabled, DoStrand;
  }

  // Once its snapshot is taken, a broadcast ends within so many steps of its own thread, however
  // the others interleave and however many sessions die on it. Until the thread starts another
  // broadcast, the steps it has taken and those left never exceed the bound.
  lemma {:induction false} FanOutEnds(run: seq<State>, steps: seq<Step>, i: nat, j: nat, t: Tid)
    requires IsRun(run, steps) && i <= j < |run| && t in run[i].threads && FanningOut(run[i].threads[t].pc)
    ensures t in run[j].threads && run[j].threads[t].started >= run[i].threads[t].started
    ensures run[j].threads[t].started == run[i].threads[t].started ==>
      && (FanningOut(run[j].threads[t].pc) || run[j].threads[t].pc.Idle?)
      && StepsOf(steps, t, i, j) + TurnsLeft(run[j].threads[t].pc) <= TurnsLeft(run[i].threads[t].pc)
    decreases j
  {
    hide Do, Enabled, TurnsLeft, FanningOut, IsStepOf;
    if i < j {
      FanOutEnds(run, steps, i, j - 1, t);
      assert Enabled(run[j - 1], steps[j - 1]) && run[j] == Do(run[j - 1], steps[j - 1]);
      if IsStepOf(steps[j - 1], t) {
        OwnStepDescends(run[j - 1], steps[j - 1], t);
      } else {
        OthersLeaveThread(run[j - 1], steps[j - 1], t);
      }
    }
  }

  // Right after the unlock that bound is four steps for each session of the snapshot, and one.
  lemma FanOutStarts(run: seq<State>, steps: seq<Step>, i: nat)
    requires IsRun(run, steps) && i < |steps| && steps[i].Unlock?
    ensures var t := steps[i].t;
      && t in run[i + 1].threads && FanningOut(run[i + 1].threads[t].pc)
      && TurnsLeft(run[i + 1].threads[t].pc) == 1 + 4 * |run[i].members|
  {
    assert Enabled(run[i], steps[i]) && run[i + 1] == Do(run[i], steps[i]);
    RunKeepsInv(run, steps, i);
    var t := steps[i].t;
    hide IsRun, RefsInv, MembersInv, SentInv, MutexInv, ThreadsInv;
    ThreadAt(run[i], t);
    CountElems(run[i].threads[t].pc.taken);
  }

  lemma {:induction false} CountElems(v: seq<Sid>)
    requires NoDup(v)
    ensures |Elems(v)| == |v|
  {
    if v != [] {
      var n := |v| - 1;
      CountElems(v[..n]);
      assert Elems(v) == Elems(v[..n]) + {v[n]};
      assert v[n] !in v[..n];
    }
  }

  // Away from the mutex a broadcaster never waits.
  lemma OwnStep(st: State, t: Tid)
    requires RefsInv(st) && ThreadsInv(st) && t in st.threads && !st.threads[t].pc.Idle?
    requires st.threads[t].pc.Wanting? || st.threads[t].pc.InDtor? ==> st.mutex.None?
    ensures Enabled(st, NextStep(st, t))
  {
    hide RefsInv, Promoters, ThreadsInv, StrandEnabled;
    PcKnown(st, t);
    match st.threads[t].pc {
      case Posted(s, _) => PromotedCounts(st, t, s);
      case _ =>
    }
  }

  // Every session a position speaks of exists.
  lemma PcKnown(st: State, t: Tid)
    requires ThreadsInv(st) && t in st.threads
    ensures var pc := st.threads[t].pc;
      && (pc.FanOut? && pc.rest != [] ==> pc.rest[0] in st.sessions)
      && (pc.Holding? || pc.Posted? || pc.InDtor? ==> pc.s in st.sessions)
  {
    var th := st.threads[t];
    hide ThreadsInv;
    ThreadAt(st, t);
    if (th.pc.FanOut? && th.pc.rest != []) || th.pc.Holding? {
      assert Rest(th.pc)[0] in st.snaps[Current(t, th)];
      SnapsKnown(st, Current(t, th));
    }
  }

  lemma SnapsKnown(st: State, m: Msg)
    requires ThreadsInv(st) && m in st.snaps
    ensures st.snaps[m] <= st.sessions.Keys
  {
  }

  lemma PromotedCounts(st: State, t: Tid, s: Sid)
    requires RefsInv(st) && t in st.threads && s in st.sessions && Promoting(st.threads[t].pc, s)
    ensures st.sessions[s].strong > 0
  {
    PromotedIsAlive(st, t, s);
    assert SessionOk(st.sessions[s], |Promoters(st.threads, s)|);
  }
}
