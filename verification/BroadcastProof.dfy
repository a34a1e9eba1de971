// Every step of the broadcast system keeps its invariant, and what follows for whole runs.
module BroadcastProof {
  import opened Common
  import opened SessionModel
  import opened Broadcast

  // ---- counting promoted pointers ----

  lemma SamePromoters(a: map<Tid, Thread>, b: map<Tid, Thread>, s: Sid)
    requires a.Keys == b.Keys
    requires forall t :: t in a ==> (Promoting(a[t].pc, s) <==> Promoting(b[t].pc, s))
    ensures Promoters(a, s) == Promoters(b, s)
  {
  }

  // Setting one thread's position changes the count by that thread alone.
  lemma PromotersAfter(a: map<Tid, Thread>, t: Tid, th: Thread, s: Sid)
    requires t in a
    ensures |Promoters(a[t := th], s)| + Bit(Promoting(a[t].pc, s)) == |Promoters(a, s)| + Bit(Promoting(th.pc, s))
  {
    var p, q := Promoters(a, s), Promoters(a[t := th], s);
    if Promoting(a[t].pc, s) && !Promoting(th.pc, s) {
      assert q == p - {t};
    } else if !Promoting(a[t].pc, s) && Promoting(th.pc, s) {
      assert q == p + {t};
    } else {
      assert q == p;
    }
  }

  // ---- frames: what keeps each part of the invariant ----

  lemma MutexFrame(a: State, b: State)
    requires MutexInv(a)
    requires b.threads.Keys == a.threads.Keys && b.mutex == a.mutex
    requires forall t :: t in a.threads ==> (a.threads[t].pc.Snapping? <==> b.threads[t].pc.Snapping?)
    ensures MutexInv(b)
  {
  }

  lemma RefsFrame(a: State, b: State, s: Sid)
    requires RefsInv(a)
    requires s in b.sessions && b.sessions.Keys == a.sessions.Keys + {s}
    requires b.threads.Keys == a.threads.Keys
    requires forall r :: r in a.sessions && r != s ==>
      && b.sessions[r] == a.sessions[r]
      && forall t :: t in a.threads ==> (Promoting(a.threads[t].pc, r) <==> Promoting(b.threads[t].pc, r))
    requires SessionOk(b.sessions[s], |Promoters(b.threads, s)|)
    ensures RefsInv(b)
  {
    forall r | r in b.sessions ensures SessionOk(b.sessions[r], |Promoters(b.threads, r)|) {
      if r != s { SamePromoters(a.threads, b.threads, r); }
    }
  }

  // Outside `ts` threads stand still, and nobody's snapshot loop is disturbed: membership is
  // the same or nobody is in that loop.
  ghost predicate ThreadView(a: State, b: State, ts: set<Tid>) {
    && b.threads.Keys == a.threads.Keys
    && (forall u :: u in a.threads && u !in ts ==>
          && b.threads[u] == a.threads[u] && (a.threads[u].pc.Snapping? ==> b.members == a.members))
    && b.snaps == a.snaps
    && a.sessions.Keys <= b.sessions.Keys
    && forall r, u :: r in a.sessions && u !in ts && a.sessions[r].life == Dying(Some(u)) ==>
          b.sessions[r].life == a.sessions[r].life
  }

  lemma ThreadsFrame(a: State, b: State, ts: set<Tid>)
    requires ThreadsInv(a) && ThreadView(a, b, ts)
    requires forall t :: t in ts && t in b.threads ==>
      ThreadOk(b, t, b.threads[t]) && b.threads[t].started >= a.threads[t].started
    ensures ThreadsInv(b)
  {
    forall u | u in b.threads ensures ThreadOk(b, u, b.threads[u]) {
      if u !in ts { assert ThreadOk(a, u, a.threads[u]); }
    }
  }

  // The histories are the same and so is what each broadcast has still to post.
  ghost predicate SentView(a: State, b: State) {
    && b.sessions.Keys == a.sessions.Keys && b.threads.Keys == a.threads.Keys
    && b.snaps == a.snaps && b.missed == a.missed
    && (forall s :: s in a.sessions ==>
          b.sessions[s].sent == a.sessions[s].sent && (b.sessions[s].life.Alive? ==> a.sessions[s].life.Alive?))
    && (forall m :: m in a.snaps && m.origin in a.threads ==>
          RestOf(b.threads[m.origin], m) == RestOf(a.threads[m.origin], m))
  }

  lemma SentFrame(a: State, b: State)
    requires SentInv(a) && SentView(a, b)
    ensures SentInv(b)
  {
    forall s | s in b.sessions ensures SentOk(b, s, b.sessions[s]) {
      assert SentOk(a, s, a.sessions[s]);
    }
    forall m, s | (m, s) in b.missed ensures MissedOk(b, m, s) {
      assert MissedOk(a, m, s);
    }
  }

  // ---- steps of one strand ----

  ghost predicate LifeGoesOn(a: Session, b: Session) {
    b.life == a.life || (a.life.Alive? && b.life.Dying?)
  }

  // A step that touches one session and neither its membership nor its history.
  lemma StrandUpdateKeeps(st: State, s: Sid, x: Session)
    requires Inv(st) && s in st.sessions
    requires SessionOk(x, |Promoters(st.threads, s)|)
    requires x.sent == st.sessions[s].sent && x.joined == st.sessions[s].joined
    requires LifeGoesOn(st.sessions[s], x)
    ensures Inv(SetSession(st, s, x))
  {
    var b := SetSession(st, s, x);
    hide MutexInv, RefsInv, ThreadsInv, SentInv, SessionOk, Promoters;
    assert MembersInv(b);
    MutexFrame(st, b);
    RefsFrame(st, b, s);
    ThreadsFrame(st, b, {});
    SentFrame(st, b);
  }

  predicate HandlerStep(step: Step) { StrandStep(step) && !step.JoinMembers? && !step.StrandLeave? }

  lemma HandlerKeepsSession(st: State, step: Step, n: nat)
    requires HandlerStep(step) && step.s in st.sessions && StrandEnabled(st, st.sessions[step.s], step)
    requires SessionOk(st.sessions[step.s], n)
    ensures var x, y := st.sessions[step.s], DoStrand(st, step).sessions[step.s];
      && SessionOk(y, n) && y.sent == x.sent && y.joined == x.joined && LifeGoesOn(x, y)
      && DoStrand(st, step) == SetSession(st, step.s, y)
  {
    hide SessionOk;
    var x := st.sessions[step.s];
    ReaderStepsKeep(x, (step.AcceptDone? || step.ReadDone?) && step.ok, n);
    match step {
      case RunSend(_) => OnSendKeeps(x, n);
      case WriteDone(_, ok) => OnWriteKeeps(x, ok, n);
      case _ =>
    }
  }

  lemma StrandStepKeeps(st: State, step: Step)
    requires Inv(st) && Enabled(st, step) && HandlerStep(step)
    ensures Inv(Do(st, step))
  {
    hide MutexInv, MembersInv, ThreadsInv, SentInv, SessionOk, DoStrand, StrandEnabled, LifeGoesOn, Promoters;
    var n := |Promoters(st.threads, step.s)|;
    assert SessionOk(st.sessions[step.s], n);
    HandlerKeepsSession(st, step, n);
    hide Inv, RefsInv;
    StrandUpdateKeeps(st, step.s, Do(st, step).sessions[step.s]);
  }

  // ---- steps that change membership ----

  // A session nobody has heard of is promoted by nobody.
  lemma NobodyPromotesNew(st: State, s: Sid)
    requires ThreadsInv(st) && s !in st.sessions
    ensures Promoters(st.threads, s) == {}
  {
    forall t | t in st.threads ensures !Promoting(st.threads[t].pc, s) {
      var th := st.threads[t];
      assert ThreadOk(st, t, th);
      assert th.pc.Holding? ==> Rest(th.pc)[0] == th.pc.s;
    }
  }

  lemma FreshOk()
    ensures SessionOk(Fresh(), 0)
  {
  }

  lemma FreshCounts(st: State, s: Sid)
    requires ThreadsInv(st) && s !in st.sessions
    ensures SessionOk(Fresh(), |Promoters(st.threads, s)|)
  {
    hide ThreadsInv, SessionOk, Promoters, Fresh;
    NobodyPromotesNew(st, s);
    FreshOk();
  }

  lemma NewKeepsParts(st: State, s: Sid)
    requires MutexInv(st) && MembersInv(st) && s !in st.sessions
    ensures MutexInv(SetSession(st, s, Fresh())) && MembersInv(SetSession(st, s, Fresh()))
  {
  }

  lemma NewKeepsRefs(st: State, s: Sid)
    requires ThreadsInv(st) && RefsInv(st) && s !in st.sessions
    ensures RefsInv(SetSession(st, s, Fresh()))
  {
    hide ThreadsInv, RefsInv, SessionOk, Promoters, Fresh, Promoting;
    FreshCounts(st, s);
    RefsFrame(st, SetSession(st, s, Fresh()), s);
  }

  lemma NewKeepsThreads(st: State, s: Sid)
    requires ThreadsInv(st) && s !in st.sessions
    ensures ThreadsInv(SetSession(st, s, Fresh()))
  {
    hide ThreadsInv, Fresh;
    ThreadsFrame(st, SetSession(st, s, Fresh()), {});
  }

  lemma NewKeeps(st: State, s: Sid)
    requires Inv(st) && s !in st.sessions
    ensures Inv(Do(st, New(s)))
  {
    hide MutexInv, MembersInv, ThreadsInv, RefsInv, SentInv;
    assert Do(st, New(s)) == SetSession(st, s, Fresh());
    hide Do, SetSession;
    NewKeepsParts(st, s);
    NewKeepsRefs(st, s);
    NewKeepsThreads(st, s);
    NewKeepsSent(st, s);
  }

  lemma NewKeepsSent(st: State, s: Sid)
    requires SentInv(st) && ThreadsInv(st) && s !in st.sessions
    ensures SentInv(Do(st, New(s)))
  {
    var b := Do(st, New(s));
    forall r | r in b.sessions ensures SentOk(b, r, b.sessions[r]) {
      if r != s { assert SentOk(st, r, st.sessions[r]); }
    }
    forall m, r | (m, r) in b.missed ensures MissedOk(b, m, r) {
      assert MissedOk(st, m, r);
    }
  }

  lemma NobodySnapping(st: State)
    requires MutexInv(st) && st.mutex.None?
    ensures forall t :: t in st.threads ==> !st.threads[t].pc.Snapping?
  {
  }

  // Membership changes only while no thread is inside its locked loop.
  lemma MembershipKeeps(st: State, s: Sid, x: Session, members: set<Sid>)
    requires Inv(st) && s in st.sessions && st.mutex.None?
    requires members == if x.joined && !x.life.Gone? then st.members + {s} else st.members - {s}
    requires SessionOk(x, |Promoters(st.threads, s)|)
    requires x.sent == st.sessions[s].sent
    requires x.life == st.sessions[s].life || (st.sessions[s].life == Dying(None) && x.life.Gone?)
    ensures Inv(SetSession(st, s, x).(members := members))
  {
    var b := SetSession(st, s, x).(members := members);
    hide MutexInv, ThreadsInv, RefsInv, SentInv, SessionOk, Promoters;
    NobodySnapping(st);
    MutexFrame(st, b);
    assert MembersInv(b);
    RefsFrame(st, b, s);
    ThreadsFrame(st, b, {});
    SentFrame(st, b);
  }

  lemma JoinAndLeaveKeep(st: State, step: Step)
    requires Inv(st) && Enabled(st, step) && (step.JoinMembers? || step.StrandLeave?)
    ensures Inv(Do(st, step))
  {
    hide MutexInv, MembersInv, ThreadsInv, SentInv;
    var x := st.sessions[step.s];
    assert SessionOk(x, |Promoters(st.threads, step.s)|);
    hide Inv, RefsInv;
    if step.JoinMembers? {
      MembershipKeeps(st, step.s, OnJoin(x), st.members + {step.s});
    } else {
      MembershipKeeps(st, step.s, x.(life := Gone), st.members - {step.s});
    }
  }

  // ---- steps of a broadcaster ----

  // A thread moves, sessions do not, and it neither holds a pointer nor has posts to make.
  lemma MoveKeeps(st: State, t: Tid, th: Thread, mutex: Option<Tid>)
    requires Inv(st) && t in st.threads
    requires th.started == st.threads[t].started || th.started == st.threads[t].started + 1
    requires Rest(st.threads[t].pc) == Rest(th.pc) == []
    requires !th.pc.Holding? && !th.pc.Posted? && !st.threads[t].pc.Holding? && !st.threads[t].pc.Posted?
    requires var b := st.(threads := st.threads[t := th], mutex := mutex); MutexInv(b) && ThreadOk(b, t, th)
    ensures Inv(st.(threads := st.threads[t := th], mutex := mutex))
  {
    hide MutexInv, MembersInv, RefsInv, ThreadsInv, ThreadOk, SentInv;
    var b := st.(threads := st.threads[t := th], mutex := mutex);
    SameSessions(st, b);
    ThreadsFrame(st, b, {t});
    SentFrame(st, b);
  }

  lemma SameSessions(a: State, b: State)
    requires MembersInv(a) && RefsInv(a) && b.sessions == a.sessions && b.members == a.members
    requires b.threads.Keys == a.threads.Keys
    requires forall t, s :: t in a.threads ==> (Promoting(a.threads[t].pc, s) <==> Promoting(b.threads[t].pc, s))
    ensures MembersInv(b) && RefsInv(b)
  {
    hide SessionOk;
    forall s | s in b.sessions ensures SessionOk(b.sessions[s], |Promoters(b.threads, s)|) {
      SamePromoters(a.threads, b.threads, s);
    }
  }

  // Everything before and after the fan-out loop but the unlock.
  predicate MoveStep(step: Step) { step.Start? || step.Lock? || step.Snap? || step.Finish? }

  lemma MoveStepIs(st: State, step: Step)
    requires MoveStep(step) && Enabled(st, step)
    ensures step.t in st.threads && step.t in Do(st, step).threads
    ensures var th, th' := st.threads[step.t], Do(st, step).threads[step.t];
      && Do(st, step) == st.(threads := st.threads[step.t := th'], mutex := Do(st, step).mutex)
      && (th'.started == th.started || th'.started == th.started + 1)
      && Rest(th.pc) == Rest(th'.pc) == []
      && !th'.pc.Holding? && !th'.pc.Posted? && !th.pc.Holding? && !th.pc.Posted?
  {
    hide StrandEnabled, DoStrand;
  }

  lemma MoveStepKeepsMutex(st: State, step: Step)
    requires MoveStep(step) && Enabled(st, step) && MutexInv(st)
    ensures MutexInv(Do(st, step))
  {
    hide StrandEnabled, DoStrand;
  }

  lemma MoveStepKeepsThread(st: State, step: Step)
    requires MoveStep(step) && Enabled(st, step) && ThreadsInv(st)
    ensures var b := Do(st, step); ThreadOk(b, step.t, b.threads[step.t])
  {
    hide StrandEnabled, DoStrand;
    assert ThreadOk(st, step.t, st.threads[step.t]);
    assert Elems<Sid>([]) == {};
    if step.Snap? {
      assert Elems(st.threads[step.t].pc.taken + [step.s]) == Elems(st.threads[step.t].pc.taken) + {step.s};
    }
  }

  lemma MoveStepKeeps(st: State, step: Step)
    requires Inv(st) && MoveStep(step) && Enabled(st, step)
    ensures Inv(Do(st, step))
  {
    hide MutexInv, MembersInv, RefsInv, ThreadsInv, ThreadOk, SentInv, Do, Enabled;
    MoveStepIs(st, step);
    MoveStepKeepsMutex(st, step);
    MoveStepKeepsThread(st, step);
    hide Inv;
    MoveKeeps(st, step.t, Do(st, step).threads[step.t], Do(st, step).mutex);
  }

  // The snapshot is published: nothing was posted of it yet, everything is still to post.
  lemma UnlockKeeps(st: State, t: Tid)
    requires Inv(st) && Enabled(st, Unlock(t))
    ensures Inv(Do(st, Unlock(t)))
  {
    hide MutexInv, MembersInv, RefsInv, ThreadsInv, SentInv, ThreadOk, Do, Enabled;
    UnlockKeepsLocks(st, t);
    UnlockKeepsThreads(st, t);
    UnlockKeepsSent(st, t);
    UnlockKeepsRefs(st, t);
  }

  lemma UnlockKeepsLocks(st: State, t: Tid)
    requires MutexInv(st) && MembersInv(st) && ThreadsInv(st) && Enabled(st, Unlock(t))
    ensures MutexInv(Do(st, Unlock(t))) && MembersInv(Do(st, Unlock(t)))
    ensures Current(t, st.threads[t]) !in st.snaps
  {
    hide StrandEnabled, DoStrand;
    assert ThreadOk(st, t, st.threads[t]);
  }

  lemma UnlockKeepsRefs(st: State, t: Tid)
    requires RefsInv(st) && Enabled(st, Unlock(t))
    ensures RefsInv(Do(st, Unlock(t)))
  {
    hide StrandEnabled, DoStrand;
    var b := Do(st, Unlock(t));
    forall s | s in b.sessions ensures SessionOk(b.sessions[s], |Promoters(b.threads, s)|) {
      SamePromoters(st.threads, b.threads, s);
    }
  }

  lemma UnlockKeepsThreads(st: State, t: Tid)
    requires ThreadsInv(st) && MembersInv(st) && Enabled(st, Unlock(t))
    ensures ThreadsInv(Do(st, Unlock(t)))
  {
    hide StrandEnabled, DoStrand;
    var b := Do(st, Unlock(t));
    assert ThreadOk(st, t, st.threads[t]);
    forall u | u in b.threads ensures ThreadOk(b, u, b.threads[u]) {
      assert ThreadOk(st, u, st.threads[u]);
    }
  }

  lemma UnlockKeepsSent(st: State, t: Tid)
    requires SentInv(st) && Enabled(st, Unlock(t)) && Current(t, st.threads[t]) !in st.snaps
    ensures SentInv(Do(st, Unlock(t)))
  {
    hide StrandEnabled, DoStrand;
    var b := Do(st, Unlock(t));
    var m := Current(t, st.threads[t]);
    forall s | s in b.sessions ensures SentOk(b, s, b.sessions[s]) {
      assert SentOk(st, s, st.sessions[s]);
      assert m !in st.sessions[s].sent;
    }
    forall n, r | (n, r) in b.missed ensures MissedOk(b, n, r) {
      assert MissedOk(st, n, r);
    }
  }

  // ---- the fan-out loop ----

  // One turn of the loop at session s: thread t goes to `pc`, s to `x`, and either the message
  // is posted, or the weak pointer is found dead, or neither.
  ghost predicate Turn(st: State, t: Tid, pc: Pc, s: Sid, x: Session, missed: set<(Msg, Sid)>) {
    && t in st.threads && s in st.sessions
    && Current(t, st.threads[t]) in st.snaps && !st.threads[t].pc.Snapping? && !pc.Snapping?
    && var m, old', new' := Current(t, st.threads[t]), Rest(st.threads[t].pc), Rest(pc);
    && (if s in old' && s !in new' then
          || (x.sent == st.sessions[s].sent + [m] && missed == st.missed)
          || (x.sent == st.sessions[s].sent && missed == st.missed + {(m, s)} && !x.life.Alive?)
        else x.sent == st.sessions[s].sent && missed == st.missed && (s in new' ==> s in old'))
    && NoDup(new')
    && (forall r :: r != s ==> (r in new' <==> r in old'))
    && (forall r :: r != s ==> !Promoting(pc, r) && !Promoting(st.threads[t].pc, r))
    && (pc.Posted? || pc.InDtor? ==> pc.s == s)
    && (pc.InDtor? ==> x.life == Dying(Some(t)))
    && (pc.Holding? ==> pc.s == s)
    && !pc.Idle? && !pc.Wanting?
    && x.joined == st.sessions[s].joined
    && LifeGoesOn(st.sessions[s], x)
  }

  function AfterTurn(st: State, t: Tid, pc: Pc, s: Sid, x: Session, missed: set<(Msg, Sid)>): State
    requires t in st.threads
  {
    SetSession(SetPc(st, t, pc), s, x).(missed := missed)
  }

  // A thread's newest message goes behind all its earlier ones, and was not posted before.
  lemma OrderedGrows(st: State, s: Sid, t: Tid)
    requires ThreadsInv(st) && SentInv(st) && s in st.sessions && t in st.threads
    requires Current(t, st.threads[t]) in st.snaps && s in Rest(st.threads[t].pc)
    ensures Ordered(st.sessions[s].sent + [Current(t, st.threads[t])])
    ensures Current(t, st.threads[t]) !in st.sessions[s].sent
  {
    var m, sent := Current(t, st.threads[t]), st.sessions[s].sent;
    assert SentOk(st, s, st.sessions[s]);
    assert m !in sent;
    forall i | 0 <= i < |sent| && sent[i].origin == t ensures sent[i].serial < m.serial {
      assert sent[i] in st.snaps && sent[i] != m;
    }
  }

  lemma RestInSnapshot(st: State, t: Tid)
    requires ThreadsInv(st) && t in st.threads && Current(t, st.threads[t]) in st.snaps
    ensures forall s :: s in Rest(st.threads[t].pc) ==> s in st.snaps[Current(t, st.threads[t])]
  {
    assert ThreadOk(st, t, st.threads[t]);
  }

  lemma SentAt(st: State, s: Sid)
    requires SentInv(st) && s in st.sessions
    ensures SentOk(st, s, st.sessions[s])
  {
  }

  // A session the loop has still to reach was not missed by this broadcast.
  lemma NotMissedYet(st: State, t: Tid, s: Sid)
    requires SentInv(st) && t in st.threads && s in Rest(st.threads[t].pc)
    ensures (Current(t, st.threads[t]), s) !in st.missed
  {
    var m := Current(t, st.threads[t]);
    assert (m, s) in st.missed ==> MissedOk(st, m, s);
  }

  lemma TurnKeepsSentAt(st: State, t: Tid, pc: Pc, s: Sid, x: Session, missed: set<(Msg, Sid)>, r: Sid)
    requires ThreadsInv(st) && SentInv(st) && Turn(st, t, pc, s, x, missed) && r in st.sessions
    ensures var b := AfterTurn(st, t, pc, s, x, missed); SentOk(b, r, b.sessions[r])
  {
    hide ThreadsInv, SentInv, Ordered, NoDup, LifeGoesOn, Promoting;
    RestInSnapshot(st, t);
    SentAt(st, r);
    if r in Rest(st.threads[t].pc) { NotMissedYet(st, t, r); }
    if r == s && x.sent != st.sessions[s].sent { OrderedGrows(st, s, t); }
  }

  lemma TurnKeepsMissed(st: State, t: Tid, pc: Pc, s: Sid, x: Session, missed: set<(Msg, Sid)>, n: Msg, r: Sid)
    requires ThreadsInv(st) && SentInv(st) && Turn(st, t, pc, s, x, missed) && (n, r) in missed
    ensures MissedOk(AfterTurn(st, t, pc, s, x, missed), n, r)
  {
    if (n, r) in st.missed {
      hide ThreadsInv;
      assert MissedOk(st, n, r);
    } else {
      RestInSnapshot(st, t);
    }
  }

  lemma TurnKeepsSent(st: State, t: Tid, pc: Pc, s: Sid, x: Session, missed: set<(Msg, Sid)>)
    requires ThreadsInv(st) && SentInv(st) && Turn(st, t, pc, s, x, missed)
    ensures SentInv(AfterTurn(st, t, pc, s, x, missed))
  {
    var b := AfterTurn(st, t, pc, s, x, missed);
    assert b.sessions.Keys == st.sessions.Keys;
    hide ThreadsInv, SentOk, MissedOk;
    forall r | r in b.sessions ensures SentOk(b, r, b.sessions[r]) {
      TurnKeepsSentAt(st, t, pc, s, x, missed, r);
    }
    forall n, r | (n, r) in b.missed ensures MissedOk(b, n, r) {
      TurnKeepsMissed(st, t, pc, s, x, missed, n, r);
    }
  }

  lemma TurnKeeps(st: State, t: Tid, pc: Pc, s: Sid, x: Session, missed: set<(Msg, Sid)>)
    requires Inv(st) && Turn(st, t, pc, s, x, missed)
    requires SessionOk(x, |Promoters(st.threads[t := st.threads[t].(pc := pc)], s)|)
    ensures Inv(AfterTurn(st, t, pc, s, x, missed))
  {
    hide MutexInv, MembersInv, RefsInv, ThreadsInv, SentInv, Turn, SessionOk, AfterTurn;
    TurnKeepsMembership(st, t, pc, s, x, missed);
    TurnKeepsRefs(st, t, pc, s, x, missed);
    TurnKeepsThreads(st, t, pc, s, x, missed);
    TurnKeepsSent(st, t, pc, s, x, missed);
  }

  lemma TurnKeepsMembership(st: State, t: Tid, pc: Pc, s: Sid, x: Session, missed: set<(Msg, Sid)>)
    requires MutexInv(st) && MembersInv(st) && Turn(st, t, pc, s, x, missed)
    ensures MutexInv(AfterTurn(st, t, pc, s, x, missed)) && MembersInv(AfterTurn(st, t, pc, s, x, missed))
  {
  }

  lemma TurnKeepsRefs(st: State, t: Tid, pc: Pc, s: Sid, x: Session, missed: set<(Msg, Sid)>)
    requires RefsInv(st) && Turn(st, t, pc, s, x, missed)
    requires SessionOk(x, |Promoters(st.threads[t := st.threads[t].(pc := pc)], s)|)
    ensures RefsInv(AfterTurn(st, t, pc, s, x, missed))
  {
    hide SessionOk, RefsInv, Promoters;
    RefsFrame(st, AfterTurn(st, t, pc, s, x, missed), s);
  }

  lemma TurnKeepsThreads(st: State, t: Tid, pc: Pc, s: Sid, x: Session, missed: set<(Msg, Sid)>)
    requires ThreadsInv(st) && Turn(st, t, pc, s, x, missed)
    ensures ThreadsInv(AfterTurn(st, t, pc, s, x, missed))
  {
    var b := AfterTurn(st, t, pc, s, x, missed);
    assert ThreadOk(st, t, st.threads[t]);
    assert ThreadOk(b, t, b.threads[t]);
    hide ThreadsInv, ThreadOk;
    ThreadsFrame(st, b, {t});
  }

  // A promoted pointer is evidence of life.
  lemma PromotedIsAlive(st: State, t: Tid, s: Sid)
    requires RefsInv(st) && t in st.threads && s in st.sessions && Promoting(st.threads[t].pc, s)
    ensures st.sessions[s].life.Alive? && |Promoters(st.threads, s)| > 0
  {
    assert t in Promoters(st.threads, s);
    assert SessionOk(st.sessions[s], |Promoters(st.threads, s)|);
  }

  // The session the current turn of a fan-out loop is about.
  function Touched(pc: Pc): Sid
    requires (pc.FanOut? && pc.rest != []) || pc.Holding? || pc.Posted?
  {
    if pc.FanOut? then pc.rest[0] else pc.s
  }

  predicate TurnStep(step: Step) { step.Promote? || step.PostTo? || step.Drop? }

  ghost predicate IsTurn(st: State, step: Step)
    requires TurnStep(step) && Enabled(st, step)
  {
    var s, b := Touched(st.threads[step.t].pc), Do(st, step);
    && Turn(st, step.t, b.threads[step.t].pc, s, b.sessions[s], b.missed)
    && b == AfterTurn(st, step.t, b.threads[step.t].pc, s, b.sessions[s], b.missed)
  }

  lemma PromoteIsTurn(st: State, t: Tid)
    requires Enabled(st, Promote(t)) && ThreadOk(st, t, st.threads[t])
    ensures IsTurn(st, Promote(t))
  {
    hide StrandEnabled, DoStrand;
    var rest := st.threads[t].pc.rest;
    assert rest == [rest[0]] + rest[1..];
  }

  lemma PostToIsTurn(st: State, t: Tid)
    requires Enabled(st, PostTo(t)) && ThreadOk(st, t, st.threads[t])
    ensures IsTurn(st, PostTo(t))
  {
    hide StrandEnabled, DoStrand;
    var pc := st.threads[t].pc;
    assert Rest(pc)[0] == pc.s && Rest(pc)[1..] == pc.rest;
  }

  lemma DropIsTurn(st: State, t: Tid)
    requires Enabled(st, Drop(t)) && ThreadOk(st, t, st.threads[t]) && st.sessions[st.threads[t].pc.s].life.Alive?
    ensures IsTurn(st, Drop(t))
  {
    hide StrandEnabled, DoStrand;
  }

  // The use count still counts exactly the pending handlers and the promoted pointers.
  lemma TurnCounts(st: State, step: Step)
    requires RefsInv(st) && TurnStep(step) && Enabled(st, step)
    ensures var s, b := Touched(st.threads[step.t].pc), Do(st, step);
      SessionOk(b.sessions[s], |Promoters(b.threads, s)|)
  {
    hide RefsInv, SessionOk, Promoters, StrandEnabled, DoStrand;
    var t := step.t;
    var s, b := Touched(st.threads[t].pc), Do(st, step);
    assert b.threads == st.threads[t := b.threads[t]];
    PromotersAfter(st.threads, t, b.threads[t], s);
    var x, n := st.sessions[s], |Promoters(st.threads, s)|;
    CountsAt(st, s);
    AliveCounts(x, n);
    if !step.Promote? { PromotedIsAlive(st, t, s); }
    if step.PostTo? { PostKeeps(x, Current(t, st.threads[t]), n); }
    PointerKeeps(x, Some(t), n);
  }

  lemma AliveCounts(x: Session, n: nat)
    requires SessionOk(x, n)
    ensures x.life.Alive? <==> x.strong > 0
  {
  }

  lemma TurnStepIsTurn(st: State, step: Step)
    requires RefsInv(st) && ThreadsInv(st) && TurnStep(step) && Enabled(st, step)
    ensures IsTurn(st, step)
  {
    var t := step.t;
    hide RefsInv, ThreadsInv, ThreadOk, IsTurn, Do, StrandEnabled;
    ThreadAt(st, t);
    match step {
      case Promote(_) => PromoteIsTurn(st, t);
      case PostTo(_) => PostToIsTurn(st, t);
      case Drop(_) => PromotedIsAlive(st, t, st.threads[t].pc.s); DropIsTurn(st, t);
    }
  }

  lemma TurnStepKeeps(st: State, step: Step)
    requires Inv(st) && TurnStep(step) && Enabled(st, step)
    ensures Inv(Do(st, step))
  {
    var t := step.t;
    hide MutexInv, MembersInv, SentInv, RefsInv, ThreadsInv, SessionOk, Turn, Do, Enabled, Promoters;
    TurnStepIsTurn(st, step);
    TurnCounts(st, step);
    var s, b := Touched(st.threads[t].pc), Do(st, step);
    hide Inv;
    TurnKeeps(st, t, b.threads[t].pc, s, b.sessions[s], b.missed);
  }

  lemma ThreadAt(st: State, t: Tid)
    requires ThreadsInv(st) && t in st.threads
    ensures ThreadOk(st, t, st.threads[t])
  {
  }

  // The destructor a broadcaster runs: first `leave`, then on with its loop.
  lemma ThreadLeaveKeeps(st: State, t: Tid)
    requires Inv(st) && Enabled(st, ThreadLeave(t))
    ensures Inv(Do(st, ThreadLeave(t)))
  {
    hide MutexInv, MembersInv, RefsInv, ThreadsInv, SentInv, ThreadOk;
    NobodySnapping(st);
    LeaverIsDead(st, t);
    hide Do;
    LeaveKeepsMutex(st, t);
    LeaveKeepsSent(st, t);
    LeaveKeepsRefs(st, t);
    LeaveKeepsMembers(st, t);
    LeaveKeepsThreads(st, t);
  }

  lemma LeaverIsDead(st: State, t: Tid)
    requires ThreadsInv(st) && t in st.threads && st.threads[t].pc.InDtor?
    ensures st.threads[t].pc.s in st.sessions && !st.sessions[st.threads[t].pc.s].life.Alive?
  {
    assert ThreadOk(st, t, st.threads[t]);
  }

  lemma LeaveKeepsMutex(st: State, t: Tid)
    requires MutexInv(st) && Enabled(st, ThreadLeave(t))
    ensures MutexInv(Do(st, ThreadLeave(t)))
  {
    hide MutexInv, StrandEnabled, DoStrand;
    MutexFrame(st, Do(st, ThreadLeave(t)));
  }

  lemma LeaveKeepsSent(st: State, t: Tid)
    requires SentInv(st) && Enabled(st, ThreadLeave(t))
    ensures SentInv(Do(st, ThreadLeave(t)))
  {
    hide SentInv, StrandEnabled, DoStrand;
    SentFrame(st, Do(st, ThreadLeave(t)));
  }

  lemma LeaveKeepsThreads(st: State, t: Tid)
    requires ThreadsInv(st) && Enabled(st, ThreadLeave(t))
    requires forall u :: u in st.threads ==> !st.threads[u].pc.Snapping?
    ensures ThreadsInv(Do(st, ThreadLeave(t)))
  {
    hide StrandEnabled, DoStrand;
    var b := Do(st, ThreadLeave(t));
    assert ThreadOk(st, t, st.threads[t]);
    assert ThreadOk(b, t, b.threads[t]);
    hide ThreadsInv, ThreadOk;
    ThreadsFrame(st, b, {t});
  }

  lemma LeaveKeepsRefs(st: State, t: Tid)
    requires RefsInv(st) && Enabled(st, ThreadLeave(t)) && !st.sessions[st.threads[t].pc.s].life.Alive?
    ensures RefsInv(Do(st, ThreadLeave(t)))
  {
    hide SessionOk, RefsInv, Promoters, StrandEnabled, DoStrand;
    var s, b := st.threads[t].pc.s, Do(st, ThreadLeave(t));
    SamePromoters(st.threads, b.threads, s);
    CountsAt(st, s);
    GoneOk(st.sessions[s], |Promoters(st.threads, s)|);
    RefsFrame(st, b, s);
  }

  lemma CountsAt(st: State, s: Sid)
    requires RefsInv(st) && s in st.sessions
    ensures SessionOk(st.sessions[s], |Promoters(st.threads, s)|)
  {
  }

  lemma GoneOk(x: Session, n: nat)
    requires SessionOk(x, n) && !x.life.Alive?
    ensures SessionOk(x.(life := Gone), n)
  {
  }

  lemma LeaveKeepsMembers(st: State, t: Tid)
    requires MembersInv(st) && Enabled(st, ThreadLeave(t))
    ensures MembersInv(Do(st, ThreadLeave(t)))
  {
    hide StrandEnabled, DoStrand;
  }

  // Every step, from any good state.
  lemma StepKeepsInv(st: State, step: Step)
    requires Inv(st) && Enabled(st, step)
    ensures Inv(Do(st, step))
  {
    hide Inv, Do;
    match step {
      case New(s) => NewKeeps(st, s);
      case JoinMembers(_) => JoinAndLeaveKeep(st, step);
      case StrandLeave(_) => JoinAndLeaveKeep(st, step);
      case Start(_) => MoveStepKeeps(st, step);
      case Lock(_) => MoveStepKeeps(st, step);
      case Snap(_, _) => MoveStepKeeps(st, step);
      case Unlock(t) => UnlockKeeps(st, t);
      case Promote(t) => TurnStepKeeps(st, step);
      case PostTo(t) => TurnStepKeeps(st, step);
      case Drop(t) => TurnStepKeeps(st, step);
      case ThreadLeave(t) => ThreadLeaveKeeps(st, t);
      case Finish(_) => MoveStepKeeps(st, step);
      case _ => StrandStepKeeps(st, step);
    }
  }

  lemma {:induction false} RunKeepsInv(run: seq<State>, steps: seq<Step>, i: nat)
    requires IsRun(run, steps) && i < |run|
    ensures Inv(run[i])
  {
    if i > 0 {
      RunKeepsInv(run, steps, i - 1);
      assert Enabled(run[i - 1], steps[i - 1]);
      StepKeepsInv(run[i - 1], steps[i - 1]);
    }
  }
}
