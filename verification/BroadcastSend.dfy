// A call of SharedState::send gets out: what a thread that nobody disturbs does with it.
module BroadcastSend {
  import opened Common
  import opened SessionModel
  import opened Broadcast
  import opened BroadcastProof
  import opened BroadcastResults

  ghost function OwnNext(st: State, t: Tid): Step
    requires t in st.threads
  {
    if st.threads[t].pc.Idle? then Start(t) else NextStep(st, t)
  }

  // n steps of thread t alone; it stands still where it cannot move.
  ghost function Alone(st: State, t: Tid, n: nat): State
    decreases n
  {
    if n == 0 || t !in st.threads || !Enabled(st, OwnNext(st, t)) then st
    else Alone(Do(st, OwnNext(st, t)), t, n - 1)
  }

  lemma {:induction false} AloneAdds(st: State, t: Tid, a: nat, b: nat)
    ensures Alone(st, t, a + b) == Alone(Alone(st, t, a), t, b)
    decreases a
  {
    hide Enabled, Do, OwnNext;
    if a > 0 && t in st.threads && Enabled(st, OwnNext(st, t)) {
      AloneAdds(Do(st, OwnNext(st, t)), t, a - 1, b);
    }
  }

  lemma OneAlone(st: State, t: Tid)
    requires t in st.threads && Enabled(st, OwnNext(st, t))
    ensures Alone(st, t, 1) == Do(st, OwnNext(st, t))
  {
    hide Enabled, Do, OwnNext;
    assert Alone(Do(st, OwnNext(st, t)), t, 0) == Do(st, OwnNext(st, t));
  }

  lemma SnapOne(st: State, t: Tid) returns (s: Sid)
    requires t in st.threads && st.threads[t].pc.Snapping? && st.threads[t].pc.todo != {}
    ensures Enabled(st, OwnNext(st, t)) && s in st.threads[t].pc.todo
    ensures Do(st, OwnNext(st, t)) ==
      SetPc(st, t, Snapping(st.threads[t].pc.todo - {s}, st.threads[t].pc.taken + [s]))
  {
    hide StrandEnabled, DoStrand;
    s := OwnNext(st, t).s;
  }

  lemma SetPcIs(st: State, t: Tid, p: Pc, q: Pc)
    requires t in st.threads
    ensures t in SetPc(st, t, p).threads && SetPc(st, t, p).threads[t] == st.threads[t].(pc := p)
    ensures SetPc(SetPc(st, t, p), t, q) == SetPc(st, t, q)
    ensures SetPc(st, t, st.threads[t].pc) == st
  {
    assert SetPc(SetPc(st, t, p), t, q).threads == SetPc(st, t, q).threads;
    assert SetPc(st, t, st.threads[t].pc).threads == st.threads;
  }

  lemma TakeOne(todo: set<Sid>, taken: seq<Sid>, s: Sid)
    requires s in todo && NoDup(taken) && forall r :: r in taken ==> r !in todo
    ensures NoDup(taken + [s]) && Elems(taken + [s]) + (todo - {s}) == Elems(taken) + todo
    ensures forall r :: r in taken + [s] ==> r !in todo - {s}
    ensures |todo - {s}| == |todo| - 1
  {
    assert Elems(taken + [s]) == Elems(taken) + {s};
  }

  // The locked loop takes each pointer once.
  lemma {:induction false} SnapAll(st: State, t: Tid, todo: set<Sid>, from: seq<Sid>) returns (taken: seq<Sid>)
    requires t in st.threads && st.threads[t].pc == Snapping(todo, from)
    requires NoDup(from) && forall s :: s in from ==> s !in todo
    ensures Alone(st, t, |todo|) == SetPc(st, t, Snapping({}, taken))
    ensures NoDup(taken) && Elems(taken) == Elems(from) + todo
    decreases |todo|
  {
    hide Enabled, Do, OwnNext, SetPc, NoDup, Elems;
    if todo == {} {
      taken := from;
      SetPcIs(st, t, st.threads[t].pc, st.threads[t].pc);
      assert Elems(from) + {} == Elems(from);
    } else {
      var s := SnapOne(st, t);
      var b := Do(st, OwnNext(st, t));
      TakeOne(todo, from, s);
      SetPcIs(st, t, Snapping(todo - {s}, from + [s]), Snapping({}, []));
      taken := SnapAll(b, t, todo - {s}, from + [s]);
      SetPcIs(st, t, Snapping(todo - {s}, from + [s]), Snapping({}, taken));
    }
  }

  // What the fan-out leaves of each session: the post, where the pointer could be promoted.
  function AfterSend(x: Session, m: Msg): Session { if x.life.Alive? then Post(x, m) else x }

  // Thread t has moved to `rest`, the sessions in `done` have been served, the rest stands.
  ghost predicate Served(a: State, b: State, t: Tid, rest: seq<Sid>, done: seq<Sid>)
    requires t in a.threads
  {
    && b.threads == a.threads[t := a.threads[t].(pc := FanOut(rest))]
    && b.members == a.members && b.mutex == a.mutex && b.snaps == a.snaps
    && b.sessions.Keys == a.sessions.Keys
    && forall s :: s in a.sessions ==>
         b.sessions[s] == if s in done then AfterSend(a.sessions[s], Current(t, a.threads[t])) else a.sessions[s]
  }

  lemma DeadTurn(st: State, t: Tid)
    requires t in st.threads && st.threads[t].pc.FanOut? && st.threads[t].pc.rest != []
    requires st.threads[t].pc.rest[0] in st.sessions && !st.sessions[st.threads[t].pc.rest[0]].life.Alive?
    ensures var rest := st.threads[t].pc.rest; Served(st, Alone(st, t, 1), t, rest[1..], [rest[0]])
  {
    hide StrandEnabled, DoStrand;
    OneAlone(st, t);
  }

  lemma PromoteTurn(st: State, t: Tid)
    requires t in st.threads && st.threads[t].pc.FanOut? && st.threads[t].pc.rest != []
    requires st.threads[t].pc.rest[0] in st.sessions && st.sessions[st.threads[t].pc.rest[0]].life.Alive?
    ensures var s, rest := st.threads[t].pc.rest[0], st.threads[t].pc.rest[1..];
      Alone(st, t, 1) == SetSession(SetPc(st, t, Holding(s, rest)), s, LockWeak(st.sessions[s]))
  {
    hide StrandEnabled, DoStrand;
    OneAlone(st, t);
  }

  lemma PostTurn(st: State, t: Tid)
    requires t in st.threads && st.threads[t].pc.Holding? && st.threads[t].pc.s in st.sessions
    ensures var s, rest := st.threads[t].pc.s, st.threads[t].pc.rest;
      Alone(st, t, 1) == SetSession(SetPc(st, t, Posted(s, rest)), s, Post(st.sessions[s], Current(t, st.threads[t])))
  {
    hide StrandEnabled, DoStrand;
    OneAlone(st, t);
  }

  lemma DropTurn(st: State, t: Tid)
    requires t in st.threads && st.threads[t].pc.Posted? && st.threads[t].pc.s in st.sessions
    requires st.sessions[st.threads[t].pc.s].strong > 1 && st.sessions[st.threads[t].pc.s].life.Alive?
    ensures var s, rest := st.threads[t].pc.s, st.threads[t].pc.rest;
      Alone(st, t, 1) ==
        SetSession(SetPc(st, t, FanOut(rest)), s, st.sessions[s].(strong := st.sessions[s].strong - 1))
  {
    hide StrandEnabled, DoStrand;
    OneAlone(st, t);
  }

  lemma LiveTurn(st: State, t: Tid)
    requires t in st.threads && st.threads[t].pc.FanOut? && st.threads[t].pc.rest != []
    requires st.threads[t].pc.rest[0] in st.sessions
    requires var x := st.sessions[st.threads[t].pc.rest[0]]; x.life.Alive? && x.strong > 0
    ensures var rest := st.threads[t].pc.rest; Served(st, Alone(st, t, 3), t, rest[1..], [rest[0]])
  {
    hide Alone, Enabled, Do, Served;
    PromoteTurn(st, t);
    var a := Alone(st, t, 1);
    PostTurn(a, t);
    var b := Alone(a, t, 1);
    DropTurn(b, t);
    AloneAdds(st, t, 1, 1);
    AloneAdds(st, t, 2, 1);
    ThreeTurns(st, t, a, b, Alone(b, t, 1));
  }

  // Promoted, posted, dropped: together, served.
  lemma ThreeTurns(st: State, t: Tid, a: State, b: State, c: State)
    requires t in st.threads && st.threads[t].pc.FanOut? && st.threads[t].pc.rest != []
    requires st.threads[t].pc.rest[0] in st.sessions && st.sessions[st.threads[t].pc.rest[0]].life.Alive?
    requires var s, rest := st.threads[t].pc.rest[0], st.threads[t].pc.rest[1..];
      && a == SetSession(SetPc(st, t, Holding(s, rest)), s, LockWeak(st.sessions[s]))
      && b == SetSession(SetPc(a, t, Posted(s, rest)), s, Post(a.sessions[s], Current(t, a.threads[t])))
      && c == SetSession(SetPc(b, t, FanOut(rest)), s, b.sessions[s].(strong := b.sessions[s].strong - 1))
    ensures Served(st, c, t, st.threads[t].pc.rest[1..], [st.threads[t].pc.rest[0]])
  {
  }

  lemma ServedTwice(a: State, b: State, c: State, t: Tid, rest: seq<Sid>)
    requires t in a.threads && t in b.threads && rest != [] && NoDup(rest)
    requires Served(a, b, t, rest[1..], [rest[0]]) && Served(b, c, t, [], rest[1..])
    ensures Served(a, c, t, [], rest)
  {
    hide AfterSend;
    assert forall s :: s in rest <==> s == rest[0] || s in rest[1..];
    assert rest[0] !in rest[1..];
  }

  lemma {:induction false} FanAll(st: State, t: Tid) returns (n: nat)
    requires t in st.threads && st.threads[t].pc.FanOut? && NoDup(st.threads[t].pc.rest)
    requires forall s :: s in st.threads[t].pc.rest ==> s in st.sessions
    requires forall s :: s in st.sessions && st.sessions[s].life.Alive? ==> st.sessions[s].strong > 0
    ensures n <= 3 * |st.threads[t].pc.rest|
    ensures Served(st, Alone(st, t, n), t, [], st.threads[t].pc.rest)
    decreases |st.threads[t].pc.rest|
  {
    hide Enabled, Do, OwnNext, Alone, Served, NoDup;
    var rest := st.threads[t].pc.rest;
    if rest == [] {
      n := 0;
      NoneServed(st, t);
    } else {
      var k := if st.sessions[rest[0]].life.Alive? then 3 else 1;
      if k == 3 { LiveTurn(st, t); } else { DeadTurn(st, t); }
      var b := Alone(st, t, k);
      StillGood(st, b, t);
      var m := FanAll(b, t);
      n := k + m;
      AloneAdds(st, t, k, m);
      ServedTwice(st, b, Alone(b, t, m), t, rest);
    }
  }

  lemma NoneServed(st: State, t: Tid)
    requires t in st.threads && st.threads[t].pc == FanOut([])
    ensures Served(st, Alone(st, t, 0), t, [], [])
  {
    assert st.threads == st.threads[t := st.threads[t].(pc := FanOut([]))];
  }

  lemma StillGood(st: State, b: State, t: Tid)
    requires t in st.threads && st.threads[t].pc.FanOut? && st.threads[t].pc.rest != [] && NoDup(st.threads[t].pc.rest)
    requires forall s :: s in st.threads[t].pc.rest ==> s in st.sessions
    requires forall s :: s in st.sessions && st.sessions[s].life.Alive? ==> st.sessions[s].strong > 0
    requires var rest := st.threads[t].pc.rest; Served(st, b, t, rest[1..], [rest[0]])
    ensures t in b.threads && b.threads[t].pc == FanOut(st.threads[t].pc.rest[1..]) && NoDup(b.threads[t].pc.rest)
    ensures forall s :: s in b.threads[t].pc.rest ==> s in b.sessions
    ensures forall s :: s in b.sessions && b.sessions[s].life.Alive? ==> b.sessions[s].strong > 0
  {
  }

  // From the call to the locked loop.
  lemma CallAndLock(st: State, t: Tid)
    requires t in st.threads && st.threads[t].pc.Idle? && st.mutex.None?
    ensures Alone(st, t, 2) ==
      st.(threads := st.threads[t := Thread(Snapping(st.members, []), st.threads[t].started + 1)], mutex := Some(t))
  {
    hide StrandEnabled, DoStrand;
    OneAlone(st, t);
    OneAlone(Alone(st, t, 1), t);
    AloneAdds(st, t, 1, 1);
    var b := Alone(st, t, 2);
    assert b.threads == st.threads[t := Thread(Snapping(st.members, []), st.threads[t].started + 1)];
  }

  lemma UnlockOne(st: State, t: Tid)
    requires t in st.threads && st.threads[t].pc.Snapping? && st.threads[t].pc.todo == {}
    ensures Alone(st, t, 1) == SetPc(st, t, FanOut(st.threads[t].pc.taken)).(
      mutex := None, snaps := st.snaps[Current(t, st.threads[t]) := Elems(st.threads[t].pc.taken)])
  {
    hide StrandEnabled, DoStrand;
    OneAlone(st, t);
  }

  lemma FinishOne(st: State, t: Tid)
    requires t in st.threads && st.threads[t].pc.FanOut? && st.threads[t].pc.rest == []
    ensures Alone(st, t, 1) == SetPc(st, t, Idle)
  {
    hide StrandEnabled, DoStrand;
    OneAlone(st, t);
  }

  // The state after a whole call: only t's call counter, the one new snapshot and the posts.
  ghost predicate SentOut(a: State, b: State, t: Tid)
    requires t in a.threads
  {
    var m := Msg(t, a.threads[t].started + 1);
    && b.threads == a.threads[t := Thread(Idle, a.threads[t].started + 1)]
    && b.members == a.members && b.mutex.None?
    && b.snaps == a.snaps[m := a.members]
    && b.sessions.Keys == a.sessions.Keys
    && forall s :: s in a.sessions ==>
         b.sessions[s] == if s in a.members then AfterSend(a.sessions[s], m) else a.sessions[s]
  }

  // From any good state an idle thread's call, left alone with the mutex free, is over after so
  // many steps.
  lemma SendAlone(st: State, t: Tid) returns (n: nat)
    requires t in st.threads && st.threads[t].pc.Idle? && st.mutex.None?
    requires st.members <= st.sessions.Keys
    requires forall s :: s in st.sessions && st.sessions[s].life.Alive? ==> st.sessions[s].strong > 0
    ensures n <= 4 + 4 * |st.members| && SentOut(st, Alone(st, t, n), t)
  {
    hide Alone, Enabled, Do, AfterSend;
    CallAndLock(st, t);
    var a := Alone(st, t, 2);
    var taken := SnapAll(a, t, st.members, []);
    var k := |st.members|;
    var b := Alone(a, t, k);
    AloneAdds(st, t, 2, k);
    assert Elems<Sid>([]) + st.members == st.members;
    UnlockOne(b, t);
    var c := Alone(b, t, 1);
    AloneAdds(st, t, 2 + k, 1);
    CountElems(taken);
    assert forall s :: s in taken <==> s in Elems(taken);
    var m := FanAll(c, t);
    var d := Alone(c, t, m);
    AloneAdds(st, t, 3 + k, m);
    FinishOne(d, t);
    n := 4 + k + m;
    AloneAdds(st, t, 3 + k + m, 1);
  }

  // In every run: the call takes its snapshot, which is the membership at its start, posts the
  // message exactly once, and last, to every member that is alive then, and changes nothing else.
  lemma SendGetsOut(run: seq<State>, steps: seq<Step>, i: nat, t: Tid) returns (n: nat)
    requires IsRun(run, steps) && i < |run|
    requires t in run[i].threads && run[i].threads[t].pc.Idle? && run[i].mutex.None?
    ensures n <= 4 + 4 * |run[i].members|
    ensures var a, b, m := run[i], Alone(run[i], t, n), Msg(t, run[i].threads[t].started + 1);
      && b.threads == a.threads[t := Thread(Idle, a.threads[t].started + 1)]
      && b.members == a.members && b.mutex.None?
      && m !in a.snaps && b.snaps == a.snaps[m := a.members]
      && b.sessions.Keys == a.sessions.Keys
      && forall s :: s in a.sessions ==>
           var x, y := a.sessions[s], b.sessions[s];
           if s in a.members && x.life.Alive?
           then && m !in x.sent && y.sent == x.sent + [m] && y.posted == x.posted + [m]
                && y == x.(sent := y.sent, posted := y.posted, strong := x.strong + 1)
           else y == x
  {
    var st := run[i];
    RunKeepsInv(run, steps, i);
    GoodToSend(st, t);
    hide IsRun, Inv;
    n := SendAlone(st, t);
    hide Alone;
  }

  lemma GoodToSend(st: State, t: Tid)
    requires Inv(st) && t in st.threads
    ensures st.members <= st.sessions.Keys
    ensures forall s :: s in st.sessions && st.sessions[s].life.Alive? ==> st.sessions[s].strong > 0
    ensures Msg(t, st.threads[t].started + 1) !in st.snaps
    ensures forall s :: s in st.sessions ==> Msg(t, st.threads[t].started + 1) !in st.sessions[s].sent
  {
    forall s | s in st.sessions
      ensures st.sessions[s].life.Alive? ==> st.sessions[s].strong > 0
      ensures Msg(t, st.threads[t].started + 1) !in st.sessions[s].sent
    {
      CountsAt(st, s);
      SentAt(st, s);
    }
  }
}
