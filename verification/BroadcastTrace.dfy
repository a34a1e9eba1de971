// What a session's state says about the steps that led to it: the flags and counters of every
// session, told from the completions and posts of the run alone.
module BroadcastTrace {
  import opened Common
  import opened SessionModel
  import opened Broadcast
  import opened BroadcastProof
  import opened BroadcastResults

  // The step runs the last part of the session's destructor.
  predicate Leaves(st: State, step: Step, s: Sid) {
    || step == StrandLeave(s)
    || (step.ThreadLeave? && step.t in st.threads && st.threads[step.t].pc.InDtor? && st.threads[step.t].pc.s == s)
  }

  // What the step posts to the session.
  function PostBy(st: State, step: Step, s: Sid): seq<Msg> {
    if step.PostTo? && step.t in st.threads && st.threads[step.t].pc.Holding? && st.threads[step.t].pc.s == s
    then [Current(step.t, st.threads[step.t])] else []
  }

  function PostsTo(run: seq<State>, steps: seq<Step>, i: nat, s: Sid): seq<Msg>
    requires i <= |steps| < |run|
  {
    if i == 0 then [] else PostsTo(run, steps, i - 1, s) + PostBy(run[i - 1], steps[i - 1], s)
  }

  ghost predicate HasLeft(run: seq<State>, steps: seq<Step>, i: nat, s: Sid)
    requires i <= |steps| < |run|
  {
    exists k {:trigger steps[k]} :: 0 <= k < i && Leaves(run[k], steps[k], s)
  }

  // One step told: what changes of a session, and only through which step.
  ghost predicate ToldFlags(x: Session, y: Session, step: Step, s: Sid) {
    && (y.ended <==> x.ended || step == AcceptDone(s, false) || step == ReadDone(s, false))
    && (y.failed <==> x.failed || step == WriteDone(s, false))
    && (y.joined <==> x.joined || step == JoinMembers(s))
    && (y.joined || y.strand.Accepted? <==> x.joined || x.strand.Accepted? || step == AcceptDone(s, true))
  }

  ghost predicate ToldHistory(x: Session, y: Session, step: Step, s: Sid, post: seq<Msg>, leaves: bool) {
    && |y.delivered| == |x.delivered| + Bit(step == WriteDone(s, true))
    && y.sent == x.sent + post
    && |y.posted| + Bit(step == RunSend(s)) == |x.posted| + |post|
    && (y.life.Gone? <==> x.life.Gone? || leaves)
  }

  ghost predicate Told(x: Session, y: Session, step: Step, s: Sid, post: seq<Msg>, leaves: bool) {
    ToldFlags(x, y, step, s) && ToldHistory(x, y, step, s, post, leaves)
  }

  lemma StrandTellsFlags(st: State, step: Step, s: Sid)
    requires StrandStep(step) && step.s == s && s in st.sessions && StrandEnabled(st, st.sessions[s], step)
    requires ReaderOk(st.sessions[s])
    ensures ToldFlags(st.sessions[s], DoStrand(st, step).sessions[s], step, s)
  {
  }

  lemma StrandTellsHistory(st: State, step: Step, s: Sid)
    requires StrandStep(step) && step.s == s && s in st.sessions && StrandEnabled(st, st.sessions[s], step)
    requires st.sessions[s].life.Alive? <==> st.sessions[s].strong > 0
    ensures ToldHistory(st.sessions[s], DoStrand(st, step).sessions[s], step, s, [], step == StrandLeave(s))
  {
    assert st.sessions[s].sent + [] == st.sessions[s].sent;
  }

  lemma StrandTells(st: State, step: Step, s: Sid)
    requires StrandStep(step) && step.s == s && s in st.sessions && StrandEnabled(st, st.sessions[s], step)
    requires LifetimeOk(st.sessions[s], |Promoters(st.threads, s)|) && ReaderOk(st.sessions[s])
    ensures Told(st.sessions[s], DoStrand(st, step).sessions[s], step, s, [], step == StrandLeave(s))
  {
    hide ReaderOk, Promoters, DoStrand, StrandEnabled, ToldFlags, ToldHistory;
    StrandTellsFlags(st, step, s);
    StrandTellsHistory(st, step, s);
  }

  lemma TurnTells(st: State, step: Step, s: Sid)
    requires Enabled(st, step) && (TurnStep(step) || step.ThreadLeave?) && s in st.sessions
    requires step.PostTo? ==> st.sessions[st.threads[step.t].pc.s].life.Alive?
    requires step.Drop? ==> st.sessions[st.threads[step.t].pc.s].life.Alive?
    ensures s in Do(st, step).sessions
    ensures Told(st.sessions[s], Do(st, step).sessions[s], step, s, PostBy(st, step, s), Leaves(st, step, s))
  {
    hide StrandEnabled, DoStrand;
    assert st.sessions[s].sent + [] == st.sessions[s].sent;
  }

  lemma MoveTells(st: State, step: Step, s: Sid)
    requires Enabled(st, step) && !StrandStep(step) && !TurnStep(step) && !step.ThreadLeave? && s in st.sessions
    ensures s in Do(st, step).sessions
    ensures step.New? || Do(st, step).sessions.Keys == st.sessions.Keys
    ensures Do(st, step).sessions[s] == st.sessions[s]
  {
    hide StrandEnabled, DoStrand;
  }

  lemma NothingTold(x: Session, step: Step, s: Sid)
    requires StrandStep(step) ==> step.s != s
    ensures Told(x, x, step, s, [], false)
  {
    assert x.sent + [] == x.sent;
  }

  lemma StateCountsAt(st: State, s: Sid)
    requires RefsInv(st) && s in st.sessions
    ensures LifetimeOk(st.sessions[s], |Promoters(st.threads, s)|) && ReaderOk(st.sessions[s])
  {
    CountsAt(st, s);
  }

  lemma StepTells(st: State, step: Step, s: Sid)
    requires RefsInv(st) && Enabled(st, step) && s in st.sessions
    ensures s in Do(st, step).sessions
    ensures Told(st.sessions[s], Do(st, step).sessions[s], step, s, PostBy(st, step, s), Leaves(st, step, s))
  {
    hide RefsInv, Told, Promoters, DoStrand, StrandEnabled, LifetimeOk, ReaderOk;
    if StrandStep(step) {
      StrandOthers(st, step);
      if step.s == s {
        StateCountsAt(st, s);
        StrandTells(st, step, s);
      } else {
        NothingTold(st.sessions[s], step, s);
      }
    } else if TurnStep(step) || step.ThreadLeave? {
      if step.PostTo? || step.Drop? { PromotedIsAlive(st, step.t, st.threads[step.t].pc.s); }
      TurnTells(st, step, s);
    } else {
      MoveTells(st, step, s);
      NothingTold(st.sessions[s], step, s);
    }
  }

  // A session is made by New and by nothing else, and no step touches it before.
  lemma StepMakes(st: State, step: Step, s: Sid)
    requires Enabled(st, step) && s !in st.sessions
    ensures s in Do(st, step).sessions <==> step == New(s)
    ensures s in Do(st, step).sessions ==> Do(st, step).sessions[s] == Fresh()
    ensures StrandStep(step) ==> step.s != s
  {
    hide StrandEnabled;
    if StrandStep(step) {
      StrandOthers(st, step);
      hide DoStrand;
    }
  }

  // No step of the past is one of the session's own.
  ghost predicate Untouched(past: seq<Step>, s: Sid) {
    forall step :: step in past && StrandStep(step) ==> step.s != s
  }

  // The session's state, told from the past.
  ghost predicate Tells(x: Session, past: seq<Step>, s: Sid, posts: seq<Msg>, left: bool) {
    && (x.ended <==> AcceptDone(s, false) in past || ReadDone(s, false) in past)
    && (x.failed <==> WriteDone(s, false) in past)
    && (x.joined <==> JoinMembers(s) in past)
    && (x.joined || x.strand.Accepted? <==> AcceptDone(s, true) in past)
    && |x.delivered| == multiset(past)[WriteDone(s, true)]
    && x.sent == posts
    && |x.sent| == |x.posted| + multiset(past)[RunSend(s)]
    && (x.life.Gone? <==> left)
  }

  lemma TellsNext(x: Session, y: Session, past: seq<Step>, step: Step, s: Sid, posts: seq<Msg>, post: seq<Msg>,
                  left: bool, leaves: bool)
    requires Tells(x, past, s, posts, left) && Told(x, y, step, s, post, leaves)
    ensures Tells(y, past + [step], s, posts + post, left || leaves)
  {
    assert multiset(past + [step]) == multiset(past) + multiset{step};
    assert forall e :: e in past + [step] <==> e in past || e == step;
  }

  lemma FreshTells(past: seq<Step>, s: Sid)
    requires Untouched(past, s)
    ensures Tells(Fresh(), past, s, [], false)
  {
    assert forall e: Step :: e in multiset(past) <==> e in past;
  }

  ghost predicate Story(run: seq<State>, steps: seq<Step>, i: nat, s: Sid)
    requires i <= |steps| < |run|
  {
    && (s in run[i].sessions <==> New(s) in steps[..i])
    && (if s in run[i].sessions
        then Tells(run[i].sessions[s], steps[..i], s, PostsTo(run, steps, i, s), HasLeft(run, steps, i, s))
        else Untouched(steps[..i], s) && PostsTo(run, steps, i, s) == [] && !HasLeft(run, steps, i, s))
  }

  lemma LeftNext(run: seq<State>, steps: seq<Step>, i: nat, s: Sid)
    requires 0 < i <= |steps| < |run|
    ensures HasLeft(run, steps, i, s) <==> HasLeft(run, steps, i - 1, s) || Leaves(run[i - 1], steps[i - 1], s)
  {
    hide Leaves;
    if HasLeft(run, steps, i - 1, s) {
      var k :| 0 <= k < i - 1 && Leaves(run[k], steps[k], s);
      assert Leaves(run[k], steps[k], s) && 0 <= k < i;
    }
  }

  lemma UnknownToThreads(st: State, step: Step, s: Sid)
    requires ThreadsInv(st) && Enabled(st, step) && s !in st.sessions
    ensures PostBy(st, step, s) == [] && !Leaves(st, step, s)
  {
    hide ThreadsInv, DoStrand;
    if !StrandStep(step) && !step.New? { PcKnown(st, step.t); }
  }

  // In every run: a session exists once its New has happened; it has ended, failed or joined
  // exactly when such a completion or join is among the steps; it has been accepted exactly when
  // its accept succeeded; it has delivered one message for each successful write; what was sent
  // to it is what the fan-outs posted to it, in order; and it is gone once its destructor ran.
  lemma {:induction false} StepsTell(run: seq<State>, steps: seq<Step>, i: nat, s: Sid)
    requires IsRun(run, steps) && i < |run|
    ensures Story(run, steps, i, s)
    decreases i
  {
    hide Tells, Told, Untouched, Inv, Do, Enabled, PostBy, Leaves, HasLeft;
    if i == 0 {
      StoryBegins(run, steps, s);
    } else {
      StepsTell(run, steps, i - 1, s);
      RunKeepsInv(run, steps, i - 1);
      assert Enabled(run[i - 1], steps[i - 1]) && run[i] == Do(run[i - 1], steps[i - 1]);
      hide IsRun;
      StoryGoesOn(run, steps, i, s);
    }
  }

  lemma StoryBegins(run: seq<State>, steps: seq<Step>, s: Sid)
    requires |steps| < |run| && Initial(run[0])
    ensures Story(run, steps, 0, s)
  {
  }

  lemma StoryGoesOn(run: seq<State>, steps: seq<Step>, i: nat, s: Sid)
    requires 0 < i <= |steps| < |run| && Story(run, steps, i - 1, s) && Inv(run[i - 1])
    requires Enabled(run[i - 1], steps[i - 1]) && run[i] == Do(run[i - 1], steps[i - 1])
    ensures Story(run, steps, i, s)
  {
    hide Tells, Told, Untouched, Do, Enabled, PostBy, Leaves, HasLeft;
    hide MutexInv, MembersInv, ThreadsInv, RefsInv, SentInv;
    var st, step := run[i - 1], steps[i - 1];
    assert steps[..i] == steps[..i - 1] + [step];
    LeftNext(run, steps, i, s);
    if s in st.sessions {
      StepTells(st, step, s);
      TellsNext(st.sessions[s], run[i].sessions[s], steps[..i - 1], step, s, PostsTo(run, steps, i - 1, s),
                PostBy(st, step, s), HasLeft(run, steps, i - 1, s), Leaves(st, step, s));
    } else {
      StepMakes(st, step, s);
      UnknownToThreads(st, step, s);
      UntouchedNext(steps[..i - 1], step, s);
      if step == New(s) { FreshTells(steps[..i], s); }
    }
  }

  lemma UntouchedNext(past: seq<Step>, step: Step, s: Sid)
    requires Untouched(past, s) && (StrandStep(step) ==> step.s != s)
    ensures Untouched(past + [step], s)
  {
  }

  // ---- the same, for those who only see completions ----

  predicate ReaderFailed(past: seq<Step>, s: Sid) { AcceptDone(s, false) in past || ReadDone(s, false) in past }

  // Until its accept or a read fails, a session lives, with exactly one accept or read under way;
  // each successful accept or read but the failed one is followed by the next read. A successful
  // completion never ends it.
  lemma LivesUntilReaderFails(run: seq<State>, steps: seq<Step>, i: nat, s: Sid)
    requires IsRun(run, steps) && i < |run| && New(s) in steps[..i]
    ensures s in run[i].sessions
    ensures var x := run[i].sessions[s];
      if ReaderFailed(steps[..i], s) then x.acceptOps == 0 && x.readOps == 0
      else x.life.Alive? && x.acceptOps + x.readOps + Bit(x.strand.Accepted? || x.strand.Joined?) == 1
  {
    hide IsRun;
    StepsTell(run, steps, i, s);
    LivesUntilEnded(run, steps, i, s);
  }

  // A session that died without a failed write has delivered exactly what the fan-outs posted to
  // it, in their order.
  lemma DiesDrained(run: seq<State>, steps: seq<Step>, i: nat, s: Sid)
    requires IsRun(run, steps) && i < |run| && New(s) in steps[..i] && WriteDone(s, false) !in steps[..i]
    ensures s in run[i].sessions
    ensures !run[i].sessions[s].life.Alive? ==>
      && run[i].sessions[s].delivered == PostsTo(run, steps, i, s)
      && multiset(steps[..i])[WriteDone(s, true)] == |PostsTo(run, steps, i, s)|
  {
    hide IsRun;
    StepsTell(run, steps, i, s);
    DrainBeforeDeath(run, steps, i, s);
  }

  // After a failed write nothing more is delivered and no write is ever under way again.
  lemma NothingAfterFailedWrite(run: seq<State>, steps: seq<Step>, i: nat, j: nat, s: Sid)
    requires IsRun(run, steps) && i <= j < |run| && WriteDone(s, false) in steps[..i]
    ensures s in run[i].sessions && s in run[j].sessions
    ensures run[j].sessions[s].writeOps == [] && run[j].sessions[s].delivered == run[i].sessions[s].delivered
  {
    assert StrandStep(WriteDone(s, false));
    hide IsRun;
    StepsTell(run, steps, i, s);
    WriteProtocol(run, steps, i, j, s);
    WriteProtocol(run, steps, j, j, s);
  }

  // The members are exactly the sessions that were accepted and joined and whose destructor has
  // not run.
  lemma MembersAre(run: seq<State>, steps: seq<Step>, i: nat, s: Sid)
    requires IsRun(run, steps) && i < |run|
    ensures s in run[i].members <==> JoinMembers(s) in steps[..i] && !HasLeft(run, steps, i, s)
    ensures s in run[i].members ==> AcceptDone(s, true) in steps[..i]
  {
    RunKeepsInv(run, steps, i);
    StepsTell(run, steps, i, s);
    hide IsRun, RefsInv, ThreadsInv, SentInv, MutexInv, HasLeft;
    if s !in run[i].sessions { assert StrandStep(JoinMembers(s)); }
  }

  // ---- everything that waits can run ----

  // The broadcaster that dropped the last pointer is in that session's destructor.
  ghost predicate DtorInv(st: State) {
    forall s :: s in st.sessions && st.sessions[s].life.Dying? && st.sessions[s].life.dropper.Some? ==>
      var t := st.sessions[s].life.dropper.value;
      t in st.threads && st.threads[t].pc.InDtor? && st.threads[t].pc.s == s
  }

  lemma StrandKeepsDtor(st: State, step: Step)
    requires StrandStep(step) && step.s in st.sessions && StrandEnabled(st, st.sessions[step.s], step) && DtorInv(st)
    ensures DtorInv(DoStrand(st, step))
  {
    hide DoStrand, StrandEnabled;
    StrandOthers(st, step);
    StrandLife(st, step);
  }

  lemma StrandLife(st: State, step: Step)
    requires StrandStep(step) && step.s in st.sessions && StrandEnabled(st, st.sessions[step.s], step)
    ensures DoStrand(st, step).threads == st.threads && step.s in DoStrand(st, step).sessions
    ensures var life' := DoStrand(st, step).sessions[step.s].life;
      life' == st.sessions[step.s].life || life' == Dying(None) || life'.Gone?
  {
  }

  lemma ThreadKeepsDtor(st: State, step: Step)
    requires Enabled(st, step) && !StrandStep(step) && DtorInv(st)
    ensures DtorInv(Do(st, step))
  {
    hide StrandEnabled, DoStrand;
  }

  lemma {:induction false} RunKeepsDtor(run: seq<State>, steps: seq<Step>, i: nat)
    requires IsRun(run, steps) && i < |run|
    ensures DtorInv(run[i])
  {
    hide DtorInv, DoStrand;
    if i > 0 {
      RunKeepsDtor(run, steps, i - 1);
      var st, step := run[i - 1], steps[i - 1];
      assert Enabled(st, step);
      if StrandStep(step) { StrandKeepsDtor(st, step); } else { ThreadKeepsDtor(st, step); }
    } else {
      NobodyDying(run[0]);
    }
  }

  lemma NobodyDying(st: State)
    requires Initial(st)
    ensures DtorInv(st)
  {
  }

  // On a strand that is free every pending accept, read and post can run, whatever the outcome of
  // its operation, and a dying session can leave as soon as the mutex is free.
  lemma PendingCanRun(run: seq<State>, steps: seq<Step>, i: nat, s: Sid, ok: bool)
    requires IsRun(run, steps) && i < |run|
    ensures s !in run[i].sessions ==> Enabled(run[i], New(s))
    ensures s in run[i].sessions ==> var st, x := run[i], run[i].sessions[s];
      && (x.strand.Ready? && x.acceptOps > 0 ==> Enabled(st, AcceptDone(s, ok)))
      && (x.strand.Ready? && x.readOps > 0 ==> Enabled(st, ReadDone(s, ok)))
      && (x.strand.Ready? && x.posted != [] ==> Enabled(st, RunSend(s)))
      && (x.strand.Ready? && x.writeOps != [] ==> Enabled(st, WriteDone(s, ok)))
      && (x.strand.Accepted? && st.mutex.None? ==> Enabled(st, JoinMembers(s)))
      && (x.strand.Joined? ==> Enabled(st, ArmRead(s)))
      && (x.strand.Finishing? ==> Enabled(st, EndHandler(s)))
      && (x.life.Dying? && st.mutex.None? ==>
            Enabled(st, if x.life.dropper.None? then StrandLeave(s) else ThreadLeave(x.life.dropper.value)))
  {
    RunKeepsDtor(run, steps, i);
    if s in run[i].sessions { CompletionsFindTheirState(run, steps, i, s); }
    hide IsRun;
  }
}
