// One WebSocket session: its strand, write queue and strong count
// (src/Network/WebSocketSession.cc).
module SessionModel {
  import opened Common

  type Tid = nat

  // One broadcast: the thread that calls SharedState::send and which of its calls it is.
  // All posts of one broadcast share one immutable string.
  datatype Msg = Msg(origin: Tid, serial: nat)

  // Dying: the strong count reached zero and the destructor waits to run `leave`;
  // `dropper` is the broadcaster that dropped the last pointer, None when a handler did.
  datatype Life = Alive | Dying(dropper: Option<Tid>) | Gone

  // What the strand is executing. Accepted: on_accept before `join`. Joined: before async_read.
  // Finishing: the body is over, the handler object still owns its shared pointer.
  datatype Strand = Ready | Accepted | Joined | Finishing

  datatype Session = Session(
    life: Life,
    strong: nat,            // shared_ptr use count
    strand: Strand,
    acceptOps: nat,           // outstanding async_accept operations
    readOps: nat,             // outstanding async_read operations
    writeOps: seq<Msg>,       // outstanding async_write operations, by payload
    posted: seq<Msg>,       // on_send handlers waiting on the strand
    queue: seq<Msg>,        // queue_
    joined: bool,
    ended: bool,            // on_accept or on_read saw an error
    failed: bool,           // on_write saw an error
    sent: seq<Msg>,         // history: every message handed to `send`
    delivered: seq<Msg>)    // history: every payload whose write succeeded

  // `make_shared` then `run`: only the accept handler owns the session.
  function Fresh(): Session {
    Session(Alive, 1, Ready, 1, 0, [], [], [], false, false, false, [], [])
  }

  // A handler begins: its operation is over and its pointer moves to the running handler.
  function OnAccept(x: Session, ok: bool): Session
    requires x.acceptOps > 0
  {
    x.(acceptOps := x.acceptOps - 1, strand := if ok then Accepted else Finishing, ended := !ok)
  }

  function OnJoin(x: Session): Session {
    x.(joined := true, strand := Joined)
  }

  function ArmFirstRead(x: Session): Session {
    x.(readOps := x.readOps + 1, strong := x.strong + 1, strand := Finishing)
  }

  function OnRead(x: Session, ok: bool): Session
    requires x.readOps > 0
  {
    var y := x.(readOps := x.readOps - 1, strand := Finishing);
    if ok then y.(readOps := y.readOps + 1, strong := y.strong + 1) else y.(ended := true)
  }

  function StartWrite(x: Session): Session
    requires x.queue != []
  {
    x.(writeOps := x.writeOps + [x.queue[0]], strong := x.strong + 1)
  }

  function OnSend(x: Session): Session
    requires x.posted != []
  {
    var y := x.(posted := x.posted[1..], queue := x.queue + [x.posted[0]], strand := Finishing);
    if |y.queue| > 1 then y else StartWrite(y)
  }

  function OnWrite(x: Session, ok: bool): Session
    requires x.writeOps != [] && x.queue != []
  {
    var y := x.(writeOps := x.writeOps[1..], strand := Finishing);
    if !ok then y.(failed := true) else
      var z := y.(queue := y.queue[1..], delivered := y.delivered + [x.writeOps[0]]);
      if z.queue == [] then z else StartWrite(z)
  }

  // One shared_ptr goes away; the last one starts the destructor.
  function Release(x: Session, dropper: Option<Tid>): Session
    requires x.strong > 0
  {
    var y := x.(strong := x.strong - 1);
    if y.strong == 0 then y.(life := Dying(dropper)) else y
  }

  function HandlerOver(x: Session): Session
    requires x.strong > 0
  {
    Release(x.(strand := Ready), None)
  }

  // weak_ptr::lock on a live session.
  function LockWeak(x: Session): Session { x.(strong := x.strong + 1) }

  // `send`: post an on_send handler that owns another pointer.
  function Post(x: Session, m: Msg): Session {
    x.(posted := x.posted + [m], sent := x.sent + [m], strong := x.strong + 1)
  }

  // ---- what every step keeps, given how many broadcasters hold a promoted pointer ----

  function Outstanding(x: Session): nat {
    x.acceptOps + x.readOps + |x.writeOps| + |x.posted| + Bit(!x.strand.Ready?)
  }

  ghost predicate LifetimeOk(x: Session, promoters: nat) {
    && x.strong == Outstanding(x) + promoters
    && (x.life.Alive? <==> x.strong > 0)
  }

  ghost predicate QueueOk(x: Session) {
    && x.delivered + x.queue + x.posted == x.sent
    && |x.writeOps| <= 1
    && (x.writeOps != [] ==> x.queue != [] && x.writeOps[0] == x.queue[0])
    && (!x.failed ==> (x.queue != [] <==> x.writeOps != []))
    && (x.failed ==> x.writeOps == [] && x.queue != [])
  }

  // Until it ends, exactly one of accept, the run from accept to the first read, and read is
  // under way; afterwards none is.
  ghost predicate ReaderOk(x: Session) {
    && x.acceptOps + x.readOps + Bit(x.strand.Accepted? || x.strand.Joined?) == Bit(!x.ended)
    && (x.strand.Joined? || x.readOps > 0 ==> x.joined)
    && (x.acceptOps > 0 || x.strand.Accepted? ==> !x.joined)
  }

  ghost predicate SessionOk(x: Session, promoters: nat) {
    LifetimeOk(x, promoters) && QueueOk(x) && ReaderOk(x)
  }

  lemma ReaderStepsKeep(x: Session, ok: bool, promoters: nat)
    requires SessionOk(x, promoters)
    ensures x.life.Alive? <==> x.strong > 0
    ensures x.strand.Ready? && x.acceptOps > 0 ==> SessionOk(OnAccept(x, ok), promoters)
    ensures x.strand.Accepted? ==> SessionOk(OnJoin(x), promoters)
    ensures x.strand.Joined? ==> SessionOk(ArmFirstRead(x), promoters)
    ensures x.strand.Ready? && x.readOps > 0 ==> SessionOk(OnRead(x, ok), promoters)
    ensures x.strand.Finishing? && x.strong > 0 ==> SessionOk(HandlerOver(x), promoters)
  {
  }

  lemma OnSendKeeps(x: Session, promoters: nat)
    requires SessionOk(x, promoters) && x.posted != [] && x.strand.Ready?
    ensures SessionOk(OnSend(x), promoters)
    ensures OnSend(x).failed == x.failed && OnSend(x).delivered == x.delivered
    ensures x.failed ==> OnSend(x).writeOps == []
  {
    var y := OnSend(x);
    assert x.posted == [x.posted[0]] + x.posted[1..];
    assert y.delivered + y.queue + y.posted == x.delivered + x.queue + x.posted;
  }

  lemma OnWriteKeeps(x: Session, ok: bool, promoters: nat)
    requires SessionOk(x, promoters) && x.writeOps != [] && x.strand.Ready?
    ensures SessionOk(OnWrite(x, ok), promoters)
    ensures OnWrite(x, ok).delivered == x.delivered + if ok then [x.queue[0]] else []
  {
    var y := OnWrite(x, ok);
    assert x.queue == [x.queue[0]] + x.queue[1..];
    assert y.delivered + y.queue + y.posted == x.delivered + x.queue + x.posted;
  }

  lemma PostKeeps(x: Session, m: Msg, promoters: nat)
    requires SessionOk(x, promoters) && promoters > 0
    ensures SessionOk(Post(x, m), promoters)
  {
    var y := Post(x, m);
    assert y.delivered + y.queue + y.posted == (x.delivered + x.queue + x.posted) + [m];
  }

  // Taking and dropping a promoted pointer.
  lemma PointerKeeps(x: Session, dropper: Option<Tid>, promoters: nat)
    requires SessionOk(x, promoters)
    ensures x.life.Alive? ==> SessionOk(LockWeak(x), promoters + 1)
    ensures promoters > 0 ==> x.strong > 0 && SessionOk(Release(x, dropper), promoters - 1)
  {
  }

  // The queue drains before the session dies, and a queued message keeps a write handler,
  // hence the session, alive.
  lemma DeadIsDrained(x: Session, promoters: nat)
    requires SessionOk(x, promoters) && !x.failed
    ensures x.queue != [] ==> |x.writeOps| == 1 && x.life.Alive?
    ensures !x.life.Alive? ==> x.queue == [] && x.posted == [] && x.delivered == x.sent
  {
    if !x.life.Alive? {
      assert x.delivered + [] + [] == x.delivered;
    }
  }
}
