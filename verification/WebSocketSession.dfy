// The session and the shared membership set as the objects the server holds
// (src/Network/WebSocketSession.cc, src/Network/SharedState.cc). Every method is tied to the
// function of SessionModel that the interleaved system uses for the same code.
module WebSocketObjects {
  import opened Common
  import opened SessionModel

  class WebSocketSession {
    var life: Life
    var strong: nat
    var strand: Strand
    var acceptOps: nat
    var readOps: nat
    var writeOps: seq<Msg>
    var posted: seq<Msg>
    var queue: seq<Msg>
    var joined: bool
    var ended: bool
    var failed: bool
    ghost var sent: seq<Msg>
    ghost var delivered: seq<Msg>

    ghost function Value(): Session
      reads this
    {
      Session(life, strong, strand, acceptOps, readOps, writeOps, posted, queue, joined, ended, failed, sent, delivered)
    }

    // Construction and `run`.
    constructor ()
      ensures Value() == Fresh()
    {
      life, strong, strand := Alive, 1, Ready;
      acceptOps, readOps, writeOps := 1, 0, [];
      posted, queue, joined, ended, failed := [], [], false, false, false;
      sent, delivered := [], [];
    }

    // async_write of the queue head, bound to another shared pointer.
    method AsyncWrite()
      requires queue != []
      modifies this`writeOps, this`strong
      ensures Value() == StartWrite(old(Value()))
    {
      writeOps := writeOps + [queue[0]];
      strong := strong + 1;
    }

    method AcceptCompleted(ok: bool, state: SharedState)
      requires acceptOps > 0
      modifies this, state
      ensures Value() ==
        if ok then ArmFirstRead(OnJoin(OnAccept(old(Value()), true))) else OnAccept(old(Value()), false)
      ensures state.sessions == if ok then old(state.sessions) + {this} else old(state.sessions)
    {
      acceptOps := acceptOps - 1;
      ended := !ok;
      if ok {
        state.Join(this);
        joined := true;
        readOps, strong := readOps + 1, strong + 1;
      }
      strand := Finishing;
    }

    method ReadCompleted(ok: bool)
      requires readOps > 0
      modifies this
      ensures Value() == OnRead(old(Value()), ok)
    {
      readOps := readOps - 1;
      strand := Finishing;
      if !ok {
        ended := true;
        return;
      }
      readOps, strong := readOps + 1, strong + 1;
    }

    method Send(m: Msg)
      modifies this
      ensures Value() == Post(old(Value()), m)
    {
      posted := posted + [m];
      strong := strong + 1;
      sent := sent + [m];
    }

    method SendCompleted()
      requires posted != []
      modifies this
      ensures Value() == OnSend(old(Value()))
    {
      var m := posted[0];
      posted := posted[1..];
      strand := Finishing;
      queue := queue + [m];
      if |queue| > 1 { return; }
      AsyncWrite();
    }

    method WriteCompleted(ok: bool)
      requires writeOps != [] && queue != []
      modifies this
      ensures Value() == OnWrite(old(Value()), ok)
    {
      var payload := writeOps[0];
      writeOps := writeOps[1..];
      strand := Finishing;
      if !ok {
        failed := true;
        return;
      }
      delivered := delivered + [payload];
      queue := queue[1..];
      if queue != [] {
        AsyncWrite();
      }
    }

    // weak_ptr::lock.
    method LockWeakPtr() returns (alive: bool)
      modifies this`strong
      ensures alive <==> life.Alive?
      ensures Value() == if alive then LockWeak(old(Value())) else old(Value())
    {
      alive := life.Alive?;
      if alive { strong := strong + 1; }
    }

    method DropPtr(dropper: Option<Tid>)
      requires strong > 0
      modifies this`strong, this`life
      ensures Value() == Release(old(Value()), dropper)
    {
      strong := strong - 1;
      if strong == 0 { life := Dying(dropper); }
    }
  }

  class SharedState {
    var sessions: set<WebSocketSession>

    constructor ()
      ensures sessions == {}
    {
      sessions := {};
    }

    method Join(session: WebSocketSession)
      modifies this
      ensures sessions == old(sessions) + {session}
    {
      sessions := sessions + {session};
    }

    method Leave(session: WebSocketSession)
      modifies this
      ensures sessions == old(sessions) - {session}
    {
      sessions := sessions - {session};
    }

    // The locked loop: every member once, in some order.
    method Snapshot() returns (v: seq<WebSocketSession>)
      ensures NoDup(v) && Elems(v) == sessions
    {
      v := [];
      var todo := sessions;
      while todo != {}
        invariant NoDup(v) && todo !! Elems(v) && todo + Elems(v) == sessions
        decreases todo
      {
        var p :| p in todo;
        assert Elems(v + [p]) == Elems(v) + {p};
        v := v + [p];
        todo := todo - {p};
      }
    }

    // `send` when nothing else runs: each live member gets the message once and ends with one
    // pending handler more; dead members and everybody else are untouched.
    method Send(m: Msg)
      modifies sessions
      ensures forall s :: s in sessions ==>
        s.Value() == if old(s.life.Alive?) then Post(old(s.Value()), m) else old(s.Value())
    {
      var v := Snapshot();
      assert forall k :: 0 <= k < |v| ==> v[k] in Elems(v) && v[k] in sessions;
      for i := 0 to |v|
        invariant forall k :: 0 <= k < |v| ==> v[k] in old(sessions)
        invariant forall k :: i <= k < |v| ==> v[k].Value() == old(v[k].Value())
        invariant forall k :: 0 <= k < i ==>
          v[k].Value() == if old(v[k].life.Alive?) then Post(old(v[k].Value()), m) else old(v[k].Value())
      {
        assert v[i].Value() == old(v[i].Value());
        var alive := v[i].LockWeakPtr();
        if alive {
          v[i].Send(m);
          v[i].DropPtr(None);
        }
      }
      forall s | s in sessions
        ensures s.Value() == if old(s.life.Alive?) then Post(old(s.Value()), m) else old(s.Value())
      {
        assert s in Elems(v);
      }
    }
  }
}
