// One HTTP session: read, handle, write, and again (src/Network/HttpSession.cc).
module HttpSession {
  import opened Common
  import opened Router

  datatype Operation = ReadOp | WriteOp(response: Response)

  datatype Session = Session(
    outstanding: seq<Operation>,   // asynchronous operations started and not completed
    requests: seq<Request>,        // history: requests read and handled
    responses: seq<Response>)      // history: responses completely written

  // How an operation can complete.
  datatype Event =
    | EndOfStream | ReadError | Upgrade(request: Request) | Message(request: Request)
    | WriteError | Written

  // What decides the answers: the routes, and whether a response ends the connection.
  datatype Server = Server(routes: map<string, Handler>, needEof: Response -> bool)

  // handle_request.
  function Respond(server: Server, req: Request): Response {
    var res := Response(req.version, req.keepAlive, 200, "", "");
    match HandleRequest(server.routes, req, res)
    case Some(res') => res'
    case None => res.(status := 404, contentType := "text/plain", body := "Not Found")
  }

  // The answer is that of the entry in effect under the request's key, given the request's version
  // and keep-alive flag; without one it is 404. When the entry's method has no colon, as the
  // request's has not, that is the last handler registered for exactly the method and target.
  lemma RespondsByRegistration(calls: seq<Route>, needEof: Response -> bool, req: Request)
    ensures var e := InEffect(calls, Key(req.verb, req.target));
      && Respond(Server(Table(calls), needEof), req) == (
           match e
           case Some(r) => r.handler(req, Response(req.version, req.keepAlive, 200, "", ""))
           case None => Response(req.version, req.keepAlive, 404, "text/plain", "Not Found"))
      && (ColonFree(req.verb) ==>
            (e == LastRegistered(calls, req.verb, req.target) <==> (e.Some? ==> ColonFree(e.value.verb))))
  {
    RequestReachesEntry(calls, req, Response(req.version, req.keepAlive, 200, "", ""));
    if ColonFree(req.verb) { RoutedRightIff(calls, req.verb, req.target); }
  }

  function DoRead(s: Session): Session { s.(outstanding := s.outstanding + [ReadOp]) }

  // `run`.
  function Start(): Session { DoRead(Session([], [], [])) }

  predicate IsRead(e: Event) { e.EndOfStream? || e.ReadError? || e.Upgrade? || e.Message? }

  // The operation the event completes is outstanding.
  predicate Enabled(s: Session, e: Event) {
    s.outstanding != [] && (IsRead(e) <==> s.outstanding[0].ReadOp?)
  }

  function Complete(server: Server, s: Session, e: Event): Session
    requires Enabled(s, e)
  {
    var done, t := s.outstanding[0], s.(outstanding := s.outstanding[1..]);
    match e
    case EndOfStream => t
    case ReadError => t
    case Upgrade(_) => t
    case Message(req) =>
      t.(requests := t.requests + [req], outstanding := t.outstanding + [WriteOp(Respond(server, req))])
    case WriteError => t
    case Written =>
      var u := t.(responses := t.responses + [done.response]);
      if server.needEof(done.response) then u else DoRead(u)
  }

  ghost predicate IsRun(server: Server, run: seq<Session>, events: seq<Event>) {
    && |run| == |events| + 1
    && run[0] == Start()
    && forall i {:trigger events[i]} :: 0 <= i < |events| ==>
         Enabled(run[i], events[i]) && run[i + 1] == Complete(server, run[i], events[i])
  }

  function Answers(server: Server, requests: seq<Request>): seq<Response> {
    seq(|requests|, i requires 0 <= i < |requests| => Respond(server, requests[i]))
  }

  // Reading: everything read is answered. Writing: the answer to the last request is under way.
  ghost predicate Inv(server: Server, s: Session) {
    && |s.outstanding| <= 1
    && |s.responses| <= |s.requests| <= |s.responses| + 1
    && s.responses == Answers(server, s.requests)[..|s.responses|]
    && (s.outstanding == [ReadOp] ==> |s.responses| == |s.requests|)
    && (s.outstanding != [] && s.outstanding[0].WriteOp? ==>
          && |s.requests| == |s.responses| + 1
          && s.outstanding[0].response == Answers(server, s.requests)[|s.responses|])
  }

  lemma CompleteKeepsInv(server: Server, s: Session, e: Event)
    requires Inv(server, s) && Enabled(s, e)
    ensures Inv(server, Complete(server, s, e))
  {
    hide Respond;
    var t := Complete(server, s, e);
    assert s.outstanding[1..] == [];
    if e.Message? {
      var n := |s.requests|;
      assert Answers(server, t.requests)[n] == Respond(server, e.request);
      assert Answers(server, t.requests)[..n] == Answers(server, s.requests);
      assert t.outstanding == [WriteOp(Respond(server, e.request))];
    } else if e.Written? {
      var n := |s.responses|;
      var answers := Answers(server, s.requests);
      assert answers[..n + 1] == answers[..n] + [answers[n]];
    }
  }

  lemma {:induction false} RunKeepsInv(server: Server, run: seq<Session>, events: seq<Event>, i: nat)
    requires IsRun(server, run, events) && i < |run|
    ensures Inv(server, run[i])
  {
    if i > 0 {
      RunKeepsInv(server, run, events, i - 1);
      assert Enabled(run[i - 1], events[i - 1]);
      CompleteKeepsInv(server, run[i - 1], events[i - 1]);
    }
  }

  // In every run at most one operation is outstanding, and what was written is, in order, the
  // answers to the first requests read; at most one request is unanswered.
  lemma OneAtATimeInOrder(server: Server, run: seq<Session>, events: seq<Event>, i: nat)
    requires IsRun(server, run, events) && i < |run|
    ensures var s := run[i];
      && |s.outstanding| <= 1
      && s.responses <= Answers(server, s.requests)
      && |s.requests| - |s.responses| <= 1
      && (s.outstanding == [ReadOp] ==> s.responses == Answers(server, s.requests))
  {
    RunKeepsInv(server, run, events, i);
  }

  // The event ends the session in state s: upgrade, error, end of stream, or a response that
  // closes the connection.
  predicate Closing(server: Server, s: Session, e: Event)
    requires Enabled(s, e)
  {
    e.EndOfStream? || e.ReadError? || e.Upgrade? || e.WriteError?
    || (e.Written? && server.needEof(s.outstanding[0].response))
  }

  // A closing event is the last one, and only a closing event is: after it nothing is
  // outstanding, after any other exactly one operation is.
  lemma ClosingEndsTheRun(server: Server, run: seq<Session>, events: seq<Event>, i: nat)
    requires IsRun(server, run, events) && i < |events|
    ensures Enabled(run[i], events[i])
    ensures Closing(server, run[i], events[i]) <==> run[i + 1].outstanding == []
    ensures Closing(server, run[i], events[i]) ==> i == |events| - 1
  {
    assert Enabled(run[i], events[i]);
    RunKeepsInv(server, run, events, i);
    assert run[i].outstanding[1..] == [];
    if i + 1 < |events| { assert Enabled(run[i + 1], events[i + 1]); }
  }

  // ---- the session told from its events ----

  // The requests read, in order.
  function RequestsOf(past: seq<Event>): seq<Request> {
    if past == [] then [] else
      var n := |past| - 1;
      RequestsOf(past[..n]) + if past[n].Message? then [past[n].request] else []
  }

  // What is under way after the events: a read at first and after a response that keeps the
  // connection, the write of a request's answer after the request, otherwise nothing.
  function UnderWay(server: Server, past: seq<Event>): seq<Operation> {
    if past == [] then [ReadOp] else
      match past[|past| - 1]
      case Message(req) => [WriteOp(Respond(server, req))]
      case Written =>
        var reqs := RequestsOf(past);
        if reqs == [] || server.needEof(Respond(server, reqs[|reqs| - 1])) then [] else [ReadOp]
      case _ => []
  }

  lemma RequestsNext(past: seq<Event>, e: Event)
    ensures RequestsOf(past + [e]) == RequestsOf(past) + if e.Message? then [e.request] else []
    ensures multiset(past + [e])[Written] == multiset(past)[Written] + if e.Written? then 1 else 0
  {
    assert (past + [e])[..|past|] == past;
  }

  ghost predicate Told(server: Server, s: Session, past: seq<Event>) {
    && s.requests == RequestsOf(past)
    && |s.responses| == multiset(past)[Written]
    && s.outstanding == UnderWay(server, past)
  }

  lemma CompleteTells(server: Server, s: Session, e: Event, past: seq<Event>)
    requires Inv(server, s) && Enabled(s, e) && Told(server, s, past)
    ensures Told(server, Complete(server, s, e), past + [e])
  {
    hide Respond, RequestsOf, Answers;
    RequestsNext(past, e);
    assert s.outstanding[1..] == [];
    assert RequestsOf(past) + [] == RequestsOf(past);
    if e.Written? { AnswersLast(server, s); }
    hide Inv;
  }

  lemma AnswersLast(server: Server, s: Session)
    requires Inv(server, s) && s.outstanding != [] && s.outstanding[0].WriteOp?
    ensures s.requests != [] && s.outstanding == [WriteOp(Respond(server, s.requests[|s.requests| - 1]))]
  {
    hide Respond;
  }

  // In every run the requests handled are those of the messages read, in order; one response has
  // been written for each write that succeeded; and what is under way, and can complete in either
  // way, follows from the last event: after a message, the write of that request's answer.
  lemma {:induction false} EventsTell(server: Server, run: seq<Session>, events: seq<Event>, i: nat)
    requires IsRun(server, run, events) && i < |run|
    ensures run[i].requests == RequestsOf(events[..i])
    ensures |run[i].responses| == multiset(events[..i])[Written]
    ensures run[i].outstanding == UnderWay(server, events[..i])
    ensures forall e :: Enabled(run[i], e) <==>
      UnderWay(server, events[..i]) != [] && (IsRead(e) <==> UnderWay(server, events[..i]) == [ReadOp])
    decreases i
  {
    hide Respond, Complete, RequestsOf;
    if i > 0 {
      EventsTell(server, run, events, i - 1);
      RunKeepsInv(server, run, events, i - 1);
      assert Enabled(run[i - 1], events[i - 1]) && run[i] == Complete(server, run[i - 1], events[i - 1]);
      assert events[..i] == events[..i - 1] + [events[i - 1]];
      CompleteTells(server, run[i - 1], events[i - 1], events[..i - 1]);
    } else {
      NothingRead();
    }
  }

  lemma NothingRead()
    ensures RequestsOf([]) == []
  {
  }

  class Connection {
    const router: RouteTable
    const needEof: Response -> bool
    var outstanding: seq<Operation>
    ghost var requests: seq<Request>
    ghost var responses: seq<Response>

    ghost function Value(): Session
      reads this
    {
      Session(outstanding, requests, responses)
    }

    // Construction and `run`.
    constructor (router: RouteTable, needEof: Response -> bool)
      ensures Value() == Start() && this.router == router && this.needEof == needEof
    {
      this.router, this.needEof := router, needEof;
      outstanding, requests, responses := [ReadOp], [], [];
    }

    // on_read with handle_request.
    method OnRead(e: Event)
      requires router.Valid() && IsRead(e) && Enabled(Value(), e)
      modifies this
      ensures Value() == Complete(Server(router.routes, needEof), old(Value()), e)
    {
      outstanding := outstanding[1..];
      if e.EndOfStream? || e.ReadError? || e.Upgrade? { return; }
      var req := e.request;
      var res := Response(req.version, req.keepAlive, 200, "", "");
      var handled, answer := router.Handle(req, res);
      if !handled {
        answer := answer.(status := 404, contentType := "text/plain", body := "Not Found");
      }
      requests := requests + [req];
      outstanding := outstanding + [WriteOp(answer)];
    }

    method OnWrite(ok: bool)
      requires Enabled(Value(), if ok then Written else WriteError)
      modifies this
      ensures Value() == Complete(Server(router.routes, needEof), old(Value()), if ok then Written else WriteError)
    {
      var response := outstanding[0].response;
      outstanding := outstanding[1..];
      if !ok { return; }
      responses := responses + [response];
      if needEof(response) { return; }
      outstanding := outstanding + [ReadOp];
    }
  }
}
