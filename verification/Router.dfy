// The route table keyed by method, colon and target in one string (src/Network/Router.h).
module Router {
  import opened Common

  datatype Request = Request(verb: string, target: string, version: nat, keepAlive: bool, body: string)
  datatype Response = Response(version: nat, keepAlive: bool, status: nat, contentType: string, body: string)

  // A handler fills in the response it is given.
  type Handler = (Request, Response) -> Response

  // One addRoute call.
  datatype Route = Route(verb: string, path: string, handler: Handler)

  function Key(verb: string, path: string): string { verb + ":" + path }

  // The table after the calls, in order.
  function Table(calls: seq<Route>): map<string, Handler> {
    if calls == [] then map[] else
      var n := |calls| - 1;
      Table(calls[..n])[Key(calls[n].verb, calls[n].path) := calls[n].handler]
  }

  // The response when a handler ran; None is the `false` answer.
  function HandleRequest(routes: map<string, Handler>, req: Request, res: Response): Option<Response> {
    var key := Key(req.verb, req.target);
    if key in routes then Some(routes[key](req, res)) else None
  }

  // The last call for exactly this pair: what a table keyed by pairs would hold.
  function LastRegistered(calls: seq<Route>, verb: string, path: string): Option<Route> {
    if calls == [] then None else
      var n := |calls| - 1;
      if calls[n].verb == verb && calls[n].path == path then Some(calls[n])
      else LastRegistered(calls[..n], verb, path)
  }

  // The last call whose pair joins to this key: the entry the table has.
  function InEffect(calls: seq<Route>, key: string): Option<Route> {
    if calls == [] then None else
      var n := |calls| - 1;
      if Key(calls[n].verb, calls[n].path) == key then Some(calls[n]) else InEffect(calls[..n], key)
  }

  predicate ColonFree(s: string) { ':' !in s }

  // The first colon of the key ends a colon-free method.
  lemma FirstColon(v: string, p: string)
    requires ColonFree(v)
    ensures Key(v, p)[|v|] == ':' && forall i :: 0 <= i < |v| ==> Key(v, p)[i] != ':'
  {
    forall i | 0 <= i < |v| ensures Key(v, p)[i] != ':' { assert Key(v, p)[i] == v[i]; }
  }

  // So the joined key splits in one way only, whatever colons the targets have.
  lemma KeySplits(v: string, p: string, w: string, q: string)
    requires ColonFree(v) && ColonFree(w) && Key(v, p) == Key(w, q)
    ensures v == w && p == q
  {
    FirstColon(v, p);
    FirstColon(w, q);
    var k := Key(v, p);
    assert v == k[..|v|] && w == k[..|w|];
    assert p == k[|v| + 1..] && q == k[|w| + 1..];
  }

  // Being colon-free is exactly what makes a method split off uniquely.
  lemma SplitsIffColonFree(v: string)
    ensures ColonFree(v) <==>
      forall p, w, q :: ColonFree(w) && Key(v, p) == Key(w, q) ==> v == w && p == q
  {
    if ColonFree(v) {
      forall p, w, q | ColonFree(w) && Key(v, p) == Key(w, q) ensures v == w && p == q { KeySplits(v, p, w, q); }
    } else {
      var w, q := SplitAtColon(v, "");
      assert ColonFree(w) && Key(v, "") == Key(w, q) && v != w;
    }
  }

  // The key of a method with a colon is also that of a shorter, colon-free method.
  lemma SplitAtColon(v: string, p: string) returns (w: string, q: string)
    requires !ColonFree(v)
    ensures ColonFree(w) && Key(w, q) == Key(v, p) && w != v
  {
    var i := FirstColonIn(v);
    w, q := v[..i], v[i + 1..] + ":" + p;
    assert v == w + ":" + v[i + 1..];
    assert |w| < |v|;
  }

  lemma {:induction false} FirstColonIn(v: string) returns (i: nat)
    requires !ColonFree(v)
    ensures i < |v| && v[i] == ':' && ColonFree(v[..i])
  {
    if v[0] == ':' {
      i := 0;
    } else {
      var j := FirstColonIn(v[1..]);
      i := j + 1;
      assert v[..i] == [v[0]] + v[1..][..j];
    }
  }

  // ---- which handler a request reaches ----

  lemma {:induction false} TableHolds(calls: seq<Route>, key: string)
    ensures key in Table(calls) <==> InEffect(calls, key).Some?
    ensures key in Table(calls) ==> Table(calls)[key] == InEffect(calls, key).value.handler
  {
    if calls != [] { TableHolds(calls[..|calls| - 1], key); }
  }

  lemma {:induction false} InEffectIs(calls: seq<Route>, key: string)
    requires InEffect(calls, key).Some?
    ensures var r := InEffect(calls, key).value; Key(r.verb, r.path) == key && r in calls
  {
    var n := |calls| - 1;
    if Key(calls[n].verb, calls[n].path) != key { InEffectIs(calls[..n], key); }
  }

  lemma {:induction false} LastRegisteredIs(calls: seq<Route>, v: string, p: string)
    requires LastRegistered(calls, v, p).Some?
    ensures var r := LastRegistered(calls, v, p).value; r.verb == v && r.path == p && r in calls
  {
    var n := |calls| - 1;
    if calls[n].verb != v || calls[n].path != p { LastRegisteredIs(calls[..n], v, p); }
  }

  // Whatever the methods: an entry that is the pair's own is the pair's last call.
  lemma {:induction false} OwnEntryIsLast(calls: seq<Route>, v: string, p: string)
    requires var e := InEffect(calls, Key(v, p)); e.Some? ==> e.value.verb == v && e.value.path == p
    ensures InEffect(calls, Key(v, p)) == LastRegistered(calls, v, p)
  {
    if calls != [] {
      var n := |calls| - 1;
      if Key(calls[n].verb, calls[n].path) != Key(v, p) { OwnEntryIsLast(calls[..n], v, p); }
    }
  }

  // A request with a token as method reaches the pair's last call if and only if the table's
  // entry under its key was registered with a colon-free method, or there is none.
  lemma RoutedRightIff(calls: seq<Route>, v: string, p: string)
    requires ColonFree(v)
    ensures InEffect(calls, Key(v, p)) == LastRegistered(calls, v, p) <==>
      var e := InEffect(calls, Key(v, p)); e.Some? ==> ColonFree(e.value.verb)
  {
    var e := InEffect(calls, Key(v, p));
    if e.None? {
      OwnEntryIsLast(calls, v, p);
    } else {
      InEffectIs(calls, Key(v, p));
      if ColonFree(e.value.verb) {
        KeySplits(e.value.verb, e.value.path, v, p);
        OwnEntryIsLast(calls, v, p);
      } else if LastRegistered(calls, v, p).Some? {
        LastRegisteredIs(calls, v, p);
      }
    }
  }

  ghost predicate LikeAPairMap(calls: seq<Route>) {
    forall v, p :: ColonFree(v) ==> InEffect(calls, Key(v, p)) == LastRegistered(calls, v, p)
  }

  // The call is still the table's entry for its key.
  ghost predicate StillInEffect(calls: seq<Route>, r: Route) { InEffect(calls, Key(r.verb, r.path)) == Some(r) }

  // All requests are routed as by a pair map if and only if every method with a colon has been
  // registered over by a colon-free one with the same key.
  lemma LikeAPairMapIff(calls: seq<Route>)
    ensures LikeAPairMap(calls) <==> forall r :: r in calls && StillInEffect(calls, r) ==> ColonFree(r.verb)
  {
    if LikeAPairMap(calls) {
      forall r | r in calls && StillInEffect(calls, r) ensures ColonFree(r.verb) {
        if !ColonFree(r.verb) {
          var w, q := SplitAtColon(r.verb, r.path);
          RoutedRightIff(calls, w, q);
          assert false;
        }
      }
    }
    if forall r :: r in calls && StillInEffect(calls, r) ==> ColonFree(r.verb) {
      forall v, p | ColonFree(v) ensures InEffect(calls, Key(v, p)) == LastRegistered(calls, v, p) {
        RoutedRightIff(calls, v, p);
        if InEffect(calls, Key(v, p)).Some? {
          InEffectIs(calls, Key(v, p));
          assert StillInEffect(calls, InEffect(calls, Key(v, p)).value);
        }
      }
    }
  }

  // After any calls at all, a request runs the handler of the entry in effect under its key, and
  // is refused if there is none.
  lemma RequestReachesEntry(calls: seq<Route>, req: Request, res: Response)
    ensures HandleRequest(Table(calls), req, res) ==
      match InEffect(calls, Key(req.verb, req.target)) case None => None case Some(r) => Some(r.handler(req, res))
  {
    TableHolds(calls, Key(req.verb, req.target));
  }

  // With colon-free methods, as tokens are, and any targets, that is the last handler registered
  // for exactly its method and target.
  lemma RoutesLikeAPairMap(calls: seq<Route>, req: Request, res: Response)
    requires ColonFree(req.verb) && forall i :: 0 <= i < |calls| ==> ColonFree(calls[i].verb)
    ensures HandleRequest(Table(calls), req, res) ==
      match LastRegistered(calls, req.verb, req.target) case None => None case Some(r) => Some(r.handler(req, res))
  {
    RequestReachesEntry(calls, req, res);
    LikeAPairMapIff(calls);
  }

  // A method with a colon in it would share keys with another route.
  lemma ColonsWouldCollide(a: string, b: string, c: string)
    ensures Key(a + ":" + b, c) == Key(a, b + ":" + c)
    ensures a + ":" + b != a
  {
    assert Key(a + ":" + b, c) == Key(a, b + ":" + c);
    assert |a + ":" + b| > |a|;
  }

  // Two calls after which a request of the first route, with a token as method, gets the other
  // route's answer; and one after which a request nobody registered is answered.
  lemma WrongHandlerHappens(a: string, b: string, c: string, first: Handler, second: Handler,
                            req: Request, res: Response)
    requires ColonFree(a) && req.verb == a && req.target == b + ":" + c
    ensures var calls := [Route(a, b + ":" + c, first), Route(a + ":" + b, c, second)];
      && LastRegistered(calls, req.verb, req.target) == Some(calls[0])
      && HandleRequest(Table(calls), req, res) == Some(second(req, res))
      && LastRegistered(calls[1..], req.verb, req.target) == None
      && HandleRequest(Table(calls[1..]), req, res) == Some(second(req, res))
  {
    ColonsWouldCollide(a, b, c);
    var calls := [Route(a, b + ":" + c, first), Route(a + ":" + b, c, second)];
    assert calls[..1] == [calls[0]] && calls[1..] == [calls[1]] && calls[1..][..0] == [];
    TableHolds(calls, Key(req.verb, req.target));
    TableHolds(calls[1..], Key(req.verb, req.target));
  }

  // `calls` is the history the map stands for.
  class RouteTable {
    var routes: map<string, Handler>
    ghost var calls: seq<Route>

    ghost predicate Valid()
      reads this
    {
      routes == Table(calls)
    }

    constructor ()
      ensures Valid() && calls == []
    {
      routes, calls := map[], [];
    }

    method AddRoute(verb: string, path: string, handler: Handler)
      requires Valid()
      modifies this
      ensures Valid() && calls == old(calls) + [Route(verb, path, handler)]
    {
      routes := routes[verb + ":" + path := handler];
      calls := calls + [Route(verb, path, handler)];
      assert calls[..|calls| - 1] == old(calls);
    }

    method Handle(req: Request, res: Response) returns (found: bool, res': Response)
      requires Valid()
      ensures HandleRequest(routes, req, res) == if found then Some(res') else None
      ensures var e := InEffect(calls, Key(req.verb, req.target));
        && (found <==> e.Some?)
        && res' == (if found then e.value.handler(req, res) else res)
        && (ColonFree(req.verb) && (found ==> ColonFree(e.value.verb)) ==>
              e == LastRegistered(calls, req.verb, req.target))
    {
      RequestReachesEntry(calls, req, res);
      if ColonFree(req.verb) { RoutedRightIff(calls, req.verb, req.target); }
      var key := req.verb + ":" + req.target;
      found := key in routes;
      res' := if found then routes[key](req, res) else res;
    }
  }
}
