/**
 Requests to the agent with port fallback: the candidate ports of a host, the
 port cache, and the loop that tries one port after the other
 (`desktop-app/app_transport.go`).
 */
module AgentTransport {
  import opened Options

  const BOSE_PORT := 8090
  const BOSE_UPNP_PORT := 8091

  function AltAgentPort(p: int): int {
    if p == 8888 then 17008 else 8888
  }

  /** The caller's port as an agent port: never one of the speaker's own, never zero. */
  function CallerPort(port: int): int {
    if port == BOSE_PORT || port == BOSE_UPNP_PORT || port == 0 then 17008 else port
  }

  // ----- the outside -----

  /** What reading the first byte of a body of unknown length yields. */
  datatype Peek = SomeByte | EndOfBody | ReadError

  /** What trying one port comes to: the request cannot be built, something answers, or nothing does. */
  datatype Outcome =
    | NotBuilt
    | Answered(status: int, contentLength: int, peek: Peek)
    | Failed(wrote: bool, notReady: bool)

  type Net = int -> Outcome

  datatype Request = Request(meth: string, path: string)

  predicate Idempotent(meth: string) {
    meth == "GET" || meth == "HEAD" || meth == "OPTIONS"
  }

  predicate BodyIsEmpty(contentLength: int, peek: Peek) {
    contentLength == 0 || (contentLength < 0 && peek == EndOfBody)
  }

  /** The answer plainly is not the agent's: a 404, or a 4xx without a body, on a path of its own. */
  predicate Stranger(o: Outcome, path: string) {
    && o.Answered? && "/api/" <= path
    && (o.status == 404 || (400 <= o.status < 500 && BodyIsEmpty(o.contentLength, o.peek)))
  }

  /** A response body, to be closed by whoever holds it last. */
  class Response {
    const status: int
    const port: int
    var open: bool

    constructor (status: int, port: int)
      ensures this.status == status && this.port == port && open
    {
      this.status, this.port, open := status, port, true;
    }

    method Close()
      modifies this
      ensures !open
    {
      open := false;
    }
  }

  datatype Reply = Got(resp: Response) | Err(e: Failure)

  datatype Failure =
    | BadRequest(port: int)
    | TookRequest(port: int)
    | Refused(port: int)
    | Unreachable(ports: seq<int>)

  // ----- the candidate ports -----

  /** `s` without the repeats: every element where it first occurs. */
  function Dedup(s: seq<int>): seq<int> {
    if s == [] then []
    else
      var n := |s| - 1;
      Dedup(s[..n]) + if s[n] in s[..n] then [] else [s[n]]
  }

  lemma {:induction false} DedupIs(s: seq<int>)
    ensures forall x :: x in Dedup(s) <==> x in s
    ensures forall i, j :: 0 <= i < j < |Dedup(s)| ==> Dedup(s)[i] != Dedup(s)[j]
    ensures s != [] ==> Dedup(s) != [] && Dedup(s)[0] == s[0]
  {
    if s != [] {
      var n := |s| - 1;
      DedupIs(s[..n]);
      assert s == s[..n] + [s[n]];
    }
  }

  function Ordered(cached: Option<int>, port: int): seq<int> {
    var p := CallerPort(port);
    (if cached.Some? then [cached.value] else []) + [p, AltAgentPort(p)]
  }

  /** The ports to try for a host: the cached one, the caller's, the other agent port. */
  function Candidates(cached: Option<int>, port: int): seq<int> {
    Dedup(Ordered(cached, port))
  }

  /** No port is tried twice, the cached one comes first, no port of the speaker's own firmware gets
      in unless it was cached, and an ordinary caller's candidates hold both agent ports. */
  lemma CandidatesAre(cached: Option<int>, port: int)
    ensures var cands := Candidates(cached, port);
            && (forall i, j :: 0 <= i < j < |cands| ==> cands[i] != cands[j])
            && cands != [] && cands[0] == (if cached.Some? then cached.value else CallerPort(port))
            && (forall p :: p in cands ==> p !in {BOSE_PORT, BOSE_UPNP_PORT} || cached == Some(p))
            && (port in {0, 8888, 17008, BOSE_PORT, BOSE_UPNP_PORT} ==> 8888 in cands && 17008 in cands)
    ensures var p := if port in {0, 8090, 8091} then 17008 else port;
            var cands := Candidates(cached, port);
            && (cached.None? ==> cands == [p, if p == 8888 then 17008 else 8888])
            && (cached.Some? ==>
                && cands[0] == cached.value
                && forall q :: q in cands <==> q in {cached.value, p, if p == 8888 then 17008 else 8888})
  {
    hide Dedup;
    DedupIs(Ordered(cached, port));
    var p := CallerPort(port);
    var other := AltAgentPort(p);
    assert p in Ordered(cached, port) && other in Ordered(cached, port);
    if cached.None? {
      TwoPorts(p, other);
      assert Ordered(cached, port) == [p, other];
    }
  }

  lemma TwoPorts(p: int, q: int)
    ensures p != q ==> Dedup([p, q]) == [p, q]
  {
    assert [p, q][..1] == [p] && [p][..0] == [];
    assert Dedup([p]) == [p];
  }

  lemma DedupMore(s: seq<int>, p: int)
    ensures Dedup(s + [p]) == Dedup(s) + if p in s then [] else [p]
    ensures |Dedup(s)| <= |s|
    decreases s
  {
    assert (s + [p])[..|s|] == s;
    if s != [] {
      DedupMore(s[..|s| - 1], s[|s| - 1]);
      assert s == s[..|s| - 1] + [s[|s| - 1]];
    }
  }

  /** The repeats squeezed out of the array in place, as the slice that shares its memory is filled. */
  method DedupInPlace(order: array<int>) returns (kept: nat)
    modifies order
    ensures kept <= order.Length && order[..kept] == Dedup(old(order[..]))
  {
    hide Dedup;
    ghost var was := order[..];
    var seen: set<int> := {};
    kept := 0;
    assert was[..0] == [];
    DedupNone();
    for i := 0 to order.Length
      invariant kept <= i && order[..kept] == Dedup(was[..i])
      invariant forall p :: p in seen <==> p in was[..i]
      invariant forall j :: i <= j < order.Length ==> order[j] == was[j]
    {
      var p := order[i];
      assert was[..i + 1] == was[..i] + [p];
      DedupMore(was[..i], p);
      if p !in seen {
        seen := seen + {p};
        order[kept] := p;
        kept := kept + 1;
        assert order[..kept] == Dedup(was[..i]) + [p];
      }
    }
    assert was[..order.Length] == was;
  }

  lemma DedupNone()
    ensures Dedup([]) == []
  {
  }

  // ----- what a call comes to -----

  /** The search goes on past this port: a stranger, or a port the request may safely be repeated for. */
  predicate Passed(o: Outcome, r: Request) {
    Stranger(o, r.path) || (o.Failed? && o.notReady && !(o.wrote && !Idempotent(r.meth)))
  }

  /** The place of the first port that ends the search. */
  function StopAt(cands: seq<int>, net: Net, r: Request): (n: nat)
    ensures n <= |cands|
    ensures forall i :: 0 <= i < n ==> Passed(net(cands[i]), r)
    ensures n < |cands| ==> !Passed(net(cands[n]), r)
  {
    if cands == [] || !Passed(net(cands[0]), r) then 0 else 1 + StopAt(cands[1..], net, r)
  }

  /** The last stranger among `ports`. */
  function LastStranger(ports: seq<int>, net: Net, r: Request): Option<int> {
    if ports == [] then None
    else
      var n := |ports| - 1;
      if Stranger(net(ports[n]), r.path) then Some(ports[n]) else LastStranger(ports[..n], net, r)
  }

  /** The ports among `ports` that did not answer, in order. */
  function Silent(ports: seq<int>, net: Net): seq<int> {
    if ports == [] then []
    else
      var n := |ports| - 1;
      Silent(ports[..n], net) + if net(ports[n]).Failed? then [ports[n]] else []
  }

  /** The stranger whose answer stands in for the agent's is the last one there was. */
  lemma {:induction false} LastStrangerIs(ports: seq<int>, net: Net, r: Request, i: nat)
    requires i < |ports| && forall j :: i < j < |ports| ==> !Stranger(net(ports[j]), r.path)
    ensures Stranger(net(ports[i]), r.path) ==> LastStranger(ports, net, r) == Some(ports[i])
    ensures i == 0 && !Stranger(net(ports[0]), r.path) ==> LastStranger(ports, net, r) == None
    decreases |ports|
  {
    if i < |ports| - 1 { LastStrangerIs(ports[..|ports| - 1], net, r, i); }
  }

  /** The ports reported as unreachable are those that did not answer, the first of them in front. */
  lemma {:induction false} SilentIs(ports: seq<int>, net: Net)
    ensures forall p :: p in Silent(ports, net) <==> p in ports && net(p).Failed?
    ensures forall i :: 0 <= i < |ports| && net(ports[i]).Failed? && (forall j :: 0 <= j < i ==> !net(ports[j]).Failed?)
                        ==> Silent(ports, net) != [] && Silent(ports, net)[0] == ports[i]
  {
    if ports != [] {
      var n := |ports| - 1;
      SilentIs(ports[..n], net);
      assert ports == ports[..n] + [ports[n]];
      if Silent(ports[..n], net) == [] {
        forall j | 0 <= j < n ensures !net(ports[j]).Failed? { assert ports[j] in ports[..n]; }
      } else {
        var p := Silent(ports[..n], net)[0];
        assert p in Silent(ports[..n], net);
      }
    }
  }

  /** Whose answer, or which error, the caller gets. */
  datatype Verdict = Answer(port: int) | Error(failure: Failure)

  function VerdictOf(cands: seq<int>, net: Net, r: Request): Verdict {
    var n := StopAt(cands, net, r);
    var stranger := LastStranger(cands[..n], net, r);
    if n == |cands| then
      if stranger.Some? then Answer(stranger.value) else Error(Unreachable(Silent(cands, net)))
    else
      match net(cands[n])
      case NotBuilt => Error(BadRequest(cands[n]))
      case Answered(_, _, _) => Answer(cands[n])
      case Failed(wrote, _) =>
        if wrote && !Idempotent(r.meth) then Error(TookRequest(cands[n]))
        else if stranger.Some? then Answer(stranger.value)
        else Error(Refused(cands[n]))
  }

  /** The port the call ends with as the agent's: the one that answered, or that took the request. */
  predicate IsAgentAt(o: Outcome, r: Request) {
    (o.Answered? && !Stranger(o, r.path)) || (o.Failed? && o.wrote && !Idempotent(r.meth))
  }

  /** The port cache of the host after the call. */
  function CachedAfter(cached: Option<int>, cands: seq<int>, net: Net, r: Request): Option<int> {
    var n := StopAt(cands, net, r);
    if n < |cands| && IsAgentAt(net(cands[n]), r) then Some(cands[n])
    else if n > 0 then None
    else cached
  }

  /** The ports the call sent the request to. */
  ghost function Tried(cands: seq<int>, net: Net, r: Request): seq<int> {
    var n := StopAt(cands, net, r);
    if n < |cands| then cands[..n + 1] else cands
  }

  /** The request reached something at the port. */
  predicate Delivered(o: Outcome) {
    o.Answered? || (o.Failed? && o.wrote)
  }

  /** When the search goes on past a port: at something that answers on a path of the agent's with a 404, or with
      a 4xx and no body; and at one that is not ready, unless it already took a request other than a read. */
  lemma PassedExactly(o: Outcome, r: Request)
    ensures Passed(o, r) <==>
            match o
            case NotBuilt => false
            case Answered(status, length, peek) =>
              && |r.path| >= 5 && r.path[..5] == "/api/"
              && (status == 404 || (400 <= status < 500 && (length == 0 || (length < 0 && peek == EndOfBody))))
            case Failed(wrote, notReady) => notReady && (wrote ==> r.meth in {"GET", "HEAD", "OPTIONS"})
  {
  }

  /** And where it ends at the agent: at any other answer, or at a port that took such a request and failed. */
  lemma AgentExactly(o: Outcome, r: Request)
    ensures IsAgentAt(o, r) <==> (o.Answered? && !Passed(o, r))
                                 || (o.Failed? && o.wrote && r.meth !in {"GET", "HEAD", "OPTIONS"})
  {
  }

  /** A POST, a PUT, a DELETE, any request but the three reads is delivered to at most one port that is no
      stranger. */
  lemma DeliveredOnce(cands: seq<int>, net: Net, r: Request, i: nat, j: nat)
    requires r.meth !in {"GET", "HEAD", "OPTIONS"} && i < |Tried(cands, net, r)| && j < |Tried(cands, net, r)|
    requires var t := Tried(cands, net, r);
             Delivered(net(t[i])) && !Stranger(net(t[i]), r.path) && Delivered(net(t[j]))
               && !Stranger(net(t[j]), r.path)
    ensures i == j
  {
    var n := StopAt(cands, net, r);
    assert !Passed(net(Tried(cands, net, r)[i]), r) && !Passed(net(Tried(cands, net, r)[j]), r);
  }

  /** Once a port has taken such a request no other one is tried, whatever the failure was: the caller gets that
      port's own error, and the port is cached as the agent's. */
  lemma TakenStands(cached: Option<int>, cands: seq<int>, net: Net, r: Request, i: nat)
    requires r.meth !in {"GET", "HEAD", "OPTIONS"} && i < |cands| && net(cands[i]).Failed? && net(cands[i]).wrote
    requires forall j :: 0 <= j < i ==> Passed(net(cands[j]), r)
    ensures Tried(cands, net, r) == cands[..i + 1]
    ensures VerdictOf(cands, net, r) == Error(TookRequest(cands[i]))
    ensures CachedAfter(cached, cands, net, r) == Some(cands[i])
  {
    var n := StopAt(cands, net, r);
    assert n == i;
  }

  /** A read that a port took is sent to the next one all the same. */
  lemma ReadIsRepeated(cands: seq<int>, net: Net, r: Request, i: nat)
    requires r.meth in {"GET", "HEAD", "OPTIONS"} && i + 1 < |cands| && net(cands[i]).Failed? && net(cands[i]).notReady
    requires forall j :: 0 <= j < i ==> Passed(net(cands[j]), r)
    ensures i + 1 < |Tried(cands, net, r)| && Tried(cands, net, r)[i + 1] == cands[i + 1]
  {
    var n := StopAt(cands, net, r);
    assert n > i;
  }

  /**
   The caller gets port `cands[i]`'s answer, and the port is cached as the
   agent's, whenever the agent answers there and every earlier port was a
   stranger, or a failure that leaves the request safe to repeat.
   */
  lemma HealsTo(cached: Option<int>, cands: seq<int>, net: Net, r: Request, i: nat)
    requires i < |cands| && net(cands[i]).Answered? && !Stranger(net(cands[i]), r.path)
    requires forall j :: 0 <= j < i ==> Passed(net(cands[j]), r)
    ensures VerdictOf(cands, net, r) == Answer(cands[i]) && CachedAfter(cached, cands, net, r) == Some(cands[i])
  {
    var n := StopAt(cands, net, r);
    assert n == i;
  }

  /** A port is cached after the call exactly if it is where the search stopped, at the agent, or the
      search stopped at the first port with nothing learned and it was cached before. */
  lemma CachedExactlyWhen(cached: Option<int>, cands: seq<int>, net: Net, r: Request, p: int)
    ensures CachedAfter(cached, cands, net, r) == Some(p) <==>
            || (exists i :: 0 <= i < |cands| && cands[i] == p && IsAgentAt(net(p), r)
                            && forall j :: 0 <= j < i ==> Passed(net(cands[j]), r))
            || (cached == Some(p) && (cands == [] || (!Passed(net(cands[0]), r) && !IsAgentAt(net(cands[0]), r))))
  {
    var n := StopAt(cands, net, r);
    forall i | 0 <= i < |cands| && IsAgentAt(net(cands[i]), r) && (forall j :: 0 <= j < i ==> Passed(net(cands[j]), r))
      ensures i == n
    {
      assert !Passed(net(cands[i]), r);
    }
  }

  /** The self-healing over two calls: after a call that found the agent, the next one tries that port first. */
  lemma NextCallStartsThere(cached: Option<int>, port: int, net: Net, r: Request, i: nat, port': int)
    requires var cands := Candidates(cached, port);
             i < |cands| && net(cands[i]).Answered? && !Stranger(net(cands[i]), r.path)
             && forall j :: 0 <= j < i ==> Passed(net(cands[j]), r)
    ensures var cands := Candidates(cached, port);
            var next := Candidates(CachedAfter(cached, cands, net, r), port');
            next != [] && next[0] == cands[i]
  {
    var cands := Candidates(cached, port);
    HealsTo(cached, cands, net, r, i);
    CandidatesAre(CachedAfter(cached, cands, net, r), port');
  }

  /** No host is cached on a port of the speaker's own firmware. */
  ghost predicate NoBosePorts(cache: map<string, int>) {
    forall h :: h in cache ==> cache[h] !in {BOSE_PORT, BOSE_UPNP_PORT}
  }

  // ----- the app's part -----

  class Transport {
    var portCache: map<string, int>
    var portAt: map<string, int>

    constructor ()
      ensures portCache == map[] && portAt == map[]
    {
      portCache, portAt := map[], map[];
    }

    method RememberPort(host: string, port: int, now: int)
      modifies this
      ensures portCache == old(portCache)[host := port] && portAt == old(portAt)[host := now]
    {
      portCache := portCache[host := port];
      portAt := portAt[host := now];
    }

    method ForgetPort(host: string)
      modifies this
      ensures portCache == old(portCache) - {host} && portAt == old(portAt) - {host}
    {
      portCache := portCache - {host};
      portAt := portAt - {host};
    }

    method CandidatePorts(host: string, port: int) returns (cands: seq<int>)
      ensures cands == Candidates(Lookup(portCache, host), port)
    {
      var p := port;
      if p == BOSE_PORT || p == BOSE_UPNP_PORT {
        p := 0;
      }
      if p == 0 {
        p := 17008;
      }
      var order;
      if host in portCache {
        order := new int[3];
        order[0], order[1], order[2] := portCache[host], p, AltAgentPort(p);
      } else {
        order := new int[2];
        order[0], order[1] := p, AltAgentPort(p);
      }
      assert order[..] == Ordered(Lookup(portCache, host), port);
      var kept := DedupInPlace(order);
      cands := order[..kept];
    }

    /** What trying port `p` yields: a fresh response where something answers. */
    method Try(p: int, net: Net) returns (o: Outcome, resp: Response?)
      ensures o == net(p)
      ensures resp != null <==> o.Answered?
      ensures resp != null ==> fresh(resp) && resp.open && resp.port == p && resp.status == o.status
    {
      o := net(p);
      resp := null;
      match o {
        case Answered(status, _, _) => resp := new Response(status, p);
        case _ =>
      }
    }

    /** One port: hand back an answer or an error, or keep the stranger's answer and go on. */
    method TryPort(host: string, p: int, r: Request, net: Net, now: int, stranger: Response?)
      returns (done: Option<Reply>, next: Response?, resp: Response?)
      requires stranger != null ==> stranger.open
      modifies this, if stranger == null then {} else {stranger}
      ensures resp != null <==> net(p).Answered?
      ensures resp != null ==> fresh(resp) && resp.port == p && resp.status == net(p).status
                               && (resp.open <==> done == Some(Got(resp)) || resp == next)
      ensures stranger != null ==> (stranger.open <==> done == Some(Got(stranger)) || stranger == next)
      ensures done.None? <==> Passed(net(p), r)
      ensures done.None? ==> next == (if Stranger(net(p), r.path) then resp else stranger)
                             && portCache == old(portCache) - {host}
      ensures done.Some? ==> next == null
      ensures done.Some? ==> done.value == (match net(p)
                             case NotBuilt => Err(BadRequest(p))
                             case Answered(_, _, _) => Got(resp)
                             case Failed(wrote, _) =>
                               if wrote && !Idempotent(r.meth) then Err(TookRequest(p))
                               else if stranger != null then Got(stranger)
                               else Err(Refused(p)))
      ensures done.Some? ==> portCache == if IsAgentAt(net(p), r) then old(portCache)[host := p] else old(portCache)
    {
      hide Stranger;
      StrangerAnswers(net(p), r.path);
      next := null;
      var o;
      o, resp := Try(p, net);
      if o == NotBuilt {
        if stranger != null {
          stranger.Close();
        }
        return Some(Err(BadRequest(p))), null, null;
      }
      if resp != null {
        if Stranger(o, r.path) {
          if stranger != null {
            stranger.Close();
          }
          ForgetPort(host);
          return None, resp, resp;
        }
        RememberPort(host, p, now);
        if stranger != null {
          stranger.Close();
        }
        return Some(Got(resp)), null, resp;
      }
      if o.wrote && !Idempotent(r.meth) {
        RememberPort(host, p, now);
        if stranger != null {
          stranger.Close();
        }
        return Some(Err(TookRequest(p))), null, null;
      }
      if !o.notReady {
        if stranger != null {
          return Some(Got(stranger)), null, null;
        }
        return Some(Err(Refused(p))), null, null;
      }
      ForgetPort(host);
      return None, stranger, null;
    }

    /**
     One call: each candidate port in turn until the agent answers. Every response
     it opened is closed when it returns, but for the one it hands back.
     */
    method BoxDo(host: string, port: int, r: Request, net: Net, now: int)
      returns (reply: Reply, ghost bodies: set<Response>, ghost tried: seq<int>)
      modifies this
      ensures fresh(bodies) && (reply.Got? ==> reply.resp in bodies)
      ensures forall x :: x in bodies ==> (x.open <==> reply == Got(x))
      ensures var cands := Candidates(old(Lookup(portCache, host)), port);
              && tried == Tried(cands, net, r)
              && OneBodyEach(bodies, tried, net)
              && Lookup(portCache, host) == CachedAfter(old(Lookup(portCache, host)), cands, net, r)
              && match VerdictOf(cands, net, r)
                 case Answer(p) => reply.Got? && reply.resp.port == p && net(p).Answered?
                   && reply.resp.status == net(p).status
                 case Error(f) => reply == Err(f)
      ensures forall h :: h != host ==> Lookup(portCache, h) == old(Lookup(portCache, h))
      ensures NoBosePorts(old(portCache)) ==> NoBosePorts(portCache)
    {
      var cands := CandidatePorts(host, port);
      CandidatesAre(Lookup(portCache, host), port);
      hide Candidates, StopAt, LastStranger, Silent, Stranger, NoBosePorts, Passed, IsAgentAt, StrangerHeld, VerdictOf,
           CachedAfter, Tried, OneBodyEach;
      ghost var cache := portCache;
      bodies, tried := {}, [];
      var stranger: Response? := null;
      var failed := [];
      assert cands[..0] == [];
      NothingHeld(net, r);
      NoBodies(net);
      for i := 0 to |cands|
        invariant fresh(bodies) && (stranger != null ==> stranger in bodies)
        invariant forall x :: x in bodies ==> (x.open <==> x == stranger)
        invariant tried == cands[..i] && OneBodyEach(bodies, tried, net)
        invariant forall j :: 0 <= j < i ==> Passed(net(cands[j]), r)
        invariant StrangerHeld(stranger, cands[..i], net, r)
        invariant failed == Silent(cands[..i], net)
        invariant portCache == if i == 0 then cache else cache - {host}
      {
        var p := cands[i];
        assert cands[..i + 1] == cands[..i] + [p];
        SilentMore(cands[..i], p, net);
        StrangerHeldMeans(stranger, cands[..i], net, r);
        var done, next, resp := TryPort(host, p, r, net, now, stranger);
        OneBodyMore(bodies, tried, net, p, resp);
        tried := cands[..i + 1];
        bodies := bodies + if resp == null then {} else {resp};
        if done.Some? {
          StopsHere(cands, net, r, i, Lookup(cache, host));
          AgentPortsKept(cache, portCache, host, p, cands);
          return done.value, bodies, tried;
        }
        PassedIs(net(p), r);
        if resp == null {
          failed := failed + [p];
        }
        StrangerHeldMore(stranger, next, resp, cands[..i], p, net, r);
        stranger := next;
      }
      assert cands[..|cands|] == cands;
      StopsNowhere(cands, net, r, Lookup(cache, host));
      StrangerHeldMeans(stranger, cands, net, r);
      AgentPortsKept(cache, portCache, host, cands[0], cands);
      if stranger != null {
        return Got(stranger), bodies, tried;
      }
      return Err(Unreachable(failed)), bodies, tried;
    }
  }

  /** Every port tried that answered has its response among `bodies`. */
  ghost predicate OneBodyEach(bodies: set<Response>, tried: seq<int>, net: Net) {
    forall p :: p in tried && net(p).Answered? ==> exists x :: x in bodies && x.port == p
  }

  lemma NoBodies(net: Net)
    ensures OneBodyEach({}, [], net)
  {
  }

  lemma OneBodyMore(bodies: set<Response>, tried: seq<int>, net: Net, p: int, resp: Response?)
    requires OneBodyEach(bodies, tried, net) && (net(p).Answered? ==> resp != null && resp.port == p)
    ensures OneBodyEach(bodies + if resp == null then {} else {resp}, tried + [p], net)
  {
    var more := bodies + if resp == null then {} else {resp};
    forall q | q in tried + [p] && net(q).Answered? ensures exists x :: x in more && x.port == q {
      if q in tried {
        var x :| x in bodies && x.port == q;
        assert x in more;
      } else {
        assert resp in more;
      }
    }
  }

  /** The stranger's answer kept as a fallback is the last one's. */
  ghost predicate StrangerHeld(stranger: Response?, ports: seq<int>, net: Net, r: Request) {
    match LastStranger(ports, net, r)
    case None => stranger == null
    case Some(p) => stranger != null && stranger.port == p && net(p).Answered? && stranger.status == net(p).status
  }

  lemma NothingHeld(net: Net, r: Request)
    ensures StrangerHeld(null, [], net, r) && Silent([], net) == []
  {
  }

  lemma StrangerHeldMeans(stranger: Response?, ports: seq<int>, net: Net, r: Request)
    requires StrangerHeld(stranger, ports, net, r)
    ensures match LastStranger(ports, net, r)
            case None => stranger == null
            case Some(p) => stranger != null && stranger.port == p && net(p).Answered?
                                                && stranger.status == net(p).status
  {
  }

  lemma StrangerHeldMore(stranger: Response?, next: Response?, resp: Response?, ports: seq<int>, p: int, net: Net,
                         r: Request)
    requires StrangerHeld(stranger, ports, net, r) && next == if Stranger(net(p), r.path) then resp else stranger
    requires net(p).Answered? ==> resp != null && resp.port == p && resp.status == net(p).status
    ensures StrangerHeld(next, ports + [p], net, r)
  {
    hide Stranger;
    StrangerAnswers(net(p), r.path);
    assert (ports + [p])[..|ports|] == ports;
  }

  /** A cache that changed at most at the host, and there to a candidate that is no Bose port. */
  lemma AgentPortsKept(was: map<string, int>, cache: map<string, int>, host: string, p: int, cands: seq<int>)
    requires p in cands
    requires cache == was || cache == was - {host} || cache == was[host := p] || cache == (was - {host})[host := p]
    requires forall q :: q in cands ==> q !in {BOSE_PORT, BOSE_UPNP_PORT} || Lookup(was, host) == Some(q)
    ensures NoBosePorts(was) ==> NoBosePorts(cache)
  {
  }

  lemma PassedIs(o: Outcome, r: Request)
    ensures Passed(o, r) ==> o.Failed? || (o.Answered? && Stranger(o, r.path))
  {
    StrangerAnswers(o, r.path);
  }

  lemma StrangerAnswers(o: Outcome, path: string)
    ensures Stranger(o, path) ==> o.Answered?
  {
  }

  lemma SilentMore(ports: seq<int>, p: int, net: Net)
    ensures Silent(ports + [p], net) == Silent(ports, net) + if net(p).Failed? then [p] else []
  {
    assert (ports + [p])[..|ports|] == ports;
  }

  /** The search ends at the first port that does not pass. */
  lemma StopsHere(cands: seq<int>, net: Net, r: Request, i: nat, cached: Option<int>)
    requires i < |cands| && !Passed(net(cands[i]), r) && forall j :: 0 <= j < i ==> Passed(net(cands[j]), r)
    ensures StopAt(cands, net, r) == i && Tried(cands, net, r) == cands[..i + 1]
    ensures CachedAfter(cached, cands, net, r) ==
            if IsAgentAt(net(cands[i]), r) then Some(cands[i]) else if i > 0 then None else cached
    ensures var stranger := LastStranger(cands[..i], net, r);
            VerdictOf(cands, net, r) ==
            match net(cands[i])
            case NotBuilt => Error(BadRequest(cands[i]))
            case Answered(_, _, _) => Answer(cands[i])
            case Failed(wrote, _) =>
              if wrote && !Idempotent(r.meth) then Error(TookRequest(cands[i]))
              else if stranger.Some? then Answer(stranger.value)
              else Error(Refused(cands[i]))
  {
    hide Passed, IsAgentAt;
    var n := StopAt(cands, net, r);
    assert !(n < i) && !(i < n);
  }

  lemma StopsNowhere(cands: seq<int>, net: Net, r: Request, cached: Option<int>)
    requires cands != [] && forall j :: 0 <= j < |cands| ==> Passed(net(cands[j]), r)
    ensures Tried(cands, net, r) == cands && CachedAfter(cached, cands, net, r) == None
    ensures var stranger := LastStranger(cands, net, r);
            VerdictOf(cands, net, r) == if stranger.Some? then Answer(stranger.value)
              else Error(Unreachable(Silent(cands, net)))
  {
    hide Passed, IsAgentAt;
    assert StopAt(cands, net, r) == |cands|;
    assert cands[..|cands|] == cands;
  }
}
