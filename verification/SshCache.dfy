/**
 The per-host SSH connection cache of `desktop-app/boxssh.go` under every
 interleaving of its operations. One action is what a goroutine does between
 two mutex operations; a slot's mutex is held across a dial.
 */
module SshCache {
  import opened Options

  /** A host's slot: the live transport, and whether its mutex is held by a dial. */
  datatype Slot = Slot(host: string, client: Option<nat>, dialing: bool)

  /** Where a goroutine stands: between its operations, with a slot in hand, or about to close. */
  datatype Op =
    | Idle
    | Getting(slot: nat)
    | Dialing(slot: nat)
    | Dropping(transport: nat, slot: nat)
    | Taking(slot: nat)
    | Closing(transport: nat)

  /** Slots and transports are numbered as they come; `birth` says which slot a transport was dialled for. */
  datatype Cache = Cache(hosts: map<string, nat>, slots: seq<Slot>, birth: seq<nat>, closed: set<nat>,
                         ops: map<nat, Op>)

  const EMPTY_CACHE: Cache := Cache(map[], [], [], {}, map[])

  datatype Action =
    | Get(tid: nat, host: string)
    | Reuse(tid: nat)
    | StartDial(tid: nat)
    | DialFailed(tid: nat)
    | DialDone(tid: nat)
    | Invalidate(tid: nat, host: string, transport: nat)
    | Drop(tid: nat)
    | InvalidateHost(tid: nat, host: string)
    | ForgetHost(tid: nat, host: string)
    | Take(tid: nat)
    | Close(tid: nat)

  function OpOf(c: Cache, tid: nat): Op {
    if tid in c.ops then c.ops[tid] else Idle
  }

  /** The cache with the host's slot in it, created on first use. */
  function WithSlot(c: Cache, host: string): Cache {
    if host in c.hosts then c
    else c.(hosts := c.hosts[host := |c.slots|], slots := c.slots + [Slot(host, None, false)])
  }

  function SlotOf(c: Cache, host: string): nat {
    if host in c.hosts then c.hosts[host] else |c.slots|
  }

  /** The slot is there and no dial holds its mutex. */
  predicate Free(c: Cache, s: nat) {
    s < |c.slots| && !c.slots[s].dialing
  }

  predicate Enabled(c: Cache, a: Action) {
    match a
    case Get(tid, _) => OpOf(c, tid).Idle?
    case Reuse(tid) => OpOf(c, tid).Getting? && Free(c, OpOf(c, tid).slot) && c.slots[OpOf(c, tid).slot].client.Some?
    case StartDial(tid) => OpOf(c, tid).Getting? && Free(c, OpOf(c, tid).slot)
      && c.slots[OpOf(c, tid).slot].client.None?
    case DialFailed(tid) => OpOf(c, tid).Dialing? && OpOf(c, tid).slot < |c.slots|
    case DialDone(tid) => OpOf(c, tid).Dialing? && OpOf(c, tid).slot < |c.slots|
    case Invalidate(tid, host, t) =>
      // a caller drops a transport it got for that host
      OpOf(c, tid).Idle? && t < |c.birth| && c.birth[t] < |c.slots| && c.slots[c.birth[t]].host == host
    case Drop(tid) => OpOf(c, tid).Dropping? && Free(c, OpOf(c, tid).slot)
    case InvalidateHost(tid, _) => OpOf(c, tid).Idle?
    case ForgetHost(tid, _) => OpOf(c, tid).Idle?
    case Take(tid) => OpOf(c, tid).Taking? && Free(c, OpOf(c, tid).slot)
    case Close(tid) => OpOf(c, tid).Closing?
  }

  function Do(c: Cache, a: Action): Cache
    requires Enabled(c, a)
  {
    match a
    case Get(tid, host) => WithSlot(c, host).(ops := c.ops[tid := Getting(SlotOf(c, host))])
    case Reuse(tid) => c.(ops := c.ops[tid := Idle])
    case StartDial(tid) =>
      var s := OpOf(c, tid).slot;
      c.(slots := c.slots[s := c.slots[s].(dialing := true)], ops := c.ops[tid := Dialing(s)])
    case DialFailed(tid) =>
      var s := OpOf(c, tid).slot;
      c.(slots := c.slots[s := c.slots[s].(dialing := false)], ops := c.ops[tid := Idle])
    case DialDone(tid) =>
      var s := OpOf(c, tid).slot;
      c.(slots := c.slots[s := c.slots[s].(dialing := false, client := Some(|c.birth|))],
         birth := c.birth + [s], ops := c.ops[tid := Idle])
    case Invalidate(tid, host, t) => WithSlot(c, host).(ops := c.ops[tid := Dropping(t, SlotOf(c, host))])
    case Drop(tid) =>
      var s, t := OpOf(c, tid).slot, OpOf(c, tid).transport;
      c.(slots := if c.slots[s].client == Some(t) then c.slots[s := c.slots[s].(client := None)] else c.slots,
         ops := c.ops[tid := Closing(t)])
    case InvalidateHost(tid, host) => WithSlot(c, host).(ops := c.ops[tid := Taking(SlotOf(c, host))])
    case ForgetHost(tid, host) =>
      if host in c.hosts then c.(hosts := c.hosts - {host}, ops := c.ops[tid := Taking(c.hosts[host])])
      else c
    case Take(tid) =>
      var s := OpOf(c, tid).slot;
      c.(slots := c.slots[s := c.slots[s].(client := None)],
         ops := c.ops[tid := if c.slots[s].client.Some? then Closing(c.slots[s].client.value) else Idle])
    case Close(tid) => c.(closed := c.closed + {OpOf(c, tid).transport}, ops := c.ops[tid := Idle])
  }

  // ----- what holds in every state -----

  /** The slot is the one the cache has for its host. */
  predicate Listed(c: Cache, s: nat) {
    s < |c.slots| && c.slots[s].host in c.hosts && c.hosts[c.slots[s].host] == s
  }

  ghost predicate HostsValid(c: Cache) {
    forall h :: h in c.hosts ==> c.hosts[h] < |c.slots| && c.slots[c.hosts[h]].host == h
  }

  /** A transport is only ever in the slot it was dialled for, and never in one that is being dialled. */
  ghost predicate InPlace(c: Cache) {
    && (forall t :: 0 <= t < |c.birth| ==> c.birth[t] < |c.slots|)
    && forall s :: 0 <= s < |c.slots| && c.slots[s].client.Some? ==>
         && c.slots[s].client.value < |c.birth| && c.birth[c.slots[s].client.value] == s && !c.slots[s].dialing
  }

  ghost predicate ListedOpen(c: Cache) {
    forall s :: 0 <= s < |c.slots| && Listed(c, s) && c.slots[s].client.Some? ==> c.slots[s].client.value !in c.closed
  }

  /** What a goroutine in the middle of an operation may rely on. */
  ghost predicate OpValid(c: Cache, op: Op) {
    match op
    case Idle => true
    case Getting(s) => s < |c.slots|
    case Dialing(s) => s < |c.slots| && c.slots[s].dialing
    case Dropping(t, s) => s < |c.slots| && t < |c.birth| && (c.birth[t] == s || !Listed(c, c.birth[t]))
    case Taking(s) => s < |c.slots|
    case Closing(t) =>
      && t < |c.birth| && c.birth[t] < |c.slots|
      && (Listed(c, c.birth[t]) ==> c.slots[c.birth[t]].client != Some(t))
  }

  /** Both goroutines are dialling for one slot. */
  predicate DialsFor(a: Op, b: Op) {
    a.Dialing? && b.Dialing? && a.slot == b.slot
  }

  ghost predicate OpsValid(c: Cache) {
    && (forall tid :: tid in c.ops ==> OpValid(c, c.ops[tid]))
    && forall i, j :: i in c.ops && j in c.ops && DialsFor(c.ops[i], c.ops[j]) ==> i == j
  }

  ghost predicate Inv(c: Cache) {
    HostsValid(c) && InPlace(c) && ListedOpen(c) && OpsValid(c) && forall t :: t in c.closed ==> t < |c.birth|
  }

  lemma InvHosts(c: Cache, a: Action)
    requires Inv(c) && Enabled(c, a)
    ensures HostsValid(Do(c, a))
  {
  }

  lemma InvPlace(c: Cache, a: Action)
    requires Inv(c) && Enabled(c, a)
    ensures InPlace(Do(c, a))
  {
  }

  lemma InvListed(c: Cache, a: Action)
    requires Inv(c) && Enabled(c, a)
    ensures ListedOpen(Do(c, a))
  {
  }

  /** What a step leaves of the operation another goroutine is in the middle of. */
  lemma OpKept(c: Cache, a: Action, op: Op)
    requires Inv(c) && Enabled(c, a) && OpValid(c, op)
    requires op.Dialing? ==> !(a.DialFailed? || a.DialDone?) || OpOf(c, a.tid).slot != op.slot
    ensures OpValid(Do(c, a), op)
  {
    hide OpsValid, ListedOpen;
  }

  /** The operation the stepping goroutine is in after its step. */
  lemma OpNext(c: Cache, a: Action)
    requires Inv(c) && Enabled(c, a)
    ensures OpValid(Do(c, a), OpOf(Do(c, a), a.tid))
  {
    assert a.tid in c.ops ==> OpValid(c, c.ops[a.tid]);
    hide OpsValid, ListedOpen;
  }

  lemma OpsOthers(c: Cache, a: Action)
    requires Enabled(c, a)
    ensures forall tid :: tid != a.tid ==> (tid in Do(c, a).ops <==> tid in c.ops)
    ensures forall tid :: tid != a.tid && tid in c.ops ==> Do(c, a).ops[tid] == c.ops[tid]
    ensures a.tid in c.ops ==> a.tid in Do(c, a).ops
    ensures OpOf(Do(c, a), a.tid).Dialing? ==>
              a.StartDial? && a.tid in c.ops && c.ops[a.tid].Getting? && Free(c, c.ops[a.tid].slot)
              && OpOf(Do(c, a), a.tid).slot == c.ops[a.tid].slot
  {
  }

  lemma InvOps(c: Cache, a: Action)
    requires Inv(c) && Enabled(c, a)
    ensures OpsValid(Do(c, a))
  {
    OpsOthers(c, a);
    OpNext(c, a);
    var d := Do(c, a);
    assert OpsValid(c);
    hide Do, Enabled, InPlace, ListedOpen, HostsValid;
    forall tid | tid in d.ops ensures OpValid(d, d.ops[tid]) {
      if tid != a.tid {
        if c.ops[tid].Dialing? { DialersApart(c, a, tid); }
        OpKept(c, a, c.ops[tid]);
      }
    }
    forall i, j | i in d.ops && j in d.ops && DialsFor(d.ops[i], d.ops[j]) ensures i == j {
      if i == a.tid && j != a.tid { DialStartsAlone(c, a, j); }
      if j == a.tid && i != a.tid { DialStartsAlone(c, a, i); }
    }
  }

  /** A dial starts on a slot no other goroutine is dialling for. */
  lemma DialStartsAlone(c: Cache, a: Action, tid: nat)
    requires OpsValid(c) && Enabled(c, a) && a.StartDial? && tid in c.ops && c.ops[tid].Dialing?
    ensures OpOf(c, a.tid).slot != c.ops[tid].slot
  {
    assert OpValid(c, c.ops[tid]);
  }

  /** A dial that ends is not another goroutine's. */
  lemma DialersApart(c: Cache, a: Action, tid: nat)
    requires OpsValid(c) && Enabled(c, a) && tid in c.ops && tid != a.tid && c.ops[tid].Dialing?
    ensures !(a.DialFailed? || a.DialDone?) || OpOf(c, a.tid).slot != c.ops[tid].slot
  {
    if a.DialFailed? || a.DialDone? { assert a.tid in c.ops; }
  }

  lemma InvStep(c: Cache, a: Action)
    requires Inv(c) && Enabled(c, a)
    ensures Inv(Do(c, a))
  {
    InvHosts(c, a);
    InvPlace(c, a);
    InvListed(c, a);
    InvOps(c, a);
    InvClosed(c, a);
    hide HostsValid, InPlace, ListedOpen, OpsValid, Do;
  }

  lemma InvClosed(c: Cache, a: Action)
    requires Inv(c) && Enabled(c, a)
    ensures forall t :: t in Do(c, a).closed ==> t < |Do(c, a).birth|
  {
    assert a.tid in c.ops ==> OpValid(c, c.ops[a.tid]);
    hide InPlace, ListedOpen, HostsValid, OpsValid;
  }

  // ----- runs -----

  ghost predicate Run(c: Cache, run: seq<Action>)
    decreases run
  {
    run == [] || (Enabled(c, run[0]) && Run(Do(c, run[0]), run[1..]))
  }

  ghost function After(c: Cache, run: seq<Action>): Cache
    requires Run(c, run)
    decreases run
  {
    if run == [] then c else After(Do(c, run[0]), run[1..])
  }

  lemma InvEmpty()
    ensures Inv(EMPTY_CACHE)
  {
  }

  lemma {:induction false} InvRun(c: Cache, run: seq<Action>)
    requires Inv(c) && Run(c, run)
    ensures Inv(After(c, run))
    decreases run
  {
    hide Inv, Do, Enabled;
    if run != [] {
      InvStep(c, run[0]);
      InvRun(Do(c, run[0]), run[1..]);
    }
  }

  /**
   In every interleaving from the empty cache: a transport sits in at most one
   slot, and the slot the cache lists for a host never holds one that was closed.
   */
  lemma NoClosedTransportListed(run: seq<Action>, s: nat, u: nat)
    requires Run(EMPTY_CACHE, run)
    requires s < |After(EMPTY_CACHE, run).slots| && After(EMPTY_CACHE, run).slots[s].client.Some?
    ensures var c := After(EMPTY_CACHE, run);
            && (Listed(c, s) ==> c.slots[s].client.value !in c.closed)
            && (u < |c.slots| && c.slots[u].client == c.slots[s].client ==> u == s)
  {
    InvEmpty();
    InvRun(EMPTY_CACHE, run);
    hide Run, After, OpsValid, HostsValid;
  }

  /** A command that reuses the transport of the slot the cache still lists gets one that is open. */
  lemma ReuseIsOpen(c: Cache, tid: nat)
    requires Inv(c) && Enabled(c, Reuse(tid))
    ensures var s := OpOf(c, tid).slot;
            Listed(c, s) ==> c.slots[s].client.value !in c.closed
  {
  }

  /** Only the failure of a transport itself, a reboot or an uninstall takes it out of its slot: a stale
      failure never evicts a newer one. */
  lemma EvictedOnlyBy(c: Cache, a: Action, s: nat)
    requires Inv(c) && Enabled(c, a) && s < |c.slots| && c.slots[s].client.Some?
    ensures s < |Do(c, a).slots| && Do(c, a).slots[s].host == c.slots[s].host
    ensures Do(c, a).slots[s].client == c.slots[s].client
            || (Do(c, a).slots[s].client == None
                && ((a.Drop? && OpOf(c, a.tid) == Dropping(c.slots[s].client.value, s))
                   || (a.Take? && OpOf(c, a.tid) == Taking(s))))
  {
    assert a.tid in c.ops ==> OpValid(c, c.ops[a.tid]);
    hide OpsValid, ListedOpen, HostsValid;
  }

  /** While one command dials for a host, no other command's step touches its slot: they share the one dial. */
  lemma OneDial(c: Cache, a: Action, tid: nat)
    requires Inv(c) && Enabled(c, a) && tid in c.ops && c.ops[tid].Dialing? && a.tid != tid
    ensures var s := c.ops[tid].slot;
            s < |c.slots| && s < |Do(c, a).slots| && Do(c, a).slots[s] == c.slots[s] && c.slots[s].client.None?
  {
    assert OpValid(c, c.ops[tid]);
    assert a.tid in c.ops ==> OpValid(c, c.ops[a.tid]);
    DialersApart(c, a, tid);
    hide OpsValid, ListedOpen, HostsValid;
  }

  // ----- every operation ends -----

  /** How many steps of its own a goroutine has left at most. */
  function StepsLeft(op: Op): nat {
    match op
    case Idle => 0
    case Getting(_) => 2
    case Dialing(_) => 1
    case Dropping(_, _) => 2
    case Taking(_) => 2
    case Closing(_) => 1
  }

  /** The steps of the goroutine. */
  function Own(run: seq<Action>, tid: nat): nat {
    if run == [] then 0 else (if run[0].tid == tid then 1 else 0) + Own(run[1..], tid)
  }

  /** The operations it begins. */
  function Begun(run: seq<Action>, tid: nat): nat {
    if run == [] then 0
    else
      (if run[0].tid == tid && (run[0].Get? || run[0].Invalidate? || run[0].InvalidateHost? || run[0].ForgetHost?)
       then 1 else 0) + Begun(run[1..], tid)
  }

  /** Whatever the others do: a goroutine takes at most three steps for each operation it begins, and nobody else
      moves it on. */
  lemma {:induction false} OperationsEnd(c: Cache, run: seq<Action>, tid: nat)
    requires Run(c, run)
    ensures Own(run, tid) + StepsLeft(OpOf(After(c, run), tid)) <= 3 * Begun(run, tid) + StepsLeft(OpOf(c, tid))
    ensures Own(run, tid) == 0 ==> OpOf(After(c, run), tid) == OpOf(c, tid)
    decreases run
  {
    if run != [] {
      OperationsEnd(Do(c, run[0]), run[1..], tid);
      assert run[0].tid != tid ==> OpOf(Do(c, run[0]), tid) == OpOf(c, tid);
    }
  }

  // ----- the retry on another connection -----

  /** No command that asks the cache from now on is handed `t`. */
  predicate Gone(c: Cache, t: nat) {
    t < |c.birth| && (c.birth[t] < |c.slots| && c.slots[c.birth[t]].client == Some(t) ==> !Listed(c, c.birth[t]))
  }

  /** Nor is the goroutine, if it is asking already. */
  predicate NotInHand(c: Cache, tid: nat, t: nat) {
    OpOf(c, tid).Getting? && OpOf(c, tid).slot < |c.slots| ==> c.slots[OpOf(c, tid).slot].client != Some(t)
  }

  lemma GoneStep(c: Cache, a: Action, tid: nat, t: nat)
    requires Inv(c) && Enabled(c, a) && Gone(c, t) && NotInHand(c, tid, t)
    ensures Gone(Do(c, a), t) && NotInHand(Do(c, a), tid, t)
  {
    GoneKept(c, a, t);
    if a.tid == tid { AsksGone(c, a, t); } else { WaitsGone(c, a, tid, t); }
    hide Inv, Do, Enabled, Gone, NotInHand;
  }

  lemma GoneKept(c: Cache, a: Action, t: nat)
    requires Inv(c) && Enabled(c, a) && Gone(c, t)
    ensures Gone(Do(c, a), t)
  {
    assert a.tid in c.ops ==> OpValid(c, c.ops[a.tid]);
    hide OpsValid, ListedOpen, OpValid;
  }

  /** Only its own `Get` brings the goroutine to a slot, and that slot is listed. */
  lemma AsksGone(c: Cache, a: Action, t: nat)
    requires Inv(c) && Enabled(c, a) && Gone(c, t) && NotInHand(c, a.tid, t)
    ensures NotInHand(Do(c, a), a.tid, t)
  {
    hide OpsValid, ListedOpen, OpValid;
  }

  lemma WaitsGone(c: Cache, a: Action, tid: nat, t: nat)
    requires Inv(c) && Enabled(c, a) && Gone(c, t) && NotInHand(c, tid, t) && a.tid != tid
    ensures NotInHand(Do(c, a), tid, t)
  {
    assert a.tid in c.ops ==> OpValid(c, c.ops[a.tid]);
    assert tid in c.ops ==> OpValid(c, c.ops[tid]);
    hide OpsValid, ListedOpen, OpValid;
  }

  lemma {:induction false} GoneRun(c: Cache, run: seq<Action>, tid: nat, t: nat)
    requires Inv(c) && Run(c, run) && Gone(c, t) && NotInHand(c, tid, t)
    ensures Gone(After(c, run), t) && NotInHand(After(c, run), tid, t)
    decreases run
  {
    hide Inv, Do, Enabled, Gone, NotInHand;
    if run != [] {
      InvStep(c, run[0]);
      GoneStep(c, run[0], tid, t);
      GoneRun(Do(c, run[0]), run[1..], tid, t);
    }
  }

  /**
   A goroutine that has dropped a transport it doubted is never handed that one
   again, whatever the others do in between: the retry is on another connection.
   */
  lemma RetryIsFresh(c: Cache, run: seq<Action>, tid: nat)
    requires Inv(c) && Enabled(c, Drop(tid)) && Run(Do(c, Drop(tid)), run)
    requires Enabled(After(Do(c, Drop(tid)), run), Reuse(tid))
    ensures var d := After(Do(c, Drop(tid)), run);
            d.slots[OpOf(d, tid).slot].client != Some(OpOf(c, tid).transport)
  {
    var t, d := OpOf(c, tid).transport, Do(c, Drop(tid));
    DropGone(c, tid);
    InvStep(c, Drop(tid));
    hide Inv, Do, Run, After, Gone;
    GoneRun(d, run, tid, t);
  }

  lemma DropGone(c: Cache, tid: nat)
    requires Inv(c) && Enabled(c, Drop(tid))
    ensures Gone(Do(c, Drop(tid)), OpOf(c, tid).transport) && NotInHand(Do(c, Drop(tid)), tid, OpOf(c, tid).transport)
  {
    assert tid in c.ops && OpValid(c, c.ops[tid]);
    hide OpsValid, ListedOpen;
  }

  // ----- a reboot, an uninstall -----

  /** None of the steps is this goroutine's. */
  predicate OthersOnly(run: seq<Action>, tid: nat) {
    forall i :: 0 <= i < |run| ==> run[i].tid != tid
  }

  lemma TakingStays(c: Cache, a: Action, tid: nat, s: nat, t: nat)
    requires Inv(c) && Enabled(c, a) && a.tid != tid && OpOf(c, tid) == Taking(s) && t < |c.birth| && c.birth[t] == s
    ensures var d := Do(c, a);
            OpOf(d, tid) == Taking(s) && t < |d.birth| && d.birth[t] == s
  {
    hide Inv;
  }

  lemma {:induction false} TakingStaysRun(c: Cache, run: seq<Action>, tid: nat, s: nat, t: nat)
    requires Inv(c) && Run(c, run) && OthersOnly(run, tid) && OpOf(c, tid) == Taking(s)
    requires t < |c.birth| && c.birth[t] == s
    ensures var d := After(c, run);
            Inv(d) && OpOf(d, tid) == Taking(s) && t < |d.birth| && d.birth[t] == s
    decreases run
  {
    hide Inv, Do, Enabled;
    if run != [] {
      InvStep(c, run[0]);
      TakingStays(c, run[0], tid, s, t);
      assert OthersOnly(run[1..], tid);
      TakingStaysRun(Do(c, run[0]), run[1..], tid, s, t);
    }
  }

  /** The step that empties a slot leaves the transport that was dialled for it to be closed, and handed to nobody. */
  lemma TakeEmpties(c: Cache, tid: nat, t: nat)
    requires Inv(c) && Enabled(c, Take(tid)) && t < |c.birth| && c.birth[t] == OpOf(c, tid).slot
    ensures var d := Do(c, Take(tid));
            && Gone(d, t)
            && (c.slots[OpOf(c, tid).slot].client == Some(t) ==> OpOf(d, tid) == Closing(t))
  {
    hide OpsValid, ListedOpen;
  }

  /**
   A reboot or an uninstall of a host: whatever the others do before its slot
   is emptied and after, the connection the host had is handed to no command that
   asks for one later.
   */
  lemma HostIsForgotten(c: Cache, a: Action, h: string, t: nat, run: seq<Action>, later: seq<Action>, asker: nat)
    requires Inv(c) && Enabled(c, a) && a in {InvalidateHost(a.tid, h), ForgetHost(a.tid, h)}
    requires h in c.hosts && c.hosts[h] < |c.slots| && c.slots[c.hosts[h]].client == Some(t)
    requires Run(Do(c, a), run) && OthersOnly(run, a.tid) && Enabled(After(Do(c, a), run), Take(a.tid))
    requires var d := Do(After(Do(c, a), run), Take(a.tid));
             !OpOf(d, asker).Getting? && Run(d, later) && Enabled(After(d, later), Reuse(asker))
    ensures var e := After(Do(After(Do(c, a), run), Take(a.tid)), later);
            e.slots[OpOf(e, asker).slot].client != Some(t)
  {
    HostTaken(c, a, h, t);
    InvStep(c, a);
    var b := Do(c, a);
    var d := After(b, run);
    hide Inv, Do, Enabled, Run, After, Gone;
    TakingStaysRun(b, run, a.tid, c.hosts[h], t);
    TakeEmpties(d, a.tid, t);
    InvStep(d, Take(a.tid));
    GoneRun(Do(d, Take(a.tid)), later, asker, t);
  }

  lemma HostTaken(c: Cache, a: Action, h: string, t: nat)
    requires Inv(c) && Enabled(c, a) && a in {InvalidateHost(a.tid, h), ForgetHost(a.tid, h)}
    requires h in c.hosts && c.hosts[h] < |c.slots| && c.slots[c.hosts[h]].client == Some(t)
    ensures var d := Do(c, a);
            && OpOf(d, a.tid) == Taking(c.hosts[h]) && t < |d.birth| && d.birth[t] == c.hosts[h]
            && (a.ForgetHost? ==> h !in d.hosts)
  {
    hide OpsValid, ListedOpen;
  }

  // ----- the slot an uninstall drops -----

  /** One command's transport is cached; a second command has looked the slot up. */
  const SHARED: seq<Action> := [Get(0, "h"), StartDial(0), DialDone(0), Get(1, "h")]

  /** An uninstall drops the slot from the cache, and a failure closes the transport that is still in it. */
  const ORPHANED: seq<Action> := [ForgetHost(2, "h"), Invalidate(0, "h", 0), Drop(0), Close(0)]

  lemma RunOne(c: Cache, run: seq<Action>)
    requires run != [] && Enabled(c, run[0]) && Run(Do(c, run[0]), run[1..])
    ensures Run(c, run) && After(c, run) == After(Do(c, run[0]), run[1..])
  {
  }

  lemma {:induction false} RunTwice(c: Cache, a: seq<Action>, b: seq<Action>)
    requires Run(c, a) && Run(After(c, a), b)
    ensures Run(c, a + b) && After(c, a + b) == After(After(c, a), b)
    decreases a
  {
    if a == [] {
      assert a + b == b;
    } else {
      assert (a + b)[1..] == a[1..] + b;
      RunTwice(Do(c, a[0]), a[1..], b);
    }
    hide Do, Enabled;
  }

  /** The states of that run. */
  const LOOKED_UP := Cache(map["h" := 0], [Slot("h", None, false)], [], {}, map[0 := Getting(0)])
  const DIALLING := Cache(map["h" := 0], [Slot("h", None, true)], [], {}, map[0 := Op.Dialing(0)])
  const DIALLED := Cache(map["h" := 0], [Slot("h", Some(0), false)], [0], {}, map[0 := Idle])
  const SHARED_BY_TWO := Cache(map["h" := 0], [Slot("h", Some(0), false)], [0], {}, map[0 := Idle, 1 := Getting(0)])

  lemma SharedSteps()
    ensures Enabled(EMPTY_CACHE, SHARED[0]) && Do(EMPTY_CACHE, SHARED[0]) == LOOKED_UP
    ensures Enabled(LOOKED_UP, SHARED[1]) && Do(LOOKED_UP, SHARED[1]) == DIALLING
    ensures Enabled(DIALLING, SHARED[2]) && Do(DIALLING, SHARED[2]) == DIALLED
    ensures Enabled(DIALLED, SHARED[3]) && Do(DIALLED, SHARED[3]) == SHARED_BY_TWO
  {
  }

  lemma SharedRuns()
    ensures Run(EMPTY_CACHE, SHARED)
    ensures After(EMPTY_CACHE, SHARED)
            == Cache(map["h" := 0], [Slot("h", Some(0), false)], [0], {}, map[0 := Idle, 1 := Getting(0)])
  {
    SharedSteps();
    hide Do, Enabled;
    assert SHARED[1..][0] == SHARED[1] && SHARED[2..][0] == SHARED[2] && SHARED[3..] == [SHARED[3]];
    assert SHARED[1..][1..] == SHARED[2..] && SHARED[2..][1..] == SHARED[3..];
    RunOne(DIALLED, SHARED[3..]);
    RunOne(DIALLING, SHARED[2..]);
    RunOne(LOOKED_UP, SHARED[1..]);
    RunOne(EMPTY_CACHE, SHARED);
  }

  const FORGOTTEN := Cache(map["h" := 1], [Slot("h", Some(0), false), Slot("h", None, false)], [0], {},
                           map[0 := Op.Dropping(0, 1), 1 := Getting(0), 2 := Taking(0)])

  /** The host is forgotten, and the failure finds a new slot in its place. */
  lemma ForgottenRuns(c0: Cache)
    requires c0 == Cache(map["h" := 0], [Slot("h", Some(0), false)], [0], {}, map[0 := Idle, 1 := Getting(0)])
    ensures Run(c0, ORPHANED[..2]) && After(c0, ORPHANED[..2]) == FORGOTTEN
  {
    var c1 := Cache(map[], [Slot("h", Some(0), false)], [0], {}, map[0 := Idle, 1 := Getting(0), 2 := Taking(0)]);
    assert Do(c0, ORPHANED[0]) == c1 && Do(c1, ORPHANED[1]) == FORGOTTEN;
    assert ORPHANED[..2][1..] == [ORPHANED[1]];
    RunOne(c1, [ORPHANED[1]]);
    RunOne(c0, ORPHANED[..2]);
  }

  lemma OrphanedRuns()
    ensures Run(FORGOTTEN, ORPHANED[2..])
    ensures var c := After(FORGOTTEN, ORPHANED[2..]);
            && Enabled(c, Reuse(1)) && OpOf(c, 1) == Getting(0) && c.slots[0].client == Some(0) && 0 in c.closed
               && !Listed(c, 0)
  {
    var c3 := FORGOTTEN.(ops := FORGOTTEN.ops[0 := Closing(0)]);
    assert Do(FORGOTTEN, ORPHANED[2]) == c3;
    assert ORPHANED[2..][1..] == [ORPHANED[3]] && ORPHANED[2..][0] == ORPHANED[2];
    RunOne(c3, [ORPHANED[3]]);
    RunOne(FORGOTTEN, ORPHANED[2..]);
  }

  /** The command that still holds the dropped slot is handed a closed transport: what holds of the
      listed slots does not hold of every slot. */
  lemma OrphanHandsOutClosed()
    ensures Run(EMPTY_CACHE, SHARED + ORPHANED)
    ensures var c := After(EMPTY_CACHE, SHARED + ORPHANED);
            && Enabled(c, Reuse(1)) && OpOf(c, 1) == Getting(0) && c.slots[0].client == Some(0) && 0 in c.closed
               && !Listed(c, 0)
  {
    hide Run, After, Do, Enabled;
    SharedRuns();
    ForgottenRuns(After(EMPTY_CACHE, SHARED));
    OrphanedRuns();
    RunTwice(After(EMPTY_CACHE, SHARED), ORPHANED[..2], ORPHANED[2..]);
    assert ORPHANED[..2] + ORPHANED[2..] == ORPHANED;
    RunTwice(EMPTY_CACHE, SHARED, ORPHANED);
  }

  // ----- exactly when a command is handed a closed transport -----

  /** A slot whose mutex a dial holds has a goroutine that dials for it. */
  ghost predicate DialsOwned(c: Cache) {
    forall s :: 0 <= s < |c.slots| && c.slots[s].dialing ==> exists tid :: tid in c.ops && c.ops[tid] == Op.Dialing(s)
  }

  lemma OwnedStep(c: Cache, a: Action)
    requires Inv(c) && DialsOwned(c) && Enabled(c, a)
    ensures DialsOwned(Do(c, a))
  {
    var d := Do(c, a);
    OpsOthers(c, a);
    forall s | 0 <= s < |d.slots| && d.slots[s].dialing
      ensures exists tid :: tid in d.ops && d.ops[tid] == Op.Dialing(s)
    {
      if s < |c.slots| && c.slots[s].dialing {
        var tid :| tid in c.ops && c.ops[tid] == Op.Dialing(s);
        DialingKept(c, a, s, tid);
      } else {
        assert a.StartDial? && d.ops[a.tid] == Op.Dialing(s);
      }
    }
  }

  /** Only the end of a dial takes its goroutine off it. */
  lemma DialingKept(c: Cache, a: Action, s: nat, tid: nat)
    requires Enabled(c, a) && s < |c.slots| && tid in c.ops && c.ops[tid] == Op.Dialing(s)
    requires s < |Do(c, a).slots| && Do(c, a).slots[s].dialing
    ensures tid in Do(c, a).ops && Do(c, a).ops[tid] == Op.Dialing(s)
  {
  }

  lemma {:induction false} OwnedRun(c: Cache, run: seq<Action>)
    requires Inv(c) && DialsOwned(c) && Run(c, run)
    ensures Inv(After(c, run)) && DialsOwned(After(c, run))
    decreases run
  {
    hide Inv, DialsOwned, Do, Enabled;
    if run != [] {
      InvStep(c, run[0]);
      OwnedStep(c, run[0]);
      OwnedRun(Do(c, run[0]), run[1..]);
    }
  }

  /** Nobody uninstalls anything of the host in the run. */
  ghost predicate Remembers(run: seq<Action>, host: string) {
    forall i :: 0 <= i < |run| && run[i].ForgetHost? ==> run[i].host != host
  }

  /** Every slot of the host is the one the cache lists. */
  ghost predicate AllListed(c: Cache, host: string) {
    forall s :: 0 <= s < |c.slots| && c.slots[s].host == host ==> Listed(c, s)
  }

  lemma ListedStep(c: Cache, a: Action, s: nat)
    requires Inv(c) && Enabled(c, a) && Listed(c, s) && (a.ForgetHost? ==> a.host != c.slots[s].host)
    ensures Listed(Do(c, a), s) && Do(c, a).slots[s].host == c.slots[s].host
  {
    hide OpsValid, ListedOpen, InPlace;
  }

  lemma {:induction false} ListedRun(c: Cache, run: seq<Action>, s: nat)
    requires Inv(c) && Run(c, run) && Listed(c, s) && Remembers(run, c.slots[s].host)
    ensures Inv(After(c, run)) && Listed(After(c, run), s)
    decreases run
  {
    hide Inv, Do, Enabled;
    if run != [] {
      InvStep(c, run[0]);
      ListedStep(c, run[0], s);
      assert forall i :: 0 <= i < |run[1..]| ==> run[1..][i] == run[i + 1];
      ListedRun(Do(c, run[0]), run[1..], s);
    }
  }

  lemma AllListedStep(c: Cache, a: Action, host: string)
    requires Inv(c) && Enabled(c, a) && AllListed(c, host) && (a.ForgetHost? ==> a.host != host)
    ensures AllListed(Do(c, a), host)
  {
    hide OpsValid, ListedOpen, InPlace;
  }

  lemma {:induction false} AllListedRun(c: Cache, run: seq<Action>, host: string)
    requires Inv(c) && Run(c, run) && AllListed(c, host) && Remembers(run, host)
    ensures Inv(After(c, run)) && AllListed(After(c, run), host)
    decreases run
  {
    hide Inv, AllListed, Do, Enabled;
    if run != [] {
      InvStep(c, run[0]);
      AllListedStep(c, run[0], host);
      assert forall i :: 0 <= i < |run[1..]| ==> run[1..][i] == run[i + 1];
      AllListedRun(Do(c, run[0]), run[1..], host);
    }
  }

  /** Where no uninstall forgets the host, every command for it that reuses a transport is handed an open one. */
  lemma RememberedReuseIsOpen(run: seq<Action>, tid: nat, host: string)
    requires Run(EMPTY_CACHE, run) && Remembers(run, host) && Enabled(After(EMPTY_CACHE, run), Reuse(tid))
    ensures var c := After(EMPTY_CACHE, run);
            var s := OpOf(c, tid).slot;
            c.slots[s].host == host ==> c.slots[s].client.value !in c.closed
  {
    InvEmpty();
    AllListedRun(EMPTY_CACHE, run, host);
    hide Run, After, Inv;
    ReuseIsOpen(After(EMPTY_CACHE, run), tid);
  }

  /** The goroutine is about to be handed `t`, out of slot `s`, though it was closed. */
  ghost predicate HandsOutClosed(c: Cache, tid: nat, s: nat, t: nat) {
    Enabled(c, Reuse(tid)) && OpOf(c, tid) == Getting(s) && c.slots[s].client == Some(t) && t in c.closed
  }

  lemma {:induction false} UnusedOp(keys: set<nat>) returns (tid: nat)
    ensures forall k :: k in keys ==> k < tid
    decreases keys
  {
    tid := 0;
    if keys != {} {
      var k :| k in keys;
      var rest := UnusedOp(keys - {k});
      tid := if k < rest then rest else k + 1;
      forall x | x in keys ensures x < tid { assert x != k ==> x in keys - {k}; }
    }
  }

  /** A dial that holds the slot's mutex can fail and give it back, whatever else waits. */
  lemma FreeSlot(c: Cache, u: nat) returns (run: seq<Action>)
    requires Inv(c) && DialsOwned(c) && u < |c.slots|
    ensures Run(c, run) && forall i :: 0 <= i < |run| ==> run[i].DialFailed?
    ensures var d := After(c, run);
            && Inv(d) && Free(d, u) && d.hosts == c.hosts && d.birth == c.birth && d.closed == c.closed
               && |d.slots| == |c.slots|
            && (forall s :: 0 <= s < |c.slots| ==> d.slots[s].host == c.slots[s].host
                                                   && d.slots[s].client == c.slots[s].client)
            && (forall s :: 0 <= s < |c.slots| && !c.slots[s].dialing ==> !d.slots[s].dialing)
            && (forall tid :: OpOf(c, tid).Idle? || OpOf(c, tid).Getting? ==> OpOf(d, tid) == OpOf(c, tid))
  {
    run := [];
    if c.slots[u].dialing {
      var tid :| tid in c.ops && c.ops[tid] == Op.Dialing(u);
      run := [DialFailed(tid)];
      InvStep(c, DialFailed(tid));
      RunOne(c, run);
    }
  }

  /** A failure reported for the transport of an unlisted slot looks up the slot listed in its place. */
  lemma ReportUnlisted(c: Cache, tid: nat, s: nat, t: nat, f: nat)
    requires InPlace(c) && OpOf(c, tid) == Getting(s) && s < |c.slots| && !Listed(c, s) && c.slots[s].client == Some(t)
    requires OpOf(c, f).Idle? && (c.slots[s].host in c.hosts ==> Free(c, c.hosts[c.slots[s].host]))
    ensures var a, u := Invalidate(f, c.slots[s].host, t), SlotOf(c, c.slots[s].host);
            && Enabled(c, a)
            && var d := Do(c, a);
               && u != s && Free(d, u) && d.slots[u].client != Some(t) && OpOf(d, f) == Op.Dropping(t, u)
               && OpOf(d, tid) == Getting(s) && s < |d.slots| && d.slots[s] == c.slots[s] && !c.slots[s].dialing
  {
  }

  /** It is dropped from there, and closed where it is. */
  lemma CloseElsewhere(c: Cache, tid: nat, s: nat, t: nat, f: nat, u: nat)
    requires u != s && Free(c, u) && c.slots[u].client != Some(t) && OpOf(c, f) == Op.Dropping(t, u)
    requires OpOf(c, tid) == Getting(s) && s < |c.slots| && c.slots[s].client == Some(t) && !c.slots[s].dialing
    ensures Enabled(c, Drop(f)) && Enabled(Do(c, Drop(f)), Close(f))
    ensures HandsOutClosed(Do(Do(c, Drop(f)), Close(f)), tid, s, t)
  {
  }

  lemma CloseUnlisted(c: Cache, tid: nat, s: nat, t: nat, f: nat)
    requires Inv(c) && OpOf(c, tid) == Getting(s) && s < |c.slots| && !Listed(c, s) && c.slots[s].client == Some(t)
    requires OpOf(c, f).Idle? && (c.slots[s].host in c.hosts ==> Free(c, c.hosts[c.slots[s].host]))
    ensures var run := [Invalidate(f, c.slots[s].host, t), Drop(f), Close(f)];
            Run(c, run) && HandsOutClosed(After(c, run), tid, s, t)
  {
    hide Do, Enabled, HandsOutClosed, InPlace, OpsValid, ListedOpen, HostsValid;
    var run := [Invalidate(f, c.slots[s].host, t), Drop(f), Close(f)];
    ReportUnlisted(c, tid, s, t, f);
    var c1 := Do(c, run[0]);
    CloseElsewhere(c1, tid, s, t, f, SlotOf(c, c.slots[s].host));
    assert run[1..] == [Drop(f), Close(f)] && run[1..][1..] == [Close(f)] && run[1..][0] == Drop(f);
    RunOne(Do(c1, Drop(f)), [Close(f)]);
    RunOne(c1, run[1..]);
    RunOne(c, run);
  }

  /**
   A command that has looked up a slot with an open transport can be handed that
   transport closed, by some interleaving in which no uninstall comes any more,
   exactly if the cache no longer lists the slot.
   */
  lemma HandedClosedExactlyWhen(before: seq<Action>, tid: nat, s: nat, t: nat)
    requires Run(EMPTY_CACHE, before)
    requires var c := After(EMPTY_CACHE, before);
             OpOf(c, tid) == Getting(s) && s < |c.slots| && c.slots[s].client == Some(t) && t !in c.closed
    ensures var c := After(EMPTY_CACHE, before);
            !Listed(c, s) <==> exists run :: Run(c, run) && Remembers(run, c.slots[s].host)
                                             && HandsOutClosed(After(c, run), tid, s, t)
  {
    var c := After(EMPTY_CACHE, before);
    InvEmpty();
    assert DialsOwned(EMPTY_CACHE);
    OwnedRun(EMPTY_CACHE, before);
    hide Inv, Do, Enabled, DialsOwned;
    if Listed(c, s) {
      forall run | Run(c, run) && Remembers(run, c.slots[s].host) ensures !HandsOutClosed(After(c, run), tid, s, t) {
        ListedRun(c, run, s);
        hide After, Run;
        if HandsOutClosed(After(c, run), tid, s, t) { ReuseIsOpen(After(c, run), tid); }
      }
    } else {
      var run := HandsOut(c, tid, s, t);
    }
  }

  lemma HandsOut(c: Cache, tid: nat, s: nat, t: nat) returns (run: seq<Action>)
    requires Inv(c) && DialsOwned(c) && OpOf(c, tid) == Getting(s) && s < |c.slots| && !Listed(c, s)
             && c.slots[s].client == Some(t)
    ensures Run(c, run) && Remembers(run, c.slots[s].host) && HandsOutClosed(After(c, run), tid, s, t)
  {
    hide InPlace, ListedOpen, OpsValid, Do, Enabled, DialsOwned;
    var f := UnusedOp(c.ops.Keys);
    var host := c.slots[s].host;
    var first: seq<Action> := [];
    if host in c.hosts { first := FreeSlot(c, c.hosts[host]); }
    var d := After(c, first);
    assert OpOf(c, f).Idle?;
    hide Inv;
    CloseUnlisted(d, tid, s, t, f);
    run := first + [Invalidate(f, host, t), Drop(f), Close(f)];
    RunTwice(c, first, [Invalidate(f, host, t), Drop(f), Close(f)]);
  }
}
