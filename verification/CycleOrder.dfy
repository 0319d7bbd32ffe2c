/**
 Where the order of a cycle's loops does show: one speaker whose agent answered
 at two addresses is remembered by whichever the record loop visits last.
 */
module CycleOrder {
  import opened BoxRecords
  import opened DiscoveryOrder
  import opened DiscoveryRules
  import opened DiscoveryRun
  import opened DiscoveryScan
  import opened DiscoverySpec
  import opened DiscoveryStep
  import opened FieldPolicy
  import opened IdentityMemory
  import opened StockPin

  /** The agent of device `id` answered wherever the cycle found the device. */
  ghost predicate Confirmed(s: State, c: Scan, id: string) {
    forall i :: SightedAs(s, c, i, id) ==> AgentRecord(c.seen[i]) && i !in c.presenceOnly
  }

  /** A record the agent answered for stays one, whatever it is merged with. */
  lemma RefreshedAgent(s: State, c: Scan, k: string)
    requires k in c.seen && AgentRecord(c.seen[k]) && k !in c.presenceOnly
    ensures AgentRecord(EntryAt(s, c, k).box)
  {
    hide MergeBoxInfo, DifferentDevices;
    if k in s.cache { MergedAgentRecord(s.cache[k].box, c.seen[k]); }
  }

  lemma {:induction false} ReaddAgent(cache: map<string, Entry>, seen: Sightings, live: map<string, string>, now: int,
                                      order: seq<string>, done: set<string>, k: string)
    requires Ready(cache, seen, live) && Visits(order, done) && done <= cache.Keys && k in seen && AgentRecord(seen[k])
    ensures var w := ReaddAll(Sweep(cache, seen, {}), order, live, now);
            k in w.seen && AgentRecord(w.seen[k])
    decreases order
  {
    hide MergeBoxInfo, MissedEntry, ReaddOne, NewAddress, ReaddView, Ready, AgentRecord;
    if order != [] {
      VisitLast(order, done);
      var key, rest := order[|order| - 1], order[..|order| - 1];
      var w := ReaddAll(Sweep(cache, seen, {}), rest, live, now);
      ReaddAgent(cache, seen, live, now, rest, done - {key}, k);
      ReaddLeaves(cache, seen, live, now, rest, done - {key}, k);
      ReaddLeaves(cache, seen, live, now, rest, done - {key}, key);
      if key !in seen && NewAddress(cache[key], key, live).Some? {
        NewAddressListed(cache[key], key, live);
        ReaddLeaves(cache, seen, live, now, rest, done - {key}, live[IDOf(cache[key])]);
      }
      ReaddMergesOne(cache, seen, live, now, done - {key}, w, key, k);
      StillAgent(cache[key].box, w.seen[k]);
    }
  }

  lemma StillAgent(prev: BoxInfo, cur: BoxInfo)
    ensures AgentRecord(cur) ==> AgentRecord(MergeBoxInfo(prev, cur))
  {
    hide MergeBoxInfo;
    MergedAgentRecord(prev, cur);
  }

  lemma SweptAgent(s: State, c: Scan, k: string)
    requires Sane(s, c) && k in c.seen && AgentRecord(c.seen[k]) && k !in c.presenceOnly
    ensures var (w, moved) := SweptBy(s, c);
            k in w.seen && k !in moved && AgentRecord(w.seen[k])
  {
    hide InvBase, KeyedSightings, Fits, SweptBy, EntryAt, Live, ReaddAll, Refreshed, Ready, AgentRecord, IDAt;
    RefreshedAgent(s, c, k);
    SweptSighted(s, c, k);
    SweepOfIs(s, c);
    RefreshedIs(s, c);
    var r := Refreshed(s, c);
    ReaddAgent(r.st.cache, r.seen, Live(s, c), c.now, c.o.cached, r.st.cache.Keys, k);
  }

  /** Where the agent answered the pins serve an STR record. */
  lemma ConfirmedServed(s: State, c: Scan, id: string, k: string)
    requires Sane(s, c) && Confirmed(s, c, id) && Sighted(s, c, id)
    ensures var p := PinnedBy(s, c);
            && (k in p.seen && p.seen[k].id.deviceID == id <==> SightedAs(s, c, k, id))
            && (SightedAs(s, c, k, id) ==> p.seen[k].id.kind == STR && p.seen[k].id.host == k)
  {
    hide InvBase, KeyedSightings, Fits, SweptBy, PinnedBy, HoldPins, Correct, Live, IDAt, MissedEntry, NewAddress,
         PinHolds;
    SightedServed(s, c, id, k);
    if SightedAs(s, c, k, id) {
      SweptAgent(s, c, k);
      PinnedIs(s, c);
      PinnedServedAt(s, c, k);
      var (w, moved) := SweptBy(s, c);
      ServedPinned(w, moved, Live(s, c), c.now, k);
    }
  }

  /** The same cycle with the record loop visiting its keys in `order`. */
  function Recording(c: Scan, order: seq<string>): Scan {
    c.(o := c.o.(recorded := order))
  }

  lemma RecordingIs(s: State, c: Scan, order: seq<string>)
    requires Fits(s, c) && Visits(order, PinnedBy(s, c).seen.Keys)
    ensures Fits(s, Recording(c, order)) && PinnedBy(s, Recording(c, order)) == PinnedBy(s, c)
    ensures RecordedBy(s, Recording(c, order)).st.strKnown
            == RecordAll(PinnedBy(s, c).st.strKnown, PinnedBy(s, c).seen, c.presenceOnly, c.now, order)
  {
    hide Refresh, LiveHosts, ReaddAll, HoldPins, Correct, RecordAll;
  }

  /** What it remembers is the record at the address visited last. */
  lemma RememberedLast(s: State, c: Scan, id: string, k: string) returns (last: Scan)
    requires Sane(s, c) && Confirmed(s, c, id) && SightedAs(s, c, k, id)
    ensures last == Recording(c, last.o.recorded) && Fits(s, last)
    ensures id in StepBy(s, last).st.strKnown && StepBy(s, last).st.strKnown[id].box.id.host == k
  {
    hide InvBase, KeyedSightings, Fits, PinnedBy, StepBy, RecordedBy, RecordAll, IDAt;
    var p := PinnedBy(s, c);
    ConfirmedServed(s, c, id, k);
    var rest := SomeOrder(p.seen.Keys - {k});
    assert Visits(rest + [k], p.seen.Keys) by { assert (rest + [k])[..|rest|] == rest; }
    last := Recording(c, rest + [k]);
    RecordingIs(s, c, rest + [k]);
    assert forall j :: j in rest ==> j in p.seen;
    RecordLastWins(p.st.strKnown, p.seen, c.presenceOnly, c.now, rest, k);
    forall j | j in p.seen && p.seen[j].id.deviceID == id ensures p.seen[j].id.kind == STR {
      ConfirmedServed(s, c, id, j);
    }
    StepMemoryAs(s, last, id);
  }

  /**
   A device whose agent answered at two addresses in one cycle: with everything
   else equal, pins and arrivals included, there is an order of the record loop
   that remembers it at the one and an order that remembers it at the other.
   */
  lemma CycleOrderMatters(s: State, c: Scan, id: string, j: string, k: string) returns (a: Scan, b: Scan)
    requires Sane(s, c) && Confirmed(s, c, id) && SightedAs(s, c, j, id) && SightedAs(s, c, k, id) && j != k
    ensures a == Recording(c, a.o.recorded) && Fits(s, a) && b == Recording(c, b.o.recorded) && Fits(s, b)
    ensures id in StepBy(s, a).st.strKnown && StepBy(s, a).st.strKnown[id].box.id.host == j
    ensures id in StepBy(s, b).st.strKnown && StepBy(s, b).st.strKnown[id].box.id.host == k
    ensures StepBy(s, a).st != StepBy(s, b).st
  {
    hide InvBase, KeyedSightings, Fits, StepBy, IDAt;
    a := RememberedLast(s, c, id, j);
    b := RememberedLast(s, c, id, k);
  }
}
