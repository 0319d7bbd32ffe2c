/**
 One cycle read at one address: what it leaves there, whatever orders its loops
 take and whatever else it sights. No device need be at one address only.
 */
module DiscoveryScan {
  import opened BoxRecords
  import opened DiscoveryInvariant
  import opened DiscoveryOrder
  import opened DiscoveryRules
  import opened DiscoverySpec
  import opened DiscoveryStep
  import opened FieldPolicy
  import opened Options

  /** What a cycle is handed, and the orders its loops happen to take. */
  datatype Scan = Scan(seen: Sightings, presenceOnly: set<string>, now: int, o: Orders)

  ghost predicate Fits(s: State, c: Scan) {
    ValidOrders(s, c.seen, c.presenceOnly, c.now, c.o)
  }

  /** A state as every event leaves it, and sightings filed under their own addresses. */
  ghost predicate Sane(s: State, c: Scan) {
    InvBase(s) && KeyedSightings(c.seen) && Fits(s, c)
  }

  /** The id the sighting at `k` ends up with. */
  function IDAt(s: State, c: Scan, k: string): string
    requires k in c.seen
  {
    EffectiveID(s, c.seen, k)
  }

  /** The entry the refresh makes of the sighting at `k`. */
  function EntryAt(s: State, c: Scan, k: string): Entry
    requires k in c.seen
  {
    RefreshAt(s, c.seen, c.presenceOnly, c.now, k)
  }

  predicate DegradedAt(s: State, c: Scan, k: string)
    requires k in c.seen
  {
    DegradesAt(s, c.seen, c.presenceOnly, c.now, k)
  }

  // ----- the stages -----

  function Refreshed(s: State, c: Scan): Work {
    Refresh(s, c.seen, c.presenceOnly, c.now)
  }

  /** The address book of the cycle. */
  ghost function Live(s: State, c: Scan): map<string, string>
    requires Fits(s, c)
  {
    LiveHosts(Refreshed(s, c).seen, c.o.sighted)
  }

  ghost function SweptBy(s: State, c: Scan): (Work, set<string>)
    requires Fits(s, c)
  {
    Swept(s, c.seen, c.presenceOnly, c.now, Live(s, c), c.o.cached)
  }

  ghost function PinnedBy(s: State, c: Scan): Work
    requires Fits(s, c)
  {
    var (w, moved) := SweptBy(s, c);
    Correct(HoldPins(w, moved, Live(s, c), c.now), c.now)
  }

  ghost function RecordedBy(s: State, c: Scan): Work
    requires Fits(s, c)
  {
    var w := PinnedBy(s, c);
    w.(st := w.st.(strKnown := RecordAll(w.st.strKnown, w.seen, c.presenceOnly, c.now, c.o.recorded)))
  }

  ghost function StepBy(s: State, c: Scan): Work
    requires Fits(s, c)
  {
    Step(s, c.seen, c.presenceOnly, c.now, c.o)
  }

  lemma StagesAre(s: State, c: Scan)
    requires Fits(s, c)
    ensures PinnedBy(s, c) == Pinned(s, c.seen, c.presenceOnly, c.now, Live(s, c), c.o.cached)
    ensures Visits(c.o.sighted, c.seen.Keys) && Visits(c.o.cached, s.cache.Keys + c.seen.Keys)
    ensures Visits(c.o.recorded, PinnedBy(s, c).seen.Keys) && Visits(c.o.relabelled, PinnedBy(s, c).seen.Keys)
    ensures var r := RelabelAll(RecordedBy(s, c), c.now, c.o.relabelled);
            StepBy(s, c) == r.(st := r.st.(strKnown := Expire(r.st.strKnown, c.now)))
  {
    hide Refresh, LiveHosts, ReaddAll, HoldPins, Correct, RecordAll, RelabelAll, Visits, Expire;
  }

  /** Every cycle has orders that fit, whatever the first two are. */
  lemma ScanWith(s: State, seen: Sightings, presenceOnly: set<string>, now: int, sighted: seq<string>,
                 cached: seq<string>)
    returns (c: Scan)
    requires Visits(sighted, seen.Keys) && Visits(cached, s.cache.Keys + seen.Keys)
    ensures c.seen == seen && c.presenceOnly == presenceOnly && c.now == now && Fits(s, c)
    ensures c.o.sighted == sighted && c.o.cached == cached
  {
    hide ReaddAll, HoldPins, Correct, RecordAll, RelabelAll, LiveHosts, Refresh;
    RefreshKeys(s, seen, presenceOnly, now);
    var w := Pinned(s, seen, presenceOnly, now, LiveHosts(Refresh(s, seen, presenceOnly, now).seen, sighted), cached);
    var rest := SomeOrder(w.seen.Keys);
    c := Scan(seen, presenceOnly, now, Orders(sighted, cached, rest, rest));
  }

  lemma SomeScan(s: State, seen: Sightings, presenceOnly: set<string>, now: int) returns (c: Scan)
    ensures c.seen == seen && c.presenceOnly == presenceOnly && c.now == now && Fits(s, c)
  {
    hide Fits;
    var sighted := SomeOrder(seen.Keys);
    var cached := SomeOrder(s.cache.Keys + seen.Keys);
    c := ScanWith(s, seen, presenceOnly, now, sighted, cached);
  }

  /** The last visit decides where a device is listed. */
  lemma LastListed(s: State, c: Scan, k: string)
    requires KeyedSightings(c.seen) && Fits(s, c) && c.o.sighted != [] && c.o.sighted[|c.o.sighted| - 1] == k
    requires k in c.seen && IDAt(s, c, k) != ""
    ensures IDAt(s, c, k) in Live(s, c) && Live(s, c)[IDAt(s, c, k)] == k
  {
    RefreshedIs(s, c);
    hide Refresh, EffectiveID, RefreshAt, ValidOrders;
  }

  // ----- refresh and address book -----

  lemma RefreshedIs(s: State, c: Scan)
    requires KeyedSightings(c.seen)
    ensures var w := Refreshed(s, c);
            && w.st.cache.Keys == s.cache.Keys + c.seen.Keys && w.seen.Keys == c.seen.Keys
            && (forall k :: k in c.seen ==> w.st.cache[k] == EntryAt(s, c, k) && w.seen[k] == w.st.cache[k].box)
            && (forall k :: k in c.seen ==> w.seen[k].id.host == k && w.seen[k].id.deviceID == IDAt(s, c, k))
            && (forall k :: k in s.cache && k !in c.seen ==> w.st.cache[k] == s.cache[k])
            && w.st.otaPinned == s.otaPinned && w.st.otaPinnedID == s.otaPinnedID && w.st.stockPinned == s.stockPinned
  {
    RefreshIDs(s, c.seen, c.presenceOnly, c.now);
    RefreshKeepsPins(s, c.seen, c.presenceOnly, c.now);
    forall k | k in c.seen ensures Refreshed(s, c).st.cache[k] == EntryAt(s, c, k) {
      RefreshedHere(s, c, k);
    }
    hide Refresh, EffectiveID, RefreshAt;
  }

  lemma RefreshedHere(s: State, c: Scan, k: string)
    requires k in c.seen
    ensures Lookup(Refreshed(s, c).st.cache, k) == Some(EntryAt(s, c, k))
  {
    hide RefreshAt;
  }

  /** What the refresh leaves of the memory. */
  lemma RefreshedMemory(s: State, c: Scan, id: string)
    requires KeyedSightings(c.seen)
    ensures Lookup(Refreshed(s, c).st.strKnown, id) ==
            if exists k :: k in c.seen && DegradedAt(s, c, k) && IDAt(s, c, k) == id then None
            else Lookup(s.strKnown, id)
  {
    RefreshIDs(s, c.seen, c.presenceOnly, c.now);
    forall k | k in c.seen ensures RefreshAt(s, c.seen, c.presenceOnly, c.now, k).box.id.deviceID == IDAt(s, c, k) {
      RefreshedHere(s, c, k);
    }
    hide RefreshAt, DegradesAt, EffectiveID;
    var gone := DegradedIDs(s, c.seen, c.presenceOnly, c.now, c.seen.Keys);
    assert id in gone <==> exists k :: k in c.seen && DegradedAt(s, c, k) && IDAt(s, c, k) == id;
  }

  lemma {:induction false} LiveSound(seen: Sightings, order: seq<string>, keys: set<string>)
    requires KeyedSightings(seen) && Visits(order, keys) && keys <= seen.Keys
    ensures forall id :: id in LiveHosts(seen, order) ==>
              id != "" && LiveHosts(seen, order)[id] in keys && seen[LiveHosts(seen, order)[id]].id.deviceID == id
    ensures forall k :: k in keys && seen[k].id.deviceID != "" ==> seen[k].id.deviceID in LiveHosts(seen, order)
  {
    if order != [] {
      VisitLast(order, keys);
      LiveSound(seen, order[..|order| - 1], keys - {order[|order| - 1]});
    }
  }

  /** The address book lists exactly the sighted ids, each at an address it was sighted at. */
  lemma LiveIs(s: State, c: Scan)
    requires KeyedSightings(c.seen) && Fits(s, c)
    ensures forall id :: id in Live(s, c) ==> id != "" && Live(s, c)[id] in c.seen && IDAt(s, c, Live(s, c)[id]) == id
    ensures forall k :: k in c.seen && IDAt(s, c, k) != "" ==> IDAt(s, c, k) in Live(s, c)
  {
    StagesAre(s, c);
    RefreshedIs(s, c);
    hide Fits, Refresh, LiveHosts, EffectiveID, RefreshAt;
    LiveSound(Refreshed(s, c).seen, c.o.sighted, c.seen.Keys);
  }

  // ----- re-add -----

  /** What the refresh hands to the re-add loop. */
  ghost predicate Ready(cache: map<string, Entry>, seen: Sightings, live: map<string, string>) {
    && seen.Keys <= cache.Keys
    && (forall k :: k in seen ==> cache[k].box == seen[k])
    && (forall id :: id in live ==> id != "" && live[id] in seen && seen[live[id]].id.deviceID == id)
  }

  /** What the loop leaves at `k` once the keys in `done` are visited: a sighting keeps its address and id,
      whatever is merged into it; a missed entry is moved away, kept or dropped by itself alone. */
  ghost predicate ReaddView(cache: map<string, Entry>, seen: Sightings, live: map<string, string>, now: int,
                            done: set<string>, w: Sweep, k: string)
  {
    if k in seen then
      && k in cache && k in w.seen && Lookup(w.cache, k) == Some(cache[k].(box := w.seen[k])) && k !in w.moved
      && w.seen[k].id.host == seen[k].id.host && w.seen[k].id.deviceID == seen[k].id.deviceID
    else if k !in cache then k !in w.cache && k !in w.seen && k !in w.moved
    else if k !in done then Lookup(w.cache, k) == Some(cache[k]) && k !in w.seen && k !in w.moved
    else if NewAddress(cache[k], k, live).Some? then k !in w.cache && k !in w.seen && k in w.moved
    else
      && k !in w.moved
      && match MissedEntry(cache[k], now)
         case Kept(e, served) => Lookup(w.cache, k) == Some(e) && Lookup(w.seen, k) == Some(served)
         case Evicted => k !in w.cache && k !in w.seen
  }

  lemma {:induction false} ReaddLeaves(cache: map<string, Entry>, seen: Sightings, live: map<string, string>, now: int,
                                       order: seq<string>, done: set<string>, k: string)
    requires Ready(cache, seen, live) && Visits(order, done) && done <= cache.Keys
    ensures ReaddView(cache, seen, live, now, done, ReaddAll(Sweep(cache, seen, {}), order, live, now), k)
    decreases order
  {
    hide MergeBoxInfo, MissedEntry;
    if order != [] {
      VisitLast(order, done);
      var key, rest := order[|order| - 1], order[..|order| - 1];
      ReaddLeaves(cache, seen, live, now, rest, done - {key}, k);
      ReaddLeaves(cache, seen, live, now, rest, done - {key}, key);
      if key !in seen && NewAddress(cache[key], key, live).Some? {
        ReaddLeaves(cache, seen, live, now, rest, done - {key}, live[IDOf(cache[key])]);
      }
      ReaddStep(cache, seen, live, now, done - {key}, ReaddAll(Sweep(cache, seen, {}), rest, live, now), key, k);
      assert done - {key} + {key} == done;
    }
  }

  /** One visit. */
  lemma ReaddStep(cache: map<string, Entry>, seen: Sightings, live: map<string, string>, now: int, done: set<string>,
                  w: Sweep, key: string, k: string)
    requires Ready(cache, seen, live) && key in cache && key !in done
    requires ReaddView(cache, seen, live, now, done, w, k) && ReaddView(cache, seen, live, now, done, w, key)
    requires key !in seen && NewAddress(cache[key], key, live).Some? ==>
               ReaddView(cache, seen, live, now, done, w, live[IDOf(cache[key])])
    ensures ReaddView(cache, seen, live, now, done + {key}, ReaddOne(w, key, live, now), k)
  {
    hide MissedEntry, MergeBoxInfo;
    if key in seen {
      hide Ready, NewAddress;
    } else if NewAddress(cache[key], key, live).Some? {
      ReaddMoved(cache, seen, live, now, done, w, key, k);
    } else {
      hide Ready, NewAddress;
    }
  }

  lemma ReaddMoved(cache: map<string, Entry>, seen: Sightings, live: map<string, string>, now: int, done: set<string>,
                   w: Sweep, key: string, k: string)
    requires Ready(cache, seen, live) && key in cache && key !in done
    requires ReaddView(cache, seen, live, now, done, w, k) && ReaddView(cache, seen, live, now, done, w, key)
    requires key !in seen && NewAddress(cache[key], key, live).Some?
    requires ReaddView(cache, seen, live, now, done, w, live[IDOf(cache[key])])
    ensures ReaddView(cache, seen, live, now, done + {key}, ReaddOne(w, key, live, now), k)
  {
    hide MissedEntry, MergeBoxInfo;
    var host := live[IDOf(cache[key])];
    assert host in seen && host != key && NewAddress(cache[key], key, live) == Some(host);
    assert seen[host].id.deviceID == IDOf(cache[key]) != "";
    CacheMergeIdentity(cache[key].box, w.seen[host]);
    var b := MergeBoxInfo(cache[key].box, w.seen[host]);
    assert ReaddOne(w, key, live, now) ==
           Sweep(w.cache[host := w.cache[host].(box := b)] - {key}, w.seen[host := b], w.moved + {key});
    hide Ready, ReaddOne;
  }

  /** A record moves only where the address book has its id. */
  lemma NewAddressListed(e: Entry, key: string, live: map<string, string>)
    requires NewAddress(e, key, live).Some?
    ensures IDOf(e) in live
  {
  }

  /** The record that moves to `k` this cycle, by the cache the cycle starts from. */
  ghost predicate MovesTo(cache: map<string, Entry>, seen: Sightings, live: map<string, string>, o: string, k: string) {
    o in cache && o !in seen && NewAddress(cache[o], o, live) == Some(k)
  }

  /** A sighting nobody moves to is left as it is; one that a single record moves to is merged with it. */
  lemma {:induction false} ReaddMerges(cache: map<string, Entry>, seen: Sightings, live: map<string, string>, now: int,
                                       order: seq<string>, done: set<string>, k: string)
    requires Ready(cache, seen, live) && Visits(order, done) && done <= cache.Keys && k in seen
    ensures var w := ReaddAll(Sweep(cache, seen, {}), order, live, now);
            && k in w.seen
            && ((forall o :: MovesTo(cache, seen, live, o, k) ==> o !in done) ==> w.seen[k] == seen[k])
            && (forall o :: MovesTo(cache, seen, live, o, k) && o in done
                            && (forall p :: MovesTo(cache, seen, live, p, k) ==> p == o)
                            ==> w.seen[k] == MergeBoxInfo(cache[o].box, seen[k]))
    decreases order
  {
    hide MergeBoxInfo, MissedEntry;
    if order != [] {
      VisitLast(order, done);
      var key, rest := order[|order| - 1], order[..|order| - 1];
      ReaddMerges(cache, seen, live, now, rest, done - {key}, k);
      ReaddLeaves(cache, seen, live, now, rest, done - {key}, k);
      ReaddLeaves(cache, seen, live, now, rest, done - {key}, key);
      if key !in seen && NewAddress(cache[key], key, live).Some? {
        ReaddLeaves(cache, seen, live, now, rest, done - {key}, live[IDOf(cache[key])]);
      }
      ReaddMergesOne(cache, seen, live, now, done - {key}, ReaddAll(Sweep(cache, seen, {}), rest, live, now), key, k);
    }
  }

  /** One visit, as far as the record at `k` goes. */
  lemma ReaddMergesOne(cache: map<string, Entry>, seen: Sightings, live: map<string, string>, now: int,
                       done: set<string>,
                       w: Sweep, key: string, k: string)
    requires Ready(cache, seen, live) && key in cache && key !in done && k in seen
    requires ReaddView(cache, seen, live, now, done, w, k) && ReaddView(cache, seen, live, now, done, w, key)
    requires key !in seen && NewAddress(cache[key], key, live).Some? ==>
               ReaddView(cache, seen, live, now, done, w, live[IDOf(cache[key])])
    ensures var r := ReaddOne(w, key, live, now);
            && k in r.seen
            && r.seen[k] == if MovesTo(cache, seen, live, key, k) then MergeBoxInfo(cache[key].box, w.seen[k])
               else w.seen[k]
  {
    hide MergeBoxInfo, MissedEntry;
  }

  // ----- after the first two loops -----

  /** The missed record at `o` is merged into the sighting at `k`. */
  ghost predicate ComesTo(s: State, c: Scan, o: string, k: string)
    requires Fits(s, c)
  {
    o in s.cache && o !in c.seen && NewAddress(s.cache[o], o, Live(s, c)) == Some(k)
  }

  ghost function SweepOf(s: State, c: Scan): Sweep
    requires Fits(s, c)
  {
    var r := Refreshed(s, c);
    ReaddAll(Sweep(r.st.cache, r.seen, {}), c.o.cached, Live(s, c), c.now)
  }

  lemma SweepOfIs(s: State, c: Scan)
    requires Sane(s, c)
    ensures var r, sweep := Refreshed(s, c), SweepOf(s, c);
            && SweptBy(s, c) == (Work(r.st.(cache := sweep.cache), sweep.seen), sweep.moved)
            && Ready(r.st.cache, r.seen, Live(s, c)) && Visits(c.o.cached, r.st.cache.Keys)
  {
    hide Fits, Refresh, LiveHosts, ReaddAll, RefreshAt, EffectiveID, InvBase, Visits, KeyedSightings;
    RefreshedIs(s, c);
    LiveIs(s, c);
    StagesAre(s, c);
  }

  lemma SweptView(s: State, c: Scan, k: string)
    requires Sane(s, c) && Fits(s, c)
    ensures var r := Refreshed(s, c);
            ReaddView(r.st.cache, r.seen, Live(s, c), c.now, r.st.cache.Keys, SweepOf(s, c), k)
  {
    hide Fits, Refresh, LiveHosts, ReaddAll, Sane, Ready, ReaddView, Live;
    SweepOfIs(s, c);
    var r := Refreshed(s, c);
    ReaddLeaves(r.st.cache, r.seen, Live(s, c), c.now, c.o.cached, r.st.cache.Keys, k);
  }

  /** The pins and the memory stand as the refresh left them. */
  lemma SweptFrame(s: State, c: Scan)
    requires Sane(s, c)
    ensures var w := SweptBy(s, c).0;
            && w.st.otaPinned == s.otaPinned && w.st.otaPinnedID == s.otaPinnedID && w.st.stockPinned == s.stockPinned
            && w.st.strKnown == Refreshed(s, c).st.strKnown
            && MemoryKeyed(w.st.strKnown)
  {
    hide Fits, Refresh, LiveHosts, ReaddAll, MemoryKeyed, RefreshAt;
    SweepOfIs(s, c);
    RefreshKeepsPins(s, c.seen, c.presenceOnly, c.now);
  }

  /** A missed entry is moved away, kept or dropped by itself alone. */
  lemma SweptMissed(s: State, c: Scan, k: string)
    requires Sane(s, c) && k !in c.seen
    ensures var (w, moved) := SweptBy(s, c);
            if k !in s.cache then k !in w.st.cache && k !in w.seen && k !in moved
            else if NewAddress(s.cache[k], k, Live(s, c)).Some? then k !in w.st.cache && k !in w.seen && k in moved
            else
              && k !in moved
              && match MissedEntry(s.cache[k], c.now)
                 case Kept(e, served) => Lookup(w.st.cache, k) == Some(e) && Lookup(w.seen, k) == Some(served)
                 case Evicted => k !in w.st.cache && k !in w.seen
  {
    hide Fits, Refresh, LiveHosts, InvBase, MissedEntry, NewAddress, Live, ReaddAll, Ready, SweptBy, EffectiveID,
         RefreshAt;
    SweptView(s, c, k);
    SweepOfIs(s, c);
    RefreshedIs(s, c);
  }

  /** A sighting keeps its address and id, whatever is merged into it. */
  lemma SweptSighted(s: State, c: Scan, k: string)
    requires Sane(s, c) && k in c.seen
    ensures var (w, moved) := SweptBy(s, c);
            && k in w.seen && k !in moved
            && Lookup(w.st.cache, k) == Some(EntryAt(s, c, k).(box := w.seen[k]))
            && w.seen[k].id.host == k && w.seen[k].id.deviceID == IDAt(s, c, k)
  {
    hide Fits, Refresh, LiveHosts, InvBase, MissedEntry, NewAddress, Live, ReaddAll, Ready, SweptBy, EffectiveID,
         RefreshAt;
    SweptView(s, c, k);
    SweepOfIs(s, c);
    RefreshedIs(s, c);
  }

  /** What is merged into it: nothing, or the one record that comes to it. */
  lemma SweptMerged(s: State, c: Scan, k: string)
    requires Sane(s, c) && k in c.seen
    ensures var w := SweptBy(s, c).0;
            && k in w.seen
            && ((forall o :: !ComesTo(s, c, o, k)) ==> w.seen[k] == EntryAt(s, c, k).box)
            && (forall o :: ComesTo(s, c, o, k) && (forall p :: ComesTo(s, c, p, k) ==> p == o)
                            ==> w.seen[k] == MergeBoxInfo(s.cache[o].box, EntryAt(s, c, k).box))
  {
    hide Fits, Refresh, LiveHosts, InvBase, MissedEntry, NewAddress, Live, ReaddAll, Ready, SweptBy, EffectiveID,
         RefreshAt, MergeBoxInfo;
    SweepOfIs(s, c);
    RefreshedIs(s, c);
    var r := Refreshed(s, c);
    ReaddMerges(r.st.cache, r.seen, Live(s, c), c.now, c.o.cached, r.st.cache.Keys, k);
    forall o ensures MovesTo(r.st.cache, r.seen, Live(s, c), o, k) <==> ComesTo(s, c, o, k) { }
  }

  /** A record comes only to a sighting under its own id. */
  lemma ComesAs(s: State, c: Scan, o: string, k: string)
    requires Sane(s, c) && ComesTo(s, c, o, k)
    ensures k in c.seen && IDAt(s, c, k) == IDOf(s.cache[o]) != ""
  {
    hide Fits, InvBase, KeyedSightings, Live, EffectiveID;
    LiveIs(s, c);
  }

  lemma MissedKindKept(e: Entry, now: int)
    ensures MissedEntry(e, now).Kept? ==>
            && MissedEntry(e, now).served.id == e.box.id && MissedEntry(e, now).served.agent == e.box.agent
            && MissedEntry(e, now).entry.box == e.box
            && MissedEntry(e, now).served.cycle.strNotRunning == e.box.cycle.strNotRunning
            && MissedEntry(e, now).served.cycle.otaPending == e.box.cycle.otaPending
            && MissedEntry(e, now).entry.strMisses == e.strMisses
               && MissedEntry(e, now).entry.strMissSince == e.strMissSince
  {
  }

  /** After the first two loops exactly what is cached is served, under its own address and id. */
  lemma SweptServedAt(s: State, c: Scan, k: string)
    requires Sane(s, c)
    ensures var w := SweptBy(s, c).0;
            ServedAt(w, k) && (k in w.seen <==> k in w.st.cache)
  {
    hide Fits, MissedEntry, NewAddress, SweptBy, EffectiveID, RefreshAt, MemoryKeyed, PinsKeyed;
    if k in c.seen {
      SweptSighted(s, c, k);
    } else {
      SweptMissed(s, c, k);
      if k in s.cache { MissedKindKept(s.cache[k], c.now); }
    }
  }

  lemma SweptIsServed(s: State, c: Scan)
    requires Sane(s, c) && Fits(s, c)
    ensures Served(SweptBy(s, c).0)
    ensures SweptBy(s, c).0.st.cache.Keys == SweptBy(s, c).0.seen.Keys
  {
    hide SweptBy, ServedAt, Sane;
    var w := SweptBy(s, c).0;
    forall k ensures ServedAt(w, k) && (k in w.seen <==> k in w.st.cache) {
      SweptServedAt(s, c, k);
    }
  }

  // ----- the pins -----

  /** The pins touch nothing but the list and the cache. */
  lemma PinnedFrame(s: State, c: Scan)
    requires Sane(s, c)
    ensures var p := PinnedBy(s, c);
            && p.st.strKnown == Refreshed(s, c).st.strKnown && MemoryKeyed(p.st.strKnown)
            && PinsKeyed(p.st)
            && p.st.otaPinned.Keys <= s.otaPinned.Keys && p.st.stockPinned.Keys <= s.stockPinned.Keys
            && (forall h :: h in p.st.otaPinned ==> p.st.otaPinned[h] == s.otaPinned[h])
            && (forall h :: h in p.st.otaPinnedID ==> h in s.otaPinnedID && p.st.otaPinnedID[h] == s.otaPinnedID[h])
            && (forall h :: h in p.st.stockPinned ==> p.st.stockPinned[h] == s.stockPinned[h])
  {
    hide Fits, SweptBy, Live, PinAt, StockAt, KeyedCache, MemoryKeyed, KeyedSightings, Refresh;
    SweptFrame(s, c);
  }

  /** Neither pin touches an address it is not set for. */
  lemma UnpinnedBy(s: State, c: Scan, k: string)
    requires Sane(s, c) && k !in s.otaPinned && k !in s.stockPinned
    ensures var w, p := SweptBy(s, c).0, PinnedBy(s, c);
            && Lookup(p.seen, k) == Lookup(w.seen, k) && Lookup(p.st.cache, k) == Lookup(w.st.cache, k)
            && k !in p.st.otaPinned && k !in p.st.stockPinned
  {
    hide Fits, SweptBy, Live, HoldPins, Correct, InvBase;
    SweptFrame(s, c);
    var (w, moved) := SweptBy(s, c);
    HoldPinsAt(w, moved, Live(s, c), c.now, k);
    CorrectAt(HoldPins(w, moved, Live(s, c), c.now), c.now, k);
  }

  /** The pin at `h` holds this cycle. */
  ghost predicate PinHolds(s: State, c: Scan, h: string)
    requires Sane(s, c)
  {
    SweptFrame(s, c);
    var (w, moved) := SweptBy(s, c);
    h in s.otaPinned && PinAt(w, moved, Live(s, c), c.now, h).PinHeld?
  }

  /** The pins keep what is served at `k` under its id; what they put there is the speaker they name. */
  lemma PinnedServedAt(s: State, c: Scan, k: string)
    requires Sane(s, c)
    ensures var w, p := SweptBy(s, c).0, PinnedBy(s, c);
            && ServedAt(p, k)
            && (k in w.seen ==> k in p.seen && p.seen[k].id.deviceID == w.seen[k].id.deviceID)
            && (k in p.seen && k !in w.seen ==> PinHolds(s, c, k) && p.seen[k].id.deviceID == PinID(s, k))
            && (k in p.st.otaPinned <==> PinHolds(s, c, k)) && (k in p.st.otaPinned ==> k in p.seen)
            && (k in p.st.otaPinned ==> Lookup(p.st.otaPinnedID, k) == Lookup(s.otaPinnedID, k))
            && (PinHolds(s, c, k) && PinID(s, k) != "" && PinID(s, k) in Live(s, c) ==> Live(s, c)[PinID(s, k)] == k)
  {
    hide Fits, SweptBy, Live, HoldPins, Correct, ServedAt, PinAt;
    SweptFrame(s, c);
    SweptIsServed(s, c);
    var (w, moved) := SweptBy(s, c);
    var held := HoldPins(w, moved, Live(s, c), c.now);
    HoldPinsAt(w, moved, Live(s, c), c.now, k);
    HeldServedAt(w, moved, Live(s, c), c.now, k);
    CorrectAt(held, c.now, k);
    CorrectKeeps(held, c.now, k);
  }

  lemma HeldServedAt(w: Work, moved: set<string>, live: map<string, string>, now: int, k: string)
    requires Served(w) && w.st.cache.Keys == w.seen.Keys && MemoryKeyed(w.st.strKnown) && PinsKeyed(w.st)
    ensures var r := HoldPins(w, moved, live, now);
            var held := k in w.st.otaPinned && PinAt(w, moved, live, now, k).PinHeld?;
            && ServedAt(r, k)
            && (k in w.seen ==> k in r.seen && r.seen[k].id.deviceID == w.seen[k].id.deviceID)
            && (k in r.seen && k !in w.seen ==> held && r.seen[k].id.deviceID == PinID(w.st, k))
            && (held ==> k in r.seen)
            && (held && PinID(w.st, k) != "" && PinID(w.st, k) in live ==> live[PinID(w.st, k)] == k)
  {
    HoldPinsAt(w, moved, live, now, k);
    assert ServedAt(w, k);
    if k in w.st.otaPinned { PinAtID(w, moved, live, now, k); }
    hide HoldPins, PinAt, MemoryKeyed;
  }

  /** Under which id the pins leave what is served at `k`. */
  lemma PinnedIDs(s: State, c: Scan, k: string)
    requires Sane(s, c)
    ensures var p := PinnedBy(s, c);
            && ServedAt(p, k)
            && (k in c.seen ==> k in p.seen && p.seen[k].id.deviceID == IDAt(s, c, k))
            && (k !in c.seen && k in s.cache && NewAddress(s.cache[k], k, Live(s, c)).None?
                && MissedEntry(s.cache[k], c.now).Kept?
                ==> k in p.seen && p.seen[k].id.deviceID == IDOf(s.cache[k]))
            && (k !in c.seen && k in p.seen ==>
                || (k in s.cache && NewAddress(s.cache[k], k, Live(s, c)).None? && MissedEntry(s.cache[k], c.now).Kept?)
                || (PinHolds(s, c, k) && p.seen[k].id.deviceID == PinID(s, k)))
  {
    hide Fits, SweptBy, Live, ServedAt, InvBase, KeyedSightings, PinHolds, PinnedBy, MissedEntry, NewAddress,
         EffectiveID;
    PinnedServedAt(s, c, k);
    if k in c.seen {
      SweptSighted(s, c, k);
    } else {
      SweptMissed(s, c, k);
      if k in s.cache { MissedKindKept(s.cache[k], c.now); }
    }
  }

  // ----- the memory -----

  lemma {:induction false} RecordedIs(known: map<string, Entry>, seen: Sightings, presenceOnly: set<string>, now: int,
                                      order: seq<string>, keys: set<string>, id: string)
    requires Visits(order, keys) && keys <= seen.Keys
    ensures var m := Lookup(RecordAll(known, seen, presenceOnly, now, order), id);
            if exists j :: j in keys && Records(seen, presenceOnly, j, id) then
              exists j :: j in keys && Records(seen, presenceOnly, j, id) && m == Some(NewEntry(seen[j], now))
            else m == Lookup(known, id)
    decreases order
  {
    if order != [] {
      VisitLast(order, keys);
      var last, rest := order[|order| - 1], order[..|order| - 1];
      RecordedIs(known, seen, presenceOnly, now, rest, keys - {last}, id);
      RecordOneIs(RecordAll(known, seen, presenceOnly, now, rest), seen, presenceOnly, now, last);
      hide RecordOne;
      if Records(seen, presenceOnly, last, id) {
        assert last in keys;
      } else {
        assert forall j :: j in keys && Records(seen, presenceOnly, j, id) ==> j in keys - {last};
      }
    }
  }

  /** Reconciling keeps the age of a memory, and forgets only one that has run out. */
  ghost predicate MemoryView(q: Work, r: Work, now: int, id: string) {
    && (id in q.st.strKnown && now - q.st.strKnown[id].seen <= STR_KNOWN_TTL ==> id in r.st.strKnown)
    && (id in r.st.strKnown ==> id in q.st.strKnown && r.st.strKnown[id].seen == q.st.strKnown[id].seen
                                && IDOf(r.st.strKnown[id]) == id && r.st.strKnown[id].box.id.kind == STR)
  }

  /** The record at `k` is the stock one relabelled by what was remembered. */
  ghost predicate RelabelledBy(q: Work, r: Work, now: int, k: string, memo: BoxInfo) {
    && k in q.seen
    && Lookup(r.seen, k) == Some(RelabelledBox(memo, q.seen[k]))
    && Lookup(r.st.cache, k) == Some(NewEntry(RelabelledBox(memo, q.seen[k]), now))
  }

  /** What the reconcile loop leaves at `k` once the keys in `done` are visited. */
  ghost predicate RelabelView(q: Work, r: Work, now: int, done: set<string>, k: string) {
    if k in done && RelabelAt(q, now, k).Relabelled? then exists memo :: RelabelledBy(q, r, now, k, memo)
    else Lookup(r.seen, k) == Lookup(q.seen, k) && Lookup(r.st.cache, k) == Lookup(q.st.cache, k)
  }

  ghost predicate SamePins(q: Work, r: Work) {
    q.st.otaPinned == r.st.otaPinned && q.st.otaPinnedID == r.st.otaPinnedID && q.st.stockPinned == r.st.stockPinned
  }

  lemma RelabelBoxID(memo: BoxInfo, b: BoxInfo)
    requires b.id.deviceID != ""
    ensures var out := RelabelledBox(memo, b);
            out.id.host == b.id.host && out.id.deviceID == b.id.deviceID && out.id.kind == STR
  {
    CacheMergeIdentity(memo, b);
    hide MergeBoxInfo;
  }

  lemma {:induction false} RelabelLeaves(q: Work, now: int, order: seq<string>, done: set<string>, k: string,
                                         id: string)
    requires MemoryKeyed(q.st.strKnown) && Visits(order, done) && done <= q.seen.Keys
    ensures var r := RelabelAll(q, now, order);
            SamePins(q, r) && RelabelView(q, r, now, done, k) && MemoryView(q, r, now, id)
    decreases order
  {
    if order != [] {
      VisitLast(order, done);
      var key, rest := order[|order| - 1], order[..|order| - 1];
      var w := RelabelAll(q, now, rest);
      RelabelLeaves(q, now, rest, done - {key}, k, q.seen[key].id.deviceID);
      RelabelLeaves(q, now, rest, done - {key}, key, id);
      hide RelabelView, MemoryView, RelabelAt, RelabelOne, MemoryKeyed;
      RelabelVisit(q, w, now, done - {key}, key, k, id);
      assert done - {key} + {key} == done;
    }
  }

  /** One visit. */
  lemma RelabelVisit(q: Work, w: Work, now: int, done: set<string>, key: string, k: string, id: string)
    requires key in q.seen && key !in done && SamePins(q, w)
    requires RelabelView(q, w, now, done, key) && RelabelView(q, w, now, done, k)
    requires MemoryView(q, w, now, q.seen[key].id.deviceID) && MemoryView(q, w, now, id)
    ensures var r := RelabelOne(w, now, key);
            SamePins(q, r) && RelabelView(q, r, now, done + {key}, k) && MemoryView(q, r, now, id)
  {
    hide RelabelledBox, RelabelledBy;
    var r := RelabelOne(w, now, key);
    var b := q.seen[key];
    if RelabelAt(q, now, key).Relabelled? {
      var memo := w.st.strKnown[b.id.deviceID].box;
      RelabelBoxID(memo, b);
      assert RelabelledBy(q, r, now, key, memo) by { RelabelledHere(q, w, r, now, key, memo); }
    }
    if k != key {
      forall memo | RelabelledBy(q, w, now, k, memo) ensures RelabelledBy(q, r, now, k, memo) {
        RelabelledElsewhere(q, w, r, now, k, memo);
      }
    }
  }

  lemma RelabelledHere(q: Work, w: Work, r: Work, now: int, k: string, memo: BoxInfo)
    requires k in q.seen && Lookup(r.seen, k) == Some(RelabelledBox(memo, q.seen[k]))
    requires Lookup(r.st.cache, k) == Some(NewEntry(RelabelledBox(memo, q.seen[k]), now))
    ensures RelabelledBy(q, r, now, k, memo)
  {
  }

  lemma RelabelledElsewhere(q: Work, w: Work, r: Work, now: int, k: string, memo: BoxInfo)
    requires RelabelledBy(q, w, now, k, memo)
    requires Lookup(r.seen, k) == Lookup(w.seen, k) && Lookup(r.st.cache, k) == Lookup(w.st.cache, k)
    ensures RelabelledBy(q, r, now, k, memo)
  {
  }
}
