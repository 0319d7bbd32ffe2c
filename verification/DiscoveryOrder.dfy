/**
 Order independence: on unambiguous sightings the four order-sensitive loops
 of a cycle reach their per-key specification in whatever order they iterate.
 */
module DiscoveryOrder {
  import opened BoxRecords
  import opened DiscoveryRules
  import opened DiscoverySpec
  import opened DiscoveryStep
  import opened FieldPolicy
  import opened Options

  ghost function KeysOf(order: seq<string>): set<string> {
    set k | k in order
  }

  /** The keys visited before the last one, which is none of them. */
  lemma VisitLast(order: seq<string>, keys: set<string>)
    requires Visits(order, keys) && order != []
    ensures var last, rest := order[|order| - 1], order[..|order| - 1];
            && last in keys
            && Visits(rest, keys - {last})
            && KeysOf(order) == KeysOf(rest) + {last}
            && last !in KeysOf(rest)
  {
    var last, rest := order[|order| - 1], order[..|order| - 1];
    assert order == rest + [last];
    assert last !in rest;
    forall k ensures k in rest <==> k in keys - {last} {
      assert k in order <==> k in rest || k == last;
    }
  }

  // ----- refresh -----

  /** The refresh keeps every address and gives each sighting its effective id. */
  lemma RefreshIDs(s: State, seen: Sightings, presenceOnly: set<string>, now: int)
    requires KeyedSightings(seen)
    ensures var w := Refresh(s, seen, presenceOnly, now);
            && w.seen.Keys == seen.Keys
            && w.st.cache.Keys == s.cache.Keys + seen.Keys
            && (forall k :: k in seen ==> w.st.cache[k].box == w.seen[k])
            && (forall k :: k in seen ==> w.seen[k].id.host == k && w.seen[k].id.deviceID == EffectiveID(s, seen, k))
            && (forall k :: k in s.cache && k !in seen ==> w.st.cache[k] == s.cache[k])
  {
    RefreshParts(s, seen, presenceOnly, now);
    forall k | k in seen
      ensures var e := RefreshAt(s, seen, presenceOnly, now, k);
              e.box.id.host == k && e.box.id.deviceID == EffectiveID(s, seen, k)
    {
      RefreshedID(Lookup(s.cache, k), seen[k], k in presenceOnly, k in s.otaPinned, now);
    }
    hide RefreshAt;
  }

  lemma RefreshedID(prev: Option<Entry>, b: BoxInfo, presenceOnly: bool, pinned: bool, now: int)
    ensures var e := RefreshedEntry(prev, b, presenceOnly, pinned, now);
            && e.box.id.host == b.id.host
            && e.box.id.deviceID == if b.id.deviceID == "" && prev.Some? then IDOf(prev.value) else b.id.deviceID
  {
    if prev.Some? { CacheMergeIdentity(prev.value.box, b); }
    hide MergeBoxInfo, Degrades, SilentSighting;
  }

  // ----- where each device answers -----

  lemma {:induction false} LiveHostsSpec(seen: Sightings, order: seq<string>, keys: set<string>)
    requires KeyedSightings(seen) && OneAddressPerID(seen)
    requires Visits(order, keys) && keys <= seen.Keys
    ensures LiveHosts(seen, order).Keys == set k | k in keys && seen[k].id.deviceID != "" :: seen[k].id.deviceID
    ensures forall k :: k in keys && seen[k].id.deviceID != "" ==> LiveHosts(seen, order)[seen[k].id.deviceID] == k
  {
    if order != [] {
      VisitLast(order, keys);
      var last := order[|order| - 1];
      LiveHostsSpec(seen, order[..|order| - 1], keys - {last});
    }
  }

  lemma LiveHostsAnyOrder(seen: Sightings, order: seq<string>)
    requires KeyedSightings(seen) && OneAddressPerID(seen) && Visits(order, seen.Keys)
    ensures LiveHosts(seen, order) == LiveSpec(seen)
  {
    LiveHostsSpec(seen, order, seen.Keys);
    LiveSpecIsLive(seen);
    hide LiveHosts, LiveSpec;
    var live, spec := LiveHosts(seen, order), LiveSpec(seen);
    forall id ensures Lookup(live, id) == Lookup(spec, id) {
      if id in spec { assert live[seen[spec[id]].id.deviceID] == spec[id]; }
      if id in live { assert live[id] in seen || id in spec; }
    }
    SameMap(live, spec);
  }

  /** `live` is the address book of the sightings. */
  ghost predicate IsLive(live: map<string, string>, seen: Sightings) {
    && (forall k :: k in seen && seen[k].id.deviceID != "" ==> seen[k].id.deviceID in live
                                                               && live[seen[k].id.deviceID] == k)
    && (forall id :: id in live ==> id != "" && live[id] in seen && seen[live[id]].id.deviceID == id)
  }

  lemma LiveSpecIsLive(seen: Sightings)
    requires KeyedSightings(seen) && OneAddressPerID(seen)
    ensures IsLive(LiveSpec(seen), seen)
  {
    var live := LiveSpec(seen);
    forall k | k in seen && seen[k].id.deviceID != ""
      ensures seen[k].id.deviceID in live && live[seen[k].id.deviceID] == k
    {
      assert seen[AddressOf(seen, seen[k].id.deviceID)].id.deviceID == seen[k].id.deviceID;
    }
  }

  // ----- re-add -----

  /** What the refresh hands to the re-add loop. */
  ghost predicate SweepReady(cache: map<string, Entry>, seen: Sightings, live: map<string, string>) {
    && seen.Keys <= cache.Keys
    && (forall k :: k in seen ==> cache[k].box == seen[k])
    && IsLive(live, seen)
    && (forall j, k :: j in cache && k in cache && j !in seen && k !in seen && IDOf(cache[j]) == IDOf(cache[k]) != ""
                       ==> j == k)
  }

  /** At most one missed address hands its speaker over to `k`. */
  lemma ArrivalUnique(cache: map<string, Entry>, seen: Sightings, live: map<string, string>, o: string, k: string)
    requires SweepReady(cache, seen, live)
    requires o in cache && o !in seen && NewAddress(cache[o], o, live) == Some(k)
    ensures k in seen && ArrivalAt(cache, seen, live, k) == Some(o)
  {
    var o' := ArrivalAt(cache, seen, live, k).value;
    assert IDOf(cache[o']) == IDOf(cache[o]);
  }

  lemma SweepDoneNone(cache: map<string, Entry>, seen: Sightings, live: map<string, string>, now: int)
    requires SweepReady(cache, seen, live)
    ensures SweepDone(cache, seen, live, now, {}) == Sweep(cache, seen, {})
  {
    var w := SweepDone(cache, seen, live, now, {});
    forall k ensures Lookup(w.cache, k) == Lookup(cache, k) && Lookup(w.seen, k) == Lookup(seen, k) && k !in w.moved {
      SweepDoneAt(cache, seen, live, now, {}, k);
    }
    hide SweepDone, SweptEntry, SweptServed, IsLive;
    SameMap(w.cache, cache);
    SameMap(w.seen, seen);
    assert w.moved == {};
  }

  lemma SweepDoneAt(cache: map<string, Entry>, seen: Sightings, live: map<string, string>, now: int,
                    done: set<string>, k: string)
    ensures var w := SweepDone(cache, seen, live, now, done);
            && Lookup(w.cache, k) == (if k in cache then SweptEntry(cache, seen, live, now, done, k) else None)
            && Lookup(w.seen, k) == (if k in cache then SweptServed(cache, seen, live, now, done, k) else None)
            && (k in w.moved <==> k in cache && k !in seen && k in done && NewAddress(cache[k], k, live).Some?)
  {
    hide SweptEntry, SweptServed;
  }

  /** Visiting one more missed key is what the specification adds for it. */
  lemma SweepDoneOne(cache: map<string, Entry>, seen: Sightings, live: map<string, string>, now: int,
                     done: set<string>, key: string)
    requires SweepReady(cache, seen, live)
    requires key in cache && key !in done
    ensures SweepDone(cache, seen, live, now, done + {key})
            == ReaddOne(SweepDone(cache, seen, live, now, done), key, live, now)
  {
    var w, next := SweepDone(cache, seen, live, now, done), SweepDone(cache, seen, live, now, done + {key});
    var got := ReaddOne(w, key, live, now);
    forall k ensures Lookup(next.cache, k) == Lookup(got.cache, k)
             ensures Lookup(next.seen, k) == Lookup(got.seen, k)
             ensures k in next.moved <==> k in got.moved
    {
      SweepDoneStepAt(cache, seen, live, now, done, key, k);
    }
    SameMap(next.cache, got.cache);
    SameMap(next.seen, got.seen);
    assert next.moved == got.moved;
  }

  lemma SweepDoneStepAt(cache: map<string, Entry>, seen: Sightings, live: map<string, string>, now: int,
                        done: set<string>,
                        key: string, k: string)
    requires SweepReady(cache, seen, live)
    requires key in cache && key !in done
    ensures var next := SweepDone(cache, seen, live, now, done + {key});
            var got := ReaddOne(SweepDone(cache, seen, live, now, done), key, live, now);
            && Lookup(next.cache, k) == Lookup(got.cache, k)
            && Lookup(next.seen, k) == Lookup(got.seen, k)
            && (k in next.moved <==> k in got.moved)
  {
    hide SweepDone, MergeBoxInfo, MissedEntry, ArrivalAt, NewAddress;
    SweepDoneAt(cache, seen, live, now, done, key);
    SweepDoneAt(cache, seen, live, now, done, k);
    SweepDoneAt(cache, seen, live, now, done + {key}, k);
    if k in seen && ArrivalAt(cache, seen, live, k).Some? { ArrivalIs(cache, seen, live, k); }
    if key in seen {
      if k != key { SweptOther(cache, seen, live, now, done, key, k); }
    } else if NewAddress(cache[key], key, live).Some? {
      MovedStepAt(cache, seen, live, now, done, key, k);
    } else if k != key {
      SweptOther(cache, seen, live, now, done, key, k);
    }
  }

  lemma MovedStepAt(cache: map<string, Entry>, seen: Sightings, live: map<string, string>, now: int, done: set<string>,
                    key: string, k: string)
    requires SweepReady(cache, seen, live)
    requires key in cache && key !in done && key !in seen && NewAddress(cache[key], key, live).Some?
    ensures var next := SweepDone(cache, seen, live, now, done + {key});
            var got := ReaddOne(SweepDone(cache, seen, live, now, done), key, live, now);
            && Lookup(next.cache, k) == Lookup(got.cache, k)
            && Lookup(next.seen, k) == Lookup(got.seen, k)
            && (k in next.moved <==> k in got.moved)
  {
    hide SweepDone, MergeBoxInfo, MissedEntry, ArrivalAt, NewAddress, IsLive;
    var host := NewAddress(cache[key], key, live).value;
    ArrivalUnique(cache, seen, live, key, host);
    SweepDoneAt(cache, seen, live, now, done, key);
    SweepDoneAt(cache, seen, live, now, done, host);
    SweepDoneAt(cache, seen, live, now, done, k);
    SweepDoneAt(cache, seen, live, now, done + {key}, k);
    if k != host && k != key {
      if k in seen && ArrivalAt(cache, seen, live, k).Some? { ArrivalIs(cache, seen, live, k); }
      SweptOther(cache, seen, live, now, done, key, k);
    }
  }

  lemma ArrivalIs(cache: map<string, Entry>, seen: Sightings, live: map<string, string>, k: string)
    requires ArrivalAt(cache, seen, live, k).Some?
    ensures var o := ArrivalAt(cache, seen, live, k).value;
            o in cache && o !in seen && NewAddress(cache[o], o, live) == Some(k)
  {
  }

  /** A visit leaves what is not its key nor its speaker's new address. */
  lemma SweptOther(cache: map<string, Entry>, seen: Sightings, live: map<string, string>, now: int, done: set<string>,
                   key: string, k: string)
    requires k != key
    requires k in seen ==> ArrivalAt(cache, seen, live, k) != Some(key)
    ensures k in cache
            ==> SweptEntry(cache, seen, live, now, done + {key}, k) == SweptEntry(cache, seen, live, now, done, k)
    ensures k in cache
            ==> SweptServed(cache, seen, live, now, done + {key}, k) == SweptServed(cache, seen, live, now, done, k)
  {
    hide MergeBoxInfo, MissedEntry, ArrivalAt, NewAddress;
  }

  lemma {:induction false} ReaddAnyOrder(cache: map<string, Entry>, seen: Sightings, live: map<string, string>,
                                         now: int,
                                         order: seq<string>, keys: set<string>)
    requires SweepReady(cache, seen, live)
    requires Visits(order, keys) && keys <= cache.Keys
    ensures ReaddAll(Sweep(cache, seen, {}), order, live, now) == SweepDone(cache, seen, live, now, keys)
  {
    hide SweepDone, ReaddOne, SweepReady;
    if order == [] {
      assert keys == {};
      SweepDoneNone(cache, seen, live, now);
    } else {
      VisitLast(order, keys);
      var last := order[|order| - 1];
      ReaddAnyOrder(cache, seen, live, now, order[..|order| - 1], keys - {last});
      SweepDoneOne(cache, seen, live, now, keys - {last}, last);
      assert keys - {last} + {last} == keys;
    }
  }

  // ----- the identity memory -----

  lemma {:induction false} RecordAnyOrder(known: map<string, Entry>, seen: Sightings, presenceOnly: set<string>,
                                          now: int,
                                          order: seq<string>, keys: set<string>)
    requires OneAddressPerID(seen)
    requires Visits(order, keys) && keys <= seen.Keys
    ensures RecordAll(known, seen, presenceOnly, now, order) == RecordDone(known, seen, presenceOnly, now, keys)
  {
    if order == [] {
      assert keys == {} && RecordedIDs(seen, presenceOnly, keys) == {};
    } else {
      VisitLast(order, keys);
      var last := order[|order| - 1];
      var rest := keys - {last};
      RecordAnyOrder(known, seen, presenceOnly, now, order[..|order| - 1], rest);
      assert keys == rest + {last};
      RecordDoneOne(known, seen, presenceOnly, now, rest, last);
    }
  }

  lemma RecordDoneOne(known: map<string, Entry>, seen: Sightings, presenceOnly: set<string>, now: int,
                      done: set<string>, key: string)
    requires OneAddressPerID(seen) && key in seen
    ensures RecordDone(known, seen, presenceOnly, now, done + {key}) ==
            RecordOne(RecordDone(known, seen, presenceOnly, now, done), seen, presenceOnly, now, key)
  {
    hide OneAddressPerID, Records;
    var id := seen[key].id.deviceID;
    RecordedMore(seen, presenceOnly, done, key);
    RecordOneIs(RecordDone(known, seen, presenceOnly, now, done), seen, presenceOnly, now, key);
    if Records(seen, presenceOnly, key, id) { AddressIs(seen, presenceOnly, key); }
    var got := RecordOne(RecordDone(known, seen, presenceOnly, now, done), seen, presenceOnly, now, key);
    var next := RecordDone(known, seen, presenceOnly, now, done + {key});
    hide RecordOne, RecordedIDs;
    forall d ensures Lookup(next, d) == Lookup(got, d) {
    }
    SameMap(next, got);
  }

  lemma RecordedMore(seen: Sightings, presenceOnly: set<string>, done: set<string>, key: string)
    requires key in seen
    ensures RecordedIDs(seen, presenceOnly, done + {key}) ==
            if Records(seen, presenceOnly, key, seen[key].id.deviceID)
               then RecordedIDs(seen, presenceOnly, done) + {seen[key].id.deviceID}
            else RecordedIDs(seen, presenceOnly, done)
  {
    hide Records;
  }

  lemma RecordOneIs(known: map<string, Entry>, seen: Sightings, presenceOnly: set<string>, now: int, key: string)
    requires key in seen
    ensures RecordOne(known, seen, presenceOnly, now, key) ==
            if Records(seen, presenceOnly, key, seen[key].id.deviceID)
               then known[seen[key].id.deviceID := NewEntry(seen[key], now)]
            else known
  {
  }

  lemma AddressIs(seen: Sightings, presenceOnly: set<string>, key: string)
    requires OneAddressPerID(seen) && key in seen && Records(seen, presenceOnly, key, seen[key].id.deviceID)
    ensures AddressOf(seen, seen[key].id.deviceID) == key
  {
    var k := AddressOf(seen, seen[key].id.deviceID);
    assert seen[k].id.deviceID == seen[key].id.deviceID;
  }

  /** Every finite set of keys can be visited. */
  lemma {:induction false} SomeOrder(keys: set<string>) returns (order: seq<string>)
    ensures Visits(order, keys)
    decreases keys
  {
    order := [];
    if keys != {} {
      var k :| k in keys;
      var rest := SomeOrder(keys - {k});
      order := rest + [k];
    }
  }

  /** The memory of a device is the record of its confirmed address visited last. */
  lemma RecordLastWins(known: map<string, Entry>, seen: Sightings, presenceOnly: set<string>, now: int,
                       order: seq<string>, k: string)
    requires (forall j :: j in order ==> j in seen) && k in seen && Records(seen, presenceOnly, k, seen[k].id.deviceID)
    ensures (forall j :: j in order + [k] ==> j in seen)
    ensures Lookup(RecordAll(known, seen, presenceOnly, now, order + [k]), seen[k].id.deviceID)
            == Some(NewEntry(seen[k], now))
  {
    assert (order + [k])[..|order|] == order;
  }

  /** Where one device is confirmed at two addresses, the record loop does depend on the order: two
      visits of the same keys leave two different memories. */
  lemma RecordOrderMatters(known: map<string, Entry>, seen: Sightings, presenceOnly: set<string>, now: int,
                           j: string, k: string)
    requires KeyedSightings(seen) && j in seen && k in seen && j != k && seen[j].id.deviceID == seen[k].id.deviceID
    requires Records(seen, presenceOnly, j, seen[j].id.deviceID) && Records(seen, presenceOnly, k, seen[k].id.deviceID)
    ensures exists a, b :: Visits(a, seen.Keys) && Visits(b, seen.Keys)
                           && RecordAll(known, seen, presenceOnly, now, a)
                              != RecordAll(known, seen, presenceOnly, now, b)
  {
    var a := SomeOrder(seen.Keys - {j});
    var b := SomeOrder(seen.Keys - {k});
    RecordLastWins(known, seen, presenceOnly, now, a, j);
    RecordLastWins(known, seen, presenceOnly, now, b, k);
    assert seen[j].id.host != seen[k].id.host;
    assert Visits(a + [j], seen.Keys) && Visits(b + [k], seen.Keys);
    hide RecordAll;
    assert RecordAll(known, seen, presenceOnly, now, a + [j]) != RecordAll(known, seen, presenceOnly, now, b + [k]);
  }

  lemma RelabelDoneAt(w: Work, now: int, done: set<string>, k: string)
    ensures var r, at := RelabelDone(w, now, done), RelabelAt(w, now, k);
            && r.st.otaPinned == w.st.otaPinned && r.st.otaPinnedID == w.st.otaPinnedID
               && r.st.stockPinned == w.st.stockPinned
            && r.seen.Keys == w.seen.Keys
            && Lookup(r.seen, k) == (if k in done && at.Relabelled? then Some(at.box) else Lookup(w.seen, k))
            && Lookup(r.st.cache, k)
               == (if k in done && at.Relabelled? then Some(NewEntry(at.box, now)) else Lookup(w.st.cache, k))
  {
    assert RelabelAt(w, now, k).Relabelled? ==> k in w.seen;
    hide RelabelAt, MemoryAfter;
  }

  lemma MemoryDoneAt(w: Work, now: int, done: set<string>, id: string)
    ensures Lookup(RelabelDone(w, now, done).st.strKnown, id) ==
            if id in w.st.strKnown then MemoryAfter(w, now, done, id) else None
  {
    hide RelabelAt, MemoryAfter;
  }

  /** The memory of the one speaker at `k`. */
  lemma MemoryAfterAt(w: Work, now: int, done: set<string>, k: string)
    requires OneAddressPerID(w.seen)
    requires k in w.seen && w.seen[k].id.deviceID in w.st.strKnown && w.seen[k].id.deviceID != ""
    ensures var id := w.seen[k].id.deviceID;
            MemoryAfter(w, now, done, id) ==
            if k in done && !RelabelAt(w, now, k).Untouched? then RelabelledMemo(RelabelAt(w, now, k))
            else Some(w.st.strKnown[id])
  {
    hide RelabelAt, RelabelledMemo;
  }

  lemma MemoryAfterMore(w: Work, now: int, done: set<string>, key: string, id: string)
    requires OneAddressPerID(w.seen)
    requires key in w.seen && key !in done && id in w.st.strKnown && id != ""
    ensures MemoryAfter(w, now, done + {key}, id) ==
            if w.seen[key].id.deviceID == id && !RelabelAt(w, now, key).Untouched?
            then RelabelledMemo(RelabelAt(w, now, key))
            else MemoryAfter(w, now, done, id)
  {
    hide RelabelAt, RelabelledMemo;
  }

  /** Relabelling one more key is what the specification adds for it. */
  lemma RelabelDoneOne(w: Work, now: int, done: set<string>, key: string)
    requires OneAddressPerID(w.seen) && MemoryKeyed(w.st.strKnown)
    requires key in w.seen && key !in done
    ensures RelabelDone(w, now, done + {key}) == RelabelOne(RelabelDone(w, now, done), now, key)
  {
    hide RelabelDone, RelabelOne, OneAddressPerID, MemoryKeyed;
    var next, got := RelabelDone(w, now, done + {key}), RelabelOne(RelabelDone(w, now, done), now, key);
    forall k
      ensures Lookup(next.seen, k) == Lookup(got.seen, k)
      ensures Lookup(next.st.cache, k) == Lookup(got.st.cache, k)
      ensures Lookup(next.st.strKnown, k) == Lookup(got.st.strKnown, k)
    {
      RelabelDoneOneAt(w, now, done, key, k);
      MemoryDoneOneAt(w, now, done, key, k);
    }
    RelabelDoneOneAt(w, now, done, key, key);
    SameMap(next.seen, got.seen);
    SameMap(next.st.cache, got.st.cache);
    SameMap(next.st.strKnown, got.st.strKnown);
  }

  lemma RelabelDoneOneAt(w: Work, now: int, done: set<string>, key: string, k: string)
    requires OneAddressPerID(w.seen) && MemoryKeyed(w.st.strKnown)
    requires key in w.seen && key !in done
    ensures var next, got := RelabelDone(w, now, done + {key}), RelabelOne(RelabelDone(w, now, done), now, key);
            && Lookup(next.seen, k) == Lookup(got.seen, k)
            && Lookup(next.st.cache, k) == Lookup(got.st.cache, k)
            && next.st.otaPinned == got.st.otaPinned && next.st.otaPinnedID == got.st.otaPinnedID
            && next.st.stockPinned == got.st.stockPinned
  {
    hide RelabelDone, RelabelAt, RelabelOne, RelabelledMemo, MemoryAfter, OneAddressPerID, MemoryKeyed, RelabelledBox,
         NewEntry;
    RelabelStep(w, now, done, key);
    RelabelDoneAt(w, now, done, k);
    RelabelDoneAt(w, now, done + {key}, k);
  }

  lemma MemoryDoneOneAt(w: Work, now: int, done: set<string>, key: string, id: string)
    requires OneAddressPerID(w.seen) && MemoryKeyed(w.st.strKnown)
    requires key in w.seen && key !in done
    ensures var next, got := RelabelDone(w, now, done + {key}), RelabelOne(RelabelDone(w, now, done), now, key);
            Lookup(next.st.strKnown, id) == Lookup(got.st.strKnown, id)
  {
    hide RelabelDone, RelabelAt, RelabelOne, MemoryAfter, OneAddressPerID, RelabelledBox, NewEntry;
    RelabelStep(w, now, done, key);
    MemoryDoneAt(w, now, done, id);
    MemoryDoneAt(w, now, done + {key}, id);
    RelabelRemembered(w, now, key);
    if id in w.st.strKnown { MemoryAfterMore(w, now, done, key, id); }
  }

  lemma RelabelRemembered(w: Work, now: int, key: string)
    ensures !RelabelAt(w, now, key).Untouched? ==> key in w.seen && w.seen[key].id.deviceID in w.st.strKnown
  {
    hide RelabelledBox;
  }

  /** The body of the reconcile loop at a key no earlier visit touched. */
  lemma RelabelStep(w: Work, now: int, done: set<string>, key: string)
    requires OneAddressPerID(w.seen) && MemoryKeyed(w.st.strKnown)
    requires key in w.seen && key !in done
    ensures var before, id := RelabelDone(w, now, done), w.seen[key].id.deviceID;
            RelabelOne(before, now, key) ==
            match RelabelAt(w, now, key)
            case Untouched => before
            case Forgotten => before.(st := before.st.(strKnown := before.st.strKnown - {id}))
            case Relabelled(box, memoSeen) =>
              Work(before.st.(cache := before.st.cache[key := NewEntry(box, now)],
                              strKnown := before.st.strKnown[id := NewEntry(box, memoSeen)]),
                   before.seen[key := box])
  {
    hide RelabelDone, MemoryAfter, RelabelledBox;
    var before, id := RelabelDone(w, now, done), w.seen[key].id.deviceID;
    RelabelDoneAt(w, now, done, key);
    assert Lookup(before.seen, key) == Some(w.seen[key]);
    MemoryDoneAt(w, now, done, id);
    if id in w.st.strKnown { MemoryAfterAt(w, now, done, key); }
  }

  lemma {:induction false} RelabelAnyOrder(w: Work, now: int, order: seq<string>, keys: set<string>)
    requires OneAddressPerID(w.seen) && MemoryKeyed(w.st.strKnown)
    requires Visits(order, keys) && keys <= w.seen.Keys
    ensures RelabelAll(w, now, order) == RelabelDone(w, now, keys)
  {
    hide RelabelDone, RelabelOne, OneAddressPerID, MemoryKeyed;
    if order == [] {
      assert keys == {};
      RelabelDoneNone(w, now);
    } else {
      VisitLast(order, keys);
      var last := order[|order| - 1];
      RelabelAnyOrder(w, now, order[..|order| - 1], keys - {last});
      RelabelDoneOne(w, now, keys - {last}, last);
      assert keys - {last} + {last} == keys;
    }
  }

  lemma RelabelDoneNone(w: Work, now: int)
    ensures RelabelDone(w, now, {}) == w
  {
    hide RelabelAt, RelabelledMemo;
    assert RelabelDone(w, now, {}).st.strKnown == w.st.strKnown;
  }
}
