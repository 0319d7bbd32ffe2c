/**
 The invariant of the discovery state over whole runs, and the main refinement:
 on unambiguous sightings a cycle is its per-key specification in any order.
 */
module DiscoveryInvariant {
  import opened BoxRecords
  import opened DiscoveryOrder
  import opened DiscoveryRules
  import opened DiscoverySpec
  import opened DiscoveryStep
  import opened FieldPolicy
  import opened Options

  /** Everything cached is served, and no served id is at two addresses. */
  ghost predicate Coherent(w: Work) {
    Served(w) && OneAddressPerID(w.seen)
  }

  /** The refresh hands the re-add loop what it needs. */
  lemma RefreshReady(s: State, seen: Sightings, presenceOnly: set<string>, now: int)
    requires Inv(s) && Unambiguous(s, seen)
    ensures var w := Refresh(s, seen, presenceOnly, now);
            && KeyedSightings(w.seen) && OneAddressPerID(w.seen) && KeyedCache(w.st.cache)
            && SweepReady(w.st.cache, w.seen, LiveSpec(w.seen))
            && IsLive(LiveSpec(w.seen), w.seen)
  {
    hide Refresh, EffectiveID, LiveSpec, PinsNamed, MemoryKeyed, IsLive;
    RefreshIDs(s, seen, presenceOnly, now);
    var w := Refresh(s, seen, presenceOnly, now);
    LiveSpecIsLive(w.seen);
  }

  /** Nothing in a merge at the new address changes the id: both records carry it. */
  lemma SweptAt(cache: map<string, Entry>, seen: Sightings, live: map<string, string>, now: int, k: string)
    requires KeyedCache(cache) && SweepReady(cache, seen, live) && k in cache
    ensures var e := SweptEntry(cache, seen, live, now, cache.Keys, k);
            var b := SweptServed(cache, seen, live, now, cache.Keys, k);
            && (e.Some? <==> b.Some?)
            && (e.Some? ==> e.value.box.id.host == k && IDOf(e.value) == IDOf(cache[k]))
            && (b.Some? ==> b.value.id.host == k && b.value.id.deviceID == IDOf(cache[k]))
            && (k in seen ==> e.Some? && b.value == e.value.box)
            && (k !in seen && IDOf(cache[k]) != "" && IDOf(cache[k]) in live ==> e.None?)
  {
    hide ArrivalAt;
    var o := ArrivalAt(cache, seen, live, k);
    if k in seen && o.Some? {
      ArrivalIs(cache, seen, live, k);
      CacheMergeIdentity(cache[o.value].box, cache[k].box);
    }
    hide MergeBoxInfo;
  }

  /** After the re-add loop everything cached is served under one address. */
  lemma SweepCoherent(cache: map<string, Entry>, seen: Sightings, live: map<string, string>, now: int)
    requires KeyedCache(cache) && SweepReady(cache, seen, live) && OneAddressPerID(seen)
    ensures var w := SweepDone(cache, seen, live, now, cache.Keys);
            && w.cache.Keys == w.seen.Keys && seen.Keys <= w.seen.Keys <= cache.Keys
            && (forall k :: k in w.seen ==>
                && w.cache[k].box.id.host == k && IDOf(w.cache[k]) == IDOf(cache[k])
                && w.seen[k].id.host == k && w.seen[k].id.deviceID == IDOf(cache[k]))
            && (forall k :: k in w.seen && k !in seen && IDOf(cache[k]) != "" ==> IDOf(cache[k]) !in live)
            && OneAddressPerID(w.seen)
  {
    var w := SweepDone(cache, seen, live, now, cache.Keys);
    forall k
      ensures k in w.cache <==> k in w.seen
      ensures k in w.seen ==>
              && k in cache
              && w.cache[k].box.id.host == k && IDOf(w.cache[k]) == IDOf(cache[k])
              && w.seen[k].id.host == k && w.seen[k].id.deviceID == IDOf(cache[k])
              && (k !in seen && IDOf(cache[k]) != "" ==> IDOf(cache[k]) !in live)
      ensures k in seen ==> k in w.seen
    {
      SweepDoneAt(cache, seen, live, now, cache.Keys, k);
      if k in cache { SweptAt(cache, seen, live, now, k); }
      hide SweepDone, SweptEntry, SweptServed, IsLive, OneAddressPerID;
    }
    hide SweepDone, SweptEntry, SweptServed;
    SweptUnique(cache, seen, live, w.seen);
  }

  lemma SweptUnique(cache: map<string, Entry>, seen: Sightings, live: map<string, string>, served: Sightings)
    requires SweepReady(cache, seen, live) && OneAddressPerID(seen)
    requires forall k :: k in served ==> k in cache && served[k].id.deviceID == IDOf(cache[k])
    requires forall k :: k in served && k !in seen && served[k].id.deviceID != "" ==> served[k].id.deviceID !in live
    ensures OneAddressPerID(served)
  {
    forall j, k | j in served && k in served && served[j].id.deviceID == served[k].id.deviceID != "" ensures j == k {
      if j in seen { assert seen[j].id.deviceID in live; }
      if k in seen { assert seen[k].id.deviceID in live; }
    }
  }

  /** A speaker a pin waits for is served at the pinned host, or was sighted elsewhere and drops the pin. */
  ghost predicate PinsReady(w: Work, live: map<string, string>) {
    && PinsDistinct(w.st)
    && (forall h :: h in w.st.otaPinned ==> h != "")
    && (forall h, k :: h in w.st.otaPinnedID && k in w.seen && w.seen[k].id.deviceID == w.st.otaPinnedID[h] && k != h
                       ==> w.st.otaPinnedID[h] in live && live[w.st.otaPinnedID[h]] != h)
  }

  /** A held pin serves its host under the id it had, or the pinned one where nothing was served. */
  lemma PinAtID(w: Work, moved: set<string>, live: map<string, string>, now: int, h: string)
    requires ServedAt(w, h) && w.st.cache.Keys == w.seen.Keys && MemoryKeyed(w.st.strKnown) && h in w.st.otaPinned
    ensures var at := PinAt(w, moved, live, now, h);
            at.PinHeld? ==>
            && at.served.id.host == h && at.served.id.kind == STR
            && at.served.id.deviceID == (if h in w.seen then w.seen[h].id.deviceID else PinID(w.st, h))
            && (at.cached.Some? ==> at.cached.value.box.id == at.served.id)
            && (PinID(w.st, h) != "" && PinID(w.st, h) in live ==> live[PinID(w.st, h)] == h)
  {
    hide MinimalBox, BoxIsDevice;
    assert MinimalBox(h, PinID(w.st, h)).id.deviceID == PinID(w.st, h)
           && MinimalBox(h, PinID(w.st, h)).id.host == h by {
      MinimalBoxID(h, PinID(w.st, h));
    }
  }

  lemma MinimalBoxID(host: string, pinID: string)
    ensures MinimalBox(host, pinID).id.deviceID == pinID && MinimalBox(host, pinID).id.host == host
    ensures MinimalBox(host, pinID).agent.version == "" && MinimalBox(host, pinID).id.port == 8888
  {
  }

  lemma HoldPinsAt(w: Work, moved: set<string>, live: map<string, string>, now: int, k: string)
    ensures var r := HoldPins(w, moved, live, now);
            var held := k in w.st.otaPinned && PinAt(w, moved, live, now, k).PinHeld?;
            && Lookup(r.seen, k) == (if held then Some(PinAt(w, moved, live, now, k).served) else Lookup(w.seen, k))
            && Lookup(r.st.cache, k) ==
               (if held && PinAt(w, moved, live, now, k).cached.Some? then PinAt(w, moved, live, now, k).cached
                else Lookup(w.st.cache, k))
            && (k in r.st.otaPinned <==> held)
            && Lookup(r.st.otaPinned, k) == (if held then Lookup(w.st.otaPinned, k) else None)
            && Lookup(r.st.otaPinnedID, k) ==
               (if k in w.st.otaPinned && !held then None else Lookup(w.st.otaPinnedID, k))
            && r.st.stockPinned == w.st.stockPinned && r.st.strKnown == w.st.strKnown
  {
    hide PinAt;
  }

  /** What the pin loop leaves at `k`, as far as ids and addresses go. */
  ghost predicate PinnedView(w: Work, r: Work, live: map<string, string>, k: string) {
    var free := PinID(w.st, k) != "" && PinID(w.st, k) in live ==> live[PinID(w.st, k)] == k;
    && (k in w.seen ==> k in r.seen && r.seen[k].id.deviceID == w.seen[k].id.deviceID)
    && (k in r.seen && k !in w.seen ==> k in w.st.otaPinned && r.seen[k].id.deviceID == PinID(w.st, k) && free)
    && ServedAt(r, k)
    && (k in r.st.otaPinned ==> k in w.st.otaPinned)
    && (k in r.st.otaPinnedID ==> k in w.st.otaPinnedID && k in r.st.otaPinned && k in r.seen
                                  && r.st.otaPinnedID[k] == w.st.otaPinnedID[k] && free)
  }

  lemma PinnedViewAt(w: Work, moved: set<string>, live: map<string, string>, now: int, k: string)
    requires Coherent(w) && w.st.cache.Keys == w.seen.Keys && MemoryKeyed(w.st.strKnown) && PinsReady(w, live)
    ensures PinnedView(w, HoldPins(w, moved, live, now), live, k)
  {
    HoldPinsAt(w, moved, live, now, k);
    assert ServedAt(w, k);
    if k in w.st.otaPinned { PinAtID(w, moved, live, now, k); }
    hide HoldPins, PinAt, OneAddressPerID, MemoryKeyed;
  }

  /** A pin names no speaker that is served elsewhere. */
  ghost predicate PinsServed(w: Work) {
    forall h, k :: h in w.st.otaPinnedID && k in w.seen && w.seen[k].id.deviceID == w.st.otaPinnedID[h] ==> k == h
  }

  lemma PinnedViewCoherent(w: Work, r: Work, live: map<string, string>)
    requires Coherent(w) && PinsReady(w, live)
    requires forall k :: PinnedView(w, r, live, k)
    ensures OneAddressPerID(r.seen) && PinsServed(r) && PinsDistinct(r.st)
  {
    forall j, k | j in r.seen && k in r.seen && r.seen[j].id.deviceID == r.seen[k].id.deviceID != "" ensures j == k {
      assert PinnedView(w, r, live, j) && PinnedView(w, r, live, k);
    }
    forall h, k | h in r.st.otaPinnedID && k in r.seen && r.seen[k].id.deviceID == r.st.otaPinnedID[h] ensures k == h {
      assert PinnedView(w, r, live, h) && PinnedView(w, r, live, k);
    }
    forall h | h in r.st.otaPinnedID
      ensures h in w.st.otaPinnedID && h in r.st.otaPinned && r.st.otaPinnedID[h] == w.st.otaPinnedID[h]
    {
      assert PinnedView(w, r, live, h);
    }
    forall h | h in r.st.otaPinned ensures h != "" {
      assert PinnedView(w, r, live, h);
    }
  }

  lemma PinsCoherent(w: Work, moved: set<string>, live: map<string, string>, now: int)
    requires Coherent(w) && w.st.cache.Keys == w.seen.Keys && MemoryKeyed(w.st.strKnown) && PinsReady(w, live)
    ensures var r := HoldPins(w, moved, live, now);
            Coherent(r) && PinsServed(r) && PinsDistinct(r.st)
  {
    hide HoldPins, PinsReady, MemoryKeyed;
    var r := HoldPins(w, moved, live, now);
    forall k ensures PinnedView(w, r, live, k) {
      PinnedViewAt(w, moved, live, now, k);
    }
    PinnedViewCoherent(w, r, live);
    forall k ensures ServedAt(r, k) {
      assert PinnedView(w, r, live, k);
    }
  }

  // ----- the stock pins -----

  lemma CorrectAt(w: Work, now: int, k: string)
    ensures var r := Correct(w, now);
            var at := if k in w.st.stockPinned then StockAt(w, now, k) else StockKept;
            && Lookup(r.seen, k) == (if at.StockCorrected? then Some(at.box) else Lookup(w.seen, k))
            && Lookup(r.st.cache, k) ==
               (if at.StockCorrected? then Some(CorrectedEntry(Lookup(w.st.cache, k), at.box, now))
                 else Lookup(w.st.cache, k))
            && Lookup(r.st.stockPinned, k) == (if at.StockDropped? then None else Lookup(w.st.stockPinned, k))
            && r.st.otaPinned == w.st.otaPinned && r.st.otaPinnedID == w.st.otaPinnedID
               && r.st.strKnown == w.st.strKnown
  {
    hide StockAt, CorrectedEntry;
  }

  /** A corrected record keeps the address and the id it had. */
  lemma StockAtID(w: Work, now: int, k: string)
    requires k in w.st.stockPinned && StockAt(w, now, k).StockCorrected?
    ensures k in w.seen
    ensures var b := StockAt(w, now, k).box;
            && b.id.host == w.seen[k].id.host && b.id.deviceID == w.seen[k].id.deviceID && b.id.kind == Stock
            && CorrectedEntry(Lookup(w.st.cache, k), b, now).box.id == b.id
  {
  }

  lemma CorrectKeeps(w: Work, now: int, k: string)
    requires ServedAt(w, k)
    ensures var r := Correct(w, now);
            && ServedAt(r, k)
            && (k in r.seen <==> k in w.seen)
            && (k in w.seen ==> r.seen[k].id.deviceID == w.seen[k].id.deviceID)
  {
    CorrectAt(w, now, k);
    if k in w.st.stockPinned && StockAt(w, now, k).StockCorrected? { StockAtID(w, now, k); }
    hide Correct, StockAt, CorrectedEntry;
  }

  lemma CorrectCoherent(w: Work, now: int)
    requires Coherent(w) && PinsServed(w)
    ensures var r := Correct(w, now);
            && Coherent(r) && PinsServed(r) && r.seen.Keys == w.seen.Keys
            && (forall k :: k in w.seen ==> r.seen[k].id.deviceID == w.seen[k].id.deviceID)
  {
    hide Correct, StockAt, CorrectedEntry, ServedAt;
    var r := Correct(w, now);
    CorrectAt(w, now, "");
    forall k
      ensures k in r.seen <==> k in w.seen
      ensures k in w.seen ==> r.seen[k].id.deviceID == w.seen[k].id.deviceID
      ensures ServedAt(r, k)
    {
      assert ServedAt(w, k);
      CorrectKeeps(w, now, k);
    }
  }

  // ----- the cycle up to the pins -----

  lemma RefreshKeepsPins(s: State, seen: Sightings, presenceOnly: set<string>, now: int)
    ensures var r := Refresh(s, seen, presenceOnly, now);
            && r.st.otaPinned == s.otaPinned && r.st.otaPinnedID == s.otaPinnedID && r.st.stockPinned == s.stockPinned
            && (MemoryKeyed(s.strKnown) ==> MemoryKeyed(r.st.strKnown))
  {
    hide RefreshAt, DegradesAt;
  }

  lemma SweptCoherent(s: State, seen: Sightings, presenceOnly: set<string>, now: int)
    requires Inv(s) && Unambiguous(s, seen)
    ensures var (w, moved) := SweptSpec(s, seen, presenceOnly, now);
            var r := Refresh(s, seen, presenceOnly, now);
            && Coherent(w) && w.st.cache.Keys == w.seen.Keys && seen.Keys <= w.seen.Keys
            && (forall k :: k in w.seen ==> k in r.st.cache && w.seen[k].id.deviceID == IDOf(r.st.cache[k]))
  {
    hide SweepDone, LiveSpec, Refresh, Unambiguous, MemoryKeyed, PinsDistinct, PinsNamed, OneAddressPerEntry, IsLive,
         SweepReady;
    RefreshReady(s, seen, presenceOnly, now);
    RefreshKeys(s, seen, presenceOnly, now);
    var r := Refresh(s, seen, presenceOnly, now);
    SweepCoherent(r.st.cache, r.seen, LiveSpec(r.seen), now);
  }

  lemma PinsReadyAfterSweep(s: State, seen: Sightings, presenceOnly: set<string>, now: int)
    requires Inv(s) && Unambiguous(s, seen)
    ensures var (w, moved) := SweptSpec(s, seen, presenceOnly, now);
            && Coherent(w) && w.st.cache.Keys == w.seen.Keys && MemoryKeyed(w.st.strKnown)
            && PinsReady(w, LiveSpec(Refresh(s, seen, presenceOnly, now).seen))
            && seen.Keys <= w.seen.Keys
  {
    hide SweepDone, EffectiveID, LiveSpec, Refresh, MemoryKeyed, PinsReady, PinsDistinct, PinsNamed, OneAddressPerEntry,
         OneAddressPerID, KeyedSightings, KeyedCache, SweepReady, IsLive, Coherent;
    RefreshIDs(s, seen, presenceOnly, now);
    RefreshKeepsPins(s, seen, presenceOnly, now);
    RefreshReady(s, seen, presenceOnly, now);
    SweptCoherent(s, seen, presenceOnly, now);
    var r := Refresh(s, seen, presenceOnly, now);
    var (w, moved) := SweptSpec(s, seen, presenceOnly, now);
    PinsReadyFrom(s, r, w, LiveSpec(r.seen));
  }

  lemma PinsReadyFrom(s: State, r: Work, w: Work, live: map<string, string>)
    requires PinsDistinct(s) && PinsNamed(s) && (forall h :: h in s.otaPinned ==> h != "")
    requires w.st.otaPinned == s.otaPinned && w.st.otaPinnedID == s.otaPinnedID
    requires IsLive(live, r.seen)
    requires forall k :: k in r.seen ==> k in r.st.cache && r.st.cache[k].box == r.seen[k]
    requires forall k :: k in r.st.cache && k !in r.seen ==> k in s.cache && r.st.cache[k] == s.cache[k]
    requires forall k :: k in w.seen ==> k in r.st.cache && w.seen[k].id.deviceID == IDOf(r.st.cache[k])
    ensures PinsReady(w, live)
  {
    forall h, k | h in w.st.otaPinnedID && k in w.seen && w.seen[k].id.deviceID == w.st.otaPinnedID[h] && k != h
      ensures w.st.otaPinnedID[h] in live && live[w.st.otaPinnedID[h]] != h
    {
      if k in r.seen {
        LiveAt(r.seen, live, k);
      } else {
        assert false;
      }
    }
  }

  lemma LiveAt(seen: Sightings, live: map<string, string>, k: string)
    requires IsLive(live, seen) && k in seen && seen[k].id.deviceID != ""
    ensures seen[k].id.deviceID in live && live[seen[k].id.deviceID] == k
  {
  }

  lemma PinnedCoherent(s: State, seen: Sightings, presenceOnly: set<string>, now: int)
    requires Inv(s) && Unambiguous(s, seen)
    ensures var w := PinnedSpec(s, seen, presenceOnly, now);
            && Coherent(w) && PinsServed(w) && PinsDistinct(w.st) && MemoryKeyed(w.st.strKnown)
  {
    PinsReadyAfterSweep(s, seen, presenceOnly, now);
    hide SweptSpec, HoldPins, Correct, Coherent, PinsServed, PinsDistinct, MemoryKeyed, PinsReady, LiveSpec;
    var (w, moved) := SweptSpec(s, seen, presenceOnly, now);
    var live := LiveSpec(Refresh(s, seen, presenceOnly, now).seen);
    PinsCoherent(w, moved, live, now);
    var held := HoldPins(w, moved, live, now);
    CorrectCoherent(held, now);
    CorrectAt(held, now, "");
    HoldPinsAt(w, moved, live, now, "");
    PinsDistinctSame(held.st, Correct(held, now).st);
  }

  lemma PinsDistinctSame(a: State, b: State)
    requires PinsDistinct(a) && a.otaPinned == b.otaPinned && a.otaPinnedID == b.otaPinnedID
    ensures PinsDistinct(b)
  {
  }

  // ----- the main refinement -----

  /**
   On unambiguous sightings a cycle is its per-key specification: no visiting
   order of any of its loops shows in the cache, the pins, the memory or what
   is served.
   */
  lemma StepAnyOrder(s: State, seen: Sightings, presenceOnly: set<string>, now: int, o: Orders)
    requires Inv(s) && Unambiguous(s, seen) && ValidOrders(s, seen, presenceOnly, now, o)
    ensures Step(s, seen, presenceOnly, now, o) == StepSpec(s, seen, presenceOnly, now)
  {
    hide Inv, Unambiguous, Refresh, SweepDone, HoldPins, Correct, RecordDone, RelabelDone, Coherent, PinsServed,
         PinsDistinct, MemoryKeyed, SweepReady, LiveSpec, OneAddressPerID, KeyedSightings, KeyedCache, Visits,
         LiveHosts, ReaddAll, RecordAll, RelabelAll;
    RefreshReady(s, seen, presenceOnly, now);
    RefreshKeys(s, seen, presenceOnly, now);
    var w := Refresh(s, seen, presenceOnly, now);
    LiveHostsAnyOrder(w.seen, o.sighted);
    ReaddAnyOrder(w.st.cache, w.seen, LiveSpec(w.seen), now, o.cached, w.st.cache.Keys);
    var p := PinnedSpec(s, seen, presenceOnly, now);
    assert Pinned(s, seen, presenceOnly, now, LiveSpec(w.seen), o.cached) == p;
    PinnedCoherent(s, seen, presenceOnly, now);
    CoherentUnique(p);
    RecordAnyOrder(p.st.strKnown, p.seen, presenceOnly, now, o.recorded, p.seen.Keys);
    var q := RecordedSpec(s, seen, presenceOnly, now);
    RecordedKeyed(p.st.strKnown, p.seen, presenceOnly, now);
    RelabelAnyOrder(q, now, o.relabelled, q.seen.Keys);
  }

  lemma CoherentUnique(w: Work)
    requires Coherent(w)
    ensures OneAddressPerID(w.seen)
  {
  }

  lemma RefreshKeys(s: State, seen: Sightings, presenceOnly: set<string>, now: int)
    ensures Refresh(s, seen, presenceOnly, now).seen.Keys == seen.Keys
    ensures Refresh(s, seen, presenceOnly, now).st.cache.Keys == s.cache.Keys + seen.Keys
  {
    hide RefreshAt, DegradesAt;
  }

  lemma RecordedKeyed(known: map<string, Entry>, seen: Sightings, presenceOnly: set<string>, now: int)
    requires MemoryKeyed(known) && OneAddressPerID(seen)
    ensures MemoryKeyed(RecordDone(known, seen, presenceOnly, now, seen.Keys))
  {
    var after := RecordDone(known, seen, presenceOnly, now, seen.Keys);
    forall id | id in after ensures id != "" && IDOf(after[id]) == id && after[id].box.id.kind == STR {
      if id in RecordedIDs(seen, presenceOnly, seen.Keys) {
        var k :| k in seen && Records(seen, presenceOnly, k, seen[k].id.deviceID) && seen[k].id.deviceID == id;
        AddressOfOne(seen, k);
      }
    }
  }

  lemma AddressOfOne(seen: Sightings, k: string)
    requires OneAddressPerID(seen) && k in seen && seen[k].id.deviceID != ""
    ensures AddressOf(seen, seen[k].id.deviceID) == k
  {
    var j := AddressOf(seen, seen[k].id.deviceID);
    assert seen[j].id.deviceID == seen[k].id.deviceID;
  }
}
