/**
 What a whole cycle leaves at one address and of one device's memory, and the
 hypotheses about one speaker that the properties of runs are stated with.
 */
module DiscoveryRun {
  import opened BoxRecords
  import opened DiscoveryInvariant
  import opened DiscoveryOrder
  import opened DiscoveryRules
  import opened DiscoveryScan
  import opened DiscoverySpec
  import opened DiscoveryStep
  import opened Options

  // ----- the last stages, at one address -----

  /** The last two loops leave the pins alone, and at `k` at most relabel what is served. */
  lemma StepAt(s: State, c: Scan, k: string)
    requires Sane(s, c)
    ensures var p, q, r := PinnedBy(s, c), RecordedBy(s, c), StepBy(s, c);
            && q.seen == p.seen && q.st.cache == p.st.cache && SamePins(p, q) && SamePins(p, r)
            && (k in r.seen <==> k in p.seen)
            && if RelabelAt(q, c.now, k).Relabelled? then k in p.seen
               && exists memo :: RelabelledBy(p, r, c.now, k, memo)
               else Lookup(r.seen, k) == Lookup(p.seen, k) && Lookup(r.st.cache, k) == Lookup(p.st.cache, k)
  {
    hide Fits, PinnedBy, RecordAll, RelabelAll, Visits, RelabelAt, RelabelledBox, Refreshed;
    StagesAre(s, c);
    PinnedFrame(s, c);
    RecordedKeyedBy(s, c);
    var q := RecordedBy(s, c);
    RelabelLeaves(q, c.now, c.o.relabelled, q.seen.Keys, k, "");
    RelabelledIsServed(q, c.now, k);
    forall memo | RelabelledBy(q, StepBy(s, c), c.now, k, memo)
      ensures RelabelledBy(PinnedBy(s, c), StepBy(s, c), c.now, k, memo)
    {
    }
  }

  lemma RelabelledIsServed(w: Work, now: int, k: string)
    ensures RelabelAt(w, now, k).Relabelled? ==>
            && k in w.seen && w.seen[k].id.kind == Stock && w.seen[k].id.deviceID in w.st.strKnown
            && w.seen[k].id.deviceID != "" && k !in w.st.stockPinned
            && now - w.st.strKnown[w.seen[k].id.deviceID].seen <= STR_KNOWN_TTL
  {
    hide RelabelledBox;
  }

  /** What the reconcile loop relabels: a stock record of a remembered device, with no post-uninstall pin on it. */
  lemma RelabelsExactlyWhen(w: Work, now: int, k: string)
    ensures RelabelAt(w, now, k).Relabelled? <==>
            && k in w.seen && w.seen[k].id.kind == Stock && w.seen[k].id.deviceID != "" && k !in w.st.stockPinned
            && w.seen[k].id.deviceID in w.st.strKnown
            && now - w.st.strKnown[w.seen[k].id.deviceID].seen <= STR_KNOWN_TTL
  {
    hide RelabelledBox;
  }

  /** An STR record passes them as it is, and so does one of a device the memory does not know. */
  lemma StepKeeps(s: State, c: Scan, k: string)
    requires Sane(s, c)
    requires var q := RecordedBy(s, c);
             k in q.seen ==> q.seen[k].id.kind == STR || q.seen[k].id.deviceID !in q.st.strKnown
                             || k in q.st.stockPinned
                                           || c.now - q.st.strKnown[q.seen[k].id.deviceID].seen > STR_KNOWN_TTL
    ensures var p, r := PinnedBy(s, c), StepBy(s, c);
            && Lookup(r.seen, k) == Lookup(p.seen, k) && Lookup(r.st.cache, k) == Lookup(p.st.cache, k)
               && SamePins(p, r)
  {
    hide InvBase, KeyedSightings, Fits, PinnedBy, RecordedBy, StepBy, RelabelAt;
    StepAt(s, c, k);
    RelabelledIsServed(RecordedBy(s, c), c.now, k);
  }

  lemma STRFinal(s: State, c: Scan, k: string)
    requires Sane(s, c) && k in PinnedBy(s, c).seen && PinnedBy(s, c).seen[k].id.kind == STR
    ensures var p, r := PinnedBy(s, c), StepBy(s, c);
            && Lookup(r.seen, k) == Lookup(p.seen, k) && Lookup(r.st.cache, k) == Lookup(p.st.cache, k)
               && SamePins(p, r)
  {
    hide PinnedBy, StepBy, InvBase, KeyedSightings, Fits;
    StepKeeps(s, c, k);
  }

  // ----- the memory -----

  /** This cycle serves an STR record of device `id` that is more than a presence. */
  ghost predicate Renews(s: State, c: Scan, id: string)
    requires Fits(s, c)
  {
    exists k :: Records(PinnedBy(s, c).seen, c.presenceOnly, k, id)
  }

  /** Device `id` is degraded this cycle. */
  ghost predicate DegradesID(s: State, c: Scan, id: string) {
    exists k :: k in c.seen && DegradedAt(s, c, k) && IDAt(s, c, k) == id
  }

  lemma RecordedMemory(s: State, c: Scan, id: string)
    requires Sane(s, c)
    ensures var m := Lookup(RecordedBy(s, c).st.strKnown, id);
            if Renews(s, c, id) then
              exists j :: Records(PinnedBy(s, c).seen, c.presenceOnly, j, id)
                && m == Some(NewEntry(PinnedBy(s, c).seen[j], c.now))
            else m == if DegradesID(s, c, id) then None else Lookup(s.strKnown, id)
  {
    hide Fits, PinnedBy, RecordAll, RelabelAll, Visits, Refreshed, IDAt, DegradedAt;
    StagesAre(s, c);
    PinnedFrame(s, c);
    RefreshedMemory(s, c, id);
    var p := PinnedBy(s, c);
    RecordedIs(p.st.strKnown, p.seen, c.presenceOnly, c.now, c.o.recorded, p.seen.Keys, id);
  }

  lemma RecordedKeyedBy(s: State, c: Scan)
    requires Sane(s, c)
    ensures MemoryKeyed(RecordedBy(s, c).st.strKnown)
  {
    hide PinnedBy, RecordedBy, Fits, KeyedCache, PinsKeyed, KeyedSightings;
    var known := RecordedBy(s, c).st.strKnown;
    forall id | id in known ensures id != "" && IDOf(known[id]) == id && known[id].box.id.kind == STR {
      RecordedMemory(s, c, id);
    }
  }

  /** The memory at the end of the cycle: kept with its age unless it has run out. */
  lemma StepMemory(s: State, c: Scan, id: string)
    requires Sane(s, c)
    ensures var known, final := RecordedBy(s, c).st.strKnown, StepBy(s, c).st.strKnown;
            && (id in final <==> id in known && c.now - known[id].seen <= STR_KNOWN_TTL)
            && (id in final ==> id != "" && final[id].seen == known[id].seen && IDOf(final[id]) == id
                                && final[id].box.id.kind == STR)
  {
    hide Fits, PinnedBy, RecordAll, RelabelAll, Visits, RelabelView, RecordedBy;
    StagesAre(s, c);
    RecordedKeyedBy(s, c);
    var q := RecordedBy(s, c);
    assert q.seen == PinnedBy(s, c).seen by { StepAt(s, c, ""); }
    RelabelLeaves(q, c.now, c.o.relabelled, q.seen.Keys, "", id);
  }

  /**
   The memory of a device after a cycle, exactly: renewed at `now` by a
   confirmed record, else kept with its age unless the device was degraded or
   the memory is more than a day old.
   */
  lemma MemoryStep(s: State, c: Scan, id: string)
    requires Sane(s, c)
    ensures var known := StepBy(s, c).st.strKnown;
            if Renews(s, c, id) then id in known && known[id].seen == c.now
            else
              && (id in known <==> id in s.strKnown && c.now - s.strKnown[id].seen <= STR_KNOWN_TTL
                                   && !DegradesID(s, c, id))
              && (id in known ==> known[id].seen == s.strKnown[id].seen)
  {
    hide InvBase, KeyedSightings, Fits, RecordedBy, StepBy, PinnedBy, Records, DegradesID;
    StepMemory(s, c, id);
    RecordedMemory(s, c, id);
  }

  lemma {:induction false} RelabelQuiet(q: Work, now: int, order: seq<string>, done: set<string>, id: string)
    requires MemoryKeyed(q.st.strKnown) && Visits(order, done) && done <= q.seen.Keys
    requires forall k :: k in q.seen && q.seen[k].id.deviceID == id ==> RelabelAt(q, now, k).Untouched?
    ensures Lookup(RelabelAll(q, now, order).st.strKnown, id) == Lookup(q.st.strKnown, id)
    decreases order
  {
    if order != [] {
      VisitLast(order, done);
      var key, rest := order[|order| - 1], order[..|order| - 1];
      RelabelQuiet(q, now, rest, done - {key}, id);
      RelabelLeaves(q, now, rest, done - {key}, key, q.seen[key].id.deviceID);
      hide RelabelAll, MemoryKeyed, Visits;
      RelabelQuietOne(q, RelabelAll(q, now, rest), now, done - {key}, key, id);
    }
  }

  lemma RelabelQuietOne(q: Work, w: Work, now: int, done: set<string>, key: string, id: string)
    requires key in q.seen && key !in done && SamePins(q, w) && RelabelView(q, w, now, done, key)
    requires MemoryView(q, w, now, q.seen[key].id.deviceID)
    requires q.seen[key].id.deviceID == id ==> RelabelAt(q, now, key).Untouched?
    ensures Lookup(RelabelOne(w, now, key).st.strKnown, id) == Lookup(w.st.strKnown, id)
  {
    hide RelabelledBox;
  }

  /** A device none of whose records is a stock one keeps its memory as it was recorded. */
  lemma StepMemoryAs(s: State, c: Scan, id: string)
    requires Sane(s, c)
    requires forall k :: k in PinnedBy(s, c).seen && PinnedBy(s, c).seen[k].id.deviceID == id
                         ==> PinnedBy(s, c).seen[k].id.kind == STR
    ensures var m := Lookup(RecordedBy(s, c).st.strKnown, id);
            Lookup(StepBy(s, c).st.strKnown, id) == if m.Some? && c.now - m.value.seen <= STR_KNOWN_TTL then m else None
  {
    hide InvBase, KeyedSightings, Fits, PinnedBy, RecordAll, RelabelAll, Visits, RecordedBy, StepBy, MemoryKeyed;
    StagesAre(s, c);
    RecordedKeyedBy(s, c);
    StepAt(s, c, "");
    var q := RecordedBy(s, c);
    forall k | k in q.seen && q.seen[k].id.deviceID == id ensures RelabelAt(q, c.now, k).Untouched? {
      STRUntouched(q, c.now, k);
    }
    RelabelQuiet(q, c.now, c.o.relabelled, q.seen.Keys, id);
  }

  /** The only record of its device is relabelled by the memory as it was recorded. */
  lemma {:induction false} RelabelSole(q: Work, now: int, order: seq<string>, done: set<string>, k: string)
    requires MemoryKeyed(q.st.strKnown) && Visits(order, done) && done <= q.seen.Keys
    requires k in done && RelabelAt(q, now, k).Relabelled?
    requires forall j :: j in q.seen && q.seen[j].id.deviceID == q.seen[k].id.deviceID ==> j == k
    ensures k in q.seen && q.seen[k].id.deviceID in q.st.strKnown
    ensures RelabelledBy(q, RelabelAll(q, now, order), now, k, q.st.strKnown[q.seen[k].id.deviceID].box)
    decreases order
  {
    VisitLast(order, done);
    var key, rest := order[|order| - 1], order[..|order| - 1];
    var id := q.seen[k].id.deviceID;
    var w := RelabelAll(q, now, rest);
    RelabelledIsServed(q, now, k);
    if key == k {
      RelabelQuietBut(q, now, rest, done - {key}, k);
      RelabelLeaves(q, now, rest, done - {key}, k, id);
      RelabelSoleHere(q, w, now, done - {key}, k);
    } else {
      RelabelSole(q, now, rest, done - {key}, k);
      RelabelLeaves(q, now, rest, done - {key}, key, q.seen[key].id.deviceID);
      hide RelabelAll, RelabelView, MemoryView, RelabelAt, RelabelledBox;
      RelabelOther(w, now, key, k);
    }
  }

  lemma {:induction false} RelabelQuietBut(q: Work, now: int, order: seq<string>, done: set<string>, k: string)
    requires MemoryKeyed(q.st.strKnown) && Visits(order, done) && done <= q.seen.Keys && k !in done && k in q.seen
    requires forall j :: j in q.seen && q.seen[j].id.deviceID == q.seen[k].id.deviceID ==> j == k
    ensures Lookup(RelabelAll(q, now, order).st.strKnown, q.seen[k].id.deviceID)
            == Lookup(q.st.strKnown, q.seen[k].id.deviceID)
    decreases order
  {
    if order != [] {
      VisitLast(order, done);
      var key, rest := order[|order| - 1], order[..|order| - 1];
      RelabelQuietBut(q, now, rest, done - {key}, k);
      RelabelLeaves(q, now, rest, done - {key}, key, q.seen[key].id.deviceID);
      hide RelabelAll, MemoryKeyed, Visits;
      RelabelQuietOne(q, RelabelAll(q, now, rest), now, done - {key}, key, q.seen[k].id.deviceID);
    }
  }

  lemma RelabelSoleHere(q: Work, w: Work, now: int, done: set<string>, k: string)
    requires k in q.seen && k !in done && SamePins(q, w) && RelabelView(q, w, now, done, k)
    requires RelabelAt(q, now, k).Relabelled?
    requires Lookup(w.st.strKnown, q.seen[k].id.deviceID) == Lookup(q.st.strKnown, q.seen[k].id.deviceID)
    ensures q.seen[k].id.deviceID in q.st.strKnown
    ensures RelabelledBy(q, RelabelOne(w, now, k), now, k, q.st.strKnown[q.seen[k].id.deviceID].box)
  {
    hide RelabelledBox;
  }

  lemma RelabelOther(w: Work, now: int, key: string, k: string)
    requires k != key
    ensures Lookup(RelabelOne(w, now, key).seen, k) == Lookup(w.seen, k)
    ensures Lookup(RelabelOne(w, now, key).st.cache, k) == Lookup(w.st.cache, k)
  {
    hide RelabelledBox;
  }

  lemma StepSole(s: State, c: Scan, k: string)
    requires Sane(s, c) && RelabelAt(RecordedBy(s, c), c.now, k).Relabelled?
    requires var p := PinnedBy(s, c);
             forall j :: j in p.seen && k in p.seen && p.seen[j].id.deviceID == p.seen[k].id.deviceID ==> j == k
    ensures var p, q := PinnedBy(s, c), RecordedBy(s, c);
            && k in p.seen && p.seen[k].id.deviceID in q.st.strKnown
            && RelabelledBy(p, StepBy(s, c), c.now, k, q.st.strKnown[p.seen[k].id.deviceID].box)
  {
    hide InvBase, KeyedSightings, Fits, PinnedBy, RecordAll, RelabelAll, Visits, StepBy, MemoryKeyed, RecordedBy,
         RelabelAt, RelabelledBox;
    StagesAre(s, c);
    RecordedKeyedBy(s, c);
    StepAt(s, c, k);
    var q := RecordedBy(s, c);
    RelabelledIsServed(q, c.now, k);
    RelabelSole(q, c.now, c.o.relabelled, q.seen.Keys, k);
  }

  lemma STRUntouched(w: Work, now: int, k: string)
    requires k in w.seen && w.seen[k].id.kind == STR
    ensures RelabelAt(w, now, k).Untouched?
  {
    hide RelabelledBox;
  }

  // ----- the whole cycle -----

  lemma StepServedAt(s: State, c: Scan, k: string)
    requires Sane(s, c)
    ensures var p, r := PinnedBy(s, c), StepBy(s, c);
            && ServedAt(r, k) && (k in r.seen <==> k in p.seen)
            && (k in p.seen ==> r.seen[k].id.deviceID == p.seen[k].id.deviceID)
  {
    hide InvBase, KeyedSightings, Fits, RecordedBy, StepBy, PinnedBy, IDAt, NewAddress, MissedEntry, Live, PinHolds,
         RelabelAt, RelabelledBox;
    PinnedIDs(s, c, k);
    StepAt(s, c, k);
    var p, r, q := PinnedBy(s, c), StepBy(s, c), RecordedBy(s, c);
    if RelabelAt(q, c.now, k).Relabelled? {
      RelabelledIsServed(q, c.now, k);
      var memo :| RelabelledBy(p, r, c.now, k, memo);
      RelabelBoxID(memo, p.seen[k]);
    }
  }

  /** Under which id a cycle serves `k`: the sighting's, the missed record's, or a pinned speaker's. */
  lemma StepIDs(s: State, c: Scan, k: string)
    requires Sane(s, c)
    ensures var r := StepBy(s, c);
            && ServedAt(r, k)
            && (k in c.seen ==> k in r.seen && r.seen[k].id.deviceID == IDAt(s, c, k))
            && (k !in c.seen && k in r.seen ==>
                || (k in s.cache && r.seen[k].id.deviceID == IDOf(s.cache[k])
                    && NewAddress(s.cache[k], k, Live(s, c)).None? && MissedEntry(s.cache[k], c.now).Kept?)
                || (PinHolds(s, c, k) && r.seen[k].id.deviceID == PinID(s, k)))
  {
    hide InvBase, KeyedSightings, Fits, RecordedBy, StepBy, PinnedBy, IDAt, NewAddress, MissedEntry, Live, PinHolds,
         ServedAt;
    PinnedIDs(s, c, k);
    StepServedAt(s, c, k);
  }

  /** Whatever the sightings and the orders, a cycle serves everything it caches, under one id. */
  lemma StepServed(s: State, c: Scan)
    requires Sane(s, c)
    ensures Served(StepBy(s, c))
  {
    hide ServedAt, InvBase, KeyedSightings, StepBy, PinnedBy, Fits;
    forall k ensures ServedAt(StepBy(s, c), k) { StepServedAt(s, c, k); }
  }

  /** The pins of the next state are pins of this one. */
  lemma StepPins(s: State, c: Scan)
    requires Sane(s, c)
    ensures var t := StepBy(s, c).st;
            && PinsKeyed(t)
            && t.otaPinned.Keys <= s.otaPinned.Keys && t.stockPinned.Keys <= s.stockPinned.Keys
            && (forall h :: h in t.otaPinned ==> t.otaPinned[h] == s.otaPinned[h])
            && (forall h :: h in t.otaPinnedID ==> h in s.otaPinnedID && t.otaPinnedID[h] == s.otaPinnedID[h])
            && (forall h :: h in t.stockPinned ==> t.stockPinned[h] == s.stockPinned[h])
  {
    hide InvBase, KeyedSightings, Fits, RecordedBy, StepBy, PinnedBy, MemoryKeyed, Refreshed;
    PinnedFrame(s, c);
    StepAt(s, c, "");
  }

  /** Any cycle over sightings filed under their addresses keeps what every event keeps. */
  lemma InvBaseStep(s: State, c: Scan)
    requires Sane(s, c)
    ensures InvBase(StepBy(s, c).st)
  {
    hide StepBy, Fits, PinsKeyed, KeyedSightings;
    StepServed(s, c);
    StepPins(s, c);
    var r := StepBy(s, c);
    forall k | k in r.st.cache ensures k != "" && r.st.cache[k].box.id.host == k {
      assert ServedAt(r, k);
    }
    forall id | id in r.st.strKnown
      ensures id != "" && IDOf(r.st.strKnown[id]) == id && r.st.strKnown[id].box.id.kind == STR
    {
      StepMemory(s, c, id);
    }
  }

  /** What a cycle sights it caches. */
  lemma StepCaches(s: State, c: Scan, k: string)
    requires Sane(s, c) && k in c.seen
    ensures k in StepBy(s, c).st.cache
  {
    hide InvBase, KeyedSightings, Fits, StepBy, PinnedBy, SweptBy, Live, HoldPins, Correct, RelabelAt, EntryAt,
         RelabelledBox;
    SweptSighted(s, c, k);
    SweptFrame(s, c);
    var (w, moved) := SweptBy(s, c);
    var held := HoldPins(w, moved, Live(s, c), c.now);
    HoldPinsAt(w, moved, Live(s, c), c.now, k);
    CorrectAt(held, c.now, k);
    assert k in PinnedBy(s, c).st.cache by { PinnedIs(s, c); }
    StepAt(s, c, k);
  }

  lemma PinnedIs(s: State, c: Scan)
    requires Fits(s, c)
    ensures var (w, moved) := SweptBy(s, c);
            PinnedBy(s, c) == Correct(HoldPins(w, moved, Live(s, c), c.now), c.now)
  {
    hide Fits, SweptBy, HoldPins, Correct;
  }

  // ----- one speaker among the others -----

  /** A sighting of a speaker nothing is known of at its address is taken as it is. */
  lemma UnknownSighting(s: State, c: Scan, j: string)
    requires j in c.seen && (j in s.cache ==> DifferentDevices(s.cache[j].box, c.seen[j]))
    ensures EntryAt(s, c, j) == NewEntry(ClearPresence(c.seen[j]), c.now)
  {
    hide DifferentDevices;
  }

  /** Device `id` answered at `j` this cycle. */
  ghost predicate SightedAs(s: State, c: Scan, j: string, id: string) {
    j in c.seen && id != "" && IDAt(s, c, j) == id
  }

  ghost predicate Sighted(s: State, c: Scan, id: string) {
    exists j :: SightedAs(s, c, j, id)
  }

  lemma SightedLive(s: State, c: Scan, id: string)
    requires Sane(s, c)
    ensures id in Live(s, c) <==> Sighted(s, c, id)
    ensures id in Live(s, c) ==> SightedAs(s, c, Live(s, c)[id], id)
  {
    hide InvBase, KeyedSightings, Fits, IDAt, Live;
    LiveIs(s, c);
    if id in Live(s, c) { assert SightedAs(s, c, Live(s, c)[id], id); }
  }

  /** The speaker cached at `k` is cached nowhere else, and exactly the pin at `k`, if any, names it. */
  ghost predicate Alone(s: State, k: string) {
    && k in s.cache
    && (k in s.otaPinnedID ==> s.otaPinnedID[k] == IDOf(s.cache[k]))
    && (IDOf(s.cache[k]) != "" ==>
        && (forall j :: j in s.cache && IDOf(s.cache[j]) == IDOf(s.cache[k]) ==> j == k)
        && (forall h :: h in s.otaPinnedID && s.otaPinnedID[h] == IDOf(s.cache[k]) ==> h == k))
  }

  /** A cycle finds the speaker cached at `k` at no other address, and no other speaker at `k`. */
  ghost predicate Stays(s: State, c: Scan, k: string) {
    && k in s.cache
    && (k in c.seen ==> IDAt(s, c, k) == IDOf(s.cache[k]))
    && (IDOf(s.cache[k]) != "" ==> forall j :: j in c.seen && IDAt(s, c, j) == IDOf(s.cache[k]) ==> j == k)
  }

  /** The speaker cached at `k` answered nowhere. */
  ghost predicate Silent(s: State, c: Scan, k: string) {
    Stays(s, c, k) && k !in c.seen
  }

  /** A sighting of the speaker is merged with its record. */
  lemma SameSpeakerKnown(s: State, c: Scan, k: string)
    requires Stays(s, c, k) && k in c.seen
    ensures Predecessor(Lookup(s.cache, k), c.seen[k]) == Some(s.cache[k])
  {
  }

  lemma InvAlone(s: State, k: string)
    requires Inv(s) && k in s.cache && (k in s.otaPinnedID ==> s.otaPinnedID[k] == IDOf(s.cache[k]))
    ensures Alone(s, k)
  {
    hide InvBase;
  }

  /** The speaker is not evicted for another address, and nobody is merged into its record. */
  lemma StaysSwept(s: State, c: Scan, k: string)
    requires Sane(s, c) && Alone(s, k) && Stays(s, c, k)
    ensures var (w, moved) := SweptBy(s, c);
            && k !in moved
            && (k in c.seen ==> Lookup(w.st.cache, k) == Some(EntryAt(s, c, k))
                                && Lookup(w.seen, k) == Some(EntryAt(s, c, k).box))
            && (k in c.seen ==> EntryAt(s, c, k).box.id.deviceID == IDOf(s.cache[k]))
            && (k !in c.seen ==>
                match MissedEntry(s.cache[k], c.now)
                case Kept(e, served) => Lookup(w.st.cache, k) == Some(e) && Lookup(w.seen, k) == Some(served)
                case Evicted => k !in w.st.cache && k !in w.seen)
  {
    hide InvBase, KeyedSightings, Fits, SweptBy, MissedEntry, EntryAt, IDAt, Live;
    LiveIs(s, c);
    if k in c.seen {
      SweptSighted(s, c, k);
      SweptMerged(s, c, k);
      forall o ensures !ComesTo(s, c, o, k) {
        if ComesTo(s, c, o, k) { ComesAs(s, c, o, k); assert false; }
      }
    } else {
      SweptMissed(s, c, k);
    }
  }

  /** Whatever the pins serve under its id, they serve at `k`. */
  lemma AlonePinned(s: State, c: Scan, k: string, j: string)
    requires Sane(s, c) && Alone(s, k) && Stays(s, c, k)
    requires IDOf(s.cache[k]) != "" && j in PinnedBy(s, c).seen
             && PinnedBy(s, c).seen[j].id.deviceID == IDOf(s.cache[k])
    ensures j == k
  {
    hide InvBase, KeyedSightings, Fits, PinnedBy, MissedEntry, NewAddress, IDAt, Live, PinHolds, ServedAt;
    PinnedIDs(s, c, j);
    SweptMissedOrNot(s, c, j);
  }

  lemma PinnedSightedID(s: State, c: Scan, j: string)
    requires Sane(s, c) && j in c.seen
    ensures j in PinnedBy(s, c).seen && PinnedBy(s, c).seen[j].id.deviceID == IDAt(s, c, j)
  {
    hide InvBase, Fits, KeyedSightings, PinnedBy, IDAt, MissedEntry, PinHolds, ServedAt, NewAddress;
    PinnedIDs(s, c, j);
  }

  lemma SweptMissedOrNot(s: State, c: Scan, j: string)
    requires Sane(s, c)
    ensures var p := PinnedBy(s, c);
            j !in c.seen && j in p.seen ==>
            (j in s.cache && p.seen[j].id.deviceID == IDOf(s.cache[j])) || p.seen[j].id.deviceID == PinID(s, j)
  {
    hide InvBase, KeyedSightings, Fits, PinnedBy, MissedEntry, NewAddress, IDAt, Live, PinHolds, ServedAt;
    PinnedIDs(s, c, j);
  }

  /** After the cycle it is still the only one of its id. */
  lemma AloneStep(s: State, c: Scan, k: string)
    requires Sane(s, c) && Alone(s, k) && Stays(s, c, k) && k in StepBy(s, c).st.cache
    ensures var t := StepBy(s, c).st;
            Alone(t, k) && IDOf(t.cache[k]) == IDOf(s.cache[k])
  {
    hide InvBase, KeyedSightings, Fits, StepBy, IDAt, MissedEntry, NewAddress, Live, PinHolds, ServedAt, PinsKeyed;
    var r := StepBy(s, c);
    StepPins(s, c);
    StepOwnID(s, c, k);
    forall j | j in r.st.cache && IDOf(r.st.cache[j]) == IDOf(r.st.cache[k]) != "" ensures j == k {
      StepCachedID(s, c, j);
    }
  }

  lemma StepCachedID(s: State, c: Scan, j: string)
    requires Sane(s, c) && j in StepBy(s, c).st.cache
    ensures var id := IDOf(StepBy(s, c).st.cache[j]);
            || (j in c.seen && id == IDAt(s, c, j))
            || (j !in c.seen && j in s.cache && id == IDOf(s.cache[j]))
            || (j !in c.seen && PinHolds(s, c, j) && id == PinID(s, j))
  {
    hide InvBase, KeyedSightings, Fits, StepBy, IDAt, MissedEntry, NewAddress, Live, PinHolds;
    StepIDs(s, c, j);
  }

  lemma StepOwnID(s: State, c: Scan, k: string)
    requires Sane(s, c) && Alone(s, k) && Stays(s, c, k) && k in StepBy(s, c).st.cache
    ensures IDOf(StepBy(s, c).st.cache[k]) == IDOf(s.cache[k])
  {
    hide KeyedSightings, Fits, StepBy, PinnedBy, IDAt, MissedEntry, Live, NewAddress, SweptBy, PinAt;
    StepCachedID(s, c, k);
    if k !in c.seen && PinID(s, k) == "" && IDOf(s.cache[k]) != "" {
      NamelessUncached(s, c, k);
    }
  }

  lemma NamelessPinAt(w: Work, moved: set<string>, live: map<string, string>, now: int, h: string)
    requires h in w.st.otaPinned && PinID(w.st, h) == "" && h !in w.seen && h !in w.st.cache
    ensures var at := PinAt(w, moved, live, now, h);
            at.PinHeld? ==> at.cached.None? && at.served.id.deviceID == ""
  {
    hide BoxIsDevice, MinimalBox;
    MinimalBoxID(h, "");
  }

  lemma NamelessPinned(w: Work, moved: set<string>, live: map<string, string>, now: int, h: string)
    requires PinID(w.st, h) == "" && h !in w.seen && h !in w.st.cache
    ensures var p := Correct(HoldPins(w, moved, live, now), now);
            h !in p.st.cache && (h in p.seen ==> p.seen[h].id.deviceID == "")
  {
    HoldPinsAt(w, moved, live, now, h);
    if h in w.st.otaPinned { NamelessPinAt(w, moved, live, now, h); }
    hide HoldPins, PinAt;
    var held := HoldPins(w, moved, live, now);
    CorrectAt(held, now, h);
    hide Correct;
    if h in held.st.stockPinned && StockAt(held, now, h).StockCorrected? {
      StockAtID(held, now, h);
    }
  }

  /** A pin that names nobody caches nothing of its own. */
  lemma NamelessUncached(s: State, c: Scan, k: string)
    requires Sane(s, c) && k !in c.seen && PinID(s, k) == "" && k in StepBy(s, c).st.cache
    ensures k in s.cache && IDOf(StepBy(s, c).st.cache[k]) == IDOf(s.cache[k])
  {
    hide InvBase, KeyedSightings, Fits, StepBy, PinnedBy, IDAt, MissedEntry, Live, NewAddress, SweptBy, HoldPins,
         Correct, RelabelAt, PinHolds, ServedAt;
    SweptFrame(s, c);
    SweptMissed(s, c, k);
    if k in s.cache { MissedKindKept(s.cache[k], c.now); }
    var (w, moved) := SweptBy(s, c);
    StepAt(s, c, k);
    StepServedAt(s, c, k);
    RelabelledIsServed(RecordedBy(s, c), c.now, k);
    if k !in w.seen {
      SweptIsServed(s, c);
      PinnedIs(s, c);
      NamelessPinned(w, moved, Live(s, c), c.now, k);
      assert false;
    }
    PinnedServedAt(s, c, k);
    assert ServedAt(StepBy(s, c), k);
    ServedAtID(StepBy(s, c), k);
  }

  lemma ServedAtID(w: Work, k: string)
    requires ServedAt(w, k) && k in w.st.cache
    ensures k in w.seen && IDOf(w.st.cache[k]) == w.seen[k].id.deviceID && w.st.cache[k].box.id.host == k
  {
  }

  /** What the pin loop makes of its own speaker. */
  lemma HeldPinAt(w: Work, moved: set<string>, live: map<string, string>, now: int, k: string, b: BoxInfo)
    requires k in w.st.otaPinned && k !in moved && Lookup(w.seen, k) == Some(b)
    requires PinID(w.st, k) == "" || b.id.deviceID == "" || BoxIsDevice(b, PinID(w.st, k))
    requires PinID(w.st, k) != "" && PinID(w.st, k) in live ==> live[PinID(w.st, k)] == k
    ensures PinAt(w, moved, live, now, k) ==
            if now - w.st.otaPinned[k] > OTA_REBOOT_GRACE then PinDropped
            else
              var str := b.(id := b.id.(kind := STR), cycle := b.cycle.(strNotRunning := false));
              PinHeld(Some(NewEntry(str.(cycle := str.cycle.(unreachable := false)), now)),
                      str.(cycle := str.cycle.(otaPending := true)))
  {
  }

  lemma AloneCached(s: State, k: string)
    requires Alone(s, k)
    ensures k in s.cache
  {
  }

  /** Fewer records elsewhere leave a speaker as alone as it was. */
  lemma AloneFewer(s: State, t: State, k: string)
    requires Alone(s, k) && k in t.cache && t == s.(cache := t.cache)
    requires forall j :: j in t.cache ==> j in s.cache && t.cache[j] == s.cache[j]
    ensures Alone(t, k)
  {
  }

  /** A missed record is evicted for another address exactly if its device was sighted. */
  lemma EvictedExactlyWhen(s: State, c: Scan, k: string)
    requires Sane(s, c) && k in s.cache && k !in c.seen
    ensures NewAddress(s.cache[k], k, Live(s, c)).Some? <==> Sighted(s, c, IDOf(s.cache[k]))
    ensures NewAddress(s.cache[k], k, Live(s, c)).Some? ==>
            SightedAs(s, c, NewAddress(s.cache[k], k, Live(s, c)).value, IDOf(s.cache[k]))
  {
    hide InvBase, KeyedSightings, Fits, IDAt, Live;
    SightedLive(s, c, IDOf(s.cache[k]));
  }

  // ----- what the pins make of a missed address -----

  /** The post-uninstall pin is there and has not run out. */
  ghost predicate PinLive(s: State, h: string, now: int) {
    h in s.stockPinned && now - s.stockPinned[h] <= STOCK_PIN_GRACE
  }

  /** The post-OTA pin is live, and the speaker it names was sighted nowhere. */
  ghost predicate PinWaits(s: State, c: Scan, k: string) {
    k in s.otaPinned && c.now - s.otaPinned[k] <= OTA_REBOOT_GRACE && !Sighted(s, c, PinID(s, k))
  }

  /** What is served before the pins had their say ends STR if a post-OTA pin holds it, if the agent answered
      for it under a live post-uninstall pin, or if it was and no such pin is live. */
  lemma ServedPinned(w: Work, moved: set<string>, live: map<string, string>, now: int, k: string)
    requires k in w.seen && k !in moved
    ensures var p := Correct(HoldPins(w, moved, live, now), now);
            var b, pinID := w.seen[k], PinID(w.st, k);
            var holds := && k in w.st.otaPinned && now - w.st.otaPinned[k] <= OTA_REBOOT_GRACE
                         && !(pinID != "" && pinID in live && live[pinID] != k)
                         && (pinID == "" || b.id.deviceID == "" || BoxIsDevice(b, pinID));
            && k in p.seen && p.seen[k].id.deviceID == b.id.deviceID
            && (k in p.st.otaPinned <==> holds)
            && (p.seen[k].id.kind == STR
               <==> if holds then true else if PinLive(w.st, k, now) then AgentRecord(b) else b.id.kind == STR)
  {
    hide BoxIsDevice;
    HoldPinsAt(w, moved, live, now, k);
    var held := HoldPins(w, moved, live, now);
    CorrectAt(held, now, k);
    hide HoldPins, Correct, MinimalBox;
  }

  /** Where nothing is served, a pin that holds serves the speaker it names. */
  lemma AbsentPinned(w: Work, moved: set<string>, live: map<string, string>, now: int, k: string)
    requires k !in w.seen && k !in w.st.cache && MemoryKeyed(w.st.strKnown)
    ensures var p, pinID := Correct(HoldPins(w, moved, live, now), now), PinID(w.st, k);
            var holds := && k in w.st.otaPinned && now - w.st.otaPinned[k] <= OTA_REBOOT_GRACE && k !in moved
                         && !(pinID != "" && pinID in live && live[pinID] != k);
            && (k in p.seen <==> holds) && (k in p.st.otaPinned <==> holds)
            && (holds ==> p.seen[k].id.kind == STR && p.seen[k].id.deviceID == pinID)
  {
    hide BoxIsDevice, MinimalBox;
    MinimalBoxID(k, PinID(w.st, k));
    HoldPinsAt(w, moved, live, now, k);
    var held := HoldPins(w, moved, live, now);
    CorrectAt(held, now, k);
    hide HoldPins, Correct;
  }

  // ----- a speaker that moved -----

  /** At most one missed record is merged into the sighting at `h`. */
  ghost predicate OneArrival(s: State, c: Scan, h: string)
    requires Fits(s, c)
  {
    forall o, p :: ComesTo(s, c, o, h) && ComesTo(s, c, p, h) ==> o == p
  }

  /** No speaker has two records in the cache: then no sighting has two arrivals. */
  lemma SettledOneArrival(s: State, c: Scan, h: string)
    requires Sane(s, c) && OneAddressPerEntry(s.cache)
    ensures OneArrival(s, c, h)
  {
    hide InvBase, KeyedSightings, Fits, IDAt, ComesTo;
    forall o, p | ComesTo(s, c, o, h) && ComesTo(s, c, p, h) ensures o == p {
      ComesFrom(s, c, o, h);
      ComesFrom(s, c, p, h);
    }
  }

  lemma ComesFrom(s: State, c: Scan, o: string, h: string)
    requires Sane(s, c) && ComesTo(s, c, o, h)
    ensures o in s.cache && o !in c.seen && h in c.seen && IDOf(s.cache[o]) == IDAt(s, c, h) != ""
  {
    hide InvBase, KeyedSightings, Fits, IDAt, Live;
    ComesAs(s, c, o, h);
  }

  // ----- one device at two addresses -----

  /** What is served at an address without a sighting: a missed record whose device was sighted nowhere, or
      a pinned speaker that was sighted nowhere. */
  lemma UnsightedID(s: State, c: Scan, k: string)
    requires Sane(s, c) && k !in c.seen && k in StepBy(s, c).seen && StepBy(s, c).seen[k].id.deviceID != ""
    ensures var id := StepBy(s, c).seen[k].id.deviceID;
            && (forall j :: j in c.seen ==> IDAt(s, c, j) != id)
            && ((k in s.cache && id == IDOf(s.cache[k])) || (k in s.otaPinnedID && id == s.otaPinnedID[k]))
  {
    hide InvBase, KeyedSightings, Fits, StepBy, IDAt, MissedEntry, Live, ServedAt;
    StepIDs(s, c, k);
    LiveIs(s, c);
    if PinHolds(s, c, k) { PinnedServedAt(s, c, k); }
    hide PinHolds, PinnedBy, SweptBy;
  }

  /** A cycle serves one device at two addresses only where it sighted it at both. */
  lemma TwiceServed(s: State, c: Scan, j: string, k: string)
    requires Inv(s) && Sane(s, c) && j != k
    requires var r := StepBy(s, c);
             j in r.seen && k in r.seen && r.seen[j].id.deviceID == r.seen[k].id.deviceID != ""
    ensures j in c.seen && k in c.seen && IDAt(s, c, j) == IDAt(s, c, k) == StepBy(s, c).seen[k].id.deviceID
  {
    hide InvBase, KeyedSightings, Fits, StepBy, IDAt, MissedEntry, Live, ServedAt, PinHolds, NewAddress;
    StepIDs(s, c, j);
    StepIDs(s, c, k);
    if j !in c.seen { UnsightedID(s, c, j); }
    if k !in c.seen { UnsightedID(s, c, k); }
  }

  /** A pin that holds names a speaker served elsewhere only where that one was sighted at both addresses. */
  lemma NamedTwice(s: State, c: Scan, h: string, k: string)
    requires Inv(s) && Sane(s, c) && h != k
    requires var r := StepBy(s, c);
             h in r.st.otaPinnedID && k in r.seen && r.seen[k].id.deviceID == r.st.otaPinnedID[h]
    ensures h in c.seen && k in c.seen && h in StepBy(s, c).seen
    ensures IDAt(s, c, h) == IDAt(s, c, k) == StepBy(s, c).seen[h].id.deviceID == StepBy(s, c).st.otaPinnedID[h] != ""
  {
    hide InvBase, KeyedSightings, Fits, StepBy, IDAt, MissedEntry, Live, ServedAt, PinHolds, NewAddress, PinnedBy,
         SweptBy;
    StepPins(s, c);
    StepAt(s, c, h);
    PinnedServedAt(s, c, h);
    LiveIs(s, c);
    StepIDs(s, c, k);
    if k !in c.seen { UnsightedID(s, c, k); }
    assert PinID(s, h) == s.otaPinnedID[h] != "";
    StepIDs(s, c, h);
  }

  /** A cycle on its own keeps the invariant exactly when it sights no speaker at two addresses. */
  lemma InvStep(s: State, c: Scan)
    requires Inv(s) && Sane(s, c)
    ensures Inv(StepBy(s, c).st) <==> Unambiguous(s, c.seen)
  {
    hide InvBase, Fits, StepBy, EffectiveID, KeyedSightings, PinsKeyed;
    InvBaseStep(s, c);
    StepPins(s, c);
    StepServed(s, c);
    var r := StepBy(s, c);
    if Unambiguous(s, c.seen) {
      forall j, k | j in r.st.cache && k in r.st.cache
        && IDOf(r.st.cache[j]) == IDOf(r.st.cache[k]) != ""
        ensures j == k
      {
        assert ServedAt(r, j) && ServedAt(r, k);
        if j != k { TwiceServed(s, c, j, k); }
      }
      forall h, k | h in r.st.otaPinnedID && k in r.st.cache
        && IDOf(r.st.cache[k]) == r.st.otaPinnedID[h]
        ensures k == h
      {
        assert ServedAt(r, k);
        if h != k { NamedTwice(s, c, h, k); }
      }
    }
    if Inv(r.st) {
      forall j, k | j in c.seen && k in c.seen && IDAt(s, c, j) == IDAt(s, c, k) != "" ensures j == k {
        StepCaches(s, c, j);
        StepCaches(s, c, k);
        StepIDs(s, c, j);
        StepIDs(s, c, k);
      }
    }
  }
}
