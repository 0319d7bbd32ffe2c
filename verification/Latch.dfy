/**
 "STR not running" is a latch: a record that carries the mark is a stock one
 no memory contradicts, and only a live agent probe takes the mark off.
 */
module Latch {
  import opened BoxRecords
  import opened DiscoveryEvents
  import opened DiscoveryInvariant
  import opened DiscoveryOrder
  import opened DiscoveryRules
  import opened DiscoveryRun
  import opened DiscoveryScan
  import opened DiscoverySpec
  import opened DiscoveryStep
  import opened FieldPolicy
  import opened Options

  predicate Marked(b: BoxInfo) {
    b.cycle.strNotRunning
  }

  /** Only an STR record has a verified port, and only a stock one the mark. */
  predicate Plain(b: BoxInfo) {
    && (b.id.kind == Stock ==> !b.id.portVerified)
    && (Marked(b) ==> b.id.kind == Stock)
  }

  ghost predicate Latched(s: State) {
    && (forall k :: k in s.cache ==> Plain(s.cache[k].box)
                                     && (Marked(s.cache[k].box) ==> IDOf(s.cache[k]) !in s.strKnown))
    && (forall id :: id in s.strKnown ==> !Marked(s.strKnown[id].box))
  }

  /** What a probe reports: a port is verified by the agent's answer alone, and the mark is only
      there where the sighting is the marked record itself, kept because its Bose port answered. */
  ghost predicate Probed(s: State, seen: Sightings) {
    forall k :: k in seen ==> Plain(seen[k]) && (Marked(seen[k]) ==> k in s.cache && Marked(s.cache[k].box))
  }

  /** The memory holds `id` as an STR speaker at `now`. */
  predicate Remembered(known: map<string, Entry>, id: string, now: int) {
    id in known && now - known[id].seen <= STR_KNOWN_TTL
  }

  /** Another record calls the speaker behind the marked sighting at `k` an STR one: the memory, or
      the record at the address the speaker came from. */
  ghost predicate Contradicted(s: State, c: Scan, k: string)
    requires k in c.seen
  {
    var id := IDAt(s, c, k);
    || (Remembered(s.strKnown, id, c.now) && !DegradesID(s, c, id))
    || exists o :: o in s.cache && o !in c.seen && IDOf(s.cache[o]) == id != "" && s.cache[o].box.id.kind == STR
  }

  ghost predicate Uncontradicted(s: State, c: Scan) {
    forall k :: k in c.seen && Marked(EntryAt(s, c, k).box) ==> !Contradicted(s, c, k)
  }

  /** A record of device `id` that carries the mark is there after the refresh. */
  ghost predicate MarkedID(s: State, c: Scan, id: string) {
    || (exists k :: k in c.seen && IDAt(s, c, k) == id && Marked(EntryAt(s, c, k).box))
    || (exists o :: o in s.cache && o !in c.seen && IDOf(s.cache[o]) == id && Marked(s.cache[o].box))
  }

  /** No marked speaker was sighted at two addresses. */
  ghost predicate MarkedOnce(s: State, c: Scan) {
    forall j, k ::
      j in c.seen && k in c.seen && IDAt(s, c, j) == IDAt(s, c, k) != "" && MarkedID(s, c, IDAt(s, c, k)) ==> j == k
  }

  /** The agent itself answered at `k`, and the sighting is not the last of a silence. */
  ghost predicate Answers(s: State, c: Scan, k: string)
    requires k in c.seen
  {
    AgentRecord(c.seen[k]) && !DegradedAt(s, c, k)
  }

  /** What a cycle that keeps the latch meets. */
  ghost predicate LatchScan(s: State, c: Scan) {
    Inv(s) && Sane(s, c) && Latched(s) && Probed(s, c.seen) && MarkedOnce(s, c)
  }

  // ----- merges -----

  lemma PlainMerge(prev: BoxInfo, cur: BoxInfo)
    requires Plain(prev) && Plain(cur) && (Marked(cur) ==> prev.id.kind == Stock)
    ensures var out := MergeBoxInfo(prev, cur);
            && Plain(out)
            && (Marked(out) <==> Marked(cur) || (Marked(prev) && !AgentRecord(cur)))
            && (AgentRecord(cur) ==> AgentRecord(out))
  {
    hide MergeBoxInfo;
    CacheMergeKind(prev, cur);
  }

  lemma PlainRefresh(s: State, c: Scan, k: string)
    requires Latched(s) && Probed(s, c.seen) && k in c.seen
    ensures var e := EntryAt(s, c, k);
            && Plain(e.box)
            && (k in s.cache && !DifferentDevices(s.cache[k].box, c.seen[k]) && Marked(s.cache[k].box) ==>
                (Marked(e.box) <==> !Answers(s, c, k)) && (!Marked(e.box) ==> AgentRecord(e.box)))
            && (Marked(e.box) ==> k in s.cache && (Marked(s.cache[k].box) || DegradedAt(s, c, k)))
  {
    hide MergeBoxInfo, DifferentDevices, Degrades;
    if k in s.cache { PlainMerge(s.cache[k].box, c.seen[k]); }
    RevealedDegrades(Lookup(s.cache, k), c.seen[k], k in c.presenceOnly, k in s.otaPinned, c.now);
  }

  lemma RevealedDegrades(prev: Option<Entry>, b: BoxInfo, presenceOnly: bool, pinned: bool, now: int)
    ensures Degrades(prev, b, presenceOnly, pinned, now) ==> SilentSighting(prev, b, presenceOnly)
  {
  }

  // ----- the stages of a cycle, at one address -----

  /** What is cached at `k` is served with the same mark, and no memory contradicts a marked record. */
  ghost predicate LatchView(w: Work, now: int, k: string) {
    && (k in w.seen ==> Plain(w.seen[k]) && (k !in w.st.cache ==> !Marked(w.seen[k])))
    && (k in w.st.cache ==>
        && k in w.seen && Plain(w.st.cache[k].box)
        && (Marked(w.st.cache[k].box) <==> Marked(w.seen[k]))
        && (Marked(w.seen[k]) ==> !Remembered(w.st.strKnown, w.seen[k].id.deviceID, now)))
  }

  /** No memory stands against a marked record before the pins have their say. */
  lemma MarkUnremembered(s: State, c: Scan, id: string)
    requires LatchScan(s, c) && Uncontradicted(s, c) && MarkedID(s, c, id)
    ensures !Remembered(Refreshed(s, c).st.strKnown, id, c.now)
  {
    hide Inv, InvBase, Fits, Refreshed, EntryAt, IDAt, DegradedAt, Probed, MarkedOnce;
    assert KeyedSightings(c.seen);
    RefreshedMemory(s, c, id);
    if k :| k in c.seen && IDAt(s, c, k) == id && Marked(EntryAt(s, c, k).box) {
      assert !Contradicted(s, c, k);
    }
  }

  /** What the first two loops make of a sighting: itself, or with the one record that comes to it. */
  lemma SweptMark(s: State, c: Scan, k: string)
    requires LatchScan(s, c) && Uncontradicted(s, c) && k in c.seen
    ensures var w, e := SweptBy(s, c).0, EntryAt(s, c, k).box;
            && k in w.seen && Plain(w.seen[k]) && (Marked(w.seen[k]) ==> MarkedID(s, c, IDAt(s, c, k)))
            && (Marked(e) ==> Marked(w.seen[k])) && (AgentRecord(e) ==> AgentRecord(w.seen[k]) && !Marked(w.seen[k]))
  {
    hide InvBase, Fits, SweptBy, EntryAt, IDAt, ComesTo, KeyedSightings, MarkedOnce, Probed;
    SweptMerged(s, c, k);
    PlainRefresh(s, c, k);
    SettledOneArrival(s, c, k);
    if o :| ComesTo(s, c, o, k) {
      ComesFrom(s, c, o, k);
      PlainMerge(s.cache[o].box, EntryAt(s, c, k).box);
      if Marked(EntryAt(s, c, k).box) { assert !Contradicted(s, c, k); }
    }
  }

  lemma SweptLatched(s: State, c: Scan, k: string)
    requires LatchScan(s, c) && Uncontradicted(s, c)
    ensures LatchView(SweptBy(s, c).0, c.now, k)
  {
    hide Inv, InvBase, Fits, SweptBy, EntryAt, IDAt, KeyedSightings, MarkedOnce, Probed, Uncontradicted, MissedEntry,
         NewAddress, Remembered, Live, Plain;
    InvIsBase(s);
    SweptFrame(s, c);
    if k in c.seen {
      SweptMark(s, c, k);
      SweptSighted(s, c, k);
      if Marked(SweptBy(s, c).0.seen[k]) { MarkUnremembered(s, c, IDAt(s, c, k)); }
    } else {
      SweptMissed(s, c, k);
      if k in s.cache {
        MissedKindKept(s.cache[k], c.now);
        SamePlain(s.cache[k].box, MissedEntry(s.cache[k], c.now));
        if Marked(s.cache[k].box) { MarkUnremembered(s, c, IDOf(s.cache[k])); }
      }
    }
  }

  lemma SamePlain(b: BoxInfo, m: Missed)
    requires m.Kept? ==> m.served.id == b.id && m.served.cycle.strNotRunning == b.cycle.strNotRunning
    ensures m.Kept? ==> (Plain(m.served) <==> Plain(b)) && (Marked(m.served) <==> Marked(b))
  {
  }

  /** A held pin takes the mark off. */
  lemma PinAtUnmarked(w: Work, moved: set<string>, live: map<string, string>, now: int, h: string)
    requires h in w.st.otaPinned
    ensures var at := PinAt(w, moved, live, now, h);
            at.PinHeld? ==>
            && !Marked(at.served) && at.served.id.kind == STR
            && (at.cached.Some? ==> !Marked(at.cached.value.box) && at.cached.value.box.id.kind == STR)
            && (at.cached.None? ==> h !in w.st.cache)
  {
    hide MinimalBox, BoxIsDevice;
  }

  lemma HeldLatched(w: Work, moved: set<string>, live: map<string, string>, now: int, k: string)
    requires LatchView(w, now, k)
    ensures LatchView(HoldPins(w, moved, live, now), now, k)
    ensures var r := HoldPins(w, moved, live, now);
            k in r.seen && Marked(r.seen[k]) ==> k in w.seen && Marked(w.seen[k]) && r.seen[k] == w.seen[k]
  {
    HoldPinsAt(w, moved, live, now, k);
    if k in w.st.otaPinned { PinAtUnmarked(w, moved, live, now, k); }
    hide HoldPins, PinAt, Remembered;
  }

  lemma StockAtUnmarked(w: Work, now: int, h: string)
    requires h in w.st.stockPinned && StockAt(w, now, h).StockCorrected?
    ensures var b := StockAt(w, now, h).box;
            && h in w.seen && !Marked(b) && Plain(b)
            && var e := CorrectedEntry(Lookup(w.st.cache, h), b, now);
               !Marked(e.box) && Plain(e.box)
  {
  }

  lemma CorrectedLatched(w: Work, now: int, k: string)
    requires LatchView(w, now, k)
    ensures LatchView(Correct(w, now), now, k)
    ensures var r := Correct(w, now);
            k in r.seen && Marked(r.seen[k]) ==> k in w.seen && Marked(w.seen[k]) && r.seen[k] == w.seen[k]
  {
    CorrectAt(w, now, k);
    if k in w.st.stockPinned && StockAt(w, now, k).StockCorrected? { StockAtUnmarked(w, now, k); }
    hide Correct, StockAt, CorrectedEntry, Remembered, Plain;
  }

  /** After the pins; a mark that is still there was there before. */
  lemma PinnedLatched(s: State, c: Scan, k: string)
    requires LatchScan(s, c) && Uncontradicted(s, c)
    ensures var p, w := PinnedBy(s, c), SweptBy(s, c).0;
            && LatchView(p, c.now, k)
            && (k in p.seen && Marked(p.seen[k]) ==> k in w.seen && Marked(w.seen[k]) && p.seen[k] == w.seen[k])
  {
    SweptLatched(s, c, k);
    hide Inv, Fits, KeyedSightings, Latched, Probed, Uncontradicted, MarkedOnce, LatchView, SweptBy, HoldPins, Correct,
         Live;
    PinnedIs(s, c);
    var (w, moved) := SweptBy(s, c);
    HeldLatched(w, moved, Live(s, c), c.now, k);
    CorrectedLatched(HoldPins(w, moved, Live(s, c), c.now), c.now, k);
  }

  // ----- the memory -----

  /** The memory holds no marked record once this cycle's are recorded. */
  lemma RecordedUnmarked(s: State, c: Scan, id: string)
    requires LatchScan(s, c) && Uncontradicted(s, c) && id in RecordedBy(s, c).st.strKnown
    ensures !Marked(RecordedBy(s, c).st.strKnown[id].box)
  {
    hide Inv, Fits, KeyedSightings, Probed, Uncontradicted, MarkedOnce, PinnedBy, RecordedBy, DegradesID;
    InvIsBase(s);
    RecordedMemory(s, c, id);
    forall j | Records(PinnedBy(s, c).seen, c.presenceOnly, j, id) ensures !Marked(PinnedBy(s, c).seen[j]) {
      PinnedLatched(s, c, j);
    }
  }

  /** A relabelled record carries no mark if neither the sighting nor the memory did. */
  lemma RelabelledUnmarked(memo: BoxInfo, b: BoxInfo)
    requires !Marked(memo) && !Marked(b)
    ensures !Marked(RelabelledBox(memo, b)) && RelabelledBox(memo, b).id.kind == STR
  {
    hide MergeBoxInfo;
    CacheMergeKind(memo, b);
  }

  /** Reconciling unmarked records with an unmarked memory leaves both so. */
  lemma {:induction false} RelabelUnmarked(q: Work, now: int, order: seq<string>, done: set<string>)
    requires MemoryKeyed(q.st.strKnown) && Visits(order, done) && done <= q.seen.Keys
    requires forall id :: id in q.st.strKnown ==> !Marked(q.st.strKnown[id].box)
    requires forall k :: k in q.seen && RelabelAt(q, now, k).Relabelled? ==> !Marked(q.seen[k])
    ensures var r := RelabelAll(q, now, order);
            && (forall id :: id in r.st.strKnown ==> !Marked(r.st.strKnown[id].box))
            && (forall k :: k in done && RelabelAt(q, now, k).Relabelled? ==>
                k in r.seen && !Marked(r.seen[k]) && r.seen[k].id.kind == STR
                && k in r.st.cache && !Marked(r.st.cache[k].box) && r.st.cache[k].box.id.kind == STR)
    decreases order
  {
    if order != [] {
      VisitLast(order, done);
      var key, rest := order[|order| - 1], order[..|order| - 1];
      var w := RelabelAll(q, now, rest);
      RelabelUnmarked(q, now, rest, done - {key});
      RelabelLeaves(q, now, rest, done - {key}, key, q.seen[key].id.deviceID);
      hide RelabelAll, RelabelOne, RelabelAt, RelabelView, MemoryView, MemoryKeyed;
      UnmarkedOne(q, w, now, done - {key}, key);
      forall k | k in done && RelabelAt(q, now, k).Relabelled? && k != key
        ensures Lookup(RelabelOne(w, now, key).seen, k) == Lookup(w.seen, k)
        ensures Lookup(RelabelOne(w, now, key).st.cache, k) == Lookup(w.st.cache, k)
      {
        RelabelOther(w, now, key, k);
      }
    }
  }

  lemma UnmarkedOne(q: Work, w: Work, now: int, done: set<string>, key: string)
    requires key in q.seen && key !in done && SamePins(q, w) && RelabelView(q, w, now, done, key)
    requires MemoryView(q, w, now, q.seen[key].id.deviceID)
    requires forall id :: id in w.st.strKnown ==> !Marked(w.st.strKnown[id].box)
    requires RelabelAt(q, now, key).Relabelled? ==> !Marked(q.seen[key])
    ensures var r := RelabelOne(w, now, key);
            && (forall id :: id in r.st.strKnown ==> !Marked(r.st.strKnown[id].box))
            && (RelabelAt(q, now, key).Relabelled? ==>
                key in r.seen && !Marked(r.seen[key]) && r.seen[key].id.kind == STR
                && key in r.st.cache && !Marked(r.st.cache[key].box) && r.st.cache[key].box.id.kind == STR)
  {
    if RelabelAt(q, now, key).Relabelled? {
      SameRelabel(q, w, now, done, key);
      RelabelledUnmarked(w.st.strKnown[q.seen[key].id.deviceID].box, q.seen[key]);
      hide RelabelledBox, RelabelAt, RelabelView, MemoryView;
    } else {
      hide RelabelledBox;
    }
  }

  /** What the loop finds at a key it has not visited is what it began with. */
  lemma SameRelabel(q: Work, w: Work, now: int, done: set<string>, key: string)
    requires key in q.seen && key !in done && SamePins(q, w) && RelabelView(q, w, now, done, key)
    requires MemoryView(q, w, now, q.seen[key].id.deviceID) && RelabelAt(q, now, key).Relabelled?
    ensures q.seen[key].id.deviceID in w.st.strKnown && Lookup(w.seen, key) == Some(q.seen[key])
    ensures now - w.st.strKnown[q.seen[key].id.deviceID].seen <= STR_KNOWN_TTL
    ensures q.seen[key].id.kind == Stock && q.seen[key].id.deviceID != "" && key !in w.st.stockPinned
  {
    hide RelabelledBox;
  }

  // ----- the whole cycle -----

  /** A marked record is the only one its device has this cycle. */
  lemma MarkedSole(s: State, c: Scan, j: string, k: string)
    requires LatchScan(s, c)
    requires var p, w := PinnedBy(s, c), SweptBy(s, c).0;
             && j in p.seen && k in p.seen && p.seen[j].id.deviceID == p.seen[k].id.deviceID != ""
             && (k in c.seen ==> MarkedID(s, c, IDAt(s, c, k)))
    ensures j == k
  {
    hide Inv, Fits, KeyedSightings, Latched, Probed, PinnedBy, SweptBy, StepBy, IDAt, MarkedID, ServedAt;
    InvIsBase(s);
    StepServedAt(s, c, j);
    StepServedAt(s, c, k);
    if j != k { TwiceServed(s, c, j, k); }
  }

  lemma SweptMarkedID(s: State, c: Scan, k: string)
    requires LatchScan(s, c) && Uncontradicted(s, c) && k in c.seen && k in PinnedBy(s, c).seen
             && Marked(PinnedBy(s, c).seen[k])
    ensures MarkedID(s, c, IDAt(s, c, k))
  {
    hide Inv, Fits, KeyedSightings, Latched, Probed, PinnedBy, SweptBy, IDAt, MarkedID, Uncontradicted, MarkedOnce,
         LatchView;
    PinnedLatched(s, c, k);
    SweptMark(s, c, k);
  }

  /** A marked record reaches the end of the cycle as it is, and its id leaves the memory. */
  lemma MarkedFinal(s: State, c: Scan, k: string)
    requires LatchScan(s, c) && Uncontradicted(s, c) && k in PinnedBy(s, c).seen && Marked(PinnedBy(s, c).seen[k])
    ensures var p, r := PinnedBy(s, c), StepBy(s, c);
            && Lookup(r.seen, k) == Lookup(p.seen, k) && Lookup(r.st.cache, k) == Lookup(p.st.cache, k)
            && !RelabelAt(RecordedBy(s, c), c.now, k).Relabelled?
            && p.seen[k].id.deviceID !in r.st.strKnown
  {
    hide Inv, Fits, KeyedSightings, Latched, Probed, Uncontradicted, MarkedOnce, PinnedBy, RecordedBy, StepBy,
         Refreshed, MarkedID, RelabelAt, DegradesID, IDAt;
    InvIsBase(s);
    var p, q := PinnedBy(s, c), RecordedBy(s, c);
    var id := p.seen[k].id.deviceID;
    PinnedLatched(s, c, k);
    PinnedFrame(s, c);
    RecordedMemory(s, c, id);
    RefreshedDegrade(s, c, id);
    StepMemory(s, c, id);
    StepAt(s, c, k);
    if k in c.seen { SweptMarkedID(s, c, k); }
    if id != "" {
      forall j | Records(p.seen, c.presenceOnly, j, id) ensures false {
        MarkedSole(s, c, j, k);
      }
    }
    assert id != "" ==> !Remembered(q.st.strKnown, id, c.now);
    RelabelledIsServed(q, c.now, k);
  }

  lemma RefreshedDegrade(s: State, c: Scan, id: string)
    requires KeyedSightings(c.seen)
    ensures Lookup(Refreshed(s, c).st.strKnown, id) == if DegradesID(s, c, id) then None else Lookup(s.strKnown, id)
  {
    hide Refreshed, DegradedAt, IDAt;
    RefreshedMemory(s, c, id);
  }

  /** The records and the memory the last loop starts from carry no mark it could spread. */
  lemma StepUnmarked(s: State, c: Scan)
    requires LatchScan(s, c) && Uncontradicted(s, c)
    ensures var q, r := RecordedBy(s, c), StepBy(s, c);
            && (forall id :: id in r.st.strKnown ==> !Marked(r.st.strKnown[id].box))
            && (forall k :: k in q.seen && RelabelAt(q, c.now, k).Relabelled? ==>
                k in r.seen && !Marked(r.seen[k]) && r.seen[k].id.kind == STR
                && k in r.st.cache && !Marked(r.st.cache[k].box) && r.st.cache[k].box.id.kind == STR)
  {
    hide Inv, Fits, KeyedSightings, Latched, Probed, Uncontradicted, MarkedOnce, PinnedBy, RecordedBy, StepBy,
         RelabelAll, RelabelAt, Visits, MemoryKeyed, Marked;
    InvIsBase(s);
    StagesAre(s, c);
    RecordedKeyedBy(s, c);
    StepAt(s, c, "");
    var q := RecordedBy(s, c);
    forall id | id in q.st.strKnown ensures !Marked(q.st.strKnown[id].box) { RecordedUnmarked(s, c, id); }
    forall k | k in q.seen && RelabelAt(q, c.now, k).Relabelled? ensures !Marked(q.seen[k]) {
      if Marked(q.seen[k]) { MarkedFinal(s, c, k); }
    }
    RelabelUnmarked(q, c.now, c.o.relabelled, q.seen.Keys);
  }

  /** What is served and cached at `k` when the cycle ends. */
  ghost predicate FinalView(r: Work, k: string) {
    && (k in r.seen ==> Plain(r.seen[k]) && (Marked(r.seen[k]) ==> r.seen[k].id.deviceID !in r.st.strKnown))
    && (k in r.st.cache ==> Plain(r.st.cache[k].box)
                            && (Marked(r.st.cache[k].box) ==> IDOf(r.st.cache[k]) !in r.st.strKnown))
  }

  lemma StepLatchedAt(s: State, c: Scan, k: string)
    requires LatchScan(s, c) && Uncontradicted(s, c)
    ensures FinalView(StepBy(s, c), k)
  {
    hide Inv, Fits, KeyedSightings, Latched, Probed, Uncontradicted, MarkedOnce, PinnedBy, RecordedBy, StepBy,
         RelabelAt, Remembered, ServedAt;
    InvIsBase(s);
    var p, q := PinnedBy(s, c), RecordedBy(s, c);
    PinnedLatched(s, c, k);
    StepServedAt(s, c, k);
    PinnedServedAt(s, c, k);
    StepAt(s, c, k);
    if RelabelAt(q, c.now, k).Relabelled? {
      StepUnmarked(s, c);
    } else if k in p.seen && Marked(p.seen[k]) {
      MarkedFinal(s, c, k);
      if k in p.st.cache { ServedAtID(p, k); }
    }
  }

  /** A cycle in which nothing contradicts a marked record keeps the latch. */
  lemma LatchStep(s: State, c: Scan)
    requires LatchScan(s, c) && Uncontradicted(s, c)
    ensures Latched(StepBy(s, c).st)
  {
    hide LatchScan, Uncontradicted, StepBy, Fits, Marked, Plain, RecordedBy;
    assert Fits(s, c) by { ScanFits(s, c); }
    var r := StepBy(s, c);
    StepUnmarked(s, c);
    forall k | k in r.st.cache
      ensures Plain(r.st.cache[k].box) && (Marked(r.st.cache[k].box) ==> IDOf(r.st.cache[k]) !in r.st.strKnown)
    {
      StepLatchedAt(s, c, k);
    }
  }

  lemma ScanFits(s: State, c: Scan)
    requires LatchScan(s, c)
    ensures Fits(s, c) && Sane(s, c)
  {
  }

  // ----- when the latch breaks -----

  /** What the first two loops leave of a marked sighting, whatever contradicts it. */
  lemma MarkedSwept(s: State, c: Scan, k: string)
    requires LatchScan(s, c) && k in c.seen && Marked(EntryAt(s, c, k).box)
    ensures var w := SweptBy(s, c).0;
            && k in w.seen && k in w.st.cache && w.st.cache[k].box == w.seen[k]
            && Marked(w.seen[k]) && w.seen[k].id.deviceID == IDAt(s, c, k)
            && (w.seen[k].id.kind == STR <==>
                exists o :: o in s.cache && o !in c.seen && IDOf(s.cache[o]) == IDAt(s, c, k) != ""
                            && s.cache[o].box.id.kind == STR)
  {
    hide InvBase, Fits, KeyedSightings, SweptBy, EntryAt, ComesTo, Probed;
    InvIsBase(s);
    SweptSighted(s, c, k);
    SweptMerged(s, c, k);
    PlainRefresh(s, c, k);
    SettledOneArrival(s, c, k);
    forall o | o in s.cache && o !in c.seen && IDOf(s.cache[o]) == IDAt(s, c, k) != "" ensures ComesTo(s, c, o, k) {
      MarkedComes(s, c, o, k);
    }
    hide IDAt, MergeBoxInfo;
    if o :| ComesTo(s, c, o, k) {
      ComesFrom(s, c, o, k);
      MarkedMerge(s.cache[o].box, EntryAt(s, c, k).box);
    }
  }

  lemma MarkedMerge(prev: BoxInfo, cur: BoxInfo)
    requires Plain(prev) && Plain(cur) && Marked(cur)
    ensures Marked(MergeBoxInfo(prev, cur)) && MergeBoxInfo(prev, cur).id.kind == prev.id.kind
  {
    CacheMergeKind(prev, cur);
    hide MergeBoxInfo;
  }

  /** The record of a marked sighting's speaker comes to it: it was sighted nowhere else. */
  lemma MarkedComes(s: State, c: Scan, o: string, k: string)
    requires LatchScan(s, c) && k in c.seen && Marked(EntryAt(s, c, k).box)
    requires o in s.cache && o !in c.seen && IDOf(s.cache[o]) == IDAt(s, c, k) != ""
    ensures ComesTo(s, c, o, k)
  {
    hide InvBase, Fits, KeyedSightings, EntryAt, Probed, IDAt, Latched, Live, OneAddressPerEntry, PinsDistinct,
         PinsNamed;
    SightedLive(s, c, IDOf(s.cache[o]));
    assert SightedAs(s, c, k, IDOf(s.cache[o]));
    assert MarkedID(s, c, IDAt(s, c, k));
  }

  /** A contradicted mark ends the cycle on an STR record: the latch is broken. */
  lemma ContradictedBreaks(s: State, c: Scan, k: string)
    requires LatchScan(s, c) && k in c.seen && k !in s.otaPinned && k !in s.stockPinned
    requires Marked(EntryAt(s, c, k).box) && Contradicted(s, c, k)
    ensures var r := StepBy(s, c);
            k in r.st.cache && r.st.cache[k].box.id.kind == STR && Marked(r.st.cache[k].box)
  {
    hide Inv, Fits, KeyedSightings, Probed, MarkedOnce, SweptBy, PinnedBy, RecordedBy, StepBy, EntryAt, IDAt,
         DegradesID, RelabelAt, RelabelledBox, Latched;
    InvIsBase(s);
    MarkedSwept(s, c, k);
    UnpinnedBy(s, c, k);
    var p, q := PinnedBy(s, c), RecordedBy(s, c);
    if p.seen[k].id.kind == STR {
      STRFinal(s, c, k);
    } else {
      var id := p.seen[k].id.deviceID;
      BrokenMemory(s, c, k);
      StepSole(s, c, k);
      LatchedMemory(s, id);
      RelabelledMarked(s.strKnown[id].box, p.seen[k]);
    }
  }

  /** A remembered mark is relabelled by that memory. */
  lemma BrokenMemory(s: State, c: Scan, k: string)
    requires LatchScan(s, c) && k in c.seen && Marked(EntryAt(s, c, k).box) && k !in s.stockPinned
    requires Remembered(s.strKnown, IDAt(s, c, k), c.now) && !DegradesID(s, c, IDAt(s, c, k))
    requires var p := PinnedBy(s, c);
             k in p.seen && p.seen[k].id.kind == Stock && p.seen[k].id.deviceID == IDAt(s, c, k)
               && k !in p.st.stockPinned
    ensures var p, q, id := PinnedBy(s, c), RecordedBy(s, c), IDAt(s, c, k);
            && RelabelAt(q, c.now, k).Relabelled? && id in q.st.strKnown && id in s.strKnown
               && q.st.strKnown[id] == s.strKnown[id]
            && forall j :: j in p.seen && p.seen[j].id.deviceID == id ==> j == k
  {
    hide Fits, KeyedSightings, Probed, PinnedBy, RecordedBy, EntryAt, IDAt, DegradesID, RelabelledBox, Latched,
         KeyedCache, PinsKeyed, OneAddressPerEntry, PinsDistinct, PinsNamed, MarkedOnce;
    var p, id := PinnedBy(s, c), IDAt(s, c, k);
    assert id != "";
    assert MarkedID(s, c, id);
    forall j | j in p.seen && p.seen[j].id.deviceID == id ensures j == k {
      MarkedSole(s, c, j, k);
    }
    RecordedMemory(s, c, id);
    StepAt(s, c, k);
    hide Records;
    RelabelsHere(RecordedBy(s, c), c.now, k);
  }

  lemma RelabelsHere(q: Work, now: int, k: string)
    requires k in q.seen && q.seen[k].id.kind == Stock && q.seen[k].id.deviceID != "" && k !in q.st.stockPinned
    requires Remembered(q.st.strKnown, q.seen[k].id.deviceID, now)
    ensures RelabelAt(q, now, k).Relabelled?
  {
    hide RelabelledBox;
  }

  lemma LatchedMemory(s: State, id: string)
    requires Latched(s) && id in s.strKnown
    ensures !Marked(s.strKnown[id].box)
  {
  }

  lemma RelabelledMarked(memo: BoxInfo, b: BoxInfo)
    requires !Marked(memo) && Marked(b)
    ensures Marked(RelabelledBox(memo, b)) && RelabelledBox(memo, b).id.kind == STR
  {
    hide MergeBoxInfo;
    CacheMergeKind(memo, b);
  }

  /** With no pin on a marked record, the latch survives a cycle exactly when nothing contradicts it. */
  lemma LatchHoldsExactlyWhen(s: State, c: Scan)
    requires LatchScan(s, c)
    requires forall k :: k in c.seen && Marked(EntryAt(s, c, k).box) ==> k !in s.otaPinned && k !in s.stockPinned
    ensures Latched(StepBy(s, c).st) <==> Uncontradicted(s, c)
  {
    hide LatchScan, StepBy, EntryAt, Contradicted, Fits;
    assert Fits(s, c) by { ScanFits(s, c); }
    if Uncontradicted(s, c) {
      LatchStep(s, c);
    } else {
      var k :| k in c.seen && Marked(EntryAt(s, c, k).box) && Contradicted(s, c, k);
      ContradictedBreaks(s, c, k);
    }
  }

  /** Speakers that keep the id they are cached under contradict no mark. */
  lemma SettledUncontradicted(s: State, c: Scan)
    requires LatchScan(s, c) && forall k :: k in c.seen && k in s.cache ==> IDAt(s, c, k) == IDOf(s.cache[k])
    ensures Uncontradicted(s, c)
  {
    hide InvBase, Fits, KeyedSightings, Probed, EntryAt, IDAt, DegradedAt, MarkedOnce, PinsDistinct, PinsNamed;
    forall k | k in c.seen && Marked(EntryAt(s, c, k).box) ensures !Contradicted(s, c, k) {
      PlainRefresh(s, c, k);
    }
  }

  // ----- what takes the mark off -----

  /**
   With no pin on its address, a marked record keeps its mark through a cycle
   that misses it, and through a sighting exactly unless the agent answered.
   */
  lemma OnlyTheAgentLifts(s: State, c: Scan, k: string)
    requires LatchScan(s, c) && Uncontradicted(s, c)
    requires k in s.cache && Marked(s.cache[k].box) && k !in s.otaPinned && k !in s.stockPinned
    requires k in c.seen ==> !DifferentDevices(s.cache[k].box, c.seen[k])
    ensures var r := StepBy(s, c);
            if k in c.seen then
              && k in r.st.cache
              && (Marked(r.st.cache[k].box) <==> !Answers(s, c, k))
              && (!Marked(r.st.cache[k].box) ==> r.st.cache[k].box.id.kind == STR)
            else k in r.st.cache ==> Marked(r.st.cache[k].box)
  {
    hide Inv, Fits, KeyedSightings, Latched, Probed, Uncontradicted, MarkedOnce, PinnedBy, RecordedBy, StepBy, SweptBy,
         RelabelAt, Answers, DifferentDevices, IDAt, MissedEntry, NewAddress, EntryAt;
    InvIsBase(s);
    UnpinnedBy(s, c, k);
    PinnedLatched(s, c, k);
    StepAt(s, c, k);
    RelabelledIsServed(RecordedBy(s, c), c.now, k);
    if k in c.seen {
      PlainRefresh(s, c, k) by { ScanLatched(s, c); }
      SweptMark(s, c, k);
      SweptSighted(s, c, k);
    } else {
      SweptMissed(s, c, k);
      MissedKindKept(s.cache[k], c.now);
    }
    var p := PinnedBy(s, c);
    if k in p.seen && Marked(p.seen[k]) {
      MarkedFinal(s, c, k);
    } else if k in p.seen {
      STRFinal(s, c, k);
    }
  }

  lemma ScanLatched(s: State, c: Scan)
    requires LatchScan(s, c)
    ensures Latched(s) && Probed(s, c.seen)
  {
  }

  // ----- over a run -----

  /** The event reports what a probe can report, finds no marked speaker at two addresses, and contradicts
      no marked record. */
  ghost predicate Latching(s: State, e: Event) {
    match e
    case Discover(c, _) => Probed(s, c.seen) && MarkedOnce(s, c) && Uncontradicted(s, c)
    case Added(b, _) => Plain(b) && !Marked(b)
    case _ => true
  }

  ghost predicate LatchingRun(s: State, run: seq<Event>) {
    run == [] ||
    (LatchingRun(s, run[..|run| - 1]) && Latching(After(s, run[..|run| - 1]), run[|run| - 1]))
  }

  lemma LatchNext(s: State, e: Event)
    requires Inv(s) && Admissible(s, e) && Latched(s) && Latching(s, e)
    ensures Latched(Next(s, e))
  {
    hide Inv, StepBy, Probed, Uncontradicted, MarkedOnce, Discovered, Fits, KeyedSightings, Marked, Plain;
    if e.Discover? {
      InvIsBase(s);
      LatchStep(s, e.scan);
      CycleSubset(s, e.scan, e.reachable);
    } else {
      LatchAside(s, e);
    }
  }

  lemma LatchUninstalled(s: State, host: string, now: int)
    requires Latched(s)
    ensures Latched(MarkHostStock(s, host, now))
  {
    if host in s.cache { UninstalledBoxID(s.cache[host].box); }
    hide UninstalledBox;
  }

  lemma LatchAside(s: State, e: Event)
    requires !e.Discover? && Latched(s) && (e.Added? ==> Plain(e.box) && !Marked(e.box))
    ensures Latched(Next(s, e))
  {
    hide MarkHostStock, Plain, Marked;
    if e.Uninstalled? { LatchUninstalled(s, e.host, e.now); }
  }

  /** Along such a run a record marked "STR not running" is a stock one on no verified port,
      and the memory holds nothing of its device. */
  lemma {:induction false} LatchRun(s: State, run: seq<Event>)
    requires Inv(s) && AdmissibleRun(s, run) && SoundRun(s, run) && Latched(s) && LatchingRun(s, run)
    ensures Latched(After(s, run))
  {
    hide Inv, Next, Admissible, Sound, Latched, Latching;
    if run != [] {
      var rest := run[..|run| - 1];
      LatchRun(s, rest);
      InvRun(s, rest);
      LatchNext(After(s, rest), run[|run| - 1]);
    }
  }

  /** The event does nothing at `k` that takes a mark off: no pin, no reinstall, no agent that answers. */
  ghost predicate MarkUntouched(s: State, e: Event, k: string) {
    match e
    case Discover(c, _) =>
      && k !in s.otaPinned && k !in s.stockPinned
      && (k in c.seen && k in s.cache ==> !DifferentDevices(s.cache[k].box, c.seen[k]) && !Answers(s, c, k))
    case Uninstalled(host, _) => host != k
    case Added(b, _) => b.id.host != k
    case _ => true
  }

  ghost predicate MarkUntouchedRun(s: State, run: seq<Event>, k: string) {
    run == [] ||
    (MarkUntouchedRun(s, run[..|run| - 1], k) && MarkUntouched(After(s, run[..|run| - 1]), run[|run| - 1], k)
     && k in After(s, run).cache)
  }

  lemma MarkNext(s: State, e: Event, k: string)
    requires Inv(s) && Admissible(s, e) && Latched(s) && Latching(s, e) && MarkUntouched(s, e, k)
    requires k in s.cache && Marked(s.cache[k].box) && k in Next(s, e).cache
    ensures Marked(Next(s, e).cache[k].box)
  {
    hide Inv, StepBy, Probed, Uncontradicted, MarkedOnce, Discovered, Fits, KeyedSightings, UninstalledBox, WithoutHost,
         Answers, DifferentDevices, Latched;
    if e.Discover? {
      InvIsBase(s);
      OnlyTheAgentLifts(s, e.scan, k);
      CycleSubset(s, e.scan, e.reachable);
    }
  }

  /** As long as the record stays in the cache, unpinned and with no answer from its agent, it stays
      marked: stock sightings and unverified announcements never take the mark off. */
  lemma {:induction false} MarkStays(s: State, run: seq<Event>, k: string)
    requires Inv(s) && AdmissibleRun(s, run) && SoundRun(s, run) && Latched(s) && LatchingRun(s, run)
    requires MarkUntouchedRun(s, run, k) && k in s.cache && Marked(s.cache[k].box)
    ensures k in After(s, run).cache && Marked(After(s, run).cache[k].box)
            && After(s, run).cache[k].box.id.kind == Stock
  {
    hide Inv, Next, Admissible, Sound, Latched, Latching, MarkUntouched;
    LatchRun(s, run);
    if run != [] {
      var rest := run[..|run| - 1];
      MarkStays(s, rest, k);
      InvRun(s, rest);
      LatchRun(s, rest);
      MarkNext(After(s, rest), run[|run| - 1], k);
    }
    LatchedAt(After(s, run), k);
  }

  lemma LatchedAt(s: State, k: string)
    requires Latched(s) && k in s.cache && Marked(s.cache[k].box)
    ensures s.cache[k].box.id.kind == Stock
  {
  }
}
