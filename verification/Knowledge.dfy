/**
 What the app has learned about a speaker is never lost while the speaker
 stays listed: not by a thin sighting, a miss, a pin, a relabel, or a move.
 */
module Knowledge {
  import opened BoxRecords
  import opened DiscoveryEvents
  import opened DiscoveryInvariant
  import opened DiscoveryOrder
  import opened DiscoveryRules
  import opened DiscoveryRun
  import opened DiscoveryScan
  import opened DiscoverySpec
  import opened DiscoveryStep
  import opened FieldPolicy
  import opened IdentityMemory
  import opened OTAPin
  import opened Options
  import opened Text

  /** What a record can say of a speaker for good. */
  datatype Fact = NameFact | ModelFact | IDFact | SecondIDFact | SerialFact

  predicate Says(b: BoxInfo, f: Fact) {
    match f
    case NameFact => !IsGenericBoxName(b.id.friendlyName)
    case ModelFact => !IsGenericModel(b.id.model)
    case IDFact => b.id.deviceID != ""
    case SecondIDFact => b.id.boxDeviceID != ""
    case SerialFact => b.id.serialNumber != ""
  }

  function Facts(b: BoxInfo): set<Fact> {
    set f | f in {NameFact, ModelFact, IDFact, SecondIDFact, SerialFact} && Says(b, f)
  }

  /** Whatever `a` knows of the speaker, `b` knows too: a real name, a specific model, its ids and its serial number. */
  predicate Knows(a: BoxInfo, b: BoxInfo) {
    Facts(a) <= Facts(b)
  }

  /** A cache merge knows exactly what either record knew. */
  lemma KnowsMerge(prev: BoxInfo, cur: BoxInfo)
    ensures Facts(MergeBoxInfo(prev, cur)) == Facts(prev) + Facts(cur)
  {
    CacheMergeIdentity(prev, cur);
    hide MergeBoxInfo, IsGenericBoxName, IsGenericModel;
    forall f ensures Says(MergeBoxInfo(prev, cur), f) <==> Says(prev, f) || Says(cur, f) { }
    hide Says;
  }

  lemma KnowsRelabelled(memo: BoxInfo, b: BoxInfo)
    ensures Facts(RelabelledBox(memo, b)) == Facts(memo) + Facts(b)
  {
    KnowsMerge(memo, b);
    RelabelledNames(memo, b);
    SameFacts(RelabelledBox(memo, b), MergeBoxInfo(memo, b));
    hide MergeBoxInfo, RelabelledBox, Facts;
  }

  /** The two records say the same of the speaker, whatever kind they take it for. */
  predicate SameKnown(a: BoxInfo, b: BoxInfo) {
    && a.id.friendlyName == b.id.friendlyName && a.id.model == b.id.model && a.id.deviceID == b.id.deviceID
    && a.id.boxDeviceID == b.id.boxDeviceID && a.id.serialNumber == b.id.serialNumber
  }

  lemma SameFacts(a: BoxInfo, b: BoxInfo)
    requires SameKnown(a, b)
    ensures Facts(a) == Facts(b)
  {
    hide IsGenericBoxName, IsGenericModel;
    forall f ensures Says(a, f) <==> Says(b, f) { }
    hide Says;
  }

  lemma RelabelledNames(memo: BoxInfo, b: BoxInfo)
    ensures SameKnown(RelabelledBox(memo, b), MergeBoxInfo(memo, b))
  {
    hide MergeBoxInfo;
  }

  /** Cached and served, `k` knows what `b` knows. */
  ghost predicate KnownAt(b: BoxInfo, w: Work, k: string) {
    k in w.st.cache && k in w.seen && Knows(b, w.st.cache[k].box) && Knows(b, w.seen[k])
  }

  // ----- one cycle -----

  /** The record the sighting at `j` is merged with: the one cached there, unless it is another speaker's. */
  function CachedHere(s: State, c: Scan, j: string): BoxInfo
    requires j in c.seen
  {
    if j in s.cache && !DifferentDevices(s.cache[j].box, c.seen[j]) then s.cache[j].box else c.seen[j]
  }

  /** The refresh knows exactly what the sighting says and that record knew. */
  lemma KnownRefresh(s: State, c: Scan, j: string)
    requires j in c.seen
    ensures Facts(EntryAt(s, c, j).box) == Facts(CachedHere(s, c, j)) + Facts(c.seen[j])
  {
    RefreshNames(s, c, j);
    if j in s.cache { KnowsMerge(s.cache[j].box, c.seen[j]); }
    SameFacts(EntryAt(s, c, j).box, Unrefreshed(s, c, j));
    hide EntryAt, MergeBoxInfo, Facts, DifferentDevices;
  }

  /** The record before the refresh clears or degrades it. */
  function Unrefreshed(s: State, c: Scan, j: string): BoxInfo
    requires j in c.seen
  {
    if j in s.cache && !DifferentDevices(s.cache[j].box, c.seen[j]) then MergeBoxInfo(s.cache[j].box, c.seen[j])
    else c.seen[j]
  }

  lemma RefreshNames(s: State, c: Scan, j: string)
    requires j in c.seen
    ensures SameKnown(EntryAt(s, c, j).box, Unrefreshed(s, c, j))
  {
    hide DifferentDevices, Degrades, SilentSighting, MergeBoxInfo;
  }

  /** Whatever records are merged into a sighting, it knows what it knew and what each of them knew. */
  lemma {:induction false} ReaddKnows(cache: map<string, Entry>, seen: Sightings, live: map<string, string>, now: int,
                                      order: seq<string>, done: set<string>, k: string)
    requires Ready(cache, seen, live) && Visits(order, done) && done <= cache.Keys && k in seen
    ensures var w := ReaddAll(Sweep(cache, seen, {}), order, live, now);
            && k in w.seen && Knows(seen[k], w.seen[k])
            && (forall o :: MovesTo(cache, seen, live, o, k) && o in done ==> Knows(cache[o].box, w.seen[k]))
    decreases order
  {
    hide MergeBoxInfo, MissedEntry, Facts, ReaddOne, NewAddress, ReaddView, Ready;
    if order != [] {
      VisitLast(order, done);
      var key, rest := order[|order| - 1], order[..|order| - 1];
      var w := ReaddAll(Sweep(cache, seen, {}), rest, live, now);
      ReaddKnows(cache, seen, live, now, rest, done - {key}, k);
      ReaddLeaves(cache, seen, live, now, rest, done - {key}, k);
      ReaddLeaves(cache, seen, live, now, rest, done - {key}, key);
      if key !in seen && NewAddress(cache[key], key, live).Some? {
        NewAddressListed(cache[key], key, live);
        ReaddLeaves(cache, seen, live, now, rest, done - {key}, live[IDOf(cache[key])]);
      }
      ReaddMergesOne(cache, seen, live, now, done - {key}, w, key, k);
      KnowsMerge(cache[key].box, w.seen[k]);
      hide MovesTo;
      forall o | MovesTo(cache, seen, live, o, k) && o in done
        ensures o in cache && Knows(cache[o].box, ReaddOne(w, key, live, now).seen[k])
      {
        assert o != key ==> o in done - {key};
      }
    }
  }

  /** After the first two loops a sighting knows what its speaker's records knew. */
  lemma SweptKnows(s: State, c: Scan, k: string)
    requires Sane(s, c) && k in c.seen
    ensures var w := SweptBy(s, c).0;
            && k in w.seen && k in w.st.cache && w.st.cache[k].box == w.seen[k]
               && Knows(EntryAt(s, c, k).box, w.seen[k])
            && (forall o :: ComesTo(s, c, o, k) ==> Knows(s.cache[o].box, w.seen[k]))
  {
    hide Fits, Refresh, LiveHosts, InvBase, MissedEntry, NewAddress, Live, ReaddAll, Ready, SweptBy, EffectiveID,
         RefreshAt, Facts;
    SweptSighted(s, c, k);
    SweepOfIs(s, c);
    RefreshedIs(s, c);
    var r := Refreshed(s, c);
    ReaddKnows(r.st.cache, r.seen, Live(s, c), c.now, c.o.cached, r.st.cache.Keys, k);
    forall o | ComesTo(s, c, o, k)
      ensures MovesTo(r.st.cache, r.seen, Live(s, c), o, k) && r.st.cache[o] == s.cache[o]
    {
    }
  }

  /** The address a cycle follows the speaker cached at `k` to, unless another speaker took `k` or it is gone. */
  ghost function FollowCycle(s: State, c: Scan, k: string): Option<string>
    requires Fits(s, c) && k in s.cache
  {
    if k in c.seen then if DifferentDevices(s.cache[k].box, c.seen[k]) then None else Some(k)
    else if NewAddress(s.cache[k], k, Live(s, c)).Some? then NewAddress(s.cache[k], k, Live(s, c))
    else if MissedEntry(s.cache[k], c.now).Kept? then Some(k)
    else None
  }

  lemma KnownSwept(s: State, c: Scan, k: string)
    requires Sane(s, c) && k in s.cache && FollowCycle(s, c, k).Some?
    ensures KnownAt(s.cache[k].box, SweptBy(s, c).0, FollowCycle(s, c, k).value)
  {
    hide Fits, InvBase, KeyedSightings, MissedEntry, NewAddress, Live, SweptBy, EntryAt, Facts, DifferentDevices;
    var j := FollowCycle(s, c, k).value;
    if k in c.seen {
      KnownRefresh(s, c, k);
      SweptKnows(s, c, k);
    } else if NewAddress(s.cache[k], k, Live(s, c)).Some? {
      assert ComesTo(s, c, k, j);
      ComesAs(s, c, k, j);
      SweptKnows(s, c, j);
    } else {
      SweptMissed(s, c, k);
      MissedKindKept(s.cache[k], c.now);
      MissedKnows(s.cache[k], c.now);
    }
  }

  lemma MissedKnows(e: Entry, now: int)
    requires MissedEntry(e, now).Kept?
    ensures Knows(e.box, MissedEntry(e, now).entry.box) && Knows(e.box, MissedEntry(e, now).served)
  {
    SameFacts(e.box, MissedEntry(e, now).entry.box);
    SameFacts(e.box, MissedEntry(e, now).served);
    hide Facts;
  }

  /** The pins leave what is known of a served speaker. */
  lemma PinnedKnown(w: Work, moved: set<string>, live: map<string, string>, now: int, k: string)
    requires k in w.seen && k in w.st.cache
    ensures var p := Correct(HoldPins(w, moved, live, now), now);
            && k in p.seen && k in p.st.cache && SameKnown(w.seen[k], p.seen[k])
            && (SameKnown(w.st.cache[k].box, p.st.cache[k].box) || SameKnown(w.seen[k], p.st.cache[k].box))
  {
    hide HoldPins, Correct, PinAt, StockAt, CorrectedEntry;
    HoldPinsAt(w, moved, live, now, k);
    if k in w.st.otaPinned { HeldKnown(w, moved, live, now, k); }
    var h := HoldPins(w, moved, live, now);
    CorrectAt(h, now, k);
    if k in h.st.stockPinned && StockAt(h, now, k).StockCorrected? { CorrectedKnown(h, now, k); }
  }

  lemma HeldKnown(w: Work, moved: set<string>, live: map<string, string>, now: int, h: string)
    requires h in w.st.otaPinned && h in w.seen
    ensures var at := PinAt(w, moved, live, now, h);
            at.PinHeld? ==> at.cached.Some? && SameKnown(w.seen[h], at.cached.value.box)
                            && SameKnown(w.seen[h], at.served)
  {
    hide MinimalBox, BoxIsDevice;
  }

  lemma CorrectedKnown(w: Work, now: int, h: string)
    requires h in w.st.stockPinned && StockAt(w, now, h).StockCorrected?
    ensures var b := StockAt(w, now, h).box;
            h in w.seen && SameKnown(w.seen[h], b)
              && SameKnown(w.seen[h], CorrectedEntry(Lookup(w.st.cache, h), b, now).box)
  {
  }

  /** One cycle: the speaker's record, wherever the cycle follows it to, knows all it knew. */
  lemma KnownStep(s: State, c: Scan, k: string)
    requires Sane(s, c) && k in s.cache && FollowCycle(s, c, k).Some?
    ensures KnownAt(s.cache[k].box, StepBy(s, c), FollowCycle(s, c, k).value)
  {
    hide Fits, InvBase, KeyedSightings, SweptBy, PinnedBy, StepBy, RecordedBy, HoldPins, Correct, Live, FollowCycle,
         RelabelAt, RelabelledBox, Facts, SameKnown;
    KnownSwept(s, c, k);
    var b, j := s.cache[k].box, FollowCycle(s, c, k).value;
    var (w, moved) := SweptBy(s, c);
    var p, r := PinnedBy(s, c), StepBy(s, c);
    PinnedIs(s, c);
    PinnedKnown(w, moved, Live(s, c), c.now, j);
    KnowsPinned(b, w, p, j);
    StepAt(s, c, j);
    if RelabelAt(RecordedBy(s, c), c.now, j).Relabelled? {
      var memo :| RelabelledBy(p, r, c.now, j, memo);
      KnowsRelabelled(memo, p.seen[j]);
    }
  }

  lemma KnowsPinned(b: BoxInfo, w: Work, p: Work, j: string)
    requires KnownAt(b, w, j) && j in p.seen && j in p.st.cache && SameKnown(w.seen[j], p.seen[j])
    requires SameKnown(w.st.cache[j].box, p.st.cache[j].box) || SameKnown(w.seen[j], p.st.cache[j].box)
    ensures KnownAt(b, p, j)
  {
    SameFacts(w.seen[j], p.seen[j]);
    if SameKnown(w.st.cache[j].box, p.st.cache[j].box) { SameFacts(w.st.cache[j].box, p.st.cache[j].box); }
    else { SameFacts(w.seen[j], p.st.cache[j].box); }
    hide Facts, SameKnown;
  }

  // ----- over a run -----

  /** Where the record of the speaker at `k` stands after the event, if it is still listed. */
  ghost function Follow(s: State, e: Event, k: string): Option<string>
    requires k in s.cache
  {
    match e
    case Discover(c, reachable) =>
      if !Fits(s, c) then None
      else
        var at := FollowCycle(s, c, k);
        if at.Some? && Spared(s, c, reachable, at.value) then at else None
    case Forgotten(host) => if host == k then None else Some(k)
    case Added(b, _) => if b.id.host == k then None else Some(k)
    case _ => Some(k)
  }

  /** Where the speaker cached at `k` in `s` is listed after the run. */
  ghost function FollowRun(s: State, run: seq<Event>, k: string): Option<string> {
    if run == [] then Some(k)
    else
      var before := After(s, run[..|run| - 1]);
      var at := FollowRun(s, run[..|run| - 1], k);
      if at.Some? && at.value in before.cache then Follow(before, run[|run| - 1], at.value) else None
  }

  lemma KnownNext(s: State, e: Event, k: string)
    requires InvBase(s) && Admissible(s, e) && k in s.cache && Follow(s, e, k).Some?
    ensures var j := Follow(s, e, k).value;
            j in Next(s, e).cache && Knows(s.cache[k].box, Next(s, e).cache[j].box)
  {
    hide InvBase, KeyedSightings, Fits, StepBy, Discovered, FollowCycle, UninstalledBox, Facts, Spared;
    match e
    case Discover(c, reachable) =>
      KnownStep(s, c, k);
      CycleAt(s, c, reachable, FollowCycle(s, c, k).value);
    case Uninstalled(host, now) =>
      if host in s.cache {
        UninstalledBoxID(s.cache[host].box);
        SameFacts(UninstalledBox(s.cache[host].box), s.cache[host].box);
      }
    case _ =>
  }

  /**
   Over any run: as long as the speaker stays listed, at its address or at the
   one it moved to, a real name, a specific model, its device ids and its
   serial number are never lost.
   */
  lemma {:induction false} NeverForgets(s: State, run: seq<Event>, k: string)
    requires InvBase(s) && AdmissibleRun(s, run) && k in s.cache && FollowRun(s, run, k).Some?
    ensures var at := FollowRun(s, run, k).value;
            at in After(s, run).cache && Knows(s.cache[k].box, After(s, run).cache[at].box)
  {
    hide InvBase, Next, Admissible, Follow, Facts;
    if run != [] {
      var rest := run[..|run| - 1];
      NeverForgets(s, rest, k);
      InvBaseRun(s, rest);
      KnownNext(After(s, rest), run[|run| - 1], FollowRun(s, rest, k).value);
    } else {
      assert FollowRun(s, run, k) == Some(k);
    }
  }

  // ----- where the knowledge is lost -----

  /** The speaker cached at `k` alone answers at `j` alone, while another one took `k`. */
  ghost predicate Swapped(s: State, c: Scan, k: string, j: string) {
    && Alone(s, k) && k in c.seen && IDAt(s, c, k) != IDOf(s.cache[k])
    && SightedAs(s, c, j, IDOf(s.cache[k])) && forall i :: SightedAs(s, c, i, IDOf(s.cache[k])) ==> i == j
  }

  lemma SwappedCached(s: State, c: Scan, k: string, j: string)
    requires Swapped(s, c, k, j)
    ensures k in s.cache && j in c.seen
  {
  }

  lemma NoSwapArrival(s: State, c: Scan, k: string, j: string)
    requires Sane(s, c) && Swapped(s, c, k, j)
    ensures forall o :: !ComesTo(s, c, o, j)
  {
    hide InvBase, KeyedSightings, Fits, IDAt, Live;
    forall o ensures !ComesTo(s, c, o, j) {
      if ComesTo(s, c, o, j) { ComesAs(s, c, o, j); assert false; }
    }
  }

  /** What the arrival is made of before the memory is asked. */
  lemma SwappedPinned(s: State, c: Scan, k: string, j: string)
    requires Sane(s, c) && Swapped(s, c, k, j)
    ensures var p := PinnedBy(s, c);
            && j in p.seen && j in p.st.cache && p.seen[j].id.deviceID == IDOf(s.cache[k])
            && Facts(p.seen[j]) == Facts(p.st.cache[j].box) == Facts(CachedHere(s, c, j)) + Facts(c.seen[j])
  {
    hide InvBase, KeyedSightings, Fits, SweptBy, PinnedBy, HoldPins, Correct, Live, IDAt, EntryAt, Facts, SameKnown,
         CachedHere, Alone, ServedAt;
    NoSwapArrival(s, c, k, j);
    SweptMerged(s, c, j);
    SweptSighted(s, c, j);
    KnownRefresh(s, c, j);
    PinnedIs(s, c);
    var (w, moved) := SweptBy(s, c);
    PinnedKnown(w, moved, Live(s, c), c.now, j);
    var p := PinnedBy(s, c);
    PinnedSightedID(s, c, j);
    SameFacts(w.seen[j], p.seen[j]);
    SameFacts(w.st.cache[j].box, p.st.cache[j].box);
  }

  /** The memory a stock arrival is relabelled by: the one the cycle found. */
  lemma SwappedMemory(s: State, c: Scan, k: string, j: string)
    requires Sane(s, c) && Swapped(s, c, k, j) && RelabelAt(RecordedBy(s, c), c.now, j).Relabelled?
    ensures var id := IDOf(s.cache[k]);
            && id in s.strKnown && j in PinnedBy(s, c).seen
            && RelabelledBy(PinnedBy(s, c), StepBy(s, c), c.now, j, s.strKnown[id].box)
  {
    hide InvBase, KeyedSightings, Fits, PinnedBy, StepBy, RecordedBy, IDAt, RelabelAt, Alone, RelabelledBy, DegradesID;
    AloneCached(s, k);
    var id := IDOf(s.cache[k]);
    var p, q := PinnedBy(s, c), RecordedBy(s, c);
    SwappedPinned(s, c, k, j);
    StepAt(s, c, j);
    RelabelledIsServed(q, c.now, j);
    assert Sighted(s, c, id);
    forall i | i in p.seen && p.seen[i].id.deviceID == id ensures i == j { SightedServed(s, c, id, i); }
    StepSole(s, c, j);
    RecordedMemory(s, c, id);
  }

  /** A live post-OTA pin at the sighted address `j` holds: its speaker, if it names one, was not listed
      elsewhere and may be the one that answered. */
  ghost predicate HeldThere(s: State, c: Scan, j: string)
    requires Fits(s, c) && j in c.seen
  {
    && j in s.otaPinned && c.now - s.otaPinned[j] <= OTA_REBOOT_GRACE && !NamedElsewhere(s, c, j)
    && (PinID(s, j) == "" || IDAt(s, c, j) == "" || BoxIsDevice(EntryAt(s, c, j).box, PinID(s, j)))
  }

  /** The memory takes the arrival at `j` for an STR speaker: what the refresh makes of it is a stock record,
      neither pin has a say there, and its id is remembered and not degraded by this very sighting. */
  ghost predicate Remembers(s: State, c: Scan, j: string)
    requires Fits(s, c) && j in c.seen
  {
    var id := IDAt(s, c, j);
    && EntryAt(s, c, j).box.id.kind == Stock && !HeldThere(s, c, j) && !PinLive(s, j, c.now)
    && id in s.strKnown && c.now - s.strKnown[id].seen <= STR_KNOWN_TTL && !DegradedAt(s, c, j)
  }

  /** What the pins leave of the arrival. */
  lemma SwappedKind(s: State, c: Scan, k: string, j: string)
    requires Sane(s, c) && Swapped(s, c, k, j)
    ensures var p := PinnedBy(s, c);
            && j in p.seen && p.seen[j].id.deviceID == IDOf(s.cache[k]) != ""
            && (p.seen[j].id.kind == Stock && j !in p.st.stockPinned <==>
                EntryAt(s, c, j).box.id.kind == Stock && !HeldThere(s, c, j) && !PinLive(s, j, c.now))
  {
    hide InvBase, KeyedSightings, Fits, SweptBy, PinnedBy, HoldPins, Correct, Live, IDAt, EntryAt, Alone, BoxIsDevice,
         AgentRecord;
    NoSwapArrival(s, c, k, j);
    SweptMerged(s, c, j);
    SweptSighted(s, c, j);
    SweptFrame(s, c);
    PinnedIs(s, c);
    LiveNamed(s, c, j);
    var (w, moved) := SweptBy(s, c);
    ServedPinned(w, moved, Live(s, c), c.now, j);
    StockPinStands(w, moved, Live(s, c), c.now, j);
  }

  /** A stock record that a live post-uninstall pin covers keeps the pin; one that has run out is dropped. */
  lemma StockPinStands(w: Work, moved: set<string>, live: map<string, string>, now: int, k: string)
    requires k in w.seen && k !in moved
    ensures var p := Correct(HoldPins(w, moved, live, now), now);
            && k in p.seen
            && (p.seen[k].id.kind == Stock ==> (k in p.st.stockPinned <==> PinLive(w.st, k, now)))
  {
    hide BoxIsDevice;
    HoldPinsAt(w, moved, live, now, k);
    var held := HoldPins(w, moved, live, now);
    CorrectAt(held, now, k);
    hide HoldPins, Correct, MinimalBox;
  }

  lemma RemembersExactlyWhen(s: State, c: Scan, k: string, j: string)
    requires Sane(s, c) && Swapped(s, c, k, j)
    ensures j in c.seen && (RelabelAt(RecordedBy(s, c), c.now, j).Relabelled? <==> Remembers(s, c, j))
  {
    hide InvBase, KeyedSightings, Fits, PinnedBy, RecordedBy, StepBy, IDAt, EntryAt, DegradedAt, RelabelAt, Alone,
         HeldThere, PinLive;
    AloneCached(s, k);
    var id, p := IDOf(s.cache[k]), PinnedBy(s, c);
    SwappedKind(s, c, k, j);
    StepAt(s, c, j);
    RelabelsExactlyWhen(RecordedBy(s, c), c.now, j);
    RecordedMemory(s, c, id);
    assert SightedAs(s, c, j, id) && Sighted(s, c, id);
    forall i | i in p.seen && p.seen[i].id.deviceID == id ensures i == j { SightedServed(s, c, id, i); }
    forall i | i in c.seen && IDAt(s, c, i) == id ensures i == j { assert SightedAs(s, c, i, id); }
  }

  /**
   A speaker whose old address is taken in the same cycle arrives at its new one
   with what is said of it there: its record knows exactly what the sighting, the
   record the new address was cached under, if it is no other speaker's, and the
   memory, if it takes the arrival for an STR speaker, say.
   */
  lemma SwapForgets(s: State, c: Scan, k: string, j: string)
    requires Sane(s, c) && Swapped(s, c, k, j)
    ensures var r, said := StepBy(s, c), Facts(CachedHere(s, c, j)) + Facts(c.seen[j]);
            && j in r.st.cache
            && if Remembers(s, c, j) then
                 && IDOf(s.cache[k]) in s.strKnown
                 && Facts(r.st.cache[j].box) == said + Facts(s.strKnown[IDOf(s.cache[k])].box)
               else Facts(r.st.cache[j].box) == said
  {
    hide InvBase, KeyedSightings, Fits, PinnedBy, StepBy, RecordedBy, IDAt, RelabelAt, Alone, Facts, CachedHere,
         RelabelledBox, Swapped, Remembers;
    SwappedCached(s, c, k, j);
    SwappedPinned(s, c, k, j);
    RemembersExactlyWhen(s, c, k, j);
    StepAt(s, c, j);
    if Remembers(s, c, j) {
      SwappedMemory(s, c, k, j);
      KnowsRelabelled(s.strKnown[IDOf(s.cache[k])].box, PinnedBy(s, c).seen[j]);
    }
  }

  function Named(host: string, id: string, name: string): BoxInfo {
    EMPTY_BOX.(id := EMPTY_BOX.id.(host := host, port := 8888, deviceID := id, friendlyName := name, kind := STR))
  }

  const TWO_SPEAKERS := State(map["a" := NewEntry(Named("a", "1", "Kitchen"), 0),
    "b" := NewEntry(Named("b", "2", "Bath"), 0)],
                              map[], map[], map[], map[])

  const LEASES_SWAPPED: Sightings := map["a" := Named("a", "2", ""), "b" := Named("b", "1", "")]

  /** Two speakers that swap their addresses in one cycle, both sighted without a name, lose their names,
      whatever orders the loops take. */
  lemma LeaseSwapLosesNames(c: Scan)
    requires c.seen == LEASES_SWAPPED && c.presenceOnly == {} && Fits(TWO_SPEAKERS, c)
    ensures Inv(TWO_SPEAKERS) && Unambiguous(TWO_SPEAKERS, c.seen)
    ensures var r := StepBy(TWO_SPEAKERS, c);
            && "b" in r.st.cache && IDOf(r.st.cache["b"]) == IDOf(TWO_SPEAKERS.cache["a"])
            && !IsGenericBoxName(TWO_SPEAKERS.cache["a"].box.id.friendlyName)
            && IsGenericBoxName(r.st.cache["b"].box.id.friendlyName)
  {
    SwapState(c);
    SwapIDs(c);
    KitchenIsReal();
    hide Inv, Unambiguous, StepBy, Fits, Swapped, KeyedSightings, CachedHere, IDAt, IsGenericBoxName, DifferentDevices,
         InvBase;
    InvIsBase(TWO_SPEAKERS);
    NamelessArrival(TWO_SPEAKERS, c, "a", "b");
  }

  /** An STR arrival whose sighting says no name has none, where the swap leaves it nothing else to go by. */
  lemma NamelessArrival(s: State, c: Scan, k: string, j: string)
    requires Sane(s, c) && Swapped(s, c, k, j) && j !in s.otaPinned && j !in s.stockPinned
    requires c.seen[j].id.kind == STR && (j in s.cache ==> DifferentDevices(s.cache[j].box, c.seen[j]))
    requires IsGenericBoxName(c.seen[j].id.friendlyName)
    ensures var r := StepBy(s, c);
            k in s.cache && j in r.st.cache && IDOf(r.st.cache[j]) == IDOf(s.cache[k])
              && IsGenericBoxName(r.st.cache[j].box.id.friendlyName)
  {
    hide InvBase, KeyedSightings, StepBy, Fits, PinnedBy, RecordedBy, RelabelAt, IDAt, ServedAt, IsGenericBoxName,
         DifferentDevices, Alone, NewAddress, MissedEntry, PinHolds;
    SwappedCached(s, c, k, j);
    SwapForgets(s, c, k, j);
    UnknownSighting(s, c, j);
    StepIDs(s, c, j);
    ServedAtID(StepBy(s, c), j);
    assert NameFact !in Facts(c.seen[j]);
    assert NameFact !in Facts(CachedHere(s, c, j));
    assert NameFact !in Facts(StepBy(s, c).st.cache[j].box);
  }

  /** Each of the two reports the other's old address, under its own id. */
  lemma SwapIDs(c: Scan)
    requires c.seen == LEASES_SWAPPED
    ensures DifferentDevices(TWO_SPEAKERS.cache["b"].box, c.seen["b"])
    ensures CachedHere(TWO_SPEAKERS, c, "b") == c.seen["b"] && c.seen["b"].id.kind == STR
    ensures IDAt(TWO_SPEAKERS, c, "b") == "1" && IDAt(TWO_SPEAKERS, c, "a") == "2"
    ensures IDOf(TWO_SPEAKERS.cache["a"]) == "1" && c.seen["b"].id.friendlyName == ""
  {
    assert Fold("2") != Fold("1") by { assert Fold("2")[0] == '2' && Fold("1")[0] == '1'; }
    assert !BoxIsDevice(LEASES_SWAPPED["b"], "2");
    hide BoxIsDevice;
  }

  lemma SwapState(c: Scan)
    requires c.seen == LEASES_SWAPPED
    ensures Inv(TWO_SPEAKERS) && KeyedSightings(c.seen) && Unambiguous(TWO_SPEAKERS, c.seen)
    ensures Swapped(TWO_SPEAKERS, c, "a", "b")
  {
    SwapIDs(c);
    hide IDAt, CachedHere, DifferentDevices;
    assert Alone(TWO_SPEAKERS, "a");
    assert forall i :: i in c.seen ==> i == "a" || i == "b";
    SwapUnambiguous(c);
    hide Alone, Unambiguous, KeyedSightings;
  }

  lemma SwapUnambiguous(c: Scan)
    requires c.seen == LEASES_SWAPPED
    ensures KeyedSightings(c.seen) && Unambiguous(TWO_SPEAKERS, c.seen)
  {
  }

  lemma KitchenIsReal()
    ensures !IsGenericBoxName("Kitchen") && IsGenericBoxName("")
  {
    assert TrimLeft("Kitchen") == "Kitchen" && TrimRight("Kitchen") == "Kitchen";
  }
}
