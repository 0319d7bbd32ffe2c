/**
 The pin an update sets: for four minutes the host is an STR speaker mid-update,
 with its own version or none, unless the speaker turns up elsewhere.
 */
module OTAPin {
  import opened BoxRecords
  import opened DiscoveryEvents
  import opened DiscoveryInvariant
  import opened DiscoveryOrder
  import opened DiscoveryRules
  import opened DiscoveryRun
  import opened DiscoveryScan
  import opened DiscoverySpec
  import opened DiscoveryStep
  import opened FieldPolicy
  import opened Options

  /** The id of the speaker the app last had at `h`: the cached one, else the one the pin names. */
  function HostID(s: State, h: string): string {
    if h in s.cache then IDOf(s.cache[h]) else PinID(s, h)
  }

  /** The speaker the app had at `h` left the address and answered at another one. */
  ghost predicate MovedAway(s: State, c: Scan, h: string) {
    h !in c.seen && Sighted(s, c, HostID(s, h))
  }

  /** The address the speaker of the pin was last found at this cycle is another one. */
  ghost predicate NamedElsewhere(s: State, c: Scan, h: string)
    requires Fits(s, c)
  {
    PinID(s, h) in Live(s, c) && Live(s, c)[PinID(s, h)] != h
  }

  /** What stands at `h` after the first two loops is provably another speaker. */
  ghost predicate TakenOver(s: State, c: Scan, h: string)
    requires Fits(s, c)
  {
    var w := SweptBy(s, c).0;
    h in w.seen && PinID(s, h) != "" && w.seen[h].id.deviceID != "" && !BoxIsDevice(w.seen[h], PinID(s, h))
  }

  /** The pin's host is still the place of its speaker this cycle. */
  ghost predicate StillThere(s: State, c: Scan, h: string)
    requires Fits(s, c)
  {
    !MovedAway(s, c, h) && !NamedElsewhere(s, c, h) && !TakenOver(s, c, h)
  }

  /** Where the named speaker was sighted at one address only, the order of the sightings does not matter. */
  lemma NamedElsewhereIs(s: State, c: Scan, h: string)
    requires Sane(s, c)
    requires forall i, j :: SightedAs(s, c, i, PinID(s, h)) && SightedAs(s, c, j, PinID(s, h)) ==> i == j
    ensures NamedElsewhere(s, c, h) <==> exists j :: j != h && SightedAs(s, c, j, PinID(s, h))
  {
    hide InvBase, KeyedSightings, Fits, Live, SightedAs;
    SightedLive(s, c, PinID(s, h));
  }

  // ----- the first two loops -----

  /** Whether the address is evicted for a new one. */
  lemma MovedAtHost(s: State, c: Scan, h: string)
    requires Sane(s, c)
    ensures var (w, moved) := SweptBy(s, c);
            && (h in moved <==> h in s.cache && MovedAway(s, c, h))
            && (MovedAway(s, c, h) ==> h !in w.st.cache && h !in w.seen)
            && (h !in s.cache && MovedAway(s, c, h) ==> NamedElsewhere(s, c, h))
  {
    hide InvBase, KeyedSightings, Fits, Live, SweptBy, IDAt, MissedEntry, NewAddress;
    SightedLive(s, c, PinID(s, h));
    if h in c.seen {
      SweptSighted(s, c, h);
    } else {
      SweptMissed(s, c, h);
      if h in s.cache { EvictedExactlyWhen(s, c, h); }
    }
  }

  /** Where the version a pinned host is served with can come from. */
  ghost predicate OwnVersion(s: State, c: Scan, h: string, v: string)
    requires Fits(s, c)
  {
    || v == ""
    || (h in c.seen && v == c.seen[h].agent.version)
    || (h in s.cache && v == s.cache[h].box.agent.version)
    || (h in c.seen && exists o :: ComesTo(s, c, o, h) && v == s.cache[o].box.agent.version)
    || (PinID(s, h) in s.strKnown && v == s.strKnown[PinID(s, h)].box.agent.version)
  }

  /** The version of a sighting after the re-add loop is its own, an arrival's, or none. */
  lemma {:induction false} ReaddVersion(cache: map<string, Entry>, seen: Sightings, live: map<string, string>, now: int,
                                        order: seq<string>, done: set<string>, k: string)
    requires Ready(cache, seen, live) && Visits(order, done) && done <= cache.Keys && k in seen
    ensures var w := ReaddAll(Sweep(cache, seen, {}), order, live, now);
            && k in w.seen
            && (w.seen[k].agent.version in {"", seen[k].agent.version}
                || exists o :: MovesTo(cache, seen, live, o, k)
                               && w.seen[k].agent.version == cache[o].box.agent.version)
    decreases order
  {
    hide MergeBoxInfo, MissedEntry, ReaddOne, NewAddress, ReaddView, Ready;
    if order != [] {
      VisitLast(order, done);
      var key, rest := order[|order| - 1], order[..|order| - 1];
      var w := ReaddAll(Sweep(cache, seen, {}), rest, live, now);
      ReaddVersion(cache, seen, live, now, rest, done - {key}, k);
      ReaddLeaves(cache, seen, live, now, rest, done - {key}, k);
      ReaddLeaves(cache, seen, live, now, rest, done - {key}, key);
      if key !in seen && NewAddress(cache[key], key, live).Some? {
        NewAddressListed(cache[key], key, live);
        ReaddLeaves(cache, seen, live, now, rest, done - {key}, live[IDOf(cache[key])]);
      }
      ReaddMergesOne(cache, seen, live, now, done - {key}, w, key, k);
      CacheMergeMarks(cache[key].box, w.seen[k]);
    }
  }

  lemma SweptVersion(s: State, c: Scan, h: string)
    requires Sane(s, c)
    ensures var w := SweptBy(s, c).0;
            h in w.seen ==> OwnVersion(s, c, h, w.seen[h].agent.version)
  {
    hide InvBase, KeyedSightings, Fits, Live, SweptBy, IDAt, MissedEntry, NewAddress, EntryAt, ReaddAll, Refreshed,
         Ready;
    if h in c.seen {
      SweepOfIs(s, c);
      RefreshedIs(s, c);
      var r := Refreshed(s, c);
      RefreshedVersion(s, c, h);
      ReaddVersion(r.st.cache, r.seen, Live(s, c), c.now, c.o.cached, r.st.cache.Keys, h);
      forall o | MovesTo(r.st.cache, r.seen, Live(s, c), o, h)
        ensures ComesTo(s, c, o, h) && r.st.cache[o] == s.cache[o]
      {
      }
      hide ComesTo, MovesTo;
    } else {
      SweptMissed(s, c, h);
      if h in s.cache { MissedKindKept(s.cache[h], c.now); }
    }
  }

  lemma RefreshedVersion(s: State, c: Scan, h: string)
    requires h in c.seen
    ensures EntryAt(s, c, h).box.agent.version in
            {"", c.seen[h].agent.version, if h in s.cache then s.cache[h].box.agent.version else ""}
  {
    hide MergeBoxInfo, DifferentDevices, Degrades, SilentSighting;
    if h in s.cache { CacheMergeMarks(s.cache[h].box, c.seen[h]); }
  }

  // ----- the pin loop -----

  /** The record a held pin starts from. */
  function PinSource(st: State, served: Sightings, h: string): BoxInfo {
    if h in served then served[h]
    else if PinID(st, h) != "" && PinID(st, h) in st.strKnown then
      var m := st.strKnown[PinID(st, h)].box;
      m.(id := m.id.(host := h), cycle := m.cycle.(offline := false, offlineSinceSec := 0))
    else MinimalBox(h, PinID(st, h))
  }

  /** The pin at `h`, where what is cached is what is served. */
  lemma PinOutcomeAt(w: Work, moved: set<string>, live: map<string, string>, now: int, h: string)
    requires h in w.st.otaPinned && w.st.cache.Keys == w.seen.Keys
    ensures var gone := h in moved || (PinID(w.st, h) != "" && PinID(w.st, h) in live && live[PinID(w.st, h)] != h)
                        || (h in w.seen && PinID(w.st, h) != "" && w.seen[h].id.deviceID != ""
                            && !BoxIsDevice(w.seen[h], PinID(w.st, h)));
            var src := PinSource(w.st, w.seen, h);
            var b := src.(id := src.id.(kind := STR), cycle := src.cycle.(strNotRunning := false));
            PinAt(w, moved, live, now, h) ==
            if now - w.st.otaPinned[h] > OTA_REBOOT_GRACE || gone then PinDropped
            else PinHeld(if h in w.seen || src.id.deviceID != ""
                         then Some(NewEntry(b.(cycle := b.cycle.(unreachable := false)), now)) else None,
                         b.(cycle := b.cycle.(otaPending := true)))
  {
    hide BoxIsDevice, MinimalBox;
  }

  lemma PinsAtHost(s: State, c: Scan, h: string)
    requires Sane(s, c) && h in s.otaPinned
    ensures var w, p := SweptBy(s, c).0, PinnedBy(s, c);
            var src := PinSource(w.st, w.seen, h);
            var b := src.(id := src.id.(kind := STR), cycle := src.cycle.(strNotRunning := false));
            if c.now - s.otaPinned[h] <= OTA_REBOOT_GRACE && StillThere(s, c, h) then
              && Lookup(p.st.otaPinned, h) == Lookup(s.otaPinned, h)
                 && Lookup(p.st.otaPinnedID, h) == Lookup(s.otaPinnedID, h)
              && Lookup(p.seen, h) == Some(b.(cycle := b.cycle.(otaPending := true)))
              && Lookup(p.st.cache, h) == (if h in w.seen || src.id.deviceID != ""
                                           then Some(NewEntry(b.(cycle := b.cycle.(unreachable := false)), c.now))
                                             else None)
            else
              && h !in p.st.otaPinned && h !in p.st.otaPinnedID
              && (h !in w.seen ==> h !in p.seen && h !in p.st.cache)
  {
    hide InvBase, KeyedSightings, Fits, Live, SweptBy, HoldPins, Correct, PinAt, StockAt, MovedAway, MinimalBox,
         BoxIsDevice, ServedAt;
    MovedAtHost(s, c, h);
    SweptIsServed(s, c);
    SweptFrame(s, c);
    PinnedIs(s, c);
    LiveNamed(s, c, h);
    var (w, moved) := SweptBy(s, c);
    PinOutcomeAt(w, moved, Live(s, c), c.now, h);
    var held := HoldPins(w, moved, Live(s, c), c.now);
    HoldPinsAt(w, moved, Live(s, c), c.now, h);
    CorrectAt(held, c.now, h);
    if h in held.st.stockPinned && (h in held.st.otaPinned || h !in held.seen) { OTAOverStock(held, c.now, h); }
  }

  lemma LiveNamed(s: State, c: Scan, h: string)
    requires Sane(s, c)
    ensures "" !in Live(s, c)
  {
    hide InvBase, KeyedSightings, Fits, Live, IDAt;
    LiveIs(s, c);
  }

  /** The post-uninstall pin never corrects a host mid-update, nor one that is not served. */
  lemma OTAOverStock(w: Work, now: int, h: string)
    requires h in w.st.stockPinned && (h in w.st.otaPinned || h !in w.seen)
    ensures !StockAt(w, now, h).StockCorrected?
  {
  }

  // ----- the whole cycle -----

  /** A host served mid-update: STR, pending, and with a version of its own or none. */
  ghost predicate MidUpdate(s: State, c: Scan, h: string, b: BoxInfo)
    requires Fits(s, c)
  {
    && b.id.kind == STR && b.cycle.otaPending && !b.cycle.strNotRunning
    && OwnVersion(s, c, h, b.agent.version)
  }

  lemma SourceVersion(s: State, c: Scan, h: string)
    requires Sane(s, c)
    ensures var w := SweptBy(s, c).0;
            OwnVersion(s, c, h, PinSource(w.st, w.seen, h).agent.version)
  {
    hide InvBase, KeyedSightings, Fits, SweptBy, ComesTo, DegradedAt, IDAt;
    SweptVersion(s, c, h);
    SweptFrame(s, c);
    RefreshedMemory(s, c, PinID(s, h));
    MinimalBoxID(h, PinID(s, h));
  }

  /**
   A cycle within four minutes of the update serves the host as mid-update and
   keeps the pin, exactly as long as the speaker is still there; if it answered
   elsewhere, its old address is neither served nor cached again.
   */
  lemma OTAPinStep(s: State, c: Scan, h: string)
    requires Sane(s, c) && h in s.otaPinned && c.now - s.otaPinned[h] <= OTA_REBOOT_GRACE
    ensures var r := StepBy(s, c);
            && (h in r.st.otaPinned <==> StillThere(s, c, h))
            && (h in r.st.otaPinned ==>
                && r.st.otaPinned[h] == s.otaPinned[h] && PinID(r.st, h) == PinID(s, h)
                && h in r.seen && MidUpdate(s, c, h, r.seen[h]))
            && (MovedAway(s, c, h) ==> h !in r.seen && h !in r.st.cache && h !in r.st.otaPinned)
  {
    hide InvBase, KeyedSightings, Fits, SweptBy, PinnedBy, RecordedBy, StepBy, MovedAway, NamedElsewhere, TakenOver,
         PinSource, OwnVersion;
    PinsAtHost(s, c, h);
    SourceVersion(s, c, h);
    MovedAtHost(s, c, h);
    StepAt(s, c, h);
    RelabelledIsServed(RecordedBy(s, c), c.now, h);
    if h in PinnedBy(s, c).st.otaPinned { STRFinal(s, c, h); }
  }

  // ----- the marks a held pin caches -----

  /** Nothing is served at the host before the pins have their say: it was not sighted, and what was cached
      there, if anything, is dropped. */
  ghost predicate NothingThere(s: State, c: Scan, h: string) {
    h !in c.seen && (h in s.cache ==> MissedEntry(s.cache[h], c.now).Evicted?)
  }

  /** A held pin caches the marks of the record it starts from: the unreachable one alone is cleared. */
  lemma HeldPinMarks(s: State, c: Scan, h: string)
    requires Sane(s, c) && h in s.otaPinned && c.now - s.otaPinned[h] <= OTA_REBOOT_GRACE && StillThere(s, c, h)
    ensures var w, r := SweptBy(s, c).0, StepBy(s, c);
            var src := PinSource(w.st, w.seen, h);
            && (h in r.st.cache <==> h in w.seen || src.id.deviceID != "")
            && (h in r.st.cache ==>
                var mark := r.st.cache[h].box.cycle;
                && mark.offline == src.cycle.offline && mark.offlineSinceSec == src.cycle.offlineSinceSec
                && mark.otaPending == src.cycle.otaPending && !mark.unreachable && !mark.strNotRunning
                && r.st.cache[h].firstMiss == None && r.st.cache[h].box.id == src.id.(kind := STR))
  {
    hide InvBase, KeyedSightings, Fits, SweptBy, PinnedBy, RecordedBy, StepBy, StillThere, PinSource;
    PinsAtHost(s, c, h);
    STRFinal(s, c, h);
  }

  /** Where the sighting or the memory of a pinned host stands after the first two loops. */
  lemma MissedSource(s: State, c: Scan, h: string)
    requires Sane(s, c) && h in s.otaPinned && StillThere(s, c, h) && h !in c.seen
    ensures var w := SweptBy(s, c).0;
            if NothingThere(s, c, h) then
              && h !in w.seen && w.st.otaPinnedID == s.otaPinnedID
              && (PinID(s, h) != "" ==> Lookup(w.st.strKnown, PinID(s, h)) == Lookup(s.strKnown, PinID(s, h)))
            else Lookup(w.seen, h) == Some(MissedEntry(s.cache[h], c.now).served)
  {
    hide InvBase, KeyedSightings, Fits, SweptBy, Live, NewAddress, MissedEntry, TakenOver, IDAt, DegradedAt;
    SweptMissed(s, c, h);
    SweptFrame(s, c);
    if h in s.cache { EvictedExactlyWhen(s, c, h); }
    var id := PinID(s, h);
    RefreshedMemory(s, c, id);
    SightedLive(s, c, id);
    forall k | k in c.seen && DegradedAt(s, c, k) ensures id == "" || IDAt(s, c, k) != id {
      assert IDAt(s, c, k) == id ==> id == "" || SightedAs(s, c, k, id);
    }
  }

  /**
   The marks a live pin caches at an address the cycle did not sight, exactly.
   Over a missed record: greyed exactly when the miss is older than the grace of
   its kind or the record was, and pending exactly if the record was. Where
   nothing is left: a record exactly if the pin names a speaker, not greyed, and
   pending exactly if the memory of that speaker is.
   */
  lemma PinCachesMarksExactlyWhen(s: State, c: Scan, h: string)
    requires Sane(s, c) && h in s.otaPinned && c.now - s.otaPinned[h] <= OTA_REBOOT_GRACE && StillThere(s, c, h)
    requires h !in c.seen
    ensures var r, id := StepBy(s, c), PinID(s, h);
            if NothingThere(s, c, h) then
              && (h in r.st.cache <==> id != "")
              && (h in r.st.cache ==>
                  && IDOf(r.st.cache[h]) == id && !r.st.cache[h].box.cycle.offline
                  && (r.st.cache[h].box.cycle.otaPending <==> id in s.strKnown && s.strKnown[id].box.cycle.otaPending))
            else
              && h in r.st.cache && h in s.cache
              && (r.st.cache[h].box.cycle.offline <==>
                  s.cache[h].box.cycle.offline
                  || (s.cache[h].firstMiss.Some? && c.now - s.cache[h].firstMiss.value > StickyTTL(s.cache[h].box)))
              && (r.st.cache[h].box.cycle.otaPending <==> s.cache[h].box.cycle.otaPending)
  {
    hide KeyedCache, PinsKeyed, KeyedSightings, Fits, SweptBy, StepBy, StillThere, PinSource;
    MissedSource(s, c, h);
    HeldPinMarks(s, c, h);
    SweptFrame(s, c);
    var w := SweptBy(s, c).0;
    if NothingThere(s, c, h) {
      SourceOfNothing(w.st, w.seen, h);
    } else {
      SourceOfServed(w.st, w.seen, h);
      hide MinimalBox;
    }
  }

  lemma SourceOfNothing(st: State, served: Sightings, h: string)
    requires h !in served && MemoryKeyed(st.strKnown)
    ensures var src, id := PinSource(st, served, h), PinID(st, h);
            && src.id.deviceID == id && !src.cycle.offline
            && (src.cycle.otaPending <==> id in st.strKnown && st.strKnown[id].box.cycle.otaPending)
  {
  }

  lemma SourceOfServed(st: State, served: Sightings, h: string)
    requires h in served
    ensures PinSource(st, served, h) == served[h]
  {
  }

  /** Neither the record the sighting at `h` is merged with nor the one that comes there takes its marks. */
  ghost predicate KeepsMarks(s: State, c: Scan, h: string)
    requires Fits(s, c) && h in c.seen
  {
    && (h in s.cache && !DifferentDevices(s.cache[h].box, c.seen[h]) ==> !DegradesMerge(s.cache[h].box, c.seen[h]))
    && (forall o :: ComesTo(s, c, o, h) ==> !DegradesMerge(s.cache[o].box, EntryAt(s, c, h).box))
  }

  /** At a sighted address a live pin never caches a greyed mark, whatever the cache had, and a pending one
      exactly if the sighting had it and no merge with a record marked "STR not running" took it. */
  lemma SightedPinMarksExactlyWhen(s: State, c: Scan, h: string)
    requires Sane(s, c) && h in s.otaPinned && c.now - s.otaPinned[h] <= OTA_REBOOT_GRACE && StillThere(s, c, h)
    requires h in c.seen && OneArrival(s, c, h)
    ensures var t := StepBy(s, c).st;
            && h in t.cache && !t.cache[h].box.cycle.offline
            && (t.cache[h].box.cycle.otaPending <==> c.seen[h].cycle.otaPending && KeepsMarks(s, c, h))
  {
    hide InvBase, KeyedSightings, Fits, SweptBy, StepBy, StillThere, ComesTo, EntryAt, DegradesMerge, MergeBoxInfo,
         DifferentDevices;
    HeldPinMarks(s, c, h);
    SweptMerged(s, c, h);
    ClearedMarks(s, c, h);
    SourceOfServed(SweptBy(s, c).0.st, SweptBy(s, c).0.seen, h);
    hide PinSource;
    forall o | ComesTo(s, c, o, h) ensures o in s.cache { ComesFrom(s, c, o, h); }
    if o :| ComesTo(s, c, o, h) { CacheMergeMarks(s.cache[o].box, EntryAt(s, c, h).box); }
  }

  lemma ClearedMarks(s: State, c: Scan, h: string)
    requires h in c.seen && h in s.otaPinned
    ensures !EntryAt(s, c, h).box.cycle.offline
    ensures EntryAt(s, c, h).box.cycle.otaPending <==>
            c.seen[h].cycle.otaPending && !(h in s.cache && !DifferentDevices(s.cache[h].box, c.seen[h])
                                            && DegradesMerge(s.cache[h].box, c.seen[h]))
  {
    hide MergeBoxInfo, DifferentDevices, SilentSighting, DegradesMerge;
    if h in s.cache { CacheMergeMarks(s.cache[h].box, c.seen[h]); }
  }

  /** What a missed cycle makes of those marks once the pin has run out: it serves them as they were cached. */
  lemma MarksOutliveThePin(s: State, c: Scan, h: string)
    requires Sane(s, c) && h in s.otaPinned && c.now - s.otaPinned[h] > OTA_REBOOT_GRACE && h !in s.stockPinned
    requires h in s.cache && s.cache[h].box.id.kind == STR && h !in c.seen && !Sighted(s, c, IDOf(s.cache[h]))
    requires MissedEntry(s.cache[h], c.now).Kept?
    ensures var r, e := StepBy(s, c), s.cache[h];
            && h in r.seen && h in r.st.cache && r.st.cache[h].box == e.box && h !in r.st.otaPinned
            && (r.seen[h].cycle.otaPending <==> e.box.cycle.otaPending)
            && (r.seen[h].cycle.offline <==>
                e.box.cycle.offline || (e.firstMiss.Some? && c.now - e.firstMiss.value > StickyTTL(e.box)))
  {
    hide InvBase, KeyedSightings, Fits, SweptBy, PinnedBy, StepBy, Live, HoldPins, Correct, NewAddress, IDAt, Sighted;
    EvictedExactlyWhen(s, c, h);
    SweptMissed(s, c, h);
    SweptFrame(s, c);
    PinnedIs(s, c);
    MissedKindKept(s.cache[h], c.now);
    var (w, moved) := SweptBy(s, c);
    HoldPinsAt(w, moved, Live(s, c), c.now, h);
    CorrectAt(HoldPins(w, moved, Live(s, c), c.now), c.now, h);
    ExpiredDrops(w, moved, Live(s, c), c.now, h);
    STRFinal(s, c, h);
  }

  lemma ExpiredDrops(w: Work, moved: set<string>, live: map<string, string>, now: int, h: string)
    requires h in w.st.otaPinned && now - w.st.otaPinned[h] > OTA_REBOOT_GRACE
    ensures PinAt(w, moved, live, now, h).PinDropped?
  {
  }

  // ----- over a run -----

  /** The event leaves the update at `h` going: no other outcome is reported and the speaker is not found elsewhere. */
  ghost predicate Updating(s: State, e: Event, h: string, t0: int) {
    match e
    case Discover(c, _) => Fits(s, c) && c.now - t0 <= OTA_REBOOT_GRACE && StillThere(s, c, h)
    case OTAStarted(host, _) => host != h
    case OTAFailed(host) => host != h
    case Uninstalled(host, _) => host != h
    case _ => true
  }

  ghost predicate UpdatingRun(s: State, run: seq<Event>, h: string, t0: int) {
    run == [] ||
    (UpdatingRun(s, run[..|run| - 1], h, t0) && Updating(After(s, run[..|run| - 1]), run[|run| - 1], h, t0))
  }

  lemma UpdatingNext(s: State, e: Event, h: string, t0: int)
    requires InvBase(s) && Admissible(s, e) && Lookup(s.otaPinned, h) == Some(t0) && Updating(s, e, h, t0)
    ensures Lookup(Next(s, e).otaPinned, h) == Some(t0) && PinID(Next(s, e), h) == PinID(s, h)
  {
    hide InvBase, KeyedSightings, Fits, StepBy, Discovered, StillThere, UninstalledBox, WithoutHost;
    if e.Discover? {
      OTAPinStep(s, e.scan, h);
      CycleSubset(s, e.scan, e.reachable);
    }
  }

  lemma {:induction false} PinHeldThroughRun(s: State, run: seq<Event>, h: string, t0: int)
    requires InvBase(s) && AdmissibleRun(s, run) && Lookup(s.otaPinned, h) == Some(t0) && UpdatingRun(s, run, h, t0)
    ensures Lookup(After(s, run).otaPinned, h) == Some(t0) && PinID(After(s, run), h) == PinID(s, h)
  {
    hide InvBase, Next, Admissible, Updating, PinID;
    if run != [] {
      var rest := run[..|run| - 1];
      PinHeldThroughRun(s, rest, h, t0);
      InvBaseRun(s, rest);
      UpdatingNext(After(s, rest), run[|run| - 1], h, t0);
    }
  }

  /**
   From the update's start on, every cycle within four minutes either finds the
   speaker still there and serves it mid-update, unless its record is taken for
   another one's duplicate, or drops the pin; a speaker that answered at another
   address is not brought back at the old one.
   */
  lemma UpdatedStaysSTR(s: State, run: seq<Event>, h: string, t0: int, c: Scan, reachable: Option<set<string>>)
    requires InvBase(s) && h != "" && AdmissibleRun(NotePostOTA(s, h, t0), run)
             && UpdatingRun(NotePostOTA(s, h, t0), run, h, t0)
    requires Admissible(After(NotePostOTA(s, h, t0), run), Discover(c, reachable)) && c.now - t0 <= OTA_REBOOT_GRACE
    ensures var t := After(NotePostOTA(s, h, t0), run);
            var r := Discovered(t, c, reachable);
            if StillThere(t, c, h) then
              && h in r.st.otaPinned
              && (h in r.seen <==> Spared(t, c, reachable, h)) && (h in r.seen ==> MidUpdate(t, c, h, r.seen[h]))
            else h !in r.st.otaPinned && (MovedAway(t, c, h) ==> h !in r.seen && h !in r.st.cache)
  {
    hide InvBase, KeyedSightings, Fits, StepBy, AdmissibleRun, UpdatingRun, StillThere, MovedAway, MidUpdate,
         Discovered, Spared;
    InvBaseAside(s, OTAStarted(h, t0));
    var start := NotePostOTA(s, h, t0);
    PinHeldThroughRun(start, run, h, t0);
    InvBaseRun(start, run);
    OTAPinStep(After(start, run), c, h);
    CycleAt(After(start, run), c, reachable, h);
  }
}
