/**
 How long the identity memory lasts: what renews it, exactly and before the
 cycle, that a relabel never does, and how long a speaker that only misses is
 still remembered.
 */
module IdentityMemory {
  import opened BoxRecords
  import opened DiscoveryEvents
  import opened DiscoveryRules
  import opened DiscoveryRun
  import opened DiscoveryScan
  import opened DiscoverySpec
  import opened DiscoveryStep
  import opened FieldPolicy
  import opened Options
  import opened Retention

  /** The missed record at `k` stays listed as an STR one of device `id`: as a held pin makes it, as its agent
      left it under a live post-uninstall pin, or as it was. */
  ghost predicate RenewsMissed(s: State, c: Scan, k: string, id: string) {
    && k in s.cache && k !in c.seen && k !in c.presenceOnly && IDOf(s.cache[k]) == id
    && MissedEntry(s.cache[k], c.now).Kept?
    && if PinWaits(s, c, k) && (PinID(s, k) == "" || BoxIsDevice(s.cache[k].box, PinID(s, k))) then true
       else if PinLive(s, k, c.now) then AgentRecord(s.cache[k].box)
       else s.cache[k].box.id.kind == STR
  }

  /** A held pin names device `id` at an address with nothing left to serve. */
  ghost predicate RenewsPinned(s: State, c: Scan, k: string, id: string) {
    && k !in c.seen && k !in c.presenceOnly && PinID(s, k) == id && PinWaits(s, c, k)
    && (k in s.cache ==> !Sighted(s, c, IDOf(s.cache[k])) && MissedEntry(s.cache[k], c.now).Evicted?)
  }

  // ----- what renews the memory of a device that answered nowhere -----

  lemma RecordsExactlyWhen(s: State, c: Scan, id: string, k: string)
    requires Sane(s, c) && id != "" && !Sighted(s, c, id)
    ensures Records(PinnedBy(s, c).seen, c.presenceOnly, k, id) <==>
            RenewsMissed(s, c, k, id) || RenewsPinned(s, c, k, id)
  {
    hide InvBase, KeyedSightings, Fits, SweptBy, PinnedBy, HoldPins, Correct, Live, IDAt, MissedEntry, BoxIsDevice,
         MemoryKeyed, AgentRecord, Sighted;
    SweptFrame(s, c);
    PinnedIs(s, c);
    SightedLive(s, c, PinID(s, k));
    var (w, moved) := SweptBy(s, c);
    if k in c.seen {
      SightedNot(s, c, k, id);
    } else {
      SweptMissed(s, c, k);
      if k in s.cache {
        MissedKindKept(s.cache[k], c.now);
        SightedLive(s, c, IDOf(s.cache[k]));
        LiveElsewhere(s, c, IDOf(s.cache[k]), k);
      }
      LiveElsewhere(s, c, PinID(s, k), k);
      if k in w.seen {
        ServedPinned(w, moved, Live(s, c), c.now, k);
        SameDevice(s.cache[k].box, w.seen[k], PinID(s, k));
      } else {
        SweptIsServed(s, c);
        AbsentPinned(w, moved, Live(s, c), c.now, k);
      }
    }
  }

  lemma SightedNot(s: State, c: Scan, k: string, id: string)
    requires Sane(s, c) && id != "" && !Sighted(s, c, id) && k in c.seen
    ensures !Records(PinnedBy(s, c).seen, c.presenceOnly, k, id)
  {
    hide InvBase, KeyedSightings, Fits, PinnedBy, IDAt, ServedAt, NewAddress, MissedEntry, PinHolds;
    PinnedIDs(s, c, k);
    assert IDAt(s, c, k) == id ==> SightedAs(s, c, k, id);
  }

  /** A sighting is never at an address the cycle missed. */
  lemma LiveElsewhere(s: State, c: Scan, id: string, k: string)
    requires Sane(s, c) && k !in c.seen
    ensures id in Live(s, c) ==> Live(s, c)[id] != k && id != ""
  {
    hide InvBase, KeyedSightings, Fits, IDAt, Live;
    SightedLive(s, c, id);
  }

  lemma SameDevice(a: BoxInfo, b: BoxInfo, id: string)
    requires a.id == b.id
    ensures BoxIsDevice(a, id) <==> BoxIsDevice(b, id)
    ensures AgentRecord(a) <==> AgentRecord(b)
  {
  }

  /** A device that answered nowhere is renewed exactly by a record that is still listed as an STR one,
      whatever it missed, or by a pin that waits for it. */
  lemma RenewsExactlyWhen(s: State, c: Scan, id: string)
    requires Sane(s, c) && id != "" && !Sighted(s, c, id)
    ensures Renews(s, c, id) <==> exists k :: RenewsMissed(s, c, k, id) || RenewsPinned(s, c, k, id)
  {
    hide InvBase, KeyedSightings, Fits, PinnedBy, Records, RenewsMissed, RenewsPinned, Sighted;
    forall k
      ensures Records(PinnedBy(s, c).seen, c.presenceOnly, k, id) <==>
              RenewsMissed(s, c, k, id) || RenewsPinned(s, c, k, id)
    {
      RecordsExactlyWhen(s, c, id, k);
    }
  }

  /** No pin has a say in what becomes of device `id`. */
  ghost predicate Unpinned(s: State, id: string) {
    && (forall h :: h in s.otaPinnedID ==> s.otaPinnedID[h] != id)
    && (forall k :: k in s.cache && IDOf(s.cache[k]) == id ==> k !in s.otaPinned && k !in s.stockPinned)
  }

  /** With no pin involved: exactly while some cached STR record of it is still within its day. */
  lemma MissRenewsExactlyWhen(s: State, c: Scan, id: string)
    requires Sane(s, c) && id != "" && !Sighted(s, c, id) && Unpinned(s, id)
    ensures Renews(s, c, id) <==>
            exists k :: k in s.cache && k !in c.seen && k !in c.presenceOnly && IDOf(s.cache[k]) == id
                        && s.cache[k].box.id.kind == STR && MissedEntry(s.cache[k], c.now).Kept?
  {
    hide InvBase, KeyedSightings, Fits, MissedEntry, Sighted, Renews;
    RenewsExactlyWhen(s, c, id);
    forall k ensures !RenewsPinned(s, c, k, id) { }
    forall k ensures RenewsMissed(s, c, k, id) <==>
                     k in s.cache && k !in c.seen && k !in c.presenceOnly && IDOf(s.cache[k]) == id
                     && s.cache[k].box.id.kind == STR && MissedEntry(s.cache[k], c.now).Kept?
    {
    }
  }

  // ----- what renews the memory of a device that answered -----

  /** Where a sighted device is served: nowhere but at its sightings. */
  lemma SightedServed(s: State, c: Scan, id: string, k: string)
    requires Sane(s, c) && Sighted(s, c, id)
    ensures k in PinnedBy(s, c).seen && PinnedBy(s, c).seen[k].id.deviceID == id <==> SightedAs(s, c, k, id)
  {
    hide InvBase, KeyedSightings, Fits, PinnedBy, IDAt, MissedEntry, ServedAt, Live;
    PinnedIDs(s, c, k);
    SightedLive(s, c, id);
    if k !in c.seen {
      if PinHolds(s, c, k) { PinnedServedAt(s, c, k); }
      hide PinHolds;
    }
  }

  /** The device answered this cycle, on its stock port alone. */
  ghost predicate PresentOnly(s: State, c: Scan, id: string) {
    Sighted(s, c, id) && forall k :: SightedAs(s, c, k, id) ==> k in c.presenceOnly
  }

  /** A presence-only sighting renews nothing, whatever label the record carries. */
  lemma PresenceRenewsNothing(s: State, c: Scan, id: string)
    requires Sane(s, c) && PresentOnly(s, c, id)
    ensures !Renews(s, c, id)
  {
    hide InvBase, KeyedSightings, Fits, PinnedBy, SightedAs;
    forall k ensures !Records(PinnedBy(s, c).seen, c.presenceOnly, k, id) {
      SightedServed(s, c, id, k);
    }
  }

  /** The sighting or the record counts as STR, and no mark of a missing agent stands against an
      unverified sighting. */
  predicate CountsAsAgent(cached: BoxInfo, b: BoxInfo) {
    && (b.id.kind == STR || cached.id.kind == STR)
    && (cached.cycle.strNotRunning ==> b.id.portVerified || (cached.id.portVerified && cached.id.port != 0))
  }

  /** A sighting of the one speaker at `k` renews it exactly if it is more than a presence of an STR one. */
  lemma SightingRenewsExactlyWhen(s: State, c: Scan, k: string)
    requires Sane(s, c) && Alone(s, k) && Stays(s, c, k) && k in c.seen && IDOf(s.cache[k]) != ""
    requires k !in s.otaPinned && k !in s.stockPinned
    ensures Renews(s, c, IDOf(s.cache[k])) <==>
            k !in c.presenceOnly && CountsAsAgent(s.cache[k].box, c.seen[k])
  {
    hide InvBase, KeyedSightings, Fits, PinnedBy, SweptBy, EntryAt, IDAt, CountsAsAgent;
    StaysSwept(s, c, k);
    UnpinnedBy(s, c, k);
    if k !in c.presenceOnly { ConfirmedKind(s, c, k); }
    forall j | Records(PinnedBy(s, c).seen, c.presenceOnly, j, IDOf(s.cache[k])) ensures j == k {
      AlonePinned(s, c, k, j);
    }
    assert Records(PinnedBy(s, c).seen, c.presenceOnly, k, IDOf(s.cache[k])) <==>
           k !in c.presenceOnly && EntryAt(s, c, k).box.id.kind == STR;
  }

  lemma ConfirmedKind(s: State, c: Scan, k: string)
    requires Stays(s, c, k) && k in c.seen && k !in c.presenceOnly
    ensures EntryAt(s, c, k).box.id.kind == STR <==> CountsAsAgent(s.cache[k].box, c.seen[k])
  {
    hide MergeBoxInfo, EffectiveID, Predecessor;
    assert Predecessor(Lookup(s.cache, k), c.seen[k]) == Some(s.cache[k]) by { SameSpeakerKnown(s, c, k); }
    CacheMergeKind(s.cache[k].box, c.seen[k]);
  }

  /** A relabelled stock sighting is the remembered STR speaker at the address it answered on: the
      memory's version and agent port, this cycle's address and id. */
  lemma RelabelRestores(memo: BoxInfo, b: BoxInfo)
    requires memo.id.kind == STR && !memo.cycle.strNotRunning
    requires b.id.kind == Stock && b.agent.version == "" && b.id.deviceID != ""
    ensures var out := RelabelledBox(memo, b);
            && out.id.kind == STR && out.id.host == b.id.host && out.id.deviceID == b.id.deviceID
            && out.agent.version == memo.agent.version && out.agent.presetRows == memo.agent.presetRows
            && (memo.id.port !in {0, 8090} ==> out.id.port == memo.id.port
                                               && (memo.id.portVerified ==> out.id.portVerified))
            && (memo.id.port in {0, 8090} && !memo.id.portVerified ==> out.id.port == b.id.port)
            && out.cycle == b.cycle
  {
    CacheIdentity(b, memo);
    CacheAgent(b, memo);
    CacheLeavesMarks(b, memo);
    hide MergedIdentity, MergedAgent, MergedCycle, MergedHealth, MergedWarnings, MergedEvents;
  }

  // ----- a missed stock record the memory relabels -----

  /** The memory holds device `id` when the reconcile loop looks: renewed this cycle, or within its day. */
  ghost predicate KnownToCycle(s: State, c: Scan, id: string) {
    || (exists k :: RenewsMissed(s, c, k, id) || RenewsPinned(s, c, k, id))
    || (id in s.strKnown && c.now - s.strKnown[id].seen <= STR_KNOWN_TTL)
  }

  lemma KnownToReconcile(s: State, c: Scan, id: string)
    requires Sane(s, c) && id != "" && !Sighted(s, c, id)
    ensures var known := RecordedBy(s, c).st.strKnown;
            KnownToCycle(s, c, id) <==> id in known && c.now - known[id].seen <= STR_KNOWN_TTL
  {
    hide InvBase, KeyedSightings, Fits, PinnedBy, RecordedBy, Records, RenewsMissed, RenewsPinned, IDAt, DegradedAt;
    RenewsExactlyWhen(s, c, id);
    RecordedMemory(s, c, id);
    assert !DegradesID(s, c, id) by { UnsightedUndegraded(s, c, id); }
  }

  lemma UnsightedUndegraded(s: State, c: Scan, id: string)
    requires id != "" && !Sighted(s, c, id)
    ensures !DegradesID(s, c, id)
  {
    hide IDAt, DegradedAt;
    forall k | k in c.seen ensures IDAt(s, c, k) != id { assert !SightedAs(s, c, k, id); }
  }

  /** The memory takes the missed record at `k` for an STR speaker. */
  ghost predicate RelabelsMissed(s: State, c: Scan, k: string) {
    k in s.cache && s.cache[k].box.id.kind == Stock && IDOf(s.cache[k]) != "" && KnownToCycle(s, c, IDOf(s.cache[k]))
  }

  lemma MissedReconciled(s: State, c: Scan, k: string)
    requires Sane(s, c) && k in s.cache && k !in c.seen && k !in s.otaPinned && k !in s.stockPinned
    requires !Sighted(s, c, IDOf(s.cache[k])) && MissedEntry(s.cache[k], c.now).Kept?
    ensures var p, m := PinnedBy(s, c), MissedEntry(s.cache[k], c.now);
            && Lookup(p.seen, k) == Some(m.served) && Lookup(p.st.cache, k) == Some(m.entry)
            && (RelabelAt(RecordedBy(s, c), c.now, k).Relabelled? <==> RelabelsMissed(s, c, k))
  {
    hide InvBase, KeyedSightings, Fits, SweptBy, PinnedBy, RecordedBy, Live, NewAddress, MissedEntry, KnownToCycle,
         RelabelAt, Sighted;
    RelabelsExactlyWhen(RecordedBy(s, c), c.now, k);
    EvictedExactlyWhen(s, c, k);
    SweptMissed(s, c, k);
    UnpinnedBy(s, c, k);
    MissedKindKept(s.cache[k], c.now);
    StepAt(s, c, k);
    if IDOf(s.cache[k]) != "" { KnownToReconcile(s, c, IDOf(s.cache[k])); }
  }

  /** The marks of a relabelled record are the sighting's own, the miss's ones included. */
  lemma RelabelledMarks(memo: BoxInfo, b: BoxInfo)
    ensures var out := RelabelledBox(memo, b).cycle;
            && out.offline == b.cycle.offline && out.offlineSinceSec == b.cycle.offlineSinceSec
            && out.unreachable == b.cycle.unreachable && (out.otaPending ==> b.cycle.otaPending)
  {
    CacheMergeMarks(memo, b);
    hide MergeBoxInfo;
  }

  lemma MissedMarks(e: Entry, now: int)
    requires MissedEntry(e, now).Kept?
    ensures var m := MissedEntry(e, now);
            && m.served.cycle.unreachable && m.entry.firstMiss.Some?
            && (m.served.cycle.offline <==> e.box.cycle.offline
                                            || (e.firstMiss.Some? && now - e.firstMiss.value > StickyTTL(e.box)))
  {
  }

  /**
   The cached record of a missed speaker with no pin on it stays clean, with its
   miss streak running, exactly unless it is a stock record whose device the
   memory holds when the cycle reconciles. Then what is cached is the served
   copy, relabelled: marked unreachable, greyed if the miss was past its grace,
   and with no streak, so that its day of retention starts over.
   */
  lemma MissedStaysCleanExactlyUnless(s: State, c: Scan, k: string)
    requires Sane(s, c) && k in s.cache && k !in c.seen && k !in s.otaPinned && k !in s.stockPinned
    requires !Sighted(s, c, IDOf(s.cache[k])) && MissedEntry(s.cache[k], c.now).Kept?
    ensures var r, e, m := StepBy(s, c), s.cache[k], MissedEntry(s.cache[k], c.now);
            && k in r.st.cache && k in r.seen
            && (r.st.cache[k].box != e.box <==> RelabelsMissed(s, c, k))
            && (r.st.cache[k].firstMiss == None <==> RelabelsMissed(s, c, k))
            && (!RelabelsMissed(s, c, k) ==> r.st.cache[k] == m.entry && r.seen[k] == m.served)
            && (RelabelsMissed(s, c, k) ==>
                && r.st.cache[k] == NewEntry(r.seen[k], c.now)
                && r.seen[k].id.kind == STR && r.seen[k].id.host == k && r.seen[k].id.deviceID == IDOf(e)
                && r.seen[k].cycle.unreachable
                && (r.seen[k].cycle.offline <==>
                    e.box.cycle.offline || (e.firstMiss.Some? && c.now - e.firstMiss.value > StickyTTL(e.box))))
  {
    hide KeyedSightings, Fits, PinnedBy, RecordedBy, StepBy, MissedEntry, RelabelAt, RelabelledBox, KnownToCycle,
         Sighted, MemoryKeyed, PinsKeyed;
    MissedReconciled(s, c, k);
    MissedKindKept(s.cache[k], c.now);
    MissedMarks(s.cache[k], c.now);
    StepAt(s, c, k);
    if RelabelsMissed(s, c, k) {
      var p, r := PinnedBy(s, c), StepBy(s, c);
      var memo :| RelabelledBy(p, r, c.now, k, memo);
      RelabelBoxID(memo, p.seen[k]);
      RelabelledMarks(memo, p.seen[k]);
    }
  }

  // ----- over a run: a device that is present and never confirmed -----

  /** Every cycle finds the device present, and only that. */
  ghost predicate OnlyPresent(s: State, run: seq<Event>, id: string) {
    run == [] ||
    (OnlyPresent(s, run[..|run| - 1], id)
     && (run[|run| - 1].Discover? ==> PresentOnly(After(s, run[..|run| - 1]), run[|run| - 1].scan, id)))
  }

  /** The event drops a memory of `id` last renewed at `t`. */
  ghost predicate Forgets(s: State, e: Event, id: string, t: int) {
    match e
    case Discover(c, _) => c.now - t > STR_KNOWN_TTL || DegradesID(s, c, id)
    case Uninstalled(host, _) => host != "" && id !in WithoutHost(s, host)
    case Forgotten(host) => host != "" && id !in WithoutHost(s, host)
    case _ => false
  }

  /** No event so far dropped the memory. */
  ghost predicate Unforgotten(s: State, run: seq<Event>, id: string, t: int) {
    run == [] ||
    (Unforgotten(s, run[..|run| - 1], id, t) && !Forgets(After(s, run[..|run| - 1]), run[|run| - 1], id, t))
  }

  lemma MemoryNext(s: State, e: Event, id: string, t: int)
    requires InvBase(s) && Admissible(s, e) && (id in s.strKnown ==> s.strKnown[id].seen == t)
    requires e.Discover? ==> PresentOnly(s, e.scan, id)
    ensures id in Next(s, e).strKnown <==> id in s.strKnown && !Forgets(s, e, id, t)
    ensures id in Next(s, e).strKnown ==> Next(s, e).strKnown[id].seen == t
  {
    hide InvBase, StepBy, KeyedSightings, Fits, PresentOnly, DegradesID, UninstalledBox, Deduped;
    if e.Discover? {
      MemoryStep(s, e.scan, id);
      PresenceRenewsNothing(s, e.scan, id);
      CycleSubset(s, e.scan, e.reachable);
    }
  }

  /**
   A device that every cycle finds present but never confirms keeps its memory
   with its old age, and loses it in the first cycle more than a day after that
   or at its degrade, whichever comes first, and for good.
   */
  lemma {:induction false} UnconfirmedMemory(s: State, run: seq<Event>, id: string)
    requires InvBase(s) && AdmissibleRun(s, run) && id in s.strKnown && OnlyPresent(s, run, id)
    ensures var known := After(s, run).strKnown;
            && (id in known <==> Unforgotten(s, run, id, s.strKnown[id].seen))
            && (id in known ==> known[id].seen == s.strKnown[id].seen)
  {
    hide InvBase, Next, Admissible, PresentOnly, Forgets;
    if run != [] {
      var rest := run[..|run| - 1];
      UnconfirmedMemory(s, rest, id);
      InvBaseRun(s, rest);
      MemoryNext(After(s, rest), run[|run| - 1], id, s.strKnown[id].seen);
    }
  }

  // ----- over a run: a device that only misses -----

  /** The STR record of device `id` at `k`, the only one of it, with no pin on it. */
  ghost predicate Listed(s: State, k: string, id: string) {
    && Alone(s, k) && IDOf(s.cache[k]) == id != "" && s.cache[k].box.id.kind == STR
    && k !in s.otaPinned && k !in s.stockPinned
  }

  /** Nothing cached and no pin is of device `id`. */
  ghost predicate Unlisted(s: State, id: string) {
    && (forall j :: j in s.cache ==> IDOf(s.cache[j]) != id)
    && (forall h :: h in s.otaPinnedID ==> s.otaPinnedID[h] != id)
  }

  /** No cycle sights device `id`, nor takes its record at `k` for another one's or gives its address away
      while it is listed, and nothing else is done to it. */
  ghost predicate NotFound(s: State, e: Event, k: string, id: string) {
    match e
    case Discover(c, reachable) =>
      && Fits(s, c) && !Sighted(s, c, id) && c.presenceOnly <= c.seen.Keys
      && (Listed(s, k, id) ==> k !in c.seen && Spared(s, c, reachable, k))
    case OTAStarted(host, _) => host != k
    case Added(b, _) => b.id.host != k && b.id.deviceID != id
    case _ => Elsewhere(s, e, k)
  }

  ghost predicate NotFoundRun(s: State, run: seq<Event>, k: string, id: string) {
    run == [] ||
    (NotFoundRun(s, run[..|run| - 1], k, id) && NotFound(After(s, run[..|run| - 1]), run[|run| - 1], k, id))
  }

  /** The time of the last cycle of a run, of all or of those within a day of `t0`. */
  function LastCycle(run: seq<Event>): Option<int> {
    if run == [] then None
    else if run[|run| - 1].Discover? then Some(run[|run| - 1].scan.now)
    else LastCycle(run[..|run| - 1])
  }

  function LastWithinADay(run: seq<Event>, t0: int): Option<int> {
    if run == [] then None
    else if run[|run| - 1].Discover? && run[|run| - 1].scan.now - t0 <= OFFLINE_RETENTION
    then Some(run[|run| - 1].scan.now)
    else LastWithinADay(run[..|run| - 1], t0)
  }

  /** The clock of the cycles does not go back. */
  ghost predicate Forward(run: seq<Event>) {
    run == [] ||
    (Forward(run[..|run| - 1])
     && (run[|run| - 1].Discover? && LastCycle(run[..|run| - 1]).Some? ==>
         run[|run| - 1].scan.now >= LastCycle(run[..|run| - 1]).value))
  }

  /** What is remembered of `id` is its record at `k`, last renewed at `t`. */
  ghost predicate RememberedAt(s: State, k: string, id: string, t: int) {
    id in s.strKnown ==> s.strKnown[id].seen == t && s.strKnown[id].box.id.host == k
  }

  /** A listed record that misses and is kept renews the memory; one that is evicted leaves it as it was. */
  lemma ListedStep(s: State, c: Scan, k: string, id: string)
    requires Sane(s, c) && Listed(s, k, id) && !Sighted(s, c, id) && c.presenceOnly <= c.seen.Keys && k !in c.seen
    ensures var t := StepBy(s, c).st;
            if MissedEntry(s.cache[k], c.now).Kept? then
              && Lookup(t.cache, k) == Some(MissedEntry(s.cache[k], c.now).entry) && Listed(t, k, id)
              && id in t.strKnown && RememberedAt(t, k, id, c.now)
            else
              && Unlisted(t, id)
              && Lookup(t.strKnown, id) == (if id in s.strKnown && c.now - s.strKnown[id].seen <= STR_KNOWN_TTL
                                            then Some(s.strKnown[id]) else None)
  {
    hide InvBase, KeyedSightings, Fits, PinnedBy, StepBy, SweptBy, IDAt, MissedEntry, Alone, Records, Stays, DegradesID;
    ListedMisses(s, c, k, id);
    AloneCached(s, k);
    MissedStep(s, c, k);
    MissedKindKept(s.cache[k], c.now);
    StepPins(s, c);
    ListedMemory(s, c, k, id);
    if MissedEntry(s.cache[k], c.now).Kept? {
      AloneStep(s, c, k);
    } else {
      EvictedUnlisted(s, c, k, id);
    }
  }

  lemma ListedMisses(s: State, c: Scan, k: string, id: string)
    requires Listed(s, k, id) && !Sighted(s, c, id) && k !in c.seen
    ensures Silent(s, c, k) && Stays(s, c, k) && Unguarded(s, k)
  {
    hide IDAt;
    forall j | j in c.seen ensures IDAt(s, c, j) != id {
      assert !SightedAs(s, c, j, id);
    }
  }

  /** What the pins serve of it is the missed record. */
  lemma ListedServed(s: State, c: Scan, k: string, id: string, j: string)
    requires Sane(s, c) && Listed(s, k, id) && !Sighted(s, c, id) && k !in c.seen
    requires j in PinnedBy(s, c).seen && PinnedBy(s, c).seen[j].id.deviceID == id
    ensures j == k && MissedEntry(s.cache[k], c.now).Kept? && PinnedBy(s, c).seen[k].id == s.cache[k].box.id
  {
    hide InvBase, Fits, PinnedBy, SweptBy, IDAt, MissedEntry, Alone, Stays;
    ListedMisses(s, c, k, id);
    AlonePinned(s, c, k, j);
    StaysSwept(s, c, k);
    UnpinnedBy(s, c, k);
    AloneCached(s, k);
    MissedKindKept(s.cache[k], c.now);
  }

  lemma ListedMemory(s: State, c: Scan, k: string, id: string)
    requires Sane(s, c) && Listed(s, k, id) && !Sighted(s, c, id) && c.presenceOnly <= c.seen.Keys && k !in c.seen
    ensures var known := StepBy(s, c).st.strKnown;
            if MissedEntry(s.cache[k], c.now).Kept? then
              id in known && known[id].seen == c.now && known[id].box.id.host == k
            else Lookup(known, id) == (if id in s.strKnown && c.now - s.strKnown[id].seen <= STR_KNOWN_TTL
                                       then Some(s.strKnown[id]) else None)
  {
    hide Fits, PinnedBy, StepBy, SweptBy, RecordedBy, IDAt, MissedEntry, Alone, PinsKeyed, MemoryKeyed, Stays;
    AloneCached(s, k);
    forall j | j in PinnedBy(s, c).seen && PinnedBy(s, c).seen[j].id.deviceID == id
      ensures j == k && MissedEntry(s.cache[k], c.now).Kept? && PinnedBy(s, c).seen[k].id == s.cache[k].box.id
    {
      ListedServed(s, c, k, id, j);
    }
    StepMemoryAs(s, c, id);
    RecordedMemory(s, c, id);
    if MissedEntry(s.cache[k], c.now).Kept? {
      ListedMisses(s, c, k, id);
      StaysSwept(s, c, k);
      UnpinnedBy(s, c, k);
      MissedKindKept(s.cache[k], c.now);
      assert Records(PinnedBy(s, c).seen, c.presenceOnly, k, id);
    } else {
      assert !DegradesID(s, c, id) by {
        forall j | j in c.seen ensures IDAt(s, c, j) != id { assert !SightedAs(s, c, j, id); }
      }
    }
  }

  lemma EvictedUnlisted(s: State, c: Scan, k: string, id: string)
    requires Sane(s, c) && Listed(s, k, id) && !Sighted(s, c, id) && k !in c.seen && k !in StepBy(s, c).st.cache
    ensures Unlisted(StepBy(s, c).st, id)
  {
    hide InvBase, Fits, KeyedSightings, StepBy, IDAt, MissedEntry, PinHolds;
    StepPins(s, c);
    var t := StepBy(s, c).st;
    forall j | j in t.cache ensures IDOf(t.cache[j]) != id {
      StepCachedID(s, c, j);
      assert j in c.seen ==> (IDAt(s, c, j) == id ==> SightedAs(s, c, j, id));
    }
  }

  /** A device nothing is listed of keeps its memory, with its age, until the first cycle a day after that. */
  lemma UnlistedStep(s: State, c: Scan, id: string)
    requires Sane(s, c) && Unlisted(s, id) && id != "" && !Sighted(s, c, id)
    ensures var t := StepBy(s, c).st;
            && Unlisted(t, id)
            && Lookup(t.strKnown, id) == (if id in s.strKnown && c.now - s.strKnown[id].seen <= STR_KNOWN_TTL
                                          then Some(s.strKnown[id]) else None)
  {
    hide InvBase, Fits, KeyedSightings, PinnedBy, StepBy, IDAt, MissedEntry, PinHolds, RecordedBy;
    StepPins(s, c);
    var t := StepBy(s, c).st;
    forall j | j in c.seen ensures IDAt(s, c, j) != id { assert !SightedAs(s, c, j, id); }
    forall j | j in t.cache ensures IDOf(t.cache[j]) != id {
      StepCachedID(s, c, j);
    }
    forall j | j in PinnedBy(s, c).seen ensures PinnedBy(s, c).seen[j].id.deviceID != id {
      SweptMissedOrNot(s, c, j);
      if j in c.seen { PinnedSightedID(s, c, j); }
    }
    StepMemoryAs(s, c, id);
    RecordedMemory(s, c, id);
  }

  lemma ListedNext(s: State, e: Event, k: string, id: string)
    requires InvBase(s) && Admissible(s, e) && NotFound(s, e, k, id) && Listed(s, k, id) && e.Discover?
    ensures var t := Next(s, e);
            if MissedEntry(s.cache[k], e.scan.now).Kept? then
              && Lookup(t.cache, k) == Some(MissedEntry(s.cache[k], e.scan.now).entry) && Listed(t, k, id)
              && id in t.strKnown && RememberedAt(t, k, id, e.scan.now)
            else
              && Unlisted(t, id)
              && Lookup(t.strKnown, id) == (if id in s.strKnown && e.scan.now - s.strKnown[id].seen <= STR_KNOWN_TTL
                                            then Some(s.strKnown[id]) else None)
  {
    hide InvBase, KeyedSightings, Fits, StepBy, Discovered, MissedEntry, Sighted, Alone, Spared;
    AloneCached(s, k);
    ListedStep(s, e.scan, k, id);
    CycleAt(s, e.scan, e.reachable, k);
    CycleSubset(s, e.scan, e.reachable);
    if MissedEntry(s.cache[k], e.scan.now).Kept? {
      AloneFewer(StepBy(s, e.scan).st, Next(s, e), k);
    }
  }

  lemma UnlistedNext(s: State, e: Event, k: string, id: string)
    requires InvBase(s) && Admissible(s, e) && NotFound(s, e, k, id) && Unlisted(s, id) && id != "" && e.Discover?
    ensures var t := Next(s, e);
            && Unlisted(t, id)
            && Lookup(t.strKnown, id) == (if id in s.strKnown && e.scan.now - s.strKnown[id].seen <= STR_KNOWN_TTL
                                          then Some(s.strKnown[id]) else None)
  {
    hide InvBase, KeyedSightings, Fits, StepBy, Discovered, Sighted, Spared;
    UnlistedStep(s, e.scan, id);
    CycleSubset(s, e.scan, e.reachable);
  }

  /** Other events neither list nor forget it. */
  lemma ListedAside(s: State, e: Event, k: string, id: string)
    requires Admissible(s, e) && NotFound(s, e, k, id) && Listed(s, k, id) && !e.Discover?
    ensures var t := Next(s, e);
            Listed(t, k, id) && Lookup(t.cache, k) == Lookup(s.cache, k)
    ensures forall x :: RememberedAt(s, k, id, x) ==> RememberedAt(Next(s, e), k, id, x)
    ensures id in s.strKnown && s.strKnown[id].box.id.host == k ==> id in Next(s, e).strKnown
  {
    hide Alone, Next, Admissible;
    assert Elsewhere(s, e, k);
    AloneCached(s, k);
    AloneAside(s, e, k);
    AloneCached(Next(s, e), k);
    SameAside(s, e, k);
    KnownAside(s, e);
    MemoryAside(s, e, k, id) by { ListedOnly(s, k, id); }
  }

  lemma ListedOnly(s: State, k: string, id: string)
    requires Listed(s, k, id)
    ensures forall j :: j in s.cache && IDOf(s.cache[j]) == id ==> j == k
  {
  }

  lemma UnlistedAside(s: State, e: Event, k: string, id: string)
    requires NotFound(s, e, k, id) && Unlisted(s, id) && id != "" && !e.Discover?
    ensures Unlisted(Next(s, e), id)
    ensures forall x :: RememberedAt(s, k, id, x) ==> RememberedAt(Next(s, e), k, id, x)
    ensures id in s.strKnown && s.strKnown[id].box.id.host == k ==> id in Next(s, e).strKnown
    ensures id !in s.strKnown ==> id !in Next(s, e).strKnown
  {
    KnownAside(s, e);
    MemoryAside(s, e, k, id);
    match e
    case Uninstalled(host, now) =>
      UninstalledIDs(s, host, now);
      hide UninstalledBox, WithoutHost, IDOf;
    case _ => hide MarkHostStock, WithoutHost;
  }

  lemma MemoryAside(s: State, e: Event, k: string, id: string)
    requires NotFound(s, e, k, id) && !e.Discover? && (forall j :: j in s.cache && IDOf(s.cache[j]) == id ==> j == k)
    ensures id in s.strKnown && s.strKnown[id].box.id.host == k ==>
            id in Next(s, e).strKnown && Next(s, e).strKnown[id] == s.strKnown[id]
  {
    hide UninstalledBox, Listed;
  }

  /** Where the memory of a speaker that only misses stands after cycles at `last`, the first of them at
      `t0` and the last within a day of that at `renewed`. */
  ghost predicate MissedFor(t: State, k: string, id: string, t0: int, last: int, renewed: int) {
    && (last - t0 <= OFFLINE_RETENTION ==> renewed == last && Listed(t, k, id) && t.cache[k].firstMiss == Some(t0))
    && (last - t0 > OFFLINE_RETENTION ==> Unlisted(t, id))
    && (id in t.strKnown <==> last - renewed <= STR_KNOWN_TTL)
    && RememberedAt(t, k, id, renewed)
  }

  lemma MissedForNext(s: State, e: Event, k: string, id: string, t0: int, last: int, renewed: int)
    requires InvBase(s) && Admissible(s, e) && NotFound(s, e, k, id) && id != ""
    requires MissedFor(s, k, id, t0, last, renewed) && t0 <= renewed <= last && (e.Discover? ==> e.scan.now >= last)
    ensures if e.Discover? then
              MissedFor(Next(s, e), k, id, t0, e.scan.now,
                        if e.scan.now - t0 <= OFFLINE_RETENTION then e.scan.now else renewed)
            else MissedFor(Next(s, e), k, id, t0, last, renewed)
  {
    hide InvBase, Admissible, NotFound, Listed, Unlisted, Next, Elsewhere;
    if last - t0 <= OFFLINE_RETENTION {
      ListedCached(s, k, id);
      if e.Discover? {
        ListedNext(s, e, k, id);
        ListedCached(Next(s, e), k, id) by { if !Listed(Next(s, e), k, id) { } }
      } else {
        ListedAside(s, e, k, id);
        ListedCached(Next(s, e), k, id);
      }
    } else if e.Discover? {
      UnlistedNext(s, e, k, id);
    } else {
      UnlistedAside(s, e, k, id);
    }
  }

  lemma ListedCached(s: State, k: string, id: string)
    ensures Listed(s, k, id) ==> k in s.cache
  {
  }

  /**
   A speaker that only misses: it stays listed through the cycles of a day
   from its first miss, each of which renews its memory; the memory then lasts
   through the cycles of a day from the last of those, and goes in the first
   cycle after.
   */
  lemma {:induction false} MemoryWhileMissing(s: State, run: seq<Event>, k: string, id: string)
    requires InvBase(s) && AdmissibleRun(s, run) && NotFoundRun(s, run, k, id) && Forward(run)
    requires Listed(s, k, id) && s.cache[k].firstMiss == None
    ensures match FirstCycle(run)
            case None => LastCycle(run) == None && Listed(After(s, run), k, id) && After(s, run).cache[k] == s.cache[k]
            case Some(t0) =>
              && LastCycle(run).Some? && LastWithinADay(run, t0).Some?
              && t0 <= LastWithinADay(run, t0).value <= LastCycle(run).value
              && MissedFor(After(s, run), k, id, t0, LastCycle(run).value, LastWithinADay(run, t0).value)
  {
    hide InvBase, Admissible, NotFound, Listed, Unlisted, Next;
    ListedCached(s, k, id);
    if run != [] {
      var rest, e := run[..|run| - 1], run[|run| - 1];
      MemoryWhileMissing(s, rest, k, id);
      InvBaseRun(s, rest);
      var mid := After(s, rest);
      ListedCached(mid, k, id);
      ListedNamed(s, k, id);
      match FirstCycle(rest)
      case Some(t0) =>
        MissedForNext(mid, e, k, id, t0, LastCycle(rest).value, LastWithinADay(rest, t0).value);
      case None =>
        if e.Discover? {
          ListedNext(mid, e, k, id);
          ListedCached(Next(mid, e), k, id);
        } else {
          ListedAside(mid, e, k, id);
          ListedCached(Next(mid, e), k, id);
        }
    }
  }

  lemma ListedNamed(s: State, k: string, id: string)
    requires Listed(s, k, id)
    ensures id != ""
  {
  }
}
