/**
 The pin an uninstall sets: for a quarter of an hour the host is a stock
 speaker whatever announcements say, and it is not remembered as STR again.
 */
module StockPin {
  import opened BoxRecords
  import opened DiscoveryEvents
  import opened DiscoveryInvariant
  import opened DiscoveryRules
  import opened DiscoveryRun
  import opened DiscoveryScan
  import opened DiscoverySpec
  import opened DiscoveryStep
  import opened FieldPolicy
  import opened Options

  // ----- what lifts the pin -----

  /** The agent of the sighted record, or of the one that comes to it, answered on a verified port. */
  ghost predicate LiftsPin(s: State, c: Scan, h: string)
    requires Fits(s, c) && h in c.seen
  {
    var e := EntryAt(s, c, h).box;
    || (AgentRecord(e) && forall o :: !ComesTo(s, c, o, h))
    || exists o :: ComesTo(s, c, o, h)
                   && (s.cache[o].box.id.kind == STR || e.id.kind == STR)
                   && (e.id.portVerified || (s.cache[o].box.id.portVerified && s.cache[o].box.id.port != 0))
  }

  lemma MergedAgentRecord(prev: BoxInfo, cur: BoxInfo)
    ensures AgentRecord(MergeBoxInfo(prev, cur)) <==>
            (prev.id.kind == STR || cur.id.kind == STR)
              && (cur.id.portVerified || (prev.id.portVerified && prev.id.port != 0))
  {
    hide MergeBoxInfo;
    CacheMergeKind(prev, cur);
  }

  /** What stands at a sighted host before the pins have their say. */
  lemma SweptAgentRecord(s: State, c: Scan, h: string)
    requires Sane(s, c) && h in c.seen && OneArrival(s, c, h)
    ensures var w := SweptBy(s, c).0;
            h in w.seen && (AgentRecord(w.seen[h]) <==> LiftsPin(s, c, h))
  {
    hide InvBase, KeyedSightings, Fits, SweptBy, EntryAt, ComesTo, MergeBoxInfo, AgentRecord;
    SweptMerged(s, c, h);
    var e := EntryAt(s, c, h).box;
    forall o | ComesTo(s, c, o, h)
      ensures o in s.cache
      ensures AgentRecord(MergeBoxInfo(s.cache[o].box, e)) <==>
              (s.cache[o].box.id.kind == STR || e.id.kind == STR)
              && (e.id.portVerified || (s.cache[o].box.id.portVerified && s.cache[o].box.id.port != 0))
    {
      ComesFrom(s, c, o, h);
      MergedAgentRecord(s.cache[o].box, e);
    }
  }

  // ----- the pin -----

  /** An address with no OTA pin after the pins had their say. */
  lemma StockPinnedBy(s: State, c: Scan, h: string)
    requires Sane(s, c) && h !in s.otaPinned
    ensures var w, p := SweptBy(s, c).0, PinnedBy(s, c);
            var at := if h in s.stockPinned then StockCycle(s.stockPinned[h], Lookup(w.seen, h), false, c.now)
                      else StockKept;
            && h !in p.st.otaPinned
            && Lookup(p.seen, h) == (if at.StockCorrected? then Some(at.box) else Lookup(w.seen, h))
            && Lookup(p.st.cache, h) ==
               (if at.StockCorrected? then Some(CorrectedEntry(Lookup(w.st.cache, h), at.box, c.now))
                 else Lookup(w.st.cache, h))
            && Lookup(p.st.stockPinned, h) == (if at.StockDropped? then None else Lookup(s.stockPinned, h))
  {
    hide InvBase, KeyedSightings, Fits, SweptBy, Live, HoldPins, Correct, CorrectedEntry, StockCycle;
    SweptFrame(s, c);
    PinnedIs(s, c);
    var (w, moved) := SweptBy(s, c);
    HoldPinsAt(w, moved, Live(s, c), c.now, h);
    CorrectAt(HoldPins(w, moved, Live(s, c), c.now), c.now, h);
  }

  /** What a missed address leaves standing there. */
  lemma MissedStands(s: State, c: Scan, h: string)
    requires Sane(s, c) && h !in c.seen
    ensures var w := SweptBy(s, c).0;
            && (h in w.seen <==> h in s.cache && NewAddress(s.cache[h], h, Live(s, c)).None?
                                 && MissedEntry(s.cache[h], c.now).Kept?)
            && (h in w.seen <==> h in w.st.cache)
            && (h in w.seen ==> h in s.cache && w.st.cache[h].box == s.cache[h].box && w.seen[h].id == s.cache[h].box.id
                                && w.seen[h].agent == s.cache[h].box.agent
                                && w.seen[h].cycle.strNotRunning == s.cache[h].box.cycle.strNotRunning)
  {
    hide InvBase, KeyedSightings, Fits, SweptBy, NewAddress, MissedEntry, Live;
    SweptMissed(s, c, h);
    if h in s.cache { MissedKindKept(s.cache[h], c.now); }
  }

  /** A live pin is lifted by a cycle exactly when an agent answered there or came there: what else is
      sighted, taken over or announced at the address leaves it. */
  lemma PinLiftedExactlyWhen(s: State, c: Scan, h: string)
    requires Sane(s, c) && h !in s.otaPinned && PinLive(s, h, c.now) && OneArrival(s, c, h)
    ensures h !in StepBy(s, c).st.stockPinned <==>
            if h in c.seen then LiftsPin(s, c, h)
            else && h in s.cache && !Sighted(s, c, IDOf(s.cache[h])) && MissedEntry(s.cache[h], c.now).Kept?
                 && AgentRecord(s.cache[h].box)
  {
    hide InvBase, KeyedSightings, Fits, SweptBy, PinnedBy, StepBy, Live, LiftsPin, ComesTo, NewAddress, MissedEntry;
    StockPinnedBy(s, c, h);
    StepAt(s, c, h);
    if h in c.seen {
      SweptAgentRecord(s, c, h);
    } else {
      MissedStands(s, c, h);
      if h in s.cache { EvictedExactlyWhen(s, c, h); }
    }
    hide Sighted;
  }

  // ----- while the pin is live -----

  /** A stock record: no version of an agent, no mark of a missing one. */
  predicate StockBox(b: BoxInfo) {
    b.id.kind == Stock && b.agent.version == "" && !b.cycle.strNotRunning
  }

  /** The host is pinned since `t0` and cached, if at all, as a stock speaker. */
  ghost predicate WithPin(s: State, h: string, t0: int) {
    && h !in s.otaPinned && Lookup(s.stockPinned, h) == Some(t0)
    && (h in s.cache ==> StockBox(s.cache[h].box))
  }

  /** No agent answers at the host, nor comes there. */
  ghost predicate Unlifted(s: State, c: Scan, h: string)
    requires Fits(s, c)
  {
    h in c.seen ==> OneArrival(s, c, h) && !LiftsPin(s, c, h)
  }

  lemma CorrectedStock(b: BoxInfo, cached: Option<Entry>, now: int)
    ensures StockBox(CorrectedBox(b)) && StockBox(CorrectedEntry(cached, CorrectedBox(b), now).box)
    ensures PlainStock(CorrectedBox(b)) && PlainStock(CorrectedEntry(cached, CorrectedBox(b), now).box)
    ensures CorrectedBox(b).id.deviceID == b.id.deviceID
    ensures CorrectedEntry(cached, CorrectedBox(b), now).box.id == CorrectedBox(b).id
  {
  }

  /** A cycle with the pin live and no agent there serves a stock speaker, whoever it sighted, and keeps the pin. */
  lemma PinnedStep(s: State, c: Scan, h: string, t0: int)
    requires Sane(s, c) && WithPin(s, h, t0) && c.now - t0 <= STOCK_PIN_GRACE && Unlifted(s, c, h)
    ensures var r := StepBy(s, c);
            WithPin(r.st, h, t0) && (h in r.seen ==> StockBox(r.seen[h]))
  {
    hide InvBase, KeyedSightings, Fits, SweptBy, PinnedBy, RecordedBy, StepBy, Live, LiftsPin, OneArrival, ComesTo,
         NewAddress, MissedEntry, CorrectedBox, CorrectedEntry, EntryAt;
    StockPinnedBy(s, c, h);
    var w := SweptBy(s, c).0;
    if h in c.seen {
      SweptAgentRecord(s, c, h);
      SweptSighted(s, c, h);
    } else {
      MissedStands(s, c, h);
    }
    if h in w.seen { CorrectedStock(w.seen[h], Lookup(w.st.cache, h), c.now); }
    StepAt(s, c, h);
    StepKeeps(s, c, h);
  }

  /** Under a live pin a sighted host is served as STR exactly if the agent answered there or came there. */
  lemma ServedSTRExactlyWhen(s: State, c: Scan, h: string)
    requires Sane(s, c) && h !in s.otaPinned && PinLive(s, h, c.now) && h in c.seen && OneArrival(s, c, h)
    ensures h in StepBy(s, c).seen && (StepBy(s, c).seen[h].id.kind == STR <==> LiftsPin(s, c, h))
  {
    hide InvBase, KeyedSightings, Fits, SweptBy, PinnedBy, RecordedBy, StepBy, LiftsPin, OneArrival, CorrectedBox,
         CorrectedEntry, EntryAt, RelabelAt;
    SweptAgentRecord(s, c, h);
    StockPinnedBy(s, c, h);
    CorrectedStock(SweptBy(s, c).0.seen[h], None, c.now);
    StepAt(s, c, h);
    RelabelledIsServed(RecordedBy(s, c), c.now, h);
  }

  /** A missed host under a live pin keeps the miss streak it had, corrected or not: the pin gives it no second day. */
  lemma PinKeepsStreak(s: State, c: Scan, h: string)
    requires Sane(s, c) && h !in s.otaPinned && PinLive(s, h, c.now) && h in s.cache && h !in c.seen
    requires !Sighted(s, c, IDOf(s.cache[h])) && MissedEntry(s.cache[h], c.now).Kept? && !AgentRecord(s.cache[h].box)
    ensures var t := StepBy(s, c).st;
            && h in t.cache && h in t.stockPinned
            && t.cache[h].firstMiss == (if s.cache[h].firstMiss.None? then Some(c.now) else s.cache[h].firstMiss)
  {
    hide InvBase, KeyedSightings, Fits, SweptBy, PinnedBy, RecordedBy, StepBy, Live, NewAddress, CorrectedBox,
         RelabelAt, Sighted;
    EvictedExactlyWhen(s, c, h);
    SweptMissed(s, c, h);
    MissedKindKept(s.cache[h], c.now);
    StockPinnedBy(s, c, h);
    StepAt(s, c, h);
    RelabelledIsServed(RecordedBy(s, c), c.now, h);
  }

  /** A host that is served mid-update loses a post-uninstall pin. */
  lemma UpdateLiftsPin(s: State, c: Scan, h: string)
    requires Sane(s, c) && PinHolds(s, c, h)
    ensures h !in StepBy(s, c).st.stockPinned
  {
    hide InvBase, KeyedSightings, Fits, SweptBy, PinnedBy, StepBy, Live, HoldPins, Correct, PinAt, RelabelAt;
    SweptFrame(s, c);
    PinnedIs(s, c);
    var (w, moved) := SweptBy(s, c);
    HoldPinsAt(w, moved, Live(s, c), c.now, h);
    CorrectAt(HoldPins(w, moved, Live(s, c), c.now), c.now, h);
    StepAt(s, c, h);
  }

  /** A remembered STR speaker that answers at the address is served as stock, though STR was never removed
      from it, exactly unless its agent answered or came there; its memory stays in either case. */
  lemma PinHidesSTRExactlyUnless(s: State, c: Scan, h: string, id: string)
    requires Sane(s, c) && h !in s.otaPinned && PinLive(s, h, c.now) && OneArrival(s, c, h) && SightedAs(s, c, h, id)
    requires id in s.strKnown && c.now - s.strKnown[id].seen <= STR_KNOWN_TTL && !DegradesID(s, c, id)
    ensures var r := StepBy(s, c);
            && h in r.seen && r.seen[h].id.deviceID == id && id in r.st.strKnown
            && (r.seen[h].id.kind == Stock <==> !LiftsPin(s, c, h))
  {
    hide InvBase, KeyedSightings, Fits, StepBy, LiftsPin, OneArrival, Renews, DegradesID, ServedAt, NewAddress,
         MissedEntry, PinHolds, IDAt;
    ServedSTRExactlyWhen(s, c, h);
    StepIDs(s, c, h);
    MemoryStep(s, c, id);
  }

  /** The event comes within the pin's quarter of an hour, finds no agent at the host, and neither reinstalls
      STR there nor adds the host by hand. */
  ghost predicate PinEvent(s: State, e: Event, h: string, t0: int) {
    match e
    case Discover(c, _) => Fits(s, c) && c.now - t0 <= STOCK_PIN_GRACE && Unlifted(s, c, h)
    case OTAStarted(host, _) => host != h
    case Uninstalled(host, _) => host != h
    case Added(b, _) => b.id.host != h
    case _ => true
  }

  ghost predicate PinRun(s: State, run: seq<Event>, h: string, t0: int) {
    run == [] ||
    (PinRun(s, run[..|run| - 1], h, t0) && PinEvent(After(s, run[..|run| - 1]), run[|run| - 1], h, t0))
  }

  lemma PinnedNext(s: State, e: Event, h: string, t0: int)
    requires InvBase(s) && Admissible(s, e) && WithPin(s, h, t0) && PinEvent(s, e, h, t0)
    ensures WithPin(Next(s, e), h, t0)
  {
    hide InvBase, KeyedSightings, Fits, StepBy, Discovered, Unlifted, UninstalledBox, WithoutHost, StockBox;
    if e.Discover? {
      PinnedStep(s, e.scan, h, t0);
      CycleSubset(s, e.scan, e.reachable);
    }
  }

  lemma {:induction false} PinnedThroughRun(s: State, run: seq<Event>, h: string, t0: int)
    requires InvBase(s) && AdmissibleRun(s, run) && WithPin(s, h, t0) && PinRun(s, run, h, t0)
    ensures WithPin(After(s, run), h, t0)
  {
    hide InvBase, Next, Admissible, WithPin, PinEvent;
    if run != [] {
      var rest := run[..|run| - 1];
      PinnedThroughRun(s, rest, h, t0);
      InvBaseRun(s, rest);
      PinnedNext(After(s, rest), run[|run| - 1], h, t0);
    }
  }

  lemma UninstallPins(s: State, h: string, t0: int)
    requires InvBase(s) && h != ""
    ensures WithPin(MarkHostStock(s, h, t0), h, t0) && InvBase(MarkHostStock(s, h, t0))
  {
    hide UninstalledBox, WithoutHost, KeyedCache, MemoryKeyed;
    if h in s.cache { UninstalledBoxID(s.cache[h].box); }
    InvBaseAside(s, Uninstalled(h, t0));
  }

  /**
   For a quarter of an hour after the app removed STR from a host, every cycle
   that finds no agent there serves whoever answers at the address as a stock
   speaker, against every unverified STR label and every memory.
   */
  lemma UninstalledWithinGrace(s: State, run: seq<Event>, h: string, t0: int, c: Scan, reachable: Option<set<string>>)
    requires InvBase(s) && h != ""
    requires var start, e := MarkHostStock(s, h, t0), Discover(c, reachable);
             && AdmissibleRun(start, run) && PinRun(start, run, h, t0)
             && Admissible(After(start, run), e) && PinEvent(After(start, run), e, h, t0)
    ensures var r := Discovered(After(MarkHostStock(s, h, t0), run), c, reachable);
            && h in r.st.stockPinned && (h in r.seen ==> StockBox(r.seen[h]))
               && (h in r.st.cache ==> StockBox(r.st.cache[h].box))
  {
    hide InvBase, KeyedSightings, Fits, StepBy, AdmissibleRun, PinRun, MarkHostStock, StockBox, Unlifted, Discovered;
    UninstallPins(s, h, t0);
    var start := MarkHostStock(s, h, t0);
    PinnedThroughRun(start, run, h, t0);
    InvBaseRun(start, run);
    PinnedStep(After(start, run), c, h, t0);
    CycleAt(After(start, run), c, reachable, h);
  }

  // ----- after the pin -----

  /** The address the app removed STR from at `t0`: a plain stock record there, the only one of its speaker,
      and no memory of it. */
  ghost predicate HeldStock(s: State, h: string, t0: int) {
    && h !in s.otaPinned
    && (h in s.stockPinned ==> s.stockPinned[h] == t0)
    && (h in s.cache ==> PlainStock(s.cache[h].box) && IDOf(s.cache[h]) !in s.strKnown && Alone(s, h))
  }

  /** Nothing else the app holds or sights is of the speaker sighted at `h`. */
  ghost predicate Unclaimed(s: State, c: Scan, h: string)
    requires h in c.seen
  {
    var id := IDAt(s, c, h);
    && id !in s.strKnown
    && (id != "" ==>
        && (forall j :: j in c.seen && IDAt(s, c, j) == id ==> j == h)
        && (forall o :: o in s.cache && o !in c.seen ==> IDOf(s.cache[o]) != id)
        && (forall g :: g in s.otaPinnedID ==> s.otaPinnedID[g] != id))
  }

  /** A sighting of the speaker the app had there claims nothing else. */
  lemma SameSpeakerUnclaimed(s: State, c: Scan, h: string, t0: int)
    requires InvBase(s) && HeldStock(s, h, t0) && h in c.seen && Stays(s, c, h)
    ensures Unclaimed(s, c, h)
  {
    hide MemoryKeyed, KeyedCache, IDAt;
  }

  lemma RefreshedStock(s: State, c: Scan, h: string)
    requires h in c.seen && (h in s.cache ==> PlainStock(s.cache[h].box))
    ensures var e := EntryAt(s, c, h);
            && (AgentRecord(e.box) ==> AgentRecord(c.seen[h]))
            && (!(c.seen[h].id.kind == Stock && c.seen[h].id.portVerified) && e.box.id.kind == Stock
               ==> !e.box.id.portVerified)
            && (PlainStock(c.seen[h]) ==> PlainStock(e.box))
  {
    hide MergeBoxInfo, DifferentDevices, Degrades, SilentSighting;
    if h in s.cache {
      CacheMergeKind(s.cache[h].box, c.seen[h]);
      CacheMergeMarks(s.cache[h].box, c.seen[h]);
    }
    if Degrades(Lookup(s.cache, h), c.seen[h], h in c.presenceOnly, h in s.otaPinned, c.now)
       && c.seen[h].id.kind == Stock {
      DegradesSTR(Lookup(s.cache, h), c.seen[h], h in c.presenceOnly, h in s.otaPinned, c.now);
    }
  }

  lemma DegradesSTR(prev: Option<Entry>, b: BoxInfo, presenceOnly: bool, pinned: bool, now: int)
    requires Degrades(prev, b, presenceOnly, pinned, now)
    ensures RefreshedBox(prev, b).id.kind == STR
  {
    hide MergeBoxInfo, DifferentDevices;
  }

  lemma UnclaimedSwept(s: State, c: Scan, h: string)
    requires Sane(s, c) && h in c.seen && Unclaimed(s, c, h)
    ensures var w := SweptBy(s, c).0;
            var e := EntryAt(s, c, h);
            Lookup(w.st.cache, h) == Some(e) && Lookup(w.seen, h) == Some(e.box) && e.box.id.deviceID == IDAt(s, c, h)
  {
    hide InvBase, KeyedSightings, Fits, SweptBy, EntryAt, IDAt, ComesTo;
    SweptSighted(s, c, h);
    SweptMerged(s, c, h);
    forall o ensures !ComesTo(s, c, o, h) {
      if ComesTo(s, c, o, h) { ComesFrom(s, c, o, h); assert false; }
    }
  }

  /** A cycle over a pinned or plainly stock address: the speaker claims nothing else, and no agent answers. */
  ghost predicate StockSighting(s: State, c: Scan, h: string) {
    if h in c.seen then
      && Unclaimed(s, c, h)
      && !AgentRecord(c.seen[h]) && !(c.seen[h].id.kind == Stock && c.seen[h].id.portVerified)
      && (PinLive(s, h, c.now) || PlainStock(c.seen[h]))
    else h in s.cache ==> Stays(s, c, h)
  }

  lemma StockPinned(s: State, c: Scan, h: string, t0: int)
    requires Sane(s, c) && HeldStock(s, h, t0) && StockSighting(s, c, h)
    ensures var p := PinnedBy(s, c);
            && (h in p.seen ==> PlainStock(p.seen[h]) && p.seen[h].id.deviceID !in s.strKnown)
            && (h in p.st.cache ==> PlainStock(p.st.cache[h].box))
            && h !in p.st.otaPinned
            && Lookup(p.st.stockPinned, h) == (if PinLive(s, h, c.now) then Some(t0) else None)
  {
    hide InvBase, KeyedSightings, Fits, SweptBy, PinnedBy, EntryAt, IDAt, CorrectedBox, CorrectedEntry, Alone, Stays,
         NewAddress, MissedEntry;
    StockPinnedBy(s, c, h);
    var w := SweptBy(s, c).0;
    if h in c.seen {
      UnclaimedSwept(s, c, h);
      RefreshedStock(s, c, h);
    } else {
      MissedStands(s, c, h);
    }
    if h in w.seen { CorrectedStock(w.seen[h], Lookup(w.st.cache, h), c.now); }
  }

  /** What the pins serve of the host's speaker they serve at the host. */
  lemma StockHolder(s: State, c: Scan, h: string, t0: int, j: string)
    requires Sane(s, c) && HeldStock(s, h, t0) && StockSighting(s, c, h) && h in PinnedBy(s, c).seen
    requires var p := PinnedBy(s, c);
             j in p.seen && p.seen[j].id.deviceID == p.seen[h].id.deviceID != ""
    ensures j == h
  {
    hide KeyedSightings, Fits, PinnedBy, IDAt, NewAddress, MissedEntry, Live, PinHolds, ServedAt, MemoryKeyed;
    if h in c.seen {
      PinnedSightedID(s, c, h);
      if j in c.seen { PinnedSightedID(s, c, j); } else { SweptMissedOrNot(s, c, j); }
    } else {
      PinnedIDs(s, c, h);
      UnheldHost(s, c, h);
      AlonePinned(s, c, h, j);
    }
  }

  lemma UnheldHost(s: State, c: Scan, h: string)
    requires Sane(s, c) && h !in s.otaPinned && h !in c.seen && h in PinnedBy(s, c).seen
    ensures h in s.cache && PinnedBy(s, c).seen[h].id.deviceID == IDOf(s.cache[h])
  {
    hide InvBase, KeyedSightings, Fits, PinnedBy, SweptBy, NewAddress, MissedEntry, Live, CorrectedBox, CorrectedEntry;
    StockPinnedBy(s, c, h);
    MissedStands(s, c, h);
    var w := SweptBy(s, c).0;
    if h in w.seen { CorrectedStock(w.seen[h], None, c.now); }
  }

  /** One cycle: whatever is served at the host is a plain stock record the memory does not know. */
  lemma StockStep(s: State, c: Scan, h: string, t0: int)
    requires Sane(s, c) && HeldStock(s, h, t0) && StockSighting(s, c, h)
    ensures var r := StepBy(s, c);
            && HeldStock(r.st, h, t0)
            && (h in r.seen ==> PlainStock(r.seen[h]) && r.seen[h].id.deviceID !in r.st.strKnown)
            && Lookup(r.st.stockPinned, h) == (if PinLive(s, h, c.now) then Some(t0) else None)
  {
    hide InvBase, KeyedSightings, Fits, PinnedBy, StepBy, RecordedBy, StockSighting, PinLive, Alone, ServedAt,
         DegradesID;
    StockPinned(s, c, h, t0);
    StepAt(s, c, h);
    StepPins(s, c);
    var p, r := PinnedBy(s, c), StepBy(s, c);
    if h in p.seen {
      StockForgotten(s, c, h, t0);
      StepKeeps(s, c, h);
    }
    if h in r.st.cache {
      StepServedAt(s, c, h);
      ServedAtID(r, h);
      StockAlone(s, c, h, t0);
    }
  }

  /** Neither before nor after the reconcile loop does the memory know the host's speaker. */
  lemma StockForgotten(s: State, c: Scan, h: string, t0: int)
    requires Sane(s, c) && HeldStock(s, h, t0) && StockSighting(s, c, h) && h in PinnedBy(s, c).seen
    ensures var id := PinnedBy(s, c).seen[h].id.deviceID;
            id !in RecordedBy(s, c).st.strKnown && id !in StepBy(s, c).st.strKnown
  {
    hide InvBase, KeyedSightings, Fits, PinnedBy, StepBy, RecordedBy, StockSighting, Alone, HeldStock, DegradesID;
    StockPinned(s, c, h, t0);
    RecordedKeyedBy(s, c);
    var id := PinnedBy(s, c).seen[h].id.deviceID;
    StepMemory(s, c, id);
    RecordedMemory(s, c, id);
    if id != "" {
      forall j | Records(PinnedBy(s, c).seen, c.presenceOnly, j, id) ensures false {
        StockHolder(s, c, h, t0, j);
      }
    }
  }

  /** The host's record stays the only one of its speaker. */
  lemma StockAlone(s: State, c: Scan, h: string, t0: int)
    requires Sane(s, c) && HeldStock(s, h, t0) && StockSighting(s, c, h) && h in StepBy(s, c).st.cache
    ensures Alone(StepBy(s, c).st, h)
  {
    hide KeyedSightings, Fits, PinnedBy, StepBy, IDAt, ServedAt, MemoryKeyed, KeyedCache, PinLive, Stays;
    var r := StepBy(s, c);
    StepPins(s, c);
    StepServedAt(s, c, h);
    ServedAtID(r, h);
    StockName(s, c, h, t0);
    forall j | j in r.st.cache && IDOf(r.st.cache[j]) == IDOf(r.st.cache[h]) != "" ensures j == h {
      StepServedAt(s, c, j);
      ServedAtID(r, j);
      StockHolder(s, c, h, t0, j);
    }
  }

  lemma StockName(s: State, c: Scan, h: string, t0: int)
    requires Sane(s, c) && HeldStock(s, h, t0) && StockSighting(s, c, h) && h in PinnedBy(s, c).seen
    ensures PinnedBy(s, c).seen[h].id.deviceID != "" ==>
            forall g :: g in s.otaPinnedID ==> s.otaPinnedID[g] != PinnedBy(s, c).seen[h].id.deviceID
    ensures h !in s.otaPinnedID
  {
    hide KeyedSightings, Fits, PinnedBy, IDAt, MemoryKeyed, KeyedCache, PinLive;
    if h in c.seen { PinnedSightedID(s, c, h); } else { UnheldHost(s, c, h); }
  }

  // ----- over a run -----

  /** The event neither reinstalls STR at the host, nor adds it or its speaker by hand, nor pins another
      address for the speaker. */
  ghost predicate StockEvent(s: State, e: Event, h: string) {
    match e
    case Discover(c, _) => StockSighting(s, c, h)
    case OTAStarted(host, _) => host != h
    case Uninstalled(host, _) => host != h
    case Forgotten(_) => true
    case _ => Elsewhere(s, e, h)
  }

  ghost predicate StockRun(s: State, run: seq<Event>, h: string) {
    run == [] ||
    (StockRun(s, run[..|run| - 1], h) && StockEvent(After(s, run[..|run| - 1]), run[|run| - 1], h))
  }

  predicate WithinGrace(run: seq<Event>, t0: int) {
    forall i :: 0 <= i < |run| && run[i].Discover? ==> run[i].scan.now - t0 <= STOCK_PIN_GRACE
  }

  lemma StockNext(s: State, e: Event, h: string, t0: int)
    requires InvBase(s) && Admissible(s, e) && HeldStock(s, h, t0) && StockEvent(s, e, h)
    ensures HeldStock(Next(s, e), h, t0)
    ensures (e.Discover? ==> e.scan.now - t0 <= STOCK_PIN_GRACE) && h in s.stockPinned ==> h in Next(s, e).stockPinned
  {
    hide InvBase, KeyedSightings, Fits, StepBy, Discovered, StockSighting, UninstalledBox, WithoutHost, Alone,
         PlainStock, Elsewhere;
    if e.Discover? {
      StockStep(s, e.scan, h, t0);
      CycleSubset(s, e.scan, e.reachable);
      if h in Next(s, e).cache { AloneFewer(StepBy(s, e.scan).st, Next(s, e), h); }
    } else {
      StockAside(s, e, h, t0);
    }
  }

  lemma StockAside(s: State, e: Event, h: string, t0: int)
    requires HeldStock(s, h, t0) && StockEvent(s, e, h) && !e.Discover?
    ensures HeldStock(Next(s, e), h, t0)
    ensures h in s.stockPinned ==> h in Next(s, e).stockPinned
  {
    if e == Event.Forgotten(h) {
      hide UninstalledBox, WithoutHost, Alone, PlainStock;
    } else {
      KnownAside(s, e);
      SameAside(s, e, h) by { hide Alone; }
      if h in s.cache { AloneAside(s, e, h); }
      hide Alone, PlainStock, UninstalledBox, WithoutHost, AddBox;
    }
  }

  lemma UninstallHolds(s: State, h: string, t0: int)
    requires Inv(s) && h != ""
    ensures HeldStock(MarkHostStock(s, h, t0), h, t0) && h in MarkHostStock(s, h, t0).stockPinned
  {
    hide UninstalledBox, Alone, KeyedCache, PinsKeyed, PinsDistinct, PinsNamed, OneAddressPerEntry;
    InvAside(s, Uninstalled(h, t0));
    var t := MarkHostStock(s, h, t0);
    if h in s.cache { UninstalledBoxID(s.cache[h].box); }
    if h in t.cache { InvAlone(t, h) by { UninstallUnpins(s, h, t0); } }
  }

  lemma UninstallUnpins(s: State, h: string, t0: int)
    ensures h != "" ==> h !in MarkHostStock(s, h, t0).otaPinnedID
  {
  }

  lemma {:induction false} HeldThroughRun(s: State, run: seq<Event>, h: string, t0: int)
    requires InvBase(s) && AdmissibleRun(s, run) && HeldStock(s, h, t0) && StockRun(s, run, h)
    ensures HeldStock(After(s, run), h, t0)
    ensures h in s.stockPinned && WithinGrace(run, t0) ==> h in After(s, run).stockPinned
  {
    hide InvBase, Next, Admissible, HeldStock, StockEvent;
    if run != [] {
      var rest := run[..|run| - 1];
      HeldThroughRun(s, rest, h, t0);
      InvBaseRun(s, rest);
      StockNext(After(s, rest), run[|run| - 1], h, t0);
      assert WithinGrace(run, t0) ==> WithinGrace(rest, t0);
    }
  }

  /**
   And once the pin has run out: as long as the speaker of the host claims
   nothing else the app knows, every cycle that serves the host serves it as
   plain stock, with its id in no memory.
   */
  lemma UninstalledStaysStock(s: State, run: seq<Event>, h: string, t0: int, c: Scan, reachable: Option<set<string>>)
    requires Inv(s) && h != "" && AdmissibleRun(MarkHostStock(s, h, t0), run)
             && StockRun(MarkHostStock(s, h, t0), run, h)
    requires var t := After(MarkHostStock(s, h, t0), run);
             Admissible(t, Discover(c, reachable)) && StockSighting(t, c, h)
    ensures var t := After(MarkHostStock(s, h, t0), run);
            var r := Discovered(t, c, reachable);
            && (h in r.seen ==> PlainStock(r.seen[h]) && r.seen[h].id.deviceID !in r.st.strKnown)
            && (WithinGrace(run, t0) && c.now - t0 <= STOCK_PIN_GRACE ==> PinLive(t, h, c.now) && h in r.st.stockPinned)
  {
    hide InvBase, KeyedSightings, Fits, StepBy, AdmissibleRun, StockRun, StockSighting, MarkHostStock, WithinGrace,
         Discovered;
    UninstallHolds(s, h, t0);
    InvIsBase(s);
    UninstallPins(s, h, t0);
    var start := MarkHostStock(s, h, t0);
    HeldThroughRun(start, run, h, t0);
    InvBaseRun(start, run);
    StockStep(After(start, run), c, h, t0);
    CycleAt(After(start, run), c, reachable, h);
  }

  lemma ForgetHolds(s: State, h: string) returns (t0: int)
    requires InvBase(s) && h != "" && h !in s.otaPinned
    ensures var start := Next(s, Event.Forgotten(h));
            && InvBase(start) && HeldStock(start, h, t0) && h !in start.cache
            && (h in s.cache ==> IDOf(s.cache[h]) !in start.strKnown)
  {
    InvBaseAside(s, Event.Forgotten(h));
    t0 := if h in s.stockPinned then s.stockPinned[h] else 0;
    hide KeyedCache, PinsKeyed;
  }

  /**
   The same after the host was forgotten instead, with or without a pin of an
   earlier uninstall: the record and every memory of its speaker are gone, and
   the stock speaker found there is served as one.
   */
  lemma ForgottenStaysStock(s: State, run: seq<Event>, h: string, c: Scan, reachable: Option<set<string>>)
    requires InvBase(s) && h != "" && h !in s.otaPinned
    requires var start := Next(s, Event.Forgotten(h));
             AdmissibleRun(start, run) && StockRun(start, run, h)
             && Admissible(After(start, run), Discover(c, reachable)) && StockSighting(After(start, run), c, h)
    ensures var start := Next(s, Event.Forgotten(h));
            var r := Discovered(After(start, run), c, reachable);
            && h !in start.cache && (h in s.cache ==> IDOf(s.cache[h]) !in start.strKnown)
            && (h in r.seen ==> PlainStock(r.seen[h]) && r.seen[h].id.deviceID !in r.st.strKnown)
  {
    hide InvBase, KeyedSightings, Fits, StepBy, AdmissibleRun, StockRun, StockSighting, Next, Discovered, HeldStock;
    var start := Next(s, Event.Forgotten(h));
    var t0 := ForgetHolds(s, h);
    HeldThroughRun(start, run, h, t0);
    InvBaseRun(start, run);
    StockStep(After(start, run), c, h, t0);
    CycleAt(After(start, run), c, reachable, h);
  }
}
