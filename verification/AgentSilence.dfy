/**
 When an STR speaker whose agent has gone silent is degraded to a stock one
 marked "STR not running": exactly in the cycle that completes the streak.
 */
module AgentSilence {
  import opened BoxRecords
  import opened DiscoveryEvents
  import opened DiscoveryInvariant
  import opened DiscoveryRules
  import opened DiscoveryRun
  import opened DiscoveryScan
  import opened DiscoverySpec
  import opened DiscoveryStep
  import opened FieldPolicy
  import opened Options
  import opened OTAPin
  import opened Text

  /** What an event says about the agent of the speaker at `k`. */
  datatype Observation = NothingNew | AgentSilent(at: int) | StreakRestarts

  ghost function Observe(s: State, e: Event, k: string): Observation {
    if !e.Discover? then NothingNew
    else if k in s.otaPinned && e.scan.now - s.otaPinned[k] <= OTA_REBOOT_GRACE then StreakRestarts
    else if k !in e.scan.seen then NothingNew
    else if k in e.scan.presenceOnly then AgentSilent(e.scan.now)
    else StreakRestarts
  }

  /** The presence-only sightings since the streak last restarted, oldest first. */
  ghost function SilentTimes(s: State, run: seq<Event>, k: string): seq<int> {
    if run == [] then []
    else
      var times := SilentTimes(s, run[..|run| - 1], k);
      match Observe(After(s, run[..|run| - 1]), run[|run| - 1], k)
      case NothingNew => times
      case AgentSilent(at) => times + [at]
      case StreakRestarts => []
  }

  /** What stands at `k` once the cycle has refreshed it. */
  function Standing(s: State, c: Scan, k: string): BoxInfo
    requires k in s.cache
  {
    if k in c.seen then EntryAt(s, c, k).box else s.cache[k].box
  }

  /** The id it stands there under: the cached one, or the one the sighting ends up with. */
  function StandingID(s: State, c: Scan, k: string): string
    requires k in s.cache
  {
    if k in c.seen then IDAt(s, c, k) else IDOf(s.cache[k])
  }

  /** The pin at `k`, if it is live, is its speaker's, and that one was sighted nowhere else. */
  ghost predicate OwnPin(s: State, c: Scan, k: string)
    requires k in s.cache
  {
    k in s.otaPinned && c.now - s.otaPinned[k] <= OTA_REBOOT_GRACE ==>
      && (PinID(s, k) == "" || StandingID(s, c, k) == "" || BoxIsDevice(Standing(s, c, k), PinID(s, k)))
      && (forall j :: SightedAs(s, c, j, PinID(s, k)) ==> j == k)
  }

  /** The speaker cached at `k` is the one a cycle finds there, if it finds any, under either of its ids or its
      first one; and nothing else the cycle sights, misses or has pinned goes by the id it ends up with. */
  ghost predicate Remains(s: State, c: Scan, k: string) {
    && k in s.cache
    && (k in c.seen ==> !DifferentDevices(s.cache[k].box, c.seen[k]))
    && OwnPin(s, c, k)
    && (StandingID(s, c, k) != "" ==>
        && (forall j :: j in c.seen && IDAt(s, c, j) == StandingID(s, c, k) ==> j == k)
        && (forall o :: o in s.cache && o !in c.seen && IDOf(s.cache[o]) == StandingID(s, c, k) ==> o == k)
        && (forall h :: h in s.otaPinnedID && s.otaPinnedID[h] == StandingID(s, c, k) ==> h == k))
  }

  /** Of one speaker known nowhere else that is sighted under its cached id it asks nothing more. */
  lemma AloneRemains(s: State, c: Scan, k: string)
    requires InvBase(s) && Alone(s, k) && Stays(s, c, k)
    ensures Remains(s, c, k)
  {
    hide EntryAt, MemoryKeyed, KeyedCache;
    if k in c.seen { SameSpeakerKnown(s, c, k); RefreshedID(s, c, k); }
  }

  lemma RefreshedID(s: State, c: Scan, k: string)
    requires k in c.seen
    ensures k in s.cache && IDAt(s, c, k) == IDOf(s.cache[k]) ==> EntryAt(s, c, k).box.id.deviceID == IDAt(s, c, k)
  {
    hide MergeBoxInfo, SilentSighting, BoxIsDevice;
    if k in s.cache { CacheMergeIdentity(s.cache[k].box, c.seen[k]); }
  }

  /** The event, if it is not a cycle, neither replaces nor forgets the record at `k`. */
  ghost predicate Leaves(e: Event, k: string) {
    match e
    case Uninstalled(host, _) => host != k
    case Forgotten(host) => host != k
    case Added(b, _) => b.id.host != k
    case _ => true
  }

  /** The event is about the speaker at `k`: it remains there, is never taken for gone or for another one's
      duplicate, and STR is neither removed from it nor marked missing by the sighting itself. */
  ghost predicate Tracks(s: State, e: Event, k: string) {
    match e
    case Discover(c, reachable) =>
      && Fits(s, c) && Remains(s, c, k) && Spared(s, c, reachable, k)
      && if k in c.seen then !c.seen[k].cycle.strNotRunning else MissedEntry(s.cache[k], c.now).Kept?
    case _ => Leaves(e, k)
  }

  ghost predicate TracksRun(s: State, run: seq<Event>, k: string) {
    run == [] ||
    (TracksRun(s, run[..|run| - 1], k) && Tracks(After(s, run[..|run| - 1]), run[|run| - 1], k))
  }

  /** The speaker at `k` counts as STR with the streak `times`. */
  predicate CountsAsSTR(s: State, k: string, times: seq<int>) {
    && k in s.cache && k !in s.stockPinned
    && s.cache[k].box.id.kind == STR && !s.cache[k].box.cycle.strNotRunning
    && s.cache[k].strMisses == |times|
    && s.cache[k].strMissSince == (if times == [] then None else Some(times[0]))
  }

  /** The speaker at `k` is a stock one marked "STR not running", and no memory says otherwise. */
  ghost predicate Degraded(s: State, k: string) {
    && k in s.cache
    && s.cache[k].box.id.kind == Stock && s.cache[k].box.cycle.strNotRunning && s.cache[k].box.agent.version == ""
    && IDOf(s.cache[k]) !in s.strKnown
  }

  /** The last event completes a streak: three presence-only sightings over two minutes, no pin entry. */
  ghost predicate Completes(s: State, run: seq<Event>, k: string) {
    && run != []
    && var before := After(s, run[..|run| - 1]);
    && Observe(before, run[|run| - 1], k).AgentSilent? && k !in before.otaPinned
    && var times := SilentTimes(s, run, k);
    && |times| >= STR_GONE_MISSES && times[|times| - 1] - times[0] >= STR_GONE_MIN_SPAN
  }

  // ----- one cycle -----

  /** The refresh of a counted speaker: its streak grows, restarts, or completes. */
  lemma CountedRefresh(s: State, c: Scan, k: string, times: seq<int>)
    requires CountsAsSTR(s, k, times) && Remains(s, c, k) && k in c.seen && !c.seen[k].cycle.strNotRunning
    ensures var e := EntryAt(s, c, k);
            var next := times + [c.now];
            if k !in c.presenceOnly then
              e.box.id.kind == STR && !e.box.cycle.strNotRunning && e.strMisses == 0 && e.strMissSince == None
            else if k !in s.otaPinned && |next| >= STR_GONE_MISSES && c.now - next[0] >= STR_GONE_MIN_SPAN then
              && DegradedAt(s, c, k)
              && e.box.id.kind == Stock && e.box.cycle.strNotRunning && e.box.agent.version == ""
            else
              && e.box.id.kind == STR && !e.box.cycle.strNotRunning
              && e.strMisses == |next| && e.strMissSince == Some(next[0])
  {
    hide MergeBoxInfo, EffectiveID, DifferentDevices, OwnPin;
    assert Predecessor(Lookup(s.cache, k), c.seen[k]) == Some(s.cache[k]);
    hide Predecessor;
    CacheMergeKind(s.cache[k].box, c.seen[k]);
  }

  /** What the first two loops hand on for a speaker that remains. */
  lemma RemainsSwept(s: State, c: Scan, k: string)
    requires Sane(s, c) && Remains(s, c, k) && (k !in c.seen ==> MissedEntry(s.cache[k], c.now).Kept?)
    ensures var (w, moved) := SweptBy(s, c);
            && k !in moved
            && (k in w.seen && w.seen[k].id.deviceID == StandingID(s, c, k))
            && if k in c.seen then
                 Lookup(w.st.cache, k) == Some(EntryAt(s, c, k)) && Lookup(w.seen, k) == Some(EntryAt(s, c, k).box)
               else
                 && Lookup(w.st.cache, k) == Some(MissedEntry(s.cache[k], c.now).entry)
                 && Lookup(w.seen, k) == Some(MissedEntry(s.cache[k], c.now).served)
  {
    hide InvBase, KeyedSightings, Fits, SweptBy, EntryAt, MissedEntry, OwnPin, IDAt, Live, NewAddress,
         DifferentDevices;
    if k in c.seen {
      SweptSighted(s, c, k);
      SweptMerged(s, c, k);
      forall o ensures !ComesTo(s, c, o, k) {
        if ComesTo(s, c, o, k) { ComesFrom(s, c, o, k); assert false; }
      }
    } else {
      SweptMissed(s, c, k);
      EvictedExactlyWhen(s, c, k);
      MissedKindKept(s.cache[k], c.now);
    }
  }

  /** Whatever the pins serve under its id, they serve at `k`. */
  lemma RemainsPinned(s: State, c: Scan, k: string, j: string)
    requires Sane(s, c) && Remains(s, c, k) && j in PinnedBy(s, c).seen
    requires PinnedBy(s, c).seen[j].id.deviceID == StandingID(s, c, k) != ""
    ensures j == k
  {
    hide InvBase, KeyedSightings, Fits, PinnedBy, IDAt, OwnPin, DifferentDevices;
    if j in c.seen { PinnedSightedID(s, c, j); } else { SweptMissedOrNot(s, c, j); }
  }

  /** What the pin loop makes of it. */
  lemma RemainsHeld(s: State, c: Scan, k: string)
    requires Sane(s, c) && Remains(s, c, k) && (k !in c.seen ==> MissedEntry(s.cache[k], c.now).Kept?)
    requires k !in s.stockPinned
    ensures var w, p := SweptBy(s, c).0, PinnedBy(s, c);
            && k in w.seen && k !in p.st.stockPinned
            && if k in s.otaPinned && c.now - s.otaPinned[k] <= OTA_REBOOT_GRACE then
                 var b := w.seen[k];
                 var str := b.(id := b.id.(kind := STR), cycle := b.cycle.(strNotRunning := false));
                 && Lookup(p.seen, k) == Some(str.(cycle := str.cycle.(otaPending := true)))
                 && Lookup(p.st.cache, k) == Some(NewEntry(str.(cycle := str.cycle.(unreachable := false)), c.now))
               else Lookup(p.seen, k) == Lookup(w.seen, k) && Lookup(p.st.cache, k) == Lookup(w.st.cache, k)
  {
    hide Fits, InvBase, KeyedSightings, SweptBy, HoldPins, Correct, Live, IDAt, PinAt, EntryAt, MissedEntry,
         DifferentDevices, BoxIsDevice;
    RemainsSwept(s, c, k);
    SweptFrame(s, c);
    PinnedIs(s, c);
    SightedLive(s, c, PinID(s, k));
    var (w, moved) := SweptBy(s, c);
    HoldPinsAt(w, moved, Live(s, c), c.now, k);
    CorrectAt(HoldPins(w, moved, Live(s, c), c.now), c.now, k);
    if k in s.otaPinned {
      if c.now - s.otaPinned[k] <= OTA_REBOOT_GRACE {
        LiveNamed(s, c, k);
        StandingDevice(s, c, k);
        HeldPinAt(w, moved, Live(s, c), c.now, k, w.seen[k]);
      } else {
        ExpiredDrops(w, moved, Live(s, c), c.now, k);
      }
    }
  }

  lemma StandingDevice(s: State, c: Scan, k: string)
    requires Sane(s, c) && Remains(s, c, k) && (k !in c.seen ==> MissedEntry(s.cache[k], c.now).Kept?)
    ensures k in SweptBy(s, c).0.seen
            && (BoxIsDevice(SweptBy(s, c).0.seen[k], PinID(s, k)) <==> BoxIsDevice(Standing(s, c, k), PinID(s, k)))
  {
    hide Fits, InvBase, KeyedSightings, SweptBy, IDAt, EntryAt, MissedEntry, DifferentDevices, EqualFold;
    RemainsSwept(s, c, k);
    if k !in c.seen { MissedKindKept(s.cache[k], c.now); }
  }

  /** The record a counted speaker has when the cycle ends, if it is an STR one: it still counts. */
  lemma CountedFinal(s: State, e: Event, k: string, next: seq<int>)
    requires e.Discover? && Sane(s, e.scan) && Tracks(s, e, k)
    requires var p := PinnedBy(s, e.scan);
             && k in p.seen && p.seen[k].id.kind == STR && k in p.st.cache && k !in p.st.stockPinned
             && p.st.cache[k].box.id.kind == STR && !p.st.cache[k].box.cycle.strNotRunning
             && p.st.cache[k].strMisses == |next|
                && p.st.cache[k].strMissSince == (if next == [] then None else Some(next[0]))
    ensures CountsAsSTR(Next(s, e), k, next)
  {
    hide InvBase, KeyedSightings, Fits, PinnedBy, StepBy, MissedEntry, Remains, Spared, Discovered;
    STRFinal(s, e.scan, k);
    CycleAt(s, e.scan, e.reachable, k);
    CycleSubset(s, e.scan, e.reachable);
  }

  /** A degraded record reaches the end of its cycle: nothing relabels it. */
  lemma DegradedFinal(s: State, e: Event, k: string)
    requires e.Discover? && Sane(s, e.scan) && Tracks(s, e, k) && k in s.cache && k !in s.stockPinned
    requires k !in s.otaPinned && k in e.scan.seen && DegradedAt(s, e.scan, k)
    requires var b := EntryAt(s, e.scan, k).box;
             b.id.kind == Stock && b.cycle.strNotRunning && b.agent.version == ""
    ensures Degraded(Next(s, e), k)
  {
    hide InvBase, KeyedSightings, Fits, SweptBy, PinnedBy, RecordedBy, StepBy, EntryAt, DegradedAt, Spared,
         Discovered, IDAt, MissedEntry, Remains, DegradesID;
    var c := e.scan;
    RemainsSwept(s, c, k);
    UnpinnedBy(s, c, k);
    StepAt(s, c, k);
    DegradedForgotten(s, c, k);
    StepKeeps(s, c, k);
    StepMemory(s, c, IDAt(s, c, k));
    CycleAt(s, c, e.reachable, k);
  }

  lemma DegradedForgotten(s: State, c: Scan, k: string)
    requires Sane(s, c) && Remains(s, c, k) && k in c.seen && DegradedAt(s, c, k)
    requires k in PinnedBy(s, c).seen && PinnedBy(s, c).seen[k].id.kind == Stock
    ensures IDAt(s, c, k) !in RecordedBy(s, c).st.strKnown
  {
    hide InvBase, KeyedSightings, Fits, PinnedBy, RecordedBy, DegradedAt, IDAt, Remains;
    var id := IDAt(s, c, k);
    RecordedKeyedBy(s, c);
    RecordedMemory(s, c, id);
    if id != "" {
      forall j | Records(PinnedBy(s, c).seen, c.presenceOnly, j, id) ensures false {
        assert StandingID(s, c, k) == id by { RemainsCached(s, c, k); }
        RemainsPinned(s, c, k, j);
      }
      assert DegradesID(s, c, id);
    }
  }

  lemma RemainsCached(s: State, c: Scan, k: string)
    requires Remains(s, c, k)
    ensures k in s.cache
  {
  }

  /** One event of a tracked speaker: its streak follows what the event said, and the event that
      completes it degrades the record. */
  lemma CountedNext(s: State, e: Event, k: string, times: seq<int>)
    requires InvBase(s) && Admissible(s, e) && Tracks(s, e, k) && CountsAsSTR(s, k, times)
    ensures var t := Next(s, e);
            match Observe(s, e, k)
            case NothingNew => CountsAsSTR(t, k, times)
            case StreakRestarts => CountsAsSTR(t, k, [])
            case AgentSilent(at) =>
              var next := times + [at];
              if k !in s.otaPinned && |next| >= STR_GONE_MISSES && at - next[0] >= STR_GONE_MIN_SPAN then Degraded(t, k)
              else CountsAsSTR(t, k, next)
  {
    if !e.Discover? {
      hide InvBase, Next, Spared;
      CountedAside(s, e, k, times);
    } else {
      hide InvBase, Next, Remains, Spared, Fits, KeyedSightings, SweptBy, PinnedBy, EntryAt, MissedEntry, DegradedAt;
      var c := e.scan;
      RemainsSwept(s, c, k);
      RemainsHeld(s, c, k);
      if k !in c.seen { MissedKindKept(s.cache[k], c.now); } else { CountedRefresh(s, c, k, times); }
      if k in s.otaPinned && c.now - s.otaPinned[k] <= OTA_REBOOT_GRACE {
        CountedFinal(s, e, k, []);
      } else if k !in c.seen {
        CountedFinal(s, e, k, times);
      } else {
        var next := times + [c.now];
        if k in c.presenceOnly && k !in s.otaPinned && |next| >= STR_GONE_MISSES
           && c.now - next[0] >= STR_GONE_MIN_SPAN {
          DegradedFinal(s, e, k);
        } else {
          CountedFinal(s, e, k, if k in c.presenceOnly then next else []);
        }
      }
    }
  }

  lemma CountedAside(s: State, e: Event, k: string, times: seq<int>)
    requires Leaves(e, k) && CountsAsSTR(s, k, times) && !e.Discover?
    ensures CountsAsSTR(Next(s, e), k, times)
  {
    hide UninstalledBox, WithoutHost;
  }

  // ----- over a run -----

  /**
   A tracked STR speaker stays one, with the streak of its presence-only
   sightings since the last confirmed sighting or live pin counted exactly,
   until the event that completes the streak; that event degrades it.
   */
  lemma {:induction false} DegradesExactlyWhenComplete(s: State, run: seq<Event>, k: string)
    requires InvBase(s) && AdmissibleRun(s, run) && TracksRun(s, run, k) && CountsAsSTR(s, k, [])
    requires forall i :: 0 <= i < |run| ==> !Completes(s, run[..i], k)
    ensures if Completes(s, run, k) then Degraded(After(s, run), k)
            else CountsAsSTR(After(s, run), k, SilentTimes(s, run, k))
  {
    hide InvBase, Next, Admissible, Tracks, Observe, CountsAsSTR, Degraded;
    if run != [] {
      var rest, last := run[..|run| - 1], run[|run| - 1];
      forall i | 0 <= i < |rest| ensures !Completes(s, rest[..i], k) {
        assert rest[..i] == run[..i];
      }
      assert !Completes(s, run[..|run| - 1], k);
      DegradesExactlyWhenComplete(s, rest, k);
      InvBaseRun(s, rest);
      CountedNext(After(s, rest), last, k, SilentTimes(s, rest, k));
      var times := SilentTimes(s, rest, k);
      match Observe(After(s, rest), last, k)
      case AgentSilent(at) => assert (times + [at])[|times|] == at;
      case _ =>
    }
  }
}
