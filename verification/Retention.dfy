/**
 Retention: how long a speaker that only misses stays listed. Its time runs
 from the first missed cycle, never from the last sighting.
 */
module Retention {
  import opened BoxRecords
  import opened DiscoveryEvents
  import opened DiscoveryInvariant
  import opened DiscoveryRules
  import opened DiscoveryRun
  import opened DiscoveryScan
  import opened DiscoverySpec
  import opened DiscoveryStep
  import opened FieldPolicy
  import opened Options

  /** No pin on the address, and no memory that would relabel a stock record, now or from another address. */
  ghost predicate Unguarded(s: State, k: string) {
    && k in s.cache && k !in s.otaPinned && k !in s.stockPinned
    && (s.cache[k].box.id.kind == STR || IDOf(s.cache[k]) == "" || (IDOf(s.cache[k]) !in s.strKnown && Alone(s, k)))
  }

  lemma SilentUnmoved(s: State, c: Scan, k: string)
    requires Sane(s, c) && Silent(s, c, k)
    ensures NewAddress(s.cache[k], k, Live(s, c)).None?
  {
    hide InvBase, KeyedSightings, Fits, IDAt, Live;
    LiveIs(s, c);
  }

  /** One missed cycle: the entry and what is served are the re-add loop's, whatever the rest does. */
  lemma MissedStep(s: State, c: Scan, k: string)
    requires Sane(s, c) && Silent(s, c, k) && Unguarded(s, k)
    ensures var r := StepBy(s, c);
            match MissedEntry(s.cache[k], c.now)
            case Kept(e, served) =>
              Lookup(r.st.cache, k) == Some(e) && Lookup(r.seen, k) == Some(served) && Unguarded(r.st, k)
            case Evicted => k !in r.st.cache && k !in r.seen
  {
    hide InvBase, KeyedSightings, Fits, Silent, SweptBy, PinnedBy, RecordedBy, StepBy, MissedEntry, Alone;
    SilentUnmoved(s, c, k);
    SilentStays(s, c, k);
    SweptMissed(s, c, k);
    UnpinnedBy(s, c, k);
    MissedKindKept(s.cache[k], c.now);
    if MissedEntry(s.cache[k], c.now).Kept? {
      MissedUnremembered(s, c, k);
      StepPins(s, c);
      StepKeeps(s, c, k);
      if Alone(s, k) { AloneStep(s, c, k); }
    } else {
      StepAt(s, c, k);
      RelabelledIsServed(RecordedBy(s, c), c.now, k);
    }
  }

  lemma SilentStays(s: State, c: Scan, k: string)
    requires Silent(s, c, k)
    ensures Stays(s, c, k) && k in s.cache && k !in c.seen
  {
  }

  /** The memory does not learn of a missed stock record that is the only one of its speaker. */
  lemma MissedUnremembered(s: State, c: Scan, k: string)
    requires Sane(s, c) && Silent(s, c, k) && Unguarded(s, k) && MissedEntry(s.cache[k], c.now).Kept?
    ensures var q, r := RecordedBy(s, c), StepBy(s, c);
            k in q.seen && (q.seen[k].id.kind == STR || q.seen[k].id.deviceID !in q.st.strKnown)
            && q.seen[k].id == s.cache[k].box.id
            && (s.cache[k].box.id.kind == STR || IDOf(s.cache[k]) == "" || IDOf(s.cache[k]) !in r.st.strKnown)
  {
    hide InvBase, KeyedSightings, Fits, Silent, SweptBy, PinnedBy, RecordedBy, StepBy, MissedEntry, Stays, DegradesID;
    SilentUnmoved(s, c, k);
    SilentStays(s, c, k);
    SweptMissed(s, c, k);
    UnpinnedBy(s, c, k);
    MissedKindKept(s.cache[k], c.now);
    StepAt(s, c, k);
    var id := IDOf(s.cache[k]);
    if s.cache[k].box.id.kind == Stock {
      StepMemory(s, c, id);
      RecordedKeyedBy(s, c);
      if id != "" {
        RecordedMemory(s, c, id);
        forall j | Records(PinnedBy(s, c).seen, c.presenceOnly, j, id) ensures false {
          AlonePinned(s, c, k, j);
        }
      }
    }
  }

  // ----- over a run -----

  /** The event leaves the speaker at `k` alone: a cycle does not reach it nor take its record for another
      one's duplicate, and nothing else is done at its address or adds it at another one. */
  ghost predicate Misses(s: State, e: Event, k: string) {
    match e
    case Discover(c, reachable) => Fits(s, c) && Silent(s, c, k) && Spared(s, c, reachable, k)
    case OTAStarted(host, _) => host != k
    case _ => Elsewhere(s, e, k)
  }

  ghost predicate OnlyMisses(s: State, run: seq<Event>, k: string) {
    run == [] ||
    (OnlyMisses(s, run[..|run| - 1], k) && Misses(After(s, run[..|run| - 1]), run[|run| - 1], k))
  }

  /** The time of the first cycle of a run. */
  function FirstCycle(run: seq<Event>): Option<int> {
    if run == [] then None
    else
      var first := FirstCycle(run[..|run| - 1]);
      if first.Some? then first else if run[|run| - 1].Discover? then Some(run[|run| - 1].scan.now) else None
  }

  /** The served record of a speaker whose miss streak is `age` seconds old. */
  function AgedBox(b: BoxInfo, age: int): BoxInfo {
    var greyed := age > (if b.id.kind == STR then 6 * 60 else 100);
    b.(cycle := b.cycle.(
      unreachable := true,
      offline := if greyed then true else b.cycle.offline,
      offlineSinceSec := if greyed then age else b.cycle.offlineSinceSec))
  }

  lemma QuietNext(s: State, e: Event, k: string)
    requires Misses(s, e, k) && !e.Discover? && Unguarded(s, k)
    ensures k in Next(s, e).cache && Next(s, e).cache[k] == s.cache[k] && Unguarded(Next(s, e), k)
  {
    hide Alone, Next;
    SameAside(s, e, k);
    KnownAside(s, e);
    if Alone(s, k) { AloneAside(s, e, k); }
  }

  lemma MissedNext(s: State, e: Event, k: string)
    requires InvBase(s) && e.Discover? && Admissible(s, e) && Misses(s, e, k) && Unguarded(s, k)
    ensures var t0 := if s.cache[k].firstMiss.Some? then s.cache[k].firstMiss.value else e.scan.now;
            if e.scan.now - t0 > OFFLINE_RETENTION then k !in Next(s, e).cache
            else
              && k in Next(s, e).cache && Next(s, e).cache[k] == s.cache[k].(firstMiss := Some(t0))
              && Unguarded(Next(s, e), k)
    ensures Unguarded(s, k) ==> k in s.cache
  {
    hide InvBase, StepBy, KeyedSightings, Fits, Silent, Discovered, Spared;
    MissedStep(s, e.scan, k);
    CycleAt(s, e.scan, e.reachable, k);
    CycleSubset(s, e.scan, e.reachable);
    if k in Next(s, e).cache { UnguardedFewer(StepBy(s, e.scan).st, Next(s, e), k); }
  }

  /** Fewer records elsewhere guard nothing. */
  lemma UnguardedFewer(s: State, t: State, k: string)
    requires Unguarded(s, k) && k in t.cache && t == s.(cache := t.cache)
    requires forall j :: j in t.cache ==> j in s.cache && t.cache[j] == s.cache[j]
    ensures Unguarded(t, k)
  {
  }

  /** A run in which the speaker at `k` only misses, all but the last event within a day of the first miss. */
  ghost predicate WithinADay(run: seq<Event>) {
    forall i :: 0 <= i < |run| - 1 && run[i].Discover? && FirstCycle(run).Some?
                ==> 0 <= run[i].scan.now - FirstCycle(run).value <= OFFLINE_RETENTION
  }

  /**
   A cached speaker that only misses keeps its entry and its record, stamped
   with the first missed cycle, as long as that cycle is no more than a day
   old; the first cycle after that drops it.
   */
  lemma {:induction false} RetainedForADay(s: State, run: seq<Event>, k: string)
    requires InvBase(s) && AdmissibleRun(s, run) && OnlyMisses(s, run, k) && WithinADay(run)
    requires Unguarded(s, k) && s.cache[k].firstMiss == None
    ensures var t := After(s, run);
            match FirstCycle(run)
            case None => k in t.cache && t.cache[k] == s.cache[k] && Unguarded(t, k)
            case Some(t0) =>
              if run[|run| - 1].Discover? && run[|run| - 1].scan.now - t0 > OFFLINE_RETENTION then k !in t.cache
              else k in t.cache && t.cache[k] == s.cache[k].(firstMiss := Some(t0)) && Unguarded(t, k)
  {
    hide InvBase, StepBy, Silent, Next, Admissible, MissedEntry, Unguarded;
    UnguardedCached(s, k);
    if run != [] {
      var rest, last := run[..|run| - 1], run[|run| - 1];
      assert FirstCycle(rest).Some? ==> FirstCycle(run) == FirstCycle(rest);
      assert WithinADay(rest);
      assert rest != [] ==> rest[|rest| - 1] == run[|rest| - 1];
      RetainedForADay(s, rest, k);
      InvBaseRun(s, rest);
      var mid := After(s, rest);
      if last.Discover? {
        MissedNext(mid, last, k);
      } else {
        QuietNext(mid, last, k);
      }
    }
  }

  lemma UnguardedCached(s: State, k: string)
    requires Unguarded(s, k)
    ensures k in s.cache
  {
  }

  /** The entry a run of misses hands to its last cycle. */
  lemma MissingBefore(s: State, run: seq<Event>, c: Scan, reachable: Option<set<string>>, k: string)
    requires var e := Discover(c, reachable);
             InvBase(s) && AdmissibleRun(s, run + [e]) && OnlyMisses(s, run + [e], k) && WithinADay(run + [e])
    requires Unguarded(s, k) && s.cache[k].firstMiss == None
    ensures var t := After(s, run);
            && InvBase(t) && Admissible(t, Discover(c, reachable)) && Misses(t, Discover(c, reachable), k)
            && Unguarded(t, k)
            && k in t.cache && t.cache[k].box == s.cache[k].box
            && FirstCycle(run + [Discover(c, reachable)]) ==
               Some(if t.cache[k].firstMiss.Some? then t.cache[k].firstMiss.value else c.now)
  {
    hide InvBase, Silent, After, Spared, Fits, KeyedSightings, AdmissibleRun, OnlyMisses, Admissible, Misses;
    var e := Discover(c, reachable);
    var all := run + [e];
    assert all[..|all| - 1] == run && all[|all| - 1] == e;
    LastAdmissible(s, run, e);
    LastMisses(s, run, e, k);
    WithinADayPrefix(run, e);
    RetainedForADay(s, run, k);
    InvBaseRun(s, run);
    assert FirstCycle(run).Some? && run[|run| - 1].Discover? ==> all[|run| - 1] == run[|run| - 1];
  }

  /**
   What such a run serves: the cached record, marked unreachable, and greyed
   exactly when the streak is older than the grace of the speaker's kind.
   */
  lemma ServedWhileMissing(s: State, run: seq<Event>, c: Scan, reachable: Option<set<string>>, k: string)
    requires var e := Discover(c, reachable);
             InvBase(s) && AdmissibleRun(s, run + [e]) && OnlyMisses(s, run + [e], k) && WithinADay(run + [e])
    requires Unguarded(s, k) && s.cache[k].firstMiss == None
    ensures Fits(After(s, run), c)
    ensures var t0 := FirstCycle(run + [Discover(c, reachable)]).value;
            Lookup(Discovered(After(s, run), c, reachable).seen, k) ==
            if c.now - t0 > OFFLINE_RETENTION then None else Some(AgedBox(s.cache[k].box, c.now - t0))
  {
    hide InvBase, StepBy, Silent, After, Spared, Discovered, Fits, KeyedSightings, AdmissibleRun, OnlyMisses,
         WithinADay, FirstCycle, Unguarded;
    UnguardedCached(s, k);
    MissingBefore(s, run, c, reachable, k);
    MissedStep(After(s, run), c, k);
    CycleAt(After(s, run), c, reachable, k);
  }

  lemma LastAdmissible(s: State, run: seq<Event>, e: Event)
    requires AdmissibleRun(s, run + [e])
    ensures AdmissibleRun(s, run) && Admissible(After(s, run), e)
  {
    hide Admissible;
    assert (run + [e])[..|run|] == run;
  }

  lemma LastMisses(s: State, run: seq<Event>, e: Event, k: string)
    requires OnlyMisses(s, run + [e], k)
    ensures OnlyMisses(s, run, k) && Misses(After(s, run), e, k)
  {
    hide Misses;
    assert (run + [e])[..|run|] == run;
  }

  lemma WithinADayPrefix(run: seq<Event>, e: Event)
    requires WithinADay(run + [e])
    ensures WithinADay(run)
    ensures run != [] && run[|run| - 1].Discover?
            ==> 0 <= run[|run| - 1].scan.now - FirstCycle(run).value <= OFFLINE_RETENTION
  {
    var all := run + [e];
    assert all[..|all| - 1] == run;
    if run != [] { assert all[|run| - 1] == run[|run| - 1]; }
    forall i | 0 <= i < |run| - 1 && run[i].Discover? && FirstCycle(run).Some?
      ensures 0 <= run[i].scan.now - FirstCycle(run).value <= OFFLINE_RETENTION
    {
      assert all[i] == run[i];
    }
  }

  // ----- a sighting ends the streak -----

  /** The refresh of a sighting: the entry is of this cycle, with no miss streak, and its record is marked
      neither greyed nor unreachable; it is the cached record of the same speaker merged with the sighting, or the
      sighting itself, unless the third silent sighting over two minutes degrades it. */
  lemma RefreshedEntryIs(prev: Option<Entry>, b: BoxInfo, presenceOnly: bool, pinned: bool, now: int)
    ensures var e := RefreshedEntry(prev, b, presenceOnly, pinned, now);
            var same := prev.Some? && !DifferentDevices(prev.value.box, b);
            var box := Cleared(if same then MergeBoxInfo(prev.value.box, b) else b);
            var silent := presenceOnly && same && box.id.kind == STR;
            var misses := if silent then prev.value.strMisses + 1 else 0;
            var since := if silent && prev.value.strMissSince.Some? then prev.value.strMissSince.value else now;
            && e.seen == now && e.firstMiss == None
            && !e.box.cycle.offline && e.box.cycle.offlineSinceSec == 0 && !e.box.cycle.unreachable
            && if silent && !pinned && misses >= 3 && now - since >= 120 then
                 e.strMisses == 0 && e.strMissSince == None && e.box == DegradeToSTRNotRunning(box)
               else e.box == box && e.strMisses == misses && e.strMissSince == (if silent then Some(since) else None)
  {
    hide MergeBoxInfo, DifferentDevices;
  }

  function Cleared(b: BoxInfo): BoxInfo {
    b.(cycle := Cycle(false, 0, false, b.cycle.strNotRunning, b.cycle.strSilent, b.cycle.otaPending))
  }

  /** Whatever streak it had, a sighted speaker is cached by this cycle's entry with no miss streak, through the
      moves, the pins, the memory and the relabelling. */
  lemma SightingEndsStreak(s: State, c: Scan, k: string)
    requires Sane(s, c) && k in c.seen
    ensures var t := StepBy(s, c).st;
            k in t.cache && t.cache[k].firstMiss == None && t.cache[k].seen == c.now
  {
    hide InvBase, KeyedSightings, Fits, SweptBy, PinnedBy, RecordedBy, StepBy, Live, HoldPins, Correct, EntryAt, IDAt,
         RelabelAt, RelabelledBox, PinAt, StockAt, CorrectedEntry;
    StepCaches(s, c, k);
    SweptSighted(s, c, k);
    SweptFrame(s, c);
    RefreshedEntryIs(Lookup(s.cache, k), c.seen[k], k in c.presenceOnly, k in s.otaPinned, c.now);
    PinnedIs(s, c);
    StepAt(s, c, k);
    var (w, moved) := SweptBy(s, c);
    assert EntryAt(s, c, k).firstMiss == None && EntryAt(s, c, k).seen == c.now by { EntryAtIs(s, c, k); }
    PinsKeepFresh(w, moved, Live(s, c), c.now, k);
  }

  lemma EntryAtIs(s: State, c: Scan, k: string)
    requires k in c.seen
    ensures EntryAt(s, c, k)
            == RefreshedEntry(Lookup(s.cache, k), c.seen[k], k in c.presenceOnly, k in s.otaPinned, c.now)
  {
    hide RefreshedEntry;
  }

  /** Both pins leave the entry of a sighted host without a streak. */
  lemma PinsKeepFresh(w: Work, moved: set<string>, live: map<string, string>, now: int, k: string)
    requires k in w.st.cache && w.st.cache[k].firstMiss == None && w.st.cache[k].seen == now
    ensures var p := Correct(HoldPins(w, moved, live, now), now);
            k in p.st.cache && p.st.cache[k].firstMiss == None && p.st.cache[k].seen == now
  {
    hide BoxIsDevice, MinimalBox, CorrectedBox;
    HoldPinsAt(w, moved, live, now, k);
    CorrectAt(HoldPins(w, moved, live, now), now, k);
    hide HoldPins, Correct;
  }

  /** So does everything else that writes a record of it: an uninstall and a manual add. */
  lemma WrittenAfresh(s: State, e: Event, k: string)
    requires (e.Uninstalled? && e.host == k && k in s.cache && k != "") || (e.Added? && e.box.id.host == k)
    ensures k in Next(s, e).cache && Next(s, e).cache[k].firstMiss == None && Next(s, e).cache[k].seen == e.now
  {
    hide UninstalledBox, WithoutHost;
  }

  /**
   However long a speaker had missed before, after a cycle that sights it the
   day starts over: it keeps its entry through every cycle within a day of the
   first one that misses it again, and goes in the first cycle after.
   */
  lemma RetainedAfterSighting(s: State, c: Scan, reachable: Option<set<string>>, run: seq<Event>, k: string)
    requires InvBase(s) && Admissible(s, Discover(c, reachable)) && k in c.seen
    requires var t := Next(s, Discover(c, reachable));
             Unguarded(t, k) && AdmissibleRun(t, run) && OnlyMisses(t, run, k) && WithinADay(run)
    ensures var t := Next(s, Discover(c, reachable));
            var after := After(t, run);
            && k in t.cache
            && match FirstCycle(run)
               case None => k in after.cache && after.cache[k] == t.cache[k]
               case Some(t0) =>
                 if run[|run| - 1].Discover? && run[|run| - 1].scan.now - t0 > 24 * 3600 then k !in after.cache
                 else k in after.cache && after.cache[k] == t.cache[k].(firstMiss := Some(t0))
  {
    hide InvBase, StepBy, Silent, Discovered, Admissible, KeyedSightings, Fits, Unguarded, OnlyMisses, AdmissibleRun;
    RestartedBy(s, c, reachable, k);
    InvBaseNext(s, Discover(c, reachable));
    RetainedForADay(Next(s, Discover(c, reachable)), run, k);
  }

  /** When the streak of a speaker that a cycle at `now` misses after `run` began. */
  function StreakStart(run: seq<Event>, now: int): int {
    if FirstCycle(run).Some? then FirstCycle(run).value else now
  }

  lemma StreakStartIs(run: seq<Event>, c: Scan, reachable: Option<set<string>>)
    ensures FirstCycle(run + [Discover(c, reachable)]) == Some(StreakStart(run, c.now))
  {
    var all := run + [Discover(c, reachable)];
    assert all[..|all| - 1] == run && all[|all| - 1] == Discover(c, reachable);
  }

  /** The speaker misses through the run and once more. */
  ghost predicate MissesOnceMore(t: State, run: seq<Event>, c: Scan, reachable: Option<set<string>>, k: string) {
    var all := run + [Discover(c, reachable)];
    AdmissibleRun(t, all) && OnlyMisses(t, all, k) && WithinADay(all)
  }

  /** And it is served in each of them, greyed by the age of the new streak alone. */
  lemma ServedAfterSighting(s: State, e: Event, t: State, run: seq<Event>, c: Scan, reachable: Option<set<string>>,
                            k: string)
    requires InvBase(s) && Admissible(s, e) && e.Discover? && k in e.scan.seen && t == Next(s, e) && Unguarded(t, k)
    requires MissesOnceMore(t, run, c, reachable, k)
    ensures Fits(After(t, run), c) && k in t.cache
    ensures Lookup(Discovered(After(t, run), c, reachable).seen, k) ==
            if c.now - StreakStart(run, c.now) > 24 * 3600 then None
            else Some(AgedBox(t.cache[k].box, c.now - StreakStart(run, c.now)))
  {
    hide InvBase, StepBy, Silent, Discovered, Admissible, KeyedSightings, Fits, Unguarded, OnlyMisses, AdmissibleRun,
         After, WithinADay, FirstCycle, Next, AgedBox, StreakStart;
    RestartedBy(s, e.scan, e.reachable, k);
    InvBaseNext(s, e);
    StreakStartIs(run, c, reachable);
    ServedWhileMissing(t, run, c, reachable, k);
  }

  lemma RestartedBy(s: State, c: Scan, reachable: Option<set<string>>, k: string)
    requires InvBase(s) && Admissible(s, Discover(c, reachable)) && k in c.seen
    requires Unguarded(Next(s, Discover(c, reachable)), k)
    ensures var t := Next(s, Discover(c, reachable));
            k in t.cache && t.cache[k].firstMiss == None && t.cache[k].seen == c.now
  {
    hide InvBase, StepBy, Discovered, KeyedSightings, Fits;
    SightingEndsStreak(s, c, k);
    CycleAt(s, c, reachable, k);
  }
}
