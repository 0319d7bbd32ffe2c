/**
 Everything the app does to the discovery state: cycles, with or without the
 collapse of duplicates a full discovery ends with, the two pins, the forgetting
 after an uninstall, the manual add; and runs of all of it.
 */
module DiscoveryEvents {
  import opened BoxRecords
  import opened DiscoveryInvariant
  import opened DiscoveryRules
  import opened DiscoveryRun
  import opened DiscoveryScan
  import opened DiscoverySpec
  import opened DiscoveryStep
  import opened Options
  import opened SpeakerGroups

  /** `notePostOTA`: the host is mid-update from `now` on, for the speaker cached there. */
  function NotePostOTA(s: State, host: string, now: int): State {
    if host == "" then s
    else
      s.(otaPinned := s.otaPinned[host := now],
         otaPinnedID := if host in s.cache && IDOf(s.cache[host]) != "" then s.otaPinnedID[host := IDOf(s.cache[host])]
                        else s.otaPinnedID - {host},
         stockPinned := s.stockPinned - {host})
  }

  /** `clearPostOTA`: the update never reached the host. */
  function ClearPostOTA(s: State, host: string): State {
    if host == "" then s else s.(otaPinned := s.otaPinned - {host}, otaPinnedID := s.otaPinnedID - {host})
  }

  /** An update that never reached its host leaves nothing behind but the post-uninstall pin it lifted. */
  lemma FailedUpdateUndone(s: State, host: string, now: int)
    requires host !in s.otaPinned && host !in s.otaPinnedID
    ensures ClearPostOTA(NotePostOTA(s, host, now), host)
            == if host == "" then s else s.(stockPinned := s.stockPinned - {host})
  {
    var t := ClearPostOTA(NotePostOTA(s, host, now), host);
    assert host != "" ==> t.otaPinned == s.otaPinned && t.otaPinnedID == s.otaPinnedID;
  }

  /** No pin is left at the host, and every other one stands. */
  lemma FailedUpdateUnpins(s: State, host: string, k: string)
    requires host != ""
    ensures var t := ClearPostOTA(s, host);
            && t.cache == s.cache && t.strKnown == s.strKnown && t.stockPinned == s.stockPinned
            && Lookup(t.otaPinned, k) == (if k == host then None else Lookup(s.otaPinned, k))
            && Lookup(t.otaPinnedID, k) == (if k == host then None else Lookup(s.otaPinnedID, k))
  {
  }

  /** The memories that go when STR is known to be gone from `host`. */
  function WithoutHost(s: State, host: string): map<string, Entry> {
    map id | id in s.strKnown && s.strKnown[id].box.id.host != host
      && !(host in s.cache && IDOf(s.cache[host]) == id != "")
           :: s.strKnown[id]
  }

  /** The stock record an uninstall leaves in the cache. */
  function UninstalledBox(b: BoxInfo): BoxInfo {
    var c := CorrectedBox(b);
    c.(cycle := c.cycle.(offline := false, offlineSinceSec := 0))
  }

  /** `markHostStock`, with the cache keyed by address. */
  function MarkHostStock(s: State, host: string, now: int): State {
    if host == "" then s
    else
      s.(cache := if host in s.cache then s.cache[host := NewEntry(UninstalledBox(s.cache[host].box), now)]
        else s.cache,
         strKnown := WithoutHost(s, host),
         otaPinned := s.otaPinned - {host},
         otaPinnedID := s.otaPinnedID - {host},
         stockPinned := s.stockPinned[host := now])
  }

  /** `forgetSTRDeviceByHost`, with the cache keyed by address. */
  function ForgetHost(s: State, host: string): State {
    if host == "" then s else s.(cache := s.cache - {host}, strKnown := WithoutHost(s, host))
  }

  /** The cache write of a manual add. */
  function AddBox(s: State, b: BoxInfo, now: int): State {
    s.(cache := s.cache[b.id.host := NewEntry(b, now)])
  }

  // ----- a cycle, and the collapse a full discovery ends with -----

  /** What the collapse of the duplicates in the list leaves of the list and the cache. */
  ghost function Deduped(w: Work, reachable: set<string>): Work {
    var kept := Collapsed(w.seen, reachable);
    Work(w.st.(cache := w.st.cache - (w.seen.Keys - kept.Keys)), kept)
  }

  /** A cycle; a full discovery, which knows the reachable addresses, collapses its duplicates. */
  ghost function Discovered(s: State, c: Scan, reachable: Option<set<string>>): Work
    requires Fits(s, c)
  {
    var r := StepBy(s, c);
    if reachable.Some? then Deduped(r, reachable.value) else r
  }

  /** The collapse does not take the record at `k` for another one's duplicate. */
  ghost predicate Spared(s: State, c: Scan, reachable: Option<set<string>>, k: string)
    requires Fits(s, c)
  {
    reachable.Some? && k in StepBy(s, c).seen ==> Survives(StepBy(s, c).seen, reachable.value, k)
  }

  /** A record that shares no id and no reported address with another one is never taken for a duplicate. */
  lemma UnlinkedSpared(s: State, c: Scan, reachable: Option<set<string>>, k: string)
    requires Fits(s, c) && forall j :: Linked(StepBy(s, c).seen, k, j) ==> j == k
    ensures Spared(s, c, reachable, k)
  {
    hide StepBy, Fits, Linked, Survives;
    if reachable.Some? && k in StepBy(s, c).seen { UnlinkedStays(StepBy(s, c).seen, reachable.value, k); }
  }

  lemma DedupedAt(w: Work, reachable: set<string>, k: string)
    ensures var r := Deduped(w, reachable);
            && (r.seen.Keys <= w.seen.Keys && r.st.cache.Keys <= w.st.cache.Keys && r.st == w.st.(cache := r.st.cache))
            && Lookup(r.seen, k) == (if k in w.seen && Survives(w.seen, reachable, k) then Some(w.seen[k]) else None)
            && (k in r.st.cache <==> k in w.st.cache && (k in w.seen ==> k in r.seen))
            && (k in r.st.cache ==> r.st.cache[k] == w.st.cache[k])
  {
    hide Survives;
  }

  /** A cycle leaves a spared record as the merge left it, and takes nothing but records away. */
  lemma CycleAt(s: State, c: Scan, reachable: Option<set<string>>, k: string)
    requires Sane(s, c)
    ensures var w, r := StepBy(s, c), Discovered(s, c, reachable);
            && r.seen.Keys <= w.seen.Keys && r.st.cache.Keys <= w.st.cache.Keys && r.st == w.st.(cache := r.st.cache)
            && (k in r.seen ==> r.seen[k] == w.seen[k]) && (k in r.st.cache ==> r.st.cache[k] == w.st.cache[k])
            && (k in w.seen && Spared(s, c, reachable, k) <==> k in r.seen)
            && (Spared(s, c, reachable, k) ==> Lookup(r.seen, k) == Lookup(w.seen, k)
                                               && Lookup(r.st.cache, k) == Lookup(w.st.cache, k))
            && (k in r.st.cache ==> k in r.seen)
  {
    hide StepBy, InvBase, KeyedSightings, Fits, Survives, ServedAt;
    StepServed(s, c);
    ServedIn(StepBy(s, c), k);
    if reachable.Some? { DedupedAt(StepBy(s, c), reachable.value, k); }
    hide Deduped;
  }

  lemma CycleSubset(s: State, c: Scan, reachable: Option<set<string>>)
    requires Fits(s, c)
    ensures var w, r := StepBy(s, c), Discovered(s, c, reachable);
            r.st == w.st.(cache := r.st.cache) && forall j :: j in r.st.cache ==> j in w.st.cache
                                                                                  && r.st.cache[j] == w.st.cache[j]
  {
    hide StepBy, Fits, Deduped;
    if reachable.Some? { DedupedSubset(StepBy(s, c), reachable.value); }
  }

  lemma ServedIn(w: Work, k: string)
    requires Served(w)
    ensures k in w.st.cache ==> k in w.seen
  {
    assert ServedAt(w, k);
  }

  /** One address for every id: whatever the list was. */
  lemma DedupedUnique(w: Work, reachable: set<string>)
    requires Served(w)
    ensures var r := Deduped(w, reachable);
            Served(r) && OneAddressPerID(r.seen) && OneAddressPerEntry(r.st.cache)
  {
    hide Survives, Linked, Connected, Deduped;
    var r := Deduped(w, reachable);
    forall k ensures ServedAt(r, k) {
      assert ServedAt(w, k);
      DedupedAt(w, reachable, k);
    }
    forall x, y | x in r.seen && y in r.seen && r.seen[x].id.deviceID == r.seen[y].id.deviceID != "" ensures x == y {
      if x != y {
        DedupedAt(w, reachable, x);
        DedupedAt(w, reachable, y);
        SameIDLinked(w.seen, x, y);
        DedupedIsCollapsed(w, reachable);
        CollapsedApart(w.seen, reachable, x, y);
      }
    }
    ServedEntries(r);
  }

  lemma DedupedIsCollapsed(w: Work, reachable: set<string>)
    ensures Deduped(w, reachable).seen == Collapsed(w.seen, reachable)
  {
    hide Survives;
  }

  lemma SameIDLinked(seen: Sightings, x: string, y: string)
    requires x in seen && y in seen && seen[x].id.deviceID == seen[y].id.deviceID != ""
    ensures Linked(seen, x, y)
  {
  }

  lemma ServedEntries(w: Work)
    requires Served(w) && OneAddressPerID(w.seen)
    ensures OneAddressPerEntry(w.st.cache)
  {
    forall j, k | j in w.st.cache && k in w.st.cache
      && IDOf(w.st.cache[j]) == IDOf(w.st.cache[k]) != ""
      ensures j == k
    {
      assert ServedAt(w, j) && ServedAt(w, k);
    }
  }

  /**
   A full discovery, whatever it sights and in whatever order: everything
   cached is served under its own id, and no id is left at two addresses.
   */
  lemma CollapseRestores(s: State, c: Scan, reachable: set<string>)
    requires Sane(s, c)
    ensures var r := Discovered(s, c, Some(reachable));
            Served(r) && OneAddressPerID(r.seen) && InvBase(r.st) && OneAddressPerEntry(r.st.cache)
  {
    hide StepBy, KeyedSightings, Fits, OneAddressPerID, OneAddressPerEntry, PinsKeyed, MemoryKeyed, Deduped;
    StepServed(s, c);
    InvBaseStep(s, c);
    DedupedUnique(StepBy(s, c), reachable);
    InvBaseSubset(StepBy(s, c).st, Discovered(s, c, Some(reachable)).st) by { DedupedSubset(StepBy(s, c), reachable); }
  }

  lemma DedupedSubset(w: Work, reachable: set<string>)
    ensures var r := Deduped(w, reachable);
            && r.st == w.st.(cache := r.st.cache)
            && (forall k :: k in r.st.cache ==> k in w.st.cache && r.st.cache[k] == w.st.cache[k])
  {
    hide Survives;
  }

  lemma InvBaseSubset(s: State, t: State)
    requires InvBase(s) && t == s.(cache := t.cache)
    requires forall k :: k in t.cache ==> k in s.cache && t.cache[k] == s.cache[k]
    ensures InvBase(t)
  {
    hide MemoryKeyed;
  }

  /** The collapse drops the address a pin still names a speaker at, and keeps another one of that speaker. */
  ghost predicate DropsPinned(s: State, c: Scan, reachable: set<string>, h: string)
    requires Fits(s, c)
  {
    var r := Discovered(s, c, Some(reachable));
    h in r.st.otaPinnedID && h !in r.seen && exists k :: k in r.seen && r.seen[k].id.deviceID == r.st.otaPinnedID[h]
  }

  /** A full discovery keeps the invariant exactly unless its collapse drops a pinned address of a speaker
      it keeps elsewhere. */
  lemma InvCollapse(s: State, c: Scan, reachable: set<string>)
    requires Inv(s) && Sane(s, c)
    ensures Inv(Discovered(s, c, Some(reachable)).st) <==> forall h :: !DropsPinned(s, c, reachable, h)
  {
    hide StepBy, KeyedSightings, Fits, OneAddressPerEntry, PinsKeyed, InvBase, Discovered, Survives, ServedAt,
         Unambiguous;
    var w, r := StepBy(s, c), Discovered(s, c, Some(reachable));
    CollapseRestores(s, c, reachable);
    StepPins(s, c);
    CycleAt(s, c, Some(reachable), "");
    PinsKeyedOf(r.st);
    if !PinsNamed(r.st) {
      var h, k :| h in r.st.otaPinnedID && k in r.st.cache && IDOf(r.st.cache[k]) == r.st.otaPinnedID[h] && k != h;
      CycleAt(s, c, Some(reachable), h);
      CycleAt(s, c, Some(reachable), k);
      ServedIn(r, k);
      CachedID(r, k);
      NamedTwice(s, c, h, k);
      assert DropsPinned(s, c, reachable, h);
    }
    forall h | DropsPinned(s, c, reachable, h) ensures !PinsNamed(r.st) {
      var k :| k in r.seen && r.seen[k].id.deviceID == r.st.otaPinnedID[h];
      CycleAt(s, c, Some(reachable), k);
      NamedTwice(s, c, h, k);
      CycleCaches(s, c, reachable, k);
      CachedID(r, k);
    }
  }

  lemma CachedID(w: Work, k: string)
    requires Served(w) && k in w.st.cache
    ensures k in w.seen && IDOf(w.st.cache[k]) == w.seen[k].id.deviceID
  {
    assert ServedAt(w, k);
  }

  lemma CycleCaches(s: State, c: Scan, reachable: set<string>, k: string)
    requires Sane(s, c) && k in c.seen && k in Discovered(s, c, Some(reachable)).seen
    ensures k in Discovered(s, c, Some(reachable)).st.cache
  {
    hide StepBy, InvBase, KeyedSightings, Fits, Survives;
    StepCaches(s, c, k);
    DedupedAt(StepBy(s, c), reachable, k);
    hide Deduped;
  }

  // ----- runs -----

  datatype Event =
    | Discover(scan: Scan, reachable: Option<set<string>>)
    | OTAStarted(host: string, now: int)
    | OTAFailed(host: string)
    | Uninstalled(host: string, now: int)
    | Forgotten(host: string)
    | Added(box: BoxInfo, now: int)

  /** What each event brings: sightings under their own addresses, loops that visit the keys there are, a
      manual add with an address. */
  ghost predicate Admissible(s: State, e: Event) {
    match e
    case Discover(c, _) => KeyedSightings(c.seen) && Fits(s, c)
    case Added(b, _) => b.id.host != ""
    case _ => true
  }

  ghost function Next(s: State, e: Event): State {
    match e
    case Discover(c, reachable) => if Fits(s, c) then Discovered(s, c, reachable).st else s
    case OTAStarted(host, now) => NotePostOTA(s, host, now)
    case OTAFailed(host) => ClearPostOTA(s, host)
    case Uninstalled(host, now) => MarkHostStock(s, host, now)
    case Forgotten(host) => ForgetHost(s, host)
    case Added(b, now) => AddBox(s, b, now)
  }

  ghost function After(s: State, run: seq<Event>): State {
    if run == [] then s else Next(After(s, run[..|run| - 1]), run[|run| - 1])
  }

  /** Every event of the run is admissible where it happens. */
  ghost predicate AdmissibleRun(s: State, run: seq<Event>) {
    run == [] ||
    (AdmissibleRun(s, run[..|run| - 1]) && Admissible(After(s, run[..|run| - 1]), run[|run| - 1]))
  }

  const EMPTY: State := State(map[], map[], map[], map[], map[])

  lemma InvEmpty()
    ensures Inv(EMPTY)
  {
  }

  lemma WithoutHostKeyed(s: State, host: string)
    requires MemoryKeyed(s.strKnown)
    ensures MemoryKeyed(WithoutHost(s, host))
  {
  }

  lemma UninstalledBoxID(b: BoxInfo)
    ensures UninstalledBox(b).id == b.id.(kind := Stock, port := 8090, portVerified := false)
    ensures UninstalledBox(b).agent.version == "" && !UninstalledBox(b).cycle.strNotRunning
    ensures !UninstalledBox(b).cycle.offline && UninstalledBox(b).cycle.offlineSinceSec == 0
    ensures !UninstalledBox(b).cycle.otaPending && !UninstalledBox(b).cycle.strSilent
  {
  }

  lemma InvBaseUninstalled(s: State, host: string, now: int)
    requires InvBase(s)
    ensures InvBase(MarkHostStock(s, host, now))
  {
    hide UninstalledBox, WithoutHost, MemoryKeyed;
    WithoutHostKeyed(s, host);
    if host in s.cache { UninstalledBoxID(s.cache[host].box); }
  }

  lemma InvBaseForgotten(s: State, host: string)
    requires InvBase(s)
    ensures InvBase(ForgetHost(s, host))
  {
    hide WithoutHost, MemoryKeyed;
    WithoutHostKeyed(s, host);
  }

  lemma InvBaseAside(s: State, e: Event)
    requires InvBase(s) && Admissible(s, e) && !e.Discover?
    ensures InvBase(Next(s, e))
  {
    hide MarkHostStock, ForgetHost, MemoryKeyed;
    match e
    case Uninstalled(host, now) => InvBaseUninstalled(s, host, now);
    case Forgotten(host) => InvBaseForgotten(s, host);
    case _ =>
  }

  lemma InvBaseNext(s: State, e: Event)
    requires InvBase(s) && Admissible(s, e)
    ensures InvBase(Next(s, e))
  {
    hide InvBase, KeyedSightings, Fits, StepBy, Deduped, OneAddressPerID, OneAddressPerEntry, Served, NotePostOTA,
         ClearPostOTA, MarkHostStock, ForgetHost, AddBox;
    if e.Discover? {
      InvBaseStep(s, e.scan);
      if e.reachable.Some? { CollapseRestores(s, e.scan, e.reachable.value); }
    } else {
      InvBaseAside(s, e);
    }
  }

  /** Every state of a run: records and memories filed as they name themselves, pins that are pins. */
  lemma {:induction false} InvBaseRun(s: State, run: seq<Event>)
    requires InvBase(s) && AdmissibleRun(s, run)
    ensures InvBase(After(s, run))
  {
    if run != [] {
      InvBaseRun(s, run[..|run| - 1]);
      hide Next, Admissible, InvBase;
      InvBaseNext(After(s, run[..|run| - 1]), run[|run| - 1]);
    }
  }

  /** What keeps every device id at one address: no speaker sighted at two where nothing collapses them, no
      pinned address given up where something does, and a manual add of a speaker known nowhere else. */
  ghost predicate Sound(s: State, e: Event) {
    match e
    case Discover(c, None) => Unambiguous(s, c.seen)
    case Discover(c, Some(reachable)) => Fits(s, c) ==> forall h :: !DropsPinned(s, c, reachable, h)
    case Added(b, _) =>
      b.id.deviceID != "" ==>
        && (forall k :: k in s.cache && k != b.id.host ==> IDOf(s.cache[k]) != b.id.deviceID)
        && (forall h :: h in s.otaPinnedID && h != b.id.host ==> s.otaPinnedID[h] != b.id.deviceID)
    case _ => true
  }

  ghost predicate SoundRun(s: State, run: seq<Event>) {
    run == [] ||
    (SoundRun(s, run[..|run| - 1]) && Sound(After(s, run[..|run| - 1]), run[|run| - 1]))
  }

  /** No other event puts a device at a second address. */
  lemma InvAside(s: State, e: Event)
    requires Inv(s) && Admissible(s, e) && !e.Discover? && Sound(s, e)
    ensures Inv(Next(s, e))
  {
    hide UninstalledBox, WithoutHost, MemoryKeyed, InvBase;
    InvBaseAside(s, e);
    hide KeyedCache;
    match e
    case OTAStarted(host, now) => InvOTAStarted(s, host, now);
    case Uninstalled(host, now) => InvUninstalled(s, host, now);
    case Added(b, now) => InvAdded(s, b, now);
    case Forgotten(host) => PinsKeyedOf(s);
    case OTAFailed(host) => PinsKeyedOf(s);
  }

  lemma PinsKeyedOf(s: State)
    requires InvBase(s)
    ensures PinsKeyed(s)
  {
  }

  lemma InvOTAStarted(s: State, host: string, now: int)
    requires Inv(s)
    ensures var t := NotePostOTA(s, host, now);
            OneAddressPerEntry(t.cache) && PinsDistinct(t) && PinsNamed(t)
  {
    hide InvBase, PinsDistinct, PinsNamed;
    StartedPins(s, host, now);
    StartedNames(s, host, now);
    hide OneAddressPerEntry;
  }

  /** The pinned speaker is cached at the host, so no other pin names it. */
  lemma StartedPins(s: State, host: string, now: int)
    requires PinsDistinct(s) && PinsNamed(s)
    ensures PinsDistinct(NotePostOTA(s, host, now))
  {
  }

  lemma StartedNames(s: State, host: string, now: int)
    requires OneAddressPerEntry(s.cache) && PinsNamed(s)
    ensures PinsNamed(NotePostOTA(s, host, now))
  {
  }

  lemma InvUninstalled(s: State, host: string, now: int)
    requires Inv(s)
    ensures var t := MarkHostStock(s, host, now);
            OneAddressPerEntry(t.cache) && PinsDistinct(t) && PinsNamed(t)
  {
    hide MarkHostStock, InvBase, PinsDistinct, PinsNamed;
    UninstalledIDs(s, host, now);
    SameIDs(s.cache, MarkHostStock(s, host, now).cache);
    UninstalledPins(s, host, now);
  }

  lemma UninstalledIDs(s: State, host: string, now: int)
    ensures var t := MarkHostStock(s, host, now);
            t.cache.Keys == s.cache.Keys && forall k :: k in s.cache ==> IDOf(t.cache[k]) == IDOf(s.cache[k])
  {
    hide UninstalledBox, WithoutHost;
    if host in s.cache { UninstalledBoxID(s.cache[host].box); }
  }

  lemma UninstalledPins(s: State, host: string, now: int)
    requires PinsDistinct(s) && PinsNamed(s)
    ensures var t := MarkHostStock(s, host, now);
            PinsDistinct(t) && PinsNamed(t)
  {
    UninstalledIDs(s, host, now);
    hide UninstalledBox, WithoutHost, IDOf, NewEntry;
  }

  lemma SameIDs(a: map<string, Entry>, b: map<string, Entry>)
    requires a.Keys == b.Keys && OneAddressPerEntry(a)
    requires forall k :: k in a ==> IDOf(b[k]) == IDOf(a[k])
    ensures OneAddressPerEntry(b)
  {
  }

  lemma InvAdded(s: State, b: BoxInfo, now: int)
    requires Inv(s) && Sound(s, Added(b, now))
    ensures var t := AddBox(s, b, now);
            OneAddressPerEntry(t.cache) && PinsDistinct(t) && PinsNamed(t)
  {
    hide MemoryKeyed, KeyedCache;
  }

  lemma InvNext(s: State, e: Event)
    requires Inv(s) && Admissible(s, e) && Sound(s, e)
    ensures Inv(Next(s, e))
  {
    hide Inv, KeyedSightings, Fits, StepBy, DropsPinned, Discovered, NotePostOTA, ClearPostOTA, MarkHostStock,
         ForgetHost, AddBox, Unambiguous;
    if e.Discover? {
      assert InvBase(s) by { InvIsBase(s); }
      match e.reachable
      case None =>
        InvStep(s, e.scan);
        CycleAlone(s, e.scan);
      case Some(reachable) => InvCollapse(s, e.scan, reachable);
    } else {
      InvAside(s, e);
    }
  }

  lemma InvIsBase(s: State)
    requires Inv(s)
    ensures InvBase(s)
  {
  }

  lemma CycleAlone(s: State, c: Scan)
    requires Fits(s, c)
    ensures Discovered(s, c, None) == StepBy(s, c)
  {
  }

  /** Along a sound run no device id is ever left at two addresses, cached or pinned. */
  lemma {:induction false} InvRun(s: State, run: seq<Event>)
    requires Inv(s) && AdmissibleRun(s, run) && SoundRun(s, run)
    ensures Inv(After(s, run))
  {
    if run != [] {
      InvRun(s, run[..|run| - 1]);
      hide Next, Admissible, Inv, Sound;
      InvNext(After(s, run[..|run| - 1]), run[|run| - 1]);
    }
  }

  // ----- one speaker among the others -----

  /** The event, if it is not a cycle, does nothing to the record at `k` and adds its speaker nowhere else. */
  ghost predicate Elsewhere(s: State, e: Event, k: string) {
    match e
    case Discover(_, _) => true
    case OTAStarted(_, _) => true
    case OTAFailed(_) => true
    case Uninstalled(host, _) => host != k
    case Forgotten(host) => host != k
    case Added(b, _) => b.id.host != k && (k in s.cache && b.id.deviceID != "" ==> b.id.deviceID != IDOf(s.cache[k]))
  }

  lemma AloneOTAStarted(s: State, host: string, now: int, k: string)
    requires Alone(s, k)
    ensures Alone(NotePostOTA(s, host, now), k)
  {
  }

  lemma AloneOTAFailed(s: State, host: string, k: string)
    requires Alone(s, k)
    ensures Alone(ClearPostOTA(s, host), k)
  {
  }

  lemma AloneUninstalled(s: State, host: string, now: int, k: string)
    requires Alone(s, k)
    ensures Alone(MarkHostStock(s, host, now), k)
  {
    UninstalledIDs(s, host, now);
    hide UninstalledBox, WithoutHost, IDOf;
  }

  lemma AloneForgotten(s: State, host: string, k: string)
    requires Alone(s, k) && host != k
    ensures Alone(ForgetHost(s, host), k)
  {
    hide WithoutHost;
  }

  lemma AloneAdded(s: State, b: BoxInfo, now: int, k: string)
    requires Alone(s, k) && Elsewhere(s, Added(b, now), k)
    ensures Alone(AddBox(s, b, now), k)
  {
  }

  /** It stays the only one of its id. */
  lemma AloneAside(s: State, e: Event, k: string)
    requires Elsewhere(s, e, k) && !e.Discover? && Alone(s, k)
    ensures Alone(Next(s, e), k)
  {
    hide Alone, NotePostOTA, ClearPostOTA, MarkHostStock, ForgetHost, AddBox;
    match e
    case OTAStarted(host, now) => AloneOTAStarted(s, host, now, k);
    case OTAFailed(host) => AloneOTAFailed(s, host, k);
    case Uninstalled(host, now) => AloneUninstalled(s, host, now, k);
    case Forgotten(host) => AloneForgotten(s, host, k);
    case Added(b, now) => AloneAdded(s, b, now, k);
  }

  lemma SameAside(s: State, e: Event, k: string)
    requires Elsewhere(s, e, k) && !e.Discover?
    ensures Lookup(Next(s, e).cache, k) == Lookup(s.cache, k)
    ensures k in Next(s, e).stockPinned ==> k in s.stockPinned
    ensures k in Next(s, e).otaPinned ==> k in s.otaPinned || (e.OTAStarted? && e.host == k)
  {
    hide UninstalledBox, WithoutHost;
  }

  /** Only cycles add to the memory or change what it holds. */
  lemma KnownAside(s: State, e: Event)
    requires !e.Discover?
    ensures Next(s, e).strKnown.Keys <= s.strKnown.Keys
    ensures forall id :: id in Next(s, e).strKnown ==> Next(s, e).strKnown[id] == s.strKnown[id]
  {
    hide UninstalledBox;
  }

  // ----- the orders of the loops -----

  /** The same event, but for the orders in which the loops of a cycle visit their keys. */
  predicate SameButOrders(e: Event, f: Event) {
    if e.Discover? && f.Discover? then e.reachable == f.reachable && e.scan == f.scan.(o := e.scan.o) else e == f
  }

  /** No cycle of the run sights a speaker at two addresses. */
  ghost predicate UnambiguousRun(s: State, run: seq<Event>) {
    run == [] ||
    (UnambiguousRun(s, run[..|run| - 1])
     && (run[|run| - 1].Discover? ==> Unambiguous(After(s, run[..|run| - 1]), run[|run| - 1].scan.seen)))
  }

  lemma NextAnyOrder(s: State, e: Event, f: Event)
    requires Inv(s) && Admissible(s, e) && Admissible(s, f) && SameButOrders(e, f)
    requires e.Discover? ==> Unambiguous(s, e.scan.seen)
    ensures Next(s, e) == Next(s, f)
  {
    hide Inv, Step, StepSpec, ValidOrders, Unambiguous, Collapsed, KeyedSightings;
    if e.Discover? {
      StepAnyOrder(s, e.scan.seen, e.scan.presenceOnly, e.scan.now, e.scan.o);
      StepAnyOrder(s, e.scan.seen, e.scan.presenceOnly, e.scan.now, f.scan.o);
    }
  }

  /** Two runs that differ in the orders of their loops alone reach the same state, as long as no cycle
      sights a speaker at two addresses. */
  lemma {:induction false} RunAnyOrder(s: State, run: seq<Event>, other: seq<Event>)
    requires Inv(s) && AdmissibleRun(s, run) && AdmissibleRun(s, other) && SoundRun(s, run) && UnambiguousRun(s, run)
    requires |run| == |other| && forall i :: 0 <= i < |run| ==> SameButOrders(run[i], other[i])
    ensures After(s, run) == After(s, other)
  {
    hide Inv, Next, Admissible, Sound, Unambiguous, SameButOrders;
    if run != [] {
      var n := |run| - 1;
      RunAnyOrder(s, run[..n], other[..n]);
      InvRun(s, run[..n]);
      NextAnyOrder(After(s, run[..n]), run[n], other[n]);
    }
  }
}
