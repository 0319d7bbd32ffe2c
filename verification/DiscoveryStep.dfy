/**
 One discovery cycle as a function of the state, the sightings and the orders in
 which its loops happen to visit the keys of a map.

 Three loops write only at the key they visit, so their effect is a map
 comprehension. Four read or write across keys; they are folds over a visiting
 order, which DiscoveryOrder then shows to be immaterial when
 every device id is at one address.
 */
module DiscoveryStep {
  import opened BoxRecords
  import opened DiscoveryRules
  import opened FieldPolicy
  import opened Options

  type Sightings = map<string, BoxInfo>

  datatype State = State(
    cache: map<string, Entry>,
    otaPinned: map<string, int>,
    otaPinnedID: map<string, string>,
    stockPinned: map<string, int>,
    strKnown: map<string, Entry>)

  /** The state in the middle of a cycle, with the sightings as rewritten so far. */
  datatype Work = Work(st: State, seen: Sightings)

  /** The visiting orders of the four order-sensitive loops. */
  datatype Orders = Orders(sighted: seq<string>, cached: seq<string>, recorded: seq<string>, relabelled: seq<string>)

  /** `order` lists every key of `keys` once. */
  ghost predicate Visits(order: seq<string>, keys: set<string>) {
    && (forall k :: k in order <==> k in keys)
    && forall i, j :: 0 <= i < j < |order| ==> order[i] != order[j]
  }

  // ----- refresh -----

  function RefreshAt(s: State, seen: Sightings, presenceOnly: set<string>, now: int, k: string): Entry
    requires k in seen
  {
    RefreshedEntry(Lookup(s.cache, k), seen[k], k in presenceOnly, k in s.otaPinned, now)
  }

  predicate DegradesAt(s: State, seen: Sightings, presenceOnly: set<string>, now: int, k: string)
    requires k in seen
  {
    Degrades(Lookup(s.cache, k), seen[k], k in presenceOnly, k in s.otaPinned, now)
  }

  function RefreshedEntries(s: State, seen: Sightings, presenceOnly: set<string>, now: int): map<string, Entry> {
    map k | k in seen :: RefreshAt(s, seen, presenceOnly, now, k)
  }

  function RefreshedBoxes(s: State, seen: Sightings, presenceOnly: set<string>, now: int): Sightings {
    map k | k in seen :: RefreshAt(s, seen, presenceOnly, now, k).box
  }

  /** The ids of the speakers degraded among the keys in `done`: their memory goes. */
  function DegradedIDs(s: State, seen: Sightings, presenceOnly: set<string>, now: int, done: set<string>): set<string>
    requires done <= seen.Keys
  {
    set k | k in done
      && DegradesAt(s, seen, presenceOnly, now, k) :: RefreshAt(s, seen, presenceOnly, now, k).box.id.deviceID
  }

  lemma DegradedIDsNone(s: State, seen: Sightings, presenceOnly: set<string>, now: int)
    ensures DegradedIDs(s, seen, presenceOnly, now, {}) == {}
  {
  }

  lemma DegradedIDsOne(s: State, seen: Sightings, presenceOnly: set<string>, now: int, done: set<string>, k: string)
    requires done <= seen.Keys && k in seen
    ensures DegradedIDs(s, seen, presenceOnly, now, done + {k}) ==
            if DegradesAt(s, seen, presenceOnly, now, k)
            then DegradedIDs(s, seen, presenceOnly, now, done)
              + {RefreshAt(s, seen, presenceOnly, now, k).box.id.deviceID}
            else DegradedIDs(s, seen, presenceOnly, now, done)
  {
    hide DegradesAt, RefreshAt;
  }

  function Refresh(s: State, seen: Sightings, presenceOnly: set<string>, now: int): Work {
    Work(
      s.(cache := s.cache + RefreshedEntries(s, seen, presenceOnly, now),
         strKnown := s.strKnown - DegradedIDs(s, seen, presenceOnly, now, seen.Keys)),
      RefreshedBoxes(s, seen, presenceOnly, now))
  }

  lemma RefreshedAt(s: State, seen: Sightings, presenceOnly: set<string>, now: int, k: string)
    requires k in seen
    ensures var e := RefreshedEntry(Lookup(s.cache, k), seen[k], k in presenceOnly, k in s.otaPinned, now);
            && RefreshAt(s, seen, presenceOnly, now, k) == e
            && Lookup(RefreshedEntries(s, seen, presenceOnly, now), k) == Some(e)
            && Lookup(RefreshedBoxes(s, seen, presenceOnly, now), k) == Some(e.box)
    ensures DegradesAt(s, seen, presenceOnly, now, k) <==>
            Degrades(Lookup(s.cache, k), seen[k], k in presenceOnly, k in s.otaPinned, now)
  {
    hide RefreshedEntry, Degrades;
  }

  lemma RefreshParts(s: State, seen: Sightings, presenceOnly: set<string>, now: int)
    ensures Refresh(s, seen, presenceOnly, now) == Work(
      s.(cache := s.cache + RefreshedEntries(s, seen, presenceOnly, now),
         strKnown := s.strKnown - DegradedIDs(s, seen, presenceOnly, now, seen.Keys)),
      RefreshedBoxes(s, seen, presenceOnly, now))
    ensures RefreshedEntries(s, seen, presenceOnly, now).Keys == seen.Keys
    ensures RefreshedBoxes(s, seen, presenceOnly, now).Keys == seen.Keys
  {
    hide RefreshAt;
  }

  // ----- where each sighted device answers -----

  /** The address each sighted device id was last found at, in visiting order. */
  function LiveHosts(seen: Sightings, order: seq<string>): map<string, string>
    requires forall k :: k in order ==> k in seen
  {
    if order == [] then map[]
    else
      var hosts := LiveHosts(seen, order[..|order| - 1]);
      var b := seen[order[|order| - 1]];
      if b.id.deviceID != "" then hosts[b.id.deviceID := b.id.host] else hosts
  }

  // ----- re-add -----

  datatype Sweep = Sweep(cache: map<string, Entry>, seen: Sightings, moved: set<string>)

  /** The address a missed entry's speaker was sighted at, if that is another one. */
  function NewAddress(e: Entry, key: string, live: map<string, string>): Option<string> {
    var id := e.box.id.deviceID;
    if id != "" && id in live && live[id] != key then Some(live[id]) else None
  }

  function ReaddOne(w: Sweep, key: string, live: map<string, string>, now: int): Sweep {
    if key in w.seen || key !in w.cache then w
    else
      var e := w.cache[key];
      match NewAddress(e, key, live)
      case Some(host) =>
        if host in w.cache then
          var b := MergeBoxInfo(e.box, w.cache[host].box);
          Sweep(
            w.cache[host := w.cache[host].(box := b)] - {key},
            if host in w.seen then w.seen[host := b] else w.seen,
            w.moved + {key})
        else w.(cache := w.cache - {key}, moved := w.moved + {key})
      case None =>
        match MissedEntry(e, now)
        case Kept(entry, served) => w.(cache := w.cache[key := entry], seen := w.seen[key := served])
        case Evicted => w.(cache := w.cache - {key})
  }

  function ReaddAll(w: Sweep, order: seq<string>, live: map<string, string>, now: int): Sweep {
    if order == [] then w
    else ReaddOne(ReaddAll(w, order[..|order| - 1], live, now), order[|order| - 1], live, now)
  }

  // ----- the post-OTA pins -----

  function PinAt(w: Work, moved: set<string>, live: map<string, string>, now: int, host: string): PinOutcome
    requires host in w.st.otaPinned
  {
    var pinID := if host in w.st.otaPinnedID then w.st.otaPinnedID[host] else "";
    PinCycle(host, w.st.otaPinned[host], pinID, Lookup(live, pinID), host in moved,
             Lookup(w.seen, host), Lookup(w.st.cache, host), Lookup(w.st.strKnown, pinID), now)
  }

  function PinDrops(w: Work, moved: set<string>, live: map<string, string>, now: int): (drops: set<string>)
    ensures drops <= w.st.otaPinned.Keys
  {
    set h | h in w.st.otaPinned && PinAt(w, moved, live, now, h).PinDropped?
  }

  function PinServed(w: Work, moved: set<string>, live: map<string, string>, now: int): (m: Sightings)
    ensures m.Keys <= w.st.otaPinned.Keys
  {
    map h | h in w.st.otaPinned && PinAt(w, moved, live, now, h).PinHeld? :: PinAt(w, moved, live, now, h).served
  }

  function PinEntries(w: Work, moved: set<string>, live: map<string, string>, now: int): (m: map<string, Entry>)
    ensures m.Keys <= w.st.otaPinned.Keys
  {
    map h | h in w.st.otaPinned && PinAt(w, moved, live, now, h).PinHeld? && PinAt(w, moved, live, now, h).cached.Some?
          :: PinAt(w, moved, live, now, h).cached.value
  }

  lemma PinMapsAt(w: Work, moved: set<string>, live: map<string, string>, now: int, h: string)
    requires h in w.st.otaPinned
    ensures var pinID := if h in w.st.otaPinnedID then w.st.otaPinnedID[h] else "";
            PinAt(w, moved, live, now, h) ==
            PinCycle(h, w.st.otaPinned[h], pinID, Lookup(live, pinID), h in moved,
                     Lookup(w.seen, h), Lookup(w.st.cache, h), Lookup(w.st.strKnown, pinID), now)
    ensures var at := PinAt(w, moved, live, now, h);
            && (h in PinDrops(w, moved, live, now) <==> at.PinDropped?)
            && Lookup(PinServed(w, moved, live, now), h) == (if at.PinHeld? then Some(at.served) else None)
            && Lookup(PinEntries(w, moved, live, now), h) == (if at.PinHeld? then at.cached else None)
  {
    hide PinCycle;
  }

  function HoldPins(w: Work, moved: set<string>, live: map<string, string>, now: int): Work {
    var dropped := PinDrops(w, moved, live, now);
    Work(
      w.st.(cache := w.st.cache + PinEntries(w, moved, live, now),
            otaPinned := w.st.otaPinned - dropped,
            otaPinnedID := w.st.otaPinnedID - dropped),
      w.seen + PinServed(w, moved, live, now))
  }

  lemma HoldPinsParts(w: Work, moved: set<string>, live: map<string, string>, now: int)
    ensures HoldPins(w, moved, live, now) == Work(
      w.st.(cache := w.st.cache + PinEntries(w, moved, live, now),
            otaPinned := w.st.otaPinned - PinDrops(w, moved, live, now),
            otaPinnedID := w.st.otaPinnedID - PinDrops(w, moved, live, now)),
      w.seen + PinServed(w, moved, live, now))
    ensures PinDrops(w, moved, live, now) <= w.st.otaPinned.Keys
    ensures PinServed(w, moved, live, now).Keys <= w.st.otaPinned.Keys
    ensures PinEntries(w, moved, live, now).Keys <= w.st.otaPinned.Keys
  {
    hide PinAt;
  }

  // ----- the post-uninstall pins -----

  function StockAt(w: Work, now: int, host: string): StockOutcome
    requires host in w.st.stockPinned
  {
    StockCycle(w.st.stockPinned[host], Lookup(w.seen, host), host in w.st.otaPinned, now)
  }

  function StockDrops(w: Work, now: int): set<string> {
    set h | h in w.st.stockPinned && StockAt(w, now, h).StockDropped?
  }

  function StockServed(w: Work, now: int): Sightings {
    map h | h in w.st.stockPinned && StockAt(w, now, h).StockCorrected? :: StockAt(w, now, h).box
  }

  function StockEntries(w: Work, now: int): map<string, Entry> {
    map h | h in w.st.stockPinned && StockAt(w, now, h).StockCorrected?
          :: CorrectedEntry(Lookup(w.st.cache, h), StockAt(w, now, h).box, now)
  }

  function Correct(w: Work, now: int): Work {
    Work(
      w.st.(cache := w.st.cache + StockEntries(w, now), stockPinned := w.st.stockPinned - StockDrops(w, now)),
      w.seen + StockServed(w, now))
  }

  lemma StockMapsAt(w: Work, now: int, h: string)
    requires h in w.st.stockPinned
    ensures var at := StockCycle(w.st.stockPinned[h], Lookup(w.seen, h), h in w.st.otaPinned, now);
            && StockAt(w, now, h) == at
            && (h in StockDrops(w, now) <==> at.StockDropped?)
            && Lookup(StockServed(w, now), h) == (if at.StockCorrected? then Some(at.box) else None)
            && Lookup(StockEntries(w, now), h) ==
               (if at.StockCorrected? then Some(CorrectedEntry(Lookup(w.st.cache, h), at.box, now)) else None)
  {
    hide StockCycle, CorrectedEntry;
  }

  lemma CorrectedEntryParts(cached: Option<Entry>, box: BoxInfo, now: int)
    ensures var b := box.(cycle := box.cycle.(unreachable := false));
            CorrectedEntry(cached, box, now) == if cached.Some? then cached.value.(box := b, seen := now)
              else NewEntry(b, now)
  {
  }

  lemma CorrectParts(w: Work, now: int)
    ensures Correct(w, now) == Work(
      w.st.(cache := w.st.cache + StockEntries(w, now), stockPinned := w.st.stockPinned - StockDrops(w, now)),
      w.seen + StockServed(w, now))
    ensures StockDrops(w, now) <= w.st.stockPinned.Keys
    ensures StockServed(w, now).Keys <= w.st.stockPinned.Keys
    ensures StockEntries(w, now).Keys <= w.st.stockPinned.Keys
  {
    hide StockAt;
  }

  // ----- the identity memory -----

  function RecordOne(known: map<string, Entry>, seen: Sightings, presenceOnly: set<string>, now: int,
                     key: string): map<string, Entry>
    requires key in seen
  {
    var b := seen[key];
    if key !in presenceOnly && b.id.kind == STR && b.id.deviceID != "" then known[b.id.deviceID := NewEntry(b, now)]
    else known
  }

  function RecordAll(known: map<string, Entry>, seen: Sightings, presenceOnly: set<string>, now: int,
                     order: seq<string>): map<string, Entry>
    requires forall k :: k in order ==> k in seen
  {
    if order == [] then known
    else
      RecordOne(RecordAll(known, seen, presenceOnly, now, order[..|order| - 1]),
                seen, presenceOnly, now, order[|order| - 1])
  }

  function RelabelOne(w: Work, now: int, key: string): Work {
    if key !in w.seen || w.seen[key].id.kind != Stock || w.seen[key].id.deviceID == "" || key in w.st.stockPinned
       || w.seen[key].id.deviceID !in w.st.strKnown
    then w
    else
      var b := w.seen[key];
      var id := b.id.deviceID;
      var memo := w.st.strKnown[id];
      if now - memo.seen > STR_KNOWN_TTL then w.(st := w.st.(strKnown := w.st.strKnown - {id}))
      else
        var box := RelabelledBox(memo.box, b);
        Work(
          w.st.(cache := w.st.cache[key := NewEntry(box, now)],
                strKnown := w.st.strKnown[id := NewEntry(box, memo.seen)]),
          w.seen[key := box])
  }

  function RelabelAll(w: Work, now: int, order: seq<string>): Work {
    if order == [] then w
    else RelabelOne(RelabelAll(w, now, order[..|order| - 1]), now, order[|order| - 1])
  }

  function Expire(known: map<string, Entry>, now: int): map<string, Entry> {
    map id | id in known && now - known[id].seen <= STR_KNOWN_TTL :: known[id]
  }

  // ----- the whole cycle -----

  /** The state and the sightings after the first two loops, with the hosts moved away from. */
  function Swept(s: State, seen: Sightings, presenceOnly: set<string>, now: int, live: map<string, string>,
                 order: seq<string>): (Work, set<string>)
  {
    var w := Refresh(s, seen, presenceOnly, now);
    var sweep := ReaddAll(Sweep(w.st.cache, w.seen, {}), order, live, now);
    (Work(w.st.(cache := sweep.cache), sweep.seen), sweep.moved)
  }

  /** The state and the sightings once both pins had their say. */
  function Pinned(s: State, seen: Sightings, presenceOnly: set<string>, now: int, live: map<string, string>,
                  order: seq<string>): Work
  {
    var (w, moved) := Swept(s, seen, presenceOnly, now, live, order);
    Correct(HoldPins(w, moved, live, now), now)
  }

  /** Orders that visit exactly the keys each loop ranges over. */
  ghost predicate ValidOrders(s: State, seen: Sightings, presenceOnly: set<string>, now: int, o: Orders) {
    && Visits(o.sighted, seen.Keys)
    && Visits(o.cached, s.cache.Keys + seen.Keys)
    && var w := Pinned(s, seen, presenceOnly, now, LiveHosts(Refresh(s, seen, presenceOnly, now).seen, o.sighted),
       o.cached);
    && Visits(o.recorded, w.seen.Keys)
    && Visits(o.relabelled, w.seen.Keys)
  }

  /** `mergeDiscoveryCacheWith`: the new state and the sightings as served. */
  ghost function Step(s: State, seen: Sightings, presenceOnly: set<string>, now: int, o: Orders): Work
    requires ValidOrders(s, seen, presenceOnly, now, o)
  {
    var live := LiveHosts(Refresh(s, seen, presenceOnly, now).seen, o.sighted);
    var w := Pinned(s, seen, presenceOnly, now, live, o.cached);
    var known := RecordAll(w.st.strKnown, w.seen, presenceOnly, now, o.recorded);
    var r := RelabelAll(w.(st := w.st.(strKnown := known)), now, o.relabelled);
    r.(st := r.st.(strKnown := Expire(r.st.strKnown, now)))
  }
}
