/**
 The per-key specification of a discovery cycle: what happens at one address
 and to one device id, without any visiting order. It is what a cycle does
 whenever every device id is at one address, in whatever order Go iterates.
 */
module DiscoverySpec {
  import opened BoxRecords
  import opened DiscoveryRules
  import opened DiscoveryStep
  import opened FieldPolicy
  import opened Options

  function IDOf(e: Entry): string {
    e.box.id.deviceID
  }

  /** The speaker the pin at `h` names, or "". */
  function PinID(st: State, h: string): string {
    if h in st.otaPinnedID then st.otaPinnedID[h] else ""
  }

  // ----- what the callers and earlier cycles guarantee -----

  /** Every sighting is filed under its own address. */
  ghost predicate KeyedSightings(seen: Sightings) {
    forall k :: k in seen ==> k != "" && seen[k].id.host == k
  }

  /** No two records carry the same device id. */
  ghost predicate OneAddressPerID(seen: Sightings) {
    forall j, k :: j in seen && k in seen && seen[j].id.deviceID == seen[k].id.deviceID != "" ==> j == k
  }

  ghost predicate OneAddressPerEntry(cache: map<string, Entry>) {
    forall j, k :: j in cache && k in cache && IDOf(cache[j]) == IDOf(cache[k]) != "" ==> j == k
  }

  ghost predicate KeyedCache(cache: map<string, Entry>) {
    forall k :: k in cache ==> k != "" && cache[k].box.id.host == k
  }

  /** Each pin that names a speaker is a pin. */
  ghost predicate PinsKeyed(s: State) {
    && s.otaPinnedID.Keys <= s.otaPinned.Keys
    && (forall h :: h in s.otaPinnedID ==> s.otaPinnedID[h] != "")
    && (forall h :: h in s.otaPinned ==> h != "")
  }

  /** Two pins name two speakers. */
  ghost predicate PinsDistinct(s: State) {
    && PinsKeyed(s)
    && (forall h, g :: h in s.otaPinnedID && g in s.otaPinnedID && s.otaPinnedID[h] == s.otaPinnedID[g] ==> h == g)
  }

  /** No address but the pinned one is cached for the speaker a pin names. */
  ghost predicate PinsNamed(s: State) {
    forall h, k :: h in s.otaPinnedID && k in s.cache && IDOf(s.cache[k]) == s.otaPinnedID[h] ==> k == h
  }

  /** The memory files each record under its own id, as an STR speaker. */
  ghost predicate MemoryKeyed(known: map<string, Entry>) {
    forall id :: id in known ==> id != "" && IDOf(known[id]) == id && known[id].box.id.kind == STR
  }

  /** What every cycle and every other event leaves, whatever the sightings. */
  ghost predicate InvBase(s: State) {
    && KeyedCache(s.cache)
    && PinsKeyed(s)
    && (forall h :: h in s.stockPinned ==> h != "")
    && MemoryKeyed(s.strKnown)
  }

  /** With it, no device id at two addresses. */
  ghost predicate Inv(s: State) {
    InvBase(s) && OneAddressPerEntry(s.cache) && PinsDistinct(s) && PinsNamed(s)
  }

  /** What is cached at `k` is served there, under its own address and the same device id. */
  ghost predicate ServedAt(w: Work, k: string) {
    && (k in w.seen ==> k != "" && w.seen[k].id.host == k)
    && (k in w.st.cache ==> k in w.seen && w.st.cache[k].box.id.host == k
                            && IDOf(w.st.cache[k]) == w.seen[k].id.deviceID)
  }

  ghost predicate Served(w: Work) {
    forall k :: ServedAt(w, k)
  }

  /** The id a sighting ends up with: its own, else the one its address is cached under. */
  function EffectiveID(s: State, seen: Sightings, k: string): string
    requires k in seen
  {
    var own := seen[k].id.deviceID;
    if own == "" && k in s.cache then IDOf(s.cache[k]) else own
  }

  /** This cycle's sightings are keyed by address and put no device id at two addresses. */
  ghost predicate Unambiguous(s: State, seen: Sightings) {
    && KeyedSightings(seen)
    && forall j, k :: j in seen && k in seen && EffectiveID(s, seen, j) == EffectiveID(s, seen, k) != "" ==> j == k
  }

  // ----- the specification -----

  ghost function LiveSpec(seen: Sightings): map<string, string> {
    map id | id in (set k | k in seen :: seen[k].id.deviceID) && id != "" :: AddressOf(seen, id)
  }

  ghost function AddressOf(seen: Sightings, id: string): string
    requires exists k :: k in seen && seen[k].id.deviceID == id
  {
    var k :| k in seen && seen[k].id.deviceID == id;
    k
  }

  /** The missed address whose speaker was sighted at `k`. */
  ghost function ArrivalAt(cache: map<string, Entry>, seen: Sightings, live: map<string, string>,
                           k: string): Option<string> {
    if exists o :: o in cache && o !in seen && NewAddress(cache[o], o, live) == Some(k) then
      var o :| o in cache && o !in seen && NewAddress(cache[o], o, live) == Some(k);
      Some(o)
    else None
  }

  /** What the re-add loop leaves at `k` once the keys in `done` are visited. */
  ghost function SweptEntry(cache: map<string, Entry>, seen: Sightings, live: map<string, string>, now: int,
                            done: set<string>, k: string): Option<Entry>
    requires k in cache
  {
    if k in seen then
      var o := ArrivalAt(cache, seen, live, k);
      if o.Some? && o.value in done && o.value in cache
      then Some(cache[k].(box := MergeBoxInfo(cache[o.value].box, cache[k].box)))
      else Some(cache[k])
    else if k !in done then Some(cache[k])
    else if NewAddress(cache[k], k, live).Some? then None
    else
      match MissedEntry(cache[k], now)
      case Kept(entry, _) => Some(entry)
      case Evicted => None
  }

  ghost function SweptServed(cache: map<string, Entry>, seen: Sightings, live: map<string, string>, now: int,
                             done: set<string>, k: string): Option<BoxInfo>
    requires k in cache
  {
    if k in seen then Some(SweptEntry(cache, seen, live, now, done, k).value.box)
    else if k !in done || NewAddress(cache[k], k, live).Some? then None
    else
      match MissedEntry(cache[k], now)
      case Kept(_, served) => Some(served)
      case Evicted => None
  }

  ghost function SweepDone(cache: map<string, Entry>, seen: Sightings, live: map<string, string>, now: int,
                           done: set<string>): Sweep
  {
    Sweep(
      map k | k in cache
        && SweptEntry(cache, seen, live, now, done, k).Some? :: SweptEntry(cache, seen, live, now, done, k).value,
      map k | k in cache
        && SweptServed(cache, seen, live, now, done, k).Some? :: SweptServed(cache, seen, live, now, done, k).value,
      set k | k in cache && k !in seen && k in done && NewAddress(cache[k], k, live).Some?)
  }

  /** The key that records device `id` this cycle, if any. */
  ghost predicate Records(seen: Sightings, presenceOnly: set<string>, k: string, id: string) {
    k in seen && k !in presenceOnly && seen[k].id.kind == STR && seen[k].id.deviceID == id != ""
  }

  ghost function RecordedIDs(seen: Sightings, presenceOnly: set<string>, done: set<string>): set<string> {
    set k | k in seen && k in done && Records(seen, presenceOnly, k, seen[k].id.deviceID) :: seen[k].id.deviceID
  }

  ghost function RecordDone(known: map<string, Entry>, seen: Sightings, presenceOnly: set<string>, now: int,
                            done: set<string>): map<string, Entry> {
    known + map id | id in RecordedIDs(seen, presenceOnly, done) :: NewEntry(seen[AddressOf(seen, id)], now)
  }

  datatype Relabel = Untouched | Forgotten | Relabelled(box: BoxInfo, memoSeen: int)

  /** What the reconcile loop does with the record at `k`. */
  function RelabelAt(w: Work, now: int, k: string): Relabel {
    if k !in w.seen then Untouched
    else
      var b := w.seen[k];
      var id := b.id.deviceID;
      if b.id.kind != Stock || id == "" || k in w.st.stockPinned || id !in w.st.strKnown then Untouched
      else if now - w.st.strKnown[id].seen > STR_KNOWN_TTL then Forgotten
      else Relabelled(RelabelledBox(w.st.strKnown[id].box, b), w.st.strKnown[id].seen)
  }

  function RelabelledEntry(r: Relabel, now: int): Entry
    requires r.Relabelled?
  {
    NewEntry(r.box, now)
  }

  function RelabelledMemo(r: Relabel): Option<Entry> {
    match r
    case Relabelled(box, memoSeen) => Some(NewEntry(box, memoSeen))
    case _ => None
  }

  ghost function RelabelEntries(w: Work, now: int, done: set<string>): map<string, Entry> {
    map k | k in w.seen && k in done && RelabelAt(w, now, k).Relabelled? :: RelabelledEntry(RelabelAt(w, now, k), now)
  }

  ghost function RelabelServed(w: Work, now: int, done: set<string>): Sightings {
    map k | k in w.seen && k in done && RelabelAt(w, now, k).Relabelled? :: RelabelAt(w, now, k).box
  }

  /** What the reconcile loop leaves of the memory of device `id`. */
  ghost function MemoryAfter(w: Work, now: int, done: set<string>, id: string): Option<Entry>
    requires id in w.st.strKnown
  {
    if exists k :: k in w.seen && w.seen[k].id.deviceID == id && k in done && !RelabelAt(w, now, k).Untouched? then
      var k :| k in w.seen && w.seen[k].id.deviceID == id && k in done && !RelabelAt(w, now, k).Untouched?;
      RelabelledMemo(RelabelAt(w, now, k))
    else Some(w.st.strKnown[id])
  }

  ghost function RelabelDone(w: Work, now: int, done: set<string>): Work {
    Work(
      w.st.(
        cache := w.st.cache + RelabelEntries(w, now, done),
        strKnown := map id | id in w.st.strKnown
          && MemoryAfter(w, now, done, id).Some? :: MemoryAfter(w, now, done, id).value),
      w.seen + RelabelServed(w, now, done))
  }

  /** The state and the sightings after the first two loops. */
  ghost function SweptSpec(s: State, seen: Sightings, presenceOnly: set<string>, now: int): (Work, set<string>) {
    var w := Refresh(s, seen, presenceOnly, now);
    var sweep := SweepDone(w.st.cache, w.seen, LiveSpec(w.seen), now, w.st.cache.Keys);
    (Work(w.st.(cache := sweep.cache), sweep.seen), sweep.moved)
  }

  ghost function PinnedSpec(s: State, seen: Sightings, presenceOnly: set<string>, now: int): Work {
    var (w, moved) := SweptSpec(s, seen, presenceOnly, now);
    Correct(HoldPins(w, moved, LiveSpec(Refresh(s, seen, presenceOnly, now).seen), now), now)
  }

  ghost function RecordedSpec(s: State, seen: Sightings, presenceOnly: set<string>, now: int): Work {
    var w := PinnedSpec(s, seen, presenceOnly, now);
    w.(st := w.st.(strKnown := RecordDone(w.st.strKnown, w.seen, presenceOnly, now, w.seen.Keys)))
  }

  /** The whole cycle, key by key. */
  ghost function StepSpec(s: State, seen: Sightings, presenceOnly: set<string>, now: int): Work {
    var w := RecordedSpec(s, seen, presenceOnly, now);
    var r := RelabelDone(w, now, w.seen.Keys);
    r.(st := r.st.(strKnown := Expire(r.st.strKnown, now)))
  }
}
