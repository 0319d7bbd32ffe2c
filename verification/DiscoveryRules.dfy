/**
 What one discovery cycle does at one address: the branch each loop of
 `mergeDiscoveryCacheWith` takes for one key, as a function of what the loop
 reads. Times are whole seconds; the zero time of the Go code is `None`.
 */
module DiscoveryRules {
  import opened BoxRecords
  import opened FieldPolicy
  import opened Options
  import opened Text

  const STR_GONE_MISSES: nat := 3
  const STR_GONE_MIN_SPAN := 120
  const STOCK_PIN_GRACE := 15 * 60
  const STICKY_TTL := 100
  const STR_STICKY_TTL := 6 * 60
  const OTA_REBOOT_GRACE := 4 * 60
  const OFFLINE_RETENTION := 24 * 3600
  const STR_KNOWN_TTL := 24 * 3600

  /** Three silent cycles over two minutes; a quarter of an hour, 100 seconds, six and four minutes; two days. */
  lemma TimesAre()
    ensures STR_GONE_MISSES == 3 && STR_GONE_MIN_SPAN == 120 && STOCK_PIN_GRACE == 900 && STICKY_TTL == 100
    ensures STR_STICKY_TTL == 360 && OTA_REBOOT_GRACE == 240 && OFFLINE_RETENTION == 86400 && STR_KNOWN_TTL == 86400
  {
  }

  datatype Entry = Entry(box: BoxInfo, seen: int, firstMiss: Option<int>, strMisses: nat, strMissSince: Option<int>)

  /** A cache entry for a record confirmed at `now`, with no streak. */
  function NewEntry(b: BoxInfo, now: int): Entry {
    Entry(b, now, None, 0, None)
  }

  /** Whether `id` is one of the two ids of `b`. */
  predicate BoxIsDevice(b: BoxInfo, id: string) {
    id != "" && (EqualFold(b.id.deviceID, id) || (b.id.boxDeviceID != "" && EqualFold(b.id.boxDeviceID, id)))
  }

  /** Whether the two records provably describe two different speakers. */
  predicate DifferentDevices(a: BoxInfo, b: BoxInfo) {
    && a.id.deviceID != "" && b.id.deviceID != ""
    && !BoxIsDevice(b, a.id.deviceID)
    && (a.id.boxDeviceID == "" || !BoxIsDevice(b, a.id.boxDeviceID))
  }

  /** The ids a record names its speaker by. */
  function IDsOf(b: BoxInfo): set<string> {
    {b.id.deviceID, b.id.boxDeviceID} - {""}
  }

  /** Two ids are the same but for the case of their letters. */
  ghost predicate SameID(x: string, y: string) {
    |x| == |y| && forall i :: 0 <= i < |x| ==> SameLetter(x[i], y[i])
  }

  /** Two records are taken for two speakers exactly if both have a first id and no id of the one is one of the
      other; which record comes first does not matter. */
  lemma DifferentDevicesIs(a: BoxInfo, b: BoxInfo)
    ensures DifferentDevices(a, b) <==>
            && a.id.deviceID != "" && b.id.deviceID != ""
            && forall x, y :: x in IDsOf(a) && y in IDsOf(b) ==> !SameID(x, y)
    ensures DifferentDevices(a, b) <==> DifferentDevices(b, a)
  {
    forall x, y ensures EqualFold(x, y) <==> SameID(x, y)
                ensures EqualFold(x, y) <==> EqualFold(y, x)
    {
      EqualFoldIs(x, y);
    }
    hide EqualFold, SameID;
    if a.id.deviceID != "" && b.id.deviceID != "" {
      assert a.id.deviceID in IDsOf(a) && b.id.deviceID in IDsOf(b);
      assert a.id.boxDeviceID != "" ==> a.id.boxDeviceID in IDsOf(a);
      assert b.id.boxDeviceID != "" ==> b.id.boxDeviceID in IDsOf(b);
    }
  }

  /** A pin's id is the record's exactly if it is one of its ids. */
  lemma BoxIsDeviceIs(b: BoxInfo, id: string)
    ensures BoxIsDevice(b, id) <==> id != "" && exists x :: x in IDsOf(b) && SameID(x, id)
  {
    forall x ensures EqualFold(x, id) <==> SameID(x, id) { EqualFoldIs(x, id); }
    hide EqualFold, SameID;
  }

  function ServedUnreachable(b: BoxInfo): BoxInfo {
    b.(cycle := b.cycle.(unreachable := true))
  }

  function ClearPresence(b: BoxInfo): BoxInfo {
    b.(cycle := b.cycle.(offline := false, offlineSinceSec := 0, unreachable := false))
  }

  // ----- refresh: the boxes sighted this cycle -----

  /** The cached entry, unless the sighting is provably another speaker's. */
  function Predecessor(prev: Option<Entry>, b: BoxInfo): Option<Entry> {
    if prev.Some? && DifferentDevices(prev.value.box, b) then None else prev
  }

  /** The sighting merged with the record of the same speaker the cache holds. */
  function RefreshedBox(prev: Option<Entry>, b: BoxInfo): BoxInfo {
    var known := Predecessor(prev, b);
    ClearPresence(if known.Some? then MergeBoxInfo(known.value.box, b) else b)
  }

  /** Whether this sighting extends the agent-silence streak: present on the
      stock port only, while the record still counts as STR. */
  predicate SilentSighting(prev: Option<Entry>, b: BoxInfo, presenceOnly: bool) {
    presenceOnly && Predecessor(prev, b).Some? && RefreshedBox(prev, b).id.kind == STR
  }

  function SilentSince(prev: Entry, now: int): int {
    if prev.strMissSince.Some? then prev.strMissSince.value else now
  }

  /** Whether this sighting completes the streak that degrades the record. */
  predicate Degrades(prev: Option<Entry>, b: BoxInfo, presenceOnly: bool, pinned: bool, now: int) {
    && SilentSighting(prev, b, presenceOnly)
    && !pinned
    && prev.value.strMisses + 1 >= STR_GONE_MISSES
    && now - SilentSince(prev.value, now) >= STR_GONE_MIN_SPAN
  }

  function RefreshedEntry(prev: Option<Entry>, b: BoxInfo, presenceOnly: bool, pinned: bool, now: int): Entry {
    var box := RefreshedBox(prev, b);
    if Degrades(prev, b, presenceOnly, pinned, now) then
      NewEntry(DegradeToSTRNotRunning(box), now)
    else if SilentSighting(prev, b, presenceOnly) then
      Entry(box, now, None, prev.value.strMisses + 1, Some(SilentSince(prev.value, now)))
    else
      NewEntry(box, now)
  }

  // ----- re-add: the boxes this cycle missed -----

  function StickyTTL(b: BoxInfo): int {
    if b.id.kind == STR then STR_STICKY_TTL else STICKY_TTL
  }

  datatype Missed = Kept(entry: Entry, served: BoxInfo) | Evicted

  /** A cached entry that missed this cycle and did not turn up elsewhere. */
  function MissedEntry(e: Entry, now: int): Missed {
    var served := ServedUnreachable(e.box);
    match e.firstMiss
    case None => Kept(e.(firstMiss := Some(now)), served)
    case Some(t) =>
      if now - t <= StickyTTL(e.box) then Kept(e, served)
      else if now - t <= OFFLINE_RETENTION then
        Kept(e, served.(cycle := served.cycle.(offline := true, offlineSinceSec := now - t)))
      else Evicted
  }

  // ----- the post-OTA pin -----

  /** The record a pinned host is given when nothing at all is known there. */
  function MinimalBox(host: string, pinID: string): BoxInfo {
    EMPTY_BOX.(id := EMPTY_BOX.id.(host := host, port := 8888, deviceID := pinID))
  }

  datatype PinOutcome = PinDropped | PinHeld(cached: Option<Entry>, served: BoxInfo)

  /** What a pin set at `t` for speaker `pinID` does to its host this cycle. `liveHost` is where that
      speaker was sighted, `moved` whether the host's own entry was evicted for a new address. */
  function PinCycle(host: string, t: int, pinID: string, liveHost: Option<string>, moved: bool,
                    seen: Option<BoxInfo>, cached: Option<Entry>, memo: Option<Entry>, now: int): PinOutcome
  {
    if now - t > OTA_REBOOT_GRACE then PinDropped
    else if moved then PinDropped
    else if pinID != "" && liveHost.Some? && liveHost.value != host then PinDropped
    else if seen.Some? && pinID != "" && seen.value.id.deviceID != "" && !BoxIsDevice(seen.value, pinID) then PinDropped
    else
      var base :=
        if seen.Some? then seen.value
        else if cached.Some? then cached.value.box
        else if pinID != "" && memo.Some? then
          var m := memo.value.box;
          m.(id := m.id.(host := host), cycle := m.cycle.(offline := false, offlineSinceSec := 0))
        else MinimalBox(host, pinID);
      var synthesized := seen.None? && cached.None?;
      var b := base.(id := base.id.(kind := STR), cycle := base.cycle.(strNotRunning := false));
      var entry := NewEntry(b.(cycle := b.cycle.(unreachable := false)), now);
      PinHeld(
        if !synthesized || b.id.deviceID != "" then Some(entry) else None,
        b.(cycle := b.cycle.(otaPending := true)))
  }

  // ----- the post-uninstall pin -----

  /** An ordinary stock record: no agent version, no verified port, no mark of a missing agent. */
  predicate PlainStock(b: BoxInfo) {
    b.id.kind == Stock && !b.id.portVerified && b.agent.version == "" && !b.cycle.strNotRunning
  }

  /** A record a live agent answered for. */
  predicate AgentRecord(b: BoxInfo) {
    b.id.kind == STR && b.id.portVerified
  }

  datatype StockOutcome = StockDropped | StockKept | StockCorrected(box: BoxInfo)

  /** The stock record a pinned host is corrected to. */
  function CorrectedBox(b: BoxInfo): BoxInfo {
    var d := DegradeToSTRNotRunning(b);
    d.(cycle := d.cycle.(strNotRunning := false))
  }

  function StockCycle(t: int, seen: Option<BoxInfo>, otaPinned: bool, now: int): StockOutcome {
    if now - t > STOCK_PIN_GRACE then StockDropped
    else if seen.None? then StockKept
    else if otaPinned then StockDropped
    else
      var b := seen.value;
      if b.id.kind == STR && b.id.portVerified then StockDropped
      else if b.id.kind == Stock && !b.cycle.strNotRunning && b.agent.version == "" then StockKept
      else StockCorrected(CorrectedBox(b))
  }

  /** The cache entry of a corrected host: a new record in the old entry's streaks. */
  function CorrectedEntry(cached: Option<Entry>, box: BoxInfo, now: int): Entry {
    var b := box.(cycle := box.cycle.(unreachable := false));
    if cached.Some? then cached.value.(box := b, seen := now) else NewEntry(b, now)
  }

  // ----- the identity memory -----

  /** A stock sighting of a speaker remembered as STR, relabelled. */
  function RelabelledBox(memo: BoxInfo, b: BoxInfo): BoxInfo {
    var m := MergeBoxInfo(memo, b);
    var str := m.(id := m.id.(kind := STR));
    if memo.id.port != 0 && memo.id.port != 8090 then
      str.(id := str.id.(port := memo.id.port,
                         portVerified := if memo.id.portVerified then true else str.id.portVerified))
    else str
  }
}
