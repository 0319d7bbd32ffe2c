/**
 Runs from the empty state that reach what the code's comments rule out: a mark
 the post-OTA pin or the identity memory leaves in the cache, a second record of
 a pinned speaker, an STR speaker served as stock under another one's pin, and
 an STR record that still says "STR not running".
 */
module Scenarios {
  import opened BoxRecords
  import opened CycleOrder
  import opened DiscoveryEvents
  import opened DiscoveryRules
  import opened DiscoveryRun
  import opened DiscoveryScan
  import opened DiscoverySpec
  import opened DiscoveryStep
  import opened FieldPolicy
  import opened IdentityMemory
  import opened Latch
  import opened Options
  import opened OTAPin
  import opened Retention
  import opened StockPin
  import opened Text
  import G = SpeakerGroups

  // ----- runs, event by event -----

  lemma Snoc(s: State, run: seq<Event>, e: Event)
    requires AdmissibleRun(s, run) && Admissible(After(s, run), e)
    ensures AdmissibleRun(s, run + [e]) && After(s, run + [e]) == Next(After(s, run), e)
  {
    assert (run + [e])[..|run|] == run;
    hide Admissible, Next;
  }

  lemma SnocSound(s: State, run: seq<Event>, e: Event)
    requires SoundRun(s, run) && Sound(After(s, run), e)
    ensures SoundRun(s, run + [e])
  {
    assert (run + [e])[..|run|] == run;
    hide Sound;
  }

  /** A cycle that sights nothing. */
  lemma SilentScan(s: State, now: int) returns (c: Scan)
    requires InvBase(s)
    ensures c.seen == map[] && c.presenceOnly == {} && c.now == now && Sane(s, c) && Unambiguous(s, c.seen)
    ensures forall id :: !Sighted(s, c, id)
  {
    c := SomeScan(s, map[], {}, now);
  }

  // ----- a first sighting -----

  /** Nothing is known but one STR speaker `id` at `h`, unmarked, with nothing pinned. */
  ghost predicate OnlyKnown(s: State, h: string, id: string) {
    && Inv(s) && s.cache.Keys == {h} && IDOf(s.cache[h]) == id != "" && s.cache[h].box.id.kind == STR
    && s.otaPinned == map[] && s.otaPinnedID == map[] && s.stockPinned == map[]
  }

  function STRBox(h: string, id: string, second: string, verified: bool): BoxInfo {
    EMPTY_BOX.(id := EMPTY_BOX.id.(host := h, port := 8888, portVerified := verified, deviceID := id,
      boxDeviceID := second, kind := STR))
  }

  lemma STRBoxParts(h: string, id: string, second: string, verified: bool)
    ensures var b := STRBox(h, id, second, verified);
            && b.id.host == h && b.id.deviceID == id && b.id.boxDeviceID == second && b.id.kind == STR
            && b.id.portVerified == verified && b.cycle == EMPTY_BOX.cycle && ClearPresence(b) == b
  {
  }

  /** The empty state, one confirmed sighting later. */
  lemma ConfirmedFirst(c: Scan, h: string, id: string, second: string)
    requires h != "" && id != "" && c.seen == map[h := STRBox(h, id, second, true)] && c.presenceOnly == {}
             && Fits(EMPTY, c)
    ensures Sane(EMPTY, c) && Unambiguous(EMPTY, c.seen)
    ensures var t := StepBy(EMPTY, c).st;
            && OnlyKnown(t, h, id) && t.cache[h] == NewEntry(STRBox(h, id, second, true), c.now)
            && id in t.strKnown && (forall x :: x in t.strKnown ==> x == id)
            && t.strKnown[id] == NewEntry(STRBox(h, id, second, true), c.now)
  {
    hide STRBox, Fits, SweptBy, PinnedBy, RecordedBy, StepBy, EntryAt, InvBase, MissedEntry, NewAddress, PinHolds,
         DegradesID;
    STRBoxParts(h, id, second, true);
    assert InvBase(EMPTY) by { InvEmpty(); InvIsBase(EMPTY); }
    InvEmpty();
    SweptMerged(EMPTY, c, h);
    SweptSighted(EMPTY, c, h);
    UnknownSighting(EMPTY, c, h);
    UnpinnedBy(EMPTY, c, h);
    STRFinal(EMPTY, c, h);
    StepPins(EMPTY, c);
    InvStep(EMPTY, c);
    forall k | k in PinnedBy(EMPTY, c).seen ensures k == h {
      FirstAlone(c, h, k);
    }
    var t := StepBy(EMPTY, c).st;
    forall k | k in t.cache ensures k == h {
      StepServedAt(EMPTY, c, k);
      ServedAtID(StepBy(EMPTY, c), k);
    }
    forall x ensures x in t.strKnown ==> x == id {
      StepMemory(EMPTY, c, x);
      RecordedMemory(EMPTY, c, x);
    }
    StepMemoryAs(EMPTY, c, id);
    RecordedMemory(EMPTY, c, id);
    assert Records(PinnedBy(EMPTY, c).seen, c.presenceOnly, h, id);
  }

  lemma FirstAlone(c: Scan, h: string, k: string)
    requires Sane(EMPTY, c) && c.seen.Keys == {h} && k in PinnedBy(EMPTY, c).seen
    ensures k == h
  {
    hide Fits, SweptBy, PinnedBy, InvBase, MissedEntry, NewAddress, ServedAt;
    PinnedIDs(EMPTY, c, k);
    if k != h { PinnedServedAt(EMPTY, c, k); }
  }

  // ----- a greyed mark in the cache -----

  /** A speaker that has missed for more than its six minutes when its update starts is cached as
      offline by the very pin that serves it mid-update. */
  lemma PinCachesOffline() returns (run: seq<Event>)
    ensures AdmissibleRun(EMPTY, run) && SoundRun(EMPTY, run)
    ensures var t := After(EMPTY, run);
            "h" in t.cache && t.cache["h"].box.cycle.offline && "h" in t.otaPinned
  {
    hide Fits, StepBy, InvBase, STRBox, MissedEntry, Stays, Silent, Sighted, Unguarded, StillThere, SweptBy;
    var c0 := SomeScan(EMPTY, map["h" := STRBox("h", "X", "", true)], {}, 0);
    ConfirmedFirst(c0, "h", "X", "");
    var t0 := StepBy(EMPTY, c0).st;
    InvIsBase(t0);
    var c1 := SilentScan(t0, 10);
    OneMiss(t0, c1, "h", "X");
    var t1 := StepBy(t0, c1).st;
    var t2 := NotePostOTA(t1, "h", 400);
    InvOTAStarted(t1, "h", 400);
    InvBaseAside(t1, OTAStarted("h", 400));
    var c2 := SilentScan(t2, 401);
    PinOverMiss(t2, c2, "h");
    run := [];
    run := Extend(EMPTY, run, Discover(c0, None));
    run := Extend(EMPTY, run, Discover(c1, None));
    run := Extend(EMPTY, run, OTAStarted("h", 400));
    run := Extend(EMPTY, run, Discover(c2, None));
  }

  lemma Extend(s: State, run0: seq<Event>, e: Event) returns (run: seq<Event>)
    requires AdmissibleRun(s, run0) && SoundRun(s, run0) && Admissible(After(s, run0), e) && Sound(After(s, run0), e)
    ensures AdmissibleRun(s, run) && SoundRun(s, run) && After(s, run) == Next(After(s, run0), e)
  {
    Snoc(s, run0, e);
    SnocSound(s, run0, e);
    run := run0 + [e];
  }

  lemma OneMiss(s: State, c: Scan, h: string, id: string)
    requires OnlyKnown(s, h, id) && Sane(s, c) && c.seen == map[] && s.cache[h].firstMiss == None
    ensures var t := StepBy(s, c).st;
            && Inv(t) && h in t.cache && t.cache[h] == s.cache[h].(firstMiss := Some(c.now))
            && h !in t.otaPinned && h !in t.stockPinned
  {
    hide Fits, StepBy, InvBase, SweptBy, PinnedBy;
    MissedStep(s, c, h);
    StepPins(s, c);
    InvStep(s, c);
  }

  lemma PinOverMiss(s: State, c: Scan, h: string)
    requires Inv(s) && Sane(s, c) && c.seen == map[] && h in s.cache && h in s.otaPinned
    requires c.now - s.otaPinned[h] <= OTA_REBOOT_GRACE && PinID(s, h) == IDOf(s.cache[h])
    requires s.cache[h].box.id.kind == STR && s.cache[h].firstMiss.Some?
    requires 6 * 60 < c.now - s.cache[h].firstMiss.value <= OFFLINE_RETENTION
    ensures var t := StepBy(s, c).st;
            h in t.cache && t.cache[h].box.cycle.offline && h in t.otaPinned
  {
    hide Fits, StepBy, InvBase, SweptBy, Live;
    assert forall id :: !Sighted(s, c, id);
    SweptSilent(s, c, h);
    SightedLive(s, c, PinID(s, h));
    assert StillThere(s, c, h);
    PinCachesMarksExactlyWhen(s, c, h);
    OTAPinStep(s, c, h);
  }

  lemma SweptSilent(s: State, c: Scan, h: string)
    requires Sane(s, c) && c.seen == map[] && h in s.cache && PinID(s, h) == IDOf(s.cache[h])
    ensures !TakenOver(s, c, h)
  {
    hide Fits, InvBase, SweptBy, Live, NewAddress, MissedEntry;
    SweptMissed(s, c, h);
    MissedKindKept(s.cache[h], c.now);
  }

  // ----- a pending mark in the cache, and a second record of one speaker -----

  /** The speaker "X" of the update at "h" is sighted there by its agent and at "j" by an announcement. */
  function BothAddresses(): Sightings {
    map["h" := STRBox("h", "X", "", true), "j" := STRBox("j", "X", "", false)]
  }

  ghost predicate BothScan(s: State, c: Scan) {
    && Sane(s, c) && s.cache.Keys == {"h"} && IDOf(s.cache["h"]) == "X"
    && s.otaPinned == map["h" := 10] && s.otaPinnedID == map["h" := "X"] && s.stockPinned == map[]
    && c.seen == BothAddresses() && c.presenceOnly == {"j"} && c.now == 20 && c.o.sighted == ["j", "h"]
  }

  lemma BothIDs(s: State, c: Scan)
    requires BothScan(s, c)
    ensures c.seen.Keys == {"h", "j"} && IDAt(s, c, "h") == "X" && IDAt(s, c, "j") == "X"
    ensures Live(s, c) == map["X" := "h"]
  {
    hide Fits, InvBase, STRBox, Live;
    STRBoxParts("h", "X", "", true);
    STRBoxParts("j", "X", "", false);
    LastListed(s, c, "h");
    LiveIs(s, c);
    hide IDAt;
    forall id | id in Live(s, c) ensures id == "X" {
      assert Live(s, c)[id] in {"h", "j"};
    }
  }

  /** The pin at "h" holds: that is where the speaker was listed last. */
  lemma BothHeld(s: State, c: Scan)
    requires BothScan(s, c)
    ensures var r := StepBy(s, c);
            && "h" in r.seen && r.seen["h"].cycle.otaPending && r.seen["h"].id.kind == STR
            && Lookup(r.st.otaPinned, "h") == Some(10) && PinID(r.st, "h") == "X"
            && Lookup(PinnedBy(s, c).seen, "h") == Some(r.seen["h"])
  {
    hide Fits, InvBase, STRBox, StepBy, SweptBy, PinnedBy, Live, IDAt, OwnVersion, PinSource;
    BothIDs(s, c);
    SweptSighted(s, c, "h");
    assert StillThere(s, c, "h");
    OTAPinStep(s, c, "h");
    PinsAtHost(s, c, "h");
    STRFinal(s, c, "h");
  }

  lemma BothServed(s: State, c: Scan, k: string)
    requires BothScan(s, c)
    ensures var p, r := PinnedBy(s, c), StepBy(s, c);
            && (k in r.seen <==> k == "h" || k == "j") && (k in p.seen <==> k == "h" || k == "j")
            && (k in r.seen ==> r.seen[k].id.deviceID == "X" && p.seen[k].id.deviceID == "X"
                                && p.seen[k].id.kind == STR)
            && (k in r.seen ==> k in r.st.cache)
  {
    hide Fits, InvBase, STRBox, StepBy, SweptBy, PinnedBy, Live, IDAt, MissedEntry, NewAddress, ServedAt, PinHolds,
         EntryAt;
    BothIDs(s, c);
    BothHeld(s, c);
    StepServedAt(s, c, k);
    PinnedIDs(s, c, k);
    if k in c.seen { StepCaches(s, c, k); } else if PinHolds(s, c, k) { PinnedServedAt(s, c, k); BothPins(s, c, k); }
    if k == "j" {
      STRBoxParts("j", "X", "", false);
      UnknownSighting(s, c, k);
      SweptMerged(s, c, k);
      UnpinnedBy(s, c, k);
    }
  }

  lemma BothPins(s: State, c: Scan, k: string)
    requires BothScan(s, c) && PinHolds(s, c, k)
    ensures k == "h"
  {
    hide Fits, InvBase, SweptBy, Live, PinAt;
  }

  /** What is remembered of the speaker is the pending copy. */
  lemma BothRemembered(s: State, c: Scan)
    requires BothScan(s, c)
    ensures var known := StepBy(s, c).st.strKnown;
            "X" in known && known["X"].box.cycle.otaPending
  {
    hide Fits, InvBase, STRBox, StepBy, PinnedBy, RecordedBy, IDAt, DegradesID;
    BothHeld(s, c);
    forall k | k in PinnedBy(s, c).seen
      ensures (k == "h" || k == "j") && PinnedBy(s, c).seen[k].id.kind == STR
              && PinnedBy(s, c).seen[k].id.deviceID == "X"
    {
      BothServed(s, c, k);
    }
    StepMemoryAs(s, c, "X");
    RecordedMemory(s, c, "X");
    assert Records(PinnedBy(s, c).seen, c.presenceOnly, "h", "X");
  }

  /** The collapse, for which "j" alone answers, drops "h". */
  lemma BothKept(s: State, c: Scan)
    requires BothScan(s, c)
    ensures var w, r := StepBy(s, c), Discovered(s, c, Some({"j"}));
            && r.seen.Keys == {"j"} && r.st.cache.Keys == {"j"} && r.st == w.st.(cache := r.st.cache)
            && "j" in w.seen && "j" in w.st.cache && r.seen["j"] == w.seen["j"] && r.st.cache["j"] == w.st.cache["j"]
  {
    hide Fits, InvBase, STRBox, StepBy, IDAt, G.Survives, G.Linked, G.Connected, Live, Discovered, PinnedBy;
    var w, r := StepBy(s, c), Discovered(s, c, Some({"j"}));
    forall k
      ensures k in w.seen <==> k == "h" || k == "j"
      ensures k in w.seen ==> w.seen[k].id.deviceID == "X" && k in w.st.cache
    {
      BothServed(s, c, k);
    }
    hide BothScan;
    SameIDLinked(w.seen, "h", "j");
    G.ConnectedLink(w.seen, "h", "j");
    G.UnreachableLoses(w.seen, {"j"}, "h", "j");
    var kept := G.CollapsedKeepsOne(w.seen, {"j"}, "j");
    forall k ensures k in r.seen <==> k == "j"
             ensures k in r.st.cache <==> k == "j"
    {
      BothSurvives(s, c, kept, k);
    }
    CycleAt(s, c, Some({"j"}), "j");
  }

  lemma BothSurvives(s: State, c: Scan, kept: string, k: string)
    requires Sane(s, c) && (forall k :: k in StepBy(s, c).seen <==> k == "h" || k == "j")
    requires "j" in StepBy(s, c).st.cache
    requires kept in G.Collapsed(StepBy(s, c).seen, {"j"}) && !G.Survives(StepBy(s, c).seen, {"j"}, "h")
    ensures var r := Discovered(s, c, Some({"j"}));
            (k in r.seen <==> k == "j") && (k in r.st.cache <==> k == "j")
  {
    hide Fits, InvBase, StepBy, G.Survives, Discovered;
    assert kept == "j";
    CycleAt(s, c, Some({"j"}), k);
  }

  /** It leaves the pin, the pending memory and one record of the speaker. */
  lemma BothCollapsed(s: State, c: Scan)
    requires BothScan(s, c)
    ensures var t := Discovered(s, c, Some({"j"})).st;
            && t.cache.Keys == {"j"} && IDOf(t.cache["j"]) == "X" && t.cache["j"].firstMiss == None
            && t.cache["j"].box.id.kind == STR
            && Lookup(t.otaPinned, "h") == Some(10) && PinID(t, "h") == "X"
            && t.otaPinned.Keys == {"h"} && t.stockPinned == map[]
            && "X" in t.strKnown && t.strKnown["X"].box.cycle.otaPending
            && DropsPinned(s, c, {"j"}, "h")
  {
    hide Fits, InvBase, STRBox, StepBy, IDAt, Live, Discovered, PinnedBy, MissedEntry, NewAddress, PinHolds, ServedAt;
    BothKept(s, c);
    BothHeld(s, c);
    BothRemembered(s, c);
    BothFresh(s, c);
    BothServed(s, c, "j");
    StepServedAt(s, c, "j");
    ServedAtID(StepBy(s, c), "j");
    StepPins(s, c);
    assert Discovered(s, c, Some({"j"})).seen["j"].id.deviceID == Discovered(s, c, Some({"j"})).st.otaPinnedID["h"];
  }

  lemma BothFresh(s: State, c: Scan)
    requires BothScan(s, c)
    ensures var t := StepBy(s, c).st;
            "j" in t.cache && t.cache["j"].firstMiss == None && t.cache["j"].box.id.kind == STR
  {
    hide Fits, InvBase, STRBox, StepBy, SweptBy, PinnedBy, Live, IDAt, EntryAt;
    BothIDs(s, c);
    BothServed(s, c, "j");
    STRBoxParts("j", "X", "", false);
    UnknownSighting(s, c, "j");
    SweptSighted(s, c, "j");
    SweptMerged(s, c, "j");
    UnpinnedBy(s, c, "j");
    STRFinal(s, c, "j");
  }

  /** A pin whose speaker is cached at another address builds and caches a second record of it in a cycle
      that misses both. */
  lemma PinSplitsSpeaker(s: State, c: Scan, h: string, j: string)
    requires Sane(s, c) && h in s.otaPinned && c.now - s.otaPinned[h] <= OTA_REBOOT_GRACE && PinID(s, h) != ""
    requires StillThere(s, c, h) && NothingThere(s, c, h) && !Sighted(s, c, PinID(s, h))
    requires j in s.cache && j !in c.seen && j != h && IDOf(s.cache[j]) == PinID(s, h) && s.cache[j].box.id.kind == STR
    requires j !in s.otaPinned && j !in s.stockPinned && MissedEntry(s.cache[j], c.now).Kept?
    ensures var t := StepBy(s, c).st;
            h in t.cache && j in t.cache && IDOf(t.cache[h]) == IDOf(t.cache[j]) == PinID(s, h)
  {
    hide Fits, InvBase, KeyedSightings, StepBy, StillThere, MissedEntry, IDAt;
    PinCachesMarksExactlyWhen(s, c, h);
    SilentlyMissed(s, c, j);
    MissedStep(s, c, j);
    MissedKindKept(s.cache[j], c.now);
  }

  lemma SilentlyMissed(s: State, c: Scan, j: string)
    requires j in s.cache && j !in c.seen && !Sighted(s, c, IDOf(s.cache[j]))
    ensures Silent(s, c, j)
  {
    hide IDAt;
    forall i | i in c.seen ensures IDAt(s, c, i) == IDOf(s.cache[j]) ==> IDOf(s.cache[j]) == "" {
      assert !SightedAs(s, c, i, IDOf(s.cache[j]));
    }
  }

  /** With the mark the memory carries, in the state the collapse leaves. */
  lemma SecondRecord(s: State, c: Scan)
    requires Sane(s, c) && c.seen == map[] && c.presenceOnly == {} && c.now == 30
    requires s.cache.Keys == {"j"} && IDOf(s.cache["j"]) == "X" && s.cache["j"].firstMiss == None
             && s.cache["j"].box.id.kind == STR
    requires Lookup(s.otaPinned, "h") == Some(10) && PinID(s, "h") == "X" && s.otaPinned.Keys == {"h"}
             && s.stockPinned == map[]
    requires "X" in s.strKnown && s.strKnown["X"].box.cycle.otaPending
    ensures var t := StepBy(s, c).st;
            && "h" in t.cache && "j" in t.cache && IDOf(t.cache["h"]) == IDOf(t.cache["j"]) == "X"
            && t.cache["h"].box.cycle.otaPending && t.cache["h"].box.id.kind == STR && t.cache["h"].firstMiss == None
            && Lookup(t.otaPinned, "h") == Some(10) && t.stockPinned == map[]
  {
    hide Fits, InvBase, StepBy, SweptBy, Live, PinSource, MissedEntry;
    assert forall id :: !Sighted(s, c, id);
    SweptMissed(s, c, "h");
    SightedLive(s, c, "X");
    assert StillThere(s, c, "h");
    PinCachesMarksExactlyWhen(s, c, "h");
    HeldPinMarks(s, c, "h");
    OTAPinStep(s, c, "h");
    FreshMiss(s.cache["j"], c.now);
    PinSplitsSpeaker(s, c, "h", "j");
    StepPins(s, c);
  }

  lemma FreshMiss(e: Entry, now: int)
    requires e.firstMiss == None
    ensures MissedEntry(e, now).Kept? && MissedEntry(e, now).entry.box == e.box
  {
  }

  /**
   A reachable state with two records of one speaker, one of them cached as
   still pending; and the cycle after the pin has run out, which serves that mark.
   */
  lemma PinCachesPending() returns (run: seq<Event>, c: Scan)
    ensures AdmissibleRun(EMPTY, run)
    ensures var t := After(EMPTY, run);
            && "h" in t.cache && "j" in t.cache && IDOf(t.cache["h"]) == IDOf(t.cache["j"]) == "X"
            && t.cache["h"].box.cycle.otaPending
            && Admissible(t, Discover(c, None)) && c.seen == map[] && c.now == 300
            && "h" in StepBy(t, c).seen && StepBy(t, c).seen["h"].cycle.otaPending && "h" !in StepBy(t, c).st.otaPinned
  {
    hide Fits, StepBy, InvBase, STRBox, Discovered;
    var c0 := SomeScan(EMPTY, map["h" := STRBox("h", "X", "", true)], {}, 0);
    ConfirmedFirst(c0, "h", "X", "");
    var t0 := StepBy(EMPTY, c0).st;
    InvIsBase(t0);
    var t1 := NotePostOTA(t0, "h", 10);
    InvBaseAside(t0, OTAStarted("h", 10));
    var c1 := BothOrders(t1);
    BothCollapsed(t1, c1);
    var t2 := Discovered(t1, c1, Some({"j"})).st;
    InvBaseNext(t1, Discover(c1, Some({"j"})));
    var c2 := SilentScan(t2, 30);
    SecondRecord(t2, c2);
    var t3 := StepBy(t2, c2).st;
    InvBaseStep(t2, c2);
    c := SilentScan(t3, 300);
    FreshMiss(t3.cache["h"], c.now);
    MarksOutliveThePin(t3, c, "h");
    run := [];
    CycleAlone(EMPTY, c0);
    Snoc(EMPTY, run, Discover(c0, None)); run := run + [Discover(c0, None)];
    Snoc(EMPTY, run, OTAStarted("h", 10)); run := run + [OTAStarted("h", 10)];
    Snoc(EMPTY, run, Discover(c1, Some({"j"}))); run := run + [Discover(c1, Some({"j"}))];
    CycleAlone(t2, c2);
    Snoc(EMPTY, run, Discover(c2, None)); run := run + [Discover(c2, None)];
  }

  lemma BothOrders(s: State) returns (c: Scan)
    requires InvBase(s) && s.cache.Keys == {"h"} && IDOf(s.cache["h"]) == "X"
    requires s.otaPinned == map["h" := 10] && s.otaPinnedID == map["h" := "X"] && s.stockPinned == map[]
    ensures BothScan(s, c)
  {
    hide Fits, InvBase, STRBox;
    STRBoxParts("h", "X", "", true);
    STRBoxParts("j", "X", "", false);
    assert BothAddresses().Keys == {"h", "j"};
    c := ScanWith(s, BothAddresses(), {"j"}, 20, ["j", "h"], ["h", "j"]);
  }

  // ----- a miss's marks in the cache, with no pin at all -----

  /** A stock answer of a remembered speaker, added by hand, is cached as an unreachable STR record by the
      first cycle that misses it. */
  lemma RelabelCachesMiss() returns (run: seq<Event>)
    ensures AdmissibleRun(EMPTY, run)
    ensures var t := After(EMPTY, run);
            && t.otaPinned == map[] && t.stockPinned == map[]
            && "h" in t.cache && t.cache["h"].box.id.kind == STR && t.cache["h"].box.cycle.unreachable
            && t.cache["h"].firstMiss == None
  {
    hide Fits, StepBy, InvBase, STRBox, BoseBox, MissedEntry, Discovered;
    BoseBoxParts("X", "");
    var c0 := SomeScan(EMPTY, map["j" := STRBox("j", "X", "", true)], {}, 0);
    ConfirmedFirst(c0, "j", "X", "");
    var t0 := StepBy(EMPTY, c0).st;
    InvIsBase(t0);
    InvBaseAside(t0, Added(BoseBox("X", ""), 10));
    var t1 := AddBox(t0, BoseBox("X", ""), 10);
    var c1 := SilentScan(t1, 20);
    assert RelabelsMissed(t1, c1, "h");
    RelabelledMiss(t1, c1, "h");
    StepPins(t1, c1);
    run := [];
    CycleAlone(EMPTY, c0);
    Snoc(EMPTY, run, Discover(c0, None)); run := run + [Discover(c0, None)];
    Snoc(EMPTY, run, Added(BoseBox("X", ""), 10)); run := run + [Added(BoseBox("X", ""), 10)];
    CycleAlone(t1, c1);
    Snoc(EMPTY, run, Discover(c1, None)); run := run + [Discover(c1, None)];
  }

  lemma RelabelledMiss(s: State, c: Scan, k: string)
    requires Sane(s, c) && c.seen == map[] && k in s.cache && k !in s.otaPinned && k !in s.stockPinned
    requires RelabelsMissed(s, c, k)
    requires s.cache[k].firstMiss.Some? ==> c.now - s.cache[k].firstMiss.value <= OFFLINE_RETENTION
    ensures var t := StepBy(s, c).st;
            && k in t.cache && t.cache[k].box.id.kind == STR && t.cache[k].box.cycle.unreachable
            && t.cache[k].firstMiss == None
            && (t.cache[k].box.cycle.offline <==>
                s.cache[k].box.cycle.offline
                || (s.cache[k].firstMiss.Some? && c.now - s.cache[k].firstMiss.value > StickyTTL(s.cache[k].box)))
  {
    hide Fits, StepBy, InvBase, RelabelsMissed;
    assert !Sighted(s, c, IDOf(s.cache[k]));
    MissedStaysCleanExactlyUnless(s, c, k);
  }

  /** Only the stock speaker "X" at "h" is known, and nothing remembered. */
  ghost predicate OnlyAdded(s: State) {
    && s.cache.Keys == {"h"} && s.cache["h"].box == BoseBox("X", "")
    && s.strKnown == map[] && s.otaPinned == map[] && s.otaPinnedID == map[] && s.stockPinned == map[]
  }

  /** Nothing tells the cycle that it is an STR one: it misses as any stock speaker does. */
  lemma AddedMisses(s: State, c: Scan)
    requires Sane(s, c) && OnlyAdded(s) && s.cache["h"].firstMiss == None && c.seen == map[]
    ensures var t := StepBy(s, c).st;
            && "h" in t.cache && t.cache["h"].box == BoseBox("X", "") && t.cache["h"].firstMiss == Some(c.now)
            && t.otaPinned == map[] && t.otaPinnedID == map[] && t.stockPinned == map[]
  {
    hide Fits, StepBy, InvBase, BoseBox;
    BoseBoxParts("X", "");
    assert !Sighted(s, c, "X");
    forall k ensures !RenewsMissed(s, c, k, "X") && !RenewsPinned(s, c, k, "X") { }
    MissedStaysCleanExactlyUnless(s, c, "h");
    StepPins(s, c);
  }

  /** One that had missed for more than its grace when the app learned that it runs STR is cached greyed. */
  lemma RelabelCachesOffline() returns (run: seq<Event>)
    ensures AdmissibleRun(EMPTY, run)
    ensures var t := After(EMPTY, run);
            && t.otaPinned == map[] && t.stockPinned == map[]
            && "h" in t.cache && t.cache["h"].box.id.kind == STR && t.cache["h"].box.cycle.unreachable
            && t.cache["h"].box.cycle.offline && t.cache["h"].firstMiss == None
  {
    hide Fits, StepBy, InvBase, STRBox, BoseBox, Discovered;
    BoseBoxParts("X", "");
    STRBoxParts("j", "X", "", false);
    assert InvBase(EMPTY) by { InvEmpty(); InvIsBase(EMPTY); }
    InvBaseAside(EMPTY, Added(BoseBox("X", ""), 0));
    var t0 := AddBox(EMPTY, BoseBox("X", ""), 0);
    var c1 := SilentScan(t0, 10);
    AddedMisses(t0, c1);
    var t1 := StepBy(t0, c1).st;
    InvBaseStep(t0, c1);
    InvBaseAside(t1, Added(STRBox("j", "X", "", false), 200));
    var t2 := AddBox(t1, STRBox("j", "X", "", false), 200);
    var c2 := SilentScan(t2, 211);
    assert RenewsMissed(t2, c2, "j", "X");
    RelabelledMiss(t2, c2, "h");
    StepPins(t2, c2);
    run := [];
    Snoc(EMPTY, run, Added(BoseBox("X", ""), 0)); run := run + [Added(BoseBox("X", ""), 0)];
    CycleAlone(t0, c1);
    Snoc(EMPTY, run, Discover(c1, None)); run := run + [Discover(c1, None)];
    var add := Added(STRBox("j", "X", "", false), 200);
    Snoc(EMPTY, run, add); run := run + [add];
    CycleAlone(t2, c2);
    Snoc(EMPTY, run, Discover(c2, None)); run := run + [Discover(c2, None)];
  }

  // ----- an STR speaker served as stock -----

  /** STR was removed from "X" at "h"; the address "Y" was confirmed at is another speaker's by now. */
  ghost predicate LeaseTaken(s: State) {
    && InvBase(s) && s.cache.Keys == {"h", "j"} && IDOf(s.cache["h"]) == "X" && IDOf(s.cache["j"]) == "Z"
    && s.cache["h"].box.id.boxDeviceID == "" && s.otaPinned == map[] && s.stockPinned == map["h" := 10]
    && "Y" in s.strKnown && s.strKnown["Y"].seen == 0
  }

  lemma OtherLetters(s: State, c: Scan)
    requires LeaseTaken(s) && c.seen == map["h" := STRBox("h", "Y", "", false)]
    ensures DifferentDevices(s.cache["h"].box, STRBox("h", "Y", "", false))
  {
    assert Fold("X") != Fold("Y") by { assert Fold("X")[0] == 'x' && Fold("Y")[0] == 'y'; }
  }

  /** "Y", still remembered, announces itself as an STR speaker at "h". */
  lemma HiddenBehindPin(s: State, c: Scan)
    requires LeaseTaken(s) && Fits(s, c) && c.seen == map["h" := STRBox("h", "Y", "", false)]
             && c.presenceOnly == {"h"} && c.now == 20
    ensures Sane(s, c)
    ensures var r := StepBy(s, c);
            && "h" in r.seen && r.seen["h"].id.deviceID == "Y" && r.seen["h"].id.kind == Stock
            && "Y" in r.st.strKnown
  {
    hide Fits, StepBy, InvBase, STRBox, EntryAt, DifferentDevices;
    STRBoxParts("h", "Y", "", false);
    assert DifferentDevices(s.cache["h"].box, c.seen["h"]) by { OtherLetters(s, c); }
    UnknownSighting(s, c, "h");
    assert IDAt(s, c, "h") == "Y";
    forall o ensures !ComesTo(s, c, o, "h") {
      if ComesTo(s, c, o, "h") { ComesFrom(s, c, o, "h"); assert false; }
    }
    hide ComesTo;
    PinHidesSTRExactlyUnless(s, c, "h", "Y");
  }

  lemma PinHidesAnother() returns (run: seq<Event>, c: Scan)
    ensures AdmissibleRun(EMPTY, run)
    ensures var t := After(EMPTY, run);
            && Admissible(t, Discover(c, None)) && "h" in c.seen && c.seen["h"].id.kind == STR
            && "Y" in t.strKnown && t.strKnown["Y"].box.id.host != "h"
            && "h" in StepBy(t, c).seen && StepBy(t, c).seen["h"].id.deviceID == "Y"
            && StepBy(t, c).seen["h"].id.kind == Stock && "Y" in StepBy(t, c).st.strKnown
  {
    hide Fits, StepBy, InvBase, STRBox, Discovered, UninstalledBox;
    STRBoxParts("j", "Y", "", true);
    STRBoxParts("h", "X", "", true);
    STRBoxParts("j", "Z", "", true);
    STRBoxParts("h", "Y", "", false);
    var c0 := SomeScan(EMPTY, map["j" := STRBox("j", "Y", "", true)], {}, 0);
    ConfirmedFirst(c0, "j", "Y", "");
    var t0 := StepBy(EMPTY, c0).st;
    InvIsBase(t0);
    var addX, addZ, gone := Added(STRBox("h", "X", "", true), 1), Added(STRBox("j", "Z", "", true), 2),
                            Uninstalled("h", 10);
    InvBaseAside(t0, addX);
    InvBaseAside(Next(t0, addX), addZ);
    InvBaseAside(Next(Next(t0, addX), addZ), gone);
    var t := Next(Next(Next(t0, addX), addZ), gone);
    UninstalledBoxID(STRBox("h", "X", "", true));
    assert LeaseTaken(t);
    c := SomeScan(t, map["h" := STRBox("h", "Y", "", false)], {"h"}, 20);
    HiddenBehindPin(t, c);
    run := [];
    CycleAlone(EMPTY, c0);
    Snoc(EMPTY, run, Discover(c0, None)); run := run + [Discover(c0, None)];
    Snoc(EMPTY, run, addX); run := run + [addX];
    Snoc(EMPTY, run, addZ); run := run + [addZ];
    Snoc(EMPTY, run, gone); run := run + [gone];
  }

  // ----- the order of one cycle, in the state -----

  /** Two first cycles that sight the same speaker by cable and by Wi-Fi and differ in the order of the record
      loop alone leave two states. */
  lemma RunOrderMatters() returns (run: seq<Event>, other: seq<Event>)
    ensures AdmissibleRun(EMPTY, run) && AdmissibleRun(EMPTY, other)
    ensures |run| == |other| == 1 && SameButOrders(run[0], other[0])
    ensures After(EMPTY, run) != After(EMPTY, other)
  {
    hide Fits, StepBy, InvBase, STRBox, Discovered;
    STRBoxParts("h", "X", "", true);
    STRBoxParts("j", "X", "", true);
    assert InvBase(EMPTY) by { InvEmpty(); InvIsBase(EMPTY); }
    var c := SomeScan(EMPTY, map["h" := STRBox("h", "X", "", true), "j" := STRBox("j", "X", "", true)], {}, 0);
    assert SightedAs(EMPTY, c, "h", "X") && SightedAs(EMPTY, c, "j", "X");
    var a, b := CycleOrderMatters(EMPTY, c, "X", "h", "j");
    CycleAlone(EMPTY, a);
    CycleAlone(EMPTY, b);
    Snoc(EMPTY, [], Discover(a, None));
    Snoc(EMPTY, [], Discover(b, None));
    run, other := [] + [Discover(a, None)], [] + [Discover(b, None)];
  }

  // ----- an STR record that says "STR not running" -----

  /** A stock sighting of the speaker at "h" under one id, with the other as its second. */
  function BoseBox(id: string, second: string): BoxInfo {
    EMPTY_BOX.(id := EMPTY_BOX.id.(host := "h", port := 8090, deviceID := id, boxDeviceID := second))
  }

  lemma BoseBoxParts(id: string, second: string)
    ensures var b := BoseBox(id, second);
            && b.id.host == "h" && b.id.deviceID == id && b.id.boxDeviceID == second && b.id.kind == Stock
            && !b.id.portVerified && b.id.port == 8090 && !b.cycle.strNotRunning
  {
  }

  /** The speaker at "h" has the ids "A" and "B". */
  predicate TwoIDs(b: BoxInfo) {
    (b.id.deviceID == "A" && b.id.boxDeviceID == "B") || (b.id.deviceID == "B" && b.id.boxDeviceID == "A")
  }

  /** Only it is known, by a record under either id, and it is remembered under "B" since time 0 alone. */
  ghost predicate KnownAsB(s: State) {
    && Inv(s) && Latched(s) && s.cache.Keys == {"h"} && TwoIDs(s.cache["h"].box)
    && s.otaPinned == map[] && s.otaPinnedID == map[] && s.stockPinned == map[]
    && s.strKnown.Keys == {"B"} && s.strKnown["B"].seen == 0
  }

  /** It still counts as STR, silent `n` times since `since`. */
  ghost predicate Fading(s: State, n: nat, since: int) {
    && KnownAsB(s)
    && var e := s.cache["h"];
    && e.box.id.kind == STR && !Marked(e.box) && e.strMisses == n
       && e.strMissSince == if n == 0 then None else Some(since)
  }

  /** It is a stock one marked "STR not running", under the id the memory does not know. */
  ghost predicate Faded(s: State) {
    KnownAsB(s) && s.cache["h"].box.id.kind == Stock && Marked(s.cache["h"].box) && IDOf(s.cache["h"]) == "A"
  }

  /** A cycle that finds it on its stock port alone, under `id`. */
  ghost predicate StockScan(s: State, c: Scan, id: string, second: string) {
    && Sane(s, c) && c.seen == map["h" := BoseBox(id, second)] && c.presenceOnly == {"h"} && 0 <= c.now < 1000
    && ((id == "A" && second == "B") || (id == "B" && second == "A"))
  }

  lemma StockScanned(s: State, now: int, id: string, second: string) returns (c: Scan)
    requires InvBase(s) && 0 <= now < 1000 && ((id == "A" && second == "B") || (id == "B" && second == "A"))
    ensures StockScan(s, c, id, second) && c.now == now && Unambiguous(s, c.seen)
  {
    hide Fits, InvBase, BoseBox;
    BoseBoxParts(id, second);
    c := SomeScan(s, map["h" := BoseBox(id, second)], {"h"}, now);
  }

  /** The sighting is of the speaker cached there, whichever id it names. */
  lemma SameByEitherID(s: State, c: Scan, id: string, second: string)
    requires StockScan(s, c, id, second) && "h" in s.cache && TwoIDs(s.cache["h"].box)
    ensures "h" in c.seen && Predecessor(Lookup(s.cache, "h"), c.seen["h"]) == Some(s.cache["h"])
    ensures IDAt(s, c, "h") == id && !DifferentDevices(s.cache["h"].box, c.seen["h"])
  {
    hide Fits, InvBase, BoseBox;
    BoseBoxParts(id, second);
  }

  /** What the refresh makes of a record that counts as STR: silent once more, or degraded under "A". */
  lemma FadingEntry(s: State, c: Scan, n: nat, since: int)
    requires StockScan(s, c, "A", "B") && Fading(s, n, since)
    ensures var e, first := EntryAt(s, c, "h"), if n == 0 then c.now else since;
            && "h" in c.seen && TwoIDs(e.box) && IDOf(e) == "A"
            && (DegradedAt(s, c, "h") <==> n + 1 >= 3 && c.now - first >= 120)
            && (if n + 1 >= 3 && c.now - first >= 120 then e.box.id.kind == Stock && Marked(e.box)
                else e.box.id.kind == STR && !Marked(e.box) && e.strMisses == n + 1 && e.strMissSince == Some(first))
  {
    hide MergeBoxInfo, EffectiveID, Predecessor, Fits, Inv, InvBase, Latched, BoseBox;
    SameByEitherID(s, c, "A", "B");
    BoseBoxParts("A", "B");
    CacheMergeKind(s.cache["h"].box, c.seen["h"]);
    CacheMergeIdentity(s.cache["h"].box, c.seen["h"]);
  }

  /** What a cycle over it leaves: its own record, reconciled with the memory of "B". */
  lemma StockStages(s: State, c: Scan, id: string, second: string)
    requires StockScan(s, c, id, second) && KnownAsB(s)
    ensures var p := PinnedBy(s, c);
            && p.seen.Keys == {"h"} && p.seen["h"] == EntryAt(s, c, "h").box && p.seen["h"].id.deviceID == id
            && Lookup(p.st.cache, "h") == Some(EntryAt(s, c, "h")) && p.st.stockPinned == map[]
    ensures Inv(StepBy(s, c).st) && StepBy(s, c).st.cache.Keys == {"h"} && Unambiguous(s, c.seen)
    ensures var t := StepBy(s, c).st;
            t.otaPinned == map[] && t.otaPinnedID == map[] && t.stockPinned == map[]
  {
    hide Fits, InvBase, BoseBox, SweptBy, PinnedBy, StepBy, EntryAt, Latched, MissedEntry, NewAddress, ServedAt;
    SameByEitherID(s, c, id, second);
    SweptSighted(s, c, "h");
    SweptMerged(s, c, "h");
    UnpinnedBy(s, c, "h");
    PinnedFrame(s, c);
    forall k ensures k in PinnedBy(s, c).seen <==> k == "h"
             ensures k in StepBy(s, c).seen <==> k == "h"
    {
      PinnedIDs(s, c, k);
      StepServedAt(s, c, k);
      if k != "h" && PinHolds(s, c, k) { PinnedServedAt(s, c, k); }
    }
    StepCaches(s, c, "h");
    forall k | k in StepBy(s, c).st.cache ensures k == "h" {
      StepServedAt(s, c, k);
      ServedAtID(StepBy(s, c), k);
    }
    StepPins(s, c);
    InvStep(s, c);
  }

  /** A presence renews nothing, so "B" is remembered as before and "A" is not. */
  lemma StockMemory(s: State, c: Scan, x: string)
    requires StockScan(s, c, "A", "B") && KnownAsB(s)
    ensures var q, known := RecordedBy(s, c).st.strKnown, StepBy(s, c).st.strKnown;
            && (x == "B" ==> x in known && known[x] == s.strKnown[x])
            && (x != "B" ==> x !in known && x !in q)
  {
    hide Fits, InvBase, BoseBox, PinnedBy, StepBy, RecordedBy, EntryAt, Latched, IDAt, DegradedAt;
    SameByEitherID(s, c, "A", "B");
    StockStages(s, c, "A", "B");
    RecordedMemory(s, c, x);
    StepMemory(s, c, x);
    assert !DegradesID(s, c, "B");
    if x == "B" { StepMemoryAs(s, c, x); }
  }

  lemma FadeStep(s: State, c: Scan, n: nat, since: int)
    requires StockScan(s, c, "A", "B") && Fading(s, n, since)
    ensures var t, first := StepBy(s, c).st, if n == 0 then c.now else since;
            if n + 1 >= 3 && c.now - first >= 120 then Faded(t) else Fading(t, n + 1, first)
  {
    hide Fits, Inv, InvBase, BoseBox, PinnedBy, StepBy, RecordedBy, EntryAt, DegradedAt;
    StockStages(s, c, "A", "B");
    FadingEntry(s, c, n, since);
    forall x
      ensures x == "B" ==> x in StepBy(s, c).st.strKnown && StepBy(s, c).st.strKnown[x] == s.strKnown[x]
      ensures x != "B" ==> x !in StepBy(s, c).st.strKnown && x !in RecordedBy(s, c).st.strKnown
    {
      StockMemory(s, c, x);
    }
    StepAt(s, c, "h") by { InvIsBase(s); }
    StepKeeps(s, c, "h");
    EntryPlain(s, c);
  }

  lemma EntryPlain(s: State, c: Scan)
    requires StockScan(s, c, "A", "B") && KnownAsB(s)
    ensures "h" in c.seen && Plain(EntryAt(s, c, "h").box)
  {
    hide Fits, Inv, BoseBox, EntryAt;
    BoseBoxParts("A", "B");
    PlainRefresh(s, c, "h");
  }

  /** Three silent sightings under "A" over two minutes degrade it and forget "A" alone; one under "B", which
      is still remembered as STR, makes it an STR record with the mark still on. */
  lemma LatchBreaks() returns (run: seq<Event>)
    ensures AdmissibleRun(EMPTY, run) && SoundRun(EMPTY, run)
    ensures var t := After(EMPTY, run);
            !Latched(t) && "h" in t.cache && t.cache["h"].box.id.kind == STR && Marked(t.cache["h"].box)
  {
    hide Fits, StepBy, Inv, InvBase, STRBox, BoseBox, KnownAsB, Fading, Faded, Latched;
    var c0 := SomeScan(EMPTY, map["h" := STRBox("h", "B", "A", true)], {}, 0);
    ConfirmedFirst(c0, "h", "B", "A");
    var t0 := StepBy(EMPTY, c0).st;
    FirstFading(t0);
    var c1 := FadeScan(t0, 0, 0, 10);
    var t1 := StepBy(t0, c1).st;
    var c2 := FadeScan(t1, 1, 10, 70);
    var t2 := StepBy(t1, c2).st;
    var c3 := FadeScan(t2, 2, 10, 130);
    var t3 := StepBy(t2, c3).st;
    var c4 := BreakScan(t3);
    run := [];
    run := Extend(EMPTY, run, Discover(c0, None));
    run := Extend(EMPTY, run, Discover(c1, None));
    run := Extend(EMPTY, run, Discover(c2, None));
    run := Extend(EMPTY, run, Discover(c3, None));
    run := Extend(EMPTY, run, Discover(c4, None));
  }

  lemma FirstFading(t: State)
    requires OnlyKnown(t, "h", "B") && t.cache["h"] == NewEntry(STRBox("h", "B", "A", true), 0)
    requires "B" in t.strKnown && (forall x :: x in t.strKnown ==> x == "B")
    requires t.strKnown["B"] == NewEntry(STRBox("h", "B", "A", true), 0)
    ensures Fading(t, 0, 0)
  {
    hide Inv, STRBox;
    STRBoxParts("h", "B", "A", true);
  }

  lemma FadeScan(s: State, n: nat, since: int, now: int) returns (c: Scan)
    requires Fading(s, n, since) && 0 <= now < 1000
    ensures Sane(s, c) && Unambiguous(s, c.seen)
    ensures var t, first := StepBy(s, c).st, if n == 0 then now else since;
            if n + 1 >= 3 && now - first >= 120 then Faded(t) else Fading(t, n + 1, first)
  {
    hide Fits, StepBy, InvBase, BoseBox, Latched;
    InvIsBase(s);
    c := StockScanned(s, now, "A", "B");
    FadeStep(s, c, n, since);
  }

  lemma BreakScan(s: State) returns (c: Scan)
    requires Faded(s)
    ensures Sane(s, c) && Unambiguous(s, c.seen)
    ensures var t := StepBy(s, c).st;
            !Latched(t) && "h" in t.cache && t.cache["h"].box.id.kind == STR && Marked(t.cache["h"].box)
  {
    hide Fits, StepBy, InvBase, BoseBox, EntryAt, IDAt, DegradedAt, OneAddressPerEntry, PinsNamed, PinsDistinct;
    c := StockScanned(s, 131, "B", "A");
    SameByEitherID(s, c, "B", "A");
    BoseBoxParts("B", "A");
    MarkedEntry(s, c);
    assert LatchScan(s, c);
    assert Contradicted(s, c, "h");
    ContradictedBreaks(s, c, "h");
  }

  lemma MarkedEntry(s: State, c: Scan)
    requires StockScan(s, c, "B", "A") && Faded(s)
    ensures "h" in c.seen && Marked(EntryAt(s, c, "h").box) && !DegradedAt(s, c, "h")
  {
    hide MergeBoxInfo, EffectiveID, Predecessor, Fits, Inv, InvBase, Latched, BoseBox;
    SameByEitherID(s, c, "B", "A");
    BoseBoxParts("B", "A");
    CacheMergeKind(s.cache["h"].box, c.seen["h"]);
  }
}
