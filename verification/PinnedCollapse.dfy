/**
 When a full discovery gives up the address of an update pin: on what the
 collapse of duplicates is handed, before it runs.
 */
module PinnedCollapse {
  import opened DiscoveryEvents
  import opened DiscoveryRules
  import opened DiscoveryRun
  import opened DiscoveryScan
  import opened DiscoverySpec
  import opened DiscoveryStep
  import opened OTAPin
  import opened Options
  import opened SpeakerGroups

  /** A live pin names the speaker that was sighted at `h`, and last there; the collapse drops `h` and keeps
      another address it was sighted at. */
  ghost predicate GivesUpPinned(s: State, c: Scan, reachable: set<string>, h: string)
    requires Fits(s, c)
  {
    var id, list := PinID(s, h), StepBy(s, c).seen;
    && id != "" && h in s.otaPinned && c.now - s.otaPinned[h] <= OTA_REBOOT_GRACE
    && SightedAs(s, c, h, id) && id in Live(s, c) && Live(s, c)[id] == h
    && !Survives(list, reachable, h) && exists k :: SightedAs(s, c, k, id) && Survives(list, reachable, k)
  }

  /** The pin at a host its speaker was listed at last holds, whatever else was sighted. */
  lemma ListedPinHolds(s: State, c: Scan, h: string)
    requires Sane(s, c) && h in s.otaPinned && c.now - s.otaPinned[h] <= OTA_REBOOT_GRACE
    requires SightedAs(s, c, h, PinID(s, h))
    requires PinID(s, h) in Live(s, c) && Live(s, c)[PinID(s, h)] == h
    ensures var r := StepBy(s, c);
            h in r.st.otaPinned && PinID(r.st, h) == PinID(s, h) && h in r.seen
  {
    hide InvBase, KeyedSightings, Fits, SweptBy, StepBy, Live, IDAt, MidUpdate;
    SweptSighted(s, c, h);
    assert StillThere(s, c, h);
    OTAPinStep(s, c, h);
  }

  /** A pin that still names a speaker was live, and its speaker listed nowhere else. */
  lemma HeldWasListed(s: State, c: Scan, h: string)
    requires Sane(s, c) && h in StepBy(s, c).st.otaPinnedID
    ensures h in s.otaPinned && c.now - s.otaPinned[h] <= OTA_REBOOT_GRACE && !NamedElsewhere(s, c, h)
    ensures PinID(s, h) == StepBy(s, c).st.otaPinnedID[h]
  {
    hide InvBase, KeyedSightings, Fits, SweptBy, PinnedBy, RecordedBy, StepBy, MovedAway, NamedElsewhere, TakenOver,
         PinSource;
    StepPins(s, c);
    PinsKeyedIn(s);
    StepAt(s, c, h);
    PinsAtHost(s, c, h);
  }

  lemma PinsKeyedIn(s: State)
    requires InvBase(s)
    ensures s.otaPinnedID.Keys <= s.otaPinned.Keys
  {
  }

  lemma DropsPinnedExactlyWhen(s: State, c: Scan, reachable: set<string>, h: string)
    requires Inv(s) && Sane(s, c)
    ensures DropsPinned(s, c, reachable, h) <==> GivesUpPinned(s, c, reachable, h)
  {
    hide Inv, InvBase, KeyedSightings, Fits, StepBy, Discovered, Live, IDAt, Survives, ServedAt, NewAddress, PinHolds;
    var w, r := StepBy(s, c), Discovered(s, c, Some(reachable));
    CycleAt(s, c, Some(reachable), h);
    if DropsPinned(s, c, reachable, h) {
      var k :| k in r.seen && r.seen[k].id.deviceID == r.st.otaPinnedID[h];
      CycleAt(s, c, Some(reachable), k);
      NamedTwice(s, c, h, k);
      HeldWasListed(s, c, h);
      SightedLive(s, c, PinID(s, h));
      assert SightedAs(s, c, h, PinID(s, h)) && SightedAs(s, c, k, PinID(s, h));
    }
    if GivesUpPinned(s, c, reachable, h) {
      var k :| SightedAs(s, c, k, PinID(s, h)) && Survives(w.seen, reachable, k);
      ListedPinHolds(s, c, h);
      StepIDs(s, c, k);
      CycleAt(s, c, Some(reachable), k);
    }
  }

  /** A full discovery keeps the whole invariant exactly unless its collapse gives up the address of a live
      update pin while it keeps another address the pin's speaker was sighted at. */
  lemma InvCollapseExactlyWhen(s: State, c: Scan, reachable: set<string>)
    requires Inv(s) && Sane(s, c)
    ensures Inv(Discovered(s, c, Some(reachable)).st) <==> forall h :: !GivesUpPinned(s, c, reachable, h)
  {
    hide Inv, InvBase, KeyedSightings, Fits, DropsPinned, GivesUpPinned, Discovered;
    InvCollapse(s, c, reachable);
    forall h ensures DropsPinned(s, c, reachable, h) <==> GivesUpPinned(s, c, reachable, h) {
      DropsPinnedExactlyWhen(s, c, reachable, h);
    }
  }
}
