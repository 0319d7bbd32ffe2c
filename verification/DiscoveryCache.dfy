/**
 The sticky discovery cache of `desktop-app/discovery_cache.go` as the object it
 is: five maps the app holds, rewritten in place by one discovery cycle. Every
 loop takes its keys in an arbitrary order, as a Go `range` over a map does.
 */
module DiscoveryCache {
  import opened BoxRecords
  import opened DiscoveryRules
  import opened DiscoveryStep
  import opened FieldPolicy
  import opened Options

  import C = DiscoveryScan
  import E = DiscoveryEvents
  import G = SpeakerGroups
  import S = DiscoverySpec

  class App {
    var discCache: map<string, Entry>
    var otaPinned: map<string, int>
    var otaPinnedID: map<string, string>
    var stockPinned: map<string, int>
    var strKnown: map<string, Entry>

    constructor ()
      ensures Abs() == State(map[], map[], map[], map[], map[])
    {
      discCache, otaPinned, otaPinnedID, stockPinned, strKnown := map[], map[], map[], map[], map[];
    }

    ghost function Abs(): State
      reads this
    {
      State(discCache, otaPinned, otaPinnedID, stockPinned, strKnown)
    }

    lemma AbsFields()
      ensures Abs() == State(discCache, otaPinned, otaPinnedID, stockPinned, strKnown)
    {
    }

    /** One whole cycle: `seen` is the caller's map as the loops leave it. */
    method MergeDiscoveryCacheWith(sighted: Sightings, presenceOnly: set<string>, now: int)
      returns (seen: Sightings, ghost o: Orders)
      modifies this
      ensures ValidOrders(old(Abs()), sighted, presenceOnly, now, o)
      ensures Work(Abs(), seen) == Step(old(Abs()), sighted, presenceOnly, now, o)
    {
      ghost var s := Abs();
      seen := RefreshSighted(sighted, presenceOnly, now);
      var freshDevices: map<string, string>;
      ghost var order1;
      freshDevices, order1 := FreshDevices(seen);
      var movedAway;
      ghost var order2;
      seen, movedAway, order2 := ReaddMissed(seen, freshDevices, now);
      assert (Work(Abs(), seen), movedAway) == Swept(s, sighted, presenceOnly, now, freshDevices, order2);
      seen := HoldOTAPins(seen, movedAway, freshDevices, now);
      seen := CorrectStockPins(seen, now);
      assert Work(Abs(), seen) == Pinned(s, sighted, presenceOnly, now, freshDevices, order2);
      ghost var order3 := RecordKnown(seen, presenceOnly, now);
      ghost var order4;
      seen, order4 := RelabelKnown(seen, now);
      ExpireKnown(now);
      o := Orders(order1, order2, order3, order4);
    }

    /** First loop: merge each sighting with the cached record and restart its entry. */
    method RefreshSighted(sighted: Sightings, presenceOnly: set<string>, now: int) returns (seen: Sightings)
      modifies this`discCache, this`strKnown
      ensures Work(Abs(), seen) == Refresh(old(Abs()), sighted, presenceOnly, now)
    {
      hide Abs, Overlay, Refresh, RefreshAt, RefreshedEntries, RefreshedBoxes, DegradedIDs, DegradesAt, RefreshedEntry,
           Degrades;
      AbsFields();
      seen := sighted;
      ghost var s := Abs();
      ghost var entries := RefreshedEntries(s, sighted, presenceOnly, now);
      ghost var boxes := RefreshedBoxes(s, sighted, presenceOnly, now);
      ghost var done: set<string> := {};
      OverlayNone(discCache, entries);
      OverlayNone(sighted, boxes);
      DegradedIDsNone(s, sighted, presenceOnly, now);
      RefreshParts(s, sighted, presenceOnly, now);
      var todo := sighted.Keys;
      while todo != {}
        invariant todo <= sighted.Keys && done == sighted.Keys - todo
        invariant discCache == Overlay(s.cache, entries, done)
        invariant strKnown == s.strKnown - DegradedIDs(s, sighted, presenceOnly, now, done)
        invariant seen == Overlay(sighted, boxes, done)
      {
        var key :| key in todo;
        OverlayOne(s.cache, entries, done, key);
        OverlayOne(sighted, boxes, done, key);
        DegradedIDsOne(s, sighted, presenceOnly, now, done, key);
        RefreshedAt(s, sighted, presenceOnly, now, key);
        var e, degraded := SightedEntry(Lookup(discCache, key), seen[key], key in presenceOnly, key in otaPinned, now);
        if degraded {
          DropTwice(s.strKnown, DegradedIDs(s, sighted, presenceOnly, now, done), e.box.id.deviceID);
          strKnown := strKnown - {e.box.id.deviceID};
        }
        seen := seen[key := e.box];
        discCache := discCache[key := e];
        todo, done := todo - {key}, done + {key};
      }
      OverlayAll(s.cache, entries, done);
      OverlayAll(sighted, boxes, done);
      assert sighted + boxes == boxes && done == sighted.Keys;
      AbsFields();
    }

    /** The first loop's body at one key: the merged record, its silence streak, and whether the
        streak just completed. */
    static method SightedEntry(prev: Option<Entry>, sighted: BoxInfo, presenceOnly: bool, pinned: bool, now: int)
      returns (e: Entry, degraded: bool)
      ensures e == RefreshedEntry(prev, sighted, presenceOnly, pinned, now)
      ensures degraded <==> Degrades(prev, sighted, presenceOnly, pinned, now)
    {
      hide MergeBoxInfo, DegradeToSTRNotRunning, ClearPresence, DifferentDevices;
      var b := sighted;
      var cached := prev.Some?;
      if cached && DifferentDevices(prev.value.box, b) {
        cached := false;
      }
      if cached {
        b := MergeBoxInfo(prev.value.box, b);
      }
      b := ClearPresence(b);
      e, degraded := NewEntry(b, now), false;
      if presenceOnly && cached && b.id.kind == STR {
        var since := if prev.value.strMissSince.None? then now else prev.value.strMissSince.value;
        e := e.(strMisses := prev.value.strMisses + 1, strMissSince := Some(since));
        if !pinned && e.strMisses >= STR_GONE_MISSES && now - since >= STR_GONE_MIN_SPAN {
          e, degraded := NewEntry(DegradeToSTRNotRunning(b), now), true;
        }
      }
    }

    /** The address each sighted device id was found at; of two, the one visited last. */
    method FreshDevices(seen: Sightings) returns (hosts: map<string, string>, ghost order: seq<string>)
      ensures Visits(order, seen.Keys)
      ensures hosts == LiveHosts(seen, order)
    {
      hosts, order := map[], [];
      var todo := seen.Keys;
      while todo != {}
        invariant todo <= seen.Keys && Visits(order, seen.Keys - todo)
        invariant hosts == LiveHosts(seen, order)
      {
        var key :| key in todo;
        var b := seen[key];
        if b.id.deviceID != "" {
          hosts := hosts[b.id.deviceID := b.id.host];
        }
        assert (order + [key])[..|order|] == order;
        order := order + [key];
        todo := todo - {key};
      }
    }

    /** Second loop: re-add or evict what this cycle missed, and follow a speaker to its new address. */
    method ReaddMissed(seen0: Sightings, live: map<string, string>, now: int)
      returns (seen: Sightings, moved: set<string>, ghost order: seq<string>)
      modifies this`discCache
      ensures Visits(order, old(discCache).Keys)
      ensures Sweep(discCache, seen, moved) == ReaddAll(Sweep(old(discCache), seen0, {}), order, live, now)
    {
      hide MergeBoxInfo;
      seen, moved, order := seen0, {}, [];
      var todo := discCache.Keys;
      while todo != {}
        invariant todo <= old(discCache).Keys && Visits(order, old(discCache).Keys - todo)
        invariant Sweep(discCache, seen, moved) == ReaddAll(Sweep(old(discCache), seen0, {}), order, live, now)
      {
        var key :| key in todo;
        ghost var before := Sweep(discCache, seen, moved);
        if key !in seen && key in discCache {
          var e := discCache[key];
          var id := e.box.id.deviceID;
          if id != "" && id in live && live[id] != key {
            var host := live[id];
            if host in discCache {
              var cur := discCache[host];
              cur := cur.(box := MergeBoxInfo(e.box, cur.box));
              discCache := discCache[host := cur];
              if host in seen {
                seen := seen[host := cur.box];
              }
            }
            discCache := discCache - {key};
            moved := moved + {key};
          } else {
            var ttl := if e.box.id.kind == STR then STR_STICKY_TTL else STICKY_TTL;
            if e.firstMiss.None? {
              discCache := discCache[key := e.(firstMiss := Some(now))];
              seen := seen[key := ServedUnreachable(e.box)];
            } else if now - e.firstMiss.value <= ttl {
              seen := seen[key := ServedUnreachable(e.box)];
            } else if now - e.firstMiss.value <= OFFLINE_RETENTION {
              var b := ServedUnreachable(e.box);
              seen := seen[key := b.(cycle := b.cycle.(offline := true, offlineSinceSec := now - e.firstMiss.value))];
            } else {
              discCache := discCache - {key};
            }
          }
        }
        assert Sweep(discCache, seen, moved) == ReaddOne(before, key, live, now);
        assert (order + [key])[..|order|] == order;
        order := order + [key];
        todo := todo - {key};
      }
    }

    /** The maps of the third loop with the pins in `done` visited. */
    static ghost predicate PinsVisited(w: Work, moved: set<string>, live: map<string, string>, now: int,
                                       done: set<string>,
                                       cache: map<string, Entry>, pinned: map<string, int>,
                                        pinnedID: map<string, string>, seen: Sightings)
    {
      && cache == Overlay(w.st.cache, PinEntries(w, moved, live, now), done)
      && seen == Overlay(w.seen, PinServed(w, moved, live, now), done)
      && pinned == Pruned(w.st.otaPinned, PinDrops(w, moved, live, now), done)
      && pinnedID == Pruned(w.st.otaPinnedID, PinDrops(w, moved, live, now), done)
    }

    static lemma PinsVisitedNone(w: Work, moved: set<string>, live: map<string, string>, now: int)
      ensures PinsVisited(w, moved, live, now, {}, w.st.cache, w.st.otaPinned, w.st.otaPinnedID, w.seen)
    {
      hide Overlay, Pruned, PinEntries, PinServed, PinDrops;
      OverlayNone(w.st.cache, PinEntries(w, moved, live, now));
      OverlayNone(w.seen, PinServed(w, moved, live, now));
      PrunedNone(w.st.otaPinned, PinDrops(w, moved, live, now));
      PrunedNone(w.st.otaPinnedID, PinDrops(w, moved, live, now));
    }

    /** A visit finds its host as it was, and leaves it as the pin's outcome says. */
    static lemma PinsVisitedOne(w: Work, moved: set<string>, live: map<string, string>, now: int, done: set<string>,
                                host: string,
                                cache: map<string, Entry>, pinned: map<string, int>, pinnedID: map<string, string>,
                                  seen: Sightings)
      requires PinsVisited(w, moved, live, now, done, cache, pinned, pinnedID, seen) && host in w.st.otaPinned
               && host !in done
      ensures Lookup(cache, host) == Lookup(w.st.cache, host) && Lookup(seen, host) == Lookup(w.seen, host)
      ensures Lookup(pinned, host) == Lookup(w.st.otaPinned, host)
              && Lookup(pinnedID, host) == Lookup(w.st.otaPinnedID, host)
      ensures var at := PinAt(w, moved, live, now, host);
              PinsVisited(w, moved, live, now, done + {host},
                          if at.PinHeld? && at.cached.Some? then cache[host := at.cached.value] else cache,
                          if at.PinDropped? then pinned - {host} else pinned,
                          if at.PinDropped? then pinnedID - {host} else pinnedID,
                          if at.PinHeld? then seen[host := at.served] else seen)
    {
      hide Overlay, Pruned, PinEntries, PinServed, PinDrops, PinAt;
      OverlayOne(w.st.cache, PinEntries(w, moved, live, now), done, host);
      OverlayOne(w.seen, PinServed(w, moved, live, now), done, host);
      PrunedOne(w.st.otaPinned, PinDrops(w, moved, live, now), done, host);
      PrunedOne(w.st.otaPinnedID, PinDrops(w, moved, live, now), done, host);
      PinMapsAt(w, moved, live, now, host);
    }

    static lemma PinsVisitedAll(w: Work, moved: set<string>, live: map<string, string>, now: int,
                                cache: map<string, Entry>, pinned: map<string, int>, pinnedID: map<string, string>,
                                  seen: Sightings)
      requires PinsVisited(w, moved, live, now, w.st.otaPinned.Keys, cache, pinned, pinnedID, seen)
      ensures Work(w.st.(cache := cache, otaPinned := pinned, otaPinnedID := pinnedID), seen)
              == HoldPins(w, moved, live, now)
    {
      hide Overlay, Pruned, PinEntries, PinServed, PinDrops, HoldPins;
      HoldPinsParts(w, moved, live, now);
      OverlayAll(w.st.cache, PinEntries(w, moved, live, now), w.st.otaPinned.Keys);
      OverlayAll(w.seen, PinServed(w, moved, live, now), w.st.otaPinned.Keys);
      PrunedAll(w.st.otaPinned, PinDrops(w, moved, live, now), w.st.otaPinned.Keys);
      PrunedAll(w.st.otaPinnedID, PinDrops(w, moved, live, now), w.st.otaPinned.Keys);
    }

    /** Third loop: a host mid-update stays an STR speaker through its reboot. */
    method HoldOTAPins(seen0: Sightings, moved: set<string>, live: map<string, string>,
                       now: int) returns (seen: Sightings)
      modifies this`discCache, this`otaPinned, this`otaPinnedID
      ensures Work(Abs(), seen) == HoldPins(Work(old(Abs()), seen0), moved, live, now)
    {
      hide Abs, PinsVisited, HoldPins, PinAt, PinCycle;
      AbsFields();
      seen := seen0;
      ghost var w := Work(Abs(), seen0);
      ghost var done: set<string> := {};
      PinsVisitedNone(w, moved, live, now);
      var todo := otaPinned.Keys;
      while todo != {}
        invariant todo <= w.st.otaPinned.Keys && done == w.st.otaPinned.Keys - todo
        invariant PinsVisited(w, moved, live, now, done, discCache, otaPinned, otaPinnedID, seen)
      {
        var host :| host in todo;
        PinsVisitedOne(w, moved, live, now, done, host, discCache, otaPinned, otaPinnedID, seen);
        PinMapsAt(w, moved, live, now, host);
        var pinID := if host in otaPinnedID then otaPinnedID[host] else "";
        var outcome := HoldOTAPin(host, otaPinned[host], pinID, Lookup(live, pinID), host in moved,
                                  Lookup(seen, host), Lookup(discCache, host), Lookup(strKnown, pinID), now);
        seen := ApplyPin(host, outcome, seen);
        todo, done := todo - {host}, done + {host};
      }
      assert done == w.st.otaPinned.Keys;
      PinsVisitedAll(w, moved, live, now, discCache, otaPinned, otaPinnedID, seen);
      AbsFields();
    }

    /** The outcome of one pin, written into the maps. */
    method ApplyPin(host: string, outcome: PinOutcome, seen0: Sightings) returns (seen: Sightings)
      modifies this`discCache, this`otaPinned, this`otaPinnedID
      ensures discCache == if outcome.PinHeld? && outcome.cached.Some? then old(discCache)[host := outcome.cached.value]
                           else old(discCache)
      ensures otaPinned == if outcome.PinDropped? then old(otaPinned) - {host} else old(otaPinned)
      ensures otaPinnedID == if outcome.PinDropped? then old(otaPinnedID) - {host} else old(otaPinnedID)
      ensures seen == if outcome.PinHeld? then seen0[host := outcome.served] else seen0
    {
      seen := seen0;
      match outcome {
        case PinDropped =>
          DropOTAPin(host);
        case PinHeld(cached, served) =>
          if cached.Some? {
            discCache := discCache[host := cached.value];
          }
          seen := seen[host := served];
      }
    }

    /** What the third loop does with one pinned host. */
    static method HoldOTAPin(host: string, t: int, pinID: string, liveHost: Option<string>, moved: bool,
                             seen: Option<BoxInfo>, cached: Option<Entry>, memo: Option<Entry>, now: int)
      returns (outcome: PinOutcome)
      ensures outcome == PinCycle(host, t, pinID, liveHost, moved, seen, cached, memo, now)
      // a held pin serves an STR speaker mid-update, the very one that was sighted if any was
      ensures outcome.PinHeld? ==>
                var b := outcome.served;
                && b.id.kind == STR && b.cycle.otaPending && !b.cycle.strNotRunning
                && (seen.Some? ==> b.id == seen.value.id.(kind := STR) && b.agent == seen.value.agent)
                && (pinID != "" && b.id.deviceID != "" && seen.Some? ==> BoxIsDevice(seen.value, pinID))
      // and it is dropped exactly when its time is up, or its speaker is found elsewhere or another one there
      ensures outcome.PinDropped? <==>
                || now - t > OTA_REBOOT_GRACE || moved
                || (pinID != "" && liveHost.Some? && liveHost.value != host)
                || (pinID != "" && seen.Some? && seen.value.id.deviceID != "" && !BoxIsDevice(seen.value, pinID))
    {
      if now - t > OTA_REBOOT_GRACE || moved {
        return PinDropped;
      }
      if pinID != "" && liveHost.Some? && liveHost.value != host {
        return PinDropped;
      }
      if seen.Some? && pinID != "" && seen.value.id.deviceID != "" && !BoxIsDevice(seen.value, pinID) {
        return PinDropped;
      }
      var b;
      var synthesized := false;
      if seen.Some? {
        b := seen.value;
      } else if cached.Some? {
        b := cached.value.box;
      } else {
        synthesized := true;
        b := MinimalBox(host, pinID);
        if pinID != "" && memo.Some? {
          b := memo.value.box;
          b := b.(id := b.id.(host := host), cycle := b.cycle.(offline := false, offlineSinceSec := 0));
        }
      }
      b := b.(id := b.id.(kind := STR), cycle := b.cycle.(strNotRunning := false));
      var entry := None;
      if !synthesized || b.id.deviceID != "" {
        entry := Some(NewEntry(b.(cycle := b.cycle.(unreachable := false)), now));
      }
      outcome := PinHeld(entry, b.(cycle := b.cycle.(otaPending := true)));
    }

    /** Fourth loop: a host STR was removed from is stock until its agent answers a live probe. */
    method CorrectStockPins(seen0: Sightings, now: int) returns (seen: Sightings)
      modifies this`discCache, this`stockPinned
      ensures Work(Abs(), seen) == Correct(Work(old(Abs()), seen0), now)
    {
      hide Abs, Overlay, Pruned, Correct, StockAt, StockCycle, StockEntries, StockServed, StockDrops, CorrectedEntry;
      AbsFields();
      seen := seen0;
      ghost var w := Work(Abs(), seen0);
      ghost var entries, served, drops := StockEntries(w, now), StockServed(w, now), StockDrops(w, now);
      ghost var done: set<string> := {};
      OverlayNone(discCache, entries);
      OverlayNone(seen0, served);
      PrunedNone(stockPinned, drops);
      CorrectParts(w, now);
      var todo := stockPinned.Keys;
      while todo != {}
        invariant todo <= w.st.stockPinned.Keys && done == w.st.stockPinned.Keys - todo
        invariant discCache == Overlay(w.st.cache, entries, done)
        invariant seen == Overlay(seen0, served, done)
        invariant stockPinned == Pruned(w.st.stockPinned, drops, done)
      {
        var host :| host in todo;
        OverlayOne(w.st.cache, entries, done, host);
        OverlayOne(seen0, served, done, host);
        PrunedOne(w.st.stockPinned, drops, done, host);
        StockMapsAt(w, now, host);
        var outcome := CorrectStockPin(stockPinned[host], Lookup(seen, host), host in otaPinned, now);
        match outcome {
          case StockDropped =>
            stockPinned := stockPinned - {host};
          case StockKept =>
          case StockCorrected(b) =>
            seen := seen[host := b];
            var e := if host in discCache then discCache[host].(box := b, seen := now) else NewEntry(b, now);
            discCache := discCache[host := e.(box := e.box.(cycle := e.box.cycle.(unreachable := false)))];
            CorrectedEntryParts(Lookup(w.st.cache, host), b, now);
        }
        todo, done := todo - {host}, done + {host};
      }
      OverlayAll(w.st.cache, entries, done);
      OverlayAll(seen0, served, done);
      PrunedAll(w.st.stockPinned, drops, done);
      AbsFields();
    }

    /** The fourth loop's body at one pinned host: lift the pin, leave the record, or correct it. */
    static method CorrectStockPin(t: int, seen: Option<BoxInfo>, otaPinned: bool,
                                  now: int) returns (outcome: StockOutcome)
      ensures outcome == StockCycle(t, seen, otaPinned, now)
      // a corrected record is an ordinary stock one of the speaker that was sighted
      ensures outcome.StockCorrected? ==>
                && PlainStock(outcome.box) && seen.Some? && !AgentRecord(seen.value)
                && outcome.box.id == seen.value.id.(kind := Stock, port := 8090, portVerified := false)
      // and what is left as it is shows no agent either
      ensures outcome.StockKept? && seen.Some? ==>
                seen.value.id.kind == Stock && seen.value.agent.version == "" && !seen.value.cycle.strNotRunning
    {
      if now - t > STOCK_PIN_GRACE {
        return StockDropped;
      }
      if seen.None? {
        return StockKept;
      }
      var b := seen.value;
      if otaPinned || (b.id.kind == STR && b.id.portVerified) {
        return StockDropped;
      }
      if b.id.kind == Stock && !b.cycle.strNotRunning && b.agent.version == "" {
        return StockKept;
      }
      b := DegradeToSTRNotRunning(b);
      b := b.(cycle := b.cycle.(strNotRunning := false));
      outcome := StockCorrected(b);
    }

    /** Fifth loop: remember every box confirmed STR this cycle by its device id. */
    method RecordKnown(seen: Sightings, presenceOnly: set<string>, now: int) returns (ghost order: seq<string>)
      modifies this`strKnown
      ensures Visits(order, seen.Keys)
      ensures strKnown == RecordAll(old(strKnown), seen, presenceOnly, now, order)
    {
      order := [];
      var todo := seen.Keys;
      while todo != {}
        invariant todo <= seen.Keys && Visits(order, seen.Keys - todo)
        invariant strKnown == RecordAll(old(strKnown), seen, presenceOnly, now, order)
      {
        var key :| key in todo;
        if key !in presenceOnly {
          var b := seen[key];
          if b.id.kind == STR && b.id.deviceID != "" {
            strKnown := strKnown[b.id.deviceID := NewEntry(b, now)];
          }
        }
        assert (order + [key])[..|order|] == order;
        order := order + [key];
        todo := todo - {key};
      }
    }

    /** Sixth loop: a stock sighting of a remembered STR speaker is relabelled. */
    method RelabelKnown(seen0: Sightings, now: int) returns (seen: Sightings, ghost order: seq<string>)
      modifies this`discCache, this`strKnown
      ensures Visits(order, seen0.Keys)
      ensures Work(Abs(), seen) == RelabelAll(Work(old(Abs()), seen0), now, order)
    {
      hide MergeBoxInfo;
      seen, order := seen0, [];
      var todo := seen0.Keys;
      while todo != {}
        invariant todo <= seen0.Keys && Visits(order, seen0.Keys - todo)
        invariant seen.Keys == seen0.Keys
        invariant Work(Abs(), seen) == RelabelAll(Work(old(Abs()), seen0), now, order)
      {
        var key :| key in todo;
        ghost var before := Work(Abs(), seen);
        var b := seen[key];
        var id := b.id.deviceID;
        if b.id.kind == Stock && id != "" && key !in stockPinned && id in strKnown {
          var memo := strKnown[id];
          if now - memo.seen > STR_KNOWN_TTL {
            strKnown := strKnown - {id};
          } else {
            var relabelled := MergeBoxInfo(memo.box, b);
            relabelled := relabelled.(id := relabelled.id.(kind := STR));
            if memo.box.id.port != 0 && memo.box.id.port != 8090 {
              relabelled := relabelled.(id := relabelled.id.(port := memo.box.id.port));
              if memo.box.id.portVerified {
                relabelled := relabelled.(id := relabelled.id.(portVerified := true));
              }
            }
            seen := seen[key := relabelled];
            discCache := discCache[key := NewEntry(relabelled, now)];
            strKnown := strKnown[id := NewEntry(relabelled, memo.seen)];
          }
        }
        assert Work(Abs(), seen) == RelabelOne(before, now, key);
        assert (order + [key])[..|order|] == order;
        order := order + [key];
        todo := todo - {key};
      }
    }

    /** Last loop: drop the memories no sighting refreshed within a day. */
    method ExpireKnown(now: int)
      modifies this`strKnown
      ensures strKnown == Expire(old(strKnown), now)
    {
      var todo := strKnown.Keys;
      while todo != {}
        invariant todo <= old(strKnown).Keys
        invariant strKnown == map id | id in old(strKnown)
                  && (id in todo || now - old(strKnown)[id].seen <= STR_KNOWN_TTL)
                                     :: old(strKnown)[id]
      {
        var id :| id in todo;
        if now - strKnown[id].seen > STR_KNOWN_TTL {
          strKnown := strKnown - {id};
        }
        todo := todo - {id};
      }
    }

    method DropOTAPin(host: string)
      modifies this`otaPinned, this`otaPinnedID
      ensures otaPinned == old(otaPinned) - {host} && otaPinnedID == old(otaPinnedID) - {host}
    {
      otaPinned := otaPinned - {host};
      otaPinnedID := otaPinnedID - {host};
    }

    // ----- what else the app does to this state -----

    /** An update was started on the host: hold it as STR, for the speaker cached there. */
    method NotePostOTA(host: string, now: int)
      modifies this
      ensures Abs() == E.NotePostOTA(old(Abs()), host, now)
    {
      if host == "" {
        return;
      }
      otaPinned := otaPinned[host := now];
      if host in discCache && discCache[host].box.id.deviceID != "" {
        otaPinnedID := otaPinnedID[host := discCache[host].box.id.deviceID];
      } else {
        otaPinnedID := otaPinnedID - {host};
      }
      stockPinned := stockPinned - {host};
    }

    /** The update failed before it reached the host. */
    method ClearPostOTA(host: string)
      modifies this
      ensures Abs() == E.ClearPostOTA(old(Abs()), host)
    {
      if host != "" {
        DropOTAPin(host);
      }
    }

    /** Drop the memories whose record still points at the host. */
    method ForgetMemoriesAt(host: string)
      modifies this`strKnown
      ensures strKnown == map id | id in old(strKnown) && old(strKnown)[id].box.id.host != host :: old(strKnown)[id]
    {
      var todo := strKnown.Keys;
      while todo != {}
        invariant todo <= old(strKnown).Keys
        invariant strKnown == map id | id in old(strKnown) && (id in todo || old(strKnown)[id].box.id.host != host)
                                     :: old(strKnown)[id]
      {
        var id :| id in todo;
        if strKnown[id].box.id.host == host {
          strKnown := strKnown - {id};
        }
        todo := todo - {id};
      }
    }

    /** The keys of the records filed under the host, or naming it. */
    static ghost function KeysAt(cache: map<string, Entry>, host: string): set<string> {
      set k | k in cache && (k == host || cache[k].box.id.host == host)
    }

    static ghost function IDsAt(cache: map<string, Entry>, keys: set<string>): set<string>
      requires keys <= cache.Keys
    {
      set k | k in keys && cache[k].box.id.deviceID != "" :: cache[k].box.id.deviceID
    }

    /** The first loop of `MarkHostStock`: take every record of the host out of the cache, and its
        device out of the memory. */
    method TakeRecordsAt(host: string) returns (rec: Option<BoxInfo>)
      modifies this`discCache, this`strKnown
      ensures var cache := old(discCache);
              && discCache == cache - KeysAt(cache, host)
              && strKnown == old(strKnown) - IDsAt(cache, KeysAt(cache, host))
              && (rec.None? <==> KeysAt(cache, host) == {})
              && (rec.Some? ==> exists k :: k in KeysAt(cache, host) && rec.value == cache[k].box)
              && (host in cache ==> rec == Some(cache[host].box))
    {
      rec := None;
      ghost var cache := discCache;
      ghost var done: set<string> := {};
      assert KeysAt(cache, host) * done == {};
      assert IDsAt(cache, {}) == {};
      var todo := discCache.Keys;
      while todo != {}
        invariant todo <= cache.Keys && done == cache.Keys - todo
        invariant discCache == cache - KeysAt(cache, host) * done
        invariant strKnown == old(strKnown) - IDsAt(cache, KeysAt(cache, host) * done)
        invariant rec.None? <==> KeysAt(cache, host) * done == {}
        invariant rec.Some? ==> exists k :: k in KeysAt(cache, host) && rec.value == cache[k].box
        invariant host in done ==> rec == Some(cache[host].box)
      {
        var key :| key in todo;
        var e := discCache[key];
        ghost var before := KeysAt(cache, host) * done;
        if key == host || e.box.id.host == host {
          assert KeysAt(cache, host) * (done + {key}) == before + {key};
          TakenOne(cache, old(strKnown), before, key);
          if e.box.id.deviceID != "" {
            strKnown := strKnown - {e.box.id.deviceID};
          }
          if rec.None? || key == host {
            rec := Some(e.box);
          }
          discCache := discCache - {key};
        } else {
          assert KeysAt(cache, host) * (done + {key}) == before;
        }
        todo, done := todo - {key}, done + {key};
      }
      assert KeysAt(cache, host) * done == KeysAt(cache, host);
    }

    static lemma TakenOne(cache: map<string, Entry>, known: map<string, Entry>, keys: set<string>, key: string)
      requires keys <= cache.Keys && key in cache
      ensures cache - (keys + {key}) == cache - keys - {key}
      ensures var id := cache[key].box.id.deviceID;
              known - IDsAt(cache, keys + {key}) == if id == "" then known - IDsAt(cache, keys)
                else known - IDsAt(cache, keys) - {id}
    {
      var id := cache[key].box.id.deviceID;
      assert IDsAt(cache, keys + {key}) == if id == "" then IDsAt(cache, keys) else IDsAt(cache, keys) + {id};
    }

    /** With the cache keyed by address, the host has the one record filed under it. */
    static lemma KeyedAt(cache: map<string, Entry>, host: string)
      requires S.KeyedCache(cache)
      ensures KeysAt(cache, host) == if host in cache then {host} else {}
      ensures host in cache
              ==> IDsAt(cache, {host}) == if cache[host].box.id.deviceID == "" then {}
                else {cache[host].box.id.deviceID}
    {
    }

    static lemma KeyedForget(s: State, host: string)
      requires S.KeyedCache(s.cache)
      ensures var left := s.strKnown - IDsAt(s.cache, KeysAt(s.cache, host));
              E.WithoutHost(s, host) == map id | id in left && left[id].box.id.host != host :: left[id]
    {
      KeyedAt(s.cache, host);
    }

    /** Drop the records that name the host, whatever address they are filed under. */
    method ForgetRecordsAt(host: string)
      modifies this`discCache
      ensures discCache == map k | k in old(discCache) && old(discCache)[k].box.id.host != host :: old(discCache)[k]
    {
      var todo := discCache.Keys;
      while todo != {}
        invariant todo <= old(discCache).Keys
        invariant discCache == map k | k in old(discCache) && (k in todo || old(discCache)[k].box.id.host != host)
                                     :: old(discCache)[k]
      {
        var key :| key in todo;
        if discCache[key].box.id.host == host {
          discCache := discCache - {key};
        }
        todo := todo - {key};
      }
    }

    /** An uninstall forgets the host's speaker without rewriting its record. */
    method ForgetSTRDeviceByHost(host: string)
      modifies this
      ensures host == "" ==> Abs() == old(Abs())
      ensures host != "" ==>
                Abs() == old(Abs()).(cache := old(discCache) - KeysAt(old(discCache), host),
                  strKnown := E.WithoutHost(old(Abs()), host))
      ensures S.KeyedCache(old(discCache)) ==> Abs() == E.ForgetHost(old(Abs()), host)
    {
      hide E.WithoutHost, S.KeyedCache, KeysAt;
      if host == "" {
        return;
      }
      ghost var s := Abs();
      if host in discCache && discCache[host].box.id.deviceID != "" {
        strKnown := strKnown - {discCache[host].box.id.deviceID};
      }
      discCache := discCache - {host};
      ForgetMemoriesAt(host);
      ForgetRecordsAt(host);
      ForgottenMemories(s, host);
      ForgottenRecords(s.cache, host);
      if S.KeyedCache(s.cache) { KeyedAlone(s.cache, host); }
    }

    static lemma KeyedAlone(cache: map<string, Entry>, host: string)
      requires S.KeyedCache(cache)
      ensures cache - KeysAt(cache, host) == cache - {host}
    {
    }

    static lemma ForgottenMemories(s: State, host: string)
      ensures var left := if host in s.cache && s.cache[host].box.id.deviceID != ""
                          then s.strKnown - {s.cache[host].box.id.deviceID}
                          else s.strKnown;
              E.WithoutHost(s, host) == map id | id in left && left[id].box.id.host != host :: left[id]
    {
    }

    static lemma ForgottenRecords(cache: map<string, Entry>, host: string)
      ensures var left := cache - {host};
              (map k | k in left && left[k].box.id.host != host :: left[k]) == cache - KeysAt(cache, host)
    {
    }

    /** STR was removed from the host: rewrite its record as the stock speaker it became, and pin it. */
    method MarkHostStock(host: string, now: int)
      modifies this
      ensures host == "" ==> Abs() == old(Abs())
      ensures host != "" ==> HostRewritten(old(Abs()), Abs(), host, now)
      ensures S.KeyedCache(old(discCache)) ==> Abs() == E.MarkHostStock(old(Abs()), host, now)
    {
      hide E.UninstalledBox, KeysAt, IDsAt, E.WithoutHost, S.KeyedCache, Unremembered, Rewritten, E.MarkHostStock;
      ghost var s := Abs();
      if host == "" {
        NothingMarked(s, now);
        return;
      }
      var rec := TakeRecordsAt(host);
      ForgetMemoriesAt(host);
      DropOTAPin(host);
      UnrememberedIs(s, host, strKnown);
      if rec.Some? {
        var b := StockRecord(rec.value, host);
        discCache := discCache[host := NewEntry(b, now)];
      }
      RewrittenIs(s.cache, discCache, host, now, rec);
      stockPinned := stockPinned[host := now];
      if S.KeyedCache(s.cache) { KeyedRewritten(s, Abs(), host, now); }
    }

    /** Whatever address its records are filed under: they are one plain stock record at the host now, which is
        pinned for that and no longer for an update, and the memory has lost their devices. */
    static ghost predicate HostRewritten(s: State, t: State, host: string, now: int) {
      && t.stockPinned == s.stockPinned[host := now]
      && t.otaPinned == s.otaPinned - {host} && t.otaPinnedID == s.otaPinnedID - {host}
      && Unremembered(s, host, t.strKnown) && Rewritten(s.cache, t.cache, host, now)
    }

    static lemma NothingMarked(s: State, now: int)
      ensures E.MarkHostStock(s, "", now) == s
    {
    }

    static lemma KeyedRewritten(s: State, t: State, host: string, now: int)
      requires S.KeyedCache(s.cache) && host != "" && HostRewritten(s, t, host, now)
      ensures t == E.MarkHostStock(s, host, now)
    {
      hide E.UninstalledBox, KeysAt, IDsAt, E.WithoutHost, S.KeyedCache, StockRecordOf, Unremembered, Rewritten,
           NewEntry;
      KeyedMemories(s, host, t.strKnown);
      KeyedRecords(s.cache, t.cache, host, now);
    }

    static lemma KeyedMemories(s: State, host: string, known: map<string, Entry>)
      requires S.KeyedCache(s.cache) && Unremembered(s, host, known)
      ensures known == E.WithoutHost(s, host)
    {
      KeyedForget(s, host);
      hide KeysAt, IDsAt, E.WithoutHost, S.KeyedCache;
    }

    static lemma KeyedRecords(cache: map<string, Entry>, after: map<string, Entry>, host: string, now: int)
      requires S.KeyedCache(cache) && Rewritten(cache, after, host, now)
      ensures after == if host in cache then cache[host := NewEntry(E.UninstalledBox(cache[host].box), now)] else cache
    {
      KeyedAt(cache, host);
      KeyedHost(cache, host);
      hide KeysAt, S.KeyedCache, StockRecordOf, E.UninstalledBox, NewEntry;
    }

    /** The devices of the host's records are forgotten, and whatever is remembered of the host itself. */
    static ghost predicate Unremembered(s: State, host: string, known: map<string, Entry>) {
      known == map id | id in s.strKnown && id !in IDsAt(s.cache, KeysAt(s.cache, host))
        && s.strKnown[id].box.id.host != host
                      :: s.strKnown[id]
    }

    /** The host's records are one plain stock record now: the one filed under it, or any of them. */
    static ghost predicate Rewritten(cache: map<string, Entry>, after: map<string, Entry>, host: string, now: int) {
      var keys := KeysAt(cache, host);
      if keys == {} then after == cache
      else exists k :: k in keys && (host in cache ==> k == host)
                       && after == (cache - keys)[host := NewEntry(StockRecordOf(cache[k].box, host), now)]
    }

    static function StockRecordOf(rec: BoxInfo, host: string): BoxInfo {
      E.UninstalledBox(rec.(id := rec.id.(host := host)))
    }

    static lemma UnrememberedIs(s: State, host: string, known: map<string, Entry>)
      requires var left := s.strKnown - IDsAt(s.cache, KeysAt(s.cache, host));
               known == map id | id in left && left[id].box.id.host != host :: left[id]
      ensures Unremembered(s, host, known)
    {
    }

    static lemma RewrittenIs(cache: map<string, Entry>, after: map<string, Entry>, host: string, now: int,
                             rec: Option<BoxInfo>)
      requires rec.None? <==> KeysAt(cache, host) == {}
      requires rec.Some? ==> exists k :: k in KeysAt(cache, host) && rec.value == cache[k].box
      requires host in cache ==> rec == Some(cache[host].box)
      requires var left := cache - KeysAt(cache, host);
               after == if rec.Some? then left[host := NewEntry(StockRecordOf(rec.value, host), now)] else left
      ensures Rewritten(cache, after, host, now)
    {
      hide E.UninstalledBox;
      if rec.Some? {
        var k :| k in KeysAt(cache, host) && rec.value == cache[k].box && (host in cache ==> k == host);
      } else {
        assert cache - {} == cache;
      }
    }

    static lemma KeyedHost(cache: map<string, Entry>, host: string)
      requires S.KeyedCache(cache)
      ensures host in cache ==> cache[host].box.id.host == host
      ensures host in cache ==> StockRecordOf(cache[host].box, host) == E.UninstalledBox(cache[host].box)
    {
      hide E.UninstalledBox;
      if host in cache { assert cache[host].box.(id := cache[host].box.id.(host := host)) == cache[host].box; }
    }

    /** The plain stock record of the speaker the app removed STR from. */
    static method StockRecord(rec: BoxInfo, host: string) returns (b: BoxInfo)
      ensures b == StockRecordOf(rec, host) && PlainStock(b) && b.id.host == host && b.id.deviceID == rec.id.deviceID
    {
      b := rec;
      b := b.(id := b.id.(host := host));
      b := DegradeToSTRNotRunning(b);
      b := b.(cycle := b.cycle.(strNotRunning := false));
      b := b.(cycle := b.cycle.(offline := false, offlineSinceSec := 0));
    }

    /** Collapse a speaker served at several addresses to one, in the list and in the cache. */
    method DedupeByDeviceID(seen0: Sightings, reachable: set<string>) returns (seen: Sightings)
      modifies this`discCache
      ensures seen == G.Collapsed(seen0, reachable)
      ensures discCache == old(discCache) - (seen0.Keys - seen.Keys)
    {
      hide G.Collapsed;
      var dropped;
      seen, dropped := G.DropDuplicates(seen0, reachable);
      var todo := dropped;
      while todo != {}
        invariant todo <= dropped
        invariant discCache == old(discCache) - (dropped - todo)
      {
        var key :| key in todo;
        discCache := discCache - {key};
        todo := todo - {key};
      }
    }

    /** What a full discovery does with its sightings: merge them, then collapse the duplicates. */
    method MergeAndDedupe(sighted: Sightings, presenceOnly: set<string>, now: int, reachable: set<string>)
      returns (seen: Sightings, ghost o: Orders)
      modifies this
      ensures ValidOrders(old(Abs()), sighted, presenceOnly, now, o)
      ensures Work(Abs(), seen) == E.Deduped(Step(old(Abs()), sighted, presenceOnly, now, o), reachable)
      // whatever was sighted where, nothing is left twice
      ensures S.InvBase(old(Abs())) && S.KeyedSightings(sighted) ==>
                S.InvBase(Abs()) && S.OneAddressPerID(seen) && S.OneAddressPerEntry(discCache)
    {
      hide Step, ValidOrders, G.Collapsed, S.InvBase, S.KeyedSightings, S.OneAddressPerID, S.OneAddressPerEntry;
      ghost var s := Abs();
      var merged;
      merged, o := MergeDiscoveryCacheWith(sighted, presenceOnly, now);
      seen := DedupeByDeviceID(merged, reachable);
      if S.InvBase(s) && S.KeyedSightings(sighted) {
        E.CollapseRestores(s, C.Scan(sighted, presenceOnly, now, o), reachable);
      }
    }
  }
}
