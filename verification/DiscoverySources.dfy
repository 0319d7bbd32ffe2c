/**
 Where the sightings of a cycle come from: the fold of a full discovery, and
 the re-probe of the known speakers. What both hand to the cache is what the
 latch of "STR not running" takes for granted.
 */
module DiscoverySources {
  import opened BoxRecords
  import opened DiscoveryRules
  import opened DiscoveryRun
  import opened DiscoveryScan
  import opened DiscoverySpec
  import opened DiscoveryStep
  import opened FieldPolicy
  import opened Latch
  import opened Options
  import opened SameCycleMerge
  import opened SightingFold
  import opened Text

  /** What a source reports: only the agent verifies a port, and no source marks a record. */
  predicate Raw(b: BoxInfo) {
    Plain(b) && !Marked(b)
  }

  // ----- a full discovery -----

  /** The addresses without a live agent probe behind them. */
  function PresenceOnly(seen: Sightings): set<string> {
    set k | k in seen && (seen[k].id.kind == Stock || !seen[k].id.portVerified)
  }

  lemma {:induction false} MergeAllRaw(bs: seq<BoxInfo>)
    requires bs != [] && (forall b :: b in bs ==> Raw(b)) && (forall b :: b in bs ==> b.id.kind == bs[0].id.kind)
    ensures Raw(MergeAll(bs)) && MergeAll(bs).id.kind == bs[0].id.kind
  {
    hide MergeSameKind;
    assert bs[|bs| - 1] in bs;
    if |bs| > 1 {
      MergeAllRaw(bs[..|bs| - 1]);
      SameKindIdentity(MergeAll(bs[..|bs| - 1]), bs[|bs| - 1]);
      SameKindMark(MergeAll(bs[..|bs| - 1]), bs[|bs| - 1]);
    }
  }

  lemma SameKindMark(base: BoxInfo, other: BoxInfo)
    ensures MergeSameKind(base, other).cycle == base.cycle
  {
    hide MergedIdentity, MergedAgent, MergedHealth, MergedWarnings, MergedEvents;
  }

  /** A full discovery files each record under its own address, and none is marked. */
  lemma FoldedProbed(s: State, bs: seq<BoxInfo>)
    requires forall b :: b in bs ==> Raw(b)
    ensures Probed(s, Folded(bs)) && KeyedSightings(Folded(bs))
  {
    hide Folded, MergeAll;
    FoldedNowhere(bs);
    forall k | k in Folded(bs) ensures k != "" && Folded(bs)[k].id.host == k && Raw(Folded(bs)[k]) {
      FoldedAt(bs, k);
      FoldedKind(bs, k);
      MergeAllRaw(Counting(bs, k));
    }
  }

  lemma {:induction false} FoldedNowhere(bs: seq<BoxInfo>)
    ensures "" !in Folded(bs)
  {
    hide MergeSameKind;
    if bs != [] { FoldedNowhere(bs[..|bs| - 1]); }
  }

  /** A sighting of a full discovery confirms STR exactly if some live agent probe answered at its address. */
  lemma ConfirmedExactlyIfProbed(bs: seq<BoxInfo>, h: string)
    requires h != "" && forall b :: b in bs ==> Raw(b) && (b.id.portVerified ==> b.id.port != 0)
    ensures h in Folded(bs) && h !in PresenceOnly(Folded(bs)) <==>
            exists b :: b in bs && b.id.host == h && b.id.kind == STR && b.id.portVerified
  {
    hide Folded, FirstVerified;
    var at := OfKind(bs, h, STR);
    FoldedKind(bs, h);
    assert forall b :: b in bs && b.id.host == h && b.id.kind == STR ==> b in at;
    if at != [] {
      FoldedProbe(bs, h, IdentityField(Port));
      var i := FirstVerified(at);
      if i < |at| { assert at[i] in at; }
      forall b | b in at && b.id.portVerified ensures i < |at| {
        var j :| 0 <= j < |at| && at[j] == b;
      }
    }
  }

  // ----- the re-probe of a known speaker -----

  datatype Classified = Classified(record: BoxInfo, live: bool, strConfirmed: bool)

  /** What one probe of a known speaker amounts to. */
  function ClassifyKnownBox(cached: BoxInfo, probed: Option<BoxInfo>, bosePortOpen: bool): Classified {
    if probed.Some? then Classified(probed.value, true, true)
    else
      var c := cached.(
        warn := cached.warn.(conflictingMod := "", foreignCloudURL := "", wlanCredsMissing := false,
                             storm1036 := false, storm1036SinceSec := 0, recallRefusal := false,
                               recallRefusalSinceSec := 0),
        health := cached.health.(internet := "", internetReason := ""),
        events := cached.events.(weakWifiDropout := "", weakWifiDropoutAgeSec := 0));
      Classified(c, bosePortOpen, false)
  }

  /** The first of the other addresses a speaker reported that an agent answers on. */
  function Alternative(addrs: seq<string>, host: string, answers: Sightings): (alt: Option<string>)
    ensures alt.Some? ==> exists n ::
              && 0 <= n < |addrs| && addrs[n] == alt.value && alt.value != host && alt.value in answers
              && forall m :: 0 <= m < n ==> addrs[m] == host || addrs[m] !in answers
    ensures alt.None? ==> forall a :: a in addrs && a != host ==> a !in answers
  {
    if addrs == [] then None
    else if addrs[0] != host && addrs[0] in answers then Some(addrs[0])
    else Alternative(addrs[1..], host, answers)
  }

  /** The agent's answer, under the id the app knows the speaker by where it names none. */
  function Tied(kb: BoxInfo, answer: BoxInfo): BoxInfo {
    if answer.id.deviceID == "" then answer.(id := answer.id.(deviceID := kb.id.deviceID)) else answer
  }

  /** What probing a known speaker gets: the answer at its address, else, if it counts as STR, the answer at the
      first other address it reported. */
  function Probe(kb: BoxInfo, answers: Sightings): Option<BoxInfo> {
    if kb.id.host in answers then Some(answers[kb.id.host])
    else if kb.id.kind != STR then None
    else
      match Alternative(SplitAddrList(kb.agent.lanAddrs), kb.id.host, answers)
      case None => None
      case Some(alt) => Some(Tied(kb, answers[alt]))
  }

  /** The probe of one known speaker: its own address, then the others until one answers. */
  method ProbeKnownBox(kb: BoxInfo, answers: Sightings) returns (probed: Option<BoxInfo>)
    ensures probed == Probe(kb, answers)
  {
    probed := Lookup(answers, kb.id.host);
    if probed.None? && kb.id.kind == STR {
      var addrs, i := SplitAddrList(kb.agent.lanAddrs), 0;
      while i < |addrs|
        invariant 0 <= i <= |addrs| && probed.None? && kb.id.host !in answers
        invariant Alternative(addrs, kb.id.host, answers) == Alternative(addrs[i..], kb.id.host, answers)
      {
        var alt := addrs[i];
        if alt != kb.id.host && alt in answers {
          probed := Some(Tied(kb, answers[alt]));
          break;
        }
        i := i + 1;
      }
    }
  }

  /** What a refresh makes of a known speaker. */
  function Outcome(kb: BoxInfo, answers: Sightings, open: set<string>): Classified {
    ClassifyKnownBox(kb, Probe(kb, answers), kb.id.host in open)
  }

  /** The refresh reaches the known speaker `kb` and files it under `k`. */
  predicate Reaches(kb: BoxInfo, answers: Sightings, open: set<string>, k: string) {
    kb.id.host != "" && Outcome(kb, answers, open).live && Outcome(kb, answers, open).record.id.host == k
  }

  /** The sightings are the outcomes of the known speakers that were reached, the presence-only ones those whose
      agent answered nowhere. */
  ghost predicate Collected(known: seq<BoxInfo>, answers: Sightings, open: set<string>, seen: Sightings,
                            presenceOnly: set<string>)
  {
    && (forall k :: k in seen ==> exists kb :: kb in known && Reaches(kb, answers, open, k)
                                               && seen[k] == Outcome(kb, answers, open).record)
    && (forall kb, k :: kb in known && Reaches(kb, answers, open, k) ==> k in seen)
    && (forall k :: k in presenceOnly ==> exists kb :: kb in known && Reaches(kb, answers, open, k)
                                                       && !Outcome(kb, answers, open).strConfirmed)
    && (forall kb, k :: kb in known && Reaches(kb, answers, open, k) && !Outcome(kb, answers, open).strConfirmed
                        ==> k in presenceOnly)
  }

  /** The sightings of a refresh, one probe after the other in the order they end: a later one replaces an
      earlier one filed under the same address. */
  method RefreshKnownBoxes(known: seq<BoxInfo>, answers: Sightings, open: set<string>)
    returns (seen: Sightings, presenceOnly: set<string>)
    ensures Collected(known, answers, open, seen, presenceOnly)
  {
    hide Collected, ClassifyKnownBox, Probe;
    seen, presenceOnly := map[], {};
    var i := 0;
    assert Collected(known[..0], answers, open, seen, presenceOnly) by { CollectedNone(answers, open); }
    while i < |known|
      invariant 0 <= i <= |known| && Collected(known[..i], answers, open, seen, presenceOnly)
    {
      var kb := known[i];
      CollectedOne(known[..i], kb, answers, open, seen, presenceOnly);
      assert known[..i + 1] == known[..i] + [kb];
      if kb.id.host != "" {
        var probed := ProbeKnownBox(kb, answers);
        var c := ClassifyKnownBox(kb, probed, kb.id.host in open);
        if c.live {
          seen := seen[c.record.id.host := c.record];
          if !c.strConfirmed { presenceOnly := presenceOnly + {c.record.id.host}; }
        }
      }
      i := i + 1;
    }
    assert known[..i] == known;
  }

  lemma CollectedNone(answers: Sightings, open: set<string>)
    ensures Collected([], answers, open, map[], {})
  {
  }

  lemma CollectedOne(known: seq<BoxInfo>, kb: BoxInfo, answers: Sightings, open: set<string>, seen: Sightings,
                     presenceOnly: set<string>)
    requires Collected(known, answers, open, seen, presenceOnly)
    ensures var c := Outcome(kb, answers, open);
            if kb.id.host != "" && c.live then
              Collected(known + [kb], answers, open, seen[c.record.id.host := c.record],
                        if c.strConfirmed then presenceOnly else presenceOnly + {c.record.id.host})
            else Collected(known + [kb], answers, open, seen, presenceOnly)
  {
    hide Outcome;
    assert forall b :: b in known ==> b in known + [kb];
    assert kb in known + [kb];
    if kb.id.host != "" && Outcome(kb, answers, open).live {
      assert Reaches(kb, answers, open, Outcome(kb, answers, open).record.id.host);
    }
  }

  /** An agent's answer is filed under the address it was asked at. */
  predicate Answered(answers: Sightings) {
    forall a :: a in answers ==> a != "" && answers[a].id.host == a && Raw(answers[a])
  }

  /**
   A live record is the agent's fresh answer, at the known address or at another
   one the speaker reported, or the cached record itself: address, kind and marks
   unchanged, the warnings of a live probe gone. The latter never confirms STR.
   */
  lemma ClassifiedIs(kb: BoxInfo, answers: Sightings, open: set<string>)
    requires Answered(answers)
    ensures var c := Outcome(kb, answers, open);
            && (c.strConfirmed <==>
                kb.id.host in answers
                || (kb.id.kind == STR
                    && exists a :: Reported(kb.agent.lanAddrs, a) && a != kb.id.host && a in answers))
            && (c.strConfirmed ==>
                && c.live && Raw(c.record) && c.record.id.host in answers
                && var answer := answers[c.record.id.host];
                   if c.record.id.host == kb.id.host then c.record == answer
                   else
                     && kb.id.host !in answers && Reported(kb.agent.lanAddrs, c.record.id.host)
                     && c.record
                        == answer.(id := answer.id.(deviceID := Preferred(answer.id.deviceID, kb.id.deviceID))))
            && (!c.strConfirmed ==>
                && c.record.id == kb.id && c.record.cycle == kb.cycle && (c.live <==> kb.id.host in open)
                && (forall n: WarningsName :: n !in {RivalCloudURL, SpeakerNameUnsafe}
                                              ==> IsZero(c.record, WarningsField(n)))
                && c.record.warn.rivalCloudURL == kb.warn.rivalCloudURL
                && c.record.warn.speakerNameUnsafe == kb.warn.speakerNameUnsafe
                && c.record.health == kb.health.(internet := "", internetReason := "")
                && c.record.events == kb.events.(weakWifiDropout := "", weakWifiDropoutAgeSec := 0)
                && c.record.agent == kb.agent)
  {
    hide SplitAddrList, Reported;
    forall a ensures a in SplitAddrList(kb.agent.lanAddrs) <==> Reported(kb.agent.lanAddrs, a) {
      ReportedExactly(kb.agent.lanAddrs, a);
    }
  }

  /** One outcome, filed under `k`: the agent's answer there if there is one, else the cached record itself. */
  lemma ReachedAs(s: State, kb: BoxInfo, answers: Sightings, open: set<string>, k: string)
    requires Latched(s) && KeyedCache(s.cache) && Answered(answers) && Reaches(kb, answers, open, k)
    requires kb.id.host in s.cache && s.cache[kb.id.host].box == kb
    ensures var c := Outcome(kb, answers, open);
            && k != "" && c.record.id.host == k && Plain(c.record)
            && (c.strConfirmed <==> k in answers)
            && (c.strConfirmed ==> !Marked(c.record))
            && (!c.strConfirmed ==> k in s.cache && c.record.id == s.cache[k].box.id
                                    && c.record.cycle == s.cache[k].box.cycle)
  {
    hide Outcome;
    ClassifiedIs(kb, answers, open);
  }

  /**
   Whatever order the probes end in, a refresh hands the cache sightings filed
   under their own addresses that the latch allows: confirmed exactly where an
   agent answered, and elsewhere the cached record of that very address, which is
   present only.
   */
  lemma RefreshedProbed(s: State, known: seq<BoxInfo>, answers: Sightings, open: set<string>, seen: Sightings,
                        presenceOnly: set<string>)
    requires Latched(s) && KeyedCache(s.cache) && Answered(answers)
    requires forall kb :: kb in known ==> kb.id.host in s.cache && s.cache[kb.id.host].box == kb
    requires Collected(known, answers, open, seen, presenceOnly)
    ensures Probed(s, seen) && KeyedSightings(seen)
    ensures presenceOnly == seen.Keys - answers.Keys
    ensures forall k :: k in presenceOnly ==> k in s.cache && seen[k].id == s.cache[k].box.id
                                              && seen[k].cycle == s.cache[k].box.cycle
  {
    hide Outcome, Latched, Reaches, KeyedCache;
    forall k | k in seen
      ensures k != "" && seen[k].id.host == k && Plain(seen[k]) && (Marked(seen[k]) ==> k !in answers)
              && (k !in answers ==> k in presenceOnly && k in s.cache && seen[k].id == s.cache[k].box.id
                                    && seen[k].cycle == s.cache[k].box.cycle)
    {
      var kb :| kb in known && Reaches(kb, answers, open, k) && seen[k] == Outcome(kb, answers, open).record;
      ReachedAs(s, kb, answers, open, k);
    }
    forall k | k in presenceOnly ensures k in seen && k !in answers {
      var kb :| kb in known && Reaches(kb, answers, open, k) && !Outcome(kb, answers, open).strConfirmed;
      ReachedAs(s, kb, answers, open, k);
    }
  }

  /** A speaker that is silent at its address and answers at another one it reported is listed there from then
      on, under the id the app knew it by, and no longer at the old address, whatever pins are on either. */
  lemma AlternativeMoves(s: State, c: Scan, k: string, alt: string, answers: Sightings)
    requires Sane(s, c) && k in s.cache && k !in c.seen && IDOf(s.cache[k]) != "" && k !in answers
    requires s.cache[k].box.id.kind == STR && Answered(answers)
    requires Alternative(SplitAddrList(s.cache[k].box.agent.lanAddrs), k, answers) == Some(alt)
    requires alt in answers && answers[alt].id.deviceID in {"", IDOf(s.cache[k])}
    requires Probe(s.cache[k].box, answers).Some? && Lookup(c.seen, alt) == Probe(s.cache[k].box, answers)
    ensures var r := StepBy(s, c);
            && k !in r.seen && k !in r.st.cache
            && alt in r.seen && alt in r.st.cache
            && r.seen[alt].id.deviceID == IDOf(r.st.cache[alt]) == IDOf(s.cache[k])
  {
    hide Fits, KeyedSightings, StepBy, SplitAddrList, MissedEntry, NewAddress, ServedAt, PinHolds, MemoryKeyed,
         PinsKeyed;
    assert SightedAs(s, c, alt, IDOf(s.cache[k]));
    AnsweredElsewhere(s, c, k);
    StepIDs(s, c, alt);
    StepCaches(s, c, alt);
    ServedAtID(StepBy(s, c), alt);
  }

  /** A missed speaker that was sighted elsewhere is neither served nor cached at its old address. */
  lemma AnsweredElsewhere(s: State, c: Scan, k: string)
    requires Sane(s, c) && k in s.cache && k !in c.seen && Sighted(s, c, IDOf(s.cache[k]))
    ensures k !in StepBy(s, c).seen && k !in StepBy(s, c).st.cache
  {
    hide InvBase, KeyedSightings, Fits, SweptBy, PinnedBy, StepBy, HoldPins, Correct, Live, NewAddress, MissedEntry,
         Sighted, ServedAt, MemoryKeyed;
    EvictedExactlyWhen(s, c, k);
    SweptMissed(s, c, k);
    SweptFrame(s, c);
    PinnedIs(s, c);
    var (w, moved) := SweptBy(s, c);
    AbsentPinned(w, moved, Live(s, c), c.now, k);
    StepServedAt(s, c, k);
    ServedAtCached(StepBy(s, c), k);
  }

  lemma ServedAtCached(w: Work, k: string)
    requires ServedAt(w, k) && k !in w.seen
    ensures k !in w.st.cache
  {
  }
}
