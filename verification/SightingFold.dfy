/**
 Folding the sightings of one cycle into one record per address
 (`upsertSighting` in `desktop-app/discovery_scan.go`).
 */
module SightingFold {
  import opened BoxRecords
  import opened FieldPolicy
  import opened Options
  import opened SameCycleMerge

  /** The map after one more sighting. */
  function Upserted(seen: map<string, BoxInfo>, b: BoxInfo): map<string, BoxInfo> {
    if b.id.host == "" then seen
    else if b.id.host !in seen then seen[b.id.host := b]
    else
      var prev := seen[b.id.host];
      if prev.id.kind == STR && b.id.kind == Stock then seen
      else if b.id.kind == STR && prev.id.kind == Stock then seen[b.id.host := b]
      else seen[b.id.host := MergeSameKind(prev, b)]
  }

  function Folded(bs: seq<BoxInfo>): map<string, BoxInfo> {
    if bs == [] then map[] else Upserted(Folded(bs[..|bs| - 1]), bs[|bs| - 1])
  }

  method UpsertSighting(seen0: map<string, BoxInfo>, b: BoxInfo) returns (seen: map<string, BoxInfo>)
    ensures seen == Upserted(seen0, b)
    // one record at each address, an STR one as soon as any sighting there was; none lost, no other touched
    ensures seen.Keys == seen0.Keys + (if b.id.host == "" then {} else {b.id.host})
    ensures b.id.host != "" ==>
              (seen[b.id.host].id.kind == STR <==>
               b.id.kind == STR || (b.id.host in seen0 && seen0[b.id.host].id.kind == STR))
    ensures forall k :: k in seen0 && k != b.id.host ==> seen[k] == seen0[k]
  {
    seen := seen0;
    var key := b.id.host;
    if key == "" {
      return;
    }
    if key !in seen {
      seen := seen[key := b];
      return;
    }
    var prev := seen[key];
    if prev.id.kind == STR && b.id.kind == Stock {
      return;
    }
    if b.id.kind == STR && prev.id.kind == Stock {
      seen := seen[key := b];
      return;
    }
    var merged := MergeByPolicy(prev, b, SameKind);
    seen := seen[key := merged];
  }

  /** One cycle's fold over every source, in the order the sightings came in. */
  method FoldSightings(bs: seq<BoxInfo>) returns (seen: map<string, BoxInfo>)
    ensures seen == Folded(bs)
  {
    seen := map[];
    for i := 0 to |bs|
      invariant seen == Folded(bs[..i])
    {
      assert bs[..i + 1][..i] == bs[..i];
      seen := UpsertSighting(seen, bs[i]);
    }
    assert bs[..|bs|] == bs;
  }

  // ----- what the fold is, address by address -----

  /** The sightings at `h` of kind `kind`, in order. */
  function OfKind(bs: seq<BoxInfo>, h: string, kind: BoxKind): (at: seq<BoxInfo>)
    ensures forall b :: b in at <==> b in bs && b.id.host == h && b.id.kind == kind
  {
    if bs == [] then []
    else
      var last := bs[|bs| - 1];
      OfKind(bs[..|bs| - 1], h, kind) + if last.id.host == h && last.id.kind == kind then [last] else []
  }

  /** The sightings that count at `h`: the STR ones if there is any, else the stock ones. */
  function Counting(bs: seq<BoxInfo>, h: string): seq<BoxInfo> {
    if OfKind(bs, h, STR) != [] then OfKind(bs, h, STR) else OfKind(bs, h, Stock)
  }

  /** The sightings merged one after the other. */
  function MergeAll(bs: seq<BoxInfo>): BoxInfo
    requires bs != []
  {
    if |bs| == 1 then bs[0] else MergeSameKind(MergeAll(bs[..|bs| - 1]), bs[|bs| - 1])
  }

  lemma {:induction false} MergeAllKeeps(bs: seq<BoxInfo>)
    requires bs != []
    ensures MergeAll(bs).id.host == bs[0].id.host && MergeAll(bs).id.kind == bs[0].id.kind
  {
    hide MergeSameKind;
    if |bs| > 1 {
      MergeAllKeeps(bs[..|bs| - 1]);
      SameKindIdentity(MergeAll(bs[..|bs| - 1]), bs[|bs| - 1]);
    }
  }

  lemma MergeAllMore(bs: seq<BoxInfo>, b: BoxInfo)
    ensures MergeAll(bs + [b]) == if bs == [] then b else MergeSameKind(MergeAll(bs), b)
  {
    assert (bs + [b])[..|bs|] == bs;
  }

  lemma OfKindLast(bs: seq<BoxInfo>, h: string, kind: BoxKind)
    requires bs != []
    ensures var rest, last := bs[..|bs| - 1], bs[|bs| - 1];
            OfKind(bs, h, kind) ==
            if last.id.host == h && last.id.kind == kind then OfKind(rest, h, kind) + [last] else OfKind(rest, h, kind)
  {
  }

  lemma CountingKind(bs: seq<BoxInfo>, h: string)
    ensures Counting(bs, h) != [] ==> (Counting(bs, h)[0].id.kind == STR <==> OfKind(bs, h, STR) != [])
    ensures Counting(bs, h) == [] ==> OfKind(bs, h, STR) == OfKind(bs, h, Stock) == []
  {
    var at := Counting(bs, h);
    if at != [] { assert at[0] in at; }
  }

  /** What one more sighting does to the ones that count. */
  lemma CountingLast(bs: seq<BoxInfo>, h: string)
    requires bs != []
    ensures var rest, last := bs[..|bs| - 1], bs[|bs| - 1];
            var at := Counting(rest, h);
            Counting(bs, h) ==
            if last.id.host != h then at
            else if at == [] then [last]
            else if at[0].id.kind == STR && last.id.kind == Stock then at
            else if at[0].id.kind == Stock && last.id.kind == STR then [last]
            else at + [last]
  {
    hide OfKind;
    OfKindLast(bs, h, STR);
    OfKindLast(bs, h, Stock);
    CountingKind(bs[..|bs| - 1], h);
  }

  /**
   The record the fold leaves at an address is the merge of its STR sightings
   if any came in, else of its stock ones; a stock sighting leaves no trace
   beside an STR one, whichever came first.
   */
  lemma {:induction false} FoldedAt(bs: seq<BoxInfo>, h: string)
    requires h != ""
    ensures Lookup(Folded(bs), h) == if Counting(bs, h) == [] then None else Some(MergeAll(Counting(bs, h)))
  {
    hide MergeSameKind, MergeAll, Counting;
    if bs == [] {
      CountingKindNone(h);
    } else {
      var rest, last := bs[..|bs| - 1], bs[|bs| - 1];
      FoldedAt(rest, h);
      CountingLast(bs, h);
      var at := Counting(rest, h);
      MergeAllMore(at, last);
      MergeAllMore([], last);
      assert [] + [last] == [last];
      if at != [] { MergeAllKeeps(at); }
      hide Folded;
      UpsertedAt(Folded(rest), last, h);
    }
  }

  lemma CountingKindNone(h: string)
    ensures Counting([], h) == []
  {
  }

  lemma UpsertedAt(seen: map<string, BoxInfo>, b: BoxInfo, h: string)
    requires h != ""
    ensures Lookup(Upserted(seen, b), h) ==
            if b.id.host != h then Lookup(seen, h)
            else if h !in seen then Some(b)
            else if seen[h].id.kind == STR && b.id.kind == Stock then Some(seen[h])
            else if seen[h].id.kind == Stock && b.id.kind == STR then Some(b)
            else Some(MergeSameKind(seen[h], b))
  {
    hide MergeSameKind;
  }

  /** An address is listed exactly if something was sighted there, and as STR exactly if some sighting was. */
  lemma FoldedKind(bs: seq<BoxInfo>, h: string)
    requires h != ""
    ensures h in Folded(bs) <==> exists b :: b in bs && b.id.host == h
    ensures h in Folded(bs) ==> Folded(bs)[h].id.host == h
    ensures h in Folded(bs)
            ==> (Folded(bs)[h].id.kind == STR <==> exists b :: b in bs && b.id.host == h && b.id.kind == STR)
  {
    hide MergeAll, Folded;
    FoldedAt(bs, h);
    var at := Counting(bs, h);
    if at != [] {
      MergeAllKeeps(at);
      assert at[0] in at;
    }
    forall b | b in bs && b.id.host == h ensures b in OfKind(bs, h, b.id.kind) { }
  }

  // ----- the first live probe -----

  /** The place of the first verified record. */
  function FirstVerified(bs: seq<BoxInfo>): (i: nat)
    ensures i <= |bs|
    ensures forall j :: 0 <= j < i ==> !bs[j].id.portVerified
    ensures i < |bs| ==> bs[i].id.portVerified
  {
    if bs == [] || bs[0].id.portVerified then 0 else 1 + FirstVerified(bs[1..])
  }

  lemma FirstVerifiedMore(bs: seq<BoxInfo>, b: BoxInfo)
    ensures FirstVerified(bs + [b]) ==
            if FirstVerified(bs) < |bs| then FirstVerified(bs) else if b.id.portVerified then |bs| else |bs| + 1
  {
    hide FirstVerified;
    var more, i, j := bs + [b], FirstVerified(bs + [b]), FirstVerified(bs);
    if i < |bs| { assert more[i] == bs[i]; }
    if j < |bs| { assert more[j] == bs[j]; }
    if i > |bs| { assert more[|bs|] == b; }
  }

  /** The port of the merged record is that of the first verified sighting, else that of the first one. */
  lemma {:induction false} PortOfFirstProbe(bs: seq<BoxInfo>)
    requires bs != [] && forall b :: b in bs && b.id.portVerified ==> b.id.port != 0
    ensures var i := FirstVerified(bs);
            && MergeAll(bs).id.portVerified == (i < |bs|)
            && MergeAll(bs).id.port == bs[if i < |bs| then i else 0].id.port
  {
    hide MergeSameKind, FirstVerified;
    if |bs| > 1 {
      var rest, last := bs[..|bs| - 1], bs[|bs| - 1];
      assert bs == rest + [last];
      PortOfFirstProbe(rest);
      FirstVerifiedMore(rest, last);
      SameKindIdentity(MergeAll(rest), last);
    }
  }

  /** Every reading of the merged record, and every reason with it, is the first verified sighting's. */
  lemma {:induction false} ReadingsOfFirstProbe(bs: seq<BoxInfo>, f: Field)
    requires bs != [] && forall b :: b in bs && b.id.portVerified ==> b.id.port != 0
    requires FirstVerified(bs) < |bs| && IsReading(f)
    ensures SameField(MergeAll(bs), bs[FirstVerified(bs)], f)
  {
    hide MergeSameKind, SameField, IsReading, FirstVerified;
    SameFieldSelf(bs[0], f);
    if |bs| > 1 {
      var rest, last := bs[..|bs| - 1], bs[|bs| - 1];
      assert bs == rest + [last];
      FirstVerifiedMore(rest, last);
      PortOfFirstProbe(rest);
      ReadingFromProbe(MergeAll(rest), last, f);
      if FirstVerified(rest) < |rest| {
        ReadingsOfFirstProbe(rest, f);
        SameFieldTrans(MergeAll(bs), MergeAll(rest), bs[FirstVerified(bs)], f);
      }
    }
  }

  /** What the fold of a cycle lists for an STR speaker is its first live probe's port and readings. */
  lemma FoldedProbe(bs: seq<BoxInfo>, h: string, f: Field)
    requires h != "" && OfKind(bs, h, STR) != []
    requires forall b :: b in bs && b.id.portVerified ==> b.id.port != 0
    ensures var at := OfKind(bs, h, STR);
            var i := FirstVerified(at);
            && h in Folded(bs)
            && Folded(bs)[h].id.portVerified == (i < |at|)
            && Folded(bs)[h].id.port == at[if i < |at| then i else 0].id.port
            && (i < |at| && IsReading(f) ==> SameField(Folded(bs)[h], at[i], f))
  {
    hide Folded, MergeAll, SameField, FirstVerified;
    var at := OfKind(bs, h, STR);
    FoldedAt(bs, h);
    PortOfFirstProbe(at);
    if FirstVerified(at) < |at| && IsReading(f) { ReadingsOfFirstProbe(at, f); }
  }

  // ----- names and ids -----

  /** `v` is the first of the values that says something, or none does. */
  ghost predicate FirstSaid(bs: seq<BoxInfo>, said: BoxInfo -> string, v: string) {
    if v == "" then forall b :: b in bs ==> said(b) == ""
    else exists i :: 0 <= i < |bs| && said(bs[i]) == v && forall j :: 0 <= j < i ==> said(bs[j]) == ""
  }

  lemma FirstSaidMore(bs: seq<BoxInfo>, b: BoxInfo, said: BoxInfo -> string, v: string)
    requires FirstSaid(bs, said, v)
    ensures FirstSaid(bs + [b], said, Preferred(v, said(b)))
  {
    var more := bs + [b];
    if v != "" {
      var i :| 0 <= i < |bs| && said(bs[i]) == v && forall j :: 0 <= j < i ==> said(bs[j]) == "";
      assert said(more[i]) == v && forall j :: 0 <= j < i ==> more[j] == bs[j];
    } else if said(b) != "" {
      assert said(more[|bs|]) == said(b) && forall j :: 0 <= j < |bs| ==> more[j] == bs[j] && bs[j] in bs;
    }
  }

  /** The merge of two records takes this value from the first of them that says one. */
  ghost predicate TakesFirst(said: BoxInfo -> string) {
    forall a, b {:trigger MergeSameKind(a, b)} :: said(MergeSameKind(a, b)) == Preferred(said(a), said(b))
  }

  lemma TakesFirstOf(said: BoxInfo -> string, a: BoxInfo, b: BoxInfo)
    requires TakesFirst(said)
    ensures said(MergeSameKind(a, b)) == Preferred(said(a), said(b))
  {
    hide MergeSameKind;
  }

  /** Then so does the merge of any number. */
  lemma {:induction false} MergeKeepsFirst(bs: seq<BoxInfo>, said: BoxInfo -> string)
    requires bs != [] && TakesFirst(said)
    ensures FirstSaid(bs, said, said(MergeAll(bs)))
  {
    hide MergeSameKind, FirstSaid, TakesFirst;
    if |bs| > 1 {
      var rest, last := bs[..|bs| - 1], bs[|bs| - 1];
      assert bs == rest + [last];
      MergeKeepsFirst(rest, said);
      TakesFirstOf(said, MergeAll(rest), last);
      FirstSaidMore(rest, last, said, said(MergeAll(rest)));
    } else {
      FirstSaidOne(bs[0], said);
      assert bs == [bs[0]];
    }
  }

  lemma FirstSaidOne(b: BoxInfo, said: BoxInfo -> string)
    ensures FirstSaid([b], said, said(b))
  {
    assert [b][0] == b;
  }

  /** The service name, the second id, the serial number and the rival's address a fold lists are the first that
      a sighting that counts said. */
  lemma FoldedFirstSaid(bs: seq<BoxInfo>, h: string)
    requires h != "" && Counting(bs, h) != []
    ensures h in Folded(bs)
    ensures var at, b := Counting(bs, h), Folded(bs)[h];
            && FirstSaid(at, (x: BoxInfo) => x.id.name, b.id.name)
            && FirstSaid(at, (x: BoxInfo) => x.id.boxDeviceID, b.id.boxDeviceID)
            && FirstSaid(at, (x: BoxInfo) => x.id.serialNumber, b.id.serialNumber)
            && FirstSaid(at, (x: BoxInfo) => x.warn.rivalCloudURL, b.warn.rivalCloudURL)
  {
    hide Folded, MergeAll, Counting, FirstSaid, MergeSameKind;
    FoldedAt(bs, h);
    forall a, b {:trigger MergeSameKind(a, b)}
      ensures MergeSameKind(a, b).id.name == Preferred(a.id.name, b.id.name)
      ensures MergeSameKind(a, b).id.boxDeviceID == Preferred(a.id.boxDeviceID, b.id.boxDeviceID)
      ensures MergeSameKind(a, b).id.serialNumber == Preferred(a.id.serialNumber, b.id.serialNumber)
      ensures MergeSameKind(a, b).warn.rivalCloudURL == Preferred(a.warn.rivalCloudURL, b.warn.rivalCloudURL)
    {
      SameKindNames(a, b);
      SameKindWarnings(a, b);
    }
    var at := Counting(bs, h);
    MergeKeepsFirst(at, (x: BoxInfo) => x.id.name);
    MergeKeepsFirst(at, (x: BoxInfo) => x.id.boxDeviceID);
    MergeKeepsFirst(at, (x: BoxInfo) => x.id.serialNumber);
    MergeKeepsFirst(at, (x: BoxInfo) => x.warn.rivalCloudURL);
  }

  /** `v` is the name of one of the records, a real one if any has one, and of those the longest. */
  ghost predicate BestName(bs: seq<BoxInfo>, v: string) {
    && (exists b :: b in bs && b.id.friendlyName == v)
    && (forall b :: b in bs && !NoRealName(b.id.friendlyName) ==> !NoRealName(v) && |b.id.friendlyName| <= |v|)
  }

  predicate NoModel(m: string) {
    m in {"", "SoundTouch"}
  }

  /** `v` is the first specific model of the records, or the first record's where none has one. */
  ghost predicate FirstModel(bs: seq<BoxInfo>, v: string)
    requires bs != []
  {
    if NoModel(v) then v == bs[0].id.model && forall b :: b in bs ==> NoModel(b.id.model)
    else exists i :: 0 <= i < |bs| && bs[i].id.model == v && forall j :: 0 <= j < i ==> NoModel(bs[j].id.model)
  }

  lemma BestNameMore(bs: seq<BoxInfo>, b: BoxInfo, v: string)
    requires BestName(bs, v)
    ensures BestName(bs + [b], BetterName(v, b.id.friendlyName))
  {
    hide NoRealName;
    var more := bs + [b];
    assert b in more && forall x :: x in bs ==> x in more;
  }

  lemma FirstModelMore(bs: seq<BoxInfo>, b: BoxInfo, v: string)
    requires bs != [] && FirstModel(bs, v)
    ensures FirstModel(bs + [b], if NoModel(v) && !NoModel(b.id.model) then b.id.model else v)
  {
    var more := bs + [b];
    if !NoModel(v) {
      var i :| 0 <= i < |bs| && bs[i].id.model == v && forall j :: 0 <= j < i ==> NoModel(bs[j].id.model);
      assert more[i].id.model == v && forall j :: 0 <= j < i ==> more[j] == bs[j];
    } else if !NoModel(b.id.model) {
      assert more[|bs|].id.model == b.id.model && forall j :: 0 <= j < |bs| ==> more[j] == bs[j] && bs[j] in bs;
    }
  }

  lemma {:induction false} MergeKeepsNames(bs: seq<BoxInfo>)
    requires bs != []
    ensures BestName(bs, MergeAll(bs).id.friendlyName) && FirstModel(bs, MergeAll(bs).id.model)
  {
    hide MergeSameKind, BestName, FirstModel, BetterName;
    if |bs| > 1 {
      var rest, last := bs[..|bs| - 1], bs[|bs| - 1];
      assert bs == rest + [last];
      MergeKeepsNames(rest);
      SameKindNames(MergeAll(rest), last);
      BestNameMore(rest, last, MergeAll(rest).id.friendlyName);
      FirstModelMore(rest, last, MergeAll(rest).id.model);
    } else {
      NamesOfOne(bs);
    }
  }

  lemma NamesOfOne(bs: seq<BoxInfo>)
    requires |bs| == 1
    ensures BestName(bs, bs[0].id.friendlyName) && FirstModel(bs, bs[0].id.model)
  {
    hide NoRealName;
    assert bs[0] in bs;
  }

  /**
   What the list shows as a speaker's name: one that a sighting that counts
   carried, a real one as soon as any of them has one, and of the real ones the
   longest; and as its model the first specific one.
   */
  lemma FoldedNames(bs: seq<BoxInfo>, h: string)
    requires h != "" && Counting(bs, h) != []
    ensures h in Folded(bs)
    ensures BestName(Counting(bs, h), Folded(bs)[h].id.friendlyName)
    ensures FirstModel(Counting(bs, h), Folded(bs)[h].id.model)
  {
    hide Folded, MergeAll, Counting, BestName, FirstModel;
    FoldedAt(bs, h);
    MergeKeepsNames(Counting(bs, h));
  }
}
