/**
 Copying chosen preset keys to another speaker: the refuse-and-retry loop of
 `desktop-app/app_presets_keycopy.go` against a target that takes a whole
 request or nothing of it.
 */
module KeyCopy {
  import opened Options
  import opened Text

  const PRESET_ROW_SIZE: nat := 6

  /** A stored key; what plays on it is of no concern here beyond being the same. */
  datatype Preset = Preset(slot: int, name: string, content: string)

  /** The agent's refusal of a station that is already on another key. */
  datatype Conflict = Conflict(name: string, slot: int, payloadSlot: int)

  datatype Skip = Skip(slot: int, name: string, onSlot: int, reason: string)

  datatype CopyError = Transport | Refusal(reason: string)

  // ----- the target -----

  /** What one request comes to: an HTTP answer, or none. `applied` says whether a request whose
      answer was lost had been carried out. */
  datatype Answer =
    | Http(status: nat, conflict: Option<Conflict>, body: string)
    | NoAnswer(notReady: bool, applied: bool)

  /** What the app and the target exchange: a request, for the whole set or for one key, and the wait for a target
      that was away. */
  datatype Exchange = Asked(bulk: bool, sent: seq<Preset>, answer: Answer) | Waited(ready: bool)

  /** How the app reads an answer to the bulk request. */
  datatype BulkResult =
    | Accepted
    | NoEndpoint
    | Conflicts(conflict: Conflict)
    | Refuses(reason: string)
    | Unanswered(notReady: bool)

  function BulkResultOf(a: Answer): BulkResult {
    match a
    case NoAnswer(notReady, _) => Unanswered(notReady)
    case Http(status, conflict, body) =>
      if status == 404 || status == 405 then NoEndpoint
      else if status == 409 && conflict.Some? then Conflicts(conflict.value)
      else if status >= 400 then Refuses(body)
      else Accepted
  }

  /** The answer to one key's request: there is no missing endpoint, only a refusal. */
  function SlotResultOf(a: Answer): BulkResult {
    match a
    case NoAnswer(notReady, _) => Unanswered(notReady)
    case Http(status, conflict, body) =>
      if status == 409 && conflict.Some? then Conflicts(conflict.value)
      else if status >= 400 then Refuses(body)
      else Accepted
  }

  /** An agent without the endpoint says 404 or 405, one with a station twice 409 and which one; anything else from
      400 on is a refusal with its reason, and below that the set is taken. */
  lemma BulkResultIs(a: Answer)
    ensures BulkResultOf(a).Accepted? <==> a.Http? && a.status < 400
    ensures BulkResultOf(a).NoEndpoint? <==> a.Http? && a.status in {404, 405}
    ensures BulkResultOf(a).Conflicts? <==> a.Http? && a.status == 409 && a.conflict.Some?
    ensures BulkResultOf(a).Conflicts? ==> a.conflict == Some(BulkResultOf(a).conflict)
    ensures BulkResultOf(a).Refuses? ==> a.Http? && BulkResultOf(a).reason == a.body
    ensures BulkResultOf(a).Unanswered? <==> a.NoAnswer?
  {
  }

  lemma SlotResultIs(a: Answer)
    ensures SlotResultOf(a).Accepted? <==> a.Http? && a.status < 400
    ensures SlotResultOf(a).Conflicts? <==> a.Http? && a.status == 409 && a.conflict.Some?
    ensures SlotResultOf(a).Conflicts? ==> a.conflict == Some(SlotResultOf(a).conflict)
    ensures SlotResultOf(a).Refuses? ==> a.Http? && SlotResultOf(a).reason == a.body
    ensures SlotResultOf(a).Unanswered? <==> a.NoAnswer?
    ensures !SlotResultOf(a).NoEndpoint?
  {
  }

  predicate Away(a: Answer) {
    a.NoAnswer? && a.notReady
  }

  /** One request for `ps` that ends with answer `a`: sent once more exactly if the target was away and came back. */
  ghost predicate OneRequest(asked: seq<Exchange>, bulk: bool, ps: seq<Preset>, a: Answer) {
    || (asked == [Asked(bulk, ps, a)] && !Away(a))
    || (asked == [Asked(bulk, ps, a), Waited(false)] && Away(a))
    || (|asked| == 3 && asked[0].Asked? && Away(asked[0].answer)
        && asked == [Asked(bulk, ps, asked[0].answer), Waited(true), Asked(bulk, ps, a)])
  }

  /** The store with every key of `ps` written, in order. */
  function Written(store: map<int, Preset>, ps: seq<Preset>): map<int, Preset> {
    if ps == [] then store
    else Written(store, ps[..|ps| - 1])[ps[|ps| - 1].slot := ps[|ps| - 1]]
  }

  /** A speaker that carries a request out whole or not at all. */
  class Target {
    var store: map<int, Preset>
    /** Some request was carried out although its answer was lost. */
    ghost var lost: bool
    /** Everything that was asked of it. */
    ghost var log: seq<Exchange>

    constructor (store: map<int, Preset>)
      ensures this.store == store && !lost && log == []
    {
      this.store, lost, log := store, false, [];
    }

    method Put(ps: seq<Preset>, ghost bulk: bool) returns (a: Answer)
      modifies this
      ensures var takes := match a
                           case Http(status, _, _) => status < 400
                           case NoAnswer(_, applied) => applied;
              && store == (if takes then Written(old(store), ps) else old(store))
              && lost == (old(lost) || (a.NoAnswer? && a.applied))
      ensures log == old(log) + [Asked(bulk, ps, a)]
    {
      a := *;
      match a {
        case Http(status, _, _) =>
          if status < 400 {
            store := Written(store, ps);
          }
        case NoAnswer(_, applied) =>
          if applied {
            store := Written(store, ps);
            lost := true;
          }
      }
      log := log + [Asked(bulk, ps, a)];
    }

    /** Whether a target that was away came back. */
    method WaitReady() returns (ready: bool)
      modifies this`log
      ensures log == old(log) + [Waited(ready)]
    {
      ready := *;
      log := log + [Waited(ready)];
    }

    /** The whole set in one request, sent once more when the target was away and came back. */
    method PutBulk(ps: seq<Preset>) returns (r: BulkResult, ghost asked: seq<Exchange>, ghost a: Answer)
      modifies this
      ensures (store == old(store) && lost == old(lost) && !r.Accepted?)
              || (store == Written(old(store), ps) && (r.Accepted? || lost))
              || (store == Written(Written(old(store), ps), ps) && lost)
      ensures old(lost) ==> lost
      ensures log == old(log) + asked && OneRequest(asked, true, ps, a) && r == BulkResultOf(a)
    {
      var answer := Put(ps, true);
      r, asked, a := BulkResultOf(answer), [Asked(true, ps, answer)], answer;
      if r.Unanswered? && r.notReady {
        var ready := WaitReady();
        asked := asked + [Waited(ready)];
        if ready {
          answer := Put(ps, true);
          r, asked, a := BulkResultOf(answer), asked + [Asked(true, ps, answer)], answer;
        }
      }
    }

    method PutSlot(p: Preset) returns (r: BulkResult, ghost asked: seq<Exchange>, ghost a: Answer)
      modifies this
      ensures !r.NoEndpoint?
      ensures (store == old(store) && lost == old(lost) && !r.Accepted?)
              || (store == old(store)[p.slot := p] && (r.Accepted? || lost))
      ensures old(lost) ==> lost
      ensures log == old(log) + asked && OneRequest(asked, false, [p], a) && r == SlotResultOf(a)
    {
      assert Written(store, [p]) == store[p.slot := p];
      ghost var once := store[p.slot := p];
      assert Written(once, [p]) == once;
      var answer := Put([p], false);
      r, asked, a := SlotResultOf(answer), [Asked(false, [p], answer)], answer;
      if r.Unanswered? && r.notReady {
        var ready := WaitReady();
        asked := asked + [Waited(ready)];
        if ready {
          answer := Put([p], false);
          r, asked, a := SlotResultOf(answer), asked + [Asked(false, [p], answer)], answer;
        }
      }
    }
  }

  // ----- the chosen keys -----

  /** A named key of the first two rows whose slot was chosen. */
  predicate Eligible(p: Preset, slots: set<int>) {
    1 <= p.slot <= 2 * PRESET_ROW_SIZE && p.name != "" && p.slot in slots
  }

  function SlotsOf(ps: seq<Preset>): (slots: seq<int>)
    ensures |slots| == |ps| && forall i :: 0 <= i < |ps| ==> slots[i] == ps[i].slot
  {
    seq(|ps|, i requires 0 <= i < |ps| => ps[i].slot)
  }

  /** The eligible keys up to `maxSlot`, in their order. */
  function Kept(presets: seq<Preset>, slots: set<int>, maxSlot: int): seq<Preset> {
    if presets == [] then []
    else
      var n := |presets| - 1;
      Kept(presets[..n], slots, maxSlot) +
      if Eligible(presets[n], slots) && presets[n].slot <= maxSlot then [presets[n]] else []
  }

  function Dropped(presets: seq<Preset>, slots: set<int>, maxSlot: int): seq<int> {
    if presets == [] then []
    else
      var n := |presets| - 1;
      Dropped(presets[..n], slots, maxSlot) +
      if Eligible(presets[n], slots) && presets[n].slot > maxSlot then [presets[n].slot] else []
  }

  method ChosenKeys(presets: seq<Preset>, slots: set<int>, maxSlot: int) returns (chosen: seq<Preset>,
                    notKept: seq<int>)
    ensures chosen == Kept(presets, slots, maxSlot) && notKept == Dropped(presets, slots, maxSlot)
  {
    chosen, notKept := [], [];
    for i := 0 to |presets|
      invariant chosen == Kept(presets[..i], slots, maxSlot) && notKept == Dropped(presets[..i], slots, maxSlot)
    {
      var p := presets[i];
      assert presets[..i + 1][..i] == presets[..i];
      if p.slot < 1 || p.slot > 2 * PRESET_ROW_SIZE || p.name == "" || p.slot !in slots {
        continue;
      }
      if p.slot > maxSlot {
        notKept := notKept + [p.slot];
        continue;
      }
      chosen := chosen + [p];
    }
    assert presets[..|presets|] == presets;
  }

  /** Every chosen key either goes across or is reported as one the target cannot hold, and no other does. */
  lemma {:induction false} ChosenPartition(presets: seq<Preset>, slots: set<int>, maxSlot: int)
    ensures forall p :: p in Kept(presets, slots, maxSlot) <==>
                        p in presets && 1 <= p.slot <= 12 && p.name != "" && p.slot in slots && p.slot <= maxSlot
    ensures forall s :: s in Dropped(presets, slots, maxSlot) <==>
                        1 <= s <= 12 && s in slots && s > maxSlot
                        && exists p :: p in presets && p.slot == s && p.name != ""
    ensures |Kept(presets, slots, maxSlot)| <= |presets|
  {
    if presets != [] {
      var n := |presets| - 1;
      ChosenPartition(presets[..n], slots, maxSlot);
      assert presets == presets[..n] + [presets[n]];
    }
  }

  // ----- which key a refusal is about -----

  predicate NameMatches(p: Preset, c: Conflict) {
    EqualFold(TrimSpace(p.name), TrimSpace(c.name))
  }

  /** The two names are equal without the white space at their ends and but for case. */
  lemma NameMatchesIs(p: Preset, c: Conflict)
    ensures NameMatches(p, c) <==>
            exists a, b :: Trimmed(a, p.name) && Trimmed(b, c.name) && |a| == |b|
                           && forall i :: 0 <= i < |a| ==> SameLetter(a[i], b[i])
  {
    var a, b := TrimSpace(p.name), TrimSpace(c.name);
    EqualFoldIs(a, b);
    hide TrimSpace, EqualFold, SameLetter, Trimmed;
    forall x ensures Trimmed(x, p.name) <==> x == a { TrimSpaceIs(p.name, x); }
    forall x ensures Trimmed(x, c.name) <==> x == b { TrimSpaceIs(c.name, x); }
  }

  /** The refusal is about `pending[i]`: the agent names its slot, it is the only key, or the only one
      with the refused station's name. */
  ghost predicate IsAbout(pending: seq<Preset>, c: Conflict, i: nat)
    requires i < |pending|
  {
    if c.payloadSlot > 0 && exists j :: 0 <= j < |pending| && pending[j].slot == c.payloadSlot then
      pending[i].slot == c.payloadSlot && forall j :: 0 <= j < i ==> pending[j].slot != c.payloadSlot
    else
      |pending| == 1
        || (NameMatches(pending[i], c) && forall j :: 0 <= j < |pending| && NameMatches(pending[j], c) ==> j == i)
  }

  /** A refusal is about one key at most: the first one on the slot it names, the only key there is, or the one of
      its name where no other key has that name. */
  lemma AboutWhich(pending: seq<Preset>, c: Conflict, i: nat, j: nat)
    requires i < |pending| && j < |pending|
    ensures IsAbout(pending, c, i) && IsAbout(pending, c, j) ==> i == j
    ensures c.payloadSlot > 0 && pending[i].slot == c.payloadSlot ==>
              (IsAbout(pending, c, i) <==> forall k :: 0 <= k < i ==> pending[k].slot != c.payloadSlot)
    ensures |pending| == 1 ==> IsAbout(pending, c, 0)
    ensures c.payloadSlot <= 0 && |pending| > 1 ==>
              (IsAbout(pending, c, i) <==>
               NameMatches(pending[i], c) && forall k :: 0 <= k < |pending| && k != i ==> !NameMatches(pending[k], c))
  {
    hide NameMatches;
  }

  /** The refusal is about no key in particular. */
  ghost predicate AboutNone(pending: seq<Preset>, c: Conflict) {
    forall i :: 0 <= i < |pending| ==> !IsAbout(pending, c, i)
  }

  method ConflictIndex(pending: seq<Preset>, c: Conflict) returns (i: int)
    ensures -1 <= i < |pending|
    ensures i >= 0 ==> IsAbout(pending, c, i)
    ensures i < 0 ==> forall j :: 0 <= j < |pending| ==> !IsAbout(pending, c, j)
  {
    hide NameMatches;
    if c.payloadSlot > 0 {
      for j := 0 to |pending|
        invariant forall k :: 0 <= k < j ==> pending[k].slot != c.payloadSlot
      {
        if pending[j].slot == c.payloadSlot {
          return j;
        }
      }
    }
    if |pending| == 1 {
      return 0;
    }
    i := -1;
    for j := 0 to |pending|
      invariant -1 <= i < j
      invariant forall k :: 0 <= k < j ==> (NameMatches(pending[k], c) <==> k == i)
    {
      if NameMatches(pending[j], c) {
        if i >= 0 {
          assert NameMatches(pending[i], c) && NameMatches(pending[j], c);
          return -1;
        }
        i := j;
      }
    }
    if i >= 0 { assert NameMatches(pending[i], c); }
  }

  // ----- what a copy may do to the target -----

  /** Every key of the target holds what it held, or the copied preset of its own slot. */
  ghost predicate OnlyTouches(before: map<int, Preset>, after: map<int, Preset>, ps: seq<Preset>) {
    forall k :: Lookup(after, k) == Lookup(before, k) || HoldsOneOf(after, ps, k)
  }

  /** The key holds a preset of `ps` that belongs on it. */
  ghost predicate HoldsOneOf(store: map<int, Preset>, ps: seq<Preset>, k: int) {
    exists p :: p in ps && p.slot == k && Lookup(store, k) == Some(p)
  }

  /** Only the keys of `slots` changed. */
  ghost predicate KeptBut(before: map<int, Preset>, after: map<int, Preset>, slots: seq<int>) {
    forall k :: k !in slots ==> Lookup(after, k) == Lookup(before, k)
  }

  lemma {:induction false} WrittenAt(store: map<int, Preset>, ps: seq<Preset>, k: int)
    ensures k !in SlotsOf(ps) ==> Lookup(Written(store, ps), k) == Lookup(store, k)
    ensures k in SlotsOf(ps) ==> HoldsOneOf(Written(store, ps), ps, k)
  {
    if ps != [] {
      var n := |ps| - 1;
      WrittenAt(store, ps[..n], k);
      assert SlotsOf(ps) == SlotsOf(ps[..n]) + [ps[n].slot];
      if ps[n].slot == k {
        assert ps[n] in ps;
      } else if k in SlotsOf(ps) {
        var p :| p in ps[..n] && p.slot == k && Lookup(Written(store, ps[..n]), k) == Some(p);
        assert p in ps;
      }
    }
  }

  /** Writing keys of `set` keeps what was so before. */
  lemma WrittenTouches(before: map<int, Preset>, store: map<int, Preset>, ps: seq<Preset>, all: seq<Preset>)
    requires OnlyTouches(before, store, all) && forall p :: p in ps ==> p in all
    ensures OnlyTouches(before, Written(store, ps), all)
    ensures forall k :: k in SlotsOf(ps) || HoldsOneOf(store, all, k) ==> HoldsOneOf(Written(store, ps), all, k)
    ensures KeptBut(store, Written(store, ps), SlotsOf(ps))
  {
    forall k
      ensures Lookup(Written(store, ps), k) == Lookup(before, k) || HoldsOneOf(Written(store, ps), all, k)
      ensures k in SlotsOf(ps) || HoldsOneOf(store, all, k) ==> HoldsOneOf(Written(store, ps), all, k)
      ensures k !in SlotsOf(ps) ==> Lookup(Written(store, ps), k) == Lookup(store, k)
    {
      WrittenAt(store, ps, k);
      hide Written, SlotsOf;
    }
  }

  function SkipSlots(skipped: seq<Skip>): (slots: seq<int>)
    ensures |slots| == |skipped| && forall i :: 0 <= i < |skipped| ==> slots[i] == skipped[i].slot
  {
    seq(|skipped|, i requires 0 <= i < |skipped| => skipped[i].slot)
  }

  /** Each of `ps` is reported once, as copied or as skipped. */
  ghost predicate Accounted(ps: seq<Preset>, copied: seq<int>, skipped: seq<Skip>) {
    multiset(copied) + multiset(SkipSlots(skipped)) == multiset(SlotsOf(ps))
  }

  lemma AccountedCopied(ps: seq<Preset>, copied: seq<int>, skipped: seq<Skip>, p: Preset)
    requires Accounted(ps, copied, skipped)
    ensures Accounted(ps + [p], copied + [p.slot], skipped)
  {
    assert SlotsOf(ps + [p]) == SlotsOf(ps) + [p.slot];
  }

  lemma AccountedSkipped(ps: seq<Preset>, copied: seq<int>, skipped: seq<Skip>, p: Preset, s: Skip)
    requires Accounted(ps, copied, skipped) && s.slot == p.slot
    ensures Accounted(ps + [p], copied, skipped + [s])
  {
    assert SlotsOf(ps + [p]) == SlotsOf(ps) + [p.slot];
    assert SkipSlots(skipped + [s]) == SkipSlots(skipped) + [s.slot];
  }

  // ----- key by key -----

  /** The target's state after one key's write, as far as a copy of `all` from `before` is concerned. */
  lemma SlotWritten(before: map<int, Preset>, store: map<int, Preset>, p: Preset, all: seq<Preset>)
    requires OnlyTouches(before, store, all) && p in all
    ensures OnlyTouches(before, store[p.slot := p], all)
    ensures HoldsOneOf(store[p.slot := p], all, p.slot)
    ensures forall k :: HoldsOneOf(store, all, k) ==> HoldsOneOf(store[p.slot := p], all, k)
  {
    assert HoldsOneOf(store[p.slot := p], all, p.slot);
    forall k | k != p.slot ensures Lookup(store[p.slot := p], k) == Lookup(store, k) { }
    forall k | HoldsOneOf(store, all, k) && k != p.slot ensures HoldsOneOf(store[p.slot := p], all, k) {
      var q :| q in all && q.slot == k && Lookup(store, k) == Some(q);
    }
  }

  /** The keys that were taken. */
  function CopiedOf(ps: seq<Preset>, answers: seq<Answer>): seq<int>
    requires |answers| == |ps|
  {
    if ps == [] then []
    else
      var n := |ps| - 1;
      CopiedOf(ps[..n], answers[..n]) + if answers[n].Http? && answers[n].status < 400 then [ps[n].slot] else []
  }

  /** What is reported of a key its own answer refused: where the station is already, or the target's reason. */
  function SkipOf(p: Preset, a: Answer): Skip {
    if a.NoAnswer? then Skip(p.slot, p.name, 0, "transport")
    else if a.status == 409 && a.conflict.Some? then Skip(p.slot, p.name, a.conflict.value.slot, "")
    else Skip(p.slot, p.name, 0, a.body)
  }

  function SkippedOf(ps: seq<Preset>, answers: seq<Answer>): seq<Skip>
    requires |answers| == |ps|
  {
    if ps == [] then []
    else
      var n := |ps| - 1;
      SkippedOf(ps[..n], answers[..n])
        + if answers[n].Http? && answers[n].status < 400 then [] else [SkipOf(ps[n], answers[n])]
  }

  /** Each key was asked for on its own, and got the answer `answers` says. */
  ghost predicate AskedOneByOne(ps: seq<Preset>, requests: seq<seq<Exchange>>, answers: seq<Answer>) {
    && |requests| == |answers| == |ps|
    && forall i :: 0 <= i < |ps| ==> OneRequest(requests[i], false, [ps[i]], answers[i])
  }

  function Flat(requests: seq<seq<Exchange>>): seq<Exchange> {
    if requests == [] then [] else Flat(requests[..|requests| - 1]) + requests[|requests| - 1]
  }

  lemma FlatMore(requests: seq<seq<Exchange>>, r: seq<Exchange>)
    ensures Flat(requests + [r]) == Flat(requests) + r
  {
    assert (requests + [r])[..|requests|] == requests;
  }

  /** One key more. */
  lemma OneMoreAsked(ps: seq<Preset>, requests: seq<seq<Exchange>>, answers: seq<Answer>, p: Preset,
                     asked: seq<Exchange>, a: Answer)
    requires AskedOneByOne(ps, requests, answers) && OneRequest(asked, false, [p], a)
    ensures AskedOneByOne(ps + [p], requests + [asked], answers + [a])
    ensures CopiedOf(ps + [p], answers + [a])
            == CopiedOf(ps, answers) + if SlotResultOf(a).Accepted? then [p.slot] else []
    ensures SkippedOf(ps + [p], answers + [a])
            == SkippedOf(ps, answers) + if SlotResultOf(a).Accepted? then [] else [SkipOf(p, a)]
  {
    assert (ps + [p])[..|ps|] == ps && (answers + [a])[..|answers|] == answers;
    SlotResultIs(a);
    hide OneRequest, SlotResultOf;
  }

  /** Each key on its own: every one gets its own answer. */
  method PutKeysPerSlot(t: Target, ps: seq<Preset>, ghost before: map<int, Preset>, ghost all: seq<Preset>)
    returns (copied: seq<int>, skipped: seq<Skip>, ghost requests: seq<seq<Exchange>>, ghost answers: seq<Answer>)
    requires OnlyTouches(before, t.store, all) && forall p :: p in ps ==> p in all
    modifies t
    ensures Accounted(ps, copied, skipped)
    ensures OnlyTouches(before, t.store, all) && forall k :: k in copied ==> HoldsOneOf(t.store, all, k)
    ensures !t.lost ==> !old(t.lost) && KeptBut(old(t.store), t.store, copied)
    ensures t.log == old(t.log) + Flat(requests) && AskedOneByOne(ps, requests, answers)
    ensures copied == CopiedOf(ps, answers) && skipped == SkippedOf(ps, answers)
  {
    hide OnlyTouches, HoldsOneOf, Accounted, AskedOneByOne, CopiedOf, SkippedOf, Flat, OneRequest;
    copied, skipped, requests, answers := [], [], [], [];
    assert Accounted([], copied, skipped) by { NothingAccounted(); }
    NothingAsked();
    assert ps[..0] == [];
    for i := 0 to |ps|
      invariant Accounted(ps[..i], copied, skipped)
      invariant OnlyTouches(before, t.store, all) && forall k :: k in copied ==> HoldsOneOf(t.store, all, k)
      invariant !t.lost ==> !old(t.lost) && KeptBut(old(t.store), t.store, copied)
      invariant t.log == old(t.log) + Flat(requests) && AskedOneByOne(ps[..i], requests, answers)
      invariant |answers| == i && copied == CopiedOf(ps[..i], answers) && skipped == SkippedOf(ps[..i], answers)
    {
      var p := ps[i];
      assert ps[..i + 1] == ps[..i] + [p] && p in ps;
      ghost var was := t.store;
      ghost var slots := copied;
      SlotWritten(before, was, p, all);
      var r;
      ghost var asked, a;
      r, asked, a := t.PutSlot(p);
      OneMoreAsked(ps[..i], requests, answers, p, asked, a);
      FlatMore(requests, asked);
      requests, answers := requests + [asked], answers + [a];
      assert t.store == was || t.store == was[p.slot := p];
      assert forall k :: k in slots ==> HoldsOneOf(t.store, all, k);
      match r {
        case Accepted =>
          AccountedCopied(ps[..i], copied, skipped, p);
          copied := copied + [p.slot];
        case Conflicts(c) =>
          AccountedSkipped(ps[..i], copied, skipped, p, Skip(p.slot, p.name, c.slot, ""));
          skipped := skipped + [Skip(p.slot, p.name, c.slot, "")];
        case Refuses(reason) =>
          AccountedSkipped(ps[..i], copied, skipped, p, Skip(p.slot, p.name, 0, reason));
          skipped := skipped + [Skip(p.slot, p.name, 0, reason)];
        case Unanswered(_) =>
          AccountedSkipped(ps[..i], copied, skipped, p, Skip(p.slot, p.name, 0, "transport"));
          skipped := skipped + [Skip(p.slot, p.name, 0, "transport")];
      }
    }
    assert ps[..|ps|] == ps;
  }

  lemma NothingAsked()
    ensures Flat([]) == [] && AskedOneByOne([], [], []) && CopiedOf([], []) == [] && SkippedOf([], []) == []
  {
  }

  lemma NothingAccounted()
    ensures Accounted([], [], [])
  {
  }

  // ----- the refuse-and-retry loop -----

  /** One refused request: what was sent, what it was refused for, and the key that is about. */
  datatype RefusedSet = Refused(sent: seq<Preset>, conflict: Conflict, key: nat, asked: seq<Exchange>)

  type Round = r: RefusedSet | r.key < |r.sent| witness Refused([Preset(1, "", "")], Conflict("", 0, 0), 0, [])

  function But(ps: seq<Preset>, i: nat): seq<Preset>
    requires i < |ps|
  {
    ps[..i] + ps[i + 1..]
  }

  /** The set was sent as a whole and refused with a 409 for the station of that very key. */
  ghost predicate RefusedRound(r: Round) {
    && IsAbout(r.sent, r.conflict, r.key)
    && exists a :: OneRequest(r.asked, true, r.sent, a) && a.Http? && a.status == 409 && a.conflict == Some(r.conflict)
  }

  /** What is still to be sent after the rounds. */
  function Left(all: seq<Preset>, rounds: seq<Round>): seq<Preset> {
    if rounds == [] then all else But(rounds[|rounds| - 1].sent, rounds[|rounds| - 1].key)
  }

  /** The first request is the whole set; each further one is the one before without the key it was refused for. */
  ghost predicate RoundsOf(all: seq<Preset>, rounds: seq<Round>) {
    && (forall r :: r in rounds ==> RefusedRound(r))
    && forall n :: 0 <= n < |rounds| ==> rounds[n].sent == Left(all, rounds[..n])
  }

  function AskedIn(rounds: seq<Round>): seq<seq<Exchange>> {
    seq(|rounds|, n requires 0 <= n < |rounds| => rounds[n].asked)
  }

  /** The keys the rounds set aside, each with the key of the target its station is on already. */
  function SetAsideIn(rounds: seq<Round>): seq<Skip> {
    seq(|rounds|, n requires 0 <= n < |rounds| =>
          Skip(rounds[n].sent[rounds[n].key].slot, rounds[n].sent[rounds[n].key].name, rounds[n].conflict.slot, ""))
  }

  /** Everything a copy asks: the refused rounds, the last request for the set, and the keys one by one. */
  datatype Trace = Trace(rounds: seq<Round>, last: seq<Exchange>, answer: Option<Answer>,
                         requests: seq<seq<Exchange>>, answers: seq<Answer>)

  function LogOf(t: Trace): seq<Exchange> {
    Flat(AskedIn(t.rounds)) + t.last + Flat(t.requests)
  }

  /** Every pending key, refused with one reason. */
  function RefusedWith(ps: seq<Preset>, reason: string): seq<Skip> {
    seq(|ps|, j requires 0 <= j < |ps| => Skip(ps[j].slot, ps[j].name, 0, reason))
  }

  /** The answer is a missing endpoint, or a refusal that is about no key: then it goes key by key. */
  ghost predicate KeyByKey(pending: seq<Preset>, a: Answer) {
    a.Http? && (a.status in {404, 405} || (a.status == 409 && a.conflict.Some? && AboutNone(pending, a.conflict.value)))
  }

  /** What the last answer to the whole set means for the keys it was about. */
  ghost predicate Ends(pending: seq<Preset>, t: Trace, copied: seq<int>, skipped: seq<Skip>, err: Option<CopyError>) {
    match t.answer
    case None => pending == [] && t.last == [] && t.requests == [] && copied == [] && skipped == [] && err == None
    case Some(a) =>
      && pending != [] && OneRequest(t.last, true, pending, a)
      && if KeyByKey(pending, a) then
           && AskedOneByOne(pending, t.requests, t.answers)
           && copied == CopiedOf(pending, t.answers) && skipped == SkippedOf(pending, t.answers) && err == None
         else
           && t.requests == []
           && if a.NoAnswer? then copied == [] && skipped == [] && err == Some(Transport)
              else if a.status < 400 then copied == SlotsOf(pending) && skipped == [] && err == None
              else copied == [] && skipped == RefusedWith(pending, a.body) && err == Some(Refusal(a.body))
                   && !(a.status == 409 && a.conflict.Some?)
  }

  /** The whole exchange and what is reported of it. */
  ghost predicate Follows(all: seq<Preset>, t: Trace, copied: seq<int>, skipped: seq<Skip>, err: Option<CopyError>) {
    && RoundsOf(all, t.rounds)
    && SetAsideIn(t.rounds) <= skipped
    && Ends(Left(all, t.rounds), t, copied, skipped[|t.rounds|..], err)
  }

  /** After these rounds: what is pending and what was skipped account for every key. */
  ghost predicate Underway(all: seq<Preset>, rounds: seq<Round>, pending: seq<Preset>, skipped: seq<Skip>) {
    && RoundsOf(all, rounds) && pending == Left(all, rounds) && skipped == SetAsideIn(rounds)
    && Accounted(all, SlotsOf(pending), skipped) && forall p :: p in pending ==> p in all
  }

  /** The slice without its element `i`, in memory of its own. */
  method Without(pending: array<Preset>, i: nat) returns (rest: array<Preset>)
    requires i < pending.Length
    ensures fresh(rest) && rest[..] == pending[..i] + pending[i + 1..]
  {
    rest := new Preset[pending.Length - 1](j requires 0 <= j < pending.Length - 1 reads pending =>
                                             if j < i then pending[j] else pending[j + 1]);
    assert rest[..] == pending[..i] + pending[i + 1..];
  }

  lemma SetAside(pending: seq<Preset>, all: seq<Preset>, skipped: seq<Skip>, i: nat, s: Skip)
    requires i < |pending| && s.slot == pending[i].slot
    requires Accounted(all, SlotsOf(pending), skipped)
    ensures Accounted(all, SlotsOf(pending[..i] + pending[i + 1..]), skipped + [s])
  {
    var rest := pending[..i] + pending[i + 1..];
    assert SlotsOf(pending) == SlotsOf(pending[..i]) + [pending[i].slot] + SlotsOf(pending[i + 1..]);
    assert SlotsOf(rest) == SlotsOf(pending[..i]) + SlotsOf(pending[i + 1..]);
    assert SkipSlots(skipped + [s]) == SkipSlots(skipped) + [s.slot];
  }

  /** The pending keys sorted into copied and skipped complete the account. */
  lemma AccountClosed(all: seq<Preset>, pending: seq<Preset>, before: seq<Skip>, copied: seq<int>, skipped: seq<Skip>)
    requires Accounted(all, SlotsOf(pending), before) && Accounted(pending, copied, skipped)
    ensures Accounted(all, copied, before + skipped)
  {
    assert SkipSlots(before + skipped) == SkipSlots(before) + SkipSlots(skipped);
  }

  /** Every pending key reported as copied. */
  method CopiedAll(pending: array<Preset>) returns (slots: seq<int>)
    ensures slots == SlotsOf(pending[..])
  {
    slots := [];
    for j := 0 to pending.Length
      invariant slots == SlotsOf(pending[..j])
    {
      assert pending[..j + 1] == pending[..j] + [pending[j]];
      slots := slots + [pending[j].slot];
    }
    assert pending[..pending.Length] == pending[..];
  }

  /** Every pending key reported as refused with one reason. */
  method RefusedAll(pending: array<Preset>, reason: string) returns (skipped: seq<Skip>)
    ensures Accounted(pending[..], [], skipped) && skipped == RefusedWith(pending[..], reason)
  {
    skipped := [];
    for j := 0 to pending.Length
      invariant Accounted(pending[..j], [], skipped) && skipped == RefusedWith(pending[..j], reason)
    {
      assert pending[..j + 1] == pending[..j] + [pending[j]];
      AccountedSkipped(pending[..j], [], skipped, pending[j], Skip(pending[j].slot, pending[j].name, 0, reason));
      skipped := skipped + [Skip(pending[j].slot, pending[j].name, 0, reason)];
    }
    assert pending[..pending.Length] == pending[..];
  }

  /** A refused request is one round more. */
  lemma OneMoreRound(all: seq<Preset>, rounds: seq<Round>, r: Round)
    requires RoundsOf(all, rounds) && RefusedRound(r) && r.sent == Left(all, rounds)
    ensures RoundsOf(all, rounds + [r]) && Left(all, rounds + [r]) == But(r.sent, r.key)
    ensures SetAsideIn(rounds + [r])
            == SetAsideIn(rounds) + [Skip(r.sent[r.key].slot, r.sent[r.key].name, r.conflict.slot, "")]
    ensures Flat(AskedIn(rounds + [r])) == Flat(AskedIn(rounds)) + r.asked
  {
    hide RoundsOf, RefusedRound, Left, Flat, But, AskedIn, SetAsideIn;
    RoundsMore(all, rounds, r);
    SetAsideMore(rounds, r);
    AskedMore(rounds, r);
    FlatMore(AskedIn(rounds), r.asked);
  }

  lemma SetAsideMore(rounds: seq<Round>, r: Round)
    ensures SetAsideIn(rounds + [r])
            == SetAsideIn(rounds) + [Skip(r.sent[r.key].slot, r.sent[r.key].name, r.conflict.slot, "")]
  {
  }

  lemma AskedMore(rounds: seq<Round>, r: Round)
    ensures AskedIn(rounds + [r]) == AskedIn(rounds) + [r.asked]
  {
  }

  lemma RoundsMore(all: seq<Preset>, rounds: seq<Round>, r: Round)
    requires RoundsOf(all, rounds) && RefusedRound(r) && r.sent == Left(all, rounds)
    ensures RoundsOf(all, rounds + [r]) && Left(all, rounds + [r]) == But(r.sent, r.key)
  {
    hide RefusedRound, But;
    var more := rounds + [r];
    forall n | 0 <= n < |more| ensures more[n].sent == Left(all, more[..n]) {
      hide Left;
      if n < |rounds| { assert more[..n] == rounds[..n] && more[n] == rounds[n]; } else { assert more[..n] == rounds; }
    }
  }

  lemma NoRounds(all: seq<Preset>)
    ensures Underway(all, [], all, []) && Flat(AskedIn([])) == []
  {
  }

  /** How the last answer to the whole set is read. */
  lemma ReadsAnswer(pending: seq<Preset>, a: Answer)
    ensures match BulkResultOf(a)
            case Accepted => !KeyByKey(pending, a) && a.Http? && a.status < 400
            case NoEndpoint => KeyByKey(pending, a)
            case Conflicts(c) => a.Http? && a.status == 409 && a.conflict == Some(c)
                                 && (KeyByKey(pending, a) <==> AboutNone(pending, c))
            case Refuses(reason) => !KeyByKey(pending, a) && a.Http? && a.status >= 400 && a.body == reason
                                    && !(a.status == 409 && a.conflict.Some?)
            case Unanswered(_) => !KeyByKey(pending, a) && a.NoAnswer?
  {
    hide IsAbout;
  }

  /** The exchange ends with an answer about the whole set. */
  lemma EndsWhole(all: seq<Preset>, t: Trace, a: Answer, copied: seq<int>, s: seq<Skip>, err: Option<CopyError>)
    requires RoundsOf(all, t.rounds) && Left(all, t.rounds) != [] && t.answer == Some(a) && t.requests == []
    requires OneRequest(t.last, true, Left(all, t.rounds), a)
    requires match BulkResultOf(a)
             case Unanswered(_) => copied == [] && s == [] && err == Some(Transport)
             case Accepted => copied == SlotsOf(Left(all, t.rounds)) && s == [] && err == None
             case Refuses(reason) =>
               copied == [] && s == RefusedWith(Left(all, t.rounds), reason) && err == Some(Refusal(reason))
             case _ => false
    ensures Follows(all, t, copied, SetAsideIn(t.rounds) + s, err)
    ensures s == [] ==> Follows(all, t, copied, SetAsideIn(t.rounds), err)
    ensures LogOf(t) == Flat(AskedIn(t.rounds)) + t.last
  {
    ReadsAnswer(Left(all, t.rounds), a);
    assert (SetAsideIn(t.rounds) + s)[|t.rounds|..] == s;
    assert s == [] ==> SetAsideIn(t.rounds) + s == SetAsideIn(t.rounds);
    hide RoundsOf, KeyByKey, OneRequest, BulkResultOf, SlotsOf, RefusedWith, Left, AskedIn, SetAsideIn, IsAbout;
  }

  /** It goes on key by key. */
  lemma EndsKeyByKey(all: seq<Preset>, t: Trace, a: Answer, copied: seq<int>, s: seq<Skip>)
    requires RoundsOf(all, t.rounds) && Left(all, t.rounds) != [] && t.answer == Some(a)
    requires OneRequest(t.last, true, Left(all, t.rounds), a)
             && AskedOneByOne(Left(all, t.rounds), t.requests, t.answers)
    requires var r := BulkResultOf(a);
             r.NoEndpoint? || (r.Conflicts? && AboutNone(Left(all, t.rounds), r.conflict))
    requires copied == CopiedOf(Left(all, t.rounds), t.answers) && s == SkippedOf(Left(all, t.rounds), t.answers)
    ensures Follows(all, t, copied, SetAsideIn(t.rounds) + s, None)
  {
    ReadsAnswer(Left(all, t.rounds), a);
    assert (SetAsideIn(t.rounds) + s)[|t.rounds|..] == s;
    hide RoundsOf, KeyByKey, OneRequest, BulkResultOf, Left, CopiedOf, SkippedOf, IsAbout;
  }

  /** Nothing is left to send. */
  lemma EndsEmpty(all: seq<Preset>, rounds: seq<Round>, skipped: seq<Skip>)
    requires Underway(all, rounds, [], skipped)
    ensures Follows(all, Trace(rounds, [], None, [], []), [], skipped, None) && Accounted(all, [], skipped)
    ensures LogOf(Trace(rounds, [], None, [], [])) == Flat(AskedIn(rounds))
  {
    hide RoundsOf, Left;
  }

  /**
   The chosen keys written onto the target: the whole set at once, a key that
   collides set aside and the rest sent again, as the trace of everything that
   was asked shows. Every key is reported once, as copied or as skipped, unless
   the target stopped answering, and then nothing is; a copied key holds its
   preset, and what is not copied is not touched unless an answer was lost.
   */
  method PutChosenKeys(t: Target, chosen: array<Preset>) returns (copied: seq<int>, skipped: seq<Skip>,
                       err: Option<CopyError>, ghost trace: Trace)
    modifies t
    ensures chosen[..] == old(chosen[..])
    ensures err == Some(Transport) || Accounted(chosen[..], copied, skipped)
    ensures err.Some? ==> copied == []
    ensures forall k :: k in copied ==> HoldsOneOf(t.store, chosen[..], k)
    ensures OnlyTouches(old(t.store), t.store, chosen[..])
    ensures !t.lost ==> KeptBut(old(t.store), t.store, copied)
    ensures t.log == old(t.log) + LogOf(trace) && Follows(chosen[..], trace, copied, skipped, err)
  {
    hide OnlyTouches, HoldsOneOf, Accounted, KeptBut, Written, SlotsOf, RoundsOf, OneRequest, BulkResultOf, IsAbout,
         Follows, Flat, AskedIn, SetAsideIn, AskedOneByOne, CopiedOf, SkippedOf, RefusedWith, Left, LogOf,
         RefusedRound, SkipSlots, Underway;
    ghost var all, before := chosen[..], t.store;
    copied, skipped, err := [], [], None;
    var pending := new Preset[chosen.Length](j requires 0 <= j < chosen.Length reads chosen => chosen[j]);
    assert pending[..] == all;
    NothingTouched(before, all);
    ghost var rounds: seq<Round> := [];
    NoRounds(all);
    while pending.Length > 0
      invariant fresh(pending) && chosen[..] == all && copied == [] && err == None
      invariant Underway(all, rounds, pending[..], skipped)
      invariant OnlyTouches(before, t.store, all) && (!t.lost ==> t.store == before)
      invariant t.log == old(t.log) + Flat(AskedIn(rounds))
      decreases pending.Length
    {
      ghost var todo, was := pending[..], t.store;
      var r;
      ghost var asked, a;
      r, asked, a := t.PutBulk(pending[..]);
      BulkTouches(before, was, t.store, todo, all, rounds, skipped);
      trace := Trace(rounds, asked, Some(a), [], []);
      match r {
        case NoEndpoint =>
          copied, skipped, trace := GoKeyByKey(t, pending, before, all, trace, a, skipped);
          return copied, skipped, None, trace;
        case Conflicts(conflict) =>
          var i := ConflictIndex(pending[..], conflict);
          if i < 0 {
            copied, skipped, trace := GoKeyByKey(t, pending, before, all, trace, a, skipped);
            return copied, skipped, None, trace;
          }
          var p := pending[i];
          GoesOn(all, rounds, Refused(todo, conflict, i, asked), a, skipped);
          rounds := rounds + [Refused(todo, conflict, i, asked)];
          skipped := skipped + [Skip(p.slot, p.name, conflict.slot, "")];
          pending := Without(pending, i);
        case _ =>
          KeptAll(before, t.store);
          copied, skipped, err := Settle(pending, r, all, trace, a, skipped);
          return copied, skipped, err, trace;
      }
    }
    KeptAll(before, t.store);
    assert pending[..] == [];
    EndsEmpty(all, rounds, skipped);
    trace := Trace(rounds, [], None, [], []);
  }

  /** What one request for the whole set, carried out once, twice or not at all, leaves. */
  lemma BulkTouches(before: map<int, Preset>, was: map<int, Preset>, after: map<int, Preset>, ps: seq<Preset>,
                    all: seq<Preset>, rounds: seq<Round>, skipped: seq<Skip>)
    requires OnlyTouches(before, was, all) && Underway(all, rounds, ps, skipped)
    requires after in {was, Written(was, ps), Written(Written(was, ps), ps)}
    ensures OnlyTouches(before, after, all)
    ensures after == Written(was, ps) ==> KeptBut(was, after, SlotsOf(ps))
    ensures after in {Written(was, ps), Written(Written(was, ps), ps)} ==>
              forall k :: k in SlotsOf(ps) ==> HoldsOneOf(after, all, k)
  {
    WrittenTouches(before, was, ps, all);
    WrittenTouches(before, Written(was, ps), ps, all);
    hide OnlyTouches, HoldsOneOf, KeptBut, Written;
  }

  lemma RefusedSo(r: Round, a: Answer)
    requires OneRequest(r.asked, true, r.sent, a) && BulkResultOf(a) == Conflicts(r.conflict)
             && IsAbout(r.sent, r.conflict, r.key)
    ensures RefusedRound(r)
  {
    BulkResultIs(a);
    hide OneRequest, IsAbout;
  }

  /** One key is set aside and the rest goes out again. */
  lemma GoesOn(all: seq<Preset>, rounds: seq<Round>, r: Round, a: Answer, skipped: seq<Skip>)
    requires Underway(all, rounds, r.sent, skipped)
    requires OneRequest(r.asked, true, r.sent, a) && BulkResultOf(a) == Conflicts(r.conflict)
             && IsAbout(r.sent, r.conflict, r.key)
    ensures Underway(all, rounds + [r], r.sent[..r.key] + r.sent[r.key + 1..],
                     skipped + [Skip(r.sent[r.key].slot, r.sent[r.key].name, r.conflict.slot, "")])
    ensures Flat(AskedIn(rounds + [r])) == Flat(AskedIn(rounds)) + r.asked
  {
    hide RoundsOf, RefusedRound, Left, Flat, AskedIn, SetAsideIn, OneRequest, BulkResultOf, IsAbout, Accounted, SlotsOf;
    SetAside(r.sent, all, skipped, r.key, Skip(r.sent[r.key].slot, r.sent[r.key].name, r.conflict.slot, ""));
    RefusedSo(r, a);
    OneMoreRound(all, rounds, r);
  }

  /** What is reported when the whole set was taken, refused for good, or not answered. */
  method Settle(pending: array<Preset>, r: BulkResult, ghost all: seq<Preset>, ghost trace: Trace, ghost a: Answer,
                skipped0: seq<Skip>)
    returns (copied: seq<int>, skipped: seq<Skip>, err: Option<CopyError>)
    requires r == BulkResultOf(a) && (r.Unanswered? || r.Accepted? || r.Refuses?)
    requires Underway(all, trace.rounds, pending[..], skipped0) && pending.Length > 0
    requires trace.answer == Some(a) && trace.requests == [] && OneRequest(trace.last, true, pending[..], a)
    ensures Follows(all, trace, copied, skipped, err) && LogOf(trace) == Flat(AskedIn(trace.rounds)) + trace.last
    ensures err == Some(Transport) || Accounted(all, copied, skipped)
    ensures copied == if r.Accepted? then SlotsOf(pending[..]) else []
    ensures err.Some? ==> copied == []
  {
    hide Accounted, SlotsOf, RoundsOf, OneRequest, BulkResultOf, Follows, Flat, AskedIn, SetAsideIn, RefusedWith, Left,
         LogOf;
    match r {
      case Unanswered(_) =>
        copied, skipped, err := [], skipped0, Some(Transport);
        EndsWhole(all, trace, a, [], [], err);
      case Accepted =>
        copied := CopiedAll(pending);
        skipped, err := skipped0, None;
        EndsWhole(all, trace, a, copied, [], None);
      case Refuses(reason) =>
        var s := RefusedAll(pending, reason);
        AccountClosed(all, pending[..], skipped0, [], s);
        copied, skipped, err := [], skipped0 + s, Some(Refusal(reason));
        EndsWhole(all, trace, a, [], s, err);
    }
  }

  /** The pending keys one by one, after an answer that leaves nothing else. */
  method GoKeyByKey(t: Target, pending: array<Preset>, ghost before: map<int, Preset>, ghost all: seq<Preset>,
                    ghost trace0: Trace, ghost a: Answer, skipped0: seq<Skip>)
    returns (copied: seq<int>, skipped: seq<Skip>, ghost trace: Trace)
    requires OnlyTouches(before, t.store, all) && (!t.lost ==> t.store == before)
    requires Underway(all, trace0.rounds, pending[..], skipped0) && pending.Length > 0
    requires trace0.answer == Some(a) && trace0.requests == []
    requires OneRequest(trace0.last, true, pending[..], a)
    requires var r := BulkResultOf(a);
             r.NoEndpoint?
               || (r.Conflicts? && AboutNone(pending[..], r.conflict))
    modifies t
    ensures Accounted(all, copied, skipped) && OnlyTouches(before, t.store, all)
    ensures forall k :: k in copied ==> HoldsOneOf(t.store, all, k)
    ensures !t.lost ==> KeptBut(before, t.store, copied)
    ensures Follows(all, trace, copied, skipped, None)
    ensures t.log == old(t.log) + Flat(trace.requests)
    ensures LogOf(trace) == Flat(AskedIn(trace0.rounds)) + trace0.last + Flat(trace.requests)
  {
    hide OnlyTouches, HoldsOneOf, Accounted, KeptBut, SlotsOf, RoundsOf, OneRequest, BulkResultOf, IsAbout,
         Follows, Flat, AskedIn, SetAsideIn, AskedOneByOne, CopiedOf, SkippedOf, Left;
    var s;
    ghost var requests, answers;
    copied, s, requests, answers := PutKeysPerSlot(t, pending[..], before, all);
    AccountClosed(all, pending[..], skipped0, copied, s);
    trace := trace0.(requests := requests, answers := answers);
    EndsKeyByKey(all, trace, a, copied, s);
    skipped := skipped0 + s;
  }

  lemma NothingTouched(store: map<int, Preset>, all: seq<Preset>)
    ensures OnlyTouches(store, store, all)
  {
  }

  lemma KeptAll(before: map<int, Preset>, after: map<int, Preset>)
    ensures before == after ==> KeptBut(before, after, [])
  {
  }

  // ----- why a key is skipped -----

  /** A refusal of the set for the station of that very key, in one of the rounds. */
  ghost predicate SkippedInRound(t: Trace, sk: Skip) {
    exists r :: r in t.rounds && RefusedRound(r) && r.sent[r.key].slot == sk.slot && r.sent[r.key].name == sk.name
                && sk.onSlot == r.conflict.slot && sk.reason == ""
  }

  /** Its own answer, where it was asked for on its own. */
  ghost predicate SkippedAlone(pending: seq<Preset>, t: Trace, sk: Skip) {
    exists i :: 0 <= i < |pending| && i < |t.answers| && sk == SkipOf(pending[i], t.answers[i])
                && !(t.answers[i].Http? && t.answers[i].status < 400)
  }

  /** A refusal of the set that is about no key in particular. */
  ghost predicate SkippedWithAll(pending: seq<Preset>, t: Trace, sk: Skip) {
    && t.answer.Some? && t.answer.value.Http? && t.answer.value.status >= 400
    && exists p :: p in pending && sk == Skip(p.slot, p.name, 0, t.answer.value.body)
  }

  lemma {:induction false} SkippedOfIs(ps: seq<Preset>, answers: seq<Answer>, sk: Skip)
    requires |answers| == |ps| && sk in SkippedOf(ps, answers)
    ensures exists i :: 0 <= i < |ps| && sk == SkipOf(ps[i], answers[i])
                        && !(answers[i].Http? && answers[i].status < 400)
  {
    var n := |ps| - 1;
    if sk in SkippedOf(ps[..n], answers[..n]) {
      SkippedOfIs(ps[..n], answers[..n], sk);
      var i :| 0 <= i < n && sk == SkipOf(ps[..n][i], answers[..n][i])
               && !(answers[..n][i].Http? && answers[..n][i].status < 400);
      assert ps[i] == ps[..n][i] && answers[i] == answers[..n][i];
    } else {
      assert sk == SkipOf(ps[n], answers[n]);
    }
  }

  lemma SkippedAtEnd(pending: seq<Preset>, t: Trace, copied: seq<int>, s: seq<Skip>, err: Option<CopyError>, sk: Skip)
    requires Ends(pending, t, copied, s, err) && sk in s
    ensures SkippedAlone(pending, t, sk) || SkippedWithAll(pending, t, sk)
  {
    hide OneRequest, AskedOneByOne, CopiedOf, SkippedOf, SlotsOf, KeyByKey;
    if KeyByKey(pending, t.answer.value) {
      AnswersMatch(pending, t);
      SkippedOfIs(pending, t.answers, sk);
    } else {
      var i :| 0 <= i < |s| && s[i] == sk;
      assert sk == Skip(pending[i].slot, pending[i].name, 0, t.answer.value.body);
    }
  }

  lemma SetAsideWasRefused(all: seq<Preset>, t: Trace, i: nat)
    requires RoundsOf(all, t.rounds) && i < |t.rounds|
    ensures SkippedInRound(t, SetAsideIn(t.rounds)[i])
  {
    hide RefusedRound;
    assert t.rounds[i] in t.rounds && RefusedRound(t.rounds[i]);
  }

  /** No key is skipped without having been asked for and refused. */
  lemma SkippedWasRefused(all: seq<Preset>, t: Trace, copied: seq<int>, skipped: seq<Skip>, err: Option<CopyError>,
                          sk: Skip)
    requires Follows(all, t, copied, skipped, err) && sk in skipped
    ensures || SkippedInRound(t, sk) || SkippedAlone(Left(all, t.rounds), t, sk)
            || SkippedWithAll(Left(all, t.rounds), t, sk)
  {
    hide Ends, SkippedInRound, SkippedAlone, SkippedWithAll, RoundsOf, Left;
    var i :| 0 <= i < |skipped| && skipped[i] == sk;
    if i < |t.rounds| {
      SetAsideWasRefused(all, t, i);
      assert skipped[..|t.rounds|] == SetAsideIn(t.rounds) && skipped[..|t.rounds|][i] == sk;
    } else {
      assert skipped[|t.rounds|..][i - |t.rounds|] == sk;
      SkippedAtEnd(Left(all, t.rounds), t, copied, skipped[|t.rounds|..], err, sk);
    }
  }

  lemma AnswersMatch(ps: seq<Preset>, t: Trace)
    requires AskedOneByOne(ps, t.requests, t.answers)
    ensures |t.answers| == |ps|
  {
  }

  lemma {:induction false} CopiedOfIs(ps: seq<Preset>, answers: seq<Answer>, k: int)
    requires |answers| == |ps| && k in CopiedOf(ps, answers)
    ensures exists i :: 0 <= i < |ps| && ps[i].slot == k && answers[i].Http? && answers[i].status < 400
  {
    var n := |ps| - 1;
    if k in CopiedOf(ps[..n], answers[..n]) {
      CopiedOfIs(ps[..n], answers[..n], k);
      var i :| 0 <= i < n && ps[..n][i].slot == k && answers[..n][i].Http? && answers[..n][i].status < 400;
      assert ps[i] == ps[..n][i] && answers[i] == answers[..n][i];
    }
  }

  /** No key is reported as copied unless the last set that was sent was taken with it in, or its own request. */
  lemma CopiedWasTaken(all: seq<Preset>, t: Trace, copied: seq<int>, skipped: seq<Skip>, err: Option<CopyError>, k: int)
    requires Follows(all, t, copied, skipped, err) && k in copied
    ensures t.answer.Some? && err == None
    ensures var pending, a := Left(all, t.rounds), t.answer.value;
            if t.requests == [] then a.Http? && a.status < 400 && copied == SlotsOf(pending)
            else exists i :: 0 <= i < |pending| && i < |t.answers| && pending[i].slot == k
                             && t.answers[i].Http? && t.answers[i].status < 400
  {
    hide OneRequest, IsAbout, SkippedOf, SlotsOf, RoundsOf;
    var pending := Left(all, t.rounds);
    if KeyByKey(pending, t.answer.value) {
      AnswersMatch(pending, t);
      CopiedOfIs(pending, t.answers, k);
    }
  }

  /** The target refuses every set with key `s` in it for that key, and takes every other one. */
  ghost predicate RefusesOnly(log: seq<Exchange>, s: int, c: Conflict) {
    && c.payloadSlot == s > 0
    && forall e :: e in log && e.Asked? && e.bulk ==>
         && e.answer.Http?
         && if s in SlotsOf(e.sent) then e.answer.status == 409
            && e.answer.conflict == Some(c) else e.answer.status < 400
  }

  lemma {:induction false} InFlat(requests: seq<seq<Exchange>>, i: nat, e: Exchange)
    requires i < |requests| && e in requests[i]
    ensures e in Flat(requests)
  {
    if i < |requests| - 1 { InFlat(requests[..|requests| - 1], i, e); }
  }

  lemma RoundAnswer(t: Trace, n: nat, s: int, c: Conflict)
    requires n < |t.rounds| && RefusedRound(t.rounds[n]) && RefusesOnly(LogOf(t), s, c)
    ensures s in SlotsOf(t.rounds[n].sent) && t.rounds[n].conflict == c
  {
    hide IsAbout, SlotsOf, Flat;
    var r := t.rounds[n];
    var a :| OneRequest(r.asked, true, r.sent, a) && a.Http? && a.status == 409 && a.conflict == Some(r.conflict);
    var e := Asked(true, r.sent, a);
    assert e in r.asked && AskedIn(t.rounds)[n] == r.asked;
    InFlat(AskedIn(t.rounds), n, e);
    assert e in LogOf(t);
  }

  lemma LastAnswer(pending: seq<Preset>, t: Trace, a: Answer, s: int, c: Conflict)
    requires t.answer == Some(a) && OneRequest(t.last, true, pending, a) && RefusesOnly(LogOf(t), s, c)
    ensures a.Http? && if s in SlotsOf(pending) then a.status == 409 && a.conflict == Some(c) else a.status < 400
  {
    hide IsAbout, SlotsOf, Flat;
    var e := Asked(true, pending, a);
    assert e in t.last;
    assert e in LogOf(t);
  }

  lemma RefusesFor(t: Trace, s: int, c: Conflict)
    requires RefusesOnly(LogOf(t), s, c)
    ensures c.payloadSlot == s > 0
  {
  }

  lemma SlotAbout(all: seq<Preset>, c: Conflict, b: nat, i: nat)
    requires b < |all| && i < |all| && c.payloadSlot == all[b].slot > 0
    requires forall j, k :: 0 <= j < k < |all| ==> all[j].slot != all[k].slot
    ensures IsAbout(all, c, i) <==> i == b
  {
  }

  lemma SlotGone(all: seq<Preset>, b: nat)
    requires b < |all| && forall j, k :: 0 <= j < k < |all| ==> all[j].slot != all[k].slot
    ensures all[b].slot !in SlotsOf(But(all, b)) && all[b].slot in SlotsOf(all)
  {
    assert SlotsOf(all)[b] == all[b].slot;
    forall i | 0 <= i < |But(all, b)| ensures But(all, b)[i].slot != all[b].slot {
      assert But(all, b)[i] == if i < b then all[i] else all[i + 1];
    }
  }

  /** Such a target refuses the whole set, for that key, and nothing after. */
  lemma OneRound(all: seq<Preset>, t: Trace, b: nat, c: Conflict)
    requires RoundsOf(all, t.rounds) && t.rounds != [] && b < |all| && RefusesOnly(LogOf(t), all[b].slot, c)
    requires forall j, k :: 0 <= j < k < |all| ==> all[j].slot != all[k].slot
    ensures |t.rounds| == 1 && t.rounds[0].sent == all && t.rounds[0].key == b && t.rounds[0].conflict == c
  {
    hide OneRequest, IsAbout, LogOf, SlotsOf, RefusesOnly;
    var s := all[b].slot;
    RefusesFor(t, s, c);
    SlotGone(all, b);
    assert t.rounds[..0] == [] && t.rounds[0] in t.rounds;
    RoundAnswer(t, 0, s, c);
    SlotAbout(all, c, b, t.rounds[0].key);
    if |t.rounds| > 1 {
      assert t.rounds[1] in t.rounds && t.rounds[..1] == [t.rounds[0]];
      RoundAnswer(t, 1, s, c);
      assert false;
    }
  }

  /**
   A target on which one of the chosen stations is on another key already, and
   which says so: exactly that key is left out, and every other one is copied.
   */
  lemma OneKeyLeftOut(all: seq<Preset>, t: Trace, copied: seq<int>, skipped: seq<Skip>, err: Option<CopyError>, b: nat,
                      c: Conflict)
    requires Follows(all, t, copied, skipped, err) && b < |all| && RefusesOnly(LogOf(t), all[b].slot, c)
    requires forall j, k :: 0 <= j < k < |all| ==> all[j].slot != all[k].slot
    ensures copied == SlotsOf(But(all, b)) && skipped == [Skip(all[b].slot, all[b].name, c.slot, "")] && err == None
  {
    hide OneRequest, IsAbout, AskedOneByOne, CopiedOf, SkippedOf, LogOf, SlotsOf, RefusesOnly, RoundsOf, But;
    RefusesFor(t, all[b].slot, c);
    SlotGone(all, b);
    if t.rounds == [] {
      SlotAbout(all, c, b, b);
      LastAnswer(all, t, t.answer.value, all[b].slot, c);
      assert false;
    }
    OneRound(all, t, b, c);
    if t.answer.Some? { LastAnswer(But(all, b), t, t.answer.value, all[b].slot, c); }
    NoSlots();
    assert skipped == skipped[..1] + skipped[1..] && SetAsideIn(t.rounds) == skipped[..1];
  }

  lemma NoSlots()
    ensures SlotsOf([]) == []
  {
  }

  /** With the source's keys on distinct slots, a copied slot holds exactly the chosen preset. */
  lemma CopiedIsSource(store: map<int, Preset>, all: seq<Preset>, p: Preset)
    requires forall i, j :: 0 <= i < j < |all| ==> all[i].slot != all[j].slot
    requires p in all && HoldsOneOf(store, all, p.slot)
    ensures Lookup(store, p.slot) == Some(p)
  {
    var q :| q in all && q.slot == p.slot && Lookup(store, p.slot) == Some(q);
    var i :| 0 <= i < |all| && all[i] == p;
    var j :| 0 <= j < |all| && all[j] == q;
  }
}
