/**
 One speaker, several addresses: which served records are of one physical
 speaker (`sameSpeakerGroups`), and which of its addresses stays
 (`pickLiveBoxKey`).
 */
module SpeakerGroups {
  import opened BoxRecords
  import opened SortedStrings
  import opened Text
  import opened UnionFind

  type Boxes = map<string, BoxInfo>

  // ----- the relation -----

  /** Among the keys `among`, the greatest one filed under address `addr` or naming it its host. */
  ghost predicate IsNamedAmong(seen: Boxes, among: set<string>, addr: string, k: string) {
    && k in seen && k in among && (k == addr || seen[k].id.host == addr)
    && forall j :: j in among && j in seen && (j == addr || seen[j].id.host == addr) ==> !Less(k, j)
  }

  ghost predicate IsNamed(seen: Boxes, addr: string, k: string) {
    IsNamedAmong(seen, seen.Keys, addr, k)
  }

  /** The address report of the record at `x` names the record at `y`. */
  ghost predicate Names(seen: Boxes, x: string, y: string) {
    x in seen && exists a :: a in SplitAddrList(seen[x].agent.lanAddrs) && IsNamed(seen, a, y)
  }

  /** Two records that are of one speaker for sure. */
  ghost predicate Linked(seen: Boxes, x: string, y: string) {
    && x in seen && y in seen
    && (seen[x].id.deviceID == seen[y].id.deviceID != "" || Names(seen, x, y) || Names(seen, y, x))
  }

  ghost predicate Path(seen: Boxes, p: seq<string>) {
    && p != [] && (forall i :: 0 <= i < |p| ==> p[i] in seen)
    && forall i :: 0 <= i < |p| - 1 ==> Linked(seen, p[i], p[i + 1])
  }

  /** A chain of links leads from `x` to `y`. */
  ghost predicate Connected(seen: Boxes, x: string, y: string) {
    exists p :: Path(seen, p) && p[0] == x && p[|p| - 1] == y
  }

  lemma ConnectedSelf(seen: Boxes, x: string)
    requires x in seen
    ensures Connected(seen, x, x)
  {
    assert Path(seen, [x]) && [x][0] == x;
  }

  lemma ConnectedLink(seen: Boxes, x: string, y: string)
    requires Linked(seen, x, y)
    ensures Connected(seen, x, y)
  {
    hide Linked;
    assert x in seen && y in seen by { LinkedIn(seen, x, y); }
    var p := [x, y];
    assert Path(seen, p) && p[0] == x && p[|p| - 1] == y;
  }

  lemma LinkedIn(seen: Boxes, x: string, y: string)
    requires Linked(seen, x, y)
    ensures x in seen && y in seen && Linked(seen, y, x)
  {
  }

  lemma ConnectedTrans(seen: Boxes, x: string, y: string, z: string)
    requires Connected(seen, x, y) && Connected(seen, y, z)
    ensures Connected(seen, x, z)
  {
    hide Linked;
    var p :| Path(seen, p) && p[0] == x && p[|p| - 1] == y;
    var q :| Path(seen, q) && q[0] == y && q[|q| - 1] == z;
    var r := p + q[1..];
    forall i | 0 <= i < |r| - 1 ensures Linked(seen, r[i], r[i + 1]) {
      if i < |p| - 1 { assert Linked(seen, p[i], p[i + 1]); }
      else { assert Linked(seen, q[i - |p| + 1], q[i - |p| + 2]); }
    }
    assert Path(seen, r) && r[0] == x && r[|r| - 1] == z;
  }

  lemma {:induction false} PathBack(seen: Boxes, p: seq<string>)
    requires Path(seen, p)
    ensures Connected(seen, p[|p| - 1], p[0])
    decreases |p|
  {
    hide Linked;
    if |p| == 1 {
      ConnectedSelf(seen, p[0]);
    } else {
      var n := |p| - 1;
      assert Path(seen, p[..n]);
      PathBack(seen, p[..n]);
      LinkedIn(seen, p[n - 1], p[n]);
      ConnectedLink(seen, p[n], p[n - 1]);
      ConnectedTrans(seen, p[n], p[n - 1], p[0]);
    }
  }

  lemma ConnectedSym(seen: Boxes, x: string, y: string)
    requires Connected(seen, x, y)
    ensures Connected(seen, y, x)
  {
    var p :| Path(seen, p) && p[0] == x && p[|p| - 1] == y;
    PathBack(seen, p);
  }

  lemma ConnectedIn(seen: Boxes, x: string, y: string)
    requires Connected(seen, x, y)
    ensures x in seen && y in seen
  {
  }

  // ----- partitions of the keys -----

  /** Only keys of one speaker are in one class. */
  ghost predicate Sound(seen: Boxes, root: Parents) {
    && root.Keys == seen.Keys
    && forall x, y :: x in root && y in root && root[x] == root[y] ==> Connected(seen, x, y)
  }

  /** Linked keys are in one class. */
  ghost predicate Complete(seen: Boxes, root: Parents) {
    && root.Keys == seen.Keys
    && forall x, y :: Linked(seen, x, y) ==> x in root && y in root && root[x] == root[y]
  }

  /** Whatever `a` has in one class, `b` has in one class. */
  ghost predicate Coarser(a: Parents, b: Parents) {
    && a.Keys == b.Keys
    && forall x, y :: x in a && y in a && a[x] == a[y] ==> b[x] == b[y]
  }

  lemma JoinSound(seen: Boxes, root: Parents, x: string, y: string)
    requires Sound(seen, root) && Linked(seen, x, y)
    ensures x in root && y in root && Sound(seen, Joined(root, x, y)) && Coarser(root, Joined(root, x, y))
    ensures Joined(root, x, y)[x] == Joined(root, x, y)[y]
  {
    LinkedIn(seen, x, y);
    hide Linked, Connected;
    var next := Joined(root, x, y);
    forall a, b | a in next && b in next && next[a] == next[b] ensures Connected(seen, a, b) {
      if root[a] != root[b] {
        var u, v := if root[a] == root[y] then y else x, if root[a] == root[y] then x else y;
        if root[a] == root[y] { LinkedIn(seen, x, y); }
        ConnectedLink(seen, u, v);
        assert Connected(seen, a, u) && Connected(seen, v, b);
        ConnectedTrans(seen, a, u, v);
        ConnectedTrans(seen, a, v, b);
      }
    }
  }

  lemma {:induction false} CompletePath(seen: Boxes, root: Parents, p: seq<string>)
    requires Complete(seen, root) && Path(seen, p)
    ensures p[0] in root && p[|p| - 1] in root && root[p[0]] == root[p[|p| - 1]]
    decreases |p|
  {
    hide Linked;
    if |p| > 1 {
      var n := |p| - 1;
      assert Path(seen, p[..n]);
      CompletePath(seen, root, p[..n]);
      assert Linked(seen, p[n - 1], p[n]);
    }
  }

  /** A sound and complete partition is exactly the one into speakers. */
  lemma PartitionIs(seen: Boxes, root: Parents, x: string, y: string)
    requires Sound(seen, root) && Complete(seen, root) && x in seen && y in seen
    ensures root[x] == root[y] <==> Connected(seen, x, y)
  {
    hide Linked;
    if Connected(seen, x, y) {
      var p :| Path(seen, p) && p[0] == x && p[|p| - 1] == y;
      CompletePath(seen, root, p);
    }
  }

  // ----- the groups -----

  function First(g: seq<string>): string {
    if g == [] then "" else g[0]
  }

  /** `g` lists the keys of one speaker that has several, in their order. */
  ghost predicate IsGroup(seen: Boxes, g: seq<string>) {
    && |g| > 1 && Sorted(g) && g[0] in seen
    && forall y :: y in g <==> Connected(seen, g[0], y)
  }

  /** `out` lists every such speaker once, in the order of their first keys. */
  ghost predicate AreGroups(seen: Boxes, out: seq<seq<string>>) {
    && SortedBy(out, First)
    && forall g :: g in out <==> IsGroup(seen, g)
  }

  /** There is one such list: no iteration order shows in it. */
  lemma GroupsUnique(seen: Boxes, a: seq<seq<string>>, b: seq<seq<string>>)
    requires AreGroups(seen, a) && AreGroups(seen, b)
    ensures a == b
  {
    hide IsGroup;
    SortedUnique(a, b, First);
  }

  lemma GroupMembers(seen: Boxes, g: seq<string>, x: string, y: string)
    requires IsGroup(seen, g) && x in g
    ensures x in seen && (y in g <==> Connected(seen, x, y))
  {
    hide Connected;
    ConnectedIn(seen, g[0], x);
    if Connected(seen, x, y) { ConnectedTrans(seen, g[0], x, y); }
    if y in g {
      ConnectedSym(seen, g[0], x);
      ConnectedTrans(seen, x, g[0], y);
    }
  }

  // ----- sameSpeakerGroups -----

  /** Every address that means a key is indexed under it. */
  ghost predicate HostIndex(seen: Boxes, byHost: map<string, string>, among: set<string>) {
    forall a, k :: a != "" ==> (IsNamedAmong(seen, among, a, k) <==> a in byHost && byHost[a] == k)
  }

  lemma NamedMore(seen: Boxes, among: set<string>, k: string, a: string, j: string)
    requires k in seen && k !in among && forall i :: i in among ==> Less(i, k)
    ensures IsNamedAmong(seen, among + {k}, a, j) <==>
            if a == k || seen[k].id.host == a then j == k else IsNamedAmong(seen, among, a, j)
  {
    hide Less;
    LessTotal(k, k);
    LessTotal(j, k);
    forall i | i in among ensures !Less(k, i) { LessTotal(i, k); }
  }

  /** The index of the hosts, built key by key; of two keys for one address the greater stays. */
  method IndexHosts(seen: Boxes, keys: seq<string>) returns (byHost: map<string, string>)
    requires Sorted(keys) && forall k :: k in keys <==> k in seen
    ensures HostIndex(seen, byHost, seen.Keys)
  {
    hide IsNamedAmong, Less;
    byHost := map[];
    ghost var done: set<string> := {};
    NamedNone(seen);
    for i := 0 to |keys|
      invariant forall k :: k in done <==> k in keys[..i]
      invariant HostIndex(seen, byHost, done)
    {
      var k := keys[i];
      assert k in keys;
      forall j | j in done ensures Less(j, k) && j != k {
        var m :| 0 <= m < i && keys[..i][m] == j;
        LessTotal(k, k);
      }
      ghost var before := byHost;
      var h := seen[k].id.host;
      if h != "" {
        byHost := byHost[h := k];
      }
      byHost := byHost[k := k];
      forall a, j | a != "" ensures IsNamedAmong(seen, done + {k}, a, j) <==> a in byHost && byHost[a] == j {
        NamedMore(seen, done, k, a, j);
        assert IsNamedAmong(seen, done, a, j) <==> a in before && before[a] == j;
      }
      done := done + {k};
      assert keys[..i + 1] == keys[..i] + [k];
    }
    assert keys[..|keys|] == keys;
    assert done == seen.Keys;
  }

  lemma NamedNone(seen: Boxes)
    ensures HostIndex(seen, map[], {})
  {
  }

  /** The key `k` is joined with the first one of its device, and with every one its report names. */
  ghost predicate KeyDone(seen: Boxes, root: Parents, byDevice: map<string, string>, k: string) {
    && k in seen && k in root
    && (seen[k].id.deviceID != "" ==>
        && seen[k].id.deviceID in byDevice
        && byDevice[seen[k].id.deviceID] in root && root[byDevice[seen[k].id.deviceID]] == root[k])
    && forall o :: Names(seen, k, o) ==> o in root && root[k] == root[o]
  }

  ghost predicate DeviceIndex(seen: Boxes, byDevice: map<string, string>) {
    forall id :: id in byDevice ==> id != "" && byDevice[id] in seen && seen[byDevice[id]].id.deviceID == id
  }

  lemma KeyDoneLater(seen: Boxes, a: Parents, b: Parents, byDevice: map<string, string>, later: map<string, string>,
                     k: string)
    requires KeyDone(seen, a, byDevice, k) && Coarser(a, b)
    requires forall id :: id in byDevice ==> id in later && later[id] == byDevice[id]
    ensures KeyDone(seen, b, later, k)
  {
    hide Names;
  }

  lemma AllDone(seen: Boxes, root: Parents, byDevice: map<string, string>)
    requires root.Keys == seen.Keys && forall k :: k in seen ==> KeyDone(seen, root, byDevice, k)
    ensures Complete(seen, root)
  {
    hide Names;
    forall x, y | Linked(seen, x, y) ensures x in root && y in root && root[x] == root[y] {
      assert KeyDone(seen, root, byDevice, x) && KeyDone(seen, root, byDevice, y);
    }
  }

  lemma CoarserTrans(a: Parents, b: Parents, c: Parents)
    requires Coarser(a, b) && Coarser(b, c)
    ensures Coarser(a, c)
  {
  }

  /** Unite the key with the first one of its device id. */
  method LinkDevice(f: Forest, seen: Boxes, byDevice0: map<string, string>, k: string) returns (byDevice: map<string,
                    string>)
    requires f.Valid() && Sound(seen, f.root) && DeviceIndex(seen, byDevice0) && k in seen
    modifies f
    ensures f.Valid() && Sound(seen, f.root) && Coarser(old(f.root), f.root) && DeviceIndex(seen, byDevice)
    ensures forall id :: id in byDevice0 ==> id in byDevice && byDevice[id] == byDevice0[id]
    ensures var id := seen[k].id.deviceID;
            id != "" ==> id in byDevice && byDevice[id] in f.root && k in f.root && f.root[byDevice[id]] == f.root[k]
  {
    hide IsForest, Connected, Joined;
    byDevice := byDevice0;
    var b := seen[k];
    if b.id.deviceID != "" {
      if b.id.deviceID in byDevice {
        var first := byDevice[b.id.deviceID];
        JoinSound(seen, f.root, first, k);
        f.Union(first, k);
      } else {
        byDevice := byDevice[b.id.deviceID := k];
      }
    }
  }

  /** Unite the key with the one an address of its report means. */
  method LinkAddr(f: Forest, seen: Boxes, byHost: map<string, string>, k: string, addr: string)
    requires f.Valid() && Sound(seen, f.root) && HostIndex(seen, byHost, seen.Keys) && k in seen
    requires addr != "" && addr in SplitAddrList(seen[k].agent.lanAddrs)
    modifies f
    ensures f.Valid() && Sound(seen, f.root) && Coarser(old(f.root), f.root)
    ensures forall o :: IsNamed(seen, addr, o) ==> k in f.root && o in f.root && f.root[k] == f.root[o]
  {
    hide IsForest, Connected, IsNamedAmong, Joined, Coarser, Sound, HostIndex;
    IndexedIs(seen, byHost, addr);
    SoundKeys(seen, f.root);
    CoarserSelf(f.root);
    if addr in byHost && byHost[addr] != k {
      var other := byHost[addr];
      assert Names(seen, k, other);
      NamedIn(seen, addr, other);
      JoinSound(seen, f.root, k, other);
      f.Union(k, other);
      SoundKeys(seen, f.root);
    }
  }

  /** Unite the key with every one its address report names. */
  method LinkAddrs(f: Forest, seen: Boxes, byHost: map<string, string>, k: string)
    requires f.Valid() && Sound(seen, f.root) && HostIndex(seen, byHost, seen.Keys) && k in seen
    modifies f
    ensures f.Valid() && Sound(seen, f.root) && Coarser(old(f.root), f.root)
    ensures forall o :: Names(seen, k, o) ==> k in f.root && o in f.root && f.root[k] == f.root[o]
  {
    hide IsForest, Coarser, Sound, HostIndex, IsNamed;
    var addrs := SplitAddrList(seen[k].agent.lanAddrs);
    CoarserSelf(f.root);
    for i := 0 to |addrs|
      invariant f.Valid() && Sound(seen, f.root) && Coarser(old(f.root), f.root)
      invariant forall a, o :: a in addrs[..i] && IsNamed(seen, a, o) ==> k in f.root && o in f.root
                                                                          && f.root[k] == f.root[o]
    {
      ghost var before := f.root;
      assert addrs[i] in addrs && addrs[..i + 1] == addrs[..i] + [addrs[i]];
      LinkAddr(f, seen, byHost, k, addrs[i]);
      CoarserTrans(old(f.root), before, f.root);
      CoarserPairs(before, f.root, k);
    }
    assert addrs[..|addrs|] == addrs;
  }

  lemma CoarserSelf(a: Parents)
    ensures Coarser(a, a)
  {
  }

  lemma CoarserPairs(a: Parents, b: Parents, k: string)
    requires Coarser(a, b)
    ensures a.Keys == b.Keys && forall o :: k in a && o in a && a[k] == a[o] ==> b[k] == b[o]
  {
  }

  lemma SoundKeys(seen: Boxes, root: Parents)
    requires Sound(seen, root)
    ensures root.Keys == seen.Keys
  {
  }

  lemma IndexedIs(seen: Boxes, byHost: map<string, string>, addr: string)
    requires HostIndex(seen, byHost, seen.Keys) && addr != ""
    ensures forall o :: IsNamed(seen, addr, o) <==> addr in byHost && byHost[addr] == o
  {
    hide IsNamedAmong;
  }

  lemma NamedIn(seen: Boxes, addr: string, k: string)
    requires IsNamed(seen, addr, k)
    ensures k in seen
  {
  }

  /** The partition of the keys into speakers, key by key in their order. */
  method LinkAll(f: Forest, seen: Boxes, keys: seq<string>)
    requires f.Valid() && Sound(seen, f.root) && Sorted(keys) && forall k :: k in keys <==> k in seen
    modifies f
    ensures f.Valid() && Sound(seen, f.root) && Complete(seen, f.root)
  {
    hide IsForest, Sound, HostIndex, KeyDone, Coarser, Names, DeviceIndex;
    var byHost := IndexHosts(seen, keys);
    var byDevice: map<string, string> := map[];
    assert DeviceIndex(seen, byDevice) by { NoDevices(seen); }
    for i := 0 to |keys|
      invariant f.Valid() && Sound(seen, f.root) && DeviceIndex(seen, byDevice)
      invariant forall j :: 0 <= j < i ==> KeyDone(seen, f.root, byDevice, keys[j])
    {
      var k := keys[i];
      assert k in keys;
      ghost var root0, dev0 := f.root, byDevice;
      byDevice := LinkDevice(f, seen, byDevice, k);
      ghost var root1 := f.root;
      LinkAddrs(f, seen, byHost, k);
      CoarserTrans(root0, root1, f.root);
      KeyDoneNow(seen, root1, f.root, byDevice, k);
      forall j | 0 <= j < i ensures KeyDone(seen, f.root, byDevice, keys[j]) {
        KeyDoneLater(seen, root0, f.root, dev0, byDevice, keys[j]);
      }
    }
    SoundKeys(seen, f.root);
    forall k | k in seen ensures KeyDone(seen, f.root, byDevice, k) {
      assert k in keys;
    }
    AllDone(seen, f.root, byDevice);
  }

  lemma NoDevices(seen: Boxes)
    ensures DeviceIndex(seen, map[])
  {
  }

  lemma KeyDoneNow(seen: Boxes, mid: Parents, root: Parents, byDevice: map<string, string>, k: string)
    requires k in seen && Sound(seen, root) && Coarser(mid, root)
    requires var id := seen[k].id.deviceID;
             id != "" ==> id in byDevice && byDevice[id] in mid && k in mid && mid[byDevice[id]] == mid[k]
    requires forall o :: Names(seen, k, o) ==> k in root && o in root && root[k] == root[o]
    ensures KeyDone(seen, root, byDevice, k)
  {
    hide Names;
  }

  /** The keys whose representative is `r`, in the order of `keys`. */
  function Members(root: Parents, keys: seq<string>, r: string): seq<string>
    requires forall k :: k in keys ==> k in root
  {
    if keys == [] then []
    else
      var n := |keys| - 1;
      Members(root, keys[..n], r) + if root[keys[n]] == r then [keys[n]] else []
  }

  /** A later key keeps a sorted selection of the earlier ones sorted. */
  lemma MembersLast(keys: seq<string>, m: seq<string>)
    requires keys != [] && Sorted(keys) && Sorted(m) && forall k :: k in m ==> k in keys[..|keys| - 1]
    ensures Sorted(keys[..|keys| - 1]) && Sorted(m + [keys[|keys| - 1]])
  {
    hide Less;
    var last := keys[|keys| - 1];
    forall i | 0 <= i < |m| ensures Less(m[i], last) {
      assert m[i] in m;
      var j :| 0 <= j < |keys| - 1 && keys[..|keys| - 1][j] == m[i];
    }
  }

  lemma {:induction false} MembersAre(root: Parents, keys: seq<string>, r: string)
    requires Sorted(keys) && forall k :: k in keys ==> k in root
    ensures Sorted(Members(root, keys, r))
    ensures forall k :: k in Members(root, keys, r) <==> k in keys && root[k] == r
  {
    if keys != [] {
      var n := |keys| - 1;
      MembersAre(root, keys[..n], r);
      MembersLast(keys, Members(root, keys[..n], r));
      assert keys == keys[..n] + [keys[n]];
      hide Less, Sorted;
    }
  }

  /** A class of the finished partition with two keys or more is a group, and every group is one. */
  lemma MembersGroup(seen: Boxes, root: Parents, keys: seq<string>, r: string)
    requires Sound(seen, root) && Complete(seen, root) && Sorted(keys) && (forall k :: k in keys <==> k in seen)
    requires |Members(root, keys, r)| > 1
    ensures IsGroup(seen, Members(root, keys, r))
  {
    hide Complete, Connected;
    MembersAre(root, keys, r);
    var g := Members(root, keys, r);
    assert g[0] in g;
    forall y ensures y in g <==> Connected(seen, g[0], y) {
      if y in seen { PartitionIs(seen, root, g[0], y); }
      if Connected(seen, g[0], y) { ConnectedIn(seen, g[0], y); }
    }
  }

  lemma GroupIsMembers(seen: Boxes, root: Parents, keys: seq<string>, g: seq<string>)
    requires Sound(seen, root) && Complete(seen, root) && Sorted(keys) && (forall k :: k in keys <==> k in seen)
    requires IsGroup(seen, g)
    ensures g[0] in root && g == Members(root, keys, root[g[0]])
  {
    hide Complete, Connected;
    var m := Members(root, keys, root[g[0]]);
    MembersAre(root, keys, root[g[0]]);
    forall y ensures y in g <==> y in m {
      if y in seen { PartitionIs(seen, root, g[0], y); }
      if Connected(seen, g[0], y) { ConnectedIn(seen, g[0], y); }
    }
    SortedSame(g, m);
  }

  lemma SortedSame(a: seq<string>, b: seq<string>)
    requires Sorted(a) && Sorted(b) && forall x :: x in a <==> x in b
    ensures a == b
  {
    var id := (k: string) => k;
    assert SortedBy(a, id) && SortedBy(b, id);
    SortedUnique(a, b, id);
  }

  /** The third loop: the keys of each class, in their order. */
  method Classes(f: Forest, keys: seq<string>) returns (groups: map<string, seq<string>>)
    requires f.Valid() && forall k :: k in keys ==> k in f.root
    modifies f`parent
    ensures f.Valid()
    ensures forall r :: r in groups <==> exists k :: k in keys && f.root[k] == r
    ensures forall r :: r in groups ==> groups[r] == Members(f.root, keys, r)
  {
    hide IsForest;
    groups := map[];
    for i := 0 to |keys|
      invariant f.Valid()
      invariant forall r :: r in groups <==> exists k :: k in keys[..i] && f.root[k] == r
      invariant forall r :: r in groups ==> groups[r] == Members(f.root, keys[..i], r)
    {
      var k := keys[i];
      assert k in keys;
      var r := f.Find(k);
      assert keys[..i + 1][..i] == keys[..i] && keys[..i + 1] == keys[..i] + [k];
      if r !in groups { NoMembers(f.root, keys[..i], r); }
      groups := groups[r := (if r in groups then groups[r] else []) + [k]];
      assert k in keys[..i + 1];
    }
    assert keys[..|keys|] == keys;
  }

  lemma {:induction false} NoMembers(root: Parents, keys: seq<string>, r: string)
    requires (forall k :: k in keys ==> k in root) && !exists k :: k in keys && root[k] == r
    ensures Members(root, keys, r) == []
  {
    if keys != [] {
      assert keys[|keys| - 1] in keys;
      NoMembers(root, keys[..|keys| - 1], r);
    }
  }

  /** The keys of each speaker that is served at several addresses. */
  method SameSpeakerGroups(seen: Boxes) returns (out: seq<seq<string>>)
    ensures AreGroups(seen, out)
  {
    hide IsForest, Sound, Complete, AreGroups, Members, Sorted;
    var keys := SortKeys(seen.Keys);
    var f := new Forest(seen.Keys);
    ApartSound(seen, f.root);
    LinkAll(f, seen, keys);
    SoundKeys(seen, f.root);
    var groups := Classes(f, keys);
    out := LargeClasses(seen, f.root, keys, groups);
  }

  /** The last loop: the classes of two keys or more, by their first keys. */
  method LargeClasses(seen: Boxes, ghost root: Parents, ghost keys: seq<string>, groups: map<string, seq<string>>)
    returns (out: seq<seq<string>>)
    requires Sound(seen, root) && Complete(seen, root) && Sorted(keys) && (forall k :: k in keys <==> k in seen)
    requires forall k :: k in keys ==> k in root
    requires forall r :: r in groups <==> exists k :: k in keys && root[k] == r
    requires forall r :: r in groups ==> groups[r] == Members(root, keys, r)
    ensures AreGroups(seen, out)
  {
    hide Sound, Complete, IsGroup, Members, Sorted, Less;
    out := [];
    assert SortedBy(out, First);
    var todo := groups.Keys;
    while todo != {}
      invariant todo <= groups.Keys && SortedBy(out, First)
      invariant forall g :: g in out ==> |g| > 1
      invariant forall g :: g in out <==> exists r :: r in groups && r !in todo && g == groups[r] && |g| > 1
    {
      var r :| r in todo;
      var g := groups[r];
      if |g| > 1 {
        MembersAre(root, keys, r);
        assert g[0] in g;
        forall h | h in out ensures First(h) != First(g) {
          var q :| q in groups && q !in todo && h == groups[q];
          MembersAre(root, keys, q);
          assert h[0] in h;
        }
        hide SortedBy;
        out := InsertBy(out, First, g);
      }
      todo := todo - {r};
    }
    forall g ensures g in out <==> IsGroup(seen, g) {
      if IsGroup(seen, g) {
        GroupIsMembers(seen, root, keys, g);
        GroupShape(seen, g);
        assert g[0] in keys;
      }
      if g in out {
        var r :| r in groups && g == groups[r] && |g| > 1;
        MembersGroup(seen, root, keys, r);
      }
    }
  }

  lemma GroupShape(seen: Boxes, g: seq<string>)
    requires IsGroup(seen, g)
    ensures |g| > 1 && g[0] in seen
  {
  }

  lemma ApartSound(seen: Boxes, root: Parents)
    requires root == map k | k in seen.Keys :: k
    ensures Sound(seen, root)
  {
    forall k | k in seen ensures Connected(seen, k, k) { ConnectedSelf(seen, k); }
    hide Connected;
  }

  // ----- pickLiveBoxKey -----

  /** The address a record stands for. */
  function HostOf(seen: Boxes, key: string): string
    requires key in seen
  {
    if seen[key].id.host == "" then key else seen[key].id.host
  }

  /** Some record of the group reports the key's address as the speaker's cable. */
  predicate IsWired(seen: Boxes, group: seq<string>, key: string)
    requires key in seen && forall k :: k in group ==> k in seen
  {
    exists k :: k in group && HostOf(seen, key) in SplitAddrList(seen[k].agent.wiredAddrs)
  }

  method HostIsWired(seen: Boxes, group: seq<string>, key: string) returns (wired: bool)
    requires key in seen && forall k :: k in group ==> k in seen
    ensures wired <==> IsWired(seen, group, key)
  {
    hide SplitAddrList, HostOf;
    var host := HostOf(seen, key);
    for i := 0 to |group|
      invariant forall k :: k in group[..i] ==> host !in SplitAddrList(seen[k].agent.wiredAddrs)
    {
      assert group[i] in group;
      var addrs := SplitAddrList(seen[group[i]].agent.wiredAddrs);
      for j := 0 to |addrs|
        invariant host !in addrs[..j]
      {
        if addrs[j] == host {
          return true;
        }
      }
      assert addrs[..|addrs|] == addrs && group[..i + 1] == group[..i] + [group[i]];
    }
    assert group[..|group|] == group;
    return false;
  }

  /** `a` is the better address: one that answers, then one on the cable, then one with STR. */
  predicate Better(seen: Boxes, group: seq<string>, reachable: set<string>, a: string, b: string)
    requires a in seen && b in seen && forall k :: k in group ==> k in seen
  {
    var wa, wb := IsWired(seen, group, a), IsWired(seen, group, b);
    if (a in reachable) != (b in reachable) then a in reachable
    else if wa != wb then wa
    else seen[a].id.kind == STR && seen[b].id.kind == Stock
  }

  /** `a` wins over `b`: better, or no worse and the smaller key. */
  predicate Beats(seen: Boxes, group: seq<string>, reachable: set<string>, a: string, b: string)
    requires a in seen && b in seen && forall k :: k in group ==> k in seen
  {
    Better(seen, group, reachable, a, b) || (!Better(seen, group, reachable, b, a) && Less(a, b))
  }

  ghost predicate IsWinner(seen: Boxes, group: seq<string>, reachable: set<string>, w: string) {
    && (forall k :: k in group ==> k in seen)
    && w in group && forall k :: k in group && k != w ==> Beats(seen, group, reachable, w, k)
  }

  function Score(seen: Boxes, group: seq<string>, reachable: set<string>, key: string): nat
    requires key in seen && forall k :: k in group ==> k in seen
  {
    (if key in reachable then 4 else 0) + (if IsWired(seen, group, key) then 2 else 0)
      + (if seen[key].id.kind == STR then 1 else 0)
  }

  /** The one number stands for the order of the three criteria. */
  lemma ScoreIsOrder(seen: Boxes, group: seq<string>, reachable: set<string>, a: string, b: string)
    requires a in seen && b in seen && forall k :: k in group ==> k in seen
    ensures Score(seen, group, reachable, a) > Score(seen, group, reachable, b)
            <==> Better(seen, group, reachable, a, b)
  {
    hide IsWired;
  }

  lemma WinnerUnique(seen: Boxes, group: seq<string>, reachable: set<string>, v: string, w: string)
    requires IsWinner(seen, group, reachable, v) && IsWinner(seen, group, reachable, w)
    ensures v == w
  {
    hide Less, IsWired;
    LessTotal(v, w);
  }

  /** Which of the addresses of one speaker stays: the best, the smallest of equals. */
  method PickLiveBoxKey(seen: Boxes, keys: seq<string>, reachable: set<string>) returns (best: string)
    requires keys != [] && forall k :: k in keys ==> k in seen
    ensures IsWinner(seen, keys, reachable, best)
  {
    hide Less, IsWired, Better, Score;
    var sorted := SortKeys(set k | k in keys);
    assert keys[0] in sorted;
    best := sorted[0];
    var bestScore := -1;
    for i := 0 to |sorted|
      invariant best in sorted
      invariant i > 0 ==> best in sorted[..i] && bestScore == Score(seen, keys, reachable, best)
      invariant i == 0 ==> bestScore == -1
      invariant forall k :: k in seen && k in sorted[..i] && k != best ==> Beats(seen, keys, reachable, best, k)
    {
      var key := sorted[i];
      assert key in sorted && key in keys;
      var wired := HostIsWired(seen, keys, key);
      var score := (if key in reachable then 4 else 0) + (if wired then 2 else 0)
                   + (if seen[key].id.kind == STR then 1 else 0);
      ScoreParts(seen, keys, reachable, key);
      assert sorted[..i + 1] == sorted[..i] + [key];
      forall k | k in sorted[..i] ensures Less(k, key) && k in keys {
        var j :| 0 <= j < i && sorted[j] == k;
        assert k in sorted;
      }
      Challenge(seen, keys, reachable, sorted[..i], best, key);
      if score > bestScore {
        bestScore := score;
        best := key;
      }
    }
    assert sorted[..|sorted|] == sorted;
  }

  lemma ScoreParts(seen: Boxes, group: seq<string>, reachable: set<string>, key: string)
    requires key in seen && forall k :: k in group ==> k in seen
    ensures Score(seen, group, reachable, key) ==
            (if key in reachable then 4 else 0) + (if IsWired(seen, group, key) then 2 else 0)
            + (if seen[key].id.kind == STR then 1 else 0)
  {
  }

  /** A later, greater key takes over from the winner so far exactly by a higher score. */
  lemma Challenge(seen: Boxes, group: seq<string>, reachable: set<string>, before: seq<string>, best: string,
                  key: string)
    requires key in seen && (forall k :: k in group ==> k in seen)
             && (forall k :: k in before ==> k in group && Less(k, key))
    requires before != [] ==> best in before
    requires forall k :: k in before && k != best ==> Beats(seen, group, reachable, best, k)
    ensures before != [] ==>
              if Score(seen, group, reachable, key) > Score(seen, group, reachable, best)
              then forall k :: k in before ==> Beats(seen, group, reachable, key, k)
              else Beats(seen, group, reachable, best, key)
  {
    hide Less, IsWired, Better, Score;
    if before != [] {
      ScoreIsOrder(seen, group, reachable, key, best);
      if Score(seen, group, reachable, key) > Score(seen, group, reachable, best) {
        forall k | k in before ensures Beats(seen, group, reachable, key, k) {
          ScoreIsOrder(seen, group, reachable, k, best);
          ScoreIsOrder(seen, group, reachable, best, k);
          ScoreIsOrder(seen, group, reachable, key, k);
        }
      }
    }
  }

  // ----- what the collapse keeps -----

  /** The record at `k` is its speaker's only one, or the winner among them. */
  ghost predicate Survives(seen: Boxes, reachable: set<string>, k: string) {
    && k in seen
    && forall g :: IsGroup(seen, g) && k in g ==> IsWinner(seen, g, reachable, k)
  }

  /** The records the collapse leaves. */
  ghost function Collapsed(seen: Boxes, reachable: set<string>): Boxes {
    map k | k in seen && Survives(seen, reachable, k) :: seen[k]
  }

  /** A speaker with two addresses is in exactly one group. */
  lemma GroupOf(seen: Boxes, x: string, y: string) returns (g: seq<string>)
    requires Connected(seen, x, y) && x != y
    ensures IsGroup(seen, g) && x in g && y in g
  {
    hide Connected;
    ConnectedIn(seen, x, y);
    var all := ClassOf(seen, x);
    g := SortedSeq(all);
    ConnectedSelf(seen, x);
    assert x in all && y in all;
    assert x in g && y in g;
    var g0 := g[0];
    assert g0 in all;
    forall z ensures z in g <==> Connected(seen, g0, z) {
      if Connected(seen, g0, z) { ConnectedTrans(seen, x, g0, z); ConnectedIn(seen, x, z); }
      if z in g {
        ConnectedSym(seen, x, g0);
        ConnectedTrans(seen, g0, x, z);
      }
    }
    assert g != [g0];
  }

  ghost function ClassOf(seen: Boxes, x: string): set<string> {
    set z | z in seen && Connected(seen, x, z)
  }

  lemma {:induction false} SortedSeq(keys: set<string>) returns (s: seq<string>)
    ensures Sorted(s) && forall k :: k in s <==> k in keys
    decreases keys
  {
    s := [];
    if keys != {} {
      var m := Greatest(keys);
      var rest := SortedSeq(keys - {m});
      s := rest + [m];
      forall i, j | 0 <= i < j < |s| ensures Less(s[i], s[j]) {
        assert s[i] == rest[i] && rest[i] in rest;
        if j < |rest| { assert s[j] == rest[j]; }
      }
      assert forall k :: k in s <==> k in rest || k == m;
    }
  }

  lemma {:induction false} Greatest(keys: set<string>) returns (m: string)
    requires keys != {}
    ensures m in keys && forall k :: k in keys && k != m ==> Less(k, m)
    decreases keys
  {
    hide Less;
    var one :| one in keys;
    m := one;
    assert forall k :: k in keys && k != one ==> k in keys - {one};
    if keys - {one} != {} {
      var n := Greatest(keys - {one});
      LessTotal(one, n);
      m := if Less(one, n) then n else one;
      forall k | k in keys && k != m ensures Less(k, m) {
        if k != one && k != n && m == one { LessTrans(k, n, one); }
      }
    }
  }

  lemma GroupSame(seen: Boxes, g: seq<string>, h: seq<string>, k: string)
    requires IsGroup(seen, g) && IsGroup(seen, h) && k in g && k in h
    ensures g == h
  {
    forall y ensures y in g <==> y in h {
      GroupMembers(seen, g, k, y);
      GroupMembers(seen, h, k, y);
    }
    SortedSame(g, h);
  }

  /**
   After the collapse no two served records share a device id, and none names
   the other's address: they are of different speakers.
   */
  lemma CollapsedApart(seen: Boxes, reachable: set<string>, x: string, y: string)
    requires x in Collapsed(seen, reachable) && y in Collapsed(seen, reachable) && x != y
    ensures !Connected(seen, x, y) && !Linked(seen, x, y)
  {
    hide Connected, Linked, IsGroup, IsWinner;
    if Connected(seen, x, y) {
      var g := GroupOf(seen, x, y);
      WinnerUnique(seen, g, reachable, x, y);
      assert false;
    }
    if Linked(seen, x, y) {
      ConnectedLink(seen, x, y);
      assert false;
    }
  }

  /** Every record is filed under its own address. */
  ghost predicate Keyed(seen: Boxes) {
    forall k :: k in seen ==> k != "" && seen[k].id.host == k
  }

  /** Two addresses are linked exactly if their records carry one device id, or one of the two reports the
      address of the other between the commas of its list. */
  lemma LinkedExactly(seen: Boxes, x: string, y: string)
    requires Keyed(seen)
    ensures Linked(seen, x, y) <==>
            && x in seen && y in seen
            && (seen[x].id.deviceID == seen[y].id.deviceID != ""
                || Reported(seen[x].agent.lanAddrs, y) || Reported(seen[y].agent.lanAddrs, x))
  {
    hide Reported, SplitAddrList;
    if x in seen && y in seen {
      NamesExactly(seen, x, y);
      NamesExactly(seen, y, x);
    }
  }

  lemma NamesExactly(seen: Boxes, x: string, y: string)
    requires Keyed(seen) && x in seen && y in seen
    ensures Names(seen, x, y) <==> Reported(seen[x].agent.lanAddrs, y)
  {
    hide Reported, SplitAddrList, Less;
    ReportedExactly(seen[x].agent.lanAddrs, y);
    LessTotal(y, y);
    assert IsNamed(seen, y, y);
    forall a | IsNamed(seen, a, y) ensures a == y { }
  }

  /** Of two addresses the collapse leaves, neither is reported by the other's record. */
  lemma CollapsedUnreported(seen: Boxes, reachable: set<string>, x: string, y: string)
    requires Keyed(seen) && x in Collapsed(seen, reachable) && y in Collapsed(seen, reachable) && x != y
    ensures !Reported(seen[x].agent.lanAddrs, y)
    ensures seen[x].id.deviceID == "" || seen[x].id.deviceID != seen[y].id.deviceID
  {
    hide Linked, Connected, Survives, Reported, Collapsed;
    assert x in seen && y in seen by { CollapsedIn(seen, reachable, x); CollapsedIn(seen, reachable, y); }
    CollapsedApart(seen, reachable, x, y);
    LinkedExactly(seen, x, y);
  }

  lemma CollapsedIn(seen: Boxes, reachable: set<string>, k: string)
    requires k in Collapsed(seen, reachable)
    ensures k in seen
  {
  }

  /** Some record of the group reports `host` as the speaker's cable. */
  ghost predicate OnCable(seen: Boxes, group: seq<string>, host: string) {
    exists k :: k in group && k in seen && Reported(seen[k].agent.wiredAddrs, host)
  }

  /** A record without an address stands for the key it is filed under. */
  lemma WiredExactly(seen: Boxes, group: seq<string>, key: string)
    requires key in seen && forall k :: k in group ==> k in seen
    ensures var host := if seen[key].id.host != "" then seen[key].id.host else key;
            IsWired(seen, group, key) <==> OnCable(seen, group, host)
  {
    hide Reported, SplitAddrList;
    var host := HostOf(seen, key);
    forall k | k in group
      ensures host in SplitAddrList(seen[k].agent.wiredAddrs) <==> Reported(seen[k].agent.wiredAddrs, host)
    {
      ReportedExactly(seen[k].agent.wiredAddrs, host);
    }
  }

  /** What the survivor is: no address of the speaker answers unless it does; of those alike in that, none is on
      the cable unless it is; of those, none is an STR record's unless its is; and of those it is the first. */
  lemma WinnerMeans(seen: Boxes, group: seq<string>, reachable: set<string>, w: string, k: string)
    requires Keyed(seen) && IsWinner(seen, group, reachable, w) && k in group
    ensures w in group && w in seen && k in seen
    ensures k in reachable ==> w in reachable
    ensures (k in reachable <==> w in reachable) ==>
              && (OnCable(seen, group, k) ==> OnCable(seen, group, w))
              && ((OnCable(seen, group, k) <==> OnCable(seen, group, w)) ==>
                    && (seen[k].id.kind == STR ==> seen[w].id.kind == STR)
                    && (seen[k].id.kind == seen[w].id.kind && k != w ==> Less(w, k)))
  {
    hide OnCable, IsWired, Less;
    WiredExactly(seen, group, w);
    WiredExactly(seen, group, k);
  }

  /** The winner of a group exists. */
  lemma SomeWinner(seen: Boxes, g: seq<string>, reachable: set<string>, n: nat) returns (w: string)
    requires 0 < n <= |g| && Sorted(g) && forall k :: k in g ==> k in seen
    ensures w in g[..n] && forall k :: k in g[..n] && k != w ==> Beats(seen, g, reachable, w, k)
    decreases n
  {
    hide Less, IsWired, Better, Score, Beats;
    w := g[0];
    if n > 1 {
      w := SomeWinner(seen, g, reachable, n - 1);
      var key := g[n - 1];
      assert key in g;
      assert g[..n] == g[..n - 1] + [key];
      forall k | k in g[..n - 1] ensures k in g && Less(k, key) { }
      Challenge(seen, g, reachable, g[..n - 1], w, key);
      if Score(seen, g, reachable, key) > Score(seen, g, reachable, w) {
        w := key;
      }
    }
  }

  /** An address that does not answer never stays over one of its speaker that does. */
  lemma UnreachableLoses(seen: Boxes, reachable: set<string>, x: string, y: string)
    requires Connected(seen, x, y) && x !in reachable && y in reachable
    ensures !Survives(seen, reachable, x)
  {
    hide Connected, IsWired, Less, IsGroup;
    var g := GroupOf(seen, x, y);
  }

  /** Every speaker keeps one record, unchanged. */
  lemma CollapsedKeepsOne(seen: Boxes, reachable: set<string>, x: string) returns (w: string)
    requires x in seen
    ensures w in Collapsed(seen, reachable) && Connected(seen, x, w) && Collapsed(seen, reachable)[w] == seen[w]
  {
    hide Connected, Linked, IsWinner;
    if exists y :: Connected(seen, x, y) && y != x {
      var y :| Connected(seen, x, y) && y != x;
      var g := GroupOf(seen, x, y);
      forall k | k in g ensures k in seen { ConnectedIn(seen, g[0], k); }
      w := SomeWinner(seen, g, reachable, |g|);
      assert g[..|g|] == g;
      GroupMembers(seen, g, x, w);
      assert IsWinner(seen, g, reachable, w) by { WinnerIs(seen, g, reachable, w); }
      forall h | IsGroup(seen, h) && w in h ensures IsWinner(seen, h, reachable, w) {
        GroupSame(seen, g, h, w);
      }
    } else {
      w := x;
      ConnectedSelf(seen, x);
      forall g | IsGroup(seen, g) && x in g ensures false {
        AloneNoGroup(seen, g, x);
      }
    }
  }

  lemma {:induction false} UnlinkedPath(seen: Boxes, p: seq<string>, i: nat)
    requires Path(seen, p) && i < |p| && forall j :: Linked(seen, p[0], j) ==> j == p[0]
    ensures p[i] == p[0]
  {
    hide Linked;
    if i > 0 {
      UnlinkedPath(seen, p, i - 1);
      assert Linked(seen, p[i - 1], p[i]);
    }
  }

  /** A record nothing links to another one stays. */
  lemma UnlinkedStays(seen: Boxes, reachable: set<string>, k: string)
    requires k in seen && forall j :: Linked(seen, k, j) ==> j == k
    ensures Survives(seen, reachable, k)
  {
    hide Linked, Survives;
    var w := CollapsedKeepsOne(seen, reachable, k);
    var p :| Path(seen, p) && p[0] == k && p[|p| - 1] == w;
    UnlinkedPath(seen, p, |p| - 1);
  }

  lemma WinnerIs(seen: Boxes, g: seq<string>, reachable: set<string>, w: string)
    requires (forall k :: k in g ==> k in seen) && w in g
    requires forall k :: k in g && k != w ==> Beats(seen, g, reachable, w, k)
    ensures IsWinner(seen, g, reachable, w)
  {
  }

  lemma AloneNoGroup(seen: Boxes, g: seq<string>, x: string)
    requires IsGroup(seen, g) && x in g
    ensures exists y :: Connected(seen, x, y) && y != x
  {
    hide Connected;
    LessTotal(g[0], g[1]);
    LessTotal(g[0], g[0]);
    assert g[0] in g && g[1] in g;
    GroupMembers(seen, g, x, g[0]);
    GroupMembers(seen, g, x, g[1]);
  }

  // ----- the collapse itself -----

  lemma SameWinner(a: Boxes, b: Boxes, g: seq<string>, reachable: set<string>, w: string)
    requires forall k :: k in g ==> k in a && k in b && a[k] == b[k]
    ensures IsWinner(a, g, reachable, w) <==> IsWinner(b, g, reachable, w)
  {
    hide Less;
    if w in g {
      forall k | k in g ensures Beats(a, g, reachable, w, k) <==> Beats(b, g, reachable, w, k) {
        SameWired(a, b, g, w);
        SameWired(a, b, g, k);
        hide IsWired;
      }
      hide Beats;
    }
  }

  lemma SameWired(a: Boxes, b: Boxes, g: seq<string>, key: string)
    requires key in g && forall k :: k in g ==> k in a && k in b && a[k] == b[k]
    ensures IsWired(a, g, key) <==> IsWired(b, g, key)
  {
  }

  /** The keys of the first groups that lose to their group's winner. */
  ghost predicate Loses(seen: Boxes, groups: seq<seq<string>>, reachable: set<string>, k: string) {
    exists g :: g in groups && k in g && !IsWinner(seen, g, reachable, k)
  }

  /** No key is in two groups. */
  lemma GroupsDisjoint(seen: Boxes, groups: seq<seq<string>>, i: nat, j: nat, k: string)
    requires AreGroups(seen, groups) && i < |groups| && j < |groups| && k in groups[i] && k in groups[j]
    ensures i == j
  {
    hide IsGroup, Less;
    assert groups[i] in groups && groups[j] in groups;
    GroupSame(seen, groups[i], groups[j], k);
    LessTotal(First(groups[i]), First(groups[i]));
  }

  /** The duplicates dropped from the served records, group by group. */
  method DropDuplicates(seen0: Boxes, reachable: set<string>) returns (seen: Boxes, dropped: set<string>)
    ensures seen == Collapsed(seen0, reachable) && dropped == seen0.Keys - seen.Keys
  {
    hide IsGroup, IsWinner, Loses, AreGroups;
    seen, dropped := seen0, {};
    var groups := SameSpeakerGroups(seen0);
    assert forall k :: !Loses(seen0, [], reachable, k) by { NoneLoses(seen0, reachable); }
    assert groups[..0] == [];
    for i := 0 to |groups|
      invariant dropped <= seen0.Keys && seen == seen0 - dropped
      invariant forall k :: k in dropped <==> k in seen0 && Loses(seen0, groups[..i], reachable, k)
    {
      var g := groups[i];
      GroupStillThere(seen0, groups, i, reachable, dropped);
      assert forall k :: k in g ==> k in seen && seen[k] == seen0[k];
      GroupNonEmpty(seen0, groups, i);
      var winner := PickLiveBoxKey(seen, g, reachable);
      SameWinner(seen, seen0, g, reachable, winner);
      for j := 0 to |g|
        invariant dropped <= seen0.Keys && seen == seen0 - dropped
        invariant forall k :: k in dropped <==>
                              k in seen0 && (Loses(seen0, groups[..i], reachable, k) || (k in g[..j] && k != winner))
      {
        assert g[..j + 1] == g[..j] + [g[j]] && g[j] in g;
        if g[j] != winner {
          seen := seen - {g[j]};
          dropped := dropped + {g[j]};
        }
      }
      assert g[..|g|] == g && groups[..i + 1] == groups[..i] + [g];
      forall k | k in seen0
        ensures Loses(seen0, groups[..i + 1], reachable, k) <==>
                Loses(seen0, groups[..i], reachable, k) || (k in g && k != winner)
      {
        LosesMore(seen0, groups[..i], g, reachable, winner, k);
      }
    }
    assert groups[..|groups|] == groups;
    forall k | k in seen0 ensures Survives(seen0, reachable, k) <==> k !in dropped {
      SurvivesIs(seen0, groups, reachable, k);
    }
    assert seen == Collapsed(seen0, reachable);
  }

  lemma NoneLoses(seen: Boxes, reachable: set<string>)
    ensures forall k :: !Loses(seen, [], reachable, k)
  {
  }

  lemma LosesMore(seen: Boxes, groups: seq<seq<string>>, g: seq<string>, reachable: set<string>, winner: string,
                  k: string)
    requires IsWinner(seen, g, reachable, winner)
    ensures Loses(seen, groups + [g], reachable, k) <==> Loses(seen, groups, reachable, k) || (k in g && k != winner)
  {
    if k in g && IsWinner(seen, g, reachable, k) { WinnerUnique(seen, g, reachable, k, winner); }
    hide IsWinner;
    assert g in groups + [g];
    forall h | h in groups ensures h in groups + [g] { }
  }

  lemma SurvivesIs(seen: Boxes, groups: seq<seq<string>>, reachable: set<string>, k: string)
    requires AreGroups(seen, groups) && k in seen
    ensures Survives(seen, reachable, k) <==> !Loses(seen, groups, reachable, k)
  {
    hide IsWinner, IsGroup;
  }

  lemma GroupNonEmpty(seen: Boxes, groups: seq<seq<string>>, i: nat)
    requires AreGroups(seen, groups) && i < |groups|
    ensures groups[i] != []
  {
    assert groups[i] in groups;
  }

  /** Earlier groups drop nothing of a later one. */
  lemma GroupStillThere(seen: Boxes, groups: seq<seq<string>>, i: nat, reachable: set<string>, dropped: set<string>)
    requires AreGroups(seen, groups) && i < |groups|
    requires forall k :: k in dropped <==> k in seen && Loses(seen, groups[..i], reachable, k)
    ensures forall k :: k in groups[i] ==> k in seen && k !in dropped
  {
    forall k | k in groups[i] ensures k in seen && k !in dropped {
      assert groups[i] in groups;
      ConnectedIn(seen, groups[i][0], k);
      if k in dropped {
        var g :| g in groups[..i] && k in g;
        var j :| 0 <= j < i && groups[..i][j] == g;
        GroupsDisjoint(seen, groups, i, j, k);
        assert false;
      }
    }
  }
}
