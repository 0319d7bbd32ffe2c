/**
 The union-find of `sameSpeakerGroups`: a parent map that `Find` flattens as it
 walks. `root` is the partition it stands for, `depth` the reason a walk ends.
 */
module UnionFind {
  type Parents = map<string, string>

  datatype Tree = Tree(parent: Parents, root: Parents, depth: map<string, nat>)

  /** `k` is a root, or hangs below a node of its own class that is closer to the root. */
  ghost predicate NodeValid(t: Tree, k: string) {
    && k in t.parent && k in t.root && k in t.depth
    && var p, r := t.parent[k], t.root[k];
    && p in t.parent && p in t.root && p in t.depth
    && r in t.parent && t.parent[r] == r
    && (if p == k then r == k && t.depth[k] == 0 else t.root[p] == r && t.depth[p] < t.depth[k])
  }

  ghost predicate IsForest(t: Tree) {
    && t.parent.Keys == t.root.Keys == t.depth.Keys
    && forall k {:trigger NodeValid(t, k)} :: k in t.parent ==> NodeValid(t, k)
  }

  lemma NodeOf(t: Tree, k: string)
    requires IsForest(t) && k in t.parent
    ensures NodeValid(t, k) && t.root[k] in t.root && NodeValid(t, t.root[k]) && t.root[t.root[k]] == t.root[k]
  {
    assert NodeValid(t, k) && NodeValid(t, t.root[k]);
  }

  /** Hanging a node directly below its root keeps the forest. */
  lemma Flattened(t: Tree, k: string)
    requires IsForest(t) && k in t.parent
    ensures k in t.root && IsForest(t.(parent := t.parent[k := t.root[k]]))
  {
    NodeOf(t, k);
    var next := t.(parent := t.parent[k := t.root[k]]);
    assert next.parent.Keys == t.parent.Keys;
    forall j | j in next.parent ensures NodeValid(next, j) {
      NodeOf(t, j);
      hide IsForest;
    }
  }

  /** The partition with the class of `y` merged into that of `x`. */
  ghost function Joined(root: Parents, x: string, y: string): Parents
    requires x in root && y in root
  {
    map k | k in root :: if root[k] == root[y] then root[x] else root[k]
  }

  /** Root `ry` hung below root `rx`. */
  ghost function Hung(t: Tree, rx: string, ry: string): Tree
    requires rx in t.root && ry in t.root && t.root.Keys == t.depth.Keys
  {
    Tree(t.parent[ry := rx], Joined(t.root, rx, ry), map k | k in t.depth ::
        if t.root[k] == ry then t.depth[k] + 1 else t.depth[k])
  }

  lemma HungAt(t: Tree, rx: string, ry: string, k: string)
    requires t.parent.Keys == t.root.Keys == t.depth.Keys && rx != ry
    requires NodeValid(t, rx) && NodeValid(t, ry) && t.root[rx] == rx && t.root[ry] == ry
    requires NodeValid(t, k) && NodeValid(t, t.root[k]) && t.root[t.root[k]] == t.root[k]
    ensures NodeValid(Hung(t, rx, ry), k)
  {
    var h := Hung(t, rx, ry);
    assert h.parent.Keys == t.parent.Keys && h.root.Keys == t.root.Keys && h.depth.Keys == t.depth.Keys;
  }

  /** It keeps the forest, with the one class joined to the other. */
  lemma HungForest(t: Tree, rx: string, ry: string)
    requires IsForest(t) && rx in t.parent && ry in t.parent && t.root[rx] == rx && t.root[ry] == ry && rx != ry
    ensures IsForest(Hung(t, rx, ry))
  {
    var h := Hung(t, rx, ry);
    assert h.parent.Keys == t.parent.Keys && h.root.Keys == t.root.Keys && h.depth.Keys == t.depth.Keys;
    NodeOf(t, rx);
    NodeOf(t, ry);
    forall k | k in h.parent ensures NodeValid(h, k) {
      NodeOf(t, k);
      hide IsForest, NodeValid, Hung;
      HungAt(t, rx, ry, k);
    }
  }

  class Forest {
    var parent: Parents
    ghost var root: Parents
    ghost var depth: map<string, nat>

    ghost predicate Valid()
      reads this
    {
      IsForest(Tree(parent, root, depth))
    }

    /** Every key alone. */
    constructor (keys: set<string>)
      ensures Valid() && root == map k | k in keys :: k
    {
      parent := map k | k in keys :: k;
      root := map k | k in keys :: k;
      depth := map k | k in keys :: 0;
    }

    /** The representative of `k`; the path to it is flattened, the partition is unchanged. */
    method Find(k: string) returns (r: string)
      requires Valid() && k in root
      modifies this`parent
      ensures Valid() && r == root[k] && r in root && root[r] == r && r in parent && parent[r] == r
      decreases if k in depth then depth[k] else 0
    {
      NodeOf(Tree(parent, root, depth), k);
      hide IsForest;
      if parent[k] == k {
        return k;
      }
      r := Find(parent[k]);
      FlattenedParent(Tree(parent, root, depth), k);
      parent := parent[k := r];
    }

    static lemma FlattenedParent(t: Tree, k: string)
      requires IsForest(t) && k in t.root
      ensures IsForest(t.(parent := t.parent[k := t.root[k]]))
    {
      Flattened(t, k);
    }

    /** Merge the classes of `x` and `y`, and no others. */
    method Union(x: string, y: string)
      requires Valid() && x in root && y in root
      modifies this
      ensures Valid() && root == Joined(old(root), x, y)
    {
      var rx := Find(x);
      var ry := Find(y);
      if rx != ry {
        HungForest(Tree(parent, root, depth), rx, ry);
        hide IsForest;
        ghost var h := Hung(Tree(parent, root, depth), rx, ry);
        parent := parent[ry := rx];
        depth, root := h.depth, h.root;
        assert Joined(old(root), rx, ry) == Joined(old(root), x, y);
      } else {
        assert Joined(root, x, y) == root;
      }
    }
  }
}
