/**
 The byte order of strings and sequences sorted by it: what `sort.Strings`
 leaves, and why a sorted list is determined by its elements.
 */
module SortedStrings {

  /** Go's order on strings: byte by byte, a prefix first. */
  predicate Less(a: string, b: string) {
    if b == "" then false
    else if a == "" then true
    else a[0] < b[0] || (a[0] == b[0] && Less(a[1..], b[1..]))
  }

  lemma {:induction false} LessTotal(a: string, b: string)
    ensures (if a == b then 1 else 0) + (if Less(a, b) then 1 else 0) + (if Less(b, a) then 1 else 0) == 1
  {
    if a != "" && b != "" && a[0] == b[0] {
      LessTotal(a[1..], b[1..]);
      assert a == [a[0]] + a[1..] && b == [b[0]] + b[1..];
    }
  }

  /** `a` stops where `b` goes on, or is the smaller where they first differ. */
  lemma {:induction false} LessIs(a: string, b: string)
    ensures Less(a, b) <==>
            exists n :: 0 <= n <= |a| && n < |b| && a[..n] == b[..n] && (n == |a| || a[n] < b[n])
  {
    if b != "" {
      assert a[..0] == b[..0];
      if a != "" && a[0] == b[0] {
        var c, d := a[1..], b[1..];
        LessIs(c, d);
        forall n | 0 <= n <= |c| && n < |d| ensures c[..n] == d[..n] <==> a[..n + 1] == b[..n + 1] {
          assert a[..n + 1] == [a[0]] + c[..n] && b[..n + 1] == [b[0]] + d[..n];
          if a[..n + 1] == b[..n + 1] { assert c[..n] == a[..n + 1][1..] && d[..n] == b[..n + 1][1..]; }
        }
        if n :| 0 <= n <= |a| && n < |b| && a[..n] == b[..n] && (n == |a| || a[n] < b[n]) {
          assert n > 0 && c[..n - 1] == d[..n - 1];
        }
        if n :| 0 <= n <= |c| && n < |d| && c[..n] == d[..n] && (n == |c| || c[n] < d[n]) {
          assert a[..n + 1] == b[..n + 1];
        }
      } else if a != "" {
        forall n | 0 < n <= |a| && n < |b| ensures a[..n] != b[..n] {
          assert a[..n][0] == a[0] && b[..n][0] == b[0];
        }
      }
    }
  }

  lemma {:induction false} LessTrans(a: string, b: string, c: string)
    requires Less(a, b) && Less(b, c)
    ensures Less(a, c)
  {
    if a != "" && b != "" && c != "" && a[0] == b[0] == c[0] { LessTrans(a[1..], b[1..], c[1..]); }
  }

  ghost predicate Sorted(s: seq<string>) {
    forall i, j :: 0 <= i < j < |s| ==> Less(s[i], s[j])
  }

  /** A sequence with its elements in the order of their keys, no two keys alike. */
  ghost predicate SortedBy<T>(s: seq<T>, key: T -> string) {
    forall i, j :: 0 <= i < j < |s| ==> Less(key(s[i]), key(s[j]))
  }

  lemma FirstIsLeast<T>(s: seq<T>, key: T -> string, x: T)
    requires SortedBy(s, key) && x in s && x != s[0]
    ensures Less(key(s[0]), key(x))
  {
    var i :| 0 <= i < |s| && s[i] == x;
  }

  /** A sorted list is determined by its elements. */
  lemma {:induction false} SortedUnique<T(!new)>(a: seq<T>, b: seq<T>, key: T -> string)
    requires SortedBy(a, key) && SortedBy(b, key)
    requires forall x :: x in a <==> x in b
    ensures a == b
  {
    assert a != [] ==> a[0] in b;
    assert b != [] ==> b[0] in a;
    if a != [] {
      SameFirst(a, b, key);
      forall x ensures x in a[1..] <==> x in b[1..] {
        InTail(a, key, x);
        InTail(b, key, x);
      }
      SortedUnique(a[1..], b[1..], key);
      assert a == [a[0]] + a[1..] && b == [b[0]] + b[1..];
    }
  }

  lemma SameFirst<T(!new)>(a: seq<T>, b: seq<T>, key: T -> string)
    requires SortedBy(a, key) && SortedBy(b, key) && a != [] && b != []
    requires forall x :: x in a <==> x in b
    ensures a[0] == b[0]
  {
    assert a[0] in b && b[0] in a;
    if a[0] != b[0] {
      FirstIsLeast(b, key, a[0]);
      FirstIsLeast(a, key, b[0]);
      LessTotal(key(a[0]), key(b[0]));
    }
  }

  lemma InTail<T>(a: seq<T>, key: T -> string, x: T)
    requires SortedBy(a, key) && a != []
    ensures x in a[1..] <==> x in a && x != a[0]
  {
    LessTotal(key(a[0]), key(a[0]));
    assert a == [a[0]] + a[1..];
    assert forall i :: 1 <= i < |a| ==> Less(key(a[0]), key(a[i]));
  }

  /** The place of `x`: everything before it is smaller, everything from there on greater. */
  lemma InsertedSorted<T>(s: seq<T>, key: T -> string, x: T, i: nat)
    requires SortedBy(s, key) && i <= |s|
    requires forall j :: 0 <= j < i ==> Less(key(s[j]), key(x))
    requires i < |s| ==> Less(key(x), key(s[i]))
    ensures SortedBy(s[..i] + [x] + s[i..], key)
  {
    var r := s[..i] + [x] + s[i..];
    forall j | i < j < |s| ensures Less(key(x), key(s[j])) { LessTrans(key(x), key(s[i]), key(s[j])); }
    forall a, b | 0 <= a < b < |r| ensures Less(key(r[a]), key(r[b])) {
      var at := if a < i then s[a] else if a == i then x else s[a - 1];
      var bt := if b < i then s[b] else if b == i then x else s[b - 1];
      assert r[a] == at && r[b] == bt;
    }
  }

  method InsertBy<T>(s: seq<T>, key: T -> string, x: T) returns (r: seq<T>)
    requires SortedBy(s, key) && forall y :: y in s ==> key(y) != key(x)
    ensures SortedBy(r, key) && (forall y :: y in r <==> y in s || y == x)
  {
    hide Less;
    var i := 0;
    while i < |s| && Less(key(s[i]), key(x))
      invariant 0 <= i <= |s|
      invariant forall j :: 0 <= j < i ==> Less(key(s[j]), key(x))
    {
      i := i + 1;
    }
    if i < |s| { LessTotal(key(s[i]), key(x)); }
    InsertedSorted(s, key, x, i);
    r := s[..i] + [x] + s[i..];
    assert s == s[..i] + s[i..];
  }

  /** The keys of a set in their order. */
  method SortKeys(keys: set<string>) returns (s: seq<string>)
    ensures Sorted(s) && forall k :: k in s <==> k in keys
  {
    s := [];
    var todo := keys;
    while todo != {}
      invariant todo <= keys && SortedBy(s, (k: string) => k)
      invariant forall k :: k in s <==> k in keys - todo
    {
      var k :| k in todo;
      s := InsertBy(s, (k: string) => k, k);
      todo := todo - {k};
    }
    var id := (k: string) => k;
    assert forall i, j :: 0 <= i < j < |s| ==> Less(id(s[i]), id(s[j]));
  }
}
