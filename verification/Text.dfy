/**
 The handful of string operations the discovery code relies on. A string is
 the sequence of its bytes, one `char` per byte; case folding and white space
 are those of ASCII, which is all a device id, an address or an agent name uses.
 */
module Text {

  predicate IsSpace(c: char) {
    c == ' ' || c == '\t' || c == '\n' || c == '\r' || c == 11 as char || c == 12 as char
  }

  function TrimLeft(s: string): (r: string)
    ensures r == "" || !IsSpace(r[0])
    ensures |r| <= |s|
  {
    if s != "" && IsSpace(s[0]) then TrimLeft(s[1..]) else s
  }

  function TrimRight(s: string): (r: string)
    ensures r == "" || !IsSpace(r[|r| - 1])
    ensures r <= s
  {
    if s != "" && IsSpace(s[|s| - 1]) then TrimRight(s[..|s| - 1]) else s
  }

  /** The string without the white space at either end. */
  function TrimSpace(s: string): string {
    TrimRight(TrimLeft(s))
  }

  function FoldChar(c: char): char {
    if 'A' <= c <= 'Z' then (c as int + 32) as char else c
  }

  /** The case-folded form two ids are compared by. */
  function Fold(s: string): string {
    seq(|s|, i requires 0 <= i < |s| => FoldChar(s[i]))
  }

  predicate EqualFold(a: string, b: string) {
    Fold(a) == Fold(b)
  }

  /** The pieces of `s` between commas, at least one. */
  function SplitComma(s: string): (parts: seq<string>)
    ensures |parts| >= 1
    decreases |s|
  {
    if s == "" then [""]
    else
      var rest := SplitComma(s[1..]);
      if s[0] == ',' then [""] + rest else [[s[0]] + rest[0]] + rest[1..]
  }

  /** The non-empty trimmed pieces of a comma-joined address list. */
  function SplitAddrList(s: string): (addrs: seq<string>)
    ensures forall a :: a in addrs ==> a != ""
  {
    NonEmptyTrimmed(SplitComma(s))
  }

  function NonEmptyTrimmed(parts: seq<string>): (addrs: seq<string>)
    ensures forall a :: a in addrs ==> a != ""
  {
    if parts == [] then []
    else
      var p := TrimSpace(parts[0]);
      (if p == "" then [] else [p]) + NonEmptyTrimmed(parts[1..])
  }

  // ----- what these are -----

  /** White space: the blank and the codes 9 to 13. */
  predicate Blank(c: char) {
    c == ' ' || 9 <= c as int <= 13
  }

  /** `a` is the part of `p` between the white space at its ends. */
  ghost predicate Trimmed(a: string, p: string) {
    exists i, j :: TrimmedAt(a, p, i, j)
  }

  ghost predicate TrimmedAt(a: string, p: string, i: int, j: int) {
    && 0 <= i <= j <= |p| && a == p[i..j]
    && (forall k :: 0 <= k < i ==> Blank(p[k])) && (forall k :: j <= k < |p| ==> Blank(p[k]))
    && (i < j ==> !Blank(p[i]) && !Blank(p[j - 1]))
  }

  lemma {:induction false} TrimLeftIs(s: string)
    ensures TrimLeft(s) == s[|s| - |TrimLeft(s)|..]
    ensures forall k :: 0 <= k < |s| - |TrimLeft(s)| ==> Blank(s[k])
    decreases |s|
  {
    if s != "" && IsSpace(s[0]) { TrimLeftIs(s[1..]); }
  }

  lemma {:induction false} TrimRightIs(s: string)
    ensures forall k :: |TrimRight(s)| <= k < |s| ==> Blank(s[k])
    decreases |s|
  {
    if s != "" && IsSpace(s[|s| - 1]) { TrimRightIs(s[..|s| - 1]); }
  }

  lemma TrimSpaceAt(p: string) returns (i: int, j: int)
    ensures TrimmedAt(TrimSpace(p), p, i, j)
  {
    var l := TrimLeft(p);
    var r := TrimRight(l);
    i, j := |p| - |l|, |p| - |l| + |r|;
    TrimLeftIs(p);
    TrimRightIs(l);
    hide TrimLeft, TrimRight;
    assert r == p[i..j];
    forall k | j <= k < |p| ensures Blank(p[k]) { assert p[k] == l[k - i]; }
  }

  /** Trimming takes the white space off both ends, and nothing else. */
  lemma TrimSpaceIs(p: string, a: string)
    ensures Trimmed(a, p) <==> a == TrimSpace(p)
  {
    var i, j := TrimSpaceAt(p);
    hide TrimSpace, TrimmedAt;
    if Trimmed(a, p) {
      var m, n :| TrimmedAt(a, p, m, n);
      TrimmedOnce(p, TrimSpace(p), i, j, a, m, n);
    }
  }

  lemma TrimmedOnce(p: string, a: string, i: int, j: int, b: string, m: int, n: int)
    requires TrimmedAt(a, p, i, j) && TrimmedAt(b, p, m, n)
    ensures a == b
  {
    if i < j { assert m <= i && j <= n && m < n; }
    if m < n { assert i <= m && n <= j; }
  }

  /** The stretch of `s` from `i` to `j` stands between two commas or the ends, and holds none. */
  ghost predicate Piece(s: string, i: int, j: int) {
    && 0 <= i <= j <= |s| && (i == 0 || s[i - 1] == ',') && (j == |s| || s[j] == ',')
    && forall k :: i <= k < j ==> s[k] != ','
  }

  /** The first piece ends at the first comma; the others are the pieces of what follows it. */
  lemma {:induction false} SplitFirst(s: string, n: nat)
    requires n <= |s| && (n < |s| ==> s[n] == ',') && forall k :: 0 <= k < n ==> s[k] != ','
    ensures SplitComma(s) == [s[..n]] + if n == |s| then [] else SplitComma(s[n + 1..])
    decreases |s|
  {
    if n > 0 {
      SplitFirst(s[1..], n - 1);
      assert [s[0]] + s[1..][..n - 1] == s[..n];
      if n < |s| { assert s[1..][n..] == s[n + 1..]; }
    } else if s != "" {
      assert s[1..] == s[n + 1..];
    }
  }

  function FirstComma(s: string): (n: nat)
    ensures n <= |s| && (n < |s| ==> s[n] == ',') && forall k :: 0 <= k < n ==> s[k] != ','
  {
    if s == "" || s[0] == ',' then 0 else 1 + FirstComma(s[1..])
  }

  ghost predicate IsPiece(s: string, p: string) {
    exists i, j :: Piece(s, i, j) && s[i..j] == p
  }

  lemma {:induction false} PiecesAre(s: string, p: string)
    ensures p in SplitComma(s) <==> IsPiece(s, p)
    decreases |s|
  {
    var n := FirstComma(s);
    SplitFirst(s, n);
    assert Piece(s, 0, n);
    if n < |s| { PiecesAre(s[n + 1..], p); }
    hide SplitComma;
    PiecesFrom(s, n, p);
  }

  /** The pieces are the one up to the first comma and those after it. */
  lemma PiecesFrom(s: string, n: nat, p: string)
    requires n <= |s| && (n < |s| ==> s[n] == ',') && forall k :: 0 <= k < n ==> s[k] != ','
    ensures IsPiece(s, p) <==> p == s[..n] || (n < |s| && IsPiece(s[n + 1..], p))
  {
    assert Piece(s, 0, n) && s[0..n] == s[..n];
    if n < |s| && IsPiece(s[n + 1..], p) {
      var i, j :| Piece(s[n + 1..], i, j) && s[n + 1..][i..j] == p;
      PieceShifted(s, n + 1, i, j);
    }
    if IsPiece(s, p) {
      var i, j :| Piece(s, i, j) && s[i..j] == p;
      if i == 0 {
        assert !(n < j) && !(j < n);
      } else {
        assert s[i - 1] == ',' && n < i;
        PieceShifted(s, n + 1, i - n - 1, j - n - 1);
      }
    }
  }

  lemma PieceShifted(s: string, d: nat, i: int, j: int)
    requires 0 <= i && 0 < d <= |s| && s[d - 1] == ','
    ensures Piece(s[d..], i, j) <==> Piece(s, d + i, d + j)
    ensures Piece(s[d..], i, j) ==> s[d..][i..j] == s[d + i..d + j]
  {
    var t := s[d..];
    assert forall k :: 0 <= k < |t| ==> t[k] == s[d + k];
    assert Piece(s, d + i, d + j) ==> forall k :: i <= k < j ==> t[k] == s[d + k];
    if Piece(t, i, j) {
      forall k | d + i <= k < d + j ensures s[k] != ',' { assert s[k] == t[k - d]; }
    }
  }

  /** The pieces joined by commas. */
  function CommaJoined(parts: seq<string>): string
    requires parts != []
  {
    if |parts| == 1 then parts[0] else parts[0] + "," + CommaJoined(parts[1..])
  }

  /** No piece holds a comma, and joined by commas they are the list again. */
  lemma {:induction false} SplitJoins(s: string)
    ensures CommaJoined(SplitComma(s)) == s && forall p :: p in SplitComma(s) ==> ',' !in p
    decreases |s|
  {
    var n := FirstComma(s);
    SplitFirst(s, n);
    if n < |s| {
      SplitJoins(s[n + 1..]);
      assert s == s[..n] + "," + s[n + 1..];
    }
  }

  /** The comma-joined list names `a`: without its white space it is one of the pieces. */
  ghost predicate Reported(list: string, a: string) {
    a != "" && exists i, j :: Piece(list, i, j) && Trimmed(a, list[i..j])
  }

  lemma {:induction false} NonEmptyTrimmedIs(parts: seq<string>, a: string)
    ensures a in NonEmptyTrimmed(parts) <==> a != "" && exists p :: p in parts && TrimSpace(p) == a
  {
    if parts != [] { NonEmptyTrimmedIs(parts[1..], a); }
  }

  /** The addresses of a report are exactly the ones it names between its commas. */
  lemma ReportedExactly(list: string, a: string)
    ensures a in SplitAddrList(list) <==> Reported(list, a)
  {
    NonEmptyTrimmedIs(SplitComma(list), a);
    forall p ensures p in SplitComma(list) <==> IsPiece(list, p) { PiecesAre(list, p); }
    forall p ensures Trimmed(a, p) <==> a == TrimSpace(p) { TrimSpaceIs(p, a); }
    hide Piece, Trimmed, SplitComma, TrimSpace;
  }

  /** They come in the order of the report. */
  lemma ReportedInOrder(p: string, rest: string, a: string)
    requires ',' !in p && Trimmed(a, p)
    ensures var first := if a == "" then [] else [a];
            SplitAddrList(p) == first && SplitAddrList(p + "," + rest) == first + SplitAddrList(rest)
  {
    var s := p + "," + rest;
    SplitFirst(p, |p|);
    SplitFirst(s, |p|);
    TrimSpaceIs(p, a);
    assert p[..|p|] == s[..|p|] == p && s[|p| + 1..] == rest;
    assert SplitComma(p) == [p] && NonEmptyTrimmed([p][1..]) == [];
    assert SplitComma(s)[1..] == SplitComma(rest);
    hide SplitComma, TrimSpace;
  }

  /** The two are one ASCII letter, or the same character. */
  predicate SameLetter(a: char, b: char) {
    || a == b
    || ('A' <= a <= 'Z' && b as int == a as int + 32)
    || ('A' <= b <= 'Z' && a as int == b as int + 32)
  }

  /** Two strings are equal but for case exactly if they are so letter by letter. */
  lemma EqualFoldIs(a: string, b: string)
    ensures EqualFold(a, b) <==> |a| == |b| && forall i :: 0 <= i < |a| ==> SameLetter(a[i], b[i])
  {
    if EqualFold(a, b) {
      assert |Fold(a)| == |Fold(b)|;
      forall i | 0 <= i < |a| ensures SameLetter(a[i], b[i]) {
        assert Fold(a)[i] == Fold(b)[i];
      }
    }
  }

  /** The text is white space throughout. */
  predicate AllBlank(s: string) {
    forall k :: 0 <= k < |s| ==> Blank(s[k])
  }
}
