/**
 Masking the values of log attributes (`maskAttrValues` in
 `anonymise/anonymise.go`): the keys are found first, each value is read up to
 where it ends, and nothing is consumed that is not masked.
 */
module AttrMask {
  import opened Text

  /** A stretch of the text, a key's match or a value. */
  datatype Span = Span(lo: nat, hi: nat)

  type Mask = string -> string

  /** The matches of the key pattern, as a regular-expression search yields them: in order and apart. */
  ghost predicate AreMatches(s: string, locs: seq<Span>) {
    && (forall i :: 0 <= i < |locs| ==> locs[i].lo <= locs[i].hi <= |s|)
    && forall i, j :: 0 <= i < j < |locs| ==> locs[i].hi <= locs[j].lo
  }

  // ----- where a value ends -----

  predicate IsBlank(c: char) {
    c == ' ' || c == '\t' || c == '\n' || c == '\r' || c == 12 as char
  }

  predicate IsLetter(c: char) {
    'a' <= c <= 'z' || 'A' <= c <= 'Z'
  }

  predicate IsKeyChar(c: char) {
    IsLetter(c) || '0' <= c <= '9' || c == '_'
  }

  function SkipBlanks(s: string, i: nat): (j: nat)
    requires i <= |s|
    ensures i <= j <= |s|
    decreases |s| - i
  {
    if i < |s| && IsBlank(s[i]) then SkipBlanks(s, i + 1) else i
  }

  function SkipKey(s: string, i: nat): (j: nat)
    requires i <= |s|
    ensures i <= j <= |s|
    decreases |s| - i
  {
    if i < |s| && IsKeyChar(s[i]) then SkipKey(s, i + 1) else i
  }

  /** At `i` stand blanks, the name of the next attribute, and its separator. */
  predicate NextAttribute(s: string, i: nat)
    requires i < |s|
  {
    var k := SkipBlanks(s, i);
    var e := if k < |s| then SkipBlanks(s, SkipKey(s, k)) else k;
    k > i && k < |s| && IsLetter(s[k]) && e < |s| && (s[e] == ':' || s[e] == '=')
  }

  /** Blanks from `i` to `k`, a name from `k` to `m` that begins with a letter, blanks from `m` to `e`, and there a
      colon or an equals sign. */
  ghost predicate AttributeAt(s: string, i: int, k: int, m: int, e: int) {
    && 0 <= i < k < m <= e < |s|
    && (forall x :: i <= x < k || m <= x < e ==> s[x] == ' ' || s[x] as int in {9, 10, 12, 13})
    && ('a' <= s[k] <= 'z' || 'A' <= s[k] <= 'Z')
    && (forall x :: k <= x < m ==> 'a' <= s[x] <= 'z' || 'A' <= s[x] <= 'Z' || '0' <= s[x] <= '9' || s[x] == '_')
    && (s[e] == ':' || s[e] == '=')
  }

  lemma {:induction false} SkipBlanksIs(s: string, i: nat, k: nat)
    requires i <= k <= |s| && (forall x :: i <= x < k ==> IsBlank(s[x])) && (k < |s| ==> !IsBlank(s[k]))
    ensures SkipBlanks(s, i) == k
    decreases k - i
  {
    if i < k { SkipBlanksIs(s, i + 1, k); }
  }

  lemma {:induction false} SkippedBlanks(s: string, i: nat)
    requires i <= |s|
    ensures forall x :: i <= x < SkipBlanks(s, i) ==> IsBlank(s[x])
    decreases |s| - i
  {
    if i < |s| && IsBlank(s[i]) { SkippedBlanks(s, i + 1); }
  }

  lemma {:induction false} SkipKeyIs(s: string, i: nat, k: nat)
    requires i <= k <= |s| && (forall x :: i <= x < k ==> IsKeyChar(s[x])) && (k < |s| ==> !IsKeyChar(s[k]))
    ensures SkipKey(s, i) == k
    decreases k - i
  {
    if i < k { SkipKeyIs(s, i + 1, k); }
  }

  lemma {:induction false} SkippedKey(s: string, i: nat)
    requires i <= |s|
    ensures forall x :: i <= x < SkipKey(s, i) ==> IsKeyChar(s[x])
    decreases |s| - i
  {
    if i < |s| && IsKeyChar(s[i]) { SkippedKey(s, i + 1); }
  }

  /** A value ends before the blanks in front of another attribute exactly where such blanks, a name and its
      separator stand. */
  lemma NextAttributeIs(s: string, i: nat)
    requires i < |s|
    ensures NextAttribute(s, i) <==> exists k, m, e :: AttributeAt(s, i, k, m, e)
  {
    hide SkipBlanks, SkipKey;
    if NextAttribute(s, i) {
      var k := SkipBlanks(s, i);
      var m := SkipKey(s, k);
      SkippedBlanks(s, i);
      SkippedKey(s, k);
      SkippedBlanks(s, m);
      SkipsLetter(s, k);
      assert AttributeAt(s, i, k, m, SkipBlanks(s, m));
    }
    if k, m, e :| AttributeAt(s, i, k, m, e) {
      SkipBlanksIs(s, i, k);
      SkipKeyIs(s, k, m);
      SkipBlanksIs(s, m, e);
    }
  }

  lemma SkipsLetter(s: string, k: nat)
    requires k < |s| && IsLetter(s[k])
    ensures SkipKey(s, k) > k
  {
  }

  /** A value that has come this far ends here. */
  predicate Terminates(s: string, i: nat)
    requires i < |s|
  {
    s[i] == '"' || s[i] == '\n' || NextAttribute(s, i)
  }

  /** Where the value that starts at `p` ends. */
  function ValueEnd(s: string, p: nat): (e: nat)
    requires p <= |s|
    ensures p <= e <= |s|
    ensures forall i :: p <= i < e ==> !Terminates(s, i)
    ensures e < |s| ==> Terminates(s, e)
    decreases |s| - p
  {
    if p == |s| || Terminates(s, p) then p else ValueEnd(s, p + 1)
  }

  /** `e` moved before the backslashes that stand right before it. */
  function BeforeBackslashes(s: string, p: nat, e: nat): (q: nat)
    requires p <= e <= |s|
    ensures p <= q <= e
    ensures forall i :: q <= i < e ==> s[i] == '\\'
    ensures q > p ==> s[q - 1] != '\\'
  {
    if e > p && s[e - 1] == '\\' then BeforeBackslashes(s, p, e - 1) else e
  }

  /** The value that starts at `p`: what is masked. Backslashes that escape the closing quote are not part of it. */
  function ValueAt(s: string, p: nat): (v: Span)
    requires p <= |s|
    ensures v.lo == p <= v.hi <= ValueEnd(s, p)
  {
    var e := ValueEnd(s, p);
    Span(p, if e < |s| && s[e] == '"' then BeforeBackslashes(s, p, e) else e)
  }

  // ----- what the loop computes -----

  /** The end of the last masked value before match `j` is looked at. */
  function PrevAt(s: string, locs: seq<Span>, j: nat): (prev: nat)
    requires j <= |locs| && forall i :: 0 <= i < |locs| ==> locs[i].hi <= |s|
    ensures prev <= |s|
    decreases j, 0
  {
    if j == 0 then 0
    else if IsMasked(s, locs, j - 1) then ValueEnd(s, locs[j - 1].hi)
    else PrevAt(s, locs, j - 1)
  }

  /** Match `j` is taken for a key, and its value masked. */
  predicate IsMasked(s: string, locs: seq<Span>, j: nat)
    requires j < |locs| && forall i :: 0 <= i < |locs| ==> locs[i].hi <= |s|
    decreases j, 1
  {
    PrevAt(s, locs, j) <= locs[j].lo
  }

  /** The masked values of the first `n` matches, in order. */
  function Values(s: string, locs: seq<Span>, n: nat): seq<Span>
    requires n <= |locs| && forall i :: 0 <= i < |locs| ==> locs[i].hi <= |s|
  {
    if n == 0 then []
    else Values(s, locs, n - 1) + if IsMasked(s, locs, n - 1) then [ValueAt(s, locs[n - 1].hi)] else []
  }

  /** The values stand in order inside the first `end` bytes of the text. */
  ghost predicate Apart(values: seq<Span>, end: nat) {
    && (forall i :: 0 <= i < |values| ==> values[i].lo <= values[i].hi <= end)
    && forall i, j :: 0 <= i < j < |values| ==> values[i].hi <= values[j].lo
  }

  /** The first `end` bytes of the text with each value replaced by its mask, and nothing else changed. */
  ghost function Replaced(s: string, values: seq<Span>, mask: Mask, end: nat): string
    requires Apart(values, end) && end <= |s|
  {
    if values == [] then s[..end]
    else
      var n := |values| - 1;
      Replaced(s, values[..n], mask, values[n].lo) + mask(s[values[n].lo..values[n].hi]) + s[values[n].hi..end]
  }

  lemma {:induction false} ValuesApart(s: string, locs: seq<Span>, n: nat)
    requires AreMatches(s, locs) && n <= |locs|
    ensures Apart(Values(s, locs, n), PrevAt(s, locs, n))
    ensures Values(s, locs, n) == [] ==> PrevAt(s, locs, n) == 0
    ensures Values(s, locs, n) != [] ==> Values(s, locs, n)[|Values(s, locs, n)| - 1].hi <= PrevAt(s, locs, n)
  {
    if n > 0 { ValuesApart(s, locs, n - 1); }
    hide Terminates, ValueEnd, ValueAt;
  }

  lemma ReplacedMore(s: string, values: seq<Span>, mask: Mask, prev: nat, v: Span, end: nat)
    requires Apart(values, prev) && prev <= v.lo <= v.hi <= end <= |s|
    ensures Apart(values + [v], end)
    ensures Replaced(s, values + [v], mask, end) ==
            Replaced(s, values, mask, prev) + s[prev..v.lo] + mask(s[v.lo..v.hi]) + s[v.hi..end]
  {
    assert (values + [v])[..|values|] == values;
    ReplacedUpTo(s, values, mask, prev, v.lo);
  }

  lemma ReplacedUpTo(s: string, values: seq<Span>, mask: Mask, a: nat, b: nat)
    requires Apart(values, a) && a <= b <= |s|
    ensures Apart(values, b) && Replaced(s, values, mask, b) == Replaced(s, values, mask, a) + s[a..b]
  {
    if values == [] {
      assert s[..b] == s[..a] + s[a..b];
    } else {
      var v := values[|values| - 1];
      assert s[v.hi..b] == s[v.hi..a] + s[a..b];
    }
  }

  /** The loop: each key's value is masked, unless the key stands inside the value masked before. */
  method MaskAttrValues(s: string, locs: seq<Span>, mask: Mask) returns (out: string)
    requires AreMatches(s, locs)
    ensures Apart(Values(s, locs, |locs|), |s|) && out == Replaced(s, Values(s, locs, |locs|), mask, |s|)
  {
    hide Terminates, ValueEnd, ValueAt, Apart, Replaced;
    if |locs| == 0 {
      ReplacedNone(s, mask);
      return s;
    }
    out := "";
    var prev := 0;
    ReplacedNone(s, mask);
    ghost var values: seq<Span> := [];
    for i := 0 to |locs|
      invariant prev == PrevAt(s, locs, i) && prev <= |s|
      invariant values == Values(s, locs, i)
      invariant Apart(values, prev) && out == Replaced(s, values, mask, prev)
    {
      var loc := locs[i];
      if loc.lo < prev {
        continue;
      }
      out := out + s[prev..loc.hi];
      var end := FindValueEnd(s, loc.hi);
      var valEnd := end;
      if end < |s| && s[end] == '"' {
        valEnd := BeforeBackslashes(s, loc.hi, end);
      }
      ValueIs(s, loc.hi, end, valEnd);
      out := out + mask(s[loc.hi..valEnd]) + s[valEnd..end];
      ReplacedMore(s, values, mask, prev, Span(loc.hi, valEnd), end);
      values := values + [Span(loc.hi, valEnd)];
      prev := end;
    }
    ReplacedUpTo(s, values, mask, prev, |s|);
    out := out + s[prev..];
    assert s[prev..] == s[prev..|s|];
  }

  lemma ReplacedNone(s: string, mask: Mask)
    ensures Apart([], 0) && Apart([], |s|) && Replaced(s, [], mask, 0) == "" && Replaced(s, [], mask, |s|) == s
  {
    assert s[..|s|] == s;
  }

  lemma ValueIs(s: string, p: nat, end: nat, valEnd: nat)
    requires p <= |s| && end == ValueEnd(s, p)
    requires valEnd == if end < |s| && s[end] == '"' then BeforeBackslashes(s, p, end) else end
    ensures ValueAt(s, p) == Span(p, valEnd)
  {
  }

  /** The nearest quote, line end or next attribute. */
  method FindValueEnd(s: string, p: nat) returns (end: nat)
    requires p <= |s|
    ensures end == ValueEnd(s, p)
  {
    hide Terminates;
    end := p;
    while end < |s| && !Terminates(s, end)
      invariant p <= end <= |s|
      invariant forall i :: p <= i < end ==> !Terminates(s, i)
    {
      end := end + 1;
    }
    var e := ValueEnd(s, p);
    assert !(e < end) && !(end < e);
  }

  // ----- what that means -----

  /** With a mask that changes nothing the text is unchanged: the loop loses and adds nothing of its own. */
  lemma {:induction false} NothingLost(s: string, values: seq<Span>, mask: Mask, end: nat)
    requires Apart(values, end) && end <= |s| && forall v: string :: mask(v) == v
    ensures Replaced(s, values, mask, end) == s[..end]
    decreases |values|
  {
    if values != [] {
      var n := |values| - 1;
      var v := values[n];
      NothingLost(s, values[..n], mask, v.lo);
      assert s[..v.hi] == s[..v.lo] + s[v.lo..v.hi];
      assert s[..end] == s[..v.hi] + s[v.hi..end];
    }
  }

  /** A value holds no quote and no line end, and no other attribute begins in it. */
  lemma ValueIsOne(s: string, p: nat, i: nat)
    requires p <= |s| && p <= i < ValueAt(s, p).hi
    ensures s[i] != '"' && s[i] != '\n' && !NextAttribute(s, i)
  {
    assert !Terminates(s, i);
  }

  /** Of a key's value up to its end nothing is left unmasked but the backslashes of an escaped quote. */
  lemma ValueIsWhole(s: string, p: nat, i: nat)
    requires p <= |s| && ValueAt(s, p).hi <= i < ValueEnd(s, p)
    ensures s[i] == '\\' && s[ValueEnd(s, p)] == '"'
  {
    hide Terminates;
  }

  /** The last key masked before match `j`. */
  ghost predicate LastBefore(s: string, locs: seq<Span>, k: nat, j: nat)
    requires k < j < |locs| && AreMatches(s, locs)
  {
    IsMasked(s, locs, k) && forall i :: k < i < j ==> !IsMasked(s, locs, i)
  }

  lemma {:induction false} PrevIs(s: string, locs: seq<Span>, k: nat, j: nat)
    requires k < j < |locs| && AreMatches(s, locs) && LastBefore(s, locs, k, j)
    ensures PrevAt(s, locs, j) == ValueEnd(s, locs[k].hi)
    decreases j
  {
    hide Terminates, ValueEnd;
    if j > k + 1 { PrevIs(s, locs, k, j - 1); }
  }

  /**
   A match is masked exactly if the value of the last key masked before it ends
   before it: at a quote, a line end or the blanks before another attribute.
   Otherwise it stands inside that value, which is masked as a whole.
   */
  lemma MaskedExactlyWhen(s: string, locs: seq<Span>, k: nat, j: nat)
    requires k < j < |locs| && AreMatches(s, locs) && LastBefore(s, locs, k, j) && locs[j].lo < |s|
    ensures IsMasked(s, locs, j) <==> exists i :: locs[k].hi <= i <= locs[j].lo && Terminates(s, i)
  {
    hide Terminates;
    PrevIs(s, locs, k, j);
  }

  /** The first match is always masked. */
  lemma FirstIsMasked(s: string, locs: seq<Span>)
    requires AreMatches(s, locs) && locs != []
    ensures IsMasked(s, locs, 0)
  {
  }

  /** Where the last value before `j` ends, a value that began earlier has ended too. */
  lemma {:induction false} PrevBound(s: string, locs: seq<Span>, j: nat, i: nat)
    requires 0 < j < |locs| && AreMatches(s, locs) && locs[j - 1].hi <= i < |s| && Terminates(s, i)
    ensures PrevAt(s, locs, j) <= i
    decreases j
  {
    hide Terminates;
    if !IsMasked(s, locs, j - 1) && j > 1 { PrevBound(s, locs, j - 1, i); }
  }

  /** Two attributes side by side are both masked: the second is never eaten by the value of the first. */
  lemma NeighbourIsMasked(s: string, locs: seq<Span>, j: nat, i: nat)
    requires 0 < j < |locs| && AreMatches(s, locs)
    requires locs[j - 1].hi <= i <= locs[j].lo && i < |s| && Terminates(s, i)
    ensures IsMasked(s, locs, j)
  {
    hide Terminates;
    PrevBound(s, locs, j, i);
  }

  /** The last match before `j` that is masked: there is one, for the first always is. */
  lemma {:induction false} SomeMasked(s: string, locs: seq<Span>, j: nat) returns (k: nat)
    requires 0 < j < |locs| && AreMatches(s, locs)
    ensures k < j && LastBefore(s, locs, k, j)
    decreases j
  {
    hide Terminates, ValueEnd;
    if IsMasked(s, locs, j - 1) {
      k := j - 1;
    } else {
      FirstIsMasked(s, locs);
      k := SomeMasked(s, locs, j - 1);
    }
  }

  /** Match `j` stands inside the one value masked for key `k`, with no quote, line end or other attribute in
      between, or on a backslash that escapes the quote that closes it. */
  ghost predicate InsideValue(s: string, locs: seq<Span>, k: nat, j: nat)
    requires k < j < |locs| && AreMatches(s, locs) && locs[j].lo < |s|
  {
    var v := ValueAt(s, locs[k].hi);
    && IsMasked(s, locs, k) && v.lo <= locs[j].lo
    && (locs[j].lo < v.hi || (locs[j].lo < ValueEnd(s, v.lo) && s[locs[j].lo] == '\\'))
    && forall i :: v.lo <= i <= locs[j].lo && i < v.hi ==> s[i] != '"' && s[i] != '\n' && !NextAttribute(s, i)
  }

  /** No match is overlooked: each is masked itself or stands inside the masked value of an earlier one. */
  lemma MaskedOrInside(s: string, locs: seq<Span>, j: nat)
    requires j < |locs| && AreMatches(s, locs) && locs[j].lo < |s|
    ensures IsMasked(s, locs, j) || exists k :: 0 <= k < j && InsideValue(s, locs, k, j)
  {
    hide Terminates, ValueEnd, ValueAt, NextAttribute;
    if j == 0 {
      FirstIsMasked(s, locs);
    } else if !IsMasked(s, locs, j) {
      var k := SomeMasked(s, locs, j);
      PrevIs(s, locs, k, j);
      var v := ValueAt(s, locs[k].hi);
      forall i | v.lo <= i < v.hi ensures s[i] != '"' && s[i] != '\n' && !NextAttribute(s, i) {
        ValueIsOne(s, v.lo, i);
      }
      if locs[j].lo >= v.hi { ValueIsWhole(s, v.lo, locs[j].lo); }
      assert InsideValue(s, locs, k, j);
    }
  }

  // ----- the mask of an account -----

  predicate IsToken(v: string) {
    "ACCT#" <= v || "NAME#" <= v || "UUID#" <= v || "DEV#" <= v || "MAC#" <= v || "HOST#" <= v
  }

  /** One account value: left as it is when empty or already a token, else its token. The hash is any function. */
  function MaskAccountValue(hash: Mask, redacted: string, v: string): string {
    var t := TrimSpace(v);
    if t == "" || t == redacted || t == "<REDACTED>" || t == "<user>" || IsToken(t) then v
    else "ACCT#" + hash(Fold(t))
  }

  /** The six beginnings of a token. */
  ghost predicate Begins(t: string, p: string) {
    p in {"ACCT#", "NAME#", "UUID#", "DEV#", "MAC#", "HOST#"} && |p| <= |t| && t[..|p|] == p
  }

  /** The value is empty but for white space, one of the placeholders, or begins as a token does. */
  ghost predicate Placeholder(v: string, redacted: string) {
    exists t :: Trimmed(t, v) && (t in {"", redacted, "<REDACTED>", "<user>"} || exists p :: Begins(t, p))
  }

  /** `u` is the value without the white space around it, in lower case. */
  ghost predicate LowerCase(u: string, v: string) {
    exists t :: Trimmed(t, v) && |u| == |t|
                && forall i :: 0 <= i < |u| ==> SameLetter(u[i], t[i]) && !('A' <= u[i] <= 'Z')
  }

  /** Exactly a placeholder is left as it is; any other value becomes the token of its lower-case text, which is
      the same whatever the case and the white space around it. */
  lemma MaskedExactlyUnless(hash: Mask, redacted: string, v: string, w: string)
    ensures if Placeholder(v, redacted) then MaskAccountValue(hash, redacted, v) == v
            else exists u :: LowerCase(u, v) && MaskAccountValue(hash, redacted, v) == "ACCT#" + hash(u)
    ensures !Placeholder(v, redacted) && !Placeholder(w, redacted) && EqualFold(TrimSpace(v), TrimSpace(w))
            ==> MaskAccountValue(hash, redacted, v) == MaskAccountValue(hash, redacted, w)
  {
    PlaceholderIs(v, redacted);
    PlaceholderIs(w, redacted);
    LowerCaseIs(v);
    hide Placeholder, TrimSpace, IsToken, Fold, LowerCase;
  }

  lemma LowerCaseIs(v: string)
    ensures LowerCase(Fold(TrimSpace(v)), v)
  {
    TrimSpaceIs(v, TrimSpace(v));
    hide TrimSpace, Trimmed;
  }

  lemma PlaceholderIs(v: string, redacted: string)
    ensures var t := TrimSpace(v);
            Placeholder(v, redacted) <==> t in {"", redacted, "<REDACTED>", "<user>"} || IsToken(t)
  {
    var t := TrimSpace(v);
    forall x ensures Trimmed(x, v) <==> x == t { TrimSpaceIs(v, x); }
    assert Trimmed(t, v);
    TokenIs(t);
    hide Trimmed, TrimSpace, IsToken, Begins;
  }

  lemma TokenIs(x: string)
    ensures IsToken(x) <==> exists p :: Begins(x, p)
  {
    if IsToken(x) {
      assert Begins(x, "ACCT#") || Begins(x, "NAME#") || Begins(x, "UUID#") || Begins(x, "DEV#") || Begins(x, "MAC#")
             || Begins(x, "HOST#");
    }
  }

  lemma {:induction false} TrimRightKeeps(p: string, s: string)
    requires p != "" && !IsSpace(p[|p| - 1]) && p <= s
    ensures p <= TrimRight(s)
    decreases |s|
  {
    if s != "" && IsSpace(s[|s| - 1]) {
      assert |s| > |p|;
      TrimRightKeeps(p, s[..|s| - 1]);
    }
  }

  /** A token stays that token through any number of passes. */
  lemma MaskingTwice(hash: Mask, redacted: string, v: string)
    ensures MaskAccountValue(hash, redacted, MaskAccountValue(hash, redacted, v)) == MaskAccountValue(hash, redacted, v)
  {
    var m := MaskAccountValue(hash, redacted, v);
    if m != v {
      assert TrimLeft(m) == m;
      TrimRightKeeps("ACCT#", m);
    }
  }
}
