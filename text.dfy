/**
 * The string operations the editor and the server rely on: JavaScript's
 * `trim`, `split` and `join`, Python's `str.split`, `lower`, `startswith`,
 * `in` and `replace`. Strings are sequences of characters.
 */
module Text {

  /** The characters JavaScript's `String.prototype.trim` removes: white space and line terminators. */
  predicate IsSpace(c: char) {
    || c == ' ' || c == '\t' || c == '\n' || c == '\r' || c == '\U{000B}' || c == '\U{000C}'
    || c == '\U{00A0}' || c == '\U{1680}' || ('\U{2000}' <= c <= '\U{200A}')
    || c == '\U{2028}' || c == '\U{2029}' || c == '\U{202F}' || c == '\U{205F}'
    || c == '\U{3000}' || c == '\U{FEFF}'
  }

  /** No white space at either end. */
  predicate IsTrimmed(s: string) {
    s == [] || (!IsSpace(s[0]) && !IsSpace(s[|s| - 1]))
  }

  /** Every character of `t` is white space. */
  predicate AllSpace(t: string) {
    t == [] || (IsSpace(t[0]) && AllSpace(t[1..]))
  }

  /** `s` with its leading white space removed. */
  function TrimStart(s: string): (r: string)
    ensures |r| <= |s| && r == s[|s| - |r|..]
    ensures r == [] || !IsSpace(r[0])
  {
    if |s| > 0 && IsSpace(s[0]) then TrimStart(s[1..]) else s
  }

  /** `s` with its trailing white space removed. */
  function TrimEnd(s: string): (r: string)
    ensures |r| <= |s| && r == s[..|r|]
    ensures r == [] || !IsSpace(r[|r| - 1])
  {
    if |s| > 0 && IsSpace(s[|s| - 1]) then TrimEnd(s[..|s| - 1]) else s
  }

  /** What `TrimStart` cuts off is white space. */
  lemma {:induction false} TrimStartCuts(s: string)
    ensures AllSpace(s[..|s| - |TrimStart(s)|])
  {
    if |s| > 0 && IsSpace(s[0]) {
      TrimStartCuts(s[1..]);
      SpacesGrowAtStart(s, |s| - |TrimStart(s)| - 1);
    }
  }

  /** What `TrimEnd` cuts off is white space. */
  lemma {:induction false} TrimEndCuts(s: string)
    ensures AllSpace(s[|TrimEnd(s)|..])
  {
    if |s| > 0 && IsSpace(s[|s| - 1]) {
      TrimEndCuts(s[..|s| - 1]);
      SpacesGrowAtEnd(s, |TrimEnd(s)|);
    }
  }

  lemma SpacesGrowAtStart(s: string, n: nat)
    requires n < |s| && IsSpace(s[0]) && AllSpace(s[1..][..n])
    ensures AllSpace(s[..n + 1])
  {
    assert s[..n + 1][1..] == s[1..][..n];
  }

  lemma SpacesGrowAtEnd(s: string, n: nat)
    requires n < |s| && IsSpace(s[|s| - 1]) && AllSpace(s[..|s| - 1][n..])
    ensures AllSpace(s[n..])
  {
    assert s[n..] == s[..|s| - 1][n..] + [s[|s| - 1]];
    AllSpaceSnoc(s[..|s| - 1][n..], s[|s| - 1]);
  }

  lemma {:induction false} AllSpaceSnoc(u: string, c: char)
    requires AllSpace(u) && IsSpace(c)
    ensures AllSpace(u + [c])
  {
    if u != [] {
      assert (u + [c])[1..] == u[1..] + [c];
      AllSpaceSnoc(u[1..], c);
    }
  }

  /** How many white-space characters `s` starts with, when it has a character that is not white space. */
  function LeadingSpaces(s: string): nat {
    |s| - |TrimStart(s)|
  }

  /** JavaScript's `trim`: what is left has no white space at either end. */
  function Trim(s: string): (r: string)
    ensures IsTrimmed(r) && |r| <= |s|
  {
    TrimEnd(TrimStart(s))
  }

  /**
   * What `trim` leaves is the slice of `s` that starts after the leading white space, and
   * everything cut off at either end is white space.
   */
  lemma TrimCutsSpaces(s: string)
    ensures OccursAt(Trim(s), s, LeadingSpaces(s))
    ensures AllSpace(s[..LeadingSpaces(s)]) && AllSpace(s[LeadingSpaces(s) + |Trim(s)|..])
  {
    var t := TrimStart(s);
    TrimStartCuts(s);
    TrimEndCuts(t);
    SliceOfSlice(s, t, TrimEnd(t));
  }

  /** A prefix `r` of a suffix `t` of `s` is a slice of `s`, and what follows `r` in `t` follows it in `s`. */
  lemma SliceOfSlice(s: string, t: string, r: string)
    requires |t| <= |s| && t == s[|s| - |t|..]
    requires |r| <= |t| && r == t[..|r|]
    ensures OccursAt(r, s, |s| - |t|)
    ensures s[|s| - |t| + |r|..] == t[|r|..]
  {
    var i := |s| - |t|;
    assert s[i..][..|r|] == s[i..i + |r|];
  }

  /** A slice brings in no character that the sequence it is cut from lacks. */
  lemma SliceAddsNothing(r: string, s: string, i: int, c: char)
    requires OccursAt(r, s, i)
    ensures c in r ==> c in s
  {
    if c in r {
      var k :| 0 <= k < |r| && r[k] == c;
      assert s[i + k] == r[k];
    }
  }

  /** Trimming brings in no character that `s` lacks. */
  lemma TrimAddsNothing(s: string, c: char)
    ensures c in Trim(s) ==> c in s
  {
    TrimCutsSpaces(s);
    SliceAddsNothing(Trim(s), s, LeadingSpaces(s), c);
  }

  lemma {:induction false} TrimOfTrimmed(s: string)
    requires IsTrimmed(s)
    ensures Trim(s) == s
  {
  }

  /** One leading blank, as `join(', ')` leaves before every tag but the first, is removed by `trim`. */
  lemma {:induction false} TrimAfterBlank(s: string)
    requires IsTrimmed(s)
    ensures Trim([' '] + s) == s
  {
    assert ([' '] + s)[1..] == s;
    assert TrimStart([' '] + s) == TrimStart(s) == s;
  }

  /** `parts` joined with `delim` between consecutive parts (JavaScript's `Array.prototype.join`). */
  function Join(parts: seq<string>, delim: string): string {
    if |parts| == 0 then ""
    else if |parts| == 1 then parts[0]
    else parts[0] + delim + Join(parts[1..], delim)
  }

  /**
   * `s` cut at every occurrence of `sep` (JavaScript's `split(',')`, Python's `split('.')`):
   * there is always at least one piece, no piece holds the separator, and joining the
   * pieces back with the separator gives `s` again.
   */
  function Split(s: string, sep: char): (r: seq<string>)
    ensures |r| >= 1
    ensures forall k :: 0 <= k < |r| ==> sep !in r[k]
    ensures Join(r, [sep]) == s
    decreases |s|
  {
    if |s| == 0 then [""]
    else
      var rest := Split(s[1..], sep);
      if s[0] == sep then
        assert Join([""] + rest, [sep]) == "" + [sep] + Join(rest, [sep]);
        assert s == [sep] + s[1..];
        [""] + rest
      else
        var r := [[s[0]] + rest[0]] + rest[1..];
        assert forall k :: 1 <= k < |r| ==> r[k] == rest[k];
        if |rest| == 1 then
          assert s == [s[0]] + s[1..];
          r
        else
          assert r[1..] == rest[1..];
          assert Join(r, [sep]) == [s[0]] + (rest[0] + [sep] + Join(rest[1..], [sep]));
          assert s == [s[0]] + s[1..];
          r
  }

  /** Splitting at one separator and then at the rest is splitting at all of them. */
  lemma SplitConcat(a: string, b: string, sep: char)
    ensures Split(a + [sep] + b, sep) == Split(a, sep) + Split(b, sep)
  {
    var pa, pb := Split(a, sep), Split(b, sep);
    FreeConcat(pa, pb, sep);
    JoinConcat(pa, pb, [sep]);
    SplitJoin(pa + pb, sep);
  }

  /** No piece of `p + q` holds `sep` when no piece of `p` or of `q` does. */
  lemma FreeConcat(p: seq<string>, q: seq<string>, sep: char)
    requires forall k :: 0 <= k < |p| ==> sep !in p[k]
    requires forall k :: 0 <= k < |q| ==> sep !in q[k]
    ensures forall k :: 0 <= k < |p + q| ==> sep !in (p + q)[k]
  {
    forall k | 0 <= k < |p + q| ensures sep !in (p + q)[k] {
      if k < |p| {
        assert (p + q)[k] == p[k];
      } else {
        assert (p + q)[k] == q[k - |p|];
      }
    }
  }

  /** Joining two non-empty lists of parts is joining each and putting the delimiter between. */
  lemma {:induction false} JoinConcat(p: seq<string>, q: seq<string>, d: string)
    requires |p| >= 1 && |q| >= 1
    ensures Join(p + q, d) == Join(p, d) + d + Join(q, d)
  {
    assert (p + q)[0] == p[0];
    if |p| == 1 {
      assert (p + q)[1..] == q;
    } else {
      assert (p + q)[1..] == p[1..] + q;
      JoinConcat(p[1..], q, d);
    }
  }

  /** A leading run without the separator sticks to the first piece. */
  lemma {:induction false} SplitAfterPiece(p: string, t: string, sep: char)
    requires sep !in p
    ensures Split(p + t, sep) == [p + Split(t, sep)[0]] + Split(t, sep)[1..]
    decreases |p|
  {
    if p == [] {
      assert p + t == t;
      assert p + Split(t, sep)[0] == Split(t, sep)[0];
      assert [Split(t, sep)[0]] + Split(t, sep)[1..] == Split(t, sep);
    } else {
      assert (p + t)[1..] == p[1..] + t;
      assert (p + t)[0] == p[0];
      SplitAfterPiece(p[1..], t, sep);
      assert [p[0]] + (p[1..] + Split(t, sep)[0]) == p + Split(t, sep)[0];
    }
  }

  /** Splitting undoes joining when no part holds the separator. */
  lemma {:induction false} SplitJoin(parts: seq<string>, sep: char)
    requires |parts| >= 1
    requires forall k :: 0 <= k < |parts| ==> sep !in parts[k]
    ensures Split(Join(parts, [sep]), sep) == parts
  {
    var p := parts[0];
    if |parts| == 1 {
      SplitAfterPiece(p, "", sep);
      assert p + "" == p;
    } else {
      var rest := parts[1..];
      SplitJoin(rest, sep);
      var j := Join(rest, [sep]);
      assert Join(parts, [sep]) == p + ([sep] + j);
      assert ([sep] + j)[1..] == j;
      SplitAfterPiece(p, [sep] + j, sep);
      assert ([sep] + j)[0] == sep;
      assert Split([sep] + j, sep) == [""] + rest;
      assert p + "" == p;
      assert parts == [p] + rest;
    }
  }

  /** The ASCII lower case of `c`. */
  function LowerChar(c: char): (r: char)
    ensures 'A' <= c <= 'Z' ==> 'a' <= r <= 'z' && r as int == c as int + 32
    ensures !('A' <= c <= 'Z') ==> r == c
  {
    if 'A' <= c <= 'Z' then (c as int - 'A' as int + 'a' as int) as char else c
  }

  /** Lower case, character by character (Python `lower`, JavaScript `toLowerCase`, on ASCII letters). */
  function Lower(s: string): (r: string)
    ensures |r| == |s|
    ensures forall i :: 0 <= i < |s| ==> r[i] == LowerChar(s[i])
  {
    seq(|s|, i requires 0 <= i < |s| => LowerChar(s[i]))
  }

  /** Lowering twice is lowering once: a lowered name is its own lower case. */
  lemma LowerIdempotent(s: string)
    ensures Lower(Lower(s)) == Lower(s)
  {
  }

  /** Python `s.startswith(prefix)`. */
  predicate StartsWith(s: string, prefix: string) {
    |prefix| <= |s| && s[..|prefix|] == prefix
  }

  /** `t` occurs in `s` starting at index `i`. */
  predicate OccursAt(t: string, s: string, i: int) {
    0 <= i && i + |t| <= |s| && s[i..i + |t|] == t
  }

  /** Python `t in s` for two strings: `t` occurs as a contiguous slice of `s`. */
  predicate IsSubstring(t: string, s: string) {
    exists i | 0 <= i <= |s| - |t| :: OccursAt(t, s, i)
  }

  /** Python `s.replace(pat, rep)`: every occurrence, left to right, without overlap. */
  function ReplaceAll(s: string, pat: string, rep: string): string
    requires |pat| > 0
    decreases |s|
  {
    if |s| < |pat| then s
    else if s[..|pat|] == pat then rep + ReplaceAll(s[|pat|..], pat, rep)
    else [s[0]] + ReplaceAll(s[1..], pat, rep)
  }

  /** A text with no placeholder comes out of `replace` unchanged. */
  lemma {:induction false} ReplaceAbsent(s: string, pat: string, rep: string)
    requires |pat| > 0
    requires !IsSubstring(pat, s)
    ensures ReplaceAll(s, pat, rep) == s
    decreases |s|
  {
    if |s| >= |pat| {
      assert s[0..0 + |pat|] == s[..|pat|];
      assert !OccursAt(pat, s, 0);
      if !IsSubstring(pat, s[1..]) {
        ReplaceAbsent(s[1..], pat, rep);
        assert s == [s[0]] + s[1..];
      } else {
        var i :| 0 <= i <= |s[1..]| - |pat| && OccursAt(pat, s[1..], i);
        assert s[1..][i..i + |pat|] == pat;
        assert s[i + 1..i + 1 + |pat|] == s[1..][i..i + |pat|];
        assert OccursAt(pat, s, i + 1);
        assert false;
      }
    }
  }

  /** A placeholder followed by plain text is replaced once and the text kept. */
  lemma {:induction false} ReplaceLeading(pat: string, rep: string, rest: string)
    requires |pat| > 0
    requires !IsSubstring(pat, rest)
    ensures ReplaceAll(pat + rest, pat, rep) == rep + rest
  {
    assert (pat + rest)[..|pat|] == pat;
    assert (pat + rest)[|pat|..] == rest;
    ReplaceAbsent(rest, pat, rep);
  }
}
