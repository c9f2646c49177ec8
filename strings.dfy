/**
 * String operations the dashboards and the ingestion scripts rely on:
 * lower-casing, substring search, trimming, Python's `split()` and
 * `split(sep)`, JavaScript's `slice(0, n)`, and Python's ordering of strings.
 * Strings are sequences of characters; only the ASCII letters A-Z have a
 * lower-case form here, and only the ASCII white-space characters count as
 * white space.
 */
module Strings {

  /** `toLowerCase()` / `lower()` on one character. */
  function LowerChar(c: char): char {
    if 'A' <= c <= 'Z' then (c as int + 32) as char else c
  }

  /** `toLowerCase()` / `lower()` on a string. */
  function Lower(s: string): (r: string)
    ensures |r| == |s|
    ensures forall i :: 0 <= i < |s| ==> r[i] == LowerChar(s[i])
  {
    seq(|s|, i requires 0 <= i < |s| => LowerChar(s[i]))
  }

  lemma LowerIdempotent(s: string)
    ensures Lower(Lower(s)) == Lower(s)
  {
  }

  /** `pat` occurs in `s` starting at index `i`. */
  predicate OccursAt(s: string, pat: string, i: nat) {
    i + |pat| <= |s| && s[i..i + |pat|] == pat
  }

  /** JavaScript's `s.includes(pat)`, Python's `pat in s`. */
  predicate Contains(s: string, pat: string)
    decreases |s|
  {
    OccursAt(s, pat, 0) || (|s| > 0 && Contains(s[1..], pat))
  }

  lemma {:induction false} ContainsIff(s: string, pat: string)
    ensures Contains(s, pat) <==> exists i: nat :: OccursAt(s, pat, i)
    decreases |s|
  {
    if Contains(s, pat) {
      if !OccursAt(s, pat, 0) {
        ContainsIff(s[1..], pat);
        var i: nat :| OccursAt(s[1..], pat, i);
        assert s[1..][i..i + |pat|] == s[i + 1..i + 1 + |pat|];
        assert OccursAt(s, pat, i + 1);
      }
    } else if exists i: nat :: OccursAt(s, pat, i) {
      var i: nat :| OccursAt(s, pat, i);
      if i == 0 {
      } else {
        assert s[1..][i - 1..i - 1 + |pat|] == s[i..i + |pat|];
        assert OccursAt(s[1..], pat, i - 1);
        ContainsIff(s[1..], pat);
      }
    }
  }

  lemma EmptyContained(s: string)
    ensures Contains(s, "")
  {
    assert OccursAt(s, "", 0);
  }

  lemma SelfContained(s: string)
    ensures Contains(s, s)
  {
    assert s[0..|s|] == s;
  }

  /** The white space that `trim()` and `strip()` remove (ASCII only). */
  predicate IsSpace(c: char) {
    c == ' ' || c == '\t' || c == '\n' || c == '\r' || c == '\U{000B}' || c == '\U{000C}'
  }

  predicate IsBlank(s: string) {
    forall i :: 0 <= i < |s| ==> IsSpace(s[i])
  }

  function TrimStart(s: string): (r: string)
    ensures |r| <= |s| && r == s[|s| - |r|..]
    ensures r != [] ==> !IsSpace(r[0])
  {
    if s != [] && IsSpace(s[0]) then TrimStart(s[1..]) else s
  }

  function TrimEnd(s: string): (r: string)
    ensures |r| <= |s| && r == s[..|r|]
    ensures r != [] ==> !IsSpace(r[|r| - 1])
  {
    if s != [] && IsSpace(s[|s| - 1]) then TrimEnd(s[..|s| - 1]) else s
  }

  /** JavaScript's `trim()`, Python's `strip()`. */
  function Trim(s: string): string {
    TrimEnd(TrimStart(s))
  }

  lemma {:induction false} TrimStartBlank(s: string)
    ensures TrimStart(s) == [] <==> IsBlank(s)
  {
    if s != [] && IsSpace(s[0]) {
      TrimStartBlank(s[1..]);
      BlankTail(s);
    }
  }

  lemma BlankTail(s: string)
    requires s != [] && IsSpace(s[0])
    ensures IsBlank(s) <==> IsBlank(s[1..])
  {
    if IsBlank(s[1..]) {
      forall i | 0 <= i < |s| ensures IsSpace(s[i]) {
        if i > 0 { assert s[i] == s[1..][i - 1]; }
      }
    }
  }

  /** A string trims to the empty string exactly when it is all white space. */
  lemma TrimEmptyIff(s: string)
    ensures Trim(s) == [] <==> IsBlank(s)
  {
    TrimStartBlank(s);
    var t := TrimStart(s);
    if t != [] {
      assert TrimEnd(t) != [] by {
        assert !IsSpace(t[0]);
        TrimEndKeepsHead(t);
      }
    }
  }

  lemma {:induction false} TrimEndKeepsHead(t: string)
    requires t != [] && !IsSpace(t[0])
    ensures TrimEnd(t) != []
    decreases |t|
  {
    if IsSpace(t[|t| - 1]) {
      assert |t| > 1;
      TrimEndKeepsHead(t[..|t| - 1]);
    }
  }

  /** Number of leading characters of `s` that are not white space. */
  function WordLength(s: string): (n: nat)
    ensures n <= |s|
    ensures forall i :: 0 <= i < n ==> !IsSpace(s[i])
    ensures n < |s| ==> IsSpace(s[n])
    ensures s != [] && !IsSpace(s[0]) ==> n > 0
  {
    if s == [] || IsSpace(s[0]) then 0 else 1 + WordLength(s[1..])
  }

  /** A non-empty run of characters none of which is white space. */
  predicate IsWord(w: string) {
    w != [] && forall i :: 0 <= i < |w| ==> !IsSpace(w[i])
  }

  /** Python's `s.split()`: the maximal runs of non-white-space characters. */
  function Words(s: string): (ws: seq<string>)
    ensures forall k :: 0 <= k < |ws| ==> IsWord(ws[k])
    decreases |s|
  {
    var t := TrimStart(s);
    if t == [] then []
    else
      var n := WordLength(t);
      LeadingWord(t, n);
      ConsWords(t[..n], Words(t[n..]));
      [t[..n]] + Words(t[n..])
  }

  lemma LeadingWord(t: string, n: nat)
    requires t != [] && !IsSpace(t[0]) && n == WordLength(t)
    ensures IsWord(t[..n]) && n > 0
  {
  }

  lemma ConsWords(w: string, ws: seq<string>)
    requires IsWord(w) && forall k :: 0 <= k < |ws| ==> IsWord(ws[k])
    ensures forall k :: 0 <= k < |[w] + ws| ==> IsWord(([w] + ws)[k])
  {
    forall k | 0 <= k < |[w] + ws| ensures IsWord(([w] + ws)[k]) {
      if k > 0 { assert ([w] + ws)[k] == ws[k - 1]; }
    }
  }

  /** The characters of `s` that are not white space, in order. */
  function NonSpace(s: string): string {
    if s == [] then [] else (if IsSpace(s[0]) then [] else [s[0]]) + NonSpace(s[1..])
  }

  /** The words written one after the other. */
  function Flat(ws: seq<string>): string {
    if ws == [] then [] else ws[0] + Flat(ws[1..])
  }

  /** The words joined by single spaces, `" ".join(ws)`. */
  function Unwords(ws: seq<string>): string {
    if ws == [] then []
    else if |ws| == 1 then ws[0]
    else ws[0] + " " + Unwords(ws[1..])
  }

  /** `split()` finds no word exactly in a string that is all white space. */
  lemma {:induction false} WordsBlank(s: string)
    ensures Words(s) == [] <==> IsBlank(s)
  {
    TrimStartBlank(s);
  }

  /** The words together hold every character of `s` but its white space, in order. */
  lemma {:induction false} WordsFlat(s: string)
    ensures Flat(Words(s)) == NonSpace(s)
    decreases |s|
  {
    var t := TrimStart(s);
    NonSpaceTrimStart(s);
    if t != [] {
      var n := WordLength(t);
      var w, rest := WordsStep(s);
      WordsFlat(rest);
      NonSpaceConcat(w, rest);
      NonSpaceWord(w);
      FlatCons(w, Words(rest));
    }
  }

  /** Splitting words joined by single spaces gives the words back. */
  lemma {:induction false} WordsUnwords(ws: seq<string>)
    requires forall k :: 0 <= k < |ws| ==> IsWord(ws[k])
    ensures Words(Unwords(ws)) == ws
  {
    if ws != [] {
      var w := ws[0];
      var rest: string := if |ws| == 1 then [] else " " + Unwords(ws[1..]);
      assert Unwords(ws) == w + rest;
      WordsOfWord(w, rest);
      if |ws| > 1 {
        WordsUnwords(ws[1..]);
        WordsSpace(Unwords(ws[1..]));
      }
      WordsHead(ws);
    }
  }

  lemma WordsHead(ws: seq<string>)
    requires ws != []
    ensures ws == [ws[0]] + ws[1..]
  {
  }

  lemma {:induction false} WordsStep(s: string) returns (w: string, rest: string)
    requires TrimStart(s) != []
    ensures IsWord(w) && TrimStart(s) == w + rest && |rest| < |s|
    ensures Words(s) == [w] + Words(rest)
  {
    var t := TrimStart(s);
    var n := WordLength(t);
    LeadingWord(t, n);
    w, rest := t[..n], t[n..];
    SplitAt(t, n);
    WordsUnfold(s);
  }

  lemma SplitAt(t: string, n: nat)
    requires n <= |t|
    ensures t[..n] + t[n..] == t
  {
  }

  lemma {:induction false} WordsUnfold(s: string)
    requires TrimStart(s) != []
    ensures Words(s) == [TrimStart(s)[..WordLength(TrimStart(s))]] + Words(TrimStart(s)[WordLength(TrimStart(s))..])
  {
  }

  /** A word followed by nothing or by white space is split off whole. */
  lemma {:induction false} WordsOfWord(w: string, rest: string)
    requires IsWord(w) && (rest == [] || IsSpace(rest[0]))
    ensures Words(w + rest) == [w] + Words(rest)
  {
    var s := w + rest;
    assert s[0] == w[0];
    assert TrimStart(s) == s;
    WordLengthOfWord(w, rest);
    assert s[..|w|] == w && s[|w|..] == rest;
  }

  lemma {:induction false} WordsSpace(u: string)
    ensures Words(" " + u) == Words(u)
  {
    var s := " " + u;
    assert s[1..] == u;
    assert TrimStart(s) == TrimStart(u);
  }

  lemma {:induction false} FlatCons(w: string, ws: seq<string>)
    ensures Flat([w] + ws) == w + Flat(ws)
  {
    assert ([w] + ws)[0] == w && ([w] + ws)[1..] == ws;
  }

  lemma {:induction false} WordLengthOfWord(w: string, r: string)
    requires IsWord(w) && (r == [] || IsSpace(r[0]))
    ensures WordLength(w + r) == |w|
    decreases |w|
  {
    var s := w + r;
    assert s[1..] == w[1..] + r;
    if |w| > 1 {
      WordLengthOfWord(w[1..], r);
    } else {
      assert s[1..] == r;
    }
  }

  lemma {:induction false} NonSpaceTrimStart(s: string)
    ensures NonSpace(TrimStart(s)) == NonSpace(s)
    decreases |s|
  {
    if s != [] && IsSpace(s[0]) {
      NonSpaceTrimStart(s[1..]);
    }
  }

  lemma {:induction false} NonSpaceConcat(a: string, b: string)
    ensures NonSpace(a + b) == NonSpace(a) + NonSpace(b)
    decreases |a|
  {
    if a != [] {
      assert (a + b)[0] == a[0] && (a + b)[1..] == a[1..] + b;
      NonSpaceConcat(a[1..], b);
    } else {
      assert a + b == b;
    }
  }

  lemma {:induction false} NonSpaceWord(w: string)
    requires forall i :: 0 <= i < |w| ==> !IsSpace(w[i])
    ensures NonSpace(w) == w
    decreases |w|
  {
    if w != [] {
      NonSpaceWord(w[1..]);
    }
  }

  /** A word has no white space to strip. */
  lemma TrimWord(w: string)
    requires IsWord(w)
    ensures Trim(w) == w
  {
    assert TrimStart(w) == w;
  }

  /** JavaScript's `s.slice(0, n)`, Python's `s[:n]` for n >= 0. */
  function Take(s: string, n: nat): (r: string)
    ensures |r| <= n && |r| <= |s|
    ensures r == s[..|r|]
    ensures |s| <= n ==> r == s
  {
    if |s| <= n then s else s[..n]
  }

  /** Index of the first `c` in `s`, or |s| when there is none. */
  function IndexOfChar(s: string, c: char): (i: nat)
    ensures i <= |s|
    ensures i < |s| ==> s[i] == c
    ensures forall k :: 0 <= k < i ==> s[k] != c
    ensures i == |s| <==> c !in s
  {
    if s == [] then 0 else if s[0] == c then 0 else 1 + IndexOfChar(s[1..], c)
  }

  /** JavaScript's `s.split(c)[0]` and Python's `s.split(c)[0]`. */
  function BeforeFirst(s: string, c: char): (r: string)
    ensures c !in r
    ensures |r| <= |s| && r == s[..|r|]
  {
    s[..IndexOfChar(s, c)]
  }

  /** Python's `s.split(c)`. */
  function SplitOn(s: string, c: char): (parts: seq<string>)
    ensures |parts| >= 1
    ensures forall k :: 0 <= k < |parts| ==> c !in parts[k]
    decreases |s|
  {
    var i := IndexOfChar(s, c);
    if i == |s| then [s] else [s[..i]] + SplitOn(s[i + 1..], c)
  }

  /** Python's `c.join(parts)` for a one-character separator. */
  function Join(parts: seq<string>, c: char): string {
    if parts == [] then "" else if |parts| == 1 then parts[0] else parts[0] + [c] + Join(parts[1..], c)
  }

  /** Splitting on a character and joining on it again gives back the string. */
  lemma {:induction false} SplitJoin(s: string, c: char)
    ensures Join(SplitOn(s, c), c) == s
    decreases |s|
  {
    var i := IndexOfChar(s, c);
    var p := SplitOn(s, c);
    if i < |s| {
      SplitJoin(s[i + 1..], c);
      var rest := SplitOn(s[i + 1..], c);
      assert p == [s[..i]] + rest;
      assert p[0] == s[..i] && p[1..] == rest && |p| > 1;
      assert Join(p, c) == s[..i] + [c] + Join(rest, c);
      assert s == s[..i] + [c] + s[i + 1..];
    } else {
      assert p == [s];
    }
  }

  /** Number of occurrences of `c` in `s`. */
  function CountChar(s: string, c: char): nat {
    if s == [] then 0 else (if s[0] == c then 1 else 0) + CountChar(s[1..], c)
  }

  lemma {:induction false} CountCharSplit(s: string, c: char, i: nat)
    requires i <= |s|
    ensures CountChar(s, c) == CountChar(s[..i], c) + CountChar(s[i..], c)
  {
    if i > 0 {
      CountCharSplit(s[1..], c, i - 1);
      assert s[1..][..i - 1] == s[..i][1..];
      assert s[1..][i - 1..] == s[i..];
    }
  }

  lemma {:induction false} CountCharAbsent(s: string, c: char)
    ensures c !in s <==> CountChar(s, c) == 0
  {
    if s != [] {
      CountCharAbsent(s[1..], c);
      assert c in s <==> s[0] == c || c in s[1..];
    }
  }

  /** A string has one piece more under `split(c)` than it has `c`s. */
  lemma {:induction false} SplitOnCount(s: string, c: char)
    ensures |SplitOn(s, c)| == CountChar(s, c) + 1
    decreases |s|
  {
    var i := IndexOfChar(s, c);
    CountCharSplit(s, c, i);
    CountCharAbsent(s[..i], c);
    if i == |s| {
      assert s[..i] == s;
    } else {
      SplitOnCount(s[i + 1..], c);
      assert s[i..] == [c] + s[i + 1..];
      assert CountChar(s[i..], c) == 1 + CountChar(s[i + 1..], c);
    }
  }

  /** The composite-id split law: with exactly one separator the two pieces rebuild the string. */
  lemma OneSeparatorSplit(s: string, c: char)
    requires CountChar(s, c) == 1
    ensures |SplitOn(s, c)| == 2
    ensures SplitOn(s, c)[0] + [c] + SplitOn(s, c)[1] == s
    ensures SplitOn(s, c)[0] == BeforeFirst(s, c)
  {
    SplitOnCount(s, c);
    SplitJoin(s, c);
    var p := SplitOn(s, c);
    assert Join(p, c) == p[0] + [c] + Join(p[1..], c);
  }

  /** `BeforeFirst(p + [c] + q, c)` is `p` when `p` has no `c`. */
  lemma BeforeFirstOfJoined(p: string, c: char, q: string)
    requires c !in p
    ensures BeforeFirst(p + [c] + q, c) == p
  {
    var s := p + [c] + q;
    var i := IndexOfChar(s, c);
    assert s[|p|] == c;
    assert forall k :: 0 <= k < |p| ==> s[k] == p[k];
    assert i == |p|;
    assert s[..|p|] == p;
  }

  /** Text after the first separator does not change what comes before it. */
  lemma BeforeFirstOfAppended(p: string, c: char, q: string)
    ensures BeforeFirst(p + [c] + q, c) == BeforeFirst(p, c)
  {
    if c in p {
      IndexOfCharOfPrefix(p, c, [c] + q);
      assert p + [c] + q == p + ([c] + q);
      var i := IndexOfChar(p, c);
      assert (p + [c] + q)[..i] == p[..i];
    } else {
      BeforeFirstOfJoined(p, c, q);
      assert p[..|p|] == p;
    }
  }

  lemma {:induction false} IndexOfCharOfPrefix(p: string, c: char, q: string)
    requires c in p
    ensures IndexOfChar(p + q, c) == IndexOfChar(p, c)
  {
    if p[0] != c {
      assert (p + q)[1..] == p[1..] + q;
      IndexOfCharOfPrefix(p[1..], c, q);
    }
  }

  predicate IsDigit(c: char) {
    '0' <= c <= '9'
  }

  /** Python's ordering of strings: code-point order, a proper prefix first. */
  predicate LexLess(a: string, b: string)
    decreases |a|
  {
    if a == [] then b != []
    else if b == [] then false
    else if a[0] != b[0] then a[0] < b[0]
    else LexLess(a[1..], b[1..])
  }

  lemma {:induction false} LexLessIrreflexive(a: string)
    ensures !LexLess(a, a)
  {
    if a != [] {
      LexLessIrreflexive(a[1..]);
    }
  }

  lemma {:induction false} LexLessTransitive(a: string, b: string, c: string)
    requires LexLess(a, b) && LexLess(b, c)
    ensures LexLess(a, c)
    decreases |a|
  {
    if a != [] && b != [] && c != [] && a[0] == b[0] && b[0] == c[0] {
      LexLessTransitive(a[1..], b[1..], c[1..]);
    }
  }
}
