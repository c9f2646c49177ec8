/**
 * The ATT&CK link helpers of the Next.js app: `parseMitreLinks`, which
 * turns the Markdown links to attack.mitre.org inside a description into
 * link segments, the three URL builders and the URL choice of `MitreLink`.
 */
module Links {
  import opened Wrappers
  import opened Strings
  import opened Collections

  const AttackSite := "https://attack.mitre.org/"

  // ---------------------------------------------------------------------
  // The link pattern  \[([^\]]+)\]\((https:\/\/attack\.mitre\.org\/[^)]+)\)
  // ---------------------------------------------------------------------
  // The matcher takes the pattern's fixed URL prefix as `site`; the
  // component uses it with `AttackSite`.

  /** One match of the pattern: where it starts and ends, and its two groups. */
  datatype LinkMatch = LinkMatch(start: nat, linkText: string, url: string, end: nat)

  /** The source form of a link: `[text](url)`. */
  function LinkSource(linkText: string, url: string): string {
    "[" + linkText + "](" + url + ")"
  }

  /** What the two groups of the pattern can hold. */
  predicate WellFormedLink(site: string, linkText: string, url: string) {
    linkText != [] && ']' !in linkText &&
    |url| > |site| && url[..|site|] == site && ')' !in url
  }

  /** The index of the first `c` at or after `from`, or `|text|`. */
  function FirstAfter(text: string, from: nat, c: char): (r: nat)
    requires from <= |text|
    ensures from <= r <= |text|
    ensures r < |text| ==> text[r] == c
    decreases |text| - from
  {
    if from == |text| || text[from] == c then from else FirstAfter(text, from + 1, c)
  }

  /** No `c` comes before the one found. */
  lemma {:induction false} FirstAfterFirst(text: string, from: nat, c: char)
    requires from <= |text|
    ensures c !in text[from..FirstAfter(text, from, c)]
    decreases |text| - from
  {
    var r := FirstAfter(text, from, c);
    if from < r {
      FirstAfterFirst(text, from + 1, c);
      assert text[from..r] == [text[from]] + text[from + 1..r];
    }
  }

  /** A `c` with none before it is the one found. */
  lemma {:induction false} FirstAfterAt(text: string, from: nat, r: nat, c: char)
    requires from <= r < |text| && text[r] == c && c !in text[from..r]
    ensures FirstAfter(text, from, c) == r
    decreases r - from
  {
    if from < r {
      assert text[from] == text[from..r][0];
      assert text[from + 1..r] == text[from..r][1..];
      FirstAfterAt(text, from + 1, r, c);
    }
  }

  /**
   * The match starting at index `i`, if there is one. Both character classes
   * exclude the character that closes them, so the text runs to the first
   * ']' and the URL to the first ')': the match at `i` is unique.
   */
  function MatchAt(site: string, text: string, i: nat): (r: Option<LinkMatch>)
    requires i <= |text|
    ensures r.Some? ==> r.value.start == i && i < r.value.end <= |text| && text[i] == '['
  {
    if i < |text| && text[i] == '[' then
      var close := FirstAfter(text, i + 1, ']');
      if i + 1 < close && close + 1 < |text| && text[close + 1] == '(' && OccursAt(text, site, close + 2) then
        var u := close + 2 + |site|;
        var e := FirstAfter(text, u, ')');
        if u < e < |text| then
          Some(LinkMatch(i, text[i + 1..close], text[close + 2..e], e + 1))
        else None
      else None
    else None
  }

  lemma SliceJoin<T>(s: seq<T>, a: nat, b: nat, c: nat)
    requires a <= b <= c <= |s|
    ensures s[a..c] == s[a..b] + s[b..c]
  {
  }

  lemma MatchSource(text: string, i: nat, close: nat, e: nat)
    requires i < close && close + 2 <= e < |text|
    requires text[i] == '[' && text[close] == ']' && text[close + 1] == '(' && text[e] == ')'
    ensures text[i..e + 1] == LinkSource(text[i + 1..close], text[close + 2..e])
  {
    assert text[e..e + 1] == ")";
    assert text[close..close + 2] == "](";
    assert text[i..i + 1] == "[";
    calc {
      text[i..e + 1];
    == { SliceJoin(text, i, e, e + 1); }
      text[i..e] + ")";
    == { SliceJoin(text, i, close + 2, e); }
      text[i..close + 2] + text[close + 2..e] + ")";
    == { SliceJoin(text, i, close, close + 2); }
      text[i..close] + "](" + text[close + 2..e] + ")";
    == { SliceJoin(text, i, i + 1, close); }
      "[" + text[i + 1..close] + "](" + text[close + 2..e] + ")";
    }
  }

  lemma MatchUrl(site: string, text: string, v: nat, u: nat, e: nat)
    requires v + |site| == u < e <= |text|
    requires OccursAt(text, site, v) && ')' !in site && ')' !in text[u..e]
    ensures var url := text[v..e];
      |url| > |site| && url[..|site|] == site && ')' !in url
  {
    SliceJoin(text, v, u, e);
  }

  /** The matched slice is the source form of the link matched. */
  lemma MatchAtSource(site: string, text: string, i: nat)
    requires i <= |text| && MatchAt(site, text, i).Some?
    ensures text[i..MatchAt(site, text, i).value.end] == LinkSource(MatchAt(site, text, i).value.linkText, MatchAt(site, text, i).value.url)
  {
    var close := FirstAfter(text, i + 1, ']');
    var e := FirstAfter(text, close + 2 + |site|, ')');
    assert MatchAt(site, text, i) == Some(LinkMatch(i, text[i + 1..close], text[close + 2..e], e + 1));
    MatchSource(text, i, close, e);
  }

  /**
   * A match is a well-formed link, and the matched slice is its source form,
   * for a URL prefix without ')'.
   */
  lemma MatchAtShape(site: string, text: string, i: nat)
    requires ')' !in site && i <= |text| && MatchAt(site, text, i).Some?
    ensures WellFormedLink(site, MatchAt(site, text, i).value.linkText, MatchAt(site, text, i).value.url)
    ensures text[i..MatchAt(site, text, i).value.end] == LinkSource(MatchAt(site, text, i).value.linkText, MatchAt(site, text, i).value.url)
  {
    var close := FirstAfter(text, i + 1, ']');
    var u := close + 2 + |site|;
    var e := FirstAfter(text, u, ')');
    assert MatchAt(site, text, i) == Some(LinkMatch(i, text[i + 1..close], text[close + 2..e], e + 1));
    FirstAfterFirst(text, i + 1, ']');
    FirstAfterFirst(text, u, ')');
    MatchUrl(site, text, close + 2, u, e);
    MatchSource(text, i, close, e);
  }

  /**
   * `linkRegex.exec(text)` with `lastIndex == from`: the leftmost match
   * starting at `from` or later.
   */
  function NextMatch(site: string, text: string, from: nat): (r: Option<LinkMatch>)
    requires from <= |text|
    ensures r.Some? ==> from <= r.value.start <= |text| && MatchAt(site, text, r.value.start) == r
    decreases |text| - from
  {
    if MatchAt(site, text, from).Some? then MatchAt(site, text, from)
    else if from == |text| then None
    else NextMatch(site, text, from + 1)
  }

  /** No match starts between `from` and the one `exec` finds. */
  lemma {:induction false} NextMatchLeftmost(site: string, text: string, from: nat, p: nat)
    requires from <= p <= |text| && NextMatch(site, text, from).Some? && p < NextMatch(site, text, from).value.start
    ensures MatchAt(site, text, p).None?
    decreases |text| - from
  {
    if p > from {
      NextMatchLeftmost(site, text, from + 1, p);
    }
  }

  /** When `exec` finds nothing, no match starts at `from` or later. */
  lemma {:induction false} NextMatchNone(site: string, text: string, from: nat, p: nat)
    requires from <= p <= |text| && NextMatch(site, text, from).None?
    ensures MatchAt(site, text, p).None?
    decreases |text| - from
  {
    if p > from {
      NextMatchNone(site, text, from + 1, p);
    }
  }

  /** `exec` finds the match at `i` when none starts between `from` and `i`. */
  lemma {:induction false} NextMatchFinds(site: string, text: string, from: nat, i: nat)
    requires from <= i <= |text| && MatchAt(site, text, i).Some?
    requires forall p :: from <= p < i ==> MatchAt(site, text, p).None?
    ensures NextMatch(site, text, from) == MatchAt(site, text, i)
    decreases i - from
  {
    if from < i {
      NextMatchFinds(site, text, from + 1, i);
    }
  }

  // ---------------------------------------------------------------------
  // parseMitreLinks
  // ---------------------------------------------------------------------

  /** An entry of `parts`: plain text, or an anchor keyed by `match.index`. */
  datatype Segment = Plain(text: string) | Link(at: nat, linkText: string, url: string)

  /** What `parseMitreLinks` returns: the text itself, or a fragment of its parts. */
  datatype Rendered = Text(text: string) | Fragment(parts: seq<Segment>)

  /** The slice of the input a segment stands for. */
  function SegmentSource(s: Segment): string {
    match s
    case Plain(t) => t
    case Link(_, linkText, url) => LinkSource(linkText, url)
  }

  function Flatten(segs: seq<Segment>): string {
    if segs == [] then [] else SegmentSource(segs[0]) + Flatten(segs[1..])
  }

  /** The plain text between `from` and `to`, pushed only when not empty. */
  function Gap(text: string, from: nat, to: nat): seq<Segment>
    requires from <= to <= |text|
  {
    if to > from then [Plain(text[from..to])] else []
  }

  function LinkOf(m: LinkMatch): Segment {
    Link(m.start, m.linkText, m.url)
  }

  /** The parts pushed while scanning `text` from `from`. */
  function Tokenize(site: string, text: string, from: nat): seq<Segment>
    requires from <= |text|
    decreases |text| - from
  {
    match NextMatch(site, text, from)
    case None => Gap(text, from, |text|)
    case Some(m) => Gap(text, from, m.start) + [LinkOf(m)] + Tokenize(site, text, m.end)
  }

  /** The value of `parseMitreLinks(text)`. */
  function Render(text: string): Rendered {
    if text == "" then Text(text)
    else
      var parts := Tokenize(AttackSite, text, 0);
      if |parts| > 1 then Fragment(parts) else Text(text)
  }

  /** `parseMitreLinks`: the `exec` loop advancing `lastIndex` and pushing onto `parts`. */
  method ParseMitreLinks(text: string) returns (r: Rendered)
    ensures r == Render(text)
  {
    if text == "" {
      return Text(text);
    }
    var parts: seq<Segment> := [];
    var lastIndex := 0;
    var m := NextMatch(AttackSite, text, lastIndex);
    while m.Some?
      invariant lastIndex <= |text|
      invariant m == NextMatch(AttackSite, text, lastIndex)
      invariant parts + Tokenize(AttackSite, text, lastIndex) == Tokenize(AttackSite, text, 0)
      decreases |text| - lastIndex
    {
      var found := m.value;
      TokenizeStep(AttackSite, text, lastIndex);
      ghost var done := parts;
      if found.start > lastIndex {
        parts := parts + [Plain(text[lastIndex..found.start])];
      }
      assert parts == done + Gap(text, lastIndex, found.start);
      parts := parts + [Link(found.start, found.linkText, found.url)];
      ConcatAssoc3(done, Gap(text, lastIndex, found.start), [LinkOf(found)], Tokenize(AttackSite, text, found.end));
      lastIndex := found.end;
      m := NextMatch(AttackSite, text, lastIndex);
    }
    TokenizeNone(AttackSite, text, lastIndex);
    ghost var done := parts;
    if lastIndex < |text| {
      assert text[lastIndex..] == text[lastIndex..|text|];
      parts := parts + [Plain(text[lastIndex..])];
    } else {
      assert parts + [] == parts;
    }
    assert parts == done + Tokenize(AttackSite, text, lastIndex) == Tokenize(AttackSite, text, 0);
    r := if |parts| > 1 then Fragment(parts) else Text(text);
  }

  // ---------------------------------------------------------------------
  // What the tokenizer promises
  // ---------------------------------------------------------------------

  lemma {:induction false} FlattenConcat(a: seq<Segment>, b: seq<Segment>)
    ensures Flatten(a + b) == Flatten(a) + Flatten(b)
  {
    if a == [] {
      assert a + b == b;
    } else {
      assert (a + b)[0] == a[0] && (a + b)[1..] == a[1..] + b;
      FlattenConcat(a[1..], b);
    }
  }

  /** One step of the scan: the gap before the match, the link, and the scan after it. */
  lemma TokenizeStep(site: string, text: string, from: nat)
    requires from <= |text| && NextMatch(site, text, from).Some?
    ensures var m := NextMatch(site, text, from).value;
      m.end <= |text| && Tokenize(site, text, from) == Gap(text, from, m.start) + [LinkOf(m)] + Tokenize(site, text, m.end)
  {
  }

  /** Once `exec` finds nothing, the rest of the text is one plain part, if not empty. */
  lemma TokenizeNone(site: string, text: string, from: nat)
    requires from <= |text| && NextMatch(site, text, from).None?
    ensures Tokenize(site, text, from) == Gap(text, from, |text|)
  {
  }

  lemma TokenizeAtEnd(site: string, text: string)
    ensures Tokenize(site, text, |text|) == []
  {
  }

  lemma FlattenGap(text: string, from: nat, to: nat)
    requires from <= to <= |text|
    ensures Flatten(Gap(text, from, to)) == text[from..to]
  {
    if to > from {
      assert Gap(text, from, to)[1..] == [];
    }
  }

  lemma FlattenLink(site: string, text: string, m: LinkMatch)
    requires m.start <= |text| && MatchAt(site, text, m.start) == Some(m)
    ensures Flatten([LinkOf(m)]) == text[m.start..m.end]
  {
    MatchAtSource(site, text, m.start);
    assert [LinkOf(m)][1..] == [];
  }

  /** Joining the parts in order, links in their source form, gives back the text scanned. */
  lemma {:induction false} TokenizeRebuilds(site: string, text: string, from: nat)
    requires from <= |text|
    ensures Flatten(Tokenize(site, text, from)) == text[from..]
    decreases |text| - from
  {
    match NextMatch(site, text, from)
    case None =>
      FlattenGap(text, from, |text|);
    case Some(m) =>
      TokenizeStep(site, text, from);
      TokenizeRebuilds(site, text, m.end);
      RebuildStep(site, text, from, m, Tokenize(site, text, m.end));
  }

  lemma RebuildStep(site: string, text: string, from: nat, m: LinkMatch, rest: seq<Segment>)
    requires from <= m.start <= |text| && MatchAt(site, text, m.start) == Some(m) && Flatten(rest) == text[m.end..]
    ensures Flatten(Gap(text, from, m.start) + [LinkOf(m)] + rest) == text[from..]
  {
    var gap := Gap(text, from, m.start);
    assert Flatten(gap + [LinkOf(m)]) == text[from..m.end] by {
      FlattenConcat(gap, [LinkOf(m)]);
      FlattenGap(text, from, m.start);
      FlattenLink(site, text, m);
      SliceJoin(text, from, m.start, m.end);
    }
    FlattenConcat(gap + [LinkOf(m)], rest);
    SuffixJoin(text, from, m.end);
  }

  lemma SuffixJoin<T>(s: seq<T>, a: nat, b: nat)
    requires a <= b <= |s|
    ensures s[a..] == s[a..b] + s[b..]
  {
  }

  /**
   * Every link part has a non-empty text without ']' and an attack.mitre.org
   * URL without ')', keyed by where it starts; every plain part is non-empty.
   */
  lemma {:induction false} TokenizeShape(site: string, text: string, from: nat)
    requires ')' !in site && from <= |text|
    ensures forall s :: s in Tokenize(site, text, from) && s.Link? ==>
      WellFormedLink(site, s.linkText, s.url) && from <= s.at < |text| && text[s.at] == '['
    ensures forall s :: s in Tokenize(site, text, from) && s.Plain? ==> s.text != []
    decreases |text| - from
  {
    match NextMatch(site, text, from)
    case None =>
    case Some(m) =>
      TokenizeShape(site, text, m.end);
      MatchAtShape(site, text, m.start);
      var rest := Tokenize(site, text, m.end);
      assert forall s :: s in Tokenize(site, text, from) <==> s in Gap(text, from, m.start) || s == LinkOf(m) || s in rest;
  }

  /** The empty text is returned as it is. */
  lemma RenderEmpty()
    ensures Render("") == Text("")
  {
  }

  lemma {:induction false} NoBracketNoMatch(site: string, text: string, from: nat)
    requires from <= |text| && '[' !in text[from..]
    ensures NextMatch(site, text, from).None?
    decreases |text| - from
  {
    if from < |text| {
      assert text[from] == text[from..][0];
      NoBracketNoMatch(site, text, from + 1);
    }
  }

  /** A text without '[' holds no link, so it comes back as plain text. */
  lemma NoBracketIsText(text: string)
    requires '[' !in text
    ensures Render(text) == Text(text)
  {
    if text != "" {
      NoBracketNoMatch(AttackSite, text, 0);
    }
  }

  /** After a text without '[' comes a link: the scan pushes the text, then the link. */
  lemma PrefixedTokens(site: string, prefix: string, linkText: string, url: string)
    requires '[' !in prefix && WellFormedLink(site, linkText, url)
    ensures Tokenize(site, prefix + LinkSource(linkText, url), 0) ==
      (if prefix == "" then [] else [Plain(prefix)]) + [Link(|prefix|, linkText, url)]
  {
    var text := prefix + LinkSource(linkText, url);
    assert text[|prefix|..] == LinkSource(linkText, url);
    forall p | 0 <= p < |prefix| ensures MatchAt(site, text, p).None? {
      assert text[p] == prefix[p];
    }
    LinkMatches(site, text, |prefix|, linkText, url);
    NextMatchFinds(site, text, 0, |prefix|);
    TokenizeStep(site, text, 0);
    TokenizeAtEnd(site, text);
    assert text[0..|prefix|] == prefix;
  }

  /** After a non-empty text without '[' comes a link: two parts, the text and the link. */
  lemma PrefixedLink(prefix: string, linkText: string, url: string)
    requires prefix != "" && '[' !in prefix && WellFormedLink(AttackSite, linkText, url)
    ensures Render(prefix + LinkSource(linkText, url)) ==
      Fragment([Plain(prefix), Link(|prefix|, linkText, url)])
  {
    PrefixedTokens(AttackSite, prefix, linkText, url);
  }

  /** A lone link: one part, so the text is returned as it is, not as a link. */
  lemma LoneLinkIsText(linkText: string, url: string)
    requires WellFormedLink(AttackSite, linkText, url)
    ensures Render(LinkSource(linkText, url)) == Text(LinkSource(linkText, url))
  {
    PrefixedTokens(AttackSite, "", linkText, url);
    assert "" + LinkSource(linkText, url) == LinkSource(linkText, url);
  }

  /** Every link part of a rendered fragment is a well-formed attack.mitre.org link. */
  lemma RenderShape(text: string)
    ensures Render(text).Fragment? ==> forall s :: s in Render(text).parts && s.Link? ==>
      WellFormedLink(AttackSite, s.linkText, s.url) && s.at < |text| && text[s.at] == '['
  {
    TokenizeShape(AttackSite, text, 0);
  }

  /** A well-formed link written out is matched where it starts, and the match ends where it ends. */
  lemma LinkMatches(site: string, text: string, i: nat, linkText: string, url: string)
    requires WellFormedLink(site, linkText, url)
    requires i <= |text| && text[i..] == LinkSource(linkText, url)
    ensures MatchAt(site, text, i) == Some(LinkMatch(i, linkText, url, |text|))
  {
    var close := i + 1 + |linkText|;
    var e := close + 2 + |url|;
    LinkLocated(site, text, i, linkText, url, close, e);
    MatchAtWhen(site, text, i, close, e);
  }

  /** Where the two closing characters of a written-out link are. */
  lemma LinkLocated(site: string, text: string, i: nat, linkText: string, url: string, close: nat, e: nat)
    requires WellFormedLink(site, linkText, url)
    requires i <= |text| && text[i..] == LinkSource(linkText, url)
    requires close == i + 1 + |linkText| && e == close + 2 + |url|
    ensures i < |text| && text[i] == '[' && FirstAfter(text, i + 1, ']') == close
    ensures i + 1 < close && close + 1 < |text| && text[close + 1] == '(' && OccursAt(text, site, close + 2)
    ensures FirstAfter(text, close + 2 + |site|, ')') == e && close + 2 + |site| < e && e + 1 == |text|
    ensures text[i + 1..close] == linkText && text[close + 2..e] == url
  {
    LinkIndices(text, i, linkText, url);
    UrlParts(site, text, close + 2, e, url);
    FirstAfterAt(text, i + 1, close, ']');
    FirstAfterAt(text, close + 2 + |site|, e, ')');
  }

  /** The match at `i` once the two closing characters are located. */
  lemma MatchAtWhen(site: string, text: string, i: nat, close: nat, e: nat)
    requires i < |text| && text[i] == '[' && FirstAfter(text, i + 1, ']') == close
    requires i + 1 < close && close + 1 < |text| && text[close + 1] == '(' && OccursAt(text, site, close + 2)
    requires FirstAfter(text, close + 2 + |site|, ')') == e && close + 2 + |site| < e < |text|
    ensures MatchAt(site, text, i) == Some(LinkMatch(i, text[i + 1..close], text[close + 2..e], e + 1))
  {
  }

  lemma UrlParts(site: string, text: string, v: nat, e: nat, url: string)
    requires v <= e <= |text| && text[v..e] == url
    requires |url| > |site| && url[..|site|] == site && ')' !in url
    ensures OccursAt(text, site, v) && ')' !in text[v + |site|..e]
  {
    assert text[v..v + |site|] == url[..|site|];
    assert text[v + |site|..e] == url[|site|..];
    assert url == url[..|site|] + url[|site|..];
  }

  lemma LinkIndices(text: string, i: nat, linkText: string, url: string)
    requires i <= |text| && text[i..] == LinkSource(linkText, url)
    ensures var close, e := i + 1 + |linkText|, i + 3 + |linkText| + |url|;
      e + 1 == |text| && text[i] == '[' && text[close] == ']' && text[close + 1] == '(' && text[e] == ')' &&
      text[i + 1..close] == linkText && text[close + 2..e] == url
  {
    LinkSourceParts(linkText, url);
    SourceAt(text, i, LinkSource(linkText, url), 1, |linkText| + 1);
    SourceAt(text, i, LinkSource(linkText, url), |linkText| + 3, |linkText| + 3 + |url|);
  }

  lemma SourceAt(text: string, i: nat, src: string, a: nat, b: nat)
    requires i <= |text| && text[i..] == src && a <= b <= |src|
    ensures text[i + a..i + b] == src[a..b]
  {
    assert text[i + a..i + b] == text[i..][a..b];
  }

  lemma LinkSourceParts(linkText: string, url: string)
    ensures var l := LinkSource(linkText, url);
      |l| == |linkText| + |url| + 4 && l[0] == '[' && l[|linkText| + 1] == ']' && l[|linkText| + 2] == '(' &&
      l[|l| - 1] == ')' && l[1..|linkText| + 1] == linkText && l[|linkText| + 3..|linkText| + 3 + |url|] == url
  {
    var head := "[" + linkText;
    var mid := head + "](";
    var l := mid + url + ")";
    assert LinkSource(linkText, url) == l;
    assert |head| == |linkText| + 1 && head[0] == '[' && head[1..] == linkText;
    assert mid[..|head|] == head && mid[|head|] == ']' && mid[|head| + 1] == '(';
    assert l[..|mid|] == mid && l[|mid|..|mid| + |url|] == url;
    assert l[1..|linkText| + 1] == mid[1..|head|] == head[1..];
  }

  // ---------------------------------------------------------------------
  // The URL builders and MitreLink
  // ---------------------------------------------------------------------

  function GroupUrl(groupId: string): string { AttackSite + "groups/" + groupId }
  function TechniqueUrl(techniqueId: string): string { AttackSite + "techniques/" + techniqueId }
  function SoftwareUrl(softwareId: string): string { AttackSite + "software/" + softwareId }

  /** `getUrl` of `MitreLink`: the builder for the type, '#' for any other. */
  function LinkUrl(kind: string, id: string): (url: string)
    ensures kind == "group" ==> url == GroupUrl(id)
    ensures kind == "technique" ==> url == TechniqueUrl(id)
    ensures kind == "software" ==> url == SoftwareUrl(id)
    ensures kind != "group" && kind != "technique" && kind != "software" ==> url == "#"
  {
    if kind == "group" then GroupUrl(id)
    else if kind == "technique" then TechniqueUrl(id)
    else if kind == "software" then SoftwareUrl(id)
    else "#"
  }

  /**
   * A URL the three builders make from an id without ')' is one the link
   * pattern accepts, with the id as its last part; and the fallback '#' is
   * not.
   */
  lemma BuiltUrlsAreLinks(kind: string, id: string, linkText: string)
    requires linkText != [] && ']' !in linkText && ')' !in id
    ensures kind == "group" || kind == "technique" || kind == "software" ==>
      WellFormedLink(AttackSite, linkText, LinkUrl(kind, id)) &&
      LinkUrl(kind, id)[|LinkUrl(kind, id)| - |id|..] == id
    ensures !(kind == "group" || kind == "technique" || kind == "software") ==>
      !WellFormedLink(AttackSite, linkText, LinkUrl(kind, id))
  {
    var url := LinkUrl(kind, id);
    if kind == "group" || kind == "technique" || kind == "software" {
      var section := if kind == "group" then "groups/" else if kind == "technique" then "techniques/" else "software/";
      assert url == AttackSite + (section + id);
      assert url[..|AttackSite|] == AttackSite;
      assert ')' !in AttackSite && ')' !in section;
    }
  }
}
