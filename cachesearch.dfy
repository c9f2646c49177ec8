/**
 * The cache service's search: the terms it indexes for each group, the
 * index rows it inserts, and the post-processing of the rows a query
 * matches (sort by relevance, keep the first hit per group, cut to the
 * requested number of results).
 */
module CacheSearch {
  import opened Wrappers
  import opened Strings
  import opened Collections
  import opened Entities
  import opened CacheFilter

  // ---------------------------------------------------------------------
  // Index terms (_build_search_index)
  // ---------------------------------------------------------------------

  function SubTerms(ss: seq<SubTechnique>): seq<string> {
    if ss == [] then []
    else
      var s := ss[|ss| - 1];
      SubTerms(ss[..|ss| - 1]) + (if s.used && s.name != "" then [Lower(s.name)] else [])
  }

  /**
   * The terms of one technique row: only a row with a non-empty name is
   * looked at; then its lower-cased name when it is used, and the names of
   * its used, named sub-techniques. The test on the row's name guards the
   * sub-techniques too, so a used sub-technique under an unnamed row is not
   * indexed.
   */
  function TechniqueTerms(t: Technique): seq<string> {
    if t.name != "" then (if t.used then [Lower(t.name)] else []) + SubTerms(t.subs) else []
  }

  function TechniquesTerms(ts: seq<Technique>): seq<string> {
    if ts == [] then [] else TechniquesTerms(ts[..|ts| - 1]) + TechniqueTerms(ts[|ts| - 1])
  }

  function SoftwareTerms(sw: seq<Software>): seq<string> {
    if sw == [] then []
    else
      var s := sw[|sw| - 1];
      SoftwareTerms(sw[..|sw| - 1]) + (if s.name != "" then [Lower(s.name)] else [])
  }

  predicate LongWord(w: string) { |w| > 3 }

  /** The description's words longer than three characters, lower-cased. */
  function DescriptionTerms(descr: string): (r: seq<string>)
    ensures forall i :: 0 <= i < |r| ==> IsWord(r[i]) && |r[i]| > 3
  {
    var ws := Words(Lower(descr));
    var r := Filter(ws, LongWord);
    assert forall i :: 0 <= i < |r| ==> IsWord(r[i]) by {
      forall i | 0 <= i < |r| ensures IsWord(r[i]) {
        var k :| 0 <= k < |ws| && ws[k] == r[i];
      }
    }
    r
  }

  /** The list `terms` the index builder collects for a group, in order. */
  function GroupTerms(g: Group): seq<string> {
    [Lower(g.name)] + LowerAll(g.aliases) + TechniquesTerms(g.techniques)
    + SoftwareTerms(g.SoftwareList()) + DescriptionTerms(g.descr)
  }

  // Collecting the terms ----------------------------------------------

  method CollectSubTerms(terms: seq<string>, subs: seq<SubTechnique>) returns (r: seq<string>)
    ensures r == terms + SubTerms(subs)
  {
    r := terms;
    var j := 0;
    while j < |subs|
      invariant 0 <= j <= |subs|
      invariant r == terms + SubTerms(subs[..j])
    {
      PrefixSnoc(subs, j);
      if subs[j].used && subs[j].name != "" {
        r := r + [Lower(subs[j].name)];
      }
      j := j + 1;
    }
    assert subs[..j] == subs;
  }

  /** The body of the technique loop: the terms of one row appended. */
  method CollectRowTerms(terms: seq<string>, technique: Technique) returns (r: seq<string>)
    ensures r == terms + TechniqueTerms(technique)
  {
    r := terms;
    if technique.name != "" {
      if technique.used {
        r := r + [Lower(technique.name)];
      }
      r := CollectSubTerms(r, technique.subs);
      ConcatAssoc(terms, if technique.used then [Lower(technique.name)] else [], SubTerms(technique.subs));
    }
  }

  method CollectTechniqueTerms(terms: seq<string>, ts: seq<Technique>) returns (r: seq<string>)
    ensures r == terms + TechniquesTerms(ts)
  {
    r := terms;
    var i := 0;
    while i < |ts|
      invariant 0 <= i <= |ts|
      invariant r == terms + TechniquesTerms(ts[..i])
    {
      PrefixSnoc(ts, i);
      r := CollectRowTerms(r, ts[i]);
      ConcatAssoc(terms, TechniquesTerms(ts[..i]), TechniqueTerms(ts[i]));
      i := i + 1;
    }
    assert ts[..i] == ts;
  }

  method CollectSoftwareTerms(terms: seq<string>, sw: seq<Software>) returns (r: seq<string>)
    ensures r == terms + SoftwareTerms(sw)
  {
    r := terms;
    var k := 0;
    while k < |sw|
      invariant 0 <= k <= |sw|
      invariant r == terms + SoftwareTerms(sw[..k])
    {
      PrefixSnoc(sw, k);
      if sw[k].name != "" {
        r := r + [Lower(sw[k].name)];
      }
      k := k + 1;
    }
    assert sw[..k] == sw;
  }

  /** The collection of `terms` for one group, as the index builder does it. */
  method CollectTerms(g: Group) returns (terms: seq<string>)
    ensures terms == GroupTerms(g)
  {
    terms := [Lower(g.name)];
    terms := terms + LowerAll(g.aliases);
    ghost var a := terms;
    terms := CollectTechniqueTerms(terms, g.techniques);
    ghost var b := terms;
    terms := CollectSoftwareTerms(terms, g.SoftwareList());
    var descWords := Words(Lower(g.descr));
    var significant := FilterLongWords(descWords);
    terms := terms + significant;
  }

  /** `[word for word in desc_words if len(word) > 3]`. */
  method FilterLongWords(words: seq<string>) returns (r: seq<string>)
    ensures r == Filter(words, LongWord)
  {
    r := [];
    var i := 0;
    while i < |words|
      invariant 0 <= i <= |words|
      invariant r == Filter(words[..i], LongWord)
    {
      PrefixSnoc(words, i);
      if |words[i]| > 3 {
        r := r + [words[i]];
      }
      i := i + 1;
    }
    assert words[..i] == words;
  }

  // Terms: properties -------------------------------------------------

  lemma {:induction false} SubTermsMembers(ss: seq<SubTechnique>, w: string)
    ensures w in SubTerms(ss) <==> exists j :: 0 <= j < |ss| && ss[j].used && ss[j].name != "" && w == Lower(ss[j].name)
  {
    if ss != [] {
      var init := ss[..|ss| - 1];
      SubTermsMembers(init, w);
      assert forall j :: 0 <= j < |init| ==> init[j] == ss[j];
      if w in SubTerms(ss) && w !in SubTerms(init) {
        assert exists j :: 0 <= j < |ss| && ss[j].used && ss[j].name != "" && w == Lower(ss[j].name) by {
          var j := |ss| - 1;
          assert ss[j].used && ss[j].name != "" && w == Lower(ss[j].name);
        }
      }
      if w !in SubTerms(init) && exists j :: 0 <= j < |ss| && ss[j].used && ss[j].name != "" && w == Lower(ss[j].name) {
        var j :| 0 <= j < |ss| && ss[j].used && ss[j].name != "" && w == Lower(ss[j].name);
        assert j == |ss| - 1;
      }
    }
  }

  /** A used sub-technique's name is indexed only under a row that has a name. */
  lemma SubTermIndexedIffNamedRow(t: Technique, j: nat)
    requires j < |t.subs| && t.subs[j].used && t.subs[j].name != ""
    ensures Lower(t.subs[j].name) in TechniqueTerms(t) <==> t.name != ""
  {
    if t.name != "" {
      SubTermsMembers(t.subs, Lower(t.subs[j].name));
    }
  }

  lemma {:induction false} TechniquesTermsMembers(ts: seq<Technique>, w: string)
    ensures w in TechniquesTerms(ts) <==> exists i :: 0 <= i < |ts| && w in TechniqueTerms(ts[i])
  {
    if ts != [] {
      var init := ts[..|ts| - 1];
      TechniquesTermsMembers(init, w);
      ExistsSnoc(ts, init, t => w in TechniqueTerms(t));
    }
  }

  lemma {:induction false} SoftwareTermsMembers(sw: seq<Software>, w: string)
    ensures w in SoftwareTerms(sw) <==> exists k :: 0 <= k < |sw| && sw[k].name != "" && w == Lower(sw[k].name)
  {
    if sw != [] {
      var init := sw[..|sw| - 1];
      SoftwareTermsMembers(init, w);
      assert forall k :: 0 <= k < |init| ==> init[k] == sw[k];
      if w !in SoftwareTerms(init) && exists k :: 0 <= k < |sw| && sw[k].name != "" && w == Lower(sw[k].name) {
        var k :| 0 <= k < |sw| && sw[k].name != "" && w == Lower(sw[k].name);
        assert k == |sw| - 1;
      }
    }
  }

  /**
   * The collected terms are exactly: the lower-cased name, the lower-cased
   * aliases, the terms of the technique rows, the lower-cased names of the
   * named software and the description's words longer than three characters.
   */
  lemma GroupTermsMembers(g: Group, w: string)
    ensures w in GroupTerms(g) <==>
      w == Lower(g.name)
      || (exists i :: 0 <= i < |g.aliases| && w == Lower(g.aliases[i]))
      || (exists i :: 0 <= i < |g.techniques| && w in TechniqueTerms(g.techniques[i]))
      || (exists k :: 0 <= k < |g.SoftwareList()| && g.SoftwareList()[k].name != "" && w == Lower(g.SoftwareList()[k].name))
      || (w in Words(Lower(g.descr)) && |w| > 3)
  {
    TechniquesTermsMembers(g.techniques, w);
    SoftwareTermsMembers(g.SoftwareList(), w);
    FilterMembers(Words(Lower(g.descr)), LongWord, w);
    var la := LowerAll(g.aliases);
    if w in la {
      var i :| 0 <= i < |la| && la[i] == w;
      assert w == Lower(g.aliases[i]);
    }
    if exists i :: 0 <= i < |g.aliases| && w == Lower(g.aliases[i]) {
      var i :| 0 <= i < |g.aliases| && w == Lower(g.aliases[i]);
      assert la[i] == w;
    }
  }

  // ---------------------------------------------------------------------
  // Index rows
  // ---------------------------------------------------------------------

  /** A row of `search_index`: the stripped term, the group key, the score and the group name. */
  datatype IndexRow = IndexRow(term: string, attackId: string, relevance: nat, context: string)

  /** The row written for one raw term, or nothing for a term that strips to empty. */
  function RowFor(key: string, g: Group, t: string): set<IndexRow> {
    if Trim(t) != "" then {IndexRow(Trim(t), key, Relevance(t, g), g.name)} else {}
  }

  /** The rows written for the distinct terms of `ts`. */
  function RowsFor(key: string, g: Group, ts: set<string>): set<IndexRow> {
    set t, r | t in ts && r in RowFor(key, g, t) :: r
  }

  /** The rows inserted for one group under its cache key. */
  function GroupIndex(key: string, g: Group): set<IndexRow> {
    RowsFor(key, g, set t | t in GroupTerms(g))
  }

  lemma RowsForAdd(key: string, g: Group, done: set<string>, t: string)
    ensures RowsFor(key, g, done + {t}) == RowsFor(key, g, done) + RowFor(key, g, t)
  {
  }

  /** The insert for one term, skipped when the term strips to empty. */
  method IndexTerm(key: string, aptGroup: Group, term: string) returns (written: set<IndexRow>)
    ensures written == RowFor(key, aptGroup, term)
  {
    written := {};
    if Trim(term) != "" {
      var relevanceScore := CalculateRelevance(term, aptGroup);
      written := {IndexRow(Trim(term), key, relevanceScore, aptGroup.name)};
    }
  }

  /** `for term in set(terms): if term.strip(): insert(...)`, the rows of one group. */
  method IndexGroup(key: string, aptGroup: Group) returns (rows: set<IndexRow>)
    ensures rows == GroupIndex(key, aptGroup)
  {
    var terms := CollectTerms(aptGroup);
    var distinct := set t | t in terms;
    var remaining := distinct;
    rows := {};
    while remaining != {}
      invariant remaining <= distinct
      invariant rows == RowsFor(key, aptGroup, distinct - remaining)
      decreases |remaining|
    {
      var term :| term in remaining;
      RowsForAdd(key, aptGroup, distinct - remaining, term);
      var written := IndexTerm(key, aptGroup, term);
      rows := rows + written;
      assert distinct - (remaining - {term}) == (distinct - remaining) + {term};
      remaining := remaining - {term};
    }
    assert distinct - remaining == distinct;
  }

  /**
   * Every index row of a group carries a non-empty term that is the stripped
   * form of one of its collected terms, with that raw term's relevance and
   * the group's name as context.
   */
  lemma IndexRowsShape(key: string, g: Group, r: IndexRow)
    requires r in GroupIndex(key, g)
    ensures r.term != "" && r.attackId == key && r.context == g.name
    ensures exists t :: t in GroupTerms(g) && r.term == Trim(t) && r.relevance == Relevance(t, g)
  {
  }

  /** A collected term that does not strip to empty is indexed, with its own relevance. */
  lemma TermIndexed(key: string, g: Group, t: string)
    requires t in GroupTerms(g) && Trim(t) != ""
    ensures IndexRow(Trim(t), key, Relevance(t, g), g.name) in GroupIndex(key, g)
  {
    assert IndexRow(Trim(t), key, Relevance(t, g), g.name) in RowFor(key, g, t);
  }

  /** The lower-cased name is indexed and scores at least 10 (when it is not blank). */
  lemma NameIndexed(key: string, g: Group)
    requires Trim(Lower(g.name)) != ""
    ensures IndexRow(Trim(Lower(g.name)), key, Relevance(Lower(g.name), g), g.name) in GroupIndex(key, g)
    ensures Relevance(Lower(g.name), g) >= 10
  {
    assert Lower(g.name) in GroupTerms(g);
    TermIndexed(key, g, Lower(g.name));
  }

  /** Each word of the description longer than three characters is indexed as it is. */
  lemma DescriptionWordIndexed(key: string, g: Group, w: string)
    requires w in Words(Lower(g.descr)) && |w| > 3
    ensures IndexRow(w, key, Relevance(w, g), g.name) in GroupIndex(key, g)
  {
    GroupTermsMembers(g, w);
    var ws := Words(Lower(g.descr));
    var k :| 0 <= k < |ws| && ws[k] == w;
    TrimWord(w);
    TermIndexed(key, g, w);
  }

  /** The index over the cache's items, group by group. */
  function SearchIndex(items: seq<(string, Group)>): set<IndexRow> {
    if items == [] then {}
    else
      var it := items[|items| - 1];
      SearchIndex(items[..|items| - 1]) + GroupIndex(it.0, it.1)
  }

  lemma {:induction false} SearchIndexMembers(items: seq<(string, Group)>, r: IndexRow)
    ensures r in SearchIndex(items) <==> exists it :: it in items && r in GroupIndex(it.0, it.1)
  {
    if items != [] {
      var init := items[..|items| - 1];
      SearchIndexMembers(init, r);
      assert forall it :: it in items <==> it in init || it == items[|items| - 1];
    }
  }

  lemma SearchIndexSnoc(items: seq<(string, Group)>, i: nat)
    requires i < |items|
    ensures SearchIndex(items[..i + 1]) == SearchIndex(items[..i]) + GroupIndex(items[i].0, items[i].1)
  {
    PrefixSnoc(items, i);
  }

  /** The loop over `memory_cache.items()` that fills the index. */
  method BuildIndex(items: seq<(string, Group)>) returns (index: set<IndexRow>)
    ensures index == SearchIndex(items)
  {
    index := {};
    var i := 0;
    while i < |items|
      invariant 0 <= i <= |items|
      invariant index == SearchIndex(items[..i])
    {
      SearchIndexSnoc(items, i);
      var rows := IndexGroup(items[i].0, items[i].1);
      index := index + rows;
      i := i + 1;
    }
    assert items[..i] == items;
  }

  // ---------------------------------------------------------------------
  // Query post-processing (search_apt_groups)
  // ---------------------------------------------------------------------

  /** A row the `LIKE` query returned: `(attack_id, relevance_score, context)`. */
  datatype MatchRow = MatchRow(attackId: string, relevance: nat, context: string)

  /** A result dictionary of `search_apt_groups`. */
  datatype SearchHit = SearchHit(
    attackId: string, name: string, description: string, aliases: seq<string>,
    relevance: nat, context: string, techniquesCount: nat, softwareCount: nat)

  /** `d[:200] + "..."` when `d` is longer than 200 characters, `d` otherwise. */
  function Truncate200(d: string): (r: string)
    ensures |r| <= 203
    ensures |d| <= 200 ==> r == d
    ensures |d| > 200 ==> |r| == 203 && r[..200] == d[..200] && r[200..] == "..."
  {
    if |d| > 200 then d[..200] + "..." else d
  }

  function HitFor(row: MatchRow, g: Group): (h: SearchHit)
    ensures h.attackId == row.attackId && h.relevance == row.relevance && h.context == row.context
    ensures h.name == g.name && h.description == Truncate200(g.descr) && h.aliases == g.aliases
    ensures h.techniquesCount == |g.techniques| && h.softwareCount == |g.SoftwareList()|
  {
    SearchHit(row.attackId, g.name, Truncate200(g.descr), g.aliases,
              row.relevance, row.context, |g.techniques|, |g.SoftwareList()|)
  }

  /** The hits built from the query rows whose group is in the cache, in row order. */
  function Hits(m: Groups, rows: seq<MatchRow>): (hs: seq<SearchHit>)
    ensures |hs| <= |rows|
    ensures forall i :: 0 <= i < |hs| ==> hs[i].attackId in m.vals
  {
    if rows == [] then []
    else
      var row := rows[|rows| - 1];
      Hits(m, rows[..|rows| - 1]) + (if row.attackId in m.vals then [HitFor(row, m.vals[row.attackId])] else [])
  }

  function HitId(h: SearchHit): string { h.attackId }

  /** `lambda x: x['relevance_score']` with `reverse=True`: strictly more relevant goes first. */
  function MoreRelevant(a: SearchHit, b: SearchHit): bool { a.relevance > b.relevance }

  /**
   * The results returned: the hits sorted by decreasing relevance (stable
   * among equal scores), the first hit of each group kept, at most
   * `maxResults` of them.
   */
  function Ranked(hits: seq<SearchHit>, maxResults: nat): seq<SearchHit> {
    TakeFirst(DedupBy(SortBy(hits, MoreRelevant), HitId), maxResults)
  }

  method HitsOf(m: Groups, rows: seq<MatchRow>) returns (results: seq<SearchHit>)
    ensures results == Hits(m, rows)
  {
    results := [];
    var i := 0;
    while i < |rows|
      invariant 0 <= i <= |rows|
      invariant results == Hits(m, rows[..i])
    {
      PrefixSnoc(rows, i);
      var row := rows[i];
      if row.attackId in m.vals {
        var aptGroup := m.vals[row.attackId];
        results := results + [SearchHit(
          row.attackId, aptGroup.name,
          if |aptGroup.descr| > 200 then aptGroup.descr[..200] + "..." else aptGroup.descr,
          aptGroup.aliases, row.relevance, row.context,
          |aptGroup.techniques|, |aptGroup.SoftwareList()|)];
      }
      i := i + 1;
    }
    assert rows[..i] == rows;
  }

  /** The `seen` loop over the sorted hits, then `unique_results[:max_results]`. */
  method UniqueResults(sortedHits: seq<SearchHit>, maxResults: nat) returns (uniqueResults: seq<SearchHit>)
    ensures uniqueResults == TakeFirst(DedupBy(sortedHits, HitId), maxResults)
  {
    var seen: set<string> := {};
    var unique: seq<SearchHit> := [];
    var i := 0;
    while i < |sortedHits|
      invariant 0 <= i <= |sortedHits|
      invariant unique == DedupBy(sortedHits[..i], HitId)
      invariant seen == KeySet(unique, HitId)
    {
      PrefixSnoc(sortedHits, i);
      var result := sortedHits[i];
      if result.attackId !in seen {
        seen := seen + {result.attackId};
        unique := unique + [result];
        assert unique[..|unique| - 1] == DedupBy(sortedHits[..i], HitId);
      }
      i := i + 1;
    }
    assert sortedHits[..i] == sortedHits;
    uniqueResults := TakeFirst(unique, maxResults);
  }

  /** The post-processing of `search_apt_groups` on the rows its queries returned. */
  method RankResults(m: Groups, rows: seq<MatchRow>, maxResults: nat) returns (results: seq<SearchHit>)
    ensures results == Ranked(Hits(m, rows), maxResults)
  {
    var hits := HitsOf(m, rows);
    var sortedHits := SortBy(hits, MoreRelevant);
    results := UniqueResults(sortedHits, maxResults);
  }

  // Ranking: properties -----------------------------------------------

  lemma MoreRelevantIsStrict()
    ensures StrictOrder(MoreRelevant)
  {
  }

  lemma {:induction false} KeySetOfPermutation(a: seq<SearchHit>, b: seq<SearchHit>)
    requires multiset(a) == multiset(b)
    ensures KeySet(a, HitId) == KeySet(b, HitId)
  {
    forall k ensures k in KeySet(a, HitId) <==> k in KeySet(b, HitId) {
      KeySetMembers(a, HitId, k);
      KeySetMembers(b, HitId, k);
      if k in KeySet(a, HitId) {
        var i :| 0 <= i < |a| && HitId(a[i]) == k;
        assert a[i] in multiset(b);
        var j :| 0 <= j < |b| && b[j] == a[i];
      }
      if k in KeySet(b, HitId) {
        var j :| 0 <= j < |b| && HitId(b[j]) == k;
        assert b[j] in multiset(a);
        var i :| 0 <= i < |a| && a[i] == b[j];
      }
    }
  }

  /**
   * The ranked results: at most `maxResults`, one per group, in
   * non-increasing relevance, and each one of the hits; a hit whose group
   * is left out comes with `maxResults` results, none less relevant.
   */
  lemma RankedProperties(hits: seq<SearchHit>, maxResults: nat)
    ensures var r := Ranked(hits, maxResults);
      |r| <= maxResults &&
      (forall i, j :: 0 <= i < j < |r| ==> r[i].attackId != r[j].attackId) &&
      (forall i, j :: 0 <= i < j < |r| ==> r[i].relevance >= r[j].relevance) &&
      (forall i :: 0 <= i < |r| ==> r[i] in hits) &&
      (forall h :: h in hits && h.attackId !in KeySet(r, HitId) ==>
        |r| == maxResults && (maxResults > 0 ==> h.relevance <= r[maxResults - 1].relevance))
  {
    RankedOrdered(hits, maxResults);
    var r := Ranked(hits, maxResults);
    forall h | h in hits && h.attackId !in KeySet(r, HitId)
      ensures |r| == maxResults && (maxResults > 0 ==> h.relevance <= r[maxResults - 1].relevance)
    {
      RankedMaximal(hits, maxResults, h);
    }
  }

  lemma RankedOrdered(hits: seq<SearchHit>, maxResults: nat)
    ensures var r := Ranked(hits, maxResults);
      |r| <= maxResults &&
      (forall i, j :: 0 <= i < j < |r| ==> r[i].attackId != r[j].attackId) &&
      (forall i, j :: 0 <= i < j < |r| ==> r[i].relevance >= r[j].relevance) &&
      (forall i :: 0 <= i < |r| ==> r[i] in hits)
  {
    var sorted := SortBy(hits, MoreRelevant);
    MoreRelevantIsStrict();
    SortBySorted(hits, MoreRelevant);
    var d := DedupBy(sorted, HitId);
    DedupByProperties(sorted, HitId);
    DedupBySorted(sorted, HitId, MoreRelevant);
    DedupBySubset(sorted, HitId);
    var r := Ranked(hits, maxResults);
    forall i | 0 <= i < |r| ensures r[i] in hits {
      assert r[i] == d[i] && d[i] in sorted && d[i] in multiset(sorted);
    }
  }

  /** Each result carries the highest relevance of any hit for its group. */
  lemma RankedKeepsBest(hits: seq<SearchHit>, maxResults: nat, i: nat, h: SearchHit)
    requires i < |Ranked(hits, maxResults)| && h in hits
    requires h.attackId == Ranked(hits, maxResults)[i].attackId
    ensures Ranked(hits, maxResults)[i].relevance >= h.relevance
  {
    var sorted := SortBy(hits, MoreRelevant);
    MoreRelevantIsStrict();
    SortBySorted(hits, MoreRelevant);
    var d := DedupBy(sorted, HitId);
    assert Ranked(hits, maxResults)[i] == d[i];
    assert h in multiset(sorted);
    DedupByKeepsBest(sorted, HitId, MoreRelevant, d[i], h);
  }

  /**
   * A group left out of the results means `maxResults` results came back,
   * each as relevant as any hit of that group.
   */
  lemma RankedMaximal(hits: seq<SearchHit>, maxResults: nat, h: SearchHit)
    requires h in hits && h.attackId !in KeySet(Ranked(hits, maxResults), HitId)
    ensures var r := Ranked(hits, maxResults);
      |r| == maxResults && (maxResults > 0 ==> h.relevance <= r[maxResults - 1].relevance)
  {
    MoreRelevantIsStrict();
    var best := TakeDedupSortedMaximal(hits, HitId, MoreRelevant, maxResults, h);
  }

  /** When fewer than `maxResults` results come back, every hit's group is among them. */
  lemma RankedComplete(hits: seq<SearchHit>, maxResults: nat)
    requires |Ranked(hits, maxResults)| < maxResults
    ensures KeySet(Ranked(hits, maxResults), HitId) == KeySet(hits, HitId)
  {
    var sorted := SortBy(hits, MoreRelevant);
    DedupByProperties(sorted, HitId);
    KeySetOfPermutation(sorted, hits);
  }
}
