/**
 * Cross-entity search over the group map.
 *
 * The Next.js search dashboards (`searchResults`, `toggleType`,
 * `getDetailedInfo`) and the Python dashboards' search (`perform_search` and
 * its inline copy in `main`) visit the groups in map order and, inside a
 * group, report the group itself, then each technique row followed by its
 * sub-techniques, then the software. Nothing is de-duplicated: every matching
 * row of every group gives its own result.
 */
module Search {
  import opened Wrappers
  import opened Strings
  import opened Collections
  import opened Entities

  // ---------------------------------------------------------------------
  // Next.js: results
  // ---------------------------------------------------------------------

  /** The entity kinds of the type filter: 'group', 'technique', 'software'. */
  datatype Kind = GroupKind | TechniqueKind | SoftwareKind

  /** A `SearchResult`; sub-technique hits have kind `TechniqueKind` too. */
  datatype SearchResult = SearchResult(
    kind: Kind, id: string, name: string, description: string,
    groupName: Option<string>, groupId: Option<string>, used: Option<bool>)

  /** `x?.toLowerCase().includes(term)` on an optional field: false when it is missing. */
  predicate OptContains(x: Option<string>, term: string) {
    x.Some? && Contains(Lower(x.value), term)
  }

  predicate GroupMatches(term: string, g: Group) {
    Contains(Lower(g.name), term) || Contains(Lower(g.attackId), term) || Contains(Lower(g.descr), term)
  }

  predicate RowMatches(term: string, t: Technique) {
    Contains(Lower(t.name), term) || Contains(Lower(t.id), term) || OptContains(t.descr, term)
  }

  predicate SubMatches(term: string, s: SubTechnique) {
    Contains(Lower(s.name), term) || Contains(Lower(s.id), term) || Contains(Lower(s.descr), term)
  }

  predicate SoftwareMatches(term: string, s: Software) {
    Contains(Lower(s.name), term) || Contains(Lower(s.id), term) || OptContains(s.description, term)
  }

  const NoDescription := "No description available"

  /** `d.slice(0, 200) + '...'`: at most 200 leading characters of `d`, then "...". */
  function Snippet(d: string): (r: string)
    ensures |r| == (if |d| < 200 then |d| else 200) + 3
    ensures r[..|r| - 3] == d[..|r| - 3] && r[|r| - 3..] == "..."
  {
    Take(d, 200) + "..."
  }

  /** `(d || 'No description available').slice(0, 200) + '...'`. */
  function DefaultedSnippet(d: string): string {
    Snippet(if d == "" then NoDescription else d)
  }

  /**
   * `d?.slice(0, 200) + '...' || 'No description available'`: the fallback is
   * never taken, and a missing value becomes the text "undefined...".
   */
  function OptionalSnippet(d: Option<string>): (r: string)
    ensures d.None? ==> r == "undefined..."
    ensures d.Some? ==> r == Snippet(d.value)
    ensures r != NoDescription
  {
    match d
    case None => "undefined..."
    case Some(x) =>
      assert Snippet(x)[|Snippet(x)| - 1] == '.' != NoDescription[|NoDescription| - 1];
      Snippet(x)
  }

  function GroupResult(g: Group): SearchResult {
    SearchResult(GroupKind, g.attackId, g.name, DefaultedSnippet(g.descr), None, None, None)
  }

  function RowResult(g: Group, t: Technique): SearchResult {
    SearchResult(TechniqueKind, t.id, t.name, OptionalSnippet(t.descr), Some(g.name), Some(g.attackId), Some(t.used))
  }

  /** A sub-technique hit: the composite id and the sub-technique's own `technique_used`. */
  function SubResult(g: Group, t: Technique, s: SubTechnique): SearchResult {
    SearchResult(TechniqueKind, t.id + "." + s.id, s.name, DefaultedSnippet(s.descr), Some(g.name), Some(g.attackId), Some(s.used))
  }

  function SoftwareResult(g: Group, s: Software): SearchResult {
    SearchResult(SoftwareKind, s.id, s.name, OptionalSnippet(s.description), Some(g.name), Some(g.attackId), None)
  }

  /** The result a group gives for itself. */
  function GroupHit(term: string, g: Group): seq<SearchResult> {
    if GroupMatches(term, g) then [GroupResult(g)] else []
  }

  /** The results the `ss` among a row's sub-techniques give. */
  function SubHits(term: string, g: Group, t: Technique, ss: seq<SubTechnique>): (r: seq<SearchResult>)
    ensures forall i :: 0 <= i < |r| ==> r[i].kind == TechniqueKind && r[i].groupId == Some(g.attackId)
  {
    if ss == [] then []
    else
      var s := ss[|ss| - 1];
      SubHits(term, g, t, ss[..|ss| - 1]) + (if SubMatches(term, s) then [SubResult(g, t, s)] else [])
  }

  /** One technique row: its own result, then those of its sub-techniques. */
  function TechniqueHits(term: string, g: Group, t: Technique): (r: seq<SearchResult>)
    ensures forall i :: 0 <= i < |r| ==> r[i].kind == TechniqueKind && r[i].groupId == Some(g.attackId)
  {
    (if RowMatches(term, t) then [RowResult(g, t)] else []) + SubHits(term, g, t, t.subs)
  }

  function TechniquesHits(term: string, g: Group, ts: seq<Technique>): (r: seq<SearchResult>)
    ensures forall i :: 0 <= i < |r| ==> r[i].kind == TechniqueKind && r[i].groupId == Some(g.attackId)
  {
    if ts == [] then [] else TechniquesHits(term, g, ts[..|ts| - 1]) + TechniqueHits(term, g, ts[|ts| - 1])
  }

  function SoftwareHits(term: string, g: Group, ss: seq<Software>): (r: seq<SearchResult>)
    ensures forall i :: 0 <= i < |r| ==> r[i].kind == SoftwareKind && r[i].groupId == Some(g.attackId)
  {
    if ss == [] then []
    else
      var s := ss[|ss| - 1];
      SoftwareHits(term, g, ss[..|ss| - 1]) + (if SoftwareMatches(term, s) then [SoftwareResult(g, s)] else [])
  }

  /** A group's results: itself, its techniques and sub-techniques, its software, each part only when its kind is selected. */
  function GroupResults(term: string, sel: seq<Kind>, g: Group): (r: seq<SearchResult>)
    ensures forall i :: 0 <= i < |r| ==> r[i].kind in sel
  {
    (if GroupKind in sel then GroupHit(term, g) else []) +
    (if TechniqueKind in sel then TechniquesHits(term, g, g.techniques) else []) +
    (if SoftwareKind in sel then SoftwareHits(term, g, g.SoftwareList()) else [])
  }

  function SearchFrom(term: string, sel: seq<Kind>, gs: seq<Group>): (r: seq<SearchResult>)
    ensures forall i :: 0 <= i < |r| ==> r[i].kind in sel
  {
    if gs == [] then [] else SearchFrom(term, sel, gs[..|gs| - 1]) + GroupResults(term, sel, gs[|gs| - 1])
  }

  /**
   * `searchResults`: nothing for a blank query, otherwise the hits of the
   * lower-cased (untrimmed) query in every group, in map order; only the
   * selected kinds appear.
   */
  function ResultsFor(m: Groups, searchTerm: string, sel: seq<Kind>): (r: seq<SearchResult>)
    requires m.Valid()
    ensures IsBlank(searchTerm) ==> r == []
    ensures forall i :: 0 <= i < |r| ==> r[i].kind in sel
  {
    TrimEmptyIff(searchTerm);
    if Trim(searchTerm) == [] then [] else SearchFrom(Lower(searchTerm), sel, m.Values())
  }

  /** The `useMemo` body of `searchResults`, pushing into one `results` array. */
  method SearchResults(aptGroups: Groups, searchTerm: string, selectedTypes: seq<Kind>) returns (results: seq<SearchResult>)
    requires aptGroups.Valid()
    ensures results == ResultsFor(aptGroups, searchTerm, selectedTypes)
  {
    if Trim(searchTerm) == [] {
      return [];
    }
    results := [];
    var term := Lower(searchTerm);
    var groups := aptGroups.Values();
    var i := 0;
    while i < |groups|
      invariant 0 <= i <= |groups|
      invariant results == SearchFrom(term, selectedTypes, groups[..i])
    {
      results := SearchGroup(results, term, selectedTypes, groups[i]);
      SearchFromSnoc(term, selectedTypes, groups, i);
      i := i + 1;
    }
    assert groups[..i] == groups;
  }

  lemma SearchFromSnoc(term: string, sel: seq<Kind>, gs: seq<Group>, i: nat)
    requires i < |gs|
    ensures SearchFrom(term, sel, gs[..i + 1]) == SearchFrom(term, sel, gs[..i]) + GroupResults(term, sel, gs[i])
  {
    PrefixSnoc(gs, i);
  }

  /** The body of the `forEach` over the groups. */
  method SearchGroup(results: seq<SearchResult>, term: string, selectedTypes: seq<Kind>, group: Group) returns (out: seq<SearchResult>)
    ensures out == results + GroupResults(term, selectedTypes, group)
  {
    ghost var a := if GroupKind in selectedTypes then GroupHit(term, group) else [];
    ghost var b := if TechniqueKind in selectedTypes then TechniquesHits(term, group, group.techniques) else [];
    ghost var c := if SoftwareKind in selectedTypes then SoftwareHits(term, group, group.SoftwareList()) else [];
    out := results;
    if GroupKind in selectedTypes {
      if GroupMatches(term, group) {
        out := out + [GroupResult(group)];
      }
    }
    assert out == results + a;
    if TechniqueKind in selectedTypes {
      out := SearchTechniques(out, term, group, group.techniques);
    }
    assert out == results + a + b;
    if SoftwareKind in selectedTypes {
      out := SearchSoftware(out, term, group, group.SoftwareList());
    }
    assert out == results + a + b + c;
    ConcatAssoc3(results, a, b, c);
    assert GroupResults(term, selectedTypes, group) == a + b + c;
  }

  /** The `techniques.forEach` of one group. */
  method SearchTechniques(results: seq<SearchResult>, term: string, group: Group, techniques: seq<Technique>) returns (out: seq<SearchResult>)
    ensures out == results + TechniquesHits(term, group, techniques)
  {
    out := results;
    var j := 0;
    while j < |techniques|
      invariant 0 <= j <= |techniques|
      invariant out == results + TechniquesHits(term, group, techniques[..j])
    {
      out := SearchTechnique(out, term, group, techniques[j]);
      TechniquesHitsSnoc(term, group, techniques, j);
      ConcatAssoc(results, TechniquesHits(term, group, techniques[..j]), TechniqueHits(term, group, techniques[j]));
      j := j + 1;
    }
    assert techniques[..j] == techniques;
  }

  lemma TechniquesHitsSnoc(term: string, g: Group, ts: seq<Technique>, j: nat)
    requires j < |ts|
    ensures TechniquesHits(term, g, ts[..j + 1]) == TechniquesHits(term, g, ts[..j]) + TechniqueHits(term, g, ts[j])
  {
    PrefixSnoc(ts, j);
  }

  /** One technique row and then its `subtechniques.forEach`. */
  method SearchTechnique(results: seq<SearchResult>, term: string, group: Group, technique: Technique) returns (out: seq<SearchResult>)
    ensures out == results + TechniqueHits(term, group, technique)
  {
    out := results;
    if RowMatches(term, technique) {
      out := out + [RowResult(group, technique)];
    }
    ghost var afterRow := out;
    var k := 0;
    while k < |technique.subs|
      invariant 0 <= k <= |technique.subs|
      invariant out == afterRow + SubHits(term, group, technique, technique.subs[..k])
    {
      var subtechnique := technique.subs[k];
      if SubMatches(term, subtechnique) {
        out := out + [SubResult(group, technique, subtechnique)];
      }
      SubHitsSnoc(term, group, technique, technique.subs, k);
      ConcatAssoc(afterRow, SubHits(term, group, technique, technique.subs[..k]),
        if SubMatches(term, subtechnique) then [SubResult(group, technique, subtechnique)] else []);
      k := k + 1;
    }
    assert technique.subs[..k] == technique.subs;
    ConcatAssoc(results, if RowMatches(term, technique) then [RowResult(group, technique)] else [], SubHits(term, group, technique, technique.subs));
  }

  lemma SubHitsSnoc(term: string, g: Group, t: Technique, ss: seq<SubTechnique>, k: nat)
    requires k < |ss|
    ensures SubHits(term, g, t, ss[..k + 1])
         == SubHits(term, g, t, ss[..k]) + (if SubMatches(term, ss[k]) then [SubResult(g, t, ss[k])] else [])
  {
    PrefixSnoc(ss, k);
  }

  /** The `software_data?.forEach` of one group. */
  method SearchSoftware(results: seq<SearchResult>, term: string, group: Group, software: seq<Software>) returns (out: seq<SearchResult>)
    ensures out == results + SoftwareHits(term, group, software)
  {
    out := results;
    var k := 0;
    while k < |software|
      invariant 0 <= k <= |software|
      invariant out == results + SoftwareHits(term, group, software[..k])
    {
      if SoftwareMatches(term, software[k]) {
        out := out + [SoftwareResult(group, software[k])];
      }
      SoftwareHitsSnoc(term, group, software, k);
      ConcatAssoc(results, SoftwareHits(term, group, software[..k]),
        if SoftwareMatches(term, software[k]) then [SoftwareResult(group, software[k])] else []);
      k := k + 1;
    }
    assert software[..k] == software;
  }

  lemma SoftwareHitsSnoc(term: string, g: Group, ss: seq<Software>, k: nat)
    requires k < |ss|
    ensures SoftwareHits(term, g, ss[..k + 1])
         == SoftwareHits(term, g, ss[..k]) + (if SoftwareMatches(term, ss[k]) then [SoftwareResult(g, ss[k])] else [])
  {
    PrefixSnoc(ss, k);
  }

  // ---------------------------------------------------------------------
  // Next.js: properties of the results
  // ---------------------------------------------------------------------

  lemma {:induction false} SubHitsMembers(term: string, g: Group, t: Technique, ss: seq<SubTechnique>, r: SearchResult)
    ensures r in SubHits(term, g, t, ss) <==> exists s :: s in ss && SubMatches(term, s) && r == SubResult(g, t, s)
  {
    if ss != [] {
      var init, s := ss[..|ss| - 1], ss[|ss| - 1];
      SubHitsMembers(term, g, t, init, r);
      assert forall x :: x in ss <==> x in init || x == s;
    }
  }

  /** A technique hit of a group is the result of one of its matching rows, or of a matching sub-technique of one of them. */
  lemma {:induction false} TechniquesHitsMembers(term: string, g: Group, ts: seq<Technique>, r: SearchResult)
    ensures r in TechniquesHits(term, g, ts) <==>
      exists t :: t in ts && ((RowMatches(term, t) && r == RowResult(g, t)) || r in SubHits(term, g, t, t.subs))
  {
    if ts != [] {
      var init, t := ts[..|ts| - 1], ts[|ts| - 1];
      TechniquesHitsMembers(term, g, init, r);
      assert forall x :: x in ts <==> x in init || x == t;
    }
  }

  /** Every matching row gives a result carrying its own group's id and name and its own `technique_used`. */
  lemma RowFound(term: string, g: Group, t: Technique)
    requires t in g.techniques && RowMatches(term, t)
    ensures RowResult(g, t) in TechniquesHits(term, g, g.techniques)
    ensures RowResult(g, t).groupId == Some(g.attackId) && RowResult(g, t).groupName == Some(g.name)
    ensures RowResult(g, t).used == Some(t.used)
  {
    TechniquesHitsMembers(term, g, g.techniques, RowResult(g, t));
  }

  /** Every matching sub-technique gives a result with the composite id and its own `technique_used`. */
  lemma SubFound(term: string, g: Group, t: Technique, s: SubTechnique)
    requires t in g.techniques && s in t.subs && SubMatches(term, s)
    ensures SubResult(g, t, s) in TechniquesHits(term, g, g.techniques)
    ensures SubResult(g, t, s).id == t.id + "." + s.id && SubResult(g, t, s).used == Some(s.used)
  {
    SubHitsMembers(term, g, t, t.subs, SubResult(g, t, s));
    TechniquesHitsMembers(term, g, g.techniques, SubResult(g, t, s));
  }

  lemma {:induction false} TechniquesHitsConcat(term: string, g: Group, p: seq<Technique>, q: seq<Technique>)
    ensures TechniquesHits(term, g, p + q) == TechniquesHits(term, g, p) + TechniquesHits(term, g, q)
    decreases |q|
  {
    if q == [] {
      ConcatNil(p);
      ConcatNil(TechniquesHits(term, g, p));
    } else {
      var q', x := q[..|q| - 1], q[|q| - 1];
      TechniquesHitsConcat(term, g, p, q');
      ConcatLast(p, q);
      ConcatAssoc(TechniquesHits(term, g, p), TechniquesHits(term, g, q'), TechniqueHits(term, g, x));
    }
  }

  /** No de-duplication: a technique table listed twice gives its hits twice. */
  lemma RepeatedRowsRepeatHits(term: string, g: Group, ts: seq<Technique>)
    ensures TechniquesHits(term, g, ts + ts) == TechniquesHits(term, g, ts) + TechniquesHits(term, g, ts)
  {
    TechniquesHitsConcat(term, g, ts, ts);
  }

  /** A result is a hit of one of the groups searched. */
  lemma {:induction false} SearchFromMembers(term: string, sel: seq<Kind>, gs: seq<Group>, r: SearchResult)
    ensures r in SearchFrom(term, sel, gs) <==> exists g :: g in gs && r in GroupResults(term, sel, g)
  {
    if gs != [] {
      var init, g := gs[..|gs| - 1], gs[|gs| - 1];
      SearchFromMembers(term, sel, init, r);
      assert forall x :: x in gs <==> x in init || x == g;
    }
  }

  /** With the technique kind selected and a non-blank query, every matching row of every group is reported. */
  lemma RowReported(m: Groups, searchTerm: string, sel: seq<Kind>, g: Group, t: Technique)
    requires m.Valid() && !IsBlank(searchTerm) && TechniqueKind in sel
    requires g in m.Values() && t in g.techniques && RowMatches(Lower(searchTerm), t)
    ensures RowResult(g, t) in ResultsFor(m, searchTerm, sel)
  {
    TrimEmptyIff(searchTerm);
    RowFound(Lower(searchTerm), g, t);
    SearchFromMembers(Lower(searchTerm), sel, m.Values(), RowResult(g, t));
  }

  /** The results that are not of kind `k`. */
  function OtherKinds(k: Kind): SearchResult -> bool {
    (r: SearchResult) => r.kind != k
  }

  /** An all-`kd` part of a group's results, in the selection `sel'` and filtered from the selection `sel`. */
  lemma PartWithout(xs: seq<SearchResult>, kd: Kind, k: Kind, inSel: bool, inSel': bool)
    requires forall i :: 0 <= i < |xs| ==> xs[i].kind == kd
    requires kd == k ==> !inSel'
    requires kd != k ==> (inSel' <==> inSel)
    ensures (if inSel' then xs else []) == Filter(if inSel then xs else [], OtherKinds(k))
  {
    if kd == k {
      FilterNone(if inSel then xs else [], OtherKinds(k));
    } else {
      FilterAll(if inSel then xs else [], OtherKinds(k));
    }
  }

  /** Dropping kind `k` from the selection drops exactly the results of kind `k`. */
  lemma GroupResultsWithout(term: string, sel: seq<Kind>, sel': seq<Kind>, k: Kind, g: Group)
    requires k !in sel' && forall x :: x != k ==> (x in sel' <==> x in sel)
    ensures GroupResults(term, sel', g) == Filter(GroupResults(term, sel, g), OtherKinds(k))
  {
    var a := if GroupKind in sel then GroupHit(term, g) else [];
    var b := if TechniqueKind in sel then TechniquesHits(term, g, g.techniques) else [];
    var c := if SoftwareKind in sel then SoftwareHits(term, g, g.SoftwareList()) else [];
    PartWithout(GroupHit(term, g), GroupKind, k, GroupKind in sel, GroupKind in sel');
    PartWithout(TechniquesHits(term, g, g.techniques), TechniqueKind, k, TechniqueKind in sel, TechniqueKind in sel');
    PartWithout(SoftwareHits(term, g, g.SoftwareList()), SoftwareKind, k, SoftwareKind in sel, SoftwareKind in sel');
    FilterConcat(a + b, c, OtherKinds(k));
    FilterConcat(a, b, OtherKinds(k));
  }

  lemma {:induction false} SearchFromWithout(term: string, sel: seq<Kind>, sel': seq<Kind>, k: Kind, gs: seq<Group>)
    requires k !in sel' && forall x :: x != k ==> (x in sel' <==> x in sel)
    ensures SearchFrom(term, sel', gs) == Filter(SearchFrom(term, sel, gs), OtherKinds(k))
  {
    if gs != [] {
      var init, g := gs[..|gs| - 1], gs[|gs| - 1];
      SearchFromWithout(term, sel, sel', k, init);
      GroupResultsWithout(term, sel, sel', k, g);
      FilterConcat(SearchFrom(term, sel, init), GroupResults(term, sel, g), OtherKinds(k));
    }
  }

  // ---------------------------------------------------------------------
  // Next.js: the type filter and the detail lookup
  // ---------------------------------------------------------------------

  /** `toggleType`: remove the kind when it is selected, append it otherwise. */
  function ToggleType(sel: seq<Kind>, k: Kind): (r: seq<Kind>)
    ensures k in r <==> k !in sel
    ensures forall x :: x != k ==> (x in r <==> x in sel)
  {
    if k in sel then
      var r := Filter(sel, (x: Kind) => x != k);
      forall x ensures x in r <==> x in sel && x != k {
        FilterMembers(sel, (x0: Kind) => x0 != k, x);
      }
      r
    else sel + [k]
  }

  /** Appending a kind and toggling it again restores the selection. */
  lemma ToggleTwice(sel: seq<Kind>, k: Kind)
    requires k !in sel
    ensures ToggleType(ToggleType(sel, k), k) == sel
  {
    FilterSnoc(sel, k, (x: Kind) => x != k);
    FilterAll(sel, (x: Kind) => x != k);
  }

  /** Toggling a kind off removes exactly its results and leaves the others unchanged. */
  lemma ToggleOffDropsKind(m: Groups, searchTerm: string, sel: seq<Kind>, k: Kind)
    requires m.Valid() && k in sel
    ensures ResultsFor(m, searchTerm, ToggleType(sel, k)) == Filter(ResultsFor(m, searchTerm, sel), OtherKinds(k))
  {
    if Trim(searchTerm) != [] {
      SearchFromWithout(Lower(searchTerm), sel, ToggleType(sel, k), k, m.Values());
    }
  }

  /** Toggling a kind on adds its results and leaves the others unchanged. */
  lemma ToggleOnKeepsOthers(m: Groups, searchTerm: string, sel: seq<Kind>, k: Kind)
    requires m.Valid() && k !in sel
    ensures ResultsFor(m, searchTerm, sel) == Filter(ResultsFor(m, searchTerm, ToggleType(sel, k)), OtherKinds(k))
  {
    if Trim(searchTerm) != [] {
      SearchFromWithout(Lower(searchTerm), ToggleType(sel, k), sel, k, m.Values());
    }
  }

  /** What a detail view shows for a technique result: a row or one of its sub-techniques. */
  datatype TechniqueDetail = RowDetail(row: Technique) | SubDetail(sub: SubTechnique)

  datatype DetailedInfo = DetailedInfo(group: Option<Group>, technique: Option<TechniqueDetail>, software: Option<Software>)

  /** The row has the id, or one of its sub-techniques has it as composite id. */
  predicate CarriesId(t: Technique, id: string) {
    t.id == id || exists st :: st in t.subs && t.id + "." + st.id == id
  }

  /** The group a result came from: the first one whose id is the result's group id or whose name is the result's name. */
  predicate OwnerOf(r: SearchResult, g: Group) {
    Some(g.attackId) == r.groupId || g.name == r.name
  }

  /**
   * `getDetailedInfo`: the first owning group, then for a technique result
   * the first row carrying the id and, inside it, the sub-technique with that
   * composite id (preferred over the row); for software the first entry with
   * that id.
   */
  function GetDetailedInfo(m: Groups, r: SearchResult): (info: DetailedInfo)
    requires m.Valid()
    ensures info.group.Some? <==> exists i :: 0 <= i < |m.Values()| && OwnerOf(r, m.Values()[i])
    ensures info.group.Some? ==> OwnerOf(r, info.group.value)
    ensures info.technique.Some? ==> r.kind == TechniqueKind
    ensures info.software.Some? ==> r.kind == SoftwareKind && info.software.value.id == r.id
  {
    var group := Find(m.Values(), (g: Group) => OwnerOf(r, g));
    if r.kind == GroupKind && group.Some? then DetailedInfo(group, None, None)
    else if r.kind == TechniqueKind && group.Some? then
      var technique := Find(group.value.techniques, (t: Technique) => CarriesId(t, r.id));
      var sub := if technique.Some? then Find(technique.value.subs, (st: SubTechnique) => technique.value.id + "." + st.id == r.id) else None;
      DetailedInfo(group, if sub.Some? then Some(SubDetail(sub.value)) else if technique.Some? then Some(RowDetail(technique.value)) else None, None)
    else if r.kind == SoftwareKind && group.Some? then
      DetailedInfo(group, None, Find(group.value.SoftwareList(), (s: Software) => s.id == r.id))
    else DetailedInfo(group, None, None)
  }

  /** A group's own results name it as their owner. */
  lemma GroupResultsOwned(term: string, sel: seq<Kind>, g: Group, r: SearchResult)
    requires r in GroupResults(term, sel, g)
    ensures OwnerOf(r, g)
  {
    var a := if GroupKind in sel then GroupHit(term, g) else [];
    var b := if TechniqueKind in sel then TechniquesHits(term, g, g.techniques) else [];
    var c := if SoftwareKind in sel then SoftwareHits(term, g, g.SoftwareList()) else [];
    assert r in a || r in b || r in c;
  }

  /** Every search result has a group to show in its detail view. */
  lemma ResultsHaveGroup(m: Groups, searchTerm: string, sel: seq<Kind>, r: SearchResult)
    requires m.Valid() && r in ResultsFor(m, searchTerm, sel)
    ensures GetDetailedInfo(m, r).group.Some?
  {
    SearchFromMembers(Lower(searchTerm), sel, m.Values(), r);
    var g :| g in m.Values() && r in GroupResults(Lower(searchTerm), sel, g);
    GroupResultsOwned(Lower(searchTerm), sel, g, r);
    var i :| 0 <= i < |m.Values()| && m.Values()[i] == g;
  }

  // ---------------------------------------------------------------------
  // Python: perform_search and the inline search of main
  // ---------------------------------------------------------------------

  datatype PyKind = AptGroup | PyTechnique | PySubtechnique | PySoftware

  /** The `Details` column; the surrounding display text is not modelled, only the numbers and the excerpt. */
  datatype PyDetails = GroupSizes(techniques: nat, software: nat) | Excerpt(text: string) | SoftwareUse(techniques: nat)

  datatype PyResult = PyResult(kind: PyKind, name: string, id: string, matchedOn: string, details: PyDetails)

  predicate PyGroupMatches(q: string, g: Group) {
    Contains(Lower(g.name), q) || exists i :: 0 <= i < |g.aliases| && Contains(Lower(g.aliases[i]), q)
  }

  predicate PyRowMatches(q: string, t: Technique) {
    Contains(Lower(t.name), q) || Contains(Lower(t.id), q)
  }

  predicate PySubMatches(q: string, s: SubTechnique) {
    Contains(Lower(s.name), q) || Contains(Lower(s.id), q)
  }

  predicate PySoftwareMatches(q: string, s: Software) {
    Contains(Lower(s.name), q) || Contains(Lower(s.id), q)
  }

  /** `d[:100] + "..." if d else ''`. */
  function Excerpt100(d: string): (r: string)
    ensures d == [] <==> r == []
    ensures |r| <= 103
  {
    if d == "" then "" else Take(d, 100) + "..."
  }

  /** The row is keyed by the dict key of the group, which need not be its ATT&CK id. */
  function PyGroupResult(key: string, g: Group): PyResult {
    PyResult(AptGroup, g.name, key, "Group name/alias", GroupSizes(|g.techniques|, |g.SoftwareList()|))
  }

  function PyRowResult(g: Group, t: Technique): PyResult {
    PyResult(PyTechnique, t.name, t.id, "Used by " + g.name, Excerpt(Excerpt100(t.descr.GetOr(""))))
  }

  function PySubResult(g: Group, t: Technique, s: SubTechnique): PyResult {
    PyResult(PySubtechnique, s.name, t.id + "." + s.id, "Used by " + g.name, Excerpt(Excerpt100(s.descr)))
  }

  function PySoftwareResult(g: Group, s: Software): PyResult {
    PyResult(PySoftware, s.name, s.id, "Used by " + g.name, SoftwareUse(|s.techniques|))
  }

  function PySubHits(q: string, g: Group, t: Technique, ss: seq<SubTechnique>): seq<PyResult> {
    if ss == [] then []
    else
      var s := ss[|ss| - 1];
      PySubHits(q, g, t, ss[..|ss| - 1]) + (if PySubMatches(q, s) && s.used then [PySubResult(g, t, s)] else [])
  }

  /** A row is reported only when it matches and is used; its sub-techniques are searched either way. */
  function PyTechniqueHits(q: string, g: Group, t: Technique): seq<PyResult> {
    (if PyRowMatches(q, t) && t.used then [PyRowResult(g, t)] else []) + PySubHits(q, g, t, t.subs)
  }

  function PyTechniquesHits(q: string, g: Group, ts: seq<Technique>): seq<PyResult> {
    if ts == [] then [] else PyTechniquesHits(q, g, ts[..|ts| - 1]) + PyTechniqueHits(q, g, ts[|ts| - 1])
  }

  function PySoftwareHits(q: string, g: Group, ss: seq<Software>): seq<PyResult> {
    if ss == [] then []
    else
      var s := ss[|ss| - 1];
      PySoftwareHits(q, g, ss[..|ss| - 1]) + (if PySoftwareMatches(q, s) then [PySoftwareResult(g, s)] else [])
  }

  function PyGroupResults(q: string, key: string, g: Group): seq<PyResult> {
    (if PyGroupMatches(q, g) then [PyGroupResult(key, g)] else []) +
    PyTechniquesHits(q, g, g.techniques) + PySoftwareHits(q, g, g.SoftwareList())
  }

  function PySearchFrom(q: string, items: seq<(string, Group)>): seq<PyResult> {
    if items == [] then []
    else
      var item := items[|items| - 1];
      PySearchFrom(q, items[..|items| - 1]) + PyGroupResults(q, item.0, item.1)
  }

  /** `perform_search(apt_groups, search_term)`: the query is lower-cased, not trimmed. */
  function PythonResultsFor(m: Groups, searchTerm: string): seq<PyResult>
    requires m.Valid()
  {
    PySearchFrom(Lower(searchTerm), m.Items())
  }

  method PerformSearch(aptGroups: Groups, searchTerm: string) returns (searchResults: seq<PyResult>)
    requires aptGroups.Valid()
    ensures searchResults == PythonResultsFor(aptGroups, searchTerm)
  {
    searchResults := [];
    var searchLower := Lower(searchTerm);
    var items := aptGroups.Items();
    var i := 0;
    while i < |items|
      invariant 0 <= i <= |items|
      invariant searchResults == PySearchFrom(searchLower, items[..i])
    {
      var (groupId, group) := items[i];
      searchResults := PySearchGroup(searchResults, searchLower, groupId, group);
      PrefixSnoc(items, i);
      i := i + 1;
    }
    assert items[..i] == items;
  }

  /** The body of `for group_id, group in apt_groups.items()`. */
  method PySearchGroup(results: seq<PyResult>, searchLower: string, groupId: string, group: Group) returns (out: seq<PyResult>)
    ensures out == results + PyGroupResults(searchLower, groupId, group)
  {
    ghost var a := if PyGroupMatches(searchLower, group) then [PyGroupResult(groupId, group)] else [];
    ghost var b := PyTechniquesHits(searchLower, group, group.techniques);
    ghost var c := PySoftwareHits(searchLower, group, group.SoftwareList());
    out := results;
    if PyGroupMatches(searchLower, group) {
      out := out + [PyGroupResult(groupId, group)];
    }
    assert out == results + a;
    out := PySearchTechniques(out, searchLower, group, group.techniques);
    out := PySearchSoftware(out, searchLower, group, group.SoftwareList());
    ConcatAssoc3(results, a, b, c);
    assert PyGroupResults(searchLower, groupId, group) == a + b + c;
  }

  method PySearchTechniques(results: seq<PyResult>, searchLower: string, group: Group, techniques: seq<Technique>) returns (out: seq<PyResult>)
    ensures out == results + PyTechniquesHits(searchLower, group, techniques)
  {
    out := results;
    var j := 0;
    while j < |techniques|
      invariant 0 <= j <= |techniques|
      invariant out == results + PyTechniquesHits(searchLower, group, techniques[..j])
    {
      out := PySearchTechnique(out, searchLower, group, techniques[j]);
      PrefixSnoc(techniques, j);
      ConcatAssoc(results, PyTechniquesHits(searchLower, group, techniques[..j]), PyTechniqueHits(searchLower, group, techniques[j]));
      j := j + 1;
    }
    assert techniques[..j] == techniques;
  }

  method PySearchTechnique(results: seq<PyResult>, searchLower: string, group: Group, technique: Technique) returns (out: seq<PyResult>)
    ensures out == results + PyTechniqueHits(searchLower, group, technique)
  {
    out := results;
    if PyRowMatches(searchLower, technique) {
      if technique.used {
        out := out + [PyRowResult(group, technique)];
      }
    }
    ghost var afterRow := out;
    var k := 0;
    while k < |technique.subs|
      invariant 0 <= k <= |technique.subs|
      invariant out == afterRow + PySubHits(searchLower, group, technique, technique.subs[..k])
    {
      var subtechnique := technique.subs[k];
      if PySubMatches(searchLower, subtechnique) {
        if subtechnique.used {
          out := out + [PySubResult(group, technique, subtechnique)];
        }
      }
      PrefixSnoc(technique.subs, k);
      ConcatAssoc(afterRow, PySubHits(searchLower, group, technique, technique.subs[..k]),
        if PySubMatches(searchLower, subtechnique) && subtechnique.used then [PySubResult(group, technique, subtechnique)] else []);
      k := k + 1;
    }
    assert technique.subs[..k] == technique.subs;
    ConcatAssoc(results, if PyRowMatches(searchLower, technique) && technique.used then [PyRowResult(group, technique)] else [],
      PySubHits(searchLower, group, technique, technique.subs));
  }

  method PySearchSoftware(results: seq<PyResult>, searchLower: string, group: Group, software: seq<Software>) returns (out: seq<PyResult>)
    ensures out == results + PySoftwareHits(searchLower, group, software)
  {
    out := results;
    var k := 0;
    while k < |software|
      invariant 0 <= k <= |software|
      invariant out == results + PySoftwareHits(searchLower, group, software[..k])
    {
      if PySoftwareMatches(searchLower, software[k]) {
        out := out + [PySoftwareResult(group, software[k])];
      }
      PrefixSnoc(software, k);
      ConcatAssoc(results, PySoftwareHits(searchLower, group, software[..k]),
        if PySoftwareMatches(searchLower, software[k]) then [PySoftwareResult(group, software[k])] else []);
      k := k + 1;
    }
    assert software[..k] == software;
  }

  // ---------------------------------------------------------------------
  // Python: properties
  // ---------------------------------------------------------------------

  lemma {:induction false} PySubHitsMembers(q: string, g: Group, t: Technique, ss: seq<SubTechnique>, r: PyResult)
    ensures r in PySubHits(q, g, t, ss) <==> exists s :: s in ss && s.used && PySubMatches(q, s) && r == PySubResult(g, t, s)
  {
    if ss != [] {
      var init, s := ss[..|ss| - 1], ss[|ss| - 1];
      PySubHitsMembers(q, g, t, init, r);
      assert forall x :: x in ss <==> x in init || x == s;
    }
  }

  /** Technique and sub-technique hits come only from used rows whose name or id matches. */
  lemma {:induction false} PyTechniquesHitsMembers(q: string, g: Group, ts: seq<Technique>, r: PyResult)
    ensures r in PyTechniquesHits(q, g, ts) <==>
      exists t :: t in ts && ((t.used && PyRowMatches(q, t) && r == PyRowResult(g, t)) || r in PySubHits(q, g, t, t.subs))
  {
    if ts != [] {
      var init, t := ts[..|ts| - 1], ts[|ts| - 1];
      PyTechniquesHitsMembers(q, g, init, r);
      assert forall x :: x in ts <==> x in init || x == t;
    }
  }

  lemma {:induction false} PySoftwareHitsMembers(q: string, g: Group, ss: seq<Software>, r: PyResult)
    ensures r in PySoftwareHits(q, g, ss) <==> exists s :: s in ss && PySoftwareMatches(q, s) && r == PySoftwareResult(g, s)
  {
    if ss != [] {
      var init, s := ss[..|ss| - 1], ss[|ss| - 1];
      PySoftwareHitsMembers(q, g, init, r);
      assert forall x :: x in ss <==> x in init || x == s;
    }
  }

  /**
   * Inside one group: the group row appears exactly when its name or an alias
   * matches (the description is not searched); a row or sub-technique
   * appears only when used; software appears whenever its name or id matches.
   */
  lemma PyGroupResultsShape(q: string, key: string, g: Group, r: PyResult)
    requires r in PyGroupResults(q, key, g)
    ensures r.kind == AptGroup ==> PyGroupMatches(q, g) && r == PyGroupResult(key, g)
    ensures r.kind == PyTechnique ==> exists t :: t in g.techniques && t.used && PyRowMatches(q, t) && r == PyRowResult(g, t)
    ensures r.kind == PySubtechnique ==>
      exists t, s :: t in g.techniques && s in t.subs && s.used && PySubMatches(q, s) && r == PySubResult(g, t, s)
    ensures r.kind == PySoftware ==> exists s :: s in g.SoftwareList() && PySoftwareMatches(q, s) && r == PySoftwareResult(g, s)
  {
    var a := if PyGroupMatches(q, g) then [PyGroupResult(key, g)] else [];
    var b := PyTechniquesHits(q, g, g.techniques);
    var c := PySoftwareHits(q, g, g.SoftwareList());
    assert r in a || r in b || r in c;
    PyTechniquesHitsMembers(q, g, g.techniques, r);
    PySoftwareHitsMembers(q, g, g.SoftwareList(), r);
    if r in b {
      var t :| t in g.techniques && ((t.used && PyRowMatches(q, t) && r == PyRowResult(g, t)) || r in PySubHits(q, g, t, t.subs));
      PySubHitsMembers(q, g, t, t.subs, r);
    }
  }

  /** Software is reported regardless of usage flags. */
  lemma PySoftwareAlwaysReported(q: string, key: string, g: Group, s: Software)
    requires s in g.SoftwareList() && PySoftwareMatches(q, s)
    ensures PySoftwareResult(g, s) in PyGroupResults(q, key, g)
  {
    PySoftwareHitsMembers(q, g, g.SoftwareList(), PySoftwareResult(g, s));
  }

  /** `show_search`: the search runs only for a non-empty query, which is not trimmed. */
  function ShowSearch(m: Groups, searchTerm: string): (r: seq<PyResult>)
    requires m.Valid()
    ensures searchTerm == "" ==> r == []
    ensures searchTerm != "" ==> r == PythonResultsFor(m, searchTerm)
  {
    if searchTerm == "" then [] else PythonResultsFor(m, searchTerm)
  }

  lemma {:induction false} PySearchFromMembers(q: string, items: seq<(string, Group)>, r: PyResult)
    ensures r in PySearchFrom(q, items) <==> exists it :: it in items && r in PyGroupResults(q, it.0, it.1)
  {
    if items != [] {
      var init, last := items[..|items| - 1], items[|items| - 1];
      PySearchFromMembers(q, init, r);
      assert forall x :: x in items <==> x in init || x == last;
    }
  }

  /**
   * The two dialects part ways on a query of one space: the Next.js search
   * trims it to nothing and reports nothing, the Python search looks for the
   * space and reports every group whose name holds one.
   */
  lemma SpaceQueryDiffers(m: Groups, sel: seq<Kind>, key: string)
    requires m.Valid() && key in m.vals
    requires exists i :: 0 <= i < |m.vals[key].name| && m.vals[key].name[i] == ' '
    ensures ResultsFor(m, " ", sel) == []
    ensures PyGroupResult(key, m.vals[key]) in ShowSearch(m, " ")
  {
    var g := m.vals[key];
    SpaceInName(g.name);
    assert Lower(" ") == " ";
    var j :| 0 <= j < |m.keys| && m.keys[j] == key;
    assert m.Items()[j] == (key, g);
    assert PyGroupResult(key, g) in PyGroupResults(" ", key, g);
    PySearchFromMembers(" ", m.Items(), PyGroupResult(key, g));
  }

  lemma SpaceInName(name: string)
    requires exists i :: 0 <= i < |name| && name[i] == ' '
    ensures Contains(Lower(name), " ")
  {
    var i :| 0 <= i < |name| && name[i] == ' ';
    assert Lower(name)[i..i + 1] == " ";
    assert OccursAt(Lower(name), " ", i);
    ContainsIff(Lower(name), " ");
  }
}
