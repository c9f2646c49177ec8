/**
 * The overview dashboard of the Next.js app: the most used techniques
 * (a count per technique id over every group's used rows, ranked and cut
 * to ten), their chart labels, and the coverage chart and card built
 * from the overview metrics.
 */
module Overview {
  import opened Wrappers
  import opened Strings
  import opened Collections
  import opened Entities
  import opened Numbers
  import opened DataLoader

  // ---------------------------------------------------------------------
  // topTechniques
  // ---------------------------------------------------------------------

  /** `{ name, count }` of the accumulator record. */
  datatype TopEntry = TopEntry(name: string, count: nat)

  type TopTechniques = OMap<string, TopEntry>

  /** `Object.values(aptGroups).flatMap(group => group.technique_table_data.filter(t => t.technique_used))`. */
  function UsedRowList(gs: seq<Group>): (ts: seq<Technique>)
    ensures forall i :: 0 <= i < |ts| ==> ts[i].used
  {
    if gs == [] then [] else UsedRowList(gs[..|gs| - 1]) + Filter(gs[|gs| - 1].techniques, TechniqueUsed)
  }

  /** One step of the reduce: the entry for the row's id gets its name and one more count. */
  function TopStep(acc: TopTechniques, t: Technique): TopTechniques {
    acc.Put(t.id, TopEntry(t.name, (if t.id in acc.vals then acc.vals[t.id].count else 0) + 1))
  }

  function TopFrom(acc: TopTechniques, ts: seq<Technique>): (r: TopTechniques)
    ensures acc.Valid() ==> r.Valid()
  {
    if ts == [] then acc else TopStep(TopFrom(acc, ts[..|ts| - 1]), ts[|ts| - 1])
  }

  /** The reduced record over the used rows of the groups `gs` (the map's values). */
  function TopOf(gs: seq<Group>): (r: TopTechniques)
    ensures r.Valid()
  {
    TopFrom(EmptyMap(), UsedRowList(gs))
  }

  lemma TopFromSnoc(acc: TopTechniques, ts: seq<Technique>, i: nat)
    requires i < |ts|
    ensures TopFrom(acc, ts[..i + 1]) == TopStep(TopFrom(acc, ts[..i]), ts[i])
  {
    PrefixSnoc(ts, i);
  }

  predicate HasId(k: string, t: Technique) { t.id == k }

  /** The number of rows of `ts` with id `k`. */
  function CountId(ts: seq<Technique>, k: string): nat {
    |Filter(ts, t => HasId(k, t))|
  }

  /** After reducing `ts`, a key is present exactly when some row has that id. */
  lemma {:induction false} TopFromKeys(ts: seq<Technique>, k: string)
    ensures k in TopFrom(EmptyMap(), ts).vals <==> exists i :: 0 <= i < |ts| && ts[i].id == k
  {
    if ts != [] {
      var init := ts[..|ts| - 1];
      TopFromKeys(init, k);
      ExistsSnoc(ts, init, t => HasId(k, t));
    }
  }

  /** The count kept under a key is the number of rows with that id. */
  lemma {:induction false} TopFromCount(ts: seq<Technique>, k: string)
    ensures k in TopFrom(EmptyMap(), ts).vals ==> TopFrom(EmptyMap(), ts).vals[k].count == CountId(ts, k)
  {
    if ts != [] {
      var init, last := ts[..|ts| - 1], ts[|ts| - 1];
      TopFromCount(init, k);
      FilterSnoc(init, last, t => HasId(k, t));
      assert init + [last] == ts;
      if last.id == k && k !in TopFrom(EmptyMap(), init).vals {
        TopFromKeys(init, k);
        FilterNone(init, t => HasId(k, t));
      }
    }
  }

  /** The index of the last row of `ts` with id `k`, or -1 when there is none. */
  function LastWithId(ts: seq<Technique>, k: string): (r: int)
    ensures -1 <= r < |ts|
    ensures r >= 0 ==> ts[r].id == k
    ensures forall j :: r < j < |ts| ==> ts[j].id != k
  {
    if ts == [] then -1
    else if ts[|ts| - 1].id == k then |ts| - 1
    else LastWithId(ts[..|ts| - 1], k)
  }

  /** The name kept under a key is the name of the last row with that id. */
  lemma {:induction false} TopFromName(ts: seq<Technique>, k: string)
    ensures k in TopFrom(EmptyMap(), ts).vals ==>
      LastWithId(ts, k) >= 0 && TopFrom(EmptyMap(), ts).vals[k].name == ts[LastWithId(ts, k)].name
  {
    if ts != [] {
      var init, last := ts[..|ts| - 1], ts[|ts| - 1];
      if last.id != k {
        TopStepOther(TopFrom(EmptyMap(), init), last, k);
        TopFromName(init, k);
        if LastWithId(init, k) >= 0 {
          assert ts[LastWithId(init, k)] == init[LastWithId(init, k)];
        }
      }
    }
  }

  /** A step for another id leaves an entry as it was. */
  lemma TopStepOther(acc: TopTechniques, t: Technique, k: string)
    requires t.id != k
    ensures k in TopStep(acc, t).vals <==> k in acc.vals
    ensures k in acc.vals ==> TopStep(acc, t).vals[k] == acc.vals[k]
  {
  }

  lemma {:induction false} UsedRowsMembers(gs: seq<Group>, t: Technique)
    ensures t in UsedRowList(gs) <==> t.used && exists g :: g in gs && t in g.techniques
  {
    if gs != [] {
      var init, last := gs[..|gs| - 1], gs[|gs| - 1];
      UsedRowsMembers(init, t);
      FilterMembers(last.techniques, TechniqueUsed, t);
      assert forall g :: g in gs <==> g in init || g == last;
    }
  }

  /**
   * `topTechniques`: an id is a key exactly when some group has a used row
   * with that id, and its count is the number of used rows with that id
   * across all groups; unused rows are never counted.
   */
  lemma TopCounts(gs: seq<Group>, k: string)
    ensures k in TopOf(gs).vals <==> exists g, t :: g in gs && t in g.techniques && t.used && t.id == k
    ensures k in TopOf(gs).vals ==> TopOf(gs).vals[k].count == CountId(UsedRowList(gs), k)
  {
    TopFromKeys(UsedRowList(gs), k);
    TopFromCount(UsedRowList(gs), k);
    UsedRowWithId(gs, k);
  }

  lemma UsedRowWithId(gs: seq<Group>, k: string)
    ensures (exists i :: 0 <= i < |UsedRowList(gs)| && UsedRowList(gs)[i].id == k) <==>
      exists g, t :: g in gs && t in g.techniques && t.used && t.id == k
  {
    var us := UsedRowList(gs);
    if exists i :: 0 <= i < |us| && us[i].id == k {
      var i :| 0 <= i < |us| && us[i].id == k;
      UsedRowsMembers(gs, us[i]);
    }
    if exists g, t :: g in gs && t in g.techniques && t.used && t.id == k {
      var g, t :| g in gs && t in g.techniques && t.used && t.id == k;
      UsedRowsMembers(gs, t);
      var i :| 0 <= i < |us| && us[i] == t;
    }
  }

  /** The reduce over the used rows, mutating its accumulator record. */
  method ReduceTopTechniques(gs: seq<Group>) returns (acc: TopTechniques)
    ensures acc == TopOf(gs)
  {
    var rows := CollectUsedRows(gs);
    acc := CountTopTechniques(rows);
  }

  /** The `flatMap` of the used rows of each group. */
  method CollectUsedRows(gs: seq<Group>) returns (rows: seq<Technique>)
    ensures rows == UsedRowList(gs)
  {
    rows := [];
    var g := 0;
    while g < |gs|
      invariant 0 <= g <= |gs|
      invariant rows == UsedRowList(gs[..g])
    {
      PrefixSnoc(gs, g);
      var kept := UsedOfGroup(gs[g].techniques);
      rows := rows + kept;
      g := g + 1;
    }
    assert gs[..g] == gs;
  }

  /** `reduce((acc, technique) => { acc[id] = { name, count: (acc[id]?.count || 0) + 1 }; ... }, {})`. */
  method CountTopTechniques(rows: seq<Technique>) returns (acc: TopTechniques)
    ensures acc == TopFrom(EmptyMap(), rows)
  {
    acc := EmptyMap();
    var i := 0;
    while i < |rows|
      invariant 0 <= i <= |rows|
      invariant acc == TopFrom(EmptyMap(), rows[..i])
    {
      TopFromSnoc(EmptyMap(), rows, i);
      acc := CountOne(acc, rows[i]);
      i := i + 1;
    }
    assert rows[..i] == rows;
  }

  /** The body of the reduce callback: the record updated in place for one row. */
  method CountOne(acc: TopTechniques, technique: Technique) returns (next: TopTechniques)
    ensures next == TopStep(acc, technique)
  {
    var previous := if technique.id in acc.vals then acc.vals[technique.id].count else 0;
    next := acc.Put(technique.id, TopEntry(technique.name, previous + 1));
  }

  /** `group.technique_table_data.filter(t => t.technique_used)`. */
  method UsedOfGroup(ts: seq<Technique>) returns (kept: seq<Technique>)
    ensures kept == Filter(ts, TechniqueUsed)
  {
    kept := [];
    var j := 0;
    while j < |ts|
      invariant 0 <= j <= |ts|
      invariant kept == Filter(ts[..j], TechniqueUsed)
    {
      PrefixSnoc(ts, j);
      if ts[j].used {
        kept := kept + [ts[j]];
      }
      j := j + 1;
    }
    assert ts[..j] == ts;
  }

  // ---------------------------------------------------------------------
  // topTechniquesArray and the chart
  // ---------------------------------------------------------------------

  /** `.sort(([,a], [,b]) => b.count - a.count)`: a larger count goes first; ties keep their order. */
  function MoreUsed(a: (string, TopEntry), b: (string, TopEntry)): bool {
    a.1.count > b.1.count
  }

  /** The ten most used techniques, from the entries of the record. */
  function TopTen(top: TopTechniques): seq<(string, TopEntry)>
    requires top.Valid()
  {
    TakeFirst(SortBy(top.Items(), MoreUsed), 10)
  }

  /**
   * The ranking has ten entries, or every id when there are fewer, in
   * non-increasing count, each an entry of the record, and no id twice; an
   * id left out is used no more than the tenth ranked one.
   */
  lemma TopTenProperties(top: TopTechniques)
    requires top.Valid()
    ensures var r := TopTen(top);
      |r| == (if |top.keys| < 10 then |top.keys| else 10) &&
      (forall i, j :: 0 <= i < j < |r| ==> r[i].1.count >= r[j].1.count) &&
      (forall i :: 0 <= i < |r| ==> r[i].0 in top.vals && top.vals[r[i].0] == r[i].1) &&
      (forall i, j :: 0 <= i < j < |r| ==> r[i].0 != r[j].0) &&
      (forall k :: k in top.vals && Unranked(r, k) ==> |r| == 10 && top.vals[k].count <= r[9].1.count)
  {
    var sorted := SortBy(top.Items(), MoreUsed);
    MoreUsedStrict();
    SortBySorted(top.Items(), MoreUsed);
    var r := TopTen(top);
    assert r == sorted[..|r|];
    forall i, j | 0 <= i < j < |r| ensures r[i].1.count >= r[j].1.count {
      assert r[i] == sorted[i] && r[j] == sorted[j] && !MoreUsed(sorted[j], sorted[i]);
    }
    forall i | 0 <= i < |r| ensures r[i].0 in top.vals && top.vals[r[i].0] == r[i].1 {
      RankedEntry(top, i);
    }
    forall i, j | 0 <= i < j < |r| ensures r[i].0 != r[j].0 {
      RankedIdsDistinct(top, i, j);
    }
    forall k | k in top.vals && Unranked(r, k) ensures |r| == 10 && top.vals[k].count <= r[9].1.count {
      TopTenMaximal(top, k);
    }
  }

  /** No ranked entry has the id `k`. */
  predicate Unranked(r: seq<(string, TopEntry)>, k: string) {
    forall i :: 0 <= i < |r| ==> r[i].0 != k
  }

  /** An id that is not ranked leaves ten entries ranked, each used at least as often. */
  lemma TopTenMaximal(top: TopTechniques, k: string)
    requires top.Valid() && k in top.vals && Unranked(TopTen(top), k)
    ensures |TopTen(top)| == 10 && top.vals[k].count <= TopTen(top)[9].1.count
  {
    var items := top.Items();
    var m :| 0 <= m < |top.keys| && top.keys[m] == k;
    var r := TopTen(top);
    assert items[m].0 == k;
    MoreUsedStrict();
    TakeSortedMaximal(items, MoreUsed, 10, items[m]);
  }

  lemma MoreUsedStrict()
    ensures StrictOrder(MoreUsed)
  {
  }

  /** Every ranked pair is an entry of the record. */
  lemma RankedEntry(top: TopTechniques, i: nat)
    requires top.Valid() && i < |SortBy(top.Items(), MoreUsed)|
    ensures var e := SortBy(top.Items(), MoreUsed)[i]; e.0 in top.vals && top.vals[e.0] == e.1
  {
    var items := top.Items();
    assert SortBy(items, MoreUsed)[i] in multiset(items);
    var k :| 0 <= k < |items| && items[k] == SortBy(items, MoreUsed)[i];
  }

  /** No id is ranked twice. */
  lemma RankedIdsDistinct(top: TopTechniques, i: nat, j: nat)
    requires top.Valid() && i < j < |SortBy(top.Items(), MoreUsed)|
    ensures SortBy(top.Items(), MoreUsed)[i].0 != SortBy(top.Items(), MoreUsed)[j].0
  {
    var items := top.Items();
    RankedEntry(top, i);
    RankedEntry(top, j);
    forall a, b | 0 <= a < b < |items| ensures items[a] != items[b] {
      assert items[a].0 == top.keys[a] && items[b].0 == top.keys[b];
    }
    SortedDistinct(items, i, j);
  }

  /** The entries of a record are distinct, so their sorted form has no element twice. */
  lemma SortedDistinct(items: seq<(string, TopEntry)>, i: nat, j: nat)
    requires forall a, b :: 0 <= a < b < |items| ==> items[a] != items[b]
    requires i < j < |SortBy(items, MoreUsed)|
    ensures SortBy(items, MoreUsed)[i] != SortBy(items, MoreUsed)[j]
  {
    var sorted := SortBy(items, MoreUsed);
    if sorted[i] == sorted[j] {
      RepeatedTwice(sorted, i, j);
      DistinctOnce(items, sorted[i]);
    }
  }

  lemma RepeatedTwice<T>(s: seq<T>, i: nat, j: nat)
    requires i < j < |s| && s[i] == s[j]
    ensures multiset(s)[s[i]] >= 2
  {
    var x := s[i];
    assert s == s[..j] + [x] + s[j + 1..];
    assert x in s[..j];
    assert multiset(s) == multiset(s[..j]) + multiset{x} + multiset(s[j + 1..]);
  }

  lemma {:induction false} DistinctOnce<T>(s: seq<T>, x: T)
    requires forall a, b :: 0 <= a < b < |s| ==> s[a] != s[b]
    ensures multiset(s)[x] <= 1
  {
    if s != [] {
      var init := s[..|s| - 1];
      DistinctOnce(init, x);
      assert s == init + [s[|s| - 1]];
      if s[|s| - 1] == x {
        assert x !in init;
      }
    }
  }

  /** `${id}: ${data.name.slice(0, 20)}...`. */
  function Label(id: string, name: string): (l: string)
    ensures |l| == |id| + 2 + (if |name| < 20 then |name| else 20) + 3
    ensures l[..|id|] == id && l[|id|..|id| + 2] == ": " && l[|l| - 3..] == "..."
    ensures l[|id| + 2..|l| - 3] == name[..|l| - |id| - 5]
  {
    id + ": " + Take(name, 20) + "..."
  }

  /** The chart's labels and data, one per ranked entry, in ranking order. */
  function ChartLabels(ranked: seq<(string, TopEntry)>): (ls: seq<string>)
    ensures |ls| == |ranked| && forall i :: 0 <= i < |ranked| ==> ls[i] == Label(ranked[i].0, ranked[i].1.name)
  {
    seq(|ranked|, i requires 0 <= i < |ranked| => Label(ranked[i].0, ranked[i].1.name))
  }

  function ChartData(ranked: seq<(string, TopEntry)>): (ds: seq<nat>)
    ensures |ds| == |ranked| && forall i :: 0 <= i < |ranked| ==> ds[i] == ranked[i].1.count
  {
    seq(|ranked|, i requires 0 <= i < |ranked| => ranked[i].1.count)
  }

  /** The bars of the chart decrease (weakly) from left to right. */
  lemma ChartDataNonIncreasing(top: TopTechniques)
    requires top.Valid()
    ensures var ds := ChartData(TopTen(top)); forall i, j :: 0 <= i < j < |ds| ==> ds[i] >= ds[j]
  {
    TopTenProperties(top);
  }

  // ---------------------------------------------------------------------
  // coverageData and the coverage card
  // ---------------------------------------------------------------------

  /** `[used_main_techniques, unique_techniques - used_main_techniques]`, as written: no clamping. */
  function CoverageSlices(m: OverviewMetrics): (s: seq<int>)
    ensures |s| == 2 && s[0] + s[1] == m.uniqueTechniques
    ensures s[0] == m.usedMainTechniques
  {
    [m.usedMainTechniques, m.uniqueTechniques as int - m.usedMainTechniques]
  }

  /** The COVERAGE card, `Math.round(used / unique * 100)`; the source does not guard `unique == 0`. */
  function CoveragePercent(m: OverviewMetrics): (p: nat)
    requires m.uniqueTechniques > 0
    ensures m.usedMainTechniques <= m.uniqueTechniques ==> p <= 100
    ensures NearestPercent(m.usedMainTechniques, m.uniqueTechniques, p)
  {
    RoundPercent(m.usedMainTechniques, m.uniqueTechniques)
  }

  /**
   * Two groups, each with one used row for the same technique (the first
   * also listing one unused sub-technique): one distinct technique but two
   * used rows, so the "unused" slice is -1 and the card shows 200%.
   */
  lemma CoverageOverflow(m: Groups, g1: Group, t1: Technique, g2: Group, t2: Technique)
    requires m.Valid() && m.Values() == [g1, g2]
    requires g1.techniques == [t1] && g2.techniques == [t2] && |t1.subs| == 1 && t2.subs == []
    requires t1.used && t2.used && t1.id == t2.id != ""
    ensures Overview(m).usedMainTechniques == 2 && Overview(m).uniqueTechniques == 1
    ensures CoverageSlices(Overview(m)) == [2, -1] && CoveragePercent(Overview(m)) == 200
  {
    InlineTotalsAgree(m);
    ExampleUsedRows(g1, t1, g2, t2);
    ExampleIds(g1, t1, g2, t2);
    assert RoundPercent(2, 1) == 200;
  }

  lemma ExampleUsedRows(g1: Group, t1: Technique, g2: Group, t2: Technique)
    requires g1.techniques == [t1] && g2.techniques == [t2] && t1.used && t2.used
    ensures UsedRowsIn([g1, g2]) == 2
  {
    assert [g1, g2][..1] == [g1] && [g1][..0] == [];
    assert [t1][..0] == [] && [t2][..0] == [];
    assert UsedRows([t1]) == 1 && UsedRows([t2]) == 1;
    assert UsedRowsIn([g1]) == UsedRowsIn([]) + UsedRows([t1]);
  }

  lemma ExampleIds(g1: Group, t1: Technique, g2: Group, t2: Technique)
    requires g1.techniques == [t1] && g2.techniques == [t2] && |t1.subs| == 1 && t2.subs == []
    requires t1.id == t2.id != ""
    ensures TallyOf(Walk([g1, g2])).ids == {t1.id}
  {
    ExampleWalk(g1, t1, g2, t2);
    var es := Walk([g1, g2]);
    forall x ensures x in TallyOf(es).ids <==> x == t1.id {
      TallyIds(es, x);
      if x == t1.id {
        assert es[1] == Row(g1, t1);
      }
    }
  }

  /** The sample data: "G1" and "G2" both use T1055, so the overflow is reachable. */
  lemma CoverageOverflowExample()
    ensures
      var t1 := Technique("T1055", "Process Injection", None, true, [SubTechnique("001", "DLL Injection", "", false)]);
      var t2 := Technique("T1055", "Process Injection", None, true, []);
      var g1 := Group("G1", "One", "", [], [t1], None, None);
      var g2 := Group("G2", "Two", "", [], [t2], None, None);
      var m := EmptyMap<string, Group>().Put("G1", g1).Put("G2", g2);
      m.Valid() && CoveragePercent(Overview(m)) == 200
  {
    var t1 := Technique("T1055", "Process Injection", None, true, [SubTechnique("001", "DLL Injection", "", false)]);
    var t2 := Technique("T1055", "Process Injection", None, true, []);
    var g1 := Group("G1", "One", "", [], [t1], None, None);
    var g2 := Group("G2", "Two", "", [], [t2], None, None);
    var m := EmptyMap<string, Group>().Put("G1", g1).Put("G2", g2);
    assert m.keys == ["G1", "G2"];
    assert m.Values() == [g1, g2];
    CoverageOverflow(m, g1, t1, g2, t2);
  }

  /** The ids of the used rows with a non-empty id. */
  function UsedIds(es: seq<Event>): set<string> {
    set e | e in es && e.Row? && e.t.used && e.t.id != "" :: e.t.id
  }

  /**
   * The evidently intended coverage: the distinct ids of used rows against
   * the distinct ids. Every used id is an id, so both slices are
   * non-negative and the card is at most 100.
   */
  function IntendedSlices(m: Groups): (s: seq<int>)
    requires m.Valid()
    ensures |s| == 2 && s[0] >= 0 && s[1] >= 0 && s[0] + s[1] == Overview(m).uniqueTechniques
  {
    var es := Walk(m.Values());
    UsedIdsAreIds(es);
    [|UsedIds(es)|, Overview(m).uniqueTechniques as int - |UsedIds(es)|]
  }

  function IntendedPercent(m: Groups): (p: nat)
    requires m.Valid() && Overview(m).uniqueTechniques > 0
    ensures p <= 100
    ensures NearestPercent(|UsedIds(Walk(m.Values()))|, Overview(m).uniqueTechniques, p)
  {
    var es := Walk(m.Values());
    UsedIdsAreIds(es);
    RoundPercent(|UsedIds(es)|, Overview(m).uniqueTechniques)
  }

  lemma UsedIdsAreIds(es: seq<Event>)
    ensures UsedIds(es) <= TallyOf(es).ids
    ensures |UsedIds(es)| <= |TallyOf(es).ids|
  {
    forall x | x in UsedIds(es) ensures x in TallyOf(es).ids {
      TallyIds(es, x);
    }
    SubsetCard(UsedIds(es), TallyOf(es).ids);
  }

  lemma {:induction false} SubsetCard<T>(a: set<T>, b: set<T>)
    requires a <= b
    ensures |a| <= |b|
    decreases |b|
  {
    if a != {} {
      var x :| x in a;
      SubsetCard(a - {x}, b - {x});
    }
  }
}
