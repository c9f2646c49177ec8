/**
 * The Python dashboard's views over the groups and the usage matrix: the
 * per-technique coverage statistics with their tactic sets, the technique
 * filter of the matrix page, the heatmap cells and summary counts with the
 * maturity level, and the technique table of one group.
 */
module MatrixViews {
  import opened Wrappers
  import opened Strings
  import opened Collections
  import opened Entities
  import opened Tactics

  // ---------------------------------------------------------------------
  // Coverage statistics (`create_technique_coverage_stats`)
  // ---------------------------------------------------------------------

  /** A `technique_stats` value: the first-seen name, the using group names and their count. */
  datatype TechStat = TechStat(name: string, usedBy: seq<string>, count: nat)

  /** `technique_stats` and `tactic_coverage`. */
  datatype Coverage = Coverage(stats: OMap<string, TechStat>, tactics: OMap<string, set<string>>)

  function NoCoverage(): (c: Coverage)
    ensures c.stats.Valid() && c.tactics.Valid()
  {
    Coverage(EmptyMap(), EmptyMap())
  }

  /** A used row with an id: create its entry if absent, then append the group and count it. */
  function CountRow(stats: OMap<string, TechStat>, g: Group, t: Technique): OMap<string, TechStat> {
    var prev := stats.Get(t.id).GetOr(TechStat(t.name, [], 0));
    stats.Put(t.id, TechStat(prev.name, prev.usedBy + [g.name], prev.count + 1))
  }

  /** File the id under its tactic, when "TA" + `tech_id[1:5]` names one. */
  function FileTactic(tactics: OMap<string, set<string>>, id: string): OMap<string, set<string>> {
    match PythonTactic(id)
    case None => tactics
    case Some(tn) => tactics.Put(tn, tactics.Get(tn).GetOr({}) + {id})
  }

  /** One technique row of one group: only a used row with an id counts. */
  function CoverageStep(c: Coverage, g: Group, t: Technique): Coverage {
    if t.id == "" || !t.used then c
    else Coverage(CountRow(c.stats, g, t), FileTactic(c.tactics, t.id))
  }

  function CoverageRows(c: Coverage, g: Group, ts: seq<Technique>): Coverage {
    if ts == [] then c else CoverageStep(CoverageRows(c, g, ts[..|ts| - 1]), g, ts[|ts| - 1])
  }

  function CoverageGroups(c: Coverage, gs: seq<Group>): Coverage {
    if gs == [] then c
    else
      var g := gs[|gs| - 1];
      CoverageRows(CoverageGroups(c, gs[..|gs| - 1]), g, g.techniques)
  }

  function CoverageOf(m: Groups): Coverage
    requires m.Valid()
  {
    CoverageGroups(NoCoverage(), m.Values())
  }

  method CreateTechniqueCoverageStats(aptGroups: Groups) returns (c: Coverage)
    requires aptGroups.Valid()
    ensures c == CoverageOf(aptGroups)
  {
    c := NoCoverage();
    var groups := aptGroups.Values();
    var i := 0;
    while i < |groups|
      invariant 0 <= i <= |groups|
      invariant c == CoverageGroups(NoCoverage(), groups[..i])
    {
      var group := groups[i];
      var j := 0;
      ghost var start := c;
      while j < |group.techniques|
        invariant 0 <= j <= |group.techniques|
        invariant c == CoverageRows(start, group, group.techniques[..j])
      {
        c := CoverTechnique(c, group, group.techniques[j]);
        PrefixSnoc(group.techniques, j);
        j := j + 1;
      }
      assert group.techniques[..j] == group.techniques;
      PrefixSnoc(groups, i);
      i := i + 1;
    }
    assert groups[..i] == groups;
  }

  /** The body of the row loop. */
  method CoverTechnique(c: Coverage, group: Group, technique: Technique) returns (c': Coverage)
    ensures c' == CoverageStep(c, group, technique)
  {
    c' := c;
    var techId := technique.id;
    if techId != "" && technique.used {
      var stats := CountTechnique(c.stats, group, technique);
      var tactics := RecordTactic(c.tactics, techId);
      c' := Coverage(stats, tactics);
    }
  }

  method CountTechnique(techniqueStats: OMap<string, TechStat>, group: Group, technique: Technique) returns (stats: OMap<string, TechStat>)
    ensures stats == CountRow(techniqueStats, group, technique)
  {
    stats := techniqueStats;
    if technique.id !in stats.vals {
      stats := stats.Put(technique.id, TechStat(technique.name, [], 0));
    }
    var entry := stats.vals[technique.id];
    stats := stats.Put(technique.id, TechStat(entry.name, entry.usedBy + [group.name], entry.count + 1));
  }

  method RecordTactic(tacticCoverage: OMap<string, set<string>>, techId: string) returns (tactics: OMap<string, set<string>>)
    ensures tactics == FileTactic(tacticCoverage, techId)
  {
    tactics := tacticCoverage;
    var tacticId := PythonTactic(techId);
    if tacticId.Some? {
      var tacticName := tacticId.value;
      if tacticName !in tactics.vals {
        tactics := tactics.Put(tacticName, {});
      }
      tactics := tactics.Put(tacticName, tactics.vals[tacticName] + {techId});
    }
  }

  /**
   * What the statistics keep: every counted id is non-empty and has a
   * non-empty list of users whose length is the count; a tactic set holds
   * exactly the counted ids that map to that tactic, and every counted id
   * with a tactic is filed under it.
   */
  ghost predicate CoverageInv(c: Coverage) {
    StatsInv(c.stats) && TacticsInv(c.tactics, c.stats)
  }

  ghost predicate StatsInv(stats: OMap<string, TechStat>) {
    stats.Valid() &&
    forall k :: k in stats.vals ==> k != "" && stats.vals[k].usedBy != [] && stats.vals[k].count == |stats.vals[k].usedBy|
  }

  ghost predicate TacticsInv(tactics: OMap<string, set<string>>, stats: OMap<string, TechStat>) {
    tactics.Valid() &&
    (forall tn, k :: tn in tactics.vals ==> (k in tactics.vals[tn] <==> k in stats.vals && PythonTactic(k) == Some(tn))) &&
    (forall k :: k in stats.vals && PythonTactic(k).Some? ==> PythonTactic(k).value in tactics.vals)
  }

  lemma CountRowInv(stats: OMap<string, TechStat>, g: Group, t: Technique)
    requires StatsInv(stats) && t.id != ""
    ensures StatsInv(CountRow(stats, g, t))
    ensures CountRow(stats, g, t).vals.Keys == stats.vals.Keys + {t.id}
  {
  }

  lemma FileTacticInv(tactics: OMap<string, set<string>>, stats: OMap<string, TechStat>, stats': OMap<string, TechStat>, id: string)
    requires TacticsInv(tactics, stats) && stats'.vals.Keys == stats.vals.Keys + {id}
    ensures TacticsInv(FileTactic(tactics, id), stats')
  {
    FileTacticExact(tactics, stats, stats', id);
    FileTacticCovers(tactics, stats, stats', id);
  }

  lemma FileTacticExact(tactics: OMap<string, set<string>>, stats: OMap<string, TechStat>, stats': OMap<string, TechStat>, id: string)
    requires TacticsInv(tactics, stats) && stats'.vals.Keys == stats.vals.Keys + {id}
    ensures forall t, k :: t in FileTactic(tactics, id).vals ==>
      (k in FileTactic(tactics, id).vals[t] <==> k in stats'.vals && PythonTactic(k) == Some(t))
  {
    var r := FileTactic(tactics, id);
    forall t, k | t in r.vals
      ensures k in r.vals[t] <==> k in stats'.vals && PythonTactic(k) == Some(t)
    {
      assert k in stats'.vals.Keys <==> k in stats.vals.Keys || k == id;
      if t in tactics.vals {
        assert k in tactics.vals[t] <==> k in stats.vals && PythonTactic(k) == Some(t);
      }
      FileTacticAt(tactics, stats, stats', id, t, k);
    }
  }

  lemma FileTacticCovers(tactics: OMap<string, set<string>>, stats: OMap<string, TechStat>, stats': OMap<string, TechStat>, id: string)
    requires TacticsInv(tactics, stats) && stats'.vals.Keys == stats.vals.Keys + {id}
    ensures forall k :: k in stats'.vals && PythonTactic(k).Some? ==> PythonTactic(k).value in FileTactic(tactics, id).vals
  {
    forall k | k in stats'.vals && PythonTactic(k).Some?
      ensures PythonTactic(k).value in FileTactic(tactics, id).vals
    {
      assert k in stats.vals.Keys || k == id;
    }
  }

  lemma FileTacticAt(tactics: OMap<string, set<string>>, stats: OMap<string, TechStat>, stats': OMap<string, TechStat>,
                     id: string, t: string, k: string)
    requires t in tactics.vals ==> (k in tactics.vals[t] <==> k in stats.vals && PythonTactic(k) == Some(t))
    requires k in stats.vals && PythonTactic(k).Some? ==> PythonTactic(k).value in tactics.vals
    requires k in stats'.vals <==> k in stats.vals || k == id
    requires t in FileTactic(tactics, id).vals
    ensures k in FileTactic(tactics, id).vals[t] <==> k in stats'.vals && PythonTactic(k) == Some(t)
  {
    if PythonTactic(id) != Some(t) {
      assert t in tactics.vals && FileTactic(tactics, id).vals[t] == tactics.vals[t];
    } else if t in tactics.vals {
      assert FileTactic(tactics, id).vals[t] == tactics.vals[t] + {id};
    } else {
      assert FileTactic(tactics, id).vals[t] == {id};
    }
  }

  lemma CoverageStepInv(c: Coverage, g: Group, t: Technique)
    requires CoverageInv(c)
    ensures CoverageInv(CoverageStep(c, g, t))
  {
    if t.id != "" && t.used {
      CountRowInv(c.stats, g, t);
      FileTacticInv(c.tactics, c.stats, CountRow(c.stats, g, t), t.id);
    }
  }

  lemma {:induction false} CoverageRowsInv(c: Coverage, g: Group, ts: seq<Technique>)
    requires CoverageInv(c)
    ensures CoverageInv(CoverageRows(c, g, ts))
  {
    if ts != [] {
      CoverageRowsInv(c, g, ts[..|ts| - 1]);
      CoverageStepInv(CoverageRows(c, g, ts[..|ts| - 1]), g, ts[|ts| - 1]);
    }
  }

  lemma {:induction false} CoverageGroupsInv(c: Coverage, gs: seq<Group>)
    requires CoverageInv(c)
    ensures CoverageInv(CoverageGroups(c, gs))
  {
    if gs != [] {
      CoverageGroupsInv(c, gs[..|gs| - 1]);
      CoverageRowsInv(CoverageGroups(c, gs[..|gs| - 1]), gs[|gs| - 1], gs[|gs| - 1].techniques);
    }
  }

  /** The statistics of a group map keep the invariant: counts are list lengths, tactic sets are exact. */
  lemma CoverageShape(m: Groups)
    requires m.Valid()
    ensures CoverageInv(CoverageOf(m))
  {
    CoverageGroupsInv(NoCoverage(), m.Values());
  }

  /** The names of the groups, in visiting order, with a used row of id `k` among `ts`. */
  function UsersRows(g: Group, ts: seq<Technique>, k: string): seq<string> {
    if ts == [] then []
    else
      var t := ts[|ts| - 1];
      UsersRows(g, ts[..|ts| - 1], k) + (if k != "" && t.id == k && t.used then [g.name] else [])
  }

  function Users(gs: seq<Group>, k: string): seq<string> {
    if gs == [] then [] else Users(gs[..|gs| - 1], k) + UsersRows(gs[|gs| - 1], gs[|gs| - 1].techniques, k)
  }

  /** The name of the first used row of id `k`. */
  function FirstNameRows(g: Group, ts: seq<Technique>, k: string): Option<string> {
    if ts == [] then None
    else
      var t := ts[|ts| - 1];
      var before := FirstNameRows(g, ts[..|ts| - 1], k);
      if before.None? && k != "" && t.id == k && t.used then Some(t.name) else before
  }

  function FirstName(gs: seq<Group>, k: string): Option<string> {
    if gs == [] then None
    else
      var before := FirstName(gs[..|gs| - 1], k);
      if before.Some? then before else FirstNameRows(gs[|gs| - 1], gs[|gs| - 1].techniques, k)
  }

  function UsedByOf(c: Coverage, k: string): seq<string> {
    if k in c.stats.vals then c.stats.vals[k].usedBy else []
  }

  function NameOf(c: Coverage, k: string): Option<string> {
    if k in c.stats.vals then Some(c.stats.vals[k].name) else None
  }

  lemma {:induction false} CoverageRowsUsers(c: Coverage, g: Group, ts: seq<Technique>, k: string)
    ensures UsedByOf(CoverageRows(c, g, ts), k) == UsedByOf(c, k) + UsersRows(g, ts, k)
    ensures NameOf(CoverageRows(c, g, ts), k) == (if NameOf(c, k).Some? then NameOf(c, k) else FirstNameRows(g, ts, k))
  {
    if ts != [] {
      CoverageRowsUsers(c, g, ts[..|ts| - 1], k);
      ConcatAssoc(UsedByOf(c, k), UsersRows(g, ts[..|ts| - 1], k),
        if k != "" && ts[|ts| - 1].id == k && ts[|ts| - 1].used then [g.name] else []);
    }
  }

  lemma {:induction false} CoverageGroupsUsers(gs: seq<Group>, k: string)
    ensures UsedByOf(CoverageGroups(NoCoverage(), gs), k) == Users(gs, k)
    ensures NameOf(CoverageGroups(NoCoverage(), gs), k) == FirstName(gs, k)
  {
    if gs != [] {
      var init, g := gs[..|gs| - 1], gs[|gs| - 1];
      CoverageGroupsUsers(init, k);
      CoverageRowsUsers(CoverageGroups(NoCoverage(), init), g, g.techniques, k);
    }
  }

  /**
   * A technique id has statistics exactly when some group uses a row with
   * that id; `used_by` lists those groups in visiting order (a group listing
   * the row twice appears twice), `count` is its length and the name is that
   * of the first such row.
   */
  lemma CoverageIsUsage(m: Groups, k: string)
    requires m.Valid()
    ensures k in CoverageOf(m).stats.vals <==> Users(m.Values(), k) != []
    ensures k in CoverageOf(m).stats.vals ==>
      CoverageOf(m).stats.vals[k].usedBy == Users(m.Values(), k) &&
      CoverageOf(m).stats.vals[k].count == |Users(m.Values(), k)| &&
      Some(CoverageOf(m).stats.vals[k].name) == FirstName(m.Values(), k)
  {
    CoverageShape(m);
    CoverageGroupsUsers(m.Values(), k);
  }

  // ---------------------------------------------------------------------
  // The matrix page's technique filter (`show_ttp_matrix`)
  // ---------------------------------------------------------------------

  /** `apt_usage`: group name to technique id to used. */
  type Usage = OMap<string, OMap<string, bool>>

  /** `apt_usage.get(group, {}).get(tech_id, False)`. */
  function Uses(u: Usage, group: string, k: string): bool {
    var row := u.Get(group).GetOr(EmptyMap());
    row.Get(k).GetOr(false)
  }

  /** Some selected group uses the technique. */
  predicate AnyUses(u: Usage, selected: seq<string>, k: string) {
    exists i :: 0 <= i < |selected| && Uses(u, selected[i], k)
  }

  datatype TechniqueFilter = AllTechniques | UsedOnly | MainOnly | SubOnly

  predicate Include(f: TechniqueFilter, u: Usage, selected: seq<string>, k: string) {
    match f
    case AllTechniques => true
    case UsedOnly => AnyUses(u, selected, k)
    case MainOnly => '.' !in k
    case SubOnly => '.' in k
  }

  function Included(f: TechniqueFilter, u: Usage, selected: seq<string>): string -> bool {
    (k: string) => Include(f, u, selected, k)
  }

  /**
   * The filter: nothing when no group is selected (the page stops with a
   * warning); otherwise the entries of `all_techniques` that pass, in their
   * order and with their names.
   */
  method FilterTechniques(allTechniques: OMap<string, string>, aptUsage: Usage, selectedGroups: seq<string>, f: TechniqueFilter)
    returns (filtered: Option<OMap<string, string>>)
    requires allTechniques.Valid()
    ensures filtered.None? <==> selectedGroups == []
    ensures filtered.Some? ==> filtered.value.Valid()
    ensures filtered.Some? ==> filtered.value.keys == Filter(allTechniques.keys, Included(f, aptUsage, selectedGroups))
    ensures filtered.Some? ==> Agrees(filtered.value, allTechniques)
  {
    if selectedGroups == [] {
      return None;
    }
    var out := FilterEntries(allTechniques, Included(f, aptUsage, selectedGroups));
    return Some(out);
  }

  /** The loop over `all_techniques.items()`, keeping the entries whose id passes `keep`. */
  method FilterEntries(allTechniques: OMap<string, string>, keep: string -> bool) returns (filtered: OMap<string, string>)
    requires allTechniques.Valid()
    ensures filtered.Valid() && Agrees(filtered, allTechniques)
    ensures filtered.keys == Filter(allTechniques.keys, keep)
  {
    filtered := EmptyMap();
    var i := 0;
    while i < |allTechniques.keys|
      invariant 0 <= i <= |allTechniques.keys|
      invariant filtered.Valid() && Agrees(filtered, allTechniques)
      invariant filtered.keys == Filter(allTechniques.keys[..i], keep)
    {
      var techId := allTechniques.keys[i];
      var techName := allTechniques.vals[techId];
      FilterStep(allTechniques, filtered, keep, i);
      if keep(techId) {
        filtered := filtered.Put(techId, techName);
      }
      i := i + 1;
    }
    assert allTechniques.keys[..i] == allTechniques.keys;
  }

  /** Every entry of `sub` is an entry of `all` with the same value. */
  ghost predicate Agrees(sub: OMap<string, string>, all: OMap<string, string>) {
    forall k :: k in sub.vals ==> k in all.vals && sub.vals[k] == all.vals[k]
  }

  lemma FilterStep(all: OMap<string, string>, out: OMap<string, string>, p: string -> bool, i: nat)
    requires all.Valid() && i < |all.keys|
    requires out.Valid() && Agrees(out, all) && out.keys == Filter(all.keys[..i], p)
    ensures var k := all.keys[i];
      var out' := if p(k) then out.Put(k, all.vals[k]) else out;
      out'.Valid() && Agrees(out', all) && out'.keys == Filter(all.keys[..i + 1], p)
  {
    var k := all.keys[i];
    FilterMembers(all.keys[..i], p, k);
    FilterSnoc(all.keys[..i], k, p);
    assert all.keys[..i + 1] == all.keys[..i] + [k];
  }

  /** Which ids pass, filter by filter: all of them, the used ones, those without a '.', those with one. */
  lemma FilterCases(keys: seq<string>, u: Usage, selected: seq<string>, f: TechniqueFilter, k: string)
    ensures k in Filter(keys, Included(f, u, selected)) <==>
      k in keys && (match f
        case AllTechniques => true
        case UsedOnly => exists i :: 0 <= i < |selected| && Uses(u, selected[i], k)
        case MainOnly => '.' !in k
        case SubOnly => '.' in k)
  {
    FilterMembers(keys, Included(f, u, selected), k);
  }

  /** "All Techniques" keeps the whole table. */
  lemma FilterAllKeepsEverything(keys: seq<string>, u: Usage, selected: seq<string>)
    ensures Filter(keys, Included(AllTechniques, u, selected)) == keys
  {
    FilterAll(keys, Included(AllTechniques, u, selected));
  }

  /** Main-only and sub-only split the table between them. */
  lemma MainAndSubSplit(keys: seq<string>, u: Usage, selected: seq<string>)
    ensures |Filter(keys, Included(MainOnly, u, selected))| + |Filter(keys, Included(SubOnly, u, selected))| == |keys|
  {
    FilterComplement(keys, Included(MainOnly, u, selected), Included(SubOnly, u, selected));
  }

  // ---------------------------------------------------------------------
  // Heatmap and summary counts
  // ---------------------------------------------------------------------

  /** `1 if used else 0`. */
  function Cell(u: Usage, group: string, k: string): nat {
    if Uses(u, group, k) then 1 else 0
  }

  function CellRow(u: Usage, group: string, ids: seq<string>): (row: seq<nat>)
    ensures |row| == |ids|
    ensures forall j :: 0 <= j < |ids| ==> row[j] == Cell(u, group, ids[j])
  {
    seq(|ids|, j requires 0 <= j < |ids| => Cell(u, group, ids[j]))
  }

  /** `matrix_data`: one row per selected group, one 0/1 cell per filtered technique. */
  function Heatmap(u: Usage, selected: seq<string>, ids: seq<string>): (rows: seq<seq<nat>>)
    ensures |rows| == |selected|
    ensures forall i :: 0 <= i < |selected| ==> rows[i] == CellRow(u, selected[i], ids)
  {
    seq(|selected|, i requires 0 <= i < |selected| => CellRow(u, selected[i], ids))
  }

  method HeatmapData(selectedGroups: seq<string>, techniqueIds: seq<string>, aptUsage: Usage) returns (matrixData: seq<seq<nat>>)
    ensures matrixData == Heatmap(aptUsage, selectedGroups, techniqueIds)
  {
    matrixData := [];
    var i := 0;
    while i < |selectedGroups|
      invariant 0 <= i <= |selectedGroups|
      invariant |matrixData| == i
      invariant forall i' :: 0 <= i' < i ==> matrixData[i'] == CellRow(aptUsage, selectedGroups[i'], techniqueIds)
    {
      var group := selectedGroups[i];
      var rowData: seq<nat> := [];
      var j := 0;
      while j < |techniqueIds|
        invariant 0 <= j <= |techniqueIds|
        invariant |rowData| == j
        invariant forall j' :: 0 <= j' < j ==> rowData[j'] == Cell(aptUsage, group, techniqueIds[j'])
      {
        var used := Uses(aptUsage, group, techniqueIds[j]);
        rowData := rowData + [if used then 1 else 0];
        j := j + 1;
      }
      assert rowData == CellRow(aptUsage, group, techniqueIds);
      matrixData := matrixData + [rowData];
      i := i + 1;
    }
    assert matrixData == Heatmap(aptUsage, selectedGroups, techniqueIds);
  }

  function Sum(xs: seq<nat>): nat {
    if xs == [] then 0 else Sum(xs[..|xs| - 1]) + xs[|xs| - 1]
  }

  /** `sum(sum(row) for row in matrix_data)`. */
  function UsedCells(rows: seq<seq<nat>>): nat {
    if rows == [] then 0 else UsedCells(rows[..|rows| - 1]) + Sum(rows[|rows| - 1])
  }

  function UsesFn(u: Usage, group: string): string -> bool {
    (k: string) => Uses(u, group, k)
  }

  /** The summary table's `used_count`: the filtered ids the group uses. */
  function UsedCount(u: Usage, group: string, ids: seq<string>): nat {
    |Filter(ids, UsesFn(u, group))|
  }

  /** A heatmap row sums to the group's used count of the summary table. */
  lemma {:induction false} RowSumIsUsedCount(u: Usage, group: string, ids: seq<string>)
    ensures Sum(CellRow(u, group, ids)) == UsedCount(u, group, ids)
  {
    if ids != [] {
      var init := ids[..|ids| - 1];
      RowSumIsUsedCount(u, group, init);
      assert CellRow(u, group, ids)[..|ids| - 1] == CellRow(u, group, init);
    }
  }

  function UsedCounts(u: Usage, selected: seq<string>, ids: seq<string>): nat {
    if selected == [] then 0 else UsedCounts(u, selected[..|selected| - 1], ids) + UsedCount(u, selected[|selected| - 1], ids)
  }

  /** The heatmap's used cells are the summary's used counts added up. */
  lemma {:induction false} UsedCellsAreUsedCounts(u: Usage, selected: seq<string>, ids: seq<string>)
    ensures UsedCells(Heatmap(u, selected, ids)) == UsedCounts(u, selected, ids)
  {
    if selected != [] {
      var init := selected[..|selected| - 1];
      UsedCellsAreUsedCounts(u, init, ids);
      assert Heatmap(u, selected, ids)[..|selected| - 1] == Heatmap(u, init, ids);
      RowSumIsUsedCount(u, selected[|selected| - 1], ids);
    }
  }

  lemma {:induction false} UsedCountsBound(u: Usage, selected: seq<string>, ids: seq<string>)
    ensures UsedCounts(u, selected, ids) <= |selected| * |ids|
  {
    if selected != [] {
      var init := selected[..|selected| - 1];
      UsedCountsBound(u, init, ids);
      assert |selected| * |ids| == |init| * |ids| + |ids|;
    }
  }

  /** `used_cells <= total_cells = len(selected_groups) * len(filtered_techniques)`. */
  lemma UsedCellsBound(u: Usage, selected: seq<string>, ids: seq<string>)
    ensures UsedCells(Heatmap(u, selected, ids)) <= |selected| * |ids|
  {
    UsedCellsAreUsedCounts(u, selected, ids);
    UsedCountsBound(u, selected, ids);
  }

  /** `(part / whole) * 100 if whole else 0`, in real arithmetic. */
  function Percentage(part: nat, whole: nat): (r: real)
    ensures whole == 0 ==> r == 0.0
    ensures 0.0 <= r
    ensures part <= whole ==> r <= 100.0
    ensures whole > 0 && part == whole ==> r == 100.0
  {
    if whole == 0 then 0.0
    else
      var q := part as real / whole as real;
      assert part <= whole ==> q <= 1.0;
      q * 100.0
  }

  /** The technique-detail usage rate: the selected groups using it and those not using it split the selection. */
  lemma UsageRateSplit(u: Usage, selected: seq<string>, k: string)
    ensures |Filter(selected, (g: string) => Uses(u, g, k))| + |Filter(selected, (g: string) => !Uses(u, g, k))| == |selected|
    ensures Percentage(|Filter(selected, (g: string) => Uses(u, g, k))|, |selected|) <= 100.0
  {
    FilterComplement(selected, (g: string) => Uses(u, g, k), (g: string) => !Uses(u, g, k));
  }

  /** The matrix coverage card: a percentage of at most 100, 0 for an empty matrix. */
  lemma MatrixCoverageBound(u: Usage, selected: seq<string>, ids: seq<string>)
    ensures Percentage(UsedCells(Heatmap(u, selected, ids)), |selected| * |ids|) <= 100.0
    ensures selected == [] || ids == [] ==> Percentage(UsedCells(Heatmap(u, selected, ids)), |selected| * |ids|) == 0.0
  {
    UsedCellsBound(u, selected, ids);
  }

  datatype Maturity = Limited | Basic | Developing | Intermediate | Advanced

  function Rank(l: Maturity): nat {
    match l
    case Limited => 0
    case Basic => 1
    case Developing => 2
    case Intermediate => 3
    case Advanced => 4
  }

  /** `get_maturity_level`: thresholds 80, 60, 40 and 20, each inclusive. */
  function MaturityLevel(pct: real): (l: Maturity)
    ensures l == Advanced <==> pct >= 80.0
    ensures l == Intermediate <==> 60.0 <= pct < 80.0
    ensures l == Developing <==> 40.0 <= pct < 60.0
    ensures l == Basic <==> 20.0 <= pct < 40.0
    ensures l == Limited <==> pct < 20.0
  {
    if pct >= 80.0 then Advanced
    else if pct >= 60.0 then Intermediate
    else if pct >= 40.0 then Developing
    else if pct >= 20.0 then Basic
    else Limited
  }

  /** A higher coverage never gives a lower level. */
  lemma MaturityMonotone(p: real, q: real)
    requires p <= q
    ensures Rank(MaturityLevel(p)) <= Rank(MaturityLevel(q))
  {
  }

  /** A `summary_data` row. */
  datatype SummaryRow = SummaryRow(group: string, techniquesUsed: nat, totalAvailable: nat, coverage: real, level: Maturity)

  function SummaryRowOf(u: Usage, group: string, ids: seq<string>): (r: SummaryRow)
    ensures r.techniquesUsed <= r.totalAvailable == |ids|
    ensures r.coverage <= 100.0
    ensures r.level == MaturityLevel(r.coverage)
  {
    var used := UsedCount(u, group, ids);
    var pct := Percentage(used, |ids|);
    SummaryRow(group, used, |ids|, pct, MaturityLevel(pct))
  }

  /** Ordered by `Techniques Used`, larger first. */
  function MoreUsed(a: SummaryRow, b: SummaryRow): bool {
    a.techniquesUsed > b.techniquesUsed
  }

  /**
   * `show_ttp_summary_table`: nothing for an empty filter, otherwise one row
   * per selected group sorted by techniques used, descending.
   */
  function SummaryTable(u: Usage, selected: seq<string>, ids: seq<string>): (t: Option<seq<SummaryRow>>)
    ensures t.None? <==> ids == []
    ensures t.Some? ==> |t.value| == |selected|
    ensures t.Some? ==> multiset(t.value) == multiset(seq(|selected|, i requires 0 <= i < |selected| => SummaryRowOf(u, selected[i], ids)))
  {
    if ids == [] then None
    else Some(SortBy(seq(|selected|, i requires 0 <= i < |selected| => SummaryRowOf(u, selected[i], ids)), MoreUsed))
  }

  /** The summary rows come in non-increasing order of techniques used. */
  lemma SummaryTableSorted(u: Usage, selected: seq<string>, ids: seq<string>)
    requires ids != []
    ensures forall i, j :: 0 <= i < j < |SummaryTable(u, selected, ids).value| ==>
      SummaryTable(u, selected, ids).value[i].techniquesUsed >= SummaryTable(u, selected, ids).value[j].techniquesUsed
  {
    var rows := seq(|selected|, i requires 0 <= i < |selected| => SummaryRowOf(u, selected[i], ids));
    SortBySorted(rows, MoreUsed);
  }

  // ---------------------------------------------------------------------
  // The technique table of one group (`create_techniques_dataframe`)
  // ---------------------------------------------------------------------

  datatype RowType = MainTechnique | Subtechnique

  datatype TableRow = TableRow(id: string, name: string, rowType: RowType, used: bool, description: string)

  /** `d[:100] + "..." if d else 'No description'`. */
  function DescriptionCell(d: string): (r: string)
    ensures d == [] ==> r == "No description"
    ensures d != [] ==> r == Take(d, 100) + "..."
  {
    if d == "" then "No description" else Take(d, 100) + "..."
  }

  function MainRow(t: Technique): TableRow {
    TableRow(t.id, t.name, MainTechnique, t.used, DescriptionCell(t.descr.GetOr("")))
  }

  /** A sub-technique row: the composite id and the name behind a tree branch. */
  function SubRow(t: Technique, s: SubTechnique): TableRow {
    TableRow(t.id + "." + s.id, "\U{2514}\U{2500} " + s.name, Subtechnique, s.used, DescriptionCell(s.descr))
  }

  function SubRows(t: Technique, ss: seq<SubTechnique>): (rows: seq<TableRow>)
    ensures |rows| == |ss|
    ensures forall i :: 0 <= i < |ss| ==> rows[i] == SubRow(t, ss[i])
  {
    seq(|ss|, i requires 0 <= i < |ss| => SubRow(t, ss[i]))
  }

  /** Each row followed by its sub-techniques. */
  function TableRows(ts: seq<Technique>): seq<TableRow> {
    if ts == [] then []
    else
      var t := ts[|ts| - 1];
      TableRows(ts[..|ts| - 1]) + [MainRow(t)] + SubRows(t, t.subs)
  }

  method CreateTechniquesDataframe(group: Group) returns (table: Option<seq<TableRow>>)
    ensures table == (if TableRows(group.techniques) == [] then None else Some(TableRows(group.techniques)))
  {
    var techniquesData: seq<TableRow> := [];
    var i := 0;
    while i < |group.techniques|
      invariant 0 <= i <= |group.techniques|
      invariant techniquesData == TableRows(group.techniques[..i])
    {
      var technique := group.techniques[i];
      ghost var before := techniquesData;
      techniquesData := techniquesData + [MainRow(technique)];
      var k := 0;
      while k < |technique.subs|
        invariant 0 <= k <= |technique.subs|
        invariant techniquesData == before + [MainRow(technique)] + SubRows(technique, technique.subs[..k])
      {
        assert SubRows(technique, technique.subs[..k + 1]) == SubRows(technique, technique.subs[..k]) + [SubRow(technique, technique.subs[k])];
        techniquesData := techniquesData + [SubRow(technique, technique.subs[k])];
        k := k + 1;
      }
      assert technique.subs[..k] == technique.subs;
      PrefixSnoc(group.techniques, i);
      i := i + 1;
    }
    assert group.techniques[..i] == group.techniques;
    table := if techniquesData == [] then None else Some(techniquesData);
  }

  function SubCount(ts: seq<Technique>): nat {
    if ts == [] then 0 else SubCount(ts[..|ts| - 1]) + |ts[|ts| - 1].subs|
  }

  function IsMainRow(r: TableRow): bool { r.rowType == MainTechnique }

  function MainRows(ts: seq<Technique>): seq<TableRow> {
    if ts == [] then [] else MainRows(ts[..|ts| - 1]) + [MainRow(ts[|ts| - 1])]
  }

  /** One row per technique and one per sub-technique, so the table is missing exactly when the group has no techniques. */
  lemma {:induction false} TableRowsCount(ts: seq<Technique>)
    ensures |TableRows(ts)| == |ts| + SubCount(ts)
    ensures TableRows(ts) == [] <==> ts == []
  {
    if ts != [] {
      TableRowsCount(ts[..|ts| - 1]);
    }
  }

  /** The main rows, read alone, are the techniques in order. */
  lemma {:induction false} TableMainRows(ts: seq<Technique>)
    ensures Filter(TableRows(ts), IsMainRow) == MainRows(ts)
  {
    if ts != [] {
      var init, t := ts[..|ts| - 1], ts[|ts| - 1];
      TableMainRows(init);
      var front := TableRows(init) + [MainRow(t)];
      FilterConcat(front, SubRows(t, t.subs), IsMainRow);
      FilterSnoc(TableRows(init), MainRow(t), IsMainRow);
      FilterNone(SubRows(t, t.subs), IsMainRow);
    }
  }
}
