/**
 * The Next.js dashboard's data loader (`MITREDataLoader`): loading the group
 * files into a map keyed by ATT&CK id, and the three aggregations it offers
 * over that map — the overview metrics, the technique-usage matrix and the
 * technique counts. The Python dashboard's `calculate_overview_metrics` and
 * `create_ttp_matrix` compute the same things and are modelled here too.
 */
module DataLoader {
  import opened Wrappers
  import opened Strings
  import opened Collections
  import opened Entities

  // ---------------------------------------------------------------------
  // Loading
  // ---------------------------------------------------------------------

  /** A group whose missing `software_data` / `campaign_data` became `[]`. */
  predicate Normalised(g: Group) {
    g.software.Some? && g.campaigns.Some?
  }

  /** The rule applied to each parsed file before it is stored. */
  function Normalise(g: Group): (r: Group)
    ensures Normalised(r)
    ensures r.SoftwareList() == g.SoftwareList() && r.CampaignList() == g.CampaignList()
    ensures r.(software := g.software, campaigns := g.campaigns) == g
    ensures Normalised(g) ==> r == g
  {
    g.(software := Some(g.SoftwareList()), campaigns := Some(g.CampaignList()))
  }

  /** Storing parsed groups one after the other, each under its ATT&CK id. */
  function StoreAll(m: Groups, gs: seq<Group>): Groups {
    if gs == [] then m
    else
      var g := gs[|gs| - 1];
      StoreAll(m, gs[..|gs| - 1]).Put(g.attackId, Normalise(g))
  }

  /** The files read before the first one that fails to read or parse. */
  function ParsedPrefix(files: seq<Option<Group>>): (gs: seq<Group>)
    ensures |gs| <= |files|
    ensures forall i :: 0 <= i < |gs| ==> files[i] == Some(gs[i])
    ensures |gs| < |files| ==> files[|gs|] == None
  {
    if files == [] || files[0].None? then [] else [files[0].value] + ParsedPrefix(files[1..])
  }

  /** Every stored group sits under its own ATT&CK id and has both arrays. */
  ghost predicate WellKeyed(m: Groups) {
    m.Valid() &&
    forall k :: k in m.vals ==> m.vals[k].attackId == k && Normalised(m.vals[k])
  }

  lemma {:induction false} StoreAllWellKeyed(m: Groups, gs: seq<Group>)
    requires WellKeyed(m)
    ensures WellKeyed(StoreAll(m, gs))
    ensures forall i :: 0 <= i < |gs| ==> gs[i].attackId in StoreAll(m, gs).vals
  {
    if gs != [] {
      StoreAllWellKeyed(m, gs[..|gs| - 1]);
      assert forall i :: 0 <= i < |gs| - 1 ==> gs[i] == gs[..|gs| - 1][i];
    }
  }

  lemma StoreAllSnoc(m: Groups, gs: seq<Group>, i: nat)
    requires i < |gs|
    ensures StoreAll(m, gs[..i + 1]) == StoreAll(m, gs[..i]).Put(gs[i].attackId, Normalise(gs[i]))
  {
    PrefixSnoc(gs, i);
  }

  lemma StoreNext(m: Groups, gs: seq<Group>, i: nat)
    requires i < |gs| && WellKeyed(m)
    ensures StoreAll(m, gs[..i + 1]) == StoreAll(m, gs[..i]).Put(gs[i].attackId, Normalise(gs[i]))
    ensures WellKeyed(StoreAll(m, gs[..i + 1]))
  {
    StoreAllSnoc(m, gs, i);
    StoreAllWellKeyed(m, gs[..i + 1]);
  }

  /** A later file with the same ATT&CK id replaces the earlier one. */
  lemma LaterFileWins(m: Groups, gs: seq<Group>, g: Group)
    ensures StoreAll(m, gs + [g]).vals[g.attackId] == Normalise(g)
  {
    assert (gs + [g])[..|gs|] == gs;
  }

  /** The two defaults filled in for a parsed file before it is stored. */
  method NormaliseFile(parsed: Group) returns (groupData: Group)
    ensures groupData == Normalise(parsed)
  {
    groupData := parsed;
    if groupData.software.None? {
      groupData := groupData.(software := Some([]));
    }
    if groupData.campaigns.None? {
      groupData := groupData.(campaigns := Some([]));
    }
  }

  class MitreDataLoader {
    var aptGroups: Groups
    var dataLoaded: bool

    ghost predicate Valid()
      reads this
    {
      WellKeyed(aptGroups)
    }

    constructor ()
      ensures Valid() && aptGroups == EmptyMap() && !dataLoaded
    {
      aptGroups := EmptyMap();
      dataLoaded := false;
    }

    /**
     * `loadAPTGroups`. `files` stands for the JSON files of the data
     * directory in listing order, `None` for one that cannot be read or
     * parsed (an unreadable directory is a listing whose first entry is
     * `None`). Once loaded, the stored map is returned as it is. A failure
     * returns an empty map, leaves `dataLoaded` false and keeps the groups
     * stored before the failing file.
     */
    method LoadAptGroups(files: seq<Option<Group>>) returns (r: Groups)
      requires Valid()
      modifies this
      ensures Valid()
      ensures old(dataLoaded) ==> dataLoaded && aptGroups == old(aptGroups) && r == aptGroups
      ensures !old(dataLoaded) ==> aptGroups == StoreAll(old(aptGroups), ParsedPrefix(files))
      ensures !old(dataLoaded) ==> dataLoaded == (|ParsedPrefix(files)| == |files|)
      ensures !old(dataLoaded) ==> r == if dataLoaded then aptGroups else EmptyMap()
    {
      if dataLoaded {
        return aptGroups;
      }
      ghost var start := aptGroups;
      ghost var parsed := ParsedPrefix(files);
      var i := 0;
      while i < |files|
        invariant 0 <= i <= |parsed|
        invariant aptGroups == StoreAll(start, parsed[..i])
        invariant Valid()
        invariant !dataLoaded
      {
        var file := files[i];
        if file.None? {
          assert i == |parsed| && parsed[..i] == parsed;
          return EmptyMap();
        }
        assert file.value == parsed[i];
        var groupData := NormaliseFile(file.value);
        StoreNext(start, parsed, i);
        aptGroups := aptGroups.Put(groupData.attackId, groupData);
        i := i + 1;
      }
      assert parsed[..i] == parsed;
      dataLoaded := true;
      return aptGroups;
    }
  }

  // ---------------------------------------------------------------------
  // Overview metrics
  // ---------------------------------------------------------------------

  datatype OverviewMetrics = OverviewMetrics(
    totalGroups: nat, totalTechniques: nat, totalSoftware: nat,
    usedMainTechniques: nat, usedSubtechniques: nat, totalCampaigns: nat,
    uniqueTechniques: nat, tacticsCovered: nat)

  /** The counters and the two sets the metrics loop keeps. */
  datatype Tally = Tally(
    techniques: nat, software: nat, campaigns: nat, usedMain: nat, usedSubs: nat,
    ids: set<string>, tactics: set<string>)

  const ZeroTally := Tally(0, 0, 0, 0, 0, {}, {})

  /** The "tactic" the overview counts: the first two characters of a used main id. */
  function TacticPrefix(id: string): string { Take(id, 2) }

  function TallyStep(a: Tally, e: Event): Tally {
    match e
    case Enter(g) =>
      a.(techniques := a.techniques + |g.techniques|,
         software := a.software + |g.SoftwareList()|,
         campaigns := a.campaigns + |g.CampaignList()|)
    case Row(_, t) =>
      a.(ids := if t.id != "" then a.ids + {t.id} else a.ids,
         usedMain := if t.used then a.usedMain + 1 else a.usedMain,
         tactics := if t.used && t.id != "" && '.' !in t.id then a.tactics + {TacticPrefix(t.id)} else a.tactics)
    case Sub(_, _, s) =>
      a.(usedSubs := if s.used then a.usedSubs + 1 else a.usedSubs)
  }

  /** The tally after the events `es`, starting from `a`. */
  function TallyFrom(a: Tally, es: seq<Event>): Tally {
    if es == [] then a else TallyStep(TallyFrom(a, es[..|es| - 1]), es[|es| - 1])
  }

  function TallyOf(es: seq<Event>): Tally { TallyFrom(ZeroTally, es) }

  lemma TallySnoc(a: Tally, es: seq<Event>, e: Event)
    ensures TallyFrom(a, es + [e]) == TallyStep(TallyFrom(a, es), e)
  {
    assert (es + [e])[..|es|] == es;
  }

  lemma {:induction false} TallyFromConcat(a: Tally, p: seq<Event>, q: seq<Event>)
    ensures TallyFrom(a, p + q) == TallyFrom(TallyFrom(a, p), q)
    decreases |q|
  {
    if q == [] {
      ConcatNil(p);
    } else {
      TallyFromConcat(a, p, q[..|q| - 1]);
      ConcatLast(p, q);
    }
  }

  /** The metrics of a group map, as `calculateOverviewMetrics` defines them. */
  function Overview(m: Groups): OverviewMetrics
    requires m.Valid()
  {
    var a := TallyOf(Walk(m.Values()));
    OverviewMetrics(|m.keys|, a.techniques, a.software, a.usedMain, a.usedSubs,
                    a.campaigns, |a.ids|, |a.tactics|)
  }

  /** `calculateOverviewMetrics`: the nested loops of the source. */
  method CalculateOverviewMetrics(m: Groups) returns (r: OverviewMetrics)
    requires m.Valid()
    ensures r == Overview(m)
  {
    var gs := m.Values();
    var counters := ZeroTally;
    var i := 0;
    while i < |gs|
      invariant 0 <= i <= |gs|
      invariant counters == TallyOf(Walk(gs[..i]))
    {
      counters := TallyGroup(counters, gs[i]);
      WalkSnoc(gs, i);
      TallyFromConcat(ZeroTally, Walk(gs[..i]), WalkGroup(gs[i]));
      i := i + 1;
    }
    assert gs[..i] == gs;
    r := OverviewMetrics(|m.keys|, counters.techniques, counters.software, counters.usedMain,
                         counters.usedSubs, counters.campaigns, |counters.ids|, |counters.tactics|);
  }

  /** The body of the `forEach` over groups: the group's totals, then its rows. */
  method TallyGroup(a: Tally, g: Group) returns (b: Tally)
    ensures b == TallyFrom(a, WalkGroup(g))
  {
    b := a.(techniques := a.techniques + |g.techniques|,
            software := a.software + |g.SoftwareList()|,
            campaigns := a.campaigns + |g.CampaignList()|);
    assert b == TallyFrom(a, [Enter(g)]) by { assert [Enter(g)][..0] == []; }
    var j := 0;
    while j < |g.techniques|
      invariant 0 <= j <= |g.techniques|
      invariant b == TallyFrom(a, [Enter(g)] + WalkTechniques(g, g.techniques[..j]))
    {
      b := TallyTechnique(b, g, g.techniques[j]);
      TallyRowsSnoc(a, g, j);
      j := j + 1;
    }
    assert g.techniques[..j] == g.techniques;
  }

  lemma TallyRowsSnoc(a: Tally, g: Group, j: nat)
    requires j < |g.techniques|
    ensures TallyFrom(a, [Enter(g)] + WalkTechniques(g, g.techniques[..j + 1]))
         == TallyFrom(TallyFrom(a, [Enter(g)] + WalkTechniques(g, g.techniques[..j])), WalkTechnique(g, g.techniques[j]))
  {
    var p := [Enter(g)] + WalkTechniques(g, g.techniques[..j]);
    var q := WalkTechnique(g, g.techniques[j]);
    WalkTechniquesSnoc(g, g.techniques, j);
    assert [Enter(g)] + WalkTechniques(g, g.techniques[..j + 1]) == p + q;
    TallyFromConcat(a, p, q);
  }

  /** The body of the `forEach` over a group's rows: the row, then its sub-techniques. */
  method TallyTechnique(a: Tally, g: Group, t: Technique) returns (b: Tally)
    ensures b == TallyFrom(a, WalkTechnique(g, t))
  {
    b := a;
    if t.id != "" {
      b := b.(ids := b.ids + {t.id});
    }
    if t.used {
      b := b.(usedMain := b.usedMain + 1);
      if t.id != "" && '.' !in t.id {
        b := b.(tactics := b.tactics + {TacticPrefix(t.id)});
      }
    }
    assert b == TallyFrom(a, [Row(g, t)]) by { assert [Row(g, t)][..0] == []; }
    var k := 0;
    while k < |t.subs|
      invariant 0 <= k <= |t.subs|
      invariant b == TallyFrom(a, [Row(g, t)] + WalkSubs(g, t, t.subs[..k]))
    {
      TallySubsSnoc(a, g, t, k);
      if t.subs[k].used {
        b := b.(usedSubs := b.usedSubs + 1);
      }
      k := k + 1;
    }
    assert t.subs[..k] == t.subs;
  }

  lemma TallySubsSnoc(a: Tally, g: Group, t: Technique, k: nat)
    requires k < |t.subs|
    ensures TallyFrom(a, [Row(g, t)] + WalkSubs(g, t, t.subs[..k + 1]))
         == TallyStep(TallyFrom(a, [Row(g, t)] + WalkSubs(g, t, t.subs[..k])), Sub(g, t, t.subs[k]))
  {
    var p := [Row(g, t)] + WalkSubs(g, t, t.subs[..k]);
    WalkSubsSnoc(g, t, t.subs, k);
    assert [Row(g, t)] + WalkSubs(g, t, t.subs[..k + 1]) == p + [Sub(g, t, t.subs[k])];
    TallySnoc(a, p, Sub(g, t, t.subs[k]));
  }

  /** Adding up two tallies: the tally of a concatenation (see TallyConcat). */
  function Combine(a: Tally, b: Tally): Tally {
    Tally(a.techniques + b.techniques, a.software + b.software, a.campaigns + b.campaigns,
          a.usedMain + b.usedMain, a.usedSubs + b.usedSubs, a.ids + b.ids, a.tactics + b.tactics)
  }

  /** A tally started from `a` is `a` plus the tally of the events alone. */
  lemma {:induction false} TallyFromCombine(a: Tally, q: seq<Event>)
    ensures TallyFrom(a, q) == Combine(a, TallyOf(q))
    decreases |q|
  {
    if q != [] {
      TallyFromCombine(a, q[..|q| - 1]);
    }
  }

  lemma TallyConcat(p: seq<Event>, q: seq<Event>)
    ensures TallyOf(p + q) == Combine(TallyOf(p), TallyOf(q))
  {
    TallyFromConcat(ZeroTally, p, q);
    TallyFromCombine(TallyOf(p), q);
  }

  lemma TallySingle(e: Event)
    ensures TallyOf([e]) == TallyStep(ZeroTally, e)
  {
    assert [e][..0] == [];
    assert TallyFrom(ZeroTally, [e]) == TallyStep(TallyFrom(ZeroTally, []), e);
  }

  /** The bounds a tally of `rows` technique rows keeps. */
  predicate Bounded(a: Tally, rows: nat) {
    |a.ids| <= rows && a.usedMain <= rows && |a.tactics| <= a.usedMain
  }

  lemma {:induction false} SubsTally(g: Group, t: Technique, ss: seq<SubTechnique>)
    ensures var a := TallyOf(WalkSubs(g, t, ss));
      a.techniques == 0 && a.usedMain == 0 && a.ids == {} && a.tactics == {}
  {
    if ss != [] {
      WalkSubsSnoc(g, t, ss, |ss| - 1);
      assert ss[..|ss| - 1 + 1] == ss;
      SubsTally(g, t, ss[..|ss| - 1]);
      TallySnoc(ZeroTally, WalkSubs(g, t, ss[..|ss| - 1]), Sub(g, t, ss[|ss| - 1]));
    }
  }

  lemma {:induction false} TechniquesTally(g: Group, ts: seq<Technique>)
    ensures TallyOf(WalkTechniques(g, ts)).techniques == 0
    ensures Bounded(TallyOf(WalkTechniques(g, ts)), |ts|)
  {
    if ts != [] {
      var t := ts[|ts| - 1];
      TechniquesTally(g, ts[..|ts| - 1]);
      TallyConcat(WalkTechniques(g, ts[..|ts| - 1]), WalkTechnique(g, t));
      TallyConcat([Row(g, t)], WalkSubs(g, t, t.subs));
      SubsTally(g, t, t.subs);
      TallySingle(Row(g, t));
      UnionCard(TallyOf(WalkTechniques(g, ts[..|ts| - 1])).ids, TallyOf(WalkTechnique(g, t)).ids);
      UnionCard(TallyOf(WalkTechniques(g, ts[..|ts| - 1])).tactics, TallyOf(WalkTechnique(g, t)).tactics);
    }
  }

  lemma UnionCard<T>(a: set<T>, b: set<T>)
    ensures |a + b| <= |a| + |b|
  {
    if b != {} {
      var x :| x in b;
      UnionCard(a, b - {x});
      assert a + b == (a + (b - {x})) + {x};
    }
  }

  lemma {:induction false} WalkTally(gs: seq<Group>)
    ensures Bounded(TallyOf(Walk(gs)), TallyOf(Walk(gs)).techniques)
  {
    if gs != [] {
      var g := gs[|gs| - 1];
      WalkTally(gs[..|gs| - 1]);
      TallyConcat(Walk(gs[..|gs| - 1]), WalkGroup(g));
      TallyConcat([Enter(g)], WalkTechniques(g, g.techniques));
      TallySingle(Enter(g));
      TechniquesTally(g, g.techniques);
      UnionCard(TallyOf(Walk(gs[..|gs| - 1])).ids, TallyOf(WalkGroup(g)).ids);
      UnionCard(TallyOf(Walk(gs[..|gs| - 1])).tactics, TallyOf(WalkGroup(g)).tactics);
    }
  }

  /**
   * The bounds of the overview: every used main technique and every distinct
   * id is a counted row, and every tactic prefix comes from a used row.
   */
  lemma OverviewBounds(m: Groups)
    requires m.Valid()
    ensures Overview(m).usedMainTechniques <= Overview(m).totalTechniques
    ensures Overview(m).uniqueTechniques <= Overview(m).totalTechniques
    ensures Overview(m).tacticsCovered <= Overview(m).usedMainTechniques
    ensures Overview(m).totalGroups == |m.vals.Keys|
  {
    WalkTally(m.Values());
    KeysCount(m);
  }

  /** The distinct ids are exactly the non-empty ids of the technique rows. */
  lemma {:induction false} TallyIds(es: seq<Event>, x: string)
    ensures x in TallyOf(es).ids <==> x != "" && exists e :: e in es && e.Row? && e.t.id == x
  {
    if es != [] {
      var init := es[..|es| - 1];
      TallyIds(init, x);
      assert forall e :: e in es <==> e in init || e == es[|es| - 1];
    }
  }

  /** The tactic prefixes are exactly the first two characters of used, undotted, non-empty row ids. */
  lemma {:induction false} TallyTactics(es: seq<Event>, x: string)
    ensures x in TallyOf(es).tactics <==>
      exists e :: e in es && e.Row? && e.t.used && e.t.id != "" && '.' !in e.t.id && TacticPrefix(e.t.id) == x
  {
    if es != [] {
      var init := es[..|es| - 1];
      TallyTactics(init, x);
      assert forall e :: e in es <==> e in init || e == es[|es| - 1];
    }
  }

  // ---------------------------------------------------------------------
  // The inline totals of the single-file Python dashboard
  // ---------------------------------------------------------------------

  /** `sum(len(group.technique_table_data) for group in ...)`. */
  function RowsIn(gs: seq<Group>): nat {
    if gs == [] then 0 else RowsIn(gs[..|gs| - 1]) + |gs[|gs| - 1].techniques|
  }

  /** `sum(len(group.software_data) for group in ...)`. */
  function SoftwareIn(gs: seq<Group>): nat {
    if gs == [] then 0 else SoftwareIn(gs[..|gs| - 1]) + |gs[|gs| - 1].SoftwareList()|
  }

  function UsedRows(ts: seq<Technique>): nat {
    if ts == [] then 0 else UsedRows(ts[..|ts| - 1]) + (if ts[|ts| - 1].used then 1 else 0)
  }

  function UsedSubs(ss: seq<SubTechnique>): nat {
    if ss == [] then 0 else UsedSubs(ss[..|ss| - 1]) + (if ss[|ss| - 1].used then 1 else 0)
  }

  function UsedSubsOfRows(ts: seq<Technique>): nat {
    if ts == [] then 0 else UsedSubsOfRows(ts[..|ts| - 1]) + UsedSubs(ts[|ts| - 1].subs)
  }

  /** The two counters of the loop in `main`, group by group. */
  function UsedRowsIn(gs: seq<Group>): nat {
    if gs == [] then 0 else UsedRowsIn(gs[..|gs| - 1]) + UsedRows(gs[|gs| - 1].techniques)
  }

  function UsedSubsIn(gs: seq<Group>): nat {
    if gs == [] then 0 else UsedSubsIn(gs[..|gs| - 1]) + UsedSubsOfRows(gs[|gs| - 1].techniques)
  }

  lemma {:induction false} SubsCounts(g: Group, t: Technique, ss: seq<SubTechnique>)
    ensures var a := TallyOf(WalkSubs(g, t, ss));
      a.software == 0 && a.usedMain == 0 && a.usedSubs == UsedSubs(ss)
  {
    if ss != [] {
      WalkSubsSnoc(g, t, ss, |ss| - 1);
      assert ss[..|ss| - 1 + 1] == ss;
      SubsCounts(g, t, ss[..|ss| - 1]);
      TallySnoc(ZeroTally, WalkSubs(g, t, ss[..|ss| - 1]), Sub(g, t, ss[|ss| - 1]));
    }
  }

  lemma {:induction false} TechniquesCounts(g: Group, ts: seq<Technique>)
    ensures var a := TallyOf(WalkTechniques(g, ts));
      a.software == 0 && a.usedMain == UsedRows(ts) && a.usedSubs == UsedSubsOfRows(ts)
  {
    if ts != [] {
      var t := ts[|ts| - 1];
      TechniquesCounts(g, ts[..|ts| - 1]);
      TallyConcat(WalkTechniques(g, ts[..|ts| - 1]), WalkTechnique(g, t));
      TallyConcat([Row(g, t)], WalkSubs(g, t, t.subs));
      SubsCounts(g, t, t.subs);
      TallySingle(Row(g, t));
    }
  }

  lemma {:induction false} WalkCounts(gs: seq<Group>)
    ensures var a := TallyOf(Walk(gs));
      a.techniques == RowsIn(gs) && a.software == SoftwareIn(gs) &&
      a.usedMain == UsedRowsIn(gs) && a.usedSubs == UsedSubsIn(gs)
  {
    if gs != [] {
      var g := gs[|gs| - 1];
      WalkCounts(gs[..|gs| - 1]);
      TallyConcat(Walk(gs[..|gs| - 1]), WalkGroup(g));
      TallyConcat([Enter(g)], WalkTechniques(g, g.techniques));
      TallySingle(Enter(g));
      TechniquesCounts(g, g.techniques);
      TechniquesTally(g, g.techniques);
    }
  }

  /**
   * The totals `main` computes inline agree with the overview metrics:
   * the row and software sums and the two used counters.
   */
  lemma InlineTotalsAgree(m: Groups)
    requires m.Valid()
    ensures Overview(m).totalTechniques == RowsIn(m.Values())
    ensures Overview(m).totalSoftware == SoftwareIn(m.Values())
    ensures Overview(m).usedMainTechniques == UsedRowsIn(m.Values())
    ensures Overview(m).usedSubtechniques == UsedSubsIn(m.Values())
    ensures UsedRowsIn(m.Values()) <= RowsIn(m.Values())
  {
    WalkCounts(m.Values());
    OverviewBounds(m);
  }

  /** An empty map gives all eight metrics 0. */
  lemma OverviewEmpty(m: Groups)
    requires m.Valid() && m.keys == []
    ensures Overview(m) == OverviewMetrics(0, 0, 0, 0, 0, 0, 0, 0)
  {
    assert m.Values() == [];
  }

  /**
   * G1 uses T1055 but not its sub-technique 001, G2 lists T1055 unused:
   * one distinct technique, one used main technique, no used sub-technique.
   */
  lemma OverviewExample()
    ensures
      var t1 := Technique("T1055", "Process Injection", None, true, [SubTechnique("001", "DLL Injection", "", false)]);
      var t2 := Technique("T1055", "Process Injection", None, false, []);
      var g1 := Group("G1", "One", "", [], [t1], None, None);
      var g2 := Group("G2", "Two", "", [], [t2], None, None);
      var m := EmptyMap<string, Group>().Put("G1", g1).Put("G2", g2);
      m.Valid() &&
      Overview(m) == OverviewMetrics(2, 2, 0, 1, 0, 0, 1, 1)
  {
    var t1 := Technique("T1055", "Process Injection", None, true, [SubTechnique("001", "DLL Injection", "", false)]);
    var t2 := Technique("T1055", "Process Injection", None, false, []);
    var g1 := Group("G1", "One", "", [], [t1], None, None);
    var g2 := Group("G2", "Two", "", [], [t2], None, None);
    var m := EmptyMap<string, Group>().Put("G1", g1).Put("G2", g2);
    assert m.Valid() && m.keys == ["G1", "G2"];
    assert m.Values() == [g1, g2];
    ExampleWalk(g1, t1, g2, t2);
    var es := [Enter(g1), Row(g1, t1), Sub(g1, t1, t1.subs[0]), Enter(g2), Row(g2, t2)];
    ExampleTally(es);
    assert Walk(m.Values()) == es;
    assert |{"T1055"}| == 1 && |{"T1"}| == 1;
  }

  lemma ExampleWalk(g1: Group, t1: Technique, g2: Group, t2: Technique)
    requires g1.techniques == [t1] && g2.techniques == [t2] && |t1.subs| == 1 && t2.subs == []
    ensures Walk([g1, g2]) == [Enter(g1), Row(g1, t1), Sub(g1, t1, t1.subs[0]), Enter(g2), Row(g2, t2)]
  {
    WalkSingleRow(g1, t1);
    WalkSingleRow(g2, t2);
    assert WalkSubs(g1, t1, t1.subs) == [Sub(g1, t1, t1.subs[0])];
    assert WalkSubs(g2, t2, t2.subs) == [];
    assert [g1, g2][..1] == [g1];
    assert [g1][..0] == [];
    assert Walk([g1]) == WalkGroup(g1);
  }

  lemma WalkSingleRow(g: Group, t: Technique)
    requires g.techniques == [t]
    ensures WalkGroup(g) == [Enter(g), Row(g, t)] + WalkSubs(g, t, t.subs)
  {
    assert [t][..0] == [];
    assert WalkTechniques(g, [t]) == WalkTechnique(g, t);
  }

  lemma ExampleTally(es: seq<Event>)
    requires |es| == 5 && es[0].Enter? && es[3].Enter?
    requires es[1].Row? && es[1].t.id == "T1055" && es[1].t.used
    requires es[2].Sub? && !es[2].s.used
    requires es[4].Row? && es[4].t.id == "T1055" && !es[4].t.used
    requires |es[0].g.techniques| == 1 && |es[3].g.techniques| == 1
    requires es[0].g.software == None && es[0].g.campaigns == None
    requires es[3].g.software == None && es[3].g.campaigns == None
    ensures TallyOf(es) == Tally(2, 0, 0, 1, 0, {"T1055"}, {"T1"})
  {
    assert TacticPrefix("T1055") == "T1";
    TallySingle(es[0]);
    assert es[..1] == [es[0]];
    TallySnoc(ZeroTally, es[..1], es[1]);
    assert es[..2] == es[..1] + [es[1]];
    TallySnoc(ZeroTally, es[..2], es[2]);
    assert es[..3] == es[..2] + [es[2]];
    TallySnoc(ZeroTally, es[..3], es[3]);
    assert es[..4] == es[..3] + [es[3]];
    TallySnoc(ZeroTally, es[..4], es[4]);
    assert es == es[..4] + [es[4]];
  }
}
