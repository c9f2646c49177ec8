/**
 * The APT groups page of the second Next.js app: the group list filtered
 * by the search box, the statistics of the selected group and its
 * technique table with the "used only" switch.
 */
module GroupsView {
  import opened Wrappers
  import opened Strings
  import opened Collections
  import opened Entities
  import opened Numbers
  import opened DataLoader

  // ---------------------------------------------------------------------
  // filteredGroups
  // ---------------------------------------------------------------------

  /** The lowercased name, ATT&CK id or description contains the lowercased term. */
  predicate MatchesSearch(searchTerm: string, g: Group) {
    var q := Lower(searchTerm);
    Contains(Lower(g.name), q) || Contains(Lower(g.attackId), q) || Contains(Lower(g.descr), q)
  }

  predicate EntryMatches(searchTerm: string, e: (string, Group)) {
    MatchesSearch(searchTerm, e.1)
  }

  /** `Object.entries(aptGroups).filter(...)`. */
  function FilteredGroups(m: Groups, searchTerm: string): (r: seq<(string, Group)>)
    requires m.Valid()
    ensures IsSubsequence(r, m.Items())
  {
    FilterIsSubsequence(m.Items(), e => EntryMatches(searchTerm, e));
    Filter(m.Items(), e => EntryMatches(searchTerm, e))
  }

  /** An entry is listed exactly when it is one of the map's and its group matches. */
  lemma FilteredGroupsMembers(m: Groups, searchTerm: string, k: string, g: Group)
    requires m.Valid()
    ensures (k, g) in FilteredGroups(m, searchTerm) <==>
      k in m.vals && m.vals[k] == g && MatchesSearch(searchTerm, g)
  {
    FilterMembers(m.Items(), e => EntryMatches(searchTerm, e), (k, g));
    if k in m.vals && m.vals[k] == g {
      var i :| 0 <= i < |m.keys| && m.keys[i] == k;
      assert m.Items()[i] == (k, g);
    }
  }

  /** The empty search box lists every group, in order. */
  lemma EmptySearchKeepsAll(m: Groups)
    requires m.Valid()
    ensures FilteredGroups(m, "") == m.Items()
  {
    forall i | 0 <= i < |m.Items()| ensures EntryMatches("", m.Items()[i]) {
      EmptyContained(Lower(m.Items()[i].1.name));
    }
    FilterAll(m.Items(), e => EntryMatches("", e));
  }

  /** The search ignores the case of the term. */
  lemma SearchIgnoresCase(m: Groups, searchTerm: string)
    requires m.Valid()
    ensures FilteredGroups(m, Lower(searchTerm)) == FilteredGroups(m, searchTerm)
  {
    LowerIdempotent(searchTerm);
    FilterExt(m.Items(), e => EntryMatches(Lower(searchTerm), e), e => EntryMatches(searchTerm, e));
  }

  /** A group whose id contains the term is always listed. */
  lemma IdMatchListed(m: Groups, searchTerm: string, k: string)
    requires m.Valid() && k in m.vals && Contains(Lower(m.vals[k].attackId), Lower(searchTerm))
    ensures (k, m.vals[k]) in FilteredGroups(m, searchTerm)
  {
    FilteredGroupsMembers(m, searchTerm, k, m.vals[k]);
  }

  // ---------------------------------------------------------------------
  // groupStats
  // ---------------------------------------------------------------------

  /**
   * The statistics card values. `usageRate` is `None` where the source
   * computes `Math.round(0 / 0 * 100)`, which is `NaN`.
   */
  datatype GroupStats = GroupStats(
    usedTechniques: nat, totalTechniques: nat, usedSubtechniques: nat, totalSubtechniques: nat,
    softwareCount: nat, campaignCount: nat, usageRate: Option<nat>)

  /** `technique_table_data.flatMap(t => t.subtechniques)`. */
  function AllSubs(ts: seq<Technique>): seq<SubTechnique> {
    if ts == [] then [] else AllSubs(ts[..|ts| - 1]) + ts[|ts| - 1].subs
  }

  /** The sum of the sub-technique list lengths. */
  function SubsCount(ts: seq<Technique>): nat {
    if ts == [] then 0 else SubsCount(ts[..|ts| - 1]) + |ts[|ts| - 1].subs|
  }

  /** `Math.round(used / total * 100)`, `NaN` when `total` is 0. */
  function UsageRate(used: nat, total: nat): (r: Option<nat>)
    ensures r.None? <==> total == 0
    ensures r.Some? && used <= total ==> r.value <= 100
    ensures r.Some? && used == total ==> r.value == 100
    ensures r.Some? && used == 0 ==> r.value == 0
    ensures r.Some? ==> NearestPercent(used, total, r.value)
  {
    if total == 0 then None else Some(RoundPercent(used, total))
  }

  function StatsOf(g: Group): GroupStats {
    var ts := g.techniques;
    GroupStats(
      |Filter(ts, TechniqueUsed)|, |ts|,
      |Filter(AllSubs(ts), SubUsed)|, |AllSubs(ts)|,
      |g.SoftwareList()|, |g.CampaignList()|,
      UsageRate(|Filter(ts, TechniqueUsed)|, |ts|))
  }

  /** `groupStats`: nothing without a selected group. */
  function Stats(selectedGroup: Option<Group>): (r: Option<GroupStats>)
    ensures r.None? <==> selectedGroup.None?
  {
    match selectedGroup
    case None => None
    case Some(g) => Some(StatsOf(g))
  }

  lemma {:induction false} AllSubsCount(ts: seq<Technique>)
    ensures |AllSubs(ts)| == SubsCount(ts)
  {
    if ts != [] {
      AllSubsCount(ts[..|ts| - 1]);
    }
  }

  lemma {:induction false} UsedCountAgrees(ts: seq<Technique>)
    ensures |Filter(ts, TechniqueUsed)| == UsedRows(ts)
  {
    if ts != [] {
      UsedCountAgrees(ts[..|ts| - 1]);
    }
  }

  lemma {:induction false} UsedSubsCount(ss: seq<SubTechnique>)
    ensures |Filter(ss, SubUsed)| == UsedSubs(ss)
  {
    if ss != [] {
      UsedSubsCount(ss[..|ss| - 1]);
    }
  }

  lemma {:induction false} UsedSubsAgrees(ts: seq<Technique>)
    ensures |Filter(AllSubs(ts), SubUsed)| == UsedSubsOfRows(ts)
  {
    if ts != [] {
      var init, last := ts[..|ts| - 1], ts[|ts| - 1];
      UsedSubsAgrees(init);
      FilterConcat(AllSubs(init), last.subs, SubUsed);
      UsedSubsCount(last.subs);
    }
  }

  lemma {:induction false} FilterAtMost<T>(s: seq<T>, p: T -> bool)
    ensures |Filter(s, p)| <= |s|
  {
    if s != [] {
      FilterAtMost(s[..|s| - 1], p);
    }
  }

  /**
   * The card values of a selected group: the used counts are at most the
   * totals, the sub-technique total is the sum of the list lengths, missing
   * software and campaign arrays count 0, and the rate is a percentage that
   * is only undefined for a group without technique rows. The counts agree
   * with the overview's per-row counters.
   */
  lemma StatsProperties(g: Group)
    ensures var s := StatsOf(g);
      s.usedTechniques <= s.totalTechniques && s.usedSubtechniques <= s.totalSubtechniques &&
      s.totalTechniques == |g.techniques| && s.totalSubtechniques == SubsCount(g.techniques) &&
      s.usedTechniques == UsedRows(g.techniques) && s.usedSubtechniques == UsedSubsOfRows(g.techniques) &&
      (g.software.None? ==> s.softwareCount == 0) && (g.campaigns.None? ==> s.campaignCount == 0) &&
      (s.usageRate.None? <==> g.techniques == []) &&
      (s.usageRate.Some? ==> s.usageRate.value <= 100)
  {
    FilterAtMost(g.techniques, TechniqueUsed);
    FilterAtMost(AllSubs(g.techniques), SubUsed);
    AllSubsCount(g.techniques);
    UsedCountAgrees(g.techniques);
    UsedSubsAgrees(g.techniques);
  }

  // ---------------------------------------------------------------------
  // The technique table
  // ---------------------------------------------------------------------

  predicate Shown(filterUsedOnly: bool, t: Technique) { !filterUsedOnly || t.used }

  /** `technique_table_data.filter(t => !filterUsedOnly || t.technique_used)`. */
  function TableRows(ts: seq<Technique>, filterUsedOnly: bool): (r: seq<Technique>)
    ensures IsSubsequence(r, ts)
  {
    FilterIsSubsequence(ts, t => Shown(filterUsedOnly, t));
    Filter(ts, t => Shown(filterUsedOnly, t))
  }

  /** With the switch on the table shows exactly the used rows; with it off, every row. */
  lemma TableRowsSwitch(ts: seq<Technique>)
    ensures TableRows(ts, true) == Filter(ts, TechniqueUsed)
    ensures TableRows(ts, false) == ts
  {
    FilterExt(ts, t => Shown(true, t), TechniqueUsed);
    FilterAll(ts, t => Shown(false, t));
  }
}
