/**
 * The cache service's view of a group's technique table: the filter it
 * applies when a group file is loaded (only techniques the group actually
 * uses survive) and the relevance score it gives a search term.
 */
module CacheFilter {
  import opened Wrappers
  import opened Strings
  import opened Collections
  import opened Entities

  // ---------------------------------------------------------------------
  // _filter_used_techniques
  // ---------------------------------------------------------------------

  /**
   * What happens to one technique row: a used row is kept as it is; an
   * unused row is kept, rewritten to hold only its used sub-techniques, when
   * it has any; otherwise it is dropped.
   */
  function KeepUsed(t: Technique): (r: Option<Technique>)
    ensures t.used ==> r == Some(t)
    ensures !t.used ==> (r.None? <==> forall i :: 0 <= i < |t.subs| ==> !t.subs[i].used)
    ensures r.Some? && !t.used ==>
      r.value.id == t.id && r.value.name == t.name && r.value.descr == t.descr && !r.value.used &&
      r.value.subs == Filter(t.subs, SubUsed)
  {
    if t.used then Some(t)
    else
      var usedSubs := Filter(t.subs, SubUsed);
      UsedSubsEmpty(t.subs);
      if usedSubs != [] then Some(t.(subs := usedSubs, used := false)) else None
  }

  lemma UsedSubsEmpty(ss: seq<SubTechnique>)
    ensures Filter(ss, SubUsed) == [] <==> forall i :: 0 <= i < |ss| ==> !ss[i].used
  {
    forall i | 0 <= i < |ss| {
      FilterMembers(ss, SubUsed, ss[i]);
    }
    if Filter(ss, SubUsed) != [] {
      var x := Filter(ss, SubUsed)[0];
      var i :| 0 <= i < |ss| && ss[i] == x;
    }
  }

  /** The row a kept technique contributes, or nothing. */
  function Kept(t: Technique): seq<Technique> {
    match KeepUsed(t)
    case Some(k) => [k]
    case None => []
  }

  /**
   * The filtered technique table, in the original order. Every row left is
   * used, or is unused and holds a non-empty list of used sub-techniques.
   */
  function FilterUsed(ts: seq<Technique>): (r: seq<Technique>)
    ensures |r| <= |ts|
    ensures forall i :: 0 <= i < |r| ==>
      r[i].used || (r[i].subs != [] && forall j :: 0 <= j < |r[i].subs| ==> r[i].subs[j].used)
  {
    if ts == [] then []
    else FilterUsed(ts[..|ts| - 1]) + Kept(ts[|ts| - 1])
  }

  lemma FilterUsedSnoc(ts: seq<Technique>, i: nat)
    requires i < |ts|
    ensures FilterUsed(ts[..i + 1]) == FilterUsed(ts[..i]) + Kept(ts[i])
  {
    PrefixSnoc(ts, i);
  }

  /** The loop over `subtechniques` of an unused row, collecting the used ones. */
  method UsedSubtechniques(subs: seq<SubTechnique>) returns (usedSubs: seq<SubTechnique>)
    ensures usedSubs == Filter(subs, SubUsed)
  {
    usedSubs := [];
    var j := 0;
    while j < |subs|
      invariant 0 <= j <= |subs|
      invariant usedSubs == Filter(subs[..j], SubUsed)
    {
      PrefixSnoc(subs, j);
      if subs[j].used {
        usedSubs := usedSubs + [subs[j]];
      }
      j := j + 1;
    }
    assert subs[..j] == subs;
  }

  /** `_filter_used_techniques`, without its logging counters. */
  method FilterUsedTechniques(techniqueData: seq<Technique>) returns (filtered: seq<Technique>)
    ensures filtered == FilterUsed(techniqueData)
  {
    filtered := [];
    var i := 0;
    while i < |techniqueData|
      invariant 0 <= i <= |techniqueData|
      invariant filtered == FilterUsed(techniqueData[..i])
    {
      var technique := techniqueData[i];
      FilterUsedSnoc(techniqueData, i);
      if technique.used {
        filtered := filtered + [technique];
      } else {
        var usedSubs := UsedSubtechniques(technique.subs);
        if usedSubs != [] {
          filtered := filtered + [technique.(subs := usedSubs, used := false)];
        }
      }
      i := i + 1;
    }
    assert techniqueData[..i] == techniqueData;
  }

  /** A row is in the filtered table exactly when some input row is kept as it. */
  lemma {:induction false} FilterUsedMembers(ts: seq<Technique>, x: Technique)
    ensures x in FilterUsed(ts) <==> exists t :: t in ts && KeepUsed(t) == Some(x)
  {
    if ts != [] {
      var init, last := ts[..|ts| - 1], ts[|ts| - 1];
      FilterUsedMembers(init, x);
      assert forall t :: t in ts <==> t in init || t == last;
    }
  }

  /** The used rows pass through unchanged and in order. */
  lemma {:induction false} FilterUsedKeepsUsedRows(ts: seq<Technique>)
    ensures Filter(FilterUsed(ts), TechniqueUsed) == Filter(ts, TechniqueUsed)
  {
    if ts != [] {
      var init, last := ts[..|ts| - 1], ts[|ts| - 1];
      FilterUsedKeepsUsedRows(init);
      FilterConcat(FilterUsed(init), Kept(last), TechniqueUsed);
      if last.used {
        assert Filter(Kept(last), TechniqueUsed) == [last] by {
          FilterSnoc([], last, TechniqueUsed);
        }
      } else if KeepUsed(last).Some? {
        assert Filter(Kept(last), TechniqueUsed) == [] by {
          FilterSnoc([], KeepUsed(last).value, TechniqueUsed);
        }
      }
    }
  }

  /** Filtering a filtered table changes nothing. */
  lemma {:induction false} FilterUsedIdempotent(ts: seq<Technique>)
    ensures FilterUsed(FilterUsed(ts)) == FilterUsed(ts)
  {
    if ts != [] {
      var init, last := ts[..|ts| - 1], ts[|ts| - 1];
      FilterUsedIdempotent(init);
      FilterUsedConcat(FilterUsed(init), Kept(last));
      if KeepUsed(last).Some? {
        var k := KeepUsed(last).value;
        if !last.used {
          FilterIdempotent(last.subs, SubUsed);
        }
        assert KeepUsed(k) == Some(k);
        assert FilterUsed([k]) == [] + Kept(k);
      }
    }
  }

  /** The filter works row by row. */
  lemma {:induction false} FilterUsedConcat(a: seq<Technique>, b: seq<Technique>)
    ensures FilterUsed(a + b) == FilterUsed(a) + FilterUsed(b)
  {
    if b != [] {
      var init := b[..|b| - 1];
      FilterUsedConcat(a, init);
      ConcatLast(a, b);
      ConcatAssoc(FilterUsed(a), FilterUsed(init), Kept(b[|b| - 1]));
    } else {
      ConcatNil(a);
      ConcatNil(FilterUsed(a));
    }
  }

  // ---------------------------------------------------------------------
  // _calculate_relevance
  // ---------------------------------------------------------------------

  /** `[alias.lower() for alias in aliases]`. */
  function LowerAll(xs: seq<string>): (r: seq<string>)
    ensures |r| == |xs| && forall i :: 0 <= i < |xs| ==> r[i] == Lower(xs[i])
  {
    seq(|xs|, i requires 0 <= i < |xs| => Lower(xs[i]))
  }

  /** A used row whose (non-empty) name contains the term scores 5. */
  predicate RowHit(term: string, t: Technique) {
    t.name != "" && Contains(Lower(t.name), term) && t.used
  }

  predicate SubHit(term: string, s: SubTechnique) {
    s.name != "" && Contains(Lower(s.name), term) && s.used
  }

  predicate SoftwareHit(term: string, s: Software) {
    s.name != "" && Contains(Lower(s.name), term)
  }

  function SubsScore(term: string, ss: seq<SubTechnique>): nat {
    if ss == [] then 0
    else SubsScore(term, ss[..|ss| - 1]) + (if SubHit(term, ss[|ss| - 1]) then 5 else 0)
  }

  function RowScore(term: string, t: Technique): nat {
    (if RowHit(term, t) then 5 else 0) + SubsScore(term, t.subs)
  }

  function RowsScore(term: string, ts: seq<Technique>): nat {
    if ts == [] then 0
    else RowsScore(term, ts[..|ts| - 1]) + RowScore(term, ts[|ts| - 1])
  }

  function SoftwareScore(term: string, sw: seq<Software>): nat {
    if sw == [] then 0
    else SoftwareScore(term, sw[..|sw| - 1]) + (if SoftwareHit(term, sw[|sw| - 1]) then 4 else 0)
  }

  /**
   * The relevance of a term for a group: 10 for the exact lower-cased name,
   * 8 for an alias, 5 per used row or used sub-technique whose name contains
   * it, 4 per software name containing it and 2 when the description does.
   * The weights are whole numbers, so the score is an integer here.
   */
  function Relevance(term: string, g: Group): nat {
    (if term == Lower(g.name) then 10 else 0)
    + (if term in LowerAll(g.aliases) then 8 else 0)
    + RowsScore(term, g.techniques)
    + SoftwareScore(term, g.SoftwareList())
    + (if Contains(Lower(g.descr), term) then 2 else 0)
  }

  method SubsScoreLoop(term: string, subs: seq<SubTechnique>) returns (score: nat)
    ensures score == SubsScore(term, subs)
  {
    score := 0;
    var j := 0;
    while j < |subs|
      invariant 0 <= j <= |subs|
      invariant score == SubsScore(term, subs[..j])
    {
      PrefixSnoc(subs, j);
      var s := subs[j];
      if s.name != "" && Contains(Lower(s.name), term) && s.used {
        score := score + 5;
      }
      j := j + 1;
    }
    assert subs[..j] == subs;
  }

  method RowsScoreLoop(term: string, ts: seq<Technique>) returns (score: nat)
    ensures score == RowsScore(term, ts)
  {
    score := 0;
    var i := 0;
    while i < |ts|
      invariant 0 <= i <= |ts|
      invariant score == RowsScore(term, ts[..i])
    {
      PrefixSnoc(ts, i);
      var technique := ts[i];
      if technique.name != "" && Contains(Lower(technique.name), term) {
        if technique.used {
          score := score + 5;
        }
      }
      var subs := SubsScoreLoop(term, technique.subs);
      score := score + subs;
      i := i + 1;
    }
    assert ts[..i] == ts;
  }

  method SoftwareScoreLoop(term: string, sw: seq<Software>) returns (score: nat)
    ensures score == SoftwareScore(term, sw)
  {
    score := 0;
    var k := 0;
    while k < |sw|
      invariant 0 <= k <= |sw|
      invariant score == SoftwareScore(term, sw[..k])
    {
      PrefixSnoc(sw, k);
      if sw[k].name != "" && Contains(Lower(sw[k].name), term) {
        score := score + 4;
      }
      k := k + 1;
    }
    assert sw[..k] == sw;
  }

  /** `_calculate_relevance`: the score accumulated over the group's fields. */
  method CalculateRelevance(term: string, aptGroup: Group) returns (score: nat)
    ensures score == Relevance(term, aptGroup)
  {
    score := 0;
    if term == Lower(aptGroup.name) {
      score := score + 10;
    }
    if term in LowerAll(aptGroup.aliases) {
      score := score + 8;
    }
    var rows := RowsScoreLoop(term, aptGroup.techniques);
    score := score + rows;
    var soft := SoftwareScoreLoop(term, aptGroup.SoftwareList());
    score := score + soft;
    if Contains(Lower(aptGroup.descr), term) {
      score := score + 2;
    }
  }

  // Relevance: properties

  lemma {:induction false} SubsScoreZero(term: string, ss: seq<SubTechnique>)
    ensures SubsScore(term, ss) == 0 <==> forall i :: 0 <= i < |ss| ==> !SubHit(term, ss[i])
  {
    if ss != [] {
      var init := ss[..|ss| - 1];
      SubsScoreZero(term, init);
      assert forall i :: 0 <= i < |init| ==> init[i] == ss[i];
    }
  }

  /** A row hit somewhere in the table: the row itself or one of its sub-techniques. */
  predicate TableHit(term: string, ts: seq<Technique>) {
    exists i :: 0 <= i < |ts| && (RowHit(term, ts[i]) || exists j :: 0 <= j < |ts[i].subs| && SubHit(term, ts[i].subs[j]))
  }

  lemma {:induction false} RowsScoreZero(term: string, ts: seq<Technique>)
    ensures RowsScore(term, ts) == 0 <==> !TableHit(term, ts)
  {
    if ts != [] {
      var init, last := ts[..|ts| - 1], ts[|ts| - 1];
      RowsScoreZero(term, init);
      SubsScoreZero(term, last.subs);
      assert forall i :: 0 <= i < |init| ==> init[i] == ts[i];
      if TableHit(term, ts) && !TableHit(term, init) {
        var i :| 0 <= i < |ts| && (RowHit(term, ts[i]) || exists j :: 0 <= j < |ts[i].subs| && SubHit(term, ts[i].subs[j]));
        assert i == |ts| - 1;
      }
    }
  }

  lemma {:induction false} SoftwareScoreZero(term: string, sw: seq<Software>)
    ensures SoftwareScore(term, sw) == 0 <==> forall i :: 0 <= i < |sw| ==> !SoftwareHit(term, sw[i])
  {
    if sw != [] {
      var init := sw[..|sw| - 1];
      SoftwareScoreZero(term, init);
      assert forall i :: 0 <= i < |init| ==> init[i] == sw[i];
    }
  }

  /**
   * A term scores nothing exactly when it is not the name, not an alias, in
   * no used row or sub-technique name, in no software name and not in the
   * description.
   */
  lemma RelevanceZeroIff(term: string, g: Group)
    ensures Relevance(term, g) == 0 <==>
      term != Lower(g.name) &&
      (forall i :: 0 <= i < |g.aliases| ==> term != Lower(g.aliases[i])) &&
      !TableHit(term, g.techniques) &&
      (forall i :: 0 <= i < |g.SoftwareList()| ==> !SoftwareHit(term, g.SoftwareList()[i])) &&
      !Contains(Lower(g.descr), term)
  {
    RowsScoreZero(term, g.techniques);
    SoftwareScoreZero(term, g.SoftwareList());
    var la := LowerAll(g.aliases);
    assert term in la <==> exists i :: 0 <= i < |g.aliases| && term == Lower(g.aliases[i]) by {
      if term in la {
        var i :| 0 <= i < |la| && la[i] == term;
        assert term == Lower(g.aliases[i]);
      }
    }
  }

  /** The exact lower-cased name scores at least 10; an alias at least 8. */
  lemma NameAndAliasScores(g: Group, i: nat)
    requires i < |g.aliases|
    ensures Relevance(Lower(g.name), g) >= 10
    ensures Relevance(Lower(g.aliases[i]), g) >= 8
  {
    assert LowerAll(g.aliases)[i] == Lower(g.aliases[i]);
  }

  lemma {:induction false} SubsScoreOfFiltered(term: string, ss: seq<SubTechnique>)
    ensures SubsScore(term, Filter(ss, SubUsed)) == SubsScore(term, ss)
  {
    if ss != [] {
      var init, last := ss[..|ss| - 1], ss[|ss| - 1];
      SubsScoreOfFiltered(term, init);
      if last.used {
        var f := Filter(init, SubUsed) + [last];
        assert f[..|f| - 1] == Filter(init, SubUsed);
      }
    }
  }

  lemma {:induction false} RowsScoreConcat(term: string, a: seq<Technique>, b: seq<Technique>)
    ensures RowsScore(term, a + b) == RowsScore(term, a) + RowsScore(term, b)
  {
    if b != [] {
      var init := b[..|b| - 1];
      RowsScoreConcat(term, a, init);
      ConcatLast(a, b);
    } else {
      ConcatNil(a);
    }
  }

  /**
   * Only used rows and used sub-techniques score, so filtering the technique
   * table at load time leaves every technique score as it was.
   */
  lemma {:induction false} RowsScoreOfFiltered(term: string, ts: seq<Technique>)
    ensures RowsScore(term, FilterUsed(ts)) == RowsScore(term, ts)
  {
    if ts != [] {
      var init, last := ts[..|ts| - 1], ts[|ts| - 1];
      RowsScoreOfFiltered(term, init);
      RowsScoreConcat(term, FilterUsed(init), Kept(last));
      KeptScore(term, last);
    }
  }

  lemma KeptScore(term: string, t: Technique)
    ensures RowsScore(term, Kept(t)) == RowScore(term, t)
  {
    match KeepUsed(t)
    case Some(k) =>
      assert RowsScore(term, [k]) == RowScore(term, k);
      if !t.used {
        SubsScoreOfFiltered(term, t.subs);
      }
    case None =>
      SubsScoreZero(term, t.subs);
  }

  lemma RelevanceOfFilteredGroup(term: string, g: Group)
    ensures Relevance(term, g.(techniques := FilterUsed(g.techniques))) == Relevance(term, g)
  {
    RowsScoreOfFiltered(term, g.techniques);
  }
}
