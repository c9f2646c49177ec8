/**
 * Technique usage counts: `getTechniqueStats` of the Next.js data loader and
 * `get_technique_stats` of the two Python dashboards. Each visits the rows
 * with a non-empty id and their sub-techniques with a non-empty id, keeps a
 * display name per key (last write wins) and counts the used ones. The Python
 * version names a sub-technique only when it is used, names it after its row,
 * and also collects, per key, the names of the groups that use it.
 */
module TechStats {
  import opened Wrappers
  import opened Collections
  import opened Entities
  import opened UsageMatrix

  datatype Stats = Stats(counts: OMap<string, nat>, names: OMap<string, string>, apt: OMap<string, set<string>>)

  function EmptyStats(): Stats { Stats(EmptyMap(), EmptyMap(), EmptyMap()) }

  function CountOf(a: Stats, k: string): nat { a.counts.Get(k).GetOr(0) }

  function AptOf(a: Stats, k: string): set<string> { a.apt.Get(k).GetOr({}) }

  /** Whether the event's name is written: always in JavaScript, for rows and used sub-techniques in Python. */
  predicate Named(d: Dialect, e: Event) {
    MatrixKey(e).Some? && (d.JavaScript? || e.Row? || EventUsed(e))
  }

  function StatsStep(d: Dialect, a: Stats, e: Event): Stats {
    match MatrixKey(e)
    case None => a
    case Some(k) =>
      var a1 := if Named(d, e) then a.(names := a.names.Put(k, EventName(d, e))) else a;
      if !EventUsed(e) then a1
      else a1.(counts := a1.counts.Put(k, CountOf(a1, k) + 1),
               apt := if d.Python? then a1.apt.Put(k, AptOf(a1, k) + {e.g.name}) else a1.apt)
  }

  function StatsFrom(d: Dialect, a: Stats, es: seq<Event>): Stats {
    if es == [] then a else StatsStep(d, StatsFrom(d, a, es[..|es| - 1]), es[|es| - 1])
  }

  function StatsOf(d: Dialect, m: Groups): Stats
    requires m.Valid()
  {
    StatsFrom(d, EmptyStats(), Walk(m.Values()))
  }

  lemma StatsSnoc(d: Dialect, a: Stats, es: seq<Event>, e: Event)
    ensures StatsFrom(d, a, es + [e]) == StatsStep(d, StatsFrom(d, a, es), e)
  {
    assert (es + [e])[..|es|] == es;
  }

  lemma {:induction false} StatsFromConcat(d: Dialect, a: Stats, p: seq<Event>, q: seq<Event>)
    ensures StatsFrom(d, a, p + q) == StatsFrom(d, StatsFrom(d, a, p), q)
    decreases |q|
  {
    if q == [] {
      ConcatNil(p);
    } else {
      StatsFromConcat(d, a, p, q[..|q| - 1]);
      ConcatLast(p, q);
    }
  }

  /** `getTechniqueStats` / `get_technique_stats`; `apt` is Python's `apt_technique_map`. */
  method GetTechniqueStats(d: Dialect, m: Groups) returns (counts: OMap<string, nat>, names: OMap<string, string>, apt: OMap<string, set<string>>)
    requires m.Valid()
    ensures Stats(counts, names, apt) == StatsOf(d, m)
  {
    var gs := m.Values();
    var a := EmptyStats();
    var i := 0;
    while i < |gs|
      invariant 0 <= i <= |gs|
      invariant a == StatsFrom(d, EmptyStats(), Walk(gs[..i]))
    {
      a := StatsGroup(d, a, gs[i]);
      WalkSnoc(gs, i);
      StatsFromConcat(d, EmptyStats(), Walk(gs[..i]), WalkGroup(gs[i]));
      i := i + 1;
    }
    assert gs[..i] == gs;
    counts, names, apt := a.counts, a.names, a.apt;
  }

  /** The loop over one group's rows. */
  method StatsGroup(d: Dialect, a: Stats, g: Group) returns (b: Stats)
    ensures b == StatsFrom(d, a, WalkGroup(g))
  {
    b := a;
    StatsSnoc(d, a, [], Enter(g));
    assert [] + [Enter(g)] == [Enter(g)];
    var j := 0;
    while j < |g.techniques|
      invariant 0 <= j <= |g.techniques|
      invariant b == StatsFrom(d, a, [Enter(g)] + WalkTechniques(g, g.techniques[..j]))
    {
      b := StatsTechnique(d, b, g, g.techniques[j]);
      StatsRowsSnoc(d, a, g, j);
      j := j + 1;
    }
    assert g.techniques[..j] == g.techniques;
  }

  lemma StatsRowsSnoc(d: Dialect, a: Stats, g: Group, j: nat)
    requires j < |g.techniques|
    ensures StatsFrom(d, a, [Enter(g)] + WalkTechniques(g, g.techniques[..j + 1]))
         == StatsFrom(d, StatsFrom(d, a, [Enter(g)] + WalkTechniques(g, g.techniques[..j])), WalkTechnique(g, g.techniques[j]))
  {
    WalkTechniquesSnoc(g, g.techniques, j);
    StatsFromConcat(d, a, [Enter(g)] + WalkTechniques(g, g.techniques[..j]), WalkTechnique(g, g.techniques[j]));
    assert [Enter(g)] + WalkTechniques(g, g.techniques[..j + 1])
      == ([Enter(g)] + WalkTechniques(g, g.techniques[..j])) + WalkTechnique(g, g.techniques[j]);
  }

  /** One row and, when its id is non-empty, its sub-techniques. */
  method StatsTechnique(d: Dialect, a: Stats, g: Group, t: Technique) returns (b: Stats)
    ensures b == StatsFrom(d, a, WalkTechnique(g, t))
  {
    b := a;
    if t.id != "" {
      b := StatsRow(d, b, g, t);
      StatsSnoc(d, a, [], Row(g, t));
      assert [] + [Row(g, t)] == [Row(g, t)];
      var k := 0;
      while k < |t.subs|
        invariant 0 <= k <= |t.subs|
        invariant b == StatsFrom(d, a, [Row(g, t)] + WalkSubs(g, t, t.subs[..k]))
      {
        StatsSubsSnoc(d, a, g, t, k);
        b := StatsSub(d, b, g, t, t.subs[k]);
        k := k + 1;
      }
      assert t.subs[..k] == t.subs;
    } else {
      StatsSnoc(d, a, [], Row(g, t));
      assert [] + [Row(g, t)] == [Row(g, t)];
      StatsSubsWithoutParentId(d, b, g, t, t.subs);
      StatsFromConcat(d, a, [Row(g, t)], WalkSubs(g, t, t.subs));
    }
  }

  lemma StatsSubsSnoc(d: Dialect, a: Stats, g: Group, t: Technique, k: nat)
    requires k < |t.subs|
    ensures StatsFrom(d, a, [Row(g, t)] + WalkSubs(g, t, t.subs[..k + 1]))
         == StatsStep(d, StatsFrom(d, a, [Row(g, t)] + WalkSubs(g, t, t.subs[..k])), Sub(g, t, t.subs[k]))
  {
    var p := [Row(g, t)] + WalkSubs(g, t, t.subs[..k]);
    WalkSubsSnoc(g, t, t.subs, k);
    assert [Row(g, t)] + WalkSubs(g, t, t.subs[..k + 1]) == p + [Sub(g, t, t.subs[k])];
    StatsSnoc(d, a, p, Sub(g, t, t.subs[k]));
  }

  /** A row with a non-empty id: its name, then its count and group set when it is used. */
  method StatsRow(d: Dialect, a: Stats, g: Group, t: Technique) returns (b: Stats)
    requires t.id != ""
    ensures b == StatsStep(d, a, Row(g, t))
  {
    var techId := t.id;
    b := a.(names := a.names.Put(techId, RowName(d, t)));
    if t.used {
      b := b.(counts := b.counts.Put(techId, CountOf(b, techId) + 1));
      if d.Python? {
        b := b.(apt := b.apt.Put(techId, AptOf(b, techId) + {g.name}));
      }
    }
  }

  /** A sub-technique under a row with a non-empty id. */
  method StatsSub(d: Dialect, a: Stats, g: Group, t: Technique, sub: SubTechnique) returns (b: Stats)
    requires t.id != ""
    ensures b == StatsStep(d, a, Sub(g, t, sub))
  {
    b := a;
    if sub.id != "" {
      var subId := t.id + "." + sub.id;
      if d.JavaScript? {
        b := b.(names := b.names.Put(subId, SubName(d, t, sub)));
        if sub.used {
          b := b.(counts := b.counts.Put(subId, CountOf(b, subId) + 1));
        }
      } else if sub.used {
        b := b.(names := b.names.Put(subId, SubName(d, t, sub)));
        b := b.(counts := b.counts.Put(subId, CountOf(b, subId) + 1));
        b := b.(apt := b.apt.Put(subId, AptOf(b, subId) + {g.name}));
      }
    }
  }

  lemma {:induction false} StatsSubsWithoutParentId(d: Dialect, a: Stats, g: Group, t: Technique, ss: seq<SubTechnique>)
    requires t.id == ""
    ensures StatsFrom(d, a, WalkSubs(g, t, ss)) == a
  {
    if ss != [] {
      WalkSubsSnoc(g, t, ss, |ss| - 1);
      assert ss[..|ss| - 1 + 1] == ss;
      StatsSubsWithoutParentId(d, a, g, t, ss[..|ss| - 1]);
      StatsSnoc(d, a, WalkSubs(g, t, ss[..|ss| - 1]), Sub(g, t, ss[|ss| - 1]));
    }
  }

  // ---------------------------------------------------------------------
  // Reference definitions and properties
  // ---------------------------------------------------------------------

  /** Number of used rows and sub-techniques recorded under key `k`. */
  function UsedCount(es: seq<Event>, k: string): nat {
    if es == [] then 0
    else UsedCount(es[..|es| - 1], k) + (if MatrixKey(es[|es| - 1]) == Some(k) && EventUsed(es[|es| - 1]) then 1 else 0)
  }

  /** Names of the groups with a used row or sub-technique under key `k`. */
  function UsingGroups(es: seq<Event>, k: string): set<string> {
    if es == [] then {}
    else UsingGroups(es[..|es| - 1], k) + (if MatrixKey(es[|es| - 1]) == Some(k) && EventUsed(es[|es| - 1]) then {es[|es| - 1].g.name} else {})
  }

  /** The last event whose name is written under key `k`. */
  function LastNamed(d: Dialect, es: seq<Event>, k: string): (r: Option<Event>)
    ensures r.Some? ==> r.value in es && Named(d, r.value) && MatrixKey(r.value) == Some(k)
    ensures r.None? <==> forall e :: e in es ==> !(Named(d, e) && MatrixKey(e) == Some(k))
  {
    if es == [] then None
    else if Named(d, es[|es| - 1]) && MatrixKey(es[|es| - 1]) == Some(k) then Some(es[|es| - 1])
    else
      var r := LastNamed(d, es[..|es| - 1], k);
      assert forall e :: e in es ==> e in es[..|es| - 1] || e == es[|es| - 1];
      r
  }

  /** The count of a key is the number of used entries under it; unused keys have no count. */
  lemma {:induction false} CountsAreUseCounts(d: Dialect, es: seq<Event>, k: string)
    ensures StatsFrom(d, EmptyStats(), es).counts.Get(k) ==
      if UsedCount(es, k) == 0 then None else Some(UsedCount(es, k))
  {
    if es != [] {
      CountsAreUseCounts(d, es[..|es| - 1], k);
      StatsStepCount(d, StatsFrom(d, EmptyStats(), es[..|es| - 1]), es[|es| - 1], k);
    }
  }

  /** One event adds one to the count of its key when it is used, and touches no other count. */
  lemma StatsStepCount(d: Dialect, a: Stats, e: Event, k: string)
    ensures StatsStep(d, a, e).counts.Get(k) ==
      if MatrixKey(e) == Some(k) && EventUsed(e) then Some(CountOf(a, k) + 1) else a.counts.Get(k)
  {
  }

  /** Python's group sets: the names of the groups using the key. */
  lemma {:induction false} AptIsUsingGroups(es: seq<Event>, k: string)
    ensures StatsFrom(Python, EmptyStats(), es).apt.Get(k) ==
      if UsedCount(es, k) == 0 then None else Some(UsingGroups(es, k))
    ensures UsedCount(es, k) == 0 ==> UsingGroups(es, k) == {}
  {
    if es != [] {
      var init, e := es[..|es| - 1], es[|es| - 1];
      AptIsUsingGroups(init, k);
      var a := StatsFrom(Python, EmptyStats(), init);
      StatsStepGroupSets(a, e, k);
      assert StatsFrom(Python, EmptyStats(), es) == StatsStep(Python, a, e);
      if MatrixKey(e) == Some(k) && EventUsed(e) {
        assert UsingGroups(es, k) == UsingGroups(init, k) + {e.g.name};
        assert AptOf(a, k) == UsingGroups(init, k);
      } else {
        assert UsingGroups(es, k) == UsingGroups(init, k);
        assert UsedCount(es, k) == UsedCount(init, k);
        assert StatsStep(Python, a, e).apt.Get(k) == a.apt.Get(k);
      }
    }
  }

  /** How one Python step changes the group set of key `k`. */
  lemma StatsStepGroupSets(a: Stats, e: Event, k: string)
    ensures StatsStep(Python, a, e).apt.Get(k) ==
      if MatrixKey(e) == Some(k) && EventUsed(e) then Some(AptOf(a, k) + {e.g.name}) else a.apt.Get(k)
  {
    if MatrixKey(e).Some? {
      var k' := MatrixKey(e).value;
      var a1 := if Named(Python, e) then a.(names := a.names.Put(k', EventName(Python, e))) else a;
      assert a1.apt == a.apt;
    }
  }

  lemma {:induction false} UsingGroupsBound(es: seq<Event>, k: string)
    ensures |UsingGroups(es, k)| <= UsedCount(es, k)
  {
    if es != [] {
      var init := es[..|es| - 1];
      UsingGroupsBound(init, k);
      var e := es[|es| - 1];
      if MatrixKey(e) == Some(k) && EventUsed(e) {
        var u := UsingGroups(init, k);
        if e.g.name in u {
          assert u + {e.g.name} == u;
        } else {
          assert |u + {e.g.name}| == |u| + 1;
        }
      }
    }
  }

  /** `len(apt_technique_map[k]) <= technique_counts[k]`, and both exist for the same keys. */
  lemma AptBoundedByCount(m: Groups, k: string)
    requires m.Valid()
    ensures var s := StatsOf(Python, m);
      s.apt.Get(k).Some? <==> s.counts.Get(k).Some?
    ensures var s := StatsOf(Python, m);
      s.apt.Get(k).Some? ==> |s.apt.Get(k).value| <= s.counts.Get(k).value
  {
    var es := Walk(m.Values());
    AptIsUsingGroups(es, k);
    CountsAreUseCounts(Python, es, k);
    UsingGroupsBound(es, k);
  }

  /** The name map holds the name of the last entry written under each key. */
  lemma {:induction false} NamesAreLastNamed(d: Dialect, es: seq<Event>, k: string)
    ensures StatsFrom(d, EmptyStats(), es).names.Get(k) ==
      match LastNamed(d, es, k)
      case None => None
      case Some(e) => Some(EventName(d, e))
  {
    if es != [] {
      NamesAreLastNamed(d, es[..|es| - 1], k);
    }
  }

  /** Every counted key has a name, and every count is at least one. */
  lemma CountedKeysAreNamed(d: Dialect, m: Groups, k: string)
    requires m.Valid()
    requires StatsOf(d, m).counts.Get(k).Some?
    ensures StatsOf(d, m).names.Get(k).Some?
    ensures StatsOf(d, m).counts.Get(k).value >= 1
  {
    var es := Walk(m.Values());
    CountsAreUseCounts(d, es, k);
    UsedCountWitness(es, k);
    NamesAreLastNamed(d, es, k);
    var e :| e in es && MatrixKey(e) == Some(k) && EventUsed(e);
    assert Named(d, e);
  }

  lemma {:induction false} UsedCountWitness(es: seq<Event>, k: string)
    requires UsedCount(es, k) > 0
    ensures exists e :: e in es && MatrixKey(e) == Some(k) && EventUsed(e)
  {
    var last := es[|es| - 1];
    if !(MatrixKey(last) == Some(k) && EventUsed(last)) {
      UsedCountWitness(es[..|es| - 1], k);
      var e :| e in es[..|es| - 1] && MatrixKey(e) == Some(k) && EventUsed(e);
      assert e in es;
    }
  }

  /** The two implementations count the same keys the same way, in the same order. */
  lemma {:induction false} DialectsCountAlike(es: seq<Event>)
    ensures StatsFrom(JavaScript, EmptyStats(), es).counts == StatsFrom(Python, EmptyStats(), es).counts
  {
    if es != [] {
      DialectsCountAlike(es[..|es| - 1]);
      StepCountsAlike(StatsFrom(JavaScript, EmptyStats(), es[..|es| - 1]), StatsFrom(Python, EmptyStats(), es[..|es| - 1]), es[|es| - 1]);
    }
  }

  lemma StepCountsAlike(a: Stats, b: Stats, e: Event)
    requires a.counts == b.counts
    ensures StatsStep(JavaScript, a, e).counts == StatsStep(Python, b, e).counts
  {
  }

  /** The JavaScript name map is exactly `createTTPMatrix`'s `allTechniques`. */
  lemma {:induction false} JsNamesAreMatrixNames(es: seq<Event>)
    ensures StatsFrom(JavaScript, EmptyStats(), es).names == MatrixFrom(JavaScript, EmptyMatrix(), es).allTechniques
  {
    if es != [] {
      JsNamesAreMatrixNames(es[..|es| - 1]);
    }
  }

  /** The JavaScript loader builds no group-set map. */
  lemma {:induction false} JsHasNoGroupSets(es: seq<Event>)
    ensures StatsFrom(JavaScript, EmptyStats(), es).apt == EmptyMap()
  {
    if es != [] {
      JsHasNoGroupSets(es[..|es| - 1]);
    }
  }

  /** Python names a sub-technique only when it is used. */
  lemma PythonNamesUsedSubsOnly(es: seq<Event>, k: string)
    requires forall e :: e in es && MatrixKey(e) == Some(k) ==> e.Sub? && !EventUsed(e)
    ensures StatsFrom(Python, EmptyStats(), es).names.Get(k) == None
  {
    NamesAreLastNamed(Python, es, k);
  }
}
