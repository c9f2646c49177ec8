/**
 * The technique-usage matrix: `createTTPMatrix` of the Next.js data loader
 * and `create_ttp_matrix` of the Python dashboard. Both record, for every row
 * and sub-technique with non-empty ids, a display name under its key
 * (`allTechniques`, last write wins) and, per group name, whether that group
 * uses it (`aptUsage`, reset to an empty record each time a group of that
 * name is visited). They differ only in the names they record.
 */
module UsageMatrix {
  import opened Wrappers
  import opened Collections
  import opened Entities

  /** Which implementation's naming rule applies. */
  datatype Dialect = JavaScript | Python

  /** A row's name: `technique.name || 'Unknown'`, or the Python name as it is. */
  function RowName(d: Dialect, t: Technique): string {
    if d.JavaScript? && t.name == "" then "Unknown" else t.name
  }

  /** A sub-technique's name: `sub.name || 'Unknown'`, or Python's `"{tech_name}: {sub_name}"`. */
  function SubName(d: Dialect, t: Technique, s: SubTechnique): string {
    if d.JavaScript? then (if s.name == "" then "Unknown" else s.name)
    else RowName(d, t) + ": " + s.name
  }

  function EventName(d: Dialect, e: Event): string {
    match e
    case Enter(g) => g.name
    case Row(_, t) => RowName(d, t)
    case Sub(_, t, s) => SubName(d, t, s)
  }

  datatype Matrix = Matrix(allTechniques: OMap<string, string>, aptUsage: OMap<string, OMap<string, bool>>)

  function EmptyMatrix(): Matrix { Matrix(EmptyMap(), EmptyMap()) }

  /** The usage record of a group name (empty when there is none yet). */
  function UsageOf(a: Matrix, name: string): OMap<string, bool> {
    a.aptUsage.Get(name).GetOr(EmptyMap())
  }

  function MatrixStep(d: Dialect, a: Matrix, e: Event): Matrix {
    if e.Enter? then a.(aptUsage := a.aptUsage.Put(e.g.name, EmptyMap()))
    else match MatrixKey(e)
      case None => a
      case Some(k) =>
        Matrix(a.allTechniques.Put(k, EventName(d, e)),
               a.aptUsage.Put(e.g.name, UsageOf(a, e.g.name).Put(k, EventUsed(e))))
  }

  function MatrixFrom(d: Dialect, a: Matrix, es: seq<Event>): Matrix {
    if es == [] then a else MatrixStep(d, MatrixFrom(d, a, es[..|es| - 1]), es[|es| - 1])
  }

  /** The matrix of a group map. */
  function MatrixOf(d: Dialect, m: Groups): Matrix
    requires m.Valid()
  {
    MatrixFrom(d, EmptyMatrix(), Walk(m.Values()))
  }

  lemma MatrixSnoc(d: Dialect, a: Matrix, es: seq<Event>, e: Event)
    ensures MatrixFrom(d, a, es + [e]) == MatrixStep(d, MatrixFrom(d, a, es), e)
  {
    assert (es + [e])[..|es|] == es;
  }

  lemma {:induction false} MatrixFromConcat(d: Dialect, a: Matrix, p: seq<Event>, q: seq<Event>)
    ensures MatrixFrom(d, a, p + q) == MatrixFrom(d, MatrixFrom(d, a, p), q)
    decreases |q|
  {
    if q == [] {
      ConcatNil(p);
    } else {
      MatrixFromConcat(d, a, p, q[..|q| - 1]);
      ConcatLast(p, q);
    }
  }

  /** `createTTPMatrix` / `create_ttp_matrix`. */
  method CreateTtpMatrix(d: Dialect, m: Groups) returns (allTechniques: OMap<string, string>, aptUsage: OMap<string, OMap<string, bool>>)
    requires m.Valid()
    ensures Matrix(allTechniques, aptUsage) == MatrixOf(d, m)
  {
    var gs := m.Values();
    var a := EmptyMatrix();
    var i := 0;
    while i < |gs|
      invariant 0 <= i <= |gs|
      invariant a == MatrixFrom(d, EmptyMatrix(), Walk(gs[..i]))
    {
      a := MatrixGroup(d, a, gs[i]);
      WalkSnoc(gs, i);
      MatrixFromConcat(d, EmptyMatrix(), Walk(gs[..i]), WalkGroup(gs[i]));
      i := i + 1;
    }
    assert gs[..i] == gs;
    allTechniques, aptUsage := a.allTechniques, a.aptUsage;
  }

  /** The body of the loop over groups: `aptUsage[group.name] = {}`, then the rows. */
  method MatrixGroup(d: Dialect, a: Matrix, g: Group) returns (b: Matrix)
    ensures b == MatrixFrom(d, a, WalkGroup(g))
  {
    b := a.(aptUsage := a.aptUsage.Put(g.name, EmptyMap()));
    MatrixSnoc(d, a, [], Enter(g));
    assert [] + [Enter(g)] == [Enter(g)];
    var j := 0;
    while j < |g.techniques|
      invariant 0 <= j <= |g.techniques|
      invariant b == MatrixFrom(d, a, [Enter(g)] + WalkTechniques(g, g.techniques[..j]))
    {
      b := MatrixTechnique(d, b, g, g.techniques[j]);
      MatrixRowsSnoc(d, a, g, j);
      j := j + 1;
    }
    assert g.techniques[..j] == g.techniques;
  }

  lemma MatrixRowsSnoc(d: Dialect, a: Matrix, g: Group, j: nat)
    requires j < |g.techniques|
    ensures MatrixFrom(d, a, [Enter(g)] + WalkTechniques(g, g.techniques[..j + 1]))
         == MatrixFrom(d, MatrixFrom(d, a, [Enter(g)] + WalkTechniques(g, g.techniques[..j])), WalkTechnique(g, g.techniques[j]))
  {
    var p := [Enter(g)] + WalkTechniques(g, g.techniques[..j]);
    var q := WalkTechnique(g, g.techniques[j]);
    WalkTechniquesSnoc(g, g.techniques, j);
    assert [Enter(g)] + WalkTechniques(g, g.techniques[..j + 1]) == p + q;
    MatrixFromConcat(d, a, p, q);
  }

  lemma MatrixSubsSnoc(d: Dialect, a: Matrix, g: Group, t: Technique, k: nat)
    requires k < |t.subs|
    ensures MatrixFrom(d, a, [Row(g, t)] + WalkSubs(g, t, t.subs[..k + 1]))
         == MatrixStep(d, MatrixFrom(d, a, [Row(g, t)] + WalkSubs(g, t, t.subs[..k])), Sub(g, t, t.subs[k]))
  {
    var p := [Row(g, t)] + WalkSubs(g, t, t.subs[..k]);
    WalkSubsSnoc(g, t, t.subs, k);
    assert [Row(g, t)] + WalkSubs(g, t, t.subs[..k + 1]) == p + [Sub(g, t, t.subs[k])];
    MatrixSnoc(d, a, p, Sub(g, t, t.subs[k]));
  }

  /** One row: skipped when its id is empty; otherwise the row, then its sub-techniques with a non-empty id. */
  method MatrixTechnique(d: Dialect, a: Matrix, g: Group, t: Technique) returns (b: Matrix)
    ensures b == MatrixFrom(d, a, WalkTechnique(g, t))
  {
    b := a;
    if t.id != "" {
      b := MatrixRow(d, b, g, t);
      assert b == MatrixFrom(d, a, [Row(g, t)]) by { assert [Row(g, t)][..0] == []; }
      var k := 0;
      while k < |t.subs|
        invariant 0 <= k <= |t.subs|
        invariant b == MatrixFrom(d, a, [Row(g, t)] + WalkSubs(g, t, t.subs[..k]))
      {
        MatrixSubsSnoc(d, a, g, t, k);
        b := MatrixSub(d, b, g, t, t.subs[k]);
        k := k + 1;
      }
      assert t.subs[..k] == t.subs;
    } else {
      assert b == MatrixFrom(d, a, [Row(g, t)]) by { assert [Row(g, t)][..0] == []; }
      SubsWithoutParentId(d, b, g, t, t.subs);
      MatrixFromConcat(d, a, [Row(g, t)], WalkSubs(g, t, t.subs));
    }
  }

  /** A row with a non-empty id: its name and the group's flag for it. */
  method MatrixRow(d: Dialect, a: Matrix, g: Group, t: Technique) returns (b: Matrix)
    requires t.id != ""
    ensures b == MatrixStep(d, a, Row(g, t))
  {
    var techId := t.id;
    var techName := RowName(d, t);
    var usage := UsageOf(a, g.name);
    b := Matrix(a.allTechniques.Put(techId, techName), a.aptUsage.Put(g.name, usage.Put(techId, t.used)));
  }

  /** A sub-technique under a row with a non-empty id; skipped when its own id is empty. */
  method MatrixSub(d: Dialect, a: Matrix, g: Group, t: Technique, sub: SubTechnique) returns (b: Matrix)
    requires t.id != ""
    ensures b == MatrixStep(d, a, Sub(g, t, sub))
  {
    b := a;
    var subId := t.id + "." + sub.id;
    var subName := SubName(d, t, sub);
    if sub.id != "" {
      var subUsage := UsageOf(b, g.name);
      b := Matrix(b.allTechniques.Put(subId, subName), b.aptUsage.Put(g.name, subUsage.Put(subId, sub.used)));
    }
  }

  /** Under a row with an empty id no sub-technique is recorded. */
  lemma {:induction false} SubsWithoutParentId(d: Dialect, a: Matrix, g: Group, t: Technique, ss: seq<SubTechnique>)
    requires t.id == ""
    ensures MatrixFrom(d, a, WalkSubs(g, t, ss)) == a
  {
    if ss != [] {
      WalkSubsSnoc(g, t, ss, |ss| - 1);
      assert ss[..|ss| - 1 + 1] == ss;
      SubsWithoutParentId(d, a, g, t, ss[..|ss| - 1]);
      MatrixSnoc(d, a, WalkSubs(g, t, ss[..|ss| - 1]), Sub(g, t, ss[|ss| - 1]));
    }
  }

  // ---------------------------------------------------------------------
  // Properties
  // ---------------------------------------------------------------------

  /** The shape every matrix keeps: each group's usage keys are technique keys. */
  ghost predicate MatrixInv(a: Matrix) {
    a.allTechniques.Valid() && a.aptUsage.Valid() &&
    forall n :: n in a.aptUsage.vals ==>
      a.aptUsage.vals[n].Valid() && a.aptUsage.vals[n].vals.Keys <= a.allTechniques.vals.Keys
  }

  lemma {:induction false} MatrixFromInv(d: Dialect, a: Matrix, es: seq<Event>)
    requires MatrixInv(a)
    ensures MatrixInv(MatrixFrom(d, a, es))
  {
    if es != [] {
      MatrixFromInv(d, a, es[..|es| - 1]);
    }
  }

  /** Every key of every group's usage record is a key of `allTechniques`. */
  lemma UsageKeysAreTechniques(d: Dialect, m: Groups, name: string)
    requires m.Valid()
    requires name in MatrixOf(d, m).aptUsage.vals
    ensures MatrixOf(d, m).aptUsage.vals[name].vals.Keys <= MatrixOf(d, m).allTechniques.vals.Keys
  {
    MatrixFromInv(d, EmptyMatrix(), Walk(m.Values()));
  }

  /**
   * `allTechniques[k]` is the name of the LAST row or sub-technique recorded
   * under `k`, and there is no entry for a key nothing was recorded under.
   */
  lemma {:induction false} NamesAreLastWritten(d: Dialect, es: seq<Event>, k: string)
    ensures MatrixFrom(d, EmptyMatrix(), es).allTechniques.Get(k) ==
      match LastKeyed(es, k)
      case None => None
      case Some(e) => Some(EventName(d, e))
  {
    if es != [] {
      NamesAreLastWritten(d, es[..|es| - 1], k);
    }
  }

  /**
   * The keys of `allTechniques` are exactly the non-empty row ids and the
   * `techId + "." + subId` keys of sub-techniques with non-empty ids.
   */
  lemma TechniqueKeys(d: Dialect, m: Groups, k: string)
    requires m.Valid()
    ensures k in MatrixOf(d, m).allTechniques.vals <==>
      exists e :: e in Walk(m.Values()) &&
        ((e.Row? && e.t.id != "" && k == e.t.id) ||
         (e.Sub? && e.t.id != "" && e.s.id != "" && k == e.t.id + "." + e.s.id))
  {
    var es := Walk(m.Values());
    NamesAreLastWritten(d, es, k);
    if k in MatrixOf(d, m).allTechniques.vals {
      var e := LastKeyed(es, k).value;
      assert MatrixKey(e) == Some(k);
    } else {
      forall e | e in es ensures MatrixKey(e) != Some(k) {
      }
    }
  }

  /** Group names, once entered, stay keys of `aptUsage`. */
  lemma {:induction false} UsageNamesFrom(d: Dialect, a: Matrix, es: seq<Event>, n: string)
    ensures n in MatrixFrom(d, a, es).aptUsage.vals <==>
      n in a.aptUsage.vals || exists e :: e in es && e.g.name == n && (e.Enter? || MatrixKey(e).Some?)
  {
    if es != [] {
      UsageNamesFrom(d, a, es[..|es| - 1], n);
      assert forall e :: e in es <==> e in es[..|es| - 1] || e == es[|es| - 1];
    }
  }

  /** `aptUsage` has exactly one entry per distinct group name. */
  lemma UsageKeysAreGroupNames(d: Dialect, m: Groups, n: string)
    requires m.Valid()
    ensures n in MatrixOf(d, m).aptUsage.vals <==> exists g :: g in m.Values() && g.name == n
  {
    var gs := m.Values();
    UsageNamesFrom(d, EmptyMatrix(), Walk(gs), n);
    if n in MatrixOf(d, m).aptUsage.vals {
      var e :| e in Walk(gs) && e.g.name == n && (e.Enter? || MatrixKey(e).Some?);
      WalkEventGroups(gs, e);
    }
    if exists g :: g in gs && g.name == n {
      var g :| g in gs && g.name == n;
      var i :| 0 <= i < |gs| && gs[i] == g;
      WalkHasEnter(gs, i);
    }
  }

  /** Events that all belong to groups named `n` update `n`'s record from its old value alone. */
  lemma {:induction false} UsageDependsOnOwnRecord(d: Dialect, a: Matrix, b: Matrix, es: seq<Event>, n: string)
    requires forall e :: e in es ==> e.g.name == n
    requires UsageOf(a, n) == UsageOf(b, n)
    ensures UsageOf(MatrixFrom(d, a, es), n) == UsageOf(MatrixFrom(d, b, es), n)
  {
    if es != [] {
      var init, e := es[..|es| - 1], es[|es| - 1];
      assert forall x :: x in init ==> x in es;
      UsageDependsOnOwnRecord(d, a, b, init, n);
      assert e in es;
      StepOwnRecord(d, MatrixFrom(d, a, init), MatrixFrom(d, b, init), e);
    }
  }

  lemma StepOwnRecord(d: Dialect, a: Matrix, b: Matrix, e: Event)
    requires UsageOf(a, e.g.name) == UsageOf(b, e.g.name)
    ensures UsageOf(MatrixStep(d, a, e), e.g.name) == UsageOf(MatrixStep(d, b, e), e.g.name)
  {
  }

  /**
   * Later same-named groups overwrite: after a group `g` is visited, the
   * usage record of its name is the one `g` alone would give, whatever came
   * before.
   */
  lemma LastGroupOfNameWins(d: Dialect, gs: seq<Group>, g: Group)
    ensures UsageOf(MatrixFrom(d, EmptyMatrix(), Walk(gs + [g])), g.name)
         == UsageOf(MatrixFrom(d, EmptyMatrix(), WalkGroup(g)), g.name)
  {
    assert (gs + [g])[..|gs|] == gs;
    var before := MatrixFrom(d, EmptyMatrix(), Walk(gs));
    var rows := WalkTechniques(g, g.techniques);
    MatrixFromConcat(d, EmptyMatrix(), Walk(gs), WalkGroup(g));
    MatrixFromConcat(d, before, [Enter(g)], rows);
    MatrixFromConcat(d, EmptyMatrix(), [Enter(g)], rows);
    assert [Enter(g)][..0] == [];
    forall e | e in rows ensures e.g.name == g.name {
      WalkTechniquesGroup(g, g.techniques, e);
    }
    UsageDependsOnOwnRecord(d, MatrixFrom(d, before, [Enter(g)]), MatrixFrom(d, EmptyMatrix(), [Enter(g)]), rows, g.name);
  }

  /** Python names a sub-technique after its row: `"{tech_name}: {sub_name}"`. */
  lemma PythonSubNames(m: Groups, k: string)
    requires m.Valid()
    requires LastKeyed(Walk(m.Values()), k).Some? && LastKeyed(Walk(m.Values()), k).value.Sub?
    ensures var e := LastKeyed(Walk(m.Values()), k).value;
      MatrixOf(Python, m).allTechniques.Get(k) == Some(e.t.name + ": " + e.s.name)
  {
    NamesAreLastWritten(Python, Walk(m.Values()), k);
  }
}
