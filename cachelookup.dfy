/**
 * The cache service's lookups over its in-memory groups: which groups use
 * each technique (`get_all_techniques`), which groups use a given technique
 * (`get_apt_groups_by_technique`) and which use a given software
 * (`get_apt_groups_by_software`). Each visits the groups in map order.
 */
module CacheLookup {
  import opened Wrappers
  import opened Strings
  import opened Collections
  import opened Entities

  // ---------------------------------------------------------------------
  // get_all_techniques
  // ---------------------------------------------------------------------

  /** Technique id (or `parent.sub`) to the set of ids of the groups using it. */
  type TechniqueUsers = OMap<string, set<string>>

  /** One recorded use: the technique key and the using group's `attack_id`. */
  type Use = (string, string)

  /** `techniques.setdefault(key, set()).add(attackId)`. */
  function AddUser(a: TechniqueUsers, key: string, attackId: string): (r: TechniqueUsers)
    ensures a.Valid() ==> r.Valid()
  {
    if key in a.vals then a.Put(key, a.vals[key] + {attackId}) else a.Put(key, {attackId})
  }

  lemma AddUserInTwoSteps(a: TechniqueUsers, key: string, attackId: string)
    ensures var b := if key !in a.vals then a.Put(key, {}) else a;
      b.Put(key, b.vals[key] + {attackId}) == AddUser(a, key, attackId)
  {
    if key !in a.vals {
      var b := a.Put(key, {});
      assert b.vals[key] + {attackId} == {attackId};
      assert b.vals[key := {attackId}] == a.vals[key := {attackId}];
    }
  }

  /** The key of a used sub-technique: the technique id, a dot, the sub-technique id. */
  function SubKey(t: Technique, s: SubTechnique): string {
    t.id + "." + s.id
  }

  /** A row counts when its id is non-empty and it is used. */
  predicate RowCounts(t: Technique) { t.id != "" && t.used }

  predicate SubCounts(s: SubTechnique) { s.id != "" && s.used }

  function SubUses(attackId: string, t: Technique, ss: seq<SubTechnique>): seq<Use> {
    if ss == [] then []
    else
      var s := ss[|ss| - 1];
      SubUses(attackId, t, ss[..|ss| - 1]) + (if SubCounts(s) then [(SubKey(t, s), attackId)] else [])
  }

  function RowUses(attackId: string, t: Technique): seq<Use> {
    (if RowCounts(t) then [(t.id, attackId)] else []) + SubUses(attackId, t, t.subs)
  }

  function RowsUses(attackId: string, ts: seq<Technique>): seq<Use> {
    if ts == [] then [] else RowsUses(attackId, ts[..|ts| - 1]) + RowUses(attackId, ts[|ts| - 1])
  }

  /** Every use recorded by the visit of `gs`, in visiting order. */
  function Uses(gs: seq<Group>): seq<Use> {
    if gs == [] then []
    else Uses(gs[..|gs| - 1]) + RowsUses(gs[|gs| - 1].attackId, gs[|gs| - 1].techniques)
  }

  /** The dictionary after recording `us` one after the other. */
  function Record(a: TechniqueUsers, us: seq<Use>): (r: TechniqueUsers)
    ensures a.Valid() ==> r.Valid()
  {
    if us == [] then a
    else
      var u := us[|us| - 1];
      AddUser(Record(a, us[..|us| - 1]), u.0, u.1)
  }

  /** The result of `get_all_techniques` on the groups `gs` (the cache's values). */
  function AllTechniques(gs: seq<Group>): (r: TechniqueUsers)
    ensures r.Valid()
  {
    Record(EmptyMap(), Uses(gs))
  }

  // An independent statement of "group g uses key k".

  predicate UsesKey(t: Technique, k: string) {
    (RowCounts(t) && t.id == k) || exists j :: 0 <= j < |t.subs| && SubCounts(t.subs[j]) && SubKey(t, t.subs[j]) == k
  }

  predicate GroupUsesKey(g: Group, k: string) {
    exists i :: 0 <= i < |g.techniques| && UsesKey(g.techniques[i], k)
  }

  // Recording ---------------------------------------------------------

  lemma RecordSnoc(a: TechniqueUsers, us: seq<Use>, u: Use)
    ensures Record(a, us + [u]) == AddUser(Record(a, us), u.0, u.1)
  {
    assert (us + [u])[..|us|] == us;
  }

  lemma {:induction false} RecordConcat(a: TechniqueUsers, us: seq<Use>, vs: seq<Use>)
    ensures Record(a, us + vs) == Record(Record(a, us), vs)
  {
    if vs == [] {
      ConcatNil(us);
    } else {
      RecordConcat(a, us, vs[..|vs| - 1]);
      ConcatLast(us, vs);
    }
  }

  /**
   * Recording uses adds the recorded keys, and a group id is under a key
   * exactly when it was there before or one of the uses records that pair.
   */
  lemma {:induction false} RecordMembers(a: TechniqueUsers, us: seq<Use>, k: string, id: string)
    ensures k in Record(a, us).vals <==> k in a.vals || exists u :: u in us && u.0 == k
    ensures k in Record(a, us).vals ==>
      (id in Record(a, us).vals[k] <==> (k in a.vals && id in a.vals[k]) || (k, id) in us)
  {
    if us != [] {
      var init := us[..|us| - 1];
      RecordMembers(a, init, k, id);
      assert forall u :: u in us <==> u in init || u == us[|us| - 1];
    }
  }

  // Uses of the group visit -------------------------------------------

  lemma {:induction false} SubUsesMembers(attackId: string, t: Technique, ss: seq<SubTechnique>, u: Use)
    ensures u in SubUses(attackId, t, ss) <==>
      u.1 == attackId && exists j :: 0 <= j < |ss| && SubCounts(ss[j]) && SubKey(t, ss[j]) == u.0
  {
    if ss != [] {
      var init := ss[..|ss| - 1];
      SubUsesMembers(attackId, t, init, u);
      assert forall j :: 0 <= j < |init| ==> init[j] == ss[j];
      if u.1 == attackId && !(u in SubUses(attackId, t, init)) {
        if exists j :: 0 <= j < |ss| && SubCounts(ss[j]) && SubKey(t, ss[j]) == u.0 {
          var j :| 0 <= j < |ss| && SubCounts(ss[j]) && SubKey(t, ss[j]) == u.0;
          assert j == |ss| - 1;
        }
      }
    }
  }

  lemma RowUsesMembers(attackId: string, t: Technique, u: Use)
    ensures u in RowUses(attackId, t) <==> u.1 == attackId && UsesKey(t, u.0)
  {
    SubUsesMembers(attackId, t, t.subs, u);
  }

  lemma {:induction false} RowsUsesMembers(attackId: string, ts: seq<Technique>, u: Use)
    ensures u in RowsUses(attackId, ts) <==>
      u.1 == attackId && exists i :: 0 <= i < |ts| && UsesKey(ts[i], u.0)
  {
    if ts != [] {
      var init, last := ts[..|ts| - 1], ts[|ts| - 1];
      RowsUsesMembers(attackId, init, u);
      RowUsesMembers(attackId, last, u);
      ExistsSnoc(ts, init, t => UsesKey(t, u.0));
    }
  }

  /** A pair is recorded exactly when a visited group with that id uses that key. */
  lemma {:induction false} UsesMembers(gs: seq<Group>, k: string, id: string)
    ensures (k, id) in Uses(gs) <==> exists g :: g in gs && g.attackId == id && GroupUsesKey(g, k)
  {
    if gs != [] {
      var init, last := gs[..|gs| - 1], gs[|gs| - 1];
      UsesMembers(init, k, id);
      RowsUsesMembers(last.attackId, last.techniques, (k, id));
      assert forall g :: g in gs <==> g in init || g == last;
    }
  }

  lemma UsesKeys(gs: seq<Group>, k: string)
    ensures (exists u :: u in Uses(gs) && u.0 == k) <==> exists g :: g in gs && GroupUsesKey(g, k)
  {
    if exists u :: u in Uses(gs) && u.0 == k {
      var u :| u in Uses(gs) && u.0 == k;
      UsesMembers(gs, k, u.1);
    }
    if exists g :: g in gs && GroupUsesKey(g, k) {
      var g :| g in gs && GroupUsesKey(g, k);
      UsesMembers(gs, k, g.attackId);
    }
  }

  /**
   * `get_all_techniques`: a key is present exactly when some group uses it
   * (a used row with a non-empty id, or a used sub-technique with a
   * non-empty id, keyed `parent.sub`); its value is exactly the set of ids of
   * the groups using it, and so is never empty.
   */
  lemma AllTechniquesSpec(gs: seq<Group>, k: string, id: string)
    ensures k in AllTechniques(gs).vals <==> exists g :: g in gs && GroupUsesKey(g, k)
    ensures k in AllTechniques(gs).vals ==>
      (id in AllTechniques(gs).vals[k] <==> exists g :: g in gs && g.attackId == id && GroupUsesKey(g, k))
    ensures k in AllTechniques(gs).vals ==> AllTechniques(gs).vals[k] != {}
  {
    RecordMembers(EmptyMap(), Uses(gs), k, id);
    UsesKeys(gs, k);
    UsesMembers(gs, k, id);
    if k in AllTechniques(gs).vals {
      var g :| g in gs && GroupUsesKey(g, k);
      RecordMembers(EmptyMap(), Uses(gs), k, g.attackId);
      UsesMembers(gs, k, g.attackId);
    }
  }

  // The loops ---------------------------------------------------------

  /** `if key not in techniques: techniques[key] = set()`, then `techniques[key].add(attackId)`. */
  method AddTo(techniques: TechniqueUsers, key: string, attackId: string) returns (r: TechniqueUsers)
    ensures r == AddUser(techniques, key, attackId)
  {
    r := techniques;
    AddUserInTwoSteps(r, key, attackId);
    if key !in r.vals {
      r := r.Put(key, {});
    }
    r := r.Put(key, r.vals[key] + {attackId});
  }

  lemma SubUsesSnoc(attackId: string, t: Technique, ss: seq<SubTechnique>, j: nat)
    requires j < |ss|
    ensures SubUses(attackId, t, ss[..j + 1]) ==
      SubUses(attackId, t, ss[..j]) + (if SubCounts(ss[j]) then [(SubKey(t, ss[j]), attackId)] else [])
  {
    PrefixSnoc(ss, j);
  }

  method RecordSubtechniques(a: TechniqueUsers, attackId: string, t: Technique) returns (r: TechniqueUsers)
    ensures r == Record(a, SubUses(attackId, t, t.subs))
  {
    r := a;
    var subs := t.subs;
    var j := 0;
    while j < |subs|
      invariant 0 <= j <= |subs|
      invariant r == Record(a, SubUses(attackId, t, subs[..j]))
    {
      var s := subs[j];
      SubUsesSnoc(attackId, t, subs, j);
      if s.id != "" && s.used {
        var fullId := t.id + "." + s.id;
        RecordSnoc(a, SubUses(attackId, t, subs[..j]), (fullId, attackId));
        r := AddTo(r, fullId, attackId);
      } else {
        assert SubUses(attackId, t, subs[..j + 1]) == SubUses(attackId, t, subs[..j]);
      }
      j := j + 1;
    }
    assert subs[..j] == subs;
  }

  method RecordTechnique(a: TechniqueUsers, attackId: string, t: Technique) returns (r: TechniqueUsers)
    ensures r == Record(a, RowUses(attackId, t))
  {
    r := a;
    var row: seq<Use> := if RowCounts(t) then [(t.id, attackId)] else [];
    if t.id != "" && t.used {
      RecordSnoc(a, [], (t.id, attackId));
      r := AddTo(r, t.id, attackId);
    }
    assert r == Record(a, row);
    r := RecordSubtechniques(r, attackId, t);
    RecordConcat(a, row, SubUses(attackId, t, t.subs));
  }

  method RecordGroup(a: TechniqueUsers, g: Group) returns (r: TechniqueUsers)
    ensures r == Record(a, RowsUses(g.attackId, g.techniques))
  {
    r := a;
    var ts := g.techniques;
    var i := 0;
    while i < |ts|
      invariant 0 <= i <= |ts|
      invariant r == Record(a, RowsUses(g.attackId, ts[..i]))
    {
      PrefixSnoc(ts, i);
      r := RecordTechnique(r, g.attackId, ts[i]);
      RecordConcat(a, RowsUses(g.attackId, ts[..i]), RowUses(g.attackId, ts[i]));
      i := i + 1;
    }
    assert ts[..i] == ts;
  }

  /** `get_all_techniques` over the cache's groups `gs`. */
  method GetAllTechniques(gs: seq<Group>) returns (techniques: TechniqueUsers)
    ensures techniques == AllTechniques(gs)
  {
    techniques := EmptyMap();
    var i := 0;
    while i < |gs|
      invariant 0 <= i <= |gs|
      invariant techniques == Record(EmptyMap(), Uses(gs[..i]))
    {
      PrefixSnoc(gs, i);
      techniques := RecordGroup(techniques, gs[i]);
      RecordConcat(EmptyMap(), Uses(gs[..i]), RowsUses(gs[i].attackId, gs[i].techniques));
      i := i + 1;
    }
    assert gs[..i] == gs;
  }

  // ---------------------------------------------------------------------
  // get_apt_groups_by_technique
  // ---------------------------------------------------------------------

  /**
   * A used row (or sub-technique) matches when its id equals the query or its
   * name contains it; the name test is case-sensitive.
   */
  predicate RowMatches(q: string, t: Technique) {
    (t.id == q || Contains(t.name, q)) && t.used
  }

  predicate SubMatches(q: string, s: SubTechnique) {
    (s.id == q || Contains(s.name, q)) && s.used
  }

  predicate TechniqueMatches(q: string, t: Technique) {
    RowMatches(q, t) || exists j :: 0 <= j < |t.subs| && SubMatches(q, t.subs[j])
  }

  predicate UsesTechnique(q: string, g: Group) {
    exists i :: 0 <= i < |g.techniques| && TechniqueMatches(q, g.techniques[i])
  }

  /** The groups of `gs` that use technique `q`, in order. */
  function GroupsByTechnique(q: string, gs: seq<Group>): (r: seq<Group>)
    ensures IsSubsequence(r, gs)
    ensures forall g :: g in r <==> g in gs && UsesTechnique(q, g)
  {
    var r := Filter(gs, g => UsesTechnique(q, g));
    FilterIsSubsequence(gs, g => UsesTechnique(q, g));
    forall g {
      FilterMembers(gs, g => UsesTechnique(q, g), g);
    }
    r
  }

  /** The loop over one row's sub-techniques, leaving at the first match. */
  method SubtechniqueMatches(q: string, t: Technique) returns (found: bool)
    ensures found <==> exists j :: 0 <= j < |t.subs| && SubMatches(q, t.subs[j])
  {
    found := false;
    var j := 0;
    while j < |t.subs|
      invariant 0 <= j <= |t.subs|
      invariant forall j' :: 0 <= j' < j ==> !SubMatches(q, t.subs[j'])
    {
      var s := t.subs[j];
      if (s.id == q || Contains(s.name, q)) && s.used {
        found := true;
        return;
      }
      j := j + 1;
    }
  }

  /** The loop over one group's rows, with the source's two `break`s. */
  method GroupUsesTechnique(q: string, g: Group) returns (found: bool)
    ensures found == UsesTechnique(q, g)
  {
    found := false;
    var i := 0;
    while i < |g.techniques|
      invariant 0 <= i <= |g.techniques|
      invariant forall i' :: 0 <= i' < i ==> !TechniqueMatches(q, g.techniques[i'])
    {
      var technique := g.techniques[i];
      if (technique.id == q || Contains(technique.name, q)) && technique.used {
        found := true;
        return;
      }
      var inSubs := SubtechniqueMatches(q, technique);
      if inSubs {
        found := true;
        return;
      }
      i := i + 1;
    }
  }

  /** `get_apt_groups_by_technique` over the cache's groups `gs`. */
  method GetAptGroupsByTechnique(gs: seq<Group>, techniqueId: string) returns (matchingGroups: seq<Group>)
    ensures matchingGroups == GroupsByTechnique(techniqueId, gs)
  {
    matchingGroups := [];
    var i := 0;
    while i < |gs|
      invariant 0 <= i <= |gs|
      invariant matchingGroups == Filter(gs[..i], g => UsesTechnique(techniqueId, g))
    {
      PrefixSnoc(gs, i);
      var found := GroupUsesTechnique(techniqueId, gs[i]);
      if found {
        matchingGroups := matchingGroups + [gs[i]];
      }
      i := i + 1;
    }
    assert gs[..i] == gs;
  }

  /** Only used rows count: a group whose rows and sub-techniques are all unused is never listed. */
  lemma UnusedGroupNotListed(q: string, gs: seq<Group>, g: Group)
    requires forall i :: 0 <= i < |g.techniques| ==>
      !g.techniques[i].used && forall j :: 0 <= j < |g.techniques[i].subs| ==> !g.techniques[i].subs[j].used
    ensures g !in GroupsByTechnique(q, gs)
  {
  }

  /** A group using the technique by id, through a used row, is listed. */
  lemma ListedById(gs: seq<Group>, g: Group, i: nat)
    requires g in gs && i < |g.techniques| && g.techniques[i].used
    ensures g in GroupsByTechnique(g.techniques[i].id, gs)
  {
    assert TechniqueMatches(g.techniques[i].id, g.techniques[i]);
  }

  // ---------------------------------------------------------------------
  // get_apt_groups_by_software
  // ---------------------------------------------------------------------

  /** Case-insensitive: the lower-cased query in the lower-cased software name. */
  predicate UsesSoftware(q: string, g: Group) {
    exists i :: 0 <= i < |g.SoftwareList()| && Contains(Lower(g.SoftwareList()[i].name), Lower(q))
  }

  function GroupsBySoftware(q: string, gs: seq<Group>): (r: seq<Group>)
    ensures IsSubsequence(r, gs)
    ensures forall g :: g in r <==> g in gs && UsesSoftware(q, g)
  {
    var r := Filter(gs, g => UsesSoftware(q, g));
    FilterIsSubsequence(gs, g => UsesSoftware(q, g));
    forall g {
      FilterMembers(gs, g => UsesSoftware(q, g), g);
    }
    r
  }

  method GroupUsesSoftware(softwareNameLower: string, g: Group) returns (found: bool)
    ensures found <==> exists i :: 0 <= i < |g.SoftwareList()| && Contains(Lower(g.SoftwareList()[i].name), softwareNameLower)
  {
    found := false;
    var sw := g.SoftwareList();
    var i := 0;
    while i < |sw|
      invariant 0 <= i <= |sw|
      invariant forall i' :: 0 <= i' < i ==> !Contains(Lower(sw[i'].name), softwareNameLower)
    {
      if Contains(Lower(sw[i].name), softwareNameLower) {
        found := true;
        return;
      }
      i := i + 1;
    }
  }

  /** `get_apt_groups_by_software` over the cache's groups `gs`. */
  method GetAptGroupsBySoftware(gs: seq<Group>, softwareName: string) returns (matchingGroups: seq<Group>)
    ensures matchingGroups == GroupsBySoftware(softwareName, gs)
  {
    var softwareNameLower := Lower(softwareName);
    matchingGroups := [];
    var i := 0;
    while i < |gs|
      invariant 0 <= i <= |gs|
      invariant matchingGroups == Filter(gs[..i], g => UsesSoftware(softwareName, g))
    {
      PrefixSnoc(gs, i);
      var found := GroupUsesSoftware(softwareNameLower, gs[i]);
      if found {
        matchingGroups := matchingGroups + [gs[i]];
      }
      i := i + 1;
    }
    assert gs[..i] == gs;
  }

  /** The software lookup ignores the case of the query. */
  lemma SoftwareLookupIgnoresCase(q: string, gs: seq<Group>)
    ensures GroupsBySoftware(Lower(q), gs) == GroupsBySoftware(q, gs)
  {
    LowerIdempotent(q);
    FilterExt(gs, g => UsesSoftware(Lower(q), g), g => UsesSoftware(q, g));
  }
}
