/**
 * The technique rows of a group page: `technique_used_helper` and its
 * helpers, which add a technique a group (or one of its campaigns) uses to
 * the technique list, nesting sub-techniques under their parent.
 *
 * The technique-to-domain map and the technique list the helpers read from
 * the relationship getters are passed in as `Lookups`.
 */
module TechniqueUsed {
  import opened Wrappers
  import opened Strings
  import opened Collections
  import opened Stix

  /**
   * A row of the technique list: `technique_used`, `domain`, `id`, `name`,
   * the optional `descr` and the `subtechniques`. A `name` of `None` is the
   * `NOT_FOUND` that `get_technique_name` gives for an unknown parent.
   */
  datatype TechEntry = TechEntry(used: bool, domain: string, id: string, name: Option<string>, descr: Option<string>, subs: seq<TechEntry>)

  /** The technique list, keyed by ATT&CK id in insertion order. */
  type TechniqueList = OMap<string, TechEntry>

  datatype Lookups = Lookups(techniqueToDomain: map<string, string>, techniques: seq<StixObject>)

  /** What a call of `technique_used_helper` leaves: the technique list and the reference list it updated in place. */
  datatype Acc = Acc(techniques: TechniqueList, refs: ReferenceList)

  // ---------------------------------------------------------------------
  // get_technique_name, get_technique_data_helper, parent_technique_used_helper
  // ---------------------------------------------------------------------

  /** The name of the first technique whose ATT&CK id is `tid`; `None` stands for `NOT_FOUND`. */
  function TechniqueName(techniques: seq<StixObject>, tid: string): (r: Option<string>)
    ensures r.None? <==> forall i :: 0 <= i < |techniques| ==> AttackId(techniques[i]) != Some(tid)
    ensures r.Some? ==> exists i :: 0 <= i < |techniques| && AttackId(techniques[i]) == Some(tid) && r.value == techniques[i].name
  {
    if techniques == [] then None
    else if AttackId(techniques[0]) == Some(tid) then Some(techniques[0].name)
    else
      assert forall i :: 1 <= i < |techniques| ==> techniques[i] == techniques[1..][i - 1];
      TechniqueName(techniques[1..], tid)
  }

  /** `get_technique_name`: the loop that returns at the first technique with the id. */
  method GetTechniqueName(lk: Lookups, tid: string) returns (name: Option<string>)
    ensures name == TechniqueName(lk.techniques, tid)
  {
    var i := 0;
    while i < |lk.techniques|
      invariant 0 <= i <= |lk.techniques|
      invariant TechniqueName(lk.techniques[i..], tid) == TechniqueName(lk.techniques, tid)
    {
      var technique := lk.techniques[i];
      var attackId := GetAttackId(technique);
      assert lk.techniques[i..][1..] == lk.techniques[i + 1..];
      if attackId == Some(tid) {
        return Some(technique.name);
      }
      i := i + 1;
    }
    return None;
  }

  /** `technique_to_domain[id].split("-")[0]`. */
  function DomainOf(d: string): string {
    SplitOn(d, '-')[0]
  }

  /** The id a technique row carries: the local part of a sub-technique id, the id itself otherwise. */
  function LocalId(attackId: string): (r: string)
    ensures IsSubTid(attackId) ==> attackId == ParentId(attackId) + "." + r
    ensures !IsSubTid(attackId) ==> r == attackId
  {
    if IsSubTid(attackId) then
      SubTidSplits(attackId);
      SubId(attackId).value
    else attackId
  }

  /** The description a relationship gives a row: its own, when it is not empty. */
  function RelDescr(rel: StixObject): (r: Option<string>)
    ensures r.Some? <==> Truthy(rel.description)
    ensures r.Some? ==> r == rel.description
  {
    if Truthy(rel.description) then rel.description else None
  }

  /** The reference list after a described relationship's references were added. */
  function RelationshipRefs(refs: ReferenceList, rel: StixObject): ReferenceList {
    if Truthy(rel.description) then AddRefs(refs, rel.refs) else refs
  }

  /** The row `get_technique_data_helper` builds, `None` for its `{}` when the id has no domain. */
  function TechniqueData(lk: Lookups, attackId: string, technique: Usage): (r: Option<TechEntry>)
    ensures r.Some? <==> attackId in lk.techniqueToDomain
    ensures r.Some? ==> r.value.used && r.value.subs == [] && r.value.name == Some(technique.obj.name)
    ensures r.Some? ==> r.value.domain == DomainOf(lk.techniqueToDomain[attackId])
    ensures r.Some? ==> r.value.id == LocalId(attackId) && r.value.descr == RelDescr(technique.rel)
  {
    if attackId !in lk.techniqueToDomain then None
    else
      Some(TechEntry(true, DomainOf(lk.techniqueToDomain[attackId]), LocalId(attackId),
        Some(technique.obj.name), RelDescr(technique.rel), []))
  }

  /** `get_technique_data_helper`: the row, with the reference list updated only when a row is built. */
  method GetTechniqueDataHelper(lk: Lookups, attackId: string, technique: Usage, referenceList: ReferenceList)
    returns (data: Option<TechEntry>, refs: ReferenceList)
    ensures data == TechniqueData(lk, attackId, technique)
    ensures refs == if data.Some? then RelationshipRefs(referenceList, technique.rel) else referenceList
  {
    refs := referenceList;
    if attackId !in lk.techniqueToDomain {
      return None, refs;
    }
    var id := if IsSubTid(attackId) then LocalId(attackId) else attackId;
    var descr := None;
    if Truthy(technique.rel.description) {
      descr := technique.rel.description;
      refs := UpdateReferenceList(refs, technique.rel);
    }
    data := Some(TechEntry(true, DomainOf(lk.techniqueToDomain[attackId]), id, Some(technique.obj.name), descr, []));
  }

  /** The row `parent_technique_used_helper` builds for a parent that is not listed yet. */
  function ParentData(lk: Lookups, parentId: string): (r: TechEntry)
    requires parentId in lk.techniqueToDomain
    ensures !r.used && r.subs == [] && r.id == parentId && r.descr.None?
    ensures r.name == TechniqueName(lk.techniques, parentId)
  {
    TechEntry(false, DomainOf(lk.techniqueToDomain[parentId]), parentId, TechniqueName(lk.techniques, parentId), None, [])
  }

  method ParentTechniqueUsedHelper(lk: Lookups, parentId: string) returns (parentData: TechEntry)
    requires parentId in lk.techniqueToDomain
    ensures parentData == ParentData(lk, parentId)
  {
    var name := GetTechniqueName(lk, parentId);
    parentData := TechEntry(false, DomainOf(lk.techniqueToDomain[parentId]), parentId, name, None, []);
  }

  // ---------------------------------------------------------------------
  // technique_used_helper
  // ---------------------------------------------------------------------

  /** `descr += "\n" + new` when both are there, `descr = new` when only the new one is, else no change. */
  function MergeDescr(prev: Option<string>, added: Option<string>): (r: Option<string>)
    ensures added.None? ==> r == prev
    ensures prev.None? ==> r == added
    ensures prev.Some? && added.Some? ==> r == Some(prev.value + "\n" + added.value)
  {
    if added.Some? && prev.Some? then Some(prev.value + "\n" + added.value)
    else if added.Some? then added
    else prev
  }

  /** The index of the first row with the id, or -1. */
  function SameIdIndex(subs: seq<TechEntry>, id: string): (i: int)
    ensures -1 <= i < |subs|
    ensures i >= 0 ==> subs[i].id == id
    ensures forall j :: 0 <= j < |subs| && (i < 0 || j < i) ==> subs[j].id != id
  {
    if subs == [] then -1
    else if subs[0].id == id then 0
    else
      var j := SameIdIndex(subs[1..], id);
      assert forall k :: 1 <= k < |subs| ==> subs[k] == subs[1..][k - 1];
      if j < 0 then -1 else j + 1
  }

  /**
   * The `for ... else` over the parent's sub-techniques: an inherited row
   * merges its description into the first row with its id; otherwise it is
   * appended.
   */
  function MergeSub(subs: seq<TechEntry>, data: TechEntry, inherited: bool): seq<TechEntry> {
    var i := SameIdIndex(subs, data.id);
    if inherited && i >= 0 then subs[i := subs[i].(descr := MergeDescr(subs[i].descr, data.descr))]
    else subs + [data]
  }

  method MergeSubtechnique(subs: seq<TechEntry>, data: TechEntry, inherited: bool) returns (r: seq<TechEntry>)
    ensures r == MergeSub(subs, data, inherited)
  {
    var i := 0;
    while i < |subs|
      invariant 0 <= i <= |subs|
      invariant inherited ==> forall j :: 0 <= j < i ==> subs[j].id != data.id
    {
      var subtechnique := subs[i];
      if subtechnique.id == data.id && inherited {
        var descr := subtechnique.descr;
        if data.descr.Some? && subtechnique.descr.Some? {
          descr := Some(subtechnique.descr.value + "\n" + data.descr.value);
        } else if data.descr.Some? {
          descr := data.descr;
        }
        return subs[i := subtechnique.(descr := descr)];
      }
      i := i + 1;
    }
    return subs + [data];
  }

  /** Sub-technique rows are kept sorted by id. */
  predicate IdBefore(a: TechEntry, b: TechEntry) {
    LexLess(a.id, b.id)
  }

  lemma IdBeforeStrict()
    ensures StrictOrder(IdBefore)
  {
    forall a: TechEntry ensures !IdBefore(a, a) {
      LexLessIrreflexive(a.id);
    }
    forall a: TechEntry, b: TechEntry, c: TechEntry | IdBefore(a, b) && IdBefore(b, c) ensures IdBefore(a, c) {
      LexLessTransitive(a.id, b.id, c.id);
    }
  }

  /** Every parent technique's id has a domain: the lookup `technique_to_domain[parent_id]` does not fail. */
  predicate ParentsHaveDomains(domains: map<string, string>) {
    forall k :: k in domains && IsSubTid(k) ==> ParentId(k) in domains
  }

  /** A sub-technique row put under its parent, which is created unused when it is not listed. */
  function AddSub(lk: Lookups, list: TechniqueList, attackId: string, data: TechEntry, inherited: bool): (r: TechniqueList)
    requires ParentId(attackId) !in list.vals ==> ParentId(attackId) in lk.techniqueToDomain
    ensures list.Valid() ==> r.Valid()
  {
    var p := ParentId(attackId);
    var list1 := if p !in list.vals then list.Put(p, ParentData(lk, p)) else list;
    var parent := list1.vals[p];
    list1.Put(p, parent.(subs := SortBy(MergeSub(parent.subs, data, inherited), IdBefore)))
  }

  /** The step for a technique whose id is not listed, or which is inherited from a campaign. */
  function AddNew(lk: Lookups, acc: Acc, attackId: string, technique: Usage, inherited: bool): (r: Acc)
    requires ParentsHaveDomains(lk.techniqueToDomain)
    ensures acc.techniques.Valid() ==> r.techniques.Valid()
  {
    match TechniqueData(lk, attackId, technique)
    case None => acc
    case Some(data) =>
      var refs := RelationshipRefs(acc.refs, technique.rel);
      var list := acc.techniques;
      if IsSubTid(attackId) then
        Acc(AddSub(lk, list, attackId, data, inherited), refs)
      else if attackId in list.vals then
        Acc(list.Put(attackId, list.vals[attackId].(descr := MergeDescr(list.vals[attackId].descr, data.descr))), refs)
      else
        Acc(list.Put(attackId, data), refs)
  }

  /** The step for a technique met again, not inherited: an unused row becomes used. */
  function MarkUsed(acc: Acc, attackId: string, technique: Usage): (r: Acc)
    requires attackId in acc.techniques.vals
    ensures acc.techniques.Valid() ==> r.techniques.Valid()
  {
    var e := acc.techniques.vals[attackId];
    if e.used then acc
    else if Truthy(technique.rel.description) then
      Acc(acc.techniques.Put(attackId, e.(used := true, descr := technique.rel.description)), AddRefs(acc.refs, technique.rel.refs))
    else Acc(acc.techniques.Put(attackId, e.(used := true)), acc.refs)
  }

  /** One call of `technique_used_helper`. */
  function UseTechnique(lk: Lookups, acc: Acc, technique: Usage, inherited: bool): (r: Acc)
    requires ParentsHaveDomains(lk.techniqueToDomain)
    ensures acc.techniques.Valid() ==> r.techniques.Valid()
  {
    match AttackId(technique.obj)
    case None => acc
    case Some(attackId) =>
      if attackId !in acc.techniques.vals || inherited then AddNew(lk, acc, attackId, technique, inherited)
      else MarkUsed(acc, attackId, technique)
  }

  /** The sub-technique branch of `technique_used_helper`. */
  method AddSubtechnique(lk: Lookups, techniqueList: TechniqueList, id: string, data: TechEntry, inherited: bool)
    returns (list: TechniqueList)
    requires ParentId(id) !in techniqueList.vals ==> ParentId(id) in lk.techniqueToDomain
    ensures list == AddSub(lk, techniqueList, id, data, inherited)
  {
    list := techniqueList;
    var parentId := ParentId(id);
    if parentId !in list.vals {
      var parentData := ParentTechniqueUsedHelper(lk, parentId);
      list := list.Put(parentId, parentData);
    }
    var subs := MergeSubtechnique(list.vals[parentId].subs, data, inherited);
    list := list.Put(parentId, list.vals[parentId].(subs := SortBy(subs, IdBefore)));
  }

  /** `technique_used_helper`: the technique list and the reference list it changed. */
  method TechniqueUsedHelper(lk: Lookups, techniqueList: TechniqueList, technique: Usage, referenceList: ReferenceList, inherited: bool)
    returns (list: TechniqueList, refs: ReferenceList)
    requires ParentsHaveDomains(lk.techniqueToDomain)
    ensures Acc(list, refs) == UseTechnique(lk, Acc(techniqueList, referenceList), technique, inherited)
  {
    list, refs := techniqueList, referenceList;
    var attackId := GetAttackId(technique.obj);
    if !Truthy(attackId) {
      return;
    }
    var id := attackId.value;
    if id !in list.vals || inherited {
      var data;
      data, refs := GetTechniqueDataHelper(lk, id, technique, refs);
      if data.None? {
        return;
      }
      if IsSubTid(id) {
        list := AddSubtechnique(lk, list, id, data.value, inherited);
      } else if id in list.vals {
        var e := list.vals[id];
        var descr := e.descr;
        if data.value.descr.Some? && e.descr.Some? {
          descr := Some(e.descr.value + "\n" + data.value.descr.value);
        } else if data.value.descr.Some? {
          descr := data.value.descr;
        }
        list := list.Put(id, e.(descr := descr));
      } else {
        list := list.Put(id, data.value);
      }
    } else if list.vals[id].used == false {
      var e := list.vals[id].(used := true);
      if Truthy(technique.rel.description) {
        e := e.(descr := technique.rel.description);
        refs := UpdateReferenceList(refs, technique.rel);
      }
      list := list.Put(id, e);
    }
  }

  // ---------------------------------------------------------------------
  // Properties
  // ---------------------------------------------------------------------

  /**
   * Nothing changes for a technique without an ATT&CK id, nor for a new or
   * inherited one whose id has no domain.
   */
  lemma UseTechniqueUnchanged(lk: Lookups, acc: Acc, technique: Usage, inherited: bool)
    requires ParentsHaveDomains(lk.techniqueToDomain)
    requires AttackId(technique.obj).None? ||
      (AttackId(technique.obj).value !in lk.techniqueToDomain &&
       (AttackId(technique.obj).value !in acc.techniques.vals || inherited))
    ensures UseTechnique(lk, acc, technique, inherited) == acc
  {
  }

  /** No key of the technique list is a sub-technique id: those rows live under their parent. */
  predicate NoSubKeys(list: TechniqueList) {
    forall k :: k in list.vals ==> !IsSubTid(k)
  }

  lemma PutNoSubKeys(list: TechniqueList, k: string, e: TechEntry)
    requires NoSubKeys(list) && !IsSubTid(k)
    ensures NoSubKeys(list.Put(k, e))
  {
  }

  lemma UseTechniqueNoSubKeys(lk: Lookups, acc: Acc, technique: Usage, inherited: bool)
    requires ParentsHaveDomains(lk.techniqueToDomain)
    requires NoSubKeys(acc.techniques)
    ensures NoSubKeys(UseTechnique(lk, acc, technique, inherited).techniques)
  {
    var list := acc.techniques;
    match AttackId(technique.obj)
    case None =>
    case Some(a) =>
      if a !in list.vals || inherited {
        match TechniqueData(lk, a, technique)
        case None =>
        case Some(data) =>
          if IsSubTid(a) {
            var p := ParentId(a);
            SubTidSplits(a);
            TidNotSubTid(p);
            var list1 := if p !in list.vals then list.Put(p, ParentData(lk, p)) else list;
            if p !in list.vals {
              PutNoSubKeys(list, p, ParentData(lk, p));
            }
            var parent := list1.vals[p];
            PutNoSubKeys(list1, p, parent.(subs := SortBy(MergeSub(parent.subs, data, inherited), IdBefore)));
          } else if a in list.vals {
            PutNoSubKeys(list, a, list.vals[a].(descr := MergeDescr(list.vals[a].descr, data.descr)));
          } else {
            PutNoSubKeys(list, a, data);
          }
      } else {
        var e := list.vals[a];
        PutNoSubKeys(list, a, e.(used := true, descr := technique.rel.description));
        PutNoSubKeys(list, a, e.(used := true));
      }
  }

  lemma TidNotSubTid(s: string)
    requires IsTid(s)
    ensures !IsSubTid(s)
  {
  }

  /**
   * A sub-technique whose parent is not listed creates the parent row,
   * unused, named after the parent technique, holding the new row only.
   */
  lemma ParentCreatedUnused(lk: Lookups, acc: Acc, technique: Usage, inherited: bool)
    requires ParentsHaveDomains(lk.techniqueToDomain) && NoSubKeys(acc.techniques)
    requires AttackId(technique.obj).Some? && IsSubTid(AttackId(technique.obj).value)
    requires AttackId(technique.obj).value in lk.techniqueToDomain
    requires ParentId(AttackId(technique.obj).value) !in acc.techniques.vals
    ensures var p := ParentId(AttackId(technique.obj).value);
      var r := UseTechnique(lk, acc, technique, inherited).techniques;
      p in r.vals && !r.vals[p].used && r.vals[p].id == p &&
      r.vals[p].name == TechniqueName(lk.techniques, p) &&
      r.vals[p].subs == [TechniqueData(lk, AttackId(technique.obj).value, technique).value]
  {
  }

  /** Every row's sub-technique list is ordered by id. */
  predicate SubsSorted(list: TechniqueList) {
    forall k :: k in list.vals ==> SortedBy(list.vals[k].subs, IdBefore)
  }

  lemma PutKeepsSorted(list: TechniqueList, k: string, e: TechEntry)
    requires SubsSorted(list) && SortedBy(e.subs, IdBefore)
    ensures SubsSorted(list.Put(k, e))
  {
  }

  lemma AddSubKeepsSorted(lk: Lookups, list: TechniqueList, attackId: string, data: TechEntry, inherited: bool)
    requires ParentId(attackId) !in list.vals ==> ParentId(attackId) in lk.techniqueToDomain
    requires SubsSorted(list)
    ensures SubsSorted(AddSub(lk, list, attackId, data, inherited))
  {
    var p := ParentId(attackId);
    var list1 := if p !in list.vals then list.Put(p, ParentData(lk, p)) else list;
    if p !in list.vals {
      PutKeepsSorted(list, p, ParentData(lk, p));
    }
    var parent := list1.vals[p];
    IdBeforeStrict();
    SortBySorted(MergeSub(parent.subs, data, inherited), IdBefore);
    PutKeepsSorted(list1, p, parent.(subs := SortBy(MergeSub(parent.subs, data, inherited), IdBefore)));
  }

  /** `technique_used_helper` keeps every sub-technique list sorted by id. */
  lemma UseTechniqueKeepsSorted(lk: Lookups, acc: Acc, technique: Usage, inherited: bool)
    requires ParentsHaveDomains(lk.techniqueToDomain)
    requires SubsSorted(acc.techniques)
    ensures SubsSorted(UseTechnique(lk, acc, technique, inherited).techniques)
  {
    var list := acc.techniques;
    match AttackId(technique.obj)
    case None =>
    case Some(a) =>
      if a !in list.vals || inherited {
        match TechniqueData(lk, a, technique)
        case None =>
        case Some(data) =>
          if IsSubTid(a) {
            AddSubKeepsSorted(lk, list, a, data, inherited);
          } else if a in list.vals {
            PutKeepsSorted(list, a, list.vals[a].(descr := MergeDescr(list.vals[a].descr, data.descr)));
          } else {
            PutKeepsSorted(list, a, data);
          }
      } else {
        var e := list.vals[a];
        PutKeepsSorted(list, a, e.(used := true, descr := technique.rel.description));
        PutKeepsSorted(list, a, e.(used := true));
      }
  }

  /**
   * Meeting a listed id again, not inherited, makes an unused row used and
   * gives it the relationship's description when there is one; a used row
   * stays as it is. No other row changes.
   */
  lemma RepeatMarksUsed(lk: Lookups, acc: Acc, technique: Usage)
    requires ParentsHaveDomains(lk.techniqueToDomain)
    requires AttackId(technique.obj).Some? && AttackId(technique.obj).value in acc.techniques.vals
    ensures var a := AttackId(technique.obj).value;
      var e := acc.techniques.vals[a];
      var r := UseTechnique(lk, acc, technique, false);
      (e.used ==> r == acc) &&
      (!e.used ==>
        r.techniques.keys == acc.techniques.keys &&
        r.techniques.vals == acc.techniques.vals[a := e.(used := true, descr := if Truthy(technique.rel.description) then technique.rel.description else e.descr)] &&
        r.refs == RelationshipRefs(acc.refs, technique.rel))
  {
  }

  /**
   * An inherited sub-technique row is merged into a same-id row when the
   * parent has one; every other sub-technique row is appended, so meeting a
   * sub-technique twice without inheritance lists it twice.
   */
  lemma MergeSubCount(subs: seq<TechEntry>, data: TechEntry, inherited: bool)
    ensures inherited && SameIdIndex(subs, data.id) >= 0 ==> |MergeSub(subs, data, inherited)| == |subs|
    ensures !(inherited && SameIdIndex(subs, data.id) >= 0) ==> MergeSub(subs, data, inherited) == subs + [data]
    ensures SameIdIndex(subs, data.id) >= 0 <==> exists i :: 0 <= i < |subs| && subs[i].id == data.id
  {
  }
}
