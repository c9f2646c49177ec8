/**
 * The object lists the ingestion scripts read from the STIX bundles:
 * objects of some types de-conflicted by STIX id and ATT&CK id
 * (`add_replace_or_ignore`), data sources and data components
 * de-duplicated by STIX id, and the mitigation and technique lists,
 * filtered and sorted by name.
 *
 * The results of the bundle queries are passed in.
 */
module StixHelpers {
  import opened Wrappers
  import opened Strings
  import opened Collections
  import opened Stix

  // ---------------------------------------------------------------------
  // add_replace_or_ignore
  // ---------------------------------------------------------------------

  /** The two maps `add_replace_or_ignore` keeps: objects by STIX id, and objects by ATT&CK id in insertion order. */
  datatype DedupState = DedupState(stixObjs: map<string, StixObject>, attackIdObjs: OMap<string, StixObject>)

  function EmptyState(): (st: DedupState)
    ensures st.attackIdObjs.Valid() && st.attackIdObjs.keys == [] && st.stixObjs == map[]
  {
    DedupState(map[], EmptyMap())
  }

  /**
   * `has_STIX_ATTACK_ID_conflict`: the ATT&CK id the object's STIX id was
   * seen under before, when it differs from `attackId` and is still listed.
   */
  function ConflictId(st: DedupState, obj: StixObject, attackId: string): (r: Option<string>)
    ensures r.Some? ==> obj.stixId in st.stixObjs && AttackId(st.stixObjs[obj.stixId]) == r
    ensures r.Some? ==> r.value != attackId && r.value in st.attackIdObjs.vals
  {
    if obj.stixId in st.stixObjs then
      var c := AttackId(st.stixObjs[obj.stixId]);
      if c.Some? && c.value != attackId && c.value in st.attackIdObjs.vals then c else None
    else None
  }

  /** The kept object the new one competes with: the one under the conflicting id, or the one under its own. */
  function InConflict(st: DedupState, attackId: string, conflict: Option<string>): Option<StixObject> {
    if conflict.Some? then st.attackIdObjs.Get(conflict.value) else st.attackIdObjs.Get(attackId)
  }

  /**
   * Whether an object replaces the kept one: a deprecated object never
   * replaces a current one, a current one always replaces a deprecated one,
   * and otherwise the strictly later `modified` wins.
   */
  predicate Replaces(kept: StixObject, obj: StixObject) {
    if !kept.deprecated && obj.deprecated then false
    else if kept.deprecated && !obj.deprecated then true
    else obj.modified > kept.modified
  }

  /** `replace_object`: the object goes under its ATT&CK id and its STIX id; the conflicting ATT&CK id is dropped. */
  function Replace(st: DedupState, attackId: string, conflict: Option<string>, obj: StixObject): (r: DedupState)
    ensures st.attackIdObjs.Valid() ==> r.attackIdObjs.Valid()
  {
    var m := st.attackIdObjs.Put(attackId, obj);
    DedupState(st.stixObjs[obj.stixId := obj], if conflict.Some? then m.Remove(conflict.value) else m)
  }

  /** The maps after `add_replace_or_ignore` looked at one object. */
  function Deconflict(st: DedupState, obj: StixObject): (r: DedupState)
    ensures st.attackIdObjs.Valid() ==> r.attackIdObjs.Valid()
  {
    match AttackId(obj)
    case None => st
    case Some(attackId) =>
      var conflict := ConflictId(st, obj, attackId);
      var st1 := if obj.stixId !in st.stixObjs then st.(stixObjs := st.stixObjs[obj.stixId := obj]) else st;
      match InConflict(st1, attackId, conflict)
      case None => st1.(attackIdObjs := st1.attackIdObjs.Put(attackId, obj))
      case Some(kept) => if Replaces(kept, obj) then Replace(st1, attackId, conflict, obj) else st1
  }

  /** The maps after the objects were looked at in order. */
  function DeconflictAll(st: DedupState, objs: seq<StixObject>): (r: DedupState)
    ensures st.attackIdObjs.Valid() ==> r.attackIdObjs.Valid()
  {
    if objs == [] then st else Deconflict(DeconflictAll(st, objs[..|objs| - 1]), objs[|objs| - 1])
  }

  /** The two dictionaries `get_all_of_type` creates and `add_replace_or_ignore` updates in place. */
  class DedupMaps {
    var stixObjs: map<string, StixObject>
    var attackIdObjs: OMap<string, StixObject>

    function State(): DedupState
      reads this
    {
      DedupState(stixObjs, attackIdObjs)
    }

    ghost predicate Valid()
      reads this
    {
      attackIdObjs.Valid()
    }

    constructor()
      ensures Valid() && State() == EmptyState()
    {
      stixObjs := map[];
      attackIdObjs := EmptyMap();
    }

    /** `replace_object`. */
    method ReplaceObject(attackId: string, conflictAttackId: Option<string>, objInQuestion: StixObject)
      requires Valid()
      modifies this
      ensures Valid() && State() == Replace(old(State()), attackId, conflictAttackId, objInQuestion)
    {
      if conflictAttackId.Some? {
        attackIdObjs := attackIdObjs.Put(attackId, objInQuestion);
        attackIdObjs := attackIdObjs.Remove(conflictAttackId.value);
      } else {
        attackIdObjs := attackIdObjs.Put(attackId, objInQuestion);
      }
      stixObjs := stixObjs[objInQuestion.stixId := objInQuestion];
    }

    /** `add_replace_or_ignore`. */
    method AddReplaceOrIgnore(objInQuestion: StixObject)
      requires Valid()
      modifies this
      ensures Valid() && State() == Deconflict(old(State()), objInQuestion)
    {
      var attackId := GetAttackId(objInQuestion);
      if !Truthy(attackId) {
        return;
      }
      var conflictAttackId := ConflictId(State(), objInQuestion, attackId.value);
      if objInQuestion.stixId !in stixObjs {
        stixObjs := stixObjs[objInQuestion.stixId := objInQuestion];
      }
      var inConflict := if conflictAttackId.Some? then attackIdObjs.Get(conflictAttackId.value) else attackIdObjs.Get(attackId.value);
      if inConflict.None? {
        attackIdObjs := attackIdObjs.Put(attackId.value, objInQuestion);
      } else if !inConflict.value.deprecated && objInQuestion.deprecated {
        return;
      } else if inConflict.value.deprecated && !objInQuestion.deprecated {
        ReplaceObject(attackId.value, conflictAttackId, objInQuestion);
      } else if objInQuestion.modified > inConflict.value.modified {
        ReplaceObject(attackId.value, conflictAttackId, objInQuestion);
      }
    }
  }

  /** The query results of all the types, in order. */
  function Joined(results: seq<seq<StixObject>>): seq<StixObject> {
    if results == [] then [] else Joined(results[..|results| - 1]) + results[|results| - 1]
  }

  /** The list `get_all_of_type` returns: the objects kept by ATT&CK id, in insertion order. */
  function AllOfType(results: seq<seq<StixObject>>): seq<StixObject> {
    DeconflictAll(EmptyState(), Joined(results)).attackIdObjs.Values()
  }

  lemma {:induction false} DeconflictAllConcat(st: DedupState, a: seq<StixObject>, b: seq<StixObject>)
    ensures DeconflictAll(st, a + b) == DeconflictAll(DeconflictAll(st, a), b)
  {
    if b != [] {
      ConcatLast(a, b);
      DeconflictAllConcat(st, a, b[..|b| - 1]);
    } else {
      ConcatNil(a);
    }
  }

  /** The inner loop of `get_all_of_type`: every object of one query result, in order. */
  method AddAll(maps: DedupMaps, objs: seq<StixObject>)
    requires maps.Valid()
    modifies maps
    ensures maps.Valid() && maps.State() == DeconflictAll(old(maps.State()), objs)
  {
    ghost var start := maps.State();
    var i := 0;
    while i < |objs|
      invariant 0 <= i <= |objs|
      invariant maps.Valid() && maps.State() == DeconflictAll(start, objs[..i])
    {
      PrefixSnoc(objs, i);
      maps.AddReplaceOrIgnore(objs[i]);
      i := i + 1;
    }
    assert objs[..i] == objs;
  }

  /** `get_all_of_type`, given the query result for each type. */
  method GetAllOfType(results: seq<seq<StixObject>>) returns (objs: seq<StixObject>)
    ensures objs == AllOfType(results)
  {
    var maps := new DedupMaps();
    var t := 0;
    while t < |results|
      invariant 0 <= t <= |results|
      invariant maps.Valid() && maps.State() == DeconflictAll(EmptyState(), Joined(results[..t]))
    {
      PrefixSnoc(results, t);
      DeconflictAllConcat(EmptyState(), Joined(results[..t]), results[t]);
      AddAll(maps, results[t]);
      t := t + 1;
    }
    assert results[..t] == results;
    objs := maps.attackIdObjs.Values();
  }

  // Properties of the policy -------------------------------------------

  /** An object without an ATT&CK id changes neither map. */
  lemma DeconflictNoId(st: DedupState, obj: StixObject)
    requires AttackId(obj).None?
    ensures Deconflict(st, obj) == st
  {
  }

  /** The first object with an ATT&CK id that is not listed and has no conflict is appended under it. */
  lemma DeconflictInsertsNew(st: DedupState, obj: StixObject)
    requires AttackId(obj).Some? && AttackId(obj).value !in st.attackIdObjs.vals
    requires ConflictId(st, obj, AttackId(obj).value).None?
    ensures var a := AttackId(obj).value;
      Deconflict(st, obj).attackIdObjs.keys == st.attackIdObjs.keys + [a] &&
      Deconflict(st, obj).attackIdObjs.vals == st.attackIdObjs.vals[a := obj]
  {
  }

  /**
   * An object that competes with a kept one either leaves the ATT&CK map as
   * it was, or takes the place under its ATT&CK id and its STIX id, and the
   * conflicting ATT&CK id is then removed.
   */
  lemma DeconflictCompetes(st: DedupState, obj: StixObject, kept: StixObject)
    requires AttackId(obj).Some?
    requires InConflict(st, AttackId(obj).value, ConflictId(st, obj, AttackId(obj).value)) == Some(kept)
    ensures var r := Deconflict(st, obj);
      !Replaces(kept, obj) ==> r.attackIdObjs == st.attackIdObjs
    ensures var r := Deconflict(st, obj); var a := AttackId(obj).value;
      Replaces(kept, obj) ==> a in r.attackIdObjs.vals && r.attackIdObjs.vals[a] == obj && r.stixObjs[obj.stixId] == obj
    ensures var r := Deconflict(st, obj); var c := ConflictId(st, obj, AttackId(obj).value);
      Replaces(kept, obj) && c.Some? ==> r.attackIdObjs.vals == st.attackIdObjs.vals[AttackId(obj).value := obj] - {c.value}
  {
  }

  /**
   * The ranking `Replaces` states: current beats deprecated either way
   * round, and between two of the same status the strictly later
   * `modified` wins, so a tie keeps the object already there.
   */
  lemma ReplacesRule(kept: StixObject, obj: StixObject)
    ensures !kept.deprecated && obj.deprecated ==> !Replaces(kept, obj)
    ensures kept.deprecated && !obj.deprecated ==> Replaces(kept, obj)
    ensures kept.deprecated == obj.deprecated ==> (Replaces(kept, obj) <==> obj.modified > kept.modified)
    ensures obj.modified == kept.modified ==> (Replaces(kept, obj) <==> kept.deprecated && !obj.deprecated)
  {
  }

  /**
   * The STIX map gains the object's STIX id when it is absent and keeps
   * every other entry; an entry already there changes only when the object
   * replaced the kept one under its ATT&CK id.
   */
  lemma DeconflictStixIds(st: DedupState, obj: StixObject)
    requires AttackId(obj).Some?
    ensures var r := Deconflict(st, obj);
      r.stixObjs.Keys == st.stixObjs.Keys + {obj.stixId} &&
      (forall k :: k in st.stixObjs && k != obj.stixId ==> r.stixObjs[k] == st.stixObjs[k]) &&
      (obj.stixId !in st.stixObjs ==> r.stixObjs[obj.stixId] == obj)
    ensures var r := Deconflict(st, obj);
      obj.stixId in st.stixObjs && r.stixObjs[obj.stixId] != st.stixObjs[obj.stixId] ==>
        r.attackIdObjs.vals[AttackId(obj).value] == obj
  {
  }

  /** Every kept object sits under its own ATT&CK id, and under its own STIX id. */
  ghost predicate Keyed(st: DedupState) {
    (forall k :: k in st.attackIdObjs.vals ==> AttackId(st.attackIdObjs.vals[k]) == Some(k)) &&
    (forall k :: k in st.stixObjs ==> st.stixObjs[k].stixId == k)
  }

  lemma PutKeyed(st: DedupState, a: string, obj: StixObject)
    requires Keyed(st) && AttackId(obj) == Some(a)
    ensures Keyed(st.(attackIdObjs := st.attackIdObjs.Put(a, obj)))
  {
  }

  lemma ReplaceKeyed(st: DedupState, a: string, conflict: Option<string>, obj: StixObject)
    requires Keyed(st) && AttackId(obj) == Some(a)
    ensures Keyed(Replace(st, a, conflict, obj))
  {
    var m := st.attackIdObjs.Put(a, obj);
    if conflict.Some? {
      assert m.Remove(conflict.value).vals == m.vals - {conflict.value};
    }
  }

  lemma DeconflictKeyed(st: DedupState, obj: StixObject)
    requires Keyed(st)
    ensures Keyed(Deconflict(st, obj))
  {
    match AttackId(obj)
    case None =>
    case Some(a) =>
      var conflict := ConflictId(st, obj, a);
      var st1 := if obj.stixId !in st.stixObjs then st.(stixObjs := st.stixObjs[obj.stixId := obj]) else st;
      assert Keyed(st1);
      match InConflict(st1, a, conflict)
      case None => PutKeyed(st1, a, obj);
      case Some(kept) => ReplaceKeyed(st1, a, conflict, obj);
  }

  lemma {:induction false} DeconflictAllKeyed(st: DedupState, objs: seq<StixObject>)
    requires Keyed(st)
    ensures Keyed(DeconflictAll(st, objs))
  {
    if objs != [] {
      DeconflictAllKeyed(st, objs[..|objs| - 1]);
      DeconflictKeyed(DeconflictAll(st, objs[..|objs| - 1]), objs[|objs| - 1]);
    }
  }

  /** `get_all_of_type` never returns two objects with the same ATT&CK id, nor one without. */
  lemma AllOfTypeDistinctIds(results: seq<seq<StixObject>>, i: nat, j: nat)
    requires i < j < |AllOfType(results)|
    ensures AttackId(AllOfType(results)[i]).Some?
    ensures AttackId(AllOfType(results)[i]) != AttackId(AllOfType(results)[j])
  {
    var m := DeconflictAll(EmptyState(), Joined(results)).attackIdObjs;
    DeconflictAllKeyed(EmptyState(), Joined(results));
    assert AttackId(m.vals[m.keys[i]]) == Some(m.keys[i]);
    assert AttackId(m.vals[m.keys[j]]) == Some(m.keys[j]);
  }

  // ---------------------------------------------------------------------
  // get_datasources, get_datacomponents
  // ---------------------------------------------------------------------

  function StixIdOf(o: StixObject): string {
    o.stixId
  }

  /** The loop of `get_datasources` and `get_datacomponents`: the first object of each STIX id, in order. */
  method DedupByStixId(objs: seq<StixObject>) returns (results: seq<StixObject>)
    ensures results == DedupBy(objs, StixIdOf)
  {
    var resultUsedIds: set<string> := {};
    results := [];
    var i := 0;
    while i < |objs|
      invariant 0 <= i <= |objs|
      invariant results == DedupBy(objs[..i], StixIdOf)
      invariant resultUsedIds == KeySet(results, StixIdOf)
    {
      DedupByStep(objs, i, StixIdOf);
      if objs[i].stixId !in resultUsedIds {
        KeySetSnoc(results, objs[i], StixIdOf);
        results := results + [objs[i]];
        resultUsedIds := resultUsedIds + {objs[i].stixId};
      }
      i := i + 1;
    }
    assert objs[..i] == objs;
  }

  /**
   * The de-duplicated list holds one object per STIX id of the input, no
   * two with the same id, in input order, and the first of each id is the
   * one kept.
   */
  lemma DedupByStixIdProperties(objs: seq<StixObject>, i: nat)
    requires i < |objs| && forall j :: 0 <= j < i ==> objs[j].stixId != objs[i].stixId
    ensures DistinctKeys(DedupBy(objs, StixIdOf), StixIdOf)
    ensures KeySet(DedupBy(objs, StixIdOf), StixIdOf) == KeySet(objs, StixIdOf)
    ensures IsSubsequence(DedupBy(objs, StixIdOf), objs)
    ensures objs[i] in DedupBy(objs, StixIdOf)
  {
    DedupByProperties(objs, StixIdOf);
    DedupByKeepsFirst(objs, StixIdOf, i);
  }

  // ---------------------------------------------------------------------
  // get_mitigation_list, get_techniques
  // ---------------------------------------------------------------------

  /** `sorted(..., key=lambda k: k["name"].lower())`. */
  predicate NameBefore(a: StixObject, b: StixObject) {
    LexLess(Lower(a.name), Lower(b.name))
  }

  lemma NameBeforeStrict()
    ensures StrictOrder(NameBefore)
  {
    forall a: StixObject ensures !NameBefore(a, a) {
      LexLessIrreflexive(Lower(a.name));
    }
    forall a: StixObject, b: StixObject, c: StixObject | NameBefore(a, b) && NameBefore(b, c) ensures NameBefore(a, c) {
      LexLessTransitive(Lower(a.name), Lower(b.name), Lower(c.name));
    }
  }

  predicate NotDeprecated(o: StixObject) {
    !o.deprecated
  }

  /** `get_mitigation_list`, given the non-revoked mitigations the query returned. */
  function MitigationList(mitigations: seq<StixObject>, getDeprecated: bool): seq<StixObject> {
    var kept := if getDeprecated then mitigations else Filter(mitigations, NotDeprecated);
    SortBy(kept, NameBefore)
  }

  predicate InDomain(domain: string, o: StixObject) {
    o.domains.None? || domain in o.domains.value
  }

  /** `get_techniques`, given the non-revoked techniques the query returned. */
  function Techniques(techList: seq<StixObject>, domain: string): seq<StixObject> {
    SortBy(Filter(techList, t => InDomain(domain, t)), NameBefore)
  }

  /**
   * The mitigation list is sorted by lowercased name and holds each input
   * mitigation as often as the input does, leaving out the deprecated ones
   * unless they are asked for.
   */
  lemma MitigationListProperties(mitigations: seq<StixObject>, getDeprecated: bool, o: StixObject)
    ensures SortedBy(MitigationList(mitigations, getDeprecated), NameBefore)
    ensures getDeprecated ==> multiset(MitigationList(mitigations, getDeprecated)) == multiset(mitigations)
    ensures !getDeprecated ==> multiset(MitigationList(mitigations, getDeprecated)) == multiset(Filter(mitigations, NotDeprecated))
    ensures o in MitigationList(mitigations, getDeprecated) <==> o in mitigations && (getDeprecated || !o.deprecated)
  {
    var kept := if getDeprecated then mitigations else Filter(mitigations, NotDeprecated);
    NameBeforeStrict();
    SortBySorted(kept, NameBefore);
    FilterMembers(mitigations, NotDeprecated, o);
    assert o in SortBy(kept, NameBefore) <==> o in multiset(SortBy(kept, NameBefore));
  }

  /**
   * The technique list is sorted by lowercased name and holds exactly the
   * input techniques of the domain or without a domain list, each as often
   * as the input does.
   */
  lemma TechniquesProperties(techList: seq<StixObject>, domain: string, o: StixObject)
    ensures SortedBy(Techniques(techList, domain), NameBefore)
    ensures multiset(Techniques(techList, domain)) == multiset(Filter(techList, t => InDomain(domain, t)))
    ensures o in Techniques(techList, domain) <==> o in techList && (o.domains.None? || domain in o.domains.value)
  {
    var kept := Filter(techList, t => InDomain(domain, t));
    NameBeforeStrict();
    SortBySorted(kept, NameBefore);
    FilterMembers(techList, t => InDomain(domain, t), o);
    assert o in SortBy(kept, NameBefore) <==> o in multiset(SortBy(kept, NameBefore));
  }
}
