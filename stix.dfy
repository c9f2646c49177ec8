/**
 * The STIX objects the ingestion scripts read, and the helpers of the
 * builders that work on them: the ATT&CK id of an object, the reference
 * (citation) list, the alias descriptions, the filter on deprecated and
 * revoked objects, and the technique-id tests and splits.
 */
module Stix {
  import opened Wrappers
  import opened Strings
  import opened Collections

  /** Python truthiness of an optional string property: present and not empty. */
  predicate Truthy(o: Option<string>) {
    o.Some? && o.value != ""
  }

  /** An entry of `external_references`. STIX requires `source_name`; the other properties are optional. */
  datatype ExtRef = ExtRef(sourceName: string, externalId: Option<string>, description: Option<string>, url: Option<string>)

  /** `created` and `modified` compare as the library's timestamps do; the model keeps their order only. */
  type Timestamp = int

  /**
   * A STIX object, with the properties the builders read. An absent
   * `external_references` is the empty list; the two flags are false when
   * absent.
   */
  datatype StixObject = StixObject(
    stixId: string,
    name: string,
    refs: seq<ExtRef>,
    description: Option<string>,
    deprecated: bool,
    revoked: bool,
    created: Timestamp,
    modified: Timestamp,
    version: Option<string>,
    contributors: Option<seq<string>>,
    aliases: Option<seq<string>>,
    domains: Option<seq<string>>,
    firstSeen: Option<string>,
    lastSeen: Option<string>,
    firstSeenCitation: Option<string>,
    lastSeenCitation: Option<string>)

  /** One entry of a relationship map: the related object and the relationship that links it. */
  datatype Usage = Usage(obj: StixObject, rel: StixObject)

  // ---------------------------------------------------------------------
  // get_attack_id / find_index_id
  // ---------------------------------------------------------------------

  /** The index of the first reference with a non-empty `external_id`, or -1. */
  function FirstIdIndex(refs: seq<ExtRef>): (i: int)
    ensures -1 <= i < |refs|
    ensures i >= 0 ==> Truthy(refs[i].externalId)
    ensures forall k :: 0 <= k < |refs| && (i < 0 || k < i) ==> !Truthy(refs[k].externalId)
  {
    if refs == [] then -1
    else if Truthy(refs[0].externalId) then 0
    else
      var j := FirstIdIndex(refs[1..]);
      assert forall k :: 1 <= k < |refs| ==> refs[k] == refs[1..][k - 1];
      if j < 0 then -1 else j + 1
  }

  /** `find_index_id`: the loop that returns at the first reference with an id. */
  method FindIndexId(extRef: seq<ExtRef>) returns (idx: int)
    ensures idx == FirstIdIndex(extRef)
  {
    var i := 0;
    while i < |extRef|
      invariant 0 <= i <= |extRef|
      invariant forall k :: 0 <= k < i ==> !Truthy(extRef[k].externalId)
    {
      if Truthy(extRef[i].externalId) {
        return i;
      }
      i := i + 1;
    }
    return -1;
  }

  /**
   * `get_attack_id`: the `external_id` of the first reference that has a
   * non-empty one. The comparison with `util_config.NOT_FOUND` is taken to be
   * a comparison with -1, the value `find_index_id` returns.
   */
  function AttackId(o: StixObject): (r: Option<string>)
    ensures r.Some? <==> exists k :: 0 <= k < |o.refs| && Truthy(o.refs[k].externalId)
    ensures r.Some? ==> r.value != "" && r == o.refs[FirstIdIndex(o.refs)].externalId
  {
    if o.refs != [] && FirstIdIndex(o.refs) != -1 then o.refs[FirstIdIndex(o.refs)].externalId else None
  }

  method GetAttackId(obj: StixObject) returns (attackId: Option<string>)
    ensures attackId == AttackId(obj)
  {
    attackId := None;
    if obj.refs != [] {
      var index := FindIndexId(obj.refs);
      if index != -1 {
        attackId := obj.refs[index].externalId;
      }
    }
  }

  // ---------------------------------------------------------------------
  // update_reference_list
  // ---------------------------------------------------------------------

  /** A value of the reference list: `{"current_number": 0}` starts it, citations are added by source name. */
  datatype RefEntry = Counter(n: int) | Citation(description: string, number: Option<int>, url: Option<string>)

  type ReferenceList = OMap<string, RefEntry>

  /** The reference list a group's processing starts from. */
  function NewReferenceList(): (r: ReferenceList)
    ensures r.Valid() && r.keys == ["current_number"]
  {
    EmptyMap().Put("current_number", Counter(0))
  }

  /** A reference that is copied: a source name and a description that holds no "(Citation:". */
  predicate Cited(r: ExtRef) {
    r.sourceName != "" && Truthy(r.description) && !HasCitationTag(r.description.value)
  }

  /** The text holds "(Citation:" somewhere. */
  predicate HasCitationTag(s: string) {
    exists i :: 0 <= i <= |s| && OccursAt(s, "(Citation:", i)
  }

  lemma CitationTagIsContains(s: string)
    ensures HasCitationTag(s) <==> Contains(s, "(Citation:")
  {
    ContainsIff(s, "(Citation:");
  }

  /** The entry written for a cited reference: its description, no number, and its URL when it has one. */
  function CitationOf(r: ExtRef): RefEntry
    requires Truthy(r.description)
  {
    Citation(r.description.value, None, if Truthy(r.url) then r.url else None)
  }

  function AddRef(list: ReferenceList, r: ExtRef): ReferenceList {
    if Cited(r) && r.sourceName !in list.vals then list.Put(r.sourceName, CitationOf(r)) else list
  }

  /** The reference list after the references `refs` were looked at in order. */
  function AddRefs(list: ReferenceList, refs: seq<ExtRef>): ReferenceList {
    if refs == [] then list else AddRef(AddRefs(list, refs[..|refs| - 1]), refs[|refs| - 1])
  }

  /** `update_reference_list`. */
  method UpdateReferenceList(referenceList: ReferenceList, obj: StixObject) returns (r: ReferenceList)
    ensures r == AddRefs(referenceList, obj.refs)
  {
    r := referenceList;
    if obj.refs != [] {
      var i := 0;
      while i < |obj.refs|
        invariant 0 <= i <= |obj.refs|
        invariant r == AddRefs(referenceList, obj.refs[..i])
      {
        PrefixSnoc(obj.refs, i);
        var extRef := obj.refs[i];
        if extRef.sourceName != "" && Truthy(extRef.description) {
          CitationTagIsContains(extRef.description.value);
          if !Contains(extRef.description.value, "(Citation:") {
            if extRef.sourceName !in r.vals {
              var url := if Truthy(extRef.url) then extRef.url else None;
              r := r.Put(extRef.sourceName, Citation(extRef.description.value, None, url));
            }
          }
        }
        i := i + 1;
      }
      assert obj.refs[..i] == obj.refs;
    }
  }

  /** The index of the first cited reference with source name `k`, or -1. */
  function FirstCited(refs: seq<ExtRef>, k: string): (i: int)
    ensures -1 <= i < |refs|
    ensures i >= 0 ==> Cited(refs[i]) && refs[i].sourceName == k
    ensures forall j :: 0 <= j < |refs| && (i < 0 || j < i) ==> !(Cited(refs[j]) && refs[j].sourceName == k)
  {
    if refs == [] then -1
    else
      var i := FirstCited(refs[..|refs| - 1], k);
      var last := refs[|refs| - 1];
      if i >= 0 then i else if Cited(last) && last.sourceName == k then |refs| - 1 else -1
  }

  /** An entry already listed is never overwritten or removed. */
  lemma {:induction false} AddRefsKeeps(list: ReferenceList, refs: seq<ExtRef>, k: string)
    requires k in list.vals
    ensures k in AddRefs(list, refs).vals && AddRefs(list, refs).vals[k] == list.vals[k]
  {
    if refs != [] {
      AddRefsKeeps(list, refs[..|refs| - 1], k);
    }
  }

  /**
   * A source name not listed before is listed afterwards exactly when a
   * cited reference carries it, and then with the citation of the first such
   * reference.
   */
  lemma {:induction false} AddRefsAdded(list: ReferenceList, refs: seq<ExtRef>, k: string)
    requires k !in list.vals
    ensures k in AddRefs(list, refs).vals <==> FirstCited(refs, k) >= 0
    ensures k in AddRefs(list, refs).vals ==> AddRefs(list, refs).vals[k] == CitationOf(refs[FirstCited(refs, k)])
  {
    if refs != [] {
      var init := refs[..|refs| - 1];
      AddRefsAdded(list, init, k);
    }
  }

  /** Some cited reference carries the name exactly when the first one is found. */
  lemma FirstCitedExists(refs: seq<ExtRef>, k: string)
    ensures FirstCited(refs, k) >= 0 <==> exists i :: 0 <= i < |refs| && Cited(refs[i]) && refs[i].sourceName == k
  {
  }

  /** Afterwards every cited reference's source name is listed. */
  lemma AddRefsCovers(list: ReferenceList, refs: seq<ExtRef>, i: nat)
    requires i < |refs| && Cited(refs[i])
    ensures refs[i].sourceName in AddRefs(list, refs).vals
  {
    var k := refs[i].sourceName;
    if k in list.vals {
      AddRefsKeeps(list, refs, k);
    } else {
      AddRefsAdded(list, refs, k);
    }
  }

  /** References whose names are all listed change nothing. */
  lemma {:induction false} AddRefsNoop(list: ReferenceList, refs: seq<ExtRef>)
    requires forall i :: 0 <= i < |refs| && Cited(refs[i]) ==> refs[i].sourceName in list.vals
    ensures AddRefs(list, refs) == list
  {
    if refs != [] {
      AddRefsNoop(list, refs[..|refs| - 1]);
    }
  }

  /** Updating the reference list twice from the same object is updating it once. */
  lemma AddRefsIdempotent(list: ReferenceList, refs: seq<ExtRef>)
    ensures AddRefs(AddRefs(list, refs), refs) == AddRefs(list, refs)
  {
    forall i | 0 <= i < |refs| && Cited(refs[i])
      ensures refs[i].sourceName in AddRefs(list, refs).vals
    {
      AddRefsCovers(list, refs, i);
    }
    AddRefsNoop(AddRefs(list, refs), refs);
  }

  // ---------------------------------------------------------------------
  // get_alias_data
  // ---------------------------------------------------------------------

  datatype AliasRow = AliasRow(name: string, descr: string)

  predicate NamedAs(alias: string, r: ExtRef) {
    r.sourceName == alias
  }

  /** The row for one alias: the first reference named after it, when that one has a description. */
  function AliasRowOf(alias: string, refs: seq<ExtRef>): (r: seq<AliasRow>)
    ensures |r| <= 1
  {
    var found := Filter(refs, x => NamedAs(alias, x));
    if found != [] && Truthy(found[0].description) then [AliasRow(alias, found[0].description.value)] else []
  }

  /** The alias rows, one step per alias of the list. */
  function AliasRows(aliases: seq<string>, refs: seq<ExtRef>): (r: seq<AliasRow>)
    ensures |r| <= |aliases|
  {
    if aliases == [] then [] else AliasRows(aliases[..|aliases| - 1], refs) + AliasRowOf(aliases[|aliases| - 1], refs)
  }

  /** The body of `get_alias_data`'s loop: the row for one alias, if any, appended. */
  method AddAliasRow(aliasData: seq<AliasRow>, alias: string, extRefs: seq<ExtRef>) returns (r: seq<AliasRow>)
    ensures r == aliasData + AliasRowOf(alias, extRefs)
  {
    r := aliasData;
    var foundExtRefs := Filter(extRefs, x => NamedAs(alias, x));
    if foundExtRefs != [] {
      var ext := foundExtRefs[0];
      if Truthy(ext.description) {
        r := r + [AliasRow(alias, ext.description.value)];
      }
    }
  }

  /** `get_alias_data`. */
  method GetAliasData(aliasList: seq<string>, extRefs: seq<ExtRef>) returns (aliasData: seq<AliasRow>)
    ensures aliasData == AliasRows(aliasList, extRefs)
  {
    if aliasList == [] {
      return [];
    }
    aliasData := [];
    var i := 0;
    while i < |aliasList|
      invariant 0 <= i <= |aliasList|
      invariant aliasData == AliasRows(aliasList[..i], extRefs)
    {
      PrefixSnoc(aliasList, i);
      aliasData := AddAliasRow(aliasData, aliasList[i], extRefs);
      i := i + 1;
    }
    assert aliasList[..i] == aliasList;
  }

  function RowNames(rows: seq<AliasRow>): (ns: seq<string>)
    ensures |ns| == |rows|
  {
    if rows == [] then [] else RowNames(rows[..|rows| - 1]) + [rows[|rows| - 1].name]
  }

  /** The rows follow the alias list: their names are a subsequence of it. */
  lemma {:induction false} AliasRowsInOrder(aliases: seq<string>, refs: seq<ExtRef>)
    ensures IsSubsequence(RowNames(AliasRows(aliases, refs)), aliases)
  {
    if aliases != [] {
      var init, a := aliases[..|aliases| - 1], aliases[|aliases| - 1];
      AliasRowsInOrder(init, refs);
      var rows := AliasRows(init, refs);
      if AliasRowOf(a, refs) == [] {
        assert AliasRows(aliases, refs) == rows;
        SubsequenceOfPrefix(RowNames(rows), init, aliases);
      } else {
        var all := rows + AliasRowOf(a, refs);
        assert all[..|all| - 1] == rows;
        assert RowNames(all)[..|RowNames(all)| - 1] == RowNames(rows);
      }
    }
  }

  /**
   * A row is produced exactly for an alias of the list whose first
   * same-named reference has a description, and it carries that description.
   */
  lemma {:induction false} AliasRowsMembers(aliases: seq<string>, refs: seq<ExtRef>, row: AliasRow)
    ensures row in AliasRows(aliases, refs) <==> row.name in aliases && row in AliasRowOf(row.name, refs)
  {
    if aliases != [] {
      var init, a := aliases[..|aliases| - 1], aliases[|aliases| - 1];
      AliasRowsMembers(init, refs, row);
      assert forall x :: x in aliases <==> x in init || x == a;
    }
  }

  // ---------------------------------------------------------------------
  // filter_deprecated_revoked
  // ---------------------------------------------------------------------

  predicate Current(o: StixObject) {
    !o.deprecated && !o.revoked
  }

  /** `filter_deprecated_revoked`. */
  method FilterDeprecatedRevoked(sdos: seq<StixObject>) returns (filteredSdos: seq<StixObject>)
    ensures filteredSdos == Filter(sdos, Current)
  {
    filteredSdos := [];
    var i := 0;
    while i < |sdos|
      invariant 0 <= i <= |sdos|
      invariant filteredSdos == Filter(sdos[..i], Current)
    {
      PrefixSnoc(sdos, i);
      var sdo := sdos[i];
      if !sdo.deprecated && !sdo.revoked {
        filteredSdos := filteredSdos + [sdo];
      }
      i := i + 1;
    }
    assert sdos[..i] == sdos;
  }

  /**
   * The filter keeps exactly the objects that are neither deprecated nor
   * revoked, in their order, and filtering again changes nothing.
   */
  lemma FilterCurrentProperties(sdos: seq<StixObject>, o: StixObject)
    ensures IsSubsequence(Filter(sdos, Current), sdos)
    ensures o in Filter(sdos, Current) <==> o in sdos && !o.deprecated && !o.revoked
    ensures Filter(Filter(sdos, Current), Current) == Filter(sdos, Current)
  {
    FilterIsSubsequence(sdos, Current);
    FilterMembers(sdos, Current, o);
    FilterIdempotent(sdos, Current);
  }

  // ---------------------------------------------------------------------
  // Technique ids: is_tid, is_sub_tid, get_parent_technique_id, get_sub_technique_id
  // ---------------------------------------------------------------------

  /** Python's `$` in `re.match`: the end of the string, or just before a final newline. */
  predicate EndsAt(s: string, n: nat) {
    |s| == n || (|s| == n + 1 && s[n] == '\n')
  }

  predicate DigitsAt(s: string, from: nat, to: nat)
    requires from <= to <= |s|
  {
    forall k :: from <= k < to ==> IsDigit(s[k])
  }

  /** `is_tid`: "T" and four digits. */
  predicate IsTid(s: string) {
    |s| >= 5 && s[0] == 'T' && DigitsAt(s, 1, 5) && EndsAt(s, 5)
  }

  /**
   * `is_sub_tid` as written: the '.' of its pattern is not escaped, so the
   * separator position accepts any character but a newline.
   */
  predicate IsSubTidAsWritten(s: string) {
    |s| >= 9 && s[0] == 'T' && DigitsAt(s, 1, 5) && s[5] != '\n' && DigitsAt(s, 6, 9) && EndsAt(s, 9)
  }

  /** `is_sub_tid` with the separator escaped: "T", four digits, '.', three digits. */
  predicate IsSubTid(s: string) {
    IsSubTidAsWritten(s) && s[5] == '.'
  }

  /** `get_parent_technique_id`: `s.split(".")[0]`. */
  function ParentId(s: string): string {
    SplitOn(s, '.')[0]
  }

  /** `get_sub_technique_id`: `s.split(".")[1]`, `None` where that raises `IndexError`. */
  function SubId(s: string): Option<string> {
    var parts := SplitOn(s, '.');
    if |parts| >= 2 then Some(parts[1]) else None
  }

  /** A parent id and a local id without '.' are split back out of their composite. */
  lemma SplitRoundTrip(p: string, q: string)
    requires '.' !in p && '.' !in q
    ensures ParentId(p + "." + q) == p && SubId(p + "." + q) == Some(q)
  {
    var s := p + "." + q;
    assert s == p + ['.'] + q;
    BeforeFirstOfJoined(p, '.', q);
    var i := IndexOfChar(s, '.');
    assert s[..i] == p;
    assert s[i + 1..] == q;
    assert SplitOn(q, '.') == [q];
  }

  /**
   * A sub-technique id splits into a technique id and its three-digit part,
   * and the two rebuild it; technique ids and sub-technique ids are disjoint.
   */
  lemma SubTidSplits(s: string)
    requires IsSubTid(s)
    ensures SubId(s).Some? && ParentId(s) + "." + SubId(s).value == s
    ensures ParentId(s) == s[..5] && IsTid(ParentId(s))
    ensures !IsTid(s)
  {
    var p, q := s[..5], s[6..];
    assert forall k :: 0 <= k < |p| ==> p[k] != '.' by {
      forall k | 0 <= k < |p| ensures p[k] != '.' {
        assert k == 0 || IsDigit(s[k]);
      }
    }
    assert forall k :: 0 <= k < |q| ==> q[k] != '.' by {
      forall k | 0 <= k < |q| ensures q[k] != '.' {
        assert IsDigit(s[k + 6]) || s[k + 6] == '\n';
      }
    }
    assert s == p + "." + q;
    SplitRoundTrip(p, q);
  }

  /** A technique id is "T" and four digits, and it is no sub-technique id. */
  lemma TidOfDigits(d: string)
    requires |d| == 4 && forall k :: 0 <= k < 4 ==> IsDigit(d[k])
    ensures IsTid("T" + d) && !IsSubTid("T" + d) && !IsSubTidAsWritten("T" + d)
  {
    var s := "T" + d;
    assert forall k :: 1 <= k < 5 ==> s[k] == d[k - 1];
  }

  /**
   * Every string the pattern as written accepts with something other than
   * '.' in the separator position holds no '.', so splitting it gives one
   * part and `get_sub_technique_id` raises `IndexError` on it.
   */
  lemma SubTidWithoutDot(s: string)
    requires IsSubTidAsWritten(s) && s[5] != '.'
    ensures !IsSubTid(s) && SubId(s).None?
  {
    forall k | 0 <= k < |s| ensures s[k] != '.' {
      assert k == 0 || k == 5 || k == 9 || IsDigit(s[k]);
    }
    assert IndexOfChar(s, '.') == |s|;
  }

  /**
   * The models of `get_technique_data_helper`, `technique_used_helper` and
   * the `tech_data` loops branch on `IsSubTid`; the source branches on the
   * pattern as written. The two tests differ exactly on the strings where
   * the source then raises `IndexError` in `get_sub_technique_id`.
   */
  lemma {:induction false} SubTidBranches(s: string)
    ensures IsSubTid(s) ==> IsSubTidAsWritten(s) && SubId(s).Some?
    ensures IsSubTidAsWritten(s) && !IsSubTid(s) ==> SubId(s).None?
  {
    if IsSubTid(s) {
      SubTidSplits(s);
    } else if IsSubTidAsWritten(s) {
      SubTidWithoutDot(s);
    }
  }

  /** "T1055x001" is such a string. */
  lemma SubTidAnySeparator()
    ensures IsSubTidAsWritten("T1055x001") && !IsSubTid("T1055x001")
    ensures SubId("T1055x001").None?
  {
    var s := "T1055x001";
    assert s[1] == '1' && s[2] == '0' && s[3] == '5' && s[4] == '5';
    assert s[6] == '0' && s[7] == '0' && s[8] == '1';
    SubTidWithoutDot(s);
  }
}
