/**
 * The group records the ingestion script writes: for every current group
 * its attributes, its technique table, its campaign and software tables,
 * its alias descriptions and the citations gathered on the way.
 *
 * The relationship maps, the technique lookups and the two date
 * formatters are passed in as `Sources`.
 */
module GroupsBuild {
  import opened Wrappers
  import opened Strings
  import opened Collections
  import opened Stix
  import opened TechniqueUsed

  /** The exceptions the builder lets escape. */
  datatype BuildError =
    | NotImplemented   // the group list or the sources are missing
    | NameNotString    // `k["name"].lower()` met the NOT_FOUND of an unknown technique name
    | MissingDomain    // sources whose domain lookup lacks a parent technique, outside the model

  /** The relationship maps, keyed by the STIX id of a group, a campaign or a software. */
  datatype Relationships = Relationships(
    techniquesUsedByGroups: map<string, seq<Usage>>,
    campaignsAttributedToGroup: map<string, seq<Usage>>,
    techniquesUsedByCampaigns: map<string, seq<Usage>>,
    toolsUsedByGroups: map<string, seq<Usage>>,
    malwareUsedByGroups: map<string, seq<Usage>>,
    techniquesUsedByTools: map<string, seq<Usage>>,
    techniquesUsedByMalware: map<string, seq<Usage>>,
    malwareUsedByCampaigns: map<string, seq<Usage>>,
    toolsUsedByCampaigns: map<string, seq<Usage>>)

  /** Everything the builder reads besides the group: lookups, relationships and the date formatters. */
  datatype Sources = Sources(lk: Lookups, rels: Relationships, formatDate: Timestamp -> string, formatMonthYear: string -> string)

  /** The entries of `m.get(k)`; a missing key gives nothing to iterate over. */
  function Related(m: map<string, seq<Usage>>, k: string): seq<Usage> {
    if k in m then m[k] else []
  }

  /** The technique-to-domain lookup of a parent id cannot fail. */
  predicate WellFormed(src: Sources) {
    ParentsHaveDomains(src.lk.techniqueToDomain)
  }

  // ---------------------------------------------------------------------
  // Sorting by lowercased name
  // ---------------------------------------------------------------------

  function NameKey<T>(name: T -> Option<string>, x: T): string {
    if name(x).Some? then Lower(name(x).value) else ""
  }

  function ByName<T>(name: T -> Option<string>): (T, T) -> bool {
    (a: T, b: T) => LexLess(NameKey(name, a), NameKey(name, b))
  }

  lemma ByNameStrict<T(!new)>(name: T -> Option<string>)
    ensures StrictOrder(ByName(name))
  {
    forall a: T ensures !ByName(name)(a, a) {
      LexLessIrreflexive(NameKey(name, a));
    }
    forall a: T, b: T, c: T | ByName(name)(a, b) && ByName(name)(b, c) ensures ByName(name)(a, c) {
      LexLessTransitive(NameKey(name, a), NameKey(name, b), NameKey(name, c));
    }
  }

  predicate AllNamed<T>(s: seq<T>, name: T -> Option<string>) {
    forall i :: 0 <= i < |s| ==> name(s[i]).Some?
  }

  /**
   * `sorted(s, key=lambda k: k["name"].lower())`: the stable sort by
   * lowercased name, which raises when a name is the NOT_FOUND.
   */
  function SortByName<T>(s: seq<T>, name: T -> Option<string>): (r: Result<seq<T>, BuildError>)
    ensures r.Ok? <==> AllNamed(s, name)
  {
    if AllNamed(s, name) then Ok(SortBy(s, ByName(name))) else Err(NameNotString)
  }

  /** A sort that does not raise gives the same elements, as often, ordered by lowercased name. */
  lemma SortByNameProperties<T(!new)>(s: seq<T>, name: T -> Option<string>)
    requires AllNamed(s, name)
    ensures SortedBy(SortByName(s, name).value, ByName(name))
    ensures multiset(SortByName(s, name).value) == multiset(s)
  {
    ByNameStrict(name);
    SortBySorted(s, ByName(name));
  }

  // ---------------------------------------------------------------------
  // The technique entries of campaign and software rows
  // ---------------------------------------------------------------------

  /** A `tech_data` entry: `parent_id` and `sub_name` are there for sub-techniques only. */
  datatype TechRef = TechRef(parentId: Option<string>, id: string, name: Option<string>, subName: Option<string>)

  function TechRefName(r: TechRef): Option<string> {
    r.name
  }

  /** The entry for one technique, `None` when it has no ATT&CK id and is skipped. */
  function TechRefOf(lk: Lookups, technique: Usage): Option<TechRef> {
    match AttackId(technique.obj)
    case None => None
    case Some(tid) =>
      if IsSubTid(tid) then
        Some(TechRef(Some(ParentId(tid)), LocalId(tid), TechniqueName(lk.techniques, ParentId(tid)), Some(technique.obj.name)))
      else Some(TechRef(None, tid, Some(technique.obj.name), None))
  }

  /**
   * A technique without an ATT&CK id gives no entry; a sub-technique id is
   * split into the parent id and the local id, which rebuild it, and the
   * entry is named after the parent; any other id is kept whole.
   */
  lemma TechRefSplits(lk: Lookups, technique: Usage)
    ensures TechRefOf(lk, technique).None? <==> AttackId(technique.obj).None?
    ensures var r := TechRefOf(lk, technique); var tid := AttackId(technique.obj);
      r.Some? && IsSubTid(tid.value) ==>
        r.value.parentId.Some? && r.value.parentId.value + "." + r.value.id == tid.value &&
        r.value.name == TechniqueName(lk.techniques, r.value.parentId.value) && r.value.subName == Some(technique.obj.name)
    ensures var r := TechRefOf(lk, technique); var tid := AttackId(technique.obj);
      r.Some? && !IsSubTid(tid.value) ==>
        r.value.parentId.None? && r.value.id == tid.value && r.value.name == Some(technique.obj.name) && r.value.subName.None?
  {
  }

  function RefsOf(r: Option<TechRef>): seq<TechRef> {
    if r.Some? then [r.value] else []
  }

  /** The entries of a technique list, in order. */
  function TechRefs(lk: Lookups, ts: seq<Usage>): seq<TechRef> {
    if ts == [] then [] else TechRefs(lk, ts[..|ts| - 1]) + RefsOf(TechRefOf(lk, ts[|ts| - 1]))
  }

  predicate HasAttackId(u: Usage) {
    AttackId(u.obj).Some?
  }

  /** There is one entry per technique with an ATT&CK id. */
  lemma {:induction false} TechRefsCount(lk: Lookups, ts: seq<Usage>)
    ensures |TechRefs(lk, ts)| == |Filter(ts, HasAttackId)|
  {
    if ts != [] {
      TechRefsCount(lk, ts[..|ts| - 1]);
    }
  }

  /** The entry the technique loop appends for one technique, if any. */
  method GetTechRef(lk: Lookups, technique: Usage) returns (r: Option<TechRef>)
    ensures r == TechRefOf(lk, technique)
  {
    var tId := GetAttackId(technique.obj);
    if !Truthy(tId) {
      return None;
    }
    if IsSubTid(tId.value) {
      var parentId := ParentId(tId.value);
      var name := GetTechniqueName(lk, parentId);
      r := Some(TechRef(Some(parentId), LocalId(tId.value), name, Some(technique.obj.name)));
    } else {
      r := Some(TechRef(None, tId.value, Some(technique.obj.name), None));
    }
  }

  /** The technique loop of a campaign or a software row. */
  method CollectTechRefs(lk: Lookups, techniques: seq<TechRef>, ts: seq<Usage>) returns (r: seq<TechRef>)
    ensures r == techniques + TechRefs(lk, ts)
  {
    r := techniques;
    var i := 0;
    while i < |ts|
      invariant 0 <= i <= |ts|
      invariant r == techniques + TechRefs(lk, ts[..i])
    {
      PrefixSnoc(ts, i);
      var techData := GetTechRef(lk, ts[i]);
      r := r + RefsOf(techData);
      i := i + 1;
    }
    assert ts[..i] == ts;
  }

  /** `sorted` on a row's technique list, when the row has one. */
  function SortTechniques(techniques: Option<seq<TechRef>>): (r: Result<Option<seq<TechRef>>, BuildError>)
    ensures r.Ok? <==> techniques.None? || AllNamed(techniques.value, TechRefName)
    ensures r.Ok? && techniques.None? ==> r.value.None?
    ensures r.Ok? && techniques.Some? ==> r.value.Some? && r.value.value == SortByName(techniques.value, TechRefName).value
  {
    match techniques
    case None => Ok(None)
    case Some(ts) =>
      match SortByName(ts, TechRefName)
      case Err(e) => Err(e)
      case Ok(sorted) => Ok(Some(sorted))
  }

  /** A table under construction: rows by STIX id, the citations, and the `reference` flag. */
  datatype TableAcc<R> = TableAcc(rows: OMap<string, R>, refs: ReferenceList, reference: bool)

  /** What a table function returns: the sorted rows or the error, the flag and the citations. */
  datatype Table<R> = Table(rows: Result<seq<R>, BuildError>, reference: bool, refs: ReferenceList)

  /** The citations only grow: every listed entry stays as it was. */
  ghost predicate Extends(after: ReferenceList, before: ReferenceList) {
    forall k :: k in before.vals ==> k in after.vals && after.vals[k] == before.vals[k]
  }

  lemma AddRefsExtends(list: ReferenceList, refs: seq<ExtRef>)
    ensures Extends(AddRefs(list, refs), list)
  {
    forall k | k in list.vals ensures k in AddRefs(list, refs).vals && AddRefs(list, refs).vals[k] == list.vals[k] {
      AddRefsKeeps(list, refs, k);
    }
  }

  lemma RelationshipRefsExtends(list: ReferenceList, rel: StixObject)
    ensures Extends(RelationshipRefs(list, rel), list)
  {
    AddRefsExtends(list, rel.refs);
  }

  // ---------------------------------------------------------------------
  // get_campaign_table_data
  // ---------------------------------------------------------------------

  datatype CampaignRow = CampaignRow(
    id: Option<string>, name: string,
    firstSeen: string, lastSeen: string, firstSeenCitation: string, lastSeenCitation: string,
    desc: Option<string>, techniques: Option<seq<TechRef>>)

  function CampaignName(r: CampaignRow): Option<string> {
    Some(r.name)
  }

  /** A property that is copied when it is there and not empty, and is "" otherwise. */
  function OrEmpty(o: Option<string>): (r: string)
    ensures !Truthy(o) ==> r == ""
    ensures Truthy(o) ==> r == o.value
  {
    if Truthy(o) then o.value else ""
  }

  /** `get_first_last_seen_dates`, each date formatted as month and year when present. */
  function SeenDate(src: Sources, d: Option<string>): (r: string)
    ensures !Truthy(d) ==> r == ""
  {
    if Truthy(d) then src.formatMonthYear(d.value) else ""
  }

  /** The campaign carries a first-seen or a last-seen citation. */
  predicate DatesCited(o: StixObject) {
    Truthy(o.firstSeenCitation) || Truthy(o.lastSeenCitation)
  }

  function CampaignRowOf(src: Sources, campaign: Usage): CampaignRow {
    var o := campaign.obj;
    var techs := Related(src.rels.techniquesUsedByCampaigns, o.stixId);
    CampaignRow(AttackId(o), o.name,
      SeenDate(src, o.firstSeen), SeenDate(src, o.lastSeen), OrEmpty(o.firstSeenCitation), OrEmpty(o.lastSeenCitation),
      RelDescr(campaign.rel), if techs != [] then Some(TechRefs(src.lk, techs)) else None)
  }

  /** The rows of `campaign_list` for one campaign: only the first campaign of a STIX id adds its row. */
  function CampaignStep(src: Sources, acc: TableAcc<CampaignRow>, campaign: Usage): (r: TableAcc<CampaignRow>)
    ensures acc.rows.Valid() ==> r.rows.Valid()
  {
    var o := campaign.obj;
    if o.stixId in acc.rows.vals then acc
    else
      var refs1 := if DatesCited(o) then AddRefs(acc.refs, o.refs) else acc.refs;
      TableAcc(acc.rows.Put(o.stixId, CampaignRowOf(src, campaign)), RelationshipRefs(refs1, campaign.rel),
        acc.reference || DatesCited(o) || Truthy(campaign.rel.description))
  }

  function CampaignList(src: Sources, acc: TableAcc<CampaignRow>, cs: seq<Usage>): (r: TableAcc<CampaignRow>)
    ensures acc.rows.Valid() ==> r.rows.Valid()
  {
    if cs == [] then acc else CampaignStep(src, CampaignList(src, acc, cs[..|cs| - 1]), cs[|cs| - 1])
  }

  /** The loop over `campaign_list` that sorts every row's technique list. */
  function CampaignData(rows: seq<CampaignRow>): Result<seq<CampaignRow>, BuildError> {
    if rows == [] then Ok([])
    else
      match CampaignData(rows[..|rows| - 1])
      case Err(e) => Err(e)
      case Ok(d) =>
        match SortTechniques(rows[|rows| - 1].techniques)
        case Err(e) => Err(e)
        case Ok(t) => Ok(d + [rows[|rows| - 1].(techniques := t)])
  }

  /** The sorted rows, or the error of the first sort that raised. */
  function SortedRows<R>(data: Result<seq<R>, BuildError>, name: R -> Option<string>): Result<seq<R>, BuildError> {
    match data
    case Err(e) => Err(e)
    case Ok(d) => SortByName(d, name)
  }

  /** `get_campaign_table_data`. */
  function CampaignTable(src: Sources, group: StixObject, refs: ReferenceList): Table<CampaignRow> {
    var acc := CampaignList(src, TableAcc(EmptyMap(), refs, false), Related(src.rels.campaignsAttributedToGroup, group.stixId));
    Table(SortedRows(CampaignData(acc.rows.Values()), CampaignName), acc.reference, acc.refs)
  }

  /** The body of the campaign loop. */
  method AddCampaign(src: Sources, campaignList: OMap<string, CampaignRow>, referenceList: ReferenceList, reference: bool, campaign: Usage)
    returns (list: OMap<string, CampaignRow>, refs: ReferenceList, ref: bool)
    ensures TableAcc(list, refs, ref) == CampaignStep(src, TableAcc(campaignList, referenceList, reference), campaign)
  {
    list, refs, ref := campaignList, referenceList, reference;
    var campaignId := campaign.obj.stixId;
    if campaignId in list.vals {
      return;
    }
    var attackId := GetAttackId(campaign.obj);
    var row := CampaignRow(attackId, campaign.obj.name,
      SeenDate(src, campaign.obj.firstSeen), SeenDate(src, campaign.obj.lastSeen),
      OrEmpty(campaign.obj.firstSeenCitation), OrEmpty(campaign.obj.lastSeenCitation), None, None);
    if Truthy(campaign.obj.firstSeenCitation) || Truthy(campaign.obj.lastSeenCitation) {
      ref := true;
      refs := UpdateReferenceList(refs, campaign.obj);
    }
    ghost var refs1 := refs;
    assert refs1 == if DatesCited(campaign.obj) then AddRefs(referenceList, campaign.obj.refs) else referenceList;
    if Truthy(campaign.rel.description) {
      if ref == false {
        ref := true;
      }
      row := row.(desc := campaign.rel.description);
      refs := UpdateReferenceList(refs, campaign.rel);
    }
    assert refs == RelationshipRefs(refs1, campaign.rel);
    assert ref == (reference || DatesCited(campaign.obj) || Truthy(campaign.rel.description));
    var techs := Related(src.rels.techniquesUsedByCampaigns, campaignId);
    if techs != [] {
      var techniques := CollectTechRefs(src.lk, [], techs);
      EmptyConcat(TechRefs(src.lk, techs));
      row := row.(techniques := Some(techniques));
    }
    assert row == CampaignRowOf(src, campaign);
    list := list.Put(campaignId, row);
  }

  /** The final loop and sort of `get_campaign_table_data`. */
  method BuildCampaignData(rows: seq<CampaignRow>) returns (data: Result<seq<CampaignRow>, BuildError>)
    ensures data == SortedRows(CampaignData(rows), CampaignName)
  {
    var campaignData: seq<CampaignRow> := [];
    var i := 0;
    while i < |rows|
      invariant 0 <= i <= |rows|
      invariant CampaignData(rows[..i]) == Ok(campaignData)
    {
      PrefixSnoc(rows, i);
      var item := rows[i];
      var sorted := SortTechniques(item.techniques);
      if sorted.Err? {
        CampaignDataStaysErr(rows, i + 1);
        return Err(sorted.error);
      }
      campaignData := campaignData + [item.(techniques := sorted.value)];
      i := i + 1;
    }
    assert rows[..i] == rows;
    data := SortByName(campaignData, CampaignName);
  }

  /** Once a row's sort raised, the rows after it change nothing. */
  lemma {:induction false} CampaignDataStaysErr(rows: seq<CampaignRow>, n: nat)
    requires n <= |rows| && CampaignData(rows[..n]).Err?
    ensures CampaignData(rows) == CampaignData(rows[..n])
    decreases |rows| - n
  {
    if n < |rows| {
      PrefixSnoc(rows, n);
      CampaignDataStaysErr(rows, n + 1);
    } else {
      assert rows[..n] == rows;
    }
  }

  method GetCampaignTableData(src: Sources, group: StixObject, referenceList: ReferenceList)
    returns (campaignData: Result<seq<CampaignRow>, BuildError>, reference: bool, refs: ReferenceList)
    ensures Table(campaignData, reference, refs) == CampaignTable(src, group, referenceList)
  {
    var campaignList;
    campaignList, refs, reference := BuildCampaignList(src, referenceList, Related(src.rels.campaignsAttributedToGroup, group.stixId));
    campaignData := BuildCampaignData(campaignList.Values());
  }

  /** The campaign loop of `get_campaign_table_data`. */
  method BuildCampaignList(src: Sources, referenceList: ReferenceList, cs: seq<Usage>)
    returns (campaignList: OMap<string, CampaignRow>, refs: ReferenceList, reference: bool)
    ensures TableAcc(campaignList, refs, reference) == CampaignList(src, TableAcc(EmptyMap(), referenceList, false), cs)
  {
    campaignList := EmptyMap();
    reference := false;
    refs := referenceList;
    var i := 0;
    while i < |cs|
      invariant 0 <= i <= |cs|
      invariant TableAcc(campaignList, refs, reference) == CampaignList(src, TableAcc(EmptyMap(), referenceList, false), cs[..i])
    {
      PrefixSnoc(cs, i);
      campaignList, refs, reference := AddCampaign(src, campaignList, refs, reference, cs[i]);
      i := i + 1;
    }
    assert cs[..i] == cs;
  }

  // Properties of the campaign table --------------------------------------

  /**
   * Campaign rows are keyed by STIX id and the first campaign of an id
   * wins: a listed row never changes, and a new row is the one built from
   * the campaign; missing dates and citations are "".
   */
  lemma CampaignStepFirstWins(src: Sources, acc: TableAcc<CampaignRow>, campaign: Usage, k: string)
    ensures var r := CampaignStep(src, acc, campaign);
      k in acc.rows.vals ==> k in r.rows.vals && r.rows.vals[k] == acc.rows.vals[k]
    ensures var r := CampaignStep(src, acc, campaign);
      k in r.rows.vals && k !in acc.rows.vals ==> k == campaign.obj.stixId && r.rows.vals[k] == CampaignRowOf(src, campaign)
    ensures var row := CampaignRowOf(src, campaign);
      (!Truthy(campaign.obj.firstSeen) ==> row.firstSeen == "") && (!Truthy(campaign.obj.lastSeen) ==> row.lastSeen == "") &&
      (!Truthy(campaign.obj.firstSeenCitation) ==> row.firstSeenCitation == "") &&
      (!Truthy(campaign.obj.lastSeenCitation) ==> row.lastSeenCitation == "")
  {
  }

  /** The flag only turns on, when a citation or a relationship description is copied; the citations only grow. */
  lemma CampaignStepFlag(src: Sources, acc: TableAcc<CampaignRow>, campaign: Usage)
    ensures var r := CampaignStep(src, acc, campaign);
      (acc.reference ==> r.reference) &&
      (r.reference && !acc.reference ==> DatesCited(campaign.obj) || Truthy(campaign.rel.description)) &&
      Extends(r.refs, acc.refs)
  {
    var o := campaign.obj;
    if o.stixId !in acc.rows.vals {
      var refs1 := if DatesCited(o) then AddRefs(acc.refs, o.refs) else acc.refs;
      AddRefsExtends(acc.refs, o.refs);
      RelationshipRefsExtends(refs1, campaign.rel);
    }
  }

  lemma {:induction false} CampaignListExtends(src: Sources, acc: TableAcc<CampaignRow>, cs: seq<Usage>)
    ensures Extends(CampaignList(src, acc, cs).refs, acc.refs)
    ensures acc.reference ==> CampaignList(src, acc, cs).reference
  {
    if cs != [] {
      var init := cs[..|cs| - 1];
      CampaignListExtends(src, acc, init);
      CampaignStepFlag(src, CampaignList(src, acc, init), cs[|cs| - 1]);
    }
  }

  /** Every row's technique list, and the table, are sorted by lowercased name when nothing raised. */
  lemma {:induction false} CampaignDataSorted(rows: seq<CampaignRow>)
    requires CampaignData(rows).Ok?
    ensures |CampaignData(rows).value| == |rows|
    ensures forall i :: 0 <= i < |rows| ==> CampaignData(rows).value[i].techniques.Some? ==>
      SortedBy(CampaignData(rows).value[i].techniques.value, ByName(TechRefName))
  {
    if rows != [] {
      var init, last := rows[..|rows| - 1], rows[|rows| - 1];
      CampaignDataSorted(init);
      if last.techniques.Some? {
        SortByNameProperties(last.techniques.value, TechRefName);
      }
    }
  }

  // ---------------------------------------------------------------------
  // update_software_list, get_software_table_data
  // ---------------------------------------------------------------------

  datatype SoftwareRow = SoftwareRow(id: string, name: string, descr: Option<string>, techniques: Option<seq<TechRef>>)

  function SoftwareName(r: SoftwareRow): Option<string> {
    Some(r.name)
  }

  /** A software map with the technique map of the same kind of software. */
  datatype Pairing = Pairing(software: map<string, seq<Usage>>, techniques: map<string, seq<Usage>>)

  /** The rows for one software: only one with a new STIX id and an ATT&CK id adds its row. */
  function SoftwareStep(lk: Lookups, pairing: Pairing, acc: TableAcc<SoftwareRow>, software: Usage): (r: TableAcc<SoftwareRow>)
    ensures acc.rows.Valid() ==> r.rows.Valid()
  {
    var o := software.obj;
    var attackId := AttackId(o);
    if o.stixId in acc.rows.vals || attackId.None? then acc
    else
      var techs := Related(pairing.techniques, o.stixId);
      var row := SoftwareRow(attackId.value, o.name, RelDescr(software.rel), if techs != [] then Some(TechRefs(lk, techs)) else None);
      TableAcc(acc.rows.Put(o.stixId, row), RelationshipRefs(acc.refs, software.rel), acc.reference || Truthy(software.rel.description))
  }

  function SoftwareOfPairing(lk: Lookups, pairing: Pairing, acc: TableAcc<SoftwareRow>, ss: seq<Usage>): (r: TableAcc<SoftwareRow>)
    ensures acc.rows.Valid() ==> r.rows.Valid()
  {
    if ss == [] then acc else SoftwareStep(lk, pairing, SoftwareOfPairing(lk, pairing, acc, ss[..|ss| - 1]), ss[|ss| - 1])
  }

  /** The rows after `update_software_list` with the given pairings and id. */
  function UpdateSoftware(lk: Lookups, acc: TableAcc<SoftwareRow>, pairings: seq<Pairing>, id: string): (r: TableAcc<SoftwareRow>)
    ensures acc.rows.Valid() ==> r.rows.Valid()
  {
    if pairings == [] then acc
    else
      var last := pairings[|pairings| - 1];
      SoftwareOfPairing(lk, last, UpdateSoftware(lk, acc, pairings[..|pairings| - 1], id), Related(last.software, id))
  }

  /** The tools and the malware a group uses, each with the techniques of that kind of software. */
  function GroupPairings(rels: Relationships): seq<Pairing> {
    [Pairing(rels.toolsUsedByGroups, rels.techniquesUsedByTools), Pairing(rels.malwareUsedByGroups, rels.techniquesUsedByMalware)]
  }

  /** The malware and the tools a campaign uses. */
  function CampaignPairings(rels: Relationships): seq<Pairing> {
    [Pairing(rels.malwareUsedByCampaigns, rels.techniquesUsedByMalware), Pairing(rels.toolsUsedByCampaigns, rels.techniquesUsedByTools)]
  }

  function SoftwareOfCampaigns(lk: Lookups, rels: Relationships, acc: TableAcc<SoftwareRow>, cs: seq<Usage>): (r: TableAcc<SoftwareRow>)
    ensures acc.rows.Valid() ==> r.rows.Valid()
  {
    if cs == [] then acc
    else UpdateSoftware(lk, SoftwareOfCampaigns(lk, rels, acc, cs[..|cs| - 1]), CampaignPairings(rels), cs[|cs| - 1].obj.stixId)
  }

  function SoftwareData(rows: seq<SoftwareRow>): Result<seq<SoftwareRow>, BuildError> {
    if rows == [] then Ok([])
    else
      match SoftwareData(rows[..|rows| - 1])
      case Err(e) => Err(e)
      case Ok(d) =>
        match SortTechniques(rows[|rows| - 1].techniques)
        case Err(e) => Err(e)
        case Ok(t) => Ok(d + [rows[|rows| - 1].(techniques := t)])
  }

  /** `get_software_table_data`. */
  function SoftwareTable(src: Sources, group: StixObject, refs: ReferenceList): Table<SoftwareRow> {
    var acc1 := UpdateSoftware(src.lk, TableAcc(EmptyMap(), refs, false), GroupPairings(src.rels), group.stixId);
    var acc2 := SoftwareOfCampaigns(src.lk, src.rels, acc1, Related(src.rels.campaignsAttributedToGroup, group.stixId));
    Table(SortedRows(SoftwareData(acc2.rows.Values()), SoftwareName), acc2.reference, acc2.refs)
  }

  /** The body of the software loop of `update_software_list`. */
  method AddSoftware(lk: Lookups, pairing: Pairing, softwareList: OMap<string, SoftwareRow>, referenceList: ReferenceList, reference: bool, software: Usage)
    returns (list: OMap<string, SoftwareRow>, refs: ReferenceList, ref: bool)
    ensures TableAcc(list, refs, ref) == SoftwareStep(lk, pairing, TableAcc(softwareList, referenceList, reference), software)
  {
    list, refs, ref := softwareList, referenceList, reference;
    var softwareStixId := software.obj.stixId;
    var softwareAttackId := GetAttackId(software.obj);
    if softwareStixId !in list.vals && Truthy(softwareAttackId) {
      var row := SoftwareRow(softwareAttackId.value, software.obj.name, None, None);
      if Truthy(software.rel.description) {
        ref := true;
        row := row.(descr := software.rel.description);
        refs := UpdateReferenceList(refs, software.rel);
      }
      var techs := Related(pairing.techniques, softwareStixId);
      if techs != [] {
        var techniques := CollectTechRefs(lk, [], techs);
        EmptyConcat(TechRefs(lk, techs));
        row := row.(techniques := Some(techniques));
      }
      list := list.Put(softwareStixId, row);
    }
  }

  method AddPairing(lk: Lookups, pairing: Pairing, softwareList: OMap<string, SoftwareRow>, referenceList: ReferenceList, reference: bool, id: string)
    returns (list: OMap<string, SoftwareRow>, refs: ReferenceList, ref: bool)
    ensures TableAcc(list, refs, ref) == SoftwareOfPairing(lk, pairing, TableAcc(softwareList, referenceList, reference), Related(pairing.software, id))
  {
    list, refs, ref := softwareList, referenceList, reference;
    var ss := Related(pairing.software, id);
    var i := 0;
    while i < |ss|
      invariant 0 <= i <= |ss|
      invariant TableAcc(list, refs, ref) == SoftwareOfPairing(lk, pairing, TableAcc(softwareList, referenceList, reference), ss[..i])
    {
      PrefixSnoc(ss, i);
      list, refs, ref := AddSoftware(lk, pairing, list, refs, ref, ss[i]);
      i := i + 1;
    }
    assert ss[..i] == ss;
  }

  /** `update_software_list`. */
  method UpdateSoftwareList(lk: Lookups, pairings: seq<Pairing>, softwareList: OMap<string, SoftwareRow>, referenceList: ReferenceList, reference: bool, id: string)
    returns (list: OMap<string, SoftwareRow>, refs: ReferenceList, ref: bool)
    ensures TableAcc(list, refs, ref) == UpdateSoftware(lk, TableAcc(softwareList, referenceList, reference), pairings, id)
  {
    list, refs, ref := softwareList, referenceList, reference;
    var i := 0;
    while i < |pairings|
      invariant 0 <= i <= |pairings|
      invariant TableAcc(list, refs, ref) == UpdateSoftware(lk, TableAcc(softwareList, referenceList, reference), pairings[..i], id)
    {
      PrefixSnoc(pairings, i);
      list, refs, ref := AddPairing(lk, pairings[i], list, refs, ref, id);
      i := i + 1;
    }
    assert pairings[..i] == pairings;
  }

  method BuildSoftwareData(rows: seq<SoftwareRow>) returns (data: Result<seq<SoftwareRow>, BuildError>)
    ensures data == SortedRows(SoftwareData(rows), SoftwareName)
  {
    var softwareData: seq<SoftwareRow> := [];
    var i := 0;
    while i < |rows|
      invariant 0 <= i <= |rows|
      invariant SoftwareData(rows[..i]) == Ok(softwareData)
    {
      PrefixSnoc(rows, i);
      var item := rows[i];
      var sorted := SortTechniques(item.techniques);
      if sorted.Err? {
        SoftwareDataStaysErr(rows, i + 1);
        return Err(sorted.error);
      }
      softwareData := softwareData + [item.(techniques := sorted.value)];
      i := i + 1;
    }
    assert rows[..i] == rows;
    data := SortByName(softwareData, SoftwareName);
  }

  lemma {:induction false} SoftwareDataStaysErr(rows: seq<SoftwareRow>, n: nat)
    requires n <= |rows| && SoftwareData(rows[..n]).Err?
    ensures SoftwareData(rows) == SoftwareData(rows[..n])
    decreases |rows| - n
  {
    if n < |rows| {
      PrefixSnoc(rows, n);
      SoftwareDataStaysErr(rows, n + 1);
    } else {
      assert rows[..n] == rows;
    }
  }

  method GetSoftwareTableData(src: Sources, group: StixObject, referenceList: ReferenceList)
    returns (data: Result<seq<SoftwareRow>, BuildError>, reference: bool, refs: ReferenceList)
    ensures Table(data, reference, refs) == SoftwareTable(src, group, referenceList)
  {
    var softwareList: OMap<string, SoftwareRow> := EmptyMap();
    softwareList, refs, reference := UpdateSoftwareList(src.lk, GroupPairings(src.rels), softwareList, referenceList, false, group.stixId);
    softwareList, refs, reference := UpdateCampaignSoftware(src.lk, src.rels, softwareList, refs, reference,
      Related(src.rels.campaignsAttributedToGroup, group.stixId));
    data := BuildSoftwareData(softwareList.Values());
  }

  /** The campaign loop of `get_software_table_data`. */
  method UpdateCampaignSoftware(lk: Lookups, rels: Relationships, softwareList: OMap<string, SoftwareRow>,
                                referenceList: ReferenceList, reference: bool, cs: seq<Usage>)
    returns (list: OMap<string, SoftwareRow>, refs: ReferenceList, ref: bool)
    ensures TableAcc(list, refs, ref) == SoftwareOfCampaigns(lk, rels, TableAcc(softwareList, referenceList, reference), cs)
  {
    list, refs, ref := softwareList, referenceList, reference;
    var i := 0;
    while i < |cs|
      invariant 0 <= i <= |cs|
      invariant TableAcc(list, refs, ref) == SoftwareOfCampaigns(lk, rels, TableAcc(softwareList, referenceList, reference), cs[..i])
    {
      PrefixSnoc(cs, i);
      list, refs, ref := UpdateSoftwareList(lk, CampaignPairings(rels), list, refs, ref, cs[i].obj.stixId);
      i := i + 1;
    }
    assert cs[..i] == cs;
  }

  // Properties of the software table ---------------------------------------

  /**
   * Software rows are keyed by STIX id, first seen wins: a listed row never
   * changes, and a new row comes from a software with that STIX id and an
   * ATT&CK id. The flag only turns on, when the relationship's description
   * is copied into the row, and the citations only grow.
   */
  lemma SoftwareStepFirstWins(lk: Lookups, pairing: Pairing, acc: TableAcc<SoftwareRow>, software: Usage, k: string)
    ensures var r := SoftwareStep(lk, pairing, acc, software);
      k in acc.rows.vals ==> k in r.rows.vals && r.rows.vals[k] == acc.rows.vals[k]
    ensures var r := SoftwareStep(lk, pairing, acc, software);
      k in r.rows.vals && k !in acc.rows.vals ==>
        k == software.obj.stixId && AttackId(software.obj) == Some(r.rows.vals[k].id) && r.rows.vals[k].name == software.obj.name
    ensures var r := SoftwareStep(lk, pairing, acc, software);
      (acc.reference ==> r.reference) &&
      (r.reference && !acc.reference ==> Truthy(software.rel.description) && r.rows.vals[software.obj.stixId].descr == software.rel.description)
    ensures Extends(SoftwareStep(lk, pairing, acc, software).refs, acc.refs)
  {
    RelationshipRefsExtends(acc.refs, software.rel);
  }

  lemma {:induction false} SoftwareOfPairingKeeps(lk: Lookups, pairing: Pairing, acc: TableAcc<SoftwareRow>, ss: seq<Usage>, k: string)
    requires k in acc.rows.vals
    ensures var r := SoftwareOfPairing(lk, pairing, acc, ss);
      k in r.rows.vals && r.rows.vals[k] == acc.rows.vals[k] && (acc.reference ==> r.reference) && Extends(r.refs, acc.refs)
  {
    if ss != [] {
      var init := ss[..|ss| - 1];
      SoftwareOfPairingKeeps(lk, pairing, acc, init, k);
      SoftwareStepFirstWins(lk, pairing, SoftwareOfPairing(lk, pairing, acc, init), ss[|ss| - 1], k);
    }
  }

  /** `update_software_list` never drops or changes a listed row, never clears the flag and only adds citations. */
  lemma {:induction false} UpdateSoftwareKeeps(lk: Lookups, acc: TableAcc<SoftwareRow>, pairings: seq<Pairing>, id: string, k: string)
    requires k in acc.rows.vals
    ensures var r := UpdateSoftware(lk, acc, pairings, id);
      k in r.rows.vals && r.rows.vals[k] == acc.rows.vals[k] && (acc.reference ==> r.reference) && Extends(r.refs, acc.refs)
  {
    if pairings != [] {
      var init, last := pairings[..|pairings| - 1], pairings[|pairings| - 1];
      UpdateSoftwareKeeps(lk, acc, init, id, k);
      SoftwareOfPairingKeeps(lk, last, UpdateSoftware(lk, acc, init, id), Related(last.software, id), k);
    }
  }

  // ---------------------------------------------------------------------
  // get_techniques_used_by_group_data
  // ---------------------------------------------------------------------

  function TechEntryName(e: TechEntry): Option<string> {
    e.name
  }

  /** One technique of the group's or a campaign's list: deprecated ones are not added. */
  function UseIfCurrent(src: Sources, acc: Acc, technique: Usage, inherited: bool): (r: Acc)
    requires WellFormed(src)
    ensures acc.techniques.Valid() ==> r.techniques.Valid()
  {
    if technique.obj.deprecated then acc else UseTechnique(src.lk, acc, technique, inherited)
  }

  function UseAll(src: Sources, acc: Acc, ts: seq<Usage>, inherited: bool): (r: Acc)
    requires WellFormed(src)
    ensures acc.techniques.Valid() ==> r.techniques.Valid()
  {
    if ts == [] then acc else UseIfCurrent(src, UseAll(src, acc, ts[..|ts| - 1], inherited), ts[|ts| - 1], inherited)
  }

  /** The techniques of the group's campaigns, added as inherited. */
  function UseCampaigns(src: Sources, acc: Acc, cs: seq<Usage>): (r: Acc)
    requires WellFormed(src)
    ensures acc.techniques.Valid() ==> r.techniques.Valid()
  {
    if cs == [] then acc
    else UseAll(src, UseCampaigns(src, acc, cs[..|cs| - 1]), Related(src.rels.techniquesUsedByCampaigns, cs[|cs| - 1].obj.stixId), true)
  }

  /** Some technique of the list is not deprecated. */
  predicate AnyCurrent(ts: seq<Usage>) {
    ts != [] && (AnyCurrent(ts[..|ts| - 1]) || !ts[|ts| - 1].obj.deprecated)
  }

  /** `hasInheritedTechniques` after the campaign loop. */
  predicate Inherited(src: Sources, cs: seq<Usage>) {
    cs != [] && (Inherited(src, cs[..|cs| - 1]) || AnyCurrent(Related(src.rels.techniquesUsedByCampaigns, cs[|cs| - 1].obj.stixId)))
  }

  /** The technique table of a group, its `hasInheritedTechniques` and the citations. */
  datatype TechniqueTable = TechniqueTable(rows: Result<seq<TechEntry>, BuildError>, inherited: bool, refs: ReferenceList)

  function TechniquesUsed(src: Sources, group: StixObject, refs: ReferenceList): TechniqueTable
    requires WellFormed(src)
  {
    var acc1 := UseAll(src, Acc(EmptyMap(), refs), Related(src.rels.techniquesUsedByGroups, group.stixId), false);
    var cs := Related(src.rels.campaignsAttributedToGroup, group.stixId);
    var acc2 := UseCampaigns(src, acc1, cs);
    TechniqueTable(SortByName(acc2.techniques.Values(), TechEntryName), Inherited(src, cs), acc2.refs)
  }

  /** One technique loop: every current technique of the list through `technique_used_helper`. */
  method UseTechniques(src: Sources, techniqueList: TechniqueList, referenceList: ReferenceList, ts: seq<Usage>, inherited: bool)
    returns (list: TechniqueList, refs: ReferenceList, processed: bool)
    requires WellFormed(src)
    ensures Acc(list, refs) == UseAll(src, Acc(techniqueList, referenceList), ts, inherited)
    ensures processed == AnyCurrent(ts)
  {
    list, refs, processed := techniqueList, referenceList, false;
    var i := 0;
    while i < |ts|
      invariant 0 <= i <= |ts|
      invariant Acc(list, refs) == UseAll(src, Acc(techniqueList, referenceList), ts[..i], inherited)
      invariant processed == AnyCurrent(ts[..i])
    {
      PrefixSnoc(ts, i);
      var technique := ts[i];
      if !technique.obj.deprecated {
        processed := true;
        list, refs := TechniqueUsedHelper(src.lk, list, technique, refs, inherited);
      }
      i := i + 1;
    }
    assert ts[..i] == ts;
  }

  /** `get_techniques_used_by_group_data`, with the citations it added. */
  method GetTechniquesUsedByGroupData(src: Sources, group: StixObject, referenceList: ReferenceList)
    returns (techniqueData: Result<seq<TechEntry>, BuildError>, hasInheritedTechniques: bool, refs: ReferenceList)
    requires WellFormed(src)
    ensures TechniqueTable(techniqueData, hasInheritedTechniques, refs) == TechniquesUsed(src, group, referenceList)
  {
    var techniqueList: TechniqueList := EmptyMap();
    var unused: bool;
    techniqueList, refs, unused := UseTechniques(src, techniqueList, referenceList, Related(src.rels.techniquesUsedByGroups, group.stixId), false);
    techniqueList, refs, hasInheritedTechniques := UseCampaignTechniques(src, techniqueList, refs,
      Related(src.rels.campaignsAttributedToGroup, group.stixId));
    techniqueData := SortByName(techniqueList.Values(), TechEntryName);
  }

  /** The campaign loop of `get_techniques_used_by_group_data`, with `hasInheritedTechniques`. */
  method UseCampaignTechniques(src: Sources, techniqueList: TechniqueList, referenceList: ReferenceList, cs: seq<Usage>)
    returns (list: TechniqueList, refs: ReferenceList, hasInheritedTechniques: bool)
    requires WellFormed(src)
    ensures Acc(list, refs) == UseCampaigns(src, Acc(techniqueList, referenceList), cs)
    ensures hasInheritedTechniques == Inherited(src, cs)
  {
    list, refs, hasInheritedTechniques := techniqueList, referenceList, false;
    var i := 0;
    while i < |cs|
      invariant 0 <= i <= |cs|
      invariant Acc(list, refs) == UseCampaigns(src, Acc(techniqueList, referenceList), cs[..i])
      invariant hasInheritedTechniques == Inherited(src, cs[..i])
    {
      PrefixSnoc(cs, i);
      var processed;
      list, refs, processed := UseTechniques(src, list, refs, Related(src.rels.techniquesUsedByCampaigns, cs[i].obj.stixId), true);
      if processed {
        hasInheritedTechniques := true;
      }
      i := i + 1;
    }
    assert cs[..i] == cs;
  }

  // Properties of the technique table --------------------------------------

  lemma {:induction false} AnyCurrentIff(ts: seq<Usage>)
    ensures AnyCurrent(ts) <==> exists j :: 0 <= j < |ts| && !ts[j].obj.deprecated
  {
    if ts != [] {
      var init := ts[..|ts| - 1];
      AnyCurrentIff(init);
      assert forall j :: 0 <= j < |init| ==> init[j] == ts[j];
    }
  }

  /** `hasInheritedTechniques` holds exactly when some campaign of the group has a technique that is not deprecated. */
  lemma {:induction false} InheritedIff(src: Sources, cs: seq<Usage>)
    ensures Inherited(src, cs) <==>
      exists i :: 0 <= i < |cs| && AnyCurrent(Related(src.rels.techniquesUsedByCampaigns, cs[i].obj.stixId))
  {
    if cs != [] {
      var init := cs[..|cs| - 1];
      InheritedIff(src, init);
      assert forall i :: 0 <= i < |init| ==> init[i] == cs[i];
    }
  }

  /** Deprecated techniques change nothing. */
  lemma {:induction false} UseAllSkipsDeprecated(src: Sources, acc: Acc, ts: seq<Usage>, inherited: bool)
    requires WellFormed(src)
    requires forall j :: 0 <= j < |ts| ==> ts[j].obj.deprecated
    ensures UseAll(src, acc, ts, inherited) == acc
  {
    if ts != [] {
      UseAllSkipsDeprecated(src, acc, ts[..|ts| - 1], inherited);
    }
  }

  /** No technique loop leaves a sub-technique list unsorted. */
  lemma {:induction false} UseAllKeepsSorted(src: Sources, acc: Acc, ts: seq<Usage>, inherited: bool)
    requires WellFormed(src) && SubsSorted(acc.techniques)
    ensures SubsSorted(UseAll(src, acc, ts, inherited).techniques)
  {
    if ts != [] {
      var prev := UseAll(src, acc, ts[..|ts| - 1], inherited);
      UseAllKeepsSorted(src, acc, ts[..|ts| - 1], inherited);
      UseTechniqueKeepsSorted(src.lk, prev, ts[|ts| - 1], inherited);
    }
  }

  lemma {:induction false} UseCampaignsKeepsSorted(src: Sources, acc: Acc, cs: seq<Usage>)
    requires WellFormed(src) && SubsSorted(acc.techniques)
    ensures SubsSorted(UseCampaigns(src, acc, cs).techniques)
  {
    if cs != [] {
      UseCampaignsKeepsSorted(src, acc, cs[..|cs| - 1]);
      UseAllKeepsSorted(src, UseCampaigns(src, acc, cs[..|cs| - 1]), Related(src.rels.techniquesUsedByCampaigns, cs[|cs| - 1].obj.stixId), true);
    }
  }

  /**
   * When no name is the NOT_FOUND the table holds every row of the
   * technique list, sorted by lowercased name, and every row's
   * sub-techniques are sorted by id.
   */
  lemma TechniquesUsedSorted(src: Sources, group: StixObject, refs: ReferenceList)
    requires WellFormed(src)
    requires TechniquesUsed(src, group, refs).rows.Ok?
    ensures var rows := TechniquesUsed(src, group, refs).rows.value;
      SortedBy(rows, ByName(TechEntryName)) && forall i :: 0 <= i < |rows| ==> SortedBy(rows[i].subs, IdBefore)
  {
    var acc1 := UseAll(src, Acc(EmptyMap(), refs), Related(src.rels.techniquesUsedByGroups, group.stixId), false);
    var cs := Related(src.rels.campaignsAttributedToGroup, group.stixId);
    var acc2 := UseCampaigns(src, acc1, cs);
    UseAllKeepsSorted(src, Acc(EmptyMap(), refs), Related(src.rels.techniquesUsedByGroups, group.stixId), false);
    UseCampaignsKeepsSorted(src, acc1, cs);
    var vs := acc2.techniques.Values();
    SortByNameProperties(vs, TechEntryName);
    var rows := SortByName(vs, TechEntryName).value;
    forall i | 0 <= i < |rows| ensures SortedBy(rows[i].subs, IdBefore) {
      assert rows[i] in multiset(vs);
      var j :| 0 <= j < |vs| && vs[j] == rows[i];
      assert vs[j] == acc2.techniques.vals[acc2.techniques.keys[j]];
    }
  }

  // ---------------------------------------------------------------------
  // process_single_group, process_groups_data
  // ---------------------------------------------------------------------

  /** A group record. The `notes` field is always `None` and is not kept. */
  datatype GroupData = GroupData(
    attackId: string, created: string, modified: string,
    name: Option<string>, version: Option<string>, contributorsList: Option<seq<string>>,
    descr: Option<string>, deprecated: bool,
    techniqueTableData: seq<TechEntry>,
    campaignData: seq<CampaignRow>, addCampaignRef: bool,
    softwareData: seq<SoftwareRow>, addSoftwareRef: bool,
    aliasDescriptions: Option<seq<AliasRow>>, citations: ReferenceList, aliasesList: Option<seq<string>>)

  /** `aliases[1:]`: every alias but the first, which is the group's name. */
  function Tail(aliases: seq<string>): seq<string> {
    if aliases == [] then [] else aliases[1..]
  }

  function Present(o: Option<string>): Option<string> {
    if Truthy(o) then o else None
  }

  /** The three tables of a group, each started from the citations the one before left. */
  datatype GroupTables = GroupTables(techniques: TechniqueTable, campaigns: Table<CampaignRow>, software: Table<SoftwareRow>)

  function Tables(src: Sources, group: StixObject): GroupTables
    requires WellFormed(src)
  {
    var tt := TechniquesUsed(src, group, AddRefs(NewReferenceList(), group.refs));
    var ct := CampaignTable(src, group, tt.refs);
    GroupTables(tt, ct, SoftwareTable(src, group, ct.refs))
  }

  /** The record built from a group's attributes and its tables; the first table whose sort raised gives the error. */
  function Record(src: Sources, group: StixObject, attackId: string, t: GroupTables): Result<Option<GroupData>, BuildError> {
    if t.techniques.rows.Err? then Err(t.techniques.rows.error)
    else if t.campaigns.rows.Err? then Err(t.campaigns.rows.error)
    else if t.software.rows.Err? then Err(t.software.rows.error)
    else
      var aliases := group.aliases;
      Ok(Some(GroupData(attackId, src.formatDate(group.created), src.formatDate(group.modified),
        if group.name != "" then Some(group.name) else None, Present(group.version), group.contributors,
        Present(group.description), group.deprecated,
        t.techniques.rows.value, t.campaigns.rows.value, t.campaigns.reference, t.software.rows.value, t.software.reference,
        if aliases.Some? && |aliases.value| > 1 then Some(AliasRows(Tail(aliases.value), group.refs)) else None,
        t.software.refs,
        if aliases.Some? then Some(Tail(aliases.value)) else None)))
  }

  /** The record of one group, `None` without an ATT&CK id, an error when a table sort raised. */
  function SingleGroup(src: Sources, group: StixObject): Result<Option<GroupData>, BuildError>
    requires WellFormed(src)
  {
    match AttackId(group)
    case None => Ok(None)
    case Some(attackId) => Record(src, group, attackId, Tables(src, group))
  }

  /** `process_single_group`. */
  method ProcessSingleGroup(src: Sources, group: StixObject) returns (r: Result<Option<GroupData>, BuildError>)
    requires WellFormed(src)
    ensures r == SingleGroup(src, group)
  {
    var attackId := GetAttackId(group);
    if !Truthy(attackId) {
      return Ok(None);
    }
    ghost var t := Tables(src, group);
    var referenceList := UpdateReferenceList(NewReferenceList(), group);
    var techniqueTableData, hasInherited, refs1 := GetTechniquesUsedByGroupData(src, group, referenceList);
    assert TechniqueTable(techniqueTableData, hasInherited, refs1) == t.techniques;
    if techniqueTableData.Err? {
      return Err(techniqueTableData.error);
    }
    var campaignData, addCampaignRef, refs2 := GetCampaignTableData(src, group, refs1);
    assert Table(campaignData, addCampaignRef, refs2) == t.campaigns;
    if campaignData.Err? {
      return Err(campaignData.error);
    }
    var softwareData, addSoftwareRef, refs3 := GetSoftwareTableData(src, group, refs2);
    assert Table(softwareData, addSoftwareRef, refs3) == t.software;
    if softwareData.Err? {
      return Err(softwareData.error);
    }
    var aliasDescriptions := None;
    if group.aliases.Some? && group.aliases.value != [] {
      if |group.aliases.value| > 1 {
        var rows := GetAliasData(group.aliases.value[1..], group.refs);
        aliasDescriptions := Some(rows);
      }
    }
    var aliasesList := if group.aliases.Some? then Some(Tail(group.aliases.value)) else None;
    assert aliasDescriptions ==
      if group.aliases.Some? && |group.aliases.value| > 1 then Some(AliasRows(Tail(group.aliases.value), group.refs)) else None;
    r := Ok(Some(GroupData(attackId.value, src.formatDate(group.created), src.formatDate(group.modified),
      if group.name != "" then Some(group.name) else None,
      if Truthy(group.version) then group.version else None, group.contributors,
      if Truthy(group.description) then group.description else None, group.deprecated,
      techniqueTableData.value, campaignData.value, addCampaignRef, softwareData.value, addSoftwareRef,
      aliasDescriptions, refs3, aliasesList)));
    assert r == Record(src, group, attackId.value, t);
  }

  /** The records of the groups' results, in order, leaving out the groups without a record; the first error wins. */
  function Collect(rs: seq<Result<Option<GroupData>, BuildError>>): Result<seq<GroupData>, BuildError> {
    if rs == [] then Ok([])
    else
      match Collect(rs[..|rs| - 1])
      case Err(e) => Err(e)
      case Ok(done) =>
        match rs[|rs| - 1]
        case Err(e) => Err(e)
        case Ok(None) => Ok(done)
        case Ok(Some(d)) => Ok(done + [d])
  }

  /** `ys` are `f(s, x)` for the first `|ys|` elements `x` of `xs`, in order. */
  ghost predicate MapsPrefix<S, A, B>(f: (S, A) -> B, s: S, xs: seq<A>, ys: seq<B>) {
    |ys| <= |xs| && forall i {:trigger f(s, xs[i])} :: 0 <= i < |ys| ==> ys[i] == f(s, xs[i])
  }

  lemma MapsPrefixSnoc<S, A, B>(f: (S, A) -> B, s: S, xs: seq<A>, ys: seq<B>, y: B)
    requires MapsPrefix(f, s, xs, ys) && |ys| < |xs| && y == f(s, xs[|ys|])
    ensures MapsPrefix(f, s, xs, ys + [y])
  {
  }

  /** The result of `process_single_group` on well-formed sources. */
  function GroupResult(src: Sources, group: StixObject): Result<Option<GroupData>, BuildError> {
    if WellFormed(src) then SingleGroup(src, group) else Err(MissingDomain)
  }

  /**
   * `r` is what collecting `rs`, the results of the groups processed so far,
   * gives, and processing only stops early at an error.
   */
  ghost predicate Processed(src: Sources, groups: seq<StixObject>, rs: seq<Result<Option<GroupData>, BuildError>>,
                            r: Result<seq<GroupData>, BuildError>) {
    MapsPrefix(GroupResult, src, groups, rs) && r == Collect(rs) && (|rs| < |groups| ==> r.Err?)
  }

  /**
   * `process_groups_data`: both arguments are required; deprecated and
   * revoked groups are left out, and the rest are processed in order until
   * one raises.
   */
  method ProcessGroupsData(groupList: Option<seq<StixObject>>, srcs: Option<Sources>) returns (r: Result<seq<GroupData>, BuildError>)
    requires srcs.Some? ==> WellFormed(srcs.value)
    ensures groupList.None? || srcs.None? ==> r == Err(NotImplemented)
    ensures groupList.Some? && srcs.Some? ==> exists rs :: Processed(srcs.value, Filter(groupList.value, Current), rs, r)
  {
    if groupList.None? || srcs.None? {
      return Err(NotImplemented);
    }
    var groupListClean := FilterDeprecatedRevoked(groupList.value);
    r := ProcessEach(srcs.value, groupListClean);
  }

  /** The loop of `process_groups_data` over the current groups. */
  method ProcessEach(src: Sources, groups: seq<StixObject>) returns (r: Result<seq<GroupData>, BuildError>)
    requires WellFormed(src)
    ensures exists rs :: Processed(src, groups, rs, r)
  {
    ghost var done: seq<Result<Option<GroupData>, BuildError>> := [];
    var processedGroups: seq<GroupData> := [];
    var i := 0;
    while i < |groups|
      invariant 0 <= i <= |groups|
      invariant |done| == i && MapsPrefix(GroupResult, src, groups, done)
      invariant Collect(done) == Ok(processedGroups)
    {
      var processed := ProcessSingleGroup(src, groups[i]);
      MapsPrefixSnoc(GroupResult, src, groups, done, processed);
      CollectSnoc(done, processed);
      done := done + [processed];
      if processed.Err? {
        assert Processed(src, groups, done, Err(processed.error));
        return Err(processed.error);
      }
      if processed.value.Some? {
        processedGroups := processedGroups + [processed.value.value];
      }
      i := i + 1;
    }
    r := Ok(processedGroups);
    assert Processed(src, groups, done, r);
  }

  lemma CollectSnoc(rs: seq<Result<Option<GroupData>, BuildError>>, x: Result<Option<GroupData>, BuildError>)
    requires Collect(rs).Ok?
    ensures Collect(rs + [x]) ==
      if x.Err? then Err(x.error) else if x.value.None? then Collect(rs) else Ok(Collect(rs).value + [x.value.value])
  {
    assert (rs + [x])[..|rs|] == rs;
  }

  /** Once a result raised, the results after it change nothing. */
  lemma {:induction false} CollectErrAppend(a: seq<Result<Option<GroupData>, BuildError>>, b: seq<Result<Option<GroupData>, BuildError>>)
    requires Collect(a).Err?
    ensures Collect(a + b) == Collect(a)
    decreases |b|
  {
    if b == [] {
      assert a + b == a;
    } else {
      assert (a + b)[..|a + b| - 1] == a + b[..|b| - 1];
      CollectErrAppend(a, b[..|b| - 1]);
    }
  }

  // Properties of the group records ---------------------------------------

  predicate IsRecord(r: Result<Option<GroupData>, BuildError>) {
    r.Ok? && r.value.Some?
  }

  /** Collecting fails exactly when some group's record raised. */
  lemma {:induction false} CollectOkIff(rs: seq<Result<Option<GroupData>, BuildError>>)
    ensures Collect(rs).Ok? <==> forall i :: 0 <= i < |rs| ==> rs[i].Ok?
  {
    if rs != [] {
      var init := rs[..|rs| - 1];
      CollectOkIff(init);
      assert forall i :: 0 <= i < |init| ==> init[i] == rs[i];
    }
  }

  /** A failed collection gives the error of the first result that raised. */
  lemma {:induction false} CollectFirstErr(rs: seq<Result<Option<GroupData>, BuildError>>) returns (i: int)
    requires Collect(rs).Err?
    ensures 0 <= i < |rs| && rs[i] == Err(Collect(rs).error) && forall j :: 0 <= j < i ==> rs[j].Ok?
  {
    var init := rs[..|rs| - 1];
    if Collect(init).Err? {
      i := CollectFirstErr(init);
      assert forall j :: 0 <= j <= i ==> init[j] == rs[j];
    } else {
      i := |rs| - 1;
      CollectOkIff(init);
      assert forall j :: 0 <= j < i ==> init[j] == rs[j];
    }
  }

  /** There is one record per group whose result is a record, each that group's own record. */
  lemma {:induction false} CollectRecords(rs: seq<Result<Option<GroupData>, BuildError>>)
    requires Collect(rs).Ok?
    ensures |Collect(rs).value| == |Filter(rs, IsRecord)|
    ensures forall k :: 0 <= k < |Collect(rs).value| ==> exists i :: 0 <= i < |rs| && rs[i] == Ok(Some(Collect(rs).value[k]))
  {
    if rs != [] {
      var init := rs[..|rs| - 1];
      CollectRecords(init);
      var done := Collect(init).value;
      forall k | 0 <= k < |done| ensures exists i :: 0 <= i < |rs| && rs[i] == Ok(Some(done[k])) {
        var i :| 0 <= i < |init| && init[i] == Ok(Some(done[k]));
        assert rs[i] == init[i];
      }
    }
  }

  /** When processing succeeds, every current group's record was computed without raising. */
  lemma ProcessedOk(src: Sources, groups: seq<StixObject>, rs: seq<Result<Option<GroupData>, BuildError>>,
                    r: Result<seq<GroupData>, BuildError>, i: int)
    requires WellFormed(src) && Processed(src, groups, rs, r) && r.Ok? && 0 <= i < |groups|
    ensures SingleGroup(src, groups[i]).Ok?
  {
    CollectOkIff(rs);
    assert rs[i] == GroupResult(src, groups[i]);
  }

  /** When processing raises, it is with the error of the first current group whose record raised. */
  lemma ProcessedErr(src: Sources, groups: seq<StixObject>, rs: seq<Result<Option<GroupData>, BuildError>>,
                     r: Result<seq<GroupData>, BuildError>)
    requires WellFormed(src) && Processed(src, groups, rs, r) && r.Err?
    ensures exists i ::
      0 <= i < |groups| && SingleGroup(src, groups[i]) == Err(r.error) && forall j :: 0 <= j < i ==> SingleGroup(src, groups[j]).Ok?
  {
    var i := CollectFirstErr(rs);
    assert rs[i] == GroupResult(src, groups[i]);
    forall j | 0 <= j < i ensures SingleGroup(src, groups[j]).Ok? {
      assert rs[j] == GroupResult(src, groups[j]);
    }
  }

  /** Each group of the result is the record of some current group, and there is one per group with a record. */
  lemma ProcessedRecord(src: Sources, groups: seq<StixObject>, rs: seq<Result<Option<GroupData>, BuildError>>,
                        r: Result<seq<GroupData>, BuildError>, k: int)
    requires WellFormed(src) && Processed(src, groups, rs, r) && r.Ok? && 0 <= k < |r.value|
    ensures |rs| == |groups| && |r.value| == |Filter(rs, IsRecord)|
    ensures exists i :: 0 <= i < |groups| && SingleGroup(src, groups[i]) == Ok(Some(r.value[k]))
  {
    CollectOkIff(rs);
    CollectRecords(rs);
    var i :| 0 <= i < |rs| && rs[i] == Ok(Some(r.value[k]));
    assert rs[i] == GroupResult(src, groups[i]);
  }

  /** The result of processing does not depend on how far processing went. */
  lemma ProcessedUnique(src: Sources, groups: seq<StixObject>, rs1: seq<Result<Option<GroupData>, BuildError>>,
                        r1: Result<seq<GroupData>, BuildError>, rs2: seq<Result<Option<GroupData>, BuildError>>,
                        r2: Result<seq<GroupData>, BuildError>)
    requires Processed(src, groups, rs1, r1) && Processed(src, groups, rs2, r2)
    ensures r1 == r2
  {
    if |rs1| <= |rs2| {
      PrefixCollect(src, groups, rs1, r1, rs2);
    } else {
      PrefixCollect(src, groups, rs2, r2, rs1);
    }
  }

  lemma PrefixCollect(src: Sources, groups: seq<StixObject>, rs1: seq<Result<Option<GroupData>, BuildError>>,
                      r1: Result<seq<GroupData>, BuildError>, rs2: seq<Result<Option<GroupData>, BuildError>>)
    requires Processed(src, groups, rs1, r1) && MapsPrefix(GroupResult, src, groups, rs2) && |rs1| <= |rs2|
    requires |rs2| < |groups| ==> Collect(rs2).Err?
    ensures Collect(rs2) == r1
  {
    forall k | 0 <= k < |rs1| ensures rs2[k] == rs1[k] {
      assert rs1[k] == GroupResult(src, groups[k]);
    }
    var rest := rs2[|rs1|..];
    assert rs2 == rs1 + rest;
    if rest == [] {
      assert rs2 == rs1;
    } else {
      assert r1.Err?;
      CollectErrAppend(rs1, rest);
    }
  }

  /**
   * A group record carries the group's ATT&CK id; `aliases_list` is every
   * alias but the first, and alias descriptions are there only for a group
   * with more than one alias.
   */
  lemma SingleGroupRecord(src: Sources, group: StixObject)
    requires WellFormed(src)
    ensures AttackId(group).None? ==> SingleGroup(src, group) == Ok(None)
    ensures var r := SingleGroup(src, group);
      r.Ok? && r.value.Some? ==>
        Some(r.value.value.attackId) == AttackId(group) &&
        (group.aliases.Some? ==> r.value.value.aliasesList == Some(Tail(group.aliases.value))) &&
        (group.aliases.None? ==> r.value.value.aliasesList.None?) &&
        (r.value.value.aliasDescriptions.Some? <==> group.aliases.Some? && |group.aliases.value| > 1)
  {
    match AttackId(group)
    case None =>
    case Some(attackId) => RecordShape(src, group, attackId, Tables(src, group));
  }

  /** The attributes of a record, whatever its tables. */
  lemma RecordShape(src: Sources, group: StixObject, attackId: string, t: GroupTables)
    ensures var r := Record(src, group, attackId, t);
      r.Ok? ==>
        r.value.Some? && r.value.value.attackId == attackId && r.value.value.citations == t.software.refs &&
        (group.aliases.Some? ==> r.value.value.aliasesList == Some(Tail(group.aliases.value))) &&
        (group.aliases.None? ==> r.value.value.aliasesList.None?) &&
        (r.value.value.aliasDescriptions.Some? <==> group.aliases.Some? && |group.aliases.value| > 1)
  {
  }

  /** The citations of a group record hold every cited reference of the group, as the group's own reference gave it. */
  lemma SingleGroupCitations(src: Sources, group: StixObject)
    requires WellFormed(src)
    ensures var r := SingleGroup(src, group);
      r.Ok? && r.value.Some? ==> Extends(r.value.value.citations, AddRefs(NewReferenceList(), group.refs))
  {
    if AttackId(group).Some? {
      TablesExtend(src, group);
      RecordShape(src, group, AttackId(group).value, Tables(src, group));
    }
  }

  lemma ExtendsTrans(a: ReferenceList, b: ReferenceList, c: ReferenceList)
    requires Extends(b, a) && Extends(c, b)
    ensures Extends(c, a)
  {
  }

  /** The three tables only add to the group's own citations. */
  lemma TablesExtend(src: Sources, group: StixObject)
    requires WellFormed(src)
    ensures Extends(Tables(src, group).software.refs, AddRefs(NewReferenceList(), group.refs))
  {
    var refs0 := AddRefs(NewReferenceList(), group.refs);
    var tt := TechniquesUsed(src, group, refs0);
    var ct := CampaignTable(src, group, tt.refs);
    TechniquesUsedExtends(src, group, refs0);
    CampaignTableExtends(src, group, tt.refs);
    SoftwareTableExtends(src, group, ct.refs);
    ExtendsTrans(refs0, tt.refs, ct.refs);
    ExtendsTrans(refs0, ct.refs, SoftwareTable(src, group, ct.refs).refs);
  }

  lemma CampaignTableExtends(src: Sources, group: StixObject, refs: ReferenceList)
    ensures Extends(CampaignTable(src, group, refs).refs, refs)
  {
    CampaignListExtends(src, TableAcc(EmptyMap(), refs, false), Related(src.rels.campaignsAttributedToGroup, group.stixId));
  }

  lemma {:induction false} UseAllExtends(src: Sources, acc: Acc, ts: seq<Usage>, inherited: bool)
    requires WellFormed(src)
    ensures Extends(UseAll(src, acc, ts, inherited).refs, acc.refs)
  {
    if ts != [] {
      var prev := UseAll(src, acc, ts[..|ts| - 1], inherited);
      UseAllExtends(src, acc, ts[..|ts| - 1], inherited);
      UseTechniqueExtends(src.lk, prev, ts[|ts| - 1], inherited);
    }
  }

  /** `technique_used_helper` only adds citations. */
  lemma UseTechniqueExtends(lk: Lookups, acc: Acc, technique: Usage, inherited: bool)
    requires ParentsHaveDomains(lk.techniqueToDomain)
    ensures Extends(UseTechnique(lk, acc, technique, inherited).refs, acc.refs)
  {
    RelationshipRefsExtends(acc.refs, technique.rel);
    AddRefsExtends(acc.refs, technique.rel.refs);
  }

  lemma {:induction false} UseCampaignsExtends(src: Sources, acc: Acc, cs: seq<Usage>)
    requires WellFormed(src)
    ensures Extends(UseCampaigns(src, acc, cs).refs, acc.refs)
  {
    if cs != [] {
      var prev := UseCampaigns(src, acc, cs[..|cs| - 1]);
      UseCampaignsExtends(src, acc, cs[..|cs| - 1]);
      UseAllExtends(src, prev, Related(src.rels.techniquesUsedByCampaigns, cs[|cs| - 1].obj.stixId), true);
    }
  }

  lemma TechniquesUsedExtends(src: Sources, group: StixObject, refs: ReferenceList)
    requires WellFormed(src)
    ensures Extends(TechniquesUsed(src, group, refs).refs, refs)
  {
    var acc0 := Acc(EmptyMap(), refs);
    var acc1 := UseAll(src, acc0, Related(src.rels.techniquesUsedByGroups, group.stixId), false);
    UseAllExtends(src, acc0, Related(src.rels.techniquesUsedByGroups, group.stixId), false);
    UseCampaignsExtends(src, acc1, Related(src.rels.campaignsAttributedToGroup, group.stixId));
  }

  lemma {:induction false} SoftwareOfPairingExtends(lk: Lookups, pairing: Pairing, acc: TableAcc<SoftwareRow>, ss: seq<Usage>)
    ensures Extends(SoftwareOfPairing(lk, pairing, acc, ss).refs, acc.refs)
  {
    if ss != [] {
      var prev := SoftwareOfPairing(lk, pairing, acc, ss[..|ss| - 1]);
      SoftwareOfPairingExtends(lk, pairing, acc, ss[..|ss| - 1]);
      RelationshipRefsExtends(prev.refs, ss[|ss| - 1].rel);
    }
  }

  lemma {:induction false} UpdateSoftwareExtends(lk: Lookups, acc: TableAcc<SoftwareRow>, pairings: seq<Pairing>, id: string)
    ensures Extends(UpdateSoftware(lk, acc, pairings, id).refs, acc.refs)
  {
    if pairings != [] {
      var last := pairings[|pairings| - 1];
      UpdateSoftwareExtends(lk, acc, pairings[..|pairings| - 1], id);
      SoftwareOfPairingExtends(lk, last, UpdateSoftware(lk, acc, pairings[..|pairings| - 1], id), Related(last.software, id));
    }
  }

  lemma {:induction false} SoftwareOfCampaignsExtends(lk: Lookups, rels: Relationships, acc: TableAcc<SoftwareRow>, cs: seq<Usage>)
    ensures Extends(SoftwareOfCampaigns(lk, rels, acc, cs).refs, acc.refs)
  {
    if cs != [] {
      var prev := SoftwareOfCampaigns(lk, rels, acc, cs[..|cs| - 1]);
      SoftwareOfCampaignsExtends(lk, rels, acc, cs[..|cs| - 1]);
      UpdateSoftwareExtends(lk, prev, CampaignPairings(rels), cs[|cs| - 1].obj.stixId);
    }
  }

  lemma SoftwareTableExtends(src: Sources, group: StixObject, refs: ReferenceList)
    ensures Extends(SoftwareTable(src, group, refs).refs, refs)
  {
    var acc0 := TableAcc(EmptyMap(), refs, false);
    var acc1 := UpdateSoftware(src.lk, acc0, GroupPairings(src.rels), group.stixId);
    UpdateSoftwareExtends(src.lk, acc0, GroupPairings(src.rels), group.stixId);
    SoftwareOfCampaignsExtends(src.lk, src.rels, acc1, Related(src.rels.campaignsAttributedToGroup, group.stixId));
  }
}
