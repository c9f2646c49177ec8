/**
 * The threat-group records that every dashboard reads: a map from ATT&CK
 * group id to a group, each group holding its technique table (techniques
 * with their sub-techniques), software and campaigns.
 *
 * The dashboards visit this data in one fixed order: each group in key
 * order, then each of its technique rows, each row followed by its
 * sub-techniques. `Walk` lists that visit as a sequence of events; the
 * aggregations are folds over it, and the imperative loops that compute them
 * are proved to follow it step by step.
 */
module Entities {
  import opened Wrappers
  import opened Collections

  /** A sub-technique entry of a technique row; `id` is the local part ("001"). */
  datatype SubTechnique = SubTechnique(id: string, name: string, descr: string, used: bool)

  /** A technique row: `used` is `technique_used`, `descr` is optional. */
  datatype Technique = Technique(
    id: string, name: string, descr: Option<string>, used: bool, subs: seq<SubTechnique>)

  predicate SubUsed(s: SubTechnique) { s.used }

  predicate TechniqueUsed(t: Technique) { t.used }

  /** A software entry; `techniques` is the Python tables' list of the techniques it is used for. */
  datatype Software = Software(id: string, name: string, description: Option<string>, techniques: seq<string>)

  datatype Campaign = Campaign(id: string, name: string, description: Option<string>)

  /**
   * A threat group. `software` and `campaigns` are optional in the JSON files;
   * `aliases` is the Python cache's `aliases_list`.
   */
  datatype Group = Group(
    attackId: string, name: string, descr: string, aliases: seq<string>,
    techniques: seq<Technique>, software: Option<seq<Software>>, campaigns: Option<seq<Campaign>>)
  {
    /** `group.software_data?.length || 0` and its Python counterpart. */
    function SoftwareList(): seq<Software> { software.GetOr([]) }
    function CampaignList(): seq<Campaign> { campaigns.GetOr([]) }
  }

  /** Groups keyed by ATT&CK group id, in insertion order. */
  type Groups = OMap<string, Group>

  /** One step of the dashboards' visit of the group data. */
  datatype Event =
    | Enter(g: Group)
    | Row(g: Group, t: Technique)
    | Sub(g: Group, t: Technique, s: SubTechnique)

  function WalkSubs(g: Group, t: Technique, ss: seq<SubTechnique>): (es: seq<Event>)
    ensures |es| == |ss|
    ensures forall i :: 0 <= i < |ss| ==> es[i] == Sub(g, t, ss[i])
  {
    seq(|ss|, i requires 0 <= i < |ss| => Sub(g, t, ss[i]))
  }

  /** A technique row followed by its sub-techniques. */
  function WalkTechnique(g: Group, t: Technique): seq<Event> {
    [Row(g, t)] + WalkSubs(g, t, t.subs)
  }

  function WalkTechniques(g: Group, ts: seq<Technique>): seq<Event> {
    if ts == [] then [] else WalkTechniques(g, ts[..|ts| - 1]) + WalkTechnique(g, ts[|ts| - 1])
  }

  function WalkGroup(g: Group): seq<Event> {
    [Enter(g)] + WalkTechniques(g, g.techniques)
  }

  /** The visit of a sequence of groups (the values of the group map, in order). */
  function Walk(gs: seq<Group>): seq<Event> {
    if gs == [] then [] else Walk(gs[..|gs| - 1]) + WalkGroup(gs[|gs| - 1])
  }

  lemma WalkSubsSnoc(g: Group, t: Technique, ss: seq<SubTechnique>, k: nat)
    requires k < |ss|
    ensures WalkSubs(g, t, ss[..k + 1]) == WalkSubs(g, t, ss[..k]) + [Sub(g, t, ss[k])]
  {
  }

  lemma WalkTechniquesSnoc(g: Group, ts: seq<Technique>, j: nat)
    requires j < |ts|
    ensures WalkTechniques(g, ts[..j + 1]) == WalkTechniques(g, ts[..j]) + WalkTechnique(g, ts[j])
  {
    PrefixSnoc(ts, j);
  }

  lemma WalkSnoc(gs: seq<Group>, i: nat)
    requires i < |gs|
    ensures Walk(gs[..i + 1]) == Walk(gs[..i]) + WalkGroup(gs[i])
  {
    PrefixSnoc(gs, i);
  }

  /** Every event of a walk belongs to one of the walked groups. */
  lemma {:induction false} WalkEventGroups(gs: seq<Group>, e: Event)
    requires e in Walk(gs)
    ensures e.g in gs
  {
    var init := gs[..|gs| - 1];
    if e in Walk(init) {
      WalkEventGroups(init, e);
    } else {
      WalkTechniquesGroup(gs[|gs| - 1], gs[|gs| - 1].techniques, e);
    }
  }

  lemma {:induction false} WalkTechniquesGroup(g: Group, ts: seq<Technique>, e: Event)
    requires e in [Enter(g)] + WalkTechniques(g, ts)
    ensures e.g == g
  {
    if e != Enter(g) && ts != [] {
      if e in WalkTechniques(g, ts[..|ts| - 1]) {
        WalkTechniquesGroup(g, ts[..|ts| - 1], e);
      }
    }
  }

  /** A walk contains the entry event of each walked group. */
  lemma {:induction false} WalkHasEnter(gs: seq<Group>, i: nat)
    requires i < |gs|
    ensures Enter(gs[i]) in Walk(gs)
  {
    if i < |gs| - 1 {
      WalkHasEnter(gs[..|gs| - 1], i);
    } else {
      assert WalkGroup(gs[i])[0] == Enter(gs[i]);
    }
  }

  /**
   * The key under which the loaders' matrices and counts record a row or a
   * sub-technique: the technique id, or `technique.id + "." + sub.id`, and
   * only when the ids involved are non-empty.
   */
  function MatrixKey(e: Event): Option<string> {
    match e
    case Enter(_) => None
    case Row(_, t) => if t.id != "" then Some(t.id) else None
    case Sub(_, t, s) => if t.id != "" && s.id != "" then Some(t.id + "." + s.id) else None
  }

  /** The `technique_used` flag of a row or sub-technique event. */
  function EventUsed(e: Event): bool {
    match e
    case Enter(_) => false
    case Row(_, t) => t.used
    case Sub(_, _, s) => s.used
  }

  /** The last event of `es` recorded under key `k`. */
  function LastKeyed(es: seq<Event>, k: string): (r: Option<Event>)
    ensures r.Some? ==> r.value in es && MatrixKey(r.value) == Some(k)
    ensures r.None? <==> forall e :: e in es ==> MatrixKey(e) != Some(k)
  {
    if es == [] then None
    else if MatrixKey(es[|es| - 1]) == Some(k) then Some(es[|es| - 1])
    else
      var r := LastKeyed(es[..|es| - 1], k);
      assert forall e :: e in es ==> e in es[..|es| - 1] || e == es[|es| - 1];
      r
  }
}
