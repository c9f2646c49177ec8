/**
 * The tactic tables of the dashboards: the Next.js matrix's list of the
 * twelve tactics and its id-to-tactic classifier, and the Python dashboard's
 * `tactics_map` with its "TA" + digits rule. The two tactic tables give
 * TA0010 and TA0011 each other's names.
 */
module Tactics {
  import opened Wrappers
  import opened Strings

  /** `MITRE_TACTICS` of the matrix dashboard: (tactic id, tactic name), in display order. */
  const MitreTactics: seq<(string, string)> := [
    ("TA0001", "Initial Access"), ("TA0002", "Execution"), ("TA0003", "Persistence"),
    ("TA0004", "Privilege Escalation"), ("TA0005", "Defense Evasion"), ("TA0006", "Credential Access"),
    ("TA0007", "Discovery"), ("TA0008", "Lateral Movement"), ("TA0009", "Collection"),
    ("TA0010", "Command and Control"), ("TA0011", "Exfiltration"), ("TA0040", "Impact")]

  /** The names of `MITRE_TACTICS`, in order. */
  function TacticNames(): (ns: seq<string>)
    ensures |ns| == |MitreTactics|
    ensures forall i :: 0 <= i < |ns| ==> ns[i] == MitreTactics[i].1
  {
    seq(|MitreTactics|, i requires 0 <= i < |MitreTactics| => MitreTactics[i].1)
  }

  /** The classifier's table of base technique ids, in its literal order (no key repeats). */
  const TacticMappings: seq<(string, string)> := [
    ("T1566", "Initial Access"), ("T1078", "Initial Access"), ("T1190", "Initial Access"),
    ("T1059", "Execution"), ("T1053", "Execution"), ("T1204", "Execution"),
    ("T1547", "Persistence"), ("T1543", "Persistence"), ("T1136", "Persistence"),
    ("T1055", "Privilege Escalation"), ("T1134", "Privilege Escalation"),
    ("T1027", "Defense Evasion"), ("T1036", "Defense Evasion"), ("T1070", "Defense Evasion"),
    ("T1003", "Credential Access"), ("T1110", "Credential Access"), ("T1552", "Credential Access"),
    ("T1087", "Discovery"), ("T1083", "Discovery"), ("T1057", "Discovery"),
    ("T1021", "Lateral Movement"), ("T1210", "Lateral Movement"), ("T1550", "Lateral Movement"),
    ("T1005", "Collection"), ("T1039", "Collection"), ("T1113", "Collection"),
    ("T1071", "Command and Control"), ("T1090", "Command and Control"), ("T1573", "Command and Control"),
    ("T1041", "Exfiltration"), ("T1048", "Exfiltration"), ("T1567", "Exfiltration"),
    ("T1485", "Impact"), ("T1486", "Impact"), ("T1490", "Impact")]

  /** Dictionary lookup in a table of (key, value) pairs. */
  function Lookup(tbl: seq<(string, string)>, k: string): (r: Option<string>)
    ensures r.Some? ==> exists i :: 0 <= i < |tbl| && tbl[i] == (k, r.value)
    ensures r.None? <==> forall i :: 0 <= i < |tbl| ==> tbl[i].0 != k
  {
    if tbl == [] then None
    else if tbl[0].0 == k then Some(tbl[0].1)
    else
      var r := Lookup(tbl[1..], k);
      assert forall i :: 1 <= i < |tbl| ==> tbl[i] == tbl[1..][i - 1];
      r
  }

  /** `getTacticFromTechniqueId`: the table entry of the id before its first '.', else "Discovery". */
  function TacticFromTechniqueId(id: string): (r: string)
    ensures r in TacticNames()
    ensures Lookup(TacticMappings, BeforeFirst(id, '.')).None? ==> r == "Discovery"
    ensures Lookup(TacticMappings, BeforeFirst(id, '.')).Some? ==> r == Lookup(TacticMappings, BeforeFirst(id, '.')).value
  {
    MappingsAreTactics();
    LookupIn(TacticMappings, BeforeFirst(id, '.'), TacticNames());
    DiscoveryIsTactic();
    match Lookup(TacticMappings, BeforeFirst(id, '.'))
    case Some(name) => name
    case None => "Discovery"
  }

  /** A value found in a table whose values all lie in `names` lies in `names`. */
  lemma LookupIn(tbl: seq<(string, string)>, k: string, names: seq<string>)
    requires forall i :: 0 <= i < |tbl| ==> tbl[i].1 in names
    ensures Lookup(tbl, k).Some? ==> Lookup(tbl, k).value in names
  {
  }

  lemma DiscoveryIsTactic()
    ensures "Discovery" in TacticNames()
  {
    assert TacticNames()[6] == "Discovery";
  }

  /** Every name in the classifier's table is one of the twelve tactics. */
  lemma MappingsAreTactics()
    ensures forall i :: 0 <= i < |TacticMappings| ==> TacticMappings[i].1 in TacticNames()
  {
    var ns := TacticNames();
    assert ns == ["Initial Access", "Execution", "Persistence", "Privilege Escalation",
                  "Defense Evasion", "Credential Access", "Discovery", "Lateral Movement",
                  "Collection", "Command and Control", "Exfiltration", "Impact"];
  }

  /** The twelve tactic names are pairwise different. */
  lemma TacticNamesDistinct()
    ensures forall i, j :: 0 <= i < j < |TacticNames()| ==> TacticNames()[i] != TacticNames()[j]
  {
    var ns := TacticNames();
    assert ns == ["Initial Access", "Execution", "Persistence", "Privilege Escalation",
                  "Defense Evasion", "Credential Access", "Discovery", "Lateral Movement",
                  "Collection", "Command and Control", "Exfiltration", "Impact"];
  }

  /** A sub-technique is classified as its parent: only the part before the first '.' counts. */
  lemma ClassifyIgnoresSubId(parent: string, sub: string)
    ensures TacticFromTechniqueId(parent + "." + sub) == TacticFromTechniqueId(parent)
  {
    BeforeFirstOfAppended(parent, '.', sub);
    assert parent + "." + sub == parent + ['.'] + sub;
  }

  /** `tactics_map` of the Python dashboard's coverage statistics, in its literal order. */
  const PythonTactics: seq<(string, string)> := [
    ("TA0001", "Initial Access"), ("TA0002", "Execution"), ("TA0003", "Persistence"),
    ("TA0004", "Privilege Escalation"), ("TA0005", "Defense Evasion"), ("TA0006", "Credential Access"),
    ("TA0007", "Discovery"), ("TA0008", "Lateral Movement"), ("TA0009", "Collection"),
    ("TA0010", "Exfiltration"), ("TA0011", "Command and Control"), ("TA0040", "Impact")]

  /**
   * The two tactic tables list the same twelve ids in the same order and
   * agree on every name except those of TA0010 and TA0011, which are exchanged.
   */
  lemma TacticTablesSwapTwoNames()
    ensures |PythonTactics| == |MitreTactics|
    ensures forall i :: 0 <= i < |MitreTactics| ==> PythonTactics[i].0 == MitreTactics[i].0
    ensures forall i :: 0 <= i < |MitreTactics| && i != 9 && i != 10 ==> PythonTactics[i].1 == MitreTactics[i].1
    ensures MitreTactics[9].0 == "TA0010" && MitreTactics[10].0 == "TA0011"
    ensures PythonTactics[9].1 == MitreTactics[10].1 && PythonTactics[10].1 == MitreTactics[9].1
    ensures MitreTactics[9].1 != MitreTactics[10].1
  {
  }

  /**
   * The Python rule: "TA" + `tech_id[1:5]` for an id starting with 'T',
   * kept only when it is a key of `tactics_map`; the result is its name.
   */
  function PythonTactic(id: string): (r: Option<string>)
    ensures r.Some? ==> |id| > 0 && id[0] == 'T' && Lookup(PythonTactics, "TA" + Take(id[1..], 4)) == r
    ensures |id| > 0 && id[0] == 'T' && Lookup(PythonTactics, "TA" + Take(id[1..], 4)).Some? ==> r.Some?
  {
    if |id| > 0 && id[0] == 'T' then Lookup(PythonTactics, "TA" + Take(id[1..], 4)) else None
  }

  lemma PythonTacticExample()
    ensures PythonTactic("T0001.001") == Some("Initial Access")
  {
    assert "T0001.001"[1..] == "0001.001";
    assert Take("0001.001", 4) == "0001";
    assert "TA" + "0001" == "TA0001";
  }
}
