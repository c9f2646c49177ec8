/**
 * The technique index of the TTP matrix dashboard: one entry per technique
 * id and per `parent.sub` id, created at the first occurrence (first-seen
 * name, description and tactic) and then updated at every occurrence with a
 * usage fact of the group it came from. Unlike the data loader, the index
 * does not skip empty ids.
 */
module TtpIndex {
  import opened Wrappers
  import opened Strings
  import opened Collections
  import opened Entities
  import opened Tactics
  import opened Numbers

  /** One `usedByGroups` element. */
  datatype UsageFact = UsageFact(groupId: string, groupName: string, used: bool)

  /** A `TechniqueWithGroups`. */
  datatype Entry = Entry(
    id: string, name: string, description: string, tactic: string,
    usedByGroups: seq<UsageFact>, totalGroups: nat, activeGroups: nat)

  type Index = OMap<string, Entry>

  /** The index key of a row (its id, even when empty) or of a sub-technique (`technique.id + "." + sub.id`). */
  function IndexKey(e: Event): Option<string> {
    match e
    case Enter(_) => None
    case Row(_, t) => Some(t.id)
    case Sub(_, t, s) => Some(t.id + "." + s.id)
  }

  /** The entry created at the first occurrence of a key; a sub-technique takes its parent's tactic. */
  function NewEntry(cls: string -> string, e: Event): Entry
    requires !e.Enter?
  {
    match e
    case Row(_, t) => Entry(t.id, t.name, t.descr.GetOr(""), cls(t.id), [], 0, 0)
    case Sub(_, t, s) => Entry(t.id + "." + s.id, s.name, s.descr, cls(t.id), [], 0, 0)
  }

  /** Rows and their sub-techniques both take the tactic of the row's id. */
  lemma NewEntryTactic(cls: string -> string, e: Event)
    requires !e.Enter?
    ensures NewEntry(cls, e).tactic == cls(e.t.id)
  {
  }

  function Fact(e: Event): UsageFact {
    UsageFact(e.g.attackId, e.g.name, EventUsed(e))
  }

  /** `push` of a fact, `totalGroups++`, and `activeGroups++` when it is used. */
  function Record(x: Entry, f: UsageFact): Entry {
    x.(usedByGroups := x.usedByGroups + [f], totalGroups := x.totalGroups + 1,
       activeGroups := if f.used then x.activeGroups + 1 else x.activeGroups)
  }

  function IndexStep(cls: string -> string, a: Index, e: Event): Index {
    match IndexKey(e)
    case None => a
    case Some(k) =>
      var a1 := if k in a.vals then a else a.Put(k, NewEntry(cls, e));
      a1.Put(k, Record(a1.vals[k], Fact(e)))
  }

  function IndexFrom(cls: string -> string, a: Index, es: seq<Event>): Index {
    if es == [] then a else IndexStep(cls, IndexFrom(cls, a, es[..|es| - 1]), es[|es| - 1])
  }

  function IndexOf(m: Groups): Index
    requires m.Valid()
  {
    IndexFrom(TacticFromTechniqueId, EmptyMap(), Walk(m.Values()))
  }

  lemma IndexSnoc(cls: string -> string, a: Index, es: seq<Event>, e: Event)
    ensures IndexFrom(cls, a, es + [e]) == IndexStep(cls, IndexFrom(cls, a, es), e)
  {
    assert (es + [e])[..|es|] == es;
  }

  lemma {:induction false} IndexFromConcat(cls: string -> string, a: Index, p: seq<Event>, q: seq<Event>)
    ensures IndexFrom(cls, a, p + q) == IndexFrom(cls, IndexFrom(cls, a, p), q)
    decreases |q|
  {
    if q == [] {
      ConcatNil(p);
    } else {
      IndexFromConcat(cls, a, p, q[..|q| - 1]);
      ConcatLast(p, q);
    }
  }

  /** The `allTechniques` memo: the index's entries in first-seen order. */
  method AllTechniques(m: Groups) returns (r: seq<Entry>)
    requires m.Valid()
    ensures IndexOf(m).Valid() && r == IndexOf(m).Values()
  {
    var gs := m.Values();
    var a: Index := EmptyMap();
    var i := 0;
    while i < |gs|
      invariant 0 <= i <= |gs|
      invariant a == IndexFrom(TacticFromTechniqueId, EmptyMap(), Walk(gs[..i]))
    {
      a := IndexGroup(TacticFromTechniqueId, a, gs[i]);
      WalkSnoc(gs, i);
      IndexFromConcat(TacticFromTechniqueId, EmptyMap(), Walk(gs[..i]), WalkGroup(gs[i]));
      i := i + 1;
    }
    assert gs[..i] == gs;
    IndexValid(TacticFromTechniqueId, EmptyMap(), Walk(gs));
    r := a.Values();
  }

  /** The body of the `forEach` over the groups; `cls` is the tactic classifier. */
  method IndexGroup(cls: string -> string, a: Index, g: Group) returns (b: Index)
    ensures b == IndexFrom(cls, a, WalkGroup(g))
  {
    b := a;
    IndexSnoc(cls, a, [], Enter(g));
    assert [] + [Enter(g)] == [Enter(g)];
    var j := 0;
    while j < |g.techniques|
      invariant 0 <= j <= |g.techniques|
      invariant b == IndexFrom(cls, a, [Enter(g)] + WalkTechniques(g, g.techniques[..j]))
    {
      b := IndexTechnique(cls, b, g, g.techniques[j]);
      IndexRowsSnoc(cls, a, g, j);
      j := j + 1;
    }
    assert g.techniques[..j] == g.techniques;
  }

  lemma IndexRowsSnoc(cls: string -> string, a: Index, g: Group, j: nat)
    requires j < |g.techniques|
    ensures IndexFrom(cls, a, [Enter(g)] + WalkTechniques(g, g.techniques[..j + 1]))
         == IndexFrom(cls, IndexFrom(cls, a, [Enter(g)] + WalkTechniques(g, g.techniques[..j])), WalkTechnique(g, g.techniques[j]))
  {
    var p := [Enter(g)] + WalkTechniques(g, g.techniques[..j]);
    var q := WalkTechnique(g, g.techniques[j]);
    WalkTechniquesSnoc(g, g.techniques, j);
    assert [Enter(g)] + WalkTechniques(g, g.techniques[..j + 1]) == p + q;
    IndexFromConcat(cls, a, p, q);
  }

  /** The main technique, then each of its sub-techniques. */
  method IndexTechnique(cls: string -> string, a: Index, g: Group, t: Technique) returns (b: Index)
    ensures b == IndexFrom(cls, a, WalkTechnique(g, t))
  {
    b := Visit(cls, a, Row(g, t));
    IndexSnoc(cls, a, [], Row(g, t));
    assert [] + [Row(g, t)] == [Row(g, t)];
    var k := 0;
    while k < |t.subs|
      invariant 0 <= k <= |t.subs|
      invariant b == IndexFrom(cls, a, [Row(g, t)] + WalkSubs(g, t, t.subs[..k]))
    {
      IndexSubsSnoc(cls, a, g, t, k);
      b := Visit(cls, b, Sub(g, t, t.subs[k]));
      k := k + 1;
    }
    assert t.subs[..k] == t.subs;
  }

  lemma IndexSubsSnoc(cls: string -> string, a: Index, g: Group, t: Technique, k: nat)
    requires k < |t.subs|
    ensures IndexFrom(cls, a, [Row(g, t)] + WalkSubs(g, t, t.subs[..k + 1]))
         == IndexStep(cls, IndexFrom(cls, a, [Row(g, t)] + WalkSubs(g, t, t.subs[..k])), Sub(g, t, t.subs[k]))
  {
    var p := [Row(g, t)] + WalkSubs(g, t, t.subs[..k]);
    WalkSubsSnoc(g, t, t.subs, k);
    assert [Row(g, t)] + WalkSubs(g, t, t.subs[..k + 1]) == p + [Sub(g, t, t.subs[k])];
    IndexSnoc(cls, a, p, Sub(g, t, t.subs[k]));
  }

  /** One occurrence: create the entry if the key is new, then record the group's fact. */
  method Visit(cls: string -> string, a: Index, e: Event) returns (b: Index)
    requires !e.Enter?
    ensures b == IndexStep(cls, a, e)
  {
    var key := IndexKey(e).value;
    b := a;
    if key !in b.vals {
      b := b.Put(key, NewEntry(cls, e));
    }
    var data := b.vals[key];
    var fact := Fact(e);
    data := data.(usedByGroups := data.usedByGroups + [fact], totalGroups := data.totalGroups + 1);
    if fact.used {
      data := data.(activeGroups := data.activeGroups + 1);
    }
    b := b.Put(key, data);
  }

  // ---------------------------------------------------------------------
  // Reference definitions and properties
  // ---------------------------------------------------------------------

  lemma {:induction false} IndexValid(cls: string -> string, a: Index, es: seq<Event>)
    requires a.Valid()
    ensures IndexFrom(cls, a, es).Valid()
  {
    if es != [] {
      IndexValid(cls, a, es[..|es| - 1]);
    }
  }

  /** The first occurrence of key `k`. */
  function FirstIndexed(es: seq<Event>, k: string): (r: Option<Event>)
    ensures r.Some? ==> r.value in es && IndexKey(r.value) == Some(k)
    ensures r.None? <==> forall e :: e in es ==> IndexKey(e) != Some(k)
  {
    if es == [] then None
    else
      var r := FirstIndexed(es[..|es| - 1], k);
      assert forall e :: e in es ==> e in es[..|es| - 1] || e == es[|es| - 1];
      if r.Some? then r
      else if IndexKey(es[|es| - 1]) == Some(k) then Some(es[|es| - 1])
      else None
  }

  /** The usage facts of every occurrence of key `k`, in visit order. */
  function FactsOf(es: seq<Event>, k: string): seq<UsageFact> {
    if es == [] then []
    else FactsOf(es[..|es| - 1], k) + (if IndexKey(es[|es| - 1]) == Some(k) then [Fact(es[|es| - 1])] else [])
  }

  function ActiveCount(fs: seq<UsageFact>): (n: nat)
    ensures n <= |fs|
  {
    if fs == [] then 0 else ActiveCount(fs[..|fs| - 1]) + (if fs[|fs| - 1].used then 1 else 0)
  }

  /** The entry the index should hold for key `k` after the events `es`. */
  function ExpectedEntry(cls: string -> string, es: seq<Event>, k: string): Option<Entry> {
    match FirstIndexed(es, k)
    case None => None
    case Some(e0) =>
      Some(WithFacts(NewEntry(cls, e0), FactsOf(es, k)))
  }

  /** An entry whose facts are `fs`, with the counters those facts give. */
  function WithFacts(x: Entry, fs: seq<UsageFact>): Entry {
    x.(usedByGroups := fs, totalGroups := |fs|, activeGroups := ActiveCount(fs))
  }

  lemma RecordWithFacts(x: Entry, fs: seq<UsageFact>, f: UsageFact)
    ensures Record(WithFacts(x, fs), f) == WithFacts(x, fs + [f])
  {
    ActiveCountSnoc(fs, f);
  }

  /** How one occurrence changes the entry of a key. */
  lemma StepEntry(cls: string -> string, a: Index, e: Event, k: string)
    ensures IndexStep(cls, a, e).Get(k) ==
      if IndexKey(e) == Some(k) then Some(Record(if k in a.vals then a.vals[k] else NewEntry(cls, e), Fact(e)))
      else a.Get(k)
  {
  }

  lemma ActiveCountSnoc(fs: seq<UsageFact>, f: UsageFact)
    ensures ActiveCount(fs + [f]) == ActiveCount(fs) + (if f.used then 1 else 0)
  {
    assert (fs + [f])[..|fs|] == fs;
  }

  /**
   * The entry of a key: descriptive fields from its first occurrence, the
   * facts of all its occurrences, `totalGroups` their number and
   * `activeGroups` the number of used ones; no entry for a key that never occurs.
   */
  lemma {:induction false} EntryOfKey(cls: string -> string, es: seq<Event>, k: string)
    ensures IndexFrom(cls, EmptyMap(), es).Get(k) == ExpectedEntry(cls, es, k)
  {
    if es != [] {
      var init, e := es[..|es| - 1], es[|es| - 1];
      EntryOfKey(cls, init, k);
      if IndexKey(e) == Some(k) {
        EntryStepHit(cls, es, k);
      } else {
        EntryStepMiss(cls, es, k);
      }
    }
  }

  /** An occurrence of the key: created from it if new, and its fact recorded. */
  lemma EntryStepHit(cls: string -> string, es: seq<Event>, k: string)
    requires es != [] && IndexKey(es[|es| - 1]) == Some(k)
    requires IndexFrom(cls, EmptyMap(), es[..|es| - 1]).Get(k) == ExpectedEntry(cls, es[..|es| - 1], k)
    ensures IndexFrom(cls, EmptyMap(), es).Get(k) == ExpectedEntry(cls, es, k)
  {
    var init, e := es[..|es| - 1], es[|es| - 1];
    var a := IndexFrom(cls, EmptyMap(), init);
    StepEntry(cls, a, e, k);
    if FirstIndexed(init, k).None? {
      FirstOccurrence(cls, es, k);
      RecordWithFacts(NewEntry(cls, e), [], Fact(e));
      assert [] + [Fact(e)] == [Fact(e)];
      assert NewEntry(cls, e) == WithFacts(NewEntry(cls, e), []);
    } else {
      var e0 := FirstIndexed(init, k).value;
      assert FirstIndexed(es, k) == Some(e0);
      assert FactsOf(es, k) == FactsOf(init, k) + [Fact(e)];
      RecordWithFacts(NewEntry(cls, e0), FactsOf(init, k), Fact(e));
    }
  }

  /** The first occurrence of a key creates its entry with a single fact. */
  lemma FirstOccurrence(cls: string -> string, es: seq<Event>, k: string)
    requires es != [] && IndexKey(es[|es| - 1]) == Some(k)
    requires FirstIndexed(es[..|es| - 1], k).None?
    ensures FirstIndexed(es, k) == Some(es[|es| - 1])
    ensures FactsOf(es, k) == [Fact(es[|es| - 1])]
  {
    var init, e := es[..|es| - 1], es[|es| - 1];
    FactsOfAbsent(init, k);
    assert [] + [Fact(e)] == [Fact(e)];
  }

  /** An occurrence of another key leaves the entry alone. */
  lemma EntryStepMiss(cls: string -> string, es: seq<Event>, k: string)
    requires es != [] && IndexKey(es[|es| - 1]) != Some(k)
    requires IndexFrom(cls, EmptyMap(), es[..|es| - 1]).Get(k) == ExpectedEntry(cls, es[..|es| - 1], k)
    ensures IndexFrom(cls, EmptyMap(), es).Get(k) == ExpectedEntry(cls, es, k)
  {
    var init, e := es[..|es| - 1], es[|es| - 1];
    StepEntry(cls, IndexFrom(cls, EmptyMap(), init), e, k);
    assert FirstIndexed(es, k) == FirstIndexed(init, k);
    assert FactsOf(es, k) == FactsOf(init, k);
  }

  lemma {:induction false} FactsOfAbsent(es: seq<Event>, k: string)
    requires forall e :: e in es ==> IndexKey(e) != Some(k)
    ensures FactsOf(es, k) == []
  {
    if es != [] {
      assert es[|es| - 1] in es;
      FactsOfAbsent(es[..|es| - 1], k);
    }
  }

  /** The counters of every entry: `totalGroups == |usedByGroups|` and `activeGroups <= totalGroups`. */
  lemma EntryCounters(m: Groups, k: string)
    requires m.Valid()
    requires k in IndexOf(m).vals
    ensures var x := IndexOf(m).vals[k];
      x.totalGroups == |x.usedByGroups| && x.activeGroups == ActiveCount(x.usedByGroups) &&
      x.activeGroups <= x.totalGroups
  {
    EntryOfKey(TacticFromTechniqueId, Walk(m.Values()), k);
  }

  /** The key sequence of the visited rows and sub-techniques, repetitions included. */
  function KeysVisited(es: seq<Event>): seq<string> {
    if es == [] then []
    else KeysVisited(es[..|es| - 1]) + (match IndexKey(es[|es| - 1]) case None => [] case Some(k) => [k])
  }

  function Same(k: string): string { k }

  /** How one occurrence changes the key order: a new key goes last. */
  lemma StepKeys(cls: string -> string, a: Index, e: Event)
    ensures IndexKey(e).None? ==> IndexStep(cls, a, e) == a
    ensures IndexKey(e).Some? ==>
      var k := IndexKey(e).value;
      IndexStep(cls, a, e).keys == (if k in a.vals then a.keys else a.keys + [k]) &&
      IndexStep(cls, a, e).vals.Keys == a.vals.Keys + {k}
  {
  }

  lemma DedupSameSnoc(ks: seq<string>, k: string)
    ensures KeySet(ks + [k], Same) == KeySet(ks, Same) + {k}
    ensures DedupBy(ks + [k], Same) == if k in KeySet(ks, Same) then DedupBy(ks, Same) else DedupBy(ks, Same) + [k]
  {
    assert (ks + [k])[..|ks|] == ks;
    DedupByProperties(ks, Same);
  }

  /** Entries come out in first-seen order: the keys are the visited keys with later repetitions dropped. */
  lemma {:induction false} KeysInFirstSeenOrder(cls: string -> string, es: seq<Event>)
    ensures IndexFrom(cls, EmptyMap(), es).keys == DedupBy(KeysVisited(es), Same)
    ensures IndexFrom(cls, EmptyMap(), es).vals.Keys == KeySet(KeysVisited(es), Same)
  {
    if es != [] {
      var init, e := es[..|es| - 1], es[|es| - 1];
      KeysInFirstSeenOrder(cls, init);
      StepKeys(cls, IndexFrom(cls, EmptyMap(), init), e);
      var ks := KeysVisited(init);
      if IndexKey(e).Some? {
        var k := IndexKey(e).value;
        assert KeysVisited(es) == ks + [k];
        DedupSameSnoc(ks, k);
      } else {
        assert KeysVisited(es) == ks;
      }
    }
  }

  /** Empty ids are kept: a row whose id is empty gets the entry keyed "". */
  lemma EmptyIdsKept(cls: string -> string, es: seq<Event>, g: Group, t: Technique)
    requires Row(g, t) in es && t.id == ""
    ensures "" in IndexFrom(cls, EmptyMap(), es).vals
  {
    EntryOfKey(cls, es, "");
  }

  // ---------------------------------------------------------------------
  // filteredTechniques
  // ---------------------------------------------------------------------

  /** The tactic filter: `'all'` or one tactic name. */
  datatype TacticChoice = All | Only(tactic: string)

  /** One index entry passes the search text, the tactic choice and the active-only switch. */
  predicate Matches(x: Entry, term: string, choice: TacticChoice, activeOnly: bool) {
    var q := Lower(term);
    (Contains(Lower(x.name), q) || Contains(Lower(x.id), q) || Contains(Lower(x.description), q)) &&
    (choice.All? || x.tactic == choice.tactic) &&
    (!activeOnly || x.activeGroups > 0)
  }

  function FilteredTechniques(xs: seq<Entry>, term: string, choice: TacticChoice, activeOnly: bool): (r: seq<Entry>)
    ensures IsSubsequence(r, xs)
    ensures forall i :: 0 <= i < |r| ==> Matches(r[i], term, choice, activeOnly)
  {
    FilterIsSubsequence(xs, (x: Entry) => Matches(x, term, choice, activeOnly));
    Filter(xs, (x: Entry) => Matches(x, term, choice, activeOnly))
  }

  /** No search text, every tactic and active-only off: the whole index. */
  lemma FilterNothing(xs: seq<Entry>)
    ensures FilteredTechniques(xs, "", All, false) == xs
  {
    forall i | 0 <= i < |xs| ensures Matches(xs[i], "", All, false) {
      EmptyContained(Lower(xs[i].name));
    }
    FilterAll(xs, (x: Entry) => Matches(x, "", All, false));
  }

  /** An entry passes exactly when it matches. */
  lemma {:induction false} FilteredMembers(xs: seq<Entry>, term: string, choice: TacticChoice, activeOnly: bool, x: Entry)
    ensures x in FilteredTechniques(xs, term, choice, activeOnly) <==> x in xs && Matches(x, term, choice, activeOnly)
  {
    FilterMembers(xs, (x0: Entry) => Matches(x0, term, choice, activeOnly), x);
  }

  // ---------------------------------------------------------------------
  // techniquesByTactic and tacticStats
  // ---------------------------------------------------------------------

  type Buckets = OMap<string, seq<Entry>>

  function BucketOf(a: Buckets, t: string): seq<Entry> { a.Get(t).GetOr([]) }

  function PartitionFrom(xs: seq<Entry>): Buckets {
    if xs == [] then EmptyMap()
    else
      var a := PartitionFrom(xs[..|xs| - 1]);
      var x := xs[|xs| - 1];
      a.Put(x.tactic, BucketOf(a, x.tactic) + [x])
  }

  lemma PartitionSnoc(xs: seq<Entry>, i: nat)
    requires i < |xs|
    ensures var a := PartitionFrom(xs[..i]);
      PartitionFrom(xs[..i + 1]) == a.Put(xs[i].tactic, BucketOf(a, xs[i].tactic) + [xs[i]])
  {
    PrefixSnoc(xs, i);
  }

  /** `techniquesByTactic`: the filtered entries grouped by tactic, in order. */
  method TechniquesByTactic(xs: seq<Entry>) returns (grouped: Buckets)
    ensures grouped == PartitionFrom(xs)
  {
    grouped := EmptyMap();
    var i := 0;
    while i < |xs|
      invariant 0 <= i <= |xs|
      invariant grouped == PartitionFrom(xs[..i])
    {
      var x := xs[i];
      var tactic := x.tactic;
      ghost var before := grouped;
      if tactic !in grouped.vals {
        grouped := grouped.Put(tactic, []);
        PutPut(before, tactic, [], [] + [x]);
      }
      grouped := grouped.Put(tactic, grouped.vals[tactic] + [x]);
      PartitionSnoc(xs, i);
      i := i + 1;
    }
    assert xs[..i] == xs;
  }

  function HasTactic(t: string): Entry -> bool { (x: Entry) => x.tactic == t }

  /** Each bucket holds exactly the entries of its tactic, in their order. */
  lemma {:induction false} BucketsAreFilters(xs: seq<Entry>, t: string)
    ensures PartitionFrom(xs).Valid()
    ensures BucketOf(PartitionFrom(xs), t) == Filter(xs, HasTactic(t))
  {
    if xs != [] {
      var init, x := xs[..|xs| - 1], xs[|xs| - 1];
      BucketsAreFilters(init, t);
      assert init + [x] == xs;
      FilterSnoc(init, x, HasTactic(t));
    }
  }

  /** There is a bucket exactly for each tactic present. */
  lemma {:induction false} BucketKeys(xs: seq<Entry>, t: string)
    ensures t in PartitionFrom(xs).vals <==> exists i :: 0 <= i < |xs| && xs[i].tactic == t
  {
    if xs != [] {
      var init := xs[..|xs| - 1];
      BucketKeys(init, t);
      assert forall i :: 0 <= i < |init| ==> init[i] == xs[i];
    }
  }

  /** Number of entries among `xs` whose tactic is `t`. */
  function CountTactic(xs: seq<Entry>, t: string): nat {
    |Filter(xs, HasTactic(t))|
  }

  /** Sum, over a list of tactic names, of the bucket sizes. */
  function SumCounts(xs: seq<Entry>, names: seq<string>): nat {
    if names == [] then 0 else SumCounts(xs, names[..|names| - 1]) + CountTactic(xs, names[|names| - 1])
  }

  /** When every entry's tactic is one of the distinct `names`, the buckets together hold all entries. */
  lemma {:induction false} BucketSizesSum(xs: seq<Entry>, names: seq<string>)
    requires forall i, j :: 0 <= i < j < |names| ==> names[i] != names[j]
    requires forall i :: 0 <= i < |xs| ==> xs[i].tactic in names
    ensures SumCounts(xs, names) == |xs|
  {
    if xs == [] {
      SumCountsEmpty(names);
    } else {
      var init, x := xs[..|xs| - 1], xs[|xs| - 1];
      assert forall i :: 0 <= i < |init| ==> init[i] == xs[i];
      assert init + [x] == xs;
      BucketSizesSum(init, names);
      SumCountsSnoc(init, x, names);
      assert x.tactic in names;
      OneIndicator(names, x.tactic);
    }
  }

  lemma {:induction false} SumCountsEmpty(names: seq<string>)
    ensures SumCounts([], names) == 0
  {
    if names != [] {
      SumCountsEmpty(names[..|names| - 1]);
    }
  }

  /** Number of positions of `names` holding `t`. */
  function Occurrences(names: seq<string>, t: string): nat {
    if names == [] then 0 else Occurrences(names[..|names| - 1], t) + (if names[|names| - 1] == t then 1 else 0)
  }

  lemma {:induction false} SumCountsSnoc(xs: seq<Entry>, x: Entry, names: seq<string>)
    ensures SumCounts(xs + [x], names) == SumCounts(xs, names) + Occurrences(names, x.tactic)
  {
    if names != [] {
      var n := names[|names| - 1];
      SumCountsSnoc(xs, x, names[..|names| - 1]);
      FilterSnoc(xs, x, HasTactic(n));
    }
  }

  lemma {:induction false} OneIndicator(names: seq<string>, t: string)
    requires forall i, j :: 0 <= i < j < |names| ==> names[i] != names[j]
    requires t in names
    ensures Occurrences(names, t) == 1
  {
    var init := names[..|names| - 1];
    if names[|names| - 1] == t {
      assert forall i :: 0 <= i < |init| ==> init[i] == names[i];
      OccurrencesAbsent(init, t);
    } else {
      assert t in init by {
        var i :| 0 <= i < |names| && names[i] == t;
        assert init[i] == t;
      }
      OneIndicator(init, t);
    }
  }

  lemma {:induction false} OccurrencesAbsent(names: seq<string>, t: string)
    requires t !in names
    ensures Occurrences(names, t) == 0
  {
    if names != [] {
      assert names[|names| - 1] != t;
      assert forall i :: 0 <= i < |names| - 1 ==> names[..|names| - 1][i] == names[i];
      OccurrencesAbsent(names[..|names| - 1], t);
    }
  }

  /** One card of `tacticStats`. */
  datatype TacticStat = TacticStat(id: string, name: string, totalTechniques: nat, activeTechniques: nat, coverage: nat)

  function TacticStatOf(all: seq<Entry>, t: (string, string)): TacticStat {
    var techniques := BucketOf(PartitionFrom(all), t.1);
    var active := |Filter(techniques, (x: Entry) => x.activeGroups > 0)|;
    TacticStat(t.0, t.1, |techniques|, active, RoundPercent(active, |techniques|))
  }

  /** `tacticStats`: one card per tactic of `MITRE_TACTICS`, over the whole index. */
  function TacticStats(all: seq<Entry>): (r: seq<TacticStat>)
    ensures |r| == |MitreTactics|
    ensures forall i :: 0 <= i < |r| ==> r[i] == TacticStatOf(all, MitreTactics[i])
  {
    seq(|MitreTactics|, i requires 0 <= i < |MitreTactics| => TacticStatOf(all, MitreTactics[i]))
  }

  /** Each card: active at most total, coverage at most 100 and 0 for an empty tactic; its total is the number of entries of the tactic. */
  lemma TacticStatBounds(all: seq<Entry>, i: nat)
    requires i < |MitreTactics|
    ensures var s := TacticStats(all)[i];
      s.activeTechniques <= s.totalTechniques && s.coverage <= 100 &&
      (s.totalTechniques == 0 ==> s.coverage == 0) &&
      (s.totalTechniques > 0 ==> NearestPercent(s.activeTechniques, s.totalTechniques, s.coverage)) &&
      s.totalTechniques == CountTactic(all, MitreTactics[i].1)
  {
    BucketsAreFilters(all, MitreTactics[i].1);
  }

  /** The card totals along `MITRE_TACTICS`. */
  function CardTotal(stats: seq<TacticStat>): nat {
    if stats == [] then 0 else CardTotal(stats[..|stats| - 1]) + stats[|stats| - 1].totalTechniques
  }

  /** Every index entry has one of the twelve tactics, so the card totals add up to the index length. */
  lemma TacticTotalsCoverIndex(m: Groups)
    requires m.Valid()
    ensures IndexOf(m).Valid()
    ensures CardTotal(TacticStats(IndexOf(m).Values())) == |IndexOf(m).Values()|
  {
    var es := Walk(m.Values());
    IndexValid(TacticFromTechniqueId, EmptyMap(), es);
    var all := IndexOf(m).Values();
    forall i | 0 <= i < |all| ensures all[i].tactic in TacticNames() {
      var k := IndexOf(m).keys[i];
      EntryOfKey(TacticFromTechniqueId, es, k);
      var e0 := FirstIndexed(es, k).value;
      NewEntryTactic(TacticFromTechniqueId, e0);
    }
    var names := TacticNames();
    TacticNamesDistinct();
    BucketSizesSum(all, names);
    CardTotalIsSumAll(all);
  }

  lemma {:induction false} CardTotalIsSum(all: seq<Entry>, n: nat)
    requires n <= |MitreTactics|
    ensures CardTotal(TacticStats(all)[..n]) == SumCounts(all, TacticNames()[..n])
  {
    if n > 0 {
      CardTotalIsSum(all, n - 1);
      PrefixSums(TacticStats(all), all, TacticNames(), n);
      TacticStatBounds(all, n - 1);
    }
  }

  lemma PrefixSums(stats: seq<TacticStat>, all: seq<Entry>, names: seq<string>, n: nat)
    requires 0 < n <= |stats| && n <= |names|
    ensures CardTotal(stats[..n]) == CardTotal(stats[..n - 1]) + stats[n - 1].totalTechniques
    ensures SumCounts(all, names[..n]) == SumCounts(all, names[..n - 1]) + CountTactic(all, names[n - 1])
  {
    assert stats[..n][..n - 1] == stats[..n - 1];
    assert names[..n][..n - 1] == names[..n - 1];
  }

  lemma CardTotalIsSumAll(all: seq<Entry>)
    ensures CardTotal(TacticStats(all)) == SumCounts(all, TacticNames())
  {
    CardTotalIsSum(all, |MitreTactics|);
    assert TacticStats(all)[..|MitreTactics|] == TacticStats(all);
    assert TacticNames()[..|MitreTactics|] == TacticNames();
  }

  /** A card's usage: `Math.round(activeGroups / totalGroups * 100)`, 0 when no group lists it. */
  function UsagePercentage(x: Entry): (p: nat)
    ensures x.totalGroups == 0 ==> p == 0
    ensures x.activeGroups <= x.totalGroups ==> p <= 100
    ensures x.totalGroups > 0 ==> NearestPercent(x.activeGroups, x.totalGroups, p)
  {
    RoundPercent(x.activeGroups, x.totalGroups)
  }
}
