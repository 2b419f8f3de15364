/** Per-source ontology coverage (internal/conversations/coverage.go) and the sum
    of two coverages (`addCoverage`, ingest_watermark.go:256-278). */
module Coverage {
  import opened Prelude

  type Counts = map<string, nat>

  datatype SourceCoverage = SourceCoverage(
    mapped: nat, degenerate: nat, quarantined: nat, unmapped: Counts, ontologyRef: string, mappingRef: string)

  const Nothing := SourceCoverage(0, 0, 0, map[], "", "")

  datatype Refs = Refs(ontology: string, mapping: string)

  /** What one record does to its source's coverage. */
  datatype Event =
    | Mapped(refs: Refs)
    | Degenerate(refs: Refs)
    | Quarantined(component: string, setsRefs: Option<Refs>)

  function Of(m: Counts, k: string): nat { if k in m then m[k] else 0 }

  function Count(c: SourceCoverage, e: Event): SourceCoverage {
    match e
    case Mapped(refs) => c.(mapped := c.mapped + 1, ontologyRef := refs.ontology, mappingRef := refs.mapping)
    case Degenerate(refs) =>
      c.(mapped := c.mapped + 1, degenerate := c.degenerate + 1,
         ontologyRef := refs.ontology, mappingRef := refs.mapping)
    case Quarantined(component, refs) =>
      var c1 := c.(quarantined := c.quarantined + 1, unmapped := c.unmapped[component := Of(c.unmapped, component) + 1]);
      if refs.None? then c1 else c1.(ontologyRef := refs.value.ontology, mappingRef := refs.value.mapping)
  }

  function CountAll(c: SourceCoverage, events: seq<Event>): SourceCoverage {
    if events == [] then c else Count(CountAll(c, events[..|events| - 1]), events[|events| - 1])
  }

  function Plus(a: Counts, b: Counts): Counts {
    map k | k in a.Keys + b.Keys :: Of(a, k) + Of(b, k)
  }

  /** `addCoverage`. */
  function Add(a: SourceCoverage, b: SourceCoverage): SourceCoverage {
    SourceCoverage(a.mapped + b.mapped, a.degenerate + b.degenerate, a.quarantined + b.quarantined,
                   Plus(a.unmapped, b.unmapped),
                   if b.ontologyRef != "" then b.ontologyRef else a.ontologyRef,
                   if b.mappingRef != "" then b.mappingRef else a.mappingRef)
  }

  method AddCoverage(a: SourceCoverage, b: SourceCoverage) returns (out: SourceCoverage)
    ensures out == Add(a, b)
  {
    var unmapped := AddCounts(a.unmapped, b.unmapped);
    out := a.(mapped := a.mapped + b.mapped, degenerate := a.degenerate + b.degenerate,
              quarantined := a.quarantined + b.quarantined, unmapped := unmapped);
    if b.ontologyRef != "" { out := out.(ontologyRef := b.ontologyRef); }
    if b.mappingRef != "" { out := out.(mappingRef := b.mappingRef); }
  }

  method AddCounts(a: Counts, b: Counts) returns (m: Counts)
    ensures m == Plus(a, b)
  {
    m := a;
    var todo := b.Keys;
    while todo != {}
      invariant todo <= b.Keys
      invariant m.Keys == a.Keys + (b.Keys - todo)
      invariant forall k :: k in m && k in todo ==> m[k] == Of(a, k)
      invariant forall k :: k in m && k !in todo ==> m[k] == Of(a, k) + Of(b, k)
      decreases todo
    {
      var k :| k in todo;
      m := m[k := Of(m, k) + b[k]];
      todo := todo - {k};
    }
  }

  // ---------------------------------------------------------------- conserved

  ghost function Total(m: Counts): nat
    decreases |m|
  {
    if m == map[] then 0 else var k :| k in m; assert |m - {k}| < |m| by { Smaller(m, k); } m[k] + Total(m - {k})
  }

  lemma Smaller(m: Counts, k: string)
    requires k in m
    ensures |m - {k}| < |m|
  {
    assert (m - {k}).Keys == m.Keys - {k};
    assert |m.Keys - {k}| < |m.Keys|;
    assert |m| == |m.Keys| && |m - {k}| == |(m - {k}).Keys|;
  }

  /** The total does not depend on the order the keys are taken in. */
  lemma {:induction false} TotalWithout(m: Counts, k: string)
    requires k in m
    ensures Total(m) == m[k] + Total(m - {k})
    decreases |m|
  {
    var j :| j in m && Total(m) == m[j] + Total(m - {j});
    if j != k {
      Smaller(m, j);
      TotalWithout(m - {j}, k);
      Smaller(m, k);
      TotalWithout(m - {k}, j);
      assert m - {j} - {k} == m - {k} - {j};
    }
  }

  lemma {:induction false} TotalOfUpdate(m: Counts, k: string, v: nat)
    ensures Total(m[k := v]) + Of(m, k) == Total(m) + v
  {
    TotalWithout(m[k := v], k);
    assert m[k := v] - {k} == m - {k};
    if k in m { TotalWithout(m, k); } else { assert m - {k} == m; }
  }

  ghost predicate Balanced(c: SourceCoverage) {
    c.quarantined == Total(c.unmapped) && c.degenerate <= c.mapped
  }

  /** Quarantined always equals the sum of the unmapped-component counts, and
      degenerate never exceeds mapped. */
  lemma {:induction false} CountingStaysBalanced(c: SourceCoverage, events: seq<Event>)
    requires Balanced(c)
    ensures Balanced(CountAll(c, events))
  {
    if events != [] {
      var before, e := events[..|events| - 1], events[|events| - 1];
      CountingStaysBalanced(c, before);
      var b := CountAll(c, before);
      if e.Quarantined? { TotalOfUpdate(b.unmapped, e.component, Of(b.unmapped, e.component) + 1); }
    }
  }

  /** The refs a record sets, if any. */
  function SetBy(e: Event): Option<Refs> {
    match e
    case Mapped(r) => Some(r)
    case Degenerate(r) => Some(r)
    case Quarantined(_, r) => r
  }

  /** All records of the source that set refs set the same ones, as they do under
      one ontology fingerprint. */
  ghost predicate OneMapping(events: seq<Event>, refs: Refs) {
    forall i :: 0 <= i < |events| && SetBy(events[i]).Some? ==> SetBy(events[i]).value == refs
  }

  ghost predicate RefsOf(c: SourceCoverage, refs: Refs) {
    (c.ontologyRef == "" && c.mappingRef == "") || (c.ontologyRef == refs.ontology && c.mappingRef == refs.mapping)
  }

  lemma {:induction false} RefsStay(events: seq<Event>, c: SourceCoverage, refs: Refs)
    requires OneMapping(events, refs) && RefsOf(c, refs)
    ensures RefsOf(CountAll(c, events), refs)
  {
    if events != [] {
      assert SetBy(events[|events| - 1]).Some? ==> SetBy(events[|events| - 1]).value == refs;
      RefsStay(events[..|events| - 1], c, refs);
    }
  }

  /** Once a record that sets refs is counted, the coverage names them. */
  lemma {:induction false} RefsAreRecorded(events: seq<Event>, c: SourceCoverage, refs: Refs)
    requires OneMapping(events, refs) && exists i :: 0 <= i < |events| && SetBy(events[i]).Some?
    ensures CountAll(c, events).ontologyRef == refs.ontology && CountAll(c, events).mappingRef == refs.mapping
  {
    var n := |events| - 1;
    var i :| 0 <= i < |events| && SetBy(events[i]).Some?;
    assert SetBy(events[n]).Some? ==> SetBy(events[n]).value == refs;
    if SetBy(events[n]).None? {
      assert events[..n][i] == events[i];
      RefsAreRecorded(events[..n], c, refs);
    }
  }

  function HeldAs(events: seq<Event>, component: string): nat {
    if events == [] then 0
    else
      var e := events[|events| - 1];
      HeldAs(events[..|events| - 1], component) + if e.Quarantined? && e.component == component then 1 else 0
  }

  /** Each component's count is the number of records quarantined as that component. */
  lemma {:induction false} ComponentsAreCounted(events: seq<Event>, c: SourceCoverage, component: string)
    ensures Of(CountAll(c, events).unmapped, component) == Of(c.unmapped, component) + HeldAs(events, component)
  {
    if events != [] { ComponentsAreCounted(events[..|events| - 1], c, component); }
  }

  lemma {:induction false} CountIntoSum(a: SourceCoverage, b: SourceCoverage, e: Event, refs: Refs)
    requires RefsOf(a, refs) && RefsOf(b, refs) && (SetBy(e).Some? ==> SetBy(e).value == refs)
    ensures Count(Add(a, b), e) == Add(a, Count(b, e))
  {
    if e.Quarantined? {
      var m := Plus(a.unmapped, b.unmapped);
      assert m[e.component := Of(m, e.component) + 1]
          == Plus(a.unmapped, b.unmapped[e.component := Of(b.unmapped, e.component) + 1]);
    }
  }

  /** Coverage of concatenated inputs is the sum of the parts. */
  lemma {:induction false} CoverageOfConcatenation(xs: seq<Event>, ys: seq<Event>, refs: Refs)
    requires OneMapping(xs, refs) && OneMapping(ys, refs)
    ensures CountAll(Nothing, xs + ys) == Add(CountAll(Nothing, xs), CountAll(Nothing, ys))
  {
    if ys == [] {
      assert xs + ys == xs;
      NothingAdded(CountAll(Nothing, xs), CountAll(Nothing, ys));
    } else {
      var before, e := CountLast(xs, ys);
      CoverageOfConcatenation(xs, before, refs);
      RefsStay(xs, Nothing, refs);
      RefsStay(before, Nothing, refs);
      assert SetBy(ys[|ys| - 1]).Some? ==> SetBy(e).value == refs;
      CountIntoSum(CountAll(Nothing, xs), CountAll(Nothing, before), e, refs);
    }
  }

  lemma {:induction false} CountLast(xs: seq<Event>, ys: seq<Event>) returns (before: seq<Event>, e: Event)
    requires ys != []
    ensures before == ys[..|ys| - 1] && e == ys[|ys| - 1]
    ensures CountAll(Nothing, ys) == Count(CountAll(Nothing, before), e)
    ensures CountAll(Nothing, xs + ys) == Count(CountAll(Nothing, xs + before), e)
  {
    before, e := ys[..|ys| - 1], ys[|ys| - 1];
    assert (xs + ys)[..|xs + ys| - 1] == xs + before;
  }

  lemma NothingAdded(c: SourceCoverage, d: SourceCoverage)
    requires d.mapped == d.degenerate == d.quarantined == 0 && d.unmapped.Keys == {}
    requires d.ontologyRef == d.mappingRef == ""
    ensures Add(c, d) == c
  {
    assert Plus(c.unmapped, d.unmapped) == c.unmapped;
  }

  // ------------------------------------------------------------- the tracker

  class CoverageTracker {
    var sources: map<string, SourceCoverage>

    ghost function Of(source: string): SourceCoverage
      reads this
    {
      if source in sources then sources[source] else Nothing
    }

    constructor ()
      ensures sources == map[]
    {
      sources := map[];
    }

    method RecordMapped(source: string)
      modifies this
      ensures sources == old(sources)[source := old(Of(source)).(mapped := old(Of(source)).mapped + 1)]
    {
      var sc := GetOrCreate(source);
      sources := sources[source := sc.(mapped := sc.mapped + 1)];
    }

    method RecordDegenerate(source: string)
      modifies this
      ensures var c := old(Of(source));
              sources == old(sources)[source := c.(mapped := c.mapped + 1, degenerate := c.degenerate + 1)]
    {
      var sc := GetOrCreate(source);
      sources := sources[source := sc.(degenerate := sc.degenerate + 1, mapped := sc.mapped + 1)];
    }

    method RecordQuarantined(source: string, component: string)
      modifies this
      ensures var c := old(Of(source));
              sources == old(sources)[source := Count(c, Quarantined(component, None))]
    {
      var sc := GetOrCreate(source);
      var n := if component in sc.unmapped then sc.unmapped[component] else 0;
      sources := sources[source := sc.(quarantined := sc.quarantined + 1, unmapped := sc.unmapped[component := n + 1])];
    }

    method SetRefs(source: string, ontologyRef: string, mappingRef: string)
      modifies this
      ensures sources == old(sources)[source := old(Of(source)).(ontologyRef := ontologyRef, mappingRef := mappingRef)]
    {
      var sc := GetOrCreate(source);
      sources := sources[source := sc.(ontologyRef := ontologyRef, mappingRef := mappingRef)];
    }

    method All() returns (snapshot: map<string, SourceCoverage>)
      ensures snapshot == sources
    {
      snapshot := sources;
    }

    method Reset()
      modifies this
      ensures sources == map[]
    {
      sources := map[];
    }

    method GetOrCreate(source: string) returns (sc: SourceCoverage)
      ensures sc == Of(source)
    {
      sc := if source in sources then sources[source] else Nothing;
    }
  }
}
