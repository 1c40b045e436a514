/**
 * Concrete runs showing that the guards of PoolRuns and PoolDemand are needed:
 * a pod re-offered while a release list still names it, and a pool map that
 * was not persisted after the annotations were written, each end with one pod
 * live in two sandboxes; a sandbox resized below what it holds panics.
 */
module PoolCounterexamples {
  import opened Common
  import opened PoolAllocator
  import opened PoolRuns
  import opened PoolDemand

  lemma {:induction false} NothingTakenByZeros(needs: seq<int>, n: nat, k: nat)
    requires k <= |needs| && forall i :: 0 <= i < k ==> needs[i] == 0
    ensures Taken(needs, n, k) == 0
  {
    if k > 0 {
      NothingTakenByZeros(needs, n, k - 1);
    }
  }

  lemma {:induction false} NothingAssigned(names: seq<SandboxName>, segments: seq<seq<PodName>>, k: nat)
    requires k <= |names| == |segments| && forall i :: 0 <= i < k ==> segments[i] == []
    ensures Assigned(names, segments, k) == map[]
  {
    if k > 0 {
      NothingAssigned(names, segments, k - 1);
      assert GiveAll([], names[k - 1]) == map[];
    }
  }

  /** Every sandbox but the last is satisfied; the last takes as many pods as are offered, one or none. */
  ghost predicate OnlyLastTakes(needs: seq<int>, avail: seq<PodName>) {
    && |needs| > 0 && |avail| <= 1
    && (forall i :: 0 <= i < |needs| - 1 ==> needs[i] == 0)
    && needs[|needs| - 1] == |avail|
  }

  lemma {:induction false} LastSegment(names: seq<SandboxName>, needs: seq<int>, avail: seq<PodName>)
    requires OnlyLastTakes(needs, avail) && |names| == |needs|
    ensures Servable(needs)
    ensures forall i :: 0 <= i < |needs| - 1 ==> Segments(needs, avail)[i] == []
    ensures Segments(needs, avail)[|needs| - 1] == avail
    ensures Assigned(names, Segments(needs, avail), |needs|) == GiveAll(avail, names[|needs| - 1])
  {
    var k, n, segments := |needs| - 1, |avail|, Segments(needs, avail);
    forall i | 0 <= i <= k
      ensures Taken(needs, n, i) == 0
    {
      NothingTakenByZeros(needs, n, i);
    }
    assert Taken(needs, n, k + 1) == n;
    assert segments[k] == avail[0..n] == avail;
    NothingAssigned(names, segments, k);
    assert map[] + GiveAll(avail, names[k]) == GiveAll(avail, names[k]);
  }

  lemma {:induction false} LastAnnotated(alloc: Allocation, sandboxes: seq<BatchSandbox>, segments: seq<seq<PodName>>,
                                         avail: seq<PodName>, writes: map<SandboxName, seq<PodName>>)
    requires |sandboxes| == |segments| > 0 && DistinctNames(sandboxes)
    requires forall i :: 0 <= i < |sandboxes| ==> Active(sandboxes[i]) && Unsynced(alloc, sandboxes[i]) == {}
    requires forall i :: 0 <= i < |segments| - 1 ==> segments[i] == []
    requires segments[|segments| - 1] == avail
    requires var last := sandboxes[|sandboxes| - 1];
      Active(last) && writes == if avail == [] then map[] else map[last.name := last.alloc.pods + avail]
    ensures AnnotationsWritten(writes, alloc, sandboxes, segments)
  {
    var last := sandboxes[|sandboxes| - 1];
    hide Unsynced;
    assert last.alloc.pods + [] + avail == last.alloc.pods + avail;
    assert Distinct<PodName>([]) && ToSet<PodName>([]) == {};
    assert IsNewAnnotation(last.alloc.pods + avail, alloc, last, avail);
  }

  /** A reconcile in which at most the last sandbox is given the one pod on offer. */
  lemma {:induction false} LastTakesThePod(c: Cluster, order: seq<SandboxName>, pods: seq<Pod>, avail: seq<PodName>,
                                           persisted: bool, c': Cluster, writes: map<SandboxName, seq<PodName>>)
    requires IsListing(c, order) && |order| > 0 && DistinctPods(pods) && Available(c.poolMap, pods) == avail
    requires (forall n :: n in order ==> n in c.sandboxes) && OnlyLastTakes(Needs(c.poolMap, Listing(c, order)), avail)
    requires forall s :: s in c.sandboxes ==>
      !c.sandboxes[s].deleting && Owned(c.poolMap, s) <= ToSet(c.sandboxes[s].alloc)
    requires var last := order[|order| - 1];
      && writes == (if avail == [] then map[] else map[last := c.sandboxes[last].alloc + avail])
      && c' == Cluster(
           if persisted then c.poolMap + GiveAll(avail, last)
             - AllReleased(c.poolMap, Listing(c, order)) - Orphans(c.poolMap, Listing(c, order)) else c.poolMap,
           Annotate(c.sandboxes, writes, {}))
    ensures ReconcileStep(c, order, pods, writes, {}, persisted, c')
  {
    hide Segments, Needs, Available, AllReleased, Orphans, OnlyLastTakes, Assigned, NameList, GiveAll;
    hide AnnotationsWritten, Unsynced, Active, Annotate, IsListing, DistinctPods, Servable;
    var sandboxes, last := Listing(c, order), order[|order| - 1];
    AllSynced(c, order);
    LastSegment(NameList(sandboxes), Needs(c.poolMap, sandboxes), avail);
    NamesOfListing(c, order);
    LastAnnotated(c.poolMap, sandboxes, Segments(Needs(c.poolMap, sandboxes), avail), avail, writes);
  }

  lemma {:induction false} AllSynced(c: Cluster, order: seq<SandboxName>)
    requires (forall n :: n in order ==> n in c.sandboxes)
    requires forall s :: s in c.sandboxes ==>
      !c.sandboxes[s].deleting && Owned(c.poolMap, s) <= ToSet(c.sandboxes[s].alloc)
    ensures forall i :: 0 <= i < |order| ==>
      Active(Listing(c, order)[i]) && Unsynced(c.poolMap, Listing(c, order)[i]) == {}
    ensures NameList(Listing(c, order)) == order
  {
  }

  // ------------------------------------------------------------------
  // The runs
  // ------------------------------------------------------------------

  const A := SandboxName("a")
  const B := SandboxName("b")
  const C := SandboxName("c")
  const P := PodName("p")
  const POD := Pod(P, true, "r", 0)

  lemma {:induction false} OffersThePod(alloc: Allocation)
    ensures Available(alloc, [POD]) == if P in alloc then [] else [P]
  {
    assert [POD][..0] == [];
  }

  /** All sandboxes but the last hold what they want; the last wants exactly what is offered. */
  ghost predicate Balanced(c: Cluster, order: seq<SandboxName>, offered: nat) {
    && |order| > 0 && IsListing(c, order) && (forall n :: n in order ==> n in c.sandboxes)
    && (forall s :: s in c.sandboxes ==> !c.sandboxes[s].deleting && Owned(c.poolMap, s) <= ToSet(c.sandboxes[s].alloc))
    && (forall i :: 0 <= i < |order| - 1 ==> c.sandboxes[order[i]].replicas == |c.sandboxes[order[i]].alloc|)
    && c.sandboxes[order[|order| - 1]].replicas == |c.sandboxes[order[|order| - 1]].alloc| + offered
  }

  lemma {:induction false} DemandOfOne(alloc: Allocation, n: SandboxName, s: SandboxState)
    requires !s.deleting && Owned(alloc, n) <= ToSet(s.alloc)
    ensures Need(alloc, AsListed(n, s)) == s.replicas - |s.alloc|
  {
    assert Unsynced(alloc, AsListed(n, s)) == {};
  }

  lemma {:induction false} DemandOf(c: Cluster, order: seq<SandboxName>, avail: seq<PodName>)
    requires |avail| <= 1 && Balanced(c, order, |avail|)
    ensures OnlyLastTakes(Needs(c.poolMap, Listing(c, order)), avail)
  {
    hide Need, Owned, IsListing;
    var needs := Needs(c.poolMap, Listing(c, order));
    forall i | 0 <= i < |order|
      ensures needs[i] == c.sandboxes[order[i]].replicas - |c.sandboxes[order[i]].alloc|
    {
      DemandOfOne(c.poolMap, order[i], c.sandboxes[order[i]]);
    }
  }

  /** The map after a reconcile against the single pod. */
  ghost function MapAfter(c: Cluster, last: SandboxName): Allocation {
    if exists s :: s in c.sandboxes && P in c.sandboxes[s].release then map[]
    else if P in c.poolMap then c.poolMap
    else map[P := last]
  }

  function SandboxesAfter(c: Cluster, last: SandboxName): map<SandboxName, SandboxState>
    requires last in c.sandboxes
  {
    if P in c.poolMap then c.sandboxes
    else c.sandboxes[last := c.sandboxes[last].(alloc := c.sandboxes[last].alloc + [P])]
  }

  lemma {:induction false} PodReconcile(c: Cluster, order: seq<SandboxName>, persisted: bool) returns (e: Event)
    requires c.poolMap.Keys <= {P} && (P in c.poolMap ==> c.poolMap[P] in c.sandboxes)
    requires Balanced(c, order, if P in c.poolMap then 0 else 1)
    ensures var last := order[|order| - 1];
      var c' := Cluster(if persisted then MapAfter(c, last) else c.poolMap, SandboxesAfter(c, last));
      && e.Reconcile? && ReconcileStep(c, order, [POD], e.writes, {}, persisted, c')
      && e.order == order && e.pods == [POD] && e.lost == {}
  {
    var last, avail := order[|order| - 1], if P in c.poolMap then [] else [P];
    var writes := if avail == [] then map[] else map[last := c.sandboxes[last].alloc + avail];
    e := Reconcile(order, [POD], writes, {});
    AnnotatesLast(c, last, avail, writes);
    hide Available, OnlyLastTakes, AllReleased, Orphans, ReconcileStep, Annotate, MapAfter, SandboxesAfter, GiveAll,
        Needs;
    OffersThePod(c.poolMap);
    DemandOf(c, order, avail);
    MapIs(c, order, avail);
    assert DistinctPods([POD]);
    hide DistinctPods, IsListing, Owned;
    LastTakesThePod(c, order, [POD], avail, persisted,
      Cluster(if persisted then MapAfter(c, last) else c.poolMap, SandboxesAfter(c, last)), writes);
  }

  lemma {:induction false} AnnotatesLast(c: Cluster, last: SandboxName, avail: seq<PodName>,
                                         writes: map<SandboxName, seq<PodName>>)
    requires last in c.sandboxes && avail == if P in c.poolMap then [] else [P]
    requires writes == if avail == [] then map[] else map[last := c.sandboxes[last].alloc + avail]
    ensures Annotate(c.sandboxes, writes, {}) == SandboxesAfter(c, last)
  {
  }

  lemma {:induction false} MapIs(c: Cluster, order: seq<SandboxName>, avail: seq<PodName>)
    requires c.poolMap.Keys <= {P} && (P in c.poolMap ==> c.poolMap[P] in c.sandboxes)
    requires |avail| <= 1 && Balanced(c, order, |avail|) && avail == if P in c.poolMap then [] else [P]
    ensures c.poolMap + GiveAll(avail, order[|order| - 1])
      - AllReleased(c.poolMap, Listing(c, order)) - Orphans(c.poolMap, Listing(c, order))
        == MapAfter(c, order[|order| - 1])
  {
    hide AllReleased;
    NamesOfListing(c, order);
    ReleasedInCluster(c, order, P);
    assert forall s :: s in c.sandboxes ==> HasIndexEntry(c, s);
    assert Orphans(c.poolMap, Listing(c, order)) == {};
    hide Orphans, IsListing, Owned;
    var before := c.poolMap + GiveAll(avail, order[|order| - 1]);
    assert before == if P in c.poolMap then c.poolMap else map[P := order[|order| - 1]];
    assert before.Keys == {P};
  }

  const EMPTY := SandboxState(1, false, [], [])
  const HOLDING := SandboxState(1, false, [P], [])
  const DONE := SandboxState(1, false, [P], [P])

  lemma {:induction false} Listed1(c: Cluster)
    requires c.sandboxes.Keys == {A}
    ensures IsListing(c, [A])
  {
  }

  lemma {:induction false} Listed2(c: Cluster)
    requires c.sandboxes.Keys == {A, B}
    ensures IsListing(c, [A, B])
  {
    assert A != B;
    assert ToSet([A, B]) == {A, B};
  }

  lemma {:induction false} Listed3(c: Cluster)
    requires c.sandboxes.Keys == {A, B, C}
    ensures IsListing(c, [A, B, C])
  {
    assert A != B && A != C && B != C;
    assert ToSet([A, B, C]) == {A, B, C};
  }

  lemma {:induction false} TakeIt(c: Cluster, c': Cluster, persisted: bool) returns (e: Event)
    requires c == Cluster(map[], map[A := EMPTY])
      && c' == Cluster(if persisted then map[P := A] else map[], map[A := HOLDING])
    ensures e.Reconcile? && e.lost == {} && ReconcileStep(c, e.order, e.pods, e.writes, {}, persisted, c')
  {
    hide ReconcileStep, IsListing;
    Listed1(c);
    assert Owned(c.poolMap, A) == {};
    assert EMPTY.alloc + [P] == [P];
    assert forall s :: s in c.sandboxes ==> P !in c.sandboxes[s].release;
    assert SandboxesAfter(c, A) == c'.sandboxes;
    assert MapAfter(c, A) == map[P := A];
    e := PodReconcile(c, [A], persisted);
  }

  lemma {:induction false} GiveItUp(c: Cluster, c': Cluster) returns (e: Event)
    requires c == Cluster(map[P := A], map[A := DONE]) && c' == Cluster(map[], map[A := DONE])
    ensures e.Reconcile? && e.lost == {} && ReconcileStep(c, e.order, e.pods, e.writes, {}, true, c')
  {
    hide ReconcileStep, IsListing;
    Listed1(c);
    assert P in c.sandboxes[A].release;
    assert Owned(c.poolMap, A) == {P} == ToSet(c.sandboxes[A].alloc);
    e := PodReconcile(c, [A], true);
  }

  lemma {:induction false} TakeItNext(c: Cluster, c': Cluster, a: SandboxState) returns (e: Event)
    requires a in {HOLDING, DONE} && c == Cluster(map[], map[A := a, B := EMPTY])
    requires c' == Cluster(if a == DONE then map[] else map[P := B], map[A := a, B := HOLDING])
    ensures e.Reconcile? && e.lost == {} && ReconcileStep(c, e.order, e.pods, e.writes, {}, true, c')
  {
    hide ReconcileStep, IsListing;
    Listed2(c);
    assert EMPTY.alloc + [P] == [P];
    assert a == DONE ==> P in c.sandboxes[A].release;
    assert a == HOLDING ==> forall s :: s in c.sandboxes ==> P !in c.sandboxes[s].release;
    assert Owned(c.poolMap, A) == Owned(c.poolMap, B) == {};
    assert [A, B][1] == B && SandboxesAfter(c, B) == c'.sandboxes && MapAfter(c, B) == c'.poolMap;
    e := PodReconcile(c, [A, B], true);
  }

  lemma {:induction false} TakeItLast(c: Cluster, c': Cluster) returns (e: Event)
    requires c == Cluster(map[], map[A := DONE, B := HOLDING, C := EMPTY])
    requires c' == Cluster(map[], map[A := DONE, B := HOLDING, C := HOLDING])
    ensures e.Reconcile? && e.lost == {} && ReconcileStep(c, e.order, e.pods, e.writes, {}, true, c')
  {
    hide ReconcileStep, IsListing;
    Listed3(c);
    assert EMPTY.alloc + [P] == [P];
    assert A in c.sandboxes && P in c.sandboxes[A].release;
    assert Owned(c.poolMap, A) == Owned(c.poolMap, B) == Owned(c.poolMap, C) == {};
    assert [A, B, C][2] == C && SandboxesAfter(c, C) == c'.sandboxes && MapAfter(c, C) == c'.poolMap;
    e := PodReconcile(c, [A, B, C], true);
  }

  lemma {:induction false} CreateStep(c: Cluster, n: SandboxName, c': Cluster)
    requires n !in c.sandboxes && c' == c.(sandboxes := c.sandboxes[n := EMPTY])
    ensures Step(c, Create(n, 1), c')
  {
  }

  lemma {:induction false} ReleaseIt(c: Cluster, c': Cluster)
    requires c == Cluster(map[P := A], map[A := HOLDING]) && c' == Cluster(map[P := A], map[A := DONE])
    ensures Step(c, WriteRelease(A, {P}), c')
  {
    hide ReconcileStep;
    assert ToSet([P]) == ToSet<PodName>([]) + {P} == {P};
  }

  lemma {:induction false} ReconcileIsStep(c: Cluster, e: Event, c': Cluster)
    requires e.Reconcile? && e.lost == {} && ReconcileStep(c, e.order, e.pods, e.writes, {}, true, c')
    ensures Step(c, e, c')
  {
    hide ReconcileStep;
  }

  /**
   * Sandbox a takes the pod, releases it and stays listed; b is then given the
   * pod, but a's old release list strikes it from the map again; so c is given
   * the same pod while b still works with it.
   */
  lemma {:induction false} ReofferedPodIsShared() returns (cs: seq<Cluster>, es: seq<Event>)
    ensures Run(cs, es) && !Exclusive(cs[|es|])
  {
    var c0 := Cluster(map[], map[]);
    var c1 := Cluster(map[], map[A := EMPTY]);
    var c2 := Cluster(map[P := A], map[A := HOLDING]);
    var c3 := Cluster(map[P := A], map[A := DONE]);
    var c4 := Cluster(map[], map[A := DONE]);
    var c5 := Cluster(map[], map[A := DONE, B := EMPTY]);
    var c6 := Cluster(map[], map[A := DONE, B := HOLDING]);
    var c7 := Cluster(map[], map[A := DONE, B := HOLDING, C := EMPTY]);
    var c8 := Cluster(map[], map[A := DONE, B := HOLDING, C := HOLDING]);
    hide ReconcileStep, Step;
    CreateStep(c0, A, c1);
    var e1 := TakeIt(c1, c2, true);
    ReconcileIsStep(c1, e1, c2);
    ReleaseIt(c2, c3);
    var e3 := GiveItUp(c3, c4);
    ReconcileIsStep(c3, e3, c4);
    CreateStep(c4, B, c5);
    var e5 := TakeItNext(c5, c6, DONE);
    ReconcileIsStep(c5, e5, c6);
    CreateStep(c6, C, c7);
    var e7 := TakeItLast(c7, c8);
    ReconcileIsStep(c7, e7, c8);
    cs := [c0, c1, c2, c3, c4, c5, c6, c7, c8];
    es := [Create(A, 1), e1, WriteRelease(A, {P}), e3, Create(B, 1), e5, Create(C, 1), e7];
    SharedByTwo(c8, B, C);
  }

  lemma {:induction false} SharedByTwo(c: Cluster, s: SandboxName, t: SandboxName)
    requires s != t && s in c.sandboxes && t in c.sandboxes && c.sandboxes[s] == HOLDING && c.sandboxes[t] == HOLDING
    ensures !Exclusive(c)
  {
    assert P in Live(c.sandboxes[s]) && P in Live(c.sandboxes[t]);
  }

  lemma {:induction false} UnpersistedIsStep(c: Cluster, e: Event, c': Cluster) returns (f: Event)
    requires e.Reconcile? && e.lost == {} && ReconcileStep(c, e.order, e.pods, e.writes, {}, false, c')
    ensures f.Unpersisted? && f.lost == {} && Step(c, f, c')
  {
    hide ReconcileStep;
    f := Unpersisted(e.order, e.pods, e.writes, {});
  }

  /**
   * The annotation is written before the map: from the empty cluster, a is
   * given the pod, the map is not persisted, and b is given the pod too.
   */
  lemma {:induction false} UnpersistedMapIsShared() returns (cs: seq<Cluster>, es: seq<Event>)
    ensures Run(cs, es) && !Exclusive(cs[|es|])
    ensures forall i :: 0 <= i < |es| && es[i].Reconcile? ==> forall s :: s in cs[i].sandboxes ==>
      cs[i].sandboxes[s].release == []
  {
    hide ReconcileStep, Step;
    var c0 := Cluster(map[], map[]);
    var c1 := Cluster(map[], map[A := EMPTY]);
    var c2 := Cluster(map[], map[A := HOLDING]);
    var c3 := Cluster(map[], map[A := HOLDING, B := EMPTY]);
    var c4 := Cluster(map[P := B], map[A := HOLDING, B := HOLDING]);
    CreateStep(c0, A, c1);
    var e1 := TakeIt(c1, c2, false);
    var f1 := UnpersistedIsStep(c1, e1, c2);
    CreateStep(c2, B, c3);
    var e3 := TakeItNext(c3, c4, HOLDING);
    ReconcileIsStep(c3, e3, c4);
    cs := [c0, c1, c2, c3, c4];
    es := [Create(A, 1), f1, Create(B, 1), e3];
    SharedByTwo(c4, A, B);
  }

  lemma {:induction false} ResizeStep(c: Cluster, c': Cluster)
    requires c == Cluster(map[P := A], map[A := HOLDING])
      && c' == Cluster(map[P := A], map[A := HOLDING.(replicas := 0)])
    ensures Step(c, Resize(A, 0), c')
  {
    hide ReconcileStep;
  }

  ghost predicate PanicsNext(c: Cluster) {
    IsListing(c, [A]) && Panics(c.poolMap, Listing(c, [A]))
  }

  lemma {:induction false} OverfullPanics(c: Cluster)
    requires c == Cluster(map[P := A], map[A := HOLDING.(replicas := 0)])
    ensures PanicsNext(c)
  {
    assert !FitsAt(c, A);
    hide Panics, FitsAt;
    Listed1(c);
    PanicsIffOverfull(c, [A]);
  }

  /** A sandbox that holds a pod and is resized to none makes the next reconcile slice out of range. */
  lemma {:induction false} ShrunkSandboxPanics() returns (cs: seq<Cluster>, es: seq<Event>)
    ensures Run(cs, es) && PanicsNext(cs[|es|])
  {
    hide ReconcileStep, Step, PanicsNext;
    var c0 := Cluster(map[], map[]);
    var c1 := Cluster(map[], map[A := EMPTY]);
    var c2 := Cluster(map[P := A], map[A := HOLDING]);
    var c3 := Cluster(map[P := A], map[A := HOLDING.(replicas := 0)]);
    CreateStep(c0, A, c1);
    var e1 := TakeIt(c1, c2, true);
    ReconcileIsStep(c1, e1, c2);
    ResizeStep(c2, c3);
    OverfullPanics(c3);
    cs := [c0, c1, c2, c3];
    es := [Create(A, 1), e1, Resize(A, 0)];
  }
}
