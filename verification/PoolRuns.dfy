/**
 * Whole runs of a pooled cluster: sandboxes come, grow, are marked for
 * deletion and go, tasks write release annotations, and the pool controller
 * reconciles against whatever pods exist at that moment.
 */
module PoolRuns {
  import opened Common
  import opened PoolAllocator

  datatype SandboxState = SandboxState(replicas: int, deleting: bool, alloc: seq<PodName>, release: seq<PodName>)

  /** What the API server stores: the pool's map and each sandbox's annotations. */
  datatype Cluster = Cluster(poolMap: Allocation, sandboxes: map<SandboxName, SandboxState>)

  /** The pods a sandbox works with: its allocation annotation less its release annotation. */
  function Live(s: SandboxState): set<PodName> {
    ToSet(s.alloc) - ToSet(s.release)
  }

  ghost predicate Exclusive(c: Cluster) {
    forall a, b :: a in c.sandboxes && b in c.sandboxes && a != b ==> Live(c.sandboxes[a]) !! Live(c.sandboxes[b])
  }

  /** Every live pod is owned by its sandbox in the pool map. */
  ghost predicate LiveIsOwned(c: Cluster) {
    forall s, p :: s in c.sandboxes && p in c.sandboxes[s].alloc && p !in c.sandboxes[s].release ==>
      p in c.poolMap && c.poolMap[p] == s
  }

  predicate HasIndexEntry(c: Cluster, s: SandboxName)
    requires s in c.sandboxes
  {
    !c.sandboxes[s].deleting || Owned(c.poolMap, s) != {}
  }

  /** No sandbox whose releases are still processed names a pod that another one owns. */
  ghost predicate NoForeignRelease(c: Cluster) {
    forall s, p :: s in c.sandboxes && HasIndexEntry(c, s) && p in c.sandboxes[s].release && p in c.poolMap ==>
      c.poolMap[p] == s
  }

  ghost predicate Inv(c: Cluster) {
    LiveIsOwned(c) && NoForeignRelease(c)
  }

  lemma {:induction false} OwnershipIsExclusive(c: Cluster)
    requires LiveIsOwned(c)
    ensures Exclusive(c)
  {
    forall a, b, p | a in c.sandboxes && b in c.sandboxes && a != b && p in Live(c.sandboxes[a])
      ensures p !in Live(c.sandboxes[b])
    {
      assert c.poolMap[p] == a;
    }
  }

  // ------------------------------------------------------------------
  // Steps
  // ------------------------------------------------------------------

  datatype Event =
    | Create(name: SandboxName, replicas: int)
    | Resize(name: SandboxName, replicas: int)
    | MarkDeleting(name: SandboxName)
    | Remove(name: SandboxName)
    | WriteRelease(name: SandboxName, released: set<PodName>)
    | Reconcile(order: seq<SandboxName>, pods: seq<Pod>, writes: map<SandboxName, seq<PodName>>, lost: set<SandboxName>)
    | Unpersisted(order: seq<SandboxName>, pods: seq<Pod>, writes: map<SandboxName, seq<PodName>>,
                  lost: set<SandboxName>)

  ghost predicate IsListing(c: Cluster, order: seq<SandboxName>) {
    Distinct(order) && ToSet(order) == c.sandboxes.Keys
  }

  function AsListed(name: SandboxName, s: SandboxState): BatchSandbox {
    BatchSandbox(name, s.replicas, s.deleting, Readable(s.alloc), Readable(s.release))
  }

  /** The sandboxes as a reconcile reads them. */
  function Listing(c: Cluster, order: seq<SandboxName>): (r: seq<BatchSandbox>)
    requires forall n :: n in order ==> n in c.sandboxes
    ensures |r| == |order|
    ensures forall i :: 0 <= i < |order| ==> r[i] == AsListed(order[i], c.sandboxes[order[i]])
  {
    seq(|order|, i requires 0 <= i < |order| => AsListed(order[i], c.sandboxes[order[i]]))
  }

  /** Annotation patches that reach the API server. */
  function Annotate(sandboxes: map<SandboxName, SandboxState>, writes: map<SandboxName, seq<PodName>>,
                    lost: set<SandboxName>)
    : map<SandboxName, SandboxState>
  {
    map n | n in sandboxes :: if n in writes && n !in lost then sandboxes[n].(alloc := writes[n]) else sandboxes[n]
  }

  /**
   * A reconcile: nothing happens if the round panics; otherwise annotations
   * and, if dirty, the pool map are written.
   */
  ghost predicate ReconcileStep(c: Cluster, order: seq<SandboxName>, pods: seq<Pod>,
                                writes: map<SandboxName, seq<PodName>>, lost: set<SandboxName>, persisted: bool,
                                c': Cluster) {
    && IsListing(c, order) && DistinctPods(pods)
    && var sandboxes := Listing(c, order);
       if Panics(c.poolMap, sandboxes) then c' == c
       else
         && AnnotationsWritten(writes, c.poolMap, sandboxes, RoundSegments(c.poolMap, sandboxes, pods))
         && c' == Cluster(if persisted then FinalAllocation(c.poolMap, sandboxes, pods) else c.poolMap,
                          Annotate(c.sandboxes, writes, lost))
  }

  ghost predicate Step(c: Cluster, e: Event, c': Cluster) {
    match e
    case Create(n, r) => n !in c.sandboxes && c' == c.(sandboxes := c.sandboxes[n := SandboxState(r, false, [], [])])
    case Resize(n, r) => n in c.sandboxes && c' == c.(sandboxes := c.sandboxes[n := c.sandboxes[n].(replicas := r)])
    case MarkDeleting(n) =>
      n in c.sandboxes && c' == c.(sandboxes := c.sandboxes[n := c.sandboxes[n].(deleting := true)])
    case Remove(n) => n in c.sandboxes && c' == c.(sandboxes := c.sandboxes - {n})
    case WriteRelease(n, released) =>
      && n in c.sandboxes && released <= ToSet(c.sandboxes[n].alloc)
      && n in c'.sandboxes && ToSet(c'.sandboxes[n].release) == ToSet(c.sandboxes[n].release) + released
      && c' == c.(sandboxes := c.sandboxes[n := c.sandboxes[n].(release := c'.sandboxes[n].release)])
    case Reconcile(order, pods, writes, lost) => ReconcileStep(c, order, pods, writes, lost, true, c')
    case Unpersisted(order, pods, writes, lost) => ReconcileStep(c, order, pods, writes, lost, false, c')
  }

  /** The controller's own reconcile, through the allocator, is such a step. */
  method ReconcileOnce(c: Cluster, order: seq<SandboxName>, pods: seq<Pod>, lost: set<SandboxName>)
    returns (c': Cluster, writes: map<SandboxName, seq<PodName>>)
    requires IsListing(c, order) && DistinctPods(pods)
    ensures ReconcileStep(c, order, pods, writes, lost, true, c')
  {
    var sandboxes := Listing(c, order);
    assert DistinctNames(sandboxes);
    hide AnnotationsWritten, FinalAllocation, Panics, Needs, Segments, Available;
    var r := Schedule(c.poolMap, sandboxes, pods);
    if r.Panic? {
      return c, map[];
    }
    writes := r.writes;
    var poolMap := c.poolMap;
    if r.poolDirty {
      poolMap := r.podAllocation;
    } else {
      CleanMeansUnchanged(c.poolMap, sandboxes, pods);
    }
    c' := Cluster(poolMap, Annotate(c.sandboxes, writes, lost));
  }

  // ------------------------------------------------------------------
  // When a reconcile keeps every live pod owned
  // ------------------------------------------------------------------

  /** A pod newly assigned is not live: the annotation was lost, or its receiver already lists it as released. */
  ghost predicate Excused(c: Cluster, granted: Allocation, lost: set<SandboxName>, p: PodName) {
    p in granted ==>
      granted[p] in lost || (granted[p] in c.sandboxes && p in c.sandboxes[granted[p]].release)
  }

  /** No pod is handed out that a processed release list strikes from the map again, or it does not become live. */
  ghost predicate SafeAssign(c: Cluster, order: seq<SandboxName>, pods: seq<Pod>, lost: set<SandboxName>)
    requires forall n :: n in order ==> n in c.sandboxes
  {
    var sandboxes := Listing(c, order);
    Safe(c, NewAssignments(c.poolMap, sandboxes, pods), AllReleased(c.poolMap, sandboxes), lost)
  }

  ghost predicate Safe(c: Cluster, granted: Allocation, released: set<PodName>, lost: set<SandboxName>) {
    forall p :: p in released ==> Excused(c, granted, lost, p)
  }

  /** Nothing offered is on a release list. */
  ghost predicate NothingReoffered(c: Cluster, pods: seq<Pod>) {
    forall s, p :: s in c.sandboxes && p in c.sandboxes[s].release ==> p !in Available(c.poolMap, pods)
  }

  lemma {:induction false} ReleasedIs(alloc: Allocation, sandboxes: seq<BatchSandbox>, k: nat, p: PodName)
    requires k <= |sandboxes|
    ensures p in Released(alloc, sandboxes, k) <==> exists i :: 0 <= i < k && p in ReleasedBy(alloc, sandboxes[i])
  {
    if k > 0 {
      ReleasedIs(alloc, sandboxes, k - 1, p);
    }
  }

  /** Releases processed by a reconcile, in the cluster's own terms. */
  lemma {:induction false} ReleasedInCluster(c: Cluster, order: seq<SandboxName>, p: PodName)
    requires IsListing(c, order)
    ensures p in AllReleased(c.poolMap, Listing(c, order)) <==>
      exists s :: s in c.sandboxes && HasIndexEntry(c, s) && p in c.sandboxes[s].release
  {
    var sandboxes := Listing(c, order);
    ReleasedIs(c.poolMap, sandboxes, |sandboxes|, p);
    forall i | 0 <= i < |sandboxes|
      ensures p in ReleasedBy(c.poolMap, sandboxes[i]) <==>
        HasIndexEntry(c, order[i]) && p in c.sandboxes[order[i]].release
    {
    }
    if s :| s in c.sandboxes && HasIndexEntry(c, s) && p in c.sandboxes[s].release {
      assert s in ToSet(order);
      var i :| 0 <= i < |order| && order[i] == s;
      assert p in ReleasedBy(c.poolMap, sandboxes[i]);
    }
  }

  /** How the segments and the new assignments of a round relate. */
  ghost predicate Consistent(sandboxes: seq<BatchSandbox>, granted: Allocation, segments: seq<seq<PodName>>) {
    && |segments| == |sandboxes|
    && (forall i, p :: 0 <= i < |segments| ==> (p in segments[i] <==> p in granted && granted[p] == sandboxes[i].name))
    && (forall i :: 0 <= i < |segments| && !Active(sandboxes[i]) ==> segments[i] == [])
    && (forall p :: p in granted ==> exists i :: 0 <= i < |segments| && p in segments[i])
  }

  lemma {:induction false} GrantedIff(names: seq<SandboxName>, segments: seq<seq<PodName>>, avail: seq<PodName>,
                                      i: nat, p: PodName)
    requires i < |names| == |segments| && Distinct(names) && Separate(segments, avail)
    ensures var granted := Assigned(names, segments, |names|);
      p in segments[i] <==> p in granted && granted[p] == names[i]
  {
    if p in segments[i] {
      AssignedOwner(names, segments, avail, |names|, i, p);
    }
    if p in Assigned(names, segments, |names|) {
      var j := WhoGot(names, segments, |names|, p);
      AssignedOwner(names, segments, avail, |names|, j, p);
    }
  }

  lemma {:induction false} GrantedConsistent(sandboxes: seq<BatchSandbox>, names: seq<SandboxName>,
                                             segments: seq<seq<PodName>>, avail: seq<PodName>)
    requires |names| == |sandboxes| == |segments| && Distinct(names) && Separate(segments, avail)
    requires forall i :: 0 <= i < |names| ==> names[i] == sandboxes[i].name
    requires forall i :: 0 <= i < |segments| && !Active(sandboxes[i]) ==> segments[i] == []
    ensures Consistent(sandboxes, Assigned(names, segments, |sandboxes|), segments)
  {
    hide Assigned, Separate, Active;
    var granted := Assigned(names, segments, |sandboxes|);
    forall i, p | 0 <= i < |segments|
      ensures p in segments[i] <==> p in granted && granted[p] == sandboxes[i].name
    {
      GrantedIff(names, segments, avail, i, p);
    }
    forall p | p in granted
      ensures exists i :: 0 <= i < |segments| && p in segments[i]
    {
      var i := WhoGot(names, segments, |sandboxes|, p);
    }
  }

  lemma {:induction false} IdleGetNothing(sandboxes: seq<BatchSandbox>, needs: seq<int>, avail: seq<PodName>)
    requires |needs| == |sandboxes| && Servable(needs)
    requires forall i :: 0 <= i < |sandboxes| && !Active(sandboxes[i]) ==> needs[i] == 0
    ensures forall i :: 0 <= i < |needs| && !Active(sandboxes[i]) ==> Segments(needs, avail)[i] == []
  {
    forall i | 0 <= i < |needs| && !Active(sandboxes[i])
      ensures Segments(needs, avail)[i] == []
    {
      SegmentIs(needs, avail, i);
    }
  }

  /** The segments of a round, and what they add up to. */
  function RoundSegments(alloc: Allocation, sandboxes: seq<BatchSandbox>, pods: seq<Pod>): seq<seq<PodName>> {
    Segments(Needs(alloc, sandboxes), Available(alloc, pods))
  }

  lemma {:induction false} RoundConsistent(alloc: Allocation, sandboxes: seq<BatchSandbox>, pods: seq<Pod>)
    requires DistinctNames(sandboxes) && DistinctPods(pods) && !Panics(alloc, sandboxes)
    ensures Consistent(sandboxes, NewAssignments(alloc, sandboxes, pods), RoundSegments(alloc, sandboxes, pods))
  {
    AvailableAre(alloc, pods);
    assert Distinct(NameList(sandboxes));
    hide Available, Segments, Assigned, Consistent, Separate;
    var needs, avail := Needs(alloc, sandboxes), Available(alloc, pods);
    IdleGetNothing(sandboxes, needs, avail);
    SegmentsSeparate(needs, avail);
    GrantedConsistent(sandboxes, NameList(sandboxes), Segments(needs, avail), avail);
  }

  /** A reconcile's effect on the map and on the annotations. */
  ghost predicate Effect(c: Cluster, granted: Allocation, released: set<PodName>, lost: set<SandboxName>, c': Cluster) {
    && c'.sandboxes.Keys == c.sandboxes.Keys
    && GrantEffect(c, granted) && MapEffect(c, granted, released, c')
    && (forall s :: s in c.sandboxes ==> SandboxEffect(c, granted, lost, c', s))
  }

  ghost predicate GrantEffect(c: Cluster, granted: Allocation) {
    forall p :: p in granted ==> p !in c.poolMap && granted[p] in c.sandboxes && !c.sandboxes[granted[p]].deleting
  }

  ghost predicate MapEffect(c: Cluster, granted: Allocation, released: set<PodName>, c': Cluster) {
    && (forall p :: p in c'.poolMap <==>
          p !in released && (p in granted || (p in c.poolMap && c.poolMap[p] in c.sandboxes)))
    && (forall p :: p in c'.poolMap ==> c'.poolMap[p] == if p in granted then granted[p] else c.poolMap[p])
  }

  /** The sandbox is told of the pod: the map already gives it, or it is newly assigned. */
  ghost predicate Receives(c: Cluster, granted: Allocation, s: SandboxName, p: PodName)
    requires s in c.sandboxes
  {
    && !c.sandboxes[s].deleting
    && ((p in c.poolMap && c.poolMap[p] == s) || (p in granted && granted[p] == s))
  }

  /** Exactly the received pods are added to a sandbox's list, and none if the write was lost. */
  ghost predicate SandboxEffect(c: Cluster, granted: Allocation, lost: set<SandboxName>, c': Cluster, s: SandboxName)
    requires s in c.sandboxes && s in c'.sandboxes
  {
    && c'.sandboxes[s].release == c.sandboxes[s].release && c'.sandboxes[s].deleting == c.sandboxes[s].deleting
    && (forall p :: p in c'.sandboxes[s].alloc <==>
          p in c.sandboxes[s].alloc || (s !in lost && Receives(c, granted, s, p)))
  }

  lemma {:induction false} ReconcileHasEffect(c: Cluster, order: seq<SandboxName>, pods: seq<Pod>,
                                              writes: map<SandboxName, seq<PodName>>, lost: set<SandboxName>,
                                              c': Cluster)
    requires ReconcileStep(c, order, pods, writes, lost, true, c') && !Panics(c.poolMap, Listing(c, order))
    ensures var sandboxes := Listing(c, order);
      Effect(c, NewAssignments(c.poolMap, sandboxes, pods), AllReleased(c.poolMap, sandboxes), lost, c')
  {
    var sandboxes := Listing(c, order);
    var granted, segments := NewAssignments(c.poolMap, sandboxes, pods), RoundSegments(c.poolMap, sandboxes, pods);
    assert AnnotationsWritten(writes, c.poolMap, sandboxes, segments);
    hide NewAssignments, AllReleased, FinalAllocation, Panics, RoundSegments, AnnotationsWritten, Consistent;
    NamesOfListing(c, order);
    RoundConsistent(c.poolMap, sandboxes, pods);
    MapEffectFollows(c, sandboxes, pods, c');
    GrantEffectFollows(c, order, granted, segments);
    AnnotateKeys(c.sandboxes, writes, lost);
    forall s | s in c.sandboxes
      ensures SandboxEffect(c, granted, lost, c', s)
    {
      AnnotationsFollow(c, order, writes, lost, c', granted, segments, s);
    }
    hide SandboxEffect, GrantEffect, MapEffect;
  }

  ghost predicate FinalIs(alloc: Allocation, sandboxes: seq<BatchSandbox>, pods: seq<Pod>, p: PodName) {
    var final, granted := FinalAllocation(alloc, sandboxes, pods), NewAssignments(alloc, sandboxes, pods);
    && (p in granted ==> p !in alloc)
    && (p in final <==>
         && p !in AllReleased(alloc, sandboxes)
         && (p in granted || (p in alloc && alloc[p] in Names(sandboxes))))
    && (p in final ==> final[p] == if p in granted then granted[p] else alloc[p])
  }

  lemma {:induction false} NamesOfListing(c: Cluster, order: seq<SandboxName>)
    requires IsListing(c, order)
    ensures Names(Listing(c, order)) == c.sandboxes.Keys && DistinctNames(Listing(c, order))
  {
    var sandboxes := Listing(c, order);
    forall n | n in c.sandboxes
      ensures n in Names(sandboxes)
    {
      assert n in ToSet(order);
      var i :| 0 <= i < |order| && order[i] == n;
      assert sandboxes[i].name == n;
    }
    forall i | 0 <= i < |order|
      ensures sandboxes[i].name in c.sandboxes
    {
      assert order[i] in ToSet(order);
    }
  }

  lemma {:induction false} MapEffectFollows(c: Cluster, sandboxes: seq<BatchSandbox>, pods: seq<Pod>, c': Cluster)
    requires Names(sandboxes) == c.sandboxes.Keys && c'.poolMap == FinalAllocation(c.poolMap, sandboxes, pods)
    requires DistinctPods(pods) && !Panics(c.poolMap, sandboxes)
    ensures MapEffect(c, NewAssignments(c.poolMap, sandboxes, pods), AllReleased(c.poolMap, sandboxes), c')
    ensures forall p :: p in NewAssignments(c.poolMap, sandboxes, pods) ==> p !in c.poolMap
  {
    hide NewAssignments, AllReleased, FinalAllocation, Panics, DistinctPods;
    forall p
      ensures FinalIs(c.poolMap, sandboxes, pods, p)
    {
      FinalAllocationIs(c.poolMap, sandboxes, pods, p);
    }
    var granted, released := NewAssignments(c.poolMap, sandboxes, pods), AllReleased(c.poolMap, sandboxes);
    forall p
      ensures p in granted ==> p !in c.poolMap
      ensures p in c'.poolMap <==> p !in released && (p in granted || (p in c.poolMap && c.poolMap[p] in c.sandboxes))
      ensures p in c'.poolMap ==> c'.poolMap[p] == if p in granted then granted[p] else c.poolMap[p]
    {
      assert FinalIs(c.poolMap, sandboxes, pods, p);
    }
  }

  lemma {:induction false} GrantEffectFollows(c: Cluster, order: seq<SandboxName>, granted: Allocation,
                                              segments: seq<seq<PodName>>)
    requires IsListing(c, order) && Consistent(Listing(c, order), granted, segments)
    requires forall p :: p in granted ==> p !in c.poolMap
    ensures GrantEffect(c, granted)
  {
    var sandboxes := Listing(c, order);
    forall p | p in granted
      ensures granted[p] in c.sandboxes && !c.sandboxes[granted[p]].deleting
    {
      var i :| 0 <= i < |segments| && p in segments[i];
      assert order[i] in ToSet(order);
      assert Active(sandboxes[i]);
    }
  }

  lemma {:induction false} AnnotationsFollow(c: Cluster, order: seq<SandboxName>,
                                             writes: map<SandboxName, seq<PodName>>, lost: set<SandboxName>,
                                             c': Cluster, granted: Allocation, segments: seq<seq<PodName>>,
                                                 s: SandboxName)
    requires IsListing(c, order) && Consistent(Listing(c, order), granted, segments) && s in c.sandboxes
    requires AnnotationsWritten(writes, c.poolMap, Listing(c, order), segments)
    requires c'.sandboxes == Annotate(c.sandboxes, writes, lost)
    ensures SandboxEffect(c, granted, lost, c', s)
  {
    hide SandboxEffect, Annotate, Consistent, AnnotationsWritten, IsNewAnnotation, SandboxDirty;
    assert s in ToSet(order);
    var i :| 0 <= i < |order| && order[i] == s;
    assert |segments| == |order| by {
      ConsistentSize(Listing(c, order), granted, segments);
    }
    ConsistentAt(Listing(c, order), granted, segments, writes, c.poolMap, i);
    SandboxIsAnnotated(c, Listing(c, order)[i], writes, lost, c', granted, segments[i]);
  }

  lemma {:induction false} ConsistentSize(sandboxes: seq<BatchSandbox>, granted: Allocation,
                                          segments: seq<seq<PodName>>)
    requires Consistent(sandboxes, granted, segments)
    ensures |segments| == |sandboxes|
  {
  }

  lemma {:induction false} ConsistentAt(sandboxes: seq<BatchSandbox>, granted: Allocation, segments: seq<seq<PodName>>,
                     writes: map<SandboxName, seq<PodName>>, alloc: Allocation, i: nat)
    requires i < |sandboxes| == |segments| && Consistent(sandboxes, granted, segments)
    requires AnnotationsWritten(writes, alloc, sandboxes, segments)
    ensures forall p :: p in segments[i] <==> p in granted && granted[p] == sandboxes[i].name
    ensures !Active(sandboxes[i]) ==> segments[i] == []
    ensures sandboxes[i].name in writes <==> SandboxDirty(alloc, sandboxes[i], segments[i])
    ensures sandboxes[i].name in writes ==> IsNewAnnotation(writes[sandboxes[i].name], alloc, sandboxes[i], segments[i])
  {
    hide SandboxDirty, IsNewAnnotation;
  }

  lemma {:induction false} AnnotateKeys(sandboxes: map<SandboxName, SandboxState>,
                                        writes: map<SandboxName, seq<PodName>>, lost: set<SandboxName>)
    ensures Annotate(sandboxes, writes, lost).Keys == sandboxes.Keys
  {
  }

  lemma {:induction false} SandboxIsAnnotated(c: Cluster, b: BatchSandbox, writes: map<SandboxName, seq<PodName>>,
                                              lost: set<SandboxName>, c': Cluster, granted: Allocation,
                                              segment: seq<PodName>)
    requires b.name in c.sandboxes && b == AsListed(b.name, c.sandboxes[b.name])
    requires c'.sandboxes == Annotate(c.sandboxes, writes, lost)
    requires forall p :: p in segment <==> p in granted && granted[p] == b.name
    requires !Active(b) ==> segment == []
    requires b.name in writes <==> SandboxDirty(c.poolMap, b, segment)
    requires b.name in writes ==> IsNewAnnotation(writes[b.name], c.poolMap, b, segment)
    ensures SandboxEffect(c, granted, lost, c', b.name)
  {
    if b.name in writes && b.name !in lost {
      NewListHolds(writes[b.name], c.poolMap, b, segment);
    } else if b.name !in lost && Active(b) {
      assert segment == [] && Unsynced(c.poolMap, b) == {};
      forall p | p in c.poolMap && c.poolMap[p] == b.name
        ensures p in b.alloc.pods
      {
        assert p !in Unsynced(c.poolMap, b);
      }
    }
  }

  lemma {:induction false} NewListHolds(w: seq<PodName>, alloc: Allocation, s: BatchSandbox, segment: seq<PodName>)
    requires IsNewAnnotation(w, alloc, s, segment)
    ensures forall p :: p in w <==> p in s.alloc.pods || p in Unsynced(alloc, s) || p in segment
  {
    var middle :| w == s.alloc.pods + middle + segment && Distinct(middle) && ToSet(middle) == Unsynced(alloc, s);
    forall p
      ensures p in middle <==> p in Unsynced(alloc, s)
    {
      assert p in middle <==> p in ToSet(middle);
    }
  }

  // ------------------------------------------------------------------
  // Main results
  // ------------------------------------------------------------------

  ghost predicate ProcessedReleases(c: Cluster, released: set<PodName>) {
    forall p :: p in released <==> exists s :: s in c.sandboxes && HasIndexEntry(c, s) && p in c.sandboxes[s].release
  }

  /** After a reconcile the map holds no pod of a release list it processed. */
  lemma {:induction false} EffectKeepsReleases(c: Cluster, granted: Allocation, released: set<PodName>,
                                               lost: set<SandboxName>, c': Cluster)
    requires Effect(c, granted, released, lost, c') && ProcessedReleases(c, released)
    ensures NoForeignRelease(c')
  {
    forall s, p | s in c'.sandboxes && HasIndexEntry(c', s) && p in c'.sandboxes[s].release
      ensures p !in c'.poolMap
    {
      assert SandboxEffect(c, granted, lost, c', s);
      if c'.sandboxes[s].deleting {
        var q :| q in Owned(c'.poolMap, s);
        assert q !in granted;
        assert q in Owned(c.poolMap, s);
      }
      assert HasIndexEntry(c, s);
    }
  }

  lemma {:induction false} OwnedIsNotReleased(c: Cluster, released: set<PodName>, s: SandboxName, p: PodName)
    requires NoForeignRelease(c) && ProcessedReleases(c, released)
    requires s in c.sandboxes && p in c.poolMap && c.poolMap[p] == s && p !in c.sandboxes[s].release
    ensures p !in released
  {
    forall t | t in c.sandboxes && HasIndexEntry(c, t)
      ensures p !in c.sandboxes[t].release
    {
    }
  }

  lemma {:induction false} EffectOnPod(c: Cluster, granted: Allocation, released: set<PodName>, lost: set<SandboxName>,
                                       c': Cluster, p: PodName)
    requires Effect(c, granted, released, lost, c')
    ensures p in granted ==> p !in c.poolMap && granted[p] in c.sandboxes
    ensures p in c'.poolMap <==> p !in released && (p in granted || (p in c.poolMap && c.poolMap[p] in c.sandboxes))
    ensures p in c'.poolMap ==> c'.poolMap[p] == if p in granted then granted[p] else c.poolMap[p]
  {
    assert GrantEffect(c, granted) && MapEffect(c, granted, released, c');
    hide Effect, SandboxEffect;
  }

  lemma {:induction false} EffectOnSandbox(c: Cluster, granted: Allocation, released: set<PodName>,
                                           lost: set<SandboxName>, c': Cluster, s: SandboxName)
    requires Effect(c, granted, released, lost, c') && s in c.sandboxes
    ensures s in c'.sandboxes && SandboxEffect(c, granted, lost, c', s)
  {
    hide GrantEffect, MapEffect;
  }

  lemma {:induction false} EffectKeepsOwnership(c: Cluster, granted: Allocation, released: set<PodName>,
                                                lost: set<SandboxName>, c': Cluster)
    requires Inv(c) && Effect(c, granted, released, lost, c') && ProcessedReleases(c, released)
    requires Safe(c, granted, released, lost)
    requires c'.sandboxes.Keys == c.sandboxes.Keys
    ensures LiveIsOwned(c')
  {
    hide Effect, ProcessedReleases, Safe;
    forall s, p | s in c'.sandboxes && p in c'.sandboxes[s].alloc && p !in c'.sandboxes[s].release
      ensures p in c'.poolMap && c'.poolMap[p] == s
    {
      EffectOnSandbox(c, granted, released, lost, c', s);
      EffectOnPod(c, granted, released, lost, c', p);
      if p in granted && granted[p] == s {
        SafeOnPod(c, granted, released, lost, p);
      } else {
        OwnedIsNotReleased(c, released, s, p);
      }
    }
  }

  lemma {:induction false} SafeOnPod(c: Cluster, granted: Allocation, released: set<PodName>,
                                     lost: set<SandboxName>, p: PodName)
    requires Safe(c, granted, released, lost)
    ensures p in released ==> Excused(c, granted, lost, p)
  {
  }

  lemma {:induction false} UnsafeEffectLosesAPod(c: Cluster, granted: Allocation, released: set<PodName>,
                                                 lost: set<SandboxName>, c': Cluster)
    requires Effect(c, granted, released, lost, c') && !Safe(c, granted, released, lost)
    ensures !LiveIsOwned(c')
  {
    hide Effect;
    var p :| p in released && !Excused(c, granted, lost, p);
    var s := granted[p];
    assert !c.sandboxes[s].deleting by {
      GrantedIsActive(c, granted, released, lost, c', p);
    }
    EffectOnPod(c, granted, released, lost, c', p);
    EffectOnSandbox(c, granted, released, lost, c', s);
    assert p in c'.sandboxes[s].alloc && p !in c'.sandboxes[s].release;
  }

  lemma {:induction false} GrantedIsActive(c: Cluster, granted: Allocation, released: set<PodName>,
                                           lost: set<SandboxName>, c': Cluster, p: PodName)
    requires Effect(c, granted, released, lost, c') && p in granted
    ensures granted[p] in c.sandboxes && !c.sandboxes[granted[p]].deleting
  {
    hide SandboxEffect, MapEffect;
  }

  lemma {:induction false} StepIsListed(c: Cluster, order: seq<SandboxName>, pods: seq<Pod>,
                                        writes: map<SandboxName, seq<PodName>>, lost: set<SandboxName>, c': Cluster)
    requires ReconcileStep(c, order, pods, writes, lost, true, c')
    ensures IsListing(c, order) && forall n :: n in order ==> n in c.sandboxes
  {
    assert forall n :: n in order ==> n in ToSet(order);
  }

  lemma {:induction false} ReconcileFacts(c: Cluster, order: seq<SandboxName>, pods: seq<Pod>,
                                          writes: map<SandboxName, seq<PodName>>, lost: set<SandboxName>, c': Cluster)
    requires ReconcileStep(c, order, pods, writes, lost, true, c')
    requires (forall n :: n in order ==> n in c.sandboxes) && !Panics(c.poolMap, Listing(c, order))
    ensures var sandboxes := Listing(c, order);
      var granted, released := NewAssignments(c.poolMap, sandboxes, pods), AllReleased(c.poolMap, sandboxes);
      && Effect(c, granted, released, lost, c')
      && ProcessedReleases(c, released)
  {
    hide NewAssignments, AllReleased, Effect, ReconcileStep, Panics, HasIndexEntry;
    assert IsListing(c, order) by {
      StepIsListed(c, order, pods, writes, lost, c');
    }
    ReconcileHasEffect(c, order, pods, writes, lost, c');
    forall p
      ensures p in AllReleased(c.poolMap, Listing(c, order)) <==>
        exists s :: s in c.sandboxes && HasIndexEntry(c, s) && p in c.sandboxes[s].release
    {
      ReleasedInCluster(c, order, p);
    }
  }

  /**
   * A reconcile, whichever annotation patches are lost, keeps every live pod
   * owned exactly when no pod becomes live while a processed release list
   * strikes it from the map: its annotation was lost too, or its receiver
   * already lists it as released.
   */
  lemma {:induction false} OwnershipKeptIffSafe(c: Cluster, order: seq<SandboxName>, pods: seq<Pod>,
                                                writes: map<SandboxName, seq<PodName>>, lost: set<SandboxName>,
                                                c': Cluster)
    requires Inv(c) && ReconcileStep(c, order, pods, writes, lost, true, c') && !Panics(c.poolMap, Listing(c, order))
    ensures LiveIsOwned(c') <==> SafeAssign(c, order, pods, lost)
  {
    ReconcileFacts(c, order, pods, writes, lost, c');
    var granted := NewAssignments(c.poolMap, Listing(c, order), pods);
    var released := AllReleased(c.poolMap, Listing(c, order));
    hide NewAssignments, AllReleased, Effect, ProcessedReleases, Safe, LiveIsOwned, ReconcileStep, Panics;
    if Safe(c, granted, released, lost) {
      EffectKeepsOwnership(c, granted, released, lost, c');
    } else {
      UnsafeEffectLosesAPod(c, granted, released, lost, c');
    }
  }

  /** Lost annotation patches do no harm: the pool map alone carries ownership to the next round. */
  lemma {:induction false} SafeReconcileKeepsInv(c: Cluster, order: seq<SandboxName>, pods: seq<Pod>,
                                                 writes: map<SandboxName, seq<PodName>>, lost: set<SandboxName>,
                                                 c': Cluster)
    requires Inv(c) && ReconcileStep(c, order, pods, writes, lost, true, c') && SafeAssign(c, order, pods, lost)
    ensures Inv(c')
  {
    if !Panics(c.poolMap, Listing(c, order)) {
      ReconcileFacts(c, order, pods, writes, lost, c');
      var granted := NewAssignments(c.poolMap, Listing(c, order), pods);
      var released := AllReleased(c.poolMap, Listing(c, order));
      hide NewAssignments, AllReleased, Effect, ProcessedReleases, Safe, ReconcileStep, Panics;
      EffectKeepsOwnership(c, granted, released, lost, c');
      EffectKeepsReleases(c, granted, released, lost, c');
    }
  }

  lemma {:induction false} ReofferingNothingIsSafe(c: Cluster, order: seq<SandboxName>, pods: seq<Pod>,
                                                   lost: set<SandboxName>)
    requires IsListing(c, order) && DistinctPods(pods) && !Panics(c.poolMap, Listing(c, order))
      && NothingReoffered(c, pods)
    ensures SafeAssign(c, order, pods, lost)
  {
    var sandboxes := Listing(c, order);
    var granted := NewAssignments(c.poolMap, sandboxes, pods);
    forall p | p in granted
      ensures p !in AllReleased(c.poolMap, sandboxes)
    {
      GrantedWasAvailable(c.poolMap, sandboxes, pods, p);
      hide NewAssignments, AllReleased, Available, Panics;
      assert forall s :: s in c.sandboxes ==> p !in c.sandboxes[s].release;
      ReleasedInCluster(c, order, p);
    }
    hide NewAssignments, AllReleased, Available, Panics;
  }

  lemma {:induction false} GrantedWasAvailable(alloc: Allocation, sandboxes: seq<BatchSandbox>, pods: seq<Pod>,
                                               p: PodName)
    requires p in NewAssignments(alloc, sandboxes, pods)
    ensures p in Available(alloc, pods)
  {
    hide Needs, Available, Assigned, Segment;
    var needs, avail := Needs(alloc, sandboxes), Available(alloc, pods);
    var i := WhoGot(NameList(sandboxes), Segments(needs, avail), |sandboxes|, p);
    SegmentWithin(needs, avail, i, p);
  }

  lemma {:induction false} SegmentWithin(needs: seq<int>, avail: seq<PodName>, i: nat, p: PodName)
    requires i < |needs| && p in Segment(needs, avail, i)
    ensures p in avail
  {
  }

  // ------------------------------------------------------------------
  // A pool map that is not persisted
  // ------------------------------------------------------------------

  /** No annotation that reached the server lists a newly assigned pod as live. */
  ghost predicate SafeUnpersisted(c: Cluster, order: seq<SandboxName>, pods: seq<Pod>, lost: set<SandboxName>)
    requires forall n :: n in order ==> n in c.sandboxes
  {
    var granted := NewAssignments(c.poolMap, Listing(c, order), pods);
    forall p :: Excused(c, granted, lost, p)
  }

  /** The annotations move on as in a full reconcile, the map does not. */
  ghost predicate AnnotatedOnly(c: Cluster, granted: Allocation, lost: set<SandboxName>, c': Cluster) {
    && c'.sandboxes.Keys == c.sandboxes.Keys && c'.poolMap == c.poolMap && GrantEffect(c, granted)
    && (forall s :: s in c.sandboxes ==> SandboxEffect(c, granted, lost, c', s))
  }

  lemma {:induction false} UnpersistedHasEffect(c: Cluster, order: seq<SandboxName>, pods: seq<Pod>,
                                                writes: map<SandboxName, seq<PodName>>, lost: set<SandboxName>,
                                                c': Cluster)
    requires ReconcileStep(c, order, pods, writes, lost, false, c') && !Panics(c.poolMap, Listing(c, order))
    ensures AnnotatedOnly(c, NewAssignments(c.poolMap, Listing(c, order), pods), lost, c')
  {
    var sandboxes := Listing(c, order);
    var granted, segments := NewAssignments(c.poolMap, sandboxes, pods), RoundSegments(c.poolMap, sandboxes, pods);
    assert AnnotationsWritten(writes, c.poolMap, sandboxes, segments);
    hide NewAssignments, AllReleased, FinalAllocation, Panics, RoundSegments, AnnotationsWritten, Consistent;
    NamesOfListing(c, order);
    RoundConsistent(c.poolMap, sandboxes, pods);
    MapEffectFollows(c, sandboxes, pods, Cluster(FinalAllocation(c.poolMap, sandboxes, pods), c.sandboxes));
    GrantEffectFollows(c, order, granted, segments);
    AnnotateKeys(c.sandboxes, writes, lost);
    forall s | s in c.sandboxes
      ensures SandboxEffect(c, granted, lost, c', s)
    {
      AnnotationsFollow(c, order, writes, lost, c', granted, segments, s);
    }
    hide SandboxEffect, GrantEffect, MapEffect;
  }

  lemma {:induction false} AnnotatedAt(c: Cluster, granted: Allocation, lost: set<SandboxName>, c': Cluster,
                                       s: SandboxName)
    requires AnnotatedOnly(c, granted, lost, c') && s in c.sandboxes
    ensures s in c'.sandboxes && SandboxEffect(c, granted, lost, c', s)
    ensures c'.poolMap == c.poolMap && c'.sandboxes.Keys == c.sandboxes.Keys
  {
    hide GrantEffect, SandboxEffect;
  }

  lemma {:induction false} GrantedAt(c: Cluster, granted: Allocation, lost: set<SandboxName>, c': Cluster, p: PodName)
    requires AnnotatedOnly(c, granted, lost, c') && p in granted
    ensures granted[p] in c.sandboxes && !c.sandboxes[granted[p]].deleting && p !in c.poolMap
    ensures c'.poolMap == c.poolMap && c'.sandboxes.Keys == c.sandboxes.Keys
  {
    hide SandboxEffect;
  }

  lemma {:induction false} ExcusedIfOwned(c: Cluster, granted: Allocation, lost: set<SandboxName>, c': Cluster,
                                          p: PodName)
    requires AnnotatedOnly(c, granted, lost, c') && LiveIsOwned(c')
    ensures Excused(c, granted, lost, p)
  {
    hide AnnotatedOnly;
    if p in granted && granted[p] !in lost {
      GrantedAt(c, granted, lost, c', p);
      AnnotatedAt(c, granted, lost, c', granted[p]);
      assert p in c'.sandboxes[granted[p]].alloc;
    }
  }

  lemma {:induction false} OwnedIfExcused(c: Cluster, granted: Allocation, lost: set<SandboxName>, c': Cluster,
                                          s: SandboxName, p: PodName)
    requires LiveIsOwned(c) && AnnotatedOnly(c, granted, lost, c') && Excused(c, granted, lost, p)
    requires s in c.sandboxes && s in c'.sandboxes && p in c'.sandboxes[s].alloc && p !in c'.sandboxes[s].release
    ensures p in c'.poolMap && c'.poolMap[p] == s
  {
    hide AnnotatedOnly;
    AnnotatedAt(c, granted, lost, c', s);
  }

  lemma {:induction false} AnnotatedOnlyOwnership(c: Cluster, granted: Allocation, lost: set<SandboxName>, c': Cluster)
    requires LiveIsOwned(c) && AnnotatedOnly(c, granted, lost, c')
    ensures LiveIsOwned(c') <==> forall p :: Excused(c, granted, lost, p)
  {
    assert c'.sandboxes.Keys == c.sandboxes.Keys;
    hide AnnotatedOnly, Excused;
    if LiveIsOwned(c') {
      forall p
        ensures Excused(c, granted, lost, p)
      {
        ExcusedIfOwned(c, granted, lost, c', p);
      }
    }
    if forall p :: Excused(c, granted, lost, p) {
      forall s, p | s in c'.sandboxes && p in c'.sandboxes[s].alloc && p !in c'.sandboxes[s].release
        ensures p in c'.poolMap && c'.poolMap[p] == s
      {
        OwnedIfExcused(c, granted, lost, c', s, p);
      }
    }
  }

  /**
   * A reconcile whose map is not persisted keeps every live pod owned exactly
   * when each newly assigned pod's annotation was lost too, or its receiver
   * already lists the pod as released.
   */
  lemma {:induction false} UnpersistedKeepsOwnershipIff(c: Cluster, order: seq<SandboxName>, pods: seq<Pod>,
                                                        writes: map<SandboxName, seq<PodName>>, lost: set<SandboxName>,
                                                        c': Cluster)
    requires LiveIsOwned(c) && ReconcileStep(c, order, pods, writes, lost, false, c')
      && !Panics(c.poolMap, Listing(c, order))
    ensures LiveIsOwned(c') <==> SafeUnpersisted(c, order, pods, lost)
  {
    UnpersistedHasEffect(c, order, pods, writes, lost, c');
    hide ReconcileStep, NewAssignments, AnnotatedOnly, Panics, LiveIsOwned;
    AnnotatedOnlyOwnership(c, NewAssignments(c.poolMap, Listing(c, order), pods), lost, c');
  }

  lemma {:induction false} AnnotatedOnlyReleases(c: Cluster, granted: Allocation, lost: set<SandboxName>, c': Cluster)
    requires NoForeignRelease(c) && AnnotatedOnly(c, granted, lost, c')
    ensures NoForeignRelease(c')
  {
    forall s, p | s in c'.sandboxes && HasIndexEntry(c', s) && p in c'.sandboxes[s].release && p in c'.poolMap
      ensures c'.poolMap[p] == s
    {
      assert SandboxEffect(c, granted, lost, c', s);
      assert HasIndexEntry(c, s);
    }
  }

  lemma {:induction false} SafeUnpersistedKeepsInv(c: Cluster, order: seq<SandboxName>, pods: seq<Pod>,
                                                   writes: map<SandboxName, seq<PodName>>, lost: set<SandboxName>,
                                                   c': Cluster)
    requires Inv(c) && ReconcileStep(c, order, pods, writes, lost, false, c') && SafeUnpersisted(c, order, pods, lost)
    ensures Inv(c')
  {
    if !Panics(c.poolMap, Listing(c, order)) {
      UnpersistedKeepsOwnershipIff(c, order, pods, writes, lost, c');
      UnpersistedHasEffect(c, order, pods, writes, lost, c');
      hide ReconcileStep, NewAssignments, AnnotatedOnly, Panics, LiveIsOwned, NoForeignRelease, SafeUnpersisted;
      AnnotatedOnlyReleases(c, NewAssignments(c.poolMap, Listing(c, order), pods), lost, c');
    }
  }

  // ------------------------------------------------------------------
  // When one reconcile shares a pod
  // ------------------------------------------------------------------

  /** No sandbox is told of a pod it has not released while the pod is live in another. */
  ghost predicate NoShare(c: Cluster, granted: Allocation, lost: set<SandboxName>) {
    forall s, t, p ::
      s in c.sandboxes && t in c.sandboxes && s != t && s !in lost
      && Receives(c, granted, s, p) && p !in c.sandboxes[s].release
      ==> p !in Live(c.sandboxes[t])
  }

  /** What a reconcile, persisted or not, does to the annotations. */
  ghost predicate Told(c: Cluster, granted: Allocation, lost: set<SandboxName>, c': Cluster) {
    && c'.sandboxes.Keys == c.sandboxes.Keys && GrantEffect(c, granted)
    && (forall s :: s in c.sandboxes ==> SandboxEffect(c, granted, lost, c', s))
  }

  lemma {:induction false} ReconcileTells(c: Cluster, order: seq<SandboxName>, pods: seq<Pod>,
                                          writes: map<SandboxName, seq<PodName>>, lost: set<SandboxName>,
                                          persisted: bool, c': Cluster)
    requires ReconcileStep(c, order, pods, writes, lost, persisted, c') && !Panics(c.poolMap, Listing(c, order))
    ensures Told(c, NewAssignments(c.poolMap, Listing(c, order), pods), lost, c')
  {
    if persisted {
      ReconcileHasEffect(c, order, pods, writes, lost, c');
    } else {
      UnpersistedHasEffect(c, order, pods, writes, lost, c');
    }
    hide ReconcileStep, NewAssignments, AllReleased, Panics, GrantEffect, MapEffect, SandboxEffect;
  }

  lemma {:induction false} LiveAfter(c: Cluster, granted: Allocation, lost: set<SandboxName>, c': Cluster,
                                     s: SandboxName, p: PodName)
    requires Told(c, granted, lost, c') && s in c.sandboxes
    ensures s in c'.sandboxes
    ensures p in Live(c'.sandboxes[s]) <==>
      || p in Live(c.sandboxes[s])
      || (s !in lost && Receives(c, granted, s, p) && p !in c.sandboxes[s].release)
  {
    hide GrantEffect, Receives;
    assert SandboxEffect(c, granted, lost, c', s);
  }

  lemma {:induction false} OneReceiver(c: Cluster, granted: Allocation, s: SandboxName, t: SandboxName, p: PodName)
    requires GrantEffect(c, granted) && s in c.sandboxes && t in c.sandboxes && s != t && Receives(c, granted, s, p)
    ensures !Receives(c, granted, t, p)
  {
  }

  lemma {:induction false} ToldIsExclusiveIff(c: Cluster, granted: Allocation, lost: set<SandboxName>, c': Cluster)
    requires Exclusive(c) && Told(c, granted, lost, c')
    ensures Exclusive(c') <==> NoShare(c, granted, lost)
  {
    assert c'.sandboxes.Keys == c.sandboxes.Keys && GrantEffect(c, granted);
    hide Told, Live, GrantEffect, Receives;
    if Exclusive(c') {
      forall s, t, p | s in c.sandboxes && t in c.sandboxes && s != t && s !in lost
                       && Receives(c, granted, s, p) && p !in c.sandboxes[s].release
        ensures p !in Live(c.sandboxes[t])
      {
        LiveAfter(c, granted, lost, c', s, p);
        LiveAfter(c, granted, lost, c', t, p);
        assert Live(c'.sandboxes[s]) !! Live(c'.sandboxes[t]);
      }
    }
    if NoShare(c, granted, lost) {
      forall s, t, p | s in c'.sandboxes && t in c'.sandboxes && s != t && p in Live(c'.sandboxes[s])
        ensures p !in Live(c'.sandboxes[t])
      {
        LiveAfter(c, granted, lost, c', s, p);
        LiveAfter(c, granted, lost, c', t, p);
        assert Live(c.sandboxes[s]) !! Live(c.sandboxes[t]);
        if Receives(c, granted, s, p) {
          OneReceiver(c, granted, s, t, p);
        }
      }
    }
  }

  /**
   * A reconcile, persisted or not and whichever patches are lost, keeps the
   * live sets disjoint exactly when no sandbox is told of an unreleased pod
   * that is live in another.
   */
  lemma {:induction false} ExclusiveKeptIff(c: Cluster, order: seq<SandboxName>, pods: seq<Pod>,
                                            writes: map<SandboxName, seq<PodName>>, lost: set<SandboxName>,
                                            persisted: bool, c': Cluster)
    requires Exclusive(c)
    requires ReconcileStep(c, order, pods, writes, lost, persisted, c') && !Panics(c.poolMap, Listing(c, order))
    ensures Exclusive(c') <==> NoShare(c, NewAssignments(c.poolMap, Listing(c, order), pods), lost)
  {
    ReconcileTells(c, order, pods, writes, lost, persisted, c');
    hide ReconcileStep, NewAssignments, Panics, Exclusive, Told, NoShare;
    ToldIsExclusiveIff(c, NewAssignments(c.poolMap, Listing(c, order), pods), lost, c');
  }

  /** While every live pod is owned no single reconcile shares one: ownership is lost a step before exclusivity. */
  lemma {:induction false} OwnedIsNotShared(c: Cluster, granted: Allocation, lost: set<SandboxName>)
    requires LiveIsOwned(c) && GrantEffect(c, granted)
    ensures NoShare(c, granted, lost)
  {
  }

  lemma {:induction false} NewListExtends(w: seq<PodName>, alloc: Allocation, s: BatchSandbox, segment: seq<PodName>)
    requires IsNewAnnotation(w, alloc, s, segment)
    ensures s.alloc.pods <= w
  {
  }

  /** A reconcile only appends to a sandbox's list, so the position of a pod in it never changes. */
  lemma {:induction false} ListsOnlyGrow(c: Cluster, order: seq<SandboxName>, pods: seq<Pod>,
                                         writes: map<SandboxName, seq<PodName>>, lost: set<SandboxName>,
                                         persisted: bool, c': Cluster, s: SandboxName)
    requires ReconcileStep(c, order, pods, writes, lost, persisted, c') && s in c.sandboxes
    ensures s in c'.sandboxes && c.sandboxes[s].alloc <= c'.sandboxes[s].alloc
  {
    if !Panics(c.poolMap, Listing(c, order)) {
      var sandboxes := Listing(c, order);
      var segments := RoundSegments(c.poolMap, sandboxes, pods);
      assert AnnotationsWritten(writes, c.poolMap, sandboxes, segments);
      NamesOfListing(c, order);
      hide RoundSegments, Panics, NewAssignments, FinalAllocation, AnnotationsWritten, IsNewAnnotation, SandboxDirty;
      RoundConsistent(c.poolMap, sandboxes, pods);
      assert s in ToSet(order);
      var i :| 0 <= i < |order| && order[i] == s;
      ConsistentSize(sandboxes, NewAssignments(c.poolMap, sandboxes, pods), segments);
      ConsistentAt(sandboxes, NewAssignments(c.poolMap, sandboxes, pods), segments, writes, c.poolMap, i);
      if s in writes && s !in lost {
        NewListExtends(writes[s], c.poolMap, sandboxes[i], segments[i]);
      }
      hide Consistent;
    }
  }

  /** The guard of an event: only reconciles have one. */
  ghost predicate SafeEvent(c: Cluster, e: Event) {
    match e
    case Reconcile(order, pods, writes, lost) =>
      IsListing(c, order) && (forall n :: n in order ==> n in c.sandboxes) && SafeAssign(c, order, pods, lost)
    case Unpersisted(order, pods, writes, lost) =>
      IsListing(c, order) && (forall n :: n in order ==> n in c.sandboxes) && SafeUnpersisted(c, order, pods, lost)
    case _ => true
  }

  /** Every step keeps the invariant; only reconciles need the hypothesis. */
  lemma {:induction false} StepKeepsInv(c: Cluster, e: Event, c': Cluster)
    requires Inv(c) && Step(c, e, c') && SafeEvent(c, e)
    ensures Inv(c')
  {
    hide SafeAssign, SafeUnpersisted, ReconcileStep, Inv, IsListing;
    match e
    case Reconcile(order, pods, writes, lost) =>
      SafeReconcileKeepsInv(c, order, pods, writes, lost, c');
    case Unpersisted(order, pods, writes, lost) =>
      SafeUnpersistedKeepsInv(c, order, pods, writes, lost, c');
    case WriteRelease(n, released) =>
      ReleaseKeepsInv(c, n, released, c');
    case _ =>
      EnvironmentKeepsInv(c, e, c');
  }

  lemma {:induction false} EnvironmentKeepsInv(c: Cluster, e: Event, c': Cluster)
    requires Inv(c) && Step(c, e, c') && !e.Reconcile? && !e.Unpersisted? && !e.WriteRelease?
    ensures Inv(c')
  {
    hide ReconcileStep, Owned;
    assert forall s :: s in c'.sandboxes && HasIndexEntry(c', s) && s in c.sandboxes ==> HasIndexEntry(c, s);
  }

  lemma {:induction false} ReleaseKeepsInv(c: Cluster, n: SandboxName, released: set<PodName>, c': Cluster)
    requires Inv(c) && Step(c, WriteRelease(n, released), c')
    ensures Inv(c')
  {
    hide ReconcileStep;
    assert forall p :: p in c'.sandboxes[n].release <==> p in ToSet(c'.sandboxes[n].release);
    forall s, p | s in c'.sandboxes && HasIndexEntry(c', s) && p in c'.sandboxes[s].release && p in c'.poolMap
      ensures c'.poolMap[p] == s
    {
      assert HasIndexEntry(c, s);
      if s == n && p !in c.sandboxes[n].release {
        assert p in released;
        assert p in c.sandboxes[n].alloc;
      }
    }
  }

  lemma {:induction false} EmptyClusterIsFine(c: Cluster)
    requires c.sandboxes == map[]
    ensures Inv(c)
  {
  }

  ghost predicate Run(cs: seq<Cluster>, es: seq<Event>) {
    && |cs| == |es| + 1
    && cs[0] == Cluster(map[], map[])
    && forall i :: 0 <= i < |es| ==> Step(cs[i], es[i], cs[i + 1])
  }

  ghost predicate SafeRun(cs: seq<Cluster>, es: seq<Event>)
    requires |cs| == |es| + 1
  {
    forall i :: 0 <= i < |es| ==> SafeEvent(cs[i], es[i])
  }

  /**
   * Over every run from the empty cluster whose reconciles meet their guard,
   * the live pods of any two sandboxes are disjoint and each is owned by its
   * sandbox in the pool map. Replicas may shrink, annotation patches and map
   * updates may be lost, names may be reused.
   */
  lemma {:induction false} RunsAreExclusive(cs: seq<Cluster>, es: seq<Event>, k: nat)
    requires Run(cs, es) && SafeRun(cs, es) && k < |cs|
    ensures Inv(cs[k]) && LiveIsOwned(cs[k]) && Exclusive(cs[k])
  {
    hide Step, SafeEvent, LiveIsOwned, NoForeignRelease, Exclusive;
    if k > 0 {
      RunsAreExclusive(cs, es, k - 1);
      assert Step(cs[k - 1], es[k - 1], cs[k - 1 + 1]) && SafeEvent(cs[k - 1], es[k - 1]);
      StepKeepsInv(cs[k - 1], es[k - 1], cs[k]);
    } else {
      EmptyClusterIsFine(cs[0]);
    }
    OwnershipIsExclusive(cs[k]);
  }
}
