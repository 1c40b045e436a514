/**
 * Demand over runs: when the slice in doAllocate can go out of range, and why
 * it never does while replicas do not shrink and names are not reused early.
 */
module PoolDemand {
  import opened Common
  import opened PoolAllocator
  import opened PoolRuns

  /** Pods a sandbox counts as its own: those it lists and those only the pool map gives it. */
  function HeldBy(poolMap: Allocation, name: SandboxName, alloc: seq<PodName>): nat {
    |alloc| + |Owned(poolMap, name) - ToSet(alloc)|
  }

  ghost predicate FitsAt(c: Cluster, s: SandboxName)
    requires s in c.sandboxes
  {
    c.sandboxes[s].deleting || HeldBy(c.poolMap, s, c.sandboxes[s].alloc) <= c.sandboxes[s].replicas
  }

  /** No sandbox holds more pods than it has replicas. */
  ghost predicate Fits(c: Cluster) {
    forall s :: s in c.sandboxes ==> FitsAt(c, s)
  }

  lemma {:induction false} NeedIs(poolMap: Allocation, name: SandboxName, s: SandboxState)
    ensures Need(poolMap, AsListed(name, s)) == if s.deleting then 0 else s.replicas - HeldBy(poolMap, name, s.alloc)
  {
  }

  /** A reconcile slices out of range exactly when some sandbox holds more than its replicas. */
  lemma {:induction false} PanicsIffOverfull(c: Cluster, order: seq<SandboxName>)
    requires IsListing(c, order)
    ensures Panics(c.poolMap, Listing(c, order)) <==> !Fits(c)
  {
    hide HeldBy, Need;
    var sandboxes := Listing(c, order);
    var needs := Needs(c.poolMap, sandboxes);
    forall i | 0 <= i < |order|
      ensures order[i] in c.sandboxes && (0 <= needs[i] <==> FitsAt(c, order[i]))
    {
      assert order[i] in ToSet(order);
      NeedIs(c.poolMap, order[i], c.sandboxes[order[i]]);
    }
    forall s | s in c.sandboxes
      ensures exists i :: 0 <= i < |order| && order[i] == s
    {
      assert s in ToSet(order);
    }
    hide FitsAt;
    if Fits(c) {
      assert Servable(needs);
    } else {
      var s :| s in c.sandboxes && !FitsAt(c, s);
      var i :| 0 <= i < |order| && order[i] == s;
      assert !(0 <= needs[i]);
    }
  }

  /** A new name owns nothing beyond its replicas, and replicas stay above what is held. */
  ghost predicate Steady(c: Cluster, e: Event) {
    match e
    case Create(n, r) => |Owned(c.poolMap, n)| <= r
    case Resize(n, r) => n in c.sandboxes ==> c.sandboxes[n].deleting || HeldBy(c.poolMap, n, c.sandboxes[n].alloc) <= r
    case _ => true
  }

  lemma {:induction false} ToSetSize(s: seq<PodName>)
    ensures |ToSet(s)| <= |s|
  {
    if s != [] {
      var n := |s| - 1;
      ToSetSize(s[..n]);
      assert s == s[..n] + [s[n]];
      assert ToSet(s) == ToSet(s[..n]) + {s[n]};
    }
  }

  lemma {:induction false} OwnedAfter(c: Cluster, granted: Allocation, released: set<PodName>, c': Cluster,
                                      s: SandboxName, segment: seq<PodName>)
    requires MapEffect(c, granted, released, c')
    requires forall p :: p in segment <==> p in granted && granted[p] == s
    ensures Owned(c'.poolMap, s) <= Owned(c.poolMap, s) + ToSet(segment)
  {
  }

  /** The annotation was written: it lists all that the map gives the sandbox. */
  lemma {:induction false} WrittenFits(w: seq<PodName>, alloc: Allocation, b: BatchSandbox, segment: seq<PodName>,
                                       owned: set<PodName>)
    requires IsNewAnnotation(w, alloc, b, segment) && owned <= Owned(alloc, b.name) + ToSet(segment)
    ensures |w| == |b.alloc.pods| + |Unsynced(alloc, b)| + |segment|
    ensures owned - ToSet(w) == {}
  {
    hide Owned;
    var middle :| w == b.alloc.pods + middle + segment && Distinct(middle) && ToSet(middle) == Unsynced(alloc, b);
    DistinctCardinality(middle);
    forall p | p in owned
      ensures p in w
    {
      assert p in b.alloc.pods || p in ToSet(middle) || p in ToSet(segment);
    }
  }

  /** It was not: what the map adds is at most the segment. */
  lemma {:induction false} UnwrittenFits(alloc: Allocation, b: BatchSandbox, segment: seq<PodName>, owned: set<PodName>)
    requires Active(b) && owned <= Owned(alloc, b.name) + ToSet(segment)
    ensures |owned - ToSet(b.alloc.pods)| <= |Unsynced(alloc, b)| + |segment|
  {
    var unsynced := Unsynced(alloc, b);
    SubsetCardinality(owned - ToSet(b.alloc.pods), unsynced + ToSet(segment));
    ToSetSize(segment);
    assert |unsynced + ToSet(segment)| <= |unsynced| + |ToSet(segment)|;
  }

  lemma {:induction false} ServedFits(c: Cluster, c': Cluster, b: BatchSandbox, segment: seq<PodName>,
                                      writes: map<SandboxName, seq<PodName>>, lost: set<SandboxName>)
    requires b.name in c.sandboxes && b == AsListed(b.name, c.sandboxes[b.name]) && !b.deleting
    requires Owned(c'.poolMap, b.name) <= Owned(c.poolMap, b.name) + ToSet(segment)
      && c'.sandboxes == Annotate(c.sandboxes, writes, lost)
    requires b.name in writes ==> IsNewAnnotation(writes[b.name], c.poolMap, b, segment)
    requires |segment| <= Need(c.poolMap, b)
    ensures b.name in c'.sandboxes && FitsAt(c', b.name)
  {
    hide Owned, IsNewAnnotation, ToSet;
    var owned := Owned(c'.poolMap, b.name);
    if b.name in writes && b.name !in lost {
      WrittenFits(writes[b.name], c.poolMap, b, segment, owned);
    } else {
      UnwrittenFits(c.poolMap, b, segment, owned);
    }
  }

  lemma {:induction false} SegmentFits(alloc: Allocation, sandboxes: seq<BatchSandbox>, pods: seq<Pod>, i: nat)
    requires i < |sandboxes| && !Panics(alloc, sandboxes)
    ensures |RoundSegments(alloc, sandboxes, pods)| == |sandboxes|
    ensures |RoundSegments(alloc, sandboxes, pods)[i]| <= Need(alloc, sandboxes[i])
  {
    hide Available, Need, Taken;
    var needs, avail := Needs(alloc, sandboxes), Available(alloc, pods);
    SegmentIs(needs, avail, i);
    assert needs[i] == Need(alloc, sandboxes[i]);
  }

  lemma {:induction false} EffectOnMap(c: Cluster, granted: Allocation, released: set<PodName>, lost: set<SandboxName>,
                                       c': Cluster)
    requires Effect(c, granted, released, lost, c')
    ensures MapEffect(c, granted, released, c') && c'.sandboxes.Keys == c.sandboxes.Keys
    ensures forall s :: s in c.sandboxes ==> c'.sandboxes[s].deleting == c.sandboxes[s].deleting
  {
    forall s | s in c.sandboxes
      ensures c'.sandboxes[s].deleting == c.sandboxes[s].deleting
    {
      assert SandboxEffect(c, granted, lost, c', s);
    }
  }

  /** What a reconcile did to the sandbox at one position of the listing. */
  lemma {:induction false} ServedAt(c: Cluster, order: seq<SandboxName>, pods: seq<Pod>,
                                    writes: map<SandboxName, seq<PodName>>, lost: set<SandboxName>, persisted: bool,
                                    c': Cluster, i: nat)
    requires IsListing(c, order) && DistinctPods(pods) && (forall n :: n in order ==> n in c.sandboxes)
    requires ReconcileStep(c, order, pods, writes, lost, persisted, c') && !Panics(c.poolMap, Listing(c, order))
    requires i < |order| && !c.sandboxes[order[i]].deleting
    requires c'.poolMap == c.poolMap
      || MapEffect(c, NewAssignments(c.poolMap, Listing(c, order), pods), AllReleased(c.poolMap, Listing(c, order)), c')
    ensures order[i] in c'.sandboxes && FitsAt(c', order[i])
  {
    var sandboxes := Listing(c, order);
    var granted, released := NewAssignments(c.poolMap, sandboxes, pods), AllReleased(c.poolMap, sandboxes);
    var segments := RoundSegments(c.poolMap, sandboxes, pods);
    assert AnnotationsWritten(writes, c.poolMap, sandboxes, segments)
      && c'.sandboxes == Annotate(c.sandboxes, writes, lost);
    NamesOfListing(c, order);
    hide NewAssignments, AllReleased, FinalAllocation, Panics, RoundSegments, AnnotationsWritten, Consistent,
        MapEffect, FitsAt, Annotate,
      IsNewAnnotation, SandboxDirty, DistinctNames, DistinctPods, Need, IsListing;
    RoundConsistent(c.poolMap, sandboxes, pods);
    SegmentFits(c.poolMap, sandboxes, pods, i);
    ConsistentAt(sandboxes, granted, segments, writes, c.poolMap, i);
    if c'.poolMap != c.poolMap {
      OwnedAfter(c, granted, released, c', order[i], segments[i]);
    }
    ServedFits(c, c', sandboxes[i], segments[i], writes, lost);
  }

  lemma {:induction false} ReconcileKeepsMarks(c: Cluster, order: seq<SandboxName>, pods: seq<Pod>,
                                               writes: map<SandboxName, seq<PodName>>, lost: set<SandboxName>,
                                               persisted: bool, c': Cluster)
    requires ReconcileStep(c, order, pods, writes, lost, persisted, c') && !Panics(c.poolMap, Listing(c, order))
    ensures c'.sandboxes.Keys == c.sandboxes.Keys
    ensures forall s :: s in c.sandboxes ==> c'.sandboxes[s].deleting == c.sandboxes[s].deleting
    ensures c'.poolMap == c.poolMap
      || MapEffect(c, NewAssignments(c.poolMap, Listing(c, order), pods), AllReleased(c.poolMap, Listing(c, order)), c')
  {
    hide NewAssignments, AllReleased, MapEffect;
    if persisted {
      ReconcileHasEffect(c, order, pods, writes, lost, c');
      hide ReconcileStep, Panics, Effect;
      EffectOnMap(c, NewAssignments(c.poolMap, Listing(c, order), pods), AllReleased(c.poolMap, Listing(c, order)),
                  lost, c');
    } else {
      UnpersistedHasEffect(c, order, pods, writes, lost, c');
      hide ReconcileStep, Panics, GrantEffect;
      forall s | s in c.sandboxes
        ensures c'.sandboxes[s].deleting == c.sandboxes[s].deleting
      {
        assert SandboxEffect(c, NewAssignments(c.poolMap, Listing(c, order), pods), lost, c', s);
      }
    }
  }

  lemma {:induction false} ReconcileKeepsFits(c: Cluster, order: seq<SandboxName>, pods: seq<Pod>,
                                              writes: map<SandboxName, seq<PodName>>, lost: set<SandboxName>,
                                              persisted: bool, c': Cluster)
    requires Fits(c) && ReconcileStep(c, order, pods, writes, lost, persisted, c')
    ensures Fits(c')
  {
    PanicsIffOverfull(c, order);
    ReconcileKeepsMarks(c, order, pods, writes, lost, persisted, c');
    forall s | s in c'.sandboxes
      ensures FitsAt(c', s)
    {
      assert s in ToSet(order);
      var i :| 0 <= i < |order| && order[i] == s;
      if !c.sandboxes[s].deleting {
        ServedAt(c, order, pods, writes, lost, persisted, c', i);
      }
      hide ReconcileStep, NewAssignments, AllReleased, MapEffect, Panics, Fits;
    }
    hide ReconcileStep, NewAssignments, AllReleased, MapEffect, Panics, FitsAt;
  }

  lemma {:induction false} CreateFitsIff(c: Cluster, n: SandboxName, r: int, c': Cluster)
    requires Fits(c) && Step(c, Create(n, r), c')
    ensures Fits(c') <==> |Owned(c.poolMap, n)| <= r
  {
    hide Owned, ReconcileStep;
    assert HeldBy(c.poolMap, n, []) == |Owned(c.poolMap, n)| by {
      assert Owned(c.poolMap, n) - ToSet<PodName>([]) == Owned(c.poolMap, n);
    }
    hide HeldBy;
    assert forall s :: s in c.sandboxes ==> FitsAt(c', s);
    if |Owned(c.poolMap, n)| > r {
      assert !FitsAt(c', n);
    }
  }

  lemma {:induction false} ResizeFitsIff(c: Cluster, n: SandboxName, r: int, c': Cluster)
    requires Fits(c) && Step(c, Resize(n, r), c')
    ensures Fits(c') <==> Steady(c, Resize(n, r))
  {
    hide HeldBy, ReconcileStep;
    assert forall s :: s in c.sandboxes && s != n ==> FitsAt(c', s);
    assert FitsAt(c', n) <==> Steady(c, Resize(n, r));
    hide FitsAt;
  }

  /**
   * A step leaves every sandbox within its replicas if and only if it is
   * steady; reconciles always are, also when annotation patches are lost.
   */
  lemma {:induction false} FitsIffSteady(c: Cluster, e: Event, c': Cluster)
    requires Fits(c) && Step(c, e, c')
    ensures Fits(c') <==> Steady(c, e)
  {
    hide HeldBy, ReconcileStep;
    match e
    case Create(n, r) => CreateFitsIff(c, n, r, c');
    case Resize(n, r) => ResizeFitsIff(c, n, r, c');
    case Reconcile(order, pods, writes, lost) => ReconcileKeepsFits(c, order, pods, writes, lost, true, c');
    case Unpersisted(order, pods, writes, lost) => ReconcileKeepsFits(c, order, pods, writes, lost, false, c');
    case MarkDeleting(n) => OthersKeepFits(c, e, c');
    case Remove(n) => OthersKeepFits(c, e, c');
    case WriteRelease(n, released) => OthersKeepFits(c, e, c');
  }

  lemma {:induction false} OthersKeepFits(c: Cluster, e: Event, c': Cluster)
    requires Fits(c) && Step(c, e, c') && (e.MarkDeleting? || e.Remove? || e.WriteRelease?)
    ensures Fits(c')
  {
    hide HeldBy, ReconcileStep;
    forall s | s in c'.sandboxes
      ensures FitsAt(c', s)
    {
      assert FitsAt(c, s);
    }
  }

  /**
   * On every run in which replicas never shrink below what is held and names
   * are reused only after their pods were collected, no reconcile slices out
   * of range.
   */
  lemma {:induction false} SteadyRunsNeverPanic(cs: seq<Cluster>, es: seq<Event>, k: nat)
    requires Run(cs, es) && k < |cs|
    requires forall i :: 0 <= i < k ==> Steady(cs[i], es[i])
    ensures Fits(cs[k])
    ensures forall order :: IsListing(cs[k], order) ==> !Panics(cs[k].poolMap, Listing(cs[k], order))
  {
    hide Step, Steady, FitsAt, Panics, Listing;
    if k > 0 {
      SteadyRunsNeverPanic(cs, es, k - 1);
      assert Step(cs[k - 1], es[k - 1], cs[k - 1 + 1]);
      FitsIffSteady(cs[k - 1], es[k - 1], cs[k]);
    }
    forall order | IsListing(cs[k], order)
      ensures !Panics(cs[k].poolMap, Listing(cs[k], order))
    {
      PanicsIffOverfull(cs[k], order);
    }
  }
}
