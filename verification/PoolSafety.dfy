/**
 * Allocation and scaling together, over whole runs: a reconcile deletes no pod
 * that any sandbox works with.
 */
module PoolSafety {
  import opened Common
  import opened PoolAllocator
  import opened PoolRuns
  import opened PoolScaling

  ghost predicate LiveSomewhere(c: Cluster, p: PodName) {
    exists s :: s in c.sandboxes && p in Live(c.sandboxes[s])
  }

  /** Nothing that is deleted is live for any sandbox. */
  ghost predicate SparesLive(c: Cluster, d: Decision) {
    forall p :: p in d.delete ==> !LiveSomewhere(c, p.name)
  }

  lemma {:induction false} LiveIsMapped(c: Cluster, p: PodName)
    requires LiveIsOwned(c)
    ensures LiveSomewhere(c, p) ==> p in c.poolMap
  {
    if LiveSomewhere(c, p) {
      var s :| s in c.sandboxes && p in Live(c.sandboxes[s]);
      assert p in c.sandboxes[s].alloc && p !in c.sandboxes[s].release;
    }
  }

  /** What the scaler deletes against the resulting map is live for no sandbox. */
  lemma {:induction false} DeletedIsNotLive(c: Cluster, d: Decision, pods: set<Pod>, supplement: int,
                                            revision: string, cap: Capacity)
    requires LiveIsOwned(c) && Decides(d, pods, c.poolMap, supplement, revision, cap)
    ensures SparesLive(c, d)
  {
    DeletesOnlyIdle(d, pods, c.poolMap, supplement, revision, cap);
    hide Decides, LiveIsOwned, LiveSomewhere;
    forall p | p in d.delete
      ensures !LiveSomewhere(c, p.name)
    {
      LiveIsMapped(c, p.name);
    }
  }

  /**
   * On every run whose reconciles meet their guard, whatever the scaler decides
   * after a reconcile against the map that results, no pod it deletes is live
   * for any sandbox at that point.
   */
  lemma {:induction false} RunsDeleteNoLivePod(cs: seq<Cluster>, es: seq<Event>, i: nat, d: Decision,
                                               supplement: int, revision: string, cap: Capacity)
    requires Run(cs, es) && SafeRun(cs, es) && i < |es| && es[i].Reconcile?
    requires Decides(d, ToSet(es[i].pods), cs[i + 1].poolMap, supplement, revision, cap)
    ensures SparesLive(cs[i + 1], d)
  {
    hide Decides, LiveIsOwned, Exclusive, Inv, Step, SafeRun, SparesLive;
    RunsAreExclusive(cs, es, i + 1);
    DeletedIsNotLive(cs[i + 1], d, ToSet(es[i].pods), supplement, revision, cap);
  }

  /** Pods the listed sandboxes still want when all available ones are handed out. */
  ghost function Shortfall(poolMap: Allocation, sandboxes: seq<BatchSandbox>, pods: seq<Pod>): int {
    var needs := Needs(poolMap, sandboxes);
    Max(0, TotalNeed(needs, |needs|) - |Available(poolMap, pods)|)
  }

  /** What a round hands to the rest of the reconcile. */
  ghost predicate IsRound(r: ScheduleResult, poolMap: Allocation, sandboxes: seq<BatchSandbox>, pods: seq<Pod>) {
    && (r.Panic? <==> Panics(poolMap, sandboxes))
    && (r.Scheduled? ==>
          && r.podAllocation == FinalAllocation(poolMap, sandboxes, pods)
          && r.podSupplement == Shortfall(poolMap, sandboxes, pods)
          && (!r.poolDirty ==> FinalAllocation(poolMap, sandboxes, pods) == poolMap)
          && AnnotationsWritten(r.writes, poolMap, sandboxes, RoundSegments(poolMap, sandboxes, pods)))
  }

  method RunRound(poolMap: Allocation, sandboxes: seq<BatchSandbox>, pods: seq<Pod>) returns (r: ScheduleResult)
    requires DistinctNames(sandboxes)
    ensures IsRound(r, poolMap, sandboxes, pods)
  {
    hide AnnotationsWritten, FinalAllocation, Panics, Needs, Segments, Available, TotalNeed, PoolDirty;
    r := Schedule(poolMap, sandboxes, pods);
    if r.Scheduled? && !r.poolDirty {
      CleanMeansUnchanged(poolMap, sandboxes, pods);
    }
  }

  /** The cluster after the writes of a round. */
  ghost predicate IsWritten(c: Cluster, r: ScheduleResult, lost: set<SandboxName>, c': Cluster) {
    if r.Panic? then c' == c
    else
      c' == Cluster(if r.poolDirty then r.podAllocation else c.poolMap, Annotate(c.sandboxes, r.writes, lost))
  }

  lemma {:induction false} WrittenIsStep(c: Cluster, order: seq<SandboxName>, pods: seq<Pod>, lost: set<SandboxName>,
                                         r: ScheduleResult, c': Cluster)
    requires IsListing(c, order) && DistinctPods(pods) && (forall n :: n in order ==> n in c.sandboxes)
    requires IsRound(r, c.poolMap, Listing(c, order), pods) && IsWritten(c, r, lost, c')
    ensures ReconcileStep(c, order, pods, if r.Panic? then map[] else r.writes, lost, true, c')
    ensures r.Scheduled? ==> c'.poolMap == r.podAllocation
  {
    hide AnnotationsWritten, FinalAllocation, Panics, Shortfall, RoundSegments, Annotate, IsListing, DistinctPods;
  }

  lemma {:induction false} SafeStepOwns(c: Cluster, order: seq<SandboxName>, pods: seq<Pod>,
                                        writes: map<SandboxName, seq<PodName>>, lost: set<SandboxName>, c': Cluster)
    requires forall n :: n in order ==> n in c.sandboxes
    requires Inv(c) && ReconcileStep(c, order, pods, writes, lost, true, c') && SafeAssign(c, order, pods, lost)
    ensures Inv(c') && LiveIsOwned(c')
  {
    SafeReconcileKeepsInv(c, order, pods, writes, lost, c');
    hide LiveIsOwned, NoForeignRelease, ReconcileStep, SafeAssign;
  }

  /** The controller's reconcile, allocation and scaling, on a cluster that meets the guard. */
  method ReconcileCluster(c: Cluster, order: seq<SandboxName>, pods: seq<Pod>, lost: set<SandboxName>,
                          revision: string, cap: Capacity)
    returns (c': Cluster, writes: map<SandboxName, seq<PodName>>, d: Decision)
    requires IsListing(c, order) && DistinctPods(pods) && (forall n :: n in order ==> n in c.sandboxes)
    requires Inv(c) && SafeAssign(c, order, pods, lost)
    ensures ReconcileStep(c, order, pods, writes, lost, true, c')
    ensures Inv(c') && SparesLive(c', d)
    ensures if Panics(c.poolMap, Listing(c, order)) then d == Decision(0, {})
            else Decides(d, ToSet(pods), c'.poolMap, Shortfall(c.poolMap, Listing(c, order), pods), revision, cap)
  {
    var sandboxes := Listing(c, order);
    NamesOfListing(c, order);
    hide AnnotationsWritten, FinalAllocation, Panics, Shortfall, RoundSegments, SafeAssign, Inv, Decides, IsListing,
      DistinctNames, DistinctPods, Annotate, LiveIsOwned, ReconcileStep, LiveSomewhere;
    var r := RunRound(c.poolMap, sandboxes, pods);
    if r.Panic? {
      c', writes, d := c, map[], Decision(0, {});
      WrittenIsStep(c, order, pods, lost, r, c');
      return;
    }
    writes := r.writes;
    c' := Cluster(if r.poolDirty then r.podAllocation else c.poolMap, Annotate(c.sandboxes, writes, lost));
    WrittenIsStep(c, order, pods, lost, r, c');
    SafeStepOwns(c, order, pods, writes, lost, c');
    d := ScalePool(pods, c'.poolMap, r.podSupplement, revision, cap);
    DeletedIsNotLive(c', d, ToSet(pods), r.podSupplement, revision, cap);
  }
}
