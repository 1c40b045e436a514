/**
 * How the pool controller turns an allocation into pod creation and deletion:
 * the clamped size arithmetic, the choice of pods to delete, and what repeated
 * reconciles lead to.
 */
module PoolScaling {
  import opened Common
  import opened PoolAllocator

  datatype Capacity = Capacity(bufferMin: nat, bufferMax: nat, poolMin: nat, poolMax: nat)

  /** desiredTotalCnt of scalePool. */
  function Desired(total: int, allocatedCnt: int, supply: int, cap: Capacity): int {
    var buffer := total - allocatedCnt;
    var desiredBuffer :=
      if buffer < cap.bufferMin || buffer > cap.bufferMax then (cap.bufferMin + cap.bufferMax) / 2 else buffer;
    var desired := allocatedCnt + supply + desiredBuffer;
    if desired < cap.poolMin then cap.poolMin
    else if desired > cap.poolMax then cap.poolMax
    else desired
  }

  datatype Decision = Decision(create: nat, delete: set<Pod>)

  function Idle(pods: set<Pod>, alloc: Allocation): set<Pod> {
    set p | p in pods && p.name !in alloc
  }

  function OldIdle(pods: set<Pod>, alloc: Allocation, revision: string): set<Pod> {
    set p | p in pods && p.name !in alloc && p.revision != revision
  }

  function LatestIdle(pods: set<Pod>, alloc: Allocation, revision: string): set<Pod> {
    set p | p in pods && p.name !in alloc && p.revision == revision
  }

  ghost predicate UniqueNames(pods: set<Pod>) {
    forall p, q :: p in pods && q in pods && p.name == q.name ==> p == q
  }

  /** Pods still missing after idle ones are counted against the demand, plus one per outdated idle pod. */
  function Supply(pods: set<Pod>, alloc: Allocation, supplement: int, revision: string): int {
    Max(0, supplement - |Idle(pods, alloc)|) + |OldIdle(pods, alloc, revision)|
  }

  function DesiredFor(pods: set<Pod>, alloc: Allocation, supplement: int, revision: string, cap: Capacity): int {
    Desired(|pods|, |alloc|, Supply(pods, alloc, supplement, revision), cap)
  }

  /** The oldest n of a set of pods. */
  ghost predicate Oldest(victims: set<Pod>, among: set<Pod>, n: int) {
    && victims <= among && |victims| == Min(Max(0, n), |among|)
    && (forall v, k :: v in victims && k in among - victims ==> v.created <= k.created)
  }

  /**
   * What a reconcile decides: grow to the desired size, or delete all outdated
   * idle pods and the oldest surplus ones.
   */
  ghost predicate Decides(d: Decision, pods: set<Pod>, alloc: Allocation, supplement: int, revision: string,
                          cap: Capacity) {
    var desired := DesiredFor(pods, alloc, supplement, revision, cap);
    if desired > |pods| then d == Decision(desired - |pods|, {})
    else
      && d.create == 0 && OldIdle(pods, alloc, revision) <= d.delete
      && Oldest(d.delete - OldIdle(pods, alloc, revision), LatestIdle(pods, alloc, revision), |pods| - desired)
  }

  // ------------------------------------------------------------------
  // The controller's own steps
  // ------------------------------------------------------------------

  function Named(pods: set<Pod>, names: set<PodName>): set<Pod> {
    set p | p in pods && p.name in names
  }

  function NamesOf(pods: set<Pod>): set<PodName> {
    set p | p in pods :: p.name
  }

  method IdleNames(pods: seq<Pod>, alloc: Allocation) returns (idle: seq<PodName>)
    requires DistinctPods(pods)
    ensures Distinct(idle) && ToSet(idle) == NamesOf(Idle(ToSet(pods), alloc))
  {
    idle := [];
    var i := 0;
    while i < |pods|
      invariant 0 <= i <= |pods|
      invariant forall n :: n in idle <==> exists j :: 0 <= j < i && pods[j].name == n && n !in alloc
      invariant Distinct(idle)
    {
      if pods[i].name !in alloc {
        idle := idle + [pods[i].name];
      }
      i := i + 1;
    }
    forall n
      ensures n in idle <==> n in NamesOf(Idle(ToSet(pods), alloc))
    {
      if n in idle {
        var j :| 0 <= j < |pods| && pods[j].name == n && n !in alloc;
        assert pods[j] in Idle(ToSet(pods), alloc);
      }
    }
  }

  method PodMap(pods: seq<Pod>) returns (m: map<PodName, Pod>)
    requires DistinctPods(pods)
    ensures forall n :: n in m ==> m[n] in pods && m[n].name == n
    ensures forall p :: p in pods ==> p.name in m && m[p.name] == p
  {
    m := map[];
    var i := 0;
    while i < |pods|
      invariant 0 <= i <= |pods|
      invariant forall n :: n in m ==> m[n] in pods[..i] && m[n].name == n
      invariant forall j :: 0 <= j < i ==> pods[j].name in m && m[pods[j].name] == pods[j]
    {
      assert pods[..i + 1] == pods[..i] + [pods[i]];
      m := m[pods[i].name := pods[i]];
      i := i + 1;
    }
    assert pods[..i] == pods;
  }

  /** Split the idle pods by revision; each outdated one asks for a replacement. */
  method UpdatePool(revision: string, pods: seq<Pod>, idle: seq<PodName>)
    returns (latest: seq<PodName>, deleteOld: seq<PodName>, supplyNew: nat)
    requires DistinctPods(pods) && Distinct(idle)
    ensures Distinct(latest) && Distinct(deleteOld) && supplyNew == |deleteOld|
    ensures forall n :: n in latest <==> n in idle && exists p :: p in pods && p.name == n && p.revision == revision
    ensures forall n :: n in deleteOld <==> n in idle && exists p :: p in pods && p.name == n && p.revision != revision
  {
    var podMap := PodMap(pods);
    latest, deleteOld, supplyNew := [], [], 0;
    var i := 0;
    while i < |idle|
      invariant 0 <= i <= |idle|
      invariant forall n :: n in latest <==> n in idle[..i] && n in podMap && podMap[n].revision == revision
      invariant forall n :: n in deleteOld <==> n in idle[..i] && n in podMap && podMap[n].revision != revision
      invariant Distinct(latest) && Distinct(deleteOld) && supplyNew == |deleteOld|
    {
      var name := idle[i];
      assert name !in idle[..i];
      assert idle[..i + 1] == idle[..i] + [name];
      if name in podMap {
        if podMap[name].revision == revision {
          latest := latest + [name];
        } else {
          deleteOld := deleteOld + [name];
          supplyNew := supplyNew + 1;
        }
      }
      i := i + 1;
    }
    assert idle[..i] == idle;
  }

  /** The pods of a list of names, in that order; names without a pod are skipped. */
  method Resolve(podMap: map<PodName, Pod>, names: seq<PodName>) returns (r: seq<Pod>)
    requires Distinct(names) && forall n :: n in podMap ==> podMap[n].name == n
    ensures Distinct(r)
    ensures forall p :: p in r <==> p.name in names && p.name in podMap && podMap[p.name] == p
  {
    r := [];
    var i := 0;
    while i < |names|
      invariant 0 <= i <= |names|
      invariant Distinct(r)
      invariant forall p :: p in r <==> p.name in names[..i] && p.name in podMap && podMap[p.name] == p
    {
      assert names[..i + 1] == names[..i] + [names[i]];
      assert names[i] !in names[..i];
      if names[i] in podMap {
        r := r + [podMap[names[i]]];
      }
      i := i + 1;
    }
    assert names[..i] == names;
  }

  ghost predicate SortedByCreation(s: seq<Pod>) {
    forall i, j :: 0 <= i < j < |s| ==> s[i].created <= s[j].created
  }

  /** Where a pod goes in a sorted list. */
  method InsertionPoint(sorted: seq<Pod>, p: Pod) returns (k: nat)
    requires SortedByCreation(sorted)
    ensures k <= |sorted|
    ensures forall i :: 0 <= i < k ==> sorted[i].created <= p.created
    ensures forall i :: k <= i < |sorted| ==> p.created < sorted[i].created
  {
    k := |sorted|;
    while k > 0 && p.created < sorted[k - 1].created
      invariant 0 <= k <= |sorted|
      invariant forall i :: k <= i < |sorted| ==> p.created < sorted[i].created
    {
      k := k - 1;
    }
  }

  method SortByCreation(pods: seq<Pod>) returns (r: seq<Pod>)
    requires Distinct(pods)
    ensures SortedByCreation(r) && Distinct(r) && ToSet(r) == ToSet(pods)
  {
    r := [];
    var i := 0;
    while i < |pods|
      invariant 0 <= i <= |pods|
      invariant SortedByCreation(r) && Distinct(r)
      invariant forall p :: p in r <==> p in pods[..i]
    {
      var p := pods[i];
      assert pods[..i + 1] == pods[..i] + [p];
      assert p !in pods[..i];
      var k := InsertionPoint(r, p);
      InsertKeepsOrder(r, k, p);
      r := r[..k] + [p] + r[k..];
      i := i + 1;
    }
    assert pods[..i] == pods;
  }

  lemma {:induction false} InsertKeepsOrder(r: seq<Pod>, k: nat, p: Pod)
    requires SortedByCreation(r) && Distinct(r) && p !in r && k <= |r|
    requires forall i :: 0 <= i < k ==> r[i].created <= p.created
    requires forall i :: k <= i < |r| ==> p.created < r[i].created
    ensures var s := r[..k] + [p] + r[k..];
      SortedByCreation(s) && Distinct(s) && forall q :: q in s <==> q in r || q == p
  {
    var s := r[..k] + [p] + r[k..];
    var at := seq(|r| + 1, i requires 0 <= i < |r| + 1 => if i < k then r[i] else if i == k then p else r[i - 1]);
    assert s == at;
    forall i, j | 0 <= i < j < |at|
      ensures at[i].created <= at[j].created && at[i] != at[j]
    {
    }
    forall q | q in r
      ensures q in at
    {
      var i :| 0 <= i < |r| && r[i] == q;
      assert at[if i < k then i else i + 1] == q;
    }
    assert at[k] == p;
  }

  /** All redundant pods, then the oldest idle ones as far as the surplus goes. */
  method PickPodsToDelete(pods: seq<Pod>, idle: seq<PodName>, redundant: seq<PodName>, scaleIn: int)
    returns (r: seq<Pod>)
    requires DistinctPods(pods) && Distinct(idle) && Distinct(redundant)
    requires forall n :: n in idle ==> n !in redundant
    ensures ToSet(r) <= ToSet(pods) && Named(ToSet(pods), ToSet(redundant)) <= ToSet(r)
    ensures Oldest(ToSet(r) - Named(ToSet(pods), ToSet(redundant)), Named(ToSet(pods), ToSet(idle)), scaleIn)
  {
    var podMap := PodMap(pods);
    var idlePods := Resolve(podMap, idle);
    var sorted := SortByCreation(idlePods);
    var redundantPods := Resolve(podMap, redundant);
    ResolvedAreNamed(pods, podMap, idle, idlePods);
    ResolvedAreNamed(pods, podMap, redundant, redundantPods);
    var n, i := scaleIn, 0;
    while i < |sorted| && n > 0
      invariant 0 <= i <= |sorted| && n == scaleIn - i && (scaleIn > 0 ==> 0 <= n) && (scaleIn <= 0 ==> i == 0)
    {
      i, n := i + 1, n - 1;
    }
    hide SortedByCreation, Oldest, Named, Distinct;
    TakeOldest(sorted, i);
    r := redundantPods + sorted[..i];
    PickedAre(pods, redundantPods, sorted, i, idle, redundant, r);
    OldestUpTo(ToSet(sorted[..i]), ToSet(sorted), i, scaleIn);
  }

  lemma {:induction false} OldestUpTo(victims: set<Pod>, among: set<Pod>, n: nat, scaleIn: int)
    requires Oldest(victims, among, n) && n == Min(Max(0, scaleIn), |among|)
    ensures Oldest(victims, among, scaleIn)
  {
  }

  lemma {:induction false} ResolvedAreNamed(pods: seq<Pod>, podMap: map<PodName, Pod>, names: seq<PodName>, r: seq<Pod>)
    requires forall n :: n in podMap ==> podMap[n] in pods && podMap[n].name == n
    requires forall p :: p in pods ==> p.name in podMap && podMap[p.name] == p
    requires forall p :: p in r <==> p.name in names && p.name in podMap && podMap[p.name] == p
    ensures ToSet(r) == Named(ToSet(pods), ToSet(names))
  {
  }

  lemma {:induction false} PickedAre(pods: seq<Pod>, redundantPods: seq<Pod>, sorted: seq<Pod>, i: nat,
                                     idle: seq<PodName>, redundant: seq<PodName>, r: seq<Pod>)
    requires i <= |sorted| && r == redundantPods + sorted[..i] && forall n :: n in idle ==> n !in redundant
    requires ToSet(redundantPods) == Named(ToSet(pods), ToSet(redundant))
    requires ToSet(sorted) == Named(ToSet(pods), ToSet(idle))
    ensures ToSet(r) - Named(ToSet(pods), ToSet(redundant)) == ToSet(sorted[..i])
    ensures ToSet(r) <= ToSet(pods) && Named(ToSet(pods), ToSet(redundant)) <= ToSet(r)
  {
    assert ToSet(r) == ToSet(redundantPods) + ToSet(sorted[..i]);
    assert ToSet(sorted[..i]) <= ToSet(sorted);
    assert Named(ToSet(pods), ToSet(redundant)) !! Named(ToSet(pods), ToSet(idle));
  }

  lemma {:induction false} TakeOldest(sorted: seq<Pod>, n: nat)
    requires SortedByCreation(sorted) && Distinct(sorted) && n <= |sorted|
    ensures |ToSet(sorted)| == |sorted|
    ensures Oldest(ToSet(sorted[..n]), ToSet(sorted), n)
  {
    DistinctCardinality(sorted);
    DistinctCardinality(sorted[..n]);
    forall v, k | v in ToSet(sorted[..n]) && k in ToSet(sorted) - ToSet(sorted[..n])
      ensures v.created <= k.created
    {
      var i :| 0 <= i < n && sorted[i] == v;
      assert sorted == sorted[..n] + sorted[n..];
      assert k in sorted[n..];
      var j :| n <= j < |sorted| && sorted[j] == k;
    }
  }

  /** Distinct names, one per pod of a set, are as many as the pods. */
  lemma {:induction false} NamesCount(pods: set<Pod>, names: seq<PodName>)
    requires UniqueNames(pods) && Distinct(names)
    requires forall n :: n in names <==> exists p :: p in pods && p.name == n
    ensures |names| == |pods|
    decreases |names|
  {
    if names == [] {
      assert forall p :: p in pods ==> p.name in names;
      assert pods == {};
    } else {
      var k := |names| - 1;
      var front := names[..k];
      assert names[k] in names;
      var p :| p in pods && p.name == names[k];
      assert names == front + [names[k]];
      forall n
        ensures n in front <==> exists q :: q in pods - {p} && q.name == n
      {
        assert n in front <==> n in names && n != names[k];
        if n in front {
          var q :| q in pods && q.name == n;
          assert q in pods - {p};
        }
      }
      NamesCount(pods - {p}, front);
    }
  }

  lemma {:induction false} PodsAreASet(pods: seq<Pod>)
    requires DistinctPods(pods)
    ensures UniqueNames(ToSet(pods)) && |ToSet(pods)| == |pods|
  {
    DistinctCardinality(pods);
  }

  lemma {:induction false} IdleIs(pods: seq<Pod>, alloc: Allocation, idle: seq<PodName>)
    requires DistinctPods(pods) && Distinct(idle) && ToSet(idle) == NamesOf(Idle(ToSet(pods), alloc))
    ensures |idle| == |Idle(ToSet(pods), alloc)|
    ensures forall p :: p in pods ==> (p.name in idle <==> p.name !in alloc)
  {
    PodsAreASet(pods);
    assert forall n :: n in idle <==> n in ToSet(idle);
    forall p | p in pods
      ensures p.name in idle <==> p.name !in alloc
    {
      if p.name !in alloc {
        assert p in Idle(ToSet(pods), alloc);
      }
    }
    NamesCount(Idle(ToSet(pods), alloc), idle);
  }

  lemma {:induction false} OldIs(pods: seq<Pod>, alloc: Allocation, revision: string, idle: seq<PodName>,
                                 deleteOld: seq<PodName>)
    requires DistinctPods(pods) && Distinct(deleteOld)
    requires forall p :: p in pods ==> (p.name in idle <==> p.name !in alloc)
    requires forall n :: n in deleteOld <==> n in idle && exists p :: p in pods && p.name == n && p.revision != revision
    ensures |deleteOld| == |OldIdle(ToSet(pods), alloc, revision)|
    ensures Named(ToSet(pods), ToSet(deleteOld)) == OldIdle(ToSet(pods), alloc, revision)
  {
    PodsAreASet(pods);
    forall n
      ensures n in deleteOld <==> exists p :: p in OldIdle(ToSet(pods), alloc, revision) && p.name == n
    {
      if n in deleteOld {
        var p :| p in pods && p.name == n && p.revision != revision;
        assert p in OldIdle(ToSet(pods), alloc, revision);
      }
    }
    NamesCount(OldIdle(ToSet(pods), alloc, revision), deleteOld);
  }

  lemma {:induction false} LatestIs(pods: seq<Pod>, alloc: Allocation, revision: string, idle: seq<PodName>,
                                    latest: seq<PodName>)
    requires DistinctPods(pods)
    requires forall p :: p in pods ==> (p.name in idle <==> p.name !in alloc)
    requires forall n :: n in latest <==> n in idle && exists p :: p in pods && p.name == n && p.revision == revision
    ensures Named(ToSet(pods), ToSet(latest)) == LatestIdle(ToSet(pods), alloc, revision)
  {
    PodsAreASet(pods);
  }

  /** The names lists that updatePool hands on stand for the two halves of the idle pods. */
  lemma {:induction false} SplitIs(pods: seq<Pod>, alloc: Allocation, revision: string, idle: seq<PodName>,
                                   latest: seq<PodName>, deleteOld: seq<PodName>)
    requires DistinctPods(pods) && Distinct(idle) && Distinct(deleteOld)
    requires ToSet(idle) == NamesOf(Idle(ToSet(pods), alloc))
    requires forall n :: n in latest <==> n in idle && exists p :: p in pods && p.name == n && p.revision == revision
    requires forall n :: n in deleteOld <==> n in idle && exists p :: p in pods && p.name == n && p.revision != revision
    ensures |idle| == |Idle(ToSet(pods), alloc)| && |deleteOld| == |OldIdle(ToSet(pods), alloc, revision)|
    ensures Named(ToSet(pods), ToSet(deleteOld)) == OldIdle(ToSet(pods), alloc, revision)
    ensures Named(ToSet(pods), ToSet(latest)) == LatestIdle(ToSet(pods), alloc, revision)
    ensures forall n :: n in latest ==> n !in deleteOld
  {
    hide Idle, OldIdle, LatestIdle, Named, NamesOf, Distinct;
    IdleIs(pods, alloc, idle);
    OldIs(pods, alloc, revision, idle, deleteOld);
    LatestIs(pods, alloc, revision, idle, latest);
  }

  /** The scaling half of a reconcile: which pods to create and which to delete. */
  method ScalePool(pods: seq<Pod>, alloc: Allocation, supplement: nat, revision: string, cap: Capacity)
    returns (d: Decision)
    requires DistinctPods(pods)
    ensures Decides(d, ToSet(pods), alloc, supplement, revision, cap)
  {
    hide Oldest, Named, LatestIdle, OldIdle, Idle, Distinct, Desired;
    PodsAreASet(pods);
    var idle := IdleNames(pods, alloc);
    var supplySandbox := supplement;
    if |idle| >= supplySandbox {
      supplySandbox := 0;
    } else {
      supplySandbox := supplySandbox - |idle|;
    }
    var latest, deleteOld, supplyNew := UpdatePool(revision, pods, idle);
    SplitIs(pods, alloc, revision, idle, latest, deleteOld);
    var total := |pods|;
    var desired := Desired(total, |alloc|, supplySandbox + supplyNew, cap);
    assert desired == DesiredFor(ToSet(pods), alloc, supplement, revision, cap);
    if desired > total {
      d := Decision(desired - total, {});
    } else if desired < total || |deleteOld| > 0 {
      var scaleIn := if desired < total then total - desired else 0;
      var victims := PickPodsToDelete(pods, latest, deleteOld, scaleIn);
      d := Decision(0, ToSet(victims));
    } else {
      d := Decision(0, {});
      NothingToDelete(ToSet(pods), alloc, revision);
    }
  }

  lemma {:induction false} NothingToDelete(pods: set<Pod>, alloc: Allocation, revision: string)
    requires |OldIdle(pods, alloc, revision)| == 0
    ensures OldIdle(pods, alloc, revision) == {}
    ensures Oldest({} - OldIdle(pods, alloc, revision), LatestIdle(pods, alloc, revision), 0)
  {
  }

  // ------------------------------------------------------------------
  // What one decision never does
  // ------------------------------------------------------------------

  /**
   * No pod of the resulting allocation is deleted; shrinking takes all outdated
   * idle pods and exactly the surplus of the others.
   */
  lemma {:induction false} DeletesOnlyIdle(d: Decision, pods: set<Pod>, alloc: Allocation, supplement: int,
                                           revision: string, cap: Capacity)
    requires Decides(d, pods, alloc, supplement, revision, cap)
    ensures forall p :: p in d.delete ==> p in pods && p.name !in alloc
    ensures d.create > 0 ==> d.delete == {}
    ensures var desired := DesiredFor(pods, alloc, supplement, revision, cap);
      desired <= |pods| ==>
        |d.delete| == |OldIdle(pods, alloc, revision)| + Min(|pods| - desired, |LatestIdle(pods, alloc, revision)|)
  {
    var old_, latest := OldIdle(pods, alloc, revision), LatestIdle(pods, alloc, revision);
    if DesiredFor(pods, alloc, supplement, revision, cap) <= |pods| {
      assert d.delete == old_ + (d.delete - old_);
      assert forall p :: p in d.delete ==> p in old_ || p in latest;
      assert |d.delete| == |old_| + |d.delete - old_|;
    }
  }

  // ------------------------------------------------------------------
  // Reconciles in sequence
  // ------------------------------------------------------------------

  /** Unmet demand makes the pool grow, up to its maximum. */
  lemma {:induction false} DemandIsMet(d: Decision, pods: set<Pod>, alloc: Allocation, supplement: int,
                                       revision: string, cap: Capacity)
    requires Decides(d, pods, alloc, supplement, revision, cap)
    ensures var extra := Max(0, supplement - |Idle(pods, alloc)|) + |OldIdle(pods, alloc, revision)|;
      Min(|alloc| + extra, cap.poolMax) <= |pods| + d.create
  {
    hide Oldest, Idle, OldIdle, LatestIdle;
  }

  /** With buffer and size within their limits, exactly the pods wanted beyond the allocation are created. */
  lemma {:induction false} CreatesExactlyTheExtra(d: Decision, pods: set<Pod>, alloc: Allocation, supplement: int,
                                                  revision: string, cap: Capacity)
    requires Decides(d, pods, alloc, supplement, revision, cap)
    requires cap.bufferMin <= |pods| - |alloc| <= cap.bufferMax
    requires var extra := Max(0, supplement - |Idle(pods, alloc)|) + |OldIdle(pods, alloc, revision)|;
      cap.poolMin <= |pods| + extra <= cap.poolMax
    ensures d.create == Max(0, supplement - |Idle(pods, alloc)|) + |OldIdle(pods, alloc, revision)|
  {
    hide Oldest, Idle, OldIdle, LatestIdle;
  }

  /** A buffer outside its limits is brought to the middle of them, as far as the limits of the pool allow. */
  lemma {:induction false} BufferIsRestored(d: Decision, pods: set<Pod>, alloc: Allocation, supplement: int,
                                            revision: string, cap: Capacity)
    requires Decides(d, pods, alloc, supplement, revision, cap)
    requires !(cap.bufferMin <= |pods| - |alloc| <= cap.bufferMax)
    ensures var extra := Max(0, supplement - |Idle(pods, alloc)|) + |OldIdle(pods, alloc, revision)|;
      var want := |alloc| + extra + (cap.bufferMin + cap.bufferMax) / 2;
      var target := if want < cap.poolMin then cap.poolMin else if want > cap.poolMax then cap.poolMax else want;
      && d.create == Max(0, target - |pods|)
      && (target <= |pods| ==>
            |d.delete| == |OldIdle(pods, alloc, revision)|
                          + Min(|pods| - target, |LatestIdle(pods, alloc, revision)|))
  {
    DeletesOnlyIdle(d, pods, alloc, supplement, revision, cap);
    hide Oldest, Idle, OldIdle, LatestIdle;
  }

  /** A buffer within its limits is kept, as far as the limits of the pool allow. */
  lemma {:induction false} BufferIsKept(d: Decision, pods: set<Pod>, alloc: Allocation, supplement: int,
                                        revision: string, cap: Capacity)
    requires Decides(d, pods, alloc, supplement, revision, cap)
    requires cap.bufferMin <= |pods| - |alloc| <= cap.bufferMax
    ensures var extra := Max(0, supplement - |Idle(pods, alloc)|) + |OldIdle(pods, alloc, revision)|;
      var want := |pods| + extra;
      var target := if want < cap.poolMin then cap.poolMin else if want > cap.poolMax then cap.poolMax else want;
      && d.create == Max(0, target - |pods|)
      && (target <= |pods| ==>
            |d.delete| == |OldIdle(pods, alloc, revision)|
                          + Min(|pods| - target, |LatestIdle(pods, alloc, revision)|))
  {
    DeletesOnlyIdle(d, pods, alloc, supplement, revision, cap);
    hide Oldest, Idle, OldIdle, LatestIdle;
  }

  /** The pods after the decision was carried out: new pods have new names and the latest revision. */
  ghost predicate Carried(d: Decision, pods: set<Pod>, revision: string, pods': set<Pod>, created: set<Pod>) {
    && |created| == d.create && pods' == (pods - d.delete) + created
    && UniqueNames(pods') && created !! pods
    && (forall p :: p in created ==> p.revision == revision)
  }

  ghost predicate ScaleStep(pods: set<Pod>, alloc: Allocation, supplement: int, revision: string, cap: Capacity,
                            pods': set<Pod>) {
    && UniqueNames(pods)
    && exists d, created ::
         Decides(d, pods, alloc, supplement, revision, cap) && Carried(d, pods, revision, pods', created)
  }

  /** How many pods there are afterwards. */
  lemma {:induction false} SizeAfter(pods: set<Pod>, alloc: Allocation, supplement: int, revision: string,
                                     cap: Capacity, pods': set<Pod>)
    requires ScaleStep(pods, alloc, supplement, revision, cap, pods')
    ensures var desired := DesiredFor(pods, alloc, supplement, revision, cap);
      var old_, latest := OldIdle(pods, alloc, revision), LatestIdle(pods, alloc, revision);
      && (desired > |pods| ==> |pods'| == desired && pods <= pods')
      && (desired <= |pods| ==>
           && |pods'| == |pods| - |old_| - Min(|pods| - desired, |latest|)
           && pods' <= pods && pods' !! old_)
      && (forall p :: p in pods && p.name in alloc ==> p in pods')
      && (forall p :: p in pods' && p !in pods ==> p.revision == revision)
      && UniqueNames(pods')
  {
    var d, created :| Decides(d, pods, alloc, supplement, revision, cap) && Carried(d, pods, revision, pods', created);
    DeletesOnlyIdle(d, pods, alloc, supplement, revision, cap);
    assert d.delete <= pods;
    assert |pods - d.delete| == |pods| - |d.delete|;
    assert |pods'| == |pods - d.delete| + |created|;
    if d.create == 0 {
      assert created == {};
    }
  }

  // ------------------------------------------------------------------
  // Settling
  // ------------------------------------------------------------------

  /** The size after one reconcile of a pool without outdated pods or unmet demand. */
  function NextTotal(total: int, allocatedCnt: int, cap: Capacity): int {
    var desired := Desired(total, allocatedCnt, 0, cap);
    if desired > total then desired else Max(desired, Min(total, allocatedCnt))
  }

  ghost predicate SettlesFrom(total: int, allocatedCnt: int, cap: Capacity) {
    var next := NextTotal(total, allocatedCnt, cap);
    NextTotal(next, allocatedCnt, cap) == next
  }

  /** A caller can tell from the limits alone whether every pool settles after one reconcile. */
  predicate LimitsSettle(cap: Capacity) {
    cap.poolMin <= cap.poolMax || cap.bufferMax <= cap.bufferMin || cap.poolMin <= cap.bufferMin
  }

  lemma {:induction false} SettlesInOneStep(total: nat, allocatedCnt: nat, cap: Capacity)
    requires allocatedCnt <= total && LimitsSettle(cap)
    ensures SettlesFrom(total, allocatedCnt, cap)
  {
  }

  /** Otherwise some pool is moved again by its second reconcile. */
  lemma {:induction false} OtherwiseMovesAgain(cap: Capacity) returns (total: nat, allocatedCnt: nat)
    requires !LimitsSettle(cap)
    ensures allocatedCnt <= total && !SettlesFrom(total, allocatedCnt, cap)
  {
    if cap.bufferMax <= cap.poolMin {
      total, allocatedCnt := cap.poolMin - 1, cap.poolMin - cap.bufferMax;
    } else {
      total, allocatedCnt := cap.bufferMin, 0;
    }
  }

  /** Between the limits, unless more is allocated than the pool may hold. */
  lemma {:induction false} SettledSize(total: nat, allocatedCnt: nat, cap: Capacity)
    requires allocatedCnt <= total && cap.poolMin <= cap.poolMax
    ensures cap.poolMin <= NextTotal(total, allocatedCnt, cap) <= Max(cap.poolMax, allocatedCnt)
  {
  }

  lemma {:induction false} SettlesIffLimits(cap: Capacity)
    ensures LimitsSettle(cap) <==>
      forall total: nat, allocatedCnt: nat :: allocatedCnt <= total ==> SettlesFrom(total, allocatedCnt, cap)
  {
    if LimitsSettle(cap) {
      forall total: nat, allocatedCnt: nat | allocatedCnt <= total
        ensures SettlesFrom(total, allocatedCnt, cap)
      {
        SettlesInOneStep(total, allocatedCnt, cap);
      }
    } else {
      var total, allocatedCnt := OtherwiseMovesAgain(cap);
    }
  }

  /** The size after n reconciles of a pool without outdated pods or unmet demand. */
  function SizeAt(total: int, allocatedCnt: int, cap: Capacity, n: nat): int {
    if n == 0 then total else NextTotal(SizeAt(total, allocatedCnt, cap, n - 1), allocatedCnt, cap)
  }

  /** At some point a reconcile leaves the size as it is. */
  ghost predicate ComesToRest(total: int, allocatedCnt: int, cap: Capacity) {
    exists n: nat :: SizeAt(total, allocatedCnt, cap, n)
      == NextTotal(SizeAt(total, allocatedCnt, cap, n), allocatedCnt, cap)
  }

  /** The limits are inverted and pull the pool both ways: above the limit it shrinks, below the minimum it grows. */
  predicate LimitsFight(cap: Capacity) {
    && cap.poolMax < cap.poolMin && cap.bufferMin < cap.bufferMax
    && ((cap.bufferMin + cap.bufferMax) / 2 < cap.poolMin || cap.bufferMin <= cap.poolMax)
  }

  /** A pool that comes back to its size after two reconciles and not after one. */
  lemma {:induction false} FightingLimitsSwing(cap: Capacity) returns (total: nat, allocatedCnt: nat)
    requires LimitsFight(cap)
    ensures allocatedCnt <= total
    ensures var next := NextTotal(total, allocatedCnt, cap);
      next != total && NextTotal(next, allocatedCnt, cap) == total
  {
    total := cap.poolMin;
    allocatedCnt := if cap.bufferMax <= cap.poolMin then cap.poolMin - cap.bufferMax else 0;
  }

  lemma {:induction false} SwingsForEver(total: int, allocatedCnt: int, cap: Capacity, n: nat)
    requires var next := NextTotal(total, allocatedCnt, cap);
      next != total && NextTotal(next, allocatedCnt, cap) == total
    ensures SizeAt(total, allocatedCnt, cap, n) == if n % 2 == 0 then total else NextTotal(total, allocatedCnt, cap)
  {
    hide NextTotal;
    if n > 0 {
      SwingsForEver(total, allocatedCnt, cap, n - 1);
    }
  }

  /** Whatever the limits, two reconciles bring a pool to rest unless the limits fight. */
  lemma {:induction false} RestsAfterTwo(total: nat, allocatedCnt: nat, cap: Capacity)
    requires allocatedCnt <= total && !LimitsFight(cap)
    ensures var second := NextTotal(NextTotal(total, allocatedCnt, cap), allocatedCnt, cap);
      NextTotal(second, allocatedCnt, cap) == second
  {
  }

  /**
   * Every pool comes to rest if and only if the limits do not fight; if they
   * do, some pool swings between two sizes for ever.
   */
  lemma {:induction false} RestsIffNoFight(cap: Capacity)
    ensures !LimitsFight(cap) <==>
      forall total: nat, allocatedCnt: nat :: allocatedCnt <= total ==> ComesToRest(total, allocatedCnt, cap)
  {
    hide NextTotal;
    if LimitsFight(cap) {
      var total, allocatedCnt := FightingLimitsSwing(cap);
      forall n: nat
        ensures SizeAt(total, allocatedCnt, cap, n) != NextTotal(SizeAt(total, allocatedCnt, cap, n), allocatedCnt, cap)
      {
        SwingsForEver(total, allocatedCnt, cap, n);
      }
      assert !ComesToRest(total, allocatedCnt, cap);
    } else {
      forall total: nat, allocatedCnt: nat | allocatedCnt <= total
        ensures ComesToRest(total, allocatedCnt, cap)
      {
        RestsAfterTwo(total, allocatedCnt, cap);
        assert SizeAt(total, allocatedCnt, cap, 0) == total;
        assert SizeAt(total, allocatedCnt, cap, 1) == NextTotal(total, allocatedCnt, cap);
        assert SizeAt(total, allocatedCnt, cap, 2) == NextTotal(NextTotal(total, allocatedCnt, cap), allocatedCnt, cap);
      }
    }
  }

  /** Every allocated pod exists. */
  ghost predicate Covers(pods: set<Pod>, alloc: Allocation) {
    alloc.Keys <= NamesOf(pods)
  }

  lemma {:induction false} IdleCount(pods: set<Pod>, alloc: Allocation)
    requires UniqueNames(pods) && Covers(pods, alloc)
    ensures |Idle(pods, alloc)| == |pods| - |alloc|
  {
    var busy := set p | p in pods && p.name in alloc;
    assert pods == busy + Idle(pods, alloc) && busy !! Idle(pods, alloc);
    BusyCount(busy, alloc.Keys);
    assert |pods| == |busy| + |Idle(pods, alloc)|;
  }

  lemma {:induction false} BusyCount(busy: set<Pod>, names: set<PodName>)
    requires UniqueNames(busy) && NamesOf(busy) == names
    ensures |busy| == |names|
    decreases |busy|
  {
    if busy != {} {
      var p :| p in busy;
      var rest := busy - {p};
      assert NamesOf(rest) == names - {p.name} by {
        forall n | n in names - {p.name}
          ensures n in NamesOf(rest)
        {
          var q :| q in busy && q.name == n;
          assert q in rest;
        }
      }
      assert p.name in names;
      BusyCount(rest, names - {p.name});
    }
  }

  ghost predicate AllLatest(pods: set<Pod>, revision: string) {
    forall p :: p in pods ==> p.revision == revision
  }

  /** A reconcile of an up-to-date pool without unmet demand moves its size as NextTotal says. */
  lemma {:induction false} CalmStep(pods: set<Pod>, alloc: Allocation, revision: string, cap: Capacity, pods': set<Pod>)
    requires ScaleStep(pods, alloc, 0, revision, cap, pods') && Covers(pods, alloc) && AllLatest(pods, revision)
    ensures |alloc| <= |pods| && |pods'| == NextTotal(|pods|, |alloc|, cap)
    ensures UniqueNames(pods') && Covers(pods', alloc) && AllLatest(pods', revision)
    ensures pods' <= pods || pods <= pods'
  {
    hide Decides, Carried, Desired;
    assert OldIdle(pods, alloc, revision) == {};
    assert LatestIdle(pods, alloc, revision) == Idle(pods, alloc);
    IdleCount(pods, alloc);
    SizeAfter(pods, alloc, 0, revision, cap, pods');
    forall n | n in alloc
      ensures n in NamesOf(pods')
    {
      var p :| p in pods && p.name == n;
      assert p in pods';
    }
  }

  /** Reconciles of an up-to-date pool with an unchanged allocation and no unmet demand. */
  ghost predicate CalmRun(pods: seq<set<Pod>>, alloc: Allocation, revision: string, cap: Capacity) {
    && pods != [] && Covers(pods[0], alloc) && AllLatest(pods[0], revision)
    && (forall i :: 0 <= i < |pods| - 1 ==> ScaleStep(pods[i], alloc, 0, revision, cap, pods[i + 1]))
  }

  /** Every calm run has the sizes of the arithmetic, so what is said of them is said of the pools. */
  lemma {:induction false} CalmRunSizes(pods: seq<set<Pod>>, alloc: Allocation, revision: string, cap: Capacity, n: nat)
    requires CalmRun(pods, alloc, revision, cap) && n < |pods|
    ensures Covers(pods[n], alloc) && AllLatest(pods[n], revision)
    ensures |pods[n]| == SizeAt(|pods[0]|, |alloc|, cap, n)
  {
    hide ScaleStep, NextTotal, Covers, AllLatest;
    if n > 0 {
      CalmRunSizes(pods, alloc, revision, cap, n - 1);
      assert ScaleStep(pods[n - 1], alloc, 0, revision, cap, pods[n - 1 + 1]);
      CalmStep(pods[n - 1], alloc, revision, cap, pods[n]);
    }
  }

  const FIGHTING := Capacity(0, 2, 2, 1)

  function PodAt(i: nat): Pod {
    Pod(PodName(seq(i, k => 'p')), true, "r", i)
  }

  /** Two pods, then the younger of them, then that one and a new pod, and so on. */
  function SwingingPods(n: nat): set<Pod> {
    if n % 2 == 0 then {PodAt(n / 2), PodAt(n / 2 + 1)} else {PodAt(n / 2 + 1)}
  }

  lemma {:induction false} PodsDiffer(i: nat, j: nat)
    requires i != j
    ensures PodAt(i).name != PodAt(j).name
  {
    assert |PodAt(i).name.text| == i && |PodAt(j).name.text| == j;
  }

  /** From two pods the older one is deleted. */
  lemma {:induction false} SwingDown(p: Pod, q: Pod)
    requires p.name != q.name && p.created < q.created && p.revision == q.revision == "r"
    ensures ScaleStep({p, q}, map[], 0, "r", FIGHTING, {q})
  {
    var pods, d := {p, q}, Decision(0, {p});
    assert Idle(pods, map[]) == pods && OldIdle(pods, map[], "r") == {} && LatestIdle(pods, map[], "r") == pods;
    assert d.delete - {} == {p};
    assert Decides(d, pods, map[], 0, "r", FIGHTING);
    assert {q} == (pods - d.delete) + {};
    assert Carried(d, pods, "r", {q}, {});
  }

  /** From one pod a new one is created. */
  lemma {:induction false} SwingUp(p: Pod, q: Pod)
    requires p.name != q.name && p.revision == q.revision == "r"
    ensures ScaleStep({p}, map[], 0, "r", FIGHTING, {p, q})
  {
    var pods, d := {p}, Decision(1, {});
    assert Idle(pods, map[]) == pods && OldIdle(pods, map[], "r") == {};
    assert Decides(d, pods, map[], 0, "r", FIGHTING);
    assert {p, q} == (pods - {}) + {q};
    assert Carried(d, pods, "r", {p, q}, {q});
  }

  /** A pool of nothing but idle, up-to-date pods that never comes to rest. */
  lemma {:induction false} SwingingPoolNeverRests(n: nat)
    ensures ScaleStep(SwingingPods(n), map[], 0, "r", FIGHTING, SwingingPods(n + 1))
    ensures Covers(SwingingPods(n), map[]) && AllLatest(SwingingPods(n), "r")
    ensures |SwingingPods(n)| != |SwingingPods(n + 1)|
  {
    hide ScaleStep;
    var i := n / 2;
    PodsDiffer(i, i + 1);
    PodsDiffer(i + 1, i + 2);
    if n % 2 == 0 {
      SwingDown(PodAt(i), PodAt(i + 1));
      assert (n + 1) / 2 == i;
    } else {
      SwingUp(PodAt(i + 1), PodAt(i + 2));
      assert (n + 1) / 2 == i + 1;
    }
  }

  /**
   * With the allocation unchanged and contained in the pods, no unmet demand
   * and no outdated pods, the second reconcile neither creates nor deletes.
   */
  lemma {:induction false} SecondReconcileIsIdle(pods: set<Pod>, alloc: Allocation, revision: string, cap: Capacity,
                                                pods1: set<Pod>, pods2: set<Pod>)
    requires ScaleStep(pods, alloc, 0, revision, cap, pods1) && ScaleStep(pods1, alloc, 0, revision, cap, pods2)
    requires Covers(pods, alloc) && AllLatest(pods, revision) && LimitsSettle(cap)
    ensures pods2 == pods1
    ensures cap.poolMin <= cap.poolMax ==> cap.poolMin <= |pods1| <= Max(cap.poolMax, |alloc|)
  {
    hide ScaleStep, Covers, AllLatest, UniqueNames, LimitsSettle, Desired;
    CalmStep(pods, alloc, revision, cap, pods1);
    CalmStep(pods1, alloc, revision, cap, pods2);
    SettlesInOneStep(|pods|, |alloc|, cap);
    if pods2 <= pods1 {
      SubsetCardinality(pods2, pods1);
    } else {
      SubsetCardinality(pods1, pods2);
    }
    if cap.poolMin <= cap.poolMax {
      SettledSize(|pods|, |alloc|, cap);
    }
  }

  // ------------------------------------------------------------------
  // Rolling to a new revision
  // ------------------------------------------------------------------

  /** Between two reconciles pods may become allocated but none is returned. */
  ghost predicate NoneReturned(pods: set<Pod>, alloc: Allocation, alloc': Allocation) {
    forall p :: p in pods && p.name in alloc ==> p.name in alloc'
  }

  ghost predicate RollingRun(pods: seq<set<Pod>>, allocs: seq<Allocation>, supplements: seq<int>, revision: string,
                             cap: Capacity) {
    && |pods| == |allocs| == |supplements| + 1
    && (forall i :: 0 <= i < |supplements| ==>
          && ScaleStep(pods[i], allocs[i], supplements[i], revision, cap, pods[i + 1])
          && NoneReturned(pods[i], allocs[i], allocs[i + 1]))
  }

  function Ceiling(cap: Capacity): int {
    Max(cap.poolMin, cap.poolMax)
  }

  /** One reconcile: outdated idle pods never multiply, and either all go or the pool grows towards its ceiling. */
  lemma {:induction false} RollingStep(pods: set<Pod>, alloc: Allocation, supplement: int, revision: string,
                                       cap: Capacity, pods': set<Pod>, alloc': Allocation)
    requires ScaleStep(pods, alloc, supplement, revision, cap, pods') && NoneReturned(pods, alloc, alloc')
    ensures OldIdle(pods', alloc', revision) <= OldIdle(pods, alloc, revision)
    ensures OldIdle(pods', alloc', revision) == {} || |pods| < |pods'| <= Ceiling(cap)
  {
    SizeAfter(pods, alloc, supplement, revision, cap, pods');
    forall p | p in OldIdle(pods', alloc', revision)
      ensures p in OldIdle(pods, alloc, revision)
    {
      assert p in pods;
    }
  }

  /** No outdated idle pod is left after at most max(0, ceiling - size) + 1 reconciles. */
  lemma {:induction false} RollingTerminates(pods: seq<set<Pod>>, allocs: seq<Allocation>, supplements: seq<int>,
                                             revision: string, cap: Capacity, k: nat)
    requires RollingRun(pods, allocs, supplements, revision, cap) && k < |pods|
    requires k >= Max(0, Ceiling(cap) - |pods[0]|) + 1
    ensures OldIdle(pods[k], allocs[k], revision) == {}
  {
    RollingProgress(pods, allocs, supplements, revision, cap, k);
  }

  lemma {:induction false} RollingProgress(pods: seq<set<Pod>>, allocs: seq<Allocation>, supplements: seq<int>,
                                           revision: string, cap: Capacity, k: nat)
    requires RollingRun(pods, allocs, supplements, revision, cap) && k < |pods|
    ensures OldIdle(pods[k], allocs[k], revision) == {} || |pods[0]| + k <= |pods[k]|
    ensures OldIdle(pods[k], allocs[k], revision) == {} || k == 0 || |pods[k]| <= Ceiling(cap)
  {
    hide ScaleStep, NoneReturned, OldIdle;
    if k > 0 {
      RollingProgress(pods, allocs, supplements, revision, cap, k - 1);
      assert ScaleStep(pods[k - 1], allocs[k - 1], supplements[k - 1], revision, cap, pods[k - 1 + 1]);
      RollingStep(pods[k - 1], allocs[k - 1], supplements[k - 1], revision, cap, pods[k], allocs[k]);
    }
  }

  /** A whole reconcile: allocate, then scale against the allocation that results. */
  method ReconcilePool(stored: Allocation, sandboxes: seq<BatchSandbox>, pods: seq<Pod>, revision: string,
                       cap: Capacity)
    returns (r: ScheduleResult, d: Decision)
    requires DistinctNames(sandboxes) && DistinctPods(pods)
    ensures r.Panic? ==> d == Decision(0, {})
    ensures r.Scheduled? ==>
      && r.podAllocation == FinalAllocation(stored, sandboxes, pods) && 0 <= r.podSupplement
      && Decides(d, ToSet(pods), FinalAllocation(stored, sandboxes, pods), r.podSupplement, revision, cap)
      && forall p :: p in d.delete ==> p in pods && p.name !in FinalAllocation(stored, sandboxes, pods)
  {
    hide FinalAllocation, Panics, AnnotationsWritten, PoolDirty, Decides, Needs, Segments, Available, TotalNeed;
    r := Schedule(stored, sandboxes, pods);
    if r.Panic? {
      return r, Decision(0, {});
    }
    d := ScalePool(pods, r.podAllocation, r.podSupplement, revision, cap);
    DeletesOnlyIdle(d, ToSet(pods), r.podAllocation, r.podSupplement, revision, cap);
  }
}
