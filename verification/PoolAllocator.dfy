/**
 * One round of the pool allocator: pods of a pool are handed to the
 * BatchSandboxes that reference it, released pods go back, and pods of
 * vanished sandboxes are collected.
 */
module PoolAllocator {
  import opened Common

  datatype SandboxName = SandboxName(text: string)
  type Allocation = map<PodName, SandboxName>

  datatype Pod = Pod(name: PodName, running: bool, revision: string, created: int)

  /** An annotation holding a list of pod names; absent reads as the empty list. */
  datatype Annotation = Readable(pods: seq<PodName>) | Malformed

  datatype BatchSandbox = BatchSandbox(
    name: SandboxName, replicas: int, deleting: bool, alloc: Annotation, release: Annotation)

  ghost predicate DistinctNames(sandboxes: seq<BatchSandbox>) {
    forall i, j :: 0 <= i < j < |sandboxes| ==> sandboxes[i].name != sandboxes[j].name
  }

  ghost predicate DistinctPods(pods: seq<Pod>) {
    forall i, j :: 0 <= i < j < |pods| ==> pods[i].name != pods[j].name
  }

  // ------------------------------------------------------------------
  // Specification: what a round means, independent of Go's map order
  // ------------------------------------------------------------------

  /** Running pods that the persisted map does not mention, in listing order. */
  function Available(alloc: Allocation, pods: seq<Pod>): seq<PodName> {
    if pods == [] then []
    else
      var last := pods[|pods| - 1];
      Available(alloc, pods[..|pods| - 1])
      + (if last.name !in alloc && last.running then [last.name] else [])
  }

  function Owned(alloc: Allocation, s: SandboxName): set<PodName> {
    set p | p in alloc && alloc[p] == s
  }

  /** Sandboxes the allocator will serve: not being deleted, annotation readable. */
  predicate Active(s: BatchSandbox) {
    !s.deleting && s.alloc.Readable?
  }

  /** Pods the pool map gives to the sandbox but its annotation does not list. */
  function Unsynced(alloc: Allocation, s: BatchSandbox): set<PodName>
    requires Active(s)
  {
    Owned(alloc, s.name) - ToSet(s.alloc.pods)
  }

  /** How many more pods the sandbox wants; negative if its replicas shrank. */
  function Need(alloc: Allocation, s: BatchSandbox): int {
    if Active(s) then s.replicas - |s.alloc.pods| - |Unsynced(alloc, s)| else 0
  }

  function Needs(alloc: Allocation, sandboxes: seq<BatchSandbox>): (r: seq<int>)
    ensures |r| == |sandboxes|
  {
    seq(|sandboxes|, i requires 0 <= i < |sandboxes| => Need(alloc, sandboxes[i]))
  }

  /** The slice expression of doAllocate is in range exactly when no demand is negative. */
  ghost predicate Servable(needs: seq<int>) {
    forall i :: 0 <= i < |needs| ==> 0 <= needs[i]
  }

  ghost predicate Panics(alloc: Allocation, sandboxes: seq<BatchSandbox>) {
    !Servable(Needs(alloc, sandboxes))
  }

  /** Pods handed out to the first k demands when n are available. */
  function Taken(needs: seq<int>, n: nat, k: nat): int
    requires k <= |needs|
  {
    if k == 0 then 0
    else
      var before := Taken(needs, n, k - 1);
      before + Min(needs[k - 1], n - before)
  }

  function TotalNeed(needs: seq<int>, k: nat): int
    requires k <= |needs|
  {
    if k == 0 then 0 else TotalNeed(needs, k - 1) + needs[k - 1]
  }

  function Slice(s: seq<PodName>, lo: int, hi: int): seq<PodName> {
    if 0 <= lo <= hi <= |s| then s[lo..hi] else []
  }

  /** The i-th sandbox receives this segment of the available list. */
  function Segment(needs: seq<int>, avail: seq<PodName>, i: nat): seq<PodName>
    requires i < |needs|
  {
    Slice(avail, Taken(needs, |avail|, i), Taken(needs, |avail|, i + 1))
  }

  function Segments(needs: seq<int>, avail: seq<PodName>): (r: seq<seq<PodName>>)
    ensures |r| == |needs|
  {
    seq(|needs|, i requires 0 <= i < |needs| => Segment(needs, avail, i))
  }

  function GiveAll(pods: seq<PodName>, s: SandboxName): Allocation {
    map p | p in pods :: s
  }

  /** The pods of the first k segments, each given to the sandbox at the same position. */
  function Assigned(names: seq<SandboxName>, segments: seq<seq<PodName>>, k: nat): Allocation
    requires k <= |names| == |segments|
  {
    if k == 0 then map[] else Assigned(names, segments, k - 1) + GiveAll(segments[k - 1], names[k - 1])
  }

  /** The sandbox has an entry in the inverse index when releases are processed. */
  predicate Indexed(alloc: Allocation, s: BatchSandbox) {
    Active(s) || Owned(alloc, s.name) != {}
  }

  /** Pods deleted from the map because this sandbox's release annotation names them. */
  function ReleasedBy(alloc: Allocation, s: BatchSandbox): set<PodName> {
    if Indexed(alloc, s) && s.release.Readable? then ToSet(s.release.pods) else {}
  }

  function Released(alloc: Allocation, sandboxes: seq<BatchSandbox>, k: nat): set<PodName>
    requires k <= |sandboxes|
  {
    if k == 0 then {} else Released(alloc, sandboxes, k - 1) + ReleasedBy(alloc, sandboxes[k - 1])
  }

  function NameList(sandboxes: seq<BatchSandbox>): (r: seq<SandboxName>)
    ensures |r| == |sandboxes|
  {
    seq(|sandboxes|, i requires 0 <= i < |sandboxes| => sandboxes[i].name)
  }

  function Names(sandboxes: seq<BatchSandbox>): set<SandboxName> {
    set i | 0 <= i < |sandboxes| :: sandboxes[i].name
  }

  /** Pods whose owner is no longer listed. */
  function Orphans(alloc: Allocation, sandboxes: seq<BatchSandbox>): set<PodName> {
    set p | p in alloc && alloc[p] !in Names(sandboxes)
  }

  function NewAssignments(alloc: Allocation, sandboxes: seq<BatchSandbox>, pods: seq<Pod>): Allocation {
    Assigned(NameList(sandboxes), Segments(Needs(alloc, sandboxes), Available(alloc, pods)), |sandboxes|)
  }

  function AllReleased(alloc: Allocation, sandboxes: seq<BatchSandbox>): set<PodName> {
    Released(alloc, sandboxes, |sandboxes|)
  }

  /** The map a round ends with. */
  function FinalAllocation(alloc: Allocation, sandboxes: seq<BatchSandbox>, pods: seq<Pod>): Allocation {
    alloc + NewAssignments(alloc, sandboxes, pods) - AllReleased(alloc, sandboxes) - Orphans(alloc, sandboxes)
  }

  /** When the round asks for the map to be persisted. */
  predicate PoolDirty(alloc: Allocation, sandboxes: seq<BatchSandbox>, pods: seq<Pod>) {
    || NewAssignments(alloc, sandboxes, pods) != map[]
    || AllReleased(alloc, sandboxes) != {}
    || Orphans(alloc, sandboxes) != {}
  }

  /** The sandbox's annotation is rewritten. */
  predicate SandboxDirty(alloc: Allocation, s: BatchSandbox, segment: seq<PodName>) {
    Active(s) && (Unsynced(alloc, s) != {} || segment != [])
  }

  /** What is written: the old list, then the unsynced pods in any order, then the new segment. */
  ghost predicate IsNewAnnotation(w: seq<PodName>, alloc: Allocation, s: BatchSandbox, segment: seq<PodName>) {
    && Active(s)
    && exists middle :: w == s.alloc.pods + middle + segment && Distinct(middle) && ToSet(middle) == Unsynced(alloc, s)
  }

  // ------------------------------------------------------------------
  // Facts about the specification
  // ------------------------------------------------------------------

  /** Sandboxes are served in order, each in full until the list is used up. */
  lemma {:induction false} TakenIsGreedy(needs: seq<int>, n: nat, k: nat)
    requires k <= |needs| && Servable(needs)
    ensures 0 <= TotalNeed(needs, k)
    ensures Taken(needs, n, k) == Min(TotalNeed(needs, k), n)
  {
    if k > 0 {
      TakenIsGreedy(needs, n, k - 1);
    }
  }

  lemma {:induction false} TakenMonotone(needs: seq<int>, n: nat, i: nat, j: nat)
    requires i <= j <= |needs| && Servable(needs)
    ensures 0 <= Taken(needs, n, i) <= Taken(needs, n, j) <= n
  {
    TakenIsGreedy(needs, n, i);
    TakenIsGreedy(needs, n, j);
    if i < j {
      TakenMonotone(needs, n, i, j - 1);
    }
  }

  /** The unmet demand is the total demand less what was available, never negative. */
  lemma {:induction false} SupplementIsShortfall(needs: seq<int>, n: nat)
    requires Servable(needs)
    ensures TotalNeed(needs, |needs|) - Taken(needs, n, |needs|) == Max(0, TotalNeed(needs, |needs|) - n)
  {
    TakenIsGreedy(needs, n, |needs|);
  }

  /** The segments lie end to end; each has the size the sandbox needs or all that is left. */
  lemma {:induction false} SegmentIs(needs: seq<int>, avail: seq<PodName>, i: nat)
    requires i < |needs| && Servable(needs)
    ensures var t := Taken(needs, |avail|, i);
      var g := Min(needs[i], |avail| - t);
      && 0 <= t <= t + g <= |avail|
      && Taken(needs, |avail|, i + 1) == t + g
      && Segment(needs, avail, i) == avail[t..t + g]
  {
    TakenMonotone(needs, |avail|, i, i + 1);
  }

  /** At most one sandbox is served in part: once one goes short, all later ones get nothing. */
  lemma {:induction false} ShortServiceIsLast(needs: seq<int>, avail: seq<PodName>, i: nat, j: nat)
    requires i < j < |needs| && Servable(needs)
    requires |Segment(needs, avail, i)| < needs[i]
    ensures Segment(needs, avail, j) == []
  {
    SegmentIs(needs, avail, i);
    SegmentIs(needs, avail, j);
    TakenMonotone(needs, |avail|, i + 1, j);
  }

  lemma {:induction false} AvailableAre(alloc: Allocation, pods: seq<Pod>)
    ensures forall p :: p in Available(alloc, pods) <==> p !in alloc && RunningIn(pods, p)
    ensures DistinctPods(pods) ==> Distinct(Available(alloc, pods))
  {
    if pods != [] {
      var k := |pods| - 1;
      var front := pods[..k];
      AvailableAre(alloc, front);
      assert pods == front + [pods[k]];
      forall p
        ensures RunningIn(pods, p) <==> RunningIn(front, p) || (pods[k].name == p && pods[k].running)
      {
        if RunningIn(front, p) {
          var i :| 0 <= i < |front| && front[i].name == p && front[i].running;
          assert pods[i].name == p && pods[i].running;
        }
      }
    }
  }

  /** The available names stand in the order of the pods. */
  lemma {:induction false} AvailableInOrder(alloc: Allocation, pods: seq<Pod>, a: nat, b: nat, i: nat, j: nat)
    requires DistinctPods(pods) && a < b < |Available(alloc, pods)| && i < |pods| && j < |pods|
    requires pods[i].name == Available(alloc, pods)[a] && pods[j].name == Available(alloc, pods)[b]
    ensures i < j
  {
    var n := |pods| - 1;
    var front, before := pods[..n], Available(alloc, pods[..n]);
    AvailableAre(alloc, front);
    assert before[a] in before;
    assert RunningIn(front, before[a]);
    var x :| 0 <= x < |front| && front[x].name == before[a] && front[x].running;
    assert pods[x].name == pods[i].name;
    if b < |before| {
      assert before[b] in before;
      var y :| 0 <= y < |front| && front[y].name == before[b] && front[y].running;
      assert pods[y].name == pods[j].name;
      AvailableInOrder(alloc, front, a, b, i, j);
    }
  }

  ghost predicate RunningIn(pods: seq<Pod>, p: PodName) {
    exists i :: 0 <= i < |pods| && pods[i].name == p && pods[i].running
  }

  /** No pod lies in two segments, and segments hold available pods only. */
  ghost predicate Separate(segments: seq<seq<PodName>>, avail: seq<PodName>) {
    && (forall i, p :: 0 <= i < |segments| && p in segments[i] ==> p in avail)
    && (forall i, j, p :: 0 <= i < j < |segments| && p in segments[i] ==> p !in segments[j])
  }

  lemma {:induction false} SegmentsSeparate(needs: seq<int>, avail: seq<PodName>)
    requires Servable(needs) && Distinct(avail)
    ensures Separate(Segments(needs, avail), avail)
  {
    var segments := Segments(needs, avail);
    forall i, p | 0 <= i < |segments| && p in segments[i]
      ensures p in avail
    {
      SegmentIs(needs, avail, i);
    }
    forall i, j, p | 0 <= i < j < |segments| && p in segments[i]
      ensures p !in segments[j]
    {
      SegmentsDisjoint(needs, avail, i, j);
      assert p in ToSet(segments[i]);
      assert p !in ToSet(segments[j]);
    }
  }

  lemma {:induction false} SegmentsDisjoint(needs: seq<int>, avail: seq<PodName>, i: nat, j: nat)
    requires i < j < |needs| && Servable(needs) && Distinct(avail)
    ensures ToSet(Segment(needs, avail, i)) !! ToSet(Segment(needs, avail, j))
  {
    var n := |avail|;
    TakenMonotone(needs, n, i, i + 1);
    TakenMonotone(needs, n, i + 1, j);
    TakenMonotone(needs, n, j, j + 1);
    DisjointSlices(avail, Taken(needs, n, i), Taken(needs, n, i + 1), Taken(needs, n, j), Taken(needs, n, j + 1));
  }

  lemma {:induction false} DisjointSlices(s: seq<PodName>, a: nat, b: nat, c: nat, d: nat)
    requires a <= b <= c <= d <= |s| && Distinct(s)
    ensures ToSet(s[a..b]) !! ToSet(s[c..d])
  {
    forall p | p in s[a..b]
      ensures p !in s[c..d]
    {
      var x :| 0 <= x < b - a && s[a..b][x] == p;
      assert s[a + x] == p;
      assert forall y :: 0 <= y < d - c ==> s[c..d][y] == s[c + y] != p;
    }
  }

  /** A newly assigned pod belongs to the sandbox whose segment holds it. */
  lemma {:induction false} AssignedOwner(names: seq<SandboxName>, segments: seq<seq<PodName>>, avail: seq<PodName>,
                                         k: nat, i: nat, p: PodName)
    requires i < k <= |names| == |segments| && Separate(segments, avail)
    requires p in segments[i]
    ensures p in Assigned(names, segments, k)
    ensures Assigned(names, segments, k)[p] == names[i]
  {
    if i < k - 1 {
      AssignedOwner(names, segments, avail, k - 1, i, p);
      assert p !in segments[k - 1];
    }
  }

  /** Every newly assigned pod lies in some segment. */
  lemma {:induction false} WhoGot(names: seq<SandboxName>, segments: seq<seq<PodName>>, k: nat, p: PodName)
    returns (i: nat)
    requires k <= |names| == |segments| && p in Assigned(names, segments, k)
    ensures i < k && p in segments[i]
  {
    if p in segments[k - 1] {
      i := k - 1;
    } else {
      i := WhoGot(names, segments, k - 1, p);
    }
  }

  /** A clean round leaves the map as it was. */
  lemma {:induction false} CleanMeansUnchanged(alloc: Allocation, sandboxes: seq<BatchSandbox>, pods: seq<Pod>)
    requires !PoolDirty(alloc, sandboxes, pods)
    ensures FinalAllocation(alloc, sandboxes, pods) == alloc
  {
    assert alloc + map[] == alloc;
  }

  lemma {:induction false} SomeReleased(alloc: Allocation, sandboxes: seq<BatchSandbox>, k: nat)
    requires k <= |sandboxes|
    ensures Released(alloc, sandboxes, k) != {} <==>
      exists i :: 0 <= i < k && Indexed(alloc, sandboxes[i]) && sandboxes[i].release.Readable?
        && sandboxes[i].release.pods != []
  {
    hide Indexed;
    if k > 0 {
      SomeReleased(alloc, sandboxes, k - 1);
      var s := sandboxes[k - 1];
      if s.release.Readable? && s.release.pods != [] {
        assert s.release.pods[0] in ToSet(s.release.pods);
      }
      assert ReleasedBy(alloc, s) != {} <==> Indexed(alloc, s) && s.release.Readable? && s.release.pods != [];
    }
  }

  /** The map is persisted exactly if a pod was handed out, a release list was processed, or an owner is gone. */
  lemma {:induction false} PoolDirtyIff(alloc: Allocation, sandboxes: seq<BatchSandbox>, pods: seq<Pod>)
    ensures PoolDirty(alloc, sandboxes, pods) <==>
      || (exists p :: p in NewAssignments(alloc, sandboxes, pods))
      || (exists i :: 0 <= i < |sandboxes| && Indexed(alloc, sandboxes[i]) && sandboxes[i].release.Readable?
            && sandboxes[i].release.pods != [])
      || (exists p :: p in alloc && forall i :: 0 <= i < |sandboxes| ==> sandboxes[i].name != alloc[p])
  {
    SomeReleased(alloc, sandboxes, |sandboxes|);
    var granted, orphans := NewAssignments(alloc, sandboxes, pods), Orphans(alloc, sandboxes);
    assert granted != map[] <==> exists p :: p in granted by {
      assert granted != map[] ==> granted.Keys != {};
    }
    if orphans != {} {
      var p :| p in orphans;
      assert forall i :: 0 <= i < |sandboxes| ==> sandboxes[i].name in Names(sandboxes);
    }
    if p :| p in alloc && forall i :: 0 <= i < |sandboxes| ==> sandboxes[i].name != alloc[p] {
      assert p in orphans;
    }
    hide NewAssignments, Released, Indexed;
  }

  /** Membership in the final map, pod by pod. */
  lemma {:induction false} FinalAllocationIs(alloc: Allocation, sandboxes: seq<BatchSandbox>, pods: seq<Pod>,
                                             p: PodName)
    requires !Panics(alloc, sandboxes) && DistinctPods(pods)
    ensures var final := FinalAllocation(alloc, sandboxes, pods);
      var granted := NewAssignments(alloc, sandboxes, pods);
      && (p in granted ==> p !in alloc)
      && (p in final <==>
           && p !in AllReleased(alloc, sandboxes)
           && (p in granted || (p in alloc && alloc[p] in Names(sandboxes))))
      && (p in final ==> final[p] == if p in granted then granted[p] else alloc[p])
      && (p in final ==> final[p] in Names(sandboxes))
  {
    var avail := Available(alloc, pods);
    AvailableAre(alloc, pods);
    var names, segments := NameList(sandboxes), Segments(Needs(alloc, sandboxes), avail);
    SegmentsSeparate(Needs(alloc, sandboxes), avail);
    if p in NewAssignments(alloc, sandboxes, pods) {
      var i := WhoGot(names, segments, |sandboxes|, p);
      AssignedOwner(names, segments, avail, |sandboxes|, i, p);
    }
  }

  // ------------------------------------------------------------------
  // The round as the controller runs it
  // ------------------------------------------------------------------

  /** Elements of a list that another list lacks, in order. */
  function Except(local: seq<PodName>, remote: seq<PodName>): seq<PodName> {
    if local == [] then []
    else
      var last := local[|local| - 1];
      Except(local[..|local| - 1], remote) + (if last in remote then [] else [last])
  }

  lemma {:induction false} ExceptIs(local: seq<PodName>, remote: seq<PodName>)
    ensures forall p :: p in Except(local, remote) <==> p in local && p !in remote
    ensures ToSet(Except(local, remote)) == ToSet(local) - ToSet(remote)
    ensures Distinct(local) ==> Distinct(Except(local, remote))
  {
    if local != [] {
      var k := |local| - 1;
      var front := local[..k];
      assert local == front + [local[k]];
      ExceptIs(front, remote);
      assert Distinct(local) ==> local[k] !in front;
      assert Except(local, remote) == Except(front, remote) + (if local[k] in remote then [] else [local[k]]);
    }
  }

  type Index = map<SandboxName, seq<PodName>>

  function Entry(index: Index, s: SandboxName): seq<PodName> {
    if s in index then index[s] else []
  }

  /** The index inverts the map; the order inside each entry is arbitrary. */
  ghost predicate IsIndex(index: Index, alloc: Allocation) {
    && (forall s :: s in index <==> Owned(alloc, s) != {})
    && (forall s :: s in index ==> Distinct(index[s]) && ToSet(index[s]) == Owned(alloc, s))
  }

  lemma {:induction false} IndexInsert(index: Index, alloc: Allocation, p: PodName, s: SandboxName)
    requires IsIndex(index, alloc) && p !in alloc
    ensures IsIndex(index[s := Entry(index, s) + [p]], alloc[p := s])
  {
    var alloc' := alloc[p := s];
    var entry := Entry(index, s) + [p];
    var index' := index[s := entry];
    assert Owned(alloc', s) == Owned(alloc, s) + {p};
    assert s !in index ==> Owned(alloc, s) == {};
    assert s in index ==> p !in ToSet(index[s]);
    assert ToSet(entry) == Owned(alloc', s);
    forall t | t != s
      ensures Owned(alloc', t) == Owned(alloc, t)
    {
    }
  }

  /** The index after the first k sandboxes were served: their entries may have been overwritten. */
  ghost predicate IndexServed(index: Index, start: Index, alloc: Allocation, sandboxes: seq<BatchSandbox>, k: nat)
    requires k <= |sandboxes|
  {
    && (forall s :: s !in Names(sandboxes[..k]) ==>
          (s in index <==> s in start) && (s in start ==> index[s] == start[s]))
    && (forall j :: 0 <= j < k ==> (sandboxes[j].name in index <==> Indexed(alloc, sandboxes[j])))
  }

  lemma {:induction false} NamesStep(sandboxes: seq<BatchSandbox>, i: nat)
    requires i < |sandboxes| && DistinctNames(sandboxes)
    ensures Names(sandboxes[..i + 1]) == Names(sandboxes[..i]) + {sandboxes[i].name}
    ensures sandboxes[i].name !in Names(sandboxes[..i])
  {
    assert forall j :: 0 <= j < i ==> sandboxes[..i + 1][j] == sandboxes[..i][j];
    assert sandboxes[..i + 1][i] == sandboxes[i];
  }

  datatype Served =
    | Served(pods: seq<PodName>, remain: seq<PodName>, sandboxDirty: bool, poolAllocate: bool)
    | Unreadable
    | Panicked

  /** The demand computed from the index is the demand computed from the map. */
  lemma {:induction false} NeedFromIndex(start: Index, index: Index, alloc: Allocation, sandboxes: seq<BatchSandbox>,
                                         i: nat)
    requires i < |sandboxes| && DistinctNames(sandboxes) && IsIndex(start, alloc)
    requires IndexServed(index, start, alloc, sandboxes, i)
    ensures Active(sandboxes[i]) ==>
      var s := sandboxes[i];
      var unsynced := Except(Entry(index, s.name), s.alloc.pods);
      && Distinct(unsynced) && ToSet(unsynced) == Unsynced(alloc, s)
      && Need(alloc, s) == s.replicas - |s.alloc.pods| - |unsynced|
  {
    var s := sandboxes[i];
    if Active(s) {
      assert s.name !in Names(sandboxes[..i]);
      var local := Entry(index, s.name);
      assert ToSet(local) == Owned(alloc, s.name);
      ExceptIs(local, s.alloc.pods);
      DistinctCardinality(Except(local, s.alloc.pods));
    }
  }

  lemma {:induction false} IndexServedStep(before: Index, after: Index, start: Index, alloc: Allocation,
                                           sandboxes: seq<BatchSandbox>, i: nat)
    requires i < |sandboxes| && DistinctNames(sandboxes) && IsIndex(start, alloc)
    requires IndexServed(before, start, alloc, sandboxes, i)
    requires after.Keys == before.Keys + if Active(sandboxes[i]) then {sandboxes[i].name} else {}
    requires forall t :: t in before && t != sandboxes[i].name ==> after[t] == before[t]
    requires !Active(sandboxes[i]) ==> after == before
    ensures IndexServed(after, start, alloc, sandboxes, i + 1)
  {
    NamesStep(sandboxes, i);
    assert sandboxes[i].name in before <==> sandboxes[i].name in start;
    forall j | 0 <= j < i + 1
      ensures sandboxes[j].name in after <==> Indexed(alloc, sandboxes[j])
    {
      assert j < i ==> sandboxes[j].name != sandboxes[i].name;
    }
    hide Indexed, DistinctNames;
  }

  /** The round after its first k sandboxes, as the specification sees it. */
  ghost predicate ProgressIs(needs: seq<int>, avail: seq<PodName>, k: nat, supplement: int, remain: seq<PodName>)
    requires k <= |needs|
  {
    var t := Taken(needs, |avail|, k);
    0 <= t <= |avail| && remain == avail[t..] && supplement == TotalNeed(needs, k) - t
  }

  /** Serving one sandbox moves the round on by its segment. */
  lemma {:induction false} ProgressStep(needs: seq<int>, avail: seq<PodName>, i: nat, supplement: int,
                                        remain: seq<PodName>)
    requires i < |needs| && Servable(needs)
    requires ProgressIs(needs, avail, i, supplement, remain)
    ensures var k := Min(needs[i], |remain|);
      && 0 <= k && remain[..k] == Segment(needs, avail, i)
      && ProgressIs(needs, avail, i + 1, supplement + needs[i] - k, remain[k..])
  {
    SegmentIs(needs, avail, i);
  }

  /** The annotation updates collected for the first k sandboxes. */
  ghost predicate WritesAre(alloc: Allocation, sandboxes: seq<BatchSandbox>, segments: seq<seq<PodName>>, k: nat,
                            sandboxAlloc: map<SandboxName, seq<PodName>>, dirty: seq<SandboxName>)
    requires k <= |sandboxes| == |segments|
  {
    && (forall n :: n in dirty ==> n in Names(sandboxes[..k]))
    && (forall i :: 0 <= i < k ==> WriteIs(alloc, sandboxes[i], segments[i], sandboxAlloc, dirty))
  }

  ghost predicate WriteIs(alloc: Allocation, s: BatchSandbox, segment: seq<PodName>,
                          sandboxAlloc: map<SandboxName, seq<PodName>>, dirty: seq<SandboxName>) {
    && (s.name in dirty <==> SandboxDirty(alloc, s, segment))
    && (s.name in dirty ==> s.name in sandboxAlloc && IsNewAnnotation(sandboxAlloc[s.name], alloc, s, segment))
  }

  lemma {:induction false} WritesStep(alloc: Allocation, sandboxes: seq<BatchSandbox>, segments: seq<seq<PodName>>,
                                      i: nat, sandboxAlloc: map<SandboxName, seq<PodName>>, dirty: seq<SandboxName>,
                                      sandboxAlloc': map<SandboxName, seq<PodName>>, dirty': seq<SandboxName>)
    requires i < |sandboxes| == |segments| && DistinctNames(sandboxes)
    requires WritesAre(alloc, sandboxes, segments, i, sandboxAlloc, dirty)
    requires dirty' == dirty || dirty' == dirty + [sandboxes[i].name]
    requires forall n :: n in sandboxAlloc && n != sandboxes[i].name ==>
      n in sandboxAlloc' && sandboxAlloc'[n] == sandboxAlloc[n]
    requires sandboxes[i].name !in dirty ==> WriteIs(alloc, sandboxes[i], segments[i], sandboxAlloc', dirty')
    ensures WritesAre(alloc, sandboxes, segments, i + 1, sandboxAlloc', dirty')
  {
    NamesStep(sandboxes, i);
    forall j | 0 <= j < i
      ensures WriteIs(alloc, sandboxes[j], segments[j], sandboxAlloc', dirty')
    {
      assert sandboxes[j].name != sandboxes[i].name;
      assert WriteIs(alloc, sandboxes[j], segments[j], sandboxAlloc, dirty);
    }
  }

  /** The answer for a served sandbox is the annotation the specification asks for. */
  lemma {:induction false} AnswerIs(alloc: Allocation, s: BatchSandbox, segment: seq<PodName>, unsynced: seq<PodName>)
    requires Active(s) && Distinct(unsynced) && ToSet(unsynced) == Unsynced(alloc, s)
    ensures SandboxDirty(alloc, s, segment) <==> unsynced != [] || segment != []
    ensures IsNewAnnotation(s.alloc.pods + unsynced + segment, alloc, s, segment)
  {
    assert unsynced != [] ==> unsynced[0] in ToSet(unsynced);
  }

  /** The values of a round between two sandboxes. */
  datatype Progress = Progress(
    podAllocation: Allocation, podSupplement: int, sandboxToPods: Index, remain: seq<PodName>,
    sandboxAlloc: map<SandboxName, seq<PodName>>, dirtySandboxes: seq<SandboxName>, poolDirty: bool)

  /** What serving one sandbox does to them. */
  function Serve(g: Progress, s: BatchSandbox, unsynced: seq<PodName>, need: int): Progress
    requires Active(s) && 0 <= need
  {
    var k := Min(need, |g.remain|);
    Progress(
      g.podAllocation + GiveAll(g.remain[..k], s.name), g.podSupplement + need - k,
      g.sandboxToPods[s.name := g.remain[..k]], g.remain[k..],
      g.sandboxAlloc[s.name := s.alloc.pods + unsynced + g.remain[..k]],
      if unsynced != [] || k > 0 then g.dirtySandboxes + [s.name] else g.dirtySandboxes,
      g.poolDirty || k > 0)
  }

  /** How the loop over the sandboxes records one answer. */
  function Record(g: Progress, s: BatchSandbox, r: Served, podAllocation: Allocation, podSupplement: int,
                  index: Index): Progress
    requires !r.Panicked?
  {
    if r.Unreadable? then g.(podAllocation := podAllocation, podSupplement := podSupplement, sandboxToPods := index)
    else Progress(podAllocation, podSupplement, index, r.remain, g.sandboxAlloc[s.name := r.pods],
      if r.sandboxDirty then g.dirtySandboxes + [s.name] else g.dirtySandboxes, g.poolDirty || r.poolAllocate)
  }

  /** The constants of a round, computed from what is stored when it starts. */
  datatype Plan = Plan(stored: Allocation, start: Index, sandboxes: seq<BatchSandbox>, avail: seq<PodName>,
                       names: seq<SandboxName>, needs: seq<int>, segments: seq<seq<PodName>>)

  ghost predicate Shaped(plan: Plan) {
    && |plan.sandboxes| == |plan.names| == |plan.needs| == |plan.segments|
    && DistinctNames(plan.sandboxes) && IsIndex(plan.start, plan.stored)
    && (forall i :: 0 <= i < |plan.sandboxes| ==> plan.names[i] == plan.sandboxes[i].name)
    && (forall i :: 0 <= i < |plan.sandboxes| ==> plan.needs[i] == Need(plan.stored, plan.sandboxes[i]))
    && (forall i :: 0 <= i < |plan.sandboxes| ==> plan.segments[i] == Segment(plan.needs, plan.avail, i))
  }

  /** The specification's view of a round after its first k sandboxes. */
  ghost predicate Reached(g: Progress, plan: Plan, k: nat)
    requires Shaped(plan) && k <= |plan.sandboxes|
  {
    && IndexServed(g.sandboxToPods, plan.start, plan.stored, plan.sandboxes, k)
    && (Servable(plan.needs) ==>
         && ProgressIs(plan.needs, plan.avail, k, g.podSupplement, g.remain)
         && Granted(g.podAllocation, g.poolDirty, plan, k)
         && WritesAre(plan.stored, plan.sandboxes, plan.segments, k, g.sandboxAlloc, g.dirtySandboxes))
  }

  ghost predicate Granted(podAllocation: Allocation, poolDirty: bool, plan: Plan, k: nat)
    requires k <= |plan.names| == |plan.segments|
  {
    && podAllocation == plan.stored + Assigned(plan.names, plan.segments, k)
    && poolDirty == (Assigned(plan.names, plan.segments, k) != map[])
  }

  lemma {:induction false} GrantStep(podAllocation: Allocation, poolDirty: bool, plan: Plan, i: nat)
    requires i < |plan.names| == |plan.segments| && Granted(podAllocation, poolDirty, plan, i)
    ensures Granted(podAllocation + GiveAll(plan.segments[i], plan.names[i]), poolDirty || plan.segments[i] != [],
                    plan, i + 1)
    ensures plan.segments[i] == [] ==> Granted(podAllocation, poolDirty, plan, i + 1)
  {
    var segment, a := plan.segments[i], Assigned(plan.names, plan.segments, i);
    var gift := GiveAll(segment, plan.names[i]);
    assert segment != [] ==> segment[0] in gift;
    assert segment == [] ==> gift == map[] && a + gift == a;
    if a != map[] {
      var p :| p in a;
      assert p in a + gift;
    }
  }

  lemma {:induction false} ReachedAtStart(g: Progress, plan: Plan)
    requires Shaped(plan)
    requires g == Progress(plan.stored, 0, plan.start, plan.avail, map[], [], false)
    ensures Reached(g, plan, 0)
  {
    assert plan.stored + map[] == plan.stored;
  }

  ghost predicate ServableUpTo(needs: seq<int>, k: nat)
    requires k <= |needs|
  {
    forall j :: 0 <= j < k ==> 0 <= needs[j]
  }

  lemma {:induction false} ServableStep(needs: seq<int>, i: nat)
    requires i < |needs| && ServableUpTo(needs, i)
    ensures ServableUpTo(needs, i + 1) <==> 0 <= needs[i]
    ensures needs[i] < 0 ==> !Servable(needs)
  {
  }

  lemma {:induction false} ServableEnd(needs: seq<int>)
    ensures ServableUpTo(needs, |needs|) <==> Servable(needs)
  {
  }

  lemma {:induction false} WritesByServing(g: Progress, g': Progress, plan: Plan, i: nat, unsynced: seq<PodName>,
                                           segment: seq<PodName>)
    requires Shaped(plan) && i < |plan.sandboxes| && Active(plan.sandboxes[i]) && segment == plan.segments[i]
    requires WritesAre(plan.stored, plan.sandboxes, plan.segments, i, g.sandboxAlloc, g.dirtySandboxes)
    requires Distinct(unsynced) && ToSet(unsynced) == Unsynced(plan.stored, plan.sandboxes[i])
    requires var s := plan.sandboxes[i];
      g'.sandboxAlloc == g.sandboxAlloc[s.name := s.alloc.pods + unsynced + segment]
    requires g'.dirtySandboxes ==
      if unsynced != [] || segment != [] then g.dirtySandboxes + [plan.sandboxes[i].name] else g.dirtySandboxes
    ensures WritesAre(plan.stored, plan.sandboxes, plan.segments, i + 1, g'.sandboxAlloc, g'.dirtySandboxes)
  {
    AnswerIs(plan.stored, plan.sandboxes[i], segment, unsynced);
    WritesStep(plan.stored, plan.sandboxes, plan.segments, i,
               g.sandboxAlloc, g.dirtySandboxes, g'.sandboxAlloc, g'.dirtySandboxes);
  }

  lemma {:induction false} IndexByServing(g: Progress, plan: Plan, i: nat, unsynced: seq<PodName>)
    requires Shaped(plan) && i < |plan.sandboxes| && Active(plan.sandboxes[i]) && 0 <= plan.needs[i]
    requires IndexServed(g.sandboxToPods, plan.start, plan.stored, plan.sandboxes, i)
    ensures IndexServed(Serve(g, plan.sandboxes[i], unsynced, plan.needs[i]).sandboxToPods,
                        plan.start, plan.stored, plan.sandboxes, i + 1)
  {
    var g' := Serve(g, plan.sandboxes[i], unsynced, plan.needs[i]);
    IndexServedStep(g.sandboxToPods, g'.sandboxToPods, plan.start, plan.stored, plan.sandboxes, i);
  }

  lemma {:induction false} ReachedByServing(g: Progress, plan: Plan, i: nat, unsynced: seq<PodName>)
    requires Shaped(plan) && i < |plan.sandboxes| && Reached(g, plan, i)
    requires Active(plan.sandboxes[i]) && 0 <= plan.needs[i]
    requires Distinct(unsynced) && ToSet(unsynced) == Unsynced(plan.stored, plan.sandboxes[i])
    ensures Reached(Serve(g, plan.sandboxes[i], unsynced, plan.needs[i]), plan, i + 1)
  {
    IndexByServing(g, plan, i, unsynced);
    if Servable(plan.needs) {
      var g' := Serve(g, plan.sandboxes[i], unsynced, plan.needs[i]);
      ProgressStep(plan.needs, plan.avail, i, g.podSupplement, g.remain);
      GrantStep(g.podAllocation, g.poolDirty, plan, i);
      WritesByServing(g, g', plan, i, unsynced, g.remain[..Min(plan.needs[i], |g.remain|)]);
    }
  }

  lemma {:induction false} ReachedBySkipping(g: Progress, g': Progress, plan: Plan, i: nat)
    requires Shaped(plan) && i < |plan.sandboxes| && Reached(g, plan, i) && !Active(plan.sandboxes[i])
    requires g' == g || g' == g.(sandboxAlloc := g.sandboxAlloc[plan.sandboxes[i].name := []])
    ensures Reached(g', plan, i + 1)
  {
    IndexServedStep(g.sandboxToPods, g.sandboxToPods, plan.start, plan.stored, plan.sandboxes, i);
    if Servable(plan.needs) {
      ProgressStep(plan.needs, plan.avail, i, g.podSupplement, g.remain);
      assert plan.segments[i] == [] && g.remain[0..] == g.remain;
      GrantStep(g.podAllocation, g.poolDirty, plan, i);
      WritesStep(plan.stored, plan.sandboxes, plan.segments, i,
                 g.sandboxAlloc, g.dirtySandboxes, g'.sandboxAlloc, g.dirtySandboxes);
    }
  }

  /** The mutable state of one round: the map, the supplement and the inverse index. */
  class AllocationRound {
    var podAllocation: Allocation
    var podSupplement: int
    var sandboxToPods: Index

    constructor (stored: Allocation)
      ensures podAllocation == stored && podSupplement == 0 && sandboxToPods == map[]
    {
      podAllocation, podSupplement, sandboxToPods := stored, 0, map[];
    }

    /** Go's map iteration order is modelled by an arbitrary choice of the next pod. */
    method BuildIndex()
      modifies this`sandboxToPods
      ensures IsIndex(sandboxToPods, podAllocation)
    {
      sandboxToPods := map[];
      var todo := podAllocation.Keys;
      ghost var done: Allocation := map[];
      while todo != {}
        invariant todo <= podAllocation.Keys
        invariant done == map p | p in podAllocation && p !in todo :: podAllocation[p]
        invariant IsIndex(sandboxToPods, done)
        decreases todo
      {
        var p :| p in todo;
        var s := podAllocation[p];
        IndexInsert(sandboxToPods, done, p, s);
        sandboxToPods := sandboxToPods[s := Entry(sandboxToPods, s) + [p]];
        todo := todo - {p};
        done := done[p := s];
      }
      assert done == podAllocation;
    }

    method MergeLocal(s: BatchSandbox) returns (holding: seq<PodName>, sandboxDirty: bool)
      requires Active(s)
      ensures var unsynced := Except(Entry(sandboxToPods, s.name), s.alloc.pods);
        holding == s.alloc.pods + unsynced && sandboxDirty == (unsynced != [])
    {
      var remote := s.alloc.pods;
      holding, sandboxDirty := remote, false;
      if s.name in sandboxToPods {
        var local := sandboxToPods[s.name];
        var i := 0;
        while i < |local|
          invariant 0 <= i <= |local|
          invariant holding == remote + Except(local[..i], remote)
          invariant sandboxDirty == (Except(local[..i], remote) != [])
        {
          assert local[..i + 1][..i] == local[..i];
          if local[i] !in remote {
            sandboxDirty := true;
            holding := holding + [local[i]];
          }
          i := i + 1;
        }
        assert local[..i] == local;
      }
    }

    method Grant(pods: seq<PodName>, s: SandboxName, holding: seq<PodName>)
      returns (result: seq<PodName>, granted: bool)
      modifies this`podAllocation
      ensures podAllocation == old(podAllocation) + GiveAll(pods, s)
      ensures result == holding + pods && granted == (pods != [])
    {
      result, granted := holding, false;
      var j := 0;
      while j < |pods|
        invariant 0 <= j <= |pods|
        invariant podAllocation == old(podAllocation) + GiveAll(pods[..j], s)
        invariant result == holding + pods[..j]
        invariant granted == (j > 0)
      {
        assert pods[..j + 1] == pods[..j] + [pods[j]];
        assert GiveAll(pods[..j + 1], s) == GiveAll(pods[..j], s)[pods[j] := s];
        podAllocation := podAllocation[pods[j] := s];
        granted := true;
        result := result + [pods[j]];
        j := j + 1;
      }
      assert pods[..j] == pods;
    }

    ghost predicate At(g: Progress)
      reads this
    {
      podAllocation == g.podAllocation && podSupplement == g.podSupplement && sandboxToPods == g.sandboxToPods
    }

    /** Serve one sandbox from the available pods. */
    method DoAllocate(available: seq<PodName>, s: BatchSandbox, ghost g: Progress) returns (r: Served)
      requires At(g) && g.remain == available
      modifies this
      ensures !Active(s) || r.Panicked? ==> unchanged(this)
      ensures s.deleting ==> r == Served([], available, false, false)
      ensures !s.deleting && s.alloc.Malformed? ==> r == Unreadable
      ensures Active(s) ==>
        var unsynced := Except(Entry(g.sandboxToPods, s.name), s.alloc.pods);
        var need := s.replicas - |s.alloc.pods| - |unsynced|;
        && (need < 0 <==> r == Panicked)
        && (0 <= need ==>
              r.Served? && Record(g, s, r, podAllocation, podSupplement, sandboxToPods) == Serve(g, s, unsynced, need))
    {
      if s.deleting {
        return Served([], available, false, false);
      }
      if s.alloc.Malformed? {
        return Unreadable;
      }
      var holding, unsynced := MergeLocal(s);
      assert holding[|s.alloc.pods|..] == Except(Entry(sandboxToPods, s.name), s.alloc.pods);
      hide Except;
      var needCnt := s.replicas - |holding|;
      var canCnt := needCnt;
      if |available| < canCnt {
        canCnt := |available|;
      }
      if canCnt < 0 {
        return Panicked;
      }
      r := ServeFrom(available, s, g, holding, unsynced, needCnt, canCnt);
    }

    /** The rest of doAllocate once the slice bounds are known to be in range. */
    method ServeFrom(available: seq<PodName>, s: BatchSandbox, ghost g: Progress, holding: seq<PodName>, unsynced: bool,
                     needCnt: nat, canCnt: nat) returns (r: Served)
      requires At(g) && g.remain == available && Active(s) && canCnt == Min(needCnt, |available|)
      requires |s.alloc.pods| <= |holding| && holding[..|s.alloc.pods|] == s.alloc.pods
      requires unsynced == (holding[|s.alloc.pods|..] != [])
      modifies this
      ensures r.Served?
      ensures Record(g, s, r, podAllocation, podSupplement, sandboxToPods)
        == Serve(g, s, holding[|s.alloc.pods|..], needCnt)
    {
      var pods := available[..canCnt];
      sandboxToPods := sandboxToPods[s.name := pods];
      var result, poolAllocate := Grant(pods, s.name, holding);
      if canCnt < needCnt {
        podSupplement := podSupplement + needCnt - canCnt;
      }
      r := Served(result, available[canCnt..], unsynced || poolAllocate, poolAllocate);
      assert holding == s.alloc.pods + holding[|s.alloc.pods|..];
    }

    method DoDeallocate(s: BatchSandbox) returns (deallocate: bool)
      modifies this
      ensures podSupplement == old(podSupplement)
      ensures var gone := if s.name in old(sandboxToPods) && s.release.Readable? then ToSet(s.release.pods) else {};
        podAllocation == old(podAllocation) - gone && deallocate == (gone != {})
      ensures sandboxToPods.Keys == old(sandboxToPods).Keys
      ensures forall t :: t in sandboxToPods && t != s.name ==> sandboxToPods[t] == old(sandboxToPods)[t]
    {
      if s.name !in sandboxToPods || s.release.Malformed? {
        return false;
      }
      deallocate := DeletePods(s.release.pods);
      sandboxToPods := sandboxToPods[s.name := Except(sandboxToPods[s.name], s.release.pods)];
      assert s.release.pods != [] ==> s.release.pods[0] in ToSet(s.release.pods);
    }

    method DeletePods(pods: seq<PodName>) returns (any: bool)
      modifies this`podAllocation
      ensures podAllocation == old(podAllocation) - ToSet(pods)
      ensures any == (pods != [])
    {
      any := false;
      var i := 0;
      while i < |pods|
        invariant 0 <= i <= |pods|
        invariant podAllocation == old(podAllocation) - ToSet(pods[..i])
        invariant any == (i > 0)
      {
        assert ToSet(pods[..i + 1]) == ToSet(pods[..i]) + {pods[i]};
        podAllocation := podAllocation - {pods[i]};
        any := true;
        i := i + 1;
      }
      assert pods[..i] == pods;
    }

    /** One turn of the loop over the sandboxes. */
    method AllocateNext(g: Progress, s: BatchSandbox, ghost plan: Plan, ghost i: nat) returns (r: Option<Progress>)
      requires Shaped(plan) && i < |plan.sandboxes| && s == plan.sandboxes[i]
      requires Reached(g, plan, i) && At(g)
      modifies this
      ensures r.None? <==> plan.needs[i] < 0
      ensures r.Some? ==> Reached(r.value, plan, i + 1) && At(r.value)
    {
      NeedFromIndex(plan.start, sandboxToPods, plan.stored, plan.sandboxes, i);
      hide Reached;
      var served := DoAllocate(g.remain, s, g);
      if served.Panicked? {
        return None;
      }
      var g' := Record(g, s, served, podAllocation, podSupplement, sandboxToPods);
      if Active(s) {
        ReachedByServing(g, plan, i, Except(Entry(g.sandboxToPods, s.name), s.alloc.pods));
      } else {
        ReachedBySkipping(g, g', plan, i);
      }
      r := Some(g');
    }

    /** Serve every listed sandbox in turn. */
    method Allocate(sandboxes: seq<BatchSandbox>, avail: seq<PodName>, ghost plan: Plan) returns (r: Option<Progress>)
      requires Shaped(plan) && plan.stored == podAllocation && plan.start == sandboxToPods
      requires plan.sandboxes == sandboxes && plan.avail == avail && podSupplement == 0
      modifies this
      ensures r.None? <==> !Servable(plan.needs)
      ensures r.Some? ==> Reached(r.value, plan, |sandboxes|) && At(r.value)
    {
      hide Reached;
      var g := Progress(podAllocation, podSupplement, sandboxToPods, avail, map[], [], false);
      ReachedAtStart(g, plan);
      var i := 0;
      while i < |sandboxes|
        invariant 0 <= i <= |sandboxes|
        invariant ServableUpTo(plan.needs, i)
        invariant Reached(g, plan, i) && At(g)
      {
        r := AllocateNext(g, sandboxes[i], plan, i);
        ServableStep(plan.needs, i);
        if r.None? {
          return;
        }
        g, i := r.value, i + 1;
      }
      ServableEnd(plan.needs);
      r := Some(g);
    }

    /** Process the release annotations of the listed sandboxes, in order. */
    method ReleaseListed(sandboxes: seq<BatchSandbox>, ghost stored: Allocation)
      returns (released: bool, listed: set<SandboxName>)
      requires forall j :: 0 <= j < |sandboxes| ==>
        (sandboxes[j].name in sandboxToPods <==> Indexed(stored, sandboxes[j]))
      modifies this
      ensures podSupplement == old(podSupplement)
      ensures podAllocation == old(podAllocation) - AllReleased(stored, sandboxes)
      ensures released == (AllReleased(stored, sandboxes) != {})
      ensures listed == Names(sandboxes)
      ensures sandboxToPods.Keys == old(sandboxToPods).Keys
      ensures forall t :: t in sandboxToPods && t !in Names(sandboxes) ==> sandboxToPods[t] == old(sandboxToPods)[t]
    {
      released, listed := false, {};
      var i := 0;
      while i < |sandboxes|
        invariant 0 <= i <= |sandboxes|
        invariant podSupplement == old(podSupplement)
        invariant listed == set j | 0 <= j < i :: sandboxes[j].name
        invariant podAllocation == old(podAllocation) - Released(stored, sandboxes, i)
        invariant released == (Released(stored, sandboxes, i) != {})
        invariant sandboxToPods.Keys == old(sandboxToPods).Keys
        invariant forall t :: t in sandboxToPods && t !in Names(sandboxes) ==> sandboxToPods[t] == old(sandboxToPods)[t]
      {
        var s := sandboxes[i];
        listed := listed + {s.name};
        var deallocate := DoDeallocate(s);
        RemoveBoth(old(podAllocation), Released(stored, sandboxes, i), ReleasedBy(stored, s));
        released := released || deallocate;
        i := i + 1;
      }
    }

    /** Collect the pods of index entries whose sandbox is no longer listed. */
    method CollectGarbage(listed: set<SandboxName>, ghost plan: Plan) returns (collected: bool)
      requires Shaped(plan)
      requires forall t :: t !in listed ==> (t in sandboxToPods <==> t in plan.start)
      requires forall t :: t in sandboxToPods && t !in listed ==> sandboxToPods[t] == plan.start[t]
      modifies this
      ensures podSupplement == old(podSupplement)
      ensures podAllocation == old(podAllocation) - OwnedBySome(plan.stored, plan.start.Keys - listed)
      ensures collected == (OwnedBySome(plan.stored, plan.start.Keys - listed) != {})
    {
      collected := false;
      var todo := sandboxToPods.Keys - listed;
      ghost var all, done := todo, {};
      assert all == plan.start.Keys - listed;
      while todo != {}
        invariant podSupplement == old(podSupplement)
        invariant todo !! done && todo + done == all
        invariant forall t :: t in todo ==> t in sandboxToPods && sandboxToPods[t] == plan.start[t]
        invariant podAllocation == old(podAllocation) - OwnedBySome(plan.stored, done)
        invariant collected == (OwnedBySome(plan.stored, done) != {})
        decreases todo
      {
        var name :| name in todo;
        assert OwnedBySome(plan.stored, done + {name}) == OwnedBySome(plan.stored, done) + ToSet(plan.start[name]);
        var any := DeletePods(sandboxToPods[name]);
        assert any ==> plan.start[name][0] in ToSet(plan.start[name]);
        collected := collected || any;
        sandboxToPods := sandboxToPods - {name};
        todo, done := todo - {name}, done + {name};
      }
    }

    method Deallocate(sandboxes: seq<BatchSandbox>, ghost plan: Plan) returns (poolDeallocate: bool)
      requires Shaped(plan) && plan.sandboxes == sandboxes
      requires IndexServed(sandboxToPods, plan.start, plan.stored, sandboxes, |sandboxes|)
      modifies this
      ensures podSupplement == old(podSupplement)
      ensures podAllocation == old(podAllocation) - AllReleased(plan.stored, sandboxes)
        - Orphans(plan.stored, sandboxes)
      ensures poolDeallocate == (AllReleased(plan.stored, sandboxes) != {} || Orphans(plan.stored, sandboxes) != {})
    {
      assert sandboxes[..|sandboxes|] == sandboxes;
      var released, listed := ReleaseListed(sandboxes, plan.stored);
      var collected := CollectGarbage(listed, plan);
      OrphansAreUnlisted(plan);
      poolDeallocate := released || collected;
    }

    /** The half of a round that follows the allocation. */
    method Conclude(g: Progress, sandboxes: seq<BatchSandbox>, ghost plan: Plan, ghost pods: seq<Pod>)
      returns (r: ScheduleResult)
      requires sandboxes == plan.sandboxes
      requires Shaped(plan) && Servable(plan.needs) && Reached(g, plan, |plan.sandboxes|) && At(g)
      requires NewAssignments(plan.stored, plan.sandboxes, pods)
        == Assigned(plan.names, plan.segments, |plan.sandboxes|)
      modifies this
      ensures r.Scheduled?
      ensures r.podAllocation == FinalAllocation(plan.stored, plan.sandboxes, pods)
      ensures r.podSupplement == Max(0, TotalNeed(plan.needs, |plan.needs|) - |plan.avail|)
      ensures r.poolDirty == PoolDirty(plan.stored, plan.sandboxes, pods)
      ensures AnnotationsWritten(r.writes, plan.stored, plan.sandboxes, plan.segments)
    {
      hide Reached, Shaped, IndexServed, AnnotationsWritten, WritesAre, NewAssignments, AllReleased, Orphans;
      hide TotalNeed, Taken, Servable, Assigned, DistinctNames;
      AllocationDone(g, plan);
      SupplementIsShortfall(plan.needs, |plan.avail|);
      WritesAreWritten(plan.stored, plan.sandboxes, plan.segments, g.sandboxAlloc, g.dirtySandboxes);
      var poolDeallocate := Deallocate(sandboxes, plan);
      r := Scheduled(podAllocation, podSupplement, poolDeallocate || g.poolDirty,
                     Restrict(g.sandboxAlloc, g.dirtySandboxes));
    }
  }

  lemma {:induction false} RemoveBoth(alloc: Allocation, a: set<PodName>, b: set<PodName>)
    ensures alloc - a - b == alloc - (a + b)
  {
  }

  /** What the allocation half of a round has achieved when every sandbox was served. */
  lemma {:induction false} AllocationDone(g: Progress, plan: Plan)
    requires Shaped(plan) && Servable(plan.needs) && Reached(g, plan, |plan.sandboxes|)
    ensures |plan.needs| == |plan.segments| == |plan.sandboxes| == |plan.names| && DistinctNames(plan.sandboxes)
    ensures g.podAllocation == plan.stored + Assigned(plan.names, plan.segments, |plan.sandboxes|)
    ensures g.poolDirty == (Assigned(plan.names, plan.segments, |plan.sandboxes|) != map[])
    ensures g.podSupplement == TotalNeed(plan.needs, |plan.needs|) - Taken(plan.needs, |plan.avail|, |plan.needs|)
    ensures IndexServed(g.sandboxToPods, plan.start, plan.stored, plan.sandboxes, |plan.sandboxes|)
    ensures WritesAre(plan.stored, plan.sandboxes, plan.segments, |plan.sandboxes|, g.sandboxAlloc, g.dirtySandboxes)
  {
  }

  function OwnedBySome(alloc: Allocation, names: set<SandboxName>): set<PodName> {
    set p | p in alloc && alloc[p] in names
  }

  /** Every owner has an index entry, so collecting unlisted entries misses nothing. */
  lemma {:induction false} OrphansAreUnlisted(plan: Plan)
    requires Shaped(plan)
    ensures OwnedBySome(plan.stored, plan.start.Keys - Names(plan.sandboxes)) == Orphans(plan.stored, plan.sandboxes)
  {
    forall p | p in plan.stored
      ensures plan.stored[p] in plan.start
    {
      assert p in Owned(plan.stored, plan.stored[p]);
    }
  }

  /** The annotations a round writes: exactly the dirty sandboxes, each with its new list. */
  ghost predicate AnnotationsWritten(writes: map<SandboxName, seq<PodName>>, alloc: Allocation,
                                     sandboxes: seq<BatchSandbox>, segments: seq<seq<PodName>>)
    requires |segments| == |sandboxes|
  {
    && writes.Keys <= Names(sandboxes)
    && (forall i :: 0 <= i < |sandboxes| ==>
          && (sandboxes[i].name in writes <==> SandboxDirty(alloc, sandboxes[i], segments[i]))
          && (sandboxes[i].name in writes ==>
            IsNewAnnotation(writes[sandboxes[i].name], alloc, sandboxes[i], segments[i])))
  }

  lemma {:induction false} WritesAreWritten(alloc: Allocation, sandboxes: seq<BatchSandbox>,
                                            segments: seq<seq<PodName>>, sandboxAlloc: map<SandboxName, seq<PodName>>,
                                            dirty: seq<SandboxName>)
    requires |sandboxes| == |segments| && DistinctNames(sandboxes)
    requires WritesAre(alloc, sandboxes, segments, |sandboxes|, sandboxAlloc, dirty)
    ensures AnnotationsWritten(Restrict(sandboxAlloc, dirty), alloc, sandboxes, segments)
  {
    assert sandboxes[..|sandboxes|] == sandboxes;
    forall i | 0 <= i < |sandboxes|
      ensures WriteIs(alloc, sandboxes[i], segments[i], sandboxAlloc, dirty)
    {
    }
  }

  function Restrict(sandboxAlloc: map<SandboxName, seq<PodName>>,
                    dirty: seq<SandboxName>): map<SandboxName, seq<PodName>> {
    map n | n in dirty && n in sandboxAlloc :: sandboxAlloc[n]
  }

  /** The constants of a round over an index and the available pods. */
  lemma {:induction false} MakePlan(stored: Allocation, start: Index, sandboxes: seq<BatchSandbox>, pods: seq<Pod>)
    returns (plan: Plan)
    requires DistinctNames(sandboxes) && IsIndex(start, stored)
    ensures Shaped(plan) && plan.stored == stored && plan.start == start && plan.sandboxes == sandboxes
    ensures plan.avail == Available(stored, pods) && plan.needs == Needs(stored, sandboxes)
    ensures plan.segments == Segments(plan.needs, plan.avail)
    ensures NewAssignments(stored, sandboxes, pods) == Assigned(plan.names, plan.segments, |sandboxes|)
  {
    var needs, avail := Needs(stored, sandboxes), Available(stored, pods);
    plan := Plan(stored, start, sandboxes, avail, NameList(sandboxes), needs, Segments(needs, avail));
  }

  datatype ScheduleResult =
    | Panic
    | Scheduled(podAllocation: Allocation, podSupplement: int, poolDirty: bool, writes: map<SandboxName, seq<PodName>>)

  method CollectAvailable(stored: Allocation, pods: seq<Pod>) returns (avail: seq<PodName>)
    ensures avail == Available(stored, pods)
  {
    avail := [];
    var i := 0;
    while i < |pods|
      invariant 0 <= i <= |pods|
      invariant avail == Available(stored, pods[..i])
    {
      assert pods[..i + 1][..i] == pods[..i];
      if pods[i].name !in stored && pods[i].running {
        avail := avail + [pods[i].name];
      }
      i := i + 1;
    }
    assert pods[..i] == pods;
  }

  /** A whole round. The out-of-range slice of doAllocate stops it before anything is written. */
  method Schedule(stored: Allocation, sandboxes: seq<BatchSandbox>, pods: seq<Pod>) returns (r: ScheduleResult)
    requires DistinctNames(sandboxes)
    ensures r.Panic? <==> Panics(stored, sandboxes)
    ensures r.Scheduled? ==>
      var avail, needs := Available(stored, pods), Needs(stored, sandboxes);
      && r.podAllocation == FinalAllocation(stored, sandboxes, pods)
      && r.podSupplement == Max(0, TotalNeed(needs, |needs|) - |avail|)
      && r.poolDirty == PoolDirty(stored, sandboxes, pods)
      && AnnotationsWritten(r.writes, stored, sandboxes, Segments(needs, avail))
  {
    hide Needs, Segments, NameList, Available, IsIndex, Assigned, TotalNeed, Servable;
    hide Reached, Shaped, AnnotationsWritten, NewAssignments, FinalAllocation, PoolDirty;
    var round := new AllocationRound(stored);
    var avail := CollectAvailable(stored, pods);
    round.BuildIndex();
    ghost var plan := MakePlan(stored, round.sandboxToPods, sandboxes, pods);
    var reached := round.Allocate(sandboxes, avail, plan);
    if reached.None? {
      return Panic;
    }
    r := round.Conclude(reached.value, sandboxes, plan, pods);
  }
}
