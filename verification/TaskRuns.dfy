/**
 * Runs of the task scheduler: recovery, then any sequence of pod updates,
 * stops and scheduling rounds, with arbitrary reports from the endpoints.
 */
module TaskRuns {
  import opened Common
  import opened TaskScheduler

  datatype State = State(nodes: seq<Node>, pods: seq<Pod>)

  datatype Op = UpdatePods(pods: seq<Pod>) | Stop | Schedule(reports: Reports)

  function Apply(st: State, op: Op, policy: ResourcePolicy): State {
    match op
    case UpdatePods(pods) => st.(pods := pods)
    case Stop => st.(nodes := StopAll(st.nodes))
    case Schedule(reports) => st.(nodes := Round(st.nodes, st.pods, reports, policy))
  }

  function Start(names: seq<string>, pods: seq<Pod>, reports: Reports): State {
    State(RecoverAll(FreshNodes(names), pods, reports, |pods|), pods)
  }

  /** The API server never lists two pods of one name. */
  ghost predicate Run(sts: seq<State>, ops: seq<Op>, policy: ResourcePolicy, names: seq<string>, reports: Reports) {
    && |sts| == |ops| + 1
    && sts[0] == Start(names, sts[0].pods, reports)
    && (forall k :: 0 <= k < |ops| ==> sts[k + 1] == Apply(sts[k], ops[k], policy))
    && (forall k :: 0 <= k < |sts| ==> DistinctPods(sts[k].pods))
  }

  // ------------------------------------------------------------------
  // Pods are held exclusively
  // ------------------------------------------------------------------

  predicate WellFormed(n: Node) {
    (n.ip.Some? <==> n.podName.Some?) && (n.ip.None? ==> n.status.None? && n.tState == Unset)
  }

  ghost predicate Exclusive(nodes: seq<Node>) {
    forall i, j :: 0 <= i < j < |nodes| && nodes[i].podName.Some? ==> nodes[i].podName != nodes[j].podName
  }

  ghost predicate Inv(nodes: seq<Node>) {
    Exclusive(nodes) && forall i :: 0 <= i < |nodes| ==> WellFormed(nodes[i])
  }

  ghost predicate Listed(pods: seq<Pod>, k: nat, p: PodName)
    requires k <= |pods|
  {
    exists j :: 0 <= j < k && pods[j].name == p
  }

  ghost predicate HeldAreListed(nodes: seq<Node>, pods: seq<Pod>, k: nat)
    requires k <= |pods|
  {
    forall i :: 0 <= i < |nodes| && nodes[i].podName.Some? ==> Listed(pods, k, nodes[i].podName.value)
  }

  lemma {:induction false} RecoveryIsExclusive(names: seq<string>, pods: seq<Pod>, reports: Reports, k: nat)
    requires k <= |pods| && DistinctPods(pods)
    ensures Inv(RecoverAll(FreshNodes(names), pods, reports, k))
    ensures HeldAreListed(RecoverAll(FreshNodes(names), pods, reports, k), pods, k)
  {
    if k > 0 {
      RecoveryIsExclusive(names, pods, reports, k - 1);
      RecoverOneIsExclusive(RecoverAll(FreshNodes(names), pods, reports, k - 1), pods, reports, k - 1);
    }
  }

  lemma {:induction false} RecoverOneIsExclusive(nodes: seq<Node>, pods: seq<Pod>, reports: Reports, k: nat)
    requires k < |pods| && DistinctPods(pods) && Inv(nodes) && HeldAreListed(nodes, pods, k)
    ensures Inv(RecoverFrom(nodes, pods[k], reports))
      && HeldAreListed(RecoverFrom(nodes, pods[k], reports), pods, k + 1)
  {
    var after := RecoverFrom(nodes, pods[k], reports);
    forall i | 0 <= i < |nodes| && nodes[i].podName.Some?
      ensures nodes[i].podName != Some(pods[k].name) && Listed(pods, k + 1, nodes[i].podName.value)
    {
      var j :| 0 <= j < k && pods[j].name == nodes[i].podName.value;
      assert 0 <= j < k + 1 && pods[j].name == nodes[i].podName.value;
    }
    assert 0 <= k < k + 1 && pods[k].name == pods[k].name;
    assert Listed(pods, k + 1, pods[k].name);
  }

  lemma {:induction false} FreePodsMembers(nodes: seq<Node>, pods: seq<Pod>)
    ensures forall p :: p in FreePods(nodes, pods) <==> p in pods && p.ip.Some? && !Holds(nodes, p.name)
  {
    hide Holds;
    if pods != [] {
      var k := |pods| - 1;
      assert pods == pods[..k] + [pods[k]];
      FreePodsMembers(nodes, pods[..k]);
    }
  }

  lemma {:induction false} FreePodsDistinct(nodes: seq<Node>, pods: seq<Pod>)
    requires DistinctPods(pods)
    ensures DistinctPods(FreePods(nodes, pods))
  {
    hide Holds;
    if pods != [] {
      var k := |pods| - 1;
      var front, before := pods[..k], FreePods(nodes, pods[..k]);
      FreePodsDistinct(nodes, front);
      FreePodsMembers(nodes, front);
      assert forall i :: 0 <= i < |before| ==> before[i] in front;
      assert forall p :: p in front ==> p.name != pods[k].name;
    }
  }

  lemma {:induction false} FreePodsAre(nodes: seq<Node>, pods: seq<Pod>)
    requires DistinctPods(pods)
    ensures forall p :: p in FreePods(nodes, pods) <==> p in pods && p.ip.Some? && !Holds(nodes, p.name)
    ensures DistinctPods(FreePods(nodes, pods))
  {
    hide Holds, FreePods, DistinctPods;
    FreePodsMembers(nodes, pods);
    FreePodsDistinct(nodes, pods);
  }

  lemma {:induction false} WaitingMonotone(nodes: seq<Node>, i: nat, j: nat)
    requires i <= j <= |nodes|
    ensures Waiting(nodes, i) <= Waiting(nodes, j)
    ensures i < j && nodes[i].ip.None? ==> Waiting(nodes, i) < Waiting(nodes, j)
  {
    if i < j {
      WaitingMonotone(nodes, i, j - 1);
    }
  }

  /** The m-th waiting node exists. */
  lemma {:induction false} FindWaiting(nodes: seq<Node>, k: nat, m: nat) returns (i: nat)
    requires k <= |nodes| && m < Waiting(nodes, k)
    ensures i < k && nodes[i].ip.None? && Waiting(nodes, i) == m
  {
    if m < Waiting(nodes, k - 1) {
      i := FindWaiting(nodes, k - 1, m);
    } else {
      i := k - 1;
    }
  }

  /** Assignment gives each waiting node a pod nobody holds, and different nodes different pods. */
  lemma {:induction false} AssignIsExclusive(nodes: seq<Node>, free: seq<Pod>)
    requires Inv(nodes) && DistinctPods(free)
    requires forall p :: p in free ==> p.ip.Some? && !Holds(nodes, p.name)
    ensures Inv(Assign(nodes, free))
  {
    var after := Assign(nodes, free);
    forall i | 0 <= i < |nodes|
      ensures WellFormed(after[i])
    {
      assert nodes[i].ip.None? && Waiting(nodes, i) < |free| ==> free[Waiting(nodes, i)] in free;
    }
    forall i, j | 0 <= i < j < |nodes| && after[i].podName.Some?
      ensures after[i].podName != after[j].podName
    {
      AssignedDiffer(nodes, free, i, j);
    }
  }

  lemma {:induction false} AssignedDiffer(nodes: seq<Node>, free: seq<Pod>, i: nat, j: nat)
    requires Inv(nodes) && DistinctPods(free) && i < j < |nodes|
    requires forall p :: p in free ==> !Holds(nodes, p.name)
    requires AssignNode(nodes, free, i).podName.Some?
    ensures AssignNode(nodes, free, i).podName != AssignNode(nodes, free, j).podName
  {
    var mi, mj := Waiting(nodes, i), Waiting(nodes, j);
    assert WellFormed(nodes[i]) && WellFormed(nodes[j]);
    if nodes[i].ip.None? {
      WaitingMonotone(nodes, i, j);
      assert free[mi] in free;
      if nodes[j].ip.Some? {
        assert !Holds(nodes, free[mi].name);
      }
    } else if nodes[j].ip.None? && mj < |free| {
      assert free[mj] in free;
      assert !Holds(nodes, free[mj].name);
    }
  }

  /** Waiting nodes are served in order, each with a free pod after the one of the node before it. */
  lemma {:induction false} AssignIsInOrder(nodes: seq<Node>, free: seq<Pod>, i: nat, j: nat) returns (a: nat, b: nat)
    requires i < j < |nodes| && nodes[i].ip.None? && nodes[j].ip.None? && nodes[j].podName.None?
    requires Assign(nodes, free)[j].podName.Some?
    ensures a < b < |free|
    ensures Assign(nodes, free)[i].podName == Some(free[a].name) && Assign(nodes, free)[i].ip == free[a].ip
    ensures Assign(nodes, free)[j].podName == Some(free[b].name) && Assign(nodes, free)[j].ip == free[b].ip
  {
    a, b := Waiting(nodes, i), Waiting(nodes, j);
    WaitingMonotone(nodes, i, j);
    hide Waiting;
  }

  /** Free pods stand in the order of the pod list. */
  lemma {:induction false} FreePodsInOrder(nodes: seq<Node>, pods: seq<Pod>, a: nat, b: nat, i: nat, j: nat)
    requires DistinctPods(pods) && a < b < |FreePods(nodes, pods)| && i < |pods| && j < |pods|
    requires pods[i] == FreePods(nodes, pods)[a] && pods[j] == FreePods(nodes, pods)[b]
    ensures i < j
  {
    hide Holds;
    var n := |pods| - 1;
    var front, before := pods[..n], FreePods(nodes, pods[..n]);
    FreePodsMembers(nodes, front);
    assert before[a] in front;
    var x :| 0 <= x < |front| && front[x] == before[a];
    assert pods[x].name == pods[i].name;
    if b < |before| {
      assert before[b] in front;
      var y :| 0 <= y < |front| && front[y] == before[b];
      assert pods[y].name == pods[j].name;
      FreePodsInOrder(nodes, front, a, b, i, j);
    }
  }

  lemma {:induction false} CollectKeepsPods(nodes: seq<Node>, reports: Reports, i: nat)
    requires i < |nodes|
    ensures Collect(nodes, reports)[i].ip == nodes[i].ip && Collect(nodes, reports)[i].podName == nodes[i].podName
    ensures Collect(nodes, reports)[i].stopping == nodes[i].stopping
      && Collect(nodes, reports)[i].sState == nodes[i].sState
    ensures WellFormed(nodes[i]) ==> WellFormed(Collect(nodes, reports)[i])
  {
  }

  /** The round's preparation keeps the invariant and never takes a pod away. */
  lemma {:induction false} PreparedIsExclusive(nodes: seq<Node>, pods: seq<Pod>, reports: Reports)
    requires Inv(nodes) && DistinctPods(pods)
    ensures Inv(Prepared(nodes, pods, reports))
  {
    hide Collect, FreePods, Assign;
    var collected, free := Collect(nodes, reports), FreePods(nodes, pods);
    forall i | 0 <= i < |nodes|
      ensures collected[i].ip == nodes[i].ip && collected[i].podName == nodes[i].podName && WellFormed(collected[i])
    {
      CollectKeepsPods(nodes, reports, i);
    }
    FreePodsAre(nodes, pods);
    assert forall p :: p in free ==> !Holds(collected, p.name);
    AssignIsExclusive(collected, free);
  }

  lemma {:induction false} RoundIsExclusive(nodes: seq<Node>, pods: seq<Pod>, reports: Reports, policy: ResourcePolicy)
    requires Inv(nodes) && DistinctPods(pods)
    ensures Inv(Round(nodes, pods, reports, policy))
  {
    hide Prepared;
    PreparedIsExclusive(nodes, pods, reports);
    var prepared, after := Prepared(nodes, pods, reports), Round(nodes, pods, reports, policy);
    assert forall i :: 0 <= i < |nodes| ==> after[i] == StepNode(prepared[i], policy);
  }

  lemma {:induction false} ApplyKeepsInv(st: State, op: Op, policy: ResourcePolicy)
    requires Inv(st.nodes) && DistinctPods(st.pods)
    ensures |Apply(st, op, policy).nodes| == |st.nodes| && Inv(Apply(st, op, policy).nodes)
  {
    match op
    case Schedule(reports) => RoundIsExclusive(st.nodes, st.pods, reports, policy);
    case _ =>
  }

  /** At every point of every run no two task nodes hold the same pod. */
  lemma {:induction false} RunsAreExclusive(sts: seq<State>, ops: seq<Op>, policy: ResourcePolicy, names: seq<string>,
                                            reports: Reports, k: nat)
    requires Run(sts, ops, policy, names, reports) && k < |sts|
    ensures |sts[k].nodes| == |names| && Inv(sts[k].nodes)
  {
    if k == 0 {
      RecoveryIsExclusive(names, sts[0].pods, reports, |sts[0].pods|);
    } else {
      RunsAreExclusive(sts, ops, policy, names, reports, k - 1);
      hide Inv, Apply;
      ApplyKeepsInv(sts[k - 1], ops[k - 1], policy);
      assert sts[k - 1 + 1] == Apply(sts[k - 1], ops[k - 1], policy);
    }
  }

  /** What every operation keeps of one node. */
  ghost predicate Onward(n: Node, n': Node) {
    && n'.name == n.name
    && (n.ip.Some? ==> n'.ip == n.ip && n'.podName == n.podName)
    && (n.stopping ==> n'.stopping)
    && (n.sState != Initial ==> n'.sState != Initial)
  }

  lemma {:induction false} ApplyMovesOn(st: State, op: Op, policy: ResourcePolicy, i: nat)
    requires i < |st.nodes|
    ensures |Apply(st, op, policy).nodes| == |st.nodes| && Onward(st.nodes[i], Apply(st, op, policy).nodes[i])
  {
  }

  /** Once bound after recovery, a node keeps its pod; stopping and releasing are never undone. */
  lemma {:induction false} NodesMoveOn(sts: seq<State>, ops: seq<Op>, policy: ResourcePolicy, names: seq<string>,
                                       reports: Reports, j: nat, k: nat, i: nat)
    requires Run(sts, ops, policy, names, reports) && j <= k < |sts| && i < |names|
    ensures |sts[j].nodes| == |sts[k].nodes| == |names| && Onward(sts[j].nodes[i], sts[k].nodes[i])
  {
    RunsAreExclusive(sts, ops, policy, names, reports, j);
    if j < k {
      NodesMoveOn(sts, ops, policy, names, reports, j, k - 1, i);
      hide Apply;
      ApplyMovesOn(sts[k - 1], ops[k - 1], policy, i);
      assert sts[k - 1 + 1] == Apply(sts[k - 1], ops[k - 1], policy);
    }
  }

  // ------------------------------------------------------------------
  // Rounds leave no pod idle while a task waits
  // ------------------------------------------------------------------

  lemma {:induction false} HeldAfterAssign(nodes: seq<Node>, free: seq<Pod>, m: nat)
    requires m < |free| && m < Waiting(nodes, |nodes|) && free[m].ip.Some?
    ensures Holds(Assign(nodes, free), free[m].name)
  {
    var i := FindWaiting(nodes, |nodes|, m);
    assert Assign(nodes, free)[i].podName == Some(free[m].name);
  }

  lemma {:induction false} AllServedIfEnough(nodes: seq<Node>, free: seq<Pod>)
    requires Waiting(nodes, |nodes|) <= |free| && forall p :: p in free ==> p.ip.Some?
    ensures forall i :: 0 <= i < |nodes| ==> Assign(nodes, free)[i].ip.Some?
  {
    forall i | 0 <= i < |nodes|
      ensures Assign(nodes, free)[i].ip.Some?
    {
      WaitingMonotone(nodes, i, |nodes|);
      if nodes[i].ip.None? {
        assert free[Waiting(nodes, i)] in free;
      }
    }
  }

  /** What a round does to the binding of nodes and pods alone. */
  ghost predicate SameBinding(nodes: seq<Node>, nodes': seq<Node>) {
    |nodes| == |nodes'| && forall i :: 0 <= i < |nodes| ==>
      nodes'[i].ip == nodes[i].ip && nodes'[i].podName == nodes[i].podName
  }

  lemma {:induction false} SameBindingHolds(nodes: seq<Node>, nodes': seq<Node>, p: PodName)
    requires SameBinding(nodes, nodes')
    ensures Holds(nodes, p) <==> Holds(nodes', p)
  {
    if Holds(nodes, p) {
      var i :| 0 <= i < |nodes| && nodes[i].ip.Some? && nodes[i].podName == Some(p);
      assert nodes'[i].ip.Some? && nodes'[i].podName == Some(p);
    }
    if Holds(nodes', p) {
      var i :| 0 <= i < |nodes| && nodes'[i].ip.Some? && nodes'[i].podName == Some(p);
      assert nodes[i].ip.Some? && nodes[i].podName == Some(p);
    }
  }

  lemma {:induction false} AssignOnlyAdds(nodes: seq<Node>, free: seq<Pod>, p: PodName)
    requires Holds(nodes, p)
    ensures Holds(Assign(nodes, free), p)
  {
    var i :| 0 <= i < |nodes| && nodes[i].ip.Some? && nodes[i].podName == Some(p);
    assert Assign(nodes, free)[i] == nodes[i];
  }

  /** After a round either every node has a pod or no pod with an address is free. */
  lemma {:induction false} RoundUsesFreePods(nodes: seq<Node>, pods: seq<Pod>, reports: Reports, policy: ResourcePolicy)
    requires DistinctPods(pods)
    ensures var after := Round(nodes, pods, reports, policy);
      FreePods(after, pods) == [] || forall i :: 0 <= i < |after| ==> after[i].ip.Some?
  {
    var collected, free := Collect(nodes, reports), FreePods(nodes, pods);
    var bound, after := Assign(collected, free), Round(nodes, pods, reports, policy);
    assert SameBinding(bound, after);
    assert SameBinding(nodes, collected);
    FreePodsAre(nodes, pods);
    FreePodsAre(after, pods);
    hide Collect, FreePods, Assign, Round, SameBinding, DistinctPods;
    if Waiting(collected, |collected|) <= |free| {
      AllServedIfEnough(collected, free);
      BindingAt(bound, after);
    } else {
      forall p | p in pods && p.ip.Some?
        ensures Holds(after, p.name)
      {
        SameBindingHolds(bound, after, p.name);
        SameBindingHolds(nodes, collected, p.name);
        if Holds(nodes, p.name) {
          AssignOnlyAdds(collected, free, p.name);
        } else {
          assert p in free;
          var m :| 0 <= m < |free| && free[m] == p;
          HeldAfterAssign(collected, free, m);
        }
      }
      EmptyOrHasMember(FreePods(after, pods));
    }
  }

  lemma {:induction false} BindingAt(nodes: seq<Node>, nodes': seq<Node>)
    requires SameBinding(nodes, nodes') && forall i :: 0 <= i < |nodes| ==> nodes[i].ip.Some?
    ensures forall i :: 0 <= i < |nodes'| ==> nodes'[i].ip.Some?
  {
  }

  // ------------------------------------------------------------------
  // Why a task is released
  // ------------------------------------------------------------------

  /** The tasks were stopped before this point. */
  ghost predicate StoppedBefore(ops: seq<Op>, k: nat) {
    exists j :: 0 <= j < k && j < |ops| && ops[j] == Stop
  }

  /** The pod's endpoint reports a task of the name when the scheduler is built. */
  predicate ReportsAs(p: Pod, reports: Reports, name: string) {
    p.ip.Some? && p.ip.value in reports && reports[p.ip.value].name == name
  }

  ghost predicate RecoveredDeleting(pods: seq<Pod>, k: nat, reports: Reports, name: string)
    requires k <= |pods|
  {
    exists j :: 0 <= j < k && ReportsAs(pods[j], reports, name) && reports[pods[j].ip.value].deleting
  }

  ghost predicate RecoveredCompleted(pods: seq<Pod>, k: nat, reports: Reports, name: string)
    requires k <= |pods|
  {
    exists j :: 0 <= j < k && ReportsAs(pods[j], reports, name) && Completed(ParseTaskState(reports[pods[j].ip.value]))
  }

  /** A report at the node's address that parses to completed. */
  predicate ReportsCompleted(n: Node, reports: Reports) {
    Reported(n, reports).Some? && Completed(ParseTaskState(Reported(n, reports).value))
  }

  ghost predicate SeenCompleted(sts: seq<State>, ops: seq<Op>, k: nat, i: nat)
    requires k < |sts|
  {
    exists j :: 0 <= j < k && j < |ops| && ops[j].Schedule? && i < |sts[j].nodes|
      && ReportsCompleted(sts[j].nodes[i], ops[j].reports)
  }

  /**
   * What happened before this point: a stop, under Release a report of a
   * completed task, or a report at recovery of a task of the node's name that
   * is being deleted.
   */
  ghost predicate Cause(sts: seq<State>, ops: seq<Op>, policy: ResourcePolicy, names: seq<string>, reports: Reports,
                        k: nat, i: nat)
    requires k < |sts| && i < |names|
  {
    var pods := sts[0].pods;
    || StoppedBefore(ops, k)
    || (policy == Release && (SeenCompleted(sts, ops, k, i) || RecoveredCompleted(pods, |pods|, reports, names[i])))
    || RecoveredDeleting(pods, |pods|, reports, names[i])
  }

  /** What one operation can change about a node's release. */
  lemma {:induction false} ReleaseNeedsReason(st: State, op: Op, policy: ResourcePolicy, i: nat)
    requires i < |st.nodes|
    ensures var n, n' := st.nodes[i], Apply(st, op, policy).nodes[i];
      && (n'.sState != Initial ==> n.sState != Initial || n'.stopping || (policy == Release && Completed(n'.tState)))
      && (n'.stopping && op != Stop ==> n.stopping)
  {
  }

  lemma {:induction false} CallsNeedRelease(st: State, reports: Reports, policy: ResourcePolicy, i: nat, c: Call)
    requires i < |st.nodes| && c in CallsOf(Prepared(st.nodes, st.pods, reports)[i], policy) && c.ClearTask?
    ensures Apply(st, Schedule(reports), policy).nodes[i].sState != Initial
  {
  }

  /** A task state comes from a report at the node's address. */
  lemma {:induction false} TaskStateNeedsReport(st: State, op: Op, policy: ResourcePolicy, i: nat)
    requires i < |st.nodes|
    ensures var n, n' := st.nodes[i], Apply(st, op, policy).nodes[i];
      Completed(n'.tState) ==> Completed(n.tState) || (op.Schedule? && ReportsCompleted(n, op.reports))
  {
    hide FreePods, Waiting;
  }

  /** Each mark on a node has its cause. */
  ghost predicate Explained(sts: seq<State>, ops: seq<Op>, policy: ResourcePolicy, names: seq<string>,
                            reports: Reports, k: nat, i: nat)
    requires k < |sts| && i < |names| && i < |sts[k].nodes|
  {
    var n, pods := sts[k].nodes[i], sts[0].pods;
    && (n.stopping ==> StoppedBefore(ops, k))
    && (Completed(n.tState) ==> SeenCompleted(sts, ops, k, i) || RecoveredCompleted(pods, |pods|, reports, names[i]))
    && (n.sState != Initial ==> Cause(sts, ops, policy, names, reports, k, i))
  }

  lemma {:induction false} CausesLast(sts: seq<State>, ops: seq<Op>, policy: ResourcePolicy, names: seq<string>,
                                      reports: Reports, k: nat, i: nat)
    requires 0 < k < |sts| && i < |names|
    ensures StoppedBefore(ops, k - 1) ==> StoppedBefore(ops, k)
    ensures SeenCompleted(sts, ops, k - 1, i) ==> SeenCompleted(sts, ops, k, i)
    ensures Cause(sts, ops, policy, names, reports, k - 1, i) ==> Cause(sts, ops, policy, names, reports, k, i)
  {
    hide ReportsCompleted, RecoveredCompleted, RecoveredDeleting;
  }

  lemma {:induction false} StepIsExplained(sts: seq<State>, ops: seq<Op>, policy: ResourcePolicy, names: seq<string>,
                                           reports: Reports, k: nat, i: nat)
    requires 0 < k < |sts| && |sts| == |ops| + 1 && i < |names| && i < |sts[k - 1].nodes| && i < |sts[k].nodes|
    requires sts[k] == Apply(sts[k - 1], ops[k - 1], policy) && Explained(sts, ops, policy, names, reports, k - 1, i)
    ensures Explained(sts, ops, policy, names, reports, k, i)
  {
    CausesLast(sts, ops, policy, names, reports, k, i);
    ReleaseNeedsReason(sts[k - 1], ops[k - 1], policy, i);
    TaskStateNeedsReport(sts[k - 1], ops[k - 1], policy, i);
    hide Apply, ReportsCompleted, RecoveredCompleted, RecoveredDeleting;
    var n := sts[k].nodes[i];
    if n.stopping && ops[k - 1] == Stop {
      assert StoppedBefore(ops, k);
    }
    if Completed(n.tState) && !Completed(sts[k - 1].nodes[i].tState) {
      assert SeenCompleted(sts, ops, k, i);
    }
  }

  lemma {:induction false} RunIsExplained(sts: seq<State>, ops: seq<Op>, policy: ResourcePolicy, names: seq<string>,
                                          reports: Reports, k: nat, i: nat)
    requires Run(sts, ops, policy, names, reports) && k < |sts| && i < |names|
    ensures |sts[k].nodes| == |names| && Explained(sts, ops, policy, names, reports, k, i)
  {
    RunsAreExclusive(sts, ops, policy, names, reports, k);
    if k == 0 {
      RecoveredStates(names, sts[0].pods, reports, |sts[0].pods|, i);
      hide RecoverAll;
    } else {
      RunIsExplained(sts, ops, policy, names, reports, k - 1, i);
      hide Apply, Inv, Explained;
      assert sts[k - 1 + 1] == Apply(sts[k - 1], ops[k - 1], policy);
      StepIsExplained(sts, ops, policy, names, reports, k, i);
    }
  }

  /** A node is releasing or released only if one of the causes happened earlier in the run. */
  lemma {:induction false} ReleasedOnlyWithCause(sts: seq<State>, ops: seq<Op>, policy: ResourcePolicy,
                                                 names: seq<string>, reports: Reports, k: nat, i: nat)
    requires Run(sts, ops, policy, names, reports) && k < |sts| && i < |names|
    ensures |sts[k].nodes| == |names|
    ensures sts[k].nodes[i].sState != Initial ==> Cause(sts, ops, policy, names, reports, k, i)
  {
    RunIsExplained(sts, ops, policy, names, reports, k, i);
    hide Cause;
  }

  lemma {:induction false} RecoveredStates(names: seq<string>, pods: seq<Pod>, reports: Reports, k: nat, i: nat)
    requires k <= |pods| && i < |names|
    ensures var n := RecoverAll(FreshNodes(names), pods, reports, k)[i];
      && n.name == names[i] && n.sState != Released && !n.stopping
      && (n.sState == Releasing ==> RecoveredDeleting(pods, k, reports, names[i]))
      && (Completed(n.tState) ==> RecoveredCompleted(pods, k, reports, names[i]))
  {
    if k > 0 {
      RecoveredStates(names, pods, reports, k - 1, i);
      RecoveredStep(names, pods, reports, k, i);
    }
  }

  lemma {:induction false} RecoveredStep(names: seq<string>, pods: seq<Pod>, reports: Reports, k: nat, i: nat)
    requires 0 < k <= |pods| && i < |names| && RecoverAll(FreshNodes(names), pods, reports, k - 1)[i].name == names[i]
    ensures RecoveredDeleting(pods, k - 1, reports, names[i]) ==> RecoveredDeleting(pods, k, reports, names[i])
    ensures RecoveredCompleted(pods, k - 1, reports, names[i]) ==> RecoveredCompleted(pods, k, reports, names[i])
    ensures var n, n' := RecoverAll(FreshNodes(names), pods, reports, k - 1)[i],
        RecoverAll(FreshNodes(names), pods, reports, k)[i];
      n' == n || (ReportsAs(pods[k - 1], reports, names[i])
        && n' == RecoverNode(n, reports[pods[k - 1].ip.value], pods[k - 1].ip.value, pods[k - 1].name))
  {
    hide FindNode;
  }

  /** An endpoint is told to clear its task only for such a cause. */
  lemma {:induction false} ClearedOnlyWithCause(sts: seq<State>, ops: seq<Op>, policy: ResourcePolicy,
                                                names: seq<string>, reports: Reports, k: nat, i: nat, c: Call)
    requires Run(sts, ops, policy, names, reports) && k < |ops| && i < |names| && ops[k].Schedule?
    requires |sts[k].nodes| == |names| && c.ClearTask?
      && c in CallsOf(Prepared(sts[k].nodes, sts[k].pods, ops[k].reports)[i], policy)
    ensures Cause(sts, ops, policy, names, reports, k + 1, i)
  {
    assert sts[k + 1] == Apply(sts[k], ops[k], policy);
    CallsNeedRelease(sts[k], ops[k].reports, policy, i, c);
    ReleasedOnlyWithCause(sts, ops, policy, names, reports, k + 1, i);
  }

  /**
   * Under Retain, until the tasks are stopped, no pod of a task that was not
   * recovered while being deleted is released.
   */
  lemma {:induction false} RetainKeepsPods(sts: seq<State>, ops: seq<Op>, names: seq<string>, reports: Reports, k: nat,
                                           i: nat)
    requires Run(sts, ops, Retain, names, reports) && k < |sts| && i < |names|
    requires forall j :: 0 <= j < k ==> ops[j] != Stop
    requires |sts[0].nodes| == |names| && sts[0].nodes[i].sState == Initial
    ensures |sts[k].nodes| == |names| && sts[k].nodes[i].sState == Initial && !sts[k].nodes[i].stopping
  {
    RunsAreExclusive(sts, ops, Retain, names, reports, k);
    if k == 0 {
      RecoveredStates(names, sts[0].pods, reports, |sts[0].pods|, i);
    } else {
      RetainKeepsPods(sts, ops, names, reports, k - 1, i);
      hide Apply, Inv;
      assert sts[k - 1 + 1] == Apply(sts[k - 1], ops[k - 1], Retain);
      ReleaseNeedsReason(sts[k - 1], ops[k - 1], Retain, i);
    }
  }

  /** After every round each bound node that is neither stopping nor over has been told its task. */
  lemma {:induction false} RunningNodesAreTold(sts: seq<State>, ops: seq<Op>, policy: ResourcePolicy,
                                               names: seq<string>, reports: Reports, k: nat, i: nat)
    requires Run(sts, ops, policy, names, reports) && k < |ops| && i < |names| && ops[k].Schedule?
    ensures |sts[k].nodes| == |sts[k + 1].nodes| == |names|
    ensures var n := sts[k + 1].nodes[i];
      n.ip.Some? && !n.stopping && !Completed(n.tState) ==>
        SetTask(n.ip.value, n.name) in CallsOfAll(Prepared(sts[k].nodes, sts[k].pods, ops[k].reports), policy)[i]
  {
    RunsAreExclusive(sts, ops, policy, names, reports, k);
    RunsAreExclusive(sts, ops, policy, names, reports, k + 1);
    assert sts[k + 1] == Apply(sts[k], ops[k], policy);
    assert WellFormed(sts[k].nodes[i]);
    hide Run, Inv, Apply;
    RoundTells(sts[k].nodes, sts[k].pods, ops[k].reports, policy, i);
    RoundKeepsMarks(sts[k].nodes, sts[k].pods, ops[k].reports, policy, i);
    assert sts[k + 1].nodes == Round(sts[k].nodes, sts[k].pods, ops[k].reports, policy) by {
      ApplyIsRound(sts[k], ops[k], policy);
    }
    hide Prepared, Round, OverAfter;
  }

  lemma {:induction false} ApplyIsRound(st: State, op: Op, policy: ResourcePolicy)
    requires op.Schedule?
    ensures Apply(st, op, policy).nodes == Round(st.nodes, st.pods, op.reports, policy)
  {
  }

  lemma {:induction false} RoundKeepsMarks(nodes: seq<Node>, pods: seq<Pod>, reports: Reports, policy: ResourcePolicy,
                                           i: nat)
    requires i < |nodes|
    ensures var n, n' := nodes[i], Round(nodes, pods, reports, policy)[i];
      n'.name == n.name && n'.stopping == n.stopping && (Completed(n'.tState) <==> OverAfter(n, reports))
  {
    hide FreePods, Waiting;
    if Reported(nodes[i], reports).Some? {
      TaskStates(Reported(nodes[i], reports).value);
    }
    hide ParseTaskState, IsOver;
  }

  // ------------------------------------------------------------------
  // What recovery reads back
  // ------------------------------------------------------------------

  /** The last node of a name is found by it. */
  lemma {:induction false} FindsTheLast(nodes: seq<Node>, name: string, k: nat, i: nat)
    requires i < k <= |nodes| && nodes[i].name == name && forall m :: i < m < k ==> nodes[m].name != name
    ensures FindNode(nodes, name, k) == i
  {
    if i < k - 1 {
      FindsTheLast(nodes, name, k - 1, i);
    }
  }

  lemma {:induction false} RecoveredNames(names: seq<string>, pods: seq<Pod>, reports: Reports, k: nat)
    requires k <= |pods|
    ensures forall i :: 0 <= i < |names| ==> RecoverAll(FreshNodes(names), pods, reports, k)[i].name == names[i]
  {
    forall i | 0 <= i < |names|
      ensures RecoverAll(FreshNodes(names), pods, reports, k)[i].name == names[i]
    {
      RecoveredStates(names, pods, reports, k, i);
    }
  }

  lemma {:induction false} RecoversFrom(names: seq<string>, pods: seq<Pod>, reports: Reports, k: nat, i: nat)
    requires 0 < k <= |pods| && i < |names| && (forall m :: i < m < |names| ==> names[m] != names[i])
    ensures var n, n' := RecoverAll(FreshNodes(names), pods, reports, k - 1)[i],
                RecoverAll(FreshNodes(names), pods, reports, k)[i];
      var p := pods[k - 1];
      n' == if ReportsAs(p, reports, names[i]) then RecoverNode(n, reports[p.ip.value], p.ip.value, p.name) else n
  {
    RecoveredNames(names, pods, reports, k - 1);
    RecoveredStep(names, pods, reports, k, i);
    var before := RecoverAll(FreshNodes(names), pods, reports, k - 1);
    if ReportsAs(pods[k - 1], reports, names[i]) {
      FindsTheLast(before, names[i], |before|, i);
    }
    hide FindNode, RecoverNode;
  }

  /** A node whose task no endpoint reports starts fresh. */
  lemma {:induction false} UnreportedStartsFresh(names: seq<string>, pods: seq<Pod>, reports: Reports, k: nat, i: nat)
    requires k <= |pods| && i < |names| && (forall m :: i < m < |names| ==> names[m] != names[i])
    requires forall m :: 0 <= m < k ==> !ReportsAs(pods[m], reports, names[i])
    ensures RecoverAll(FreshNodes(names), pods, reports, k)[i]
      == Node(names[i], None, None, None, Unset, Initial, false)
  {
    if k > 0 {
      UnreportedStartsFresh(names, pods, reports, k - 1, i);
      RecoversFrom(names, pods, reports, k, i);
      hide RecoverAll;
    }
  }

  /**
   * A node whose task is reported holds, after recovery, the last pod that
   * reports it, its address, status and state.
   */
  lemma {:induction false} ReportedIsRecovered(names: seq<string>, pods: seq<Pod>, reports: Reports, k: nat, i: nat,
                                               j: nat)
    requires j < k <= |pods| && i < |names| && (forall m :: i < m < |names| ==> names[m] != names[i])
    requires ReportsAs(pods[j], reports, names[i])
    requires forall m :: j < m < k ==> !ReportsAs(pods[m], reports, names[i])
    ensures var n, t := RecoverAll(FreshNodes(names), pods, reports, k)[i], reports[pods[j].ip.value];
      && n.ip == pods[j].ip && n.podName == Some(pods[j].name) && n.status == Some(t) && n.tState == ParseTaskState(t)
      && (t.deleting ==> n.sState == Releasing)
  {
    RecoversFrom(names, pods, reports, k, i);
    if j < k - 1 {
      ReportedIsRecovered(names, pods, reports, k - 1, i, j);
    }
    hide RecoverAll, ParseTaskState;
  }

  // ------------------------------------------------------------------
  // Cleanup after a stop
  // ------------------------------------------------------------------

  /** The report, if any, still keeps the node's resources from being free. */
  predicate WantsRelease(n: Node, t: Task, policy: ResourcePolicy) {
    n.stopping || (policy == Release && Completed(ParseTaskState(t)))
  }

  /**
   * Where a round leaves a node, for every node: with a report it is released
   * only if it was and nothing asks for its release again; without one it is
   * released as soon as anything does or did.
   */
  lemma {:induction false} RoundReleasesIff(nodes: seq<Node>, pods: seq<Pod>, reports: Reports, policy: ResourcePolicy,
                                            i: nat)
    requires i < |nodes| && WellFormed(nodes[i])
    ensures var n := nodes[i];
      Round(nodes, pods, reports, policy)[i].sState == Released <==>
        match Reported(n, reports)
        case Some(t) => n.sState == Released && !WantsRelease(n, t, policy)
        case None => n.stopping || n.sState != Initial || (policy == Release && Completed(n.tState))
  {
    hide FreePods, Waiting;
  }

  /**
   * The state a round leaves: a node that is releasing or wanted gone is
   * releasing while its endpoint reports a task and released once it does not;
   * any other node keeps its state.
   */
  lemma {:induction false} RoundStateIs(nodes: seq<Node>, pods: seq<Pod>, reports: Reports, policy: ResourcePolicy,
                                        i: nat)
    requires i < |nodes| && WellFormed(nodes[i])
    ensures var n := nodes[i];
      Round(nodes, pods, reports, policy)[i].sState ==
        if n.sState == Releasing || n.stopping || (policy == Release && OverAfter(n, reports))
        then (if Reported(n, reports).Some? then Releasing else Released)
        else n.sState
  {
    hide FreePods, Waiting;
    if Reported(nodes[i], reports).Some? {
      TaskStates(Reported(nodes[i], reports).value);
    }
    hide ParseTaskState, IsOver;
  }

  /**
   * Released is final for a round if and only if the endpoint reports no task,
   * or one that neither a stop nor the Release policy wants gone.
   */
  lemma {:induction false} ReleasedStaysIff(nodes: seq<Node>, pods: seq<Pod>, reports: Reports, policy: ResourcePolicy,
                                            i: nat)
    requires i < |nodes| && WellFormed(nodes[i]) && nodes[i].sState == Released
    ensures Round(nodes, pods, reports, policy)[i].sState == Released <==>
      Reported(nodes[i], reports).None? || !WantsRelease(nodes[i], Reported(nodes[i], reports).value, policy)
  {
    RoundReleasesIff(nodes, pods, reports, policy, i);
    hide Round;
  }

  predicate CleanupFinished(nodes: seq<Node>) {
    forall i :: 0 <= i < |nodes| ==> nodes[i].sState == Released
  }

  /**
   * After a stop, a round in which no bound endpoint reports a task finishes
   * the cleanup, and only such a round does.
   */
  lemma {:induction false} StopThenSilentRound(nodes: seq<Node>, pods: seq<Pod>, reports: Reports,
                                               policy: ResourcePolicy)
    requires Inv(nodes)
    ensures CleanupFinished(Round(StopAll(nodes), pods, reports, policy)) <==>
      forall i :: 0 <= i < |nodes| ==> Reported(nodes[i], reports).None?
  {
    var stopped := StopAll(nodes);
    var after := Round(stopped, pods, reports, policy);
    forall i | 0 <= i < |nodes|
      ensures after[i].sState == Released <==> Reported(nodes[i], reports).None?
    {
      assert WellFormed(nodes[i]);
      RoundReleasesIff(stopped, pods, reports, policy, i);
    }
    hide Round, StopAll, Inv, Reported;
  }

  // ------------------------------------------------------------------
  // Released is not final
  // ------------------------------------------------------------------

  const AT := Address("ip")
  const POD := Pod(PodName("p"), Some(AT))
  const LATE := Task("t", None, None, false)
  const DONE := Task("t", Some(ProcessStatus(false, Some(0))), None, false)
  const BOUND := Node("t", Some(AT), Some(PodName("p")), None, Unset, Initial, false)

  const STOPPED := BOUND.(stopping := true)
  const FREED := STOPPED.(sState := Released)
  const BACK := FREED.(status := Some(LATE), tState := Unknown, sState := Releasing)
  const CLEARING := BOUND.(status := Some(DONE), tState := Succeed, sState := Releasing)
  const CLEARED := CLEARING.(status := None, sState := Released)

  lemma {:induction false} FirstRoundBinds(policy: ResourcePolicy)
    ensures Round([Fresh("t")], [POD], map[], policy) == [BOUND]
  {
    var n := Fresh("t");
    assert [POD][..0] == [];
    assert !Holds([n], POD.name);
    assert FreePods([n], []) == [];
    assert FreePods([n], [POD]) == [POD];
    assert Collect([n], map[]) == [n];
    assert Waiting([n], 0) == 0;
    assert Assign([n], [POD]) == [BOUND];
  }

  lemma {:induction false} BoundRound(n: Node, reports: Reports, policy: ResourcePolicy)
    requires n.ip == Some(AT)
    ensures Round([n], [POD], reports, policy) == [StepNode(ObserveNode(n, Reported(n, reports)), policy)]
  {
    hide FreePods, Waiting, StepNode;
    assert [n][0].ip.Some?;
    assert Collect([n], reports) == [ObserveNode(n, Reported(n, reports))];
  }

  /** The nodes of a run of one task and one pod, given by hand. */
  lemma {:induction false} OneTaskRun(nodes: seq<Node>, ops: seq<Op>, policy: ResourcePolicy) returns (sts: seq<State>)
    requires |nodes| == |ops| + 1 && nodes[0] == Fresh("t")
    requires forall k :: 0 <= k < |ops| ==>
      Apply(State([nodes[k]], [POD]), ops[k], policy) == State([nodes[k + 1]], [POD])
    ensures Run(sts, ops, policy, ["t"], map[]) && forall k :: 0 <= k < |sts| ==> sts[k].nodes == [nodes[k]]
  {
    hide Apply;
    sts := seq(|nodes|, k requires 0 <= k < |nodes| => State([nodes[k]], [POD]));
    assert RecoverAll(FreshNodes(["t"]), [POD], map[], 0) == FreshNodes(["t"]);
    assert RecoverAll(FreshNodes(["t"]), [POD], map[], 1) == FreshNodes(["t"]) == [Fresh("t")];
  }

  lemma {:induction false} StoppedRounds()
    ensures Apply(State([Fresh("t")], [POD]), Schedule(map[]), Retain) == State([BOUND], [POD])
    ensures Apply(State([BOUND], [POD]), Stop, Retain) == State([STOPPED], [POD])
    ensures Apply(State([STOPPED], [POD]), Schedule(map[]), Retain) == State([FREED], [POD])
    ensures Apply(State([FREED], [POD]), Schedule(map[AT := LATE]), Retain) == State([BACK], [POD])
  {
    FirstRoundBinds(Retain);
    assert StopAll([BOUND]) == [STOPPED];
    BoundRound(STOPPED, map[], Retain);
    BoundRound(FREED, map[AT := LATE], Retain);
    hide Round;
  }

  /** After a bind, a stop and a silent round the node is released; a late report of the task sends it back. */
  lemma {:induction false} ReleasedCanReturn() returns (sts: seq<State>, ops: seq<Op>)
    ensures Run(sts, ops, Retain, ["t"], map[]) && |ops| == 4
    ensures CleanupFinished(sts[3].nodes) && !CleanupFinished(sts[4].nodes)
  {
    hide Apply, Run;
    StoppedRounds();
    var nodes := [Fresh("t"), BOUND, STOPPED, FREED, BACK];
    ops := [Schedule(map[]), Stop, Schedule(map[]), Schedule(map[AT := LATE])];
    sts := OneTaskRun(nodes, ops, Retain);
    assert |sts| == 5 by {
      RunLength(sts, ops, Retain, ["t"], map[]);
    }
    assert sts[3].nodes == [FREED] && sts[4].nodes == [BACK];
    assert [BACK][0].sState != Released;
  }

  lemma {:induction false} RunLength(sts: seq<State>, ops: seq<Op>, policy: ResourcePolicy, names: seq<string>,
                                     reports: Reports)
    requires Run(sts, ops, policy, names, reports)
    ensures |sts| == |ops| + 1
  {
  }

  lemma {:induction false} CompletedRounds()
    ensures Apply(State([Fresh("t")], [POD]), Schedule(map[]), Release) == State([BOUND], [POD])
    ensures Apply(State([BOUND], [POD]), Schedule(map[AT := DONE]), Release) == State([CLEARING], [POD])
    ensures Apply(State([CLEARING], [POD]), Schedule(map[]), Release) == State([CLEARED], [POD])
    ensures Apply(State([CLEARED], [POD]), Schedule(map[AT := DONE]), Release) == State([CLEARING], [POD])
  {
    FirstRoundBinds(Release);
    BoundRound(BOUND, map[AT := DONE], Release);
    BoundRound(CLEARING, map[], Release);
    BoundRound(CLEARED, map[AT := DONE], Release);
    hide Round;
  }

  /** Under Release nobody need stop it: a completed task is cleared, and a late report of it sends the node back. */
  lemma {:induction false} CompletedCanReturn() returns (sts: seq<State>, ops: seq<Op>)
    ensures Run(sts, ops, Release, ["t"], map[]) && |ops| == 4 && Stop !in ops
    ensures CleanupFinished(sts[3].nodes) && !CleanupFinished(sts[4].nodes)
  {
    hide Apply, Run;
    CompletedRounds();
    var nodes := [Fresh("t"), BOUND, CLEARING, CLEARED, CLEARING];
    ops := [Schedule(map[]), Schedule(map[AT := DONE]), Schedule(map[]), Schedule(map[AT := DONE])];
    sts := OneTaskRun(nodes, ops, Release);
    assert |sts| == 5 by {
      RunLength(sts, ops, Release, ["t"], map[]);
    }
    assert sts[3].nodes == [CLEARED] && sts[4].nodes == [CLEARING];
    assert [CLEARING][0].sState != Released;
  }

  // ------------------------------------------------------------------
  // What the sandbox controller reads off the nodes
  // ------------------------------------------------------------------

  /** Pods to add to the release annotation: those of released nodes. */
  method PodsToRelease(nodes: seq<Node>) returns (pods: seq<PodName>)
    ensures forall p :: p in pods <==>
      exists i :: 0 <= i < |nodes| && nodes[i].podName == Some(p) && nodes[i].sState == Released
  {
    pods := [];
    var i := 0;
    while i < |nodes|
      invariant 0 <= i <= |nodes|
      invariant forall p :: p in pods <==>
        exists j :: 0 <= j < i && nodes[j].podName == Some(p) && nodes[j].sState == Released
    {
      if nodes[i].podName.Some? && nodes[i].sState == Released {
        pods := pods + [nodes[i].podName.value];
      }
      i := i + 1;
    }
  }

  ghost predicate EverListed(sts: seq<State>, k: nat, p: PodName)
    requires k < |sts|
  {
    exists j :: 0 <= j <= k && Listed(sts[j].pods, |sts[j].pods|, p)
  }

  lemma {:induction false} NewPodsAreListed(st: State, op: Op, policy: ResourcePolicy, i: nat, p: PodName)
    requires i < |st.nodes| && DistinctPods(st.pods) && Apply(st, op, policy).nodes[i].podName == Some(p)
    ensures st.nodes[i].podName == Some(p) || Listed(st.pods, |st.pods|, p)
  {
    if op.Schedule? {
      FreePodsAre(st.nodes, st.pods);
      var collected, free := Collect(st.nodes, op.reports), FreePods(st.nodes, st.pods);
      hide FreePods, Holds;
      var m := Waiting(collected, i);
      if collected[i].ip.None? && m < |free| {
        assert free[m] in free;
        var j :| 0 <= j < |st.pods| && st.pods[j] == free[m];
        assert st.pods[j].name == free[m].name;
      }
    }
  }

  /** A node only ever holds a pod the sandbox was given, so only such pods reach its release annotation. */
  lemma {:induction false} HeldPodsWereListed(sts: seq<State>, ops: seq<Op>, policy: ResourcePolicy,
                                              names: seq<string>, reports: Reports, k: nat, i: nat)
    requires Run(sts, ops, policy, names, reports) && k < |sts| && i < |names|
    ensures |sts[k].nodes| == |names|
    ensures sts[k].nodes[i].podName.Some? ==> EverListed(sts, k, sts[k].nodes[i].podName.value)
  {
    RunsAreExclusive(sts, ops, policy, names, reports, k);
    if k == 0 {
      RecoveryIsExclusive(names, sts[0].pods, reports, |sts[0].pods|);
    } else if sts[k].nodes[i].podName.Some? {
      var p := sts[k].nodes[i].podName.value;
      HeldPodsWereListed(sts, ops, policy, names, reports, k - 1, i);
      RunsAreExclusive(sts, ops, policy, names, reports, k - 1);
      hide Apply, Inv, Listed;
      assert sts[k - 1 + 1] == Apply(sts[k - 1], ops[k - 1], policy);
      NewPodsAreListed(sts[k - 1], ops[k - 1], policy, i, p);
      if sts[k - 1].nodes[i].podName == Some(p) {
        var j :| 0 <= j <= k - 1 && Listed(sts[j].pods, |sts[j].pods|, p);
        assert 0 <= j <= k && Listed(sts[j].pods, |sts[j].pods|, p);
      }
    }
  }
}
