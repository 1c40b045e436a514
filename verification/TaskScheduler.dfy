/**
 * The task scheduler of a BatchSandbox: tasks are bound to pods, their state is
 * collected from the pods' endpoints, and pods are released when tasks are
 * stopped or, if the policy says so, complete.
 */
module TaskScheduler {
  import opened Common

  datatype Address = Address(text: string)

  /** A pod of the sandbox; it has no address until it is scheduled. */
  datatype Pod = Pod(name: PodName, ip: Option<Address>)

  datatype ResourcePolicy = Retain | Release

  datatype ProcessStatus = ProcessStatus(running: bool, exitCode: Option<int>)
  datatype Phase = PhaseRunning | PhaseSucceeded | PhaseFailed | PhaseOther
  datatype PodStatus = PodStatus(phase: Phase, ready: bool)

  /** A task as an endpoint reports it. */
  datatype Task = Task(name: string, process: Option<ProcessStatus>, pod: Option<PodStatus>, deleting: bool)

  /** Unset is the state before anything was reported. */
  datatype TaskState = Unset | Running | Succeed | Failed | Unknown
  datatype SchState = Initial | Releasing | Released

  function ParseProcess(s: ProcessStatus): TaskState {
    if s.running then Running
    else if s.exitCode.Some? then (if s.exitCode.value == 0 then Succeed else Failed)
    else Unknown
  }

  function ParsePod(s: PodStatus): TaskState {
    match s.phase
    case PhaseRunning => if s.ready then Running else Unknown
    case PhaseSucceeded => Succeed
    case PhaseFailed => Failed
    case PhaseOther => Unknown
  }

  function ParseTaskState(t: Task): TaskState {
    if t.process.Some? then ParseProcess(t.process.value)
    else if t.pod.Some? then ParsePod(t.pod.value)
    else Unknown
  }

  predicate Completed(s: TaskState) {
    s == Succeed || s == Failed
  }

  /** A report of a task that is over: a terminated process, or without one a pod that succeeded or failed. */
  predicate IsOver(t: Task) {
    match t.process
    case Some(p) => !p.running && p.exitCode.Some?
    case None => t.pod.Some? && (t.pod.value.phase.PhaseSucceeded? || t.pod.value.phase.PhaseFailed?)
  }

  /** What a report says, field by field. */
  lemma {:induction false} TaskStates(t: Task)
    ensures Completed(ParseTaskState(t)) <==> IsOver(t)
    ensures ParseTaskState(t) == Running <==>
      || (t.process.Some? && t.process.value.running)
      || (t.process.None? && t.pod.Some? && t.pod.value.phase.PhaseRunning? && t.pod.value.ready)
    ensures ParseTaskState(t) == Succeed <==>
      || (t.process.Some? && !t.process.value.running && t.process.value.exitCode == Some(0))
      || (t.process.None? && t.pod.Some? && t.pod.value.phase.PhaseSucceeded?)
    ensures ParseTaskState(t) == Failed <==> IsOver(t) && ParseTaskState(t) != Succeed
    ensures ParseTaskState(t) != Unset
  {
  }

  /** The value of a task node. */
  datatype Node = Node(
    name: string, ip: Option<Address>, podName: Option<PodName>, status: Option<Task>,
    tState: TaskState, sState: SchState, stopping: bool)

  /** What the scheduler tells an endpoint. */
  datatype Call = SetTask(at: Address, name: string) | ClearTask(at: Address)

  type Reports = map<Address, Task>

  ghost predicate DistinctPods(pods: seq<Pod>) {
    forall i, j :: 0 <= i < j < |pods| ==> pods[i].name != pods[j].name
  }

  // ------------------------------------------------------------------
  // One round on values
  // ------------------------------------------------------------------

  function Reported(n: Node, reports: Reports): Option<Task> {
    if n.ip.Some? && n.ip.value in reports then Some(reports[n.ip.value]) else None
  }

  function ObserveNode(n: Node, t: Option<Task>): Node {
    n.(status := t, tState := if t.Some? then ParseTaskState(t.value) else n.tState)
  }

  predicate NoneAssigned(nodes: seq<Node>) {
    forall i :: 0 <= i < |nodes| ==> nodes[i].ip.None?
  }

  /** Status collection; skipped altogether while no node has an address. */
  function Collect(nodes: seq<Node>, reports: Reports): (r: seq<Node>)
    ensures |r| == |nodes|
  {
    if NoneAssigned(nodes) then nodes
    else seq(|nodes|, i requires 0 <= i < |nodes| => ObserveNode(nodes[i], Reported(nodes[i], reports)))
  }

  predicate Holds(nodes: seq<Node>, p: PodName) {
    exists i :: 0 <= i < |nodes| && nodes[i].ip.Some? && nodes[i].podName == Some(p)
  }

  /** Pods with an address that no node holds, in listing order. */
  function FreePods(nodes: seq<Node>, pods: seq<Pod>): seq<Pod> {
    if pods == [] then []
    else
      var last := pods[|pods| - 1];
      FreePods(nodes, pods[..|pods| - 1]) + (if last.ip.Some? && !Holds(nodes, last.name) then [last] else [])
  }

  /** The number of unassigned nodes among the first k. */
  function Waiting(nodes: seq<Node>, k: nat): nat
    requires k <= |nodes|
  {
    if k == 0 then 0 else Waiting(nodes, k - 1) + (if nodes[k - 1].ip.None? then 1 else 0)
  }

  /** The i-th node after batch assignment: the m-th waiting node gets the m-th free pod, if there is one. */
  function AssignNode(nodes: seq<Node>, free: seq<Pod>, i: nat): Node
    requires i < |nodes|
  {
    var m := Waiting(nodes, i);
    if nodes[i].ip.None? && m < |free| then nodes[i].(ip := free[m].ip, podName := Some(free[m].name)) else nodes[i]
  }

  function Assign(nodes: seq<Node>, free: seq<Pod>): (r: seq<Node>)
    ensures |r| == |nodes|
  {
    seq(|nodes|, i requires 0 <= i < |nodes| => AssignNode(nodes, free, i))
  }

  predicate NeedRelease(n: Node, policy: ResourcePolicy) {
    n.stopping || (policy == Release && Completed(n.tState))
  }

  /** Scheduling of one node: its new value. */
  function StepNode(n: Node, policy: ResourcePolicy): Node {
    var s :=
      if n.ip.None? then (if n.stopping then Released else n.sState)
      else if NeedRelease(n, policy) then Releasing
      else n.sState;
    n.(sState := if s == Releasing && n.status.None? then Released else s)
  }

  /** Scheduling of one node: the calls it makes. */
  function CallsOf(n: Node, policy: ResourcePolicy): seq<Call> {
    if n.ip.None? then []
    else
      (if !NeedRelease(n, policy) && !Completed(n.tState) then [SetTask(n.ip.value, n.name)] else [])
      + (if (NeedRelease(n, policy) || n.sState == Releasing) && n.status.Some? then [ClearTask(n.ip.value)] else [])
  }

  /** Whether the task is over once the reports of the round are in. */
  predicate OverAfter(n: Node, reports: Reports) {
    if Reported(n, reports).Some? then IsOver(Reported(n, reports).value) else Completed(n.tState)
  }

  /**
   * What a round tells the endpoint of a node that ends it bound at `ip`: its
   * task, unless the node is stopping or the task is over; and to clear, if
   * a task is reported and the node is releasing or wanted gone. Each once.
   */
  ghost predicate Told(calls: seq<Call>, n: Node, ip: Option<Address>, reports: Reports, policy: ResourcePolicy) {
    && (forall a, m :: SetTask(a, m) in calls <==>
          m == n.name && ip == Some(a) && !n.stopping && !OverAfter(n, reports))
    && (forall a :: ClearTask(a) in calls <==>
          && ip == Some(a) && Reported(n, reports).Some?
          && (n.sState == Releasing || n.stopping || (policy == Release && OverAfter(n, reports))))
    && Distinct(calls)
  }

  /** The nodes a round's per-node scheduling works on. */
  function Prepared(nodes: seq<Node>, pods: seq<Pod>, reports: Reports): (r: seq<Node>)
    ensures |r| == |nodes|
  {
    Assign(Collect(nodes, reports), FreePods(nodes, pods))
  }

  function StepAll(nodes: seq<Node>, policy: ResourcePolicy): (r: seq<Node>)
    ensures |r| == |nodes|
  {
    seq(|nodes|, i requires 0 <= i < |nodes| => StepNode(nodes[i], policy))
  }

  function CallsOfAll(nodes: seq<Node>, policy: ResourcePolicy): (r: seq<seq<Call>>)
    ensures |r| == |nodes|
  {
    seq(|nodes|, i requires 0 <= i < |nodes| => CallsOf(nodes[i], policy))
  }

  /** Some nodes already stepped, the others still to do. */
  function Partly(nodes: seq<Node>, todo: set<nat>, policy: ResourcePolicy): (r: seq<Node>)
    ensures |r| == |nodes|
  {
    seq(|nodes|, i requires 0 <= i < |nodes| => if i in todo then nodes[i] else StepNode(nodes[i], policy))
  }

  /** One Schedule round. */
  function Round(nodes: seq<Node>, pods: seq<Pod>, reports: Reports, policy: ResourcePolicy): (r: seq<Node>)
    ensures |r| == |nodes|
  {
    StepAll(Prepared(nodes, pods, reports), policy)
  }

  function StopAll(nodes: seq<Node>): (r: seq<Node>)
    ensures |r| == |nodes|
  {
    seq(|nodes|, i requires 0 <= i < |nodes| => nodes[i].(stopping := true))
  }

  // ------------------------------------------------------------------
  // Recovery on values
  // ------------------------------------------------------------------

  function Fresh(name: string): Node {
    Node(name, None, None, None, Unset, Initial, false)
  }

  function FreshNodes(names: seq<string>): (r: seq<Node>)
    ensures |r| == |names|
  {
    seq(|names|, i requires 0 <= i < |names| => Fresh(names[i]))
  }

  function RecoverNode(n: Node, t: Task, ip: Address, podName: PodName): Node {
    n.(status := Some(t), tState := ParseTaskState(t), ip := Some(ip), podName := Some(podName),
       sState := if t.deleting then Releasing else n.sState)
  }

  /** The node an endpoint's task name stands for: the last one of that name. */
  function FindNode(nodes: seq<Node>, name: string, k: nat): (r: int)
    requires k <= |nodes|
    ensures -1 <= r < k
    ensures r >= 0 ==> nodes[r].name == name
  {
    if k == 0 then -1 else if nodes[k - 1].name == name then k - 1 else FindNode(nodes, name, k - 1)
  }

  /** One pod's task read back. */
  function RecoverFrom(nodes: seq<Node>, pod: Pod, reports: Reports): (r: seq<Node>)
    ensures |r| == |nodes|
  {
    if pod.ip.None? || pod.ip.value !in reports then nodes
    else
      var t := reports[pod.ip.value];
      var i := FindNode(nodes, t.name, |nodes|);
      if i < 0 then nodes else nodes[i := RecoverNode(nodes[i], t, pod.ip.value, pod.name)]
  }

  /** The nodes after the tasks of the first k pods were read back. */
  function RecoverAll(nodes: seq<Node>, pods: seq<Pod>, reports: Reports, k: nat): (r: seq<Node>)
    requires k <= |pods|
    ensures |r| == |nodes|
  {
    if k == 0 then nodes else RecoverFrom(RecoverAll(nodes, pods, reports, k - 1), pods[k - 1], reports)
  }

  // ------------------------------------------------------------------
  // The scheduler object
  // ------------------------------------------------------------------

  class TaskNode {
    const name: string
    var ip: Option<Address>
    var podName: Option<PodName>
    var status: Option<Task>
    var tState: TaskState
    var sState: SchState
    var stopping: bool

    function View(): Node
      reads this
    {
      Node(name, ip, podName, status, tState, sState, stopping)
    }

    constructor (name: string)
      ensures View() == Fresh(name)
    {
      this.name := name;
      ip, podName, status := None, None, None;
      tState, sState, stopping := Unset, Initial, false;
    }

    method Recover(t: Task, at: Address, pod: PodName)
      modifies this
      ensures View() == RecoverNode(old(View()), t, at, pod)
    {
      status := Some(t);
      tState := ParseTaskState(t);
      ip, podName := Some(at), Some(pod);
      if t.deleting {
        sState := Releasing;
      }
    }

    method Observe(t: Option<Task>)
      modifies this
      ensures View() == ObserveNode(old(View()), t)
    {
      status := t;
      if t.Some? {
        tState := ParseTaskState(t.value);
      }
    }

    method Bind(pod: Pod)
      modifies this
      ensures View() == old(View()).(ip := pod.ip, podName := Some(pod.name))
    {
      ip, podName := pod.ip, Some(pod.name);
    }

    /** scheduleSingleTaskNode; a failed call changes nothing, so its outcome does not matter. */
    method Schedule(policy: ResourcePolicy) returns (calls: seq<Call>)
      requires ip.None? ==> status.None?
      modifies this
      ensures View() == StepNode(old(View()), policy)
      ensures calls == CallsOf(old(View()), policy)
    {
      calls := [];
      if ip.None? {
        if stopping {
          sState := Released;
        }
      } else if NeedRelease(View(), policy) {
        sState := Releasing;
      } else if !Completed(tState) {
        calls := calls + [SetTask(ip.value, name)];
      }
      if sState == Releasing {
        if status.None? {
          sState := Released;
        } else {
          calls := calls + [ClearTask(ip.value)];
        }
      }
    }
  }

  ghost predicate DistinctNodes(nodes: seq<TaskNode>) {
    forall i, j :: 0 <= i < j < |nodes| ==> nodes[i] != nodes[j]
  }

  function Views(nodes: seq<TaskNode>): (r: seq<Node>)
    reads nodes
    ensures |r| == |nodes|
    ensures forall i :: 0 <= i < |nodes| ==> r[i] == nodes[i].View()
  {
    if nodes == [] then []
    else
      assert forall i :: 0 <= i < |nodes| ==> nodes[i] in nodes;
      Views(nodes[..|nodes| - 1]) + [nodes[|nodes| - 1].View()]
  }

  function Indices(n: nat): (r: set<nat>)
    ensures forall i: nat :: i in r <==> i < n
  {
    if n == 0 then {} else Indices(n - 1) + {n - 1}
  }

  class Scheduler {
    var taskNodes: seq<TaskNode>
    var allPods: seq<Pod>
    var freePods: seq<Pod>
    const policy: ResourcePolicy

    ghost predicate Valid()
      reads this
    {
      DistinctNodes(taskNodes)
    }

    /** Build the nodes and read the running tasks back. */
    constructor (names: seq<string>, pods: seq<Pod>, policy: ResourcePolicy, reports: Reports)
      ensures Valid() && fresh(taskNodes) && allPods == pods && this.policy == policy
      ensures Views(taskNodes) == RecoverAll(FreshNodes(names), pods, reports, |pods|)
    {
      hide Views;
      this.policy := policy;
      allPods, freePods := pods, [];
      taskNodes := [];
      new;
      var i := 0;
      while i < |names|
        invariant 0 <= i <= |names| && |taskNodes| == i
        invariant DistinctNodes(taskNodes) && fresh(taskNodes) && allPods == pods
        invariant forall j :: 0 <= j < i ==> taskNodes[j].View() == Fresh(names[j])
      {
        var node := new TaskNode(names[i]);
        taskNodes := taskNodes + [node];
        i := i + 1;
      }
      assert Views(taskNodes) == FreshNodes(names);
      RecoverNodes(reports);
    }

    /** The index by name points at the last node of each name. */
    method NodeByName(name: string) returns (i: int)
      ensures -1 <= i < |taskNodes| && i == FindNode(Views(taskNodes), name, |taskNodes|)
    {
      i := |taskNodes| - 1;
      while i >= 0 && taskNodes[i].name != name
        invariant -1 <= i < |taskNodes|
        invariant FindNode(Views(taskNodes), name, |taskNodes|) == FindNode(Views(taskNodes), name, i + 1)
      {
        i := i - 1;
      }
    }

    method RecoverNodes(reports: Reports)
      requires Valid()
      modifies taskNodes
      ensures Views(taskNodes) == RecoverAll(old(Views(taskNodes)), allPods, reports, |allPods|)
    {
      hide Views;
      ghost var start := Views(taskNodes);
      var k := 0;
      while k < |allPods|
        invariant 0 <= k <= |allPods|
        invariant Views(taskNodes) == RecoverAll(start, allPods, reports, k)
      {
        RecoverPod(allPods[k], reports);
        k := k + 1;
      }
    }

    method RecoverPod(pod: Pod, reports: Reports)
      requires Valid()
      modifies taskNodes
      ensures Views(taskNodes) == RecoverFrom(old(Views(taskNodes)), pod, reports)
    {
      hide Views;
      if pod.ip.Some? && pod.ip.value in reports {
        var t := reports[pod.ip.value];
        var i := NodeByName(t.name);
        if i >= 0 {
          ghost var before := Views(taskNodes);
          taskNodes[i].Recover(t, pod.ip.value, pod.name);
          assert forall j :: 0 <= j < |taskNodes| && j != i ==> taskNodes[j].View() == before[j];
          assert Views(taskNodes) == before[i := RecoverNode(before[i], t, pod.ip.value, pod.name)];
        }
      }
    }

    method UpdatePods(pods: seq<Pod>)
      modifies this`allPods
      ensures allPods == pods
    {
      allPods := pods;
    }

    method StopTask()
      requires Valid()
      modifies taskNodes
      ensures Views(taskNodes) == StopAll(old(Views(taskNodes)))
    {
      hide Views;
      var i := 0;
      while i < |taskNodes|
        invariant 0 <= i <= |taskNodes|
        invariant forall j :: 0 <= j < i ==> taskNodes[j].View() == old(taskNodes[j].View()).(stopping := true)
        invariant forall j :: i <= j < |taskNodes| ==> taskNodes[j].View() == old(taskNodes[j].View())
      {
        taskNodes[i].stopping := true;
        i := i + 1;
      }
      assert Views(taskNodes) == StopAll(old(Views(taskNodes)));
    }

    method CollectTaskStatus(reports: Reports)
      requires Valid()
      modifies taskNodes
      ensures Views(taskNodes) == Collect(old(Views(taskNodes)), reports)
    {
      hide Views;
      var any := AnyAssigned();
      if !any {
        return;
      }
      var i := 0;
      while i < |taskNodes|
        invariant 0 <= i <= |taskNodes|
        invariant forall j :: 0 <= j < i ==>
          taskNodes[j].View() == ObserveNode(old(taskNodes[j].View()), Reported(old(taskNodes[j].View()), reports))
        invariant forall j :: i <= j < |taskNodes| ==> taskNodes[j].View() == old(taskNodes[j].View())
      {
        taskNodes[i].Observe(Reported(taskNodes[i].View(), reports));
        i := i + 1;
      }
      assert Views(taskNodes) == Collect(old(Views(taskNodes)), reports);
    }

    method AnyAssigned() returns (any: bool)
      ensures any == !NoneAssigned(Views(taskNodes))
    {
      any := false;
      var i := 0;
      while i < |taskNodes|
        invariant 0 <= i <= |taskNodes|
        invariant any == exists j :: 0 <= j < i && taskNodes[j].ip.Some?
      {
        if taskNodes[i].ip.Some? {
          any := true;
        }
        i := i + 1;
      }
      ghost var views := Views(taskNodes);
      assert forall j :: 0 <= j < |views| ==> views[j].ip == taskNodes[j].ip;
    }

    method RefreshFreePods()
      modifies this`freePods
      ensures freePods == FreePods(Views(taskNodes), allPods)
    {
      hide Views, Holds;
      var taken := AssignedPods();
      ghost var views := Views(taskNodes);
      freePods := [];
      var i := 0;
      while i < |allPods|
        invariant 0 <= i <= |allPods|
        invariant freePods == FreePods(views, allPods[..i])
      {
        assert allPods[..i + 1][..i] == allPods[..i];
        var pod := allPods[i];
        if pod.name !in taken && pod.ip.Some? {
          freePods := freePods + [pod];
        }
        i := i + 1;
      }
      assert allPods[..i] == allPods;
    }

    method AssignedPods() returns (taken: set<PodName>)
      ensures forall p :: p in taken <==> Holds(Views(taskNodes), p)
    {
      taken := {};
      ghost var views := Views(taskNodes);
      var i := 0;
      while i < |taskNodes|
        invariant 0 <= i <= |taskNodes|
        invariant forall p :: p in taken <==> exists j :: 0 <= j < i && views[j].ip.Some? && views[j].podName == Some(p)
      {
        assert views[i] == taskNodes[i].View();
        if taskNodes[i].ip.Some? && taskNodes[i].podName.Some? {
          taken := taken + {taskNodes[i].podName.value};
        }
        i := i + 1;
      }
    }

    /** Bind waiting nodes to free pods, both in order. */
    method AssignTaskNodes(free: seq<Pod>) returns (rest: seq<Pod>)
      requires Valid()
      modifies taskNodes
      ensures Views(taskNodes) == Assign(old(Views(taskNodes)), free)
      ensures rest == free[Min(Waiting(old(Views(taskNodes)), |taskNodes|), |free|)..]
    {
      hide Views, Waiting, AssignNode;
      ghost var before := Views(taskNodes);
      NoneWaitingAtStart(before);
      rest := free;
      var i := 0;
      while i < |taskNodes|
        invariant 0 <= i <= |taskNodes|
        invariant forall j :: 0 <= j < i ==> taskNodes[j].View() == AssignNode(before, free, j)
        invariant forall j :: i <= j < |taskNodes| ==> taskNodes[j].View() == before[j]
        invariant rest == free[Min(Waiting(before, i), |free|)..]
      {
        AssignStep(before, free, i);
        assert taskNodes[i].View() == before[i];
        if |rest| > 0 && taskNodes[i].ip.None? {
          taskNodes[i].Bind(rest[0]);
          rest := rest[1..];
        }
        i := i + 1;
      }
      assert Views(taskNodes) == Assign(before, free);
    }

    method ScheduleNode(i: nat) returns (made: seq<Call>)
      requires Valid() && i < |taskNodes| && (taskNodes[i].ip.None? ==> taskNodes[i].status.None?)
      modifies taskNodes[i]
      ensures Views(taskNodes) == old(Views(taskNodes))[i := StepNode(old(taskNodes[i].View()), policy)]
      ensures made == CallsOf(old(taskNodes[i].View()), policy)
    {
      hide Views, StepNode, CallsOf;
      ghost var before := Views(taskNodes);
      made := taskNodes[i].Schedule(policy);
      assert forall j :: 0 <= j < |taskNodes| && j != i ==> taskNodes[j].View() == before[j];
      assert Views(taskNodes) == before[i := StepNode(before[i], policy)];
    }

    /** Per-node scheduling in an arbitrary completion order. */
    method ScheduleTaskNodes() returns (calls: map<nat, seq<Call>>)
      requires Valid()
      requires forall i :: 0 <= i < |taskNodes| ==> (Views(taskNodes)[i].ip.None? ==> Views(taskNodes)[i].status.None?)
      modifies taskNodes
      ensures Views(taskNodes) == StepAll(old(Views(taskNodes)), policy)
      ensures forall i :: 0 <= i < |taskNodes| ==>
        i in calls && calls[i] == CallsOfAll(old(Views(taskNodes)), policy)[i]
    {
      hide Views, StepNode, CallsOf, StepAll, Partly;
      ghost var before := Views(taskNodes);
      calls := map[];
      var todo := Indices(|taskNodes|);
      PartlyEnds(before, todo, policy);
      while todo != {}
        invariant forall i :: i in todo ==> i < |taskNodes|
        invariant Views(taskNodes) == Partly(before, todo, policy)
        invariant forall i :: 0 <= i < |before| && i !in todo ==> i in calls && calls[i] == CallsOf(before[i], policy)
        decreases todo
      {
        var i :| i in todo;
        PartlyStep(before, todo, i, policy);
        var made := ScheduleNode(i);
        calls := calls[i := made];
        todo := todo - {i};
      }
    }

    /** A whole round. The result and the calls do not depend on the order in which nodes are handled. */
    method Schedule(reports: Reports) returns (calls: map<nat, seq<Call>>)
      requires Valid()
      requires forall i :: 0 <= i < |taskNodes| ==> (Views(taskNodes)[i].ip.None? ==> Views(taskNodes)[i].status.None?)
      modifies taskNodes, this`freePods
      ensures Views(taskNodes) == Round(old(Views(taskNodes)), allPods, reports, policy)
      ensures forall i :: 0 <= i < |taskNodes| ==>
        i in calls && calls[i] == CallsOfAll(Prepared(old(Views(taskNodes)), allPods, reports), policy)[i]
      ensures forall i :: 0 <= i < |taskNodes| ==>
        Told(calls[i], old(Views(taskNodes))[i], Views(taskNodes)[i].ip, reports, policy)
    {
      hide Views, Collect, FreePods, Assign, StepAll, CallsOfAll;
      ghost var start := Views(taskNodes);
      RefreshFreePods();
      CollectTaskStatus(reports);
      freePods := AssignTaskNodes(freePods);
      ghost var prepared := Views(taskNodes);
      assert prepared == Prepared(start, allPods, reports);
      forall i | 0 <= i < |taskNodes|
        ensures prepared[i].ip.None? ==> prepared[i].status.None?
      {
        UnassignedStaysUnreported(start, allPods, reports, i);
      }
      calls := ScheduleTaskNodes();
      forall i | 0 <= i < |taskNodes|
        ensures Told(calls[i], start[i], Views(taskNodes)[i].ip, reports, policy)
      {
        RoundTells(start, allPods, reports, policy, i);
      }
      hide Told, Prepared, Round;
    }
  }

  /** What the reports of a round make of a node. */
  ghost predicate IsPrepared(n: Node, after: Node, reports: Reports) {
    && after.name == n.name && after.stopping == n.stopping && after.sState == n.sState
    && after.status == Reported(n, reports)
    && (Completed(after.tState) <==> OverAfter(n, reports))
  }

  lemma {:induction false} PreparesNode(nodes: seq<Node>, pods: seq<Pod>, reports: Reports, i: nat)
    requires i < |nodes| && (nodes[i].ip.None? ==> nodes[i].status.None?)
    ensures IsPrepared(nodes[i], Prepared(nodes, pods, reports)[i], reports)
  {
    hide FreePods, Waiting;
    if Reported(nodes[i], reports).Some? {
      TaskStates(Reported(nodes[i], reports).value);
    }
    hide ParseTaskState, IsOver;
  }

  lemma {:induction false} PreparedIsTold(n: Node, after: Node, reports: Reports, policy: ResourcePolicy)
    requires IsPrepared(n, after, reports)
    ensures Told(CallsOf(after, policy), n, after.ip, reports, policy)
  {
    hide Reported, OverAfter, Completed;
  }

  /** The calls of a round, from the nodes before it, the reports and the policy. */
  lemma {:induction false} RoundTells(nodes: seq<Node>, pods: seq<Pod>, reports: Reports, policy: ResourcePolicy,
                                      i: nat)
    requires i < |nodes| && (nodes[i].ip.None? ==> nodes[i].status.None?)
    ensures Told(CallsOfAll(Prepared(nodes, pods, reports), policy)[i], nodes[i],
                 Round(nodes, pods, reports, policy)[i].ip, reports, policy)
  {
    hide Prepared, IsPrepared, Told, CallsOf;
    PreparesNode(nodes, pods, reports, i);
    PreparedIsTold(nodes[i], Prepared(nodes, pods, reports)[i], reports, policy);
  }

  lemma {:induction false} PartlyEnds(nodes: seq<Node>, todo: set<nat>, policy: ResourcePolicy)
    requires forall i: nat :: i in todo <==> i < |nodes|
    ensures Partly(nodes, todo, policy) == nodes
    ensures Partly(nodes, {}, policy) == StepAll(nodes, policy)
  {
  }

  lemma {:induction false} PartlyStep(nodes: seq<Node>, todo: set<nat>, i: nat, policy: ResourcePolicy)
    requires i in todo && i < |nodes|
    ensures Partly(nodes, todo, policy)[i] == nodes[i]
    ensures Partly(nodes, todo - {i}, policy) == Partly(nodes, todo, policy)[i := StepNode(nodes[i], policy)]
  {
  }

  lemma {:induction false} NoneWaitingAtStart(nodes: seq<Node>)
    ensures Waiting(nodes, 0) == 0
  {
  }

  lemma {:induction false} AssignStep(nodes: seq<Node>, free: seq<Pod>, i: nat)
    requires i < |nodes|
    ensures Waiting(nodes, i + 1) == Waiting(nodes, i) + if nodes[i].ip.None? then 1 else 0
    ensures AssignNode(nodes, free, i) ==
      var m := Waiting(nodes, i);
      if nodes[i].ip.None? && m < |free| then nodes[i].(ip := free[m].ip, podName := Some(free[m].name)) else nodes[i]
  {
  }

  lemma {:induction false} UnassignedStaysUnreported(nodes: seq<Node>, pods: seq<Pod>, reports: Reports, i: nat)
    requires i < |nodes| && (nodes[i].ip.None? ==> nodes[i].status.None?)
    ensures var n := Prepared(nodes, pods, reports)[i]; n.ip.None? ==> n.status.None?
  {
  }
}
