/**
 * The order of a BatchSandbox's pods, and the endpoint list written from it:
 * neither depends on the order in which pods are listed.
 */
module PodOrder {
  import opened Common
  import opened BatchScaling

  // ------------------------------------------------------------------
  // Comparators
  // ------------------------------------------------------------------

  /** Text order, character by character. */
  predicate Less(a: string, b: string) {
    b != [] && (a == [] || a[0] < b[0] || (a[0] == b[0] && Less(a[1..], b[1..])))
  }

  type Index = map<string, int>
  type Sorter = (OwnedPod, OwnedPod) -> int

  /** PodNameSorter. */
  function CompareNames(a: OwnedPod, b: OwnedPod): int {
    if Less(a.name, b.name) then -1 else if Less(b.name, a.name) then 1 else 0
  }

  /** WithPodIndexSorter: pods without an index come last. */
  function CompareIndex(index: Index, a: OwnedPod, b: OwnedPod): int {
    if a.name !in index && b.name !in index then 0
    else if a.name !in index then 1
    else if b.name !in index then -1
    else if index[a.name] < index[b.name] then -1
    else if index[a.name] > index[b.name] then 1
    else 0
  }

  function FirstNonZero(sorters: seq<Sorter>, a: OwnedPod, b: OwnedPod): int {
    if sorters == [] then 0
    else
      var r := sorters[0](a, b);
      if r != 0 then r else FirstNonZero(sorters[1..], a, b)
  }

  /** MultiPodSorter.Sort. */
  method MultiSort(sorters: seq<Sorter>, a: OwnedPod, b: OwnedPod) returns (r: int)
    ensures r == FirstNonZero(sorters, a, b)
  {
    var i := 0;
    while i < |sorters|
      invariant 0 <= i <= |sorters|
      invariant FirstNonZero(sorters, a, b) == FirstNonZero(sorters[i..], a, b)
    {
      assert sorters[i..][1..] == sorters[i + 1..];
      r := sorters[i](a, b);
      if r != 0 {
        return;
      }
      i := i + 1;
    }
    r := 0;
  }

  function Sorters(index: Index): seq<Sorter> {
    [(a, b) => CompareIndex(index, a, b), (a, b) => CompareNames(a, b)]
  }

  /** The composed order: by index, then by name. */
  function Compare(index: Index, a: OwnedPod, b: OwnedPod): int {
    var r := CompareIndex(index, a, b);
    if r != 0 then r else CompareNames(a, b)
  }

  lemma {:induction false} CompareIsComposed(index: Index, a: OwnedPod, b: OwnedPod)
    ensures FirstNonZero(Sorters(index), a, b) == Compare(index, a, b)
  {
    hide CompareIndex, CompareNames;
    var s := Sorters(index);
    assert s[1..] == [s[1]] && [s[1]][1..] == [];
    assert FirstNonZero(s[1..], a, b) == CompareNames(a, b);
  }

  /** The comparator Reconcile sorts with. */
  method ComparePods(index: Index, a: OwnedPod, b: OwnedPod) returns (r: int)
    ensures r == Compare(index, a, b)
  {
    hide Compare, FirstNonZero, Sorters;
    CompareIsComposed(index, a, b);
    r := MultiSort(Sorters(index), a, b);
  }

  lemma {:induction false} LessTrichotomy(a: string, b: string)
    ensures Less(a, b) || Less(b, a) || a == b
    ensures !(Less(a, b) && Less(b, a)) && !Less(a, a)
  {
    if a != [] {
      LessTrichotomy(a[1..], if b == [] then [] else b[1..]);
      if b != [] && a[0] == b[0] {
        assert a == [a[0]] + a[1..] && b == [b[0]] + b[1..];
      }
    }
  }

  lemma {:induction false} LessTransitive(a: string, b: string, c: string)
    requires Less(a, b) && Less(b, c)
    ensures Less(a, c)
  {
    if a != [] && a[0] == b[0] == c[0] {
      LessTransitive(a[1..], b[1..], c[1..]);
    }
  }

  /**
   * The composed comparator is a total order on names: it compares equal
   * exactly for equal names, turning the arguments turns the sign, and it is
   * transitive.
   */
  lemma {:induction false} CompareIsTotal(index: Index, a: OwnedPod, b: OwnedPod, c: OwnedPod)
    ensures Compare(index, a, b) == 0 <==> a.name == b.name
    ensures Compare(index, a, b) == -Compare(index, b, a)
    ensures Compare(index, a, b) <= 0 && Compare(index, b, c) <= 0 ==> Compare(index, a, c) <= 0
  {
    NamesAreTotal(a, b, c);
    hide CompareNames;
  }

  lemma {:induction false} NamesAreTotal(a: OwnedPod, b: OwnedPod, c: OwnedPod)
    ensures CompareNames(a, b) == 0 <==> a.name == b.name
    ensures CompareNames(a, b) == -CompareNames(b, a)
    ensures CompareNames(a, b) <= 0 && CompareNames(b, c) <= 0 ==> CompareNames(a, c) <= 0
  {
    LessTrichotomy(a.name, b.name);
    LessTrichotomy(b.name, c.name);
    LessTrichotomy(a.name, c.name);
    LessTrichotomy(a.name, a.name);
    if Less(a.name, b.name) && Less(b.name, c.name) {
      LessTransitive(a.name, b.name, c.name);
    }
    hide Less;
  }

  // ------------------------------------------------------------------
  // Sorting
  // ------------------------------------------------------------------

  ghost predicate Sorted(index: Index, pods: seq<OwnedPod>) {
    forall i, j :: 0 <= i < j < |pods| ==> Compare(index, pods[i], pods[j]) <= 0
  }

  ghost predicate NamesDistinct(pods: seq<OwnedPod>) {
    forall i, j :: 0 <= i < j < |pods| ==> pods[i].name != pods[j].name
  }

  lemma {:induction false} SameMembers(s: seq<OwnedPod>, t: seq<OwnedPod>)
    requires multiset(s) == multiset(t)
    ensures |s| == |t| && forall x :: x in s <==> x in t
  {
    assert |multiset(s)| == |s| && |multiset(t)| == |t|;
    assert forall x :: x in s <==> x in multiset(s);
    assert forall x :: x in t <==> x in multiset(t);
  }

  lemma {:induction false} HeadIsLeast(index: Index, s: seq<OwnedPod>, x: OwnedPod)
    requires Sorted(index, s) && x in s
    ensures Compare(index, s[0], x) <= 0
  {
    CompareIsTotal(index, x, x, x);
    hide Compare;
    var j :| 0 <= j < |s| && s[j] == x;
  }

  lemma {:induction false} SameHead(index: Index, s: seq<OwnedPod>, t: seq<OwnedPod>)
    requires multiset(s) == multiset(t) && s != [] && NamesDistinct(s) && Sorted(index, s) && Sorted(index, t)
    ensures t != [] && s[0] == t[0]
  {
    hide Compare;
    SameMembers(s, t);
    assert s[0] in t && t[0] in s;
    HeadIsLeast(index, s, t[0]);
    HeadIsLeast(index, t, s[0]);
    CompareIsTotal(index, s[0], t[0], s[0]);
    hide Sorted;
    assert s[0].name == t[0].name;
  }

  lemma {:induction false} TailKeeps(index: Index, s: seq<OwnedPod>)
    requires s != []
    ensures multiset(s[1..]) == multiset(s) - multiset{s[0]}
    ensures NamesDistinct(s) ==> NamesDistinct(s[1..])
    ensures Sorted(index, s) ==> Sorted(index, s[1..])
  {
    hide Compare;
    assert s == [s[0]] + s[1..];
  }

  /** Pods with distinct names have only one sorted arrangement. */
  lemma {:induction false} SortedUnique(index: Index, s: seq<OwnedPod>, t: seq<OwnedPod>)
    requires multiset(s) == multiset(t) && NamesDistinct(s) && Sorted(index, s) && Sorted(index, t)
    ensures s == t
  {
    hide Sorted, NamesDistinct;
    SameMembers(s, t);
    if s != [] {
      SameHead(index, s, t);
      TailKeeps(index, s);
      TailKeeps(index, t);
      SortedUnique(index, s[1..], t[1..]);
      assert s == [s[0]] + s[1..] && t == [t[0]] + t[1..];
    }
  }

  /**
   * What sorted means: a pod with an index comes after no pod without one and
   * after no pod of a higher index; among equals the names do not descend.
   */
  lemma {:induction false} SortedMeans(index: Index, pods: seq<OwnedPod>, i: nat, j: nat)
    requires Sorted(index, pods) && i < j < |pods|
    ensures pods[j].name in index ==>
      pods[i].name in index && index[pods[i].name] <= index[pods[j].name]
    ensures pods[i].name in index && pods[j].name in index && index[pods[i].name] == index[pods[j].name] ==>
      !Less(pods[j].name, pods[i].name)
    ensures pods[i].name !in index ==> !Less(pods[j].name, pods[i].name)
  {
    assert Compare(index, pods[i], pods[j]) <= 0;
    LessTrichotomy(pods[i].name, pods[j].name);
    hide Less;
  }

  /** Text is ordered by the first character that differs, and a text before its extensions. */
  lemma {:induction false} LessIff(a: string, b: string)
    ensures Less(a, b) <==>
      exists k :: 0 <= k <= |a| && k < |b| && a[..k] == b[..k] && (k == |a| || a[k] < b[k])
  {
    if Less(a, b) && a != [] && a[0] == b[0] {
      LessIff(a[1..], b[1..]);
      var k :| 0 <= k <= |a[1..]| && k < |b[1..]| && a[1..][..k] == b[1..][..k]
        && (k == |a[1..]| || a[1..][k] < b[1..][k]);
      assert a[..k + 1] == [a[0]] + a[1..][..k] && b[..k + 1] == [b[0]] + b[1..][..k];
    } else if Less(a, b) {
      assert a[..0] == b[..0];
    }
    if k :| 0 <= k <= |a| && k < |b| && a[..k] == b[..k] && (k == |a| || a[k] < b[k]) {
      if k > 0 {
        assert a[0] == a[..k][0] == b[..k][0] == b[0];
        assert a[1..][..k - 1] == a[..k][1..] == b[..k][1..] == b[1..][..k - 1];
        LessIff(a[1..], b[1..]);
        assert k - 1 == |a[1..]| || a[1..][k - 1] < b[1..][k - 1];
      }
    }
  }

  /** Where a pod goes in a sorted list. */
  function Insert(index: Index, p: OwnedPod, pods: seq<OwnedPod>): seq<OwnedPod> {
    if pods == [] || Compare(index, p, pods[0]) < 0 then [p] + pods else [pods[0]] + Insert(index, p, pods[1..])
  }

  /** A stable sort. */
  function Sort(index: Index, pods: seq<OwnedPod>): seq<OwnedPod> {
    if pods == [] then [] else Insert(index, pods[|pods| - 1], Sort(index, pods[..|pods| - 1]))
  }

  lemma {:induction false} InsertMembers(index: Index, p: OwnedPod, pods: seq<OwnedPod>)
    ensures multiset(Insert(index, p, pods)) == multiset{p} + multiset(pods)
  {
    hide Compare;
    if pods != [] && Compare(index, p, pods[0]) >= 0 {
      InsertMembers(index, p, pods[1..]);
      assert pods == [pods[0]] + pods[1..];
    }
  }

  ghost predicate HeadFirst(index: Index, x: OwnedPod, pods: seq<OwnedPod>) {
    forall y :: y in pods ==> Compare(index, x, y) <= 0
  }

  lemma {:induction false} SortedCons(index: Index, x: OwnedPod, pods: seq<OwnedPod>)
    ensures Sorted(index, [x] + pods) <==> Sorted(index, pods) && HeadFirst(index, x, pods)
  {
    hide Compare;
    var all := [x] + pods;
    if Sorted(index, all) {
      forall y | y in pods
        ensures Compare(index, x, y) <= 0
      {
        var i :| 0 <= i < |pods| && pods[i] == y;
        assert all[i + 1] == y && all[0] == x;
      }
      forall i, j | 0 <= i < j < |pods|
        ensures Compare(index, pods[i], pods[j]) <= 0
      {
        assert all[i + 1] == pods[i] && all[j + 1] == pods[j];
      }
    }
    if Sorted(index, pods) && HeadFirst(index, x, pods) {
      forall i, j | 0 <= i < j < |all|
        ensures Compare(index, all[i], all[j]) <= 0
      {
        assert all[j] == pods[j - 1];
        if i > 0 {
          assert all[i] == pods[i - 1];
        }
      }
    }
  }

  lemma {:induction false} InsertSorted(index: Index, p: OwnedPod, pods: seq<OwnedPod>)
    requires Sorted(index, pods)
    ensures Sorted(index, Insert(index, p, pods))
  {
    hide Sorted, Compare;
    if pods == [] {
      SortedCons(index, p, []);
    } else {
      var x, rest := pods[0], pods[1..];
      assert pods == [x] + rest;
      SortedCons(index, x, rest);
      if Compare(index, p, x) < 0 {
        forall y | y in pods
          ensures Compare(index, p, y) <= 0
        {
          CompareIsTotal(index, p, x, y);
        }
        SortedCons(index, p, pods);
      } else {
        InsertSorted(index, p, rest);
        InsertMembers(index, p, rest);
        CompareIsTotal(index, p, x, p);
        forall y | y in Insert(index, p, rest)
          ensures Compare(index, x, y) <= 0
        {
          assert y in multiset(Insert(index, p, rest));
          assert y == p || y in rest;
        }
        SortedCons(index, x, Insert(index, p, rest));
      }
    }
  }

  lemma {:induction false} SortIs(index: Index, pods: seq<OwnedPod>)
    ensures Sorted(index, Sort(index, pods)) && multiset(Sort(index, pods)) == multiset(pods)
  {
    hide Insert;
    if pods == [] {
      assert Sorted(index, []);
    } else {
      hide Sorted;
      var n := |pods| - 1;
      SortIs(index, pods[..n]);
      InsertSorted(index, pods[n], Sort(index, pods[..n]));
      InsertMembers(index, pods[n], Sort(index, pods[..n]));
      assert pods == pods[..n] + [pods[n]];
    }
  }

  lemma {:induction false} PermutedNames(s: seq<OwnedPod>, t: seq<OwnedPod>)
    requires multiset(s) == multiset(t) && NamesDistinct(s)
    ensures NamesDistinct(t)
  {
    SameMembers(s, t);
    forall i, j | 0 <= i < j < |t|
      ensures t[i].name != t[j].name
    {
      assert t[i] in s && t[j] in s;
      var a :| 0 <= a < |s| && s[a] == t[i];
      var b :| 0 <= b < |s| && s[b] == t[j];
      OnceInSequence(s, a);
      TwiceInSequence(t, i, j);
      assert t[i] != t[j];
    }
  }

  lemma {:induction false} TwiceInSequence(t: seq<OwnedPod>, i: nat, j: nat)
    requires i < j < |t|
    ensures t[i] == t[j] ==> multiset(t)[t[i]] >= 2
  {
    assert t == t[..j] + t[j..] && t[i] in t[..j] && t[j] in t[j..];
    assert multiset(t) == multiset(t[..j]) + multiset(t[j..]);
  }

  lemma {:induction false} OnceInSequence(s: seq<OwnedPod>, a: nat)
    requires a < |s| && NamesDistinct(s)
    ensures multiset(s)[s[a]] == 1
  {
    assert s == s[..a] + [s[a]] + s[a + 1..];
    assert s[a] !in s[..a] && s[a] !in s[a + 1..];
  }

  /** Any two listings of the same pods sort to the same sequence. */
  lemma {:induction false} SortIgnoresListing(index: Index, s: seq<OwnedPod>, t: seq<OwnedPod>)
    requires multiset(s) == multiset(t) && NamesDistinct(s)
    ensures Sort(index, s) == Sort(index, t)
  {
    hide Sort, Sorted;
    SortIs(index, s);
    SortIs(index, t);
    PermutedNames(s, Sort(index, s));
    SortedUnique(index, Sort(index, s), Sort(index, t));
  }

  // ------------------------------------------------------------------
  // Indices and endpoints
  // ------------------------------------------------------------------

  /** Position of each allocated pod in the allocation; a later position wins. */
  function AllocationIndex(alloc: seq<string>): Index {
    if alloc == [] then map[] else AllocationIndex(alloc[..|alloc| - 1])[alloc[|alloc| - 1] := |alloc| - 1]
  }

  /** The index is the position; for a name that is listed twice the later one. */
  lemma {:induction false} AllocationIndexIs(alloc: seq<string>, n: string)
    ensures n in AllocationIndex(alloc) <==> n in alloc
    ensures n in alloc ==>
      var k := AllocationIndex(alloc)[n];
      0 <= k < |alloc| && alloc[k] == n && forall j :: k < j < |alloc| ==> alloc[j] != n
  {
    if alloc != [] {
      var front := alloc[..|alloc| - 1];
      AllocationIndexIs(front, n);
      assert alloc == front + [alloc[|alloc| - 1]];
    }
  }

  /** The parsed index of each pod. */
  function ParsedIndex(pods: seq<OwnedPod>): Index {
    if pods == [] then map[]
    else
      var last := pods[|pods| - 1];
      var before := ParsedIndex(pods[..|pods| - 1]);
      if ParseIndex(last).Some? then before[last.name := ParseIndex(last).value] else before
  }

  /** calPodIndex: from the allocation in pooled mode, from the pods otherwise. */
  method CalPodIndex(pooled: bool, alloc: seq<string>, pods: seq<OwnedPod>) returns (index: Option<Index>)
    ensures pooled ==> index == Some(AllocationIndex(alloc))
    ensures !pooled ==> index == if AllParse(pods) then Some(ParsedIndex(pods)) else None
  {
    hide ParseIndex;
    var out: Index := map[];
    var i := 0;
    if pooled {
      while i < |alloc|
        invariant 0 <= i <= |alloc|
        invariant out == AllocationIndex(alloc[..i])
      {
        assert alloc[..i + 1][..i] == alloc[..i];
        out := out[alloc[i] := i];
        i := i + 1;
      }
      assert alloc[..i] == alloc;
    } else {
      while i < |pods|
        invariant 0 <= i <= |pods|
        invariant AllParse(pods[..i]) && out == ParsedIndex(pods[..i])
      {
        assert pods[..i + 1][..i] == pods[..i];
        var parsed := ParseIndex(pods[i]);
        if parsed.None? {
          return None;
        }
        out := out[pods[i].name := parsed.value];
        i := i + 1;
      }
      assert pods[..i] == pods;
    }
    index := Some(out);
  }

  lemma {:induction false} ParsedIndexIs(pods: seq<OwnedPod>)
    requires AllParse(pods) && NamesDistinct(pods)
    ensures forall p :: p in pods ==> p.name in ParsedIndex(pods) && ParsedIndex(pods)[p.name] == ParseIndex(p).value
    ensures forall n :: n in ParsedIndex(pods) ==> exists p :: p in pods && p.name == n
  {
    hide ParseIndex;
    if pods != [] {
      var k := |pods| - 1;
      var front, last := pods[..k], pods[k];
      ParsedIndexIs(front);
      assert last in pods;
      forall p | p in pods
        ensures p.name in ParsedIndex(pods) && ParsedIndex(pods)[p.name] == ParseIndex(p).value
      {
        var i :| 0 <= i < |pods| && pods[i] == p;
        if i < k {
          assert front[i] == p && p in front;
        }
      }
      forall n | n in ParsedIndex(pods)
        ensures exists p :: p in pods && p.name == n
      {
        if n in ParsedIndex(front) {
          var p :| p in front && p.name == n;
          assert p in pods;
        }
      }
    }
  }

  lemma {:induction false} ParsedIndexIgnoresListing(s: seq<OwnedPod>, t: seq<OwnedPod>)
    requires multiset(s) == multiset(t) && NamesDistinct(s) && AllParse(s)
    ensures AllParse(t) && ParsedIndex(s) == ParsedIndex(t)
  {
    hide ParseIndex, ParsedIndex;
    SameMembers(s, t);
    PermutedNames(s, t);
    forall i | 0 <= i < |t|
      ensures ParseIndex(t[i]).Some?
    {
      assert t[i] in s;
      var a :| 0 <= a < |s| && s[a] == t[i];
    }
    ParsedIndexIs(s);
    ParsedIndexIs(t);
    forall n
      ensures n in ParsedIndex(s) <==> n in ParsedIndex(t)
      ensures n in ParsedIndex(s) ==> ParsedIndex(s)[n] == ParsedIndex(t)[n]
    {
      if n in ParsedIndex(s) {
        var p :| p in s && p.name == n;
        assert p in t;
      }
      if n in ParsedIndex(t) {
        var p :| p in t && p.name == n;
        assert p in s;
      }
    }
  }

  /** The endpoint of each pod, blank while it has no node and no address. */
  function Endpoints(pods: seq<OwnedPod>): (r: seq<string>)
    ensures |r| == |pods|
    ensures forall i :: 0 <= i < |pods| ==> (pods[i].placed ==> r[i] == pods[i].ip) && (!pods[i].placed ==> r[i] == "")
  {
    seq(|pods|, i requires 0 <= i < |pods| => if pods[i].placed then pods[i].ip else "")
  }

  function PlacedIn(pods: seq<OwnedPod>): nat {
    if pods == [] then 0 else PlacedIn(pods[..|pods| - 1]) + if pods[|pods| - 1].placed then 1 else 0
  }

  function ReadyIn(pods: seq<OwnedPod>): nat {
    if pods == [] then 0 else ReadyIn(pods[..|pods| - 1]) + if pods[|pods| - 1].ready then 1 else 0
  }

  function PlacedAt(pods: seq<OwnedPod>): set<int> {
    set i | 0 <= i < |pods| && pods[i].placed
  }

  function ReadyAt(pods: seq<OwnedPod>): set<int> {
    set i | 0 <= i < |pods| && pods[i].ready
  }

  lemma {:induction false} PlacedCount(pods: seq<OwnedPod>)
    ensures PlacedIn(pods) == |PlacedAt(pods)|
  {
    if pods != [] {
      var n := |pods| - 1;
      var front := pods[..n];
      PlacedCount(front);
      var last: set<int> := if pods[n].placed then {n} else {};
      assert PlacedAt(pods) == PlacedAt(front) + last;
      assert PlacedAt(front) !! last;
    }
  }

  lemma {:induction false} ReadyCount(pods: seq<OwnedPod>)
    ensures ReadyIn(pods) == |ReadyAt(pods)|
  {
    if pods != [] {
      var n := |pods| - 1;
      var front := pods[..n];
      ReadyCount(front);
      var last: set<int> := if pods[n].ready then {n} else {};
      assert ReadyAt(pods) == ReadyAt(front) + last;
      assert ReadyAt(front) !! last;
    }
  }

  /** The status loop of Reconcile. */
  method Status(pods: seq<OwnedPod>) returns (replicas: nat, placed: nat, ready: nat, ips: seq<string>)
    ensures replicas == |pods| && placed == PlacedIn(pods) <= replicas && ready == ReadyIn(pods) <= replicas
      && ips == Endpoints(pods)
  {
    replicas, placed, ready := 0, 0, 0;
    ips := seq(|pods|, i => "");
    var i := 0;
    while i < |pods|
      invariant 0 <= i <= |pods| == |ips|
      invariant replicas == i && placed == PlacedIn(pods[..i]) <= i && ready == ReadyIn(pods[..i]) <= i
      invariant forall j :: 0 <= j < i ==> ips[j] == Endpoints(pods)[j]
      invariant forall j :: i <= j < |ips| ==> ips[j] == ""
    {
      assert pods[..i + 1][..i] == pods[..i];
      replicas := replicas + 1;
      if pods[i].placed {
        placed := placed + 1;
        ips := ips[i := pods[i].ip];
      }
      if pods[i].ready {
        ready := ready + 1;
      }
      i := i + 1;
    }
    assert pods[..i] == pods;
  }

  // ------------------------------------------------------------------
  // Listing
  // ------------------------------------------------------------------

  /** The pods of the names that exist, in the order of the names. */
  function Fetch(names: seq<string>, cluster: map<string, OwnedPod>): seq<OwnedPod> {
    if names == [] then []
    else
      var n := names[|names| - 1];
      Fetch(names[..|names| - 1], cluster) + if n in cluster then [cluster[n]] else []
  }

  ghost predicate Named(cluster: map<string, OwnedPod>) {
    forall n :: n in cluster ==> cluster[n].name == n
  }

  /** An order in which the set of active names may be walked. */
  ghost predicate Walks(order: seq<string>, alloc: seq<string>, released: seq<string>) {
    Distinct(order) && forall n :: n in order <==> n in alloc && n !in released
  }

  /** listPods in pooled mode: allocated, not released, and still there. */
  method ListPooled(order: seq<string>, cluster: map<string, OwnedPod>) returns (pods: seq<OwnedPod>)
    ensures pods == Fetch(order, cluster)
  {
    pods := [];
    var i := 0;
    while i < |order|
      invariant 0 <= i <= |order|
      invariant pods == Fetch(order[..i], cluster)
    {
      assert order[..i + 1][..i] == order[..i];
      if order[i] in cluster {
        pods := pods + [cluster[order[i]]];
      }
      i := i + 1;
    }
    assert order[..i] == order;
  }

  lemma {:induction false} FetchIs(names: seq<string>, cluster: map<string, OwnedPod>)
    requires Distinct(names) && Named(cluster)
    ensures NamesDistinct(Fetch(names, cluster))
    ensures forall p :: p in Fetch(names, cluster) <==> p.name in names && p.name in cluster && cluster[p.name] == p
  {
    if names != [] {
      var k := |names| - 1;
      var n, before := names[k], Fetch(names[..k], cluster);
      FetchIs(names[..k], cluster);
      assert names == names[..k] + [n] && n !in names[..k];
      assert forall i :: 0 <= i < |before| ==> before[i] in before;
    }
  }

  lemma {:induction false} FetchIgnoresOrder(a: seq<string>, b: seq<string>, cluster: map<string, OwnedPod>)
    requires Distinct(a) && Distinct(b) && Named(cluster) && forall n :: n in a <==> n in b
    ensures multiset(Fetch(a, cluster)) == multiset(Fetch(b, cluster))
  {
    hide Fetch;
    var s, t := Fetch(a, cluster), Fetch(b, cluster);
    FetchIs(a, cluster);
    FetchIs(b, cluster);
    forall p
      ensures multiset(s)[p] == multiset(t)[p]
    {
      CountsOnce(s, p);
      CountsOnce(t, p);
    }
  }

  lemma {:induction false} CountsOnce(s: seq<OwnedPod>, p: OwnedPod)
    requires NamesDistinct(s)
    ensures multiset(s)[p] == if p in s then 1 else 0
  {
    if p in s {
      var a :| 0 <= a < |s| && s[a] == p;
      OnceInSequence(s, a);
    }
  }

  /**
   * In pooled mode the endpoint list is the same for every order in which the
   * set of active pods is walked.
   */
  lemma {:induction false} PooledEndpointsIgnoreOrder(a: seq<string>, b: seq<string>, alloc: seq<string>,
                                                      released: seq<string>, cluster: map<string, OwnedPod>)
    requires Walks(a, alloc, released) && Walks(b, alloc, released) && Named(cluster)
    ensures var index := AllocationIndex(alloc);
      Endpoints(Sort(index, Fetch(a, cluster))) == Endpoints(Sort(index, Fetch(b, cluster)))
  {
    hide Fetch, Sort, AllocationIndex;
    FetchIgnoresOrder(a, b, cluster);
    FetchIs(a, cluster);
    SortIgnoresListing(AllocationIndex(alloc), Fetch(a, cluster), Fetch(b, cluster));
  }

  /** Without a pool it is the same for every order in which the owned pods are listed. */
  lemma {:induction false} OwnedEndpointsIgnoreOrder(s: seq<OwnedPod>, t: seq<OwnedPod>)
    requires multiset(s) == multiset(t) && NamesDistinct(s) && AllParse(s)
    ensures Endpoints(Sort(ParsedIndex(s), s)) == Endpoints(Sort(ParsedIndex(t), t))
  {
    hide Sort, ParsedIndex;
    ParsedIndexIgnoresListing(s, t);
    SortIgnoresListing(ParsedIndex(s), s, t);
  }

  // ------------------------------------------------------------------
  // The endpoint list
  // ------------------------------------------------------------------

  /** The allocated names that are not released, in allocation order. */
  function ActiveNames(alloc: seq<string>, released: seq<string>): seq<string> {
    if alloc == [] then []
    else
      var n := alloc[|alloc| - 1];
      ActiveNames(alloc[..|alloc| - 1], released) + if n in released then [] else [n]
  }

  /** Names that stand in the order of their positions. */
  ghost predicate InOrder(index: Index, names: seq<string>) {
    && (forall i :: 0 <= i < |names| ==> names[i] in index)
    && (forall i, j :: 0 <= i < j < |names| ==> index[names[i]] < index[names[j]])
  }

  lemma {:induction false} PositionsOfFront(alloc: seq<string>)
    requires Distinct(alloc) && alloc != []
    ensures var n := |alloc| - 1;
      && alloc[n] !in alloc[..n] && AllocationIndex(alloc)[alloc[n]] == n
      && (forall x :: x in alloc[..n] ==>
            x in AllocationIndex(alloc) && AllocationIndex(alloc)[x] == AllocationIndex(alloc[..n])[x] < n)
  {
    var n := |alloc| - 1;
    forall x | x in alloc[..n]
      ensures x in AllocationIndex(alloc) && AllocationIndex(alloc)[x] == AllocationIndex(alloc[..n])[x] < n
    {
      AllocationIndexIs(alloc[..n], x);
    }
  }

  lemma {:induction false} ActiveNamesAre(alloc: seq<string>, released: seq<string>)
    requires Distinct(alloc)
    ensures Distinct(ActiveNames(alloc, released))
    ensures forall n :: n in ActiveNames(alloc, released) <==> n in alloc && n !in released
    ensures InOrder(AllocationIndex(alloc), ActiveNames(alloc, released))
  {
    if alloc != [] {
      var k := |alloc| - 1;
      var front, last := alloc[..k], alloc[k];
      assert alloc == front + [last];
      ActiveNamesAre(front, released);
      PositionsOfFront(alloc);
      var before := ActiveNames(front, released);
      assert forall i :: 0 <= i < |before| ==> before[i] in before;
      hide AllocationIndex;
    }
  }

  lemma {:induction false} InOrderFront(index: Index, names: seq<string>)
    requires InOrder(index, names) && names != []
    ensures InOrder(index, names[..|names| - 1]) && names[|names| - 1] in index
    ensures forall x :: x in names[..|names| - 1] ==> x in index && index[x] < index[names[|names| - 1]]
  {
  }

  lemma {:induction false} InOrderSnoc(index: Index, names: seq<string>, n: string)
    requires InOrder(index, names) && n in index && forall x :: x in names ==> x in index && index[x] < index[n]
    ensures InOrder(index, names + [n])
  {
  }

  lemma {:induction false} FetchInOrder(index: Index, names: seq<string>, cluster: map<string, OwnedPod>)
    requires InOrder(index, names) && Named(cluster)
    ensures InOrder(index, NamesIn(Fetch(names, cluster)))
    ensures forall x :: x in NamesIn(Fetch(names, cluster)) ==> x in names
  {
    if names != [] {
      var k := |names| - 1;
      var front, last := names[..k], names[k];
      InOrderFront(index, names);
      FetchInOrder(index, front, cluster);
      var before := NamesIn(Fetch(front, cluster));
      if last in cluster {
        assert NamesIn(Fetch(names, cluster)) == before + [last];
        hide InOrder, Fetch;
        InOrderSnoc(index, before, last);
      } else {
        assert Fetch(names, cluster) == Fetch(front, cluster);
      }
      assert forall x :: x in front ==> x in names;
    }
  }

  function NamesIn(pods: seq<OwnedPod>): (r: seq<string>)
    ensures |r| == |pods|
    ensures forall i :: 0 <= i < |pods| ==> r[i] == pods[i].name
  {
    seq(|pods|, i requires 0 <= i < |pods| => pods[i].name)
  }

  lemma {:induction false} InOrderIsSorted(index: Index, pods: seq<OwnedPod>)
    requires InOrder(index, NamesIn(pods))
    ensures Sorted(index, pods)
  {
    var names := NamesIn(pods);
    hide CompareNames;
    forall i, j | 0 <= i < j < |pods|
      ensures Compare(index, pods[i], pods[j]) <= 0
    {
      assert names[i] in index && names[j] in index && index[names[i]] < index[names[j]];
    }
  }

  /**
   * In pooled mode the endpoint list is, in allocation order, the address of
   * each allocated pod that is not released and still exists.
   */
  lemma {:induction false} PooledEndpointsAre(order: seq<string>, alloc: seq<string>, released: seq<string>,
                                              cluster: map<string, OwnedPod>)
    requires Distinct(alloc) && Walks(order, alloc, released) && Named(cluster)
    ensures Sort(AllocationIndex(alloc), Fetch(order, cluster)) == Fetch(ActiveNames(alloc, released), cluster)
  {
    var index, active := AllocationIndex(alloc), ActiveNames(alloc, released);
    ActiveNamesAre(alloc, released);
    hide Sort, Fetch, AllocationIndex, ActiveNames;
    FetchIgnoresOrder(order, active, cluster);
    FetchIs(order, cluster);
    FetchInOrder(index, active, cluster);
    InOrderIsSorted(index, Fetch(active, cluster));
    SortIs(index, Fetch(order, cluster));
    PermutedNames(Fetch(order, cluster), Sort(index, Fetch(order, cluster)));
    SortedUnique(index, Sort(index, Fetch(order, cluster)), Fetch(active, cluster));
  }

  /** Without a pool the endpoints come in ascending order of the pods' own indices. */
  lemma {:induction false} OwnedEndpointsAscend(pods: seq<OwnedPod>, i: nat, j: nat)
    requires AllParse(pods) && NamesDistinct(pods) && i < j < |pods|
    ensures var sorted := Sort(ParsedIndex(pods), pods);
      && |sorted| == |pods| && sorted[i] in pods && sorted[j] in pods
      && ParseIndex(sorted[i]).Some? && ParseIndex(sorted[j]).Some?
      && ParseIndex(sorted[i]).value <= ParseIndex(sorted[j]).value
  {
    var index := ParsedIndex(pods);
    var sorted := Sort(index, pods);
    SortIs(index, pods);
    SameMembers(sorted, pods);
    ParsedIndexIs(pods);
    assert sorted[i] in pods && sorted[j] in pods;
    SortedMeans(index, sorted, i, j);
    hide Sort, ParsedIndex, ParseIndex, Sorted;
  }
}
