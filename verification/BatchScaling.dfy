/**
 * Scaling a BatchSandbox without a pool: pods are named "name-index", and
 * every reconcile creates the indices that are missing.
 */
module BatchScaling {
  import opened Common

  // ------------------------------------------------------------------
  // Numbers as text
  // ------------------------------------------------------------------

  const MAX_INT := 0x7fff_ffff_ffff_ffff
  const MIN_INT := -0x8000_0000_0000_0000

  predicate IsDigit(c: char) {
    '0' <= c <= '9'
  }

  function DigitChar(d: nat): char
    requires d < 10
  {
    '0' + d as char
  }

  function DigitValue(c: char): nat
    requires IsDigit(c)
  {
    (c - '0') as nat
  }

  predicate AllDigits(s: string) {
    forall i :: 0 <= i < |s| ==> IsDigit(s[i])
  }

  /** strconv.Itoa, for the indices that occur. */
  function Itoa(n: nat): string {
    if n < 10 then [DigitChar(n)] else Itoa(n / 10) + [DigitChar(n % 10)]
  }

  function DigitsValue(s: string): nat
    requires AllDigits(s)
  {
    if s == [] then 0 else 10 * DigitsValue(s[..|s| - 1]) + DigitValue(s[|s| - 1])
  }

  /** strconv.Atoi: an optional sign, at least one digit, and a value that fits. */
  function Atoi(s: string): Option<int> {
    var signed := s != [] && (s[0] == '-' || s[0] == '+');
    var body := if signed then s[1..] else s;
    if body == [] || !AllDigits(body) then None
    else
      var v := if s[0] == '-' then 0 - DigitsValue(body) else DigitsValue(body);
      if MIN_INT <= v <= MAX_INT then Some(v) else None
  }

  lemma {:induction false} ItoaDigits(n: nat)
    ensures Itoa(n) != [] && AllDigits(Itoa(n)) && DigitsValue(Itoa(n)) == n
    ensures Itoa(n)[0] == '0' ==> n == 0 && Itoa(n) == "0"
  {
    if n < 10 {
      assert Itoa(n)[..0] == [];
      assert DigitsValue([]) == 0;
      assert DigitValue(DigitChar(n)) == n;
    } else {
      ItoaDigits(n / 10);
      assert Itoa(n)[..|Itoa(n)| - 1] == Itoa(n / 10);
      assert DigitValue(DigitChar(n % 10)) == n % 10;
    }
  }

  /** Reading a written index gives it back. */
  lemma {:induction false} AtoiItoa(n: nat)
    requires n <= MAX_INT
    ensures Atoi(Itoa(n)) == Some(n)
  {
    ItoaDigits(n);
    assert IsDigit(Itoa(n)[0]);
    hide Itoa, DigitsValue;
  }

  // ------------------------------------------------------------------
  // Pod names
  // ------------------------------------------------------------------

  /** An owned pod: the tag is its index label, which may be missing, and it may have no address yet. */
  datatype OwnedPod = OwnedPod(name: string, tag: string, placed: bool, ip: string, ready: bool)

  /** The last position of a dash, or -1. */
  function LastDash(s: string): int {
    if s == [] then -1 else if s[|s| - 1] == '-' then |s| - 1 else LastDash(s[..|s| - 1])
  }

  lemma {:induction false} LastDashIn(s: string)
    ensures -1 <= LastDash(s) < |s|
  {
    if s != [] && s[|s| - 1] != '-' {
      LastDashIn(s[..|s| - 1]);
    }
  }

  function ParseIndex(p: OwnedPod): Option<int> {
    if p.tag != "" then Atoi(p.tag)
    else
      var dash := LastDash(p.name);
      LastDashIn(p.name);
      if dash == -1 then None else Atoi(p.name[dash + 1..])
  }

  function PodNameAt(base: string, index: nat): string {
    base + "-" + Itoa(index)
  }

  lemma {:induction false} LastDashIs(s: string)
    ensures LastDash(s) == -1 <==> '-' !in s
    ensures LastDash(s) >= 0 ==> LastDash(s) < |s| && s[LastDash(s)] == '-' && '-' !in s[LastDash(s) + 1..]
  {
    if s != [] {
      var n := |s| - 1;
      LastDashIs(s[..n]);
      assert s == s[..n] + [s[n]];
      if s[n] != '-' && LastDash(s) >= 0 {
        assert s[LastDash(s) + 1..] == s[..n][LastDash(s) + 1..] + [s[n]];
      }
    }
  }

  /**
   * The index is the number in the label; without a label the one after the
   * last dash; without a dash there is none.
   */
  lemma {:induction false} IndexIsRead(p: OwnedPod, head: string, tail: string)
    ensures p.tag != "" ==> ParseIndex(p) == Atoi(p.tag)
    ensures p.tag == "" && p.name == head + "-" + tail && '-' !in tail ==> ParseIndex(p) == Atoi(tail)
    ensures p.tag == "" && '-' !in p.name ==> ParseIndex(p) == None
  {
    LastDashIs(p.name);
    if p.name == head + "-" + tail && '-' !in tail {
      LastDashBeforeTail(head, tail);
      assert p.name[|head| + 1..] == tail;
    }
    hide LastDash, Atoi;
  }

  lemma {:induction false} LastDashBeforeTail(head: string, tail: string)
    requires '-' !in tail
    ensures LastDash(head + "-" + tail) == |head|
  {
    var s := head + "-" + tail;
    if tail == [] {
      assert s == head + "-";
    } else {
      assert s[|s| - 1] == tail[|tail| - 1] && tail[|tail| - 1] in tail;
      assert s[..|s| - 1] == head + "-" + tail[..|tail| - 1];
      LastDashBeforeTail(head, tail[..|tail| - 1]);
    }
  }

  lemma {:induction false} DigitsHideNoDash(base: string, digits: string)
    requires AllDigits(digits)
    ensures LastDash(base + "-" + digits) == |base|
  {
    LastDashBeforeTail(base, digits);
  }

  /**
   * parseIndex inverts the "name-index" format for every base name, also one
   * with dashes or digits in it, whether or not the pod still has its label.
   */
  lemma {:induction false} ParseInvertsFormat(base: string, index: nat, p: OwnedPod)
    requires index <= MAX_INT && p.name == PodNameAt(base, index) && (p.tag == "" || p.tag == Itoa(index))
    ensures ParseIndex(p) == Some(index)
  {
    ItoaDigits(index);
    AtoiItoa(index);
    DigitsHideNoDash(base, Itoa(index));
    assert p.name[|base| + 1..] == Itoa(index);
    hide Itoa, Atoi, LastDash;
  }

  /** The name is the base name, a dash and the decimal index, and no two pods of any sandboxes share one. */
  lemma {:induction false} NamesDiffer(base: string, i: nat, base': string, j: nat)
    ensures PodNameAt(base, i) == base + "-" + Itoa(i)
    ensures PodNameAt(base, i) == PodNameAt(base', j) <==> base == base' && i == j
  {
    ItoaDigits(i);
    ItoaDigits(j);
    DigitsHideNoDash(base, Itoa(i));
    DigitsHideNoDash(base', Itoa(j));
    hide Itoa, LastDash;
    var a, b := PodNameAt(base, i), PodNameAt(base', j);
    if a == b {
      assert a[..|base|] == base && b[..|base'|] == base';
      assert a[|base| + 1..] == Itoa(i) && b[|base'| + 1..] == Itoa(j);
    }
  }

  /** An index is read exactly from an optional sign followed by digits, if the value fits. */
  lemma {:induction false} AtoiIff(s: string, v: int)
    ensures Atoi(s) == Some(v) <==>
      && MIN_INT <= v <= MAX_INT
      && exists digits :: digits != [] && AllDigits(digits)
           && (|| (s == digits && v == DigitsValue(digits))
               || (s == "+" + digits && v == DigitsValue(digits))
               || (s == "-" + digits && v == 0 - DigitsValue(digits)))
  {
    hide DigitsValue;
    if Atoi(s) == Some(v) {
      var digits := if s[0] == '-' || s[0] == '+' then s[1..] else s;
      assert s == digits || s == "+" + digits || s == "-" + digits;
      assert digits != [] && AllDigits(digits);
    }
    if digits :| digits != [] && AllDigits(digits)
                 && (|| (s == digits && v == DigitsValue(digits))
                     || (s == "+" + digits && v == DigitsValue(digits))
                     || (s == "-" + digits && v == 0 - DigitsValue(digits))) {
      assert IsDigit(digits[0]);
      assert s != digits ==> s[1..] == digits;
    }
  }

  // ------------------------------------------------------------------
  // Scaling
  // ------------------------------------------------------------------

  /** The indices below n that are not there, ascending. */
  function Missing(have: set<int>, n: int): seq<int> {
    if n <= 0 then [] else Missing(have, n - 1) + if n - 1 in have then [] else [n - 1]
  }

  function IndicesOf(pods: seq<OwnedPod>): set<int> {
    if pods == [] then {}
    else
      var last := ParseIndex(pods[|pods| - 1]);
      IndicesOf(pods[..|pods| - 1]) + if last.Some? then {last.value} else {}
  }

  function NewPod(base: string, index: nat): OwnedPod {
    OwnedPod(PodNameAt(base, index), Itoa(index), false, "", false)
  }

  predicate AllParse(pods: seq<OwnedPod>) {
    forall i :: 0 <= i < |pods| ==> ParseIndex(pods[i]).Some?
  }

  predicate Indices(s: seq<int>) {
    forall i :: 0 <= i < |s| ==> 0 <= s[i]
  }

  function NewPods(base: string, indices: seq<int>): (r: seq<OwnedPod>)
    requires Indices(indices)
    ensures |r| == |indices|
  {
    seq(|indices|, i requires 0 <= i < |indices| => NewPod(base, indices[i]))
  }

  ghost predicate Ascending(s: seq<int>) {
    forall a, b :: 0 <= a < b < |s| ==> s[a] < s[b]
  }

  lemma {:induction false} MissingStep(have: set<int>, n: int)
    requires n > 0
    ensures Missing(have, n) == Missing(have, n - 1) + if n - 1 in have then [] else [n - 1]
  {
  }

  /** The missing indices are exactly those below n that are not there. */
  lemma {:induction false} MissingMembers(have: set<int>, n: int)
    ensures forall i :: i in Missing(have, n) <==> 0 <= i < n && i !in have
  {
    if n > 0 {
      MissingMembers(have, n - 1);
      MissingStep(have, n);
      hide Missing;
    }
  }

  /** Ascending indices below n. */
  ghost predicate UpTo(s: seq<int>, n: int) {
    Indices(s) && Ascending(s) && forall i :: 0 <= i < |s| ==> s[i] < n
  }

  lemma {:induction false} UpToSnoc(s: seq<int>, n: int)
    requires UpTo(s, n) && 0 <= n
    ensures UpTo(s + [n], n + 1) && UpTo(s + [], n + 1)
  {
  }

  lemma {:induction false} MissingAscends(have: set<int>, n: int)
    ensures UpTo(Missing(have, n), n)
  {
    if n > 0 {
      hide UpTo;
      MissingAscends(have, n - 1);
      UpToSnoc(Missing(have, n - 1), n - 1);
      MissingStep(have, n);
      hide Missing;
    }
  }

  /** The missing indices are exactly those below n not there, ascending and so each once. */
  lemma {:induction false} MissingIs(have: set<int>, n: int)
    ensures forall i :: i in Missing(have, n) <==> 0 <= i < n && i !in have
    ensures Indices(Missing(have, n)) && Ascending(Missing(have, n))
  {
    MissingMembers(have, n);
    MissingAscends(have, n);
    hide Missing, Ascending, Indices;
  }

  datatype Scaled = BadIndex | Scaled(created: seq<OwnedPod>, complete: bool)

  /**
   * Pods for the leading indices: every creation made worked, and if indices
   * are left over, the next creation failed. Each pod is called by the base
   * name, a dash and its index in decimal, and is labelled with the index.
   */
  ghost predicate FirstThatWork(created: seq<OwnedPod>, base: string, indices: seq<int>, works: nat -> bool)
    requires Indices(indices)
  {
    && |created| <= |indices|
    && (forall j :: 0 <= j < |created| ==>
          works(j) && created[j].name == base + "-" + Itoa(indices[j]) && created[j].tag == Itoa(indices[j]))
    && (|created| < |indices| ==> !works(|created|))
    && created == NewPods(base, indices)[..|created|]
  }

  /** scaleBatchSandbox: index the pods, list what is missing, create until one creation fails. */
  method ScaleBatch(base: string, replicas: int, pods: seq<OwnedPod>, works: nat -> bool) returns (r: Scaled)
    ensures r.BadIndex? <==> !AllParse(pods)
    ensures r.Scaled? ==>
      var missing := Missing(IndicesOf(pods), replicas);
      && Indices(missing)
      && FirstThatWork(r.created, base, missing, works)
      && (r.complete <==> |r.created| == |missing|)
    ensures r.Scaled? && (forall j :: works(j)) ==> r.complete
  {
    hide ParseIndex, NewPod;
    var have: set<int> := {};
    var i := 0;
    while i < |pods|
      invariant 0 <= i <= |pods|
      invariant AllParse(pods[..i]) && have == IndicesOf(pods[..i])
    {
      assert pods[..i + 1][..i] == pods[..i];
      var index := ParseIndex(pods[i]);
      if index.None? {
        return BadIndex;
      }
      have := have + {index.value};
      i := i + 1;
    }
    assert pods[..i] == pods;
    hide IndicesOf;
    var missing := ListMissing(have, replicas);
    MissingIs(have, replicas);
    var created := CreateAll(base, missing, works);
    hide NewPods;
    r := Scaled(created, |created| == |missing|);
  }

  method ListMissing(have: set<int>, replicas: int) returns (missing: seq<int>)
    ensures missing == Missing(have, replicas)
  {
    missing := [];
    var i := 0;
    while i < replicas
      invariant i == 0 || i <= replicas
      invariant 0 <= i && missing == Missing(have, i)
    {
      if i !in have {
        missing := missing + [i];
      }
      i := i + 1;
    }
    if replicas <= 0 {
      assert Missing(have, 0) == Missing(have, replicas);
    }
  }

  method CreateAll(base: string, missing: seq<int>, works: nat -> bool) returns (created: seq<OwnedPod>)
    requires Indices(missing)
    ensures FirstThatWork(created, base, missing, works)
  {
    hide Itoa;
    created := [];
    var i := 0;
    while i < |missing|
      invariant 0 <= i <= |missing|
      invariant (forall j :: 0 <= j < i ==> works(j)) && created == NewPods(base, missing)[..i]
    {
      if !works(i) {
        return;
      }
      created := created + [NewPod(base, missing[i])];
      i := i + 1;
    }
  }

  /** The indices there are those the pods are read to have. */
  lemma {:induction false} IndicesAre(pods: seq<OwnedPod>, i: int)
    ensures i in IndicesOf(pods) <==> exists p :: p in pods && ParseIndex(p) == Some(i)
  {
    hide ParseIndex;
    if pods != [] {
      var n := |pods| - 1;
      IndicesAre(pods[..n], i);
      assert pods == pods[..n] + [pods[n]];
      assert pods[n] in pods;
    }
  }

  lemma {:induction false} IndicesOfConcat(a: seq<OwnedPod>, b: seq<OwnedPod>)
    ensures IndicesOf(a + b) == IndicesOf(a) + IndicesOf(b)
  {
    hide ParseIndex;
    if b == [] {
      assert a + b == a;
    } else {
      assert (a + b)[..|a + b| - 1] == a + b[..|b| - 1];
      IndicesOfConcat(a, b[..|b| - 1]);
    }
  }

  /** Created pods are read back with the indices they were created for. */
  lemma {:induction false} IndicesOfNew(base: string, indices: seq<int>)
    requires Indices(indices) && forall i :: 0 <= i < |indices| ==> indices[i] <= MAX_INT
    ensures IndicesOf(NewPods(base, indices)) == ToSet(indices)
  {
    hide ParseIndex;
    if indices != [] {
      var n := |indices| - 1;
      var pods := NewPods(base, indices);
      IndicesOfNew(base, indices[..n]);
      assert pods[..n] == NewPods(base, indices[..n]);
      ParseInvertsFormat(base, indices[n], pods[n]);
      assert indices == indices[..n] + [indices[n]];
      hide PodNameAt, Itoa;
    }
  }

  /** Filling the first j gaps leaves the others. */
  lemma {:induction false} MissingRest(have: set<int>, n: int, j: nat)
    requires j <= |Missing(have, n)|
    ensures Missing(have + ToSet(Missing(have, n)[..j]), n) == Missing(have, n)[j..]
  {
    if j == |Missing(have, n)| {
      RestNone(have, n);
      assert Missing(have, n)[..j] == Missing(have, n);
    } else {
      MissingStep(have, n);
      MissingRest(have, n - 1, j);
      assert Missing(have, n)[..j] == Missing(have, n - 1)[..j];
      RestBelow(have, n, j);
    }
  }

  lemma {:induction false} RestBelow(have: set<int>, n: int, j: nat)
    requires n > 0 && j <= |Missing(have, n - 1)|
    requires var before := Missing(have, n - 1); Missing(have + ToSet(before[..j]), n - 1) == before[j..]
    ensures Missing(have + ToSet(Missing(have, n - 1)[..j]), n) == Missing(have, n)[j..]
  {
    var before := Missing(have, n - 1);
    var filled := have + ToSet(before[..j]);
    MissingStep(have, n);
    MissingStep(filled, n);
    MissingMembers(have, n - 1);
    hide Missing;
    assert forall x :: x in before[..j] ==> x in before;
    assert n - 1 in filled <==> n - 1 in have;
  }

  lemma {:induction false} RestNone(have: set<int>, n: int)
    ensures Missing(have + ToSet(Missing(have, n)), n) == []
  {
    hide Missing;
    var filled := have + ToSet(Missing(have, n));
    MissingMembers(have, n);
    MissingMembers(filled, n);
    forall i
      ensures i !in Missing(filled, n)
    {
      assert i in Missing(have, n) ==> i in filled;
    }
    EmptyOrHasMember(Missing(filled, n));
  }

  /**
   * If creation stops after the first j missing indices, the next reconcile
   * creates exactly the rest; after all of them it creates none.
   */
  lemma {:induction false} RetryCreatesTheRest(base: string, pods: seq<OwnedPod>, replicas: int, j: nat)
    requires replicas <= MAX_INT && j <= |Missing(IndicesOf(pods), replicas)|
    ensures Indices(Missing(IndicesOf(pods), replicas))
    ensures var missing := Missing(IndicesOf(pods), replicas);
      Missing(IndicesOf(pods + NewPods(base, missing)[..j]), replicas) == missing[j..]
  {
    hide ParseIndex, NewPod, Missing, IndicesOf;
    var missing := Missing(IndicesOf(pods), replicas);
    MissingIs(IndicesOf(pods), replicas);
    var first := missing[..j];
    assert forall i :: 0 <= i < |missing| ==> missing[i] in missing;
    assert NewPods(base, missing)[..j] == NewPods(base, first);
    IndicesOfConcat(pods, NewPods(base, first));
    IndicesOfNew(base, first);
    MissingRest(IndicesOf(pods), replicas, j);
  }

  /** After a complete reconcile every index below the replicas has a pod, and a repeat creates none. */
  lemma {:induction false} ScalingIsComplete(base: string, pods: seq<OwnedPod>, replicas: int)
    requires replicas <= MAX_INT
    ensures Indices(Missing(IndicesOf(pods), replicas))
    ensures var now := IndicesOf(pods + NewPods(base, Missing(IndicesOf(pods), replicas)));
      (forall i :: 0 <= i < replicas ==> i in now) && Missing(now, replicas) == []
  {
    hide ParseIndex, NewPod, Missing, IndicesOf;
    var missing := Missing(IndicesOf(pods), replicas);
    RetryCreatesTheRest(base, pods, replicas, |missing|);
    assert NewPods(base, missing)[..|missing|] == NewPods(base, missing);
    assert missing[|missing|..] == [];
    var now := IndicesOf(pods + NewPods(base, missing));
    MissingIs(now, replicas);
    forall i | 0 <= i < replicas
      ensures i in now
    {
      assert i !in Missing(now, replicas);
    }
  }
}
