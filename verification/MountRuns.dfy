/**
 * OSSFS reference counts over whole runs: the count of a mount key is the
 * number of containers labelled with it, and a key in use stays mounted.
 */
module MountRuns {
  import opened Common
  import opened SandboxRuntime
  import opened ExpirationRuns

  /** The containers labelled with a key. */
  function Users(boxes: map<SandboxId, Box>, k: MountKey): set<SandboxId> {
    set id | id in boxes && k in boxes[id].keys
  }

  ghost predicate Exact(s: State) {
    forall k :: Count(s.mounts, k) == |Users(s.boxes, k)|
  }

  ghost predicate CountedIsMounted(m: Mounts) {
    forall k :: Count(m, k) > 0 ==> k in m.mounted
  }

  /** Labels and cached keys name each key once. */
  ghost predicate KeysOnce(s: State) {
    && (forall id :: id in s.boxes ==> Distinct(s.boxes[id].keys))
    && (forall id :: id in s.timers ==> Distinct(s.timers[id].fallback))
    && (forall cb :: cb in s.waiting ==> Distinct(cb.fallback))
  }

  ghost predicate Inv(s: State) {
    Exact(s) && CountedIsMounted(s.mounts) && KeysOnce(s)
  }

  /** Under the invariant every path a container uses is mounted. */
  lemma {:induction false} UsedIsMounted(s: State, id: SandboxId, k: MountKey)
    requires Inv(s) && id in s.boxes && k in s.boxes[id].keys
    ensures k in s.mounts.mounted && Count(s.mounts, k) > 0
  {
    InUse(s.boxes, id, k);
    assert Count(s.mounts, k) == |Users(s.boxes, k)|;
  }

  lemma {:induction false} InUse(boxes: map<SandboxId, Box>, id: SandboxId, k: MountKey)
    requires id in boxes && k in boxes[id].keys
    ensures |Users(boxes, k)| > 0
  {
    assert id in Users(boxes, k);
  }

  // ------------------------------------------------------------------
  // Taking and releasing references
  // ------------------------------------------------------------------

  lemma {:induction false} EnsureCounts(m: Mounts, k: MountKey, broken: set<MountKey>)
    requires EnsureOne(m, k, broken).Some? && CountedIsMounted(m)
    ensures var t := EnsureOne(m, k, broken).value;
      CountedIsMounted(t) && forall j :: Count(t, j) == Count(m, j) + if j == k then 1 else 0
  {
  }

  lemma {:induction false} ReleaseCounts(m: Mounts, k: MountKey, stuck: set<MountKey>)
    requires CountedIsMounted(m)
    ensures var t := ReleaseOne(m, k, stuck);
      CountedIsMounted(t) && forall j :: Count(t, j) == if j == k then Max(0, Count(m, j) - 1) else Count(m, j)
  {
  }

  /** Releasing distinct keys takes one reference from each that has one, and from no other. */
  lemma {:induction false} ReleaseAllCounts(m: Mounts, keys: seq<MountKey>, stuck: set<MountKey>)
    requires CountedIsMounted(m) && Distinct(keys)
    ensures var t := ReleaseAll(m, keys, stuck);
      CountedIsMounted(t) && forall j :: Count(t, j) == if j in keys then Max(0, Count(m, j) - 1) else Count(m, j)
  {
    hide CountedIsMounted, ReleaseOne, Count;
    if keys != [] {
      var n := |keys| - 1;
      ReleaseAllCounts(m, keys[..n], stuck);
      ReleaseCounts(ReleaseAll(m, keys[..n], stuck), keys[n], stuck);
      assert keys == keys[..n] + [keys[n]];
      assert keys[n] !in keys[..n];
    }
  }

  lemma {:induction false} KeysOfDistinct(volumes: seq<Volume>)
    ensures Distinct(KeysOf(volumes))
  {
    if volumes != [] {
      KeysOfDistinct(volumes[..|volumes| - 1]);
    }
  }

  lemma {:induction false} EnsureAllCounts(m: Mounts, keys: seq<MountKey>, broken: set<MountKey>)
    requires CountedIsMounted(m) && Distinct(keys)
    ensures var p := EnsureAll(m, keys, broken);
      && CountedIsMounted(p.mounts)
      && forall j :: Count(p.mounts, j) == Count(m, j) + if j in keys[..p.taken] then 1 else 0
  {
    hide CountedIsMounted, EnsureOne, Count;
    if keys != [] {
      var n := |keys| - 1;
      EnsureAllCounts(m, keys[..n], broken);
      var before := EnsureAll(m, keys[..n], broken);
      assert keys[..n][..before.taken] == keys[..before.taken];
      if before.taken == n && EnsureOne(before.mounts, keys[n], broken).Some? {
        EnsureCounts(before.mounts, keys[n], broken);
        assert keys[..|keys|] == keys[..n] + [keys[n]];
        assert keys[n] !in keys[..n];
      }
    }
  }

  /** Preparing takes one reference per key, or leaves every count as it was. */
  lemma {:induction false} PrepareCounts(m: Mounts, volumes: seq<Volume>, broken: set<MountKey>, stuck: set<MountKey>)
    requires CountedIsMounted(m)
    ensures var p := Prepare(m, volumes, broken, stuck);
      && CountedIsMounted(p.mounts)
      && (p.keys.None? ==> forall j :: Count(p.mounts, j) == Count(m, j))
      && (p.keys.Some? ==>
            && Distinct(p.keys.value)
            && forall j :: Count(p.mounts, j) == Count(m, j) + if j in p.keys.value then 1 else 0)
  {
    hide CountedIsMounted, EnsureAll, ReleaseAll, Count, KeysOf;
    if Resolvable(volumes) {
      var keys := KeysOf(volumes);
      KeysOfDistinct(volumes);
      EnsureAllCounts(m, keys, broken);
      var p := EnsureAll(m, keys, broken);
      if p.taken == |keys| {
        assert keys[..p.taken] == keys;
      } else {
        ReleaseAllCounts(p.mounts, keys[..p.taken], stuck);
      }
    }
  }

  /** The last reference unmounts unless the command fails; no other path changes. */
  lemma {:induction false} ReleaseUnmounts(m: Mounts, k: MountKey, stuck: set<MountKey>, j: MountKey)
    ensures j in ReleaseOne(m, k, stuck).mounted <==>
      j in m.mounted && !(j == k && Count(m, k) == 1 && k !in stuck)
  {
  }

  /** Releasing distinct keys unmounts exactly those whose last reference goes and whose command works. */
  lemma {:induction false} ReleaseAllUnmounts(m: Mounts, keys: seq<MountKey>, stuck: set<MountKey>, j: MountKey)
    requires CountedIsMounted(m) && Distinct(keys)
    ensures j in ReleaseAll(m, keys, stuck).mounted <==>
      j in m.mounted && !(j in keys && Count(m, j) == 1 && j !in stuck)
  {
    hide CountedIsMounted, ReleaseOne, Count;
    if keys != [] {
      var n := |keys| - 1;
      ReleaseAllUnmounts(m, keys[..n], stuck, j);
      ReleaseAllCounts(m, keys[..n], stuck);
      ReleaseUnmounts(ReleaseAll(m, keys[..n], stuck), keys[n], stuck, j);
      assert keys == keys[..n] + [keys[n]];
      assert keys[n] !in keys[..n];
      hide ReleaseAll;
    }
  }

  // ------------------------------------------------------------------
  // What a request gets
  // ------------------------------------------------------------------

  /** The OSSFS keys of the volumes, all of them, each once, in order of first use. */
  ghost predicate FirstUses(volumes: seq<Volume>, keys: seq<MountKey>) {
    && Distinct(keys)
    && (forall k :: k in keys <==> Ossfs(k) in volumes)
    && (forall a, b :: 0 <= a < b < |keys| ==> UsedBefore(volumes, keys[a], keys[b]))
  }

  ghost predicate UsedBefore(volumes: seq<Volume>, k: MountKey, l: MountKey) {
    exists i :: 0 <= i < |volumes| && volumes[i] == Ossfs(k) && forall j :: 0 <= j <= i ==> volumes[j] != Ossfs(l)
  }

  lemma {:induction false} UsedBeforeGrows(volumes: seq<Volume>, n: nat, k: MountKey, l: MountKey)
    requires n <= |volumes| && UsedBefore(volumes[..n], k, l)
    ensures UsedBefore(volumes, k, l)
  {
    var front := volumes[..n];
    var i :| 0 <= i < |front| && front[i] == Ossfs(k) && forall j :: 0 <= j <= i ==> front[j] != Ossfs(l);
    assert volumes[i] == Ossfs(k) && forall j :: 0 <= j <= i ==> volumes[j] == front[j];
  }

  lemma {:induction false} UsedAlready(volumes: seq<Volume>, n: nat, k: MountKey, l: MountKey)
    requires n < |volumes| && Ossfs(k) in volumes[..n] && Ossfs(l) !in volumes[..n]
    ensures UsedBefore(volumes, k, l)
  {
    var front := volumes[..n];
    var i :| 0 <= i < |front| && front[i] == Ossfs(k);
    assert volumes[i] == Ossfs(k) && forall j :: 0 <= j <= i ==> volumes[j] == front[j] && front[j] in front;
  }

  lemma {:induction false} KeysOfAre(volumes: seq<Volume>)
    ensures FirstUses(volumes, KeysOf(volumes))
  {
    if volumes != [] {
      var n := |volumes| - 1;
      var front, last := volumes[..n], volumes[n];
      KeysOfAre(front);
      var before, keys := KeysOf(front), KeysOf(volumes);
      assert volumes == front + [last];
      assert keys == before || (last.Ossfs? && last.key !in before && keys == before + [last.key]);
      assert last.Ossfs? ==> last.key in keys;
      assert forall k :: k in keys <==> Ossfs(k) in volumes;
      hide KeysOf;
      forall a, b | 0 <= a < b < |keys|
        ensures UsedBefore(volumes, keys[a], keys[b])
      {
        assert keys[a] in before;
        if b < |before| {
          assert UsedBefore(front, before[a], before[b]);
          UsedBeforeGrows(volumes, n, keys[a], keys[b]);
        } else {
          UsedAlready(volumes, n, keys[a], keys[b]);
        }
      }
    }
  }

  /** A key that cannot be mounted: nobody holds it, it is not mounted, and the mount command fails. */
  predicate Blocked(m: Mounts, k: MountKey, broken: set<MountKey>) {
    Count(m, k) == 0 && k !in m.mounted && k in broken
  }

  lemma {:induction false} EnsureElsewhere(m: Mounts, keys: seq<MountKey>, broken: set<MountKey>, k: MountKey)
    requires k !in keys
    ensures Blocked(EnsureAll(m, keys, broken).mounts, k, broken) <==> Blocked(m, k, broken)
  {
    if keys != [] {
      EnsureElsewhere(m, keys[..|keys| - 1], broken, k);
    }
  }

  lemma {:induction false} EnsureFailsIff(m: Mounts, keys: seq<MountKey>, broken: set<MountKey>)
    requires Distinct(keys)
    ensures EnsureAll(m, keys, broken).taken < |keys| <==> exists k :: k in keys && Blocked(m, k, broken)
  {
    if keys != [] {
      var n := |keys| - 1;
      var front, last := keys[..n], keys[n];
      assert keys == front + [last] && last !in front;
      EnsureFailsIff(m, front, broken);
      EnsureElsewhere(m, front, broken, last);
      var before := EnsureAll(m, front, broken);
      assert EnsureOne(before.mounts, last, broken).None? <==> Blocked(before.mounts, last, broken);
      hide Blocked, EnsureOne;
    }
  }

  /**
   * Preparing succeeds unless a volume does not resolve or a wanted key is
   * blocked, and then hands over the keys of all OSSFS volumes.
   */
  lemma {:induction false} PrepareServesTheRequest(m: Mounts, volumes: seq<Volume>, broken: set<MountKey>,
                                                   stuck: set<MountKey>)
    ensures var p := Prepare(m, volumes, broken, stuck);
      && (p.keys.None? <==>
            Unresolvable in volumes || exists k :: Ossfs(k) in volumes && Blocked(m, k, broken))
      && (p.keys.Some? ==> FirstUses(volumes, p.keys.value))
  {
    KeysOfAre(volumes);
    var keys := KeysOf(volumes);
    EnsureFailsIff(m, keys, broken);
    assert Resolvable(volumes) <==> Unresolvable !in volumes;
    hide KeysOf, Blocked, EnsureAll, ReleaseAll, Resolvable;
    if k :| Ossfs(k) in volumes && Blocked(m, k, broken) {
      assert k in keys;
    }
  }

  /** Every OSSFS path of a started sandbox's request is labelled, counted and mounted, and no other is labelled. */
  lemma {:induction false} StartedIsServed(s: State, e: Event, k: MountKey)
    requires Inv(s) && e.Provision? && e.id !in s.boxes && e.start.Started?
    requires Unresolvable !in e.volumes && forall l :: Ossfs(l) in e.volumes ==> !Blocked(s.mounts, l, e.broken)
    ensures var t := Step(s, e);
      && e.id in t.boxes && t.boxes[e.id].expires == e.expires && (t.boxes[e.id].manual <==> e.expires.None?)
      && (k in t.boxes[e.id].keys <==> Ossfs(k) in e.volumes)
      && (Ossfs(k) in e.volumes ==> Count(t.mounts, k) > 0 && k in t.mounts.mounted)
      && (e.expires.Some? ==> e.id in t.expirations && t.expirations[e.id] == e.expires.value && Armed(t, e.id))
  {
    PrepareServesTheRequest(s.mounts, e.volumes, e.broken, e.stuck);
    PrepareCounts(s.mounts, e.volumes, e.broken, e.stuck);
    hide Prepare, Exact, KeysOnce, Blocked, UsedBefore;
  }

  // ------------------------------------------------------------------
  // Containers that come and go
  // ------------------------------------------------------------------

  lemma {:induction false} UsersWithout(boxes: map<SandboxId, Box>, id: SandboxId)
    requires id in boxes
    ensures forall k :: |Users(boxes - {id}, k)| == |Users(boxes, k)| - if k in boxes[id].keys then 1 else 0
  {
    forall k
      ensures |Users(boxes - {id}, k)| == |Users(boxes, k)| - if k in boxes[id].keys then 1 else 0
    {
      assert Users(boxes - {id}, k) == Users(boxes, k) - {id};
    }
  }

  lemma {:induction false} UsersWith(boxes: map<SandboxId, Box>, id: SandboxId, box: Box)
    requires id !in boxes
    ensures forall k :: |Users(boxes[id := box], k)| == |Users(boxes, k)| + if k in box.keys then 1 else 0
  {
    forall k
      ensures |Users(boxes[id := box], k)| == |Users(boxes, k)| + if k in box.keys then 1 else 0
    {
      assert Users(boxes[id := box], k) == Users(boxes, k) + if k in box.keys then {id} else {};
    }
  }

  lemma {:induction false} UsersRelabelled(boxes: map<SandboxId, Box>, id: SandboxId, expires: Option<int>)
    requires id in boxes
    ensures forall k :: Users(boxes[id := boxes[id].(expires := expires)], k) == Users(boxes, k)
  {
  }

  /** Releasing keys with no container going keeps the counts exact iff nobody uses them. */
  lemma {:induction false} ReleaseAloneIff(s: State, t: State, keys: seq<MountKey>, stuck: set<MountKey>)
    requires Inv(s) && Distinct(keys)
    requires t.boxes == s.boxes && t.mounts == ReleaseAll(s.mounts, keys, stuck)
    ensures CountedIsMounted(t.mounts)
    ensures Exact(t) <==> forall k :: k in keys ==> Users(s.boxes, k) == {}
  {
    hide ReleaseAll, Users, CountedIsMounted, Count;
    ReleaseAllCounts(s.mounts, keys, stuck);
    if Exact(t) {
      forall k | k in keys
        ensures Users(s.boxes, k) == {}
      {
        assert Count(t.mounts, k) == |Users(s.boxes, k)| == Count(s.mounts, k);
      }
    }
    if forall k :: k in keys ==> Users(s.boxes, k) == {} {
      forall k
        ensures Count(t.mounts, k) == |Users(t.boxes, k)|
      {
        assert Count(s.mounts, k) == |Users(s.boxes, k)|;
      }
    }
  }

  /** Whether the released keys are those of the container, up to keys nobody uses. */
  ghost predicate Settles(s: State, id: SandboxId, keys: seq<MountKey>)
    requires id in s.boxes
  {
    forall k :: k in s.boxes[id].keys <==> k in keys && Users(s.boxes, k) != {}
  }

  /** Releasing keys as a container goes keeps the counts exact iff they settle its references. */
  lemma {:induction false} ReleaseWithIff(s: State, t: State, id: SandboxId, keys: seq<MountKey>, stuck: set<MountKey>)
    requires Inv(s) && Distinct(keys) && id in s.boxes
    requires t.boxes == s.boxes - {id} && t.mounts == ReleaseAll(s.mounts, keys, stuck)
    ensures CountedIsMounted(t.mounts)
    ensures Exact(t) <==> Settles(s, id, keys)
  {
    ReleaseAllCounts(s.mounts, keys, stuck);
    UsersWithout(s.boxes, id);
    forall k | k in s.boxes[id].keys
      ensures Users(s.boxes, k) != {}
    {
      InUse(s.boxes, id, k);
    }
    hide ReleaseAll, Users, CountedIsMounted, Count;
    if Exact(t) {
      forall k
        ensures k in s.boxes[id].keys <==> k in keys && Users(s.boxes, k) != {}
      {
        assert Count(t.mounts, k) == |Users(t.boxes, k)| && Count(s.mounts, k) == |Users(s.boxes, k)|;
      }
    }
    if Settles(s, id, keys) {
      forall k
        ensures Count(t.mounts, k) == |Users(t.boxes, k)|
      {
        assert Count(s.mounts, k) == |Users(s.boxes, k)|;
        assert k in s.boxes[id].keys <==> k in keys && Users(s.boxes, k) != {};
      }
    }
  }

  lemma {:induction false} OwnKeysSettle(s: State, id: SandboxId)
    requires id in s.boxes
    ensures Settles(s, id, s.boxes[id].keys)
  {
    forall k | k in s.boxes[id].keys
      ensures Users(s.boxes, k) != {}
    {
      InUse(s.boxes, id, k);
    }
  }

  lemma {:induction false} OwnKeysAreUsed(s: State, id: SandboxId)
    requires id in s.boxes
    ensures (forall k :: k in s.boxes[id].keys ==> Users(s.boxes, k) == {}) <==> s.boxes[id].keys == []
  {
    var keys := s.boxes[id].keys;
    if keys != [] {
      assert keys[0] in keys;
      InUse(s.boxes, id, keys[0]);
    }
  }

  // ------------------------------------------------------------------
  // Which steps keep the counts exact
  // ------------------------------------------------------------------

  /** The container goes with its references: it is really removed, or it has none. */
  ghost predicate SafeRemoval(s: State, id: SandboxId, removed: bool)
    requires id in s.boxes
  {
    removed || s.boxes[id].keys == []
  }

  ghost predicate SafeExpire(s: State, cb: Callback, fate: Fate) {
    match fate
    case Unreachable => true
    case Vanishes => if cb.id in s.boxes then Settles(s, cb.id, cb.fallback) else Unused(s, cb.fallback)
    case Reached(removed) =>
      if cb.id !in s.boxes then Unused(s, cb.fallback) else Future(s, cb.id) || SafeRemoval(s, cb.id, removed)
  }

  ghost predicate Unused(s: State, keys: seq<MountKey>) {
    forall k :: k in keys ==> Users(s.boxes, k) == {}
  }

  ghost predicate SafeProvision(s: State, e: Event)
    requires e.Provision?
  {
    var keys := Prepare(s.mounts, e.volumes, e.broken, e.stuck).keys;
    keys.Some? ==>
      match e.start
      case Leftover(true) => Unused(s, keys.value)
      case Leftover(false) => keys.value == []
      case Abandoned => keys.value == []
      case _ => true
  }

  /** The guard of each event, readable off the state before it. */
  ghost predicate SafeStep(s: State, e: Event) {
    match e
    case Expire(cb, fate, _) => SafeExpire(s, cb, fate)
    case Provision(_, _, _, _, _, _) => SafeProvision(s, e)
    case Delete(id, removed, _) => id in s.boxes ==> SafeRemoval(s, id, removed)
    case Restart(list) => list.None? ==> forall id :: id in s.boxes ==> s.boxes[id].keys == []
    case _ => true
  }

  lemma {:induction false} RemovalIff(s: State, t: State, id: SandboxId, removed: bool, stuck: set<MountKey>)
    requires Inv(s) && id in s.boxes
    requires t.boxes == Removal(s, id, removed).boxes && t.mounts == ReleaseAll(s.mounts, s.boxes[id].keys, stuck)
    ensures CountedIsMounted(t.mounts)
    ensures Exact(t) <==> SafeRemoval(s, id, removed)
  {
    hide Exact, CountedIsMounted, ReleaseAll, Users, Settles;
    if removed {
      ReleaseWithIff(s, t, id, s.boxes[id].keys, stuck);
      OwnKeysSettle(s, id);
    } else {
      ReleaseAloneIff(s, t, s.boxes[id].keys, stuck);
      OwnKeysAreUsed(s, id);
    }
  }

  lemma {:induction false} UnusedIs(s: State, keys: seq<MountKey>)
    ensures Unused(s, keys) <==> forall k :: k in keys ==> Users(s.boxes, k) == {}
  {
  }

  lemma {:induction false} ExpireKeepsKeysOnce(s: State, cb: Callback, fate: Fate, stuck: set<MountKey>)
    requires KeysOnce(s) && cb in s.waiting
    ensures KeysOnce(Expired(s, cb, fate, stuck))
  {
    hide ReleaseAll, Distinct;
    if !fate.Unreachable? && !(fate.Reached? && cb.id in s.boxes && Future(s, cb.id)) {
      ExpireUntracks(s, cb, fate, stuck);
      hide Expired;
    }
  }

  lemma {:induction false} ExpireIff(s: State, cb: Callback, fate: Fate, stuck: set<MountKey>)
    requires Inv(s) && cb in s.waiting
    ensures var t := Expired(s, cb, fate, stuck);
      CountedIsMounted(t.mounts) && KeysOnce(t) && (Exact(t) <==> SafeExpire(s, cb, fate))
  {
    ExpireKeepsKeysOnce(s, cb, fate, stuck);
    assert Distinct(cb.fallback);
    hide CountedIsMounted, ReleaseAll, Users, Settles, Distinct, Count, KeysOnce, Unused;
    var t := Expired(s, cb, fate, stuck);
    if fate.Unreachable? || (fate.Reached? && cb.id in s.boxes && Future(s, cb.id)) {
      SameIsExact(s, t);
    } else if cb.id in s.boxes {
      if fate.Vanishes? {
        ReleaseWithIff(s, t, cb.id, cb.fallback, stuck);
      } else {
        RemovalIff(s, t, cb.id, fate.removed, stuck);
      }
    } else {
      assert s.boxes - {cb.id} == s.boxes;
      ReleaseAloneIff(s, t, cb.fallback, stuck);
    }
    assert Unused(s, cb.fallback) <==> forall k :: k in cb.fallback ==> Users(s.boxes, k) == {} by {
      UnusedIs(s, cb.fallback);
    }
    hide Exact, SafeRemoval;
  }

  lemma {:induction false} SameIsExact(s: State, t: State)
    requires Exact(s) && t.boxes == s.boxes && t.mounts == s.mounts
    ensures Exact(t)
  {
  }

  lemma {:induction false} DeleteIff(s: State, id: SandboxId, removed: bool, stuck: set<MountKey>)
    requires Inv(s)
    ensures var t := Deleted(s, id, removed, stuck);
      CountedIsMounted(t.mounts) && KeysOnce(t) && (Exact(t) <==> (id in s.boxes ==> SafeRemoval(s, id, removed)))
  {
    hide CountedIsMounted, ReleaseAll, Users, Distinct, Count;
    if id in s.boxes {
      RemovalIff(s, Deleted(s, id, removed, stuck), id, removed, stuck);
    }
    hide Exact, SafeRemoval;
  }

  lemma {:induction false} RenewKeepsCounts(s: State, id: SandboxId, at: int, labelled: bool)
    requires Inv(s)
    ensures Inv(Renewed(s, id, at, labelled))
  {
    hide CountedIsMounted, Users, Count;
    if Renewable(s, id, at) {
      UsersRelabelled(s.boxes, id, Some(at));
    }
  }

  // ------------------------------------------------------------------
  // Provisioning
  // ------------------------------------------------------------------

  lemma {:induction false} ProvisionIff(s: State, e: Event)
    requires Inv(s) && e.Provision? && e.id !in s.boxes
    ensures var t := Step(s, e);
      CountedIsMounted(t.mounts) && KeysOnce(t) && (Exact(t) <==> SafeProvision(s, e))
  {
    hide CountedIsMounted, ReleaseAll, Prepare, Distinct, Count, Users;
    PrepareCounts(s.mounts, e.volumes, e.broken, e.stuck);
    var p := Prepare(s.mounts, e.volumes, e.broken, e.stuck);
    var t := Step(s, e);
    NoKeysOnce();
    if p.keys.Some? {
      var box := Box(p.keys.value, e.expires, e.expires.None?);
      UsersWith(s.boxes, e.id, box);
      var m1 := ReleaseAll(p.mounts, box.keys, e.stuck);
      ReleaseAllCounts(p.mounts, box.keys, e.stuck);
      ReleaseAllCounts(m1, box.keys, e.stuck);
      match e.start
      case Started =>
      case Failed =>
      case Leftover(removed) =>
        assert forall j :: Count(t.mounts, j) == if j in box.keys then Max(0, Count(s.mounts, j) - 1)
          else Count(s.mounts, j);
        LeftoverIff(s, t, e.id, box, removed);
      case Abandoned =>
        AbandonedIff(s, t, e.id, box);
    }
  }

  lemma {:induction false} NoKeysOnce()
    ensures Distinct<MountKey>([])
  {
  }

  lemma {:induction false} AbandonedIff(s: State, t: State, id: SandboxId, box: Box)
    requires Exact(s) && id !in s.boxes && t.boxes == s.boxes[id := box]
    requires forall j :: Count(t.mounts, j) == Count(s.mounts, j)
    ensures Exact(t) <==> box.keys == []
  {
    UsersWith(s.boxes, id, box);
    hide Users, Count;
    if Exact(t) {
      forall k
        ensures k !in box.keys
      {
        assert Count(t.mounts, k) == |Users(t.boxes, k)| && Count(s.mounts, k) == |Users(s.boxes, k)|;
      }
      EmptyOrHasMember(box.keys);
    } else {
      var k :| Count(t.mounts, k) != |Users(t.boxes, k)|;
      assert Count(s.mounts, k) == |Users(s.boxes, k)|;
    }
  }

  lemma {:induction false} LeftoverIff(s: State, t: State, id: SandboxId, box: Box, removed: bool)
    requires Exact(s) && id !in s.boxes
    requires t.boxes == if removed then s.boxes else s.boxes[id := box]
    requires forall j :: Count(t.mounts, j) == if j in box.keys then Max(0, Count(s.mounts, j) - 1)
      else Count(s.mounts, j)
    ensures Exact(t) <==> if removed then Unused(s, box.keys) else box.keys == []
  {
    UsersWith(s.boxes, id, box);
    hide Users, Count;
    if Exact(t) {
      forall k | k in box.keys
        ensures removed && Users(s.boxes, k) == {}
      {
        assert Count(t.mounts, k) == |Users(t.boxes, k)| && Count(s.mounts, k) == |Users(s.boxes, k)|;
      }
      EmptyOrHasMember(box.keys);
    }
    if if removed then Unused(s, box.keys) else box.keys == [] {
      forall k
        ensures Count(t.mounts, k) == |Users(t.boxes, k)|
      {
        assert Count(s.mounts, k) == |Users(s.boxes, k)|;
      }
    }
  }

  // ------------------------------------------------------------------
  // Restart
  // ------------------------------------------------------------------

  function CountIn(counts: map<MountKey, nat>, k: MountKey): nat {
    if k in counts then counts[k] else 0
  }

  lemma {:induction false} TallyCounts(counts: map<MountKey, nat>, keys: seq<MountKey>)
    requires Distinct(keys)
    ensures forall k :: CountIn(Tally(counts, keys), k) == CountIn(counts, k) + if k in keys then 1 else 0
  {
    if keys != [] {
      var n := |keys| - 1;
      TallyCounts(counts, keys[..n]);
      assert keys == keys[..n] + [keys[n]];
      assert keys[n] !in keys[..n];
    }
  }

  /** The users of a key among the sandboxes listed so far. */
  function UsersListed(list: seq<Listing>, k: MountKey): set<SandboxId> {
    if list == [] then {}
    else
      var l := list[|list| - 1];
      UsersListed(list[..|list| - 1], k) + if l.Sandbox? && k in l.box.keys then {l.id} else {}
  }

  lemma {:induction false} UsersListedAre(list: seq<Listing>, k: MountKey)
    ensures forall id :: id in UsersListed(list, k) <==>
      exists i :: 0 <= i < |list| && list[i].Sandbox? && list[i].id == id && k in list[i].box.keys
  {
    if list != [] {
      var n := |list| - 1;
      var front := list[..n];
      UsersListedAre(front, k);
      forall id
        ensures id in UsersListed(list, k) <==>
          exists i :: 0 <= i < |list| && list[i].Sandbox? && list[i].id == id && k in list[i].box.keys
      {
        if id in UsersListed(front, k) {
          var i :| 0 <= i < |front| && front[i].Sandbox? && front[i].id == id && k in front[i].box.keys;
          assert list[i] == front[i];
        }
        if i :| 0 <= i < |list| && list[i].Sandbox? && list[i].id == id && k in list[i].box.keys {
          if i < n {
            assert front[i] == list[i];
          }
        }
      }
    }
  }

  lemma {:induction false} AllUsersListed(list: seq<Listing>, boxes: map<SandboxId, Box>, k: MountKey)
    requires ListsAll(list, boxes)
    ensures UsersListed(list, k) == Users(boxes, k)
  {
    UsersListedAre(list, k);
    forall id
      ensures id in UsersListed(list, k) <==> id in Users(boxes, k)
    {
      if id in Users(boxes, k) {
        var i :| 0 <= i < |list| && list[i] == Sandbox(id, boxes[id]);
      }
    }
  }

  lemma {:induction false} NotListedBefore(list: seq<Listing>, boxes: map<SandboxId, Box>, n: nat, k: MountKey)
    requires ListsAll(list, boxes) && n < |list| && list[n].Sandbox?
    ensures list[n].id !in UsersListed(list[..n], k)
  {
    UsersListedAre(list[..n], k);
  }

  lemma {:induction false} GatherCountsOne(p: Pass1, l: Listing, k: MountKey)
    requires l.Sandbox? ==> Distinct(l.box.keys)
    ensures CountIn(Gather(p, l).counts, k) == CountIn(p.counts, k) + if l.Sandbox? && k in l.box.keys then 1 else 0
  {
    hide Tally;
    if l.Sandbox? {
      TallyCounts(p.counts, l.box.keys);
    }
  }

  /** Pass 1 counts each key once for every sandbox that uses it. */
  lemma {:induction false} GatherCounts(s: State, list: seq<Listing>, n: nat, k: MountKey)
    requires KeysOnce(s) && ListsAll(list, s.boxes) && n <= |list|
    ensures CountIn(GatherAll(Pass1(map[], Rebooted(s), []), list[..n]).counts, k) == |UsersListed(list[..n], k)|
  {
    hide Gather;
    var start := Pass1(map[], Rebooted(s), []);
    if n == 0 {
      assert list[..0] == [];
    } else {
      GatherCounts(s, list, n - 1, k);
      var l, p := list[n - 1], GatherAll(start, list[..n - 1]);
      assert list[..n][..n - 1] == list[..n - 1];
      assert GatherAll(start, list[..n]) == Gather(p, l);
      assert UsersListed(list[..n], k) ==
        UsersListed(list[..n - 1], k) + if l.Sandbox? && k in l.box.keys then {l.id} else {};
      LabelledOnce(s, list, n - 1);
      if l.Sandbox? {
        NotListedBefore(list, s.boxes, n - 1, k);
      }
      GatherCountsOne(p, l, k);
      hide GatherAll, UsersListed, ListsAll, KeysOnce, CountIn;
    }
  }

  lemma {:induction false} LabelledOnce(s: State, list: seq<Listing>, i: nat)
    requires KeysOnce(s) && ListsAll(list, s.boxes) && i < |list|
    ensures list[i].Sandbox? ==> Distinct(list[i].box.keys)
  {
    hide Distinct;
  }

  lemma {:induction false} GatherShapes(s: State, list: seq<Listing>, n: nat)
    requires KeysOnce(s) && ListsAll(list, s.boxes) && n <= |list|
    ensures var p := GatherAll(Pass1(map[], Rebooted(s), []), list[..n]);
      && (forall id :: id in p.live.timers ==> p.live.timers[id].fallback == [])
      && (forall cb :: cb in p.deferred ==> Distinct(cb.fallback))
  {
    hide Tally, Distinct;
    if n == 0 {
      assert list[..0] == [];
    } else {
      GatherShapes(s, list, n - 1);
      assert list[..n][..n - 1] == list[..n - 1];
      LabelledOnce(s, list, n - 1);
      assert GatherAll(Pass1(map[], Rebooted(s), []), list[..n])
        == Gather(GatherAll(Pass1(map[], Rebooted(s), []), list[..n - 1]), list[n - 1]);
      hide GatherAll, ListsAll, KeysOnce;
    }
  }

  /**
   * Pass 1 rebuilds the exact counts from the labels before anything is
   * released, and every counted path is mounted.
   */
  lemma {:induction false} RestartRebuilds(s: State, list: seq<Listing>)
    requires Inv(s) && ListsAll(list, s.boxes)
    ensures Inv(Listed(s, list))
  {
    var t := Listed(s, list);
    assert list[..|list|] == list;
    GatherBoxes(s, list, |list|);
    GatherShapes(s, list, |list|);
    forall k
      ensures Count(t.mounts, k) == |Users(t.boxes, k)| && (Count(t.mounts, k) > 0 ==> k in t.mounts.mounted)
    {
      GatherCounts(s, list, |list|, k);
      AllUsersListed(list, s.boxes, k);
      assert Count(s.mounts, k) == |Users(s.boxes, k)|;
      hide GatherAll, Users, UsersListed, ListsAll;
    }
    hide GatherAll, ListsAll, Count, Users;
  }

  lemma {:induction false} BlindRestartIff(s: State)
    requires Inv(s)
    ensures var t := Rebooted(s);
      CountedIsMounted(t.mounts) && KeysOnce(t) && (Exact(t) <==> forall id :: id in s.boxes ==> s.boxes[id].keys == [])
  {
    var t := Rebooted(s);
    if Exact(t) {
      forall id | id in s.boxes
        ensures s.boxes[id].keys == []
      {
        forall k
          ensures k !in s.boxes[id].keys
        {
          assert |Users(t.boxes, k)| == Count(t.mounts, k) == 0;
          assert id !in Users(t.boxes, k);
        }
        EmptyOrHasMember(s.boxes[id].keys);
      }
    }
    if forall id :: id in s.boxes ==> s.boxes[id].keys == [] {
      forall k
        ensures |Users(t.boxes, k)| == 0
      {
        assert Users(t.boxes, k) == {};
      }
    }
  }

  // ------------------------------------------------------------------
  // Runs
  // ------------------------------------------------------------------

  lemma {:induction false} ClockOnly(s: State, e: Event)
    requires Inv(s) && Possible(s, e) && (e.Tick? || e.Fire?)
    ensures Inv(Step(s, e))
  {
    hide CountedIsMounted, Users, Count, Distinct;
  }

  /**
   * An event keeps the counts exact if and only if its guard holds; and every
   * event keeps counted paths mounted.
   */
  lemma {:induction false} StepIff(s: State, e: Event)
    requires Inv(s) && Possible(s, e)
    ensures CountedIsMounted(Step(s, e).mounts) && KeysOnce(Step(s, e))
    ensures Exact(Step(s, e)) <==> SafeStep(s, e)
  {
    hide Exact, CountedIsMounted, KeysOnce, SafeExpire, SafeProvision, SafeRemoval, ListsAll, HasWaiting;
    match e
    case Tick(_) => ClockOnly(s, e);
    case Fire(_) => ClockOnly(s, e);
    case Expire(cb, fate, stuck) =>
      ExpireIff(s, cb, fate, stuck);
      hide Expired;
    case Provision(_, _, _, _, _, _) =>
      ProvisionIff(s, e);
      hide Step;
    case Delete(id, removed, stuck) =>
      DeleteIff(s, id, removed, stuck);
      hide Deleted;
    case Renew(id, at, labelled) =>
      RenewKeepsCounts(s, id, at, labelled);
      hide Renewed;
    case Restart(list) =>
      if list.None? {
        BlindRestartIff(s);
      } else {
        RestartRebuilds(s, list.value);
      }
      hide Listed, Rebooted;
  }

  ghost predicate SafeRun(s: State, es: seq<Event>) {
    es == [] || (SafeRun(s, es[..|es| - 1]) && SafeStep(Run(s, es[..|es| - 1]), es[|es| - 1]))
  }

  /**
   * Over every run whose events meet their guards the counts are exact and
   * every key with a positive count is mounted; so no release, not even in the
   * second pass of a restart, unmounts a path that a container uses.
   */
  lemma {:induction false} RunsCountExactly(s: State, es: seq<Event>)
    requires Inv(s) && PossibleRun(s, es) && SafeRun(s, es)
    ensures Inv(Run(s, es))
  {
    hide Exact, CountedIsMounted, KeysOnce, Step, SafeStep, Possible;
    if es != [] {
      RunsCountExactly(s, es[..|es| - 1]);
      StepIff(Run(s, es[..|es| - 1]), es[|es| - 1]);
    }
  }

  // ------------------------------------------------------------------
  // The two passes of a restart
  // ------------------------------------------------------------------

  /** The callback carries the keys of its own container. */
  ghost predicate Carries(s: State, cb: Callback) {
    cb.id in s.boxes && s.boxes[cb.id].keys == cb.fallback
  }

  ghost predicate DeferredFrom(s: State, list: seq<Listing>, cbs: seq<Callback>) {
    && (forall i, j :: 0 <= i < j < |cbs| ==> cbs[i].id != cbs[j].id)
    && (forall i :: 0 <= i < |cbs| ==> Carries(s, cbs[i]) && Sandbox(cbs[i].id, s.boxes[cbs[i].id]) in list)
  }

  lemma {:induction false} DeferOne(s: State, list: seq<Listing>, l: Listing, p: Pass1)
    requires DeferredFrom(s, list, p.deferred)
    requires l.Sandbox? ==> l.id in s.boxes && l.box == s.boxes[l.id] && l !in list
    ensures DeferredFrom(s, list + [l], Gather(p, l).deferred)
  {
    hide Tally;
  }

  lemma {:induction false} DeferredAre(s: State, list: seq<Listing>, n: nat)
    requires ListsAll(list, s.boxes) && n <= |list|
    ensures DeferredFrom(s, list[..n], GatherAll(Pass1(map[], Rebooted(s), []), list[..n]).deferred)
  {
    hide Gather;
    if n == 0 {
      assert list[..0] == [];
    } else {
      DeferredAre(s, list, n - 1);
      assert list[..n][..n - 1] == list[..n - 1];
      assert list[..n] == list[..n - 1] + [list[n - 1]];
      hide DeferredFrom;
      DeferOne(s, list[..n - 1], list[n - 1], GatherAll(Pass1(map[], Rebooted(s), []), list[..n - 1]));
      hide ListsAll;
    }
  }

  /** The callbacks still to run, in order, each carrying its container's keys. */
  ghost predicate Remaining(s: State, cbs: seq<Callback>) {
    && s.waiting == multiset(cbs)
    && (forall i, j :: 0 <= i < j < |cbs| ==> cbs[i].id != cbs[j].id)
    && (forall i :: 0 <= i < |cbs| ==> Carries(s, cbs[i]))
  }

  lemma {:induction false} OtherBoxesStay(s: State, cb: Callback, fate: Fate, stuck: set<MountKey>)
    ensures forall x :: x in s.boxes && x != cb.id ==>
      x in Expired(s, cb, fate, stuck).boxes && Expired(s, cb, fate, stuck).boxes[x] == s.boxes[x]
    ensures Expired(s, cb, fate, stuck).waiting == s.waiting - multiset{cb}
  {
    hide ReleaseAll;
  }

  lemma {:induction false} CarriedIsSafe(s: State, cb: Callback, fate: Fate, stuck: set<MountKey>)
    requires Inv(s) && cb in s.waiting && Carries(s, cb) && fate != Reached(false)
    ensures Inv(Expired(s, cb, fate, stuck))
  {
    ExpireIff(s, cb, fate, stuck);
    OwnKeysSettle(s, cb.id);
    hide Expired, Exact, CountedIsMounted, KeysOnce, Settles, Unused;
  }

  lemma {:induction false} PopFirst(cbs: seq<Callback>)
    requires cbs != []
    ensures multiset(cbs) - multiset{cbs[0]} == multiset(cbs[1..])
  {
    assert cbs == [cbs[0]] + cbs[1..];
  }

  lemma {:induction false} SweepOne(s: State, cbs: seq<Callback>, fate: Fate, stuck: set<MountKey>)
    requires Inv(s) && cbs != [] && Remaining(s, cbs) && fate != Reached(false)
    ensures Inv(Expired(s, cbs[0], fate, stuck)) && Remaining(Expired(s, cbs[0], fate, stuck), cbs[1..])
  {
    hide Inv, Expired;
    var cb, rest, t := cbs[0], cbs[1..], Expired(s, cbs[0], fate, stuck);
    assert cb in s.waiting && Carries(s, cb) by {
      assert cb in cbs;
    }
    CarriedIsSafe(s, cb, fate, stuck);
    OtherBoxesStay(s, cb, fate, stuck);
    PopFirst(cbs);
    forall i | 0 <= i < |rest|
      ensures Carries(t, rest[i])
    {
      assert rest[i] == cbs[i + 1] && Carries(s, cbs[i + 1]);
    }
  }

  lemma {:induction false} SweepSome(s: State, cbs: seq<Callback>, fates: nat -> Fate, stuck: set<MountKey>, n: nat)
    requires Inv(s) && Remaining(s, cbs) && n <= |cbs| && forall i :: fates(i) != Reached(false)
    ensures var t := Run(s, Sweep(cbs, fates, stuck)[..n]); Inv(t) && Remaining(t, cbs[n..])
  {
    hide Inv, Remaining, Step;
    var events := Sweep(cbs, fates, stuck);
    if n == 0 {
      assert events[..0] == [] && cbs[0..] == cbs;
      RunNone(s);
    } else {
      SweepSome(s, cbs, fates, stuck, n - 1);
      RunOneMore(s, events, n - 1);
      hide Run;
      var t := Run(s, events[..n - 1]);
      assert cbs[n - 1..][0] == cbs[n - 1] && cbs[n - 1..][1..] == cbs[n..];
      SweepOne(t, cbs[n - 1..], fates(n - 1), stuck);
      ExpireStep(t, cbs[n - 1], fates(n - 1), stuck);
    }
  }

  lemma {:induction false} ExpireStep(s: State, cb: Callback, fate: Fate, stuck: set<MountKey>)
    ensures Step(s, Expire(cb, fate, stuck)) == Expired(s, cb, fate, stuck)
  {
  }

  lemma {:induction false} ListedRemaining(s: State, list: seq<Listing>)
    requires ListsAll(list, s.boxes)
    ensures Remaining(Listed(s, list), Deferred(s, list))
  {
    DeferredAre(s, list, |list|);
    GatherBoxes(s, list, |list|);
    assert list[..|list|] == list;
    hide GatherAll, ListsAll;
  }

  /**
   * A restart whose removals work keeps the counts exact through both passes:
   * whichever expired sandboxes are removed, have vanished or cannot be
   * reached, every path of every container that is left stays mounted.
   */
  lemma {:induction false} RestoreKeepsSurvivorsMounted(s: State, list: seq<Listing>, fates: nat -> Fate,
                                                        stuck: set<MountKey>)
    requires Inv(s) && ListsAll(list, s.boxes) && forall i :: fates(i) != Reached(false)
    ensures var t := Run(Listed(s, list), Sweep(Deferred(s, list), fates, stuck));
      Inv(t) && forall id, k :: id in t.boxes && k in t.boxes[id].keys ==> k in t.mounts.mounted
  {
    hide Run, Listed, Deferred, ListsAll, Inv, Remaining;
    var start, cbs := Listed(s, list), Deferred(s, list);
    RestartRebuilds(s, list);
    ListedRemaining(s, list);
    var events := Sweep(cbs, fates, stuck);
    assert events[..|cbs|] == events;
    SweepSome(start, cbs, fates, stuck, |cbs|);
    var t := Run(start, events);
    forall id, k | id in t.boxes && k in t.boxes[id].keys
      ensures k in t.mounts.mounted
    {
      UsedIsMounted(t, id, k);
    }
  }

  // ------------------------------------------------------------------
  // When the guards hold
  // ------------------------------------------------------------------

  /** Cached keys belong to a container that is still there and is labelled with them. */
  ghost predicate CachedOf(s: State, id: SandboxId, keys: seq<MountKey>) {
    keys != [] ==> id in s.boxes && s.boxes[id].keys == keys
  }

  ghost predicate CachesLive(s: State) {
    && (forall cb :: cb in s.waiting ==> CachedOf(s, cb.id, cb.fallback))
    && (forall id :: Armed(s, id) ==> CachedOf(s, id, s.timers[id].fallback))
  }

  /** No started callback of the sandbox carries cached keys. */
  ghost predicate NoCache(waiting: multiset<Callback>, id: SandboxId) {
    forall cb :: cb in waiting && cb.id == id ==> cb.fallback == []
  }

  /**
   * Docker does what it is told, and a sandbox is not removed by one hand
   * while a callback with its cached keys has started in another.
   */
  ghost predicate Careful(s: State, e: Event) {
    match e
    case Expire(cb, fate, _) =>
      && (fate.Reached? ==> fate.removed)
      && (fate.Vanishes? && cb.id in s.boxes ==> cb.fallback == s.boxes[cb.id].keys)
      && (fate.Unreachable? || (Future(s, cb.id) && fate.Reached?) || NoCache(s.waiting - multiset{cb}, cb.id))
    case Provision(_, _, _, start, _, _) => start.Started? || start.Failed?
    case Delete(id, removed, _) => removed && NoCache(s.waiting, id)
    case Restart(list) => list.Some?
    case _ => true
  }

  lemma {:induction false} CarefulIsSafe(s: State, e: Event)
    requires CachesLive(s) && Possible(s, e) && Careful(s, e)
    ensures SafeStep(s, e)
  {
    hide Prepare, Users, ListsAll, NoCache, HasWaiting, Settles;
    if e.Expire? && e.fate.Vanishes? && e.callback.id in s.boxes {
      OwnKeysSettle(s, e.callback.id);
    }
    if e.Expire? {
      assert CachedOf(s, e.callback.id, e.callback.fallback);
    }
  }

  lemma {:induction false} ExpireKeepsCaches(s: State, cb: Callback, fate: Fate, stuck: set<MountKey>)
    requires CachesLive(s) && cb in s.waiting && Careful(s, Expire(cb, fate, stuck))
    ensures CachesLive(Expired(s, cb, fate, stuck))
  {
    hide ReleaseAll;
    assert CachedOf(s, cb.id, cb.fallback);
    if !fate.Unreachable? && !(fate.Reached? && cb.id in s.boxes && Future(s, cb.id)) {
      RemovalKeepsCaches(s, cb, fate, stuck);
      hide Expired, CachesLive;
    } else {
      var t := Expired(s, cb, fate, stuck);
      forall x | x in t.waiting
        ensures CachedOf(t, x.id, x.fallback)
      {
        assert x in s.waiting;
      }
    }
  }

  lemma {:induction false} RemovalKeepsCaches(s: State, cb: Callback, fate: Fate, stuck: set<MountKey>)
    requires CachesLive(s) && cb in s.waiting
    requires fate.Vanishes? || (fate.Reached? && (cb.id !in s.boxes || !Future(s, cb.id)))
    requires NoCache(s.waiting - multiset{cb}, cb.id)
    ensures CachesLive(Expired(s, cb, fate, stuck))
  {
    ExpireUntracks(s, cb, fate, stuck);
    ExpireTakes(s, cb, fate, stuck);
    hide Expired;
    var t := Expired(s, cb, fate, stuck);
    forall x | x in t.waiting
      ensures CachedOf(t, x.id, x.fallback)
    {
      assert x in s.waiting;
    }
  }

  lemma {:induction false} ExpireTakes(s: State, cb: Callback, fate: Fate, stuck: set<MountKey>)
    requires fate.Vanishes? || (fate.Reached? && (cb.id !in s.boxes || !Future(s, cb.id)))
    ensures forall x :: x in s.boxes && x != cb.id ==> x in Expired(s, cb, fate, stuck).boxes
  {
    hide ReleaseAll;
  }

  /** What pass 1 hands on: timers without cached keys, callbacks with the keys of their labels. */
  ghost predicate CachesOf(s: State, p: Pass1) {
    && (forall id :: id in p.live.timers ==> p.live.timers[id].fallback == [])
    && (forall cb :: cb in p.deferred ==> CachedOf(s, cb.id, cb.fallback))
  }

  lemma {:induction false} GatherOneCaches(s: State, p: Pass1, l: Listing)
    requires l.Sandbox? ==> CachedOf(s, l.id, l.box.keys)
    requires CachesOf(s, p)
    ensures CachesOf(s, Gather(p, l))
  {
    hide Tally, CachedOf;
  }

  lemma {:induction false} GatherCaches(s: State, list: seq<Listing>, n: nat)
    requires ListsAll(list, s.boxes) && n <= |list|
    ensures CachesOf(s, GatherAll(Pass1(map[], Rebooted(s), []), list[..n]))
  {
    hide Gather;
    if n == 0 {
      assert list[..0] == [];
    } else {
      GatherCaches(s, list, n - 1);
      assert list[..n][..n - 1] == list[..n - 1];
      assert list[n - 1].Sandbox? ==> CachedOf(s, list[n - 1].id, list[n - 1].box.keys);
      hide CachesOf;
      GatherOneCaches(s, GatherAll(Pass1(map[], Rebooted(s), []), list[..n - 1]), list[n - 1]);
      hide ListsAll, CachedOf;
    }
  }

  lemma {:induction false} ListedKeepsCaches(s: State, list: seq<Listing>)
    requires ListsAll(list, s.boxes)
    ensures CachesLive(Listed(s, list))
  {
    assert list[..|list|] == list;
    GatherCaches(s, list, |list|);
    GatherBoxes(s, list, |list|);
    hide GatherAll, ListsAll;
  }

  /** Caches stay live while their containers keep their keys. */
  lemma {:induction false} SameCaches(s: State, t: State)
    requires CachesLive(s)
    requires t.waiting <= s.waiting
    requires forall id :: Armed(t, id) ==>
      t.timers[id].fallback == [] || (Armed(s, id) && t.timers[id].fallback == s.timers[id].fallback)
    requires forall id :: id in s.boxes ==> id in t.boxes && t.boxes[id].keys == s.boxes[id].keys
    ensures CachesLive(t)
  {
    forall cb | cb in t.waiting
      ensures CachedOf(t, cb.id, cb.fallback)
    {
      assert cb in s.waiting;
    }
  }

  lemma {:induction false} FireKeepsCaches(s: State, id: SandboxId)
    requires CachesLive(s) && Armed(s, id)
    ensures CachesLive(Fired(s, id))
  {
    var t := Fired(s, id);
    assert CachedOf(s, id, s.timers[id].fallback);
    forall cb | cb in t.waiting
      ensures CachedOf(t, cb.id, cb.fallback)
    {
      assert cb in s.waiting || cb == Callback(id, s.timers[id].fallback);
    }
  }

  lemma {:induction false} DeleteKeepsCaches(s: State, id: SandboxId, stuck: set<MountKey>)
    requires CachesLive(s) && NoCache(s.waiting, id)
    ensures CachesLive(Deleted(s, id, true, stuck))
  {
    hide ReleaseAll;
    var t := Deleted(s, id, true, stuck);
    forall cb | cb in t.waiting
      ensures CachedOf(t, cb.id, cb.fallback)
    {
      assert cb in s.waiting;
    }
  }

  lemma {:induction false} CarefulKeepsCaches(s: State, e: Event)
    requires CachesLive(s) && Possible(s, e) && Careful(s, e)
    ensures CachesLive(Step(s, e))
  {
    hide Prepare, ReleaseAll, GatherAll, ListsAll, HasWaiting, Expired, Listed, Deleted, Fired, CachesLive, NoCache;
    match e
    case Expire(cb, fate, stuck) => ExpireKeepsCaches(s, cb, fate, stuck);
    case Restart(list) => ListedKeepsCaches(s, list.value);
    case Delete(id, removed, stuck) => DeleteKeepsCaches(s, id, stuck);
    case Provision(id, volumes, expires, start, broken, stuck) => SameCaches(s, Step(s, e));
    case Renew(id, at, labelled) => SameCaches(s, Step(s, e));
    case Fire(id) => FireKeepsCaches(s, id);
    case Tick(seconds) => SameCaches(s, Step(s, e));
  }

  ghost predicate CarefulRun(s: State, es: seq<Event>) {
    es == [] || (CarefulRun(s, es[..|es| - 1]) && Careful(Run(s, es[..|es| - 1]), es[|es| - 1]))
  }

  /** Runs in which Docker does what it is told count exactly. */
  lemma {:induction false} CarefulRunsCountExactly(s: State, es: seq<Event>)
    requires Inv(s) && CachesLive(s) && PossibleRun(s, es) && CarefulRun(s, es)
    ensures Inv(Run(s, es)) && CachesLive(Run(s, es))
  {
    hide Exact, CountedIsMounted, KeysOnce, Step, SafeStep, Possible, Careful, CachesLive;
    if es != [] {
      var before, e := Run(s, es[..|es| - 1]), es[|es| - 1];
      CarefulRunsCountExactly(s, es[..|es| - 1]);
      CarefulIsSafe(before, e);
      CarefulKeepsCaches(before, e);
      StepIff(before, e);
    }
  }
}
