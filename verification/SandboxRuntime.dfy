/**
 * Bookkeeping of the Docker runtime: reference counts of OSSFS mounts,
 * expiration timers and the two-pass restore after a restart.
 *
 * Mount and unmount commands, container removals and container queries are
 * parameters that work or fail.
 */
module SandboxRuntime {
  import opened Common

  datatype SandboxId = SandboxId(text: string)
  datatype MountKey = MountKey(path: string)

  // ------------------------------------------------------------------
  // Mounts
  // ------------------------------------------------------------------

  /** Reference counts of this process and the mount points of the host. */
  datatype Mounts = Mounts(counts: map<MountKey, nat>, mounted: set<MountKey>)

  function Count(m: Mounts, k: MountKey): nat {
    if k in m.counts then m.counts[k] else 0
  }

  /** One more reference; None if the path cannot be mounted. */
  function EnsureOne(m: Mounts, k: MountKey, broken: set<MountKey>): Option<Mounts> {
    if Count(m, k) > 0 then Some(m.(counts := m.counts[k := Count(m, k) + 1]))
    else if k in m.mounted || k !in broken then Some(Mounts(m.counts[k := 1], m.mounted + {k}))
    else None
  }

  /** One reference less; the last one unmounts unless the command fails. */
  function ReleaseOne(m: Mounts, k: MountKey, stuck: set<MountKey>): Mounts {
    if Count(m, k) == 0 then m
    else if Count(m, k) == 1 then Mounts(m.counts - {k}, if k in stuck then m.mounted else m.mounted - {k})
    else m.(counts := m.counts[k := Count(m, k) - 1])
  }

  function ReleaseAll(m: Mounts, keys: seq<MountKey>, stuck: set<MountKey>): Mounts {
    if keys == [] then m else ReleaseOne(ReleaseAll(m, keys[..|keys| - 1], stuck), keys[|keys| - 1], stuck)
  }

  /** A volume of a request; the path of an OSSFS volume may not resolve. */
  datatype Volume = OtherVolume | Unresolvable | Ossfs(key: MountKey)

  /** The mount keys of the volumes, each once, in order of first use. */
  function KeysOf(volumes: seq<Volume>): seq<MountKey> {
    if volumes == [] then []
    else
      var n := |volumes| - 1;
      var before := KeysOf(volumes[..n]);
      if volumes[n].Ossfs? && volumes[n].key !in before then before + [volumes[n].key] else before
  }

  predicate Resolvable(volumes: seq<Volume>) {
    forall i :: 0 <= i < |volumes| ==> !volumes[i].Unresolvable?
  }

  /** The references taken before the first failure, and how many there are. */
  datatype Progress = Progress(mounts: Mounts, taken: nat)

  function EnsureAll(m: Mounts, keys: seq<MountKey>, broken: set<MountKey>): (r: Progress)
    ensures r.taken <= |keys|
  {
    if keys == [] then Progress(m, 0)
    else
      var n := |keys| - 1;
      var before := EnsureAll(m, keys[..n], broken);
      if before.taken < n then before
      else
        var next := EnsureOne(before.mounts, keys[n], broken);
        if next.Some? then Progress(next.value, |keys|) else before
  }

  datatype Prepared = Prepared(mounts: Mounts, keys: Option<seq<MountKey>>)

  /** All references or, after a rollback, none. */
  function Prepare(m: Mounts, volumes: seq<Volume>, broken: set<MountKey>, stuck: set<MountKey>): Prepared {
    if !Resolvable(volumes) then Prepared(m, None)
    else
      var keys := KeysOf(volumes);
      var p := EnsureAll(m, keys, broken);
      if p.taken == |keys| then Prepared(p.mounts, Some(keys))
      else Prepared(ReleaseAll(p.mounts, keys[..p.taken], stuck), None)
  }

  // ------------------------------------------------------------------
  // State
  // ------------------------------------------------------------------

  /** A container with its labels: mount keys, expiry, and whether cleanup is manual. */
  datatype Box = Box(keys: seq<MountKey>, expires: Option<int>, manual: bool)

  /** An entry of the timer table. It stays there after the timer has fired. */
  datatype Timer = Timer(at: int, fallback: seq<MountKey>, fired: bool)

  /** A callback that has started and may run late. */
  datatype Callback = Callback(id: SandboxId, fallback: seq<MountKey>)

  datatype State = State(
    now: int,
    boxes: map<SandboxId, Box>,
    mounts: Mounts,
    expirations: map<SandboxId, int>,
    timers: map<SandboxId, Timer>,
    waiting: multiset<Callback>)

  const RETRY := 30

  function Schedule(s: State, id: SandboxId, at: int, tracked: bool, fallback: seq<MountKey>): State {
    s.(expirations := if tracked then s.expirations[id := at] else s.expirations,
       timers := s.timers[id := Timer(Max(s.now, at), fallback, false)])
  }

  function Untrack(s: State, id: SandboxId): State {
    s.(expirations := s.expirations - {id}, timers := s.timers - {id})
  }

  function Release(s: State, keys: seq<MountKey>, stuck: set<MountKey>): State {
    s.(mounts := ReleaseAll(s.mounts, keys, stuck))
  }

  predicate Future(s: State, id: SandboxId) {
    id in s.expirations && s.expirations[id] > s.now
  }

  /** What a callback meets: a failing query, a container that is just gone, or a container and its removal. */
  datatype Fate = Unreachable | Vanishes | Reached(removed: bool)

  function Removal(s: State, id: SandboxId, removed: bool): State {
    if removed then s.(boxes := s.boxes - {id}) else s
  }

  /** The body of an expiry callback. */
  function ExpireBody(s: State, cb: Callback, fate: Fate, stuck: set<MountKey>): State {
    var id := cb.id;
    if fate.Unreachable? then
      (if Future(s, id) then s else Schedule(s, id, s.now + RETRY, false, cb.fallback))
    else if fate.Vanishes? || id !in s.boxes then
      Release(Untrack(Removal(s, id, true), id), cb.fallback, stuck)
    else if Future(s, id) then s
    else Release(Untrack(Removal(s, id, fate.removed), id), s.boxes[id].keys, stuck)
  }

  function Expired(s: State, cb: Callback, fate: Fate, stuck: set<MountKey>): State {
    ExpireBody(s.(waiting := s.waiting - multiset{cb}), cb, fate, stuck)
  }

  function Deleted(s: State, id: SandboxId, removed: bool, stuck: set<MountKey>): State {
    if id !in s.boxes then s else Release(Untrack(Removal(s, id, removed), id), s.boxes[id].keys, stuck)
  }

  predicate Renewable(s: State, id: SandboxId, at: int) {
    id in s.boxes && at > s.now && !s.boxes[id].manual && (id in s.expirations || s.boxes[id].expires.Some?)
  }

  function Renewed(s: State, id: SandboxId, at: int, labelled: bool): State {
    if !Renewable(s, id, at) then s
    else
      var t := Schedule(s, id, at, true, []);
      if labelled then t.(boxes := t.boxes[id := t.boxes[id].(expires := Some(at))]) else t
  }

  /**
   * How starting the container ends. A failure may leave a container behind;
   * the asynchronous worker then tries to remove it and releases its keys once
   * more, the synchronous path abandons it.
   */
  datatype Start = Started | Failed | Leftover(removed: bool) | Abandoned

  function Provisioned(s: State, id: SandboxId, volumes: seq<Volume>, expires: Option<int>, start: Start,
                       broken: set<MountKey>, stuck: set<MountKey>): State {
    var p := Prepare(s.mounts, volumes, broken, stuck);
    var t := s.(mounts := p.mounts);
    if p.keys.None? then t
    else
      var box := Box(p.keys.value, expires, expires.None?);
      match start
      case Started =>
        var u := t.(boxes := t.boxes[id := box]);
        if expires.Some? then Schedule(u, id, expires.value, true, []) else u
      case Failed => Release(t, box.keys, stuck)
      case Leftover(removed) =>
        var u := Release(Release(t, box.keys, stuck), box.keys, stuck);
        if removed then u else u.(boxes := u.boxes[id := box])
      case Abandoned =>
        var u := Release(t, box.keys, stuck);
        u.(boxes := u.boxes[id := box])
  }

  // ------------------------------------------------------------------
  // Restart
  // ------------------------------------------------------------------

  /** One line of the container listing. */
  datatype Listing = Sidecar | Foreign | Sandbox(id: SandboxId, box: Box)

  function Tally(counts: map<MountKey, nat>, keys: seq<MountKey>): map<MountKey, nat> {
    if keys == [] then counts
    else
      var before := Tally(counts, keys[..|keys| - 1]);
      var k := keys[|keys| - 1];
      before[k := (if k in before then before[k] else 0) + 1]
  }

  /** What pass 1 has gathered. */
  datatype Pass1 = Pass1(counts: map<MountKey, nat>, live: State, deferred: seq<Callback>)

  function Gather(p: Pass1, l: Listing): Pass1 {
    if !l.Sandbox? then p
    else
      var q := p.(counts := Tally(p.counts, l.box.keys));
      if l.box.expires.None? then q
      else if l.box.expires.value <= p.live.now then q.(deferred := q.deferred + [Callback(l.id, l.box.keys)])
      else q.(live := Schedule(q.live, l.id, l.box.expires.value, true, []))
  }

  function GatherAll(p: Pass1, list: seq<Listing>): Pass1 {
    if list == [] then p else Gather(GatherAll(p, list[..|list| - 1]), list[|list| - 1])
  }

  /** A new process knows nothing; containers and mount points are still there. */
  function Rebooted(s: State): State {
    State(s.now, s.boxes, Mounts(map[], s.mounts.mounted), map[], map[], multiset{})
  }

  /** After pass 1, the expired sandboxes wait with their cached keys for pass 2. */
  function Listed(s: State, list: seq<Listing>): State {
    var p := GatherAll(Pass1(map[], Rebooted(s), []), list);
    p.live.(mounts := Mounts(p.counts, s.mounts.mounted), waiting := multiset(p.deferred))
  }

  // ------------------------------------------------------------------
  // Events
  // ------------------------------------------------------------------

  datatype Event =
    | Tick(seconds: nat)
    | Fire(id: SandboxId)
    | Expire(callback: Callback, fate: Fate, stuck: set<MountKey>)
    | Provision(id: SandboxId, volumes: seq<Volume>, expires: Option<int>, start: Start, broken: set<MountKey>,
                stuck: set<MountKey>)
    | Delete(id: SandboxId, removed: bool, stuck: set<MountKey>)
    | Renew(id: SandboxId, at: int, labelled: bool)
    | Restart(list: Option<seq<Listing>>)

  predicate Armed(s: State, id: SandboxId) {
    id in s.timers && !s.timers[id].fired
  }

  function Fired(s: State, id: SandboxId): State
    requires id in s.timers
  {
    var t := s.timers[id];
    s.(timers := s.timers[id := t.(fired := true)], waiting := s.waiting + multiset{Callback(id, t.fallback)})
  }

  function Step(s: State, e: Event): State {
    match e
    case Tick(seconds) => s.(now := s.now + seconds)
    case Fire(id) => if Armed(s, id) then Fired(s, id) else s
    case Expire(cb, fate, stuck) => Expired(s, cb, fate, stuck)
    case Provision(id, volumes, expires, start, broken, stuck) =>
      Provisioned(s, id, volumes, expires, start, broken, stuck)
    case Delete(id, removed, stuck) => Deleted(s, id, removed, stuck)
    case Renew(id, at, labelled) => Renewed(s, id, at, labelled)
    case Restart(list) => if list.None? then Rebooted(s) else Listed(s, list.value)
  }

  function Run(s: State, es: seq<Event>): State {
    if es == [] then s else Step(Run(s, es[..|es| - 1]), es[|es| - 1])
  }

  function Deferred(s: State, list: seq<Listing>): seq<Callback> {
    GatherAll(Pass1(map[], Rebooted(s), []), list).deferred
  }

  /** Pass 2 runs the deferred callbacks in order. */
  function Sweep(cbs: seq<Callback>, fates: nat -> Fate, stuck: set<MountKey>): seq<Event> {
    seq(|cbs|, i requires 0 <= i < |cbs| => Expire(cbs[i], fates(i), stuck))
  }

  // ------------------------------------------------------------------
  // The runtime
  // ------------------------------------------------------------------

  class Runtime {
    var now: int
    var boxes: map<SandboxId, Box>
    var counts: map<MountKey, nat>
    var mounted: set<MountKey>
    var expirations: map<SandboxId, int>
    var timers: map<SandboxId, Timer>
    var waiting: multiset<Callback>

    constructor ()
      ensures Now() == State(0, map[], Mounts(map[], {}), map[], map[], multiset{})
    {
      now, boxes, counts, mounted, expirations, timers, waiting := 0, map[], map[], {}, map[], map[], multiset{};
    }

    function Now(): State
      reads this
    {
      State(now, boxes, Mounts(counts, mounted), expirations, timers, waiting)
    }

    /** _ensure_ossfs_mounted, for a volume. */
    method EnsureMounted(k: MountKey, broken: set<MountKey>) returns (ok: bool)
      modifies this`counts, this`mounted
      ensures ok <==> EnsureOne(old(Now()).mounts, k, broken).Some?
      ensures Mounts(counts, mounted) == if ok then EnsureOne(old(Now()).mounts, k, broken).value else old(Now()).mounts
    {
      var current := if k in counts then counts[k] else 0;
      if current > 0 {
        counts := counts[k := current + 1];
        return true;
      }
      if k !in mounted {
        if k in broken {
          return false;
        }
        mounted := mounted + {k};
      }
      counts := counts[k := 1];
      assert mounted == old(mounted) + {k};
      ok := true;
    }

    /** _release_ossfs_mount. */
    method ReleaseMount(k: MountKey, stuck: set<MountKey>)
      modifies this`counts, this`mounted
      ensures Mounts(counts, mounted) == ReleaseOne(old(Now()).mounts, k, stuck)
    {
      var current := if k in counts then counts[k] else 0;
      if current == 0 {
        return;
      }
      if current == 1 {
        counts := counts - {k};
        if k in mounted && k !in stuck {
          mounted := mounted - {k};
        }
        assert mounted == if k in stuck then old(mounted) else old(mounted) - {k};
      } else {
        counts := counts[k := current - 1];
      }
    }

    /** _release_ossfs_mounts goes on after a failed unmount. */
    method ReleaseMounts(keys: seq<MountKey>, stuck: set<MountKey>)
      modifies this`counts, this`mounted
      ensures Mounts(counts, mounted) == ReleaseAll(old(Now()).mounts, keys, stuck)
    {
      hide ReleaseOne;
      var i := 0;
      while i < |keys|
        invariant 0 <= i <= |keys|
        invariant Mounts(counts, mounted) == ReleaseAll(old(Now()).mounts, keys[..i], stuck)
      {
        ReleaseMount(keys[i], stuck);
        assert keys[..i + 1][..i] == keys[..i];
        i := i + 1;
      }
      assert keys[..i] == keys;
    }

    /** _prepare_ossfs_mounts: resolve every path, then mount, and roll back on failure. */
    method PrepareMounts(volumes: seq<Volume>, broken: set<MountKey>, stuck: set<MountKey>)
      returns (keys: Option<seq<MountKey>>)
      modifies this`counts, this`mounted
      ensures Prepared(Mounts(counts, mounted), keys) == Prepare(old(Now()).mounts, volumes, broken, stuck)
    {
      hide EnsureOne, ReleaseAll;
      var wanted := CollectKeys(volumes);
      if wanted.None? {
        return None;
      }
      var ks := wanted.value;
      var i := 0;
      while i < |ks|
        invariant 0 <= i <= |ks|
        invariant EnsureAll(old(Now()).mounts, ks[..i], broken) == Progress(Mounts(counts, mounted), i)
      {
        assert ks[..i + 1][..i] == ks[..i];
        var ok := EnsureMounted(ks[i], broken);
        if !ok {
          EnsureStops(old(Now()).mounts, ks, i + 1, broken);
          ReleaseMounts(ks[..i], stuck);
          return None;
        }
        i := i + 1;
      }
      assert ks[..i] == ks;
      keys := Some(ks);
    }

    /** _schedule_expiration replaces the timer of the sandbox. */
    method ScheduleExpiration(id: SandboxId, at: int, tracked: bool, fallback: seq<MountKey>)
      modifies this`expirations, this`timers
      ensures Now() == Schedule(old(Now()), id, at, tracked, fallback)
    {
      var delay := Max(0, at - now);
      timers := timers - {id};
      if tracked {
        expirations := expirations[id := at];
      }
      timers := timers[id := Timer(now + delay, fallback, false)];
      assert timers == old(timers)[id := Timer(Max(now, at), fallback, false)];
    }

    /** _remove_expiration_tracking. */
    method RemoveExpirationTracking(id: SandboxId)
      modifies this`expirations, this`timers
      ensures Now() == Untrack(old(Now()), id)
    {
      timers := timers - {id};
      expirations := expirations - {id};
    }

    /** _expire_sandbox, run by a callback that is no longer waiting. */
    method ExpireSandbox(cb: Callback, fate: Fate, stuck: set<MountKey>)
      modifies this
      ensures Now() == ExpireBody(old(Now()), cb, fate, stuck)
    {
      hide ReleaseAll;
      var id := cb.id;
      match fate
      case Unreachable =>
        if id in expirations && expirations[id] > now {
          return;
        }
        ScheduleExpiration(id, now + RETRY, false, cb.fallback);
      case Vanishes =>
        boxes := boxes - {id};
        RemoveExpirationTracking(id);
        ReleaseMounts(cb.fallback, stuck);
      case Reached(removed) =>
        if id !in boxes {
          assert boxes - {id} == boxes;
          RemoveExpirationTracking(id);
          ReleaseMounts(cb.fallback, stuck);
          return;
        }
        if id in expirations && expirations[id] > now {
          return;
        }
        var keys := boxes[id].keys;
        if removed {
          boxes := boxes - {id};
        }
        RemoveExpirationTracking(id);
        ReleaseMounts(keys, stuck);
    }

    /** delete_sandbox releases in its finally block, whether or not the container went away. */
    method DeleteSandbox(id: SandboxId, removed: bool, stuck: set<MountKey>)
      modifies this
      ensures Now() == Deleted(old(Now()), id, removed, stuck)
    {
      hide ReleaseAll;
      if id !in boxes {
        return;
      }
      var keys := boxes[id].keys;
      if removed {
        boxes := boxes - {id};
      }
      RemoveExpirationTracking(id);
      ReleaseMounts(keys, stuck);
    }

    /** renew_expiration. */
    method RenewExpiration(id: SandboxId, at: int, labelled: bool) returns (ok: bool)
      modifies this
      ensures ok == Renewable(old(Now()), id, at)
      ensures Now() == Renewed(old(Now()), id, at, labelled)
    {
      if id !in boxes || at <= now || boxes[id].manual {
        return false;
      }
      if id !in expirations && boxes[id].expires.None? {
        return false;
      }
      ScheduleExpiration(id, at, true, []);
      if labelled {
        boxes := boxes[id := boxes[id].(expires := Some(at))];
      }
      ok := true;
    }

    /** _provision_sandbox with what its caller does about a failure. */
    method ProvisionSandbox(id: SandboxId, volumes: seq<Volume>, expires: Option<int>, start: Start,
                            broken: set<MountKey>, stuck: set<MountKey>) returns (ok: bool)
      modifies this
      ensures Now() == Provisioned(old(Now()), id, volumes, expires, start, broken, stuck)
      ensures ok <==> start.Started? && Prepare(old(Now()).mounts, volumes, broken, stuck).keys.Some?
    {
      hide ReleaseAll, Prepare;
      var keys := PrepareMounts(volumes, broken, stuck);
      if keys.None? {
        return false;
      }
      var box := Box(keys.value, expires, expires.None?);
      match start
      case Started =>
        boxes := boxes[id := box];
        if expires.Some? {
          ScheduleExpiration(id, expires.value, true, []);
        }
        ok := true;
      case Failed =>
        ReleaseMounts(keys.value, stuck);
        ok := false;
      case Leftover(removed) =>
        ReleaseMounts(keys.value, stuck);
        ReleaseMounts(keys.value, stuck);
        if !removed {
          boxes := boxes[id := box];
        }
        ok := false;
      case Abandoned =>
        ReleaseMounts(keys.value, stuck);
        boxes := boxes[id := box];
        ok := false;
    }

    /** _restore_existing_sandboxes: count everything first, expire afterwards. */
    method Restore(list: Option<seq<Listing>>, fates: nat -> Fate, stuck: set<MountKey>)
      modifies this
      ensures list.None? ==> Now() == Step(old(Now()), Restart(None))
      ensures list.Some? ==>
        Now() == Run(Step(old(Now()), Restart(list)), Sweep(Deferred(old(Now()), list.value), fates, stuck))
    {
      hide GatherAll, Run, ExpireBody;
      counts, expirations, timers, waiting := map[], map[], map[], multiset{};
      if list.None? {
        return;
      }
      ghost var s0 := Now();
      assert s0 == Rebooted(old(Now()));
      var tally, expired := CollectRefs(list.value);
      counts := tally;
      waiting := multiset(expired);
      assert Now() == Step(old(Now()), Restart(list));
      hide Step, Rebooted;
      SweepExpired(expired, fates, stuck);
    }

    method RunCallback(cb: Callback, fate: Fate, stuck: set<MountKey>)
      modifies this
      ensures Now() == Step(old(Now()), Expire(cb, fate, stuck))
    {
      hide ExpireBody;
      waiting := waiting - multiset{cb};
      ExpireSandbox(cb, fate, stuck);
    }

    /** Pass 2. */
    method SweepExpired(expired: seq<Callback>, fates: nat -> Fate, stuck: set<MountKey>)
      modifies this
      ensures Now() == Run(old(Now()), Sweep(expired, fates, stuck))
    {
      hide Run, Step;
      ghost var start, events := Now(), Sweep(expired, fates, stuck);
      assert events[..0] == [];
      RunNone(start);
      var i := 0;
      while i < |expired|
        invariant 0 <= i <= |expired|
        invariant Now() == Run(start, events[..i])
      {
        RunOneMore(start, events, i);
        RunCallback(expired[i], fates(i), stuck);
        i := i + 1;
      }
      assert events[..i] == events;
    }

    /** Pass 1: reference counts of all sandboxes, timers for those that live on. */
    method CollectRefs(list: seq<Listing>) returns (tally: map<MountKey, nat>, expired: seq<Callback>)
      modifies this`expirations, this`timers
      ensures Pass1(tally, Now(), expired) == GatherAll(Pass1(map[], old(Now()), []), list)
    {
      hide Tally;
      tally, expired := map[], [];
      var i := 0;
      while i < |list|
        invariant 0 <= i <= |list|
        invariant Pass1(tally, Now(), expired) == GatherAll(Pass1(map[], old(Now()), []), list[..i])
      {
        assert list[..i + 1][..i] == list[..i];
        var l := list[i];
        i := i + 1;
        if !l.Sandbox? {
          continue;
        }
        tally := TallyKeys(tally, l.box.keys);
        if l.box.expires.None? {
          continue;
        }
        if l.box.expires.value <= now {
          expired := expired + [Callback(l.id, l.box.keys)];
          continue;
        }
        ScheduleExpiration(l.id, l.box.expires.value, true, []);
      }
      assert list[..i] == list;
    }
  }

  method TallyKeys(counts: map<MountKey, nat>, keys: seq<MountKey>) returns (out: map<MountKey, nat>)
    ensures out == Tally(counts, keys)
  {
    out := counts;
    var i := 0;
    while i < |keys|
      invariant 0 <= i <= |keys|
      invariant out == Tally(counts, keys[..i])
    {
      assert keys[..i + 1][..i] == keys[..i];
      out := out[keys[i] := (if keys[i] in out then out[keys[i]] else 0) + 1];
      i := i + 1;
    }
    assert keys[..i] == keys;
  }

  lemma {:induction false} RunNone(s: State)
    ensures Run(s, []) == s
  {
  }

  lemma {:induction false} RunOneMore(s: State, es: seq<Event>, i: nat)
    requires i < |es|
    ensures Run(s, es[..i + 1]) == Step(Run(s, es[..i]), es[i])
  {
    hide Step;
    assert es[..i + 1][..i] == es[..i];
  }

  method CollectKeys(volumes: seq<Volume>) returns (keys: Option<seq<MountKey>>)
    ensures keys == if Resolvable(volumes) then Some(KeysOf(volumes)) else None
  {
    var out: seq<MountKey> := [];
    var i := 0;
    while i < |volumes|
      invariant 0 <= i <= |volumes|
      invariant forall j :: 0 <= j < i ==> !volumes[j].Unresolvable?
      invariant out == KeysOf(volumes[..i])
    {
      assert volumes[..i + 1][..i] == volumes[..i];
      if volumes[i].Unresolvable? {
        return None;
      }
      if volumes[i].Ossfs? && volumes[i].key !in out {
        out := out + [volumes[i].key];
      }
      i := i + 1;
    }
    assert volumes[..i] == volumes;
    keys := Some(out);
  }

  /** Once an attempt has failed no further one is made. */
  lemma {:induction false} EnsureStops(m: Mounts, keys: seq<MountKey>, k: nat, broken: set<MountKey>)
    requires k <= |keys| && EnsureAll(m, keys[..k], broken).taken < k
    ensures EnsureAll(m, keys, broken) == EnsureAll(m, keys[..k], broken)
    decreases |keys|
  {
    hide EnsureOne;
    if k == |keys| {
      assert keys[..k] == keys;
    } else {
      assert keys[..|keys| - 1][..k] == keys[..k];
      EnsureStops(m, keys[..|keys| - 1], k, broken);
    }
  }
}
