/**
 * Expiration over whole runs: a tracked sandbox is always on its way to being
 * expired, and it is never expired while its tracked time is in the future.
 */
module ExpirationRuns {
  import opened Common
  import opened SandboxRuntime

  /** A listing names every sandbox container, each once. */
  ghost predicate ListsAll(list: seq<Listing>, boxes: map<SandboxId, Box>) {
    && (forall i :: 0 <= i < |list| && list[i].Sandbox? ==> list[i].id in boxes && list[i].box == boxes[list[i].id])
    && (forall i, j :: 0 <= i < j < |list| && list[i].Sandbox? && list[j].Sandbox? ==> list[i].id != list[j].id)
    && (forall id :: id in boxes ==> Sandbox(id, boxes[id]) in list)
  }

  ghost predicate HasWaiting(s: State, id: SandboxId) {
    exists cb :: cb in s.waiting && cb.id == id
  }

  /** An armed timer, or a callback that has started. */
  ghost predicate Pending(s: State, id: SandboxId) {
    Armed(s, id) || HasWaiting(s, id)
  }

  /** What can happen: due timers fire, started callbacks run, identifiers are new, listings are complete. */
  ghost predicate Possible(s: State, e: Event) {
    match e
    case Fire(id) => Armed(s, id) && s.timers[id].at <= s.now
    case Expire(cb, _, _) => cb in s.waiting
    case Provision(id, _, _, _, _, _) => id !in s.boxes && id !in s.timers && id !in s.expirations && !HasWaiting(s, id)
    case Restart(Some(list)) => ListsAll(list, s.boxes)
    case _ => true
  }

  ghost predicate Untouched(s: State, id: SandboxId) {
    id !in s.expirations && id !in s.timers && !HasWaiting(s, id)
  }

  ghost predicate IdOnTime(s: State, id: SandboxId) {
    && (id in s.expirations ==> Pending(s, id))
    && (Future(s, id) ==> Armed(s, id) && s.timers[id].at == s.expirations[id])
    && (id in s.expirations && Armed(s, id) ==> s.timers[id].at <= Max(s.expirations[id], s.now + RETRY))
    && (id in s.boxes && s.boxes[id].manual ==> s.boxes[id].expires.None? && Untouched(s, id))
  }

  /**
   * Every tracked sandbox has an armed timer or a started callback; if its
   * time is in the future the timer is armed for exactly that time, and
   * otherwise for no later than the next retry; a sandbox with manual cleanup
   * has neither.
   */
  ghost predicate OnTime(s: State) {
    forall id :: IdOnTime(s, id)
  }

  // ------------------------------------------------------------------
  // Each event keeps it
  // ------------------------------------------------------------------

  lemma {:induction false} TickKeeps(s: State, seconds: nat)
    requires OnTime(s)
    ensures OnTime(s.(now := s.now + seconds))
  {
    var t := s.(now := s.now + seconds);
    forall id
      ensures IdOnTime(t, id)
    {
      assert IdOnTime(s, id);
      assert HasWaiting(t, id) == HasWaiting(s, id);
    }
  }

  lemma {:induction false} FireKeeps(s: State, id: SandboxId)
    requires OnTime(s) && Armed(s, id) && s.timers[id].at <= s.now
    ensures OnTime(Fired(s, id))
  {
    var t := Fired(s, id);
    forall x
      ensures IdOnTime(t, x)
    {
      assert IdOnTime(s, x);
      if x == id {
        assert Callback(id, s.timers[id].fallback) in t.waiting;
      } else {
        WaitingElsewhere(s, t, x);
      }
    }
  }

  /** Callbacks of other sandboxes are the same. */
  ghost predicate SameCallbacks(s: State, t: State, id: SandboxId) {
    forall cb :: cb in s.waiting || cb in t.waiting ==> cb.id == id ==> (cb in s.waiting <==> cb in t.waiting)
  }

  lemma {:induction false} WaitingElsewhere(s: State, t: State, id: SandboxId)
    requires SameCallbacks(s, t, id)
    ensures HasWaiting(s, id) == HasWaiting(t, id)
  {
    if HasWaiting(s, id) {
      var cb :| cb in s.waiting && cb.id == id;
      assert cb in t.waiting;
    }
    if HasWaiting(t, id) {
      var cb :| cb in t.waiting && cb.id == id;
      assert cb in s.waiting;
    }
  }

  lemma {:induction false} ScheduleKeeps(s: State, id: SandboxId, at: int, tracked: bool, fallback: seq<MountKey>)
    requires forall x :: x != id ==> IdOnTime(s, x)
    requires id in s.boxes ==> !s.boxes[id].manual
    requires tracked || (at <= s.now + RETRY && !Future(s, id))
    ensures OnTime(Schedule(s, id, at, tracked, fallback))
  {
    var t := Schedule(s, id, at, tracked, fallback);
    forall x
      ensures IdOnTime(t, x)
    {
      WaitingElsewhere(s, t, x);
      assert x != id ==> IdOnTime(s, x);
    }
  }

  /** Dropping the tracking of a sandbox, whatever else becomes of it. */
  lemma {:induction false} UntrackKeeps(s: State, t: State, id: SandboxId)
    requires OnTime(s) && t.now == s.now
    requires t.expirations == s.expirations - {id} && t.timers == s.timers - {id}
    requires forall x :: x != id ==> SameCallbacks(s, t, x)
    requires forall x :: x in t.boxes ==> x in s.boxes && t.boxes[x] == s.boxes[x]
    requires t.waiting <= s.waiting
    ensures OnTime(t)
  {
    forall x
      ensures IdOnTime(t, x)
    {
      assert IdOnTime(s, x);
      if x != id {
        WaitingElsewhere(s, t, x);
      } else if HasWaiting(t, id) {
        var cb :| cb in t.waiting && cb.id == id;
        assert cb in s.waiting;
      }
    }
  }

  lemma {:induction false} LessWaiting(s: State, cb: Callback)
    requires cb in s.waiting
    ensures var t := s.(waiting := s.waiting - multiset{cb});
            forall x :: x != cb.id ==> SameCallbacks(s, t, x)
  {
  }

  lemma {:induction false} ManualIsUntouched(s: State, cb: Callback)
    requires OnTime(s) && cb in s.waiting
    ensures cb.id in s.boxes ==> !s.boxes[cb.id].manual
  {
    assert IdOnTime(s, cb.id);
    assert HasWaiting(s, cb.id);
  }

  lemma {:induction false} ExpireKeeps(s: State, cb: Callback, fate: Fate, stuck: set<MountKey>)
    requires OnTime(s) && cb in s.waiting
    ensures OnTime(Expired(s, cb, fate, stuck))
  {
    hide ReleaseAll, SameCallbacks, OnTime;
    var id := cb.id;
    var w := s.(waiting := s.waiting - multiset{cb});
    var t := Expired(s, cb, fate, stuck);
    LessWaiting(s, cb);
    ManualIsUntouched(s, cb);
    if fate.Unreachable? {
      if Future(s, id) {
        StillArmed(s, w, id);
      } else {
        RetryKeeps(s, w, cb);
      }
    } else if fate.Reached? && id in s.boxes && Future(s, id) {
      StillArmed(s, w, id);
    } else {
      ExpireUntracks(s, cb, fate, stuck);
      SameWaiting(s, w, t);
      hide Expired;
      UntrackKeeps(s, t, id);
    }
  }

  lemma {:induction false} ExpireUntracks(s: State, cb: Callback, fate: Fate, stuck: set<MountKey>)
    requires fate.Vanishes? || (fate.Reached? && (cb.id !in s.boxes || !Future(s, cb.id)))
    ensures var t := Expired(s, cb, fate, stuck);
      && t.now == s.now && t.expirations == s.expirations - {cb.id} && t.timers == s.timers - {cb.id}
      && (forall x :: x in t.boxes ==> x in s.boxes && t.boxes[x] == s.boxes[x])
      && t.waiting == s.waiting - multiset{cb}
  {
    hide ReleaseAll;
  }

  lemma {:induction false} SameWaiting(s: State, w: State, t: State)
    requires w.waiting == t.waiting
    ensures forall x :: SameCallbacks(s, w, x) ==> SameCallbacks(s, t, x)
  {
  }

  /** A callback that finds its sandbox renewed leaves the armed timer in place. */
  lemma {:induction false} StillArmed(s: State, w: State, id: SandboxId)
    requires OnTime(s) && w == s.(waiting := w.waiting) && w.waiting <= s.waiting && Future(s, id)
    requires forall x :: x != id ==> SameCallbacks(s, w, x)
    ensures OnTime(w)
  {
    forall x
      ensures IdOnTime(w, x)
    {
      assert IdOnTime(s, x);
      if x != id {
        WaitingElsewhere(s, w, x);
      } else if HasWaiting(w, id) {
        var cb :| cb in w.waiting && cb.id == id;
        assert cb in s.waiting;
      }
    }
  }

  lemma {:induction false} RetryKeeps(s: State, w: State, cb: Callback)
    requires OnTime(s) && w == s.(waiting := w.waiting) && !Future(s, cb.id)
    requires cb.id in s.boxes ==> !s.boxes[cb.id].manual
    requires forall x :: x != cb.id ==> SameCallbacks(s, w, x)
    ensures OnTime(Schedule(w, cb.id, w.now + RETRY, false, cb.fallback))
  {
    forall x | x != cb.id
      ensures IdOnTime(w, x)
    {
      assert IdOnTime(s, x);
      WaitingElsewhere(s, w, x);
    }
    ScheduleKeeps(w, cb.id, w.now + RETRY, false, cb.fallback);
  }

  lemma {:induction false} DeleteKeeps(s: State, id: SandboxId, removed: bool, stuck: set<MountKey>)
    requires OnTime(s)
    ensures OnTime(Deleted(s, id, removed, stuck))
  {
    hide ReleaseAll;
    if id in s.boxes {
      UntrackKeeps(s, Deleted(s, id, removed, stuck), id);
    }
  }

  lemma {:induction false} RelabelKeeps(s: State, id: SandboxId, at: int)
    requires OnTime(s) && id in s.boxes && !s.boxes[id].manual
    ensures OnTime(s.(boxes := s.boxes[id := s.boxes[id].(expires := Some(at))]))
  {
    var t := s.(boxes := s.boxes[id := s.boxes[id].(expires := Some(at))]);
    forall x
      ensures IdOnTime(t, x)
    {
      assert IdOnTime(s, x);
      WaitingElsewhere(s, t, x);
    }
  }

  lemma {:induction false} RenewKeeps(s: State, id: SandboxId, at: int, labelled: bool)
    requires OnTime(s)
    ensures OnTime(Renewed(s, id, at, labelled))
  {
    hide IdOnTime;
    if Renewable(s, id, at) {
      ScheduleKeeps(s, id, at, true, []);
      if labelled {
        RelabelKeeps(Schedule(s, id, at, true, []), id, at);
      }
    }
  }

  /** A state with the same clocks and one more container that has none. */
  lemma {:induction false} NewBoxKeeps(s: State, t: State, id: SandboxId)
    requires OnTime(s) && Untouched(s, id)
    requires t == s.(boxes := t.boxes, mounts := t.mounts)
    requires t.boxes == s.boxes || (id in t.boxes && t.boxes == s.boxes[id := t.boxes[id]]
      && t.boxes[id].manual == t.boxes[id].expires.None?)
    ensures OnTime(t)
  {
    forall x
      ensures IdOnTime(t, x)
    {
      assert IdOnTime(s, x);
      WaitingElsewhere(s, t, x);
    }
  }

  lemma {:induction false} ProvisionKeeps(s: State, id: SandboxId, volumes: seq<Volume>, expires: Option<int>,
                                          start: Start, broken: set<MountKey>, stuck: set<MountKey>)
    requires OnTime(s) && Untouched(s, id)
    ensures OnTime(Provisioned(s, id, volumes, expires, start, broken, stuck))
  {
    hide Prepare, ReleaseAll, IdOnTime, Untouched;
    var t := Provisioned(s, id, volumes, expires, start, broken, stuck);
    var p := Prepare(s.mounts, volumes, broken, stuck);
    if p.keys.Some? && start.Started? && expires.Some? {
      var u := s.(mounts := p.mounts, boxes := s.boxes[id := Box(p.keys.value, expires, false)]);
      NewBoxKeeps(s, u, id);
      ScheduleKeeps(u, id, expires.value, true, []);
    } else {
      NewBoxKeeps(s, t, id);
    }
  }

  // ------------------------------------------------------------------
  // Restart
  // ------------------------------------------------------------------

  lemma {:induction false} GatherKeeps(s: State, list: seq<Listing>, n: nat)
    requires OnTime(s) && ListsAll(list, s.boxes) && n <= |list|
    ensures var p := GatherAll(Pass1(map[], Rebooted(s), []), list[..n]);
      && OnTime(p.live) && p.live.boxes == s.boxes && p.live.now == s.now && p.live.waiting == multiset{}
      && (forall cb :: cb in p.deferred ==> cb.id in s.boxes && !s.boxes[cb.id].manual)
  {
    hide IdOnTime, Tally;
    var start := Pass1(map[], Rebooted(s), []);
    if n == 0 {
      NothingKnown(s);
      assert list[..0] == [];
    } else {
      GatherKeeps(s, list, n - 1);
      var p, l := GatherAll(start, list[..n - 1]), list[n - 1];
      assert list[..n][..n - 1] == list[..n - 1];
      assert GatherAll(start, list[..n]) == Gather(p, l);
      hide GatherAll;
      if l.Sandbox? && l.box.expires.Some? {
        HasLabel(s, l.id);
        if l.box.expires.value > s.now {
          ScheduleKeeps(p.live, l.id, l.box.expires.value, true, []);
        }
      }
    }
  }

  lemma {:induction false} HasLabel(s: State, id: SandboxId)
    requires OnTime(s) && id in s.boxes && s.boxes[id].expires.Some?
    ensures !s.boxes[id].manual
  {
    assert IdOnTime(s, id);
  }

  lemma {:induction false} NothingKnown(s: State)
    requires OnTime(s)
    ensures OnTime(Rebooted(s))
  {
    var t := Rebooted(s);
    forall x
      ensures IdOnTime(t, x)
    {
      assert IdOnTime(s, x);
    }
  }

  lemma {:induction false} RestartKeeps(s: State, list: seq<Listing>)
    requires OnTime(s) && ListsAll(list, s.boxes)
    ensures OnTime(Listed(s, list))
  {
    hide ListsAll;
    GatherKeeps(s, list, |list|);
    assert list[..|list|] == list;
    var p := GatherAll(Pass1(map[], Rebooted(s), []), list);
    hide GatherAll;
    var t := Listed(s, list);
    forall x
      ensures IdOnTime(t, x)
    {
      assert IdOnTime(p.live, x);
      assert !HasWaiting(p.live, x);
    }
  }

  lemma {:induction false} StepKeepsOnTime(s: State, e: Event)
    requires OnTime(s) && Possible(s, e)
    ensures OnTime(Step(s, e))
  {
    hide OnTime, Fired, Expired, Provisioned, Deleted, Renewed, Rebooted, Listed, ListsAll;
    match e
    case Tick(seconds) => TickKeeps(s, seconds);
    case Fire(id) => FireKeeps(s, id);
    case Expire(cb, fate, stuck) => ExpireKeeps(s, cb, fate, stuck);
    case Provision(id, volumes, expires, start, broken, stuck) =>
      ProvisionKeeps(s, id, volumes, expires, start, broken, stuck);
    case Delete(id, removed, stuck) => DeleteKeeps(s, id, removed, stuck);
    case Renew(id, at, labelled) => RenewKeeps(s, id, at, labelled);
    case Restart(list) =>
      if list.None? {
        NothingKnown(s);
      } else {
        RestartKeeps(s, list.value);
      }
  }

  ghost predicate PossibleRun(s: State, es: seq<Event>) {
    es == [] || (PossibleRun(s, es[..|es| - 1]) && Possible(Run(s, es[..|es| - 1]), es[|es| - 1]))
  }

  /**
   * Over every run, with late callbacks, renewals, failing queries, 30-second
   * retries, failed removals and restarts, every tracked sandbox has an armed
   * timer or a started callback, and one whose time is in the future has its
   * timer armed for that time.
   */
  lemma {:induction false} RunsAreOnTime(s: State, es: seq<Event>)
    requires OnTime(s) && PossibleRun(s, es)
    ensures OnTime(Run(s, es))
  {
    hide OnTime, Step, Possible;
    if es != [] {
      RunsAreOnTime(s, es[..|es| - 1]);
      StepKeepsOnTime(Run(s, es[..|es| - 1]), es[|es| - 1]);
    }
  }

  // ------------------------------------------------------------------
  // No early removal
  // ------------------------------------------------------------------

  /**
   * A container goes away only by a delete, by itself, or by a callback that
   * runs when the tracked time is not in the future; and a callback never
   * takes a sandbox with manual cleanup.
   */
  lemma {:induction false} RemovedOnlyWhenDue(s: State, e: Event, id: SandboxId)
    requires OnTime(s) && Possible(s, e) && id in s.boxes && id !in Step(s, e).boxes
    ensures (e.Delete? && e.id == id) || (e.Expire? && e.callback.id == id && !s.boxes[id].manual
      && (e.fate.Vanishes? || !Future(s, id)))
  {
    hide OnTime, Step;
    if !e.Delete? && !e.Expire? {
      OthersRemoveNothing(s, e);
    } else if e.Delete? {
      DeleteRemoves(s, e);
    } else {
      ManualIsUntouched(s, e.callback);
      ExpireRemoves(s, e);
    }
  }

  lemma {:induction false} ExpireRemoves(s: State, e: Event)
    requires e.Expire?
    ensures forall id :: id in s.boxes && id !in Step(s, e).boxes ==>
      id == e.callback.id && (e.fate.Vanishes? || !Future(s, id))
  {
    hide ReleaseAll;
  }

  lemma {:induction false} DeleteRemoves(s: State, e: Event)
    requires e.Delete?
    ensures forall id :: id in s.boxes && id !in Step(s, e).boxes ==> id == e.id
  {
    hide ReleaseAll;
  }

  lemma {:induction false} OthersRemoveNothing(s: State, e: Event)
    requires !e.Delete? && !e.Expire?
    ensures s.boxes.Keys <= Step(s, e).boxes.Keys
  {
    hide Prepare, ReleaseAll, GatherAll;
    if e.Restart? && e.list.Some? {
      GatherBoxes(s, e.list.value, |e.list.value|);
      assert e.list.value[..|e.list.value|] == e.list.value;
    }
  }

  /** After pass 1 a sandbox is tracked exactly when its label lies in the future. */
  lemma {:induction false} GatherTracks(s: State, list: seq<Listing>, n: nat, id: SandboxId)
    requires ListsAll(list, s.boxes) && n <= |list|
    ensures var p := GatherAll(Pass1(map[], Rebooted(s), []), list[..n]);
      && p.live.now == s.now
      && (id in p.live.expirations <==>
            id in s.boxes && Sandbox(id, s.boxes[id]) in list[..n] && s.boxes[id].expires.Some?
              && s.boxes[id].expires.value > s.now)
      && (id in p.live.expirations ==> p.live.expirations[id] == s.boxes[id].expires.value)
  {
    hide Tally;
    var start := Pass1(map[], Rebooted(s), []);
    if n == 0 {
      assert list[..0] == [];
    } else {
      GatherTracks(s, list, n - 1, id);
      var l := list[n - 1];
      assert list[..n][..n - 1] == list[..n - 1];
      assert list[..n] == list[..n - 1] + [l];
      assert GatherAll(start, list[..n]) == Gather(GatherAll(start, list[..n - 1]), l);
      GatherOne(GatherAll(start, list[..n - 1]), l, id);
      hide GatherAll, Gather;
    }
  }

  lemma {:induction false} GatherOne(p: Pass1, l: Listing, id: SandboxId)
    ensures var q := Gather(p, l);
      && q.live.now == p.live.now
      && var tracks := l.Sandbox? && l.id == id && l.box.expires.Some? && l.box.expires.value > p.live.now;
         && (id in q.live.expirations <==> id in p.live.expirations || tracks)
         && (id in q.live.expirations ==> q.live.expirations[id] == if tracks then l.box.expires.value
           else p.live.expirations[id])
  {
    hide Tally;
  }

  /**
   * A restart keeps the tracked time of a sandbox if and only if the last
   * renewal reached the container's label.
   */
  lemma {:induction false} RestartKeepsTimeIff(s: State, list: seq<Listing>, id: SandboxId)
    requires ListsAll(list, s.boxes) && id in s.boxes && Future(s, id)
    ensures var t := Listed(s, list);
      (id in t.expirations && t.expirations[id] == s.expirations[id]) <==>
        s.boxes[id].expires == Some(s.expirations[id])
  {
    GatherTracks(s, list, |list|, id);
    assert list[..|list|] == list;
    hide GatherAll;
  }

  /** Labels carry the tracked time. */
  ghost predicate LabelsFresh(s: State) {
    forall id :: id in s.boxes && id in s.expirations ==> s.boxes[id].expires == Some(s.expirations[id])
  }

  lemma {:induction false} StepKeepsLabels(s: State, e: Event)
    requires LabelsFresh(s) && Possible(s, e) && (e.Renew? ==> e.labelled)
    ensures LabelsFresh(Step(s, e))
  {
    hide Provisioned, HasWaiting, Listed, ListsAll, Expired, Deleted;
    match e
    case Restart(list) =>
      if list.Some? {
        RestartKeepsLabels(s, list.value);
      }
    case Expire(cb, fate, stuck) => ExpireKeepsLabels(s, cb, fate, stuck);
    case Delete(id, removed, stuck) => DeleteKeepsLabels(s, id, removed, stuck);
    case Provision(id, volumes, expires, start, broken, stuck) =>
      ProvisionKeepsLabels(s, id, volumes, expires, start, broken, stuck);
    case Renew(id, at, labelled) =>
    case Fire(id) =>
    case Tick(seconds) =>
  }

  lemma {:induction false} ExpireKeepsLabels(s: State, cb: Callback, fate: Fate, stuck: set<MountKey>)
    requires LabelsFresh(s)
    ensures LabelsFresh(Expired(s, cb, fate, stuck))
  {
    hide ReleaseAll;
  }

  lemma {:induction false} DeleteKeepsLabels(s: State, id: SandboxId, removed: bool, stuck: set<MountKey>)
    requires LabelsFresh(s)
    ensures LabelsFresh(Deleted(s, id, removed, stuck))
  {
    hide ReleaseAll;
  }

  lemma {:induction false} ProvisionKeepsLabels(s: State, id: SandboxId, volumes: seq<Volume>, expires: Option<int>,
                                                start: Start, broken: set<MountKey>, stuck: set<MountKey>)
    requires LabelsFresh(s) && id !in s.boxes && id !in s.expirations
    ensures LabelsFresh(Provisioned(s, id, volumes, expires, start, broken, stuck))
  {
    hide Prepare, ReleaseAll;
  }

  lemma {:induction false} RestartKeepsLabels(s: State, list: seq<Listing>)
    requires ListsAll(list, s.boxes)
    ensures LabelsFresh(Listed(s, list))
  {
    assert list[..|list|] == list;
    var t := Listed(s, list);
    GatherBoxes(s, list, |list|);
    forall id | id in t.boxes && id in t.expirations
      ensures t.boxes[id].expires == Some(t.expirations[id])
    {
      GatherTracks(s, list, |list|, id);
      hide GatherAll, ListsAll;
    }
  }

  lemma {:induction false} GatherBoxes(s: State, list: seq<Listing>, n: nat)
    requires n <= |list|
    ensures GatherAll(Pass1(map[], Rebooted(s), []), list[..n]).live.boxes == s.boxes
  {
    hide Tally;
    if n > 0 {
      GatherBoxes(s, list, n - 1);
      assert list[..n][..n - 1] == list[..n - 1];
    }
  }

  /**
   * If every renewal reaches its label, labels carry the tracked times
   * throughout, and so no restart brings an expiration forward.
   */
  lemma {:induction false} RunsKeepLabels(s: State, es: seq<Event>)
    requires LabelsFresh(s) && PossibleRun(s, es)
    requires forall i :: 0 <= i < |es| && es[i].Renew? ==> es[i].labelled
    ensures LabelsFresh(Run(s, es))
  {
    hide LabelsFresh, Step, Possible;
    if es != [] {
      RunsKeepLabels(s, es[..|es| - 1]);
      StepKeepsLabels(Run(s, es[..|es| - 1]), es[|es| - 1]);
    }
  }

  // ------------------------------------------------------------------
  // What callbacks and renewals do
  // ------------------------------------------------------------------

  /** A callback that cannot reach Docker is tried again in 30 seconds with its keys, unless the sandbox was renewed. */
  lemma {:induction false} RetriesInThirtySeconds(s: State, cb: Callback, stuck: set<MountKey>)
    ensures var t := Step(s, Expire(cb, Unreachable, stuck));
      && t.boxes == s.boxes && t.mounts == s.mounts && t.expirations == s.expirations
      && (if cb.id in s.expirations && s.expirations[cb.id] > s.now then t.timers == s.timers
          else t.timers == s.timers[cb.id := Timer(s.now + 30, cb.fallback, false)])
  {
  }

  /** A callback that reaches a sandbox whose time has come, and whose removal works, removes it and its tracking. */
  lemma {:induction false} DueIsRemoved(s: State, cb: Callback, stuck: set<MountKey>)
    requires cb.id in s.boxes && (cb.id in s.expirations ==> s.expirations[cb.id] <= s.now)
    ensures var t := Step(s, Expire(cb, Reached(true), stuck));
      && t.boxes == s.boxes - {cb.id} && cb.id !in t.expirations && cb.id !in t.timers
      && t.mounts == ReleaseAll(s.mounts, s.boxes[cb.id].keys, stuck)
  {
    hide ReleaseAll;
  }

  /** A delete of a sandbox that is there drops its tracking and its references, and the container if it goes. */
  lemma {:induction false} DeletesOnlyThat(s: State, id: SandboxId, removed: bool, stuck: set<MountKey>)
    ensures var t := Step(s, Delete(id, removed, stuck));
      if id !in s.boxes then t == s
      else
        && t.boxes == (if removed then s.boxes - {id} else s.boxes)
        && t.expirations == s.expirations - {id} && t.timers == s.timers - {id} && t.waiting == s.waiting
        && t.mounts == ReleaseAll(s.mounts, s.boxes[id].keys, stuck)
  {
    hide ReleaseAll;
  }

  /**
   * A renewal is refused for an unknown sandbox, a time that is not in the
   * future, manual cleanup, and a sandbox without an expiry; otherwise the
   * sandbox is tracked for the new time and its timer armed for it.
   */
  lemma {:induction false} RenewsIff(s: State, id: SandboxId, at: int, labelled: bool)
    ensures var t := Step(s, Renew(id, at, labelled));
      if || id !in s.boxes || at <= s.now || s.boxes[id].manual
         || (id !in s.expirations && s.boxes[id].expires.None?)
      then t == s
      else
        && t.expirations == s.expirations[id := at] && t.timers == s.timers[id := Timer(at, [], false)]
        && t.mounts == s.mounts && t.waiting == s.waiting
        && t.boxes == if labelled then s.boxes[id := s.boxes[id].(expires := Some(at))] else s.boxes
  {
  }

  // ------------------------------------------------------------------
  // Containers with an expiry label
  // ------------------------------------------------------------------

  ghost predicate WatchedAt(s: State, id: SandboxId) {
    id in s.boxes && s.boxes[id].expires.Some? ==> Pending(s, id)
  }

  /** Every container with an expiry label, tracked or not, is on its way to being removed. */
  ghost predicate Watched(s: State) {
    forall id :: WatchedAt(s, id)
  }

  /** A container with an expiry label outlives its removal only under another started callback. */
  ghost predicate StaysWatched(s: State, id: SandboxId, removed: bool)
    requires id in s.boxes
  {
    removed || s.boxes[id].expires.None? || HasWaiting(s, id)
  }

  /** What keeps containers watched: removals work, no container is left behind, listings succeed. */
  ghost predicate WatchGuard(s: State, e: Event) {
    match e
    case Expire(cb, fate, _) =>
      fate.Reached? && cb.id in s.boxes && !Future(s, cb.id) ==>
        StaysWatched(s.(waiting := s.waiting - multiset{cb}), cb.id, fate.removed)
    case Delete(id, removed, _) => id in s.boxes ==> StaysWatched(s, id, removed)
    case Provision(_, volumes, expires, start, broken, stuck) =>
      Prepare(s.mounts, volumes, broken, stuck).keys.Some? && expires.Some? ==>
        start != Leftover(false) && start != Abandoned
    case Restart(list) => list.None? ==> forall id :: id in s.boxes ==> s.boxes[id].expires.None?
    case _ => true
  }

  /** A sandbox whose container, timer and callbacks are the same is watched as before. */
  lemma {:induction false} WatchedElsewhere(s: State, t: State, id: SandboxId)
    requires WatchedAt(s, id) && SameCallbacks(s, t, id)
    requires id in t.boxes ==> id in s.boxes && t.boxes[id].expires == s.boxes[id].expires
    requires id in s.timers ==> id in t.timers && t.timers[id] == s.timers[id]
    ensures WatchedAt(t, id)
  {
    hide SameCallbacks;
    WaitingElsewhere(s, t, id);
  }

  /** Dropping the tracking of one sandbox: what becomes of its container decides. */
  lemma {:induction false} UntrackWatchedIff(s: State, t: State, id: SandboxId)
    requires Watched(s)
    requires t.timers == s.timers - {id}
    requires forall x :: x != id ==> SameCallbacks(s, t, x)
    requires forall x :: x in t.boxes ==> x in s.boxes && t.boxes[x] == s.boxes[x]
    ensures Watched(t) <==> (id in t.boxes && t.boxes[id].expires.Some? ==> HasWaiting(t, id))
  {
    hide SameCallbacks, HasWaiting;
    forall x | x != id
      ensures WatchedAt(t, x)
    {
      assert WatchedAt(s, x);
      WatchedElsewhere(s, t, x);
    }
    assert WatchedAt(t, id) <==> (id in t.boxes && t.boxes[id].expires.Some? ==> HasWaiting(t, id));
    hide WatchedAt;
  }

  lemma {:induction false} ExpireTakesOwn(s: State, cb: Callback, fate: Fate, stuck: set<MountKey>)
    requires fate.Vanishes? || (fate.Reached? && (cb.id !in s.boxes || !Future(s, cb.id)))
    ensures cb.id in Expired(s, cb, fate, stuck).boxes <==> cb.id in s.boxes && fate == Reached(false)
  {
    hide ReleaseAll;
  }

  lemma {:induction false} ExpireWatchedIff(s: State, cb: Callback, fate: Fate, stuck: set<MountKey>)
    requires OnTime(s) && Watched(s) && cb in s.waiting
    ensures Watched(Expired(s, cb, fate, stuck)) <==> WatchGuard(s, Expire(cb, fate, stuck))
  {
    hide ReleaseAll, SameCallbacks, OnTime, HasWaiting;
    var w, t := s.(waiting := s.waiting - multiset{cb}), Expired(s, cb, fate, stuck);
    LessWaiting(s, cb);
    if fate.Unreachable? || (fate.Reached? && cb.id in s.boxes && Future(s, cb.id)) {
      KeptIsWatched(s, t, cb, fate, stuck);
      hide Expired, Watched;
    } else {
      ExpireUntracks(s, cb, fate, stuck);
      ExpireTakesOwn(s, cb, fate, stuck);
      SameWaiting(s, w, t);
      hide Expired;
      UntrackWatchedIff(s, t, cb.id);
      SameHasWaiting(w, t, cb.id);
      hide Watched;
    }
  }

  lemma {:induction false} SameHasWaiting(s: State, t: State, id: SandboxId)
    requires s.waiting == t.waiting
    ensures HasWaiting(s, id) == HasWaiting(t, id)
  {
  }

  /** A callback that is retried or finds its sandbox renewed leaves it armed. */
  lemma {:induction false} KeptIsWatched(s: State, t: State, cb: Callback, fate: Fate, stuck: set<MountKey>)
    requires OnTime(s) && Watched(s) && cb in s.waiting && t == Expired(s, cb, fate, stuck)
    requires fate.Unreachable? || (fate.Reached? && cb.id in s.boxes && Future(s, cb.id))
    ensures Watched(t)
  {
    hide ReleaseAll, SameCallbacks, HasWaiting;
    LessWaiting(s, cb);
    assert IdOnTime(s, cb.id);
    var w := s.(waiting := s.waiting - multiset{cb});
    SameWaiting(s, w, t);
    forall x
      ensures WatchedAt(t, x)
    {
      assert WatchedAt(s, x);
      if x != cb.id {
        WatchedElsewhere(s, t, x);
      }
    }
  }

  lemma {:induction false} DeleteWatchedIff(s: State, id: SandboxId, removed: bool, stuck: set<MountKey>)
    requires Watched(s)
    ensures Watched(Deleted(s, id, removed, stuck)) <==> WatchGuard(s, Delete(id, removed, stuck))
  {
    hide ReleaseAll, HasWaiting;
    if id in s.boxes {
      var t := Deleted(s, id, removed, stuck);
      SameHasWaiting(s, t, id);
      UntrackWatchedIff(s, t, id);
      hide Watched;
    }
  }

  lemma {:induction false} ProvisionShape(s: State, e: Event)
    requires e.Provision?
    ensures var t := Step(s, e);
      && t.waiting == s.waiting
      && (t.boxes == s.boxes || (e.id in t.boxes && t.boxes == s.boxes[e.id := t.boxes[e.id]]))
      && (t.timers == s.timers || (e.id in t.timers && t.timers == s.timers[e.id := t.timers[e.id]]))
  {
    hide Prepare, ReleaseAll;
    var p := Prepare(s.mounts, e.volumes, e.broken, e.stuck);
    if p.keys.Some? {
      var box := Box(p.keys.value, e.expires, e.expires.None?);
      assert e.start.Started? && e.expires.Some? ==>
        Step(s, e).timers == s.timers[e.id := Timer(Max(s.now, e.expires.value), [], false)];
    }
  }

  lemma {:induction false} ProvisionElsewhere(s: State, e: Event)
    requires e.Provision?
    ensures var t := Step(s, e);
      && t.waiting == s.waiting
      && (forall x :: x != e.id && x in t.boxes ==> x in s.boxes && t.boxes[x] == s.boxes[x])
      && (forall x :: x != e.id && x in s.timers ==> x in t.timers && t.timers[x] == s.timers[x])
  {
    hide Step;
    ProvisionShape(s, e);
  }

  lemma {:induction false} ProvisionOwn(s: State, e: Event)
    requires e.Provision? && Possible(s, e)
    ensures WatchedAt(Step(s, e), e.id) <==> WatchGuard(s, e)
  {
    hide Prepare, ReleaseAll;
    ProvisionElsewhere(s, e);
    SameHasWaiting(s, Step(s, e), e.id);
    hide HasWaiting;
  }

  lemma {:induction false} ProvisionWatchedIff(s: State, e: Event)
    requires Watched(s) && e.Provision? && Possible(s, e)
    ensures Watched(Step(s, e)) <==> WatchGuard(s, e)
  {
    ProvisionElsewhere(s, e);
    ProvisionOwn(s, e);
    hide Step, WatchGuard, HasWaiting, Possible;
    var t := Step(s, e);
    forall x | x != e.id
      ensures WatchedAt(t, x)
    {
      assert WatchedAt(s, x);
      WatchedElsewhere(s, t, x);
    }
    hide WatchedAt;
  }

  lemma {:induction false} DeferStep(p: Pass1, l: Listing)
    ensures forall cb :: cb in p.deferred ==> cb in Gather(p, l).deferred
    ensures l.Sandbox? && l.box.expires.Some? && l.box.expires.value <= p.live.now ==>
      Callback(l.id, l.box.keys) in Gather(p, l).deferred
  {
    hide Tally;
  }

  lemma {:induction false} GatherDefers(s: State, list: seq<Listing>, n: nat, id: SandboxId)
    requires ListsAll(list, s.boxes) && n <= |list| && id in s.boxes && Sandbox(id, s.boxes[id]) in list[..n]
    requires s.boxes[id].expires.Some? && s.boxes[id].expires.value <= s.now
    ensures Callback(id, s.boxes[id].keys) in GatherAll(Pass1(map[], Rebooted(s), []), list[..n]).deferred
  {
    hide Gather, ListsAll;
    GatherTracks(s, list, n - 1, id);
    var start := Pass1(map[], Rebooted(s), []);
    assert list[..n][..n - 1] == list[..n - 1] && list[..n] == list[..n - 1] + [list[n - 1]];
    assert GatherAll(start, list[..n]) == Gather(GatherAll(start, list[..n - 1]), list[n - 1]);
    if Sandbox(id, s.boxes[id]) in list[..n - 1] {
      GatherDefers(s, list, n - 1, id);
    }
    DeferStep(GatherAll(start, list[..n - 1]), list[n - 1]);
    hide GatherAll, Rebooted;
  }

  lemma {:induction false} ListedIsWatched(s: State, list: seq<Listing>)
    requires OnTime(s) && ListsAll(list, s.boxes)
    ensures Watched(Listed(s, list))
  {
    hide OnTime, IdOnTime;
    RestartKeeps(s, list);
    GatherBoxes(s, list, |list|);
    var t := Listed(s, list);
    assert list[..|list|] == list;
    forall id
      ensures WatchedAt(t, id)
    {
      if id in s.boxes && s.boxes[id].expires.Some? {
        assert Sandbox(id, s.boxes[id]) in list;
        if s.boxes[id].expires.value > s.now {
          GatherTracks(s, list, |list|, id);
          FutureIsArmed(t, id);
        } else {
          GatherDefers(s, list, |list|, id);
          assert Callback(id, s.boxes[id].keys) in t.waiting;
        }
      }
      hide GatherAll, ListsAll;
    }
  }

  lemma {:induction false} FutureIsArmed(s: State, id: SandboxId)
    requires OnTime(s)
    ensures Future(s, id) ==> Armed(s, id)
  {
    assert IdOnTime(s, id);
  }

  lemma {:induction false} BlindWatchedIff(s: State)
    ensures Watched(Rebooted(s)) <==> forall id :: id in s.boxes ==> s.boxes[id].expires.None?
  {
    var t := Rebooted(s);
    assert forall id :: !Pending(t, id);
    if Watched(t) {
      forall id | id in s.boxes
        ensures s.boxes[id].expires.None?
      {
        assert WatchedAt(t, id);
      }
    }
  }

  lemma {:induction false} FireStaysWatched(s: State, id: SandboxId)
    requires Watched(s) && Armed(s, id)
    ensures Watched(Fired(s, id))
  {
    var t := Fired(s, id);
    assert Callback(id, s.timers[id].fallback) in t.waiting;
    forall x
      ensures WatchedAt(t, x)
    {
      assert WatchedAt(s, x);
      if x != id {
        WatchedElsewhere(s, t, x);
      }
    }
  }

  lemma {:induction false} RenewStaysWatched(s: State, id: SandboxId, at: int, labelled: bool)
    requires Watched(s)
    ensures Watched(Renewed(s, id, at, labelled))
  {
    var t := Renewed(s, id, at, labelled);
    assert t.waiting == s.waiting;
    assert t == s || Armed(t, id);
    forall x
      ensures WatchedAt(t, x)
    {
      assert WatchedAt(s, x);
      if x != id {
        WatchedElsewhere(s, t, x);
      }
    }
  }

  lemma {:induction false} ClockStaysWatched(s: State, e: Event)
    requires Watched(s) && (e.Tick? || e.Fire? || e.Renew?)
    ensures Watched(Step(s, e))
  {
    hide Fired, Renewed;
    match e
    case Renew(id, at, labelled) => RenewStaysWatched(s, id, at, labelled);
    case Fire(id) =>
      if Armed(s, id) {
        FireStaysWatched(s, id);
      }
    case Tick(_) =>
      forall x
        ensures WatchedAt(Step(s, e), x)
      {
        assert WatchedAt(s, x);
        WatchedElsewhere(s, Step(s, e), x);
      }
  }

  /**
   * An event keeps every container with an expiry label pending if and only if
   * its guard holds: a removal that fails drops the tracking, and nothing
   * tries again.
   */
  lemma {:induction false} WatchedIff(s: State, e: Event)
    requires OnTime(s) && Watched(s) && Possible(s, e)
    ensures Watched(Step(s, e)) <==> WatchGuard(s, e)
  {
    hide OnTime, Watched, Fired, Expired, Provisioned, Deleted, Renewed, Rebooted, Listed, ListsAll, HasWaiting,
        StaysWatched, Prepare;
    match e
    case Tick(_) => ClockStaysWatched(s, e);
    case Fire(_) => ClockStaysWatched(s, e);
    case Renew(_, _, _) => ClockStaysWatched(s, e);
    case Expire(cb, fate, stuck) => ExpireWatchedIff(s, cb, fate, stuck);
    case Delete(id, removed, stuck) => DeleteWatchedIff(s, id, removed, stuck);
    case Provision(_, _, _, _, _, _) => ProvisionWatchedIff(s, e);
    case Restart(list) =>
      if list.None? {
        BlindWatchedIff(s);
      } else {
        ListedIsWatched(s, list.value);
      }
  }

  ghost predicate WatchedRun(s: State, es: seq<Event>) {
    es == [] || (WatchedRun(s, es[..|es| - 1]) && WatchGuard(Run(s, es[..|es| - 1]), es[|es| - 1]))
  }

  /** Over every guarded run each container with an expiry label has an armed timer or a started callback. */
  lemma {:induction false} RunsStayWatched(s: State, es: seq<Event>)
    requires OnTime(s) && Watched(s) && PossibleRun(s, es) && WatchedRun(s, es)
    ensures OnTime(Run(s, es)) && Watched(Run(s, es))
  {
    hide OnTime, Watched, Step, Possible, WatchGuard;
    if es != [] {
      var before, e := Run(s, es[..|es| - 1]), es[|es| - 1];
      RunsStayWatched(s, es[..|es| - 1]);
      StepKeepsOnTime(before, e);
      WatchedIff(before, e);
    }
  }
}
