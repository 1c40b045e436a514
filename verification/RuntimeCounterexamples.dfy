/**
 * Runs of the Docker runtime from the empty host, one for each guard of
 * MountRuns and ExpirationRuns: a path is unmounted while a container still
 * uses it, a sandbox is removed before its renewed time, or one is forgotten.
 */
module RuntimeCounterexamples {
  import opened Common
  import opened SandboxRuntime
  import opened ExpirationRuns
  import opened MountRuns

  const EMPTY := State(0, map[], Mounts(map[], {}), map[], map[], multiset{})

  const A := SandboxId("a")
  const B := SandboxId("b")
  const K := MountKey("/oss")

  lemma {:induction false} RunSnoc(s: State, es: seq<Event>, e: Event)
    ensures Run(s, es + [e]) == Step(Run(s, es), e)
    ensures PossibleRun(s, es + [e]) <==> PossibleRun(s, es) && Possible(Run(s, es), e)
  {
    hide Step, Possible;
    assert (es + [e])[..|es|] == es;
  }

  /** A container whose path is gone. */
  ghost predicate Stranded(s: State, id: SandboxId) {
    id in s.boxes && K in s.boxes[id].keys && K !in s.mounts.mounted
  }

  lemma {:induction false} StartsWell()
    ensures Inv(EMPTY) && CachesLive(EMPTY) && OnTime(EMPTY) && Run(EMPTY, []) == EMPTY && PossibleRun(EMPTY, [])
  {
    assert forall k :: Users(EMPTY.boxes, k) == {};
  }

  lemma {:induction false} PrepareK(m: Mounts)
    ensures Prepare(m, [Ossfs(K)], {}, {}) == Prepared(EnsureOne(m, K, {}).value, Some([K]))
  {
    var v := [Ossfs(K)];
    assert v[..0] == [] && [K][..0] == [];
    assert KeysOf(v[..0]) == [];
    assert KeysOf(v) == [K];
    assert EnsureAll(m, [], {}) == Progress(m, 0);
    assert EnsureAll(m, [K], {}) == Progress(EnsureOne(m, K, {}).value, 1);
  }

  lemma {:induction false} ReleaseK(m: Mounts)
    ensures ReleaseAll(m, [K], {}) == ReleaseOne(m, K, {})
  {
    assert [K][..0] == [];
    assert ReleaseAll(m, [], {}) == m;
  }

  // ------------------------------------------------------------------
  // A delete whose removal fails
  // ------------------------------------------------------------------

  const KEPT := Box([K], None, true)
  const ONE_BOX := State(0, map[A := KEPT], Mounts(map[K := 1], {K}), map[], map[], multiset{})

  lemma {:induction false} ProvisionA()
    ensures Step(EMPTY, Provision(A, [Ossfs(K)], None, Started, {}, {})) == ONE_BOX
  {
    PrepareK(EMPTY.mounts);
    hide Prepare;
    assert EMPTY.mounts.mounted + {K} == {K};
  }

  /** The container is still there and its path is gone. */
  lemma {:induction false} FailedDeleteUnmountsInUse() returns (es: seq<Event>)
    ensures PossibleRun(EMPTY, es)
    ensures Stranded(Run(EMPTY, es), A)
  {
    var e1, e2 := Provision(A, [Ossfs(K)], None, Started, {}, {}), Delete(A, false, {});
    StartsWell();
    RunSnoc(EMPTY, [], e1);
    RunSnoc(EMPTY, [] + [e1], e2);
    ProvisionA();
    assert Possible(EMPTY, e1) && Possible(ONE_BOX, e2);
    ReleaseK(ONE_BOX.mounts);
    es := [] + [e1] + [e2];
    var s := Step(ONE_BOX, e2);
    hide Run, PossibleRun, ReleaseAll;
  }

  // ------------------------------------------------------------------
  // A late callback with cached keys
  // ------------------------------------------------------------------

  const BRIEF := Box([K], Some(10), false)
  const CB := Callback(A, [K])
  const BOTH := map[A := BRIEF, B := KEPT]
  const LISTED_BOTH := [Sandbox(A, BRIEF), Sandbox(B, KEPT)]

  const S1 := State(0, map[A := BRIEF], Mounts(map[K := 1], {K}), map[A := 10], map[A := Timer(10, [], false)],
                    multiset{})
  const S2 := State(0, BOTH, Mounts(map[K := 2], {K}), map[A := 10], map[A := Timer(10, [], false)], multiset{})
  const S3 := S2.(now := 20)
  const S4 := State(20, BOTH, Mounts(map[K := 2], {K}), map[], map[], multiset{CB})
  const S5 := State(20, BOTH, Mounts(map[K := 2], {K}), map[], map[A := Timer(50, [K], false)], multiset{})
  const S6 := S5.(now := 50)
  const S7 := State(50, BOTH, Mounts(map[K := 2], {K}), map[], map[A := Timer(50, [K], true)], multiset{CB})
  const S8 := State(50, map[B := KEPT], Mounts(map[K := 1], {K}), map[], map[], multiset{CB})

  const E1 := Provision(A, [Ossfs(K)], Some(10), Started, {}, {})
  const E2 := Provision(B, [Ossfs(K)], None, Started, {}, {})
  const E3 := Tick(20)
  const E4 := Restart(Some(LISTED_BOTH))
  const E5 := Expire(CB, Unreachable, {})
  const E6 := Tick(30)
  const E7 := Fire(A)
  const E8 := Delete(A, true, {})
  const E9 := Expire(CB, Reached(true), {})

  lemma {:induction false} FirstTwo()
    ensures Step(EMPTY, E1) == S1 && Step(S1, E2) == S2 && Possible(EMPTY, E1) && Possible(S1, E2)
  {
    PrepareK(EMPTY.mounts);
    PrepareK(S1.mounts);
    hide Prepare;
    assert EMPTY.mounts.mounted + {K} == {K};
    assert S1.boxes[B := KEPT] == BOTH;
  }

  lemma {:induction false} TheRestart()
    ensures Step(S3, E4) == S4 && Possible(S3, E4)
  {
    var start := Pass1(map[], Rebooted(S3), []);
    var l := LISTED_BOTH;
    assert l[..1] == [l[0]] && l[..1][..0] == [];
    assert GatherAll(start, []) == start;
    assert Tally(map[], [K]) == map[K := 1] by {
      assert [K][..0] == [];
      assert Tally(map[], []) == map[];
    }
    assert Tally(map[K := 1], [K]) == map[K := 2] by {
      assert [K][..0] == [];
      assert Tally(map[K := 1], []) == map[K := 1];
    }
    hide Tally;
    var p1 := Pass1(map[K := 1], Rebooted(S3), [CB]);
    assert Gather(start, l[0]) == p1;
    assert Gather(p1, l[1]) == p1.(counts := map[K := 2]);
    assert GatherAll(start, l[..1]) == p1;
    assert GatherAll(start, l) == p1.(counts := map[K := 2]);
    assert multiset([CB]) == multiset{CB};
    assert ListsAll(l, BOTH) by {
      assert l[0] == Sandbox(A, BRIEF) && l[1] == Sandbox(B, KEPT);
    }
    hide GatherAll;
  }

  lemma {:induction false} TheRetry()
    ensures Step(S4, E5) == S5 && Step(S6, E7) == S7
    ensures Possible(S4, E5) && Possible(S6, E7)
  {
  }

  lemma {:induction false} TheDelete()
    ensures Step(S7, E8) == S8
    ensures var s := Step(S8, E9); s.boxes == S8.boxes && K !in s.mounts.mounted
    ensures Possible(S8, E9)
  {
    ReleaseK(S7.mounts);
    ReleaseK(S8.mounts);
    hide ReleaseAll;
    assert S7.boxes - {A} == S8.boxes && S8.boxes - {A} == S8.boxes;
  }

  /**
   * A restart cannot reach an expired sandbox and retries with its cached
   * keys. When the retry has started, the sandbox is deleted, which releases
   * its keys; the callback then finds nothing and releases them again, and the
   * path of the other sandbox is unmounted. No Docker command fails but the
   * one query.
   */
  lemma {:induction false} LateCallbackUnmountsInUse() returns (es: seq<Event>)
    ensures PossibleRun(EMPTY, es)
    ensures Stranded(Run(EMPTY, es), B)
    ensures forall i :: 0 <= i < |es| && es[i].Delete? ==> es[i].removed
  {
    hide Run, PossibleRun, Step, Possible;
    var es1 := [] + [E1];
    var es2 := es1 + [E2];
    var es3 := es2 + [E3];
    var es4 := es3 + [E4];
    var es5 := es4 + [E5];
    var es6 := es5 + [E6];
    var es7 := es6 + [E7];
    var es8 := es7 + [E8];
    StartsWell();
    FirstTwo();
    TheRestart();
    TheRetry();
    TheDelete();
    Ticks();
    RunSnoc(EMPTY, [], E1);
    RunSnoc(EMPTY, es1, E2);
    RunSnoc(EMPTY, es2, E3);
    RunSnoc(EMPTY, es3, E4);
    RunSnoc(EMPTY, es4, E5);
    RunSnoc(EMPTY, es5, E6);
    RunSnoc(EMPTY, es6, E7);
    RunSnoc(EMPTY, es7, E8);
    RunSnoc(EMPTY, es8, E9);
    es := es8 + [E9];
  }

  lemma {:induction false} Ticks()
    ensures Step(S2, E3) == S3 && Step(S5, E6) == S6 && Possible(S2, E3) && Possible(S5, E6) && Possible(S7, E8)
  {
  }

  // ------------------------------------------------------------------
  // A failed start that leaves a container behind
  // ------------------------------------------------------------------

  const HALF_STARTED := Provision(B, [Ossfs(K)], None, Leftover(true), {}, {})

  lemma {:induction false} ReleasedTwice()
    ensures Possible(ONE_BOX, HALF_STARTED) && Stranded(Step(ONE_BOX, HALF_STARTED), A)
  {
    var m1 := Mounts(map[K := 2], {K});
    var m2 := Mounts(map[K := 1], {K});
    PrepareK(ONE_BOX.mounts);
    assert map[K := 1][K := 2] == map[K := 2] && map[K := 2][K := 1] == map[K := 1];
    assert EnsureOne(ONE_BOX.mounts, K, {}) == Some(m1);
    ReleaseK(m1);
    ReleaseK(m2);
    assert ReleaseOne(m1, K, {}) == m2;
    hide Prepare, ReleaseAll, EnsureOne;
  }

  /** The container left by b's failed start is removed, but its keys are released twice. */
  lemma {:induction false} LeftoverUnmountsInUse() returns (es: seq<Event>)
    ensures PossibleRun(EMPTY, es) && Stranded(Run(EMPTY, es), A)
  {
    hide Run, PossibleRun, Step, Possible, Stranded;
    var e1 := Provision(A, [Ossfs(K)], None, Started, {}, {});
    StartsWell();
    FirstIsPossible();
    ProvisionA();
    ReleasedTwice();
    RunSnoc(EMPTY, [], e1);
    RunSnoc(EMPTY, [] + [e1], HALF_STARTED);
    es := [] + [e1] + [HALF_STARTED];
  }

  lemma {:induction false} FirstIsPossible()
    ensures Possible(EMPTY, Provision(A, [Ossfs(K)], None, Started, {}, {}))
  {
  }

  // ------------------------------------------------------------------
  // A restart that cannot list the containers
  // ------------------------------------------------------------------

  const BLIND := ONE_BOX.(mounts := Mounts(map[], {K}))
  const BLIND_PAIR := BLIND.(boxes := map[A := KEPT, B := KEPT], mounts := Mounts(map[K := 1], {K}))

  lemma {:induction false} ForgottenCount()
    ensures Step(ONE_BOX, Restart(None)) == BLIND && Possible(ONE_BOX, Restart(None))
    ensures Step(BLIND, E2) == BLIND_PAIR && Possible(BLIND, E2)
    ensures Stranded(Step(BLIND_PAIR, Delete(B, true, {})), A) && Possible(BLIND_PAIR, Delete(B, true, {}))
  {
    PrepareK(BLIND.mounts);
    ReleaseK(BLIND_PAIR.mounts);
    hide Prepare, ReleaseAll;
    assert {K} + {K} == {K};
    assert BLIND.boxes[B := KEPT] == BLIND_PAIR.boxes;
  }

  /** The count of a's path starts again at b, whose delete takes it to zero. */
  lemma {:induction false} BlindRestartUnmountsInUse() returns (es: seq<Event>)
    ensures PossibleRun(EMPTY, es) && Stranded(Run(EMPTY, es), A)
  {
    hide Run, PossibleRun, Step, Possible, Stranded;
    var e1 := Provision(A, [Ossfs(K)], None, Started, {}, {});
    var es1 := [] + [e1];
    var es2 := es1 + [Restart(None)];
    var es3 := es2 + [E2];
    StartsWell();
    FirstIsPossible();
    ProvisionA();
    ForgottenCount();
    RunSnoc(EMPTY, [], e1);
    RunSnoc(EMPTY, es1, Restart(None));
    RunSnoc(EMPTY, es2, E2);
    RunSnoc(EMPTY, es3, Delete(B, true, {}));
    es := es3 + [Delete(B, true, {})];
  }

  // ------------------------------------------------------------------
  // Expiration
  // ------------------------------------------------------------------

  const PLAIN := Box([], Some(10), false)
  const BORN := Provision(A, [], Some(10), Started, {}, {})
  const BARE := Callback(A, [])
  const NO_MOUNTS := Mounts(map[], {})
  const T1 := State(0, map[A := PLAIN], NO_MOUNTS, map[A := 10], map[A := Timer(10, [], false)], multiset{})
  const T2 := T1.(expirations := map[A := 100], timers := map[A := Timer(100, [], false)])
  const T3 := T2.(now := 20)
  const T4 := State(20, map[A := PLAIN], NO_MOUNTS, map[], map[], multiset{BARE})

  lemma {:induction false} BornPlain()
    ensures Step(EMPTY, BORN) == T1 && Possible(EMPTY, BORN)
  {
    assert Prepare(EMPTY.mounts, [], {}, {}) == Prepared(EMPTY.mounts, Some([])) by {
      assert KeysOf([]) == [] && EnsureAll(EMPTY.mounts, [], {}) == Progress(EMPTY.mounts, 0);
    }
    hide Prepare;
  }

  lemma {:induction false} RenewedOnly()
    ensures Step(T1, Renew(A, 100, false)) == T2 && Possible(T1, Renew(A, 100, false))
    ensures Step(T2, Tick(20)) == T3 && Possible(T2, Tick(20))
  {
  }

  lemma {:induction false} ListedStale()
    ensures Step(T3, Restart(Some([Sandbox(A, PLAIN)]))) == T4 && Possible(T3, Restart(Some([Sandbox(A, PLAIN)])))
  {
    var start, l := Pass1(map[], Rebooted(T3), []), Sandbox(A, PLAIN);
    assert [l][..0] == [] && GatherAll(start, []) == start;
    assert Gather(start, l) == start.(deferred := [BARE]) by {
      assert Tally(map[], []) == map[];
    }
    assert GatherAll(start, [l]) == start.(deferred := [BARE]);
    assert multiset([BARE]) == multiset{BARE};
    assert [l][0] == l;
    hide GatherAll;
  }

  lemma {:induction false} TakenEarly()
    ensures Possible(T4, Expire(BARE, Reached(true), {}))
    ensures var s := Step(T4, Expire(BARE, Reached(true), {})); A !in s.boxes && s.now == 20
  {
    assert ReleaseAll(NO_MOUNTS, [], {}) == NO_MOUNTS;
    hide ReleaseAll;
  }

  /** The sandbox was renewed to 100 and is removed at 20, because a restart read its old label. */
  lemma {:induction false} StaleLabelExpiresEarly() returns (es: seq<Event>)
    ensures PossibleRun(EMPTY, es) && |es| == 5
    ensures var renewed := Run(EMPTY, es[..3]);
      A in renewed.boxes && Future(renewed, A) && renewed.expirations[A] == 100
    ensures var s := Run(EMPTY, es); A !in s.boxes && s.now < 100
  {
    hide Run, PossibleRun, Step, Possible;
    var es1 := [] + [BORN];
    var es2 := es1 + [Renew(A, 100, false)];
    var es3 := es2 + [Tick(20)];
    var es4 := es3 + [Restart(Some([Sandbox(A, PLAIN)]))];
    StartsWell();
    BornPlain();
    RenewedOnly();
    ListedStale();
    TakenEarly();
    RunSnoc(EMPTY, [], BORN);
    RunSnoc(EMPTY, es1, Renew(A, 100, false));
    RunSnoc(EMPTY, es2, Tick(20));
    RunSnoc(EMPTY, es3, Restart(Some([Sandbox(A, PLAIN)])));
    RunSnoc(EMPTY, es4, Expire(BARE, Reached(true), {}));
    es := es4 + [Expire(BARE, Reached(true), {})];
    assert es[..3] == es3;
  }

  const DUE := T1.(now := 10)
  const DUE_FIRED := DUE.(timers := map[A := Timer(10, [], true)], waiting := multiset{BARE})

  lemma {:induction false} ForgottenSandbox()
    ensures Step(T1, Tick(10)) == DUE && Possible(T1, Tick(10))
    ensures Step(DUE, Fire(A)) == DUE_FIRED && Possible(DUE, Fire(A))
    ensures Possible(DUE_FIRED, Expire(BARE, Reached(false), {}))
    ensures var s := Step(DUE_FIRED, Expire(BARE, Reached(false), {}));
      A in s.boxes && s.boxes[A].expires.Some? && !Pending(s, A)
  {
    assert ReleaseAll(NO_MOUNTS, [], {}) == NO_MOUNTS;
    hide ReleaseAll;
  }

  /** A callback whose removal fails leaves a container with an expiry label that nothing will remove. */
  lemma {:induction false} FailedRemovalIsForgotten() returns (es: seq<Event>)
    ensures PossibleRun(EMPTY, es)
    ensures var s := Run(EMPTY, es); A in s.boxes && s.boxes[A].expires.Some? && !Pending(s, A)
  {
    hide Run, PossibleRun, Step, Possible, Pending;
    var es1 := [] + [BORN];
    var es2 := es1 + [Tick(10)];
    var es3 := es2 + [Fire(A)];
    StartsWell();
    BornPlain();
    ForgottenSandbox();
    RunSnoc(EMPTY, [], BORN);
    RunSnoc(EMPTY, es1, Tick(10));
    RunSnoc(EMPTY, es2, Fire(A));
    RunSnoc(EMPTY, es3, Expire(BARE, Reached(false), {}));
    es := es3 + [Expire(BARE, Reached(false), {})];
  }
}
