/**
 * What the controller holds over its life: the kernel resources `init`
 * obtains and gives back, and what `am335x_release` then gives back, read
 * off the logs of the controller's methods with `Replay`.
 */
module Am335xLifecycle {
  import opened Wrappers
  import opened Am335xRegs
  import opened Am335xCtrl

  /** The resource a successful step obtains, as a set. */
  function GainSet(s: InitStep): set<Resource>
  {
    match Gains(s)
    case None => {}
    case Some(r) => {r}
  }

  /** The resources the first `n` steps of ACQUIRE_ORDER obtain when they succeed. */
  function GainedBefore(n: nat): set<Resource>
    requires n <= |ACQUIRE_ORDER|
  {
    if n == 0 then {} else GainedBefore(n - 1) + GainSet(ACQUIRE_ORDER[n - 1])
  }

  /** The resources the unwind after a failed step gives back. */
  function UnwoundBy(s: InitStep): set<Resource>
  {
    set e | e in Unwind(s) && e.Put? :: e.res
  }

  /**
   * The resources held after `init`: those of the steps before the first
   * failing one, less what that step's unwind gives back.
   */
  function HeldAfterInit(k: KernelCalls): set<Resource>
  {
    var f := FirstFailure(k);
    if f == |ACQUIRE_ORDER| then GainedBefore(f)
    else GainedBefore(f) - UnwoundBy(ACQUIRE_ORDER[f])
  }

  /** The calls of steps `i` to `n` end with the call of step `n` - 1. */
  lemma {:induction false} CallsSnoc(rets: seq<int>, i: nat, n: nat)
    requires i <= n < |rets| == |ACQUIRE_ORDER|
    ensures Calls(rets, i, n + 1) == Calls(rets, i, n) + [Call(ACQUIRE_ORDER[n], rets[n])]
    decreases n - i
  {
    if i < n {
      CallsSnoc(rets, i + 1, n);
    }
  }

  /** A log of one event takes one step. */
  lemma ReplayOne(held: set<Resource>, e: Event)
    ensures Replay(held, [e]) == Step(held, e)
  {
    assert [e][..0] == [];
  }

  /** The resources obtained when the first `n` steps succeed, for each `n`. */
  lemma GainedBeforeValues()
    ensures GainedBefore(0) == {}
    ensures GainedBefore(1) == {ClkHandle}
    ensures GainedBefore(2) == GainedBefore(3) == {ClkHandle, ClkPrepared}
    ensures GainedBefore(4) == {ClkHandle, ClkPrepared, ClkEnabled}
    ensures GainedBefore(5) == {ClkHandle, ClkPrepared, ClkEnabled, RegMapping}
    ensures GainedBefore(6) == ALL_RESOURCES
  {
    assert GainedBefore(1) == {} + {ClkHandle};
    assert GainedBefore(3) == GainedBefore(2) + {};
  }

  /** No step of ACQUIRE_ORDER obtains what an earlier step obtained. */
  lemma GainFresh(n: nat)
    requires n < |ACQUIRE_ORDER|
    ensures GainSet(ACQUIRE_ORDER[n]) !! GainedBefore(n)
  {
    assert n in {0, 1, 2, 3, 4, 5};
  }

  /** Successful calls obtain, in turn, the resources of their steps. */
  lemma {:induction false} ReplayCalls(rets: seq<int>, n: nat)
    requires n <= |rets| == |ACQUIRE_ORDER|
    requires forall j :: 0 <= j < n ==> rets[j] == 0
    ensures Replay({}, Calls(rets, 0, n)) == Some(GainedBefore(n))
  {
    if n > 0 {
      var e := Call(ACQUIRE_ORDER[n - 1], rets[n - 1]);
      ReplayCalls(rets, n - 1);
      CallsSnoc(rets, 0, n - 1);
      ReplayAppend({}, Calls(rets, 0, n - 1), [e]);
      ReplayOne(GainedBefore(n - 1), e);
      GainFresh(n - 1);
      assert rets[n - 1] == 0;
      assert Replay({}, Calls(rets, 0, n)) == Step(GainedBefore(n - 1), e);
      match Gains(ACQUIRE_ORDER[n - 1])
      case None =>
        assert Step(GainedBefore(n - 1), e) == Some(GainedBefore(n - 1));
        assert GainedBefore(n - 1) + {} == GainedBefore(n - 1);
        assert GainedBefore(n) == GainedBefore(n - 1) + {};
      case Some(r) =>
        assert r !in GainedBefore(n - 1);
        assert GainedBefore(n) == GainedBefore(n - 1) + {r};
    }
  }

  /** The unwind after a failed step gives back resources the earlier steps obtained. */
  lemma ReplayUnwind(f: nat)
    requires f < |ACQUIRE_ORDER|
    ensures Replay(GainedBefore(f), Unwind(ACQUIRE_ORDER[f]))
         == Some(GainedBefore(f) - UnwoundBy(ACQUIRE_ORDER[f]))
  {
    GainedBeforeValues();
    if f == 4 {
      ReplayOne(GainedBefore(4), Put(ClkHandle));
      UnwoundByValues();
    } else if f == 5 {
      var g := GainedBefore(5);
      ReplayAppend(g, [Put(RegMapping)], [Put(ClkHandle)]);
      assert [Put(RegMapping)] + [Put(ClkHandle)] == Unwind(GpiodGet);
      ReplayOne(g, Put(RegMapping));
      ReplayOne(g - {RegMapping}, Put(ClkHandle));
      UnwoundByValues();
      assert g - {RegMapping} - {ClkHandle} == g - {RegMapping, ClkHandle};
    } else {
      assert Unwind(ACQUIRE_ORDER[f]) == [];
      assert UnwoundBy(ACQUIRE_ORDER[f]) == {};
      assert GainedBefore(f) - {} == GainedBefore(f);
    }
  }

  /** What each unwind gives back. */
  lemma UnwoundByValues()
    ensures UnwoundBy(Ioremap) == {ClkHandle}
    ensures UnwoundBy(GpiodGet) == {RegMapping, ClkHandle}
  {
    assert Put(ClkHandle) in Unwind(Ioremap);
    assert Put(RegMapping) in Unwind(GpiodGet);
    assert Put(ClkHandle) in Unwind(GpiodGet);
  }

  /** The register writes of the default programming. */
  lemma DefaultProgrammingWrites()
    ensures forall e :: e in DEFAULT_PROGRAMMING ==> e.RegWrite?
  {
    var t := DEFAULT_PROGRAMMING;
    forall e | e in t
      ensures e.RegWrite?
    {
      var i :| 0 <= i < |t| && t[i] == e;
      assert i in {0, 1, 2, 3, 4, 5, 6, 7, 8, 9, 10};
    }
  }

  /**
   * Starting from nothing, `init` on a controller with a device ends up
   * holding the resources of the steps before the first failure, less
   * what that failure's unwind gives back; its register writes all happen
   * while the register block is mapped.
   */
  lemma InitHeld(k: KernelCalls)
    ensures Replay({}, InitTrace(true, k)) == Some(HeldAfterInit(k))
  {
    var rets := Outcomes(k);
    var f := FirstFailure(k);
    AcquireTraceShape(k);
    if f == |ACQUIRE_ORDER| {
      ReplayCalls(rets, f);
      ReplayAppend({}, AcquireTrace(k), DEFAULT_PROGRAMMING);
      DefaultProgrammingWrites();
      ReplayRegWrites(GainedBefore(f), DEFAULT_PROGRAMMING);
    } else {
      var s := ACQUIRE_ORDER[f];
      var e := Call(s, rets[f]);
      assert InitTrace(true, k) == Calls(rets, 0, f + 1) + Unwind(s);
      ReplayCalls(rets, f);
      CallsSnoc(rets, 0, f);
      ReplayAppend({}, Calls(rets, 0, f), [e]);
      ReplayOne(GainedBefore(f), e);
      ReplayAppend({}, Calls(rets, 0, f + 1), Unwind(s));
      ReplayUnwind(f);
    }
  }

  /**
   * The resources `init` leaves held, case by case: everything on success;
   * on a failure of the clock calls the clock handle and whatever of
   * preparing and enabling succeeded; on a failure of the register mapping
   * or of the GPIO request the clock stays prepared and enabled, since the
   * unwind labels only unmap the registers and put the clock handle.  The
   * clock handle itself is never tested, so the first step never fails.
   */
  lemma HeldAfterInitCases(k: KernelCalls)
    ensures FirstFailure(k) != 0
    ensures Acquired(k) ==> HeldAfterInit(k) == ALL_RESOURCES
    ensures FirstFailure(k) == 1 ==> HeldAfterInit(k) == {ClkHandle}
    ensures FirstFailure(k) in {2, 3} ==> HeldAfterInit(k) == {ClkHandle, ClkPrepared}
    ensures FirstFailure(k) in {4, 5} ==> HeldAfterInit(k) == {ClkPrepared, ClkEnabled}
  {
    var f := FirstFailure(k);
    AcquireTraceShape(k);
    GainedBeforeValues();
    UnwoundByValues();
    if f == 1 || f == 2 || f == 3 {
      assert UnwoundBy(ACQUIRE_ORDER[f]) == {};
    }
  }

  /**
   * `am335x_release` after a successful `init` gives back the GPIO, the
   * mapping and the clock handle, in the reverse of the order `init` got
   * them, but leaves the clock prepared and enabled.
   */
  lemma ReleaseAfterReady()
    ensures Replay(ALL_RESOURCES, RELEASE_TRACE) == Some({ClkPrepared, ClkEnabled})
  {
    var h0 := ALL_RESOURCES;
    var h1 := {ClkHandle, ClkPrepared, ClkEnabled, RegMapping};
    var h2 := {ClkHandle, ClkPrepared, ClkEnabled};
    var h3 := {ClkPrepared, ClkEnabled};
    ReplayOne(h0, Put(HrdyGpio));
    assert h0 - {HrdyGpio} == h1;
    ReplayOne(h1, Put(RegMapping));
    assert h1 - {RegMapping} == h2;
    ReplayOne(h2, Put(ClkHandle));
    assert h2 - {ClkHandle} == h3;
    ReplayOne(h3, Free);
    assert [Put(HrdyGpio)] + [Put(RegMapping)] == [Put(HrdyGpio), Put(RegMapping)];
    ReplayAppend(h0, [Put(HrdyGpio)], [Put(RegMapping)]);
    assert [Put(ClkHandle)] + [Free] == [Put(ClkHandle), Free];
    ReplayAppend(h2, [Put(ClkHandle)], [Free]);
    assert [Put(HrdyGpio), Put(RegMapping)] + [Put(ClkHandle), Free] == RELEASE_TRACE;
    ReplayAppend(h0, [Put(HrdyGpio), Put(RegMapping)], [Put(ClkHandle), Free]);
  }

  /** A log that has gone wrong stays wrong. */
  lemma ReplayNoneExtends(held: set<Resource>, a: seq<Event>, b: seq<Event>)
    requires Replay(held, a) == None
    ensures Replay(held, a + b) == None
  {
    ReplayAppend(held, a, b);
  }

  /**
   * `am335x_release` puts the HRDY GPIO first, which only a successful
   * `init` obtains: after a failed `init` the release gives back a
   * resource that is not held.
   */
  lemma ReleaseAfterFailure(held: set<Resource>)
    requires HrdyGpio !in held
    ensures Replay(held, RELEASE_TRACE) == None
  {
    ReplayOne(held, Put(HrdyGpio));
    ReplayNoneExtends(held, [Put(HrdyGpio)], RELEASE_TRACE[1..]);
    assert [Put(HrdyGpio)] + RELEASE_TRACE[1..] == RELEASE_TRACE;
  }

  /**
   * The life of a controller with a device, `init` then `am335x_release`:
   * consistent exactly when `init` succeeds, and then it ends with the
   * clock still prepared and enabled.
   */
  lemma InitThenRelease(k: KernelCalls)
    ensures Replay({}, InitTrace(true, k) + RELEASE_TRACE)
         == if Acquired(k) then Some({ClkPrepared, ClkEnabled}) else None
  {
    InitHeld(k);
    HeldAfterInitCases(k);
    ReplayAppend({}, InitTrace(true, k), RELEASE_TRACE);
    AcquireTraceShape(k);
    if Acquired(k) {
      ReleaseAfterReady();
    } else {
      ReleaseAfterFailure(HeldAfterInit(k));
    }
  }

  /**
   * `init` makes the acquisition calls in ACQUIRE_ORDER, up to and
   * including the first that fails, and never retries one; once the clock
   * is prepared, it asks for a rate of 20 MHz.
   */
  lemma InitAttempts(k: KernelCalls)
    ensures var f := FirstFailure(k);
      Attempts(InitTrace(true, k)) == ACQUIRE_ORDER[..if f == |ACQUIRE_ORDER| then f else f + 1]
    ensures k.prepare == 0 ==>
      |Attempts(InitTrace(true, k))| > 2 && Attempts(InitTrace(true, k))[2] == ClkSetRate(INIT_HW_CLK_FREQ)
  {
    var rets := Outcomes(k);
    var f := FirstFailure(k);
    if k.prepare == 0 {
      assert rets[0] == 0 && rets[1] == 0;
      assert f >= 2;
    }
    AcquireTraceShape(k);
    if f == |ACQUIRE_ORDER| {
      AttemptsCalls(rets, f);
      AttemptsPutsAppend(AcquireTrace(k), DEFAULT_PROGRAMMING);
      DefaultProgrammingWrites();
      AttemptsPutsRegWrites(DEFAULT_PROGRAMMING);
    } else {
      var s := ACQUIRE_ORDER[f];
      assert InitTrace(true, k) == Calls(rets, 0, f + 1) + Unwind(s);
      AttemptsCalls(rets, f + 1);
      AttemptsPutsAppend(Calls(rets, 0, f + 1), Unwind(s));
      AttemptsUnwind(s);
    }
  }

  /** The calls of the first `n` steps attempt the first `n` steps of ACQUIRE_ORDER. */
  lemma {:induction false} AttemptsCalls(rets: seq<int>, n: nat)
    requires n <= |rets| == |ACQUIRE_ORDER|
    ensures Attempts(Calls(rets, 0, n)) == ACQUIRE_ORDER[..n]
  {
    if n > 0 {
      var e := Call(ACQUIRE_ORDER[n - 1], rets[n - 1]);
      AttemptsCalls(rets, n - 1);
      CallsSnoc(rets, 0, n - 1);
      AttemptsPutsAppend(Calls(rets, 0, n - 1), [e]);
      assert [e][..0] == [];
      assert ACQUIRE_ORDER[..n] == ACQUIRE_ORDER[..n - 1] + [ACQUIRE_ORDER[n - 1]];
    }
  }

  /** An unwind makes no acquisition call. */
  lemma AttemptsUnwind(s: InitStep)
    ensures Attempts(Unwind(s)) == []
  {
    if s == GpiodGet {
      assert Unwind(s)[..1] == [Put(RegMapping)];
      assert [Put(RegMapping)][..0] == [];
    } else if s == Ioremap {
      assert Unwind(s)[..0] == [];
    }
  }
}
