/**
 * Interleaved calls from many threads on the shared factory state.
 *
 * A `Call` is one public OptimizerFactory operation made by one thread;
 * `Run` applies a sequence of them in order. The lemmas here state what a
 * thread can rely on whatever the other threads do in between, and what the
 * factory keeps fixed over any history.
 */
module OptimizerTraces {
  import opened OptimizerState

  /** The public operations of OptimizerFactory, with their arguments. */
  datatype Op =
    | SetDefaultOp(name: string)
    | ResetDefaultOp(disableJit: bool)
    | SetThreadOp(optimizer: Option<Kind>)
    | ClearOp
    | GetThreadOp
    | GetDefaultOp
    | GetByNameOp(name: string)
    | IsInitializedOp

  datatype Call = Call(thread: ThreadId, op: Op)

  /** The state one call leaves behind. */
  function Step(s: State, c: Call): (s': State)
    ensures s'.registry == s.registry
    ensures OthersUnchanged(s.overrides, s'.overrides, c.thread)
  {
    match c.op
    case SetDefaultOp(name) => SetDefault(s, c.thread, name)
    case ResetDefaultOp(disableJit) => ResetDefault(s, c.thread, disableJit)
    case SetThreadOp(optimizer) => SetThread(s, c.thread, optimizer).state
    case ClearOp => Clear(s, c.thread)
    case GetThreadOp => GetThread(s, c.thread).state
    case GetDefaultOp => s
    case GetByNameOp(_) => s
    case IsInitializedOp => s
  }

  /** The state after the calls, applied in order. */
  function Run(s: State, calls: seq<Call>): State
    decreases |calls|
  {
    if calls == [] then s else Run(Step(s, calls[0]), calls[1..])
  }

  /** None of the calls is made by thread `t`. */
  ghost predicate ByOthers(calls: seq<Call>, t: ThreadId)
  {
    forall i :: 0 <= i < |calls| ==> calls[i].thread != t
  }

  /** The calls made by thread `t` that may remove or replace its slot. */
  predicate Unpins(c: Call, t: ThreadId)
  {
    c.thread == t
    && (c.op.SetDefaultOp? || c.op.ResetDefaultOp? || c.op.SetThreadOp? || c.op.ClearOp?)
  }

  /** The registry is written once at startup: no call ever changes it. */
  lemma {:induction false} RunKeepsRegistry(s: State, calls: seq<Call>)
    ensures Run(s, calls).registry == s.registry
    decreases |calls|
  {
    if calls != [] {
      RunKeepsRegistry(Step(s, calls[0]), calls[1..]);
    }
  }

  /**
   * The thread-local slot is partitioned by thread: calls by other threads,
   * setDefaultOptimizer and resetDefaultOptimizer included, leave thread
   * `t`'s slot exactly as it was.
   */
  lemma {:induction false} OtherThreadsLeaveSlot(s: State, t: ThreadId, calls: seq<Call>)
    requires ByOthers(calls, t)
    ensures SameSlot(s.overrides, Run(s, calls).overrides, t)
    decreases |calls|
  {
    if calls != [] {
      assert calls[0].thread != t;
      OtherThreadsLeaveSlot(Step(s, calls[0]), t, calls[1..]);
    }
  }

  /**
   * Once thread `t` has a class, it keeps it as long as `t` itself neither
   * sets nor clears it nor changes the default; its own getter calls and all
   * calls by other threads leave it alone.
   */
  lemma {:induction false} SlotKeptWithoutUnpin(s: State, t: ThreadId, calls: seq<Call>)
    requires t in s.overrides
    requires forall i :: 0 <= i < |calls| ==> !Unpins(calls[i], t)
    ensures t in Run(s, calls).overrides && Run(s, calls).overrides[t] == s.overrides[t]
    decreases |calls|
  {
    if calls != [] {
      assert !Unpins(calls[0], t);
      SlotKeptWithoutUnpin(Step(s, calls[0]), t, calls[1..]);
    }
  }

  /**
   * setThreadAccessorOptimizer(C) followed by getThreadAccessorOptimizer on
   * the same thread yields C, whatever other threads do in between,
   * setDefaultOptimizer included.
   */
  lemma PinSurvivesOtherThreads(s: State, t: ThreadId, k: Kind, calls: seq<Call>)
    requires ByOthers(calls, t)
    ensures GetThread(Run(SetThread(s, t, Some(k)).state, calls), t).result == Ok(k)
  {
    OtherThreadsLeaveSlot(SetThread(s, t, Some(k)).state, t, calls);
  }

  /**
   * Once getThreadAccessorOptimizer has cached a class for thread `t`, later
   * calls return that same class until `t` clears, re-pins or resets it.
   */
  lemma CachedKindIsSticky(s: State, t: ThreadId, calls: seq<Call>)
    requires GetThread(s, t).result.Ok?
    requires forall i :: 0 <= i < |calls| ==> !Unpins(calls[i], t)
    ensures GetThread(Run(GetThread(s, t).state, calls), t).result == GetThread(s, t).result
  {
    SlotKeptWithoutUnpin(GetThread(s, t).state, t, calls);
  }

  /**
   * After clearThreadAccessorOptimizer the thread is not initialized, and
   * its next getter call yields the default current at that time, not the
   * class it had before, even when other threads changed the default.
   */
  lemma ClearThenGetFollowsDefault(s: State, t: ThreadId, calls: seq<Call>)
    requires ByOthers(calls, t)
    ensures !IsInitialized(Run(Clear(s, t), calls), t)
    ensures GetThread(Run(Clear(s, t), calls), t).result == DefaultKind(Run(Clear(s, t), calls))
  {
    OtherThreadsLeaveSlot(Clear(s, t), t, calls);
  }

  /** Clearing twice is clearing once. */
  lemma ClearIdempotent(s: State, t: ThreadId)
    ensures Clear(Clear(s, t), t) == Clear(s, t)
  {
  }

  /**
   * The initialized flag: set by a pin or a successful getter call, cleared
   * by setDefaultOptimizer and clearThreadAccessorOptimizer on that thread.
   */
  lemma InitializedFlag(s: State, t: ThreadId, k: Kind, name: string)
    ensures IsInitialized(SetThread(s, t, Some(k)).state, t)
    ensures GetThread(s, t).result.Ok? ==> IsInitialized(GetThread(s, t).state, t)
    ensures GetThread(s, t).result.Err? ==> IsInitialized(GetThread(s, t).state, t) == IsInitialized(s, t)
    ensures !IsInitialized(SetDefault(s, t, name), t)
    ensures !IsInitialized(Clear(s, t), t)
  {
  }

  /**
   * setDefaultOptimizer does not check its argument: an unregistered name
   * becomes the default, and the calling thread's next getter call fails
   * without caching anything.
   */
  lemma UnregisteredDefaultFails(s: State, t: ThreadId, name: string)
    requires name !in s.registry
    ensures SetDefault(s, t, name).default == name
    ensures DefaultKind(SetDefault(s, t, name)) == Err(UnableToInstantiate)
    ensures GetThread(SetDefault(s, t, name), t) == Outcome(SetDefault(s, t, name), Err(UnableToInstantiate))
  {
  }

  /**
   * resetDefaultOptimizer followed by getThreadAccessorOptimizer on the same
   * thread yields the reflective class when JIT is disabled and the dynamic
   * one otherwise, whatever the probe found.
   */
  lemma ResetThenGet(s: State, t: ThreadId, disableJit: bool, probe: ProbeOutcome)
    requires s.registry == Registry(probe)
    ensures GetThread(ResetDefault(s, t, disableJit), t).result
         == Ok(if disableJit then Reflective else Dynamic)
  {
  }

  /**
   * In every state reachable from startup, getAccessorCompiler(name)
   * succeeds exactly for "reflective" and "dynamic", and for "ASM" when the
   * probe found the library, yielding the matching class.
   */
  lemma ReachableLookup(probe: ProbeOutcome, disableJit: bool, t0: ThreadId,
                        calls: seq<Call>, name: string)
    ensures var s := Run(StaticInit(probe, disableJit, t0), calls);
      Lookup(s, name) ==
        if name == SAFE_REFLECTIVE then Ok(Reflective)
        else if name == DYNAMIC then Ok(Dynamic)
        else if name == ASM_NAME && probe == AsmFound then Ok(ASM)
        else Err(UnableToInstantiate)
  {
    RunKeepsRegistry(StaticInit(probe, disableJit, t0), calls);
  }

  /**
   * The process default is not kept registered: one setDefaultOptimizer
   * call after startup leaves it naming no registry entry.
   */
  lemma DefaultCanBecomeUnregistered()
    ensures var s := Run(StaticInit(AsmNotFound, false, 0), [Call(0, SetDefaultOp(ASM_NAME))]);
      s.default !in s.registry
  {
    var s0 := StaticInit(AsmNotFound, false, 0);
    assert Run(s0, [Call(0, SetDefaultOp(ASM_NAME))])
        == Run(SetDefault(s0, 0, ASM_NAME), []);
  }

  /**
   * Two threads, no bytecode library, default "dynamic": thread 1 pins the
   * reflective class, thread 2 has no pin. Thread 1 gets reflective,
   * thread 2 dynamic; after thread 2 sets the default to "reflective" both
   * get reflective, thread 1 still through its pin.
   */
  lemma TwoThreadScenario()
    ensures var s0 := StaticInit(AsmNotFound, false, 0);
      var s1 := SetThread(s0, 1, Some(Reflective)).state;
      var g1 := GetThread(s1, 1);
      var g2 := GetThread(g1.state, 2);
      var s2 := SetDefault(g2.state, 2, SAFE_REFLECTIVE);
      var h2 := GetThread(s2, 2);
      var h1 := GetThread(h2.state, 1);
      && g1.result == Ok(Reflective) && g2.result == Ok(Dynamic)
      && h2.result == Ok(Reflective) && h1.result == Ok(Reflective)
  {
  }
}
