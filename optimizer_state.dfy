/**
 * The optimizer-selection state of MVEL's OptimizerFactory, as values.
 *
 * The factory's whole state is three things: the registry of strategy
 * prototypes filled once by the static initializer, the process-wide default
 * strategy name, and the per-thread strategy class. Here the Java classes
 * become the tag `Kind`, the thread-local becomes a map keyed by an explicit
 * `ThreadId`, and every operation becomes a function from the old state (and
 * the calling thread) to the new state and its result.
 */
module OptimizerState {

  /** The three accessor-optimizer classes the factory knows. */
  datatype Kind = Reflective | Dynamic | ASM

  /** The registry name of each strategy. */
  const SAFE_REFLECTIVE: string := "reflective"
  const DYNAMIC: string := "dynamic"
  const ASM_NAME: string := "ASM"

  /** The identity of a calling thread; the thread-local slot is keyed by it. */
  type ThreadId = nat

  /** The two wrapped RuntimeExceptions the factory throws. */
  datatype Error =
    | UnableToInstantiate  // "unable to instantiate accessor compiler"
    | NullOptimizer        // "null optimizer"

  datatype Result<T> = Ok(value: T) | Err(error: Error)

  datatype Option<T> = None | Some(value: T)

  /** How the startup probe for the bytecode library ended. */
  datatype ProbeOutcome =
    | AsmFound     // the class loaded and the ASM optimizer initialised
    | AsmNotFound  // ClassNotFoundException
    | AsmBroken    // any other Throwable: an incompatible library

  datatype State = State(
    registry: map<string, Kind>,
    default: string,
    overrides: map<ThreadId, Kind>)

  /** A result together with the state the call leaves behind. */
  datatype Outcome<T> = Outcome(state: State, result: Result<T>)

  /** Thread `u` has the same slot (absent, or the same class) in both maps. */
  predicate SameSlot(m: map<ThreadId, Kind>, m': map<ThreadId, Kind>, u: ThreadId)
  {
    (u !in m && u !in m') || (u in m && u in m' && m[u] == m'[u])
  }

  /** Only thread `t`'s slot may differ between `m` and `m'`. */
  ghost predicate OthersUnchanged(m: map<ThreadId, Kind>, m': map<ThreadId, Kind>, t: ThreadId)
  {
    forall u :: u != t ==> SameSlot(m, m', u)
  }

  /** The registry the static initializer builds for a given probe outcome. */
  function Registry(probe: ProbeOutcome): (r: map<string, Kind>)
    ensures SAFE_REFLECTIVE in r && r[SAFE_REFLECTIVE] == Reflective
    ensures DYNAMIC in r && r[DYNAMIC] == Dynamic
    ensures ASM_NAME in r <==> probe == AsmFound
    ensures ASM_NAME in r ==> r[ASM_NAME] == ASM
    ensures forall n :: n in r ==> n == SAFE_REFLECTIVE || n == DYNAMIC || n == ASM_NAME
  {
    var base := map[SAFE_REFLECTIVE := Reflective, DYNAMIC := Dynamic];
    if probe == AsmFound then base[ASM_NAME := ASM] else base
  }

  /**
   * setDefaultOptimizer: overwrite the default without checking it is
   * registered, and remove only the calling thread's slot.
   */
  function SetDefault(s: State, t: ThreadId, name: string): (s': State)
    ensures s'.default == name && s'.registry == s.registry
    ensures t !in s'.overrides
    ensures OthersUnchanged(s.overrides, s'.overrides, t)
  {
    State(s.registry, name, s.overrides - {t})
  }

  /** resetDefaultOptimizer: "reflective" when JIT is disabled, "dynamic" otherwise. */
  function ResetDefault(s: State, t: ThreadId, disableJit: bool): (s': State)
    ensures s'.default == (if disableJit then SAFE_REFLECTIVE else DYNAMIC)
    ensures s'.registry == s.registry
    ensures t !in s'.overrides
    ensures OthersUnchanged(s.overrides, s'.overrides, t)
  {
    SetDefault(s, t, if disableJit then SAFE_REFLECTIVE else DYNAMIC)
  }

  /**
   * The static initializer run on thread `t`. Before resetDefaultOptimizer
   * the default is null when the probe succeeds (written "" here: it is no
   * registry key) and "reflective" when it fails.
   */
  function StaticInit(probe: ProbeOutcome, disableJit: bool, t: ThreadId): (s: State)
    ensures s.registry == Registry(probe)
    ensures s.default == (if disableJit then SAFE_REFLECTIVE else DYNAMIC)
    ensures s.default in s.registry
    ensures s.overrides == map[]
  {
    var fallback := if probe == AsmFound then "" else SAFE_REFLECTIVE;
    ResetDefault(State(Registry(probe), fallback, map[]), t, disableJit)
  }

  /**
   * getAccessorCompiler(name): the class registered under `name`; a missing
   * entry makes the lookup null and the instantiation fail.
   */
  function Lookup(s: State, name: string): (r: Result<Kind>)
    ensures r.Ok? <==> name in s.registry
    ensures r.Ok? ==> r.value == s.registry[name]
    ensures r.Err? ==> r.error == UnableToInstantiate
  {
    if name in s.registry then Ok(s.registry[name]) else Err(UnableToInstantiate)
  }

  /** getDefaultAccessorCompiler: the class registered under the current default. */
  function DefaultKind(s: State): (r: Result<Kind>)
    ensures r.Ok? <==> s.default in s.registry
    ensures r.Ok? ==> r.value == s.registry[s.default]
    ensures r.Err? ==> r.error == UnableToInstantiate
  {
    Lookup(s, s.default)
  }

  /**
   * getThreadAccessorOptimizer: the thread's own class if it has one;
   * otherwise the default's class, which is then cached for the thread.
   * When the default cannot be instantiated nothing is cached.
   */
  function GetThread(s: State, t: ThreadId): (o: Outcome<Kind>)
    ensures o.state.registry == s.registry && o.state.default == s.default
    ensures OthersUnchanged(s.overrides, o.state.overrides, t)
    ensures t in s.overrides ==> o.result == Ok(s.overrides[t]) && o.state == s
    ensures t !in s.overrides ==> o.result == DefaultKind(s)
    ensures o.result.Ok? ==> t in o.state.overrides && o.state.overrides[t] == o.result.value
    ensures o.result.Err? ==> o.state == s
  {
    if t in s.overrides then Outcome(s, Ok(s.overrides[t]))
    else match DefaultKind(s)
      case Ok(k) => Outcome(s.(overrides := s.overrides[t := k]), Ok(k))
      case Err(e) => Outcome(s, Err(e))
  }

  /** setThreadAccessorOptimizer: pin the thread's class; null is refused. */
  function SetThread(s: State, t: ThreadId, optimizer: Option<Kind>): (o: Outcome<()>)
    ensures optimizer.None? ==> o.result == Err(NullOptimizer) && o.state == s
    ensures optimizer.Some? ==>
      o.result.Ok? && t in o.state.overrides && o.state.overrides[t] == optimizer.value
    ensures o.state.registry == s.registry && o.state.default == s.default
    ensures OthersUnchanged(s.overrides, o.state.overrides, t)
  {
    match optimizer
    case None => Outcome(s, Err(NullOptimizer))
    case Some(k) => Outcome(s.(overrides := s.overrides[t := k]), Ok(()))
  }

  /** clearThreadAccessorOptimizer: drop the thread's class. */
  function Clear(s: State, t: ThreadId): (s': State)
    ensures t !in s'.overrides
    ensures s'.registry == s.registry && s'.default == s.default
    ensures OthersUnchanged(s.overrides, s'.overrides, t)
  {
    s.(overrides := s.overrides - {t})
  }

  /**
   * isThreadAccessorOptimizerInitialized: true exactly when the thread's
   * next getter call neither caches a class nor fails.
   */
  function IsInitialized(s: State, t: ThreadId): (b: bool)
    ensures b <==> GetThread(s, t).state == s && GetThread(s, t).result.Ok?
  {
    t in s.overrides
  }
}
