# MVEL OptimizerFactory: optimizer selection as a verified state machine

MVEL compiles property and method access chains into "accessors". The accessor
optimizer that builds them is chosen by `org.mvel2.optimizers.OptimizerFactory`.
This project models that choice in Dafny and proves its rules. The factory
holds three pieces of state:

- **Registry.** A name-to-prototype table filled once by the static
  initializer. It always has `"reflective"` and `"dynamic"`, and it has
  `"ASM"` only when the startup probe for the bytecode library succeeds.
- **Process default.** A single name, set by `resetDefaultOptimizer` from the
  `mvel2.disable.jit` flag and overwritten by `setDefaultOptimizer`.
- **Per-thread class.** A thread-local optimizer class. The getter caches it
  on first use, `setThreadAccessorOptimizer` pins it, and
  `clearThreadAccessorOptimizer` or `setDefaultOptimizer` clears it.

Every getter returns a new instance of the chosen class.

The project has three modules:

- `optimizer_state.dfy` (module `OptimizerState`) holds the state as a
  datatype `State(registry, default, overrides)`. The Java optimizer classes
  become the tag `Kind = Reflective | Dynamic | ASM`. The thread-local becomes
  a map keyed by an explicit `ThreadId`. Each operation is a function from the
  old state and the calling thread to the new state and its result. The
  factory's two `RuntimeException`s become `Err(UnableToInstantiate)` and
  `Err(NullOptimizer)`.
- `optimizer_traces.dfy` (module `OptimizerTraces`) models interleaved calls
  from many threads as a sequence of `Call`s applied by `Run`. It proves by
  induction what one thread can rely on, whatever the others do.
- `optimizer_factory.dfy` (module `OptimizerFactory`) holds the factory as a
  class `Factory` with fields `registry`, `default` and `overrides`. The
  registry is a `const`, set once by the constructor, as the `static final`
  table is. The constructor is the static initializer. Each method updates the fields in
  place and is proved equal to its function in `OptimizerState`. Getters
  return a `fresh` `AccessorOptimizer` whose `kind` is the chosen class.

## Behaviour worth knowing

- `setDefaultOptimizer` accepts any name (line 117), so the default can name
  no registry entry. After that, getDefaultAccessorCompiler fails, and so
  does the getter of a thread without a class (`DefaultCanBecomeUnregistered`,
  `UnregisteredDefaultFails`).
- A thread that cached `"dynamic"` keeps it when another thread changes the
  default. Only the calling thread's slot is cleared (line 120). So in
  `TwoThreadScenario`, thread 2 itself makes the `setDefaultOptimizer` call,
  and only then does its next getter call re-resolve the default.

## Model

| member | source | states |
|---|---|---|
| OptimizerState.Registry | src/main/java/org/mvel2/optimizers/OptimizerFactory.java:42-56 | the registry always maps "reflective" and "dynamic" to their classes, holds "ASM" exactly when the probe succeeded, and holds no other name |
| OptimizerState.StaticInit | src/main/java/org/mvel2/optimizers/OptimizerFactory.java:41-69 | after startup the registry is the probe's, no thread has a class, and the default is "reflective" if JIT is disabled and "dynamic" otherwise, whatever the probe found; so the default is registered |
| OptimizerState.SetDefault | src/main/java/org/mvel2/optimizers/OptimizerFactory.java:114-121 | the default becomes the given name unchecked, the registry is untouched, the calling thread loses its class and every other thread's slot is unchanged |
| OptimizerState.ResetDefault | src/main/java/org/mvel2/optimizers/OptimizerFactory.java:106-112 | the default becomes "reflective" when JIT is disabled and "dynamic" otherwise; the calling thread loses its class, other threads keep theirs |
| OptimizerState.Lookup | src/main/java/org/mvel2/optimizers/OptimizerFactory.java:80-87 | succeeds exactly when the name is registered, with the registered class; otherwise fails with the instantiation error |
| OptimizerState.DefaultKind | src/main/java/org/mvel2/optimizers/OptimizerFactory.java:71-78 | succeeds exactly when the current default is registered, with that entry's class; otherwise fails with the instantiation error |
| OptimizerState.GetThread | src/main/java/org/mvel2/optimizers/OptimizerFactory.java:89-99 | a thread with a class gets it and nothing changes; a thread without one gets the default's class, which is then cached for it; if the default is unregistered the call fails and nothing is cached; other threads' slots, the registry and the default never change |
| OptimizerState.SetThread | src/main/java/org/mvel2/optimizers/OptimizerFactory.java:101-104 | null fails with "null optimizer" and leaves the state unchanged; a class is pinned for the calling thread only |
| OptimizerState.Clear | src/main/java/org/mvel2/optimizers/OptimizerFactory.java:127-130 | the calling thread has no class afterwards; registry, default and other threads are unchanged |
| OptimizerState.IsInitialized | src/main/java/org/mvel2/optimizers/OptimizerFactory.java:132-134 | true exactly when the thread's next getter call neither caches a class nor fails |
| OptimizerTraces.Step | src/main/java/org/mvel2/optimizers/OptimizerFactory.java:71-134 | no public operation changes the registry or any slot but the calling thread's |
| OptimizerTraces.RunKeepsRegistry | src/main/java/org/mvel2/optimizers/OptimizerFactory.java:36-56 | the registry is write-once: over any sequence of calls from any threads it stays what startup built |
| OptimizerTraces.OtherThreadsLeaveSlot | src/main/java/org/mvel2/optimizers/OptimizerFactory.java:38-39 | calls by other threads, default changes included, leave a thread's slot exactly as it was |
| OptimizerTraces.SlotKeptWithoutUnpin | src/main/java/org/mvel2/optimizers/OptimizerFactory.java:89-104 | a thread's class survives any calls except its own set, clear, setDefault or reset |
| OptimizerTraces.PinSurvivesOtherThreads | src/main/java/org/mvel2/optimizers/OptimizerFactory.java:101-104 | after pinning class C, the same thread's next getter call yields C whatever other threads did in between, setDefaultOptimizer included |
| OptimizerTraces.CachedKindIsSticky | src/main/java/org/mvel2/optimizers/OptimizerFactory.java:89-95 | once the getter cached a class for a thread, later getter calls return that class until the thread itself clears, pins or resets |
| OptimizerTraces.ClearThenGetFollowsDefault | src/main/java/org/mvel2/optimizers/OptimizerFactory.java:127-134 | after clearing, the thread is not initialized and its next getter call yields the then-current default's class, even after other threads changed the default |
| OptimizerTraces.ClearIdempotent | src/main/java/org/mvel2/optimizers/OptimizerFactory.java:127-130 | clearing twice is the same as clearing once |
| OptimizerTraces.InitializedFlag | src/main/java/org/mvel2/optimizers/OptimizerFactory.java:132-134 | initialized right after a pin or a successful getter call; a failed getter call leaves the flag as it was; not initialized right after setDefaultOptimizer or a clear on the same thread |
| OptimizerTraces.UnregisteredDefaultFails | src/main/java/org/mvel2/optimizers/OptimizerFactory.java:114-121 | an unregistered name still becomes the default; then getDefaultAccessorCompiler fails, and the thread's getter call fails and caches nothing |
| OptimizerTraces.ResetThenGet | src/main/java/org/mvel2/optimizers/OptimizerFactory.java:106-112 | reset followed by a getter call on the same thread yields the reflective class when JIT is disabled and the dynamic class otherwise, for every probe outcome |
| OptimizerTraces.ReachableLookup | src/main/java/org/mvel2/optimizers/OptimizerFactory.java:80-87 | in every state reachable from startup, lookup by name succeeds exactly for "reflective", "dynamic", and "ASM" when the probe succeeded, with the matching class |
| OptimizerTraces.DefaultCanBecomeUnregistered | src/main/java/org/mvel2/optimizers/OptimizerFactory.java:114-121 | setDefaultOptimizer("ASM") after startup without the library leaves a default that names no registry entry |
| OptimizerTraces.TwoThreadScenario | src/main/java/org/mvel2/optimizers/OptimizerFactory.java:89-121 | thread 1 pins reflective while the default is "dynamic": thread 1 gets reflective and thread 2 gets dynamic; after thread 2 sets the default to "reflective", both get reflective |
| OptimizerFactory.Factory.constructor | src/main/java/org/mvel2/optimizers/OptimizerFactory.java:41-69 | the object after the static initializer, including the fallback to "reflective" that the final reset overwrites, is the state StaticInit describes |
| OptimizerFactory.Factory.GetDefaultAccessorCompiler | src/main/java/org/mvel2/optimizers/OptimizerFactory.java:71-78 | a fresh instance of the default's registered class, or the instantiation error when the default is unregistered |
| OptimizerFactory.Factory.GetAccessorCompiler | src/main/java/org/mvel2/optimizers/OptimizerFactory.java:80-87 | a fresh instance of the class registered under the name, or the instantiation error when the name is unregistered |
| OptimizerFactory.Factory.GetThreadAccessorOptimizer | src/main/java/org/mvel2/optimizers/OptimizerFactory.java:89-99 | a fresh instance, and the class and new fields are exactly those GetThread gives |
| OptimizerFactory.Factory.SetThreadAccessorOptimizer | src/main/java/org/mvel2/optimizers/OptimizerFactory.java:101-104 | the result and new fields are exactly those SetThread gives |
| OptimizerFactory.Factory.ResetDefaultOptimizer | src/main/java/org/mvel2/optimizers/OptimizerFactory.java:106-112 | the new fields are exactly those ResetDefault gives |
| OptimizerFactory.Factory.SetDefaultOptimizer | src/main/java/org/mvel2/optimizers/OptimizerFactory.java:114-121 | the new fields are exactly those SetDefault gives |
| OptimizerFactory.Factory.ClearThreadAccessorOptimizer | src/main/java/org/mvel2/optimizers/OptimizerFactory.java:127-130 | the new fields are exactly those Clear gives |
| OptimizerFactory.Factory.IsThreadAccessorOptimizerInitialized | src/main/java/org/mvel2/optimizers/OptimizerFactory.java:132-134 | true exactly when the calling thread has a class; changes nothing |

## Left out

- The bytecode-library probe (`getClassLoader`, `loadClass`, and the
  `ClassNotFoundException` and `Throwable` handlers) is class loading in the
  JVM. It becomes the `ProbeOutcome` parameter of the constructor, with one
  value per handler. The two failure outcomes behave identically.
- Reflective construction (`newInstance`) and the `init()` of the concrete
  optimizers are not modelled. An instance is an `AccessorOptimizer` object
  tagged with its `Kind`. Constructing a class is assumed to succeed, so in
  the getters the only instantiation failure modelled is a name missing
  from the registry.
- SetThread: a thread can be pinned only to one of the three `Kind`s, not to
  an arbitrary `Class<? extends AccessorOptimizer>`.
- GetThread: constructing the thread's pinned class is assumed to succeed.
  Its own failure at lines 93-98 is not modelled; there the call throws and
  the pin stays set. This includes the ASM class pinned after a failed probe
  (`AsmBroken`), whose construction the static block shows can throw.
- Java's `null` default before the final reset (when the probe succeeds) is
  written `""`. No code path observes it, and it is no registry key.
- A `null` name passed to `getAccessorCompiler` or `setDefaultOptimizer` is
  not modelled separately. The registry has no `null` key, so it behaves like
  any unregistered name.
- The `mvel2.disable.jit` system property is read from the environment. It
  becomes the `disableJit` parameter.
- Logging (`LOGGER.info`), `printStackTrace` and the `System.err` notice are
  left out. They have no effect on the state.
- `volatile` visibility and `ThreadLocal` lifetime (slots vanishing when a
  thread exits) are left out. Threads are explicit ids keying a map, and
  calls are applied one at a time in a single total order.
- The `try`/`catch` around the body of `setDefaultOptimizer` is left out.
  Only the logging call inside it can throw.
- The test class `ClassTests.java` only resets the factory and evaluates a
  script file, so it adds no behaviour to this model.
