/**
 * OptimizerFactory as an object whose fields the operations update in place:
 * the registry filled by the static initializer, the default name, and the
 * thread-local slot as a map from thread to class. Every operation takes the
 * calling thread explicitly and is proved against its function in
 * OptimizerState, so the lemmas proved there hold of the object's history.
 */
module OptimizerFactory {
  import opened OptimizerState

  /** A fresh accessor-optimizer instance of one class. */
  class AccessorOptimizer {
    const kind: Kind

    constructor (k: Kind)
      ensures kind == k
    {
      kind := k;
    }
  }

  /** The class of the instance a getter returned, or the error it raised. */
  function KindOf(r: Result<AccessorOptimizer>): Result<Kind>
  {
    match r
    case Ok(o) => Ok(o.kind)
    case Err(e) => Err(e)
  }

  class Factory {
    const registry: map<string, Kind>
    var default: string
    var overrides: map<ThreadId, Kind>

    /** The abstract state of the factory. */
    ghost function Model(): State
      reads this
    {
      State(registry, default, overrides)
    }

    /**
     * The static initializer, run once on thread `t`: register the
     * reflective and dynamic optimizers, then the ASM one if the probe found
     * the library; a failed probe falls back to "reflective", which
     * resetDefaultOptimizer then overwrites.
     */
    constructor (probe: ProbeOutcome, disableJit: bool, t: ThreadId)
      ensures Model() == StaticInit(probe, disableJit, t)
    {
      var compilers: map<string, Kind> := map[];
      compilers := compilers[SAFE_REFLECTIVE := Reflective];
      compilers := compilers[DYNAMIC := Dynamic];
      if probe == AsmFound {
        compilers := compilers[ASM_NAME := ASM];
        default := "";
      } else {
        default := SAFE_REFLECTIVE;
      }
      registry := compilers;
      overrides := map[];
      new;
      ResetDefaultOptimizer(t, disableJit);
    }

    /** getDefaultAccessorCompiler: a new instance of the default's class. */
    method GetDefaultAccessorCompiler() returns (r: Result<AccessorOptimizer>)
      ensures r.Ok? <==> default in registry
      ensures r.Ok? ==> fresh(r.value) && r.value.kind == registry[default]
      ensures r.Err? ==> r.error == UnableToInstantiate
      ensures KindOf(r) == DefaultKind(Model())
    {
      r := GetAccessorCompiler(default);
    }

    /** getAccessorCompiler: a new instance of the class registered under `name`. */
    method GetAccessorCompiler(name: string) returns (r: Result<AccessorOptimizer>)
      ensures r.Ok? <==> name in registry
      ensures r.Ok? ==> fresh(r.value) && r.value.kind == registry[name]
      ensures r.Err? ==> r.error == UnableToInstantiate
      ensures KindOf(r) == Lookup(Model(), name)
    {
      if name in registry {
        var o := new AccessorOptimizer(registry[name]);
        r := Ok(o);
      } else {
        r := Err(UnableToInstantiate);
      }
    }

    /**
     * getThreadAccessorOptimizer: cache the default's class for thread `t`
     * when it has none, then return a new instance of the thread's class.
     */
    method GetThreadAccessorOptimizer(t: ThreadId) returns (r: Result<AccessorOptimizer>)
      modifies this
      ensures r.Ok? ==> fresh(r.value)
      ensures Outcome(Model(), KindOf(r)) == GetThread(old(Model()), t)
    {
      if t !in overrides {
        var d := GetDefaultAccessorCompiler();
        if d.Err? {
          r := Err(d.error);
          return;
        }
        overrides := overrides[t := d.value.kind];
      }
      var o := new AccessorOptimizer(overrides[t]);
      r := Ok(o);
    }

    /** setThreadAccessorOptimizer: pin thread `t` to a class; null is refused. */
    method SetThreadAccessorOptimizer(t: ThreadId, optimizer: Option<Kind>) returns (r: Result<()>)
      modifies this
      ensures Outcome(Model(), r) == SetThread(old(Model()), t, optimizer)
    {
      if optimizer.None? {
        r := Err(NullOptimizer);
        return;
      }
      overrides := overrides[t := optimizer.value];
      r := Ok(());
    }

    /** resetDefaultOptimizer, with the disable-JIT system property as a parameter. */
    method ResetDefaultOptimizer(t: ThreadId, disableJit: bool)
      modifies this
      ensures Model() == ResetDefault(old(Model()), t, disableJit)
    {
      if disableJit {
        SetDefaultOptimizer(t, SAFE_REFLECTIVE);
      } else {
        SetDefaultOptimizer(t, DYNAMIC);
      }
    }

    /** setDefaultOptimizer: overwrite the default and clear only thread `t`'s slot. */
    method SetDefaultOptimizer(t: ThreadId, name: string)
      modifies this
      ensures Model() == SetDefault(old(Model()), t, name)
    {
      default := name;
      overrides := overrides - {t};
    }

    /** clearThreadAccessorOptimizer. */
    method ClearThreadAccessorOptimizer(t: ThreadId)
      modifies this
      ensures Model() == Clear(old(Model()), t)
    {
      overrides := overrides - {t};
    }

    /** isThreadAccessorOptimizerInitialized. */
    method IsThreadAccessorOptimizerInitialized(t: ThreadId) returns (b: bool)
      ensures b == IsInitialized(Model(), t)
    {
      b := t in overrides;
    }
  }
}
