/** The older caching wrapper of `maurice/patchers/core.py`: one class whose
    `run_wrapped` decides hit or miss itself, with the wrapper's own state
    accessors and the `hash_any` fingerprint. Its run is the run of the
    newer `CachingMethodWrapper` with the same entry. */
module LegacyCore {
  import opened Wrappers
  import opened Values
  import Hashing
  import opened Objects
  import opened Store
  import opened CacheCore
  import CacheProperties

  /** `hash_any(obj)`: the md5 hex digest of the `dill` serialization; on a
      plain value it is the newer `hash_anything`. */
  function HashAny(env: Hashing.HashEnv, v: Value): (h: string)
    ensures h == Fingerprint(env, v)
  {
    env.hexdigest("md5", env.dumps(Hashing.Plain(v)))
  }

  /** The state part of a key when no state is kept. */
  const IgnoreState: string := "ignore_state"

  /** The entry of a call, as the constructor computes it: the state part
      is `hash_any` of the state (read with `_get_instance_state`, which can
      raise) when it is kept, `"ignore_state"` otherwise. */
  function LegacyKey(env: CacheEnv, moduleName: string, className: string, saveState: bool,
                     captured: Result<Attrs, PyException>, methodName: string, a: ArgsKwargs)
    : Result<Path, PyException>
  {
    var argsHash := HashAny(env.hashing, ArgsValue(a));
    if !saveState then Success(CacheKey(env.cacheDir, moduleName, className, IgnoreState, methodName, argsHash))
    else if captured.Failure? then Failure(captured.error)
    else Success(CacheKey(env.cacheDir, moduleName, className, HashAny(env.hashing, StrDict(captured.value)),
                          methodName, argsHash))
  }

  class CachingMethodWrapper {
    const boundMethod: BoundMethod
    const instance: Instance
    const args: ArgsKwargs
    const saveState: bool
    const fs: FileSystem
    const pathToCachedMethod: Path
    const pathToState: Path
    const pathToResult: Path

    constructor (boundMethod: BoundMethod, instance: Instance, args: ArgsKwargs, saveState: bool, fs: FileSystem,
                 pathToCachedMethod: Path)
      ensures this.boundMethod == boundMethod && this.instance == instance && this.args == args
      ensures this.saveState == saveState && this.fs == fs
      ensures this.pathToCachedMethod == pathToCachedMethod
      ensures pathToState == StatePath(pathToCachedMethod) && pathToResult == ResultPath(pathToCachedMethod)
    {
      this.boundMethod := boundMethod;
      this.instance := instance;
      this.args := args;
      this.saveState := saveState;
      this.fs := fs;
      this.pathToCachedMethod := pathToCachedMethod;
      pathToState := StatePath(pathToCachedMethod);
      pathToResult := ResultPath(pathToCachedMethod);
    }

    /** `run_wrapped()`: the run of the newer caching wrapper. */
    method RunWrapped() returns (r: Outcome)
      requires pathToState == StatePath(pathToCachedMethod) && pathToResult == ResultPath(pathToCachedMethod)
      modifies fs, instance
      ensures (r, fs.state, instance.attrs)
           == AfterRun(CachingHooks(saveState, pathToCachedMethod), instance.protocol, boundMethod, args,
                       old(fs.state), old(instance.attrs))
      ensures instance.calls
           == old(instance.calls) + RunCalls(CachingHooks(saveState, pathToCachedMethod), boundMethod, args,
                                             old(fs.state))
    {
      if !fs.Exists(pathToCachedMethod) {
        var outcome := instance.Invoke(boundMethod, args);
        if outcome.Raised? {
          return outcome;
        }
        r := SaveRun(outcome.value);
      } else {
        r := LoadRun();
      }
    }

    /** The miss half of `run_wrapped`, once the method has returned. */
    method SaveRun(result: Value) returns (r: Outcome)
      requires pathToState == StatePath(pathToCachedMethod) && pathToResult == ResultPath(pathToCachedMethod)
      modifies fs
      ensures var (saved, fs1) := SaveEntry(old(fs.state), pathToCachedMethod,
                 if saveState then Some(StateBlob(InstanceState(instance.protocol, instance.attrs))) else None,
                 result, None);
        r == (if saved.Success? then Returned(result) else Raised(saved.error)) && fs.state == fs1
    {
      var made := fs.MkDir(pathToCachedMethod, false);
      if made.Failure? {
        return Raised(made.error);
      }
      if saveState {
        var state := InstanceState(instance.protocol, instance.attrs);
        if state.Failure? {
          return Raised(state.error);
        }
        var wrote := fs.Write(pathToState, Pickled(StrDict(state.value)));
        if wrote.Failure? {
          return Raised(wrote.error);
        }
      }
      var wrote := fs.Write(pathToResult, Pickled(result));
      if wrote.Failure? {
        return Raised(wrote.error);
      }
      r := Returned(result);
    }

    /** The hit half of `run_wrapped`. */
    method LoadRun() returns (r: Outcome)
      requires pathToState == StatePath(pathToCachedMethod) && pathToResult == ResultPath(pathToCachedMethod)
      modifies instance
      ensures var (loaded, attrs1) := AfterLoad(OwnMethods, instance.protocol, fs.state, pathToCachedMethod,
                                                saveState, old(instance.attrs));
        r == (if loaded.Success? then Returned(loaded.value) else Raised(loaded.error)) && instance.attrs == attrs1
      ensures instance.calls == old(instance.calls)
    {
      if saveState {
        var loaded := fs.Load(pathToState);
        if loaded.Failure? {
          return Raised(loaded.error);
        }
        var state := AttrsOf(loaded.value);
        if state.Failure? {
          return Raised(state.error);
        }
        var restored := RestoreInstanceState(instance, state.value);
        if restored.Failure? {
          return Raised(restored.error);
        }
      }
      var result := fs.Load(pathToResult);
      r := if result.Success? then Returned(result.value) else Raised(result.error);
    }
  }

  /** `CachingMethodWrapper(method, args, kwargs, save_state)` */
  method NewCachingMethodWrapper(env: CacheEnv, boundMethod: BoundMethod, instance: Instance, args: ArgsKwargs,
                                 saveState: bool, fs: FileSystem) returns (r: Result<CachingMethodWrapper, PyException>)
    ensures var key := LegacyKey(env, instance.moduleName, instance.className, saveState,
                                 InstanceState(instance.protocol, instance.attrs), boundMethod.name, args);
      && (r.Failure? <==> key.Failure?)
      && (r.Failure? ==> r.error == key.error)
      && (r.Success? ==>
            && fresh(r.value)
            && r.value.boundMethod == boundMethod && r.value.instance == instance && r.value.args == args
            && r.value.saveState == saveState && r.value.fs == fs
            && r.value.pathToCachedMethod == key.value
            && r.value.pathToState == StatePath(key.value) && r.value.pathToResult == ResultPath(key.value))
  {
    var key := LegacyKey(env, instance.moduleName, instance.className, saveState,
                         InstanceState(instance.protocol, instance.attrs), boundMethod.name, args);
    if key.Failure? {
      return Failure(key.error);
    }
    var w := new CachingMethodWrapper(boundMethod, instance, args, saveState, fs, key.value);
    r := Success(w);
  }

  /** `_caching_method_wrapper`: a fresh wrapper, run. */
  function AfterCall(env: CacheEnv, moduleName: string, className: string, p: StateProtocol, m: BoundMethod,
                     a: ArgsKwargs, saveState: bool, fs: FsState, attrs: Attrs): (Outcome, FsState, Attrs)
  {
    var key := LegacyKey(env, moduleName, className, saveState, InstanceState(p, attrs), m.name, a);
    if key.Failure? then (Raised(key.error), fs, attrs)
    else AfterRun(CachingHooks(saveState, key.value), p, m, a, fs, attrs)
  }

  method CachingMethodWrapperCall(env: CacheEnv, fs: FileSystem, boundMethod: BoundMethod, instance: Instance,
                                  args: ArgsKwargs, saveState: bool) returns (r: Outcome)
    modifies fs, instance
    ensures (r, fs.state, instance.attrs)
         == AfterCall(env, instance.moduleName, instance.className, instance.protocol, boundMethod, args, saveState,
                      old(fs.state), old(instance.attrs))
  {
    var created := NewCachingMethodWrapper(env, boundMethod, instance, args, saveState, fs);
    if created.Failure? {
      return Raised(created.error);
    }
    r := created.value.RunWrapped();
  }

  // ---------------------------------------------------------------------
  // Properties
  // ---------------------------------------------------------------------

  /** When the state is kept, the older and the newer wrapper key a call
      alike; when it is not, their sentinels differ and so do their keys. */
  lemma LegacyKeyAgainstNewer(env: CacheEnv, moduleName: string, className: string, saveState: bool,
                              captured: Result<Attrs, PyException>, methodName: string, a: ArgsKwargs)
    ensures var older := LegacyKey(env, moduleName, className, saveState, captured, methodName, a);
      var newer := StateStringOf(env, saveState, captured, IgnoreStateSentinel);
      && (older.Success? <==> newer.Success?)
      && (saveState && older.Success? ==>
            older.value == CallKey(env, moduleName, className, newer.value, methodName, a))
      && (!saveState ==>
            older.value != CallKey(env, moduleName, className, newer.value, methodName, a))
  {
    var argsHash := HashAny(env.hashing, ArgsValue(a));
    assert IgnoreState != IgnoreStateSentinel by { assert IgnoreState[0] != IgnoreStateSentinel[0]; }
    CacheProperties.KeyInjective(env.cacheDir, moduleName, className, IgnoreState, methodName, argsHash,
                                 moduleName, className, IgnoreStateSentinel, methodName, argsHash);
  }

  /** A miss that can create its entry returns the method's result; the same
      call from the same state then hits, returns that result without
      calling the method, and restores the stored state when it is kept. */
  lemma LegacyReplay(env: CacheEnv, moduleName: string, className: string, p: StateProtocol, m: BoundMethod,
                     a: ArgsKwargs, saveState: bool, fs: FsState, attrs: Attrs)
    requires LegacyKey(env, moduleName, className, saveState, InstanceState(p, attrs), m.name, a).Success?
    requires CanCreate(fs, LegacyKey(env, moduleName, className, saveState, InstanceState(p, attrs), m.name, a).value)
    requires m.body(attrs, a).outcome.Returned?
    requires saveState ==> InstanceState(p, m.body(attrs, a).after).Success?
    ensures var call := m.body(attrs, a);
      var (r1, fs1, attrs1) := AfterCall(env, moduleName, className, p, m, a, saveState, fs, attrs);
      var (r2, fs2, attrs2) := AfterCall(env, moduleName, className, p, m, a, saveState, fs1, attrs);
      && r1 == call.outcome && attrs1 == call.after
      && fs2 == fs1
      && (!saveState ==> r2 == call.outcome && attrs2 == attrs)
      && (saveState ==>
            var (restored, attrs3) := AfterRestoreInstanceState(p, attrs, InstanceState(p, call.after).value);
            attrs2 == attrs3 && r2 == (if restored.Success? then call.outcome else Raised(restored.error)))
  {
    var entry := LegacyKey(env, moduleName, className, saveState, InstanceState(p, attrs), m.name, a).value;
    CacheProperties.CachingMiss(saveState, entry, p, m, a, fs, attrs);
    CacheProperties.CachingReplay(saveState, entry, p, m, a, fs, attrs, attrs);
  }
}
