/** The method-result cache of `src/maurice/patchers/core.py`: the hook
    protocol of `BaseMethodWrapper.run`, the hooks of `CachingMethodWrapper`,
    the state accessors `_get_state` and `_set_state`, `MethodCacheManager`
    and `run_cached_method`. The files live in `Store`, the fingerprints
    come from `Hashing`; `repr` and `CACHE_DIR` are parameters. */
module CacheCore {
  import opened Wrappers
  import opened Values
  import opened Text
  import Hashing
  import opened Objects
  import opened Store

  /** What the cache relies on and the model leaves abstract: the
      fingerprint environment, `repr`, and `CACHE_DIR` (which the source
      derives from the working directory when the module is imported). */
  datatype CacheEnv = CacheEnv(hashing: Hashing.HashEnv, repr: Value -> string, cacheDir: Path)

  // ---------------------------------------------------------------------
  // Fingerprints and keys
  // ---------------------------------------------------------------------

  /** `hash_anything(v)` for a plain Python value (a state dictionary, the
      call's arguments, a result): it takes the generic branch. */
  function Fingerprint(env: Hashing.HashEnv, v: Value): (h: string)
    ensures Hashing.HashAnything(env, Hashing.Plain(v)) == Success(h)
  {
    env.hexdigest(Hashing.DefaultHashName, env.dumps(Hashing.Plain(v)))
  }

  /** The state part of a key when `MethodCacheManager` keeps no state. */
  const StatelessSentinel: string := "_stateless"
  /** The state part of a key when `CachingMethodWrapper` keeps no state. */
  const IgnoreStateSentinel: string := "_ignore_state"

  /** `CACHE_DIR.joinpath(*module.split("."), class_name, state_string,
      method_name, args_hash)` */
  function CacheKey(cacheDir: Path, moduleName: string, className: string, stateString: string,
                    methodName: string, argsHash: string): Path
  {
    cacheDir + Split(moduleName, '.') + [className, stateString, methodName, argsHash]
  }

  /** The key of one call: the arguments' part is `hash_anything((args, kwargs))`. */
  function CallKey(env: CacheEnv, moduleName: string, className: string, stateString: string,
                   methodName: string, a: ArgsKwargs): Path
  {
    CacheKey(env.cacheDir, moduleName, className, stateString, methodName, Fingerprint(env.hashing, ArgsValue(a)))
  }

  /** The state part of a key: the fingerprint of the state when it is kept,
      the sentinel otherwise (the state is then not even read). */
  function StateStringOf(env: CacheEnv, stateful: bool, captured: Result<Attrs, PyException>,
                         sentinel: string): Result<string, PyException>
  {
    if !stateful then Success(sentinel)
    else if captured.Failure? then Failure(captured.error)
    else Success(Fingerprint(env.hashing, StrDict(captured.value)))
  }

  // ---------------------------------------------------------------------
  // Reading and restoring an instance's state
  // ---------------------------------------------------------------------

  /** Which accessors a wrapper uses: its own `_get_instance_state` and
      `_set_instance_state`, or the module's `_get_state` and `_set_state`. */
  datatype StateAccess = OwnMethods | ModuleFunctions

  function Capture(access: StateAccess, p: StateProtocol, attrs: Attrs): Result<Attrs, PyException> {
    match access
    case OwnMethods => InstanceState(p, attrs)
    case ModuleFunctions => GetState(p, attrs)
  }

  function AfterRestore(access: StateAccess, p: StateProtocol, attrs: Attrs, state: Attrs)
    : (Result<(), PyException>, Attrs)
  {
    match access
    case OwnMethods => AfterRestoreInstanceState(p, attrs, state)
    case ModuleFunctions => AfterSetState(p, attrs, state)
  }

  /** Restores `state` onto the instance with the chosen accessor. */
  method Restore(access: StateAccess, inst: Instance, state: Attrs) returns (r: Result<(), PyException>)
    modifies inst
    ensures (r, inst.attrs) == AfterRestore(access, inst.protocol, old(inst.attrs), state)
    ensures inst.calls == old(inst.calls)
  {
    match access
    case OwnMethods => r := RestoreInstanceState(inst, state);
    case ModuleFunctions => r := SetState(inst, state);
  }

  /** A captured state as the value that is pickled. */
  function StateBlob(captured: Result<Attrs, PyException>): Result<Value, PyException> {
    if captured.Success? then Success(StrDict(captured.value)) else Failure(captured.error)
  }

  /** The attributes a loaded state pickle holds: a dictionary with string
      keys; anything else makes the restore raise. */
  function AttrsOf(v: Value): (r: Result<Attrs, PyException>)
    ensures r.Success? <==> v.DictV? && forall k | k in v.entries :: k.StrA?
    ensures r.Success? ==> StrDict(r.value) == v
  {
    if v.DictV? && forall k | k in v.entries :: k.StrA? then
      var attrs := map k | k in v.entries :: k.s := v.entries[k];
      assert forall k | k in v.entries :: k == StrA(k.s);
      Success(attrs)
    else
      Failure(PyException("TypeError", "the state is not a dictionary of attributes"))
  }

  // ---------------------------------------------------------------------
  // Loading a cached entry
  // ---------------------------------------------------------------------

  /** A cache hit: when the state is kept, its pickle is loaded and
      restored onto the instance first; then the result pickle is loaded.
      The first failure ends it, and a restore already done stays. */
  function AfterLoad(access: StateAccess, p: StateProtocol, fs: FsState, entry: Path, withState: bool,
                     attrs: Attrs): (Result<Value, PyException>, Attrs)
  {
    if !withState then (LoadFrom(fs, ResultPath(entry)), attrs)
    else
      var loaded := LoadFrom(fs, StatePath(entry));
      if loaded.Failure? then (Failure(loaded.error), attrs)
      else
        var state := AttrsOf(loaded.value);
        if state.Failure? then (Failure(state.error), attrs)
        else
          var (restored, attrs1) := AfterRestore(access, p, attrs, state.value);
          if restored.Failure? then (Failure(restored.error), attrs1)
          else (LoadFrom(fs, ResultPath(entry)), attrs1)
  }

  method Load(access: StateAccess, fs: FileSystem, inst: Instance, entry: Path, withState: bool)
    returns (r: Result<Value, PyException>)
    modifies inst
    ensures (r, inst.attrs) == AfterLoad(access, inst.protocol, fs.state, entry, withState, old(inst.attrs))
    ensures inst.calls == old(inst.calls)
  {
    if withState {
      var loaded := fs.Load(StatePath(entry));
      if loaded.Failure? {
        return Failure(loaded.error);
      }
      var state := AttrsOf(loaded.value);
      if state.Failure? {
        return Failure(state.error);
      }
      var restored := Restore(access, inst, state.value);
      if restored.Failure? {
        return Failure(restored.error);
      }
    }
    r := fs.Load(ResultPath(entry));
  }

  // ---------------------------------------------------------------------
  // BaseMethodWrapper.run and the hooks
  // ---------------------------------------------------------------------

  /** A wrapped method's result, or the `MISSING` sentinel. */
  datatype MaybeResult = Missing | Present(value: Value)

  datatype PreHookResult = PreHookResult(runWrappedMethod: bool, runPostHook: bool,
                                         newArgsKwargs: Option<ArgsKwargs>)

  /** `PreHookResult()`: run the method with its own arguments, then the post-hook. */
  const DefaultPreHookResult := PreHookResult(true, true, None)

  /** The hooks of a wrapper class: `BaseMethodWrapper`'s own,
      `CachingMethodWrapper`'s (whether it keeps the state, and the entry
      its constructor computed), or those of another subclass, given by the
      `PreHookResult` its pre-hook returns and what its post-hook makes of
      the result. */
  datatype Hooks =
    | BaseHooks
    | CachingHooks(saveState: bool, entry: Path)
    | CustomHooks(className: string, pre: PreHookResult,
                  post: MaybeResult -> Result<MaybeResult, PyException>)

  /** `type(self).__name__` */
  function WrapperName(h: Hooks): string {
    match h
    case BaseHooks => "BaseMethodWrapper"
    case CachingHooks(_, _) => "CachingMethodWrapper"
    case CustomHooks(name, _, _) => name
  }

  /** The `RuntimeError` of a run that ends with no result. */
  function Misconfigured(name: string): PyException {
    PyException("RuntimeError", "Misconfigured implementation of " + name + ": the wrapped method result was not set")
  }

  /** `_pre_hook()`; the caching wrapper runs the method exactly when its
      entry does not exist. */
  function PreHookOf(h: Hooks, fs: FsState): PreHookResult {
    match h
    case BaseHooks => DefaultPreHookResult
    case CachingHooks(_, entry) => DefaultPreHookResult.(runWrappedMethod := !Store.Exists(fs, entry))
    case CustomHooks(_, pre, _) => pre
  }

  /** The arguments the method is called with. */
  function CallArgs(pre: PreHookResult, original: ArgsKwargs): ArgsKwargs {
    if pre.newArgsKwargs.Some? then pre.newArgsKwargs.value else original
  }

  /** `_post_hook(result)`: how it ends, and the files and attributes it
      leaves. The caching post-hook loads the entry when the result is
      `MISSING`, and otherwise makes the entry directory, writes the state
      (taken now, after the call) when it is kept, writes the result and
      hands the result back. */
  function AfterPostHook(h: Hooks, p: StateProtocol, result: MaybeResult, fs: FsState, attrs: Attrs)
    : (Result<MaybeResult, PyException>, FsState, Attrs)
  {
    match h
    case BaseHooks => (Success(result), fs, attrs)
    case CustomHooks(_, _, post) => (post(result), fs, attrs)
    case CachingHooks(saveState, entry) =>
      if result.Missing? then
        var (loaded, attrs1) := AfterLoad(OwnMethods, p, fs, entry, saveState, attrs);
        (if loaded.Success? then Success(Present(loaded.value)) else Failure(loaded.error), fs, attrs1)
      else
        var (saved, fs1) := SaveEntry(fs, entry, if saveState then Some(StateBlob(InstanceState(p, attrs))) else None,
                                      result.value, None);
        (if saved.Success? then Success(result) else Failure(saved.error), fs1, attrs)
  }

  /** How a run ends once its result is settled: `MISSING` raises. */
  function Finish(result: Result<MaybeResult, PyException>, name: string): Outcome {
    match result
    case Failure(e) => Raised(e)
    case Success(Missing) => Raised(Misconfigured(name))
    case Success(Present(v)) => Returned(v)
  }

  /** `run()`: how it ends, and the files and attributes it leaves. The
      method runs when the pre-hook says so (an exception it raises ends
      the run), the post-hook when the pre-hook says so, and a result still
      `MISSING` at the end raises `RuntimeError`. */
  function AfterRun(h: Hooks, p: StateProtocol, m: BoundMethod, a: ArgsKwargs, fs: FsState, attrs: Attrs)
    : (Outcome, FsState, Attrs)
  {
    var pre := PreHookOf(h, fs);
    var call := m.body(attrs, CallArgs(pre, a));
    if pre.runWrappedMethod && call.outcome.Raised? then (call.outcome, fs, call.after)
    else
      var result := if pre.runWrappedMethod then Present(call.outcome.value) else Missing;
      var attrs1 := if pre.runWrappedMethod then call.after else attrs;
      if !pre.runPostHook then (Finish(Success(result), WrapperName(h)), fs, attrs1)
      else
        var (post, fs2, attrs2) := AfterPostHook(h, p, result, fs, attrs1);
        (Finish(post, WrapperName(h)), fs2, attrs2)
  }

  /** The calls a run makes of the wrapped method. */
  function RunCalls(h: Hooks, m: BoundMethod, a: ArgsKwargs, fs: FsState): seq<(string, ArgsKwargs)> {
    var pre := PreHookOf(h, fs);
    if pre.runWrappedMethod then [(m.name, CallArgs(pre, a))] else []
  }

  /** A method wrapper: the bound method (with its instance), the call's
      arguments, the hooks of its class and the file system it caches in. */
  class MethodWrapper {
    const boundMethod: BoundMethod
    const instance: Instance
    const args: ArgsKwargs
    const hooks: Hooks
    const fs: FileSystem

    constructor (boundMethod: BoundMethod, instance: Instance, args: ArgsKwargs, hooks: Hooks, fs: FileSystem)
      ensures this.boundMethod == boundMethod && this.instance == instance && this.args == args
      ensures this.hooks == hooks && this.fs == fs
    {
      this.boundMethod := boundMethod;
      this.instance := instance;
      this.args := args;
      this.hooks := hooks;
      this.fs := fs;
    }

    method PreHook() returns (pre: PreHookResult)
      ensures pre == PreHookOf(hooks, fs.state)
    {
      match hooks
      case BaseHooks => pre := DefaultPreHookResult;
      case CachingHooks(_, entry) => pre := DefaultPreHookResult.(runWrappedMethod := !fs.Exists(entry));
      case CustomHooks(_, p, _) => pre := p;
    }

    method PostHook(result: MaybeResult) returns (r: Result<MaybeResult, PyException>)
      modifies fs, instance
      ensures (r, fs.state, instance.attrs)
           == AfterPostHook(hooks, instance.protocol, result, old(fs.state), old(instance.attrs))
      ensures instance.calls == old(instance.calls)
    {
      match hooks {
        case BaseHooks =>
          r := Success(result);
        case CustomHooks(_, _, post) =>
          r := post(result);
        case CachingHooks(saveState, entry) =>
          if result.Missing? {
            var loaded := Load(OwnMethods, fs, instance, entry, saveState);
            r := if loaded.Success? then Success(Present(loaded.value)) else Failure(loaded.error);
          } else {
            r := SaveCall(saveState, entry, result.value);
          }
      }
    }

    /** The saving half of the caching post-hook. */
    method SaveCall(saveState: bool, entry: Path, result: Value) returns (r: Result<MaybeResult, PyException>)
      modifies fs
      ensures var (saved, fs1) := SaveEntry(old(fs.state), entry,
                 if saveState then Some(StateBlob(InstanceState(instance.protocol, instance.attrs))) else None,
                 result, None);
        r == (if saved.Success? then Success(Present(result)) else Failure(saved.error)) && fs.state == fs1
    {
      var made := fs.MkDir(entry, false);
      if made.Failure? {
        return Failure(made.error);
      }
      if saveState {
        var state := InstanceState(instance.protocol, instance.attrs);
        if state.Failure? {
          return Failure(state.error);
        }
        var wrote := fs.Write(StatePath(entry), Pickled(StrDict(state.value)));
        if wrote.Failure? {
          return Failure(wrote.error);
        }
      }
      var wrote := fs.Write(ResultPath(entry), Pickled(result));
      if wrote.Failure? {
        return Failure(wrote.error);
      }
      r := Success(Present(result));
    }

    /** `run()` */
    method Run() returns (r: Outcome)
      modifies fs, instance
      ensures (r, fs.state, instance.attrs)
           == AfterRun(hooks, instance.protocol, boundMethod, args, old(fs.state), old(instance.attrs))
      ensures instance.calls == old(instance.calls) + RunCalls(hooks, boundMethod, args, old(fs.state))
    {
      var result := Missing;
      var pre := PreHook();
      if pre.runWrappedMethod {
        var callArgs := if pre.newArgsKwargs.Some? then pre.newArgsKwargs.value else args;
        var outcome := instance.Invoke(boundMethod, callArgs);
        if outcome.Raised? {
          return outcome;
        }
        result := Present(outcome.value);
      }
      if pre.runPostHook {
        var post := PostHook(result);
        if post.Failure? {
          return Raised(post.error);
        }
        result := post.value;
      }
      if result.Missing? {
        return Raised(Misconfigured(WrapperName(hooks)));
      }
      r := Returned(result.value);
    }
  }

  /** `CachingMethodWrapper(method, args, kwargs, save_state)`: the
      constructor reads the state with the wrapper's own
      `_get_instance_state` when it is kept, which can raise, and computes
      the entry of the call. */
  method NewCachingMethodWrapper(env: CacheEnv, boundMethod: BoundMethod, instance: Instance, args: ArgsKwargs,
                                 saveState: bool, fs: FileSystem)
    returns (r: Result<MethodWrapper, PyException>)
    ensures var s := StateStringOf(env, saveState, InstanceState(instance.protocol, instance.attrs),
                                   IgnoreStateSentinel);
      && (r.Failure? <==> s.Failure?)
      && (r.Failure? ==> r.error == s.error)
      && (r.Success? ==>
            && fresh(r.value)
            && r.value.boundMethod == boundMethod && r.value.instance == instance && r.value.args == args
            && r.value.fs == fs
            && r.value.hooks
               == CachingHooks(saveState, CallKey(env, instance.moduleName, instance.className, s.value,
                                                  boundMethod.name, args)))
  {
    var s := StateStringOf(env, saveState, InstanceState(instance.protocol, instance.attrs), IgnoreStateSentinel);
    if s.Failure? {
      return Failure(s.error);
    }
    var entry := CallKey(env, instance.moduleName, instance.className, s.value, boundMethod.name, args);
    var w := new MethodWrapper(boundMethod, instance, args, CachingHooks(saveState, entry), fs);
    r := Success(w);
  }

  // ---------------------------------------------------------------------
  // MethodCacheManager and run_cached_method
  // ---------------------------------------------------------------------

  /** The `metadata.json` document of an entry: the method's name, the
      `repr` of the arguments, of the state and of the result, whether the
      state is kept, and the fingerprints of the state and of the result. */
  function Metadata(env: CacheEnv, methodName: string, a: ArgsKwargs, stateful: bool, state: Value,
                    result: Value): Value
  {
    StrDict(map[
      "method" := StrValue(methodName),
      "args" := StrValue(env.repr(TupleV(a.args))),
      "kwargs" := StrValue(env.repr(StrDict(a.kwargs))),
      "stateful" := Prim(BoolA(stateful)),
      "state" := StrValue(env.repr(state)),
      "state_hash" := StrValue(Fingerprint(env.hashing, state)),
      "result" := StrValue(env.repr(result)),
      "result_hash" := StrValue(Fingerprint(env.hashing, result))])
  }

  /** The state the metadata describes: the captured one, or `None`. */
  function MetadataState(stateful: bool, captured: Result<Attrs, PyException>): Value {
    if stateful && captured.Success? then StrDict(captured.value) else NoneValue
  }

  /** `write(result)` once the entry is known: the directory, the state
      (taken now with `_get_state`) when it is kept, the result and the
      metadata, in that order. */
  function AfterWriteEntry(env: CacheEnv, p: StateProtocol, entry: Path, methodName: string, a: ArgsKwargs,
                           stateful: bool, attrs: Attrs, result: Value, fs: FsState)
    : (Result<(), PyException>, FsState)
  {
    var captured := GetState(p, attrs);
    SaveEntry(fs, entry, if stateful then Some(StateBlob(captured)) else None, result,
              Some(Metadata(env, methodName, a, stateful, MetadataState(stateful, captured), result)))
  }

  class MethodCacheManager {
    const env: CacheEnv
    const boundMethod: BoundMethod
    const instance: Instance
    const args: ArgsKwargs
    const stateful: bool
    /** `_initial_instance_state`: taken by the constructor, never read again. */
    const initialInstanceState: Attrs
    /** The slots of the `cached_property` values `state_string` and
        `parent_dir`: empty until the first successful read. */
    var stateString: Option<string>
    var parentDir: Option<Path>

    constructor (env: CacheEnv, boundMethod: BoundMethod, instance: Instance, args: ArgsKwargs, stateful: bool,
                 initialInstanceState: Attrs)
      ensures this.env == env && this.boundMethod == boundMethod && this.instance == instance
      ensures this.args == args && this.stateful == stateful
      ensures this.initialInstanceState == initialInstanceState
      ensures stateString == None && parentDir == None
    {
      this.env := env;
      this.boundMethod := boundMethod;
      this.instance := instance;
      this.args := args;
      this.stateful := stateful;
      this.initialInstanceState := initialInstanceState;
      stateString := None;
      parentDir := None;
    }

    /** What `state_string` reads now: the remembered value, or a fresh one. */
    function CurrentStateString(): Result<string, PyException>
      reads this, instance
    {
      if stateString.Some? then Success(stateString.value)
      else StateStringOf(env, stateful, GetState(instance.protocol, instance.attrs), StatelessSentinel)
    }

    /** What `parent_dir` reads now. */
    function CurrentParentDir(): Result<Path, PyException>
      reads this, instance
    {
      if parentDir.Some? then Success(parentDir.value)
      else
        var s := CurrentStateString();
        if s.Failure? then Failure(s.error)
        else Success(CallKey(env, instance.moduleName, instance.className, s.value, boundMethod.name, args))
    }

    /** `state_string` */
    method StateString() returns (r: Result<string, PyException>)
      modifies this
      ensures r == old(CurrentStateString())
      ensures stateString == (if r.Success? then Some(r.value) else old(stateString))
      ensures parentDir == old(parentDir)
    {
      if stateString.Some? {
        return Success(stateString.value);
      }
      r := StateStringOf(env, stateful, GetState(instance.protocol, instance.attrs), StatelessSentinel);
      if r.Success? {
        stateString := Some(r.value);
      }
    }

    /** `parent_dir`: once read, it no longer follows the instance's state. */
    method ParentDir() returns (r: Result<Path, PyException>)
      modifies this
      ensures r == old(CurrentParentDir())
      ensures r.Success? ==> parentDir == Some(r.value)
      ensures r.Failure? ==> parentDir == old(parentDir) && stateString == old(stateString)
    {
      if parentDir.Some? {
        return Success(parentDir.value);
      }
      var s := StateString();
      if s.Failure? {
        return Failure(s.error);
      }
      var dir := CallKey(env, instance.moduleName, instance.className, s.value, boundMethod.name, args);
      parentDir := Some(dir);
      r := Success(dir);
    }

    /** `exists()` */
    method Exists(fs: FileSystem) returns (r: Result<bool, PyException>)
      modifies this
      ensures var dir := old(CurrentParentDir());
        r == (if dir.Success? then Success(Store.Exists(fs.state, dir.value)) else Failure(dir.error))
      ensures r.Success? ==> parentDir == Some(old(CurrentParentDir()).value)
    {
      var dir := ParentDir();
      if dir.Failure? {
        return Failure(dir.error);
      }
      r := Success(fs.Exists(dir.value));
    }

    /** `read()`, with `_set_state` for the state. */
    method Read(fs: FileSystem) returns (r: Result<Value, PyException>)
      modifies this, instance
      ensures var dir := old(CurrentParentDir());
        if dir.Failure? then r == Failure(dir.error) && instance.attrs == old(instance.attrs)
        else (r, instance.attrs) == AfterLoad(ModuleFunctions, instance.protocol, fs.state, dir.value, stateful,
                                              old(instance.attrs))
      ensures instance.calls == old(instance.calls)
    {
      var dir := ParentDir();
      if dir.Failure? {
        return Failure(dir.error);
      }
      r := Load(ModuleFunctions, fs, instance, dir.value, stateful);
    }

    /** `write(result)`, with `_get_state` for the state. */
    method Write(fs: FileSystem, result: Value) returns (r: Result<(), PyException>)
      modifies this, fs
      ensures var dir := old(CurrentParentDir());
        if dir.Failure? then r == Failure(dir.error) && fs.state == old(fs.state)
        else (r, fs.state) == AfterWriteEntry(env, instance.protocol, dir.value, boundMethod.name, args, stateful,
                                              instance.attrs, result, old(fs.state))
    {
      var dir := ParentDir();
      if dir.Failure? {
        return Failure(dir.error);
      }
      var entry := dir.value;
      var made := fs.MkDir(entry, false);
      if made.Failure? {
        return made;
      }
      var state := NoneValue;
      if stateful {
        var captured := GetState(instance.protocol, instance.attrs);
        if captured.Failure? {
          return Failure(captured.error);
        }
        state := StrDict(captured.value);
        var wrote := fs.Write(StatePath(entry), Pickled(state));
        if wrote.Failure? {
          return wrote;
        }
      }
      var wrote := fs.Write(ResultPath(entry), Pickled(result));
      if wrote.Failure? {
        return wrote;
      }
      r := fs.Write(MetadataPath(entry), JsonText(Metadata(env, boundMethod.name, args, stateful, state, result)));
    }
  }

  /** `MethodCacheManager(method, args, kwargs, stateful)`: the constructor
      reads the state with `_get_state`, which can raise. */
  method NewMethodCacheManager(env: CacheEnv, boundMethod: BoundMethod, instance: Instance, args: ArgsKwargs,
                               stateful: bool) returns (r: Result<MethodCacheManager, PyException>)
    ensures var initial := GetState(instance.protocol, instance.attrs);
      && (r.Failure? <==> initial.Failure?)
      && (r.Failure? ==> r.error == initial.error)
      && (r.Success? ==>
            && fresh(r.value)
            && r.value.env == env && r.value.boundMethod == boundMethod && r.value.instance == instance
            && r.value.args == args && r.value.stateful == stateful
            && r.value.initialInstanceState == initial.value
            && r.value.stateString == None && r.value.parentDir == None)
  {
    var initial := GetState(instance.protocol, instance.attrs);
    if initial.Failure? {
      return Failure(initial.error);
    }
    var cache := new MethodCacheManager(env, boundMethod, instance, args, stateful, initial.value);
    r := Success(cache);
  }

  /** The entry `run_cached_method` uses: keyed by the state before the call. */
  function ManagerKey(env: CacheEnv, moduleName: string, className: string, stateful: bool, initial: Attrs,
                      m: BoundMethod, a: ArgsKwargs): Path
  {
    CallKey(env, moduleName, className, StateStringOf(env, stateful, Success(initial), StatelessSentinel).value,
            m.name, a)
  }

  /** `run_cached_method(method, args, kwargs, save_state)`: how it ends,
      and the files and attributes it leaves. An existing entry is read
      (the method is not called); otherwise the method is called once and
      its result written and returned. */
  function AfterRunCached(env: CacheEnv, moduleName: string, className: string, p: StateProtocol,
                          m: BoundMethod, a: ArgsKwargs, saveState: bool, fs: FsState, attrs: Attrs)
    : (Outcome, FsState, Attrs)
  {
    var initial := GetState(p, attrs);
    if initial.Failure? then (Raised(initial.error), fs, attrs)
    else
      var entry := ManagerKey(env, moduleName, className, saveState, initial.value, m, a);
      if Store.Exists(fs, entry) then
        var (loaded, attrs1) := AfterLoad(ModuleFunctions, p, fs, entry, saveState, attrs);
        (if loaded.Success? then Returned(loaded.value) else Raised(loaded.error), fs, attrs1)
      else
        var call := m.body(attrs, a);
        if call.outcome.Raised? then (call.outcome, fs, call.after)
        else
          var (wrote, fs1) := AfterWriteEntry(env, p, entry, m.name, a, saveState, call.after,
                                              call.outcome.value, fs);
          (if wrote.Success? then call.outcome else Raised(wrote.error), fs1, call.after)
  }

  /** Whether `run_cached_method` calls the method: on a miss. */
  predicate RunCachedCallsMethod(env: CacheEnv, moduleName: string, className: string, p: StateProtocol,
                                 m: BoundMethod, a: ArgsKwargs, saveState: bool, fs: FsState, attrs: Attrs)
  {
    var initial := GetState(p, attrs);
    initial.Success? && !Store.Exists(fs, ManagerKey(env, moduleName, className, saveState, initial.value, m, a))
  }

  /** `run_cached_method` on a hit, step by step. */
  lemma RunCachedOnHit(env: CacheEnv, moduleName: string, className: string, p: StateProtocol,
                       m: BoundMethod, a: ArgsKwargs, saveState: bool, fs: FsState, attrs: Attrs, entry: Path)
    requires GetState(p, attrs).Success?
    requires entry == ManagerKey(env, moduleName, className, saveState, GetState(p, attrs).value, m, a)
    requires Store.Exists(fs, entry)
    ensures var (loaded, attrs1) := AfterLoad(ModuleFunctions, p, fs, entry, saveState, attrs);
      AfterRunCached(env, moduleName, className, p, m, a, saveState, fs, attrs)
      == (if loaded.Success? then Returned(loaded.value) else Raised(loaded.error), fs, attrs1)
  {
  }

  /** `run_cached_method` on a miss, step by step. */
  lemma RunCachedOnMiss(env: CacheEnv, moduleName: string, className: string, p: StateProtocol,
                        m: BoundMethod, a: ArgsKwargs, saveState: bool, fs: FsState, attrs: Attrs, entry: Path)
    requires GetState(p, attrs).Success?
    requires entry == ManagerKey(env, moduleName, className, saveState, GetState(p, attrs).value, m, a)
    requires !Store.Exists(fs, entry)
    ensures var call := m.body(attrs, a);
      AfterRunCached(env, moduleName, className, p, m, a, saveState, fs, attrs)
      == if call.outcome.Raised? then (call.outcome, fs, call.after)
         else
           var (wrote, fs1) := AfterWriteEntry(env, p, entry, m.name, a, saveState, call.after,
                                               call.outcome.value, fs);
           (if wrote.Success? then call.outcome else Raised(wrote.error), fs1, call.after)
  {
  }

  method RunCachedMethod(env: CacheEnv, fs: FileSystem, boundMethod: BoundMethod, instance: Instance,
                         args: ArgsKwargs, saveState: bool) returns (r: Outcome)
    modifies fs, instance
    ensures (r, fs.state, instance.attrs)
         == AfterRunCached(env, instance.moduleName, instance.className, instance.protocol, boundMethod, args,
                           saveState, old(fs.state), old(instance.attrs))
    ensures instance.calls
         == old(instance.calls)
          + if RunCachedCallsMethod(env, instance.moduleName, instance.className, instance.protocol, boundMethod,
                                    args, saveState, old(fs.state), old(instance.attrs))
            then [(boundMethod.name, args)] else []
  {
    ghost var fs0, attrs0 := fs.state, instance.attrs;
    var created := NewMethodCacheManager(env, boundMethod, instance, args, saveState);
    if created.Failure? {
      return Raised(created.error);
    }
    var cache := created.value;
    ghost var entry := ManagerKey(env, instance.moduleName, instance.className, saveState, cache.initialInstanceState,
                                  boundMethod, args);
    assert cache.CurrentParentDir() == Success(entry);
    var hit := cache.Exists(fs);
    assert hit == Success(Store.Exists(fs0, entry)) && cache.parentDir == Some(entry);
    if hit.value {
      RunCachedOnHit(env, instance.moduleName, instance.className, instance.protocol, boundMethod, args, saveState,
                     fs0, attrs0, entry);
      var loaded := cache.Read(fs);
      r := if loaded.Success? then Returned(loaded.value) else Raised(loaded.error);
      return;
    }
    RunCachedOnMiss(env, instance.moduleName, instance.className, instance.protocol, boundMethod, args, saveState,
                    fs0, attrs0, entry);
    var outcome := instance.Invoke(boundMethod, args);
    if outcome.Raised? {
      return outcome;
    }
    assert cache.CurrentParentDir() == Success(entry);
    var wrote := cache.Write(fs, outcome.value);
    if wrote.Failure? {
      return Raised(wrote.error);
    }
    r := outcome;
  }

  /** `_caching_method_wrapper`, the function `wrapt` installs: it runs
      `run_cached_method` (the wrapper class it is handed goes unused). */
  method CachingMethodWrapperCall(env: CacheEnv, fs: FileSystem, boundMethod: BoundMethod, instance: Instance,
                                  args: ArgsKwargs, saveState: bool) returns (r: Outcome)
    modifies fs, instance
    ensures (r, fs.state, instance.attrs)
         == AfterRunCached(env, instance.moduleName, instance.className, instance.protocol, boundMethod, args,
                           saveState, old(fs.state), old(instance.attrs))
    ensures instance.calls
         == old(instance.calls)
          + if RunCachedCallsMethod(env, instance.moduleName, instance.className, instance.protocol, boundMethod,
                                    args, saveState, old(fs.state), old(instance.attrs))
            then [(boundMethod.name, args)] else []
  {
    r := RunCachedMethod(env, fs, boundMethod, instance, args, saveState);
  }

  // ---------------------------------------------------------------------
  // MethodCacheManager as written
  // ---------------------------------------------------------------------

  /** What `MethodCacheManager` raises, as written, wherever it reads or
      restores a kept state: it calls `_get_instance_state` and
      `_set_instance_state`, which the class does not define. */
  const NoInstanceStateMethod :=
    PyException("AttributeError", "'MethodCacheManager' object has no attribute '_get_instance_state'")

  /** `run_cached_method` as written: the constructor's `_get_state` is the
      as-written one, and a kept state makes the first `exists()` raise
      (through `parent_dir` and `state_string`) before anything else. */
  function AfterRunCachedAsWritten(env: CacheEnv, moduleName: string, className: string, p: StateProtocol,
                                   m: BoundMethod, a: ArgsKwargs, saveState: bool, fs: FsState, attrs: Attrs)
    : (Outcome, FsState, Attrs)
  {
    var initial := GetStateAsWritten(p, attrs);
    if initial.Failure? then (Raised(initial.error), fs, attrs)
    else if saveState then (Raised(NoInstanceStateMethod), fs, attrs)
    else AfterRunCached(env, moduleName, className, p, m, a, saveState, fs, attrs)
  }
}
