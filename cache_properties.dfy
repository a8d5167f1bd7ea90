/** What the cache of `src/maurice/patchers/core.py` guarantees: keys tell
    calls apart, `run` follows its hooks, a miss stores what a later hit
    gives back, and the stored state is the state after the call while the
    key holds the state before it. */
module CacheProperties {
  import opened Wrappers
  import opened Values
  import opened Text
  import Hashing
  import opened Objects
  import opened Store
  import opened CacheCore

  // ---------------------------------------------------------------------
  // Keys
  // ---------------------------------------------------------------------

  /** Two keys under the same cache directory are the same path exactly
      when all their parts agree. */
  lemma KeyInjective(cacheDir: Path, m1: string, c1: string, s1: string, n1: string, h1: string,
                     m2: string, c2: string, s2: string, n2: string, h2: string)
    ensures CacheKey(cacheDir, m1, c1, s1, n1, h1) == CacheKey(cacheDir, m2, c2, s2, n2, h2)
        <==> m1 == m2 && c1 == c2 && s1 == s2 && n1 == n2 && h1 == h2
  {
    var k1, k2 := CacheKey(cacheDir, m1, c1, s1, n1, h1), CacheKey(cacheDir, m2, c2, s2, n2, h2);
    if k1 == k2 {
      var p1, p2 := Split(m1, '.'), Split(m2, '.');
      var n := |cacheDir| + |p1|;
      assert |p1| == |p2|;
      assert p1 == k1[|cacheDir|..n] && p2 == k2[|cacheDir|..n];
      SplitInjective(m1, m2, '.');
      assert k1[n..] == [c1, s1, n1, h1] && k2[n..] == [c2, s2, n2, h2];
    }
  }

  /** A key lies below the cache directory, one level per part of the
      module path plus four. */
  lemma KeyUnderCacheDir(cacheDir: Path, moduleName: string, className: string, stateString: string,
                         methodName: string, argsHash: string)
    ensures var key := CacheKey(cacheDir, moduleName, className, stateString, methodName, argsHash);
      && |key| == |cacheDir| + |Split(moduleName, '.')| + 4
      && key[..|cacheDir|] == cacheDir
      && key[|key| - 4..] == [className, stateString, methodName, argsHash]
  {
  }

  predicate HexString(s: string) {
    forall i | 0 <= i < |s| :: s[i] in "0123456789abcdef"
  }

  /** `hexdigest()` gives lower-case hexadecimal text. */
  ghost predicate HexDigests(env: Hashing.HashEnv) {
    forall name, data :: HexString(env.hexdigest(name, data))
  }

  /** A state fingerprint is never a sentinel, so the stateful and the
      stateless entry of a call never share a key. */
  lemma StatefulAndStatelessKeysDiffer(env: CacheEnv, moduleName: string, className: string, state: Attrs,
                                       methodName: string, a: ArgsKwargs)
    requires HexDigests(env.hashing)
    ensures CallKey(env, moduleName, className, Fingerprint(env.hashing, StrDict(state)), methodName, a)
         != CallKey(env, moduleName, className, StatelessSentinel, methodName, a)
    ensures CallKey(env, moduleName, className, Fingerprint(env.hashing, StrDict(state)), methodName, a)
         != CallKey(env, moduleName, className, IgnoreStateSentinel, methodName, a)
  {
    var h := Fingerprint(env.hashing, StrDict(state));
    var argsHash := Fingerprint(env.hashing, ArgsValue(a));
    assert HexString(h);
    assert !HexString(StatelessSentinel) by { assert StatelessSentinel[0] == '_'; }
    assert !HexString(IgnoreStateSentinel) by { assert IgnoreStateSentinel[0] == '_'; }
    KeyInjective(env.cacheDir, moduleName, className, h, methodName, argsHash,
                 moduleName, className, StatelessSentinel, methodName, argsHash);
    KeyInjective(env.cacheDir, moduleName, className, h, methodName, argsHash,
                 moduleName, className, IgnoreStateSentinel, methodName, argsHash);
  }

  // ---------------------------------------------------------------------
  // The state pickle
  // ---------------------------------------------------------------------

  /** A captured state comes back from its pickle as the same attributes. */
  lemma AttrsOfStrDict(a: Attrs)
    ensures AttrsOf(StrDict(a)) == Success(a)
  {
    var v := StrDict(a);
    assert forall k | k in v.entries :: k.StrA?;
    var back := AttrsOf(v).value;
    forall k | k in a ensures k in back && back[k] == a[k] {
      var key := StrA(k);
      assert key in v.entries && key.s == k;
    }
    forall k | k in back ensures k in a {
      var key :| key in v.entries && key.s == k;
      assert key == StrA(k);
    }
    assert back == a;
  }

  /** Loading an entry whose files hold a result and, when kept, a
      captured state: the state is restored and the result returned. */
  lemma LoadSaved(access: StateAccess, p: StateProtocol, fs: FsState, entry: Path, withState: bool,
                  attrs: Attrs, state: Attrs, result: Value)
    requires LoadFrom(fs, ResultPath(entry)) == Success(result)
    requires withState ==> LoadFrom(fs, StatePath(entry)) == Success(StrDict(state))
    ensures !withState ==> AfterLoad(access, p, fs, entry, withState, attrs) == (Success(result), attrs)
    ensures withState ==>
      var (restored, attrs1) := AfterRestore(access, p, attrs, state);
      AfterLoad(access, p, fs, entry, withState, attrs)
      == (if restored.Success? then Success(result) else Failure(restored.error), attrs1)
  {
    if withState {
      AttrsOfStrDict(state);
      assert LoadFrom(fs, StatePath(entry)).value == StrDict(state);
      assert AttrsOf(LoadFrom(fs, StatePath(entry)).value) == Success(state);
      var (restored, attrs1) := AfterRestore(access, p, attrs, state);
      assert AfterLoad(access, p, fs, entry, withState, attrs)
          == (if restored.Success? then LoadFrom(fs, ResultPath(entry)) else Failure(restored.error), attrs1);
    }
  }

  // ---------------------------------------------------------------------
  // BaseMethodWrapper.run
  // ---------------------------------------------------------------------

  /** With `BaseMethodWrapper`'s own hooks, `run` calls the method once with
      the call's arguments and ends as the method does. */
  lemma BaseRunIsTheCall(p: StateProtocol, m: BoundMethod, a: ArgsKwargs, fs: FsState, attrs: Attrs)
    ensures AfterRun(BaseHooks, p, m, a, fs, attrs) == (m.body(attrs, a).outcome, fs, m.body(attrs, a).after)
    ensures RunCalls(BaseHooks, m, a, fs) == [(m.name, a)]
  {
  }

  /** The method is called exactly when the pre-hook asks for it, with the
      pre-hook's arguments when it gives some. */
  lemma RunCallsFollowPreHook(h: Hooks, m: BoundMethod, a: ArgsKwargs, fs: FsState)
    ensures var pre := PreHookOf(h, fs);
      && (|RunCalls(h, m, a, fs)| == 1 <==> pre.runWrappedMethod)
      && (|RunCalls(h, m, a, fs)| == 0 <==> !pre.runWrappedMethod)
      && (pre.runWrappedMethod && pre.newArgsKwargs.Some? ==>
            RunCalls(h, m, a, fs) == [(m.name, pre.newArgsKwargs.value)])
      && (pre.runWrappedMethod && pre.newArgsKwargs.None? ==> RunCalls(h, m, a, fs) == [(m.name, a)])
  {
  }

  /** When the post-hook runs, its value decides how `run` ends: a result
      is returned, `MISSING` raises `RuntimeError`, an exception propagates. */
  lemma PostHookDecides(name: string, pre: PreHookResult, post: MaybeResult -> Result<MaybeResult, PyException>,
                        p: StateProtocol, m: BoundMethod, a: ArgsKwargs, fs: FsState, attrs: Attrs)
    requires pre.runPostHook
    requires pre.runWrappedMethod ==> m.body(attrs, CallArgs(pre, a)).outcome.Returned?
    ensures var given := if pre.runWrappedMethod then Present(m.body(attrs, CallArgs(pre, a)).outcome.value)
                         else Missing;
      var r := AfterRun(CustomHooks(name, pre, post), p, m, a, fs, attrs).0;
      && (forall v :: r == Returned(v) <==> post(given) == Success(Present(v)))
      && (r == Raised(Misconfigured(name)) <==>
            post(given) == Success(Missing) || post(given) == Failure(Misconfigured(name)))
  {
  }

  /** When neither the method nor the post-hook runs, no result is set and
      `run` raises `RuntimeError`, changing nothing. */
  lemma NoResultRaises(name: string, pre: PreHookResult, post: MaybeResult -> Result<MaybeResult, PyException>,
                       p: StateProtocol, m: BoundMethod, a: ArgsKwargs, fs: FsState, attrs: Attrs)
    requires !pre.runWrappedMethod && !pre.runPostHook
    ensures AfterRun(CustomHooks(name, pre, post), p, m, a, fs, attrs) == (Raised(Misconfigured(name)), fs, attrs)
    ensures RunCalls(CustomHooks(name, pre, post), m, a, fs) == []
  {
  }

  /** Without a post-hook, `run` ends as the method does. */
  lemma NoPostHookKeepsCallResult(name: string, pre: PreHookResult,
                                  post: MaybeResult -> Result<MaybeResult, PyException>,
                                  p: StateProtocol, m: BoundMethod, a: ArgsKwargs, fs: FsState, attrs: Attrs)
    requires pre.runWrappedMethod && !pre.runPostHook
    ensures var call := m.body(attrs, CallArgs(pre, a));
      AfterRun(CustomHooks(name, pre, post), p, m, a, fs, attrs) == (call.outcome, fs, call.after)
  {
  }

  // ---------------------------------------------------------------------
  // CachingMethodWrapper
  // ---------------------------------------------------------------------

  /** A hit: the method is not called, nothing is written, and without a
      kept state the instance is untouched and the stored result is
      returned. */
  lemma CachingHit(saveState: bool, entry: Path, p: StateProtocol, m: BoundMethod, a: ArgsKwargs,
                   fs: FsState, attrs: Attrs)
    requires Store.Exists(fs, entry)
    ensures RunCalls(CachingHooks(saveState, entry), m, a, fs) == []
    ensures AfterRun(CachingHooks(saveState, entry), p, m, a, fs, attrs).1 == fs
    ensures !saveState ==>
      var loaded := LoadFrom(fs, ResultPath(entry));
      AfterRun(CachingHooks(saveState, entry), p, m, a, fs, attrs)
      == (if loaded.Success? then Returned(loaded.value) else Raised(loaded.error), fs, attrs)
  {
  }

  /** The state a kept entry stores, as `SaveCreatesEntry` takes it. */
  function Kept(saveState: bool, state: Attrs): Option<Value> {
    if saveState then Some(StrDict(state)) else None
  }

  /** A miss where the entry can be created: the method is called once,
      its result is returned, and the entry holds the result and, when kept,
      the state the call left. */
  lemma CachingMiss(saveState: bool, entry: Path, p: StateProtocol, m: BoundMethod, a: ArgsKwargs,
                    fs: FsState, attrs: Attrs)
    requires CanCreate(fs, entry)
    requires m.body(attrs, a).outcome.Returned?
    requires saveState ==> InstanceState(p, m.body(attrs, a).after).Success?
    ensures var call := m.body(attrs, a);
      var (r, fs1, attrs1) := AfterRun(CachingHooks(saveState, entry), p, m, a, fs, attrs);
      && RunCalls(CachingHooks(saveState, entry), m, a, fs) == [(m.name, a)]
      && r == call.outcome && attrs1 == call.after
      && Store.Exists(fs1, entry)
      && LoadFrom(fs1, ResultPath(entry)) == Success(call.outcome.value)
      && (saveState ==> LoadFrom(fs1, StatePath(entry)) == Success(StrDict(InstanceState(p, call.after).value)))
      && (!saveState ==> StatePath(entry) !in fs1.files)
      && (forall q | q in fs.files :: q in fs1.files && fs1.files[q] == fs.files[q])
  {
    var call := m.body(attrs, a);
    var state := if saveState then InstanceState(p, call.after).value else map[];
    assert (if saveState then Some(StateBlob(InstanceState(p, call.after))) else None)
        == (var k := Kept(saveState, state); if k.Some? then Some(Success(k.value)) else None);
    SaveCreatesEntry(fs, entry, Kept(saveState, state), call.outcome.value, None);
  }

  /** After such a miss, a run with the same entry is a hit: it returns the
      stored result without calling the method, and restores the stored
      state (merging it into the instance's attributes) when it is kept. */
  lemma CachingReplay(saveState: bool, entry: Path, p: StateProtocol, m: BoundMethod, a: ArgsKwargs,
                      fs: FsState, attrs: Attrs, later: Attrs)
    requires CanCreate(fs, entry)
    requires m.body(attrs, a).outcome.Returned?
    requires saveState ==> InstanceState(p, m.body(attrs, a).after).Success?
    ensures var call := m.body(attrs, a);
      var fs1 := AfterRun(CachingHooks(saveState, entry), p, m, a, fs, attrs).1;
      var (r, fs2, attrs2) := AfterRun(CachingHooks(saveState, entry), p, m, a, fs1, later);
      && RunCalls(CachingHooks(saveState, entry), m, a, fs1) == []
      && fs2 == fs1
      && (!saveState ==> r == call.outcome && attrs2 == later)
      && (saveState ==>
            var (restored, attrs3) := AfterRestoreInstanceState(p, later, InstanceState(p, call.after).value);
            attrs2 == attrs3 && r == (if restored.Success? then call.outcome else Raised(restored.error)))
  {
    var call := m.body(attrs, a);
    var state := if saveState then InstanceState(p, call.after).value else map[];
    CachingMiss(saveState, entry, p, m, a, fs, attrs);
    var fs1 := AfterRun(CachingHooks(saveState, entry), p, m, a, fs, attrs).1;
    LoadSaved(OwnMethods, p, fs1, entry, saveState, later, state, call.outcome.value);
  }

  // ---------------------------------------------------------------------
  // run_cached_method
  // ---------------------------------------------------------------------

  /** An object whose state is its `__dict__`, with neither `__getstate__`
      nor `__setstate__`. */
  predicate PlainObject(p: StateProtocol) {
    p.getState.None? && p.setState.None? && p.hasDict
  }

  /** The entry of a call is keyed by the state before the call. */
  lemma RunCachedKey(env: CacheEnv, moduleName: string, className: string, p: StateProtocol, m: BoundMethod,
                     a: ArgsKwargs, saveState: bool, fs: FsState, attrs: Attrs)
    requires GetState(p, attrs).Success?
    ensures ManagerKey(env, moduleName, className, saveState, GetState(p, attrs).value, m, a)
         == CallKey(env, moduleName, className,
                    if saveState then Fingerprint(env.hashing, StrDict(GetState(p, attrs).value))
                    else StatelessSentinel,
                    m.name, a)
  {
  }

  /** A state that cannot be read makes the constructor raise before the
      cache is looked at: nothing is called, written or restored. */
  lemma RunCachedUnreadableState(env: CacheEnv, moduleName: string, className: string, p: StateProtocol,
                                 m: BoundMethod, a: ArgsKwargs, saveState: bool, fs: FsState, attrs: Attrs)
    requires GetState(p, attrs).Failure?
    ensures AfterRunCached(env, moduleName, className, p, m, a, saveState, fs, attrs)
         == (Raised(GetState(p, attrs).error), fs, attrs)
    ensures !RunCachedCallsMethod(env, moduleName, className, p, m, a, saveState, fs, attrs)
  {
  }

  /** A miss where the entry can be created: the method is called once with
      the call's arguments, its result is returned, and the entry keyed by
      the state before the call holds the result, the state after the call
      when it is kept, and the metadata. */
  lemma RunCachedMiss(env: CacheEnv, moduleName: string, className: string, p: StateProtocol, m: BoundMethod,
                      a: ArgsKwargs, saveState: bool, fs: FsState, attrs: Attrs)
    requires GetState(p, attrs).Success?
    requires CanCreate(fs, ManagerKey(env, moduleName, className, saveState, GetState(p, attrs).value, m, a))
    requires m.body(attrs, a).outcome.Returned?
    requires saveState ==> GetState(p, m.body(attrs, a).after).Success?
    ensures var call := m.body(attrs, a);
      var entry := ManagerKey(env, moduleName, className, saveState, GetState(p, attrs).value, m, a);
      var after := GetState(p, call.after);
      var (r, fs1, attrs1) := AfterRunCached(env, moduleName, className, p, m, a, saveState, fs, attrs);
      && RunCachedCallsMethod(env, moduleName, className, p, m, a, saveState, fs, attrs)
      && r == call.outcome && attrs1 == call.after
      && Store.Exists(fs1, entry)
      && LoadFrom(fs1, ResultPath(entry)) == Success(call.outcome.value)
      && (saveState ==> LoadFrom(fs1, StatePath(entry)) == Success(StrDict(after.value)))
      && (!saveState ==> StatePath(entry) !in fs1.files)
      && Read(fs1, MetadataPath(entry))
         == Success(JsonText(Metadata(env, m.name, a, saveState, MetadataState(saveState, after), call.outcome.value)))
      && (forall q | q in fs.files :: q in fs1.files && fs1.files[q] == fs.files[q])
  {
    var call := m.body(attrs, a);
    var entry := ManagerKey(env, moduleName, className, saveState, GetState(p, attrs).value, m, a);
    var after := GetState(p, call.after);
    var state := if saveState then after.value else map[];
    var meta := Metadata(env, m.name, a, saveState, MetadataState(saveState, after), call.outcome.value);
    assert (if saveState then Some(StateBlob(after)) else None)
        == (var k := Kept(saveState, state); if k.Some? then Some(Success(k.value)) else None);
    SaveCreatesEntry(fs, entry, Kept(saveState, state), call.outcome.value, Some(meta));
    RunCachedOnMiss(env, moduleName, className, p, m, a, saveState, fs, attrs, entry);
  }

  /** After such a miss, the same call from the same state is a hit: the
      method is not called again, the stored result is returned, and the
      state after the first call is restored (merged) when it is kept. */
  lemma RunCachedReplay(env: CacheEnv, moduleName: string, className: string, p: StateProtocol, m: BoundMethod,
                        a: ArgsKwargs, saveState: bool, fs: FsState, attrs: Attrs)
    requires GetState(p, attrs).Success?
    requires CanCreate(fs, ManagerKey(env, moduleName, className, saveState, GetState(p, attrs).value, m, a))
    requires m.body(attrs, a).outcome.Returned?
    requires saveState ==> GetState(p, m.body(attrs, a).after).Success?
    ensures var call := m.body(attrs, a);
      var fs1 := AfterRunCached(env, moduleName, className, p, m, a, saveState, fs, attrs).1;
      var (r, fs2, attrs2) := AfterRunCached(env, moduleName, className, p, m, a, saveState, fs1, attrs);
      && !RunCachedCallsMethod(env, moduleName, className, p, m, a, saveState, fs1, attrs)
      && fs2 == fs1
      && (!saveState ==> r == call.outcome && attrs2 == attrs)
      && (saveState ==>
            var (restored, attrs3) := AfterSetState(p, attrs, GetState(p, call.after).value);
            attrs2 == attrs3 && r == (if restored.Success? then call.outcome else Raised(restored.error)))
  {
    var call := m.body(attrs, a);
    var state := if saveState then GetState(p, call.after).value else map[];
    RunCachedMiss(env, moduleName, className, p, m, a, saveState, fs, attrs);
    var fs1 := AfterRunCached(env, moduleName, className, p, m, a, saveState, fs, attrs).1;
    RunCachedOnSaved(env, moduleName, className, p, m, a, saveState, fs1, attrs, state, call.outcome.value);
  }

  /** A call whose entry holds a result and, when kept, a state: it is a hit
      that restores the state and returns the result. */
  lemma RunCachedOnSaved(env: CacheEnv, moduleName: string, className: string, p: StateProtocol, m: BoundMethod,
                         a: ArgsKwargs, saveState: bool, fs: FsState, attrs: Attrs, state: Attrs, result: Value)
    requires GetState(p, attrs).Success?
    requires var entry := ManagerKey(env, moduleName, className, saveState, GetState(p, attrs).value, m, a);
      && Store.Exists(fs, entry)
      && LoadFrom(fs, ResultPath(entry)) == Success(result)
      && (saveState ==> LoadFrom(fs, StatePath(entry)) == Success(StrDict(state)))
    ensures var (r, fs2, attrs2) := AfterRunCached(env, moduleName, className, p, m, a, saveState, fs, attrs);
      && !RunCachedCallsMethod(env, moduleName, className, p, m, a, saveState, fs, attrs)
      && fs2 == fs
      && (!saveState ==> r == Returned(result) && attrs2 == attrs)
      && (saveState ==>
            var (restored, attrs3) := AfterSetState(p, attrs, state);
            attrs2 == attrs3 && r == (if restored.Success? then Returned(result) else Raised(restored.error)))
  {
    var entry := ManagerKey(env, moduleName, className, saveState, GetState(p, attrs).value, m, a);
    LoadSaved(ModuleFunctions, p, fs, entry, saveState, attrs, state, result);
    RunCachedOnHit(env, moduleName, className, p, m, a, saveState, fs, attrs, entry);
  }

  /** For an object whose state is its `__dict__`, replaying a kept call
      reproduces it exactly, the result and the attributes the call left,
      as long as the call removed none of the attributes it found. */
  lemma ReplayReproducesCall(env: CacheEnv, moduleName: string, className: string, p: StateProtocol,
                             m: BoundMethod, a: ArgsKwargs, fs: FsState, attrs: Attrs)
    requires PlainObject(p)
    requires CanCreate(fs, ManagerKey(env, moduleName, className, true, attrs, m, a))
    requires m.body(attrs, a).outcome.Returned?
    requires attrs.Keys <= m.body(attrs, a).after.Keys
    ensures var fs1 := AfterRunCached(env, moduleName, className, p, m, a, true, fs, attrs).1;
      AfterRunCached(env, moduleName, className, p, m, a, true, fs1, attrs)
      == (m.body(attrs, a).outcome, fs1, m.body(attrs, a).after)
  {
    RunCachedReplay(env, moduleName, className, p, m, a, true, fs, attrs);
    MergeIsRestoreIff(attrs, m.body(attrs, a).after);
  }

  // ---------------------------------------------------------------------
  // run_cached_method as written
  // ---------------------------------------------------------------------

  /** As written, a call that keeps the state never reaches the method:
      it raises and leaves the files and the instance as they were, even
      for an object whose state the corrected manager reads, calls and
      stores. */
  lemma StatefulRunAsWrittenRaises(env: CacheEnv, moduleName: string, className: string, p: StateProtocol,
                                   m: BoundMethod, a: ArgsKwargs, fs: FsState, attrs: Attrs)
    ensures var (r, fs1, attrs1) := AfterRunCachedAsWritten(env, moduleName, className, p, m, a, true, fs, attrs);
      r.Raised? && fs1 == fs && attrs1 == attrs
    ensures PlainObject(p) ==>
      AfterRunCachedAsWritten(env, moduleName, className, p, m, a, true, fs, attrs).0 == Raised(NoInstanceStateMethod)
    ensures PlainObject(p) && !Store.Exists(fs, ManagerKey(env, moduleName, className, true, attrs, m, a)) ==>
      RunCachedCallsMethod(env, moduleName, className, p, m, a, true, fs, attrs)
  {
  }

  /** Without a kept state, and where the as-written `_get_state` can read
      the object, the as-written run is the corrected one. */
  lemma StatelessRunAsWrittenAgrees(env: CacheEnv, moduleName: string, className: string, p: StateProtocol,
                                    m: BoundMethod, a: ArgsKwargs, fs: FsState, attrs: Attrs)
    requires GetStateAsWritten(p, attrs).Success?
    ensures AfterRunCachedAsWritten(env, moduleName, className, p, m, a, false, fs, attrs)
         == AfterRunCached(env, moduleName, className, p, m, a, false, fs, attrs)
  {
  }
}
