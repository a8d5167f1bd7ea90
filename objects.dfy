/** The objects whose methods the cache wraps: the state protocol it probes
    them for, and the bound methods it calls. An instance is a class because
    both the wrapped methods and a cache replay update its attributes in
    place. */
module Objects {
  import opened Wrappers
  import opened Values
  import Ordering

  type Attrs = map<string, Value>

  /** What `hasattr(obj, "__getstate__")`, `"__setstate__"`, `"__dict__"`
      and `"__slots__"` find on an object. A user-defined `__getstate__` is
      given by the state it reads off the attributes; a user-defined
      `__setstate__` by the attributes it leaves, given the current ones and
      a state; `slots` lists the slot names of the object's class. */
  datatype StateProtocol = StateProtocol(
    getState: Option<Attrs -> Attrs>,
    setState: Option<(Attrs, Attrs) -> Attrs>,
    hasDict: bool,
    slots: Option<seq<string>>)

  /** The positional and keyword arguments of one call. */
  datatype ArgsKwargs = ArgsKwargs(args: seq<Value>, kwargs: map<string, Value>)

  /** `(args, kwargs)` as the Python value that is fingerprinted. */
  function ArgsValue(a: ArgsKwargs): Value {
    TupleV([TupleV(a.args), StrDict(a.kwargs)])
  }

  /** What one call of a method did: the attributes it left and how it ended. */
  datatype Run = Run(after: Attrs, outcome: Outcome)

  /** A bound method: its `__name__` and what calling it does to its
      instance's attributes. */
  datatype BoundMethod = BoundMethod(name: string, body: (Attrs, ArgsKwargs) -> Run)

  class Instance {
    /** `type(obj).__module__` and `type(obj).__name__` */
    const moduleName: string
    const className: string
    const protocol: StateProtocol
    /** Its attributes: the `__dict__`, or the slots that hold a value. */
    var attrs: Attrs
    /** The calls of its methods so far, by name and arguments. */
    ghost var calls: seq<(string, ArgsKwargs)>

    constructor (moduleName: string, className: string, protocol: StateProtocol, attrs: Attrs)
      ensures this.moduleName == moduleName && this.className == className
      ensures this.protocol == protocol && this.attrs == attrs
      ensures calls == []
    {
      this.moduleName := moduleName;
      this.className := className;
      this.protocol := protocol;
      this.attrs := attrs;
      calls := [];
    }

    /** `method(*args, **kwargs)` for one of this instance's methods. */
    method Invoke(m: BoundMethod, a: ArgsKwargs) returns (outcome: Outcome)
      modifies this
      ensures attrs == m.body(old(attrs), a).after
      ensures outcome == m.body(old(attrs), a).outcome
      ensures calls == old(calls) + [(m.name, a)]
    {
      var run := m.body(attrs, a);
      attrs := run.after;
      calls := calls + [(m.name, a)];
      outcome := run.outcome;
    }
  }

  // ---------------------------------------------------------------------
  // _get_state and _set_state
  // ---------------------------------------------------------------------

  const NotSerializable := PyException("TypeError", "Object not serializable")

  /** `{attr: getattr(obj, attr) for attr in names}`; `getattr` of a slot
      that holds no value raises `AttributeError`. */
  function SlotState(names: seq<string>, attrs: Attrs): (r: Result<Attrs, PyException>)
    ensures r.Success? <==> forall s | s in names :: s in attrs
    ensures r.Success? ==> r.value == map s | s in names && s in attrs :: attrs[s]
  {
    if names == [] then Success(map[])
    else if names[0] !in attrs then Failure(PyException("AttributeError", names[0]))
    else
      var rest :- SlotState(names[1..], attrs);
      Success(rest[names[0] := attrs[names[0]]])
  }

  /** `_get_state(obj)`: `__getstate__()` first, then the `__dict__`, then
      the slots (with the slot names of the object's class), and
      `TypeError` for an object with none of the three. */
  function GetState(p: StateProtocol, attrs: Attrs): (r: Result<Attrs, PyException>)
    ensures p.getState.Some? ==> r == Success(p.getState.value(attrs))
    ensures p.getState.None? && p.hasDict ==> r == Success(attrs)
    ensures r.Failure? <==>
      && p.getState.None? && !p.hasDict
      && (p.slots.Some? ==> exists s | s in p.slots.value :: s !in attrs)
    ensures r.Success? && p.getState.None? && !p.hasDict ==>
      r.value == map s | s in p.slots.value && s in attrs :: attrs[s]
  {
    if p.getState.Some? then Success(p.getState.value(attrs))
    else if p.hasDict then Success(attrs)
    else if p.slots.Some? then SlotState(p.slots.value, attrs)
    else Failure(NotSerializable)
  }

  /** `_get_state` as written: its slots branch calls `copyreg._slotnames()`
      without the class argument, so it raises `TypeError` for every object
      that reaches it. */
  function GetStateAsWritten(p: StateProtocol, attrs: Attrs): (r: Result<Attrs, PyException>)
    ensures r.Failure? <==> p.getState.None? && !p.hasDict
    ensures r.Success? ==> r == GetState(p, attrs)
  {
    if p.getState.None? && !p.hasDict && p.slots.Some? then
      Failure(PyException("TypeError", "_slotnames() missing 1 required positional argument: 'cls'"))
    else
      GetState(p, attrs)
  }

  /** An object that keeps its state in slots only, all of them set: the
      state exists, and as written it cannot be read. */
  lemma SlotsOnlyStateAsWritten(p: StateProtocol, attrs: Attrs)
    requires p.getState.None? && !p.hasDict && p.slots.Some?
    requires forall s | s in p.slots.value :: s in attrs
    ensures GetState(p, attrs).Success?
    ensures GetStateAsWritten(p, attrs).Failure?
  {
  }

  /** The `setattr` loop of `_set_state` over `keys`: each key in turn
      until one that is not a slot raises `AttributeError`; the earlier
      assignments stay. */
  function AssignSlots(slots: seq<string>, attrs: Attrs, state: Attrs, keys: seq<string>)
    : (Result<(), PyException>, Attrs)
    requires forall k | k in keys :: k in state
    decreases |keys|
  {
    if keys == [] then (Success(()), attrs)
    else if keys[0] !in slots then (Failure(PyException("AttributeError", keys[0])), attrs)
    else AssignSlots(slots, attrs[keys[0] := state[keys[0]]], state, keys[1..])
  }

  /** `_set_state(obj, state)`: how it ends and the attributes it leaves.
      `__setstate__` first; then the `__dict__`, which `update` merges
      into; then the slots; `TypeError` otherwise. */
  function AfterSetState(p: StateProtocol, attrs: Attrs, state: Attrs): (Result<(), PyException>, Attrs) {
    if p.setState.Some? then (Success(()), p.setState.value(attrs, state))
    else if p.hasDict then (Success(()), attrs + state)
    else if p.slots.Some? then AssignSlots(p.slots.value, attrs, state, Ordering.SortedStrings(state.Keys))
    else (Failure(NotSerializable), attrs)
  }

  /** `_set_state(obj, state)`, updating the instance in place. */
  method SetState(inst: Instance, state: Attrs) returns (r: Result<(), PyException>)
    modifies inst
    ensures (r, inst.attrs) == AfterSetState(inst.protocol, old(inst.attrs), state)
    ensures inst.calls == old(inst.calls)
  {
    var p := inst.protocol;
    if p.setState.Some? {
      inst.attrs := p.setState.value(inst.attrs, state);
      return Success(());
    }
    if p.hasDict {
      inst.attrs := inst.attrs + state;
      return Success(());
    }
    if p.slots.None? {
      return Failure(NotSerializable);
    }
    r := AssignSlotsInPlace(inst, p.slots.value, state, Ordering.SortedStrings(state.Keys));
  }

  /** The `setattr` loop of `_set_state`. */
  method AssignSlotsInPlace(inst: Instance, slots: seq<string>, state: Attrs, keys: seq<string>)
    returns (r: Result<(), PyException>)
    requires forall k | k in keys :: k in state
    modifies inst
    ensures (r, inst.attrs) == AssignSlots(slots, old(inst.attrs), state, keys)
    ensures inst.calls == old(inst.calls)
  {
    var i := 0;
    while i < |keys|
      invariant 0 <= i <= |keys|
      invariant inst.calls == old(inst.calls)
      invariant AssignSlots(slots, old(inst.attrs), state, keys)
             == AssignSlots(slots, inst.attrs, state, keys[i..])
    {
      assert keys[i..] == [keys[i]] + keys[i + 1..];
      if keys[i] !in slots {
        return Failure(PyException("AttributeError", keys[i]));
      }
      inst.attrs := inst.attrs[keys[i] := state[keys[i]]];
      i := i + 1;
    }
    return Success(());
  }

  /** `attrs` with each of `keys` set to its value in `state`. */
  function Assigned(attrs: Attrs, state: Attrs, keys: seq<string>): Attrs
    requires forall k | k in keys :: k in state
  {
    attrs + map k | k in keys :: state[k]
  }

  lemma AssignedCons(attrs: Attrs, state: Attrs, keys: seq<string>)
    requires keys != [] && forall k | k in keys :: k in state
    ensures Assigned(attrs[keys[0] := state[keys[0]]], state, keys[1..]) == Assigned(attrs, state, keys)
  {
    var k0 := keys[0];
    var all, rest := map k | k in keys :: state[k], map k | k in keys[1..] :: state[k];
    assert keys == [k0] + keys[1..];
    assert all == rest[k0 := state[k0]];
    assert attrs[k0 := state[k0]] + rest == attrs + rest[k0 := state[k0]];
  }

  /** When every key is a slot, the loop assigns all of them. */
  lemma {:induction false} AssignSlotsSucceeds(slots: seq<string>, attrs: Attrs, state: Attrs, keys: seq<string>)
    requires forall k | k in keys :: k in state
    requires forall k | k in keys :: k in slots
    ensures AssignSlots(slots, attrs, state, keys) == (Success(()), Assigned(attrs, state, keys))
    decreases |keys|
  {
    if keys == [] {
      assert Assigned(attrs, state, []) == attrs;
    } else {
      AssignSlotsSucceeds(slots, attrs[keys[0] := state[keys[0]]], state, keys[1..]);
      AssignedCons(attrs, state, keys);
    }
  }

  /** When `keys[j]` is the first key that is not a slot, the loop raises
      `AttributeError` for it having assigned exactly the keys before it. */
  lemma {:induction false} AssignSlotsFails(slots: seq<string>, attrs: Attrs, state: Attrs,
                                            keys: seq<string>, j: nat)
    requires forall k | k in keys :: k in state
    requires j < |keys| && keys[j] !in slots
    requires forall i | 0 <= i < j :: keys[i] in slots
    ensures AssignSlots(slots, attrs, state, keys)
         == (Failure(PyException("AttributeError", keys[j])), Assigned(attrs, state, keys[..j]))
    decreases j
  {
    if j == 0 {
      assert keys[..0] == [];
      assert Assigned(attrs, state, []) == attrs;
    } else {
      AssignSlotsFails(slots, attrs[keys[0] := state[keys[0]]], state, keys[1..], j - 1);
      assert keys[1..][..j - 1] == keys[..j][1..];
      AssignedCons(attrs, state, keys[..j]);
    }
  }

  /** The position of the first of `keys` that is not in `slots`. */
  function FirstNotIn(keys: seq<string>, slots: seq<string>): (j: nat)
    requires exists k | k in keys :: k !in slots
    ensures j < |keys| && keys[j] !in slots
    ensures forall i | 0 <= i < j :: keys[i] in slots
  {
    if keys[0] !in slots then 0
    else
      assert keys == [keys[0]] + keys[1..];
      1 + FirstNotIn(keys[1..], slots)
  }

  /** The slot loop over all the keys of `state`, in any order. */
  lemma AssignAllSlots(slots: seq<string>, attrs: Attrs, state: Attrs, keys: seq<string>)
    requires forall k :: k in keys <==> k in state
    ensures AssignSlots(slots, attrs, state, keys).0.Success? <==> forall k | k in state :: k in slots
    ensures AssignSlots(slots, attrs, state, keys).0.Success? ==>
      AssignSlots(slots, attrs, state, keys).1 == attrs + state
  {
    if forall k | k in state :: k in slots {
      AssignSlotsSucceeds(slots, attrs, state, keys);
      assert (map k | k in keys :: state[k]) == state;
    } else {
      var k :| k in state && k !in slots;
      assert k in keys;
      var j := FirstNotIn(keys, slots);
      AssignSlotsFails(slots, attrs, state, keys, j);
    }
  }

  /** Restoring a slots-only object succeeds exactly when every key of the
      state is one of its slots, and then sets each of them. */
  lemma SetStateOnSlots(p: StateProtocol, attrs: Attrs, state: Attrs)
    requires p.setState.None? && !p.hasDict && p.slots.Some?
    ensures AfterSetState(p, attrs, state).0.Success? <==> forall k | k in state :: k in p.slots.value
    ensures AfterSetState(p, attrs, state).0.Success? ==> AfterSetState(p, attrs, state).1 == attrs + state
  {
    AssignAllSlots(p.slots.value, attrs, state, Ordering.SortedStrings(state.Keys));
  }

  /** `update` merges: the state's attributes win, the others stay. The
      result is the state itself exactly when the object had no attribute
      the state lacks. */
  lemma MergeIsRestoreIff(attrs: Attrs, state: Attrs)
    ensures forall k | k in state :: (attrs + state)[k] == state[k]
    ensures forall k | k in attrs && k !in state :: (attrs + state)[k] == attrs[k]
    ensures attrs + state == state <==> attrs.Keys <= state.Keys
  {
    if attrs + state == state {
      assert forall k | k in attrs :: k in (attrs + state).Keys;
    }
  }

  /** For an object that keeps its state in its `__dict__`, capturing the
      state and later handing it back gives back the captured attributes
      exactly when the object gained no attribute in between. */
  lemma CaptureThenRestore(p: StateProtocol, captured: Attrs, current: Attrs)
    requires p.getState.None? && p.setState.None? && p.hasDict
    ensures GetState(p, captured) == Success(captured)
    ensures AfterSetState(p, current, captured).0.Success?
    ensures AfterSetState(p, current, captured).1 == captured <==> current.Keys <= captured.Keys
  {
    MergeIsRestoreIff(current, captured);
  }

  // ---------------------------------------------------------------------
  // The wrappers' own _get_instance_state and _set_instance_state
  // ---------------------------------------------------------------------

  const NoDict := PyException("AttributeError", "__dict__")

  /** `_get_instance_state()`: `__getstate__()` when the object has one, its
      `__dict__` otherwise. It agrees with `_get_state` wherever it succeeds. */
  function InstanceState(p: StateProtocol, attrs: Attrs): (r: Result<Attrs, PyException>)
    ensures r.Failure? <==> p.getState.None? && !p.hasDict
    ensures r.Success? ==> r == GetState(p, attrs)
  {
    if p.getState.Some? then Success(p.getState.value(attrs))
    else if p.hasDict then Success(attrs)
    else Failure(NoDict)
  }

  /** `_set_instance_state(state)`: `__setstate__` when the object has one,
      otherwise an `update` of its `__dict__`. */
  function AfterRestoreInstanceState(p: StateProtocol, attrs: Attrs, state: Attrs)
    : (r: (Result<(), PyException>, Attrs))
    ensures r.0.Failure? <==> p.setState.None? && !p.hasDict
    ensures r.0.Success? ==> r == AfterSetState(p, attrs, state)
    ensures r.0.Failure? ==> r.1 == attrs
  {
    if p.setState.Some? then (Success(()), p.setState.value(attrs, state))
    else if p.hasDict then (Success(()), attrs + state)
    else (Failure(NoDict), attrs)
  }

  /** `_set_instance_state(state)`, updating the instance in place. */
  method RestoreInstanceState(inst: Instance, state: Attrs) returns (r: Result<(), PyException>)
    modifies inst
    ensures (r, inst.attrs) == AfterRestoreInstanceState(inst.protocol, old(inst.attrs), state)
    ensures inst.calls == old(inst.calls)
  {
    var p := inst.protocol;
    if p.setState.Some? {
      inst.attrs := p.setState.value(inst.attrs, state);
      r := Success(());
    } else if p.hasDict {
      inst.attrs := inst.attrs + state;
      r := Success(());
    } else {
      r := Failure(NoDict);
    }
  }
}
