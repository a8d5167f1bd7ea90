/** The state-change detector of `src/maurice/watchdog.py`: it snapshots
    the attributes of an object before and after a method call and diffs
    the two snapshots recursively into a list of attribute changes. */
module Watchdog {
  import opened Wrappers
  import opened Text
  import opened Values
  import Ordering

  // ---------------------------------------------------------------------
  // Changes and results
  // ---------------------------------------------------------------------

  datatype ChangeType = Added | Removed | Modified

  /** One attribute change; `oldValue` and `newValue` default to `None`. */
  datatype AttributeChange = AttributeChange(
    name: string,
    changeType: ChangeType,
    oldValue: Value,
    newValue: Value,
    path: string)

  /** Everything `call` learns about one method call. */
  datatype StateChangeResult = StateChangeResult(
    methodName: string,
    changes: seq<AttributeChange>,
    exceptionRaised: Option<PyException>,
    returnValue: Value)
  {
    /** `has_changes` */
    predicate HasChanges() {
      |changes| > 0
    }

    /** `added` */
    function AddedChanges(): seq<AttributeChange> {
      OfType(changes, Added)
    }

    /** `removed` */
    function RemovedChanges(): seq<AttributeChange> {
      OfType(changes, Removed)
    }

    /** `modified` */
    function ModifiedChanges(): seq<AttributeChange> {
      OfType(changes, Modified)
    }

    /** `get_changes_for_path(path)` */
    function ChangesForPath(p: string): seq<AttributeChange> {
      ForPath(changes, p)
    }
  }

  /** The changes of kind `t`, in their original order. */
  function OfType(cs: seq<AttributeChange>, t: ChangeType): (r: seq<AttributeChange>)
    ensures forall c :: c in r <==> c in cs && c.changeType == t
    ensures |r| <= |cs|
  {
    if cs == [] then []
    else (if cs[0].changeType == t then [cs[0]] else []) + OfType(cs[1..], t)
  }

  /** The changes whose path or name is `p`, in their original order. */
  function ForPath(cs: seq<AttributeChange>, p: string): (r: seq<AttributeChange>)
    ensures forall c :: c in r <==> c in cs && (c.path == p || c.name == p)
    ensures |r| <= |cs|
  {
    if cs == [] then []
    else (if cs[0].path == p || cs[0].name == p then [cs[0]] else []) + ForPath(cs[1..], p)
  }

  // ---------------------------------------------------------------------
  // Detector configuration and attribute extraction
  // ---------------------------------------------------------------------

  /** The constructor options of `StateChangeDetector`. */
  datatype Config = Config(
    deep: bool,
    maxDepth: int,
    ignorePrivate: bool,
    ignoreDunder: bool,
    trackCollections: bool)

  const DefaultConfig: Config := Config(true, 10, false, true, true)

  /** `_should_ignore_attr(name)` */
  function ShouldIgnoreAttr(cfg: Config, name: string): bool {
    if cfg.ignoreDunder && StartsWith(name, "__") && EndsWith(name, "__") then true
    else if cfg.ignorePrivate && StartsWith(name, "_") then true
    else false
  }

  /** The initialised `__slots__` of an object. */
  function SlotValues(obj: Value): map<string, Value> {
    if obj.ObjV? then obj.slots else map[]
  }

  /** `obj.__dict__`, empty when there is none. */
  function InstanceDict(obj: Value): map<string, Value> {
    match obj
    case ObjV(_, _, d) => if d.Some? then d.value else map[]
    case Marker(t, i) => map["type_name" := StrValue(t), "obj_id" := Prim(IntA(i))]
    case _ => map[]
  }

  /** `_get_all_attributes(obj)`: slot values, then `__dict__` entries over
      them, leaving out the names the configuration ignores. */
  function AllAttributes(cfg: Config, obj: Value): (attrs: map<string, Value>)
    ensures forall name :: name in attrs <==>
      (name in SlotValues(obj) || name in InstanceDict(obj)) && !ShouldIgnoreAttr(cfg, name)
    ensures forall name | name in attrs ::
      attrs[name] == if name in InstanceDict(obj) then InstanceDict(obj)[name] else SlotValues(obj)[name]
  {
    var slots := SlotValues(obj);
    var dict := InstanceDict(obj);
    (map name | name in slots && !ShouldIgnoreAttr(cfg, name) :: slots[name])
      + (map name | name in dict && !ShouldIgnoreAttr(cfg, name) :: dict[name])
  }

  /** `_snapshot(obj)`. Values are trees without sharing, so the deep copy
      taken when `deep` is set is the value itself. When `deep` is unset the
      source keeps references to the live attribute objects, so a change made
      in place to a mutable attribute shows on both snapshots; the model
      reads `deep` nowhere and always compares the values as they were. */
  function Snapshot(cfg: Config, obj: Value): map<string, Value> {
    AllAttributes(cfg, obj)
  }

  // ---------------------------------------------------------------------
  // Equality as Python's `==` sees snapshot values
  // ---------------------------------------------------------------------

  /** `_UncopyableMarker.__eq__`: markers are equal when their object ids
      are; a marker is never equal to anything else. */
  function MarkerEquals(marker: Value, other: Value): (eq: bool)
    requires marker.Marker?
    ensures eq ==> other.Marker?
  {
    other.Marker? && marker.objId == other.objId
  }

  /** `old == new` on two snapshot values. A marker decides the comparison
      whichever side it is on: the other type's `__eq__` does not know it. */
  predicate PyEquals(before: Value, after: Value) {
    if before.Marker? then MarkerEquals(before, after)
    else if after.Marker? then MarkerEquals(after, before)
    else before == after
  }

  // ---------------------------------------------------------------------
  // The recursive comparison
  // ---------------------------------------------------------------------

  const MaxDepthText: Value := StrValue("<max depth reached>")

  /** The name a change at `path` gets: `path.split(".")[-1]`. */
  function NameAt(path: string): string {
    LastSegment(path, '.')
  }

  function Modification(before: Value, after: Value, path: string): AttributeChange {
    AttributeChange(NameAt(path), Modified, before, after, path)
  }

  /** `f"{path}[{key!r}]"` */
  function KeyPath(path: string, k: Atom): string {
    path + "[" + AtomRepr(k) + "]"
  }

  /** `f"{path}[{i}]"` */
  function IndexPath(path: string, i: nat): string {
    path + "[" + NatToDecimal(i) + "]"
  }

  /** `f"{base_path}.{attr}" if base_path else attr` */
  function AttrPath(basePath: string, attr: string): string {
    if basePath != "" then basePath + "." + attr else attr
  }

  /** How many more levels the comparison may descend from `depth`; the
      comparison terminates because every descent uses one up. */
  function Budget(cfg: Config, depth: int): nat {
    if depth > cfg.maxDepth then 0 else cfg.maxDepth - depth + 2
  }

  /** `_compare_values(old, new, path, depth)` */
  function CompareValues(cfg: Config, before: Value, after: Value, path: string, depth: int): seq<AttributeChange>
    decreases Budget(cfg, depth), if depth > cfg.maxDepth then 0 else 3, 0
  {
    if depth > cfg.maxDepth then
      if !PyEquals(before, after) then [AttributeChange(NameAt(path), Modified, MaxDepthText, MaxDepthText, path)]
      else []
    else if before.Marker? || after.Marker? then
      if !PyEquals(before, after) then [Modification(before, after, path)] else []
    else if before == after then []
    else if TypeOf(before) != TypeOf(after) then [Modification(before, after, path)]
    else if cfg.trackCollections && before.DictV? && after.DictV? then
      CompareDicts(cfg, before.entries, after.entries, path, depth)
    else if cfg.trackCollections && (before.ListV? || before.TupleV?) && (after.ListV? || after.TupleV?) then
      CompareSequences(cfg, before.items, after.items, path, depth)
    else if cfg.trackCollections && before.SetV? && after.SetV? then
      CompareSets(before.elems, after.elems, path)
    else if HasDict(before) && HasDict(after) then
      CompareAttrDicts(cfg, AllAttributes(cfg, before), AllAttributes(cfg, after), path, depth)
    else [Modification(before, after, path)]
  }

  /** `_compare_dicts`: every key of either dict, once. */
  function CompareDicts(cfg: Config, before: map<Atom, Value>, after: map<Atom, Value>, path: string, depth: int)
    : seq<AttributeChange>
    decreases Budget(cfg, depth), 2, 0
  {
    DictEntries(cfg, SortedAtoms(before.Keys + after.Keys), before, after, path, depth)
  }

  function DictEntries(cfg: Config, keys: seq<Atom>, before: map<Atom, Value>, after: map<Atom, Value>,
                       path: string, depth: int): seq<AttributeChange>
    requires forall k | k in keys :: k in before || k in after
    decreases Budget(cfg, depth), 1, |keys|
  {
    if keys == [] then []
    else DictEntry(cfg, keys[0], before, after, path, depth) + DictEntries(cfg, keys[1..], before, after, path, depth)
  }

  /** The loop body of `_compare_dicts` for one key. */
  function DictEntry(cfg: Config, k: Atom, before: map<Atom, Value>, after: map<Atom, Value>,
                     path: string, depth: int): seq<AttributeChange>
    requires k in before || k in after
    decreases Budget(cfg, depth), 1, 0
  {
    var keyPath := KeyPath(path, k);
    if k !in before then [AttributeChange(AtomStr(k), Added, NoneValue, after[k], keyPath)]
    else if k !in after then [AttributeChange(AtomStr(k), Removed, before[k], NoneValue, keyPath)]
    else CompareValues(cfg, before[k], after[k], keyPath, depth + 1)
  }

  /** `_compare_sequences`: the length change, the common prefix element by
      element, then the extra tail. */
  function CompareSequences(cfg: Config, before: seq<Value>, after: seq<Value>, path: string, depth: int)
    : seq<AttributeChange>
    decreases Budget(cfg, depth), 2, 0
  {
    LengthChanges(before, after, path) + Elementwise(cfg, before, after, path, depth, 0) + TailChanges(before, after, path)
  }

  function LengthChanges(before: seq<Value>, after: seq<Value>, path: string): seq<AttributeChange> {
    if |before| != |after| then
      [AttributeChange(NameAt(path), Modified,
                       StrValue("length=" + NatToDecimal(|before|)),
                       StrValue("length=" + NatToDecimal(|after|)),
                       path + ".length")]
    else []
  }

  function Min(a: nat, b: nat): nat {
    if a < b then a else b
  }

  /** `for i, (o, n) in enumerate(zip(old, new))`, from index `i` on. */
  function Elementwise(cfg: Config, before: seq<Value>, after: seq<Value>, path: string, depth: int, i: nat)
    : seq<AttributeChange>
    requires i <= Min(|before|, |after|)
    decreases Budget(cfg, depth), 1, Min(|before|, |after|) - i
  {
    if i == Min(|before|, |after|) then []
    else CompareValues(cfg, before[i], after[i], IndexPath(path, i), depth + 1)
         + Elementwise(cfg, before, after, path, depth, i + 1)
  }

  /** The items past the shorter sequence: added when `new` is longer,
      removed when `before` is. */
  function TailChanges(before: seq<Value>, after: seq<Value>, path: string): seq<AttributeChange> {
    if |after| > |before| then
      seq(|after| - |before|, j requires 0 <= j < |after| - |before| =>
        AttributeChange(NatToDecimal(|before| + j), Added, NoneValue, after[|before| + j], IndexPath(path, |before| + j)))
    else
      seq(|before| - |after|, j requires 0 <= j < |before| - |after| =>
        AttributeChange(NatToDecimal(|after| + j), Removed, before[|after| + j], NoneValue, IndexPath(path, |after| + j)))
  }

  /** `_compare_sets`: one change per element of `new - old`, then one per
      element of `old - new`. */
  function CompareSets(before: set<Atom>, after: set<Atom>, path: string): seq<AttributeChange> {
    SetAdditions(SortedAtoms(after - before), path) + SetRemovals(SortedAtoms(before - after), path)
  }

  function SetAddition(x: Atom, path: string): AttributeChange {
    AttributeChange("set_item", Added, NoneValue, Prim(x), path + ".add(" + AtomRepr(x) + ")")
  }

  function SetRemoval(x: Atom, path: string): AttributeChange {
    AttributeChange("set_item", Removed, Prim(x), NoneValue, path + ".remove(" + AtomRepr(x) + ")")
  }

  function SetAdditions(xs: seq<Atom>, path: string): (r: seq<AttributeChange>)
    ensures |r| == |xs|
    ensures forall i | 0 <= i < |xs| :: r[i] == SetAddition(xs[i], path)
  {
    seq(|xs|, i requires 0 <= i < |xs| => SetAddition(xs[i], path))
  }

  function SetRemovals(xs: seq<Atom>, path: string): (r: seq<AttributeChange>)
    ensures |r| == |xs|
    ensures forall i | 0 <= i < |xs| :: r[i] == SetRemoval(xs[i], path)
  {
    seq(|xs|, i requires 0 <= i < |xs| => SetRemoval(xs[i], path))
  }

  /** `_compare_attr_dicts`: every attribute name of either side, once. */
  function CompareAttrDicts(cfg: Config, before: map<string, Value>, after: map<string, Value>,
                            basePath: string, depth: int): seq<AttributeChange>
    decreases Budget(cfg, depth), 2, 0
  {
    AttrEntries(cfg, Ordering.SortedStrings(before.Keys + after.Keys), before, after, basePath, depth)
  }

  function AttrEntries(cfg: Config, names: seq<string>, before: map<string, Value>, after: map<string, Value>,
                       basePath: string, depth: int): seq<AttributeChange>
    requires forall n | n in names :: n in before || n in after
    decreases Budget(cfg, depth), 1, |names|
  {
    if names == [] then []
    else AttrEntry(cfg, names[0], before, after, basePath, depth) + AttrEntries(cfg, names[1..], before, after, basePath, depth)
  }

  /** The loop body of `_compare_attr_dicts` for one attribute. */
  function AttrEntry(cfg: Config, attr: string, before: map<string, Value>, after: map<string, Value>,
                     basePath: string, depth: int): seq<AttributeChange>
    requires attr in before || attr in after
    decreases Budget(cfg, depth), 1, 0
  {
    var path := AttrPath(basePath, attr);
    if attr !in before then [AttributeChange(attr, Added, NoneValue, after[attr], path)]
    else if attr !in after then [AttributeChange(attr, Removed, before[attr], NoneValue, path)]
    else CompareValues(cfg, before[attr], after[attr], path, depth + 1)
  }

  /** `_detect_changes(before, after)` */
  function DetectChanges(cfg: Config, before: map<string, Value>, after: map<string, Value>): seq<AttributeChange> {
    CompareAttrDicts(cfg, before, after, "", 0)
  }

  // ---------------------------------------------------------------------
  // The detector object and `call`
  // ---------------------------------------------------------------------

  /** What running a method did to its object: the object's new state, and
      either the value it returned or the exception it raised. */
  datatype Invocation = Invocation(after: Value, outcome: Outcome)

  /** What `getattr(obj, method_name)` finds. A callable attribute is given
      by what calling it (with the caller's arguments) does. */
  datatype Attribute =
    | NoAttribute
    | NotCallable(value: Value)
    | Callable(run: Value -> Invocation)

  class StateChangeDetector {
    /** The tracked object (`_obj`), as its current state. */
    var obj: Value
    const config: Config
    /** `last_result` */
    var lastResult: Option<StateChangeResult>

    constructor (obj: Value, config: Config)
      ensures this.obj == obj && this.config == config
      ensures lastResult == None
    {
      this.obj := obj;
      this.config := config;
      lastResult := None;
    }

    /** `call(method_name, *args, **kwargs)`: snapshot, run the method and
        keep what it raised, snapshot again, diff, record. */
    method Call(methodName: string, attr: Attribute) returns (r: Result<StateChangeResult, PyException>)
      modifies this
      ensures attr.NoAttribute? ==>
        r == Failure(PyException("AttributeError", methodName)) && obj == old(obj) && lastResult == old(lastResult)
      ensures attr.NotCallable? ==>
        && r == Failure(PyException("TypeError", "'" + methodName + "' is not callable"))
        && obj == old(obj) && lastResult == old(lastResult)
      ensures attr.Callable? ==>
        var inv := attr.run(old(obj));
        && r.Success?
        && obj == inv.after
        && r.value.methodName == methodName
        && r.value.changes == DetectChanges(config, Snapshot(config, old(obj)), Snapshot(config, inv.after))
        && r.value.exceptionRaised == (if inv.outcome.Raised? then Some(inv.outcome.exception) else None)
        && r.value.returnValue == (if inv.outcome.Returned? then inv.outcome.value else NoneValue)
        && lastResult == Some(r.value)
    {
      match attr
      case NoAttribute =>
        return Failure(PyException("AttributeError", methodName));
      case NotCallable(_) =>
        return Failure(PyException("TypeError", "'" + methodName + "' is not callable"));
      case Callable(run) =>
        var before := Snapshot(config, obj);
        var result := StateChangeResult(methodName, [], None, NoneValue);
        var inv := run(obj);
        obj := inv.after;
        match inv.outcome {
          case Returned(v) => result := result.(returnValue := v);
          case Raised(e) => result := result.(exceptionRaised := Some(e));
        }
        var after := Snapshot(config, obj);
        result := result.(changes := DetectChanges(config, before, after));
        lastResult := Some(result);
        return Success(result);
    }
  }
}
