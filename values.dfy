/** Python values as the change detector and the cache see them: finite
    trees without sharing. Scalars that can be dictionary keys or set
    members are atoms; containers and objects hold further values. */
module Values {
  import opened Wrappers
  import opened Text
  import Ordering

  /** Hashable scalars: `None`, `bool`, `int` and `str`. */
  datatype Atom = NoneA | BoolA(b: bool) | IntA(i: int) | StrA(s: string)

  datatype Value =
    | Prim(atom: Atom)
    | DictV(entries: map<Atom, Value>)
    | ListV(items: seq<Value>)
    | TupleV(items: seq<Value>)
    | SetV(elems: set<Atom>)
      /** An instance of a user class: its initialised `__slots__` values and,
          when the class has one, its `__dict__`. */
    | ObjV(cls: string, slots: map<string, Value>, dict: Option<map<string, Value>>)
      /** The detector's `_UncopyableMarker(type_name, obj_id)`. */
    | Marker(typeName: string, objId: int)

  /** A raised Python exception: its class name and its message. */
  datatype PyException = PyException(kind: string, message: string)

  /** How a call ended: the value it returned or the exception it raised. */
  datatype Outcome = Returned(value: Value) | Raised(exception: PyException)

  const NoneValue: Value := Prim(NoneA)

  function StrValue(s: string): Value {
    Prim(StrA(s))
  }

  /** `type(v)`; two values have the same type exactly when these agree. */
  datatype PyType =
    | NoneType | BoolType | IntType | StrType
    | DictType | ListType | TupleType | SetType
    | UserClass(name: string) | MarkerClass

  function TypeOf(v: Value): PyType {
    match v
    case Prim(a) =>
      (match a
       case NoneA => NoneType
       case BoolA(_) => BoolType
       case IntA(_) => IntType
       case StrA(_) => StrType)
    case DictV(_) => DictType
    case ListV(_) => ListType
    case TupleV(_) => TupleType
    case SetV(_) => SetType
    case ObjV(cls, _, _) => UserClass(cls)
    case Marker(_, _) => MarkerClass
  }

  /** `hasattr(v, "__dict__")` */
  predicate HasDict(v: Value) {
    (v.ObjV? && v.dict.Some?) || v.Marker?
  }

  /** `repr(a)`; string escapes are not modelled. */
  function AtomRepr(a: Atom): string {
    match a
    case NoneA => "None"
    case BoolA(b) => if b then "True" else "False"
    case IntA(i) => IntToDecimal(i)
    case StrA(s) => "'" + s + "'"
  }

  /** `str(a)` */
  function AtomStr(a: Atom): string {
    match a
    case StrA(s) => s
    case _ => AtomRepr(a)
  }

  function AtomRank(a: Atom): nat {
    match a
    case NoneA => 0
    case BoolA(_) => 1
    case IntA(_) => 2
    case StrA(_) => 3
  }

  /** A total order on atoms: by kind, then by value. */
  predicate AtomBelow(a: Atom, b: Atom) {
    if AtomRank(a) != AtomRank(b) then AtomRank(a) < AtomRank(b)
    else match a
      case NoneA => true
      case BoolA(x) => !x || b.b
      case IntA(x) => x <= b.i
      case StrA(x) => Ordering.StrBelow(x, b.s)
  }

  lemma AtomBelowTotal(a: Atom, b: Atom)
    ensures AtomBelow(a, b) || AtomBelow(b, a)
  {
    if a.StrA? && b.StrA? {
      Ordering.StrBelowTotal(a.s, b.s);
    }
  }

  lemma AtomBelowAntisymmetric(a: Atom, b: Atom)
    requires AtomBelow(a, b) && AtomBelow(b, a)
    ensures a == b
  {
    if a.StrA? && b.StrA? {
      Ordering.StrBelowAntisymmetric(a.s, b.s);
    }
  }

  lemma AtomBelowTransitive(a: Atom, b: Atom, c: Atom)
    requires AtomBelow(a, b) && AtomBelow(b, c)
    ensures AtomBelow(a, c)
  {
    if a.StrA? && b.StrA? && c.StrA? {
      Ordering.StrBelowTransitive(a.s, b.s, c.s);
    }
  }

  lemma AtomBelowIsTotalOrder()
    ensures Ordering.TotalOrder(AtomBelow)
  {
    forall a, b ensures AtomBelow(a, b) || AtomBelow(b, a) {
      AtomBelowTotal(a, b);
    }
    forall a, b | AtomBelow(a, b) && AtomBelow(b, a) ensures a == b {
      AtomBelowAntisymmetric(a, b);
    }
    forall a, b, c | AtomBelow(a, b) && AtomBelow(b, c) ensures AtomBelow(a, c) {
      AtomBelowTransitive(a, b, c);
    }
  }

  /** The atoms of `s`, each once, in ascending order. */
  function SortedAtoms(s: set<Atom>): (xs: seq<Atom>)
    ensures forall x :: x in xs <==> x in s
    ensures Ordering.Distinct(xs)
    ensures |xs| == |s|
  {
    AtomBelowIsTotalOrder();
    Ordering.Ascending(AtomBelow, s)
  }

  /** A `dict[str, Any]` such as an instance `__dict__`, as a value. */
  function StrDict(m: map<string, Value>): Value {
    DictV(map k | k in m :: StrA(k) := m[k])
  }
}
