/** What the change detector of `src/maurice/watchdog.py` guarantees: the
    result filters partition the change list, equal values never produce a
    change, every change stays under the path being compared, and the
    detector reports nothing exactly when the two snapshots agree. */
module WatchdogProperties {
  import opened Wrappers
  import opened Text
  import opened Values
  import opened Watchdog
  import Ordering

  // ---------------------------------------------------------------------
  // StateChangeResult filters
  // ---------------------------------------------------------------------

  /** `added`, `removed` and `modified` split `changes` between them: their
      lengths add up, and together they hold every change once. */
  lemma {:induction false} FiltersPartition(cs: seq<AttributeChange>)
    ensures |OfType(cs, Added)| + |OfType(cs, Removed)| + |OfType(cs, Modified)| == |cs|
  {
    if cs != [] {
      FiltersPartition(cs[1..]);
    }
  }

  /** Together the three filters hold every change exactly as often as
      `changes` does. */
  lemma {:induction false} FiltersKeepEveryChange(cs: seq<AttributeChange>)
    ensures multiset(OfType(cs, Added)) + multiset(OfType(cs, Removed)) + multiset(OfType(cs, Modified))
            == multiset(cs)
  {
    if cs != [] {
      var h, rest := cs[0], cs[1..];
      FiltersKeepEveryChange(rest);
      assert cs == [h] + rest;
      FilterHead(h, rest);
    }
  }

  lemma FilterHead(h: AttributeChange, rest: seq<AttributeChange>)
    ensures multiset(OfType([h] + rest, Added)) + multiset(OfType([h] + rest, Removed))
            + multiset(OfType([h] + rest, Modified))
            == multiset{h} + multiset(OfType(rest, Added)) + multiset(OfType(rest, Removed))
               + multiset(OfType(rest, Modified))
  {
    var cs := [h] + rest;
    assert cs[0] == h && cs[1..] == rest;
    match h.changeType
    case Added => assert OfType(cs, Added) == [h] + OfType(rest, Added);
    case Removed => assert OfType(cs, Removed) == [h] + OfType(rest, Removed);
    case Modified => assert OfType(cs, Modified) == [h] + OfType(rest, Modified);
  }

  /** The filters keep the original order: filtering a concatenation is
      concatenating the filtered parts. */
  lemma {:induction false} OfTypeDistributes(a: seq<AttributeChange>, b: seq<AttributeChange>, t: ChangeType)
    ensures OfType(a + b, t) == OfType(a, t) + OfType(b, t)
  {
    if a == [] {
      assert a + b == b;
    } else {
      var h, rest := a[0], a[1..];
      var hd := if h.changeType == t then [h] else [];
      OfTypeDistributes(rest, b, t);
      ConsSplit(a, b);
      OfTypeCons(h, rest + b, t);
      OfTypeCons(h, rest, t);
      Regroup(hd, OfType(rest, t), OfType(b, t));
    }
  }

  lemma ConsSplit<T>(a: seq<T>, b: seq<T>)
    requires a != []
    ensures a == [a[0]] + a[1..]
    ensures a + b == [a[0]] + (a[1..] + b)
  {
  }

  lemma Regroup<T>(x: seq<T>, y: seq<T>, z: seq<T>)
    ensures x + (y + z) == (x + y) + z
  {
  }

  lemma OfTypeCons(h: AttributeChange, rest: seq<AttributeChange>, t: ChangeType)
    ensures OfType([h] + rest, t) == (if h.changeType == t then [h] else []) + OfType(rest, t)
  {
    assert ([h] + rest)[1..] == rest;
  }

  /** `has_changes` holds exactly when one of the three filters is non-empty. */
  lemma HasChangesIffSomeKind(r: StateChangeResult)
    ensures r.HasChanges() <==>
      (r.AddedChanges() != [] || r.RemovedChanges() != [] || r.ModifiedChanges() != [])
  {
    FiltersPartition(r.changes);
  }

  /** A sequence whose changes all have kind `t` is its own `t` filter. */
  lemma {:induction false} OfTypeAll(cs: seq<AttributeChange>, t: ChangeType)
    requires forall c | c in cs :: c.changeType == t
    ensures OfType(cs, t) == cs
  {
    if cs != [] {
      OfTypeAll(cs[1..], t);
      assert cs == [cs[0]] + cs[1..];
    }
  }

  /** A sequence without changes of kind `t` has an empty `t` filter. */
  lemma {:induction false} OfTypeNone(cs: seq<AttributeChange>, t: ChangeType)
    requires forall c | c in cs :: c.changeType != t
    ensures OfType(cs, t) == []
  {
    if cs != [] {
      OfTypeNone(cs[1..], t);
    }
  }

  // ---------------------------------------------------------------------
  // Ignored attribute names
  // ---------------------------------------------------------------------

  /** With the default options (`ignore_dunder=True`, `ignore_private=False`)
      a name is ignored exactly when its first two and last two characters
      are underscores; they may overlap, so `"__"` and `"___"` are ignored. */
  lemma DefaultIgnoresDunderNames(name: string)
    ensures ShouldIgnoreAttr(DefaultConfig, name) <==>
      |name| >= 2 && name[0] == '_' && name[1] == '_' && name[|name| - 2] == '_' && name[|name| - 1] == '_'
  {
    if |name| >= 2 {
      var head, tail := name[..2], name[|name| - 2..];
      assert head == [name[0], name[1]];
      assert tail == [name[|name| - 2], name[|name| - 1]];
    }
  }

  /** With `ignore_private` set every name starting with `_` is ignored,
      whatever `ignore_dunder` says. */
  lemma PrivateIgnoresUnderscoreNames(cfg: Config, name: string)
    requires cfg.ignorePrivate
    ensures ShouldIgnoreAttr(cfg, name) <== |name| >= 1 && name[0] == '_'
  {
    if |name| >= 1 && name[0] == '_' {
      assert name[..1] == "_";
    }
  }

  // ---------------------------------------------------------------------
  // Single comparisons
  // ---------------------------------------------------------------------

  /** Values Python considers equal never produce a change, at any depth. */
  lemma EqualValuesNoChanges(cfg: Config, before: Value, after: Value, path: string, depth: int)
    requires PyEquals(before, after)
    ensures CompareValues(cfg, before, after, path, depth) == []
  {
  }

  /** Below the depth limit, values of different types (neither a marker)
      produce exactly one modification carrying both values. */
  lemma TypeChangeIsOneModification(cfg: Config, before: Value, after: Value, path: string, depth: int)
    requires depth <= cfg.maxDepth
    requires !before.Marker? && !after.Marker?
    requires TypeOf(before) != TypeOf(after)
    ensures CompareValues(cfg, before, after, path, depth)
            == [AttributeChange(NameAt(path), Modified, before, after, path)]
  {
  }

  /** Beyond `max_depth` the comparison does not descend: at most one
      modification, with placeholder values, and only when the values differ. */
  lemma BeyondMaxDepth(cfg: Config, before: Value, after: Value, path: string, depth: int)
    requires depth > cfg.maxDepth
    ensures var r := CompareValues(cfg, before, after, path, depth);
      && |r| <= 1
      && (|r| == 1 <==> !PyEquals(before, after))
      && forall c | c in r :: c.changeType == Modified && c.oldValue == MaxDepthText
                               && c.newValue == MaxDepthText && c.path == path
  {
  }

  /** Two markers compare by object id alone, and a marker never equals a
      value of another type. */
  lemma MarkerEquality(m: Value, v: Value)
    requires m.Marker?
    ensures PyEquals(m, v) <==> v.Marker? && v.objId == m.objId
    ensures PyEquals(v, m) <==> PyEquals(m, v)
  {
  }

  // ---------------------------------------------------------------------
  // Every change lies under the path being compared
  // ---------------------------------------------------------------------

  lemma StartsWithJoin(path: string, suffix: string, more: string)
    ensures StartsWith(path + suffix + more, path + suffix)
    ensures StartsWith(path + suffix, path)
  {
    assert (path + suffix + more)[..|path + suffix|] == path + suffix;
    assert (path + suffix)[..|path|] == path;
  }

  lemma {:induction false} ChangesUnderPath(cfg: Config, before: Value, after: Value, path: string, depth: int)
    ensures forall c | c in CompareValues(cfg, before, after, path, depth) :: StartsWith(c.path, path)
    decreases Budget(cfg, depth), if depth > cfg.maxDepth then 0 else 3, 0
  {
    var r := CompareValues(cfg, before, after, path, depth);
    assert StartsWith(path, path) by { assert path[..|path|] == path; }
    if depth > cfg.maxDepth || before.Marker? || after.Marker? || before == after
       || TypeOf(before) != TypeOf(after) {
    } else if cfg.trackCollections && before.DictV? && after.DictV? {
      DictChangesUnderPath(cfg, before.entries, after.entries, path, depth);
    } else if cfg.trackCollections && (before.ListV? || before.TupleV?) && (after.ListV? || after.TupleV?) {
      SequenceChangesUnderPath(cfg, before.items, after.items, path, depth);
    } else if cfg.trackCollections && before.SetV? && after.SetV? {
      SetChangesUnderPath(before.elems, after.elems, path);
    } else if HasDict(before) && HasDict(after) {
      AttrChangesUnderPath(cfg, AllAttributes(cfg, before), AllAttributes(cfg, after), path, depth);
    }
  }

  /** `path[inner]` lies under `path[`, which lies under `path`. */
  lemma BracketPathUnder(path: string, inner: string)
    ensures StartsWith(path + "[" + inner + "]", path + "[")
    ensures StartsWith(path + "[", path)
  {
    StartsWithJoin(path, "[", inner + "]");
    assert path + "[" + inner + "]" == path + "[" + (inner + "]");
  }

  lemma DictChangesUnderPath(cfg: Config, before: map<Atom, Value>, after: map<Atom, Value>, path: string, depth: int)
    ensures forall c | c in CompareDicts(cfg, before, after, path, depth) :: StartsWith(c.path, path)
    decreases Budget(cfg, depth), 2, 0
  {
    DictEntriesUnderPath(cfg, SortedAtoms(before.Keys + after.Keys), before, after, path, depth);
    BracketPathUnder(path, "");
    forall c | c in CompareDicts(cfg, before, after, path, depth) ensures StartsWith(c.path, path) {
      StartsWithTrans(c.path, path + "[", path);
    }
  }

  /** Every change a dict entry produces lies under `path[`. */
  lemma {:induction false} DictEntriesUnderPath(cfg: Config, keys: seq<Atom>, before: map<Atom, Value>,
                                                after: map<Atom, Value>, path: string, depth: int)
    requires forall k | k in keys :: k in before || k in after
    ensures forall c | c in DictEntries(cfg, keys, before, after, path, depth) :: StartsWith(c.path, path + "[")
    decreases Budget(cfg, depth), 1, |keys|
  {
    if keys != [] {
      var k := keys[0];
      var keyPath := KeyPath(path, k);
      BracketPathUnder(path, AtomRepr(k));
      if k in before && k in after {
        ChangesUnderPath(cfg, before[k], after[k], keyPath, depth + 1);
        forall c | c in CompareValues(cfg, before[k], after[k], keyPath, depth + 1)
          ensures StartsWith(c.path, path + "[")
        {
          StartsWithTrans(c.path, keyPath, path + "[");
        }
      }
      DictEntriesUnderPath(cfg, keys[1..], before, after, path, depth);
    }
  }

  /** Every change the sequence comparison produces lies under `path`; all
      but the length change lie under `path[`. */
  lemma SequenceChangesUnderPath(cfg: Config, before: seq<Value>, after: seq<Value>, path: string, depth: int)
    ensures forall c | c in CompareSequences(cfg, before, after, path, depth) :: StartsWith(c.path, path)
    ensures forall c | c in Elementwise(cfg, before, after, path, depth, 0) + TailChanges(before, after, path)
              :: StartsWith(c.path, path + "[")
    decreases Budget(cfg, depth), 2, 0
  {
    StartsWithJoin(path, ".length", "");
    assert path + ".length" + "" == path + ".length";
    ElementwiseUnderPath(cfg, before, after, path, depth, 0);
    var tail := TailChanges(before, after, path);
    forall j | 0 <= j < |tail| ensures StartsWith(tail[j].path, path + "[") {
      var i := if |after| > |before| then |before| + j else |after| + j;
      assert tail[j].path == IndexPath(path, i);
      BracketPathUnder(path, NatToDecimal(i));
    }
    BracketPathUnder(path, "");
    forall c | c in Elementwise(cfg, before, after, path, depth, 0) + tail ensures StartsWith(c.path, path) {
      StartsWithTrans(c.path, path + "[", path);
    }
  }

  lemma {:induction false} ElementwiseUnderPath(cfg: Config, before: seq<Value>, after: seq<Value>,
                                                path: string, depth: int, i: nat)
    requires i <= Min(|before|, |after|)
    ensures forall c | c in Elementwise(cfg, before, after, path, depth, i) :: StartsWith(c.path, path + "[")
    decreases Budget(cfg, depth), 1, Min(|before|, |after|) - i
  {
    if i < Min(|before|, |after|) {
      var ip := IndexPath(path, i);
      ChangesUnderPath(cfg, before[i], after[i], ip, depth + 1);
      BracketPathUnder(path, NatToDecimal(i));
      forall c | c in CompareValues(cfg, before[i], after[i], ip, depth + 1)
        ensures StartsWith(c.path, path + "[")
      {
        StartsWithTrans(c.path, ip, path + "[");
      }
      ElementwiseUnderPath(cfg, before, after, path, depth, i + 1);
    }
  }

  lemma CallPathUnder(path: string, call: string, arg: string)
    ensures StartsWith(path + call + arg + ")", path)
  {
    StartsWithJoin(path, call, arg + ")");
    assert path + call + arg + ")" == path + call + (arg + ")");
    StartsWithTrans(path + call + arg + ")", path + call, path);
  }

  lemma SetChangesUnderPath(before: set<Atom>, after: set<Atom>, path: string)
    ensures forall c | c in CompareSets(before, after, path) :: StartsWith(c.path, path)
  {
    AdditionsUnderPath(SortedAtoms(after - before), path);
    RemovalsUnderPath(SortedAtoms(before - after), path);
  }

  lemma AdditionsUnderPath(xs: seq<Atom>, path: string)
    ensures forall c | c in SetAdditions(xs, path) :: StartsWith(c.path, path)
  {
    var r := SetAdditions(xs, path);
    forall k | 0 <= k < |r| ensures StartsWith(r[k].path, path) {
      CallPathUnder(path, ".add(", AtomRepr(xs[k]));
    }
  }

  lemma RemovalsUnderPath(xs: seq<Atom>, path: string)
    ensures forall c | c in SetRemovals(xs, path) :: StartsWith(c.path, path)
  {
    var r := SetRemovals(xs, path);
    forall k | 0 <= k < |r| ensures StartsWith(r[k].path, path) {
      CallPathUnder(path, ".remove(", AtomRepr(xs[k]));
    }
  }

  lemma AttrChangesUnderPath(cfg: Config, before: map<string, Value>, after: map<string, Value>,
                             basePath: string, depth: int)
    ensures forall c | c in CompareAttrDicts(cfg, before, after, basePath, depth) :: StartsWith(c.path, basePath)
    decreases Budget(cfg, depth), 2, 0
  {
    AttrEntriesUnderPath(cfg, Ordering.SortedStrings(before.Keys + after.Keys), before, after, basePath, depth);
  }

  lemma {:induction false} AttrEntriesUnderPath(cfg: Config, names: seq<string>, before: map<string, Value>,
                                                after: map<string, Value>, basePath: string, depth: int)
    requires forall n | n in names :: n in before || n in after
    ensures forall c | c in AttrEntries(cfg, names, before, after, basePath, depth) :: StartsWith(c.path, basePath)
    decreases Budget(cfg, depth), 1, |names|
  {
    if names != [] {
      var attr := names[0];
      var p := AttrPath(basePath, attr);
      if basePath != "" {
        StartsWithJoin(basePath, ".", attr);
        StartsWithTrans(p, basePath + ".", basePath);
      }
      assert StartsWith(p, basePath);
      if attr in before && attr in after {
        ChangesUnderPath(cfg, before[attr], after[attr], p, depth + 1);
        forall c | c in CompareValues(cfg, before[attr], after[attr], p, depth + 1)
          ensures StartsWith(c.path, basePath)
        {
          StartsWithTrans(c.path, p, basePath);
        }
      }
      AttrEntriesUnderPath(cfg, names[1..], before, after, basePath, depth);
    }
  }

  // ---------------------------------------------------------------------
  // The detector reports nothing exactly when nothing visible changed
  // ---------------------------------------------------------------------

  /** What the comparison can see of `v` at `depth`: marker type names are
      dropped (markers compare by object id), the attributes of an object
      with a `__dict__` are the ones `_get_all_attributes` keeps, collections
      are looked into only when they are tracked, and nothing is looked into
      beyond `max_depth`. */
  function Visible(cfg: Config, v: Value, depth: int): (w: Value)
    ensures TypeOf(w) == TypeOf(v)
    decreases Budget(cfg, depth), if depth > cfg.maxDepth then 0 else 2
  {
    if v.Marker? then Marker("", v.objId)
    else if depth > cfg.maxDepth then v
    else match v
      case DictV(m) => if cfg.trackCollections then DictV(VisibleEntries(cfg, m, depth)) else v
      case ListV(xs) => if cfg.trackCollections then ListV(VisibleItems(cfg, xs, depth)) else v
      case TupleV(xs) => if cfg.trackCollections then TupleV(VisibleItems(cfg, xs, depth)) else v
      case ObjV(cls, _, d) =>
        if d.Some? then ObjV(cls, map[], Some(VisibleAttrs(cfg, AllAttributes(cfg, v), depth))) else v
      case _ => v
  }

  /** The entries of a dict at `depth`, each seen one level down. */
  function VisibleEntries(cfg: Config, m: map<Atom, Value>, depth: int): (r: map<Atom, Value>)
    ensures r.Keys == m.Keys
    ensures forall k | k in r :: r[k] == Visible(cfg, m[k], depth + 1)
    decreases Budget(cfg, depth), 1
  {
    map k | k in m :: Visible(cfg, m[k], depth + 1)
  }

  function VisibleAttrs(cfg: Config, m: map<string, Value>, depth: int): (r: map<string, Value>)
    ensures r.Keys == m.Keys
    ensures forall n | n in r :: r[n] == Visible(cfg, m[n], depth + 1)
    decreases Budget(cfg, depth), 1
  {
    map n | n in m :: Visible(cfg, m[n], depth + 1)
  }

  function VisibleItems(cfg: Config, xs: seq<Value>, depth: int): (r: seq<Value>)
    ensures |r| == |xs|
    ensures forall i | 0 <= i < |r| :: r[i] == Visible(cfg, xs[i], depth + 1)
    decreases Budget(cfg, depth), 1
  {
    seq(|xs|, i requires 0 <= i < |xs| => Visible(cfg, xs[i], depth + 1))
  }

  /** The comparison of two values reports no change exactly when the two
      look the same to it. */
  lemma {:induction false} NoChangesIffSameVisible(cfg: Config, before: Value, after: Value, path: string, depth: int)
    ensures CompareValues(cfg, before, after, path, depth) == [] <==>
            Visible(cfg, before, depth) == Visible(cfg, after, depth)
    decreases Budget(cfg, depth), if depth > cfg.maxDepth then 0 else 3, 0
  {
    if depth > cfg.maxDepth || before.Marker? || after.Marker? || before == after
       || TypeOf(before) != TypeOf(after) {
      ShallowNoChanges(cfg, before, after, path, depth);
    } else {
      CollectionNoChanges(cfg, before, after, path, depth);
    }
  }

  /** The cases the comparison settles without descending. */
  lemma ShallowNoChanges(cfg: Config, before: Value, after: Value, path: string, depth: int)
    requires depth > cfg.maxDepth || before.Marker? || after.Marker? || before == after
             || TypeOf(before) != TypeOf(after)
    ensures CompareValues(cfg, before, after, path, depth) == [] <==>
            Visible(cfg, before, depth) == Visible(cfg, after, depth)
  {
  }

  /** Two different values of the same type, neither a marker. */
  lemma CollectionNoChanges(cfg: Config, before: Value, after: Value, path: string, depth: int)
    requires depth <= cfg.maxDepth && !before.Marker? && !after.Marker? && before != after
    requires TypeOf(before) == TypeOf(after)
    ensures CompareValues(cfg, before, after, path, depth) == [] <==>
            Visible(cfg, before, depth) == Visible(cfg, after, depth)
    decreases Budget(cfg, depth), 2, 2
  {
    var r := CompareValues(cfg, before, after, path, depth);
    if cfg.trackCollections && before.DictV? && after.DictV? {
      assert r == CompareDicts(cfg, before.entries, after.entries, path, depth);
      DictsNoChanges(cfg, before, after, path, depth);
    } else if cfg.trackCollections && (before.ListV? || before.TupleV?) && (after.ListV? || after.TupleV?) {
      assert r == CompareSequences(cfg, before.items, after.items, path, depth);
      SequencesNoChanges(cfg, before, after, path, depth);
    } else if cfg.trackCollections && before.SetV? && after.SetV? {
      assert r == CompareSets(before.elems, after.elems, path);
      SetNoChanges(before.elems, after.elems, path);
    } else if HasDict(before) && HasDict(after) {
      assert r == CompareAttrDicts(cfg, AllAttributes(cfg, before), AllAttributes(cfg, after), path, depth);
      ObjectsNoChanges(cfg, before, after, path, depth);
    } else {
      assert r == [Modification(before, after, path)];
    }
  }

  /** Every key of `keys` is in both maps, and the two values under it look
      the same one level down. */
  ghost predicate SameEntries<K>(cfg: Config, keys: seq<K>, b: map<K, Value>, a: map<K, Value>, depth: int) {
    forall k | k in keys :: k in b && k in a && Visible(cfg, b[k], depth + 1) == Visible(cfg, a[k], depth + 1)
  }

  /** The items from index `i` on of the common prefix look the same one
      level down. */
  ghost predicate SameItems(cfg: Config, b: seq<Value>, a: seq<Value>, depth: int, i: nat) {
    forall j | i <= j < Min(|b|, |a|) :: Visible(cfg, b[j], depth + 1) == Visible(cfg, a[j], depth + 1)
  }

  lemma SameEntriesCons<K>(cfg: Config, keys: seq<K>, b: map<K, Value>, a: map<K, Value>, depth: int)
    requires keys != []
    ensures SameEntries(cfg, keys, b, a, depth) <==>
      (keys[0] in b && keys[0] in a && Visible(cfg, b[keys[0]], depth + 1) == Visible(cfg, a[keys[0]], depth + 1))
      && SameEntries(cfg, keys[1..], b, a, depth)
  {
    assert forall x | x in keys :: x == keys[0] || x in keys[1..];
  }

  /** A walk that is one step followed by the rest reports nothing exactly
      when neither part does. */
  lemma ConsIff(whole: seq<AttributeChange>, head: seq<AttributeChange>, tail: seq<AttributeChange>,
                p: bool, q: bool, both: bool)
    requires whole == head + tail
    requires head == [] <==> p
    requires tail == [] <==> q
    requires both <==> p && q
    ensures whole == [] <==> both
  {
  }

  /** Two value maps, each seen one level down, are equal exactly when
      every key of either is in both and looks the same there. */
  lemma MapsAgree<K>(cfg: Config, keys: seq<K>, b: map<K, Value>, a: map<K, Value>, depth: int,
                     vb: map<K, Value>, va: map<K, Value>)
    requires forall k :: k in keys <==> k in b || k in a
    requires vb.Keys == b.Keys && va.Keys == a.Keys
    requires forall k | k in vb :: vb[k] == Visible(cfg, b[k], depth + 1)
    requires forall k | k in va :: va[k] == Visible(cfg, a[k], depth + 1)
    ensures vb == va <==> SameEntries(cfg, keys, b, a, depth)
  {
    if SameEntries(cfg, keys, b, a, depth) {
      assert vb.Keys == va.Keys;
    }
  }

  /** Two item sequences, each seen one level down, are equal exactly when
      they are as long and every item looks the same. */
  lemma ItemsAgree(cfg: Config, b: seq<Value>, a: seq<Value>, depth: int, vb: seq<Value>, va: seq<Value>)
    requires |vb| == |b| && |va| == |a|
    requires forall i | 0 <= i < |vb| :: vb[i] == Visible(cfg, b[i], depth + 1)
    requires forall i | 0 <= i < |va| :: va[i] == Visible(cfg, a[i], depth + 1)
    ensures vb == va <==> |b| == |a| && SameItems(cfg, b, a, depth, 0)
  {
    if vb == va {
      forall j | 0 <= j < Min(|b|, |a|) ensures Visible(cfg, b[j], depth + 1) == Visible(cfg, a[j], depth + 1) {
        assert vb[j] == va[j];
      }
    }
  }

  lemma SameDictIff(r: seq<AttributeChange>, same: bool, x: map<Atom, Value>, y: map<Atom, Value>, wb: Value, wa: Value)
    requires r == [] <==> same
    requires same <==> x == y
    requires wb == DictV(x) && wa == DictV(y)
    ensures r == [] <==> wb == wa
  {
  }

  lemma SameSequenceIff(r: seq<AttributeChange>, same: bool, list: bool, x: seq<Value>, y: seq<Value>, wb: Value, wa: Value)
    requires r == [] <==> same
    requires same <==> x == y
    requires wb == (if list then ListV(x) else TupleV(x)) && wa == (if list then ListV(y) else TupleV(y))
    ensures r == [] <==> wb == wa
  {
  }

  lemma SameObjectIff(r: seq<AttributeChange>, cls: string, x: map<string, Value>, y: map<string, Value>,
                      wb: Value, wa: Value)
    requires r == [] <==> x == y
    requires wb == ObjV(cls, map[], Some(x)) && wa == ObjV(cls, map[], Some(y))
    ensures r == [] <==> wb == wa
  {
  }

  lemma VisibleDict(cfg: Config, v: Value, depth: int)
    requires depth <= cfg.maxDepth && cfg.trackCollections && v.DictV?
    ensures Visible(cfg, v, depth) == DictV(VisibleEntries(cfg, v.entries, depth))
  {
  }

  lemma VisibleSequence(cfg: Config, v: Value, depth: int)
    requires depth <= cfg.maxDepth && cfg.trackCollections && (v.ListV? || v.TupleV?)
    ensures Visible(cfg, v, depth) ==
      if v.ListV? then ListV(VisibleItems(cfg, v.items, depth)) else TupleV(VisibleItems(cfg, v.items, depth))
  {
  }

  lemma DictsNoChanges(cfg: Config, before: Value, after: Value, path: string, depth: int)
    requires depth <= cfg.maxDepth && cfg.trackCollections && before.DictV? && after.DictV?
    ensures CompareDicts(cfg, before.entries, after.entries, path, depth) == [] <==>
            Visible(cfg, before, depth) == Visible(cfg, after, depth)
    decreases Budget(cfg, depth), 2, 0
  {
    var b, a := before.entries, after.entries;
    var keys := SortedAtoms(b.Keys + a.Keys);
    var vb, va := VisibleEntries(cfg, b, depth), VisibleEntries(cfg, a, depth);
    DictEntriesNoChanges(cfg, keys, b, a, path, depth);
    MapsAgree(cfg, keys, b, a, depth, vb, va);
    VisibleDict(cfg, before, depth);
    VisibleDict(cfg, after, depth);
    SameDictIff(CompareDicts(cfg, b, a, path, depth), SameEntries(cfg, keys, b, a, depth),
                vb, va, Visible(cfg, before, depth), Visible(cfg, after, depth));
  }

  lemma SequencesNoChanges(cfg: Config, before: Value, after: Value, path: string, depth: int)
    requires depth <= cfg.maxDepth && cfg.trackCollections
    requires (before.ListV? && after.ListV?) || (before.TupleV? && after.TupleV?)
    ensures CompareSequences(cfg, before.items, after.items, path, depth) == [] <==>
            Visible(cfg, before, depth) == Visible(cfg, after, depth)
    decreases Budget(cfg, depth), 2, 0
  {
    var b, a := before.items, after.items;
    var vb, va := VisibleItems(cfg, b, depth), VisibleItems(cfg, a, depth);
    ElementwiseNoChanges(cfg, b, a, path, depth, 0);
    ItemsAgree(cfg, b, a, depth, vb, va);
    SequenceEmptyIff(cfg, b, a, path, depth);
    VisibleSequence(cfg, before, depth);
    VisibleSequence(cfg, after, depth);
    SameSequenceIff(CompareSequences(cfg, b, a, path, depth), |b| == |a| && SameItems(cfg, b, a, depth, 0),
                    before.ListV?, vb, va, Visible(cfg, before, depth), Visible(cfg, after, depth));
  }

  /** A sequence comparison is empty exactly when the lengths agree and the
      element-by-element walk is empty. */
  lemma SequenceEmptyIff(cfg: Config, b: seq<Value>, a: seq<Value>, path: string, depth: int)
    ensures CompareSequences(cfg, b, a, path, depth) == [] <==>
            |b| == |a| && Elementwise(cfg, b, a, path, depth, 0) == []
  {
    if |b| != |a| {
      assert |LengthChanges(b, a, path)| == 1;
    } else {
      assert LengthChanges(b, a, path) == [] && TailChanges(b, a, path) == [];
    }
  }

  lemma ObjectsNoChanges(cfg: Config, before: Value, after: Value, path: string, depth: int)
    requires depth <= cfg.maxDepth && before.ObjV? && after.ObjV? && before.cls == after.cls
    requires before.dict.Some? && after.dict.Some?
    ensures CompareAttrDicts(cfg, AllAttributes(cfg, before), AllAttributes(cfg, after), path, depth) == [] <==>
            Visible(cfg, before, depth) == Visible(cfg, after, depth)
    decreases Budget(cfg, depth), 2, 1
  {
    var b, a := AllAttributes(cfg, before), AllAttributes(cfg, after);
    var vb, va := VisibleAttrs(cfg, b, depth), VisibleAttrs(cfg, a, depth);
    AttrDictsNoChanges(cfg, b, a, path, depth);
    VisibleObject(cfg, before, depth);
    VisibleObject(cfg, after, depth);
    SameObjectIff(CompareAttrDicts(cfg, b, a, path, depth), before.cls, vb, va,
                  Visible(cfg, before, depth), Visible(cfg, after, depth));
  }

  /** An object with a `__dict__` is seen as its class and its kept attributes. */
  lemma VisibleObject(cfg: Config, v: Value, depth: int)
    requires depth <= cfg.maxDepth && v.ObjV? && v.dict.Some?
    ensures Visible(cfg, v, depth) == ObjV(v.cls, map[], Some(VisibleAttrs(cfg, AllAttributes(cfg, v), depth)))
  {
  }

  lemma AttrDictsNoChanges(cfg: Config, b: map<string, Value>, a: map<string, Value>, path: string, depth: int)
    ensures CompareAttrDicts(cfg, b, a, path, depth) == [] <==> VisibleAttrs(cfg, b, depth) == VisibleAttrs(cfg, a, depth)
    decreases Budget(cfg, depth), 2, 0
  {
    var names := Ordering.SortedStrings(b.Keys + a.Keys);
    var vb, va := VisibleAttrs(cfg, b, depth), VisibleAttrs(cfg, a, depth);
    AttrEntriesNoChanges(cfg, names, b, a, path, depth);
    MapsAgree(cfg, names, b, a, depth, vb, va);
  }

  lemma {:induction false} DictEntriesNoChanges(cfg: Config, keys: seq<Atom>, before: map<Atom, Value>,
                                                after: map<Atom, Value>, path: string, depth: int)
    requires forall k | k in keys :: k in before || k in after
    ensures DictEntries(cfg, keys, before, after, path, depth) == [] <==> SameEntries(cfg, keys, before, after, depth)
    decreases Budget(cfg, depth), 1, |keys|
  {
    if keys != [] {
      var k := keys[0];
      DictEntryNoChanges(cfg, k, before, after, path, depth);
      DictEntriesNoChanges(cfg, keys[1..], before, after, path, depth);
      SameEntriesCons(cfg, keys, before, after, depth);
      ConsIff(DictEntries(cfg, keys, before, after, path, depth), DictEntry(cfg, k, before, after, path, depth),
              DictEntries(cfg, keys[1..], before, after, path, depth),
              k in before && k in after && Visible(cfg, before[k], depth + 1) == Visible(cfg, after[k], depth + 1),
              SameEntries(cfg, keys[1..], before, after, depth), SameEntries(cfg, keys, before, after, depth));
    }
  }

  lemma DictEntryNoChanges(cfg: Config, k: Atom, before: map<Atom, Value>, after: map<Atom, Value>,
                           path: string, depth: int)
    requires k in before || k in after
    ensures DictEntry(cfg, k, before, after, path, depth) == [] <==>
      k in before && k in after && Visible(cfg, before[k], depth + 1) == Visible(cfg, after[k], depth + 1)
    decreases Budget(cfg, depth), 1, 0
  {
    if k in before && k in after {
      NoChangesIffSameVisible(cfg, before[k], after[k], KeyPath(path, k), depth + 1);
    }
  }

  lemma {:induction false} ElementwiseNoChanges(cfg: Config, before: seq<Value>, after: seq<Value>,
                                                path: string, depth: int, i: nat)
    requires i <= Min(|before|, |after|)
    ensures Elementwise(cfg, before, after, path, depth, i) == [] <==> SameItems(cfg, before, after, depth, i)
    decreases Budget(cfg, depth), 1, Min(|before|, |after|) - i
  {
    if i < Min(|before|, |after|) {
      var head := CompareValues(cfg, before[i], after[i], IndexPath(path, i), depth + 1);
      NoChangesIffSameVisible(cfg, before[i], after[i], IndexPath(path, i), depth + 1);
      ElementwiseNoChanges(cfg, before, after, path, depth, i + 1);
      ConsIff(Elementwise(cfg, before, after, path, depth, i), head, Elementwise(cfg, before, after, path, depth, i + 1),
              Visible(cfg, before[i], depth + 1) == Visible(cfg, after[i], depth + 1),
              SameItems(cfg, before, after, depth, i + 1), SameItems(cfg, before, after, depth, i));
    }
  }

  lemma SetNoChanges(before: set<Atom>, after: set<Atom>, path: string)
    ensures CompareSets(before, after, path) == [] <==> before == after
  {
    var r := CompareSets(before, after, path);
    assert |r| == |after - before| + |before - after|;
    if r == [] {
      assert after - before == {} && before - after == {};
      assert before == after;
    }
  }

  lemma {:induction false} AttrEntriesNoChanges(cfg: Config, names: seq<string>, before: map<string, Value>,
                                                after: map<string, Value>, basePath: string, depth: int)
    requires forall n | n in names :: n in before || n in after
    ensures AttrEntries(cfg, names, before, after, basePath, depth) == [] <==> SameEntries(cfg, names, before, after, depth)
    decreases Budget(cfg, depth), 1, |names|
  {
    if names != [] {
      var n := names[0];
      AttrEntryNoChanges(cfg, n, before, after, basePath, depth);
      AttrEntriesNoChanges(cfg, names[1..], before, after, basePath, depth);
      SameEntriesCons(cfg, names, before, after, depth);
      ConsIff(AttrEntries(cfg, names, before, after, basePath, depth), AttrEntry(cfg, n, before, after, basePath, depth),
              AttrEntries(cfg, names[1..], before, after, basePath, depth),
              n in before && n in after && Visible(cfg, before[n], depth + 1) == Visible(cfg, after[n], depth + 1),
              SameEntries(cfg, names[1..], before, after, depth), SameEntries(cfg, names, before, after, depth));
    }
  }

  lemma AttrEntryNoChanges(cfg: Config, n: string, before: map<string, Value>, after: map<string, Value>,
                           basePath: string, depth: int)
    requires n in before || n in after
    ensures AttrEntry(cfg, n, before, after, basePath, depth) == [] <==>
      n in before && n in after && Visible(cfg, before[n], depth + 1) == Visible(cfg, after[n], depth + 1)
    decreases Budget(cfg, depth), 1, 0
  {
    if n in before && n in after {
      NoChangesIffSameVisible(cfg, before[n], after[n], AttrPath(basePath, n), depth + 1);
    }
  }

  /** `_detect_changes` reports nothing exactly when both snapshots have the
      same attribute names and every attribute looks the same one level down. */
  lemma DetectNoChangesIffSameVisible(cfg: Config, before: map<string, Value>, after: map<string, Value>)
    ensures DetectChanges(cfg, before, after) == [] <==> VisibleAttrs(cfg, before, 0) == VisibleAttrs(cfg, after, 0)
  {
    AttrDictsNoChanges(cfg, before, after, "", 0);
  }

  /** So the result `call` records has changes exactly when some attribute
      of the object appeared, disappeared or changed visibly. */
  lemma CallHasChangesIff(cfg: Config, methodName: string, before: Value, inv: Invocation)
    ensures var b, a := Snapshot(cfg, before), Snapshot(cfg, inv.after);
      var r := StateChangeResult(methodName, DetectChanges(cfg, b, a), None, NoneValue);
      r.HasChanges() <==> VisibleAttrs(cfg, b, 0) != VisibleAttrs(cfg, a, 0)
  {
    DetectNoChangesIffSameVisible(cfg, Snapshot(cfg, before), Snapshot(cfg, inv.after));
  }

  // ---------------------------------------------------------------------
  // Shapes of the collection comparisons
  // ---------------------------------------------------------------------

  /** Every change an entry produces is among the changes of the whole walk. */
  lemma {:induction false} AttrEntriesInclude(cfg: Config, names: seq<string>, before: map<string, Value>,
                                              after: map<string, Value>, basePath: string, depth: int)
    requires forall n | n in names :: n in before || n in after
    ensures forall n, c | n in names && c in AttrEntry(cfg, n, before, after, basePath, depth) ::
              c in AttrEntries(cfg, names, before, after, basePath, depth)
    decreases |names|
  {
    if names != [] {
      AttrEntriesInclude(cfg, names[1..], before, after, basePath, depth);
      assert forall x | x in names :: x == names[0] || x in names[1..];
    }
  }

  /** The change lists of `parts`, one after the other. */
  function Concat(parts: seq<seq<AttributeChange>>): seq<AttributeChange> {
    if parts == [] then [] else parts[0] + Concat(parts[1..])
  }

  /** The attribute walk is the concatenation of what each name contributes,
      in the order the names are visited. */
  lemma {:induction false} AttrEntriesConcat(cfg: Config, names: seq<string>, before: map<string, Value>,
                                             after: map<string, Value>, basePath: string, depth: int)
    requires forall n | n in names :: n in before || n in after
    ensures AttrEntries(cfg, names, before, after, basePath, depth)
         == Concat(seq(|names|, j requires 0 <= j < |names| => AttrEntry(cfg, names[j], before, after, basePath, depth)))
    decreases |names|
  {
    if names != [] {
      AttrEntriesConcat(cfg, names[1..], before, after, basePath, depth);
      var parts := seq(|names|, j requires 0 <= j < |names| => AttrEntry(cfg, names[j], before, after, basePath, depth));
      assert parts[1..] == seq(|names[1..]|, j requires 0 <= j < |names[1..]| =>
                                 AttrEntry(cfg, names[1..][j], before, after, basePath, depth));
    }
  }

  /** What one name contributes to `_compare_attr_dicts`. */
  lemma AttrEntryCases(cfg: Config, n: string, before: map<string, Value>, after: map<string, Value>,
                       basePath: string, depth: int)
    requires n in before || n in after
    ensures n !in before ==>
      AttrEntry(cfg, n, before, after, basePath, depth)
      == [AttributeChange(n, Added, NoneValue, after[n], AttrPath(basePath, n))]
    ensures n in before && n !in after ==>
      AttrEntry(cfg, n, before, after, basePath, depth)
      == [AttributeChange(n, Removed, before[n], NoneValue, AttrPath(basePath, n))]
    ensures n in before && n in after ==>
      AttrEntry(cfg, n, before, after, basePath, depth)
      == CompareValues(cfg, before[n], after[n], AttrPath(basePath, n), depth + 1)
  {
  }

  /** `_compare_attr_dicts` reports each name that appeared as added and
      each that disappeared as removed, at `base_path.name`. */
  lemma AttrReportsOneSided(cfg: Config, before: map<string, Value>, after: map<string, Value>,
                            basePath: string, depth: int)
    ensures forall n | n in after && n !in before ::
              AttributeChange(n, Added, NoneValue, after[n], AttrPath(basePath, n))
              in CompareAttrDicts(cfg, before, after, basePath, depth)
    ensures forall n | n in before && n !in after ::
              AttributeChange(n, Removed, before[n], NoneValue, AttrPath(basePath, n))
              in CompareAttrDicts(cfg, before, after, basePath, depth)
  {
    var names := Ordering.SortedStrings(before.Keys + after.Keys);
    AttrEntriesInclude(cfg, names, before, after, basePath, depth);
    forall n | n in after && n !in before
      ensures AttributeChange(n, Added, NoneValue, after[n], AttrPath(basePath, n))
              in CompareAttrDicts(cfg, before, after, basePath, depth)
    {
      assert n in names;
      AttrEntryCases(cfg, n, before, after, basePath, depth);
    }
    forall n | n in before && n !in after
      ensures AttributeChange(n, Removed, before[n], NoneValue, AttrPath(basePath, n))
              in CompareAttrDicts(cfg, before, after, basePath, depth)
    {
      assert n in names;
      AttrEntryCases(cfg, n, before, after, basePath, depth);
    }
  }

  /** `_compare_attr_dicts` visits every name of either side exactly once,
      and the changes of each name stand together in the result. A name
      only in `after` contributes exactly one ADDED change with its new
      value, a name only in `before` exactly one REMOVED change with its
      old value, both at `base_path.name`; a name on both sides contributes
      the comparison of its two values one level deeper. */
  lemma AttrReportsAddedAndRemoved(cfg: Config, before: map<string, Value>, after: map<string, Value>,
                                   basePath: string, depth: int)
    ensures var names := Ordering.SortedStrings(before.Keys + after.Keys);
      && Ordering.Distinct(names)
      && (forall n :: n in names <==> n in before || n in after)
      && CompareAttrDicts(cfg, before, after, basePath, depth)
         == Concat(seq(|names|, j requires 0 <= j < |names| => AttrEntry(cfg, names[j], before, after, basePath, depth)))
    ensures forall n | n in after && n !in before ::
              AttrEntry(cfg, n, before, after, basePath, depth)
              == [AttributeChange(n, Added, NoneValue, after[n], AttrPath(basePath, n))]
    ensures forall n | n in before && n !in after ::
              AttrEntry(cfg, n, before, after, basePath, depth)
              == [AttributeChange(n, Removed, before[n], NoneValue, AttrPath(basePath, n))]
    ensures forall n | n in before && n in after ::
              AttrEntry(cfg, n, before, after, basePath, depth)
              == CompareValues(cfg, before[n], after[n], AttrPath(basePath, n), depth + 1)
    ensures forall n | n in after && n !in before ::
              AttributeChange(n, Added, NoneValue, after[n], AttrPath(basePath, n))
              in CompareAttrDicts(cfg, before, after, basePath, depth)
    ensures forall n | n in before && n !in after ::
              AttributeChange(n, Removed, before[n], NoneValue, AttrPath(basePath, n))
              in CompareAttrDicts(cfg, before, after, basePath, depth)
  {
    AttrEntriesConcat(cfg, Ordering.SortedStrings(before.Keys + after.Keys), before, after, basePath, depth);
    forall n | n in before || n in after {
      AttrEntryCases(cfg, n, before, after, basePath, depth);
    }
    AttrReportsOneSided(cfg, before, after, basePath, depth);
  }

  /** At the top, `_detect_changes` reports an attribute that appeared
      exactly once as added, with its new value, and one that disappeared
      exactly once as removed, with its old value, both at the attribute's
      own name; an attribute on both sides is compared at depth 1. */
  lemma DetectReportsAddedAndRemoved(cfg: Config, before: map<string, Value>, after: map<string, Value>)
    ensures var names := Ordering.SortedStrings(before.Keys + after.Keys);
      && Ordering.Distinct(names)
      && (forall n :: n in names <==> n in before || n in after)
      && DetectChanges(cfg, before, after)
      == Concat(seq(|names|, j requires 0 <= j < |names| => AttrEntry(cfg, names[j], before, after, "", 0)))
    ensures forall n | n in after && n !in before ::
              AttrEntry(cfg, n, before, after, "", 0) == [AttributeChange(n, Added, NoneValue, after[n], n)]
    ensures forall n | n in before && n !in after ::
              AttrEntry(cfg, n, before, after, "", 0) == [AttributeChange(n, Removed, before[n], NoneValue, n)]
    ensures forall n | n in before && n in after ::
              AttrEntry(cfg, n, before, after, "", 0) == CompareValues(cfg, before[n], after[n], n, 1)
    ensures forall n | n in after && n !in before ::
              AttributeChange(n, Added, NoneValue, after[n], n) in DetectChanges(cfg, before, after)
    ensures forall n | n in before && n !in after ::
              AttributeChange(n, Removed, before[n], NoneValue, n) in DetectChanges(cfg, before, after)
  {
    AttrReportsAddedAndRemoved(cfg, before, after, "", 0);
    assert forall n :: AttrPath("", n) == n;
  }

  lemma {:induction false} DictEntriesInclude(cfg: Config, keys: seq<Atom>, before: map<Atom, Value>,
                                              after: map<Atom, Value>, path: string, depth: int)
    requires forall k | k in keys :: k in before || k in after
    ensures forall k, c | k in keys && c in DictEntry(cfg, k, before, after, path, depth) ::
              c in DictEntries(cfg, keys, before, after, path, depth)
    decreases |keys|
  {
    if keys != [] {
      DictEntriesInclude(cfg, keys[1..], before, after, path, depth);
      assert forall x | x in keys :: x == keys[0] || x in keys[1..];
    }
  }

  /** The key walk is the concatenation of what each key contributes, in
      the order the keys are visited. */
  lemma {:induction false} DictEntriesConcat(cfg: Config, keys: seq<Atom>, before: map<Atom, Value>,
                                             after: map<Atom, Value>, path: string, depth: int)
    requires forall k | k in keys :: k in before || k in after
    ensures DictEntries(cfg, keys, before, after, path, depth)
         == Concat(seq(|keys|, j requires 0 <= j < |keys| => DictEntry(cfg, keys[j], before, after, path, depth)))
    decreases |keys|
  {
    if keys != [] {
      DictEntriesConcat(cfg, keys[1..], before, after, path, depth);
      var parts := seq(|keys|, j requires 0 <= j < |keys| => DictEntry(cfg, keys[j], before, after, path, depth));
      assert parts[1..] == seq(|keys[1..]|, j requires 0 <= j < |keys[1..]| =>
                                 DictEntry(cfg, keys[1..][j], before, after, path, depth));
    }
  }

  /** What one key contributes to `_compare_dicts`. */
  lemma DictEntryCases(cfg: Config, k: Atom, before: map<Atom, Value>, after: map<Atom, Value>,
                       path: string, depth: int)
    requires k in before || k in after
    ensures k !in before ==>
      DictEntry(cfg, k, before, after, path, depth)
      == [AttributeChange(AtomStr(k), Added, NoneValue, after[k], KeyPath(path, k))]
    ensures k in before && k !in after ==>
      DictEntry(cfg, k, before, after, path, depth)
      == [AttributeChange(AtomStr(k), Removed, before[k], NoneValue, KeyPath(path, k))]
    ensures k in before && k in after ==>
      DictEntry(cfg, k, before, after, path, depth)
      == CompareValues(cfg, before[k], after[k], KeyPath(path, k), depth + 1)
  {
  }

  /** `_compare_dicts` reports each new key as added and each vanished key
      as removed, at `path[key]`. */
  lemma DictReportsOneSided(cfg: Config, before: map<Atom, Value>, after: map<Atom, Value>,
                            path: string, depth: int)
    ensures forall k | k in after && k !in before ::
              AttributeChange(AtomStr(k), Added, NoneValue, after[k], KeyPath(path, k))
              in CompareDicts(cfg, before, after, path, depth)
    ensures forall k | k in before && k !in after ::
              AttributeChange(AtomStr(k), Removed, before[k], NoneValue, KeyPath(path, k))
              in CompareDicts(cfg, before, after, path, depth)
  {
    var keys := SortedAtoms(before.Keys + after.Keys);
    DictEntriesInclude(cfg, keys, before, after, path, depth);
    forall k | k in after && k !in before
      ensures AttributeChange(AtomStr(k), Added, NoneValue, after[k], KeyPath(path, k))
              in CompareDicts(cfg, before, after, path, depth)
    {
      DictEntryCases(cfg, k, before, after, path, depth);
    }
    forall k | k in before && k !in after
      ensures AttributeChange(AtomStr(k), Removed, before[k], NoneValue, KeyPath(path, k))
              in CompareDicts(cfg, before, after, path, depth)
    {
      DictEntryCases(cfg, k, before, after, path, depth);
    }
  }

  /** `_compare_dicts` visits every key of either dict exactly once, and
      the changes of each key stand together in the result. A key only in
      `after` contributes exactly one ADDED change with its new value, a key
      only in `before` exactly one REMOVED change with its old value, both
      at `path[key]`; a key in both contributes the comparison of its two
      values one level deeper. */
  lemma DictReportsAddedAndRemoved(cfg: Config, before: map<Atom, Value>, after: map<Atom, Value>,
                                   path: string, depth: int)
    ensures var keys := SortedAtoms(before.Keys + after.Keys);
      && Ordering.Distinct(keys)
      && (forall k :: k in keys <==> k in before || k in after)
      && CompareDicts(cfg, before, after, path, depth)
         == Concat(seq(|keys|, j requires 0 <= j < |keys| => DictEntry(cfg, keys[j], before, after, path, depth)))
    ensures forall k | k in after && k !in before ::
              DictEntry(cfg, k, before, after, path, depth)
              == [AttributeChange(AtomStr(k), Added, NoneValue, after[k], KeyPath(path, k))]
    ensures forall k | k in before && k !in after ::
              DictEntry(cfg, k, before, after, path, depth)
              == [AttributeChange(AtomStr(k), Removed, before[k], NoneValue, KeyPath(path, k))]
    ensures forall k | k in before && k in after ::
              DictEntry(cfg, k, before, after, path, depth)
              == CompareValues(cfg, before[k], after[k], KeyPath(path, k), depth + 1)
    ensures forall k | k in after && k !in before ::
              AttributeChange(AtomStr(k), Added, NoneValue, after[k], KeyPath(path, k))
              in CompareDicts(cfg, before, after, path, depth)
    ensures forall k | k in before && k !in after ::
              AttributeChange(AtomStr(k), Removed, before[k], NoneValue, KeyPath(path, k))
              in CompareDicts(cfg, before, after, path, depth)
  {
    DictEntriesConcat(cfg, SortedAtoms(before.Keys + after.Keys), before, after, path, depth);
    forall k | k in before || k in after {
      DictEntryCases(cfg, k, before, after, path, depth);
    }
    DictReportsOneSided(cfg, before, after, path, depth);
  }

  /** A sequence comparison reports a change at `path.length` exactly when
      the lengths differ. */
  lemma LengthChangeIffLengthsDiffer(cfg: Config, before: seq<Value>, after: seq<Value>, path: string, depth: int)
    ensures (exists c | c in CompareSequences(cfg, before, after, path, depth) :: c.path == path + ".length")
            <==> |before| != |after|
  {
    var r := CompareSequences(cfg, before, after, path, depth);
    var rest := Elementwise(cfg, before, after, path, depth, 0) + TailChanges(before, after, path);
    SequenceChangesUnderPath(cfg, before, after, path, depth);
    assert r == LengthChanges(before, after, path) + rest;
    forall c | c in rest ensures c.path != path + ".length" {
      assert StartsWith(c.path, path + "[");
      assert c.path[|path|] == (path + "[")[|path|] == '[';
      assert (path + ".length")[|path|] == '.';
    }
    if |before| != |after| {
      assert LengthChanges(before, after, path)[0] in r;
    }
  }

  /** The tail of a longer `after` is reported item by item as added, with
      the new item and its index; the tail of a longer `before` as removed. */
  lemma TailReportsExtraItems(before: seq<Value>, after: seq<Value>, path: string)
    ensures var t := TailChanges(before, after, path);
      && |t| == (if |after| > |before| then |after| - |before| else |before| - |after|)
      && (|after| > |before| ==> forall j | 0 <= j < |t| ::
            t[j] == AttributeChange(NatToDecimal(|before| + j), Added, NoneValue, after[|before| + j],
                                    IndexPath(path, |before| + j)))
      && (|after| <= |before| ==> forall j | 0 <= j < |t| ::
            t[j] == AttributeChange(NatToDecimal(|after| + j), Removed, before[|after| + j], NoneValue,
                                    IndexPath(path, |after| + j)))
  {
  }

  lemma SetAdditionsHold(xs: seq<Atom>, path: string)
    ensures forall c | c in SetAdditions(xs, path) :: c.changeType == Added
    ensures forall x :: SetAddition(x, path) in SetAdditions(xs, path) <==> x in xs
  {
    var r := SetAdditions(xs, path);
    forall x ensures SetAddition(x, path) in r <==> x in xs {
      if x in xs {
        var i :| 0 <= i < |xs| && xs[i] == x;
        assert r[i] == SetAddition(x, path);
      }
    }
  }

  lemma SetRemovalsHold(xs: seq<Atom>, path: string)
    ensures forall c | c in SetRemovals(xs, path) :: c.changeType == Removed
    ensures forall x :: SetRemoval(x, path) in SetRemovals(xs, path) <==> x in xs
  {
    var r := SetRemovals(xs, path);
    forall x ensures SetRemoval(x, path) in r <==> x in xs {
      if x in xs {
        var i :| 0 <= i < |xs| && xs[i] == x;
        assert r[i] == SetRemoval(x, path);
      }
    }
  }

  /** Filtering additions followed by removals by kind gives back each part. */
  lemma KindsOfAddedThenRemoved(p: seq<AttributeChange>, q: seq<AttributeChange>)
    requires forall c | c in p :: c.changeType == Added
    requires forall c | c in q :: c.changeType == Removed
    ensures OfType(p + q, Added) == p
    ensures OfType(p + q, Removed) == q
    ensures OfType(p + q, Modified) == []
  {
    OfTypeDistributes(p, q, Added);
    OfTypeAll(p, Added);
    OfTypeNone(q, Added);
    OfTypeDistributes(p, q, Removed);
    OfTypeNone(p, Removed);
    OfTypeAll(q, Removed);
    OfTypeDistributes(p, q, Modified);
    OfTypeNone(p, Modified);
    OfTypeNone(q, Modified);
  }

  /** The set comparison reports each element of `after - before` once as
      added and each element of `before - after` once as removed, and
      nothing else. */
  lemma SetReportsDifferences(before: set<Atom>, after: set<Atom>, path: string)
    ensures var r := CompareSets(before, after, path);
      && |OfType(r, Added)| == |after - before|
      && |OfType(r, Removed)| == |before - after|
      && OfType(r, Modified) == []
      && (forall x :: SetAddition(x, path) in r <==> x in after - before)
      && (forall x :: SetRemoval(x, path) in r <==> x in before - after)
  {
    var added, removed := SortedAtoms(after - before), SortedAtoms(before - after);
    var addPart, removePart := SetAdditions(added, path), SetRemovals(removed, path);
    SetAdditionsHold(added, path);
    SetRemovalsHold(removed, path);
    KindsOfAddedThenRemoved(addPart, removePart);
    SetMembership(before, after, path, addPart, removePart);
  }

  lemma SetMembership(before: set<Atom>, after: set<Atom>, path: string,
                      addPart: seq<AttributeChange>, removePart: seq<AttributeChange>)
    requires forall c | c in addPart :: c.changeType == Added
    requires forall c | c in removePart :: c.changeType == Removed
    requires forall x :: SetAddition(x, path) in addPart <==> x in after - before
    requires forall x :: SetRemoval(x, path) in removePart <==> x in before - after
    ensures forall x :: SetAddition(x, path) in addPart + removePart <==> x in after - before
    ensures forall x :: SetRemoval(x, path) in addPart + removePart <==> x in before - after
  {
    forall x ensures SetAddition(x, path) in addPart + removePart <==> x in after - before {
      assert SetAddition(x, path).changeType == Added;
    }
    forall x ensures SetRemoval(x, path) in addPart + removePart <==> x in before - after {
      assert SetRemoval(x, path).changeType == Removed;
    }
  }
}
