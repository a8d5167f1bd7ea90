/** The fingerprints of `src/maurice/hashing.py`. The digest algorithm, the
    generic serializer and pandas' per-row hashing stay abstract: they are
    fields of `HashEnv`. What is modelled is the dispatch and the
    canonicalisation of a data frame's column and row order before its row
    hashes are digested. */
module Hashing {
  import opened Wrappers
  import opened Values
  import Ordering

  /** `_DFLT_HASH` */
  const DefaultHashName: string := "md5"

  newtype Byte = x: int | 0 <= x < 256
  newtype U64 = x: int | 0 <= x < 0x1_0000_0000_0000_0000

  // ---------------------------------------------------------------------
  // Objects that can be fingerprinted
  // ---------------------------------------------------------------------

  /** One row of a data frame: its index label and its cell under each
      column label. A cell the row lacks reads as `None`. */
  datatype Row = Row(indexLabel: Atom, cells: map<string, Atom>)

  /** A `pandas.DataFrame`: column labels in their current order, and rows. */
  datatype Frame = Frame(columns: seq<string>, rows: seq<Row>)

  /** The objects `hash_anything` tells apart. A `pandas.Series` is a
      sequence of (index label, value) pairs; a `pandas.Index` is its values. */
  datatype PyObject =
    | DataFrameObj(frame: Frame)
    | SeriesObj(items: seq<(Atom, Atom)>)
    | IndexObj(values: seq<Atom>)
    | NdArrayObj(elements: seq<Atom>)
    | Plain(value: Value)
      /** An object `dill.dumps` cannot serialize (a lock, a generator, an
          open file), by its type name. */
    | Unserializable(typeName: string)

  /** `isinstance(obj, (pd.DataFrame, pd.Series, pd.Index))` */
  predicate IsPandas(obj: PyObject) {
    obj.DataFrameObj? || obj.SeriesObj? || obj.IndexObj?
  }

  /** What the fingerprints rely on and the model leaves abstract:
      whether pandas and numpy are importable, `hashlib.new(name, data).hexdigest()`,
      `dill.dumps`, the 64-bit hash pandas gives one row (its index label,
      when it has one, and its cells in column order), and the combined
      item hashes `hash_numpy_ndarray` digests. */
  datatype HashEnv = HashEnv(
    pandasAvailable: bool,
    numpyAvailable: bool,
    hexdigest: (string, seq<Byte>) -> string,
    dumps: PyObject -> seq<Byte>,
    rowHash: (Option<Atom>, seq<Atom>) -> U64,
    arrayHashes: seq<Atom> -> seq<U64>)

  // ---------------------------------------------------------------------
  // The raw buffer of a uint64 array
  // ---------------------------------------------------------------------

  /** The `n` little-endian bytes of `x`. */
  function LittleEndian(x: nat, n: nat): (bs: seq<Byte>)
    ensures |bs| == n
  {
    if n == 0 then [] else [(x % 256) as Byte] + LittleEndian(x / 256, n - 1)
  }

  function FromLittleEndian(bs: seq<Byte>): nat {
    if bs == [] then 0 else bs[0] as nat + 256 * FromLittleEndian(bs[1..])
  }

  function Pow256(n: nat): nat {
    if n == 0 then 1 else 256 * Pow256(n - 1)
  }

  lemma {:induction false} LittleEndianRoundTrip(x: nat, n: nat)
    requires x < Pow256(n)
    ensures FromLittleEndian(LittleEndian(x, n)) == x
  {
    if n > 0 {
      LittleEndianRoundTrip(x / 256, n - 1);
      var bs := LittleEndian(x, n);
      assert bs[1..] == LittleEndian(x / 256, n - 1);
    }
  }

  /** The bytes `hashlib` reads from a uint64 array: eight per item, in order. */
  function Buffer(xs: seq<U64>): (bs: seq<Byte>)
    ensures |bs| == 8 * |xs|
  {
    if xs == [] then [] else LittleEndian(xs[0] as nat, 8) + Buffer(xs[1..])
  }

  lemma {:induction false} FromLittleEndianBound(bs: seq<Byte>)
    ensures FromLittleEndian(bs) < Pow256(|bs|)
  {
    if bs != [] {
      FromLittleEndianBound(bs[1..]);
    }
  }

  lemma Pow256Eight()
    ensures Pow256(8) == 0x1_0000_0000_0000_0000
  {
    assert Pow256(2) == 0x1_0000;
    assert Pow256(4) == 0x1_0000_0000 by { assert Pow256(4) == 256 * (256 * Pow256(2)); }
    assert Pow256(6) == 0x1_0000_0000_0000 by { assert Pow256(6) == 256 * (256 * Pow256(4)); }
    assert Pow256(8) == 256 * (256 * Pow256(6));
  }

  /** Reading the items back from a buffer, eight bytes each. */
  function Unbuffer(bs: seq<Byte>): seq<U64>
    decreases |bs|
  {
    if |bs| < 8 then []
    else
      FromLittleEndianBound(bs[..8]);
      Pow256Eight();
      [FromLittleEndian(bs[..8]) as U64] + Unbuffer(bs[8..])
  }

  /** The buffer keeps every item: reading it back gives the array. */
  lemma {:induction false} UnbufferBuffer(xs: seq<U64>)
    ensures Unbuffer(Buffer(xs)) == xs
  {
    if xs != [] {
      var bs := Buffer(xs);
      var head := LittleEndian(xs[0] as nat, 8);
      assert bs[..8] == head && bs[8..] == Buffer(xs[1..]);
      Pow256Eight();
      LittleEndianRoundTrip(xs[0] as nat, 8);
      UnbufferBuffer(xs[1..]);
    }
  }

  /** So two arrays with the same buffer are the same array. */
  lemma BufferInjective(xs: seq<U64>, ys: seq<U64>)
    requires Buffer(xs) == Buffer(ys)
    ensures xs == ys
  {
    UnbufferBuffer(xs);
    UnbufferBuffer(ys);
  }

  // ---------------------------------------------------------------------
  // Row hashes and their canonical order
  // ---------------------------------------------------------------------

  /** `[g(x) for x in xs]` */
  function MapSeq<A, B>(g: A -> B, xs: seq<A>): (ys: seq<B>)
    ensures |ys| == |xs|
    ensures forall i | 0 <= i < |xs| :: ys[i] == g(xs[i])
  {
    seq(|xs|, i requires 0 <= i < |xs| => g(xs[i]))
  }

  lemma MapSeqAppend<A, B>(g: A -> B, xs: seq<A>, ys: seq<A>)
    ensures MapSeq(g, xs + ys) == MapSeq(g, xs) + MapSeq(g, ys)
  {
  }

  /** Mapping two arrangements of the same elements gives two arrangements
      of the same images. */
  lemma {:induction false} MapSeqKeepsPermutation<A, B>(g: A -> B, xs: seq<A>, ys: seq<A>)
    requires multiset(xs) == multiset(ys)
    ensures multiset(MapSeq(g, xs)) == multiset(MapSeq(g, ys))
    decreases |xs|
  {
    if xs != [] {
      var x := xs[0];
      assert x in multiset(ys);
      var k :| 0 <= k < |ys| && ys[k] == x;
      var pre, post := ys[..k], ys[k + 1..];
      assert ys == pre + ([x] + post);
      assert xs == [x] + xs[1..];
      assert multiset(xs[1..]) == multiset(xs) - multiset{x};
      assert multiset(pre + post) == multiset(ys) - multiset{x};
      MapSeqKeepsPermutation(g, xs[1..], pre + post);
      MapSeqAppend(g, [x], xs[1..]);
      MapSeqAppend(g, pre, [x] + post);
      MapSeqAppend(g, [x], post);
      MapSeqAppend(g, pre, post);
    }
  }

  /** The cells of a row in the order of `columns`. */
  function RowCells(columns: seq<string>, r: Row): (cells: seq<Atom>)
    ensures |cells| == |columns|
  {
    MapSeq((c: string) => if c in r.cells then r.cells[c] else NoneA, columns)
  }

  /** `pd.util.hash_pandas_object(obj).to_numpy()`: one hash per row, in row
      order. A data frame's row hashes its index label and its cells, a
      series' row its label and value, an index's row its value. */
  function RowHashes(env: HashEnv, obj: PyObject): (hs: seq<U64>)
    requires IsPandas(obj)
  {
    match obj
    case DataFrameObj(f) =>
      MapSeq((r: Row) => env.rowHash(Some(r.indexLabel), RowCells(f.columns, r)), f.rows)
    case SeriesObj(items) =>
      MapSeq((item: (Atom, Atom)) => env.rowHash(Some(item.0), [item.1]), items)
    case IndexObj(values) =>
      MapSeq((v: Atom) => env.rowHash(None, [v]), values)
  }

  /** Rearranging the rows rearranges the row hashes and changes none. */
  lemma RowHashesFollowRows(env: HashEnv, obj: PyObject, other: PyObject)
    requires IsPandas(obj) && IsPandas(other)
    requires match obj
      case DataFrameObj(f) =>
        other.DataFrameObj? && other.frame.columns == f.columns
        && multiset(other.frame.rows) == multiset(f.rows)
      case SeriesObj(items) =>
        other.SeriesObj? && multiset(other.items) == multiset(items)
      case IndexObj(values) =>
        other.IndexObj? && multiset(other.values) == multiset(values)
    ensures multiset(RowHashes(env, obj)) == multiset(RowHashes(env, other))
  {
    match obj
    case DataFrameObj(f) =>
      MapSeqKeepsPermutation((r: Row) => env.rowHash(Some(r.indexLabel), RowCells(f.columns, r)),
        f.rows, other.frame.rows);
    case SeriesObj(items) =>
      MapSeqKeepsPermutation((item: (Atom, Atom)) => env.rowHash(Some(item.0), [item.1]),
        items, other.items);
    case IndexObj(values) =>
      MapSeqKeepsPermutation((v: Atom) => env.rowHash(None, [v]), values, other.values);
  }

  /** numpy's order on a `uint64` array. */
  predicate U64Below(a: U64, b: U64) {
    a <= b
  }

  lemma U64BelowIsTotalOrder()
    ensures Ordering.TotalOrder(U64Below)
  {
  }

  /** `row_hashes_array.sort()` */
  function SortHashes(hs: seq<U64>): (sorted: seq<U64>)
    ensures Ordering.SortedBy(U64Below, sorted)
    ensures multiset(sorted) == multiset(hs)
  {
    U64BelowIsTotalOrder();
    Ordering.Sort(U64Below, hs)
  }

  /** `df.sort_index(axis="columns")`: the same frame, columns in ascending
      label order. */
  function SortColumns(f: Frame): (g: Frame)
    ensures Ordering.SortedBy(Ordering.StrBelow, g.columns)
    ensures multiset(g.columns) == multiset(f.columns)
    ensures g.rows == f.rows
  {
    Ordering.StrBelowIsTotalOrder();
    f.(columns := Ordering.Sort(Ordering.StrBelow, f.columns))
  }

  /** The frame's column order after the optional column sort. */
  function Canonical(obj: PyObject, sortColumns: bool): PyObject {
    if sortColumns && obj.DataFrameObj? then DataFrameObj(SortColumns(obj.frame)) else obj
  }

  /** `hashlib.new(hash_name, row_hashes_array).hexdigest()` after the
      optional row sort. */
  function Digest(env: HashEnv, hashName: string, hs: seq<U64>, sortRows: bool): string {
    env.hexdigest(hashName, Buffer(if sortRows then SortHashes(hs) else hs))
  }

  /** What the digest reads: with `sort_rows`, the row hashes in ascending
      order and each as often as it occurs; without, the row hashes exactly
      as they come. */
  lemma DigestReads(env: HashEnv, hashName: string, hs: seq<U64>, sortRows: bool)
    ensures exists bs ::
      && Digest(env, hashName, hs, sortRows) == env.hexdigest(hashName, bs)
      && (sortRows ==>
            Ordering.SortedBy(U64Below, Unbuffer(bs)) && multiset(Unbuffer(bs)) == multiset(hs))
      && (!sortRows ==> Unbuffer(bs) == hs)
  {
    var arr := if sortRows then SortHashes(hs) else hs;
    UnbufferBuffer(arr);
    assert Digest(env, hashName, hs, sortRows) == env.hexdigest(hashName, Buffer(arr));
  }

  /** With `sort_rows`, the digest depends on the multiset of row hashes only. */
  lemma SortedDigestForgetsOrder(env: HashEnv, hashName: string, hs: seq<U64>, other: seq<U64>)
    requires multiset(hs) == multiset(other)
    ensures Digest(env, hashName, hs, true) == Digest(env, hashName, other, true)
  {
    U64BelowIsTotalOrder();
    Ordering.SortForgetsOrder(U64Below, hs, other);
  }

  // ---------------------------------------------------------------------
  // hash_pandas_dataframe
  // ---------------------------------------------------------------------

  /** `hash_pandas_dataframe` as it would behave if the column sort were
      applied to data frames only: it never fails. */
  function HashPandasObject(env: HashEnv, obj: PyObject, sortColumns: bool := true,
                            sortRows: bool := true, hashName: string := DefaultHashName): string
    requires IsPandas(obj)
  {
    Digest(env, hashName, RowHashes(env, Canonical(obj, sortColumns)), sortRows)
  }

  /** `hash_pandas_dataframe` as written: `sort_index(axis="columns")` is a
      `ValueError` on a series (it has no such axis) and an
      `AttributeError` on an index (it has no `sort_index`). */
  function HashPandasObjectAsWritten(env: HashEnv, obj: PyObject, sortColumns: bool := true,
                                     sortRows: bool := true, hashName: string := DefaultHashName)
    : (r: Result<string, PyException>)
    requires IsPandas(obj)
    ensures r.Failure? <==> sortColumns && !obj.DataFrameObj?
    ensures r.Success? ==> r.value == HashPandasObject(env, obj, sortColumns, sortRows, hashName)
  {
    if sortColumns && obj.SeriesObj? then
      Failure(PyException("ValueError", "No axis named columns for object type Series"))
    else if sortColumns && obj.IndexObj? then
      Failure(PyException("AttributeError", "'Index' object has no attribute 'sort_index'"))
    else
      Success(HashPandasObject(env, obj, sortColumns, sortRows, hashName))
  }

  /** With both sorts on, a data frame's digest depends neither on the
      order of its columns nor on the order of its rows. */
  lemma {:induction false} FrameDigestForgetsOrder(env: HashEnv, f: Frame, g: Frame, hashName: string)
    requires multiset(f.columns) == multiset(g.columns)
    requires multiset(f.rows) == multiset(g.rows)
    ensures HashPandasObject(env, DataFrameObj(f), true, true, hashName)
         == HashPandasObject(env, DataFrameObj(g), true, true, hashName)
  {
    Ordering.StrBelowIsTotalOrder();
    Ordering.SortForgetsOrder(Ordering.StrBelow, f.columns, g.columns);
    var cf, cg := Canonical(DataFrameObj(f), true), Canonical(DataFrameObj(g), true);
    assert cf.frame.columns == cg.frame.columns;
    RowHashesFollowRows(env, cf, cg);
    SortedDigestForgetsOrder(env, hashName, RowHashes(env, cf), RowHashes(env, cg));
  }

  /** With the row sort on, permuting the rows of a series or an index
      leaves its digest unchanged. */
  lemma {:induction false} OneDimensionalDigestForgetsOrder(env: HashEnv, obj: PyObject,
                                                            other: PyObject, hashName: string)
    requires
      || (obj.SeriesObj? && other.SeriesObj? && multiset(obj.items) == multiset(other.items))
      || (obj.IndexObj? && other.IndexObj? && multiset(obj.values) == multiset(other.values))
    ensures HashPandasObject(env, obj, true, true, hashName)
         == HashPandasObject(env, other, true, true, hashName)
  {
    RowHashesFollowRows(env, obj, other);
    SortedDigestForgetsOrder(env, hashName, RowHashes(env, obj), RowHashes(env, other));
  }

  /** With `sort_rows=False`, the digest reads the row hashes in row order:
      two frames whose rows agree one by one have the same digest. Without
      the column sort the columns must come in the same order; with it, only
      the same labels are needed, in any order. */
  lemma UnsortedDigestFollowsRows(env: HashEnv, f: Frame, g: Frame, sortColumns: bool,
                                  hashName: string)
    requires if sortColumns then multiset(f.columns) == multiset(g.columns) else f.columns == g.columns
    requires |f.rows| == |g.rows|
    requires forall i | 0 <= i < |f.rows| ::
      f.rows[i].indexLabel == g.rows[i].indexLabel
      && forall c | c in f.columns :: (c in f.rows[i].cells <==> c in g.rows[i].cells)
                                      && (c in f.rows[i].cells ==> f.rows[i].cells[c] == g.rows[i].cells[c])
    ensures HashPandasObject(env, DataFrameObj(f), sortColumns, false, hashName)
         == HashPandasObject(env, DataFrameObj(g), sortColumns, false, hashName)
  {
    var cf, cg := Canonical(DataFrameObj(f), sortColumns), Canonical(DataFrameObj(g), sortColumns);
    if sortColumns {
      Ordering.StrBelowIsTotalOrder();
      Ordering.SortForgetsOrder(Ordering.StrBelow, f.columns, g.columns);
    }
    assert cf.frame.columns == cg.frame.columns;
    forall i | 0 <= i < |f.rows|
      ensures RowCells(cf.frame.columns, f.rows[i]) == RowCells(cg.frame.columns, g.rows[i])
    {
      forall c | c in cf.frame.columns ensures c in f.columns {
        assert c in multiset(cf.frame.columns);
      }
    }
    assert RowHashes(env, cf) == RowHashes(env, cg);
  }

  // ---------------------------------------------------------------------
  // hash_numpy_ndarray and hash_anything
  // ---------------------------------------------------------------------

  /** `hash_numpy_ndarray`: it imports from pandas, so without pandas it
      fails whatever the array. */
  function HashNumpyArray(env: HashEnv, elements: seq<Atom>, hashName: string := DefaultHashName)
    : (r: Result<string, PyException>)
    ensures r.Failure? <==> !env.pandasAvailable
  {
    if !env.pandasAvailable then
      Failure(PyException("ModuleNotFoundError", "No module named 'pandas'"))
    else
      Success(env.hexdigest(hashName, Buffer(env.arrayHashes(elements))))
  }

  /** Which branch of `hash_anything` an object takes. */
  predicate TakesPandasPath(env: HashEnv, obj: PyObject) {
    env.pandasAvailable && IsPandas(obj)
  }

  predicate TakesNumpyPath(env: HashEnv, obj: PyObject) {
    !TakesPandasPath(env, obj) && env.numpyAvailable && obj.NdArrayObj?
  }

  predicate TakesGenericPath(env: HashEnv, obj: PyObject) {
    !TakesPandasPath(env, obj) && !TakesNumpyPath(env, obj)
  }

  /** `hashlib.new(hash_name, dill.dumps(obj)).hexdigest()`: `dill` raises
      `TypeError` on an object it cannot serialize. */
  function GenericDigest(env: HashEnv, obj: PyObject, hashName: string): (r: Result<string, PyException>)
    ensures r.Failure? <==> obj.Unserializable?
    ensures r.Success? ==> r.value == env.hexdigest(hashName, env.dumps(obj))
  {
    if obj.Unserializable? then Failure(PyException("TypeError", "cannot pickle '" + obj.typeName + "' object"))
    else Success(env.hexdigest(hashName, env.dumps(obj)))
  }

  /** `hash_anything`, with the pandas branch of `HashPandasObject`. */
  function HashAnything(env: HashEnv, obj: PyObject, hashName: string := DefaultHashName)
    : (r: Result<string, PyException>)
    ensures r.Failure? <==>
      (TakesNumpyPath(env, obj) && !env.pandasAvailable) || (TakesGenericPath(env, obj) && obj.Unserializable?)
  {
    if TakesPandasPath(env, obj) then Success(HashPandasObject(env, obj, true, true, hashName))
    else if TakesNumpyPath(env, obj) then HashNumpyArray(env, obj.elements, hashName)
    else GenericDigest(env, obj, hashName)
  }

  /** `hash_anything` as written, whose pandas branch fails on a series or
      an index. */
  function HashAnythingAsWritten(env: HashEnv, obj: PyObject, hashName: string := DefaultHashName)
    : (r: Result<string, PyException>)
    ensures r.Failure? <==>
      || (TakesPandasPath(env, obj) && !obj.DataFrameObj?)
      || (TakesNumpyPath(env, obj) && !env.pandasAvailable)
      || (TakesGenericPath(env, obj) && obj.Unserializable?)
  {
    if TakesPandasPath(env, obj) then HashPandasObjectAsWritten(env, obj, true, true, hashName)
    else if TakesNumpyPath(env, obj) then HashNumpyArray(env, obj.elements, hashName)
    else GenericDigest(env, obj, hashName)
  }

  /** Whenever pandas is there, fingerprinting a series or an index as
      written raises, where the intended fingerprint exists. */
  lemma AsWrittenRejectsOneDimensional(env: HashEnv, obj: PyObject, hashName: string)
    requires env.pandasAvailable && (obj.SeriesObj? || obj.IndexObj?)
    ensures HashAnythingAsWritten(env, obj, hashName).Failure?
    ensures HashAnything(env, obj, hashName).Success?
  {
  }

  /** Where the as-written function succeeds it agrees with the intended one. */
  lemma AsWrittenAgreesWhenItSucceeds(env: HashEnv, obj: PyObject, hashName: string)
    requires HashAnythingAsWritten(env, obj, hashName).Success?
    ensures HashAnythingAsWritten(env, obj, hashName) == HashAnything(env, obj, hashName)
  {
  }

  /** `hash_anything` of two data frames holding the same labelled columns
      and the same rows, in any order, is the same digest. */
  lemma HashAnythingForgetsFrameOrder(env: HashEnv, f: Frame, g: Frame, hashName: string)
    requires env.pandasAvailable
    requires multiset(f.columns) == multiset(g.columns)
    requires multiset(f.rows) == multiset(g.rows)
    ensures HashAnything(env, DataFrameObj(f), hashName) == HashAnything(env, DataFrameObj(g), hashName)
    ensures HashAnything(env, DataFrameObj(f), hashName).Success?
  {
    FrameDigestForgetsOrder(env, f, g, hashName);
  }

  /** The generic branch digests the serialized bytes: objects that
      serialize, and serialize alike, get the same fingerprint. */
  lemma GenericPathFollowsSerialization(env: HashEnv, obj: PyObject, other: PyObject, hashName: string)
    requires TakesGenericPath(env, obj) && !obj.Unserializable?
    requires TakesGenericPath(env, other) && !other.Unserializable?
    requires env.dumps(obj) == env.dumps(other)
    ensures HashAnything(env, obj, hashName) == HashAnything(env, other, hashName)
    ensures HashAnything(env, obj, hashName).Success?
  {
  }
}
