/** The on-disk cache store: directories and files under the cache
    directory, reached through `pathlib`. A path is the sequence of its
    segments. The cache writes an entry as a directory holding
    `state.dill`, `result.dill` and, in the newer layout, `metadata.json`. */
module Store {
  import opened Wrappers
  import opened Values

  type Path = seq<string>

  /** A file's content: a `dill` pickle of a value, or the JSON text of a
      metadata document (kept as the document; its encoding is not
      modelled). */
  datatype Blob = Pickled(value: Value) | JsonText(document: Value)

  /** The directories and files that exist. */
  datatype FsState = FsState(dirs: set<Path>, files: map<Path, Blob>)

  /** Every directory and file but a top-level one lies in a directory, and
      nothing is both a directory and a file. */
  predicate WellFormed(s: FsState) {
    && (forall p {:trigger Parent(p)} | p in s.dirs && |p| > 1 :: Parent(p) in s.dirs)
    && (forall p {:trigger Parent(p)} | p in s.files && |p| > 1 :: Parent(p) in s.dirs)
    && (forall p | p in s.files :: p !in s.dirs)
  }

  /** The directory a path lies in. */
  function Parent(p: Path): Path
    requires |p| > 0
  {
    p[..|p| - 1]
  }

  /** Nothing exists inside a directory that does not exist. */
  lemma NothingInsideAbsent(s: FsState, dir: Path, name: string)
    requires WellFormed(s) && |dir| > 0 && !Exists(s, dir)
    ensures !Exists(s, dir + [name])
  {
    assert Parent(dir + [name]) == dir;
  }

  /** `Path(p).exists()` */
  predicate Exists(s: FsState, p: Path) {
    p in s.dirs || p in s.files
  }

  /** `p` and every directory above it (but the root). */
  function Ancestors(p: Path): (a: set<Path>)
    ensures forall i | 1 <= i <= |p| :: p[..i] in a
    ensures forall q | q in a :: 1 <= |q| <= |p|
  {
    set i | 1 <= i <= |p| :: p[..i]
  }

  const FileExists := PyException("FileExistsError", "File exists")
  const FileNotFound := PyException("FileNotFoundError", "No such file or directory")
  const IsADirectory := PyException("IsADirectoryError", "Is a directory")
  const NotADirectory := PyException("NotADirectoryError", "Not a directory")

  /** `Path(p).mkdir(parents=True, exist_ok=existOk)`: `NotADirectoryError`
      when a file stands at a directory above `p`; `FileExistsError` when a
      file stands at `p`, or when `p` is already a directory and `existOk`
      is false; otherwise `p` and all its ancestors are directories
      afterwards. */
  function AfterMkDir(s: FsState, p: Path, existOk: bool): (r: (Result<(), PyException>, FsState))
    ensures r.0.Failure? ==> r.1 == s
    ensures r.0.Success? ==> r.1 == s.(dirs := s.dirs + Ancestors(p))
    ensures r.0 == Failure(NotADirectory) <==> UnderFile(s, p)
    ensures !UnderFile(s, p) && (p in s.files || (!existOk && p in s.dirs)) ==> r.0 == Failure(FileExists)
    ensures r.0.Success? <==> !Blocked(s, p) && (existOk || p !in s.dirs)
  {
    if UnderFile(s, p) then
      (Failure(NotADirectory), s)
    else if p in s.files || (p in s.dirs && !existOk) then
      (Failure(FileExists), s)
    else
      (Success(()), s.(dirs := s.dirs + Ancestors(p)))
  }

  /** A file stands at a directory strictly above `p`. */
  predicate UnderFile(s: FsState, p: Path) {
    exists i | 1 <= i < |p| :: p[..i] in s.files
  }

  /** A file stands at `p` or at a directory above it. */
  predicate Blocked(s: FsState, p: Path) {
    p in s.files || UnderFile(s, p)
  }

  /** In a well-formed store, every directory above an existing path is a
      directory, so no file stands above it. */
  lemma {:induction false} AboveExistingAreDirs(s: FsState, p: Path)
    requires WellFormed(s) && Exists(s, p)
    ensures forall i | 1 <= i < |p| :: p[..i] in s.dirs
    ensures !UnderFile(s, p)
    decreases |p|
  {
    if |p| > 1 {
      var q := Parent(p);
      assert q in s.dirs;
      AboveExistingAreDirs(s, q);
      forall i | 1 <= i < |p| ensures p[..i] in s.dirs {
        if i < |q| {
          assert q[..i] == p[..i];
        }
      }
    }
  }

  lemma MkDirKeepsWellFormed(s: FsState, p: Path, existOk: bool)
    requires WellFormed(s)
    ensures WellFormed(AfterMkDir(s, p, existOk).1)
  {
    if AfterMkDir(s, p, existOk).0.Success? {
      WellFormedAddDirs(s, p);
    }
  }

  lemma WellFormedAddDirs(s: FsState, p: Path)
    requires WellFormed(s) && !Blocked(s, p)
    ensures WellFormed(s.(dirs := s.dirs + Ancestors(p)))
  {
    forall q | q in Ancestors(p) && |q| > 1 ensures Parent(q) in Ancestors(p) {
      var i :| 1 <= i <= |p| && q == p[..i];
      assert Parent(q) == p[..i - 1];
    }
    forall q | q in Ancestors(p) ensures q !in s.files {
      var i :| 1 <= i <= |p| && q == p[..i];
      if i == |p| {
        assert q == p;
      }
    }
  }

  /** `Path(p).write_bytes(...)` or `write_text(...)`: the parent must be a
      directory and `p` must not be one. A missing parent is
      `NotADirectoryError` when a file stands above `p`. */
  function AfterWrite(s: FsState, p: Path, b: Blob): (r: (Result<(), PyException>, FsState))
    ensures r.0.Failure? ==> r.1 == s
    ensures r.0.Success? <==> |p| > 0 && p[..|p| - 1] in s.dirs && p !in s.dirs
    ensures r.0.Success? ==> r.1 == s.(files := s.files[p := b])
  {
    if |p| == 0 || p[..|p| - 1] !in s.dirs then (Failure(if UnderFile(s, p) then NotADirectory else FileNotFound), s)
    else if p in s.dirs then (Failure(IsADirectory), s)
    else (Success(()), s.(files := s.files[p := b]))
  }

  lemma WriteKeepsWellFormed(s: FsState, p: Path, b: Blob)
    requires WellFormed(s)
    ensures WellFormed(AfterWrite(s, p, b).1)
  {
    if AfterWrite(s, p, b).0.Success? {
      var t := s.(files := s.files[p := b]);
      assert forall q | q in t.files :: q == p || q in s.files;
      assert |p| > 1 ==> Parent(p) in s.dirs;
    }
  }

  /** `Path(p).read_bytes()` */
  function Read(s: FsState, p: Path): (r: Result<Blob, PyException>)
    ensures r.Success? <==> p in s.files
    ensures r.Success? ==> r.value == s.files[p]
  {
    if p in s.files then Success(s.files[p])
    else if p in s.dirs then Failure(IsADirectory)
    else if UnderFile(s, p) then Failure(NotADirectory)
    else Failure(FileNotFound)
  }

  /** `dill.loads`: a pickle gives back the value it holds. */
  function Unpickle(b: Blob): (r: Result<Value, PyException>)
    ensures r.Success? <==> b.Pickled?
    ensures b.Pickled? ==> r.value == b.value
  {
    match b
    case Pickled(v) => Success(v)
    case JsonText(_) => Failure(PyException("UnpicklingError", "invalid load key"))
  }

  /** The file system the cache works on, updated in place. */
  class FileSystem {
    var state: FsState

    constructor (s: FsState)
      ensures state == s
    {
      state := s;
    }

    predicate Exists(p: Path)
      reads this
    {
      p in state.dirs || p in state.files
    }

    method MkDir(p: Path, existOk: bool) returns (r: Result<(), PyException>)
      modifies this
      ensures (r, state) == AfterMkDir(old(state), p, existOk)
    {
      var next;
      r, next := AfterMkDir(state, p, existOk).0, AfterMkDir(state, p, existOk).1;
      state := next;
    }

    method Write(p: Path, b: Blob) returns (r: Result<(), PyException>)
      modifies this
      ensures (r, state) == AfterWrite(old(state), p, b)
    {
      var next;
      r, next := AfterWrite(state, p, b).0, AfterWrite(state, p, b).1;
      state := next;
    }

    /** `dill.loads(Path(p).read_bytes())` */
    method Load(p: Path) returns (r: Result<Value, PyException>)
      ensures r == LoadFrom(state, p)
    {
      var blob :- Read(state, p);
      r := Unpickle(blob);
    }
  }

  /** The value pickled at `p`. */
  function LoadFrom(s: FsState, p: Path): (r: Result<Value, PyException>)
    ensures r.Success? <==> p in s.files && s.files[p].Pickled?
    ensures r.Success? ==> r.value == s.files[p].value
  {
    var blob :- Read(s, p);
    Unpickle(blob)
  }

  // ---------------------------------------------------------------------
  // The layout of one entry
  // ---------------------------------------------------------------------

  function StatePath(entry: Path): Path {
    entry + ["state.dill"]
  }

  function ResultPath(entry: Path): Path {
    entry + ["result.dill"]
  }

  function MetadataPath(entry: Path): Path {
    entry + ["metadata.json"]
  }

  /** The three files of an entry are distinct children of its directory. */
  lemma EntryFilesAreChildren(entry: Path)
    ensures StatePath(entry)[..|entry|] == entry && |StatePath(entry)| == |entry| + 1
    ensures ResultPath(entry)[..|entry|] == entry && |ResultPath(entry)| == |entry| + 1
    ensures MetadataPath(entry)[..|entry|] == entry && |MetadataPath(entry)| == |entry| + 1
    ensures StatePath(entry) != ResultPath(entry) && ResultPath(entry) != MetadataPath(entry)
    ensures StatePath(entry) != MetadataPath(entry)
  {
    assert StatePath(entry)[|entry|] == "state.dill";
    assert ResultPath(entry)[|entry|] == "result.dill";
    assert MetadataPath(entry)[|entry|] == "metadata.json";
  }

  /** Writing an entry, in the order the cache does it: the directory
      (`exist_ok=False`), the state pickle when the state is wanted (its
      capture may itself have failed), the result pickle, and the metadata
      document when there is one. It stops at the first failure and keeps
      what it wrote before. */
  function SaveEntry(s: FsState, entry: Path, state: Option<Result<Value, PyException>>,
                     result: Value, metadata: Option<Value>): (Result<(), PyException>, FsState)
  {
    var (made, s1) := AfterMkDir(s, entry, false);
    if made.Failure? then (made, s1) else WriteEntryFiles(s1, entry, state, result, metadata)
  }

  /** The writes into an entry's directory, once it is made. */
  function WriteEntryFiles(s: FsState, entry: Path, state: Option<Result<Value, PyException>>,
                           result: Value, metadata: Option<Value>): (Result<(), PyException>, FsState)
  {
    var (wroteState, s1) :=
      match state
      case None => (Success(()), s)
      case Some(Failure(e)) => (Failure(e), s)
      case Some(Success(v)) => AfterWrite(s, StatePath(entry), Pickled(v));
    if wroteState.Failure? then (wroteState, s1)
    else
      var (wroteResult, s2) := AfterWrite(s1, ResultPath(entry), Pickled(result));
      if wroteResult.Failure? || metadata.None? then (wroteResult, s2)
      else AfterWrite(s2, MetadataPath(entry), JsonText(metadata.value))
  }

  /** An entry is never overwritten: saving to an existing path fails and
      changes nothing. */
  lemma SaveRefusesExisting(s: FsState, entry: Path, state: Option<Result<Value, PyException>>,
                            result: Value, metadata: Option<Value>)
    requires WellFormed(s) && Exists(s, entry)
    ensures SaveEntry(s, entry, state, result, metadata) == (Failure(FileExists), s)
  {
    AboveExistingAreDirs(s, entry);
  }

  /** Where an entry can be created: the file system is well formed, the
      entry does not exist, and no file stands where one of its
      directories must go. */
  predicate CanCreate(s: FsState, entry: Path) {
    WellFormed(s) && |entry| > 0 && !Exists(s, entry) && !Blocked(s, entry)
  }

  /** Making a new entry's directory leaves the directory empty. */
  lemma MkDirFresh(s: FsState, entry: Path)
    requires CanCreate(s, entry)
    ensures var (r, t) := AfterMkDir(s, entry, false);
      && r.Success? && t == FsState(s.dirs + Ancestors(entry), s.files) && entry in t.dirs
      && forall name :: entry + [name] !in t.dirs && entry + [name] !in t.files
  {
    forall name ensures entry + [name] !in s.dirs && entry + [name] !in s.files {
      NothingInsideAbsent(s, entry, name);
    }
    assert entry[..|entry|] == entry;
  }

  /** Writing a child of an existing directory that is not itself a
      directory succeeds. */
  lemma WriteChild(s: FsState, entry: Path, name: string, b: Blob)
    requires entry in s.dirs && entry + [name] !in s.dirs
    ensures AfterWrite(s, entry + [name], b) == (Success(()), s.(files := s.files[entry + [name] := b]))
  {
    assert (entry + [name])[..|entry|] == entry;
  }

  /** The files after an entry's writes: the state pickle when there is a
      state, the result pickle, and the metadata document when there is one. */
  function Written(files: map<Path, Blob>, entry: Path, state: Option<Value>, result: Value,
                   metadata: Option<Value>): map<Path, Blob>
  {
    var withState := if state.Some? then files[StatePath(entry) := Pickled(state.value)] else files;
    var withResult := withState[ResultPath(entry) := Pickled(result)];
    if metadata.Some? then withResult[MetadataPath(entry) := JsonText(metadata.value)] else withResult
  }

  /** Into a directory that holds none of an entry's files, every write
      of the entry succeeds. */
  lemma WritesIntoFreshDir(s: FsState, entry: Path, state: Option<Value>, result: Value,
                           metadata: Option<Value>)
    requires entry in s.dirs
    requires StatePath(entry) !in s.dirs && ResultPath(entry) !in s.dirs && MetadataPath(entry) !in s.dirs
    ensures WriteEntryFiles(s, entry, if state.Some? then Some(Success(state.value)) else None, result, metadata)
         == (Success(()), s.(files := Written(s.files, entry, state, result, metadata)))
  {
    var s2 := s;
    if state.Some? {
      WriteChild(s, entry, "state.dill", Pickled(state.value));
      s2 := s.(files := s.files[StatePath(entry) := Pickled(state.value)]);
    }
    WriteChild(s2, entry, "result.dill", Pickled(result));
    var s3 := s2.(files := s2.files[ResultPath(entry) := Pickled(result)]);
    if metadata.Some? {
      WriteChild(s3, entry, "metadata.json", JsonText(metadata.value));
    }
  }

  /** Saving where nothing stood runs every step: the directories are made
      and the files written. */
  lemma SaveFresh(s: FsState, entry: Path, state: Option<Value>, result: Value, metadata: Option<Value>)
    requires CanCreate(s, entry)
    ensures SaveEntry(s, entry, if state.Some? then Some(Success(state.value)) else None, result, metadata)
         == (Success(()), FsState(s.dirs + Ancestors(entry), Written(s.files, entry, state, result, metadata)))
  {
    MkDirFresh(s, entry);
    var s1 := FsState(s.dirs + Ancestors(entry), s.files);
    assert AfterMkDir(s, entry, false) == (Success(()), s1);
    WritesIntoFreshDir(s1, entry, state, result, metadata);
  }

  /** The entry's writes set its own files and leave every other file as it was. */
  lemma WrittenFiles(files: map<Path, Blob>, entry: Path, state: Option<Value>, result: Value,
                     metadata: Option<Value>)
    requires StatePath(entry) !in files && ResultPath(entry) !in files && MetadataPath(entry) !in files
    ensures var w := Written(files, entry, state, result, metadata);
      && ResultPath(entry) in w && w[ResultPath(entry)] == Pickled(result)
      && (state.Some? ==> StatePath(entry) in w && w[StatePath(entry)] == Pickled(state.value))
      && (state.None? ==> StatePath(entry) !in w)
      && (metadata.Some? ==> MetadataPath(entry) in w && w[MetadataPath(entry)] == JsonText(metadata.value))
      && (forall q | q in files :: q in w && w[q] == files[q])
  {
    EntryFilesAreChildren(entry);
  }

  /** The files of an entry saved where nothing stood: the state pickle
      when a state was captured, the result pickle and the metadata
      document, and no other file changed. */
  lemma SaveCreatesEntry(s: FsState, entry: Path, state: Option<Value>, result: Value, metadata: Option<Value>)
    requires CanCreate(s, entry)
    ensures var (r, t) := SaveEntry(s, entry, if state.Some? then Some(Success(state.value)) else None,
                                    result, metadata);
      && r.Success?
      && Exists(t, entry)
      && LoadFrom(t, ResultPath(entry)) == Success(result)
      && (state.Some? ==> LoadFrom(t, StatePath(entry)) == Success(state.value))
      && (state.None? ==> StatePath(entry) !in t.files)
      && (metadata.Some? ==> Read(t, MetadataPath(entry)) == Success(JsonText(metadata.value)))
      && (forall q | q in s.files :: q in t.files && t.files[q] == s.files[q])
  {
    SaveFresh(s, entry, state, result, metadata);
    NothingInsideAbsent(s, entry, "state.dill");
    NothingInsideAbsent(s, entry, "result.dill");
    NothingInsideAbsent(s, entry, "metadata.json");
    WrittenFiles(s.files, entry, state, result, metadata);
    assert entry[..|entry|] == entry;
  }

  /** The store has no atomic publish: right after the directory is made,
      the entry already exists and its result cannot be read yet. */
  lemma EntryVisibleBeforeWritten(s: FsState, entry: Path)
    requires CanCreate(s, entry)
    ensures var (r, t) := AfterMkDir(s, entry, false);
      r.Success? && Exists(t, entry) && LoadFrom(t, ResultPath(entry)).Failure?
  {
    MkDirFresh(s, entry);
  }

  /** A state capture that fails after the directory is made leaves the
      entry's directory behind with no result in it. */
  lemma FailedCaptureLeavesPartialEntry(s: FsState, entry: Path, e: PyException,
                                        result: Value, metadata: Option<Value>)
    requires CanCreate(s, entry)
    ensures var (r, t) := SaveEntry(s, entry, Some(Failure(e)), result, metadata);
      r == Failure(e) && Exists(t, entry) && LoadFrom(t, ResultPath(entry)).Failure?
  {
    MkDirFresh(s, entry);
  }
}
