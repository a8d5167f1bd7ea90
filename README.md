# maurice, modelled in Dafny

maurice caches the results of instance methods on disk. It is mostly used to
patch scikit-learn estimators. A patched call is keyed by four things:

- the module path and the class of the instance;
- a fingerprint of the instance's state, or a sentinel when the state is not kept;
- the method's name;
- a fingerprint of the call's arguments.

On the first call, the wrapper runs the method and writes a cache entry: a
directory holding `result.dill`, `state.dill` when the state is kept, and
`metadata.json` in the newer code. Later, the same call is answered from that
entry, and the stored state is put back onto the instance. A second module,
the watchdog, reports which attributes of an object a method call added,
removed or modified.

This project models these parts:

- the watchdog (`src/maurice/watchdog.py`);
- the fingerprint function `hash_anything` (`src/maurice/hashing.py`);
- the newer caching core (`src/maurice/patchers/core.py`):
  - `BaseMethodWrapper.run` with its hooks and the `MISSING` sentinel;
  - `CachingMethodWrapper`;
  - `_get_state` and `_set_state`;
  - `MethodCacheManager`;
  - `run_cached_method` and `_caching_method_wrapper`;
- the older caching wrapper (`maurice/patchers/core.py`).

It proves properties of the model.

Modules:

- `Wrappers`: `Option` and `Result`.
- `Text`: splitting on a separator, and decimal rendering.
- `Ordering`: total orders, and sorting a set into a sequence. Python iterates a `set` in an unspecified order; the model fixes one.
- `Values`: Python values as trees: atoms, dicts, lists, tuples, sets, objects with a `__dict__` or slots, and the uncopyable marker. It also holds exceptions and how a call ends.
- `Watchdog`: the detector as pure functions. `StateChangeDetector` is a class whose `Call` updates the tracked object and `last_result`.
- `WatchdogProperties`: what the detector reports. It defines `Visible`, a reference normal form. The main theorem says a comparison reports nothing exactly when both sides look the same to it.
- `Hashing`: `hash_anything`, `hash_pandas_dataframe` and `hash_numpy_ndarray`. pandas' row hashing, md5 and `dill` are parameters.
- `Objects`: an instance (a class whose attributes change in place), and the state protocol: `__getstate__`, `__setstate__`, `__dict__` and `__slots__`. It also holds `_get_state`, `_set_state` and the wrappers' own `_get_instance_state` and `_set_instance_state`.
- `Store`: the cache directory as a file system that the cache updates in place. It models `mkdir(parents=True, exist_ok=False)`, `write_bytes` and `read_bytes`, and the order in which an entry's files are written.
- `CacheCore`: the newer caching core:
  - keys;
  - `BaseMethodWrapper.run` over three kinds of hooks (the base class's, `CachingMethodWrapper`'s, and those of any other subclass);
  - `MethodCacheManager` as a class, whose `cached_property` slots are fields;
  - `run_cached_method`;
  - the as-written behaviour of the manager.
- `CacheProperties`: the properties of the caching core:
  - keys are injective;
  - a miss writes the entry;
  - a replay is a hit that returns the stored result;
  - `MISSING` leads to `RuntimeError`.
- `LegacyCore`: the older `CachingMethodWrapper`. Its `run_wrapped` is proved to be the newer wrapper's `run`, given the same entry.

State-changing operations are methods on classes:

- `Instance.Invoke`;
- `FileSystem.MkDir`, `FileSystem.Write` and `FileSystem.Load`;
- the wrappers' `Run`;
- the manager's `Exists`, `Read` and `Write`;
- `StateChangeDetector.Call`.

Each method is proved against a function that gives its outcome, the files it leaves and the attributes it leaves. The lemmas are stated over those functions.

## Model

| member | source | states |
|---|---|---|
| Text.Split | src/maurice/patchers/core.py:106 | `str.split(".")` yields at least one part, and no part contains the separator |
| Text.JoinSplit | src/maurice/patchers/core.py:106 | joining the parts of a split with the separator gives back the string |
| Text.SplitInjective | src/maurice/patchers/core.py:106 | two module paths with the same parts are the same path |
| Text.LastSegment | src/maurice/watchdog.py:190 | `path.split(".")[-1]` contains no dot and is a suffix of the path |
| Text.NatToDecimal | src/maurice/watchdog.py:317 | the decimal rendering of an index is a non-empty string of digits |
| Text.NatToDecimalReadsBack | src/maurice/watchdog.py:317 | the rendering of an index reads back as that index, and has no leading zero |
| Ordering.SortedStrings | src/maurice/watchdog.py:369-371 | the attribute names of both sides are each visited exactly once, in one fixed order |
| Ordering.SortForgetsOrder | src/maurice/hashing.py:50-51 | sorting two arrangements of the same elements gives the same sequence |
| Values.SortedAtoms | src/maurice/watchdog.py:277-279 | the keys of both dicts are each visited exactly once, in one fixed order |
| Values.AtomBelowIsTotalOrder | src/maurice/watchdog.py:277-279 | the order fixed on dict keys and set elements is a total order |
| Watchdog.OfType | src/maurice/watchdog.py:50-60 | `added`/`removed`/`modified` keep exactly the changes of their kind, and are never longer than `changes` |
| Watchdog.ForPath | src/maurice/watchdog.py:62-63 | `get_changes_for_path` keeps exactly the changes whose path or name is the argument |
| Watchdog.ShouldIgnoreAttr | src/maurice/watchdog.py:116-122 | the ignore rule; `WatchdogProperties.DefaultIgnoresDunderNames` and `WatchdogProperties.PrivateIgnoresUnderscoreNames` read it character by character: with the defaults a name is ignored iff it begins and ends with two underscores, and with `ignore_private` every name starting with `_` is ignored |
| Watchdog.AllAttributes | src/maurice/watchdog.py:124-148 | the kept names are the slot and `__dict__` names the options do not ignore; `__dict__` values win over slot values |
| Watchdog.Snapshot | src/maurice/watchdog.py:173-178 | a snapshot holds exactly the kept attributes with their values (the contract of `AllAttributes`); see "## Left out" for `deep` |
| Watchdog.MarkerEquals | src/maurice/watchdog.py:466-469 | a marker equals only another marker |
| Watchdog.PyEquals | src/maurice/watchdog.py:466-469 | `old != new` as the comparison sees it: `WatchdogProperties.MarkerEquality` proves two markers equal iff their ids are, and a marker never equal to another value; `WatchdogProperties.EqualValuesNoChanges` proves equal values give no change |
| Watchdog.CompareValues | src/maurice/watchdog.py:180-273 | `_compare_values`: `WatchdogProperties.NoChangesIffSameVisible` proves it empty iff both sides look the same (`Visible`); `ChangesUnderPath` puts every change under the path; `TypeChangeIsOneModification` and `BeyondMaxDepth` fix the type-change and depth-limit results |
| Watchdog.CompareDicts | src/maurice/watchdog.py:275-301 | `_compare_dicts`: `WatchdogProperties.DictReportsAddedAndRemoved` proves it the concatenation over the distinct keys of either side, one ADDED or REMOVED change per one-sided key, the comparison one level down per shared key; `DictsNoChanges` proves it empty iff both dicts look the same |
| Watchdog.CompareSequences | src/maurice/watchdog.py:303-341 | `_compare_sequences`: `WatchdogProperties.LengthChangeIffLengthsDiffer`, `TailReportsExtraItems` and `SequenceEmptyIff` prove the length change iff the lengths differ, the extra tail item by item, and emptiness iff equal lengths and a silent element walk |
| Watchdog.CompareSets | src/maurice/watchdog.py:343-363 | `_compare_sets`: `WatchdogProperties.SetReportsDifferences` proves one addition per element of `new - old` and one removal per element of `old - new`, nothing else; `SetNoChanges` proves it empty iff the sets are equal |
| Watchdog.CompareAttrDicts | src/maurice/watchdog.py:365-387 | `_compare_attr_dicts`: `WatchdogProperties.AttrReportsAddedAndRemoved` proves it the concatenation over the distinct names, one ADDED or REMOVED change per one-sided name at `base_path.name`, the comparison one level down per shared name; `AttrDictsNoChanges` proves it empty iff the names agree and each attribute looks the same |
| Watchdog.DetectChanges | src/maurice/watchdog.py:389-392 | `_detect_changes`: `WatchdogProperties.DetectNoChangesIffSameVisible` proves it empty iff both snapshots look the same; `DetectReportsAddedAndRemoved` gives its per-attribute equations at depth 0 |
| Watchdog.SetAdditions | src/maurice/watchdog.py:345-353 | one `set_item` addition per new element, in order |
| Watchdog.SetRemovals | src/maurice/watchdog.py:354-362 | one `set_item` removal per vanished element, in order |
| Watchdog.StateChangeDetector.constructor | src/maurice/watchdog.py:94-109 | the detector starts with the object and options given, and no last result |
| Watchdog.StateChangeDetector.Call | src/maurice/watchdog.py:394-411 | a missing attribute raises `AttributeError` and a non-callable one `TypeError`, both changing nothing; otherwise the result holds the diff of the snapshots before and after, the raised exception or the return value, and becomes `last_result` |
| WatchdogProperties.FiltersPartition | src/maurice/watchdog.py:50-60 | the three filters' lengths add up to the number of changes |
| WatchdogProperties.FiltersKeepEveryChange | src/maurice/watchdog.py:50-60 | together the three filters hold every change exactly as often as `changes` does |
| WatchdogProperties.OfTypeDistributes | src/maurice/watchdog.py:50-60 | filtering keeps the original order: the filter of a concatenation is the concatenation of the filters |
| WatchdogProperties.HasChangesIffSomeKind | src/maurice/watchdog.py:46-60 | `has_changes` holds iff one of `added`, `removed` or `modified` is non-empty |
| WatchdogProperties.OfTypeAll | src/maurice/watchdog.py:50-60 | a sequence of changes all of one kind is its own filter |
| WatchdogProperties.OfTypeNone | src/maurice/watchdog.py:50-60 | a sequence with no change of a kind has an empty filter for it |
| WatchdogProperties.DefaultIgnoresDunderNames | src/maurice/watchdog.py:116-122 | with the default options, a name is ignored iff its first two and last two characters are underscores |
| WatchdogProperties.PrivateIgnoresUnderscoreNames | src/maurice/watchdog.py:120-121 | with `ignore_private`, every name starting with `_` is ignored |
| WatchdogProperties.EqualValuesNoChanges | src/maurice/watchdog.py:220-223 | equal values never produce a change, at any depth |
| WatchdogProperties.TypeChangeIsOneModification | src/maurice/watchdog.py:229-240 | below the depth limit, values of different types give exactly one modification carrying both values |
| WatchdogProperties.BeyondMaxDepth | src/maurice/watchdog.py:186-197 | beyond `max_depth`: no change when the values are equal, otherwise one modification with placeholder values |
| WatchdogProperties.MarkerEquality | src/maurice/watchdog.py:466-469 | two markers are equal iff their object ids are; a marker never equals a value of another type |
| WatchdogProperties.ChangesUnderPath | src/maurice/watchdog.py:180-273 | every change a comparison reports has a path that starts with the compared path |
| WatchdogProperties.DictChangesUnderPath | src/maurice/watchdog.py:275-301 | every change of a dict comparison lies under `path[` |
| WatchdogProperties.DictEntriesUnderPath | src/maurice/watchdog.py:279-300 | every change the key loop reports lies under `path[` |
| WatchdogProperties.SequenceChangesUnderPath | src/maurice/watchdog.py:303-341 | every change of a sequence comparison lies under its path; all but the length change lie under `path[` |
| WatchdogProperties.ElementwiseUnderPath | src/maurice/watchdog.py:316-317 | every change of the element-by-element walk lies under `path[` |
| WatchdogProperties.SetChangesUnderPath | src/maurice/watchdog.py:343-363 | every change of a set comparison lies under its path |
| WatchdogProperties.AttrChangesUnderPath | src/maurice/watchdog.py:365-387 | every change of an attribute comparison lies under the base path |
| WatchdogProperties.AttrEntriesUnderPath | src/maurice/watchdog.py:371-386 | every change the attribute loop reports lies under the base path |
| WatchdogProperties.Visible | src/maurice/watchdog.py:180-273 | reference definition of what a comparison can see of a value at a depth: markers reduced to their ids, objects reduced to their kept attributes, untracked collections left whole, nothing looked into beyond `max_depth` |
| WatchdogProperties.NoChangesIffSameVisible | src/maurice/watchdog.py:180-273 | `_compare_values` reports no change iff both values look the same (`Visible`), in both directions |
| WatchdogProperties.ShallowNoChanges | src/maurice/watchdog.py:186-240 | the depth-limit, marker, equality and type-change cases report nothing iff both sides look the same |
| WatchdogProperties.CollectionNoChanges | src/maurice/watchdog.py:242-273 | for two different values of one type, neither a marker: no change iff they look the same |
| WatchdogProperties.DictsNoChanges | src/maurice/watchdog.py:244-246 | a tracked dict comparison is empty iff both dicts look the same |
| WatchdogProperties.SequencesNoChanges | src/maurice/watchdog.py:248-250 | a tracked list/tuple comparison is empty iff both sequences look the same |
| WatchdogProperties.SequenceEmptyIff | src/maurice/watchdog.py:303-341 | a sequence comparison is empty iff the lengths agree and the element-by-element walk is empty |
| WatchdogProperties.ObjectsNoChanges | src/maurice/watchdog.py:256-261 | a comparison of two objects with a `__dict__` is empty iff both look the same |
| WatchdogProperties.AttrDictsNoChanges | src/maurice/watchdog.py:365-387 | an attribute comparison is empty iff the names agree and every attribute looks the same one level down |
| WatchdogProperties.DictEntriesNoChanges | src/maurice/watchdog.py:279-300 | the key loop reports nothing iff each key is on both sides and looks the same there |
| WatchdogProperties.DictEntryNoChanges | src/maurice/watchdog.py:280-300 | one key reports nothing iff it is on both sides and looks the same there |
| WatchdogProperties.ElementwiseNoChanges | src/maurice/watchdog.py:316-317 | the element walk reports nothing iff every common-prefix item looks the same |
| WatchdogProperties.SetNoChanges | src/maurice/watchdog.py:343-363 | a set comparison is empty iff the sets are equal |
| WatchdogProperties.AttrEntriesNoChanges | src/maurice/watchdog.py:371-386 | the attribute loop reports nothing iff each name is on both sides and looks the same there |
| WatchdogProperties.AttrEntryNoChanges | src/maurice/watchdog.py:372-386 | one attribute reports nothing iff it is on both sides and looks the same there |
| WatchdogProperties.DetectNoChangesIffSameVisible | src/maurice/watchdog.py:389-392 | `_detect_changes` reports nothing iff both snapshots have the same names and every attribute looks the same |
| WatchdogProperties.CallHasChangesIff | src/maurice/watchdog.py:394-411 | a `call` result has changes iff some attribute appeared, disappeared or changed visibly |
| WatchdogProperties.AttrEntriesInclude | src/maurice/watchdog.py:371-386 | each attribute's changes are among those of the whole walk |
| WatchdogProperties.DetectReportsAddedAndRemoved | src/maurice/watchdog.py:369-387 | `_detect_changes` is the concatenation, over the distinct names of either snapshot, of what each name contributes: exactly one ADDED change with the new value for a name only after, exactly one REMOVED change with the old value for a name only before, both at the name itself, and the comparison at depth 1 for a name on both sides |
| WatchdogProperties.AttrReportsAddedAndRemoved | src/maurice/watchdog.py:365-387 | at any base path and depth, the attribute walk is the concatenation over the distinct names of either side: exactly one ADDED or REMOVED change per one-sided name, at `base_path.name`, with its value; the comparison at `depth + 1` per shared name |
| WatchdogProperties.AttrReportsOneSided | src/maurice/watchdog.py:373-384 | a name that appeared is among the changes as added with its value, and one that disappeared as removed with its value |
| WatchdogProperties.AttrEntriesConcat | src/maurice/watchdog.py:371-386 | the attribute loop is the concatenation of each name's changes, in visiting order |
| WatchdogProperties.AttrEntryCases | src/maurice/watchdog.py:372-386 | one name gives a single ADDED change, a single REMOVED change, or the comparison one level down |
| WatchdogProperties.DictEntriesInclude | src/maurice/watchdog.py:279-300 | each key's changes are among those of the whole key loop |
| WatchdogProperties.DictReportsAddedAndRemoved | src/maurice/watchdog.py:277-300 | `_compare_dicts` is the concatenation, over the distinct keys of either dict, of what each key contributes: exactly one ADDED change with the new value for a key only in `new`, exactly one REMOVED change with the old value for a key only in `old`, both at `path[key]`, and the comparison at `depth + 1` for a key in both |
| WatchdogProperties.DictReportsOneSided | src/maurice/watchdog.py:281-298 | a new key is among the changes as added with its value, and a vanished key as removed with its value, at `path[key]` |
| WatchdogProperties.DictEntriesConcat | src/maurice/watchdog.py:279-300 | the key loop is the concatenation of each key's changes, in visiting order |
| WatchdogProperties.DictEntryCases | src/maurice/watchdog.py:280-300 | one key gives a single ADDED change, a single REMOVED change, or the comparison at `depth + 1` |
| WatchdogProperties.LengthChangeIffLengthsDiffer | src/maurice/watchdog.py:305-314 | a change at `path.length` is reported iff the lengths differ |
| WatchdogProperties.TailReportsExtraItems | src/maurice/watchdog.py:319-340 | the tail of a longer new sequence is reported item by item as added, and that of a longer old one as removed, with index and item |
| WatchdogProperties.SetReportsDifferences | src/maurice/watchdog.py:343-363 | each element of `new - old` is reported once as added and each of `old - new` once as removed, and nothing else |
| WatchdogProperties.KindsOfAddedThenRemoved | src/maurice/watchdog.py:343-363 | filtering a set comparison by kind gives back its additions and its removals |
| Hashing.LittleEndian | src/maurice/hashing.py:52 | the little-endian rendering of an item has exactly the requested number of bytes |
| Hashing.LittleEndianRoundTrip | src/maurice/hashing.py:52 | the eight bytes of an item read back as the item |
| Hashing.Buffer | src/maurice/hashing.py:52 | the buffer `hashlib` reads from a `uint64` array has eight bytes per item |
| Hashing.UnbufferBuffer | src/maurice/hashing.py:52 | reading the buffer back gives the array |
| Hashing.BufferInjective | src/maurice/hashing.py:52 | two arrays with the same buffer are the same array |
| Hashing.MapSeqKeepsPermutation | src/maurice/hashing.py:49 | hashing two arrangements of the same rows gives two arrangements of the same hashes |
| Hashing.RowCells | src/maurice/hashing.py:49 | a row yields one cell per column |
| Hashing.RowHashesFollowRows | src/maurice/hashing.py:49 | two arrangements of the same rows (same columns) have the same multiset of row hashes |
| Hashing.U64BelowIsTotalOrder | src/maurice/hashing.py:51 | numpy's order on `uint64` is a total order |
| Hashing.SortHashes | src/maurice/hashing.py:50-51 | `row_hashes_array.sort()` is ascending and a permutation of its input |
| Hashing.SortColumns | src/maurice/hashing.py:47-48 | `sort_index(axis="columns")` leaves the rows alone and puts the same column labels in ascending order |
| Hashing.Canonical | src/maurice/hashing.py:47-48 | the column sort, applied to data frames only; `Hashing.FrameDigestForgetsOrder` and `Hashing.UnsortedDigestFollowsRows` prove the digest then ignores column order |
| Hashing.Digest | src/maurice/hashing.py:50-52 | the digest of the row hashes; `Hashing.DigestReads` proves what bytes it reads and `Hashing.SortedDigestForgetsOrder` that with `sort_rows` only their multiset matters |
| Hashing.DigestReads | src/maurice/hashing.py:50-52 | with `sort_rows`, the digest reads the row hashes in ascending order, each as often as it occurs; without it, as they come |
| Hashing.SortedDigestForgetsOrder | src/maurice/hashing.py:50-52 | with `sort_rows`, the digest depends only on the multiset of row hashes |
| Hashing.HashPandasObjectAsWritten | src/maurice/hashing.py:40-52 | as written it fails iff the column sort is on and the object is not a data frame; where it succeeds it is the intended digest |
| Hashing.HashPandasObject | src/maurice/hashing.py:40-52 | `hash_pandas_dataframe` with the column sort on data frames only; `Hashing.FrameDigestForgetsOrder`, `OneDimensionalDigestForgetsOrder` and `UnsortedDigestFollowsRows` prove which reorderings leave it unchanged, and `HashPandasObjectAsWritten` that the as-written code agrees wherever it succeeds |
| Hashing.FrameDigestForgetsOrder | src/maurice/hashing.py:40-52 | with both sorts, a data frame's digest depends neither on column order nor on row order |
| Hashing.OneDimensionalDigestForgetsOrder | src/maurice/hashing.py:49-52 | with the row sort, permuting a series' or index's rows leaves the digest unchanged |
| Hashing.UnsortedDigestFollowsRows | src/maurice/hashing.py:47-52 | without the row sort, frames whose rows agree one by one have the same digest; with the column sort the columns need only the same labels, in any order, and without it the same order |
| Hashing.HashNumpyArray | src/maurice/hashing.py:32-37 | `hash_numpy_ndarray` fails iff pandas is missing, whatever the array |
| Hashing.GenericDigest | src/maurice/hashing.py:29 | the generic branch fails iff `dill` cannot serialize the object, and otherwise is the hex digest of the serialized bytes |
| Hashing.HashAnything | src/maurice/hashing.py:20-29 | `hash_anything` fails iff the object takes the numpy branch without pandas, or takes the generic branch and `dill` cannot serialize it; every pandas object gets a fingerprint |
| Hashing.HashAnythingAsWritten | src/maurice/hashing.py:20-29 | as written it fails iff the object is a series or an index on the pandas branch, an array on the numpy branch without pandas, or an object `dill` cannot serialize on the generic branch |
| Hashing.AsWrittenRejectsOneDimensional | src/maurice/hashing.py:25-26 | with pandas present, fingerprinting a series or an index raises as written, though the intended fingerprint exists |
| Hashing.AsWrittenAgreesWhenItSucceeds | src/maurice/hashing.py:20-29 | wherever the as-written function succeeds, it gives the intended fingerprint |
| Hashing.HashAnythingForgetsFrameOrder | src/maurice/hashing.py:25-26 | two data frames with the same labelled columns and the same rows, in any order, get the same fingerprint |
| Hashing.GenericPathFollowsSerialization | src/maurice/hashing.py:29 | objects that `dill` serializes, and serializes alike, get the same fingerprint |
| Objects.Instance.Invoke | src/maurice/patchers/core.py:81 | a call ends as the method's body says, leaves the attributes the body leaves, and appends itself to the instance's call log |
| Objects.SlotState | src/maurice/patchers/core.py:161 | reading the slots succeeds iff every slot holds a value, and then gives exactly those slots |
| Objects.GetState | src/maurice/patchers/core.py:155-164 | `__getstate__` wins, then `__dict__`, then the slots; it fails iff there is none of the three or an unset slot |
| Objects.GetStateAsWritten | src/maurice/patchers/core.py:155-164 | as written, it fails iff the object has neither `__getstate__` nor `__dict__`; where it succeeds it is `GetState` |
| Objects.SlotsOnlyStateAsWritten | src/maurice/patchers/core.py:160-161 | a slots-only object with every slot set has a state, which the as-written code cannot read |
| Objects.SetState | src/maurice/patchers/core.py:167-176 | `_set_state` updates the instance in place as `AfterSetState` says |
| Objects.AfterSetState | src/maurice/patchers/core.py:167-176 | `_set_state`: `Objects.MergeIsRestoreIff` proves the `__dict__` branch merges the state, and `Objects.SetStateOnSlots` that the slots branch succeeds iff every key is a slot and then sets each key |
| Objects.AssignSlots | src/maurice/patchers/core.py:173-174 | the `setattr` loop: `Objects.AssignSlotsSucceeds`, `AssignSlotsFails` and `AssignAllSlots` prove it assigns every key when all are slots, and otherwise raises `AttributeError` at the first non-slot with exactly the keys before it assigned |
| Objects.AssignSlotsInPlace | src/maurice/patchers/core.py:173-174 | the `setattr` loop updates the instance as `AssignSlots` says |
| Objects.AssignSlotsSucceeds | src/maurice/patchers/core.py:173-174 | when every key is a slot, the loop assigns all the keys |
| Objects.AssignSlotsFails | src/maurice/patchers/core.py:173-174 | at the first key that is not a slot the loop raises `AttributeError`, having assigned exactly the keys before it |
| Objects.AssignAllSlots | src/maurice/patchers/core.py:172-174 | the loop over all the keys of a state succeeds iff they are all slots, whatever their order |
| Objects.SetStateOnSlots | src/maurice/patchers/core.py:172-176 | restoring a slots-only object succeeds iff every key is a slot, and then sets each key |
| Objects.MergeIsRestoreIff | src/maurice/patchers/core.py:170-171 | `__dict__.update` merges: the state's keys win and the other keys stay; the result is the state iff the object had no extra key |
| Objects.CaptureThenRestore | src/maurice/patchers/core.py:155-171 | for a plain object, capturing then restoring gives back the captured attributes iff no attribute was added in between |
| Objects.InstanceState | maurice/patchers/core.py:51-56 | `_get_instance_state` fails iff the object has neither `__getstate__` nor `__dict__`; otherwise it equals `_get_state` |
| Objects.AfterRestoreInstanceState | maurice/patchers/core.py:58-62 | `_set_instance_state` fails iff there is neither `__setstate__` nor `__dict__`, changing nothing; otherwise it equals `_set_state` |
| Objects.RestoreInstanceState | src/maurice/patchers/core.py:126-130 | restores in place as `AfterRestoreInstanceState` says, without calling any method |
| Store.Ancestors | src/maurice/patchers/core.py:145 | `mkdir(parents=True)` makes every non-empty prefix of the entry's path a directory, and no path longer than the entry's |
| Store.AfterMkDir | src/maurice/patchers/core.py:145 | `NotADirectoryError` iff a file stands at a proper prefix of the path; otherwise `FileExistsError` when a file stands at the path, or the directory exists and `exist_ok` is false; otherwise success, and the directory and its parents exist |
| Store.MkDirKeepsWellFormed | src/maurice/patchers/core.py:145 | making directories keeps the file system well formed |
| Store.AboveExistingAreDirs | src/maurice/patchers/core.py:145 | in a well-formed file system, every proper prefix of an existing path is a directory, so no file stands above it |
| Store.AfterWrite | src/maurice/patchers/core.py:147-148 | a write succeeds iff the parent is a directory and the path is not one, and then sets exactly that file; with no parent directory it raises `NotADirectoryError` when a file stands above the path, `FileNotFoundError` otherwise |
| Store.WriteKeepsWellFormed | src/maurice/patchers/core.py:147-148 | writing keeps the file system well formed |
| Store.Read | src/maurice/patchers/core.py:142 | `read_bytes` succeeds iff a file is stored at the path, and then returns its bytes; a directory there gives `IsADirectoryError`, a file above it `NotADirectoryError`, anything else `FileNotFoundError` |
| Store.Unpickle | src/maurice/patchers/core.py:142 | `dill.loads` succeeds iff the bytes are a pickle, and then gives back the pickled value |
| Store.LoadFrom | src/maurice/patchers/core.py:142 | loading succeeds iff a pickle is stored at the path, and then gives its value |
| Store.FileSystem.MkDir | src/maurice/patchers/core.py:145 | updates the file system as `AfterMkDir` says |
| Store.FileSystem.Write | src/maurice/patchers/core.py:148 | updates the file system as `AfterWrite` says |
| Store.FileSystem.Load | src/maurice/patchers/core.py:142 | reads as `LoadFrom` says and changes nothing |
| Store.EntryFilesAreChildren | src/maurice/patchers/core.py:116-117 | `state.dill`, `result.dill` and `metadata.json` are three distinct children of the entry directory |
| Store.SaveRefusesExisting | src/maurice/patchers/core.py:238 | in a well-formed file system, with `exist_ok=False`, saving into an existing entry fails with `FileExistsError` and changes nothing |
| Store.MkDirFresh | src/maurice/patchers/core.py:238 | making a new entry's directory leaves the directory empty |
| Store.WriteChild | src/maurice/patchers/core.py:241 | writing a child of an existing directory, where no directory stands, succeeds |
| Store.WritesIntoFreshDir | src/maurice/patchers/core.py:239-260 | into a directory with none of the entry's files, every write of the entry succeeds |
| Store.SaveFresh | src/maurice/patchers/core.py:237-260 | saving where nothing stood makes the directories and writes every file |
| Store.WrittenFiles | src/maurice/patchers/core.py:239-260 | the entry's writes set its own files and leave every other file as it was |
| Store.SaveCreatesEntry | src/maurice/patchers/core.py:237-260 | after a save where nothing stood: the state pickle exists iff a state was kept, the result and metadata exist, and no other file changed |
| Store.EntryVisibleBeforeWritten | src/maurice/patchers/core.py:238-245 | publishing is not atomic: once the directory is made the entry exists, but its result cannot be read yet |
| Store.FailedCaptureLeavesPartialEntry | src/maurice/patchers/core.py:238-241 | a state capture that fails after the directory is made leaves the directory behind, without a result |
| CacheCore.Fingerprint | src/maurice/hashing.py:29 | a plain value's fingerprint is what `hash_anything` returns for it |
| CacheCore.CacheKey | src/maurice/patchers/core.py:104-115 | the key path; `CacheProperties.KeyInjective` proves two keys equal iff all their parts agree, and `CacheProperties.KeyUnderCacheDir` lays out its segments under the cache directory |
| CacheCore.CallKey | src/maurice/patchers/core.py:203-215 | `parent_dir`: the key with the arguments' fingerprint; `CacheProperties.RunCachedKey` proves `run_cached_method` keys by the state before the call |
| CacheCore.StateStringOf | src/maurice/patchers/core.py:199-200 | `state_string`: `CacheProperties.StatefulAndStatelessKeysDiffer` proves a state fingerprint never equals the sentinel, and `CacheProperties.RunCachedUnreadableState` that an unreadable state fails the call first |
| CacheCore.Restore | src/maurice/patchers/core.py:126-130 | restores the state with the chosen accessor: `_set_instance_state` or `_set_state` |
| CacheCore.AttrsOf | src/maurice/patchers/core.py:141 | a loaded state is usable iff it is a dict with string keys, and it then gives back that dict |
| CacheCore.AfterLoad | src/maurice/patchers/core.py:137-142 | the load of an entry; `CacheProperties.LoadSaved` proves that loading a saved entry restores its state when kept and returns its result |
| CacheCore.Load | src/maurice/patchers/core.py:137-142 | a hit restores the stored state when it is kept, then loads the result; the first failure ends it |
| CacheCore.MethodWrapper.constructor | src/maurice/patchers/core.py:49-52 | the wrapper keeps the bound method, the arguments and its class's hooks |
| CacheCore.AfterPostHook | src/maurice/patchers/core.py:137-149 | the post-hook of each kind of wrapper; `CacheProperties.PostHookDecides` proves its value decides how `run` ends, and `CacheProperties.CachingHit` and `CachingMiss` what the caching one loads or saves |
| CacheCore.AfterRun | src/maurice/patchers/core.py:64-93 | `run`: `CacheProperties.BaseRunIsTheCall`, `RunCallsFollowPreHook`, `NoResultRaises`, `NoPostHookKeepsCallResult`, `CachingMiss` and `CachingReplay` prove how it ends, what it calls, and that a replay after a miss is a hit |
| CacheCore.MethodWrapper.PreHook | src/maurice/patchers/core.py:132-135 | the base pre-hook says "run the method, then the post-hook"; the caching one runs the method iff the entry does not exist |
| CacheCore.MethodWrapper.PostHook | src/maurice/patchers/core.py:137-149 | on `MISSING` the caching post-hook loads the entry; otherwise it saves the entry and hands the result back; it never calls the method |
| CacheCore.MethodWrapper.SaveCall | src/maurice/patchers/core.py:144-149 | the directory, then the state read after the call when it is kept, then the result; the first failure ends it |
| CacheCore.MethodWrapper.Run | src/maurice/patchers/core.py:64-93 | `run` ends, leaves files and attributes, and calls the method exactly as `AfterRun` and `RunCalls` say |
| CacheCore.NewCachingMethodWrapper | src/maurice/patchers/core.py:97-117 | the constructor fails iff a kept state cannot be read; otherwise the entry is the call's key with `"_ignore_state"` or the state's fingerprint |
| CacheCore.MethodCacheManager.constructor | src/maurice/patchers/core.py:180-192 | the manager starts with its inputs, the initial state, and empty cached properties |
| CacheCore.MethodCacheManager.StateString | src/maurice/patchers/core.py:198-200 | `state_string` is the remembered value, or the state's fingerprint (`"_stateless"` when not kept), remembered once it succeeds |
| CacheCore.MethodCacheManager.ParentDir | src/maurice/patchers/core.py:202-215 | `parent_dir` is the remembered path, or the call's key, remembered once it succeeds; a failure remembers nothing |
| CacheCore.MethodCacheManager.Exists | src/maurice/patchers/core.py:229-230 | `exists()` tells whether the entry directory exists, and fixes `parent_dir` |
| CacheCore.MethodCacheManager.Read | src/maurice/patchers/core.py:232-235 | `read()` loads the entry with `_set_state` as `AfterLoad` says, without calling the method |
| CacheCore.MethodCacheManager.Write | src/maurice/patchers/core.py:237-260 | `write()` saves the directory, the state when kept, the result and the metadata, in that order, as `AfterWriteEntry` says |
| CacheCore.Metadata | src/maurice/patchers/core.py:246-259 | the `metadata.json` record; `CacheProperties.RunCachedMiss` proves a miss leaves it in the entry |
| CacheCore.AfterWriteEntry | src/maurice/patchers/core.py:237-260 | `write()`: `CacheProperties.RunCachedMiss` proves it leaves the result, the state when kept and the metadata; `Store.EntryVisibleBeforeWritten` that it is not atomic |
| CacheCore.NewMethodCacheManager | src/maurice/patchers/core.py:180-192 | construction fails iff `_get_state` fails, with its error |
| CacheCore.RunCachedOnHit | src/maurice/patchers/core.py:279-281 | on an existing entry, `run_cached_method` is the load of that entry |
| CacheCore.RunCachedOnMiss | src/maurice/patchers/core.py:283-287 | on a missing entry, `run_cached_method` calls the method and writes the entry when it returns |
| CacheCore.AfterRunCached | src/maurice/patchers/core.py:266-287 | `run_cached_method`: `CacheCore.RunCachedOnHit` and `RunCachedOnMiss` split it on the entry; `CacheProperties.RunCachedMiss`, `RunCachedReplay`, `RunCachedOnSaved` and `ReplayReproducesCall` prove a miss writes the entry and the same call then replays it |
| CacheCore.AfterRunCachedAsWritten | src/maurice/patchers/core.py:199-200 | the manager as written: `CacheProperties.StatefulRunAsWrittenRaises` proves a kept state raises `AttributeError` before anything runs, and `StatelessRunAsWrittenAgrees` that without it the run is the corrected one |
| CacheCore.RunCachedMethod | src/maurice/patchers/core.py:266-287 | `run_cached_method` ends and leaves files and attributes as `AfterRunCached` says, and calls the method exactly on a miss |
| CacheCore.CachingMethodWrapperCall | src/maurice/patchers/core.py:290-303 | the installed wrapper behaves exactly as `run_cached_method` |
| CacheProperties.KeyInjective | src/maurice/patchers/core.py:104-115 | under one cache directory, two keys are equal iff module, class, state part, method name and arguments' hash all agree |
| CacheProperties.KeyUnderCacheDir | src/maurice/patchers/core.py:204-215 | a key starts with the cache directory, continues with one level per module-path part, and ends with class, state part, method name and arguments' hash |
| CacheProperties.StatefulAndStatelessKeysDiffer | src/maurice/patchers/core.py:199-200 | a state fingerprint is never the `"_stateless"` sentinel, so the stateful and stateless entries of a call differ |
| CacheProperties.AttrsOfStrDict | src/maurice/patchers/core.py:140-147 | a captured state comes back from its pickle as the same attributes |
| CacheProperties.LoadSaved | src/maurice/patchers/core.py:137-142 | loading an entry holding a result and, when kept, a state restores that state and returns that result |
| CacheProperties.BaseRunIsTheCall | src/maurice/patchers/core.py:58-93 | with the base hooks, `run` calls the method once with the call's arguments and ends as the method does |
| CacheProperties.RunCallsFollowPreHook | src/maurice/patchers/core.py:75-81 | the method is called iff the pre-hook asks for it, with the pre-hook's arguments when it gives some |
| CacheProperties.PostHookDecides | src/maurice/patchers/core.py:83-93 | when the post-hook runs, its value decides the end: a result is returned, `MISSING` raises `RuntimeError`, an exception propagates |
| CacheProperties.NoResultRaises | src/maurice/patchers/core.py:86-91 | when neither the method nor the post-hook runs, `run` raises `RuntimeError` and changes nothing |
| CacheProperties.NoPostHookKeepsCallResult | src/maurice/patchers/core.py:75-93 | without a post-hook, `run` ends as the method does |
| CacheProperties.CachingHit | src/maurice/patchers/core.py:132-142 | on a hit the method is not called and nothing is written; without a kept state, the stored result is returned and the instance is untouched |
| CacheProperties.CachingMiss | src/maurice/patchers/core.py:132-149 | on a miss where the entry can be made, the method is called once, its result is returned, and the entry holds the result and, when kept, the state after the call |
| CacheProperties.CachingReplay | src/maurice/patchers/core.py:132-149 | after such a miss, a run with the same entry is a hit: the stored result is returned, the method is not called, and the stored state is merged in when kept |
| CacheProperties.RunCachedKey | src/maurice/patchers/core.py:198-215 | `run_cached_method` keys the entry by the state before the call |
| CacheProperties.RunCachedUnreadableState | src/maurice/patchers/core.py:192 | a state `_get_state` cannot read makes the call raise before anything is called, written or restored |
| CacheProperties.RunCachedMiss | src/maurice/patchers/core.py:283-287 | a miss calls the method once; its result is returned; the entry holds the result, the state after the call when kept, and the metadata |
| CacheProperties.RunCachedReplay | src/maurice/patchers/core.py:266-287 | the same call from the same state is then a hit: the method is not called again, the stored result is returned, and the stored state is merged in when kept |
| CacheProperties.RunCachedOnSaved | src/maurice/patchers/core.py:279-281 | a call whose entry holds a result and, when kept, a state is a hit that restores the state and returns the result |
| CacheProperties.ReplayReproducesCall | src/maurice/patchers/core.py:266-287 | for a plain object, replaying a kept call reproduces the result and the attributes the call left, when the call removed no attribute |
| CacheProperties.StatefulRunAsWrittenRaises | src/maurice/patchers/core.py:200 | as written, a call that keeps the state raises `AttributeError` before the method runs, and changes nothing |
| CacheProperties.StatelessRunAsWrittenAgrees | src/maurice/patchers/core.py:266-287 | with no kept state, wherever the as-written `_get_state` can read the object, the as-written run is the corrected one |
| LegacyCore.HashAny | maurice/utils.py:7-8 | `hash_any` of a plain value is the newer `hash_anything` of it |
| LegacyCore.LegacyKey | maurice/patchers/core.py:27-45 | the older key; `LegacyCore.LegacyKeyAgainstNewer` proves it the newer key when the state is kept and a different key when it is not |
| LegacyCore.AfterCall | maurice/patchers/core.py:81-84 | `_caching_method_wrapper`: `LegacyCore.LegacyReplay` proves a miss returns the method's result and the same call then hits and restores the stored state |
| LegacyCore.CachingMethodWrapper.constructor | maurice/patchers/core.py:44-45 | the state and result paths are `state.dill` and `result.dill` under the entry |
| LegacyCore.CachingMethodWrapper.RunWrapped | maurice/patchers/core.py:64-78 | `run_wrapped` ends, leaves files and attributes, and calls the method exactly as the newer caching wrapper's `run` for the same entry |
| LegacyCore.CachingMethodWrapper.SaveRun | maurice/patchers/core.py:66-72 | the miss branch writes the directory, the state when kept, then the result, stopping at the first failure |
| LegacyCore.CachingMethodWrapper.LoadRun | maurice/patchers/core.py:73-78 | the hit branch restores the stored state when kept, then loads the result, without calling the method |
| LegacyCore.NewCachingMethodWrapper | maurice/patchers/core.py:27-45 | construction fails iff a kept state cannot be read; otherwise the entry is keyed by `"ignore_state"` or by `hash_any` of the state |
| LegacyCore.CachingMethodWrapperCall | maurice/patchers/core.py:81-84 | the installed wrapper builds a wrapper and runs it |
| LegacyCore.LegacyKeyAgainstNewer | maurice/patchers/core.py:31-43 | when the state is kept, the older and newer wrappers key a call alike; when it is not, their sentinels and keys differ |
| LegacyCore.LegacyReplay | maurice/patchers/core.py:64-84 | a miss returns the method's result; the same call from the same state then hits, returns that result, and restores the stored state when kept |

## Left out

- Python equality across types (`1 == True`, `1 == 1.0`) and the identity test `old is new`: values compare structurally, except markers, which compare by object id.
- The `_seen_ids` check of `_compare_values` (src/maurice/watchdog.py:214-218): it depends on object identity, and values here are trees without sharing. The consequence: CPython shares small integers, `None` and interned strings, so once one pair of such objects has been compared, a later pair with the same two ids is skipped. When attributes `a` and `b` both go from `1` to `2`, the source reports only `a`; the model reports both.
- `copy.deepcopy` and its fallbacks in `_deep_copy_safe`: a snapshot is the value itself, since values are immutable trees. An uncopyable object is modelled as a `_UncopyableMarker` value.
- The iteration order of a Python `set` or dict-key union: the model visits keys in one fixed ascending order. Changes are reported in that order.
- Objects.AfterSetState: assigns the slots of a state in ascending key order, where the source follows the state dict's insertion order. The order matters only for which keys are set before an `AttributeError`: with slots `("a", "b")` and the state `{"b": 1, "x": 2, "a": 3}`, the source sets `b` and raises, and the model sets `a` and `b` and raises. `Objects.AssignSlotsFails` holds for any key order.
- The watchdog's `track`, `wrap`, `decorator`, `TrackedObjectProxy`, `track_changes`, the `__repr__` methods and `main`: these are convenience layers over `call`.
- pandas' row hashing, `combine_hash_arrays`, md5 and `dill.dumps`: these are parameters of the model (`HashEnv`). The model assumes little-endian `uint64` buffers. pandas' hashing never fails here.
- CacheCore.AfterWriteEntry: `dill.dumps` never fails in the caching core. Only `hash_anything` models an object `dill` cannot serialize; the caching core's values are plain trees, so keys, state and result pickles and metadata always serialize. The partial entry left when `dill.dumps(result)` raises after the directory is made (src/maurice/patchers/core.py:238-245), and the `FileNotFoundError` later hits then meet, are not modelled.
- Hashing.HashNumpyArray: models the combined item hashes as one abstract function of the elements.
- JSON encoding of `metadata.json` and `repr`: the metadata is a value tree, and `repr` is a parameter.
- `pathlib` normalisation, and `CACHE_DIR` taken from the working directory: the cache directory is a parameter.
- Python's default `object.__getstate__` (3.11 and later): an object's protocol states whether it has `__getstate__`.
- Watchdog.Snapshot: the `deep` option is read nowhere. With `deep=False` the source's snapshot shares the live attribute objects, so a list or dict the method changes in place is the same on both sides and the change is not reported. The model compares the values as they were, as with `deep=True`, and reports it.
- Logging, and the `wrapt` patching (`patch_method_with_caching`, `patch_method_by_name`, and the scikit-learn, keras and pandas patch modules): these only install the wrappers.
- Subclasses that rewrite `_args` or `_kwargs` in place: other subclasses are modelled by the `PreHookResult` their pre-hook returns and a pure post-hook.
- The fingerprints of numpy or pandas results in the metadata: results are plain values, so the metadata always uses the generic branch.
- CacheCore.AttrsOf: a state pickle that is not a dict with string keys makes the restore raise `TypeError`. In Python, `__setstate__` may accept other states.
- File-system errors other than `FileExistsError`, `FileNotFoundError`, `NotADirectoryError` and `IsADirectoryError` (permissions, a full disk), and concurrent writers.

## Findings

| source | as written | input that shows it | evidently intended | confidence | as-written member | corrected member |
|---|---|---|---|---|---|---|
| src/maurice/patchers/core.py:200 | `MethodCacheManager` calls `self._get_instance_state()` in `state_string` (and `_set_instance_state` and `_get_instance_state` in `read` and `write`, lines 234 and 240). The class does not define them, so with a kept state the first `exists()` raises `AttributeError` before the method runs. Every scikit-learn patch keeps the state. | any call with `save_state=True` on an object with a `__dict__`, e.g. `fit` on a patched estimator | read the state with `_get_state` and restore it with `_set_state`; a miss calls the method, writes the entry, and a replay is a hit | not executed | CacheProperties.StatefulRunAsWrittenRaises | CacheProperties.RunCachedReplay |
| src/maurice/patchers/core.py:161 | `_get_state` calls `copyreg._slotnames()` with no argument, which raises `TypeError`. The branch is reached only before Python 3.11: from 3.11 on every object has `object.__getstate__`, which the first branch takes. There, a slots-only object has no readable state, and the manager's constructor calls `_get_state` even when the state is not kept (line 192). | an object of a class with `__slots__ = ("a",)`, `a` set, no `__dict__` and no `__getstate__` | `copyreg._slotnames(type(obj))`: the state is the dict of set slots | not executed | Objects.SlotsOnlyStateAsWritten | Objects.GetState |
| src/maurice/hashing.py:48 | `hash_pandas_dataframe` always calls `sort_index(axis="columns")`, and `hash_anything` sends every `Series` and `Index` to it. A series has no column axis (`ValueError`), and an index has no `sort_index` (`AttributeError`). | `hash_anything(pd.Series([1, 2]))` or `hash_anything(pd.Index([1, 2]))` | sort the columns of data frames only; a series or an index is hashed by its rows | not executed | Hashing.AsWrittenRejectsOneDimensional | Hashing.HashAnything |

The model also keeps three behaviours of the code:

- Publishing an entry is not atomic. The directory is made first and the files are written one after another (`Store.EntryVisibleBeforeWritten`, `Store.FailedCaptureLeavesPartialEntry`).
- Restoring a state merges it into `__dict__` with `update`, and does not replace it (`Objects.MergeIsRestoreIff`).
- The stateless sentinels are `"_stateless"` (`MethodCacheManager`), `"_ignore_state"` (the newer `CachingMethodWrapper`) and `"ignore_state"` (the older one).
