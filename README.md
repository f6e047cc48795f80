# Duplicate file finder, modelled in Dafny

This project models the `DuplicateFinder` class of a small Python tool. The class scans a directory tree and reports groups of duplicate files. A duplicate is found in one of two ways:

- by content: files with the same MD5 hex digest;
- by name: files with the same bare file name, in any directory.

The model keeps the class's imperative shape:

- `Finder.DuplicateFinder` is a class with the bound `directory`.
- `_hash_file` is a `while` loop. It reads blocks from a `Hashing.BinaryFile` and feeds them to a `Hashing.Hasher`.
- The two finders are nested loops. They update a key → paths map the way the source updates its `defaultdict(list)`, then apply the final filter.

Each method is proved against pure specification functions:

- `Grouping.Accumulate` is the accumulator after a sequence of entries.
- `Grouping.Duplicates` is that accumulator with its singleton groups dropped.
- `Hashing.Chunks` is the sequence of blocks a read loop produces.

These functions are then tied by lemmas to independent reference definitions:

- `Grouping.PathsWithKey` is the walk's paths with a given key, in order.
- `Grouping.KeyCount` is how many walked files have a key.
- `Grouping.KeyIndices` is where those files sit in the walk.
- `Finder.NameEntriesExact` and `Finder.HashEntriesExact` say which walked files produce an entry.

The filesystem is a value of type `Finder.FileSystem` with four oracles:

- `isDir` stands for `os.path.isdir`;
- `isFile` stands for `os.path.isfile`;
- `walk` stands for `os.walk`, given as a sequence of `(dirpath, filenames)` listings;
- `read` gives the bytes of a file opened with `'rb'`.

The MD5 digest is a parameter `md5: seq<byte> -> string`.

The module `Scenarios` rebuilds the repository's test fixture. It proves the exact result of both finders on it, assuming only that the four contents have four different digests.

Two behaviours of the code are worth stating plainly:

- **Read failures.** The code catches no per-file read error: a failing `open` or `read` in `_hash_file` aborts the whole scan. This model has no per-file error path; see "Left out".
- **Non-regular files in name mode.** Only the content mode filters with `os.path.isfile`. The name mode groups every name that `os.walk` lists, and the model does the same.

## Model

| member | source | states |
|---|---|---|
| Finder.Create | src/duplicate_finder.py:11-20 | Construction fails with `ValueError("Directory not found: " + directory)` exactly when the path is not a directory; otherwise it yields a new finder that keeps `directory` unchanged. |
| Finder.DuplicateFinder.constructor | src/duplicate_finder.py:18-20 | For a path that is a directory, the finder stores the path exactly as given. |
| Finder.DuplicateFinder.HashFile | src/duplicate_finder.py:22-39 | A block size below -1 raises `ValueError("read length must be non-negative or -1")`, as the first read does, and nothing else does. Otherwise the blocks fed to the hasher are exactly `Chunks(content, block_size)`, and the result is the digest of their concatenation, which is the digest of the whole file content for any non-zero block size (-1 reads everything in one block). |
| Finder.DuplicateFinder.FindDuplicatesByHash | src/duplicate_finder.py:41-56 | The result is `Duplicates` of the by-content entries of the walk: the accumulator built by the nested loops, filtered to groups of more than one path. |
| Finder.DuplicateFinder.FindDuplicatesByName | src/duplicate_finder.py:58-71 | The result is `Duplicates` of the by-name entries of the walk. |
| Hashing.Hasher.constructor | src/duplicate_finder.py:33 | A fresh accumulator has been fed nothing. |
| Hashing.Hasher.Update | src/duplicate_finder.py:37 | `update(buf)` appends `buf` to the bytes fed so far. |
| Hashing.BinaryFile.constructor | src/duplicate_finder.py:34 | A file opened for reading is positioned at offset 0. |
| Hashing.BinaryFile.Read | src/duplicate_finder.py:35-38 | `read(size)` returns the bytes at the current offset: `size` of them, or fewer at the end, and all the rest for a size of -1. The offset moves past them. |
| Hashing.ReadAt | src/duplicate_finder.py:35-38 | For a size of -1 or more, a read returns a contiguous slice of the content starting at the offset: `size` bytes, fewer at the end of the file, all the rest for -1, and the empty string at the end. |
| Hashing.ChunksCoverContent | src/duplicate_finder.py:35-38 | The blocks read until the first empty read, concatenated in order, are the whole content; a block size of 0 reads nothing. |
| Hashing.ChunksShape | src/duplicate_finder.py:35-38 | Every block fed is non-empty; with a positive block size every block is at most that size and all but the last are exactly that size. |
| Hashing.ChunksStep | src/duplicate_finder.py:35-38 | A non-empty read at an offset is the first block of the rest of the file, and the following blocks start where it ends. |
| Hashing.ReadLoopStep | src/duplicate_finder.py:36-38 | One loop iteration keeps the invariant: the bytes fed are the content up to the offset, and the blocks fed are the leading blocks of `Chunks`. |
| Hashing.ReadLoopDone | src/duplicate_finder.py:36-39 | When the loop stops on an empty read, the blocks fed are all of `Chunks`, and for a non-zero block size the whole file has been read. |
| Hashing.DigestIndependentOfBlockSize | src/duplicate_finder.py:22-39 | Any two non-zero block sizes that a read accepts (-1 or more) give the same digest. |
| Hashing.ConcatAppend | src/duplicate_finder.py:37 | Feeding two runs of blocks one after the other feeds their concatenation. |
| Grouping.KeepDuplicates | src/duplicate_finder.py:56 | The final filter keeps a key exactly when its list holds more than one path, leaves the kept lists unchanged, and so never returns a singleton. |
| Grouping.AccumulateSnoc | src/duplicate_finder.py:55 | Appending one more entry to the walk is one more `defaultdict` append. |
| Grouping.KeyIndices | src/duplicate_finder.py:50-55 | The positions of the entries with key `k`: in range, strictly increasing, and including every such position. |
| Grouping.PathsWithKeyAppend | src/duplicate_finder.py:55 | The reference filter distributes over concatenation of walks. |
| Grouping.PathsWithKeyMembers | src/duplicate_finder.py:52-55 | A path is in the list for `k` exactly when the walk produced that path with key `k`. |
| Grouping.PathsWithKeyCount | src/duplicate_finder.py:50-55 | The list for `k` has one path per walked file with key `k`. |
| Grouping.PathsWithKeyInWalkOrder | src/duplicate_finder.py:55 | The list for `k` is the paths at `KeyIndices(k)`, in increasing walk position: appending preserves discovery order. |
| Grouping.PathsWithKeyEmpty | src/duplicate_finder.py:49-55 | The list for `k` is empty exactly when no walked file has key `k`. |
| Grouping.SumLengthsRemove | src/duplicate_finder.py:49 | The total of the list lengths splits into any one list plus the rest. |
| Grouping.SumLengthsAppendTo | src/duplicate_finder.py:55 | One append adds exactly one path to the total of the list lengths. |
| Grouping.AccumulateIsFilter | src/duplicate_finder.py:49-55 | After the loops, the accumulator has a list exactly for the keys that occur, and that list is the walk's paths with that key in walk order. |
| Grouping.AccumulateTotal | src/duplicate_finder.py:50-55 | After `n` entries, the list lengths sum to `n`: every file lands in exactly one list. |
| Grouping.DuplicatesAreRepeatedKeys | src/duplicate_finder.py:49-56 | A key is in the result exactly when at least two walked files have it; its list is all of them, in walk order, and its length is their number. |
| Grouping.DuplicatesMembers | src/duplicate_finder.py:49-56 | Every reported path was walked with its key, and every file walked with a repeated key is reported under it. |
| Grouping.TwoEntriesRepeatKey | src/duplicate_finder.py:55-56 | Two different walked entries with the same key make that key repeated. |
| Grouping.KeyIndicesAbsent | src/duplicate_finder.py:50-55 | A key no entry has occurs at no position. |
| Grouping.DistinctKeysAtMostOnce | src/duplicate_finder.py:50-55 | When no key repeats, every key occurs at most once. |
| Grouping.DistinctKeysNoDuplicates | src/duplicate_finder.py:49-56 | A walk in which every key is unique, including an empty walk, gives an empty result. |
| Paths.JoinEndsWithName | src/duplicate_finder.py:52 | A joined path ends with the file name joined onto it. |
| Paths.BaseName | src/duplicate_finder.py:69-70 | The base name holds no separator and is a suffix of the path. |
| Paths.JoinBaseName | src/duplicate_finder.py:69-70 | Joining any directory with a plain file name gives a path whose base name is that file name. |
| Paths.BaseNameAfterSep | src/duplicate_finder.py:69 | After a prefix ending in a separator, a plain name is the base name. |
| Finder.ListingNameEntries | src/duplicate_finder.py:68-70 | Each file of a listing gives one by-name entry, keyed by its file name, with the path joined onto its directory, in listing order. |
| Finder.ListingNameEntriesNext | src/duplicate_finder.py:68-70 | The entries of one more file name extend the listing's entries by one. |
| Finder.NameEntriesNext | src/duplicate_finder.py:67-70 | The entries of one more listing extend the walk's entries by that listing's entries. |
| Finder.ListingHashEntriesNext | src/duplicate_finder.py:51-55 | One more file name adds its by-content entry, if any. |
| Finder.HashEntriesNext | src/duplicate_finder.py:50-55 | One more listing adds that listing's by-content entries. |
| Finder.AccumulateNameStep | src/duplicate_finder.py:68-70 | One inner-loop step of the by-name finder appends the file's name entry to the accumulator. |
| Finder.AccumulateHashStep | src/duplicate_finder.py:51-55 | One inner-loop step of the by-content finder appends a regular file's digest entry and leaves the accumulator unchanged for anything else. |
| Finder.ListingHashEntriesAllFiles | src/duplicate_finder.py:51-55 | In a listing of regular files, each name gives one entry keyed by the digest of its content, in order. |
| Finder.NameEntriesExact | src/duplicate_finder.py:67-70 | The by-name entries are exactly the walked files, each keyed by its own name and stored under its joined path. |
| Finder.ListingHashEntriesExact | src/duplicate_finder.py:51-55 | A listing's by-content entries are exactly its regular files, each keyed by the digest of its content. |
| Finder.HashEntriesSound | src/duplicate_finder.py:50-55 | Every by-content entry is the digest entry of some walked regular file. |
| Finder.HashEntriesComplete | src/duplicate_finder.py:50-55 | Every walked regular file gives its digest entry. |
| Finder.HashEntriesExact | src/duplicate_finder.py:50-55 | The walk's by-content entries are exactly its regular files, each keyed by the digest of its content; other files give none. |
| Finder.ByNameGroupsShareName | src/duplicate_finder.py:67-71 | Every path reported under a name is a walked file of that name joined onto its own directory, so that name is its base name. |
| Finder.ByNameSameNameGrouped | src/duplicate_finder.py:67-71 | Two walked files with the same name and different paths are both reported under that name, whatever their contents. |
| Finder.ByHashGroupsShareDigest | src/duplicate_finder.py:50-56 | Every path reported under a digest is a walked regular file whose content has that digest. |
| Finder.ByHashSameContentGrouped | src/duplicate_finder.py:50-56 | Two walked regular files with identical bytes and different paths are both reported under the digest of those bytes, whatever their names. |
| Finder.EmptyWalkNoDuplicates | src/duplicate_finder.py:49-56 | A tree without files gives no entries and an empty result in both modes. |
| Scenarios.FixturePaths | tests/test_duplicate_finder.py:8-18 | The joined paths of the fixture's seven files. |
| Scenarios.FixtureReads | tests/test_duplicate_finder.py:8-18 | The content read from each fixture file. |
| Scenarios.FixtureNameEntries | tests/test_duplicate_finder.py:57-59 | The by-name entries of the fixture walk, in walk order. |
| Scenarios.FixtureNameKeys | tests/test_duplicate_finder.py:57-59 | The keys of the fixture's by-name entries. |
| Scenarios.FixtureNameCounts | tests/test_duplicate_finder.py:62-72 | Only `file1.txt` occurs twice or more by name. |
| Scenarios.NamePatternPaths | tests/test_duplicate_finder.py:62-65 | In any walk of seven names where only the 1st and 6th are equal, the list for that name is the 1st and 6th paths. |
| Scenarios.FixtureNamePaths | tests/test_duplicate_finder.py:62-65 | The paths listed under `file1.txt` are the root copy and then the subdirectory copy. |
| Scenarios.FixtureByName | tests/test_duplicate_finder.py:57-72 | By name, the fixture reports exactly `file1.txt`, with its two paths in walk order. |
| Scenarios.FixtureHashEntries | tests/test_duplicate_finder.py:34-36 | The by-content entries of the fixture walk, in walk order. |
| Scenarios.FixtureHashKeys | tests/test_duplicate_finder.py:34-36 | The digests of the fixture's by-content entries. |
| Scenarios.FixtureHashCounts | tests/test_duplicate_finder.py:42-55 | Only the digests of "content A" and "content B" occur twice or more. |
| Scenarios.HashPatternPaths | tests/test_duplicate_finder.py:42-51 | In any walk whose digests follow the fixture's pattern A, B, A, C, A, D, B (all four different), the list for A is the 1st, 3rd and 5th paths and the list for B is the 2nd and 7th. |
| Scenarios.FixtureHashPaths | tests/test_duplicate_finder.py:42-51 | The fixture's paths listed under the digests of "content A" and "content B". |
| Scenarios.FixtureByHash | tests/test_duplicate_finder.py:34-55 | By content, the fixture reports exactly the three copies of "content A" and the two of "content B", in walk order. |

## Left out

- Filesystem access is not modelled. `os.path.isdir`, `os.path.isfile`, `os.walk` and `open`/`read` are the oracles of a `FileSystem` value, and the walk's order is taken as given. The model does not say how `os.walk` orders directories or names, so every ordering statement is relative to the walk as yielded.
- MD5 is not modelled. `hashlib.md5().hexdigest()` is the parameter `md5`, a function of the whole fed byte string. No claim is made about collisions or digest length. The fixture lemmas assume only that the four fixture contents have different digests.
- `os.path.join` is modelled only as POSIX `posixpath.join` with two arguments.
- Per-file read errors are not modelled. The source does not catch them, and a raise from `open` or `read` would abort the scan. The model's `read` oracle always succeeds.
- There is no parallelism, in the source or here.
- The order of the result's keys is not modelled. The source returns a dict whose keys come in the order each repeated key was first found, and `src/main.py` prints groups in that order. Here the result is a Dafny `map`, which has no key order. The order of the paths within each list is modelled.
- Hashing.ReadAt: requires a size of -1 or more, the sizes a buffered binary read accepts. The `ValueError` for smaller sizes is modelled once, in `Finder.DuplicateFinder.HashFile`, before the first read.
- Hashing.BinaryFile.Read: requires a size of -1 or more, for the same reason; `HashFile` never calls it with a smaller one.
- Hashing.ChunksCoverContent, Hashing.ChunksShape, Hashing.ChunksStep, Hashing.ReadLoopStep, Hashing.ReadLoopDone: these hold for sizes of -1 or more, the domain of `Hashing.Chunks`, because smaller sizes never reach the read loop.
- Hashing.DigestIndependentOfBlockSize: covers only sizes of -1 or more, because for smaller sizes `_hash_file` raises instead of producing a digest.
- Finder.DuplicateFinder.constructor: requires that the path is a directory, because a Dafny constructor cannot fail. The raising behaviour of `__init__` is modelled by `Finder.Create`, which returns a `Result`.
- Finder.DuplicateFinder.FindDuplicatesByHash: its loop invariants do not carry the total of the list lengths. That property is proved separately, about the same accumulator, as `Grouping.AccumulateTotal`.
- Finder.DuplicateFinder.FindDuplicatesByName: as above, the total of the list lengths is proved as `Grouping.AccumulateTotal` rather than carried as a loop invariant.
- `src/main.py` is not part of this model. It is command-line parsing, printing and exit codes.
- The test module's use of temporary directories and `pytest` is not modelled. Its fixture tree and expected results are rebuilt in `Scenarios`.
