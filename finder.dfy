/** The duplicate finder: a scanner bound to a root directory that walks
    the tree and groups its files by content digest or by file name. The
    filesystem is observed through the oracles of a FileSystem value. */
module Finder {
  import opened Paths
  import opened Hashing
  import opened Grouping

  /** One item of os.walk: a directory and the names of the files directly
      in it (the subdirectory names it also yields are not used). */
  datatype Listing = Listing(dirpath: Path, filenames: seq<string>)

  /** The filesystem as the finder observes it. */
  datatype FileSystem = FileSystem(
    isDir: Path -> bool,        // os.path.isdir
    isFile: Path -> bool,       // os.path.isfile
    walk: Path -> seq<Listing>, // os.walk(top), in the order it yields
    read: Path -> seq<byte>)    // the bytes of open(path, 'rb')

  datatype Error = ValueError(message: string)

  datatype Result<T> = Ok(value: T) | Err(error: Error)

  /** The default block_size of _hash_file. */
  const DefaultBlockSize: int := 65536

  /** The message of the ValueError a buffered binary read raises for a
      size below -1. */
  const ReadLengthMessage: string := "read length must be non-negative or -1"

  // ---------------------------------------------------------------------
  // The entries each mode derives from a walk

  /** By-name entries of one listing: each file keyed by its bare name. */
  function ListingNameEntries(dirpath: Path, names: seq<string>): (es: seq<Entry>)
    ensures |es| == |names|
    ensures forall m :: 0 <= m < |names| ==> es[m] == Entry(names[m], Join(dirpath, names[m]))
  {
    if names == [] then []
    else
      var name := names[|names| - 1];
      ListingNameEntries(dirpath, names[..|names| - 1]) + [Entry(name, Join(dirpath, name))]
  }

  /** By-name entries of a walk, in walk order. */
  function NameEntries(w: seq<Listing>): seq<Entry>
  {
    if w == [] then []
    else NameEntries(w[..|w| - 1]) + ListingNameEntries(w[|w| - 1].dirpath, w[|w| - 1].filenames)
  }

  /** The by-content entry of one walked file: none unless it is a regular
      file, and keyed by the digest of its whole content otherwise. */
  function HashEntry(fs: FileSystem, md5: Digest, dirpath: Path, name: string): seq<Entry>
  {
    var path := Join(dirpath, name);
    if fs.isFile(path) then [Entry(md5(fs.read(path)), path)] else []
  }

  /** By-content entries of one listing. */
  function ListingHashEntries(fs: FileSystem, md5: Digest, dirpath: Path, names: seq<string>): seq<Entry>
  {
    if names == [] then []
    else ListingHashEntries(fs, md5, dirpath, names[..|names| - 1]) + HashEntry(fs, md5, dirpath, names[|names| - 1])
  }

  /** By-content entries of a walk, in walk order. */
  function HashEntries(fs: FileSystem, md5: Digest, w: seq<Listing>): seq<Entry>
  {
    if w == [] then []
    else HashEntries(fs, md5, w[..|w| - 1]) + ListingHashEntries(fs, md5, w[|w| - 1].dirpath, w[|w| - 1].filenames)
  }

  lemma ListingNameEntriesNext(dirpath: Path, names: seq<string>, j: nat)
    requires j < |names|
    ensures ListingNameEntries(dirpath, names[..j + 1])
         == ListingNameEntries(dirpath, names[..j]) + [Entry(names[j], Join(dirpath, names[j]))]
  {
    assert names[..j + 1][..j] == names[..j];
  }

  lemma NameEntriesNext(w: seq<Listing>, i: nat)
    requires i < |w|
    ensures NameEntries(w[..i + 1]) == NameEntries(w[..i]) + ListingNameEntries(w[i].dirpath, w[i].filenames)
  {
    assert w[..i + 1][..i] == w[..i];
  }

  lemma ListingHashEntriesNext(fs: FileSystem, md5: Digest, dirpath: Path, names: seq<string>, j: nat)
    requires j < |names|
    ensures ListingHashEntries(fs, md5, dirpath, names[..j + 1])
         == ListingHashEntries(fs, md5, dirpath, names[..j]) + HashEntry(fs, md5, dirpath, names[j])
  {
    assert names[..j + 1][..j] == names[..j];
  }

  lemma HashEntriesNext(fs: FileSystem, md5: Digest, w: seq<Listing>, i: nat)
    requires i < |w|
    ensures HashEntries(fs, md5, w[..i + 1])
         == HashEntries(fs, md5, w[..i]) + ListingHashEntries(fs, md5, w[i].dirpath, w[i].filenames)
  {
    assert w[..i + 1][..i] == w[..i];
  }

  /** One step of the by-name inner loop: the next file appends its
      by-name entry to the accumulator. */
  lemma AccumulateNameStep(done: seq<Entry>, dirpath: Path, names: seq<string>, j: nat)
    requires j < |names|
    ensures Accumulate(done + ListingNameEntries(dirpath, names[..j + 1]))
         == AppendTo(Accumulate(done + ListingNameEntries(dirpath, names[..j])), Entry(names[j], Join(dirpath, names[j])))
  {
    var before := done + ListingNameEntries(dirpath, names[..j]);
    ListingNameEntriesNext(dirpath, names, j);
    assert done + ListingNameEntries(dirpath, names[..j + 1]) == before + [Entry(names[j], Join(dirpath, names[j]))];
    AccumulateSnoc(before, Entry(names[j], Join(dirpath, names[j])));
  }

  /** One step of the by-content inner loop: a regular file appends its
      digest entry to the accumulator; anything else leaves it unchanged. */
  lemma AccumulateHashStep(fs: FileSystem, md5: Digest, done: seq<Entry>, dirpath: Path, names: seq<string>, j: nat)
    requires j < |names|
    ensures var path := Join(dirpath, names[j]);
      var before := Accumulate(done + ListingHashEntries(fs, md5, dirpath, names[..j]));
      Accumulate(done + ListingHashEntries(fs, md5, dirpath, names[..j + 1]))
        == if fs.isFile(path) then AppendTo(before, Entry(md5(fs.read(path)), path)) else before
  {
    var path := Join(dirpath, names[j]);
    var before := done + ListingHashEntries(fs, md5, dirpath, names[..j]);
    ListingHashEntriesNext(fs, md5, dirpath, names, j);
    if fs.isFile(path) {
      assert done + ListingHashEntries(fs, md5, dirpath, names[..j + 1]) == before + [Entry(md5(fs.read(path)), path)];
      AccumulateSnoc(before, Entry(md5(fs.read(path)), path));
    } else {
      assert done + ListingHashEntries(fs, md5, dirpath, names[..j + 1]) == before + [];
      assert before + [] == before;
    }
  }

  /** In a listing whose names are all regular files, every name gives
      one by-content entry, in order. */
  lemma {:induction false} ListingHashEntriesAllFiles(fs: FileSystem, md5: Digest, dirpath: Path, names: seq<string>)
    requires forall j :: 0 <= j < |names| ==> fs.isFile(Join(dirpath, names[j]))
    ensures |ListingHashEntries(fs, md5, dirpath, names)| == |names|
    ensures forall m :: 0 <= m < |names| ==>
      ListingHashEntries(fs, md5, dirpath, names)[m] == Entry(md5(fs.read(Join(dirpath, names[m]))), Join(dirpath, names[m]))
    decreases |names|
  {
    if names != [] {
      ListingHashEntriesAllFiles(fs, md5, dirpath, names[..|names| - 1]);
    }
  }

  // ---------------------------------------------------------------------
  // What the entries of a walk are

  /** Position `(i, j)` names the `j`-th file listed in the `i`-th directory
      of the walk. */
  predicate IsFileOf(w: seq<Listing>, i: int, j: int)
  {
    0 <= i < |w| && 0 <= j < |w[i].filenames|
  }

  /** The joined path of the file at position `(i, j)`. */
  function PathAt(w: seq<Listing>, i: int, j: int): Path
    requires IsFileOf(w, i, j)
  {
    Join(w[i].dirpath, w[i].filenames[j])
  }

  /** By-name entries are exactly the walked files, each keyed by its own
      file name and stored under the path joined from its directory. */
  lemma {:induction false} NameEntriesExact(w: seq<Listing>, e: Entry)
    ensures e in NameEntries(w) <==>
      exists i, j :: IsFileOf(w, i, j) && e == Entry(w[i].filenames[j], PathAt(w, i, j))
    decreases |w|
  {
    if w != [] {
      var init, last := w[..|w| - 1], w[|w| - 1];
      NameEntriesExact(init, e);
      var tail := ListingNameEntries(last.dirpath, last.filenames);
      if e in tail {
        var j :| 0 <= j < |tail| && tail[j] == e;
        assert IsFileOf(w, |w| - 1, j);
      }
      if exists i, j :: IsFileOf(w, i, j) && e == Entry(w[i].filenames[j], PathAt(w, i, j)) {
        var i, j :| IsFileOf(w, i, j) && e == Entry(w[i].filenames[j], PathAt(w, i, j));
        if i < |w| - 1 {
          assert IsFileOf(init, i, j) && PathAt(init, i, j) == PathAt(w, i, j);
        } else {
          assert tail[j] == e;
        }
      }
    }
  }

  /** `e` is the by-content entry of the regular file at `path`. */
  ghost predicate HashedAs(fs: FileSystem, md5: Digest, path: Path, e: Entry)
  {
    fs.isFile(path) && e == Entry(md5(fs.read(path)), path)
  }

  lemma {:induction false} ListingHashEntriesExact(fs: FileSystem, md5: Digest, dirpath: Path, names: seq<string>, e: Entry)
    ensures e in ListingHashEntries(fs, md5, dirpath, names) <==>
      exists j :: 0 <= j < |names| && HashedAs(fs, md5, Join(dirpath, names[j]), e)
    decreases |names|
  {
    if names != [] {
      var init, name := names[..|names| - 1], names[|names| - 1];
      ListingHashEntriesExact(fs, md5, dirpath, init, e);
      assert e in HashEntry(fs, md5, dirpath, name) <==> HashedAs(fs, md5, Join(dirpath, name), e);
      if exists j :: 0 <= j < |init| && HashedAs(fs, md5, Join(dirpath, init[j]), e) {
        var j :| 0 <= j < |init| && HashedAs(fs, md5, Join(dirpath, init[j]), e);
        assert names[j] == init[j];
      }
      if exists j :: 0 <= j < |names| && HashedAs(fs, md5, Join(dirpath, names[j]), e) {
        var j :| 0 <= j < |names| && HashedAs(fs, md5, Join(dirpath, names[j]), e);
        if j < |init| {
          assert init[j] == names[j];
        }
      }
    }
  }

  /** Every by-content entry comes from a walked regular file. */
  lemma {:induction false} HashEntriesSound(fs: FileSystem, md5: Digest, w: seq<Listing>, e: Entry)
    requires e in HashEntries(fs, md5, w)
    ensures exists i, j :: IsFileOf(w, i, j) && HashedAs(fs, md5, PathAt(w, i, j), e)
    decreases |w|
  {
    var init, last := w[..|w| - 1], w[|w| - 1];
    if e in HashEntries(fs, md5, init) {
      HashEntriesSound(fs, md5, init, e);
      var i, j :| IsFileOf(init, i, j) && HashedAs(fs, md5, PathAt(init, i, j), e);
      assert init[i] == w[i];
      assert IsFileOf(w, i, j) && PathAt(w, i, j) == PathAt(init, i, j);
    } else {
      ListingHashEntriesExact(fs, md5, last.dirpath, last.filenames, e);
      var j :| 0 <= j < |last.filenames| && HashedAs(fs, md5, Join(last.dirpath, last.filenames[j]), e);
      assert IsFileOf(w, |w| - 1, j) && PathAt(w, |w| - 1, j) == Join(last.dirpath, last.filenames[j]);
    }
  }

  /** Every walked regular file gives its by-content entry. */
  lemma {:induction false} HashEntriesComplete(fs: FileSystem, md5: Digest, w: seq<Listing>, i: int, j: int, e: Entry)
    requires IsFileOf(w, i, j) && HashedAs(fs, md5, PathAt(w, i, j), e)
    ensures e in HashEntries(fs, md5, w)
    decreases |w|
  {
    var init, last := w[..|w| - 1], w[|w| - 1];
    if i < |w| - 1 {
      assert init[i] == w[i];
      HashEntriesComplete(fs, md5, init, i, j, e);
    } else {
      ListingHashEntriesExact(fs, md5, last.dirpath, last.filenames, e);
    }
  }

  /** By-content entries are exactly the walked files that are regular
      files, each keyed by the digest of its content. */
  lemma HashEntriesExact(fs: FileSystem, md5: Digest, w: seq<Listing>, e: Entry)
    ensures e in HashEntries(fs, md5, w) <==>
      exists i, j :: IsFileOf(w, i, j) && HashedAs(fs, md5, PathAt(w, i, j), e)
  {
    if e in HashEntries(fs, md5, w) {
      HashEntriesSound(fs, md5, w, e);
    }
    if exists i, j :: IsFileOf(w, i, j) && HashedAs(fs, md5, PathAt(w, i, j), e) {
      var i, j :| IsFileOf(w, i, j) && HashedAs(fs, md5, PathAt(w, i, j), e);
      HashEntriesComplete(fs, md5, w, i, j, e);
    }
  }

  /** Every file name the walk lists is a bare name (os.walk never lists a
      name with a separator in it). */
  ghost predicate PlainNames(w: seq<Listing>)
  {
    forall i, j :: IsFileOf(w, i, j) ==> IsPlainName(w[i].filenames[j])
  }

  // ---------------------------------------------------------------------
  // What the finders report

  /** By name: every path reported under `name` is a walked file of that
      name joined onto its own directory, so `name` is its base name; the
      directory plays no part in the key. */
  lemma ByNameGroupsShareName(w: seq<Listing>, name: string, p: Path)
    requires name in Duplicates(NameEntries(w)) && p in Duplicates(NameEntries(w))[name]
    ensures exists i, j :: IsFileOf(w, i, j) && w[i].filenames[j] == name && p == PathAt(w, i, j)
    ensures PlainNames(w) ==> BaseName(p) == name
  {
    DuplicatesMembers(NameEntries(w), name, p);
    NameEntriesExact(w, Entry(name, p));
    var i, j :| IsFileOf(w, i, j) && Entry(name, p) == Entry(w[i].filenames[j], PathAt(w, i, j));
    if PlainNames(w) {
      JoinBaseName(w[i].dirpath, name);
    }
  }

  /** By name: two walked files with the same name and different paths are
      both reported under that name, whatever their contents. */
  lemma ByNameSameNameGrouped(w: seq<Listing>, i1: int, j1: int, i2: int, j2: int)
    requires IsFileOf(w, i1, j1) && IsFileOf(w, i2, j2)
    requires w[i1].filenames[j1] == w[i2].filenames[j2]
    requires PathAt(w, i1, j1) != PathAt(w, i2, j2)
    ensures var name, r := w[i1].filenames[j1], Duplicates(NameEntries(w));
      name in r && PathAt(w, i1, j1) in r[name] && PathAt(w, i2, j2) in r[name]
  {
    var name, es := w[i1].filenames[j1], NameEntries(w);
    var e1, e2 := Entry(name, PathAt(w, i1, j1)), Entry(name, PathAt(w, i2, j2));
    NameEntriesExact(w, e1);
    NameEntriesExact(w, e2);
    TwoEntriesRepeatKey(es, e1, e2);
    DuplicatesMembers(es, name, e1.path);
    DuplicatesMembers(es, name, e2.path);
  }

  /** By content: every path reported under digest `h` is a walked regular
      file whose content has digest `h`. */
  lemma ByHashGroupsShareDigest(fs: FileSystem, md5: Digest, w: seq<Listing>, h: string, p: Path)
    requires h in Duplicates(HashEntries(fs, md5, w)) && p in Duplicates(HashEntries(fs, md5, w))[h]
    ensures fs.isFile(p) && md5(fs.read(p)) == h
    ensures exists i, j :: IsFileOf(w, i, j) && p == PathAt(w, i, j)
  {
    DuplicatesMembers(HashEntries(fs, md5, w), h, p);
    HashEntriesExact(fs, md5, w, Entry(h, p));
  }

  /** By content: two walked regular files with identical bytes and
      different paths are both reported under the digest of those bytes,
      whatever their names. */
  lemma ByHashSameContentGrouped(fs: FileSystem, md5: Digest, w: seq<Listing>, i1: int, j1: int, i2: int, j2: int)
    requires IsFileOf(w, i1, j1) && IsFileOf(w, i2, j2)
    requires fs.isFile(PathAt(w, i1, j1)) && fs.isFile(PathAt(w, i2, j2))
    requires fs.read(PathAt(w, i1, j1)) == fs.read(PathAt(w, i2, j2))
    requires PathAt(w, i1, j1) != PathAt(w, i2, j2)
    ensures var h, r := md5(fs.read(PathAt(w, i1, j1))), Duplicates(HashEntries(fs, md5, w));
      h in r && PathAt(w, i1, j1) in r[h] && PathAt(w, i2, j2) in r[h]
  {
    var h, es := md5(fs.read(PathAt(w, i1, j1))), HashEntries(fs, md5, w);
    var e1, e2 := Entry(h, PathAt(w, i1, j1)), Entry(h, PathAt(w, i2, j2));
    assert HashedAs(fs, md5, e1.path, e1) && HashedAs(fs, md5, e2.path, e2);
    HashEntriesExact(fs, md5, w, e1);
    HashEntriesExact(fs, md5, w, e2);
    TwoEntriesRepeatKey(es, e1, e2);
    DuplicatesMembers(es, h, e1.path);
    DuplicatesMembers(es, h, e2.path);
  }

  /** Scanning a tree without files reports nothing, in either mode. */
  lemma {:induction false} EmptyWalkNoDuplicates(fs: FileSystem, md5: Digest, w: seq<Listing>)
    requires forall i :: 0 <= i < |w| ==> w[i].filenames == []
    ensures NameEntries(w) == [] && Duplicates(NameEntries(w)) == map[]
    ensures HashEntries(fs, md5, w) == [] && Duplicates(HashEntries(fs, md5, w)) == map[]
    decreases |w|
  {
    if w != [] {
      EmptyWalkNoDuplicates(fs, md5, w[..|w| - 1]);
    }
  }

  // ---------------------------------------------------------------------
  // The scanner

  class DuplicateFinder {
    /** The root directory, exactly as given. */
    const directory: Path

    /** Binding to a root that is a directory; Create is the checked entry
        point that raises otherwise. */
    constructor (directory: Path, fs: FileSystem)
      requires fs.isDir(directory)
      ensures this.directory == directory
    {
      this.directory := directory;
    }

    /** _hash_file: reads the file in blocks of `blockSize` bytes until a
        read comes back empty, feeding each block to the digest accumulator.
        The first read raises ValueError for a size below -1, which Python's
        buffered binary reader refuses. `chunks` are the blocks fed, in
        order. */
    method HashFile(fs: FileSystem, filepath: Path, blockSize: int, md5: Digest)
      returns (r: Result<string>, ghost chunks: seq<seq<byte>>)
      ensures r.Err? <==> blockSize < -1
      ensures r.Err? ==> r.error == ValueError(ReadLengthMessage) && chunks == []
      ensures r.Ok? ==> chunks == Chunks(fs.read(filepath), blockSize)
      ensures r.Ok? ==> r.value == md5(Concat(chunks))
      ensures r.Ok? ==> r.value == md5(if blockSize == 0 then [] else fs.read(filepath))
    {
      if blockSize < -1 {
        chunks := [];
        return Err(ValueError(ReadLengthMessage)), chunks;
      }
      var hasher := new Hasher(md5);
      var f := new BinaryFile(fs.read(filepath));
      ghost var content := f.content;
      ghost var start: nat := 0;
      chunks := [];
      var buf := f.Read(blockSize);
      while |buf| > 0
        invariant f.Valid() && f.content == content
        invariant start <= |content| && f.pos == start + |buf|
        invariant buf == ReadAt(content, start, blockSize)
        invariant hasher.digest == md5
        invariant hasher.fed == content[..start]
        invariant Concat(chunks) == content[..start]
        invariant chunks + Chunks(content[start..], blockSize) == Chunks(content, blockSize)
        decreases |content| - start
      {
        ReadLoopStep(content, blockSize, start, chunks);
        hasher.Update(buf);
        chunks := chunks + [buf];
        start := start + |buf|;
        buf := f.Read(blockSize);
      }
      ReadLoopDone(content, blockSize, start, chunks);
      ChunksCoverContent(content, blockSize);
      r := Ok(hasher.HexDigest());
    }

    /** find_duplicates_by_hash: every regular file of the walk is hashed
        and appended under its digest; singleton groups are dropped. */
    method FindDuplicatesByHash(fs: FileSystem, md5: Digest) returns (r: Groups)
      ensures r == Duplicates(HashEntries(fs, md5, fs.walk(directory)))
    {
      var walk := fs.walk(directory);
      var hashes: Groups := map[];
      var i := 0;
      while i < |walk|
        invariant 0 <= i <= |walk|
        invariant hashes == Accumulate(HashEntries(fs, md5, walk[..i]))
      {
        var dirpath, filenames := walk[i].dirpath, walk[i].filenames;
        ghost var done := HashEntries(fs, md5, walk[..i]);
        var j := 0;
        assert filenames[..0] == [] && done + [] == done;
        while j < |filenames|
          invariant 0 <= j <= |filenames|
          invariant hashes == Accumulate(done + ListingHashEntries(fs, md5, dirpath, filenames[..j]))
        {
          var filename := filenames[j];
          var filepath := Join(dirpath, filename);
          AccumulateHashStep(fs, md5, done, dirpath, filenames, j);
          if fs.isFile(filepath) {
            var hashed;
            ghost var fed;
            hashed, fed := HashFile(fs, filepath, DefaultBlockSize, md5);
            hashes := AppendTo(hashes, Entry(hashed.value, filepath));
          }
          j := j + 1;
        }
        assert filenames[..j] == filenames;
        HashEntriesNext(fs, md5, walk, i);
        i := i + 1;
      }
      assert walk[..i] == walk;
      r := KeepDuplicates(hashes);
    }

    /** find_duplicates_by_name: every file of the walk is appended under
        its bare name; singleton groups are dropped. */
    method FindDuplicatesByName(fs: FileSystem) returns (r: Groups)
      ensures r == Duplicates(NameEntries(fs.walk(directory)))
    {
      var walk := fs.walk(directory);
      var names: Groups := map[];
      var i := 0;
      while i < |walk|
        invariant 0 <= i <= |walk|
        invariant names == Accumulate(NameEntries(walk[..i]))
      {
        var dirpath, files := walk[i].dirpath, walk[i].filenames;
        ghost var done := NameEntries(walk[..i]);
        var j := 0;
        assert files[..0] == [] && done + [] == done;
        while j < |files|
          invariant 0 <= j <= |files|
          invariant names == Accumulate(done + ListingNameEntries(dirpath, files[..j]))
        {
          var filename := files[j];
          var filepath := Join(dirpath, filename);
          AccumulateNameStep(done, dirpath, files, j);
          names := AppendTo(names, Entry(filename, filepath));
          j := j + 1;
        }
        assert files[..j] == files;
        NameEntriesNext(walk, i);
        i := i + 1;
      }
      assert walk[..i] == walk;
      r := KeepDuplicates(names);
    }
  }

  /** DuplicateFinder(directory): raises ValueError("Directory not found: ...")
      unless the path is a directory, and otherwise keeps it unchanged. */
  method Create(directory: Path, fs: FileSystem) returns (r: Result<DuplicateFinder>)
    ensures r.Err? <==> !fs.isDir(directory)
    ensures r.Err? ==> r.error == ValueError("Directory not found: " + directory)
    ensures r.Ok? ==> fresh(r.value) && r.value.directory == directory
  {
    if !fs.isDir(directory) {
      return Err(ValueError("Directory not found: " + directory));
    }
    var finder := new DuplicateFinder(directory, fs);
    return Ok(finder);
  }
}
