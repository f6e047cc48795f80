/** The tree of the repository's test fixture, and what each mode reports
    for it: a root holding file1.txt ("content A"), file2.txt ("content B"),
    file3.txt ("content A"), file4.txt ("content C") and file1_copy.txt
    ("content A"), and a subdirectory holding file1.txt ("content D") and
    file5.txt ("content B"). */
module Scenarios {
  import opened Paths
  import opened Hashing
  import opened Grouping
  import opened Finder

  const Root: Path := "/tmp/t"
  const Sub: Path := "/tmp/t/subdir"

  /** The bytes of an ASCII text, as write_text stores it. */
  function Ascii(s: string): (b: seq<byte>)
    requires forall i :: 0 <= i < |s| ==> s[i] as int < 256
    ensures |b| == |s| && forall i :: 0 <= i < |s| ==> b[i] as int == s[i] as int
  {
    seq(|s|, i requires 0 <= i < |s| => s[i] as int as byte)
  }

  const ContentA: seq<byte> := Ascii("content A")
  const ContentB: seq<byte> := Ascii("content B")
  const ContentC: seq<byte> := Ascii("content C")
  const ContentD: seq<byte> := Ascii("content D")

  /** What os.walk yields for the fixture tree (in one possible order). */
  function FixtureWalk(): seq<Listing>
  {
    [ Listing(Root, ["file1.txt", "file2.txt", "file3.txt", "file4.txt", "file1_copy.txt"]),
      Listing(Sub, ["file1.txt", "file5.txt"]) ]
  }

  /** The content of each fixture file. */
  function FixtureContent(p: Path): seq<byte>
  {
    if p == "/tmp/t/file1.txt" || p == "/tmp/t/file3.txt" || p == "/tmp/t/file1_copy.txt" then ContentA
    else if p == "/tmp/t/file2.txt" || p == "/tmp/t/subdir/file5.txt" then ContentB
    else if p == "/tmp/t/file4.txt" then ContentC
    else if p == "/tmp/t/subdir/file1.txt" then ContentD
    else []
  }

  /** The fixture tree: two directories, and every walked name a regular file. */
  function FixtureFs(): FileSystem
  {
    FileSystem(
      p => p == Root || p == Sub,
      p => p != Root && p != Sub,
      p => if p == Root then FixtureWalk() else [],
      FixtureContent)
  }

  /** os.path.join on the fixture's names. */
  lemma FixturePaths()
    ensures Join(Root, "file1.txt") == "/tmp/t/file1.txt"
    ensures Join(Root, "file2.txt") == "/tmp/t/file2.txt"
    ensures Join(Root, "file3.txt") == "/tmp/t/file3.txt"
    ensures Join(Root, "file4.txt") == "/tmp/t/file4.txt"
    ensures Join(Root, "file1_copy.txt") == "/tmp/t/file1_copy.txt"
    ensures Join(Sub, "file1.txt") == "/tmp/t/subdir/file1.txt"
    ensures Join(Sub, "file5.txt") == "/tmp/t/subdir/file5.txt"
  {
  }

  /** The content read from each walked fixture file. */
  lemma FixtureReads()
    ensures FixtureContent(Join(Root, "file1.txt")) == ContentA
    ensures FixtureContent(Join(Root, "file2.txt")) == ContentB
    ensures FixtureContent(Join(Root, "file3.txt")) == ContentA
    ensures FixtureContent(Join(Root, "file4.txt")) == ContentC
    ensures FixtureContent(Join(Root, "file1_copy.txt")) == ContentA
    ensures FixtureContent(Join(Sub, "file1.txt")) == ContentD
    ensures FixtureContent(Join(Sub, "file5.txt")) == ContentB
  {
    FixturePaths();
  }

  // ---------------------------------------------------------------------
  // By name

  /** The fixture's files, in walk order, as by-name entries. */
  lemma FixtureNameEntries()
    ensures NameEntries(FixtureWalk()) == [
      Entry("file1.txt", Join(Root, "file1.txt")),
      Entry("file2.txt", Join(Root, "file2.txt")),
      Entry("file3.txt", Join(Root, "file3.txt")),
      Entry("file4.txt", Join(Root, "file4.txt")),
      Entry("file1_copy.txt", Join(Root, "file1_copy.txt")),
      Entry("file1.txt", Join(Sub, "file1.txt")),
      Entry("file5.txt", Join(Sub, "file5.txt"))]
  {
    var w := FixtureWalk();
    assert w[..1][..0] == [];
    assert w[..2][..1] == w[..1];
    assert w[..2] == w;
  }

  lemma FixtureNameKeys()
    ensures KeysOf(NameEntries(FixtureWalk()))
         == ["file1.txt", "file2.txt", "file3.txt", "file4.txt", "file1_copy.txt", "file1.txt", "file5.txt"]
  {
    FixtureNameEntries();
  }

  lemma FixtureNameCounts(k: string)
    ensures KeyCount(NameEntries(FixtureWalk()), k) >= 2 <==> k == "file1.txt"
  {
    FixtureNameKeys();
  }

  /** The list for the repeated name in any walk with the fixture's pattern
      of names, taken straight from the reference filter. */
  lemma NamePatternPaths(es: seq<Entry>, n: seq<string>, p: seq<Path>)
    requires |n| == 7 && |p| == 7
    requires n[5] == n[0] && n[1] != n[0] && n[2] != n[0] && n[3] != n[0] && n[4] != n[0] && n[6] != n[0]
    requires es == [Entry(n[0], p[0]), Entry(n[1], p[1]), Entry(n[2], p[2]), Entry(n[3], p[3]),
                    Entry(n[4], p[4]), Entry(n[5], p[5]), Entry(n[6], p[6])]
    ensures PathsWithKey(es, n[0]) == [p[0], p[5]]
  {
    var k := n[0];
    var s6 := [Entry(n[6], p[6])];
    var s5 := [Entry(n[5], p[5])] + s6;
    var s4 := [Entry(n[4], p[4])] + s5;
    var s3 := [Entry(n[3], p[3])] + s4;
    var s2 := [Entry(n[2], p[2])] + s3;
    var s1 := [Entry(n[1], p[1])] + s2;
    assert s6[1..] == [] && s5[1..] == s6 && s4[1..] == s5 && s3[1..] == s4;
    assert s2[1..] == s3 && s1[1..] == s2 && es[1..] == s1;
    assert PathsWithKey(s6, k) == [];
    assert PathsWithKey(s5, k) == [p[5]];
    assert PathsWithKey(s4, k) == [p[5]];
    assert PathsWithKey(s3, k) == [p[5]];
    assert PathsWithKey(s2, k) == [p[5]];
    assert PathsWithKey(s1, k) == [p[5]];
  }

  lemma FixtureNamePaths()
    ensures PathsWithKey(NameEntries(FixtureWalk()), "file1.txt") == [Join(Root, "file1.txt"), Join(Sub, "file1.txt")]
  {
    FixtureNameEntries();
    var n := ["file1.txt", "file2.txt", "file3.txt", "file4.txt", "file1_copy.txt", "file1.txt", "file5.txt"];
    var p := [Join(Root, n[0]), Join(Root, n[1]), Join(Root, n[2]), Join(Root, n[3]),
              Join(Root, n[4]), Join(Sub, n[5]), Join(Sub, n[6])];
    NamePatternPaths(NameEntries(FixtureWalk()), n, p);
  }

  /** By name, only file1.txt repeats: once in the root, once in the
      subdirectory; file1_copy.txt and the other names stay unreported. */
  lemma FixtureByName()
    ensures Duplicates(NameEntries(FixtureWalk()))
         == map["file1.txt" := ["/tmp/t/file1.txt", "/tmp/t/subdir/file1.txt"]]
  {
    var es := NameEntries(FixtureWalk());
    var r := Duplicates(es);
    forall k
      ensures k in r <==> k == "file1.txt"
    {
      DuplicatesAreRepeatedKeys(es, k);
      FixtureNameCounts(k);
    }
    DuplicatesAreRepeatedKeys(es, "file1.txt");
    FixtureNamePaths();
    FixturePaths();
    assert r.Keys == {"file1.txt"};
  }

  // ---------------------------------------------------------------------
  // By content

  /** The four contents have four different digests. */
  predicate DistinctDigests(md5: Digest)
  {
    && md5(ContentA) != md5(ContentB) && md5(ContentA) != md5(ContentC) && md5(ContentA) != md5(ContentD)
    && md5(ContentB) != md5(ContentC) && md5(ContentB) != md5(ContentD) && md5(ContentC) != md5(ContentD)
  }

  /** The fixture's files, in walk order, as by-content entries. */
  lemma FixtureHashEntries(md5: Digest)
    ensures HashEntries(FixtureFs(), md5, FixtureWalk()) == [
      Entry(md5(ContentA), Join(Root, "file1.txt")),
      Entry(md5(ContentB), Join(Root, "file2.txt")),
      Entry(md5(ContentA), Join(Root, "file3.txt")),
      Entry(md5(ContentC), Join(Root, "file4.txt")),
      Entry(md5(ContentA), Join(Root, "file1_copy.txt")),
      Entry(md5(ContentD), Join(Sub, "file1.txt")),
      Entry(md5(ContentB), Join(Sub, "file5.txt"))]
  {
    var w, fs := FixtureWalk(), FixtureFs();
    FixtureReads();
    FixturePaths();
    ListingHashEntriesAllFiles(fs, md5, Root, w[0].filenames);
    ListingHashEntriesAllFiles(fs, md5, Sub, w[1].filenames);
    assert w[..1][..0] == [];
    assert w[..2][..1] == w[..1];
    assert w[..2] == w;
  }

  lemma FixtureHashKeys(md5: Digest)
    ensures KeysOf(HashEntries(FixtureFs(), md5, FixtureWalk()))
         == [md5(ContentA), md5(ContentB), md5(ContentA), md5(ContentC), md5(ContentA), md5(ContentD), md5(ContentB)]
  {
    FixtureHashEntries(md5);
  }

  lemma FixtureHashCounts(md5: Digest, k: string)
    requires DistinctDigests(md5)
    ensures KeyCount(HashEntries(FixtureFs(), md5, FixtureWalk()), k) >= 2 <==> k == md5(ContentA) || k == md5(ContentB)
  {
    FixtureHashKeys(md5);
  }

  /** The per-digest lists for any walk with the fixture's pattern of
      digests, taken straight from the reference filter. */
  lemma HashPatternPaths(es: seq<Entry>, a: string, b: string, c: string, d: string, p: seq<Path>)
    requires a != b && a != c && a != d && b != c && b != d && c != d
    requires |p| == 7
    requires es == [Entry(a, p[0]), Entry(b, p[1]), Entry(a, p[2]), Entry(c, p[3]),
                    Entry(a, p[4]), Entry(d, p[5]), Entry(b, p[6])]
    ensures PathsWithKey(es, a) == [p[0], p[2], p[4]]
    ensures PathsWithKey(es, b) == [p[1], p[6]]
  {
    var s6 := [Entry(b, p[6])];
    var s5 := [Entry(d, p[5])] + s6;
    var s4 := [Entry(a, p[4])] + s5;
    var s3 := [Entry(c, p[3])] + s4;
    var s2 := [Entry(a, p[2])] + s3;
    var s1 := [Entry(b, p[1])] + s2;
    assert s6[1..] == [] && s5[1..] == s6 && s4[1..] == s5 && s3[1..] == s4;
    assert s2[1..] == s3 && s1[1..] == s2 && es[1..] == s1;
    assert PathsWithKey(s6, a) == [] && PathsWithKey(s6, b) == [p[6]];
    assert PathsWithKey(s5, a) == [] && PathsWithKey(s5, b) == [p[6]];
    assert PathsWithKey(s4, a) == [p[4]] && PathsWithKey(s4, b) == [p[6]];
    assert PathsWithKey(s3, a) == [p[4]] && PathsWithKey(s3, b) == [p[6]];
    assert PathsWithKey(s2, a) == [p[2], p[4]] && PathsWithKey(s2, b) == [p[6]];
    assert PathsWithKey(s1, a) == [p[2], p[4]] && PathsWithKey(s1, b) == [p[1], p[6]];
  }

  lemma FixtureHashPaths(md5: Digest)
    requires DistinctDigests(md5)
    ensures PathsWithKey(HashEntries(FixtureFs(), md5, FixtureWalk()), md5(ContentA))
         == [Join(Root, "file1.txt"), Join(Root, "file3.txt"), Join(Root, "file1_copy.txt")]
    ensures PathsWithKey(HashEntries(FixtureFs(), md5, FixtureWalk()), md5(ContentB))
         == [Join(Root, "file2.txt"), Join(Sub, "file5.txt")]
  {
    FixtureHashEntries(md5);
    var p := [Join(Root, "file1.txt"), Join(Root, "file2.txt"), Join(Root, "file3.txt"), Join(Root, "file4.txt"),
              Join(Root, "file1_copy.txt"), Join(Sub, "file1.txt"), Join(Sub, "file5.txt")];
    HashPatternPaths(HashEntries(FixtureFs(), md5, FixtureWalk()),
                     md5(ContentA), md5(ContentB), md5(ContentC), md5(ContentD), p);
  }

  /** By content, the three copies of "content A" and the two of
      "content B" are reported, in walk order; the digests of "content C"
      and "content D", held by one file each, are not. */
  lemma FixtureByHash(md5: Digest)
    requires DistinctDigests(md5)
    ensures Duplicates(HashEntries(FixtureFs(), md5, FixtureWalk())) == map[
      md5(ContentA) := ["/tmp/t/file1.txt", "/tmp/t/file3.txt", "/tmp/t/file1_copy.txt"],
      md5(ContentB) := ["/tmp/t/file2.txt", "/tmp/t/subdir/file5.txt"]]
  {
    var es := HashEntries(FixtureFs(), md5, FixtureWalk());
    var r := Duplicates(es);
    forall k
      ensures k in r <==> k == md5(ContentA) || k == md5(ContentB)
    {
      DuplicatesAreRepeatedKeys(es, k);
      FixtureHashCounts(md5, k);
    }
    DuplicatesAreRepeatedKeys(es, md5(ContentA));
    DuplicatesAreRepeatedKeys(es, md5(ContentB));
    FixtureHashPaths(md5);
    FixturePaths();
    assert r.Keys == {md5(ContentA), md5(ContentB)};
  }
}
