/** Streaming digests: a file opened in binary mode, read block by block,
    and a digest accumulator fed with each block (hashlib.md5()). The digest
    function itself is a parameter: only its value on the whole fed byte
    string matters here. */
module Hashing {

  newtype byte = x: int | 0 <= x < 256

  type Digest = seq<byte> -> string

  /** The bytes that a read of `size` bytes returns at offset `pos`
      (Python's file.read: a size of -1 reads to the end, and a read at
      the end returns the empty byte string). */
  function ReadAt(content: seq<byte>, pos: nat, size: int): (buf: seq<byte>)
    requires pos <= |content| && size >= -1
    ensures |buf| <= |content| - pos
    ensures buf == content[pos..pos + |buf|]
    ensures size >= 0 ==> |buf| == if pos + size <= |content| then size else |content| - pos
    ensures size == -1 ==> |buf| == |content| - pos
  {
    if size == -1 || pos + size > |content| then content[pos..] else content[pos..pos + size]
  }

  /** The blocks a read loop with block size `size` produces from `content`,
      stopping at the first empty read. */
  function Chunks(content: seq<byte>, size: int): (cs: seq<seq<byte>>)
    requires size >= -1
    decreases |content|
  {
    if content == [] || size == 0 then []
    else if size == -1 || |content| <= size then [content]
    else [content[..size]] + Chunks(content[size..], size)
  }

  /** The concatenation of a sequence of blocks, in order. */
  function Concat(cs: seq<seq<byte>>): (s: seq<byte>)
  {
    if cs == [] then [] else Concat(cs[..|cs| - 1]) + cs[|cs| - 1]
  }

  lemma {:induction false} ConcatAppend(cs: seq<seq<byte>>, ds: seq<seq<byte>>)
    ensures Concat(cs + ds) == Concat(cs) + Concat(ds)
    decreases |ds|
  {
    if ds == [] {
      assert cs + ds == cs;
    } else {
      var init := ds[..|ds| - 1];
      assert (cs + ds)[..|cs + ds| - 1] == cs + init;
      ConcatAppend(cs, init);
    }
  }

  /** The blocks, concatenated in order, are the whole content; a block size
      of zero reads nothing. */
  lemma {:induction false} ChunksCoverContent(content: seq<byte>, size: int)
    requires size >= -1
    ensures Concat(Chunks(content, size)) == if size == 0 then [] else content
    decreases |content|
  {
    if content == [] || size == 0 {
    } else if size == -1 || |content| <= size {
      assert Concat([content]) == Concat([]) + content;
    } else {
      var rest := content[size..];
      ChunksCoverContent(rest, size);
      ConcatAppend([content[..size]], Chunks(rest, size));
      assert Concat([content[..size]]) == Concat([]) + content[..size];
      assert content[..size] + rest == content;
    }
  }

  /** Every block is non-empty and, for a positive block size, every block
      but the last is exactly one block long. */
  lemma {:induction false} ChunksShape(content: seq<byte>, size: int)
    requires size >= -1
    ensures forall i :: 0 <= i < |Chunks(content, size)| ==> Chunks(content, size)[i] != []
    ensures size > 0 ==> forall i :: 0 <= i < |Chunks(content, size)| ==> |Chunks(content, size)[i]| <= size
    ensures size > 0 ==> forall i :: 0 <= i < |Chunks(content, size)| - 1 ==> |Chunks(content, size)[i]| == size
    decreases |content|
  {
    if content == [] || size == 0 {
    } else if size == -1 || |content| <= size {
    } else {
      ChunksShape(content[size..], size);
    }
  }

  /** One step of the read loop: a non-empty read at `start` is the first
      block of what remains, and the blocks after it start where it ends. */
  lemma ChunksStep(content: seq<byte>, start: nat, size: int)
    requires start < |content| && size >= -1 && size != 0
    ensures var buf := ReadAt(content, start, size);
      Chunks(content[start..], size) == [buf] + Chunks(content[start + |buf|..], size)
  {
    var rest := content[start..];
    if size > 0 && |rest| > size {
      assert ReadAt(content, start, size) == rest[..size];
      assert rest[size..] == content[start + size..];
    } else {
      assert ReadAt(content, start, size) == rest;
      assert content[start + |rest|..] == [];
    }
  }

  /** The read loop's invariant is kept by feeding one more non-empty
      block: what has been fed is a prefix of the content, the blocks fed
      so far are the leading blocks of Chunks, and the rest follow. */
  lemma ReadLoopStep(content: seq<byte>, size: int, start: nat, chunks: seq<seq<byte>>)
    requires start < |content| && size >= -1 && size != 0
    requires Concat(chunks) == content[..start]
    requires chunks + Chunks(content[start..], size) == Chunks(content, size)
    ensures var buf := ReadAt(content, start, size);
      && Concat(chunks + [buf]) == content[..start + |buf|]
      && (chunks + [buf]) + Chunks(content[start + |buf|..], size) == Chunks(content, size)
  {
    var buf := ReadAt(content, start, size);
    ChunksStep(content, start, size);
    assert (chunks + [buf])[..|chunks|] == chunks;
    assert content[..start] + buf == content[..start + |buf|];
    assert (chunks + [buf]) + Chunks(content[start + |buf|..], size) == chunks + ([buf] + Chunks(content[start + |buf|..], size));
  }

  /** When the read loop stops (an empty read), the blocks fed are all of
      Chunks. */
  lemma ReadLoopDone(content: seq<byte>, size: int, start: nat, chunks: seq<seq<byte>>)
    requires start <= |content| && size >= -1
    requires ReadAt(content, start, size) == []
    requires chunks + Chunks(content[start..], size) == Chunks(content, size)
    ensures chunks == Chunks(content, size)
    ensures size != 0 ==> start == |content|
  {
    if size != 0 {
      assert content[start..] == [];
    }
    assert chunks + [] == chunks;
  }

  /** Among the block sizes Python accepts, any non-zero one gives the
      same digest of the blocks fed. */
  lemma DigestIndependentOfBlockSize(digest: Digest, content: seq<byte>, size1: int, size2: int)
    requires size1 >= -1 && size2 >= -1 && size1 != 0 && size2 != 0
    ensures digest(Concat(Chunks(content, size1))) == digest(Concat(Chunks(content, size2)))
  {
    ChunksCoverContent(content, size1);
    ChunksCoverContent(content, size2);
  }

  /** A digest accumulator (hashlib.md5()): update() appends bytes, and
      HexDigest() is the digest of everything fed so far. */
  class Hasher {
    const digest: Digest
    var fed: seq<byte>

    constructor (digest: Digest)
      ensures this.digest == digest && fed == []
    {
      this.digest := digest;
      fed := [];
    }

    method Update(buf: seq<byte>)
      modifies this
      ensures fed == old(fed) + buf
    {
      fed := fed + buf;
    }

    function HexDigest(): (h: string)
      reads this
    {
      digest(fed)
    }
  }

  /** A file opened with mode 'rb': fixed content and a read position. */
  class BinaryFile {
    const content: seq<byte>
    var pos: nat

    ghost predicate Valid()
      reads this
    {
      pos <= |content|
    }

    constructor (content: seq<byte>)
      ensures Valid() && this.content == content && pos == 0
    {
      this.content := content;
      pos := 0;
    }

    /** file.read(size): the next bytes, advancing the position past them. */
    method Read(size: int) returns (buf: seq<byte>)
      requires Valid() && size >= -1
      modifies this
      ensures Valid()
      ensures buf == ReadAt(content, old(pos), size)
      ensures pos == old(pos) + |buf|
    {
      buf := ReadAt(content, pos, size);
      pos := pos + |buf|;
    }
  }
}
