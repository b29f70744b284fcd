/**
 * A read-only file over a fixed byte string with a read position, as each
 * peer event is served. A vectored read fills the buffers in order from the
 * position, each as far as the remaining bytes allow, stops after the first
 * buffer it cannot fill, and advances the position by the count it returns.
 */
module BlobFile {
  import opened Wrappers
  import opened Bytes
  import opened Wasi

  function Min(a: nat, b: nat): nat {
    if a <= b then a else b
  }

  function Sum(lens: seq<nat>): nat {
    if lens == [] then 0 else lens[0] + Sum(lens[1..])
  }

  /** The concatenation of a sequence of byte strings. */
  function Flatten(parts: seq<seq<byte>>): seq<byte> {
    if parts == [] then [] else parts[0] + Flatten(parts[1..])
  }

  /**
   * What buffers of lengths `lens` receive from the bytes `rest`: each takes
   * as much as it can hold of what the ones before it left over.
   */
  function Chunks(rest: seq<byte>, lens: seq<nat>): (r: seq<seq<byte>>)
    ensures |r| == |lens|
  {
    if lens == [] then []
    else
      var k := Min(lens[0], |rest|);
      [rest[..k]] + Chunks(rest[k..], lens[1..])
  }

  /** No buffer receives more than it holds. */
  lemma {:induction false} ChunksFit(rest: seq<byte>, lens: seq<nat>)
    ensures forall j :: 0 <= j < |lens| ==> |Chunks(rest, lens)[j]| <= lens[j]
  {
    if lens != [] {
      ChunksFit(rest[Min(lens[0], |rest|)..], lens[1..]);
    }
  }

  /** Together the buffers receive the front of the bytes, as much as they can hold in all. */
  lemma {:induction false} ChunksFlatten(rest: seq<byte>, lens: seq<nat>)
    ensures Flatten(Chunks(rest, lens)) == rest[..Min(Sum(lens), |rest|)]
  {
    if lens != [] {
      var k := Min(lens[0], |rest|);
      ChunksFlatten(rest[k..], lens[1..]);
      assert rest[..k] + rest[k..][..Min(Sum(lens[1..]), |rest| - k)] == rest[..Min(Sum(lens), |rest|)];
    }
  }

  /** Once the bytes run out, every further buffer receives nothing. */
  lemma {:induction false} ChunksOfNothing(lens: seq<nat>)
    ensures forall j :: 0 <= j < |lens| ==> Chunks([], lens)[j] == []
  {
    if lens != [] {
      ChunksOfNothing(lens[1..]);
      assert Chunks([], lens) == [[]] + Chunks([], lens[1..]);
    }
  }

  /** After a buffer that is not filled, no buffer receives anything: the read stops there. */
  lemma {:induction false} ChunksStopEarly(rest: seq<byte>, lens: seq<nat>, j: nat)
    requires j < |lens| && |Chunks(rest, lens)[j]| < lens[j]
    ensures forall k :: j < k < |lens| ==> Chunks(rest, lens)[k] == []
  {
    var k0 := Min(lens[0], |rest|);
    var tail := Chunks(rest[k0..], lens[1..]);
    assert Chunks(rest, lens) == [rest[..k0]] + tail;
    if j == 0 {
      assert rest[k0..] == [];
      ChunksOfNothing(lens[1..]);
    } else {
      ChunksStopEarly(rest[k0..], lens[1..], j - 1);
    }
  }

  /** A read returns every remaining byte exactly when the buffers can hold them all. */
  lemma ReadsAll(rest: seq<byte>, lens: seq<nat>)
    ensures |Flatten(Chunks(rest, lens))| == |rest| <==> Sum(lens) >= |rest|
  {
    ChunksFlatten(rest, lens);
  }

  /** Reading at the end of the content returns nothing. */
  lemma NothingAtEnd(lens: seq<nat>)
    ensures Flatten(Chunks([], lens)) == []
  {
    ChunksFlatten([], lens);
  }

  /** When the buffers have room, a read returns nothing exactly when no bytes remain. */
  lemma NothingOnlyAtEnd(rest: seq<byte>, lens: seq<nat>)
    requires Sum(lens) > 0
    ensures Flatten(Chunks(rest, lens)) == [] <==> rest == []
  {
    ChunksFlatten(rest, lens);
  }

  /** `buf` with `front` written over its start. */
  function Overwrite(buf: seq<byte>, front: seq<byte>): (r: seq<byte>)
    ensures |front| <= |buf| ==> |r| == |buf| && r[..|front|] == front && r[|front|..] == buf[|front|..]
  {
    if |front| <= |buf| then front + buf[|front|..] else front
  }

  /** The lengths of a sequence of buffers. */
  function Lengths(bufs: seq<array<byte>>): (lens: seq<nat>)
    ensures |lens| == |bufs| && forall j :: 0 <= j < |bufs| ==> lens[j] == bufs[j].Length
  {
    seq(|bufs|, j requires 0 <= j < |bufs| => bufs[j].Length)
  }

  class Blob {
    const content: seq<byte>
    var pos: nat
    /** Everything the reads so far returned, in order. */
    ghost var delivered: seq<byte>

    ghost predicate Valid()
      reads this
    {
      pos <= |content| && delivered == content[..pos]
    }

    /** A blob over `content`, read from its start. */
    constructor (content: seq<byte>)
      ensures Valid()
      ensures this.content == content && pos == 0 && delivered == []
    {
      this.content := content;
      pos := 0;
      delivered := [];
    }

    /** A blob is a regular file. */
    function FileType(): (t: FileType)
      ensures t == RegularFile
    {
      RegularFile
    }

    /** A blob is always ready to read. */
    function Readable(): (r: Result<(), Errno>)
      ensures r.Ok?
    {
      Ok(())
    }

    /** A blob always reports itself ready to write. */
    function Writable(): (r: Result<(), Errno>)
      ensures r.Ok?
    {
      Ok(())
    }

    /**
     * Reading into `bufs`: buffer `j` receives chunk `j` of the remaining
     * content in front of what it held, the count is the chunks' total, and
     * the position advances by it. The content never changes.
     */
    method ReadVectored(bufs: seq<array<byte>>) returns (n: nat)
      requires Valid()
      requires forall i, j :: 0 <= i < j < |bufs| ==> bufs[i] != bufs[j]
      modifies this, set j | 0 <= j < |bufs| :: bufs[j]
      ensures Valid()
      ensures var chunks := Chunks(content[old(pos)..], Lengths(bufs));
        && n == |Flatten(chunks)|
        && pos == old(pos) + n
        && delivered == old(delivered) + Flatten(chunks)
        && forall j :: 0 <= j < |bufs| ==> bufs[j][..] == Overwrite(old(bufs[j][..]), chunks[j])
    ensures n == 0 && Sum(Lengths(bufs)) > 0 ==> pos == |content| && delivered == content
    {
      if Sum(Lengths(bufs)) > 0 {
        NothingOnlyAtEnd(content[pos..], Lengths(bufs));
      }
      var p := Fill(bufs, content, pos);
      assert content[..p] == content[..pos] + content[pos..p];
      n := p - pos;
      delivered := delivered + content[pos..p];
      pos := p;
    }
  }

  /**
   * Filling `bufs` in order from `data` at `start`: the first buffer that
   * is not filled completely ends the read. Returns the position after the
   * last byte read.
   */
  method Fill(bufs: seq<array<byte>>, data: seq<byte>, start: nat) returns (p: nat)
    requires start <= |data|
    requires forall i, j :: 0 <= i < j < |bufs| ==> bufs[i] != bufs[j]
    modifies set j | 0 <= j < |bufs| :: bufs[j]
    ensures start <= p <= |data|
    ensures var chunks := Chunks(data[start..], Lengths(bufs));
      && Flatten(chunks) == data[start..p]
      && forall j :: 0 <= j < |bufs| ==> bufs[j][..] == Overwrite(old(bufs[j][..]), chunks[j])
  {
    var lens := Lengths(bufs);
    ghost var chunks := Chunks(data[start..], lens);
    ghost var olds := seq(|bufs|, i requires 0 <= i < |bufs| reads set k | 0 <= k < |bufs| :: bufs[k] => bufs[i][..]);
    assert forall i :: 0 <= i < |bufs| ==> olds[i] == old(bufs[i][..]);
    p := start;
    var j := 0;
    var stop := false;
    while j < |bufs| && !stop
      invariant 0 <= j <= |bufs|
      invariant Filling(bufs, olds, data, start, lens, chunks, p, j, stop)
    {
      p, stop := Step(bufs, olds, data, start, lens, chunks, p, j);
      j := j + 1;
    }
    if stop {
      Finish(bufs, olds, data, start, lens, chunks, p, j);
    }
    assert chunks[..|bufs|] == chunks;
  }

  /**
   * The state of a read after `j` buffers: those took their chunks and the
   * rest still hold what they held (`olds`); `p` is where the next chunk
   * starts; `stop` says the content ran out before a buffer was full.
   */
  ghost predicate Filling(bufs: seq<array<byte>>, olds: seq<seq<byte>>, data: seq<byte>, start: nat,
                          lens: seq<nat>, chunks: seq<seq<byte>>, p: nat, j: nat, stop: bool)
    reads set i | 0 <= i < |bufs| :: bufs[i]
  {
    && |bufs| == |lens|
    && Progress(data, start, lens, chunks, p, j, stop)
    && Written(bufs, olds, chunks, j)
  }

  /** How far the read has got in the content after `j` buffers. */
  ghost predicate Progress(data: seq<byte>, start: nat, lens: seq<nat>, chunks: seq<seq<byte>>,
                           p: nat, j: nat, stop: bool)
  {
    && j <= |lens| == |chunks|
    && start <= p <= |data|
    && (stop ==> p == |data|)
    && chunks[j..] == Chunks(data[p..], lens[j..])
    && Flatten(chunks[..j]) == data[start..p]
  }

  /** What the buffers hold after `j` of them took their chunks. */
  ghost predicate Written(bufs: seq<array<byte>>, olds: seq<seq<byte>>, chunks: seq<seq<byte>>, j: nat)
    reads set i | 0 <= i < |bufs| :: bufs[i]
  {
    && j <= |bufs| == |olds| == |chunks|
    && (forall i :: 0 <= i < j ==> bufs[i][..] == Overwrite(olds[i], chunks[i]))
    && (forall i :: j <= i < |bufs| ==> bufs[i][..] == olds[i])
  }

  /** One chunk further along the content. */
  lemma ProgressStep(data: seq<byte>, start: nat, lens: seq<nat>, chunks: seq<seq<byte>>, p: nat, j: nat)
    requires j < |lens| && Progress(data, start, lens, chunks, p, j, false)
    ensures var k := Min(lens[j], |data| - p);
      && chunks[j] == data[p..p + k]
      && Progress(data, start, lens, chunks, p + k, j + 1, k < lens[j])
  {
    var k := Min(lens[j], |data| - p);
    ChunksAdvance(data, p, lens, j, chunks, k);
    FlattenGrow(chunks, j, data, start, p);
  }

  /** Filling buffer `j` with the next chunk; the read stops if it is not filled completely. */
  method Step(bufs: seq<array<byte>>, ghost olds: seq<seq<byte>>, data: seq<byte>, start: nat,
              lens: seq<nat>, ghost chunks: seq<seq<byte>>, p: nat, j: nat) returns (p': nat, stop: bool)
    requires j < |bufs| && lens == Lengths(bufs)
    requires forall i, k :: 0 <= i < k < |bufs| ==> bufs[i] != bufs[k]
    requires Filling(bufs, olds, data, start, lens, chunks, p, j, false)
    modifies bufs[j]
    ensures Filling(bufs, olds, data, start, lens, chunks, p', j + 1, stop)
  {
    var k := Min(bufs[j].Length, |data| - p);
    ProgressStep(data, start, lens, chunks, p, j);
    CopyChunk(bufs, j, data[p..p + k]);
    p' := p + k;
    stop := k < bufs[j].Length;
  }

  /** Once the read stops, the buffers not reached take empty chunks and keep what they held. */
  lemma Finish(bufs: seq<array<byte>>, olds: seq<seq<byte>>, data: seq<byte>, start: nat,
               lens: seq<nat>, chunks: seq<seq<byte>>, p: nat, j: nat)
    requires Filling(bufs, olds, data, start, lens, chunks, p, j, true)
    ensures Filling(bufs, olds, data, start, lens, chunks, p, |bufs|, true)
  {
    ChunksOfNothing(lens[j..]);
    RestEmpty(chunks, j);
    forall i | j <= i < |bufs|
      ensures bufs[i][..] == Overwrite(olds[i], chunks[i])
    {
      assert Overwrite(olds[i], []) == olds[i];
    }
    assert chunks[..|bufs|] == chunks;
  }

  /** Copying `src` into buffer `j`, leaving the other buffers as they were. */
  method CopyChunk(bufs: seq<array<byte>>, j: nat, src: seq<byte>)
    requires j < |bufs| && |src| <= bufs[j].Length
    requires forall i, k :: 0 <= i < k < |bufs| ==> bufs[i] != bufs[k]
    modifies bufs[j]
    ensures bufs[j][..] == Overwrite(old(bufs[j][..]), src)
    ensures forall i :: 0 <= i < |bufs| && i != j ==> bufs[i][..] == old(bufs[i][..])
  {
    CopyInto(bufs[j], src);
    assert forall i :: 0 <= i < |bufs| && i != j ==> bufs[i] != bufs[j];
  }

  /** Copying `src` to the front of `buf`, leaving the rest of it as it was. */
  method CopyInto(buf: array<byte>, src: seq<byte>)
    requires |src| <= buf.Length
    modifies buf
    ensures buf[..] == Overwrite(old(buf[..]), src)
  {
    var m := 0;
    while m < |src|
      invariant 0 <= m <= |src|
      invariant buf[..m] == src[..m]
      invariant buf[m..] == old(buf[..])[m..]
    {
      buf[m] := src[m];
      m := m + 1;
    }
    assert buf[..] == buf[..m] + buf[m..];
  }

  /** One buffer further along: buffer `j` takes its chunk at `pos`, the rest continue after it. */
  lemma ChunksAdvance(content: seq<byte>, pos: nat, lens: seq<nat>, j: nat, chunks: seq<seq<byte>>, k: nat)
    requires pos <= |content| && j < |lens| && j <= |chunks|
    requires chunks[j..] == Chunks(content[pos..], lens[j..])
    requires k == Min(lens[j], |content| - pos)
    ensures j < |chunks|
    ensures chunks[j] == content[pos..pos + k]
    ensures chunks[j + 1..] == Chunks(content[pos + k..], lens[j + 1..])
  {
    assert content[pos..][k..] == content[pos + k..];
    assert lens[j..][1..] == lens[j + 1..];
    assert chunks[j + 1..] == chunks[j..][1..];
  }

  /** The bytes delivered so far grow by the next chunk. */
  lemma FlattenGrow(chunks: seq<seq<byte>>, j: nat, content: seq<byte>, start: nat, pos: nat)
    requires j < |chunks| && start <= pos <= |content|
    requires Flatten(chunks[..j]) == content[start..pos]
    requires pos + |chunks[j]| <= |content| && chunks[j] == content[pos..pos + |chunks[j]|]
    ensures Flatten(chunks[..j + 1]) == content[start..pos + |chunks[j]|]
  {
    assert chunks[..j + 1] == chunks[..j] + [chunks[j]];
    FlattenSnoc(chunks[..j], chunks[j]);
  }

  lemma {:induction false} FlattenSnoc(parts: seq<seq<byte>>, last: seq<byte>)
    ensures Flatten(parts + [last]) == Flatten(parts) + last
  {
    if parts != [] {
      assert (parts + [last])[1..] == parts[1..] + [last];
      FlattenSnoc(parts[1..], last);
    }
  }

  lemma RestEmpty(chunks: seq<seq<byte>>, j: nat)
    requires j <= |chunks|
    requires forall i :: 0 <= i < |chunks[j..]| ==> chunks[j..][i] == []
    ensures forall i :: j <= i < |chunks| ==> chunks[i] == []
    ensures Flatten(chunks) == Flatten(chunks[..j])
  {
    assert forall i :: j <= i < |chunks| ==> chunks[i] == chunks[j..][i - j];
    FlattenEmptyTail(chunks, j);
  }

  lemma {:induction false} FlattenEmptyTail(chunks: seq<seq<byte>>, j: nat)
    requires j <= |chunks|
    requires forall i :: j <= i < |chunks| ==> chunks[i] == []
    ensures Flatten(chunks) == Flatten(chunks[..j])
    decreases |chunks| - j
  {
    if j < |chunks| {
      FlattenEmptyTail(chunks, j + 1);
      assert chunks[..j + 1] == chunks[..j] + [chunks[j]];
      FlattenSnoc(chunks[..j], chunks[j]);
    } else {
      assert chunks[..j] == chunks;
    }
  }
}
