/** write_callback into the buffer of one output, with the output thread taking bytes out of it in
    between: whatever the pool does with the chunks, the samples arrive packed and in order. */
module FlacPlay {
  import opened Bytes
  import opened CacheBuffers
  import opened FlacPack

  /** A decoded frame, and whether put_cache_ptr is told that it is the last data. */
  datatype Block = Block(buffer: seq<seq<int>>, blocksize: nat, told: bool)

  predicate AllPlanar(blocks: seq<Block>) {
    forall i :: 0 <= i < |blocks| ==> Planar(blocks[i].buffer, blocks[i].blocksize)
  }

  /** The samples of a stream in the order in which they are played. */
  function Samples(blocks: seq<Block>): seq<int>
    requires AllPlanar(blocks)
  {
    if blocks == [] then []
    else
      var last := blocks[|blocks| - 1];
      Samples(blocks[..|blocks| - 1]) + Interleaved(last.buffer, last.blocksize)
  }

  lemma {:induction false} PackAppend(origBps: nat, a: seq<int>, b: seq<int>)
    requires Depth(origBps)
    ensures PackAll(origBps, a + b) == PackAll(origBps, a) + PackAll(origBps, b)
  {
    if b == [] {
      PackNothing(origBps, a);
    } else {
      var front, v := b[..|b| - 1], b[|b| - 1];
      Extended(b, |b| - 1);
      PackAppend(origBps, a, front);
      PackBehind(origBps, a, front, v);
    }
  }

  lemma PackNothing(origBps: nat, a: seq<int>)
    requires Depth(origBps)
    ensures PackAll(origBps, a + []) == PackAll(origBps, a) + PackAll(origBps, [])
  {
    assert a + [] == a;
  }

  lemma PackBehind(origBps: nat, a: seq<int>, front: seq<int>, v: int)
    requires Depth(origBps) && PackAll(origBps, a + front) == PackAll(origBps, a) + PackAll(origBps, front)
    ensures PackAll(origBps, a + (front + [v])) == PackAll(origBps, a) + PackAll(origBps, front + [v])
  {
    Assoc(a, front, [v]);
    PackMore(origBps, a + front, v);
    PackMore(origBps, front, v);
    Assoc(PackAll(origBps, a), PackAll(origBps, front), PackSample(origBps, v));
  }

  /** The first n blocks, packed. */
  function PackedFirst(blocks: seq<Block>, n: nat, origBps: nat): seq<byte>
    requires Depth(origBps) && AllPlanar(blocks) && n <= |blocks|
  {
    PackAll(origBps, Samples(blocks[..n]))
  }

  function PackedBlock(b: Block, origBps: nat): seq<byte>
    requires Depth(origBps) && Planar(b.buffer, b.blocksize)
  {
    PackAll(origBps, Interleaved(b.buffer, b.blocksize))
  }

  lemma OneMoreBlock(blocks: seq<Block>, n: nat, origBps: nat)
    requires Depth(origBps) && AllPlanar(blocks) && n < |blocks|
    ensures PackedFirst(blocks, n + 1, origBps) == PackedFirst(blocks, n, origBps) + PackedBlock(blocks[n], origBps)
  {
    assert blocks[..n + 1][..n] == blocks[..n];
    PackAppend(origBps, Samples(blocks[..n]), Interleaved(blocks[n].buffer, blocks[n].blocksize));
  }

  /** The frame goes behind what the front free chunk has. */
  method GrowFront(out: CacheBuffer, front: Chunk, block: Block, origBps: nat)
    requires Depth(origBps) && Planar(block.buffer, block.blocksize)
    requires out.Valid(false) && out.cacheBuffer.Contents != [] && front == out.cacheBuffer.Contents[0]
    modifies front`bytes, front`capacity
    ensures out.Valid(false) && out.DataBytes() == old(out.DataBytes())
    ensures out.Partial() == old(out.Partial()) + PackedBlock(block, origBps) && |front.bytes| <= front.capacity
  {
    ghost var d, c := out.dataBuffer.Contents, out.cacheBuffer.Contents;
    ghost var dv, cv := View(d), View(c);
    MoveShared(d, c, out.bufferSizeCount);
    EditShaped(dv, cv, cv[0] + PackedBlock(block, origBps));
    WriteFrame(front, block.buffer, block.blocksize, origBps);
    assert View(d) == dv;
    assert View(c) == [cv[0] + PackedBlock(block, origBps)] + cv[1..];
  }

  /** put_cache_ptr with a chunk at hand, which keeps its contents. */
  method PutBack(out: CacheBuffer, rotate: bool)
    requires out.Valid(false) && out.cacheBuffer.Contents != []
    requires out.totalBytesInBuffer == |out.DataBytes()| + out.cacheLastSize
    modifies out`totalBytesInBuffer, out.Queues()
    ensures out.Settled() && out.Chunks() <= old(out.Chunks()) && out.Stored() == old(out.Stored())
    ensures rotate ==> out.Partial() == []
    ensures var front := old(out.cacheBuffer.Contents[0]);
      && front.bytes == old(front.bytes) && front.capacity == old(front.capacity)
      && |out.cacheBuffer.Contents| == old(|out.cacheBuffer.Contents|)
           - (if rotate || |front.bytes| == front.capacity then 1 else 0)
  {
    out.PutCachePtr(rotate);
  }

  /** put_cache_ptr after the frame: the chunk is handed over exactly if the frame was told to be the
      last, the chunk is full or it has no room for one more sample of every channel. */
  method HandFront(out: CacheBuffer, front: Chunk, told: bool, channels: nat, origBps: nat)
    requires Depth(origBps) && out.Valid(false)
    requires out.cacheBuffer.Contents != [] && front == out.cacheBuffer.Contents[0]
    requires out.totalBytesInBuffer == |out.DataBytes()| + out.cacheLastSize
    modifies out`totalBytesInBuffer, out.Queues()
    ensures out.Settled() && out.Chunks() <= old(out.Chunks()) && out.Stored() == old(out.Stored())
    ensures told ==> out.Partial() == []
    ensures front.bytes == old(front.bytes) && front.capacity == old(front.capacity)
    ensures |out.cacheBuffer.Contents| == old(|out.cacheBuffer.Contents|)
              - (if told || |front.bytes| == front.capacity || Full(front, channels, origBps) then 1 else 0)
  {
    var full := Full(front, channels, origBps);
    PutBack(out, told || full);
  }

  /** The frame goes into the chunk at hand, and the chunk is put back. */
  method PutFrame(out: CacheBuffer, front: Chunk, block: Block, origBps: nat)
    requires Depth(origBps) && Planar(block.buffer, block.blocksize) && out.Settled()
    requires out.cacheBuffer.Contents != [] && front == out.cacheBuffer.Contents[0]
    requires out.cacheLastSize == |front.bytes|
    modifies out`totalBytesInBuffer, out.Queues(), front
    ensures out.Settled() && out.Chunks() <= old(out.Chunks())
    ensures out.Stored() == old(out.DataBytes()) + (old(out.Partial()) + PackedBlock(block, origBps))
    ensures block.told ==> out.Partial() == []
    ensures |front.bytes| <= front.capacity
    ensures |out.cacheBuffer.Contents| == old(|out.cacheBuffer.Contents|)
              - (if block.told || |front.bytes| == front.capacity || Full(front, |block.buffer|, origBps) then 1 else 0)
  {
    GrowFront(out, front, block, origBps);
    HandFront(out, front, block.told, |block.buffer|, origBps);
  }

  /** One output of write_callback; without a free chunk the call waits, and has written nothing. */
  method WriteOutput(out: CacheBuffer, block: Block, origBps: nat) returns (written: bool)
    requires Depth(origBps) && Planar(block.buffer, block.blocksize) && out.Settled()
    modifies out`totalBytesInBuffer, out`cacheLastSize, out.Queues(), out.FreeChunks()
    ensures out.Settled() && out.Chunks() <= old(out.Chunks())
    ensures written <==> old(out.cacheBuffer.Contents) != []
    ensures out.Stored() == if written then old(out.Stored()) + PackedBlock(block, origBps) else old(out.Stored())
    ensures if written then block.told ==> out.Partial() == [] else out.Partial() == old(out.Partial())
    ensures written ==>
      var front := old(out.cacheBuffer.Contents[0]);
      && |front.bytes| <= front.capacity
      && |out.cacheBuffer.Contents| == old(|out.cacheBuffer.Contents|)
           - (if block.told || |front.bytes| == front.capacity || Full(front, |block.buffer|, origBps) then 1 else 0)
  {
    var ptr := out.GetCachePtr();
    written := ptr.Live?;
    if written {
      Assoc(out.DataBytes(), out.Partial(), PackedBlock(block, origBps));
      PutFrame(out, ptr.value, block, origBps);
    }
  }

  lemma TakenAndLeft(before: seq<byte>, s: seq<byte>, p: seq<byte>, n: nat)
    ensures (before + Prefix(s, n)) + (Suffix(s, n) + p) == before + (s + p)
  {
    assert Prefix(s, n) + Suffix(s, n) == s;
    Assoc(before, Prefix(s, n), Suffix(s, n) + p);
    Assoc(Prefix(s, n), Suffix(s, n), p);
  }

  /** Turning the ring keeps its chunks. */
  lemma SameRing(d: seq<Chunk>, c: seq<Chunk>, d': seq<Chunk>, c': seq<Chunk>)
    requires c' + d' == c + d
    ensures (set x | x in d') + (set x | x in c') == (set x | x in d) + (set x | x in c)
  {
    forall x
      ensures x in d' || x in c' <==> x in d || x in c
    {
      assert x in c' + d' <==> x in c + d;
    }
  }

  /** What has been taken and what is stored are the first blocks, packed, and nothing of a block
      that was told to be the last is unfinished. */
  ghost predicate InStep(out: CacheBuffer, blocks: seq<Block>, written: nat, taken: seq<byte>, origBps: nat)
    requires Depth(origBps) && AllPlanar(blocks)
    reads out, out.Queues(), if out.QueuesOk() then out.Chunks() else {}
  {
    && out.Settled() && written <= |blocks|
    && taken + out.Stored() == PackedFirst(blocks, written, origBps)
    && (0 < written && blocks[written - 1].told ==> out.Partial() == [])
  }

  /** The output thread takes up to n bytes. */
  method Take(out: CacheBuffer, n: nat, ghost before: seq<byte>) returns (taken: seq<byte>)
    requires out.Settled()
    modifies out`totalBytesInBuffer, out`dataLastSize, out.Queues(), out.DataChunks()
    ensures out.Settled() && out.Chunks() == old(out.Chunks()) && out.Partial() == old(out.Partial())
    ensures (before + taken) + out.Stored() == before + old(out.Stored())
  {
    ghost var s, d, c := out.DataBytes(), out.dataBuffer.Contents, out.cacheBuffer.Contents;
    TakenAndLeft(before, s, out.Partial(), n);
    taken := out.WriteIntoRawBuffer(n);
    SameRing(d, c, out.dataBuffer.Contents, out.cacheBuffer.Contents);
  }

  /** The decoder writes the next block, if it can. */
  method WriteNext(out: CacheBuffer, blocks: seq<Block>, written: nat, ghost taken: seq<byte>, origBps: nat)
    returns (after: nat)
    requires Depth(origBps) && AllPlanar(blocks) && InStep(out, blocks, written, taken, origBps)
    modifies out`totalBytesInBuffer, out`cacheLastSize, out.Queues(), out.FreeChunks()
    ensures InStep(out, blocks, after, taken, origBps) && out.Chunks() <= old(out.Chunks())
    ensures after == if written < |blocks| && old(out.cacheBuffer.Contents) != [] then written + 1 else written
  {
    after := written;
    if written < |blocks| {
      Assoc(taken, out.Stored(), PackedBlock(blocks[written], origBps));
      OneMoreBlock(blocks, written, origBps);
      var ok := WriteOutput(out, blocks[written], origBps);
      if ok {
        after := written + 1;
      }
    }
  }

  /** Any number of turns: the output thread takes what it likes, and the decoder goes on to write
      its next frame if there is a free chunk. What has been taken and what is stored are always
      exactly the samples written so far, packed as one stream; with the last frame told that it is the
      last, nothing of it stays behind in an unfinished chunk. */
  method PlayOutput(out: CacheBuffer, blocks: seq<Block>, takes: seq<nat>, origBps: nat)
    returns (written: nat, taken: seq<byte>)
    requires Depth(origBps) && AllPlanar(blocks) && out.Settled() && out.Stored() == []
    modifies out, out.Queues(), out.Chunks()
    ensures out.Settled() && written <= |blocks|
    ensures taken + out.Stored() == PackedFirst(blocks, written, origBps)
    ensures 0 < written && blocks[written - 1].told ==> out.Partial() == []
  {
    written, taken := 0, [];
    var t := 0;
    while t < |takes|
      invariant t <= |takes| && InStep(out, blocks, written, taken, origBps) && out.Chunks() <= old(out.Chunks())
    {
      var some := Take(out, takes[t], taken);
      taken := taken + some;
      written := WriteNext(out, blocks, written, taken, origBps);
      t := t + 1;
    }
  }
}
