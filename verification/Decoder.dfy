/** The reading and seeking side of decoder_plugins_manager.cpp over a `CacheBuffer`, for one
    caller at a time. Both methods are proved to compute the functions of `DecoderSeek`. */
module Decoders {
  import opened Bytes
  import opened RingSteps
  import opened CacheBuffers
  import DecoderSeek

  /** Bytes put in front of the first chunk come first in the stream. */
  lemma PrependFront(dv: seq<seq<byte>>, x: seq<byte>)
    requires dv != []
    ensures Flatten([x + dv[0]] + dv[1..]) == x + Flatten(dv)
  {
    Assoc(x, dv[0], Flatten(dv[1..]));
    assert ([x + dv[0]] + dv[1..])[1..] == dv[1..];
  }

  /** What the three parts of a read amount to. */
  lemma PartsOfRead(d: DecoderSeek.Deck, length: nat, bufSize: nat, copied: seq<byte>, d': DecoderSeek.Deck)
    requires d.pos <= length
    requires d.pos < length ==>
      Min(bufSize, length - d.pos) <= |d.ready| + d.partial && d.ready != []
    requires |copied| == Min(Min(bufSize, length - d.pos), |d.ready|)
    requires copied == d.ready[..|copied|]
    requires d' == DecoderSeek.Deck(d.pos + |copied|, copied, d.ready[|copied|..], d.partial)
    ensures (DecoderSeek.Got(copied), d') == DecoderSeek.Read(d, length, bufSize)
  {
  }

  /** The last n bytes read, put back. */
  function PutBack(d: DecoderSeek.Deck, n: nat): DecoderSeek.Deck
    requires n <= |d.last| && n <= d.pos
  {
    d.(pos := d.pos - n, ready := LastBytes(d.last, n) + d.ready)
  }

  function LastBytes(s: seq<byte>, n: nat): (r: seq<byte>)
    requires n <= |s|
    ensures |r| == n
  {
    s[|s| - n..]
  }

  /** The first half of a seek: back inside the last-read window, if the target is there. */
  function Back(d: DecoderSeek.Deck, to: nat): (bool, DecoderSeek.Deck) {
    if to < d.pos && d.pos - to < |d.last| then
      if d.ready == [] then (false, d) else (true, PutBack(d, d.pos - to))
    else (true, d)
  }

  /** The second half: n bytes forward, if that many are buffered. */
  function Forward(d: DecoderSeek.Deck, n: int): (DecoderSeek.Outcome, DecoderSeek.Deck) {
    if 0 <= n <= |d.ready| + d.partial then
      if n <= |d.ready| then (DecoderSeek.Sought, d.(pos := d.pos + n, ready := d.ready[n..]))
      else (DecoderSeek.Waiting(n - |d.ready|), d.(ready := []))
    else (DecoderSeek.FarSeek, d)
  }

  lemma BackDone(d: DecoderSeek.Deck, to: nat, n: nat, d': DecoderSeek.Deck)
    requires 0 < n < |d.last| && to == d.pos - n
    requires d' == if d.ready == [] then d else PutBack(d, n)
    ensures (d.ready != [], d') == Back(d, to)
  {
  }

  lemma ForwardDone(d: DecoderSeek.Deck, n: nat, left: nat, d': DecoderSeek.Deck)
    requires n <= |d.ready| + d.partial && left == n - Min(n, |d.ready|)
    requires d' == d.(ready := d.ready[n - left..], pos := d.pos + if left == 0 then n else 0)
    ensures (if left > 0 then DecoderSeek.Waiting(left) else DecoderSeek.Sought, d') == Forward(d, n)
  {
    assert d.ready[|d.ready|..] == [];
  }

  lemma HalvesOfSeek(d: DecoderSeek.Deck, length: nat, to: nat)
    requires to <= length
    ensures DecoderSeek.Seek(d, length, to) ==
      var (ok, d1) := Back(d, to);
      if ok then Forward(d1, to - d1.pos) else (DecoderSeek.Refused, d)
  {
    var d1 := Back(d, to).1;
    assert d1.ready[0..] == d1.ready;
  }

  // ----- the wait loop, whatever the other threads do meanwhile -----

  /** What one turn of the wait loop sees: whether the data queue is empty, the counter after the
      sleep, and the counter loaded once more when it has changed. */
  datatype Poll = Poll(empty: bool, seen: nat, again: nat)

  datatype Wait = Enough(turn: nat) | GaveUp(turn: nat) | StillWaiting

  /** The last value of the counter that the loop knows before turn k. */
  function Known(first: nat, polls: seq<Poll>, k: nat): nat
    requires k <= |polls|
  {
    if k == 0 then first
    else if polls[k - 1].seen == Known(first, polls, k - 1) then Known(first, polls, k - 1)
    else polls[k - 1].again
  }

  predicate Served(max: nat, first: nat, polls: seq<Poll>, k: nat)
    requires k < |polls|
  {
    max <= Known(first, polls, k) && !polls[k].empty
  }

  predicate Unchanged(first: nat, polls: seq<Poll>, k: nat)
    requires k < |polls|
  {
    polls[k].seen == Known(first, polls, k)
  }

  /** Turn k is the last of 21 that have seen the same counter. */
  predicate Stalled(first: nat, polls: seq<Poll>, k: nat)
    requires k < |polls|
  {
    20 <= k && forall j :: k - 20 <= j <= k ==> Unchanged(first, polls, j)
  }

  /** The loop ends at the first turn that is served or, if that comes earlier, at the first that
      is the 21st in a row without a change of the counter. */
  method AwaitPolls(max: nat, first: nat, polls: seq<Poll>) returns (w: Wait)
    ensures w.Enough? ==>
      w.turn < |polls| && Served(max, first, polls, w.turn)
      && forall j :: 0 <= j < w.turn ==> !Served(max, first, polls, j) && !Stalled(first, polls, j)
    ensures w.GaveUp? ==>
      w.turn < |polls| && Stalled(first, polls, w.turn) && !Served(max, first, polls, w.turn)
      && forall j :: 0 <= j < w.turn ==> !Served(max, first, polls, j) && !Stalled(first, polls, j)
    ensures w.StillWaiting? ==>
      forall j :: 0 <= j < |polls| ==> !Served(max, first, polls, j) && !Stalled(first, polls, j)
  {
    var total, countSame, k := first, 0, 0;
    while k < |polls| && (total < max || polls[k].empty)
      invariant k <= |polls| && total == Known(first, polls, k)
      invariant countSame <= 20 && countSame <= k
      invariant forall j :: k - countSame <= j < k ==> Unchanged(first, polls, j)
      invariant countSame < k ==> !Unchanged(first, polls, k - countSame - 1)
      invariant forall j :: 0 <= j < k ==> !Served(max, first, polls, j) && !Stalled(first, polls, j)
    {
      if polls[k].seen == total {
        countSame := countSame + 1;
        if countSame > 20 {
          return GaveUp(k);
        }
      } else {
        countSame := 0;
        total := polls[k].again;
      }
      k := k + 1;
    }
    return if k < |polls| then Enough(k) else StillWaiting;
  }

  class Decoder {
    const cacheBuf: CacheBuffer
    const streamLength: nat
    var currentStreamPos: nat
    var lastReadBuffer: seq<byte>
    var lastReadEmpty: bool

    constructor (cacheBuf: CacheBuffer, streamLength: nat)
      requires cacheBuf.Settled()
      ensures Valid() && this.cacheBuf == cacheBuf && this.streamLength == streamLength
      ensures currentStreamPos == 0 && lastReadBuffer == []
    {
      this.cacheBuf, this.streamLength := cacheBuf, streamLength;
      currentStreamPos, lastReadBuffer, lastReadEmpty := 0, [], true;
    }

    ghost predicate Valid()
      reads this, cacheBuf, cacheBuf.Queues(), if cacheBuf.QueuesOk() then cacheBuf.Chunks() else {}
    {
      cacheBuf.Settled() && currentStreamPos <= streamLength
    }

    /** What the decoder has in front of it. */
    ghost function Deck(): DecoderSeek.Deck
      requires Valid()
      reads this, cacheBuf, cacheBuf.Queues(), cacheBuf.Chunks()
    {
      DecoderSeek.Deck(currentStreamPos, lastReadBuffer, cacheBuf.DataBytes(), |cacheBuf.Partial()|)
    }

    /** Polls the counter until `max` bytes are buffered and some of them are ready; gives up
        after 21 polls without a change. With one caller the counter never changes between two
        polls; `AwaitPolls` is the loop when it does. */
    method AwaitData(max: nat) returns (ok: bool)
      requires Valid()
      ensures ok <==> max <= |Deck().ready| + Deck().partial && Deck().ready != []
    {
      var total := cacheBuf.TotalBytesInBufferGuess();
      var empty := cacheBuf.IsDataEmpty();
      var countSame := 0;
      while total < max || empty
        invariant 0 <= countSame <= 20
        invariant total == |cacheBuf.DataBytes()| + |cacheBuf.Partial()|
        invariant empty <==> cacheBuf.DataBytes() == []
        decreases 21 - countSame
      {
        assert total == cacheBuf.TotalBytesInBufferGuess();
        countSame := countSame + 1;
        if countSame > 20 {
          return false;
        }
        empty := cacheBuf.IsDataEmpty();
      }
      ok := true;
    }

    /** At the end of the stream there is nothing to wait for. */
    method AwaitRead(max: nat) returns (ok: bool)
      requires Valid()
      ensures ok <==>
        Deck().pos == streamLength || (max <= |Deck().ready| + Deck().partial && Deck().ready != [])
    {
      ok := true;
      if currentStreamPos < streamLength {
        ok := AwaitData(max);
      }
    }

    /** Forgets the last read. */
    method StartRead()
      requires Valid()
      modifies this`lastReadBuffer, this`lastReadEmpty
      ensures Valid() && lastReadEmpty && Deck() == old(Deck()).(last := [])
    {
      lastReadEmpty := true;
      lastReadBuffer := [];
    }

    /** Takes up to `max` bytes out of the buffer. */
    method Copy(max: nat) returns (copied: seq<byte>)
      requires Valid()
      modifies cacheBuf`totalBytesInBuffer, cacheBuf`dataLastSize, cacheBuf.Queues(), cacheBuf.DataChunks()
      ensures Valid()
      ensures |copied| == Min(max, |old(Deck()).ready|) && copied == old(Deck()).ready[..|copied|]
      ensures Deck() == old(Deck()).(ready := old(Deck()).ready[|copied|..])
    {
      copied := cacheBuf.WriteIntoRawBuffer(max);
    }

    /** Remembers the bytes just read, which end at the new position. */
    method FinishRead(copied: seq<byte>)
      requires Valid() && currentStreamPos + |copied| <= streamLength
      modifies this`lastReadBuffer, this`lastReadEmpty, this`currentStreamPos
      ensures Valid() && !lastReadEmpty
      ensures Deck() == old(Deck()).(pos := old(currentStreamPos) + |copied|, last := copied)
    {
      currentStreamPos := currentStreamPos + |copied|;
      lastReadEmpty := false;
      lastReadBuffer := copied;
    }

    /** Takes up to `max` bytes out of the buffer, which become the last read. */
    method CopyAndFinish(max: nat) returns (copied: seq<byte>)
      requires Valid() && currentStreamPos + max <= streamLength
      modifies this`lastReadBuffer, this`lastReadEmpty, this`currentStreamPos
      modifies cacheBuf`totalBytesInBuffer, cacheBuf`dataLastSize, cacheBuf.Queues(), cacheBuf.DataChunks()
      ensures Valid() && !lastReadEmpty
      ensures |copied| == Min(max, |old(Deck()).ready|) && copied == old(Deck()).ready[..|copied|]
      ensures Deck() == DecoderSeek.Deck(
        old(currentStreamPos) + |copied|, copied, old(Deck()).ready[|copied|..], old(Deck()).partial)
    {
      copied := Copy(max);
      FinishRead(copied);
    }

    /** Waits for min(bufSize, rest of the stream) bytes and copies them; -1 when none come. */
    method DecoderReadBuffer(bufSize: nat) returns (r: DecoderSeek.Result)
      requires Valid()
      modifies this`lastReadBuffer, this`lastReadEmpty, this`currentStreamPos
      modifies cacheBuf`totalBytesInBuffer, cacheBuf`dataLastSize, cacheBuf.Queues(), cacheBuf.DataChunks()
      ensures Valid()
      ensures (r, Deck()) == DecoderSeek.Read(old(Deck()), streamLength, bufSize)
      ensures var d := old(Deck());
        var asked := if bufSize <= streamLength - d.pos then bufSize else streamLength - d.pos;
        && (r.GaveUp? <==> d.pos < streamLength && (|d.ready| + d.partial < asked || d.ready == []))
        && (r.GaveUp? ==> Deck() == d.(last := []))
        && (r.Got? ==>
              && |r.bytes| <= asked && |r.bytes| <= |d.ready| && r.bytes == d.ready[..|r.bytes|]
              && (|r.bytes| == asked || (r.bytes == d.ready && asked - |r.bytes| <= d.partial))
              && Deck() == DecoderSeek.Deck(d.pos + |r.bytes|, r.bytes, d.ready[|r.bytes|..], d.partial))
      ensures lastReadEmpty <==> r.GaveUp?
    {
      ghost var d := Deck();
      StartRead();
      var maxBufSize := Min(bufSize, streamLength - currentStreamPos);
      var ok := AwaitRead(maxBufSize);
      if ok {
        var copied := CopyAndFinish(maxBufSize);
        PartsOfRead(d, streamLength, bufSize, copied, Deck());
        r := DecoderSeek.Got(copied);
      } else {
        r := DecoderSeek.GaveUp;
      }
      assert (r, Deck()) == DecoderSeek.Read(d, streamLength, bufSize);
      DecoderSeek.ReadEnds(d, streamLength, bufSize);
    }

    /** Polls for a filled chunk: at most 21 times, as nothing fills one meanwhile. */
    method AwaitDataPtr() returns (ptr: Slot<Chunk>)
      requires Valid()
      modifies cacheBuf`dataLastSize
      ensures Valid() && Deck() == old(Deck())
      ensures ptr == if Deck().ready == [] then Raw else Live(cacheBuf.dataBuffer.Contents[0])
      ensures ptr.Live? ==> cacheBuf.dataBuffer.Contents != [] && cacheBuf.dataLastSize == |ptr.value.bytes|
    {
      FilledStream(View(cacheBuf.dataBuffer.Contents), View(cacheBuf.cacheBuffer.Contents));
      var waitCount := 0;
      ptr := cacheBuf.GetDataPtr();
      while ptr.Raw?
        invariant 0 <= waitCount <= 20 && cacheBuf.QueuesOk()
        invariant ptr == if cacheBuf.dataBuffer.Contents == [] then Raw else Live(cacheBuf.dataBuffer.Contents[0])
        invariant ptr.Live? ==> cacheBuf.dataLastSize == |ptr.value.bytes|
        decreases 21 - waitCount
      {
        waitCount := waitCount + 1;
        if waitCount > 20 {
          return Raw;
        }
        ptr := cacheBuf.GetDataPtr();
      }
    }

    /** The edit of the push-back: the front chunk grows, if it must, to take `bytes` in front
        of its own, and is retagged with the position it now starts at. */
    method Prepend(front: Chunk, bytes: seq<byte>, first: int)
      requires cacheBuf.Valid(false) && cacheBuf.dataBuffer.Contents != []
      requires front == cacheBuf.dataBuffer.Contents[0]
      modifies front
      ensures cacheBuf.Valid(true) && front.first == first && front.bytes == bytes + old(front.bytes)
      ensures front.capacity == if old(front.capacity) < |front.bytes| then |front.bytes| else old(front.capacity)
      ensures cacheBuf.DataBytes() == bytes + old(cacheBuf.DataBytes())
      ensures cacheBuf.Partial() == old(cacheBuf.Partial())
    {
      ghost var d, c := cacheBuf.dataBuffer.Contents, cacheBuf.cacheBuffer.Contents;
      ghost var dv, cv := View(d), View(c);
      ReturnShared(d, c, cacheBuf.bufferSizeCount);
      PrependFront(dv, bytes);
      EditShaped(dv, cv, bytes + dv[0]);
      var needCapacity := |front.bytes| + |bytes|;
      if front.capacity < needCapacity {
        front.capacity := needCapacity;
      }
      front.bytes := bytes + front.bytes;
      front.first := first;
      assert View(d) == [bytes + dv[0]] + dv[1..];
      assert View(c) == cv;
    }

    /** The push-back into the chunk at hand, and the report to the counter. */
    method InsertFront(front: Chunk, bytes: seq<byte>, first: int)
      requires Valid() && cacheBuf.dataBuffer.Contents != [] && bytes != []
      requires front == cacheBuf.dataBuffer.Contents[0] && cacheBuf.dataLastSize == |front.bytes|
      modifies cacheBuf`totalBytesInBuffer, cacheBuf.Queues(), front
      ensures Valid() && Deck() == old(Deck()).(ready := bytes + old(Deck()).ready)
      ensures cacheBuf.dataBuffer.Contents == old(cacheBuf.dataBuffer.Contents) && front.first == first
    {
      ghost var ready, partial := cacheBuf.DataBytes(), cacheBuf.Partial();
      Prepend(front, bytes, first);
      cacheBuf.PutDataPtr(false);
      assert cacheBuf.Settled() && cacheBuf.DataBytes() == bytes + ready && cacheBuf.Partial() == partial;
    }

    /** Polls for a filled chunk and puts bytes in front of it. */
    method Restore(bytes: seq<byte>, first: int) returns (ok: bool)
      requires Valid() && bytes != []
      modifies cacheBuf`totalBytesInBuffer, cacheBuf`dataLastSize, cacheBuf.Queues(), cacheBuf.DataChunks()
      ensures Valid() && ok == (old(Deck()).ready != [])
      ensures Deck() == if ok then old(Deck()).(ready := bytes + old(Deck()).ready) else old(Deck())
      ensures cacheBuf.dataBuffer.Contents == old(cacheBuf.dataBuffer.Contents)
      ensures ok ==> cacheBuf.dataBuffer.Contents != [] && cacheBuf.dataBuffer.Contents[0].first == first
    {
      var ptr := AwaitDataPtr();
      ok := ptr.Live?;
      if ok {
        InsertFront(ptr.value, bytes, first);
      }
    }

    /** Moves the stream position. */
    method Move(to: nat)
      requires Valid() && to <= streamLength
      modifies this`currentStreamPos
      ensures Valid() && Deck() == old(Deck()).(pos := to)
    {
      currentStreamPos := to;
    }

    /** Puts the last n bytes read back in front of the data; false when no chunk takes them. */
    method PushBack(n: nat) returns (ok: bool)
      requires Valid() && 0 < n <= |lastReadBuffer| && n <= currentStreamPos
      modifies this`currentStreamPos
      modifies cacheBuf`totalBytesInBuffer, cacheBuf`dataLastSize, cacheBuf.Queues(), cacheBuf.DataChunks()
      ensures Valid() && cacheBuf.dataBuffer.Contents == old(cacheBuf.dataBuffer.Contents)
      ensures ok == (old(Deck()).ready != [])
      ensures Deck() == if ok then PutBack(old(Deck()), n) else old(Deck())
    {
      ghost var d := Deck();
      ok := Restore(LastBytes(lastReadBuffer, n), currentStreamPos - n);
      if ok {
        assert Deck() == d.(ready := LastBytes(d.last, n) + d.ready);
        Move(currentStreamPos - n);
      }
    }

    /** The first half of a seek: when the target lies inside the last-read window, the bytes
        from there on go back in front of the data; false when no chunk arrives to take them. */
    method StepBack(seekPoint: nat) returns (ok: bool)
      requires Valid() && seekPoint <= streamLength
      modifies this`currentStreamPos
      modifies cacheBuf`totalBytesInBuffer, cacheBuf`dataLastSize, cacheBuf.Queues(), cacheBuf.DataChunks()
      ensures Valid() && cacheBuf.dataBuffer.Contents == old(cacheBuf.dataBuffer.Contents)
      ensures (ok, Deck()) == Back(old(Deck()), seekPoint)
    {
      ghost var d := Deck();
      var needPos := seekPoint - currentStreamPos;
      ok := true;
      if needPos < 0 {
        needPos := -needPos;
        if needPos < |lastReadBuffer| {
          ok := PushBack(needPos);
          BackDone(d, seekPoint, needPos, Deck());
        }
      }
    }

    /** Skips forward over bytes that are, or are about to be, in the data queue. */
    method SkipForward(needPos: nat) returns (left: nat)
      requires Valid() && currentStreamPos + needPos <= streamLength
      modifies this`currentStreamPos
      modifies cacheBuf`totalBytesInBuffer, cacheBuf`dataLastSize, cacheBuf.Queues(), cacheBuf.DataChunks()
      ensures Valid()
      ensures left == needPos - Min(needPos, |old(Deck()).ready|)
      ensures Deck() == old(Deck()).(ready := old(Deck()).ready[needPos - left..],
                                     pos := old(currentStreamPos) + if left == 0 then needPos else 0)
    {
      ghost var d := Deck();
      left := cacheBuf.DiscardDataUpto(needPos);
      assert Deck() == d.(ready := d.ready[needPos - left..]);
      if left == 0 {
        Move(currentStreamPos + needPos);
      }
    }

    /** The second half of a seek: the target is needPos ahead of the stream position. */
    method SeekForward(needPos: int) returns (o: DecoderSeek.Outcome)
      requires Valid() && currentStreamPos + needPos <= streamLength
      modifies this`currentStreamPos
      modifies cacheBuf`totalBytesInBuffer, cacheBuf`dataLastSize, cacheBuf.Queues(), cacheBuf.DataChunks()
      ensures Valid()
      ensures (o, Deck()) == Forward(old(Deck()), needPos)
      ensures var d := old(Deck());
        && (o.FarSeek? <==> needPos < 0 || |d.ready| + d.partial < needPos) && !o.Refused?
        && (o.Waiting? <==> |d.ready| < needPos <= |d.ready| + d.partial)
        && (o.Sought? ==> Deck() == d.(pos := d.pos + needPos, ready := d.ready[needPos..]))
        && (o.Waiting? ==> Deck() == d.(ready := []) && o.left == needPos - |d.ready|)
        && (o.FarSeek? ==> Deck() == d)
    {
      ghost var d := Deck();
      var total := cacheBuf.TotalBytesInBufferGuess();
      if needPos >= 0 && needPos - total <= 0 {
        var left := SkipForward(needPos);
        ForwardDone(d, needPos, left, Deck());
        o := if left > 0 then DecoderSeek.Waiting(left) else DecoderSeek.Sought;
      } else {
        o := DecoderSeek.FarSeek;
      }
    }

    /** A seek inside what is buffered. The far branch hands the request to the input thread and
        waits; it ends the model's call. */
    method UpdateDecDetailSeek(seekPoint: int) returns (o: DecoderSeek.Outcome)
      requires Valid()
      modifies this`currentStreamPos
      modifies cacheBuf`totalBytesInBuffer, cacheBuf`dataLastSize, cacheBuf.Queues(), cacheBuf.DataChunks()
      ensures Valid()
      ensures (o, Deck()) == DecoderSeek.Seek(old(Deck()), streamLength, seekPoint)
      ensures var d := old(Deck());
        && (o.Refused? <==>
              seekPoint < 0 || streamLength < seekPoint || (d.pos - |d.last| < seekPoint < d.pos && d.ready == []))
        && (o.FarSeek? <==>
              0 <= seekPoint <= streamLength
              && ((seekPoint < d.pos && seekPoint <= d.pos - |d.last|) || d.pos + |d.ready| + d.partial < seekPoint))
        && (o.Waiting? <==>
              seekPoint <= streamLength && d.pos + |d.ready| < seekPoint <= d.pos + |d.ready| + d.partial)
        && (o.Sought? ==> Deck().pos == seekPoint && d.pos + |d.ready| == seekPoint + |Deck().ready|)
        && (o.Waiting? ==> Deck() == d.(ready := []) && d.pos + |d.ready| + o.left == seekPoint)
        && (o.Refused? || o.FarSeek? ==> Deck() == d)
    {
      DecoderSeek.SeekEnds(Deck(), streamLength, seekPoint);
      if seekPoint < 0 || seekPoint > streamLength {
        return DecoderSeek.Refused;
      }
      HalvesOfSeek(Deck(), streamLength, seekPoint);
      var ok := StepBack(seekPoint);
      if !ok {
        return DecoderSeek.Refused;
      }
      o := SeekForward(seekPoint - currentStreamPos);
    }
  }
}
