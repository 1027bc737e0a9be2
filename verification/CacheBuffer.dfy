/** cache_buffer.h as a class, for one caller at a time: what each operation does to the two
    queues, to the chunks in them, to the byte counter and to the stream of buffered bytes. */
module CacheBuffers {
  import opened Bytes
  import opened RingSteps
  import opened SpscQueue

  /** push_back on a full circular buffer overwrites the oldest byte. */
  function Pushed(bytes: seq<byte>, capacity: nat, b: byte): (r: seq<byte>)
    requires |bytes| <= capacity
    ensures |r| <= capacity
  {
    if |bytes| < capacity then bytes + [b] else if capacity == 0 then [] else bytes[1..] + [b]
  }

  /** A tagged circular buffer of bytes. */
  class Chunk {
    var first: int
    var bytes: seq<byte>
    var capacity: nat

    constructor (capacity: nat)
      ensures first == 0 && bytes == [] && this.capacity == capacity
    {
      first, bytes, this.capacity := 0, [], capacity;
    }

    method Clear()
      modifies this`bytes
      ensures bytes == []
    {
      bytes := [];
    }

    method EraseBegin(n: nat)
      requires n <= |bytes|
      modifies this`bytes
      ensures bytes == old(bytes)[n..]
    {
      bytes := bytes[n..];
    }

    method PushBack(b: byte)
      requires |bytes| <= capacity
      modifies this`bytes
      ensures bytes == Pushed(old(bytes), capacity, b)
    {
      if |bytes| == capacity {
        bytes := if capacity == 0 then [] else bytes[1..] + [b];
      } else {
        bytes := bytes + [b];
      }
    }

    /** insert(end(), first, last) */
    method InsertEnd(more: seq<byte>)
      requires |bytes| <= capacity
      modifies this`bytes
      ensures |bytes| <= capacity
      ensures |old(bytes)| + |more| <= capacity ==> bytes == old(bytes) + more
    {
      var k := 0;
      while k < |more|
        invariant k <= |more| && |bytes| <= capacity
        invariant |old(bytes)| + |more| <= capacity ==> bytes == old(bytes) + more[..k]
      {
        PushBack(more[k]);
        k := k + 1;
      }
    }
  }

  /** The contents of a list of chunks, as values. */
  ghost function View(cs: seq<Chunk>): (v: seq<seq<byte>>)
    reads set c | c in cs
    ensures |v| == |cs| && forall i :: 0 <= i < |cs| ==> v[i] == cs[i].bytes
  {
    seq(|cs|, i requires 0 <= i < |cs| reads set c | c in cs => cs[i].bytes)
  }

  /** The bytes of the front chunk. */
  function FrontBytes(v: seq<seq<byte>>): seq<byte> {
    if v == [] then [] else v[0]
  }

  predicate Differ(q: seq<Chunk>, i: nat, j: nat)
    requires i < |q| && j < |q|
  {
    q[i] != q[j]
  }

  /** The pool is shared out between the queues without repetition. */
  ghost predicate PoolShared(d: seq<Chunk>, c: seq<Chunk>, n: nat) {
    && (forall i: nat, j: nat {:trigger Differ(d + c, i, j)} :: i < j < |d + c| ==> Differ(d + c, i, j))
    && |d| + |c| <= n
  }

  predicate EmptyAt(v: seq<seq<byte>>, i: nat) { i < |v| ==> v[i] == [] }

  predicate FilledAt(v: seq<seq<byte>>, i: nat) { i < |v| ==> v[i] != [] }

  /** Free chunks behind the front are empty, and every filled chunk holds bytes, except that
      the one whose edit is under way may have become empty. */
  ghost predicate Shaped(dv: seq<seq<byte>>, cv: seq<seq<byte>>, editing: bool) {
    && (forall i: nat {:trigger EmptyAt(cv, i)} :: 1 <= i ==> EmptyAt(cv, i))
    && (forall i: nat {:trigger FilledAt(dv, i)} :: 1 <= i ==> FilledAt(dv, i))
    && (!editing ==> FilledAt(dv, 0))
  }

  lemma MoveShared(d: seq<Chunk>, c: seq<Chunk>, n: nat)
    requires PoolShared(d, c, n) && c != []
    ensures PoolShared(d + [c[0]], c[1..], n) && PoolShared(d, c[1..], n)
    ensures |d| < n && c[0] !in d && c[0] !in c[1..]
  {
    assert d + [c[0]] + c[1..] == d + c;
    forall i: nat | i < |d|
      ensures d[i] != c[0]
    {
      assert Differ(d + c, i, |d|);
    }
    forall i: nat | i < |c[1..]|
      ensures c[1..][i] != c[0]
    {
      assert Differ(d + c, |d|, |d| + 1 + i);
    }
    forall i: nat, j: nat | i < j < |d + c[1..]|
      ensures Differ(d + c[1..], i, j)
    {
      assert Differ(d + c, if i < |d| then i else i + 1, if j < |d| then j else j + 1);
    }
  }

  lemma ReturnShared(d: seq<Chunk>, c: seq<Chunk>, n: nat)
    requires PoolShared(d, c, n) && d != []
    ensures PoolShared(d[1..], c + [d[0]], n)
    ensures |c| < n && d[0] !in d[1..] && d[0] !in c
  {
    forall i: nat | i < |d[1..]|
      ensures d[1..][i] != d[0]
    {
      assert Differ(d + c, 0, i + 1);
    }
    forall i: nat | i < |c|
      ensures c[i] != d[0]
    {
      assert Differ(d + c, 0, |d| + i);
    }
    var q' := d[1..] + (c + [d[0]]);
    forall i: nat, j: nat | i < j < |q'|
      ensures Differ(q', i, j)
    {
      if j + 1 < |q'| { assert Differ(d + c, i + 1, j + 1); } else { assert Differ(d + c, 0, i + 1); }
    }
  }

  /** The producer's front chunk, with its bytes, goes to the end of the data queue. */
  lemma MoveShaped(dv: seq<seq<byte>>, cv: seq<seq<byte>>)
    requires Shaped(dv, cv, false) && cv != []
    ensures Shaped(dv, cv[1..], false) && FrontBytes(cv[1..]) == []
    ensures cv[0] != [] ==> Shaped(dv + [cv[0]], cv[1..], false)
    ensures Flatten(dv + [cv[0]]) == Flatten(dv) + cv[0]
  {
    assert EmptyAt(cv, 1);
    forall i: nat | 1 <= i
      ensures EmptyAt(cv[1..], i)
      ensures cv[0] != [] ==> FilledAt(dv + [cv[0]], i)
    {
      assert EmptyAt(cv, i + 1) && FilledAt(dv, i);
    }
    FlattenAppend(dv, [cv[0]]);
    FlattenOne(cv[0]);
  }

  /** The consumer's front chunk, cleared, goes to the end of the cache queue. */
  lemma ReturnShaped(dv: seq<seq<byte>>, cv: seq<seq<byte>>)
    requires Shaped(dv, cv, true) && dv != []
    ensures Shaped(dv[1..], cv + [[]], false) && FrontBytes(cv + [[]]) == FrontBytes(cv)
    ensures |dv[0]| <= |Flatten(dv)| && Flatten(dv[1..]) == Flatten(dv)[|dv[0]|..]
  {
    forall i: nat
      ensures FilledAt(dv[1..], i)
      ensures 1 <= i ==> EmptyAt(cv + [[]], i)
    {
      assert FilledAt(dv, i + 1) && (1 <= i ==> EmptyAt(cv, i));
    }
  }

  /** Editing the front chunk of either queue keeps the shape. */
  lemma EditShaped(dv: seq<seq<byte>>, cv: seq<seq<byte>>, x: seq<byte>)
    requires Shaped(dv, cv, false)
    ensures dv != [] ==> Shaped([x] + dv[1..], cv, true)
    ensures cv != [] ==> Shaped(dv, [x] + cv[1..], false)
  {
    forall i: nat | 1 <= i
      ensures dv != [] ==> FilledAt([x] + dv[1..], i)
      ensures cv != [] ==> EmptyAt([x] + cv[1..], i)
    {
      assert FilledAt(dv, i) && EmptyAt(cv, i);
    }
  }

  /** Erasing k bytes of the front chunk drops them from the stream. */
  lemma EraseFront(dv: seq<seq<byte>>, k: nat)
    requires dv != [] && k <= |dv[0]|
    ensures Flatten([dv[0][k..]] + dv[1..]) == Flatten(dv)[k..] && k <= |Flatten(dv)|
    ensures Flatten(dv)[..k] == dv[0][..k]
    ensures |dv[0]| <= |Flatten(dv)|
  {
    DropPrefix(dv[0], Flatten(dv[1..]), k);
    assert ([dv[0][k..]] + dv[1..])[1..] == dv[1..];
  }

  /** With every chunk filled, an empty stream means an empty queue. */
  lemma FilledStream(dv: seq<seq<byte>>, cv: seq<seq<byte>>)
    requires Shaped(dv, cv, false)
    ensures Flatten(dv) == [] <==> dv == []
  {
    assert FilledAt(dv, 0);
  }

  /** The first n elements of b repeated for ever. */
  function Cycle(b: seq<byte>, n: nat): (c: seq<byte>)
    requires b != []
    ensures |c| == n
  {
    if n <= |b| then b[..n] else b + Cycle(b, n - |b|)
  }

  /** What is copied when nothing is removed. */
  function Repeated(b: seq<byte>, n: nat): seq<byte> {
    if b == [] then [] else Cycle(b, n)
  }

  lemma RepeatedTurns(b: seq<byte>, n: nat)
    requires b != []
    ensures var round := Prefix(b, n);
      Repeated(b, n) == if n < |b| || n == |round| then round else round + Repeated(b, n - |round|)
  {
  }

  /** Repeating the front chunk is reading the stream as far as the front chunk goes; asked for
      more than the whole buffer holds, it makes up the rest. */
  lemma RepeatedIsStream(dv: seq<seq<byte>>, n: nat)
    requires dv != [] && dv[0] != []
    ensures n <= |dv[0]| ==> Repeated(dv[0], n) == Prefix(Flatten(dv), n)
    ensures |Repeated(dv[0], n)| == n && (|Flatten(dv)| < n ==> Repeated(dv[0], n) != Prefix(Flatten(dv), n))
  {
    EraseFront(dv, |dv[0]|);
    if n <= |dv[0]| {
      assert dv[0][..n] == Flatten(dv)[..n];
    }
  }

  /** A data queue with chunks of these sizes. */
  predicate HasSizes(dv: seq<seq<byte>>, sizes: seq<nat>) {
    |dv| == |sizes| && forall i :: 0 <= i < |dv| ==> |dv[i]| == sizes[i]
  }

  /** Whatever the chunks hold, n bytes read without removing them are the next n bytes. */
  ghost predicate RepeatingIsReading(sizes: seq<nat>, n: nat) {
    forall dv: seq<seq<byte>> :: HasSizes(dv, sizes) && dv != [] ==> Repeated(dv[0], n) == Prefix(Flatten(dv), n)
  }

  /** Exactly when it is reading: the front chunk has enough. */
  lemma RepeatedRightIff(sizes: seq<nat>, n: nat)
    requires sizes != [] && forall i :: 0 <= i < |sizes| ==> 0 < sizes[i]
    ensures RepeatingIsReading(sizes, n) <==> n <= sizes[0]
  {
    if n <= sizes[0] {
      forall dv: seq<seq<byte>> | HasSizes(dv, sizes) && dv != []
        ensures Repeated(dv[0], n) == Prefix(Flatten(dv), n)
      {
        RepeatedIsStream(dv, n);
      }
    } else {
      var dv := ZerosThenOnes(sizes);
      assert HasSizes(dv, sizes) && dv != [];
      ZerosThenOnesDiffer(sizes, n);
    }
  }

  /** A front chunk of zeros and ones behind it. */
  function ZerosThenOnes(sizes: seq<nat>): seq<seq<byte>> {
    seq(|sizes|, i requires 0 <= i < |sizes| => seq(sizes[i], _ => if i == 0 then 0 else 1))
  }

  lemma ZerosThenOnesDiffer(sizes: seq<nat>, n: nat)
    requires sizes != [] && sizes[0] < n && forall i :: 0 <= i < |sizes| ==> 0 < sizes[i]
    ensures var dv := ZerosThenOnes(sizes); Repeated(dv[0], n) != Prefix(Flatten(dv), n)
  {
    var dv, k := ZerosThenOnes(sizes), sizes[0];
    CycleOfZeros(dv[0], n);
    assert Flatten(dv) == dv[0] + Flatten(dv[1..]);
    if |sizes| > 1 {
      assert dv[1..] == [dv[1]] + dv[2..] && Flatten(dv[1..]) == dv[1] + Flatten(dv[1..][1..]);
      assert Flatten(dv)[k] == dv[1][0] == 1 && Prefix(Flatten(dv), n)[k] == 1;
      assert Repeated(dv[0], n)[k] == 0;
    } else {
      assert dv[1..] == [] && |Prefix(Flatten(dv), n)| == k;
    }
  }

  lemma {:induction false} CycleOfZeros(b: seq<byte>, n: nat)
    requires b != [] && forall i :: 0 <= i < |b| ==> b[i] == 0
    ensures forall i :: 0 <= i < n ==> Cycle(b, n)[i] == 0
  {
    if n <= |b| {
    } else {
      CycleOfZeros(b, n - |b|);
    }
  }

  /** Two chunks of one byte: the second byte read is the first one again. */
  lemma RepeatedGoesWrong()
    ensures var dv: seq<seq<byte>> := [[1], [2]]; Prefix(Flatten(dv), 2) == [1, 2] && Repeated(dv[0], 2) == [1, 1]
  {
    var dv: seq<seq<byte>> := [[1], [2]];
    assert dv[1..] == [[2]] && dv[1..][1..] == [];
    assert Flatten(dv) == [1] + Flatten([[2]]) && Flatten([[2]]) == [2] + Flatten([]);
    assert Cycle([1], 2) == [1] + Cycle([1], 1);
  }

  /** The first n elements of s, as far as there are that many. */
  function Prefix(s: seq<byte>, n: nat): seq<byte> { s[..Min(n, |s|)] }

  /** What is behind them. */
  function Suffix(s: seq<byte>, n: nat): seq<byte> { s[Min(n, |s|)..] }

  lemma CopiedOnce(s: seq<byte>, k: nat)
    requires k <= |s|
    ensures Prefix(s, k) == s[..k] && Suffix(s, k) == s[k..]
  {
  }

  /** Copying k and then m is copying k + m. */
  lemma CopiedTwice(s: seq<byte>, k: nat, m: nat)
    requires k <= |s|
    ensures s[..k] + Prefix(s[k..], m) == Prefix(s, k + m) && Suffix(s[k..], m) == Suffix(s, k + m)
  {
  }

  /** Dropping k and copying m is the tail of copying k + m. */
  lemma SkipCopies(s: seq<byte>, k: nat, m: nat, copied: seq<byte>)
    requires copied == Prefix(Suffix(s, k), m)
    ensures copied == Suffix(Prefix(s, k + m), k)
    ensures Suffix(Suffix(s, k), m) == Suffix(s, k + m)
  {
  }

  lemma HandedOver(b: seq<byte>, p: seq<byte>)
    ensures (b + p) + [] == b + p
  {
  }

  lemma RingTurns(c: seq<Chunk>, d: seq<Chunk>)
    requires d != []
    ensures (c + [d[0]]) + d[1..] == c + d
    ensures (set x | x in d[1..]) <= (set x | x in d)
  {
    assert d == [d[0]] + d[1..];
  }

  lemma NewPool(c: seq<Chunk>)
    requires NoDup(c) && forall x :: x in c ==> x.bytes == []
    ensures PoolShared([], c, |c|) && Shaped([], View(c), false)
    ensures FrontBytes(View(c)) == []
  {
    assert [] + c == c;
  }

  class CacheBuffer {
    const bufferSize: nat
    const elemSize: nat
    const bufferSizeCount: nat
    var totalBytesInBuffer: int
    const dataBuffer: ProducerConsumerQueue<Chunk>
    const cacheBuffer: ProducerConsumerQueue<Chunk>
    var cacheLastSize: nat
    var dataLastSize: nat

    ghost function Queues(): set<object> {
      {dataBuffer, dataBuffer.records, cacheBuffer, cacheBuffer.records}
    }

    ghost predicate QueuesOk()
      reads Queues()
    {
      && dataBuffer.Valid() && cacheBuffer.Valid()
      && dataBuffer != cacheBuffer && dataBuffer.records != cacheBuffer.records
      && dataBuffer.size == bufferSizeCount + 1 && cacheBuffer.size == bufferSizeCount + 1
    }

    /** All chunks in the two queues. */
    ghost function Chunks(): set<Chunk>
      requires QueuesOk()
      reads Queues()
    {
      (set c | c in dataBuffer.Contents) + (set c | c in cacheBuffer.Contents)
    }

    ghost predicate Valid(editing: bool)
      reads this, Queues(), if QueuesOk() then Chunks() else {}
    {
      && QueuesOk()
      && var d, c := dataBuffer.Contents, cacheBuffer.Contents;
         PoolShared(d, c, bufferSizeCount) && Shaped(View(d), View(c), editing)
    }

    /** The bytes ready for the consumer, in order. */
    ghost function DataBytes(): seq<byte>
      requires QueuesOk()
      reads Queues(), Chunks()
    {
      Flatten(View(dataBuffer.Contents))
    }

    /** The bytes of the chunk that the producer is still filling. */
    ghost function Partial(): seq<byte>
      requires QueuesOk()
      reads Queues(), Chunks()
    {
      FrontBytes(View(cacheBuffer.Contents))
    }

    /** Every byte in the buffer, in the order in which the producer put them there. */
    ghost function Stored(): seq<byte>
      requires QueuesOk()
      reads Queues(), Chunks()
    {
      DataBytes() + Partial()
    }

    /** No edit is under way: the counter is exact. */
    ghost predicate Settled()
      reads this, Queues(), if QueuesOk() then Chunks() else {}
    {
      Valid(false) && totalBytesInBuffer == |DataBytes()| + |Partial()|
    }

    constructor (bufferSize: nat, elemSize: nat)
      requires 0 < bufferSize && 0 < elemSize
      ensures Settled()
      ensures dataBuffer.Contents == [] && |cacheBuffer.Contents| == bufferSizeCount
      ensures bufferSize <= bufferSizeCount * elemSize < bufferSize + elemSize
      ensures forall c :: c in cacheBuffer.Contents ==> c.bytes == [] && c.capacity == elemSize
      ensures fresh(Queues()) && fresh(Chunks())
    {
      this.bufferSize, this.elemSize := bufferSize, elemSize;
      var n := PoolSize(bufferSize, elemSize);
      PoolFits(bufferSize, elemSize);
      bufferSizeCount := n;
      var d := new ProducerConsumerQueue<Chunk>(n + 1);
      var c := new ProducerConsumerQueue<Chunk>(n + 1);
      dataBuffer, cacheBuffer := d, c;
      totalBytesInBuffer, cacheLastSize, dataLastSize := 0, 0, 0;
      new;
      InitBuffer(c, elemSize);
      NewPool(c.Contents);
      assert View(d.Contents) == [];
    }

    /** Fills a queue with empty chunks. */
    static method InitBuffer(buffer: ProducerConsumerQueue<Chunk>, elemSize: nat)
      requires buffer.Valid() && buffer.Contents == []
      modifies buffer, buffer.records
      ensures buffer.Valid() && |buffer.Contents| == buffer.size - 1 && NoDup(buffer.Contents)
      ensures forall c :: c in buffer.Contents ==> fresh(c) && c.bytes == [] && c.capacity == elemSize
    {
      var full := buffer.IsFull();
      while !full
        invariant buffer.Valid() && full == (|buffer.Contents| == buffer.size - 1) && NoDup(buffer.Contents)
        invariant forall c :: c in buffer.Contents ==> fresh(c) && c.bytes == [] && c.capacity == elemSize
        decreases buffer.size - |buffer.Contents|
      {
        var chunk := new Chunk(elemSize);
        var ok := buffer.Write(chunk);
        full := buffer.IsFull();
      }
    }

    method GetCachePtr() returns (ptr: Slot<Chunk>)
      requires QueuesOk()
      modifies this`cacheLastSize
      ensures ptr == if cacheBuffer.Contents == [] then Raw else Live(cacheBuffer.Contents[0])
      ensures cacheLastSize == if ptr.Live? then |ptr.value.bytes| else old(cacheLastSize)
    {
      var empty := cacheBuffer.IsEmpty();
      if empty {
        return Raw;
      }
      ptr := cacheBuffer.FrontPtr();
      cacheLastSize := |ptr.value.bytes|;
    }

    method GetDataPtr() returns (ptr: Slot<Chunk>)
      requires QueuesOk()
      modifies this`dataLastSize
      ensures ptr == if dataBuffer.Contents == [] then Raw else Live(dataBuffer.Contents[0])
      ensures dataLastSize == if ptr.Live? then |ptr.value.bytes| else old(dataLastSize)
    {
      var empty := dataBuffer.IsEmpty();
      if empty {
        return Raw;
      }
      ptr := dataBuffer.FrontPtr();
      dataLastSize := |ptr.value.bytes|;
    }

    /** Takes the front of the cache queue and hands it on, unless it is empty: an empty chunk
        leaves the pool. The result of `write` is ignored; it is true because of `Valid`. */
    method RotateCache()
      requires Valid(false)
      modifies dataBuffer, dataBuffer.records, cacheBuffer, cacheBuffer.records
      ensures Valid(false)
      ensures var c := old(cacheBuffer.Contents);
        && cacheBuffer.Contents == (if c == [] then [] else c[1..])
        && dataBuffer.Contents == old(dataBuffer.Contents) + (if old(Partial()) == [] then [] else c[..1])
      ensures DataBytes() == old(DataBytes()) + old(Partial()) && Partial() == []
    {
      ghost var d, c := dataBuffer.Contents, cacheBuffer.Contents;
      ghost var dv, cv := View(d), View(c);
      if c != [] {
        MoveShared(d, c, bufferSizeCount);
        MoveShaped(dv, cv);
      }
      var val := cacheBuffer.Read();
      if val.Live? && val.value.bytes != [] {
        var ok := dataBuffer.Write(val.value);
        assert View(dataBuffer.Contents) == dv + [cv[0]];
      } else {
        assert View(dataBuffer.Contents) == dv;
      }
      assert View(cacheBuffer.Contents) == if c == [] then cv else cv[1..];
    }

    ghost function FreeChunks(): set<Chunk>
      reads cacheBuffer
    {
      set c | c in cacheBuffer.Contents
    }

    /** The chunk that rotate_data takes, clears and gives back. */
    ghost function DataFront(): set<Chunk>
      reads dataBuffer
    {
      if dataBuffer.Contents == [] then {} else {dataBuffer.Contents[0]}
    }

    /** The bytes that a rotation of the data queue throws away. */
    ghost function Leftover(): nat
      requires QueuesOk()
      reads Queues(), Chunks()
    {
      if dataBuffer.Contents == [] then 0 else |dataBuffer.Contents[0].bytes|
    }

    /** Takes the front of the data queue, clears it and gives it back to the producer: whatever
        it still held is gone. */
    method RotateData()
      requires Valid(true)
      modifies dataBuffer, dataBuffer.records, cacheBuffer, cacheBuffer.records, DataFront()
      ensures Valid(false)
      ensures var d := old(dataBuffer.Contents);
        && dataBuffer.Contents == (if d == [] then [] else d[1..])
        && cacheBuffer.Contents == old(cacheBuffer.Contents) + (if d == [] then [] else [d[0]])
      ensures old(Leftover()) <= |old(DataBytes())|
      ensures DataBytes() == old(DataBytes())[old(Leftover())..] && Partial() == old(Partial())
      ensures var d := old(dataBuffer.Contents);
        d != [] ==> d[0].bytes == [] && d[0].first == old(d[0].first) && d[0].capacity == old(d[0].capacity)
    {
      ghost var d, c := dataBuffer.Contents, cacheBuffer.Contents;
      ghost var dv, cv := View(d), View(c);
      if d != [] {
        ReturnShared(d, c, bufferSizeCount);
        ReturnShaped(dv, cv);
      }
      var val := dataBuffer.Read();
      if val.Live? {
        val.value.Clear();
        var ok := cacheBuffer.Write(val.value);
        assert View(dataBuffer.Contents) == dv[1..];
        assert View(cacheBuffer.Contents) == cv + [[]];
      } else {
        assert View(dataBuffer.Contents) == dv;
        assert View(cacheBuffer.Contents) == cv;
      }
    }

    /** Reports the producer's edit of the front chunk to the counter; a full chunk, or any chunk
        on request, moves to the data queue. The stream of bytes stays the same. */
    method PutCachePtr(rotate: bool)
      requires Valid(false)
      requires totalBytesInBuffer == |DataBytes()| + (if cacheBuffer.Contents == [] then 0 else cacheLastSize)
      modifies this`totalBytesInBuffer, Queues()
      ensures Settled()
      ensures var c := old(cacheBuffer.Contents);
        if c != [] && (old(|c[0].bytes| == c[0].capacity) || rotate) then
          && cacheBuffer.Contents == c[1..]
          && dataBuffer.Contents == old(dataBuffer.Contents) + (if old(c[0].bytes) == [] then [] else [c[0]])
          && DataBytes() == old(DataBytes()) + old(Partial()) && Partial() == []
        else
          && cacheBuffer.Contents == c && dataBuffer.Contents == old(dataBuffer.Contents)
          && DataBytes() == old(DataBytes()) && Partial() == old(Partial())
      ensures Stored() == old(Stored())
    {
      HandedOver(DataBytes(), Partial());
      var bufPtr := cacheBuffer.FrontPtr();
      if bufPtr.Live? {
        var sizeDiff := |bufPtr.value.bytes| - cacheLastSize;
        totalBytesInBuffer := totalBytesInBuffer + sizeDiff;
        var full := |bufPtr.value.bytes| == bufPtr.value.capacity;
        if full || rotate {
          RotateCache();
        }
      }
    }

    /** Reports the consumer's edit of the front chunk to the counter. An emptied chunk, or any
        chunk on request, goes back to the cache queue; what a chunk then still holds is lost,
        and the counter goes on counting it: it stays exact if and only if nothing is left over. */
    method PutDataPtr(rotate: bool)
      requires Valid(true)
      requires totalBytesInBuffer == |DataBytes()| + |Partial()|
        + (if dataBuffer.Contents == [] then 0 else dataLastSize - |dataBuffer.Contents[0].bytes|)
      modifies this`totalBytesInBuffer, Queues(), DataFront()
      ensures Valid(false) && (Settled() <==> !rotate || old(Leftover()) == 0)
      ensures totalBytesInBuffer == |DataBytes()| + |Partial()| + (if rotate then old(Leftover()) else 0)
      ensures old(Leftover()) <= |old(DataBytes())| && Partial() == old(Partial())
      ensures DataBytes() == if rotate then old(DataBytes())[old(Leftover())..] else old(DataBytes())
      ensures var d := old(dataBuffer.Contents);
        if d != [] && (rotate || old(d[0].bytes) == []) then
          && dataBuffer.Contents == d[1..] && cacheBuffer.Contents == old(cacheBuffer.Contents) + [d[0]]
          && d[0].bytes == []
        else dataBuffer.Contents == d && cacheBuffer.Contents == old(cacheBuffer.Contents)
      ensures var d := old(dataBuffer.Contents);
        && (d != [] && !rotate ==> d[0].bytes == old(d[0].bytes))
        && (d != [] ==> d[0].first == old(d[0].first) && d[0].capacity == old(d[0].capacity))
    {
      var bufPtr := dataBuffer.FrontPtr();
      if bufPtr.Live? {
        EraseFront(View(dataBuffer.Contents), 0);
        var sizeDiff := |bufPtr.value.bytes| - dataLastSize;
        totalBytesInBuffer := totalBytesInBuffer + sizeDiff;
        var empty := bufPtr.value.bytes == [];
        if empty || rotate {
          RotateData();
        }
      }
    }

    /** The edit of one round of draining: erases k bytes of the front chunk. */
    method EraseFromFront(front: Chunk, k: nat)
      requires Valid(false) && dataBuffer.Contents != [] && front == dataBuffer.Contents[0]
      requires k <= |front.bytes|
      modifies front
      ensures Valid(true)
      ensures front.bytes == old(front.bytes)[k..] && front.first == old(front.first) - k
      ensures front.capacity == old(front.capacity)
      ensures k <= |old(DataBytes())| && DataBytes() == old(DataBytes())[k..] && Partial() == old(Partial())
      ensures old(DataBytes())[..k] == old(front.bytes)[..k] && old(|front.bytes|) <= |old(DataBytes())|
    {
      ghost var d, c := dataBuffer.Contents, cacheBuffer.Contents;
      ghost var dv, cv := View(d), View(c);
      ReturnShared(d, c, bufferSizeCount);
      EraseFront(dv, k);
      EditShaped(dv, cv, dv[0][k..]);
      front.EraseBegin(k);
      front.first := front.first - k;
      assert View(d) == [dv[0][k..]] + dv[1..];
      assert View(c) == cv;
    }

    /** The rotations keep the order of the chunks around the two queues. */
    ghost function Ring(): seq<Chunk>
      reads Queues()
    {
      cacheBuffer.Contents + dataBuffer.Contents
    }

    static function EnoughSize(chunkSize: nat, size: nat): (bool, nat) {
      if chunkSize > size then (true, size) else (false, chunkSize)
    }

    ghost function DataChunks(): set<Chunk>
      reads dataBuffer
    {
      set c | c in dataBuffer.Contents
    }

    /** Erases k bytes of the front chunk and puts it back. */
    method DrainFront(front: Chunk, k: nat)
      requires Settled() && dataBuffer.Contents != [] && front == dataBuffer.Contents[0]
      requires k <= |front.bytes| && dataLastSize == |front.bytes|
      modifies this`totalBytesInBuffer, Queues(), front
      ensures Settled()
      ensures k <= |old(DataBytes())| && DataBytes() == old(DataBytes())[k..] && Partial() == old(Partial())
      ensures Ring() == old(Ring()) && DataChunks() <= old(DataChunks())
      ensures |dataBuffer.Contents| == old(|dataBuffer.Contents|) - (if k == old(|front.bytes|) then 1 else 0)
    {
      ghost var d := dataBuffer.Contents;
      RingTurns(cacheBuffer.Contents, d);
      EraseFromFront(front, k);
      PutDataPtr(false);
    }

    /** One round: what the front chunk has, as far as it is asked for, is copied out. */
    method CopyRound(size: nat) returns (enough: bool, copied: seq<byte>)
      requires Settled() && dataBuffer.Contents != []
      modifies this`totalBytesInBuffer, this`dataLastSize, Queues(), DataChunks()
      ensures Settled()
      ensures |copied| <= size && |copied| <= |old(DataBytes())|
      ensures if enough then |copied| == size else |dataBuffer.Contents| < old(|dataBuffer.Contents|)
      ensures copied == old(DataBytes())[..|copied|]
      ensures DataBytes() == old(DataBytes())[|copied|..] && Partial() == old(Partial())
      ensures Ring() == old(Ring()) && DataChunks() <= old(DataChunks())
    {
      var ptr := GetDataPtr();
      var chunk := ptr.value;
      var itemCount := EnoughSize(|chunk.bytes|, size).1;
      enough := EnoughSize(|chunk.bytes|, size).0;
      EraseFront(View(dataBuffer.Contents), itemCount);
      copied := chunk.bytes[..itemCount];
      DrainFront(chunk, itemCount);
    }

    /** Copies min(size, buffered) bytes, which leave the buffer; every chunk emptied on the way
        goes back to the end of the cache queue. `copied` is what is stored at the destination. */
    method WriteIntoRawBuffer(size: nat) returns (copied: seq<byte>)
      requires Settled()
      modifies this`totalBytesInBuffer, this`dataLastSize, Queues(), DataChunks()
      ensures Settled()
      ensures copied == Prefix(old(DataBytes()), size) && DataBytes() == Suffix(old(DataBytes()), size)
      ensures Partial() == old(Partial()) && Ring() == old(Ring())
      decreases |dataBuffer.Contents|
    {
      ghost var s := DataBytes();
      var empty := dataBuffer.IsEmpty();
      if empty {
        return [];
      }
      var enough, round := CopyRound(size);
      copied := round;
      CopiedOnce(s, |round|);
      if !enough && size - |round| > 0 {
        var rest := WriteIntoRawBuffer(size - |round|);
        copied := round + rest;
        CopiedTwice(s, |round|, size - |round|);
      }
    }

    /** Drops the next seekPoint bytes. The call sleeps while the data queue is empty; `left` is
        how much is still to be dropped when that happens, with nothing else to run, and zero
        when the call returns. */
    method DiscardDataUpto(seekPoint: nat) returns (left: nat)
      requires Settled()
      modifies this`totalBytesInBuffer, this`dataLastSize, Queues(), DataChunks()
      ensures Settled()
      ensures left == seekPoint - Min(seekPoint, |old(DataBytes())|)
      ensures DataBytes() == Suffix(old(DataBytes()), seekPoint) && Partial() == old(Partial())
      ensures Ring() == old(Ring()) && DataChunks() <= old(DataChunks())
      decreases |dataBuffer.Contents|, seekPoint
    {
      ghost var s := DataBytes();
      if seekPoint <= 0 {
        return 0;
      }
      var ptr := AskFront();
      if ptr.Raw? {
        return seekPoint;
      }
      var length := DiscardRound(ptr.value, seekPoint);
      ghost var mid := DataBytes();
      CopiedTwice(s, length, seekPoint - length);
      left := 0;
      if seekPoint - length > 0 {
        left := DiscardDataUpto(seekPoint - length);
        assert DataBytes() == Suffix(mid, seekPoint - length);
      }
    }

    /** One round: what the front chunk has, as far as it is to be dropped. */
    method DiscardRound(front: Chunk, seekPoint: nat) returns (length: nat)
      requires AtFront(Live(front))
      modifies this`totalBytesInBuffer, Queues(), front
      ensures Settled() && length <= seekPoint && length <= |old(DataBytes())|
      ensures DataBytes() == old(DataBytes())[length..] && Partial() == old(Partial())
      ensures Ring() == old(Ring()) && DataChunks() <= old(DataChunks())
      ensures length < seekPoint ==> |dataBuffer.Contents| < old(|dataBuffer.Contents|)
    {
      length := Min(seekPoint, |front.bytes|);
      DrainFront(front, length);
    }

    /** Dropping k bytes and copying m is the tail of copying k + m: the same bytes come out, and
        the same stay in the buffer. */
    method SkipThenCopy(k: nat, m: nat) returns (left: nat, copied: seq<byte>)
      requires Settled()
      modifies this`totalBytesInBuffer, this`dataLastSize, Queues(), DataChunks()
      ensures Settled() && Partial() == old(Partial()) && Ring() == old(Ring())
      ensures left == 0 <==> k <= |old(DataBytes())|
      ensures copied == Suffix(Prefix(old(DataBytes()), k + m), k)
      ensures DataBytes() == Suffix(old(DataBytes()), k + m)
    {
      ghost var s := DataBytes();
      left := DiscardDataUpto(k);
      ghost var rest := DataBytes();
      assert rest == Suffix(s, k);
      copied := WriteIntoRawBuffer(m);
      SkipCopies(s, k, m, copied);
    }

    /** The bytes of the data queue's front chunk. */
    ghost function FrontData(): seq<byte>
      requires QueuesOk()
      reads Queues(), Chunks()
    {
      FrontBytes(View(dataBuffer.Contents))
    }

    /** One round of the copy that leaves the bytes where they are. */
    method PeekRound(size: nat) returns (enough: bool, copied: seq<byte>)
      requires Settled() && dataBuffer.Contents != []
      modifies this`totalBytesInBuffer, this`dataLastSize, Queues(), DataFront()
      ensures Settled() && DataBytes() == old(DataBytes()) && Partial() == old(Partial())
      ensures dataBuffer.Contents == old(dataBuffer.Contents) && cacheBuffer.Contents == old(cacheBuffer.Contents)
      ensures FrontData() == old(FrontData()) != []
      ensures enough == (size < |FrontData()|) && copied == Prefix(FrontData(), size)
    {
      FilledStream(View(dataBuffer.Contents), View(cacheBuffer.Contents));
      assert FilledAt(View(dataBuffer.Contents), 0);
      var ptr := GetDataPtr();
      var chunk := ptr.value;
      var itemCount := EnoughSize(|chunk.bytes|, size).1;
      enough := EnoughSize(|chunk.bytes|, size).0;
      copied := chunk.bytes[..itemCount];
      PutDataPtr(false);
    }

    /** write_into_raw_buffer with remove_data false looks at the front chunk again and again:
        whenever the queue is not empty it fills the whole destination, with the front chunk
        repeated. */
    method PeekIntoRawBuffer(size: nat) returns (copied: seq<byte>)
      requires Settled()
      modifies this`totalBytesInBuffer, this`dataLastSize, Queues(), DataFront()
      ensures Settled() && DataBytes() == old(DataBytes()) && Partial() == old(Partial())
      ensures dataBuffer.Contents == old(dataBuffer.Contents) && cacheBuffer.Contents == old(cacheBuffer.Contents)
      ensures copied == Repeated(old(FrontData()), size)
      decreases size
    {
      var empty := dataBuffer.IsEmpty();
      if empty {
        return [];
      }
      var enough, round := PeekRound(size);
      RepeatedTurns(FrontData(), size);
      copied := round;
      if !enough && size - |round| > 0 {
        var rest := PeekIntoRawBuffer(size - |round|);
        copied := round + rest;
      }
    }

    /** Empties the data queue: every filled chunk is cleared and given back. */
    method ClearData()
      requires Settled()
      modifies this`totalBytesInBuffer, this`dataLastSize, Queues(), DataChunks()
      ensures Settled() && DataBytes() == [] && Partial() == old(Partial())
      ensures dataBuffer.Contents == [] && Ring() == old(Ring())
    {
      ghost var ring, partial := Ring(), Partial();
      var ptr := AskFront();
      while ptr.Live?
        invariant AtFront(ptr) && DataChunks() <= old(DataChunks())
        invariant Ring() == ring && Partial() == partial
        decreases |dataBuffer.Contents|
      {
        ptr := ClearNext(ptr.value);
      }
    }

    /** get_data_ptr has returned this. */
    ghost predicate AtFront(ptr: Slot<Chunk>)
      reads this, Queues(), if QueuesOk() then Chunks() else {}
    {
      && Settled()
      && ptr == (if dataBuffer.Contents == [] then Raw else Live(dataBuffer.Contents[0]))
      && (ptr.Live? ==> dataLastSize == |ptr.value.bytes|)
    }

    /** get_data_ptr with no edit under way. */
    method AskFront() returns (ptr: Slot<Chunk>)
      requires Settled()
      modifies this`dataLastSize
      ensures AtFront(ptr) && Ring() == old(Ring()) && Partial() == old(Partial()) && DataBytes() == old(DataBytes())
    {
      ptr := GetDataPtr();
    }

    /** One round of clear_data and the next get_data_ptr. */
    method ClearNext(front: Chunk) returns (ptr: Slot<Chunk>)
      requires AtFront(Live(front))
      modifies this`totalBytesInBuffer, this`dataLastSize, Queues(), front
      ensures AtFront(ptr) && Ring() == old(Ring()) && Partial() == old(Partial())
      ensures |dataBuffer.Contents| < old(|dataBuffer.Contents|) && DataChunks() <= old(DataChunks())
    {
      ClearRound(front);
      ptr := AskFront();
    }

    /** One round of clear_data. */
    method ClearRound(front: Chunk)
      requires Settled() && dataBuffer.Contents != [] && front == dataBuffer.Contents[0]
      requires dataLastSize == |front.bytes|
      modifies this`totalBytesInBuffer, Queues(), front
      ensures Settled() && Partial() == old(Partial())
      ensures Ring() == old(Ring()) && DataChunks() <= old(DataChunks())
      ensures dataBuffer.Contents == old(dataBuffer.Contents)[1..]
    {
      RingTurns(cacheBuffer.Contents, dataBuffer.Contents);
      ClearFront(front);
      PutDataPtr(true);
    }

    /** The edit of one round of clear_data. */
    method ClearFront(front: Chunk)
      requires Valid(false) && dataBuffer.Contents != [] && front == dataBuffer.Contents[0]
      modifies front
      ensures Valid(true) && front.bytes == []
      ensures Partial() == old(Partial())
      ensures |DataBytes()| == |old(DataBytes())| - old(|front.bytes|)
    {
      ghost var d, c := dataBuffer.Contents, cacheBuffer.Contents;
      ghost var dv, cv := View(d), View(c);
      ReturnShared(d, c, bufferSizeCount);
      EraseFront(dv, |dv[0]|);
      EditShaped(dv, cv, dv[0][|dv[0]|..]);
      front.Clear();
      assert View(d) == [dv[0][|dv[0]|..]] + dv[1..];
      assert View(c) == cv;
    }

    /** Throws away what the producer has put into its unfinished chunk. A chunk without room
        counts as full and leaves the pool. */
    method ClearCache()
      requires Settled()
      modifies this`totalBytesInBuffer, this`cacheLastSize, Queues()
      modifies (if cacheBuffer.Contents == [] then {} else {cacheBuffer.Contents[0]})`bytes
      ensures Settled() && DataBytes() == old(DataBytes()) && Partial() == []
      ensures dataBuffer.Contents == old(dataBuffer.Contents)
      ensures var c := old(cacheBuffer.Contents);
        cacheBuffer.Contents == if c != [] && old(c[0].capacity) == 0 then c[1..] else c
      ensures FreeChunks() <= old(FreeChunks())
    {
      var ptr := GetCachePtr();
      if ptr.Live? {
        EmptyPartial(ptr.value);
        PutCachePtr(false);
      }
    }

    /** The producer's edit: the front chunk gets `more` bytes at its end, and a tag. */
    method GrowPartial(front: Chunk, more: seq<byte>, first: int)
      requires Valid(false) && cacheBuffer.Contents != [] && front == cacheBuffer.Contents[0]
      modifies front
      ensures Valid(false) && front.first == first && front.capacity == old(front.capacity)
      ensures front.bytes == old(front.bytes) + more
      ensures DataBytes() == old(DataBytes()) && Partial() == old(Partial()) + more
      ensures Stored() == old(Stored()) + more
    {
      Assoc(DataBytes(), Partial(), more);
      ghost var d, c := dataBuffer.Contents, cacheBuffer.Contents;
      ghost var dv, cv := View(d), View(c);
      MoveShared(d, c, bufferSizeCount);
      EditShaped(dv, cv, cv[0] + more);
      front.first := first;
      front.bytes := front.bytes + more;
      assert View(d) == dv;
      assert View(c) == [cv[0] + more] + cv[1..];
    }

    /** Puts the chunk at hand back with `more` bytes at its end. */
    method AppendAndPut(front: Chunk, more: seq<byte>, first: int, rotate: bool)
      requires Settled() && cacheBuffer.Contents != [] && front == cacheBuffer.Contents[0]
      requires cacheLastSize == |front.bytes|
      modifies this`totalBytesInBuffer, Queues(), front
      ensures Settled() && Stored() == old(Stored()) + more
      ensures front.first == first && front.capacity == old(front.capacity) && front.bytes == old(front.bytes) + more
      ensures if |front.bytes| == front.capacity || rotate
        then cacheBuffer.Contents == old(cacheBuffer.Contents)[1..] && Partial() == []
        else cacheBuffer.Contents == old(cacheBuffer.Contents)
    {
      GrowPartial(front, more, first);
      PutCachePtr(rotate);
    }

    method EmptyPartial(front: Chunk)
      requires Valid(false) && cacheBuffer.Contents != [] && front == cacheBuffer.Contents[0]
      modifies front`bytes
      ensures Valid(false) && front.bytes == [] && front.capacity == old(front.capacity)
      ensures DataBytes() == old(DataBytes()) && Partial() == []
    {
      ghost var d, c := dataBuffer.Contents, cacheBuffer.Contents;
      ghost var dv, cv := View(d), View(c);
      MoveShared(d, c, bufferSizeCount);
      EditShaped(dv, cv, []);
      front.Clear();
      assert View(d) == dv;
      assert View(c) == [[]] + cv[1..];
    }

    /** Hands the unfinished chunk over as it is; an empty one leaves the pool. */
    method SyncCache()
      requires Settled()
      modifies this`totalBytesInBuffer, this`cacheLastSize, Queues()
      ensures Settled() && DataBytes() == old(DataBytes()) + old(Partial()) && Partial() == []
      ensures cacheBuffer.Contents == if old(cacheBuffer.Contents) == [] then [] else old(cacheBuffer.Contents)[1..]
    {
      var ptr := GetCachePtr();
      if ptr.Live? {
        PutCachePtr(true);
      }
    }

    function TotalBytesInBufferGuess(): (n: int)
      requires Settled()
      reads this, Queues(), if QueuesOk() then Chunks() else {}
      ensures n == |DataBytes()| + |Partial()|
    {
      totalBytesInBuffer
    }

    method IsDataEmpty() returns (empty: bool)
      requires Settled()
      ensures empty <==> DataBytes() == []
    {
      FilledStream(View(dataBuffer.Contents), View(cacheBuffer.Contents));
      empty := dataBuffer.IsEmpty();
    }
  }
}
