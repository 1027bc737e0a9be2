/** producerconsumerqueue.h as a class, for callers that use it from one thread at a time. The
    interleavings of a writer and a reader are in `RingSteps`. */
module SpscQueue {
  import opened RingSteps

  /** Slot j, counted from readIndex, holds element j, or is raw behind the last element. */
  ghost predicate SlotIs<T>(slots: seq<Slot<T>>, readIndex: nat, q: seq<T>, j: nat)
    requires readIndex < |slots| && j < |slots|
  {
    slots[At(|slots|, readIndex, j)] == if j < |q| then Live(q[j]) else Raw
  }

  ghost predicate Holds<T>(slots: seq<Slot<T>>, readIndex: nat, q: seq<T>)
    requires readIndex < |slots|
  {
    forall j: nat {:trigger SlotIs(slots, readIndex, q, j)} :: j < |slots| ==> SlotIs(slots, readIndex, q, j)
  }

  /** Constructing an object in the first free slot appends it. */
  lemma PushHolds<T>(slots: seq<Slot<T>>, readIndex: nat, q: seq<T>, x: T)
    requires readIndex < |slots| && |q| < |slots| && Holds(slots, readIndex, q)
    ensures Holds(slots[At(|slots|, readIndex, |q|) := Live(x)], readIndex, q + [x])
  {
    var slots' := slots[At(|slots|, readIndex, |q|) := Live(x)];
    forall j: nat | j < |slots|
      ensures SlotIs(slots', readIndex, q + [x], j)
    {
      assert SlotIs(slots, readIndex, q, j);
    }
  }

  /** Destroying the front slot and advancing readIndex takes the oldest element. */
  lemma PopHolds<T>(slots: seq<Slot<T>>, readIndex: nat, q: seq<T>)
    requires readIndex < |slots| && 0 < |q| < |slots| && Holds(slots, readIndex, q)
    ensures slots[readIndex] == Live(q[0])
    ensures Holds(slots[readIndex := Raw], Succ(|slots|, readIndex), q[1..])
  {
    assert SlotIs(slots, readIndex, q, 0);
    var slots', r' := slots[readIndex := Raw], Succ(|slots|, readIndex);
    forall j: nat | j < |slots|
      ensures SlotIs(slots', r', q[1..], j)
    {
      if j + 1 < |slots| { assert SlotIs(slots, readIndex, q, j + 1); }
    }
  }

  class ProducerConsumerQueue<T> {
    const size: nat
    const records: array<Slot<T>>
    var readIndex: nat
    var writeIndex: nat

    ghost var Contents: seq<T>  // the queued elements, oldest first

    ghost predicate Valid()
      reads this, records
    {
      && 2 <= size && records.Length == size
      && readIndex < size && writeIndex < size
      && |Contents| < size && writeIndex == At(size, readIndex, |Contents|)
      && Holds(records[..], readIndex, Contents)
    }

    constructor (size: nat)
      requires 2 <= size
      ensures Valid() && fresh(records)
      ensures Contents == [] && this.size == size
    {
      this.size := size;
      records := new Slot<T>[size](_ => Raw);
      readIndex, writeIndex := 0, 0;
      Contents := [];
    }

    /** Appends, unless size - 1 elements are queued already. */
    method Write(x: T) returns (ok: bool)
      requires Valid()
      modifies this, records
      ensures Valid()
      ensures ok == (|old(Contents)| < size - 1)
      ensures Contents == if ok then old(Contents) + [x] else old(Contents)
    {
      var currentWrite := writeIndex;
      var nextRecord := currentWrite + 1;
      if nextRecord == size {
        nextRecord := 0;
      }
      if nextRecord != readIndex {
        PushHolds(records[..], readIndex, Contents, x);
        records[currentWrite] := Live(x);
        writeIndex := nextRecord;
        Contents := Contents + [x];
        assert records[..] == old(records[..])[currentWrite := Live(x)];
        return true;
      }
      return false;
    }

    /** Takes the oldest element; `Raw` stands for the result false. */
    method Read() returns (record: Slot<T>)
      requires Valid()
      modifies this, records
      ensures Valid()
      ensures record == Raw || record.Live?
      ensures record.Live? ==> old(Contents) == [record.value] + Contents
      ensures record.Raw? ==> old(Contents) == [] && Contents == []
    {
      var currentRead := readIndex;
      if currentRead == writeIndex {
        return Raw;
      }
      var nextRecord := currentRead + 1;
      if nextRecord == size {
        nextRecord := 0;
      }
      PopHolds(records[..], readIndex, Contents);
      record := records[currentRead];
      records[currentRead] := MovedFrom;
      records[currentRead] := Raw;
      readIndex := nextRecord;
      Contents := Contents[1..];
      assert records[..] == old(records[..])[currentRead := Raw];
    }

    /** Destroys the oldest element in place; the queue must not be empty. */
    method PopFront()
      requires Valid() && Contents != []
      modifies this, records
      ensures Valid() && Contents == old(Contents)[1..]
    {
      var currentRead := readIndex;
      var nextRecord := currentRead + 1;
      if nextRecord == size {
        nextRecord := 0;
      }
      PopHolds(records[..], readIndex, Contents);
      records[currentRead] := Raw;
      readIndex := nextRecord;
      Contents := Contents[1..];
      assert records[..] == old(records[..])[currentRead := Raw];
    }

    /** The oldest element, left in place; `Raw` stands for nullptr. */
    method FrontPtr() returns (front: Slot<T>)
      requires Valid()
      ensures front == if Contents == [] then Raw else Live(Contents[0])
    {
      if readIndex == writeIndex {
        return Raw;
      }
      assert SlotIs(records[..], readIndex, Contents, 0);
      return records[readIndex];
    }

    method IsEmpty() returns (empty: bool)
      requires Valid()
      ensures empty <==> Contents == []
    {
      return readIndex == writeIndex;
    }

    method IsFull() returns (full: bool)
      requires Valid()
      ensures full <==> |Contents| == size - 1
    {
      var nextRecord := writeIndex + 1;
      if nextRecord == size {
        nextRecord := 0;
      }
      return nextRecord == readIndex;
    }

    method SizeGuess() returns (n: int)
      requires Valid()
      ensures n == |Contents|
    {
      n := writeIndex - readIndex;
      if n < 0 {
        n := n + size;
      }
    }
  }
}
