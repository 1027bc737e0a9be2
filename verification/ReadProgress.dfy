/** A read never comes back empty-handed: the wait loop of `decoder_read_buffer` looks at the
    counter and then at the data queue, both shared with the other thread, and every chunk it
    then reaches for holds bytes. */
module ReadProgress {
  import opened Bytes
  import opened RingSteps
  import opened Pipeline
  import opened Playback
  import opened PlaybackProofs

  /** Between two calls, and in one that has not asked for a chunk yet, no chunk is held. */
  predicate AtRest(v: Player) {
    (v.call.NoCall? || v.call.Waiting? || (v.call.Copying? && v.call.phase.Fresh?)) ==> v.p.cons.CIdle?
  }

  /** get_data_ptr is under way to a chunk with bytes in it. */
  predicate OnTheWay(p: State) {
    && p.data.fifo != []
    && match p.cons
       case CAskEmpty => p.data.r != REmpty(true)
       case CAskFront => true
       case CHold(id) => BytesOf(p.chunks, id) != []
       case _ => false
  }

  /** A read that asks for bytes and has none yet. */
  predicate Hungry(c: Call) {
    c.Copying? && 0 < c.want && c.got == []
  }

  predicate Reaching(v: Player) {
    Hungry(v.call) ==>
      v.p.data.fifo != [] && (v.call.phase.Fresh? || (v.call.phase.Busy? && OnTheWay(v.p)))
  }

  predicate ReadOk(v: Player) { AtRest(v) && Reaching(v) }

  // ----- the queue side -----

  /** isEmpty answers true only on an empty queue. */
  lemma EmptyIsExact(c: Channel)
    requires Good(c) && CanRead(c) && ReadStep(c).r == REmpty(true)
    ensures c.fifo == []
  {
    ReaderStepRefines(c.ring, c.w, c.r, c.fifo);
  }

  lemma ReadOnTheWay(p: State)
    requires Enabled(p, ConsRead) && QueuesOk(p) && OnTheWay(p)
    ensures OnTheWay(Step(p, ConsRead))
  {
    ConsReadQueues(p);
    if ReadStep(p.data).r == REmpty(true) { EmptyIsExact(p.data); }
  }

  lemma FrontOnTheWay(p: State)
    requires Enabled(p, ConsFront) && QueuesOk(p) && ShapeOk(p) && OnTheWay(p)
    ensures OnTheWay(Step(p, ConsFront))
  {
    FrontIsOldest(p.data);
    assert RuleOf(p) == NonEmpty;
  }

  predicate ProdStep(e: Event) {
    e.ProdRead? || e.ProdWrite? || e.ProdEmpty? || e.ProdFront? || e.ProdPutFront? || e.ProdAccount? ||
    e.ProdTaken? || e.ProdGiven?
  }

  /** The producer's inner steps leave the consumer's side and the chunks alone. */
  lemma ProdStepFrame(p: State, e: Event)
    requires ProdStep(e) && Enabled(p, e)
    ensures var p' := Step(p, e);
      p'.cons == p.cons && p'.data.r == p.data.r && p'.chunks == p.chunks
      && (!e.ProdWrite? ==> p'.data.fifo == p.data.fifo)
  {
  }

  /** Only the consumer takes chunks out of the data queue. */
  lemma ProdKeepsFilled(p: State, e: Event)
    requires ProdStep(e) && Enabled(p, e) && Inv(p) && p.data.fifo != []
    ensures Step(p, e).data.fifo != []
  {
    if e.ProdWrite? {
      RoomForFlight(p);
      ProdWriteQueues(p);
    } else {
      ProdStepFrame(p, e);
    }
  }

  lemma ConsOnTheWay(p: State, e: Event)
    requires !ProdStep(e) && IsInner(e) && Enabled(p, e) && QueuesOk(p) && ShapeOk(p) && OnTheWay(p)
    ensures OnTheWay(Step(p, e))
  {
    if e.ConsRead? {
      ReadOnTheWay(p);
    } else if e.ConsFront? {
      FrontOnTheWay(p);
    } else {
      assert e.ConsEmpty?;
    }
  }

  lemma InnerOnTheWay(p: State, e: Event)
    requires IsInner(e) && Enabled(p, e) && Inv(p) && OnTheWay(p)
    ensures OnTheWay(Step(p, e))
  {
    if ProdStep(e) {
      ProdStepFrame(p, e);
      ProdKeepsFilled(p, e);
    } else {
      ConsOnTheWay(p, e);
    }
  }

  lemma IdleMeansProd(p: State, e: Event)
    requires IsInner(e) && Enabled(p, e) && p.cons.CIdle?
    ensures ProdStep(e)
  {
  }

  lemma InnerAtRest(v: Player, e: Event)
    requires IsInner(e) && Enabled(v.p, e) && AtRest(v)
    ensures AtRest(InnerAct(v, e))
  {
    if v.p.cons.CIdle? {
      IdleMeansProd(v.p, e);
      ProdStepFrame(v.p, e);
    }
  }

  lemma InnerReadOk(v: Player, e: Event)
    requires IsInner(e) && Enabled(v.p, e) && Inv(v.p) && ReadOk(v)
    ensures ReadOk(InnerAct(v, e))
  {
    InnerAtRest(v, e);
    if Hungry(v.call) {
      if v.call.phase.Fresh? {
        IdleMeansProd(v.p, e);
        ProdKeepsFilled(v.p, e);
      } else {
        InnerOnTheWay(v.p, e);
      }
    }
  }

  // ----- the file reader's steps -----

  /** An edit of the producer's chunk is invisible to the consumer. */
  lemma EditOnTheWay(p: State, e: Event, rotate: bool)
    requires Inv(p) && Enabled(p, e) && (e.ProdAppend? || e.ProdClear?)
    ensures var p' := ProdEditPut(p, e, rotate);
      p'.cons == p.cons && p'.data == p.data && (OnTheWay(p) ==> OnTheWay(p'))
  {
    if p.cons.CHold? { FrontsDiffer(p); }
  }

  lemma FileReadOk(v: Player, file: seq<byte>, maxChunk: nat, a: Action)
    requires Inv(v.p) && ReadOk(v) && FileAction(a) && CanFile(v, a, file, maxChunk)
    ensures ReadOk(FileAct(v, a, file, maxChunk))
  {
    match a
    case Fill =>
      var n := Obtained(v, file, maxChunk);
      EditOnTheWay(v.p, FillEvent(v, file, maxChunk), v.readSoFar + n == |file| || n < Wanted(v, maxChunk));
    case ClearFront => EditOnTheWay(v.p, ProdClear, false);
    case _ =>
  }

  // ----- the decoder's steps -----

  /** The guard of the wait loop lets a read begin on a non-empty data queue, or at the end of
      the stream, where nothing is asked for. */
  lemma RegisterReadOk(v: Player, file: seq<byte>, a: Action)
    requires CallOk(v, file) && ReadOk(v) && Register(a) && CanRegister(v, a, file)
    ensures ReadOk(RegisterAct(v, a, file))
  {
  }

  lemma ChunkReadOk(v: Player, a: Action)
    requires ConsAt(v.p) && ReadOk(v) && ChunkAction(a) && CanChunk(v, a)
    ensures ReadOk(ChunkAct(v, a))
  {
    match a
    case CopyDrop => DropReadOk(v);
    case _ =>
  }

  lemma DropReadOk(v: Player)
    requires ReadOk(v) && CanChunk(v, CopyDrop)
    ensures ReadOk(ChunkAct(v, CopyDrop))
  {
    if Hungry(v.call) {
      assert 0 < Taken(v);
    }
  }

  lemma ActReadOk(v: Player, file: seq<byte>, maxChunk: nat, a: Action)
    requires Inv(v.p) && CallOk(v, file) && ReadOk(v) && CanAct(v, a, file, maxChunk)
    ensures ReadOk(Act(v, a, file, maxChunk))
  {
    if a.Inner? {
      InnerReadOk(v, a.e);
    } else if FileAction(a) {
      FileReadOk(v, file, maxChunk, a);
    } else if Register(a) {
      RegisterReadOk(v, file, a);
    } else {
      ChunkReadOk(v, a);
    }
  }

  lemma MovesReadOk(v: Player, v': Player, file: seq<byte>, maxChunk: nat)
    requires PlayInv(v, file) && ReadOk(v) && Moves(v, v', file, maxChunk)
    ensures ReadOk(v')
  {
    var a :| CanAct(v, a, file, maxChunk) && v' == Act(v, a, file, maxChunk);
    ActReadOk(v, file, maxChunk, a);
  }

  lemma {:induction false} SessionReadOk(
    trace: seq<Player>, file: seq<byte>, maxChunk: nat, n: nat, elemSize: nat, k: nat)
    requires Session(trace, file, maxChunk, n, elemSize) && k < |trace|
    ensures ReadOk(trace[k])
  {
    if k == 0 {
    } else {
      var m := k - 1;
      SessionReadOk(trace, file, maxChunk, n, elemSize, m);
      SessionInv(trace, file, maxChunk, n, elemSize, m);
      assert Moves(trace[m], trace[m + 1], file, maxChunk);
      MovesReadOk(trace[m], trace[m + 1], file, maxChunk);
    }
  }

  // ----- the call as a whole -----

  predicate Asking(c: Call) { c.Waiting? || c.Copying? }

  /** Inside a call, a read keeps the position and the number of bytes it asks for. */
  predicate HoldsRead(v: Player, v': Player) {
    Asking(v.call) && Asking(v'.call) ==> v'.pos == v.pos && v'.call.want == v.call.want
  }

  lemma MovesHoldRead(v: Player, v': Player, file: seq<byte>, maxChunk: nat)
    requires Moves(v, v', file, maxChunk)
    ensures HoldsRead(v, v')
  {
    var a :| CanAct(v, a, file, maxChunk) && v' == Act(v, a, file, maxChunk);
    if a.Inner? {
      InnerHoldsRead(v, a.e);
    } else if FileAction(a) {
      FileHoldsRead(v, a, file, maxChunk);
    } else if Register(a) {
      RegisterHoldsRead(v, a, file);
    } else {
      ChunkHoldsRead(v, a);
    }
  }

  lemma InnerHoldsRead(v: Player, e: Event)
    requires IsInner(e) && Enabled(v.p, e)
    ensures HoldsRead(v, InnerAct(v, e))
  {
  }

  lemma FileHoldsRead(v: Player, a: Action, file: seq<byte>, maxChunk: nat)
    requires FileAction(a) && CanFile(v, a, file, maxChunk)
    ensures HoldsRead(v, FileAct(v, a, file, maxChunk))
  {
  }

  lemma RegisterHoldsRead(v: Player, a: Action, file: seq<byte>)
    requires Register(a) && CanRegister(v, a, file)
    ensures HoldsRead(v, RegisterAct(v, a, file))
  {
  }

  lemma ChunkHoldsRead(v: Player, a: Action)
    requires ChunkAction(a) && CanChunk(v, a)
    ensures HoldsRead(v, ChunkAct(v, a))
  {
  }

  lemma AllHoldRead(trace: seq<Player>, file: seq<byte>, maxChunk: nat, n: nat, elemSize: nat)
    requires Session(trace, file, maxChunk, n, elemSize)
    ensures forall k {:trigger HoldsRead(trace[k], trace[k + 1])} :: 0 <= k < |trace| - 1 ==>
      HoldsRead(trace[k], trace[k + 1])
  {
    forall k | 0 <= k < |trace| - 1
      ensures HoldsRead(trace[k], trace[k + 1])
    {
      MovesHoldRead(trace[k], trace[k + 1], file, maxChunk);
    }
  }

  lemma {:induction false} ReadSegment(trace: seq<Player>, i: nat, j: nat)
    requires i <= j < |trace| && forall k :: i <= k <= j ==> Asking(trace[k].call)
    requires forall k {:trigger HoldsRead(trace[k], trace[k + 1])} :: 0 <= k < |trace| - 1 ==>
      HoldsRead(trace[k], trace[k + 1])
    ensures Asking(trace[i].call) && Asking(trace[j].call)
    ensures trace[j].pos == trace[i].pos && trace[j].call.want == trace[i].call.want
    decreases j
  {
    if j == i {
    } else {
      var k := j - 1;
      ReadSegment(trace, i, k);
      assert HoldsRead(trace[k], trace[k + 1]);
    }
  }

  /** In every interleaving, a read that was begun before the end of the stream with room in
      the caller's buffer and that ends without giving up returns at least one byte, and no more than
      the buffer or the rest of the stream holds. */
  lemma ReadsAreNotEmpty(
    trace: seq<Player>, file: seq<byte>, maxChunk: nat, n: nat, elemSize: nat, i: nat, j: nat, bufSize: nat)
    requires Session(trace, file, maxChunk, n, elemSize) && i < j < |trace|
    requires CanRegister(trace[i], StartRead(bufSize), file)
    requires trace[i + 1] == RegisterAct(trace[i], StartRead(bufSize), file)
    requires forall k :: i < k <= j ==> Asking(trace[k].call)
    requires CanRegister(trace[j], FinishRead, file)
    ensures var got := trace[j].call.got;
      && (0 < bufSize && trace[i].pos < |file| ==> got != [])
      && |got| <= bufSize && trace[i].pos + |got| <= |file|
      && RegisterAct(trace[j], FinishRead, file).pos == trace[i].pos + |got|
  {
    AllHoldRead(trace, file, maxChunk, n, elemSize);
    ReadSegment(trace, i + 1, j);
    SessionReadOk(trace, file, maxChunk, n, elemSize, j);
    SessionInv(trace, file, maxChunk, n, elemSize, j);
    FinishedRead(trace[j], file);
  }

  lemma FinishedRead(v: Player, file: seq<byte>)
    requires ReadOk(v) && PlayInv(v, file) && CanRegister(v, FinishRead, file)
    ensures (0 < v.call.want ==> v.call.got != []) && |v.call.got| <= v.call.want && v.pos + v.call.want <= |file|
    ensures RegisterAct(v, FinishRead, file).pos == v.pos + |v.call.got|
  {
  }
}
