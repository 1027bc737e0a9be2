/** How much of the stream the decoder has taken: the last-read window never reaches beyond the
    data queue, so what a file seek clears is not part of it. */
module PlaybackWindow {
  import opened Bytes
  import opened Pipeline
  import opened Playback

  // ----- what steps leave alone -----

  predicate Edits(e: Event) {
    e.ProdAppend? || e.ProdClear? || e.ConsDrop? || e.ConsPrepend? || e.ConsCleared?
  }

  /** Which events touch what. */
  lemma StepFrame(s: State, e: Event)
    requires Enabled(s, e)
    ensures !Edits(e) ==> Step(s, e).chunks == s.chunks
    ensures !Edits(e) || e.ConsCleared? ==> Step(s, e).pipe == s.pipe
    ensures !e.ProdRead? && !e.ConsWrite? ==> Step(s, e).cache.fifo == s.cache.fifo
    ensures !e.ConsRead? && !e.ProdWrite? ==> Step(s, e).data.fifo == s.data.fifo
  {
  }

  /** rotate_data clears a chunk that is already empty. */
  lemma ClearingIsIdle(s: State)
    requires Enabled(s, ConsCleared) && Inv(s)
    ensures Step(s, ConsCleared).chunks == s.chunks
  {
    assert BytesOf(s.chunks, ConsFlight(s)[0]) == [];
  }

  lemma InnerChunks(s: State, e: Event)
    requires IsInner(e) && Enabled(s, e) && Inv(s)
    ensures Step(s, e).chunks == s.chunks && Step(s, e).pipe == s.pipe
  {
    StepFrame(s, e);
    if e.ConsCleared? { ClearingIsIdle(s); }
  }

  lemma InnerFrame(v: Player, e: Event)
    requires IsInner(e) && Enabled(v.p, e)
    ensures var v' := InnerAct(v, e);
      && v'.p == Step(v.p, e) && v' == v.(p := v'.p, job := v'.job)
      && v' == v.(p := v'.p, readSoFar := v'.readSoFar, closed := v'.closed, job := v'.job, h := v'.h)
  {
  }

  lemma SliceSplit(file: seq<byte>, a: nat, b: nat, k: nat)
    requires a + k <= b <= |file|
    ensures file[a..b][k..] == file[a + k..b] && file[a..b][..k] == file[a..a + k]
  {
  }

  lemma SliceJoin(file: seq<byte>, a: nat, b: nat, c: nat)
    requires a <= b <= c <= |file|
    ensures file[a..b] + file[b..c] == file[a..c]
  {
  }

  // ----- an edit and the put that follows it -----

  lemma ProdEditPutFrame(p: State, e: Event, rotate: bool)
    requires Enabled(p, e) && (e.ProdAppend? || e.ProdClear?)
    ensures var p' := ProdEditPut(p, e, rotate);
      && p'.chunks == Step(p, e).chunks && p'.pipe == Step(p, e).pipe
      && p'.cache.fifo == p.cache.fifo && p'.prod == PPut(p.prod.id, rotate)
  {
  }

  lemma ConsEditPutFrame(p: State, e: Event)
    requires Enabled(p, e) && (e.ConsDrop? || e.ConsPrepend?)
    ensures var p' := ConsEditPut(p, e);
      && p'.chunks == Step(p, e).chunks && p'.pipe == Step(p, e).pipe
      && p'.cache == p.cache && p'.prod == p.prod && p'.data.fifo == p.data.fifo
  {
  }

  /** The chunk in the consumer's hands is the beginning of the pipe. */
  lemma FrontIsPrefix(p: State)
    requires Inv(p) && p.cons.CHold?
    ensures p.cons.id < |p.chunks| && p.chunks[p.cons.id].bytes <= p.pipe
  {
    assert StreamOrder(p)[0] == p.cons.id;
    assert Held(p)[0] == p.cons.id && p.cons.id in Held(p);
  }

  /** The stream position up to which the decoder has taken bytes out of the pipe. */
  function Consumed(v: Player): int {
    match v.call
    case Copying(_, got, _) => v.pos + |got|
    case Skipping(target, left, _) => target - left
    case Far(_, passed) => v.pos + passed
    case Landed(_, passed) => v.pos + passed
    case _ => v.pos
  }

  // ----- the bytes of the data queue -----

  function DataSize(p: State): nat {
    |Contents(p.chunks, p.data.fifo)|
  }

  /** What has been read, and what is ready, reaches at least as far as the window. */
  predicate WindowOk(v: Player) {
    v.lastEnd <= Consumed(v) + DataSize(v.p)
  }

  /** No inner step takes bytes out of the data queue: rotate_data takes an emptied chunk. */
  lemma InnerData(p: State, e: Event)
    requires IsInner(e) && Enabled(p, e) && Inv(p)
    ensures DataSize(Step(p, e)) >= DataSize(p)
  {
    InnerChunks(p, e);
    if e.ConsRead? {
      ConsReadQueues(p);
    } else if e.ProdWrite? {
      RoomForFlight(p);
      ProdWriteQueues(p);
      ContentsAppend(p.chunks, p.data.fifo, [p.prod.id]);
    } else {
      StepFrame(p, e);
    }
  }

  /** The reader's edits stay out of the data queue. */
  lemma ProdEditData(p: State, e: Event, rotate: bool)
    requires Enabled(p, e) && (e.ProdAppend? || e.ProdClear?) && PoolOk(p) && ProdAt(p)
    ensures DataSize(ProdEditPut(p, e, rotate)) == DataSize(p)
  {
    ProdEditPutFrame(p, e, rotate);
    CacheFrontDisjoint(p, p.prod.id);
    ContentsAgree(p.chunks, ProdEditPut(p, e, rotate).chunks, p.data.fifo);
  }

  /** The decoder's edits change the front chunk only. */
  lemma ConsEditData(p: State, e: Event)
    requires Enabled(p, e) && (e.ConsDrop? || e.ConsPrepend?) && PoolOk(p) && ConsAt(p)
    ensures DataSize(ConsEditPut(p, e)) == DataSize(p) + if e.ConsDrop? then 0 - e.k else |e.bs|
  {
    ConsEditPutFrame(p, e);
    DataFrontDisjoint(p, p.cons.id);
    ContentsAgree(p.chunks, ConsEditPut(p, e).chunks, p.data.fifo[1..]);
  }

  lemma InnerWindow(v: Player, e: Event)
    requires IsInner(e) && Enabled(v.p, e) && Inv(v.p) && WindowOk(v)
    ensures WindowOk(InnerAct(v, e))
  {
    InnerData(v.p, e);
    InnerFrame(v, e);
  }

  lemma FileWindow(v: Player, a: Action, file: seq<byte>, maxChunk: nat)
    requires Inv(v.p) && WindowOk(v) && FileAction(a) && CanFile(v, a, file, maxChunk)
    ensures WindowOk(FileAct(v, a, file, maxChunk))
  {
    FileMoves(v, a, file, maxChunk);
    if a.Fill? {
      var n := Obtained(v, file, maxChunk);
      ProdEditData(v.p, FillEvent(v, file, maxChunk), v.readSoFar + n == |file| || n < Wanted(v, maxChunk));
    } else if a.ClearFront? {
      ProdEditData(v.p, ProdClear, false);
    }
  }

  lemma FileMoves(v: Player, a: Action, file: seq<byte>, maxChunk: nat)
    requires FileAction(a) && CanFile(v, a, file, maxChunk)
    ensures var v' := FileAct(v, a, file, maxChunk);
      && v'.lastEnd == v.lastEnd && Consumed(v') == Consumed(v)
      && (!a.Fill? && !a.ClearFront? ==> DataSize(v'.p) == DataSize(v.p))
  {
  }

  lemma RegisterWindow(v: Player, a: Action, file: seq<byte>)
    requires WindowOk(v) && Register(a) && CanRegister(v, a, file)
    ensures WindowOk(RegisterAct(v, a, file))
  {
  }

  /** A round moves bytes from the data queue to the decoder. */
  lemma DropMoves(v: Player, a: Action)
    requires (a.CopyDrop? || a.SkipDrop? || a.FarDrop?) && CanChunk(v, a)
    ensures var v' := ChunkAct(v, a);
      && v'.p == ConsEditPut(v.p, ConsDrop(Taken(v))) && v'.lastEnd == v.lastEnd
      && Consumed(v') == Consumed(v) + Taken(v)
  {
  }

  /** A push-back moves them back again. */
  lemma BackMoves(v: Player)
    requires CanChunk(v, BackEdit)
    ensures var v' := ChunkAct(v, BackEdit);
      && v'.p == ConsEditPut(v.p, PushBackEvent(v)) && v'.lastEnd == v.lastEnd
      && Consumed(v') == Consumed(v) - |PushBackEvent(v).bs|
  {
  }

  lemma GetMoves(v: Player, a: Action)
    requires (a.CopyGet? || a.BackGet? || a.SkipGet? || a.FarGet?) && CanChunk(v, a)
    ensures var v' := ChunkAct(v, a);
      DataSize(v'.p) == DataSize(v.p) && v'.lastEnd == v.lastEnd && Consumed(v') == Consumed(v)
  {
  }

  lemma ChunkWindow(v: Player, a: Action)
    requires Inv(v.p) && WindowOk(v) && ChunkAction(a) && CanChunk(v, a)
    ensures WindowOk(ChunkAct(v, a))
  {
    if a.CopyDrop? || a.SkipDrop? || a.FarDrop? {
      DropMoves(v, a);
      ConsEditData(v.p, ConsDrop(Taken(v)));
    } else if a.BackEdit? {
      BackMoves(v);
      ConsEditData(v.p, PushBackEvent(v));
    } else {
      GetMoves(v, a);
    }
  }

  /** At no time in any interleaving does the window reach beyond the data queue. */
  lemma ActKeepsWindow(v: Player, file: seq<byte>, maxChunk: nat, a: Action)
    requires Inv(v.p) && WindowOk(v) && CanAct(v, a, file, maxChunk)
    ensures WindowOk(Act(v, a, file, maxChunk))
  {
    if a.Inner? {
      InnerWindow(v, a.e);
    } else if FileAction(a) {
      FileWindow(v, a, file, maxChunk);
    } else if Register(a) {
      RegisterWindow(v, a, file);
    } else {
      ChunkWindow(v, a);
    }
  }
}
