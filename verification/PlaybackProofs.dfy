/** Every interleaving of the file reader and the decoder delivers the file. */
module PlaybackProofs {
  import opened Bytes
  import opened RingSteps
  import opened Pipeline
  import opened PipelineRuns
  import opened Playback
  import opened PlaybackWindow

  // ----- the cache queue holds no bytes after a rotation or a failed get -----

  predicate NoPartial(s: State) {
    AllEmpty(s.chunks, s.cache.fifo)
  }

  predicate CacheDrained(s: State) {
    (s.prod.PAskEmpty? && s.cache.r == REmpty(true)) || s.prod.PGive? || (s.prod.PTake? && s.cache.r.RGot?)
  }

  predicate FreeEmpty(s: State) {
    CacheDrained(s) ==> NoPartial(s)
  }

  lemma ReadShrinksCache(s: State)
    requires Enabled(s, ProdRead) && Inv(s)
    ensures var q := Step(s, ProdRead).cache.fifo; q == s.cache.fifo || (s.cache.fifo != [] && q == s.cache.fifo[1..])
  {
    ProdReadQueues(s);
  }

  lemma WriteKeepsNoPartial(s: State)
    requires Enabled(s, ConsWrite) && Inv(s) && NoPartial(s)
    ensures NoPartial(Step(s, ConsWrite))
  {
    RoomForFlight(s);
    ConsWriteQueues(s);
    assert BytesOf(s.chunks, ConsFlight(s)[0]) == [];
    StepFrame(s, ConsWrite);
  }

  lemma EditKeepsNoPartial(s: State, e: Event)
    requires Enabled(s, e) && PoolOk(s) && ConsAt(s) && NoPartial(s)
    requires e.ConsDrop? || e.ConsPrepend?
    ensures NoPartial(Step(s, e))
  {
    EditDisjoint(s, s.cons.id);
    assert Step(s, e).cache.fifo == s.cache.fifo;
  }

  /** Only an append puts bytes into the cache queue. */
  lemma StepKeepsNoPartial(s: State, e: Event)
    requires Enabled(s, e) && Inv(s) && !e.ProdAppend? && NoPartial(s)
    ensures NoPartial(Step(s, e))
  {
    StepFrame(s, e);
    if e.ConsWrite? {
      WriteKeepsNoPartial(s);
    } else if e.ConsDrop? || e.ConsPrepend? {
      EditKeepsNoPartial(s, e);
    } else if e.ConsCleared? {
      ClearingIsIdle(s);
    } else if e.ProdRead? {
      ReadShrinksCache(s);
    } else if e.ProdClear? {
      assert Step(s, e).cache.fifo == s.cache.fifo;
    }
  }

  /** The rest of the cache queue is empty when the front is taken. */
  lemma RestIsEmpty(s: State)
    requires TailEmpty(s.chunks, s.cache.fifo) && s.cache.fifo != []
    ensures AllEmpty(s.chunks, s.cache.fifo[1..])
  {
    assert forall j :: 0 <= j < |s.cache.fifo[1..]| ==> s.cache.fifo[1..][j] == s.cache.fifo[j + 1];
  }

  lemma ReadDrainsCache(s: State)
    requires Enabled(s, ProdRead) && QueuesOk(s) && ShapeOk(s)
    ensures CacheDrained(Step(s, ProdRead)) ==> NoPartial(Step(s, ProdRead))
  {
    if s.cache.r.RErased? { RestIsEmpty(s); }
  }

  lemma DrainedOnlyByRead(s: State, e: Event)
    requires Enabled(s, e) && ProdAt(s) && !e.ProdRead? && CacheDrained(Step(s, e))
    ensures CacheDrained(s) && !e.ProdAppend?
  {
  }

  lemma StepKeepsFreeEmpty(s: State, e: Event)
    requires Enabled(s, e) && Inv(s) && FreeEmpty(s)
    ensures FreeEmpty(Step(s, e))
  {
    if e.ProdRead? {
      ReadDrainsCache(s);
    } else if CacheDrained(Step(s, e)) {
      DrainedOnlyByRead(s, e);
      StepKeepsNoPartial(s, e);
    }
  }

  // ----- the invariant of the two clients -----

  /** The producer is past the point where try_read or the seek edits the chunk. */
  predicate Handing(prod: Prod) {
    prod.PIdle? || prod.PTake? || prod.PGive? || (prod.PPut? && prod.rotate) || (prod.PAccount? && prod.rotate)
  }

  predicate Getting(prod: Prod) {
    prod.PAskEmpty? || prod.PAskFront? || prod.PHold?
  }

  predicate JobOk(v: Player, file: seq<byte>) {
    && v.readSoFar <= |file|
    && (v.closed ==> v.readSoFar == |file| && NoPartial(v.p))
    && match v.job
       case NoJob => v.p.prod.PIdle?
       case Filling(fin) =>
         && !v.closed
         && (fin ==> v.readSoFar == |file| && Handing(v.p.prod) && (v.p.prod.PIdle? ==> NoPartial(v.p)))
       case Seeking(target, cleared) =>
         && target <= |file| && !v.h.clean
         && (if cleared then NoPartial(v.p) && !Getting(v.p.prod) else Getting(v.p.prod))
  }

  /** An intact chunk holds the file from its tag on. */
  predicate Tagged(c: Chunk, file: seq<byte>) {
    c.intact && c.bytes != [] ==>
      0 <= c.first && c.first + |c.bytes| <= |file| && c.bytes == file[c.first..c.first + |c.bytes|]
  }

  predicate TagsOk(s: State, file: seq<byte>) {
    forall id :: 0 <= id < |s.chunks| ==> Tagged(s.chunks[id], file)
  }

  /** The partly filled chunk ends where the file reader stands. */
  predicate FrontTag(s: State, readSoFar: nat) {
    s.cache.fifo != [] && BytesOf(s.chunks, s.cache.fifo[0]) != [] ==>
      var c := s.chunks[s.cache.fifo[0]];
      c.intact && c.first + |c.bytes| == readSoFar
  }

  predicate CallOk(v: Player, file: seq<byte>) {
    && v.pos <= |file|
    && match v.call
       case Waiting(want, _) => v.pos + want <= |file|
       case Copying(want, got, _) => v.pos + want <= |file| && |got| <= want
       case PushBack(target, m, _) => target + m == v.pos && 0 < m < |v.last|
       case Deciding(target) => target <= |file|
       case Skipping(target, left, _) => v.pos + left <= target <= |file|
       case Far(target, _) => target <= |file|
       case Landed(target, _) => target <= |file|
       case _ => true
  }

  /** The pipe is what the reader has made and the decoder has not taken; the window and what
      has been copied are parts of it too. */
  predicate StreamOk(v: Player) {
    v.h.sound ==>
      && 0 <= Consumed(v) <= |v.h.made|
      && v.p.pipe == v.h.made[Consumed(v)..]
      && (v.call.Copying? ==> v.call.got == v.h.made[v.pos..v.pos + |v.call.got|])
      && |v.last| <= v.lastEnd <= |v.h.made| && v.last == v.h.made[v.lastEnd - |v.last|..v.lastEnd]
      && (!v.sought ==> v.pos <= |v.h.made| && v.delivered == v.h.made[..v.pos])
      && (!v.sought && v.call.Skipping? ==> v.call.target - v.call.left == v.pos)
  }

  /** What the reader has made: `base`, and the file from where the last file seek went. */
  predicate MadeOk(v: Player, file: seq<byte>) {
    && (v.h.clean ==> v.h.sound && v.h.base == [] && v.h.from == 0)
    && (!v.job.Seeking? ==> v.h.from <= v.readSoFar <= |file| && v.h.made == v.h.base + file[v.h.from..v.readSoFar])
  }

  ghost predicate PoolPart(v: Player, file: seq<byte>) {
    && Inv(v.p) && FreeEmpty(v.p)
    && JobOk(v, file)
    && TagsOk(v.p, file) && FrontTag(v.p, v.readSoFar)
  }

  predicate CallPart(v: Player, file: seq<byte>) {
    CallOk(v, file) && StreamOk(v)
  }

  ghost predicate PlayInv(v: Player, file: seq<byte>) {
    PoolPart(v, file) && CallPart(v, file) && WindowOk(v) && MadeOk(v, file)
  }

  // ----- inner steps -----

  lemma InnerJob(v: Player, file: seq<byte>, e: Event)
    requires IsInner(e) && Enabled(v.p, e) && Inv(v.p) && FreeEmpty(v.p) && JobOk(v, file)
    ensures JobOk(InnerAct(v, e), file)
  {
    var v' := InnerAct(v, e);
    if NoPartial(v.p) {
      StepKeepsNoPartial(v.p, e);
    }
    InnerProd(v.p, e);
  }

  /** How inner steps move the producer's program counter. */
  lemma InnerProd(s: State, e: Event)
    requires IsInner(e) && Enabled(s, e) && QueuesOk(s) && ShapeOk(s) && FreeEmpty(s)
    ensures Handing(s.prod) ==> Handing(Step(s, e).prod)
    ensures Handing(s.prod) && !s.prod.PIdle? && Step(s, e).prod.PIdle? ==> NoPartial(s)
    ensures !Getting(s.prod) ==> !Getting(Step(s, e).prod)
    ensures Getting(s.prod) ==> Getting(Step(s, e).prod) || (e.ProdEmpty? && Step(s, e).prod.PIdle? && NoPartial(s))
    ensures s.prod.PIdle? ==> Step(s, e).prod.PIdle?
  {
  }

  /** How inner steps change the cache queue: nothing, the front is gone, or an empty chunk is
      added at the end. */
  predicate QueueMoves(chunks: seq<Chunk>, q: seq<Id>, q': seq<Id>) {
    || q' == q
    || (q != [] && q' == q[1..])
    || (q' != [] && q' == q + [q'[|q'| - 1]] && BytesOf(chunks, q'[|q'| - 1]) == [])
  }

  lemma InnerQueue(s: State, e: Event)
    requires IsInner(e) && Enabled(s, e) && Inv(s)
    ensures QueueMoves(s.chunks, s.cache.fifo, Step(s, e).cache.fifo)
  {
    if e.ProdRead? {
      ReadShrinksCache(s);
    } else if e.ConsWrite? {
      ConsWriteMoves(s);
    } else {
      StepFrame(s, e);
    }
  }

  lemma ConsWriteMoves(s: State)
    requires Enabled(s, ConsWrite) && Inv(s)
    ensures QueueMoves(s.chunks, s.cache.fifo, Step(s, ConsWrite).cache.fifo)
  {
    RoomForFlight(s);
    ConsWriteQueues(s);
    assert BytesOf(s.chunks, ConsFlight(s)[0]) == [];
  }

  lemma FrontTagMoves(s: State, s': State, readSoFar: nat)
    requires TailEmpty(s.chunks, s.cache.fifo) && FrontTag(s, readSoFar)
    requires s'.chunks == s.chunks && QueueMoves(s.chunks, s.cache.fifo, s'.cache.fifo)
    ensures FrontTag(s', readSoFar)
  {
  }

  lemma InnerTags(s: State, file: seq<byte>, readSoFar: nat, e: Event)
    requires IsInner(e) && Enabled(s, e) && Inv(s)
    requires TagsOk(s, file) && FrontTag(s, readSoFar)
    ensures TagsOk(Step(s, e), file) && FrontTag(Step(s, e), readSoFar)
    ensures Step(s, e).pipe == s.pipe
  {
    InnerChunks(s, e);
    InnerQueue(s, e);
    FrontTagMoves(s, Step(s, e), readSoFar);
  }

  lemma InnerPool(v: Player, file: seq<byte>, e: Event)
    requires PoolPart(v, file) && IsInner(e) && Enabled(v.p, e)
    ensures PoolPart(InnerAct(v, e), file)
  {
    StepKeepsInv(v.p, e);
    StepKeepsFreeEmpty(v.p, e);
    InnerJob(v, file, e);
    InnerTags(v.p, file, v.readSoFar, e);
  }

  /** A step that leaves the pipe and the decoder's registers alone. */
  lemma SameCall(v: Player, v': Player, file: seq<byte>)
    requires CallPart(v, file)
    requires v' == v.(p := v'.p, readSoFar := v'.readSoFar, closed := v'.closed, job := v'.job, h := v'.h)
    requires v'.p.pipe == v.p.pipe && v'.h.made == v.h.made && v'.h.sound == v.h.sound
    ensures CallPart(v', file)
  {
  }

  lemma InnerCall(v: Player, file: seq<byte>, e: Event)
    requires Inv(v.p) && CallPart(v, file) && IsInner(e) && Enabled(v.p, e)
    ensures CallPart(InnerAct(v, e), file)
  {
    InnerChunks(v.p, e);
    InnerFrame(v, e);
    SameCall(v, InnerAct(v, e), file);
  }

  // ----- an edit and the put that follows it -----

  lemma ProdEditPutKeeps(p: State, e: Event, rotate: bool)
    requires Inv(p) && Enabled(p, e) && (e.ProdAppend? || e.ProdClear?)
    ensures Inv(ProdEditPut(p, e, rotate))
  {
    StepKeepsInv(p, e);
    StepKeepsInv(Step(p, e), ProdPut(rotate));
  }

  lemma ConsEditPutKeeps(p: State, e: Event)
    requires Inv(p) && Enabled(p, e) && (e.ConsDrop? || e.ConsPrepend?)
    ensures Inv(ConsEditPut(p, e))
  {
    StepKeepsInv(p, e);
    StepKeepsInv(Step(p, e), ConsPut(false));
  }

  // ----- the file reader's steps -----

  /** Filling the front chunk with the next bytes of the file keeps the tags. */
  lemma FillChunk(c: Chunk, file: seq<byte>, readSoFar: nat, n: nat)
    requires Tagged(c, file) && readSoFar + n <= |file|
    requires c.bytes != [] ==> c.intact && c.first + |c.bytes| == readSoFar
    ensures var c' := Appended(c, file[readSoFar..readSoFar + n], c.cap, readSoFar);
      Tagged(c', file) && (c'.bytes != [] ==> c'.intact && c'.first + |c'.bytes| == readSoFar + n)
  {
    if c.bytes != [] {
      assert c.bytes + file[readSoFar..readSoFar + n] == file[c.first..c.first + |c.bytes| + n];
    }
  }

  /** Writing one chunk with a tag, at the front of the cache queue. */
  lemma TagsAfter(p: State, p': State, file: seq<byte>, c: Chunk, readSoFar: nat)
    requires p.cache.fifo != [] && p.cache.fifo[0] < |p.chunks| && TagsOk(p, file)
    requires p'.cache.fifo == p.cache.fifo && p'.chunks == p.chunks[p.cache.fifo[0] := c]
    requires Tagged(c, file) && (c.bytes != [] ==> c.intact && c.first + |c.bytes| == readSoFar)
    ensures TagsOk(p', file) && FrontTag(p', readSoFar)
  {
  }

  lemma FillTags(v: Player, file: seq<byte>, maxChunk: nat)
    requires CanFile(v, Fill, file, maxChunk) && ProdAt(v.p) && TagsOk(v.p, file) && FrontTag(v.p, v.readSoFar)
    ensures var v' := FileAct(v, Fill, file, maxChunk); TagsOk(v'.p, file) && FrontTag(v'.p, v'.readSoFar)
  {
    var e, n := FillEvent(v, file, maxChunk), Obtained(v, file, maxChunk);
    var v', c := FileAct(v, Fill, file, maxChunk), v.p.chunks[v.p.prod.id];
    ProdEditPutFrame(v.p, e, v.readSoFar + n == |file| || n < Wanted(v, maxChunk));
    FillChunk(c, file, v.readSoFar, n);
    TagsAfter(v.p, v'.p, file, Appended(c, file[v.readSoFar..v.readSoFar + n], c.cap, v.readSoFar), v.readSoFar + n);
  }

  lemma FillJob(v: Player, file: seq<byte>, maxChunk: nat)
    requires JobOk(v, file) && CanFile(v, Fill, file, maxChunk)
    ensures var v' := FileAct(v, Fill, file, maxChunk); JobOk(v', file) && FreeEmpty(v'.p)
  {
    var e, n := FillEvent(v, file, maxChunk), Obtained(v, file, maxChunk);
    ProdEditPutFrame(v.p, e, v.readSoFar + n == |file| || n < Wanted(v, maxChunk));
  }

  lemma FillPool(v: Player, file: seq<byte>, maxChunk: nat)
    requires PoolPart(v, file) && CanFile(v, Fill, file, maxChunk)
    ensures PoolPart(FileAct(v, Fill, file, maxChunk), file)
  {
    var e, n := FillEvent(v, file, maxChunk), Obtained(v, file, maxChunk);
    ProdEditPutKeeps(v.p, e, v.readSoFar + n == |file| || n < Wanted(v, maxChunk));
    FillJob(v, file, maxChunk);
    FillTags(v, file, maxChunk);
  }

  /** The reader has put bytes at the end of the pipe. */
  lemma ExtendCall(v: Player, v': Player, file: seq<byte>, more: seq<byte>)
    requires CallPart(v, file)
    requires v' == v.(p := v'.p, readSoFar := v'.readSoFar, job := v'.job, h := v.h.(made := v.h.made + more))
    requires v'.p.pipe == v.p.pipe + more
    ensures CallPart(v', file)
  {
    if v.h.sound {
      DropPrefix(v.h.made, more, Consumed(v));
      if v.call.Copying? { LongerSlice(v.h.made, more, v.pos, v.pos + |v.call.got|); }
      LongerSlice(v.h.made, more, v.lastEnd - |v.last|, v.lastEnd);
      if !v.sought { LongerSlice(v.h.made, more, 0, v.pos); }
    }
  }

  lemma LongerSlice(made: seq<byte>, more: seq<byte>, i: nat, j: nat)
    requires i <= j <= |made|
    ensures (made + more)[i..j] == made[i..j] && (made + more)[..j] == made[..j]
  {
  }

  lemma FillCall(v: Player, file: seq<byte>, maxChunk: nat)
    requires CallPart(v, file) && CanFile(v, Fill, file, maxChunk)
    ensures CallPart(FileAct(v, Fill, file, maxChunk), file)
  {
    var e, n := FillEvent(v, file, maxChunk), Obtained(v, file, maxChunk);
    ProdEditPutFrame(v.p, e, v.readSoFar + n == |file| || n < Wanted(v, maxChunk));
    ExtendCall(v, FileAct(v, Fill, file, maxChunk), file, file[v.readSoFar..v.readSoFar + n]);
  }

  lemma ClearTags(p: State, file: seq<byte>, readSoFar: nat)
    requires ProdAt(p) && ShapeOk(p) && TagsOk(p, file) && Enabled(p, ProdClear)
    ensures var p' := ProdEditPut(p, ProdClear, false);
      TagsOk(p', file) && FrontTag(p', readSoFar) && NoPartial(p') && FreeEmpty(p')
  {
    ProdEditPutFrame(p, ProdClear, false);
  }

  lemma ClearPool(v: Player, file: seq<byte>, maxChunk: nat)
    requires PoolPart(v, file) && CanFile(v, ClearFront, file, maxChunk)
    ensures PoolPart(FileAct(v, ClearFront, file, maxChunk), file)
  {
    ProdEditPutKeeps(v.p, ProdClear, false);
    ProdEditPutFrame(v.p, ProdClear, false);
    ClearTags(v.p, file, v.readSoFar);
  }

  lemma BeginGet(v: Player, file: seq<byte>, job: Job)
    requires PoolPart(v, file) && v.job.NoJob? && Enabled(v.p, ProdGet)
    requires (job == Filling(false) && !v.closed)
      || (job.Seeking? && job.target <= |file| && !job.cleared && !v.h.clean)
    ensures PoolPart(v.(p := Step(v.p, ProdGet), job := job), file)
    ensures Step(v.p, ProdGet).pipe == v.p.pipe
  {
    StepKeepsInv(v.p, ProdGet);
    StepKeepsFreeEmpty(v.p, ProdGet);
  }

  lemma EndPool(v: Player, file: seq<byte>, maxChunk: nat)
    requires PoolPart(v, file) && CanFile(v, EndJob, file, maxChunk)
    ensures PoolPart(FileAct(v, EndJob, file, maxChunk), file)
  {
  }

  lemma FilePool(v: Player, file: seq<byte>, maxChunk: nat, a: Action)
    requires PoolPart(v, file) && FileAction(a) && CanFile(v, a, file, maxChunk)
    ensures PoolPart(FileAct(v, a, file, maxChunk), file)
  {
    match a
    case StartFill => BeginGet(v, file, Filling(false));
    case Fill => FillPool(v, file, maxChunk);
    case StartFileSeek(to) => BeginGet(v.(h := v.h.(clean := false)), file, Seeking(to, false));
    case ClearFront => ClearPool(v, file, maxChunk);
    case EndJob => EndPool(v, file, maxChunk);
  }

  /** A file seek has cleared n bytes at the end of the pipe, which the window does not reach. */
  lemma CutCall(v: Player, v': Player, file: seq<byte>, n: nat)
    requires CallPart(v, file) && WindowOk(v) && n <= |v.p.pipe| && |v.p.pipe| - n >= DataSize(v.p)
    requires v' == v.(p := v'.p, job := v'.job, h := v.h.(made := Cut(v.h.made, n)))
    requires v'.p.pipe == v.p.pipe[..|v.p.pipe| - n]
    ensures CallPart(v', file)
  {
    if v.h.sound {
      Shorter(v.h.made, Consumed(v), n);
      if v.call.Copying? { CutSlice(v.h.made, n, v.pos, v.pos + |v.call.got|); }
      CutSlice(v.h.made, n, v.lastEnd - |v.last|, v.lastEnd);
      if !v.sought { CutSlice(v.h.made, n, 0, v.pos); }
    }
  }

  lemma Shorter(made: seq<byte>, c: nat, n: nat)
    requires c <= |made| && n <= |made[c..]|
    ensures |Cut(made, n)| == |made| - n && Cut(made, n)[c..] == made[c..][..|made[c..]| - n]
  {
    assert made[..|made| - n][c..] == made[c..|made| - n] == made[c..][..|made[c..]| - n];
  }

  lemma CutSlice(made: seq<byte>, n: nat, i: nat, j: nat)
    requires n <= |made| && i <= j <= |made| - n
    ensures Cut(made, n)[i..j] == made[i..j] && Cut(made, n)[..j] == made[..j]
  {
  }

  lemma ClearCall(v: Player, file: seq<byte>, maxChunk: nat)
    requires Inv(v.p) && CallPart(v, file) && WindowOk(v) && CanFile(v, ClearFront, file, maxChunk)
    ensures CallPart(FileAct(v, ClearFront, file, maxChunk), file)
  {
    ProdEditPutFrame(v.p, ProdClear, false);
    BufferedIsPipe(v.p);
    CutCall(v, FileAct(v, ClearFront, file, maxChunk), file, |v.p.chunks[v.p.prod.id].bytes|);
  }

  lemma FileFrame(v: Player, file: seq<byte>, maxChunk: nat, a: Action)
    requires FileAction(a) && !a.Fill? && !a.ClearFront? && CanFile(v, a, file, maxChunk)
    ensures var v' := FileAct(v, a, file, maxChunk);
      && v' == v.(p := v'.p, readSoFar := v'.readSoFar, closed := v'.closed, job := v'.job, h := v'.h)
      && v'.p.pipe == v.p.pipe && v'.h.made == v.h.made && v'.h.sound == v.h.sound
  {
  }

  lemma FileCall(v: Player, file: seq<byte>, maxChunk: nat, a: Action)
    requires Inv(v.p) && CallPart(v, file) && WindowOk(v) && FileAction(a) && CanFile(v, a, file, maxChunk)
    ensures CallPart(FileAct(v, a, file, maxChunk), file)
  {
    if a.Fill? {
      FillCall(v, file, maxChunk);
    } else if a.ClearFront? {
      ClearCall(v, file, maxChunk);
    } else {
      FileFrame(v, file, maxChunk, a);
      SameCall(v, FileAct(v, a, file, maxChunk), file);
    }
  }

  // ----- the decoder's steps -----

  lemma GetPool(v: Player, file: seq<byte>, call: Call)
    requires PoolPart(v, file) && Enabled(v.p, ConsGet)
    ensures PoolPart(v.(p := Step(v.p, ConsGet), call := call), file)
    ensures Step(v.p, ConsGet).pipe == v.p.pipe
  {
    StepKeepsInv(v.p, ConsGet);
    StepKeepsFreeEmpty(v.p, ConsGet);
  }

  lemma ConsEditJob(v: Player, v': Player, file: seq<byte>, e: Event)
    requires JobOk(v, file) && FreeEmpty(v.p) && PoolOk(v.p) && ConsAt(v.p)
    requires Enabled(v.p, e) && (e.ConsDrop? || e.ConsPrepend?)
    requires v'.p == ConsEditPut(v.p, e) && v'.readSoFar == v.readSoFar && v'.closed == v.closed && v'.job == v.job
    requires v'.h.clean ==> v.h.clean
    ensures JobOk(v', file) && FreeEmpty(v'.p)
  {
    ConsEditPutFrame(v.p, e);
    EditDisjoint(v.p, v.p.cons.id);
    assert NoPartial(v.p) ==> NoPartial(v'.p);
  }

  /** An edit by the consumer leaves the reader's side as it is. */
  lemma ConsEditPool(v: Player, v': Player, file: seq<byte>, e: Event)
    requires PoolPart(v, file) && Enabled(v.p, e) && (e.ConsDrop? || e.ConsPrepend?)
    requires v'.p == ConsEditPut(v.p, e) && v'.readSoFar == v.readSoFar && v'.closed == v.closed && v'.job == v.job
    requires v'.h.clean ==> v.h.clean
    ensures PoolPart(v', file)
  {
    ConsEditPutKeeps(v.p, e);
    ConsEditJob(v, v', file, e);
    ConsEditTags(v.p, file, v.readSoFar, e);
  }

  lemma ConsEditTags(p: State, file: seq<byte>, readSoFar: nat, e: Event)
    requires Inv(p) && Enabled(p, e) && (e.ConsDrop? || e.ConsPrepend?)
    requires TagsOk(p, file) && FrontTag(p, readSoFar)
    ensures TagsOk(ConsEditPut(p, e), file) && FrontTag(ConsEditPut(p, e), readSoFar)
  {
    ConsEditPutFrame(p, e);
    EditDisjoint(p, p.cons.id);
    if e.ConsDrop? && e.k == 0 {
      var c := p.chunks[p.cons.id];
      assert Dropped(c, 0) == c;
    }
  }

  /** Taking k bytes from the front of the pipe. */
  lemma TakeFromPipe(made: seq<byte>, pipe: seq<byte>, front: seq<byte>, c: nat, k: nat)
    requires c <= |made| && pipe == made[c..] && front <= pipe && k <= |front|
    ensures c + k <= |made| && pipe[k..] == made[c + k..] && front[..k] == made[c..c + k]
  {
    assert front[..k] == pipe[..k];
  }

  lemma DropCopy(v: Player, v': Player, file: seq<byte>, k: nat)
    requires CallPart(v, file) && v.p.cons.CHold? && v.call.Copying?
    requires v.p.cons.id < |v.p.chunks| && v.p.chunks[v.p.cons.id].bytes <= v.p.pipe && k == Taken(v)
    requires v' == v.(p := v'.p, call := v'.call) && v'.p.pipe == v.p.pipe[k..]
    requires v'.call.Copying? && v'.call.want == v.call.want
    requires v'.call.got == v.call.got + v.p.chunks[v.p.cons.id].bytes[..k]
    ensures CallPart(v', file)
  {
    if v.h.sound {
      var c := Consumed(v);
      TakeFromPipe(v.h.made, v.p.pipe, v.p.chunks[v.p.cons.id].bytes, c, k);
      SliceJoin(v.h.made, v.pos, c, c + k);
    }
  }

  lemma DropSkip(v: Player, v': Player, file: seq<byte>, k: nat)
    requires CallPart(v, file) && v.p.cons.CHold? && v.call.Skipping?
    requires v.p.cons.id < |v.p.chunks| && v.p.chunks[v.p.cons.id].bytes <= v.p.pipe && k == Taken(v)
    requires v' == v.(p := v'.p, call := v'.call, sought := true) && v'.p.pipe == v.p.pipe[k..]
    requires v'.call.Skipping? && v'.call.target == v.call.target && v'.call.left == v.call.left - k
    ensures CallPart(v', file)
  {
    if v.h.sound {
      TakeFromPipe(v.h.made, v.p.pipe, v.p.chunks[v.p.cons.id].bytes, Consumed(v), k);
    }
  }

  lemma DropFar(v: Player, v': Player, file: seq<byte>, k: nat)
    requires CallPart(v, file) && v.p.cons.CHold? && v.call.Far?
    requires v.p.cons.id < |v.p.chunks| && v.p.chunks[v.p.cons.id].bytes <= v.p.pipe && k == Taken(v)
    requires v' == v.(p := v'.p, call := v'.call, sought := true) && v'.p.pipe == v.p.pipe[k..]
    requires v'.call == Far(v.call.target, v.call.passed + k)
    ensures CallPart(v', file)
  {
    if v.h.sound {
      TakeFromPipe(v.h.made, v.p.pipe, v.p.chunks[v.p.cons.id].bytes, Consumed(v), k);
    }
  }

  /** The last m bytes of a window that ends at the stream position are those last taken. */
  lemma PutBackIsMade(made: seq<byte>, last: seq<byte>, pos: nat, m: nat)
    requires m <= |last| <= pos <= |made| && last == made[pos - |last|..pos]
    ensures last[|last| - m..] + made[pos..] == made[pos - m..]
  {
    SliceSplit(made, pos - |last|, pos, |last| - m);
    SliceJoin(made, pos - m, pos, |made|);
  }

  lemma PushCall(v: Player, v': Player, file: seq<byte>)
    requires CallPart(v, file) && v.call.PushBack? && v.call.m <= |v.last| && v.call.m <= v.pos
    requires v' == v.(p := v'.p, pos := v.pos - v.call.m, sought := true, call := Deciding(v.call.target), h := v'.h)
    requires v'.h.made == v.h.made && (v'.h.sound ==> v.h.sound && v.lastEnd == v.pos)
    requires v'.p.pipe == v.last[|v.last| - v.call.m..] + v.p.pipe
    ensures CallPart(v', file)
  {
    if v'.h.sound {
      PutBackIsMade(v.h.made, v.last, v.pos, v.call.m);
    }
  }

  predicate SamePool(v: Player, v': Player) {
    v'.p == v.p && v'.readSoFar == v.readSoFar && v'.closed == v.closed && v'.job == v.job && v'.h == v.h
  }

  lemma RegisterFrame(v: Player, file: seq<byte>, a: Action)
    requires Register(a) && CanRegister(v, a, file)
    ensures SamePool(v, RegisterAct(v, a, file))
  {
  }

  lemma SamePoolKeeps(v: Player, v': Player, file: seq<byte>)
    requires PoolPart(v, file) && SamePool(v, v')
    ensures PoolPart(v', file)
  {
  }

  lemma RegisterPool(v: Player, file: seq<byte>, a: Action)
    requires PoolPart(v, file) && Register(a) && CanRegister(v, a, file)
    ensures PoolPart(RegisterAct(v, a, file), file)
  {
    RegisterFrame(v, file, a);
    SamePoolKeeps(v, RegisterAct(v, a, file), file);
  }

  lemma FinishReadCall(v: Player, file: seq<byte>)
    requires CallPart(v, file) && CanRegister(v, FinishRead, file)
    ensures CallPart(RegisterAct(v, FinishRead, file), file)
  {
    if v.h.sound && !v.sought {
      SliceJoin(v.h.made, 0, v.pos, v.pos + |v.call.got|);
    }
  }

  lemma RegisterCall(v: Player, file: seq<byte>, a: Action)
    requires CallPart(v, file) && Register(a) && CanRegister(v, a, file)
    ensures CallPart(RegisterAct(v, a, file), file)
  {
    if a.FinishRead? {
      FinishReadCall(v, file);
    } else if a.StartRead? {
      StartReadCall(v, file, a);
    } else if a.FinishSeek? {
      FinishSeekCall(v, file);
    } else {
      OnlyCallMoves(v, file, a);
      NewCall(v, RegisterAct(v, a, file), file);
    }
  }

  lemma StartReadCall(v: Player, file: seq<byte>, a: Action)
    requires CallPart(v, file) && a.StartRead? && CanRegister(v, a, file)
    ensures CallPart(RegisterAct(v, a, file), file)
  {
  }

  lemma FinishSeekCall(v: Player, file: seq<byte>)
    requires CallPart(v, file) && CanRegister(v, FinishSeek, file)
    ensures CallPart(RegisterAct(v, FinishSeek, file), file)
  {
  }

  /** The remaining steps change nothing but the call, and take nothing. */
  lemma OnlyCallMoves(v: Player, file: seq<byte>, a: Action)
    requires CallOk(v, file) && Register(a) && CanRegister(v, a, file)
    requires !a.FinishRead? && !a.StartRead? && !a.FinishSeek?
    ensures var v' := RegisterAct(v, a, file);
      && v' == v.(call := v'.call) && Consumed(v') == Consumed(v) && CallOk(v', file)
      && (v'.call.Copying? ==> v'.call.got == []) && (v'.call.Skipping? ==> v'.call.target - v'.call.left == v.pos)
  {
  }

  lemma NewCall(v: Player, v': Player, file: seq<byte>)
    requires CallPart(v, file) && v' == v.(call := v'.call) && Consumed(v') == Consumed(v) && CallOk(v', file)
    requires v'.call.Copying? ==> v'.call.got == []
    requires v'.call.Skipping? ==> v'.call.target - v'.call.left == v.pos
    ensures CallPart(v', file)
  {
  }

  predicate Gets(a: Action) { a.CopyGet? || a.BackGet? || a.SkipGet? || a.FarGet? }

  lemma DropsMove(v: Player, a: Action)
    requires (a.CopyDrop? || a.SkipDrop? || a.FarDrop?) && CanChunk(v, a)
    ensures var v' := ChunkAct(v, a); v'.p == ConsEditPut(v.p, ConsDrop(Taken(v)))
    ensures ChunkAct(v, a).p.pipe == v.p.pipe[Taken(v)..]
  {
  }

  lemma DropsCall(v: Player, file: seq<byte>, a: Action)
    requires Inv(v.p) && CallPart(v, file) && (a.CopyDrop? || a.SkipDrop? || a.FarDrop?) && CanChunk(v, a)
    ensures CallPart(ChunkAct(v, a), file)
  {
    FrontIsPrefix(v.p);
    ConsEditPutFrame(v.p, ConsDrop(Taken(v)));
    DropsMove(v, a);
    if a.CopyDrop? {
      DropCopy(v, ChunkAct(v, a), file, Taken(v));
    } else if a.FarDrop? {
      DropFar(v, ChunkAct(v, a), file, Taken(v));
    } else {
      DropSkip(v, ChunkAct(v, a), file, Taken(v));
    }
  }

  lemma BackEditCall(v: Player, file: seq<byte>)
    requires CallPart(v, file) && CanChunk(v, BackEdit)
    ensures CallPart(ChunkAct(v, BackEdit), file)
  {
    ConsEditPutFrame(v.p, PushBackEvent(v));
    PushCall(v, ChunkAct(v, BackEdit), file);
  }

  /** Asking for the front chunk changes the phase of the call only. */
  predicate SamePlace(c: Call, c': Call) {
    || (c.Copying? && c'.Copying? && c'.want == c.want && c'.got == c.got)
    || (c.PushBack? && c'.PushBack? && c'.target == c.target && c'.m == c.m)
    || (c.Skipping? && c'.Skipping? && c'.target == c.target && c'.left == c.left)
    || (c.Far? && c' == c)
  }

  lemma SamePlaceKeeps(v: Player, v': Player, file: seq<byte>)
    requires CallPart(v, file) && v' == v.(p := v'.p, call := v'.call)
    requires v'.p.pipe == v.p.pipe && SamePlace(v.call, v'.call)
    ensures CallPart(v', file)
  {
  }

  lemma GetsCall(v: Player, file: seq<byte>, a: Action)
    requires CallPart(v, file) && Gets(a) && CanChunk(v, a)
    ensures CallPart(ChunkAct(v, a), file)
  {
    SamePlaceKeeps(v, ChunkAct(v, a), file);
  }

  lemma ChunkPool(v: Player, file: seq<byte>, a: Action)
    requires PoolPart(v, file) && ChunkAction(a) && CanChunk(v, a)
    ensures PoolPart(ChunkAct(v, a), file)
  {
    var v' := ChunkAct(v, a);
    if Gets(a) {
      GetPool(v, file, v'.call);
    } else if a.BackEdit? {
      ConsEditPool(v, v', file, PushBackEvent(v));
    } else {
      ConsEditPool(v, v', file, ConsDrop(Taken(v)));
    }
  }

  lemma ChunkCall(v: Player, file: seq<byte>, a: Action)
    requires Inv(v.p) && CallPart(v, file) && ChunkAction(a) && CanChunk(v, a)
    ensures CallPart(ChunkAct(v, a), file)
  {
    if Gets(a) {
      GetsCall(v, file, a);
    } else if a.BackEdit? {
      BackEditCall(v, file);
    } else {
      DropsCall(v, file, a);
    }
  }

  lemma ActKeepsPool(v: Player, file: seq<byte>, maxChunk: nat, a: Action)
    requires PoolPart(v, file) && CanAct(v, a, file, maxChunk)
    ensures PoolPart(Act(v, a, file, maxChunk), file)
  {
    if a.Inner? {
      InnerPool(v, file, a.e);
    } else if FileAction(a) {
      FilePool(v, file, maxChunk, a);
    } else if Register(a) {
      RegisterPool(v, file, a);
    } else {
      ChunkPool(v, file, a);
    }
  }

  lemma ActKeepsCall(v: Player, file: seq<byte>, maxChunk: nat, a: Action)
    requires Inv(v.p) && CallPart(v, file) && WindowOk(v) && CanAct(v, a, file, maxChunk)
    ensures CallPart(Act(v, a, file, maxChunk), file)
  {
    if a.Inner? {
      InnerCall(v, file, a.e);
    } else if FileAction(a) {
      FileCall(v, file, maxChunk, a);
    } else if Register(a) {
      RegisterCall(v, file, a);
    } else {
      ChunkCall(v, file, a);
    }
  }

  lemma FileMade(v: Player, file: seq<byte>, maxChunk: nat, a: Action)
    requires JobOk(v, file) && MadeOk(v, file) && FileAction(a) && CanFile(v, a, file, maxChunk)
    ensures MadeOk(FileAct(v, a, file, maxChunk), file)
  {
    if a.Fill? {
      var n := Obtained(v, file, maxChunk);
      SliceJoin(file, v.h.from, v.readSoFar, v.readSoFar + n);
      Assoc(v.h.base, file[v.h.from..v.readSoFar], file[v.readSoFar..v.readSoFar + n]);
    }
  }

  lemma RegisterMade(v: Player, file: seq<byte>, a: Action)
    requires MadeOk(v, file) && Register(a) && CanRegister(v, a, file)
    ensures MadeOk(RegisterAct(v, a, file), file)
  {
    RegisterFrame(v, file, a);
  }

  lemma ChunkMade(v: Player, file: seq<byte>, a: Action)
    requires MadeOk(v, file) && ChunkAction(a) && CanChunk(v, a)
    ensures MadeOk(ChunkAct(v, a), file)
  {
  }

  lemma InnerMade(v: Player, file: seq<byte>, e: Event)
    requires MadeOk(v, file) && IsInner(e) && Enabled(v.p, e)
    ensures MadeOk(InnerAct(v, e), file)
  {
  }

  lemma ActKeepsMade(v: Player, file: seq<byte>, maxChunk: nat, a: Action)
    requires JobOk(v, file) && MadeOk(v, file) && CanAct(v, a, file, maxChunk)
    ensures MadeOk(Act(v, a, file, maxChunk), file)
  {
    if a.Inner? {
      InnerMade(v, file, a.e);
    } else if FileAction(a) {
      FileMade(v, file, maxChunk, a);
    } else if Register(a) {
      RegisterMade(v, file, a);
    } else {
      ChunkMade(v, file, a);
    }
  }

  lemma ActKeeps(v: Player, file: seq<byte>, maxChunk: nat, a: Action)
    requires PlayInv(v, file) && CanAct(v, a, file, maxChunk)
    ensures PlayInv(Act(v, a, file, maxChunk), file)
  {
    ActKeepsPool(v, file, maxChunk, a);
    ActKeepsCall(v, file, maxChunk, a);
    ActKeepsWindow(v, file, maxChunk, a);
    ActKeepsMade(v, file, maxChunk, a);
  }

  // ----- whole runs -----

  /** A decoder newly attached to a file, over a newly constructed cache_buffer. */
  function Opened(n: nat, elemSize: nat): Player {
    Player(Constructed(n, elemSize), 0, false, NoJob, 0, NoCall, [], 0, [], false,
           History([], [], 0, true, true))
  }

  ghost predicate Moves(v: Player, v': Player, file: seq<byte>, maxChunk: nat) {
    exists a :: CanAct(v, a, file, maxChunk) && v' == Act(v, a, file, maxChunk)
  }

  ghost predicate Session(trace: seq<Player>, file: seq<byte>, maxChunk: nat, n: nat, elemSize: nat) {
    && trace != [] && 1 <= n && trace[0] == Opened(n, elemSize)
    && forall i {:trigger Moves(trace[i], trace[i + 1], file, maxChunk)} :: 0 <= i < |trace| - 1 ==>
      Moves(trace[i], trace[i + 1], file, maxChunk)
  }

  lemma OpenedInv(n: nat, elemSize: nat, file: seq<byte>)
    requires 1 <= n
    ensures PlayInv(Opened(n, elemSize), file)
  {
    ConstructedInv(n, elemSize);
  }

  lemma MovesKeep(v: Player, v': Player, file: seq<byte>, maxChunk: nat)
    requires PlayInv(v, file) && Moves(v, v', file, maxChunk)
    ensures PlayInv(v', file)
  {
    var a :| CanAct(v, a, file, maxChunk) && v' == Act(v, a, file, maxChunk);
    ActKeeps(v, file, maxChunk, a);
  }

  lemma {:induction false} SessionInv(
    trace: seq<Player>, file: seq<byte>, maxChunk: nat, n: nat, elemSize: nat, k: nat)
    requires Session(trace, file, maxChunk, n, elemSize) && k < |trace|
    ensures PlayInv(trace[k], file)
  {
    if k == 0 {
      OpenedInv(n, elemSize, file);
    } else {
      var m := k - 1;
      SessionInv(trace, file, maxChunk, n, elemSize, m);
      assert Moves(trace[m], trace[m + 1], file, maxChunk);
      MovesKeep(trace[m], trace[m + 1], file, maxChunk);
    }
  }

  /** The bytes still to come: what the chunks hold and what is left of the file. */
  function Remaining(v: Player, file: seq<byte>): seq<byte> {
    if v.readSoFar <= |file| then Buffered(v.p) + file[v.readSoFar..] else Buffered(v.p)
  }

  lemma BufferedIsMade(v: Player)
    requires Inv(v.p) && StreamOk(v) && v.h.sound
    ensures 0 <= Consumed(v) <= |v.h.made| && Buffered(v.p) == v.h.made[Consumed(v)..]
  {
    BufferedIsPipe(v.p);
  }

  /** Without a file seek the reader has made the file up to where it stands. */
  lemma MadeIsFile(v: Player, file: seq<byte>)
    requires JobOk(v, file) && MadeOk(v, file) && v.h.clean
    ensures v.h.sound && v.readSoFar <= |file| && v.h.made == file[..v.readSoFar]
  {
    assert [] + file[0..v.readSoFar] == file[..v.readSoFar];
  }

  lemma RemainingIs(v: Player, file: seq<byte>)
    requires PlayInv(v, file) && v.h.clean
    ensures 0 <= Consumed(v) <= v.readSoFar <= |file| && Remaining(v, file) == file[Consumed(v)..]
  {
    MadeIsFile(v, file);
    BufferedIsMade(v);
    JoinToEnd(file, Consumed(v), v.readSoFar);
  }

  lemma JoinToEnd(file: seq<byte>, a: nat, b: nat)
    requires a <= b <= |file|
    ensures file[..b][a..] + file[b..] == file[a..]
  {
  }

  lemma DeliveredIs(v: Player, file: seq<byte>)
    requires PlayInv(v, file) && v.h.clean && !v.sought && Consumed(v) == v.pos
    ensures v.delivered + Remaining(v, file) == file
  {
    RemainingIs(v, file);
    MadeIsFile(v, file);
    assert file[..v.readSoFar][..v.pos] == file[..v.pos];
    WholeFile(file, v.pos);
  }

  lemma WholeFile(file: seq<byte>, k: nat)
    requires k <= |file|
    ensures file[..k] + file[k..] == file
  {
  }

  lemma CopiedIsFile(v: Player, file: seq<byte>)
    requires StreamOk(v) && v.h.sound && v.readSoFar <= |file| && v.h.made == file[..v.readSoFar] && v.call.Copying?
    ensures v.pos + |v.call.got| <= |file| && v.call.got == file[v.pos..v.pos + |v.call.got|]
  {
    var k := |v.call.got|;
    assert file[..v.readSoFar][v.pos..v.pos + k] == file[v.pos..v.pos + k];
  }

  /** While no file seek has happened, in every interleaving of try_read, reads and buffered
      seeks: the bytes of the data queue, of the chunk being handed over and of the partly filled
      chunk, and the unread rest, are exactly the file from the decoder's position; as long as the
      decoder has not sought either, they follow the delivered bytes to make up the file. */
  lemma NothingLostNothingReordered(
    trace: seq<Player>, file: seq<byte>, maxChunk: nat, n: nat, elemSize: nat, k: nat)
    requires Session(trace, file, maxChunk, n, elemSize) && k < |trace| && trace[k].h.clean
    ensures var v := trace[k];
      && 0 <= Consumed(v) <= |file| && Remaining(v, file) == file[Consumed(v)..]
      && (v.call.Copying? ==> v.call.got == file[v.pos..v.pos + |v.call.got|])
      && (!v.sought && (v.call.NoCall? || v.call.Waiting?) ==> v.delivered + Remaining(v, file) == file)
  {
    SessionInv(trace, file, maxChunk, n, elemSize, k);
    var v := trace[k];
    RemainingIs(v, file);
    MadeIsFile(v, file);
    if v.call.Copying? { CopiedIsFile(v, file); }
    if !v.sought && (v.call.NoCall? || v.call.Waiting?) { DeliveredIs(v, file); }
  }

  /** Once the reader has finished the file and the data queue is empty, everything has been
      delivered: without seeks exactly the file, and the position is the stream length. */
  lemma DrainedMeansDelivered(
    trace: seq<Player>, file: seq<byte>, maxChunk: nat, n: nat, elemSize: nat, k: nat)
    requires Session(trace, file, maxChunk, n, elemSize) && k < |trace| && trace[k].h.clean
    requires trace[k].closed && trace[k].call.NoCall? && trace[k].p.data.fifo == []
    ensures trace[k].pos == |file|
    ensures !trace[k].sought ==> trace[k].delivered == file
  {
    SessionInv(trace, file, maxChunk, n, elemSize, k);
    NothingBuffered(trace[k], file);
    RemainingIs(trace[k], file);
  }

  /** A finished reader has nothing in its hands or in a partly filled chunk. */
  lemma NothingBuffered(v: Player, file: seq<byte>)
    requires Inv(v.p) && JobOk(v, file) && v.h.clean && v.closed && v.p.data.fifo == []
    ensures Buffered(v.p) == []
  {
    assert v.job.NoJob? && ProdFlight(v.p) == [];
    assert NoPartial(v.p);
  }

  /** A finished buffered seek stands at its target, and what follows is the file from there. */
  lemma SeekLandsOnTarget(
    trace: seq<Player>, file: seq<byte>, maxChunk: nat, n: nat, elemSize: nat, k: nat)
    requires Session(trace, file, maxChunk, n, elemSize) && k < |trace| && trace[k].h.clean
    requires CanRegister(trace[k], FinishSeek, file)
    ensures var v' := RegisterAct(trace[k], FinishSeek, file);
      v'.pos == trace[k].call.target && v'.pos <= |file| && Remaining(v', file) == file[v'.pos..]
  {
    SessionInv(trace, file, maxChunk, n, elemSize, k);
    RemainingIs(trace[k], file);
  }

  /** The decoder's registers that a reader of the stream can tell. */
  predicate SameRegisters(v: Player, v': Player) {
    v'.pos == v.pos && v'.last == v.last && v'.lastEnd == v.lastEnd && v'.delivered == v.delivered
    && v'.sought == v.sought
  }

  /** A step inside a push-back call leaves the registers. */
  predicate HoldsBack(v: Player, v': Player) {
    v.call.PushBack? && v'.call.PushBack? ==> SameRegisters(v, v') && v'.call.m == v.call.m
  }

  lemma InnerHolds(v: Player, e: Event)
    requires IsInner(e) && Enabled(v.p, e)
    ensures HoldsBack(v, InnerAct(v, e))
  {
  }

  lemma FileHolds(v: Player, a: Action, file: seq<byte>, maxChunk: nat)
    requires FileAction(a) && CanFile(v, a, file, maxChunk)
    ensures HoldsBack(v, FileAct(v, a, file, maxChunk))
  {
  }

  lemma RegisterHolds(v: Player, a: Action, file: seq<byte>)
    requires Register(a) && CanRegister(v, a, file)
    ensures HoldsBack(v, RegisterAct(v, a, file))
  {
  }

  lemma ChunkHolds(v: Player, a: Action)
    requires ChunkAction(a) && CanChunk(v, a)
    ensures HoldsBack(v, ChunkAct(v, a))
  {
  }

  lemma PushBackHolds(v: Player, v': Player, file: seq<byte>, maxChunk: nat)
    requires Moves(v, v', file, maxChunk)
    ensures HoldsBack(v, v')
  {
    var a :| CanAct(v, a, file, maxChunk) && v' == Act(v, a, file, maxChunk);
    if a.Inner? {
      InnerHolds(v, a.e);
    } else if FileAction(a) {
      FileHolds(v, a, file, maxChunk);
    } else if Register(a) {
      RegisterHolds(v, a, file);
    } else {
      ChunkHolds(v, a);
    }
  }

  lemma AllHoldBack(trace: seq<Player>, file: seq<byte>, maxChunk: nat, n: nat, elemSize: nat)
    requires Session(trace, file, maxChunk, n, elemSize)
    ensures forall k {:trigger HoldsBack(trace[k], trace[k + 1])} :: 0 <= k < |trace| - 1 ==>
      HoldsBack(trace[k], trace[k + 1])
  {
    forall k | 0 <= k < |trace| - 1
      ensures HoldsBack(trace[k], trace[k + 1])
    {
      PushBackHolds(trace[k], trace[k + 1], file, maxChunk);
    }
  }

  lemma {:induction false} PushBackSegment(trace: seq<Player>, i: nat, j: nat)
    requires i < j < |trace| && forall k :: i < k <= j ==> trace[k].call.PushBack?
    requires forall k {:trigger HoldsBack(trace[k], trace[k + 1])} :: 0 <= k < |trace| - 1 ==>
      HoldsBack(trace[k], trace[k + 1])
    ensures SameRegisters(trace[i + 1], trace[j]) && trace[j].call.m == trace[i + 1].call.m
    decreases j
  {
    if j == i + 1 {
    } else {
      var k := j - 1;
      PushBackSegment(trace, i, k);
      assert HoldsBack(trace[k], trace[k + 1]);
    }
  }

  /** A seek back that gives up waiting for a chunk has moved nothing: from its start at step i
      through the timeout in state j, whatever the reader does meanwhile, position, window and
      delivered bytes stay, the call is over, and what follows is still the file from the
      position. */
  lemma RefusedSeekMovesNothing(
    trace: seq<Player>, file: seq<byte>, maxChunk: nat, n: nat, elemSize: nat, i: nat, j: nat, to: nat)
    requires Session(trace, file, maxChunk, n, elemSize) && i < j < |trace|
    requires trace[i].call.NoCall? && trace[i + 1] == trace[i].(call := StartedSeek(trace[i], to))
    requires forall k :: i < k <= j ==> trace[k].call.PushBack?
    requires CanRegister(trace[j], BackTimeout, file)
    ensures var v := RegisterAct(trace[j], BackTimeout, file);
      && v.call.NoCall? && SameRegisters(trace[i], v)
      && (v.h.clean ==> v.pos <= |file| && Remaining(v, file) == file[v.pos..])
  {
    AllHoldBack(trace, file, maxChunk, n, elemSize);
    PushBackSegment(trace, i, j);
    SessionInv(trace, file, maxChunk, n, elemSize, j);
    if trace[j].h.clean {
      RemainingIs(trace[j], file);
    }
  }

  // ----- across a file seek -----

  /** Only the end of a file seek changes where the stream goes on. */
  predicate HoldsBase(v: Player, v': Player) {
    && (!v.job.Seeking? ==> v'.h.base == v.h.base && v'.h.from == v.h.from)
    && (v'.h.sound ==> v.h.sound) && (v.sought ==> v'.sought)
  }

  lemma MovesHoldBase(v: Player, v': Player, file: seq<byte>, maxChunk: nat)
    requires Moves(v, v', file, maxChunk)
    ensures HoldsBase(v, v')
  {
    var a :| CanAct(v, a, file, maxChunk) && v' == Act(v, a, file, maxChunk);
    if a.Inner? {
      InnerFrameBase(v, a.e);
    } else if FileAction(a) {
      FileHoldsBase(v, a, file, maxChunk);
    } else if Register(a) {
      RegisterHoldsBase(v, a, file);
    } else {
      ChunkHoldsBase(v, a);
    }
  }

  lemma InnerFrameBase(v: Player, e: Event)
    requires IsInner(e) && Enabled(v.p, e)
    ensures HoldsBase(v, InnerAct(v, e))
  {
  }

  lemma FileHoldsBase(v: Player, a: Action, file: seq<byte>, maxChunk: nat)
    requires FileAction(a) && CanFile(v, a, file, maxChunk)
    ensures HoldsBase(v, FileAct(v, a, file, maxChunk))
  {
  }

  lemma RegisterHoldsBase(v: Player, a: Action, file: seq<byte>)
    requires Register(a) && CanRegister(v, a, file)
    ensures HoldsBase(v, RegisterAct(v, a, file))
  {
  }

  lemma ChunkHoldsBase(v: Player, a: Action)
    requires ChunkAction(a) && CanChunk(v, a)
    ensures HoldsBase(v, ChunkAct(v, a))
  {
  }

  lemma AllHoldBase(trace: seq<Player>, file: seq<byte>, maxChunk: nat, n: nat, elemSize: nat)
    requires Session(trace, file, maxChunk, n, elemSize)
    ensures forall k {:trigger HoldsBase(trace[k], trace[k + 1])} :: 0 <= k < |trace| - 1 ==>
      HoldsBase(trace[k], trace[k + 1])
  {
    forall k | 0 <= k < |trace| - 1
      ensures HoldsBase(trace[k], trace[k + 1])
    {
      MovesHoldBase(trace[k], trace[k + 1], file, maxChunk);
    }
  }

  lemma {:induction false} BaseSegment(trace: seq<Player>, i: nat, j: nat)
    requires i <= j < |trace| && forall k :: i <= k <= j ==> !trace[k].job.Seeking?
    requires forall k {:trigger HoldsBase(trace[k], trace[k + 1])} :: 0 <= k < |trace| - 1 ==>
      HoldsBase(trace[k], trace[k + 1])
    ensures trace[j].h.base == trace[i].h.base && trace[j].h.from == trace[i].h.from
    ensures (trace[j].h.sound ==> trace[i].h.sound) && (trace[i].sought ==> trace[j].sought)
    decreases j
  {
    if i == j {
    } else {
      var k := j - 1;
      BaseSegment(trace, i, k);
      assert HoldsBase(trace[k], trace[k + 1]);
    }
  }

  /** u is v at the end of a file seek: the stream goes on from the target, and all that is ready
      is in the data queue. */
  predicate SeekDone(v: Player, u: Player) {
    v.job.Seeking? && u.h.base == u.h.made && u.h.from == v.job.target && AllReady(u.p)
  }

  /** All that the buffer holds is in the data queue. */
  predicate AllReady(p: State) {
    Buffered(p) == Contents(p.chunks, p.data.fifo)
  }

  lemma OnlyData(p: State)
    requires NoPartial(p) && ProdFlight(p) == []
    ensures AllReady(p)
  {
    assert Contents(p.chunks, p.data.fifo) + [] + [] == Contents(p.chunks, p.data.fifo);
  }

  /** The end of a file seek. */
  lemma SeekEnds(v: Player, file: seq<byte>, maxChunk: nat)
    requires JobOk(v, file) && v.job.Seeking? && CanFile(v, EndJob, file, maxChunk)
    ensures SeekDone(v, FileAct(v, EndJob, file, maxChunk))
  {
    OnlyData(v.p);
  }

  /** Two points of one stream: from c on, and from c' on when it has grown. */
  lemma TwoPoints(made: seq<byte>, more: seq<byte>, here: seq<byte>, there: seq<byte>, c: nat, c': nat)
    requires c <= |made| && c' <= |made| + |more| && here == made[c..] && there == (made + more)[c'..]
    ensures var stream := here + more;
      && (c <= c' ==> c' - c <= |stream| && there == stream[c' - c..])
      && (c' < c ==> |there| == |stream| + (c - c') && there[c - c'..] == stream)
  {
  }

  /** What lies in front of the two points. */
  lemma BetweenPoints(made: seq<byte>, more: seq<byte>, here: seq<byte>, c: nat, c': nat)
    requires c <= |made| && c <= c' <= |made| + |more| && here == made[c..]
    ensures (made + more)[..c'] == made[..c] + (here + more)[..c' - c]
  {
  }

  /** No read and no seek of the decoder is under way. */
  predicate Resting(v: Player) { v.call.NoCall? || v.call.Waiting? }

  /** State u is the end of a file seek, and state v comes after it, with no other file seek. */
  ghost predicate AfterSeek(u: Player, v: Player, file: seq<byte>, target: nat) {
    && AtPoint(u) && AtPoint(v) && target <= v.readSoFar <= |file| && v.h.made == u.h.made + file[target..v.readSoFar]
    && (u.sought ==> v.sought)
  }

  /** Where v stands in what the reader has made. */
  predicate AtPoint(v: Player) {
    && 0 <= Consumed(v) <= |v.h.made| && Buffered(v.p) == v.h.made[Consumed(v)..]
    && (Resting(v) && !v.sought ==> v.delivered == v.h.made[..Consumed(v)])
  }

  lemma InvStream(v: Player, file: seq<byte>)
    requires PlayInv(v, file)
    ensures v.h.sound ==> AtPoint(v)
    ensures JobOk(v, file) && MadeOk(v, file)
  {
    if v.h.sound { BufferedIsMade(v); }
  }

  lemma MadeSince(u: Player, v: Player, file: seq<byte>, target: nat)
    requires MadeOk(v, file) && !v.job.Seeking? && v.h.base == u.h.made && v.h.from == target
    ensures target <= v.readSoFar <= |file| && v.h.made == u.h.made + file[target..v.readSoFar]
  {
  }

  /** Until the next file seek the stream goes on from where this one went. */
  lemma BaseIs(
    trace: seq<Player>, file: seq<byte>, maxChunk: nat, n: nat, elemSize: nat, i: nat, j: nat)
    requires Session(trace, file, maxChunk, n, elemSize) && i < j < |trace| && SeekDone(trace[i], trace[i + 1])
    requires forall k :: i < k <= j ==> !trace[k].job.Seeking?
    ensures trace[j].h.base == trace[i + 1].h.made && trace[j].h.from == trace[i].job.target
    ensures (trace[j].h.sound ==> trace[i + 1].h.sound) && (trace[i + 1].sought ==> trace[j].sought)
  {
    AllHoldBase(trace, file, maxChunk, n, elemSize);
    BaseSegment(trace, i + 1, j);
  }

  lemma SeekSegment(
    trace: seq<Player>, file: seq<byte>, maxChunk: nat, n: nat, elemSize: nat, i: nat, j: nat)
    requires Session(trace, file, maxChunk, n, elemSize) && i < j < |trace| && SeekDone(trace[i], trace[i + 1])
    requires (forall k :: i < k <= j ==> !trace[k].job.Seeking?) && trace[j].h.sound
    ensures AfterSeek(trace[i + 1], trace[j], file, trace[i].job.target)
  {
    BaseIs(trace, file, maxChunk, n, elemSize, i, j);
    SessionStream(trace, file, maxChunk, n, elemSize, i + 1);
    SessionStream(trace, file, maxChunk, n, elemSize, j);
    MadeSince(trace[i + 1], trace[j], file, trace[i].job.target);
  }

  lemma SeekDoneAt(trace: seq<Player>, file: seq<byte>, maxChunk: nat, n: nat, elemSize: nat, i: nat)
    requires Session(trace, file, maxChunk, n, elemSize) && i < |trace| - 1
    requires trace[i].job.Seeking? && CanFile(trace[i], EndJob, file, maxChunk)
    requires trace[i + 1] == FileAct(trace[i], EndJob, file, maxChunk)
    ensures SeekDone(trace[i], trace[i + 1])
  {
    SessionStream(trace, file, maxChunk, n, elemSize, i);
    SeekEnds(trace[i], file, maxChunk);
  }

  lemma SessionStream(
    trace: seq<Player>, file: seq<byte>, maxChunk: nat, n: nat, elemSize: nat, k: nat)
    requires Session(trace, file, maxChunk, n, elemSize) && k < |trace|
    ensures trace[k].h.sound ==> AtPoint(trace[k])
    ensures JobOk(trace[k], file) && MadeOk(trace[k], file)
  {
    SessionInv(trace, file, maxChunk, n, elemSize, k);
    InvStream(trace[k], file);
  }

  /** `here` and `more` make a stream, of which d bytes less, or if d is negative more, are `there`;
      if it is told, they are what d2 has more than d1. */
  predicate StreamGoesOn(here: seq<byte>, more: seq<byte>, there: seq<byte>, d: int, told: bool,
                         d1: seq<byte>, d2: seq<byte>) {
    var stream := here + more;
    && (0 <= d ==> d <= |stream| && there == stream[d..] && (told ==> d2 == d1 + stream[..d]))
    && (d < 0 ==> |there| == |stream| - d && there[-d..] == stream)
  }

  /** From u on the stream was what was ready then and behind it the file from the target up to
      where the reader stands in v. The buffer holds that less the d bytes that the decoder has taken
      since; or, if it has gone back beyond u, behind as many bytes more. As long as it has not
      sought, just those d bytes have been delivered. */
  predicate GoesOn(u: Player, v: Player, file: seq<byte>, target: nat) {
    && target <= v.readSoFar <= |file|
    && StreamGoesOn(Buffered(u.p), file[target..v.readSoFar], Buffered(v.p), Consumed(v) - Consumed(u),
                    Resting(u) && Resting(v) && !v.sought, u.delivered, v.delivered)
  }

  lemma PointsGoOn(made: seq<byte>, more: seq<byte>, here: seq<byte>, there: seq<byte>, c: nat, c': nat,
                   told: bool, d1: seq<byte>, d2: seq<byte>)
    requires c <= |made| && c' <= |made| + |more| && here == made[c..] && there == (made + more)[c'..]
    requires told ==> d1 == made[..c] && d2 == (made + more)[..c']
    ensures StreamGoesOn(here, more, there, c' - c, told, d1, d2)
  {
    TwoPoints(made, more, here, there, c, c');
    if c <= c' { BetweenPoints(made, more, here, c, c'); }
  }

  lemma AfterSeekStream(u: Player, v: Player, file: seq<byte>, target: nat)
    requires AfterSeek(u, v, file, target)
    ensures GoesOn(u, v, file, target)
  {
    PointsGoOn(u.h.made, file[target..v.readSoFar], Buffered(u.p), Buffered(v.p), Consumed(u), Consumed(v),
               Resting(u) && Resting(v) && !v.sought, u.delivered, v.delivered);
  }

  /** After a file seek, in every interleaving of reads, buffered seeks and fills until the next
      one, the stream goes on with what was ready when the seek ended, all of it in the data queue,
      and then with the file from the target. */
  lemma FileSeekKeepsWhatIsReady(
    trace: seq<Player>, file: seq<byte>, maxChunk: nat, n: nat, elemSize: nat, i: nat, j: nat)
    requires Session(trace, file, maxChunk, n, elemSize) && i < j < |trace|
    requires trace[i].job.Seeking? && CanFile(trace[i], EndJob, file, maxChunk)
    requires trace[i + 1] == FileAct(trace[i], EndJob, file, maxChunk)
    requires (forall k :: i < k <= j ==> !trace[k].job.Seeking?) && trace[j].h.sound
    ensures AllReady(trace[i + 1].p) && GoesOn(trace[i + 1], trace[j], file, trace[i].job.target)
  {
    SeekDoneAt(trace, file, maxChunk, n, elemSize, i);
    SeekSegment(trace, file, maxChunk, n, elemSize, i, j);
    AfterSeekStream(trace[i + 1], trace[j], file, trace[i].job.target);
  }

  /** Across fills, rotations and file seeks, with or without decoder seeks, every chunk that
      the decoder has not edited holds the file from its tag on. */
  lemma UntouchedChunksHoldTheFile(
    trace: seq<Player>, file: seq<byte>, maxChunk: nat, n: nat, elemSize: nat, k: nat, id: nat)
    requires Session(trace, file, maxChunk, n, elemSize) && k < |trace| && id < |trace[k].p.chunks|
    requires trace[k].p.chunks[id].intact && trace[k].p.chunks[id].bytes != []
    ensures var c := trace[k].p.chunks[id];
      0 <= c.first && c.first + |c.bytes| <= |file| && c.bytes == file[c.first..c.first + |c.bytes|]
  {
    SessionTags(trace, file, maxChunk, n, elemSize, k);
    HoldsTheFile(trace[k].p, file, id);
  }

  lemma SessionTags(trace: seq<Player>, file: seq<byte>, maxChunk: nat, n: nat, elemSize: nat, k: nat)
    requires Session(trace, file, maxChunk, n, elemSize) && k < |trace|
    ensures TagsOk(trace[k].p, file)
  {
    SessionInv(trace, file, maxChunk, n, elemSize, k);
  }

  lemma HoldsTheFile(p: State, file: seq<byte>, id: nat)
    requires TagsOk(p, file) && id < |p.chunks| && p.chunks[id].intact && p.chunks[id].bytes != []
    ensures var c := p.chunks[id];
      0 <= c.first && c.first + |c.bytes| <= |file| && c.bytes == file[c.first..c.first + |c.bytes|]
  {
    assert Tagged(p.chunks[id], file);
  }
}
