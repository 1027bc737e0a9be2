/** A whole run of `try_read` in the midst of the other thread's steps: a run that finds a free
    chunk reads as much as it asks for, the chunk has room for or the file has left, and it finds
    room in every free chunk it is given. */
module FillProgress {
  import opened Bytes
  import opened Pipeline
  import opened PipelineRuns
  import opened Playback
  import opened PlaybackWindow
  import opened PlaybackProofs
  import opened HandOver

  // ----- every action of the player is none, one or two steps of the pool -----

  ghost predicate Reaches(p: State, p': State) {
    p' == p || Next(p, p') || exists mid :: Next(p, mid) && Next(mid, p')
  }

  lemma StepIsNext(p: State, e: Event)
    requires Enabled(p, e)
    ensures Next(p, Step(p, e))
  {
  }

  lemma TwoSteps(p: State, e: Event, e2: Event)
    requires Enabled(p, e) && Enabled(Step(p, e), e2)
    ensures Reaches(p, Step(Step(p, e), e2))
  {
    StepIsNext(p, e);
    StepIsNext(Step(p, e), e2);
  }

  lemma FileReaches(v: Player, a: Action, file: seq<byte>, maxChunk: nat)
    requires FileAction(a) && CanFile(v, a, file, maxChunk)
    ensures Reaches(v.p, FileAct(v, a, file, maxChunk).p)
  {
    match a
    case StartFill => StepIsNext(v.p, ProdGet);
    case StartFileSeek(_) => StepIsNext(v.p, ProdGet);
    case Fill =>
      var e, n := FillEvent(v, file, maxChunk), Obtained(v, file, maxChunk);
      TwoSteps(v.p, e, ProdPut(v.readSoFar + n == |file| || n < Wanted(v, maxChunk)));
    case ClearFront => TwoSteps(v.p, ProdClear, ProdPut(false));
    case EndJob =>
  }

  lemma ChunkReaches(v: Player, a: Action)
    requires ChunkAction(a) && CanChunk(v, a)
    ensures Reaches(v.p, ChunkAct(v, a).p)
  {
    if Gets(a) {
      StepIsNext(v.p, ConsGet);
    } else if a.BackEdit? {
      TwoSteps(v.p, PushBackEvent(v), ConsPut(false));
    } else {
      TwoSteps(v.p, ConsDrop(Taken(v)), ConsPut(false));
    }
  }

  lemma MovesReach(v: Player, v': Player, file: seq<byte>, maxChunk: nat)
    requires Moves(v, v', file, maxChunk)
    ensures Reaches(v.p, v'.p)
  {
    var a :| CanAct(v, a, file, maxChunk) && v' == Act(v, a, file, maxChunk);
    if a.Inner? {
      StepIsNext(v.p, a.e);
    } else if FileAction(a) {
      FileReaches(v, a, file, maxChunk);
    } else if Register(a) {
      RegisterFrame(v, file, a);
    } else {
      ChunkReaches(v, a);
    }
  }

  lemma ReachKeepsRoom(p: State, p': State)
    requires Inv(p) && RoomInFront(p) && Reaches(p, p')
    ensures RoomInFront(p')
  {
    if p' != p {
      if Next(p, p') {
        NextKeepsRoom(p, p');
      } else {
        var mid :| Next(p, mid) && Next(mid, p');
        NextKeepsRoom(p, mid);
        NextKeeps(p, mid);
        NextKeepsRoom(mid, p');
      }
    }
  }

  /** In every reachable state of the player too, a front free chunk in nobody's hands has room. */
  lemma {:induction false} SessionRoom(
    trace: seq<Player>, file: seq<byte>, maxChunk: nat, n: nat, elemSize: nat, k: nat)
    requires Session(trace, file, maxChunk, n, elemSize) && k < |trace| && 0 < elemSize
    ensures RoomInFront(trace[k].p)
  {
    if k == 0 {
    } else {
      var m := k - 1;
      SessionRoom(trace, file, maxChunk, n, elemSize, m);
      SessionInv(trace, file, maxChunk, n, elemSize, m);
      assert Moves(trace[m], trace[m + 1], file, maxChunk);
      MovesReach(trace[m], trace[m + 1], file, maxChunk);
      ReachKeepsRoom(trace[m].p, trace[m + 1].p);
    }
  }

  // ----- a run of try_read -----

  /** The front free chunk of p is still what it was in p0, if there was one. */
  predicate FrontSame(p0: State, p: State) {
    p0.cache.fifo != [] ==>
      p0.cache.fifo[0] < |p0.chunks| == |p.chunks| && p.chunks[p0.cache.fifo[0]] == p0.chunks[p0.cache.fifo[0]]
  }

  /** A read of n bytes into c with `left` bytes left in the file: not more than is asked for, fits
      or is left, and as much as one of the three. */
  predicate ReadsAll(n: int, c: Chunk, maxChunk: nat, left: int) {
    && 0 <= n <= maxChunk && |c.bytes| + n <= c.cap && n <= left
    && (n == maxChunk || |c.bytes| + n == c.cap || n == left)
  }

  /** What has been read since u, up to readSoFar. */
  predicate ReadSince(u: Player, readSoFar: nat, file: seq<byte>, maxChunk: nat, fin: bool) {
    && (fin <==> readSoFar == |file|)
    && 0 <= readSoFar - u.readSoFar <= maxChunk && readSoFar <= |file|
    && (u.p.cache.fifo != [] && u.p.cache.fifo[0] < |u.p.chunks| ==>
          ReadsAll(readSoFar - u.readSoFar, u.p.chunks[u.p.cache.fifo[0]], maxChunk, |file| - u.readSoFar))
  }

  /** A run of try_read that was begun in u is under way. */
  predicate FillRun(u: Player, v: Player, file: seq<byte>, maxChunk: nat) {
    && v.job.Filling?
    && if Getting(v.p.prod) then
         v.readSoFar == u.readSoFar && !v.job.fin && ProdGetting(v.p, u.p.cache.fifo) && FrontSame(u.p, v.p)
       else
         || (v.p.prod.PIdle? && u.p.cache.fifo == [] && v.readSoFar == u.readSoFar && !v.job.fin)
         || ReadSince(u, v.readSoFar, file, maxChunk, v.job.fin)
  }

  /** The decoder's steps do not concern it. */
  lemma FreeSideRun(u: Player, v: Player, v': Player, file: seq<byte>, maxChunk: nat)
    requires FillRun(u, v, file, maxChunk) && FreeSideKept(v.p, v'.p)
    requires v'.readSoFar == v.readSoFar && v'.job == v.job
    ensures FillRun(u, v', file, maxChunk)
  {
    if Getting(v.p.prod) {
      if v.p.cache.fifo != [] {
        assert v'.p.cache.fifo[0] == v'.p.cache.fifo[..|v.p.cache.fifo|][0];
        assert v.p.cache.fifo[0] in v.p.cache.fifo;
      }
    }
  }

  lemma ProdInnerRun(u: Player, v: Player, e: Event, file: seq<byte>, maxChunk: nat)
    requires FillRun(u, v, file, maxChunk) && Inv(v.p) && IsInner(e) && ByProducer(e) && Enabled(v.p, e)
    ensures FillRun(u, InnerAct(v, e), file, maxChunk)
  {
    var v' := InnerAct(v, e);
    InnerChunks(v.p, e);
    if ProdInGet(v.p) {
      ProducerKeepsProdGetting(v.p, e, u.p.cache.fifo);
    }
  }

  lemma ConsInnerRun(u: Player, v: Player, e: Event, file: seq<byte>, maxChunk: nat)
    requires FillRun(u, v, file, maxChunk) && Inv(v.p) && IsInner(e) && !ByProducer(e) && Enabled(v.p, e)
    ensures FillRun(u, InnerAct(v, e), file, maxChunk)
  {
    ConsumerKeepsFreeSide(v.p, e);
    FreeSideRun(u, v, InnerAct(v, e), file, maxChunk);
  }

  lemma FillDone(u: Player, v: Player, file: seq<byte>, maxChunk: nat)
    requires FillRun(u, v, file, maxChunk) && CanFile(v, Fill, file, maxChunk)
    ensures FillRun(u, FileAct(v, Fill, file, maxChunk), file, maxChunk)
  {
    var n := Obtained(v, file, maxChunk);
    ProdEditPutFrame(v.p, FillEvent(v, file, maxChunk), v.readSoFar + n == |file| || n < Wanted(v, maxChunk));
  }

  lemma ConsPutFree(p: State, e: Event)
    requires Inv(p) && Enabled(p, e) && (e.ConsDrop? || e.ConsPrepend?)
    ensures FreeSideKept(p, ConsEditPut(p, e))
  {
    ConsumerKeepsFreeSide(p, e);
    ConsEditPutFrame(p, e);
  }

  lemma ChunkRun(u: Player, v: Player, a: Action, file: seq<byte>, maxChunk: nat)
    requires FillRun(u, v, file, maxChunk) && Inv(v.p) && ChunkAction(a) && CanChunk(v, a)
    ensures FillRun(u, ChunkAct(v, a), file, maxChunk)
  {
    if Gets(a) {
      ConsumerKeepsFreeSide(v.p, ConsGet);
    } else if a.BackEdit? {
      ConsPutFree(v.p, PushBackEvent(v));
    } else {
      ConsPutFree(v.p, ConsDrop(Taken(v)));
    }
    FreeSideRun(u, v, ChunkAct(v, a), file, maxChunk);
  }

  lemma InnerRun(u: Player, v: Player, e: Event, file: seq<byte>, maxChunk: nat)
    requires FillRun(u, v, file, maxChunk) && Inv(v.p) && IsInner(e) && Enabled(v.p, e)
    ensures FillRun(u, InnerAct(v, e), file, maxChunk)
  {
    if ByProducer(e) { ProdInnerRun(u, v, e, file, maxChunk); } else { ConsInnerRun(u, v, e, file, maxChunk); }
  }

  lemma FileRun(u: Player, v: Player, a: Action, file: seq<byte>, maxChunk: nat)
    requires FillRun(u, v, file, maxChunk) && FileAction(a) && CanFile(v, a, file, maxChunk)
    requires FileAct(v, a, file, maxChunk).job.Filling?
    ensures FillRun(u, FileAct(v, a, file, maxChunk), file, maxChunk)
  {
    if a.Fill? { FillDone(u, v, file, maxChunk); }
  }

  lemma RegisterRun(u: Player, v: Player, a: Action, file: seq<byte>, maxChunk: nat)
    requires FillRun(u, v, file, maxChunk) && Register(a) && CanRegister(v, a, file)
    ensures FillRun(u, RegisterAct(v, a, file), file, maxChunk)
  {
    RegisterFrame(v, file, a);
  }

  lemma MovesRun(u: Player, v: Player, v': Player, file: seq<byte>, maxChunk: nat)
    requires FillRun(u, v, file, maxChunk) && Inv(v.p) && Moves(v, v', file, maxChunk) && v'.job.Filling?
    ensures FillRun(u, v', file, maxChunk)
  {
    var a :| CanAct(v, a, file, maxChunk) && v' == Act(v, a, file, maxChunk);
    if a.Inner? {
      InnerRun(u, v, a.e, file, maxChunk);
    } else if FileAction(a) {
      FileRun(u, v, a, file, maxChunk);
    } else if Register(a) {
      RegisterRun(u, v, a, file, maxChunk);
    } else {
      ChunkRun(u, v, a, file, maxChunk);
    }
  }

  lemma RunBegins(u: Player, file: seq<byte>, maxChunk: nat)
    requires PoolOk(u.p) && CanFile(u, StartFill, file, maxChunk)
    ensures FillRun(u, FileAct(u, StartFill, file, maxChunk), file, maxChunk)
  {
    HandsInPool(u.p);
  }

  lemma {:induction false} RunGoesOn(
    trace: seq<Player>, file: seq<byte>, maxChunk: nat, n: nat, elemSize: nat, u: Player, i: nat, j: nat)
    requires Session(trace, file, maxChunk, n, elemSize) && i <= j < |trace|
    requires FillRun(u, trace[i], file, maxChunk) && forall k :: i <= k <= j ==> trace[k].job.Filling?
    ensures FillRun(u, trace[j], file, maxChunk)
    decreases j
  {
    if j != i {
      var m := j - 1;
      RunGoesOn(trace, file, maxChunk, n, elemSize, u, i, m);
      SessionInv(trace, file, maxChunk, n, elemSize, m);
      assert Moves(trace[m], trace[m + 1], file, maxChunk);
      MovesRun(u, trace[m], trace[m + 1], file, maxChunk);
    }
  }

  /** What a run from u to v comes to. */
  lemma RunEnds(u: Player, v: Player, file: seq<byte>, maxChunk: nat)
    requires FillRun(u, v, file, maxChunk) && v.p.prod.PIdle?
    requires NoneInHand(u.p) && RoomInFront(u.p) && u.readSoFar <= |file|
    ensures u.p.cache.fifo != [] && u.p.cache.fifo[0] < |u.p.chunks| ==>
      var count, left := v.readSoFar - u.readSoFar, |file| - u.readSoFar;
      && ReadsAll(count, u.p.chunks[u.p.cache.fifo[0]], maxChunk, left)
      && (0 < maxChunk && 0 < left ==> 0 < count) && (v.job.fin <==> v.readSoFar == |file|)
    ensures u.p.cache.fifo == [] ==>
      (v.readSoFar == u.readSoFar && !v.job.fin) || (v.job.fin <==> v.readSoFar == |file|)
    ensures 0 <= v.readSoFar - u.readSoFar <= maxChunk && v.readSoFar <= |file|
  {
  }

  lemma RunStarts(trace: seq<Player>, file: seq<byte>, maxChunk: nat, n: nat, elemSize: nat, i: nat)
    requires Session(trace, file, maxChunk, n, elemSize) && i < |trace| && 0 < elemSize
    requires CanFile(trace[i], StartFill, file, maxChunk)
    ensures FillRun(trace[i], FileAct(trace[i], StartFill, file, maxChunk), file, maxChunk)
    ensures RoomInFront(trace[i].p) && NoneInHand(trace[i].p) && trace[i].readSoFar <= |file|
    ensures trace[i].p.cache.fifo != [] ==> trace[i].p.cache.fifo[0] < |trace[i].p.chunks|
  {
    SessionInv(trace, file, maxChunk, n, elemSize, i);
    SessionRoom(trace, file, maxChunk, n, elemSize, i);
    HandsInPool(trace[i].p);
    RunBegins(trace[i], file, maxChunk);
  }

  lemma EndIs(v: Player, file: seq<byte>, maxChunk: nat)
    requires v.job.Filling? && CanFile(v, EndJob, file, maxChunk)
    ensures var v' := FileAct(v, EndJob, file, maxChunk); v'.readSoFar == v.readSoFar && v'.closed == v.job.fin
    ensures v.p.prod.PIdle?
  {
  }

  /** The read itself: the chunk in hand keeps its capacity and gets the next bytes of the file at its
      end; a chunk that was empty is tagged with where they come from; and the chunk is put back for
      rotation exactly if the file has been read to its end. */
  lemma FillAppends(v: Player, file: seq<byte>, maxChunk: nat)
    requires CanFile(v, Fill, file, maxChunk)
    ensures var v', id := FileAct(v, Fill, file, maxChunk), v.p.prod.id;
      && |v'.p.chunks| == |v.p.chunks| && v.readSoFar <= v'.readSoFar <= |file|
      && var c, c' := v.p.chunks[id], v'.p.chunks[id];
      && ReadsAll(v'.readSoFar - v.readSoFar, c, maxChunk, |file| - v.readSoFar)
      && c'.cap == c.cap && c'.bytes == c.bytes + file[v.readSoFar..v'.readSoFar]
      && c'.first == (if c.bytes == [] then v.readSoFar else c.first)
      && v'.p.prod == PPut(id, v'.readSoFar == |file|)
      && (forall x :: 0 <= x < |v.p.chunks| && x != id ==> v'.p.chunks[x] == v.p.chunks[x])
  {
    var n := Obtained(v, file, maxChunk);
    ProdEditPutFrame(v.p, FillEvent(v, file, maxChunk), v.readSoFar + n == |file| || n < Wanted(v, maxChunk));
    if v.p.chunks[v.p.prod.id].bytes == [] {
      assert [] + file[v.readSoFar..v.readSoFar + n] == file[v.readSoFar..v.readSoFar + n];
    }
  }

  /** A run of try_read from its start at i to its end in state j, with the decoder's steps in
      between. If a chunk was free at the start, the run reads the least of what it asks for, the
      room of that chunk and the rest of the file, and it finishes the file exactly if it has read
      up to its end; asked for bytes with some left in the file, it reads at least one. If no chunk
      was free, it either finds none, reads nothing and does not finish, or it has been given one
      since. */
  lemma TryReadMakesProgress(
    trace: seq<Player>, file: seq<byte>, maxChunk: nat, n: nat, elemSize: nat, i: nat, j: nat)
    requires Session(trace, file, maxChunk, n, elemSize) && i < j < |trace| && 0 < elemSize
    requires CanFile(trace[i], StartFill, file, maxChunk)
    requires trace[i + 1] == FileAct(trace[i], StartFill, file, maxChunk)
    requires (forall k :: i < k <= j ==> trace[k].job.Filling?) && CanFile(trace[j], EndJob, file, maxChunk)
    ensures trace[i].p.cache.fifo != [] ==> trace[i].p.cache.fifo[0] < |trace[i].p.chunks|
    ensures var u, v := trace[i], FileAct(trace[j], EndJob, file, maxChunk);
      var count, left := v.readSoFar - u.readSoFar, |file| - u.readSoFar;
      && 0 <= count <= maxChunk && count <= left
      && if u.p.cache.fifo != [] then
           && ReadsAll(count, u.p.chunks[u.p.cache.fifo[0]], maxChunk, left)
           && (0 < maxChunk && 0 < left ==> 0 < count)
           && (v.closed <==> v.readSoFar == |file|)
         else (count == 0 && !v.closed) || (v.closed <==> v.readSoFar == |file|)
  {
    RunStarts(trace, file, maxChunk, n, elemSize, i);
    RunGoesOn(trace, file, maxChunk, n, elemSize, trace[i], i + 1, j);
    EndIs(trace[j], file, maxChunk);
    RunEnds(trace[i], trace[j], file, maxChunk);
  }
}
