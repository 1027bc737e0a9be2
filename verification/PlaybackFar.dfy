/** The far branch of a seek among the steps of both threads: where the loop over the chunks' tags
    stops, whatever the reader does meanwhile. */
module PlaybackFar {
  import opened Bytes
  import opened Pipeline
  import opened PipelineRuns
  import opened Playback
  import opened PlaybackWindow
  import opened PlaybackProofs
  import opened ReadProgress

  // ----- tags and places in the stream -----

  function ChunkOf(chunks: seq<Chunk>, id: Id): Chunk {
    if id < |chunks| then chunks[id] else Chunk(0, [], 0, false)
  }

  /** A chunk that begins at o in what the reader has made: if that is behind `base`, the reader has
      filled it since it went to `from`, and unless the decoder has edited it, its tag says so. */
  predicate PlacedAt(c: Chunk, o: int, base: int, from: int) {
    base <= o && c.intact && c.bytes != [] ==> c.first == from + (o - base)
  }

  predicate Placed(chunks: seq<Chunk>, ids: seq<Id>, o: int, base: int, from: int) {
    ids == [] || (PlacedAt(ChunkOf(chunks, ids[0]), o, base, from)
                  && Placed(chunks, ids[1..], o + |BytesOf(chunks, ids[0])|, base, from))
  }

  lemma {:induction false} PlacedSplit(chunks: seq<Chunk>, a: seq<Id>, b: seq<Id>, o: int, base: int, from: int)
    ensures Placed(chunks, a + b, o, base, from)
      <==> Placed(chunks, a, o, base, from) && Placed(chunks, b, o + |Contents(chunks, a)|, base, from)
  {
    if a == [] {
      assert a + b == b;
    } else {
      PlacedSplit(chunks, a[1..], b, o + |BytesOf(chunks, a[0])|, base, from);
      assert (a + b)[1..] == a[1..] + b && (a + b)[0] == a[0];
    }
  }

  lemma PlacedOne(chunks: seq<Chunk>, id: Id, o: int, base: int, from: int)
    ensures Placed(chunks, [id], o, base, from) <==> PlacedAt(ChunkOf(chunks, id), o, base, from)
    ensures |Contents(chunks, [id])| == |BytesOf(chunks, id)|
  {
    assert [id][1..] == [];
    assert Contents(chunks, [id]) == BytesOf(chunks, id) + Contents(chunks, []);
  }

  /** A chunk with others before and behind it. */
  lemma PlacedAround(chunks: seq<Chunk>, pre: seq<Id>, id: Id, post: seq<Id>, o: int, base: int, from: int)
    ensures var at := o + |Contents(chunks, pre)|;
      Placed(chunks, pre + [id] + post, o, base, from) <==>
        && Placed(chunks, pre, o, base, from) && PlacedAt(ChunkOf(chunks, id), at, base, from)
        && Placed(chunks, post, at + |BytesOf(chunks, id)|, base, from)
  {
    PlacedSplit(chunks, pre + [id], post, o, base, from);
    PlacedSplit(chunks, pre, [id], o, base, from);
    PlacedOne(chunks, id, o + |Contents(chunks, pre)|, base, from);
    ContentsAppend(chunks, pre, [id]);
  }

  /** An empty chunk can come and go. */
  lemma PlacedSkip(chunks: seq<Chunk>, pre: seq<Id>, id: Id, post: seq<Id>, o: int, base: int, from: int)
    requires BytesOf(chunks, id) == []
    ensures Placed(chunks, pre + [id] + post, o, base, from) <==> Placed(chunks, pre + post, o, base, from)
  {
    PlacedAround(chunks, pre, id, post, o, base, from);
    PlacedSplit(chunks, pre, post, o, base, from);
  }

  lemma {:induction false} PlacedAgree(
    chunks: seq<Chunk>, chunks': seq<Chunk>, ids: seq<Id>, o: int, base: int, from: int)
    requires forall id :: id in ids ==> ChunkOf(chunks', id) == ChunkOf(chunks, id)
    requires forall id :: id in ids ==> BytesOf(chunks', id) == BytesOf(chunks, id)
    ensures Placed(chunks', ids, o, base, from) <==> Placed(chunks, ids, o, base, from)
  {
    if ids == [] {
    } else {
      assert ids[0] in ids && forall id :: id in ids[1..] ==> id in ids;
      PlacedAgree(chunks, chunks', ids[1..], o + |BytesOf(chunks, ids[0])|, base, from);
    }
  }

  lemma {:induction false} PlacedEmpty(chunks: seq<Chunk>, ids: seq<Id>, o: int, base: int, from: int)
    requires AllEmpty(chunks, ids)
    ensures Placed(chunks, ids, o, base, from)
  {
    if ids == [] {
    } else {
      PlacedEmpty(chunks, ids[1..], o, base, from);
    }
  }

  /** All that was made before a place lies before it. */
  lemma {:induction false} PlacedBefore(chunks: seq<Chunk>, ids: seq<Id>, o: int, base: int, from: int)
    requires o + |Contents(chunks, ids)| <= base
    ensures Placed(chunks, ids, o, base, from)
  {
    if ids == [] {
    } else {
      PlacedBefore(chunks, ids[1..], o + |BytesOf(chunks, ids[0])|, base, from);
    }
  }

  /** Other chunks are where they were. */
  lemma ElsewherePlaced(chunks: seq<Chunk>, id: Id, c: Chunk, ids: seq<Id>, o: int, base: int, from: int)
    requires id < |chunks| && id !in ids && Placed(chunks, ids, o, base, from)
    ensures Placed(chunks[id := c], ids, o, base, from)
    ensures Contents(chunks[id := c], ids) == Contents(chunks, ids)
  {
    PlacedAgree(chunks, chunks[id := c], ids, o, base, from);
    ContentsAgree(chunks, chunks[id := c], ids);
  }

  /** Replacing a chunk that has only empty ones behind it. */
  lemma PlacedLast(chunks: seq<Chunk>, pre: seq<Id>, id: Id, post: seq<Id>, c: Chunk, o: int, base: int, from: int)
    requires id < |chunks| && id !in pre && id !in post && Placed(chunks, pre + [id] + post, o, base, from)
    requires PlacedAt(c, o + |Contents(chunks, pre)|, base, from) && AllEmpty(chunks, post)
    ensures Placed(chunks[id := c], pre + [id] + post, o, base, from)
  {
    PlacedAround(chunks, pre, id, post, o, base, from);
    ElsewherePlaced(chunks, id, c, pre, o, base, from);
    StillEmpty(chunks, id, c, post, o + |Contents(chunks, pre)| + |c.bytes|, base, from);
    PlacedAround(chunks[id := c], pre, id, post, o, base, from);
  }

  lemma StillEmpty(chunks: seq<Chunk>, id: Id, c: Chunk, ids: seq<Id>, o: int, base: int, from: int)
    requires id < |chunks| && id !in ids && AllEmpty(chunks, ids)
    ensures Placed(chunks[id := c], ids, o, base, from)
  {
    EmptyAgree(chunks, chunks[id := c], ids);
    PlacedEmpty(chunks[id := c], ids, o, base, from);
  }

  /** Replacing the first chunk by one that ends at the same place. */
  lemma PlacedFirst(chunks: seq<Chunk>, id: Id, post: seq<Id>, c: Chunk, o: int, o': int, base: int, from: int)
    requires id < |chunks| && id !in post && Placed(chunks, [id] + post, o, base, from)
    requires PlacedAt(c, o', base, from) && o' + |c.bytes| == o + |chunks[id].bytes|
    ensures Placed(chunks[id := c], [id] + post, o', base, from)
  {
    assert ([id] + post)[1..] == post;
    ElsewherePlaced(chunks, id, c, post, o + |chunks[id].bytes|, base, from);
  }

  lemma EmptyAgree(chunks: seq<Chunk>, chunks': seq<Chunk>, ids: seq<Id>)
    requires AllEmpty(chunks, ids) && forall id :: id in ids ==> BytesOf(chunks', id) == BytesOf(chunks, id)
    ensures AllEmpty(chunks', ids)
  {
  }

  // ----- inner steps -----

  lemma ReadPlaced(s: State, o: int, base: int, from: int)
    requires Enabled(s, ConsRead) && Inv(s) && Placed(s.chunks, StreamOrder(s), o, base, from)
    ensures var s' := Step(s, ConsRead); Placed(s'.chunks, StreamOrder(s'), o, base, from)
  {
    ConsReadQueues(s);
    if s.data.r.RErased? {
      ConsReadPool(s);
      PlacedRest(s.chunks, StreamOrder(s), o, base, from);
    } else {
      ReadOrder(s);
    }
  }

  lemma PlacedRest(chunks: seq<Chunk>, ids: seq<Id>, o: int, base: int, from: int)
    requires ids != [] && BytesOf(chunks, ids[0]) == [] && Placed(chunks, ids, o, base, from)
    ensures Placed(chunks, ids[1..], o, base, from)
  {
  }

  lemma ReadOrder(s: State)
    requires Enabled(s, ConsRead) && QueuesOk(s) && !s.data.r.RErased?
    ensures StreamOrder(Step(s, ConsRead)) == StreamOrder(s)
  {
    ConsReadQueues(s);
  }

  lemma WritePlaced(s: State, o: int, base: int, from: int)
    requires Enabled(s, ConsWrite) && Inv(s) && Placed(s.chunks, StreamOrder(s), o, base, from)
    ensures var s' := Step(s, ConsWrite); Placed(s'.chunks, StreamOrder(s'), o, base, from)
  {
    RoomForFlight(s);
    ConsWriteQueues(s);
    var s' := Step(s, ConsWrite);
    if s.cache.w.WBuilt? {
      assert BytesOf(s.chunks, ConsFlight(s)[0]) == [];
      assert StreamOrder(s') == StreamOrder(s) + [s.cons.id] + [] && StreamOrder(s) + [] == StreamOrder(s);
      PlacedSkip(s.chunks, StreamOrder(s), s.cons.id, [], o, base, from);
    } else {
      assert StreamOrder(s') == StreamOrder(s);
    }
  }

  lemma TakenOrder(s: State)
    requires Enabled(s, ProdTaken)
    ensures StreamOrder(s) == s.data.fifo + [s.cache.r.val] + s.cache.fifo && Step(s, ProdTaken).chunks == s.chunks
    ensures StreamOrder(Step(s, ProdTaken))
      == if BytesOf(s.chunks, s.cache.r.val) == [] then s.data.fifo + s.cache.fifo else StreamOrder(s)
  {
    if BytesOf(s.chunks, s.cache.r.val) != [] {
      ProdTakenGives(s);
    } else {
      assert StreamOrder(Step(s, ProdTaken)) == s.data.fifo + [] + s.cache.fifo;
      assert s.data.fifo + [] == s.data.fifo;
    }
  }

  lemma TakenPlaced(s: State, o: int, base: int, from: int)
    requires Enabled(s, ProdTaken) && Placed(s.chunks, StreamOrder(s), o, base, from)
    ensures var s' := Step(s, ProdTaken); Placed(s'.chunks, StreamOrder(s'), o, base, from)
  {
    TakenOrder(s);
    if BytesOf(s.chunks, s.cache.r.val) == [] {
      PlacedSkip(s.chunks, s.data.fifo, s.cache.r.val, s.cache.fifo, o, base, from);
    }
  }

  /** The other inner steps leave every chunk where it is. */
  lemma SameOrder(s: State, e: Event)
    requires IsInner(e) && Enabled(s, e) && Inv(s) && !e.ConsRead? && !e.ConsWrite? && !e.ProdTaken?
    ensures StreamOrder(Step(s, e)) == StreamOrder(s)
  {
    if e.ProdRead? {
      ProdReadQueues(s);
    } else if e.ProdWrite? {
      RoomForFlight(s);
      ProdWriteQueues(s);
    } else {
      SameFlight(s, e);
    }
  }

  lemma SameFlight(s: State, e: Event)
    requires IsInner(e) && Enabled(s, e) && QueuesOk(s)
    requires !e.ConsRead? && !e.ConsWrite? && !e.ProdTaken? && !e.ProdRead? && !e.ProdWrite?
    ensures Step(s, e).data.fifo == s.data.fifo && Step(s, e).cache.fifo == s.cache.fifo
    ensures ProdFlight(Step(s, e)) == ProdFlight(s)
  {
  }

  lemma InnerPlaced(s: State, e: Event, o: int, base: int, from: int)
    requires IsInner(e) && Enabled(s, e) && Inv(s) && Placed(s.chunks, StreamOrder(s), o, base, from)
    ensures Placed(Step(s, e).chunks, StreamOrder(Step(s, e)), o, base, from)
  {
    if e.ConsRead? {
      ReadPlaced(s, o, base, from);
    } else if e.ConsWrite? {
      WritePlaced(s, o, base, from);
    } else if e.ProdTaken? {
      TakenPlaced(s, o, base, from);
    } else {
      InnerChunks(s, e);
      SameOrder(s, e);
    }
  }

  // ----- the steps of the two clients -----

  /** What the tags say, as long as no out-of-date window has been pushed back. */
  predicate TagsPlaced(v: Player) {
    v.h.sound ==> Placed(v.p.chunks, StreamOrder(v.p), Consumed(v), |v.h.base|, v.h.from)
  }

  /** The partly filled chunk has been begun since the last file seek. */
  predicate FrontLate(v: Player) {
    v.p.cache.fifo != [] && BytesOf(v.p.chunks, v.p.cache.fifo[0]) != [] ==>
      |v.h.base| + |BytesOf(v.p.chunks, v.p.cache.fifo[0])| <= |v.h.made|
  }

  predicate FarOk(v: Player) { TagsPlaced(v) && FrontLate(v) }

  lemma InnerFarOk(v: Player, e: Event)
    requires IsInner(e) && Enabled(v.p, e) && Inv(v.p) && FarOk(v)
    ensures FarOk(InnerAct(v, e))
  {
    InnerFrame(v, e);
    InnerMakes(v, e);
    if v.h.sound { InnerPlaced(v.p, e, Consumed(v), |v.h.base|, v.h.from); }
    InnerFront(v.p, e);
  }

  /** A new front of the cache queue is an empty chunk. */
  lemma InnerFront(s: State, e: Event)
    requires IsInner(e) && Enabled(s, e) && Inv(s)
    ensures var s' := Step(s, e);
      s'.cache.fifo != [] && BytesOf(s'.chunks, s'.cache.fifo[0]) != [] ==>
        s.cache.fifo != [] && BytesOf(s.chunks, s.cache.fifo[0]) == BytesOf(s'.chunks, s'.cache.fifo[0])
  {
    InnerChunks(s, e);
    InnerQueue(s, e);
  }

  lemma InnerMakes(v: Player, e: Event)
    requires IsInner(e) && Enabled(v.p, e)
    ensures var v' := InnerAct(v, e); v'.h == v.h && Consumed(v') == Consumed(v)
  {
  }

  /** The end of what has been made is the end of the partly filled chunk. */
  lemma FrontEnds(v: Player)
    requires Inv(v.p) && StreamOk(v) && v.h.sound && v.p.prod.PHold?
    ensures v.p.prod.id < |v.p.chunks|
    ensures Consumed(v) + |StreamBefore(v.p)| + |v.p.chunks[v.p.prod.id].bytes| == |v.h.made|
  {
    ProdEditOrder(v.p);
    ProdEditStream(v.p, v.p.chunks[v.p.prod.id]);
  }

  lemma ProdEditPlaced(p: State, c: Chunk, o: int, base: int, from: int)
    requires Inv(p) && p.prod.PHold? && Placed(p.chunks, StreamOrder(p), o, base, from)
    requires p.prod.id < |p.chunks| && PlacedAt(c, o + |StreamBefore(p)|, base, from)
    ensures Placed(p.chunks[p.prod.id := c], StreamOrder(p), o, base, from)
  {
    ProdEditOrder(p);
    PlacedLast(p.chunks, p.data.fifo + ProdFlight(p), p.prod.id, p.cache.fifo[1..], c, o, base, from);
  }

  /** The tag that a fill sets, or leaves, is right. */
  lemma FillPlacedAt(c: Chunk, bs: seq<byte>, made: nat, base: nat, from: nat, readSoFar: nat)
    requires base <= made && made == base + (readSoFar - from) && |c.bytes| <= made
    requires PlacedAt(c, made - |c.bytes|, base, from)
    ensures PlacedAt(Appended(c, bs, c.cap, readSoFar), made - |c.bytes|, base, from)
  {
  }

  lemma ProdEditPutOrder(p: State, e: Event, rotate: bool)
    requires Enabled(p, e) && (e.ProdAppend? || e.ProdClear?) && ProdAt(p)
    ensures StreamOrder(ProdEditPut(p, e, rotate)) == StreamOrder(p)
    ensures p.cache.fifo != [] && p.cache.fifo[0] == p.prod.id
  {
  }

  lemma FrontPlaced(p: State, o: int, base: int, from: int)
    requires Inv(p) && p.prod.PHold? && Placed(p.chunks, StreamOrder(p), o, base, from)
    ensures p.prod.id < |p.chunks| && PlacedAt(p.chunks[p.prod.id], o + |StreamBefore(p)|, base, from)
  {
    ProdEditOrder(p);
    PlacedAround(p.chunks, p.data.fifo + ProdFlight(p), p.prod.id, p.cache.fifo[1..], o, base, from);
  }

  lemma FillPlaced(v: Player, file: seq<byte>, bs: seq<byte>)
    requires Inv(v.p) && StreamOk(v) && MadeOk(v, file) && TagsPlaced(v) && v.h.sound && v.job.Filling?
    requires v.p.prod.PHold? && v.p.prod.id < |v.p.chunks|
    ensures var c := v.p.chunks[v.p.prod.id];
      Placed(v.p.chunks[v.p.prod.id := Appended(c, bs, c.cap, v.readSoFar)], StreamOrder(v.p), Consumed(v),
             |v.h.base|, v.h.from)
  {
    var c := v.p.chunks[v.p.prod.id];
    FrontEnds(v);
    FrontPlaced(v.p, Consumed(v), |v.h.base|, v.h.from);
    FillPlacedAt(c, bs, |v.h.made|, |v.h.base|, v.h.from, v.readSoFar);
    ProdEditPlaced(v.p, Appended(c, bs, c.cap, v.readSoFar), Consumed(v), |v.h.base|, v.h.from);
  }

  /** What a fill does to the parts that matter here. */
  lemma FillMoves(v: Player, file: seq<byte>, maxChunk: nat)
    requires CanFile(v, Fill, file, maxChunk) && ProdAt(v.p)
    ensures var v', c := FileAct(v, Fill, file, maxChunk), v.p.chunks[v.p.prod.id];
      var bs := file[v.readSoFar..v.readSoFar + Obtained(v, file, maxChunk)];
      && v'.p.chunks == v.p.chunks[v.p.prod.id := Appended(c, bs, c.cap, v.readSoFar)]
      && StreamOrder(v'.p) == StreamOrder(v.p) && Consumed(v') == Consumed(v)
      && v'.h == v.h.(made := v.h.made + bs)
      && v.p.cache.fifo != [] && v.p.cache.fifo[0] == v.p.prod.id && v'.p.cache.fifo == v.p.cache.fifo
  {
    var e, n := FillEvent(v, file, maxChunk), Obtained(v, file, maxChunk);
    var rotate := v.readSoFar + n == |file| || n < Wanted(v, maxChunk);
    ProdEditPutFrame(v.p, e, rotate);
    ProdEditPutOrder(v.p, e, rotate);
  }

  lemma FillFarOk(v: Player, file: seq<byte>, maxChunk: nat)
    requires Inv(v.p) && StreamOk(v) && MadeOk(v, file) && FarOk(v) && CanFile(v, Fill, file, maxChunk)
    ensures FarOk(FileAct(v, Fill, file, maxChunk))
  {
    FillMoves(v, file, maxChunk);
    if v.h.sound {
      FillPlaced(v, file, file[v.readSoFar..v.readSoFar + Obtained(v, file, maxChunk)]);
    }
  }

  lemma ClearMoves(v: Player, file: seq<byte>, maxChunk: nat)
    requires CanFile(v, ClearFront, file, maxChunk) && ProdAt(v.p)
    ensures var v', c := FileAct(v, ClearFront, file, maxChunk), v.p.chunks[v.p.prod.id];
      && v'.p.chunks == v.p.chunks[v.p.prod.id := c.(bytes := [])]
      && StreamOrder(v'.p) == StreamOrder(v.p) && Consumed(v') == Consumed(v)
      && v'.h == v.h.(made := v'.h.made)
      && v.p.cache.fifo != [] && v.p.cache.fifo[0] == v.p.prod.id && v'.p.cache.fifo == v.p.cache.fifo
  {
    ProdEditPutFrame(v.p, ProdClear, false);
    ProdEditPutOrder(v.p, ProdClear, false);
  }

  lemma ClearFarOk(v: Player, file: seq<byte>, maxChunk: nat)
    requires Inv(v.p) && FarOk(v) && CanFile(v, ClearFront, file, maxChunk)
    ensures FarOk(FileAct(v, ClearFront, file, maxChunk))
  {
    ClearMoves(v, file, maxChunk);
    if v.h.sound {
      ProdEditPlaced(v.p, v.p.chunks[v.p.prod.id].(bytes := []), Consumed(v), |v.h.base|, v.h.from);
    }
  }

  /** The end of a file seek changes the place where the stream goes on, and nothing else here. */
  lemma EndMoves(v: Player, file: seq<byte>, maxChunk: nat)
    requires JobOk(v, file) && CanFile(v, EndJob, file, maxChunk)
    ensures var v' := FileAct(v, EndJob, file, maxChunk);
      && v'.p == v.p && Consumed(v') == Consumed(v)
      && (v.job.Seeking? ==> v'.h == v.h.(base := v.h.made, from := v.job.target) && NoPartial(v.p))
      && (!v.job.Seeking? ==> v'.h == v.h)
  {
  }

  /** At the end of a file seek everything there is lies before the place where it goes on. */
  lemma EndFarOk(v: Player, file: seq<byte>, maxChunk: nat)
    requires Inv(v.p) && StreamOk(v) && JobOk(v, file) && FarOk(v) && CanFile(v, EndJob, file, maxChunk)
    ensures FarOk(FileAct(v, EndJob, file, maxChunk))
  {
    EndMoves(v, file, maxChunk);
    if v.job.Seeking? && v.h.sound {
      PlacedBefore(v.p.chunks, StreamOrder(v.p), Consumed(v), |v.h.made|, v.job.target);
    }
  }

  lemma BeginMoves(v: Player, file: seq<byte>, maxChunk: nat, a: Action)
    requires (a.StartFill? || a.StartFileSeek?) && CanFile(v, a, file, maxChunk)
    ensures var v' := FileAct(v, a, file, maxChunk);
      && v'.p.chunks == v.p.chunks && StreamOrder(v'.p) == StreamOrder(v.p) && v'.p.cache.fifo == v.p.cache.fifo
      && Consumed(v') == Consumed(v) && v'.h == v.h.(clean := v'.h.clean)
  {
  }

  lemma BeginFarOk(v: Player, file: seq<byte>, maxChunk: nat, a: Action)
    requires FarOk(v) && (a.StartFill? || a.StartFileSeek?) && CanFile(v, a, file, maxChunk)
    ensures FarOk(FileAct(v, a, file, maxChunk))
  {
    BeginMoves(v, file, maxChunk, a);
  }

  lemma FileFarOk(v: Player, file: seq<byte>, maxChunk: nat, a: Action)
    requires Inv(v.p) && StreamOk(v) && JobOk(v, file) && MadeOk(v, file) && FarOk(v)
    requires FileAction(a) && CanFile(v, a, file, maxChunk)
    ensures FarOk(FileAct(v, a, file, maxChunk))
  {
    if a.Fill? {
      FillFarOk(v, file, maxChunk);
    } else if a.ClearFront? {
      ClearFarOk(v, file, maxChunk);
    } else if a.EndJob? {
      EndFarOk(v, file, maxChunk);
    } else {
      BeginFarOk(v, file, maxChunk, a);
    }
  }

  lemma RegisterMoves(v: Player, file: seq<byte>, a: Action)
    requires CallOk(v, file) && Register(a) && CanRegister(v, a, file)
    ensures var v' := RegisterAct(v, a, file); v'.p == v.p && v'.h == v.h && Consumed(v') == Consumed(v)
  {
  }

  lemma RegisterFarOk(v: Player, file: seq<byte>, a: Action)
    requires CallOk(v, file) && FarOk(v) && Register(a) && CanRegister(v, a, file)
    ensures FarOk(RegisterAct(v, a, file))
  {
    RegisterMoves(v, file, a);
  }

  lemma ConsEditPlaced(p: State, c: Chunk, o: int, o': int, base: int, from: int)
    requires Inv(p) && p.cons.CHold? && p.cons.id < |p.chunks| && Placed(p.chunks, StreamOrder(p), o, base, from)
    requires PlacedAt(c, o', base, from) && o' + |c.bytes| == o + |p.chunks[p.cons.id].bytes|
    ensures Placed(p.chunks[p.cons.id := c], StreamOrder(p), o', base, from)
  {
    var post := p.data.fifo[1..] + ProdFlight(p) + p.cache.fifo;
    DataFrontDisjoint(p, p.cons.id);
    assert StreamOrder(p) == [p.cons.id] + post;
    PlacedFirst(p.chunks, p.cons.id, post, c, o, o', base, from);
  }

  /** What an edit by the decoder leaves alone. */
  lemma ConsEditMoves(p: State, e: Event)
    requires Enabled(p, e) && (e.ConsDrop? || e.ConsPrepend?) && PoolOk(p) && ConsAt(p)
    ensures var p' := ConsEditPut(p, e);
      && StreamOrder(p') == StreamOrder(p) && p'.cache.fifo == p.cache.fifo
      && (p.cache.fifo != [] ==> BytesOf(p'.chunks, p.cache.fifo[0]) == BytesOf(p.chunks, p.cache.fifo[0]))
      && p'.chunks == p.chunks[p.cons.id := if e.ConsDrop? then Dropped(p.chunks[p.cons.id], e.k)
                                            else Prepended(p.chunks[p.cons.id], e.bs, e.cap, e.tag)]
  {
    ConsEditPutFrame(p, e);
    DataFrontDisjoint(p, p.cons.id);
  }

  /** v' differs from v by an edit of the decoder's chunk. */
  predicate Edited(v: Player, v': Player, c: Chunk) {
    && v.p.cons.CHold? && v.p.cons.id < |v.p.chunks| && v'.p.chunks == v.p.chunks[v.p.cons.id := c]
    && StreamOrder(v'.p) == StreamOrder(v.p) && v'.p.cache.fifo == v.p.cache.fifo
    && (v.p.cache.fifo != [] ==>
          BytesOf(v'.p.chunks, v.p.cache.fifo[0]) == BytesOf(v.p.chunks, v.p.cache.fifo[0]))
    && v'.h.base == v.h.base && v'.h.from == v.h.from && v'.h.made == v.h.made && (v'.h.sound ==> v.h.sound)
    && Consumed(v') + |c.bytes| == Consumed(v) + |v.p.chunks[v.p.cons.id].bytes|
  }

  lemma EditedFarOk(v: Player, v': Player, c: Chunk)
    requires Inv(v.p) && FarOk(v) && Edited(v, v', c)
    requires c.intact ==> c == v.p.chunks[v.p.cons.id]
    ensures FarOk(v')
  {
    if v'.h.sound {
      HeldPlaced(v.p, Consumed(v), |v.h.base|, v.h.from);
      ConsEditPlaced(v.p, c, Consumed(v), Consumed(v'), |v.h.base|, v.h.from);
    }
  }

  lemma HeldPlaced(p: State, o: int, base: int, from: int)
    requires Inv(p) && p.cons.CHold? && Placed(p.chunks, StreamOrder(p), o, base, from)
    ensures p.cons.id < |p.chunks| && PlacedAt(p.chunks[p.cons.id], o, base, from)
  {
    assert StreamOrder(p)[0] == p.cons.id && Held(p)[0] == p.cons.id && p.cons.id in Held(p);
  }

  /** An edit leaves what the reader has made. */
  lemma EditHistory(v: Player, a: Action)
    requires (a.CopyDrop? || a.SkipDrop? || a.FarDrop? || a.BackEdit?) && CanChunk(v, a)
    ensures var v' := ChunkAct(v, a);
      v'.h.base == v.h.base && v'.h.from == v.h.from && v'.h.made == v.h.made && (v'.h.sound ==> v.h.sound)
  {
  }

  lemma DropFarOk(v: Player, a: Action)
    requires Inv(v.p) && FarOk(v) && (a.CopyDrop? || a.SkipDrop? || a.FarDrop?) && CanChunk(v, a)
    ensures FarOk(ChunkAct(v, a))
  {
    var c, k := v.p.chunks[v.p.cons.id], Taken(v);
    DropMoves(v, a);
    EditHistory(v, a);
    ConsEditMoves(v.p, ConsDrop(k));
    assert k == 0 ==> c.bytes[k..] == c.bytes;
    EditedFarOk(v, ChunkAct(v, a), Dropped(c, k));
  }

  lemma BackFarOk(v: Player)
    requires Inv(v.p) && FarOk(v) && CanChunk(v, BackEdit)
    ensures FarOk(ChunkAct(v, BackEdit))
  {
    var e := PushBackEvent(v);
    BackMoves(v);
    EditHistory(v, BackEdit);
    ConsEditMoves(v.p, e);
    EditedFarOk(v, ChunkAct(v, BackEdit), Prepended(v.p.chunks[v.p.cons.id], e.bs, e.cap, e.tag));
  }

  lemma GetKeeps(v: Player, a: Action)
    requires Gets(a) && CanChunk(v, a)
    ensures var v' := ChunkAct(v, a);
      && v'.p.chunks == v.p.chunks && StreamOrder(v'.p) == StreamOrder(v.p) && v'.p.cache == v.p.cache && v'.h == v.h
      && Consumed(v') == Consumed(v)
  {
  }

  lemma GetFarOk(v: Player, a: Action)
    requires FarOk(v) && Gets(a) && CanChunk(v, a)
    ensures FarOk(ChunkAct(v, a))
  {
    GetKeeps(v, a);
  }

  lemma ActFarOk(v: Player, file: seq<byte>, maxChunk: nat, a: Action)
    requires PlayInv(v, file) && FarOk(v) && CanAct(v, a, file, maxChunk)
    ensures FarOk(Act(v, a, file, maxChunk))
  {
    if a.Inner? {
      InnerFarOk(v, a.e);
    } else if FileAction(a) {
      FileFarOk(v, file, maxChunk, a);
    } else if Register(a) {
      RegisterFarOk(v, file, a);
    } else if Gets(a) {
      GetFarOk(v, a);
    } else if a.BackEdit? {
      BackFarOk(v);
    } else {
      DropFarOk(v, a);
    }
  }

  // ----- the chunk at which the loop looks -----

  /** The far branch looks at filled chunks only. */
  predicate HeldFilled(v: Player) {
    v.call.Far? && v.p.cons.CHold? ==> BytesOf(v.p.chunks, v.p.cons.id) != []
  }

  lemma InnerHeld(v: Player, e: Event)
    requires IsInner(e) && Enabled(v.p, e) && Inv(v.p) && HeldFilled(v)
    ensures HeldFilled(InnerAct(v, e))
  {
    InnerChunks(v.p, e);
    if e.ConsFront? {
      FrontIsOldest(v.p.data);
      assert RuleOf(v.p) == NonEmpty;
    } else {
      HoldStays(v.p, e);
    }
  }

  lemma HoldStays(s: State, e: Event)
    requires IsInner(e) && Enabled(s, e) && !e.ConsFront?
    ensures Step(s, e).cons.CHold? ==> Step(s, e).cons == s.cons
  {
  }

  lemma FileHeld(v: Player, file: seq<byte>, maxChunk: nat, a: Action)
    requires Inv(v.p) && HeldFilled(v) && FileAction(a) && CanFile(v, a, file, maxChunk)
    ensures HeldFilled(FileAct(v, a, file, maxChunk))
  {
    FileCons(v, file, maxChunk, a);
    if v.p.cons.CHold? { FrontsDiffer(v.p); }
    if a.Fill? {
      FillMoves(v, file, maxChunk);
    } else if a.ClearFront? {
      ClearMoves(v, file, maxChunk);
    }
  }

  lemma FileCons(v: Player, file: seq<byte>, maxChunk: nat, a: Action)
    requires FileAction(a) && CanFile(v, a, file, maxChunk)
    ensures var v' := FileAct(v, a, file, maxChunk);
      v'.p.cons == v.p.cons && v'.call == v.call && (!a.Fill? && !a.ClearFront? ==> v'.p.chunks == v.p.chunks)
  {
  }

  lemma RegisterHeld(v: Player, file: seq<byte>, a: Action)
    requires AtRest(v) && HeldFilled(v) && Register(a) && CanRegister(v, a, file)
    ensures HeldFilled(RegisterAct(v, a, file))
  {
  }

  lemma ChunkHeld(v: Player, a: Action)
    requires ChunkAction(a) && CanChunk(v, a)
    ensures HeldFilled(ChunkAct(v, a))
  {
    if Gets(a) {
      GetsAsk(v, a);
    } else {
      EditsPut(v, a);
    }
  }

  lemma GetsAsk(v: Player, a: Action)
    requires Gets(a) && CanChunk(v, a)
    ensures ChunkAct(v, a).p.cons.CAskEmpty?
  {
  }

  lemma EditsPut(v: Player, a: Action)
    requires ChunkAction(a) && !Gets(a) && CanChunk(v, a)
    ensures ChunkAct(v, a).p.cons.CPut?
  {
  }

  lemma ActHeld(v: Player, file: seq<byte>, maxChunk: nat, a: Action)
    requires Inv(v.p) && AtRest(v) && HeldFilled(v) && CanAct(v, a, file, maxChunk)
    ensures HeldFilled(Act(v, a, file, maxChunk))
  {
    if a.Inner? {
      InnerHeld(v, a.e);
    } else if FileAction(a) {
      FileHeld(v, file, maxChunk, a);
    } else if Register(a) {
      RegisterHeld(v, file, a);
    } else {
      ChunkHeld(v, a);
    }
  }

  // ----- whole runs -----

  predicate TagOk(v: Player) { FarOk(v) && HeldFilled(v) }

  lemma MovesTagOk(v: Player, v': Player, file: seq<byte>, maxChunk: nat)
    requires PlayInv(v, file) && ReadOk(v) && TagOk(v) && Moves(v, v', file, maxChunk)
    ensures TagOk(v')
  {
    var a :| CanAct(v, a, file, maxChunk) && v' == Act(v, a, file, maxChunk);
    ActFarOk(v, file, maxChunk, a);
    ActHeld(v, file, maxChunk, a);
  }

  lemma OpenedTagOk(n: nat, elemSize: nat)
    ensures TagOk(Opened(n, elemSize))
  {
    var s := Opened(n, elemSize).p;
    PlacedEmpty(s.chunks, StreamOrder(s), 0, 0, 0);
  }

  lemma {:induction false} SessionTagOk(
    trace: seq<Player>, file: seq<byte>, maxChunk: nat, n: nat, elemSize: nat, k: nat)
    requires Session(trace, file, maxChunk, n, elemSize) && k < |trace|
    ensures TagOk(trace[k])
  {
    if k == 0 {
      OpenedTagOk(n, elemSize);
    } else {
      SessionTagOk(trace, file, maxChunk, n, elemSize, k - 1);
      StepTagOk(trace, file, maxChunk, n, elemSize, k - 1);
    }
  }

  lemma StepTagOk(trace: seq<Player>, file: seq<byte>, maxChunk: nat, n: nat, elemSize: nat, m: nat)
    requires Session(trace, file, maxChunk, n, elemSize) && m < |trace| - 1 && TagOk(trace[m])
    ensures TagOk(trace[m + 1])
  {
    SessionReadOk(trace, file, maxChunk, n, elemSize, m);
    SessionInv(trace, file, maxChunk, n, elemSize, m);
    assert Moves(trace[m], trace[m + 1], file, maxChunk);
    MovesTagOk(trace[m], trace[m + 1], file, maxChunk);
  }

  /** A chunk with the target's tag that the decoder has not edited and that begins behind `base` is
      the first one filled since the file seek. */
  lemma IntactStop(v: Player, file: seq<byte>)
    requires Inv(v.p) && TagOk(v) && v.h.sound && CanRegister(v, FarStop, file) && v.h.from == v.call.target
    ensures v.p.chunks[v.p.cons.id].intact && |v.h.base| <= Consumed(v) ==> Consumed(v) == |v.h.base|
  {
    assert StreamOrder(v.p)[0] == v.p.cons.id;
  }

  /** The stream ends with `more`, and what is left of it is just that exactly from its beginning on. */
  lemma JustMore(base: seq<byte>, more: seq<byte>, o: nat)
    requires o <= |base| + |more|
    ensures (base + more)[o..] == more <==> o == |base|
  {
    assert (base + more)[|base|..] == more;
  }

  /** A file seek to the target has ended in state u, and there has been no other since. When the far
      branch stops at a chunk with the target's tag in state v, whatever the reader has done
      meanwhile: it has in front of it the file from the target on, up to the reader, exactly if the
      bytes it has passed since are those that were ready then. If it has not edited the chunk, that
      is so exactly if it has passed at least those: the chunk was filled after the file seek. */
  lemma FarStopsRightIff(
    trace: seq<Player>, file: seq<byte>, maxChunk: nat, n: nat, elemSize: nat, i: nat, j: nat)
    requires Session(trace, file, maxChunk, n, elemSize) && i < j < |trace|
    requires trace[i].job.Seeking? && CanFile(trace[i], EndJob, file, maxChunk)
    requires trace[i + 1] == FileAct(trace[i], EndJob, file, maxChunk)
    requires (forall k :: i < k <= j ==> !trace[k].job.Seeking?) && trace[j].h.sound
    requires CanRegister(trace[j], FarStop, file) && trace[j].call.target == trace[i].job.target
    ensures var u, v := trace[i + 1], trace[j];
      var target, ready, passed := v.call.target, |Buffered(u.p)|, Consumed(v) - Consumed(u);
      && target <= v.readSoFar <= |file|
      && (Buffered(v.p) == file[target..v.readSoFar] <==> passed == ready)
      && (v.p.chunks[v.p.cons.id].intact ==> (passed == ready <==> ready <= passed))
      && (passed == ready ==> Remaining(v, file) == file[target..])
  {
    SeekDoneAt(trace, file, maxChunk, n, elemSize, i);
    SeekSegment(trace, file, maxChunk, n, elemSize, i, j);
    BaseIs(trace, file, maxChunk, n, elemSize, i, j);
    IntactStopAt(trace, file, maxChunk, n, elemSize, j);
    StopsRight(trace[i + 1], trace[j], file);
  }

  /** What the segment between the file seek and the stop amounts to. */
  ghost predicate Stopped(u: Player, v: Player, file: seq<byte>) {
    && CanRegister(v, FarStop, file) && AfterSeek(u, v, file, v.call.target) && |u.h.made| == |v.h.base|
    && (v.p.chunks[v.p.cons.id].intact && |v.h.base| <= Consumed(v) ==> Consumed(v) == |v.h.base|)
  }

  lemma IntactStopAt(trace: seq<Player>, file: seq<byte>, maxChunk: nat, n: nat, elemSize: nat, j: nat)
    requires Session(trace, file, maxChunk, n, elemSize) && j < |trace| && trace[j].h.sound
    requires CanRegister(trace[j], FarStop, file) && trace[j].h.from == trace[j].call.target
    ensures var v := trace[j];
      v.p.chunks[v.p.cons.id].intact && |v.h.base| <= Consumed(v) ==> Consumed(v) == |v.h.base|
  {
    SessionInv(trace, file, maxChunk, n, elemSize, j);
    SessionTagOk(trace, file, maxChunk, n, elemSize, j);
    IntactStop(trace[j], file);
  }

  lemma StopsRight(u: Player, v: Player, file: seq<byte>)
    requires Stopped(u, v, file)
    ensures var target, ready, passed := v.call.target, |Buffered(u.p)|, Consumed(v) - Consumed(u);
      && (Buffered(v.p) == file[target..v.readSoFar] <==> passed == ready)
      && (v.p.chunks[v.p.cons.id].intact ==> (passed == ready <==> ready <= passed))
      && (passed == ready ==> Remaining(v, file) == file[target..])
  {
    JustMore(u.h.made, file[v.call.target..v.readSoFar], Consumed(v));
    JoinRest(file, v.call.target, v.readSoFar);
  }

  lemma JoinRest(file: seq<byte>, a: nat, b: nat)
    requires a <= b <= |file|
    ensures file[a..b] + file[b..] == file[a..]
  {
  }
}
