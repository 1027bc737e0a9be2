/** Neither thread of the player is ever stuck: in every reachable state the file reader can take a
    step, and so can the decoder, unless its far branch has come to its end. */
module PlaybackGoesOn {
  import opened Bytes
  import opened Pipeline
  import opened Playback
  import opened PlaybackWindow
  import opened PlaybackProofs
  import opened ReadProgress
  import opened HandOver

  /** A step of the file reader, or of the queue call it is in. */
  predicate OfReader(a: Action) { FileAction(a) || (a.Inner? && ByProducer(a.e)) }

  // ----- the file reader -----

  /** What the reader does next. */
  function ReaderNext(v: Player): Action {
    match v.job
    case NoJob => if v.closed then StartFileSeek(0) else StartFill
    case Filling(_) =>
      if v.p.prod.PIdle? then EndJob else if v.p.prod.PHold? then Fill else Inner(ProdNext(v.p))
    case Seeking(_, _) =>
      if v.p.prod.PIdle? then EndJob else if v.p.prod.PHold? then ClearFront else Inner(ProdNext(v.p))
  }

  /** A chunk in the reader's hands can be filled: what it obtains always fits. */
  lemma FillFits(v: Player, file: seq<byte>, maxChunk: nat)
    requires ProdAt(v.p) && PoolOk(v.p) && Fits(v.p.chunks) && v.p.prod.PHold? && v.readSoFar <= |file|
    ensures v.p.prod.id < |v.p.chunks| && Enabled(v.p, FillEvent(v, file, maxChunk))
  {
    HandsInPool(v.p);
  }

  /** And it can be cleared. */
  lemma ClearFits(p: State)
    requires Inv(p) && p.prod.PHold?
    ensures Enabled(p, ProdClear)
  {
    HandsInPool(p);
    ProdEditStream(p, p.chunks[p.prod.id]);
  }

  lemma ReaderCan(v: Player, file: seq<byte>, maxChunk: nat)
    requires Inv(v.p) && JobOk(v, file)
    ensures CanAct(v, ReaderNext(v), file, maxChunk) && OfReader(ReaderNext(v))
  {
    ProdNextEnabled(v.p);
    if v.p.prod.PHold? {
      FillFits(v, file, maxChunk);
      ClearFits(v.p);
    }
  }

  // ----- the decoder -----

  /** A call that compares with the counter has put its chunk back, or is about to. */
  predicate BetweenGets(v: Player) {
    v.call.Deciding? ==> !ConsInGet(v.p) && !v.p.cons.CHold?
  }

  lemma InnerBetween(v: Player, e: Event)
    requires IsInner(e) && Enabled(v.p, e) && BetweenGets(v)
    ensures BetweenGets(InnerAct(v, e))
  {
  }

  lemma FileBetween(v: Player, a: Action, file: seq<byte>, maxChunk: nat)
    requires FileAction(a) && CanFile(v, a, file, maxChunk) && BetweenGets(v)
    ensures BetweenGets(FileAct(v, a, file, maxChunk))
  {
  }

  lemma RegisterBetween(v: Player, a: Action, file: seq<byte>)
    requires Register(a) && CanRegister(v, a, file) && BetweenGets(v) && AtRest(v)
    ensures BetweenGets(RegisterAct(v, a, file))
  {
  }

  lemma EditBetween(v: Player)
    requires CanChunk(v, BackEdit)
    ensures BetweenGets(ChunkAct(v, BackEdit))
  {
  }

  lemma ChunkBetween(v: Player, a: Action)
    requires ChunkAction(a) && CanChunk(v, a) && BetweenGets(v)
    ensures BetweenGets(ChunkAct(v, a))
  {
    if a.BackEdit? {
      EditBetween(v);
    } else {
      assert !ChunkAct(v, a).call.Deciding?;
    }
  }

  lemma MovesBetween(v: Player, v': Player, file: seq<byte>, maxChunk: nat)
    requires Moves(v, v', file, maxChunk) && BetweenGets(v) && AtRest(v)
    ensures BetweenGets(v')
  {
    var a :| CanAct(v, a, file, maxChunk) && v' == Act(v, a, file, maxChunk);
    if a.Inner? {
      InnerBetween(v, a.e);
    } else if FileAction(a) {
      FileBetween(v, a, file, maxChunk);
    } else if Register(a) {
      RegisterBetween(v, a, file);
    } else {
      ChunkBetween(v, a);
    }
  }

  lemma {:induction false} SessionBetween(
    trace: seq<Player>, file: seq<byte>, maxChunk: nat, n: nat, elemSize: nat, k: nat)
    requires Session(trace, file, maxChunk, n, elemSize) && k < |trace|
    ensures BetweenGets(trace[k])
  {
    if k == 0 {
    } else {
      var m := k - 1;
      SessionBetween(trace, file, maxChunk, n, elemSize, m);
      SessionReadOk(trace, file, maxChunk, n, elemSize, m);
      assert Moves(trace[m], trace[m + 1], file, maxChunk);
      MovesBetween(trace[m], trace[m + 1], file, maxChunk);
    }
  }

  /** What the decoder does next with no chunk in its hands and no queue call under way. */
  function IdleNext(v: Player): Action
    requires !v.call.Landed?
  {
    match v.call
    case NoCall => StartRead(0)
    case Waiting(_, _) => PollTotal
    case Copying(_, _, phase) => if phase.Busy? || phase.Over? then FinishRead else CopyGet
    case PushBack(_, _, _) => BackGet
    case Deciding(_) => Decide
    case Skipping(_, left, _) => if left == 0 then FinishSeek else SkipGet
    case Far(_, _) => FarGet
  }

  /** What it does next with a chunk in its hands. */
  function HoldNext(v: Player): Action
    requires v.call.Copying? || v.call.PushBack? || v.call.Skipping? || v.call.Far?
    requires v.p.cons.CHold? && v.p.cons.id < |v.p.chunks|
  {
    match v.call
    case Copying(_, _, _) => CopyDrop
    case PushBack(_, _, _) => BackEdit
    case Skipping(_, _, _) => SkipDrop
    case Far(target, _) => if v.p.chunks[v.p.cons.id].first == target then FarStop else FarDrop
  }

  lemma IdleCan(v: Player, file: seq<byte>, maxChunk: nat)
    requires CallOk(v, file) && !v.call.Landed? && v.p.cons.CIdle?
    ensures CanAct(v, IdleNext(v), file, maxChunk) && !OfReader(IdleNext(v))
  {
  }

  lemma DropFits(v: Player)
    requires Inv(v.p) && v.p.cons.CHold? && (v.call.Copying? || v.call.Skipping? || v.call.Far?)
    ensures v.p.cons.id < |v.p.chunks| && Enabled(v.p, ConsDrop(Taken(v)))
  {
    FrontIsPrefix(v.p);
  }

  lemma BackFits(v: Player)
    requires v.p.cons.CHold? && v.p.cons.id < |v.p.chunks| && v.call.PushBack?
    requires v.call.m <= |v.last| && v.call.m <= v.pos
    ensures Enabled(v.p, PushBackEvent(v))
  {
  }

  lemma HoldsInCall(v: Player)
    requires v.p.cons.CHold? && AtRest(v) && BetweenGets(v) && !v.call.Landed?
    ensures v.call.Copying? || v.call.PushBack? || v.call.Skipping? || v.call.Far?
  {
  }

  /** A chunk in the decoder's hands takes every edit that its call makes. */
  lemma HoldCan(v: Player, file: seq<byte>, maxChunk: nat)
    requires Inv(v.p) && CallOk(v, file) && v.p.cons.CHold?
    requires v.call.Copying? || v.call.PushBack? || v.call.Skipping? || v.call.Far?
    ensures v.p.cons.id < |v.p.chunks| && CanAct(v, HoldNext(v), file, maxChunk) && !OfReader(HoldNext(v))
  {
    FrontIsPrefix(v.p);
    if v.call.PushBack? { BackFits(v); } else { DropFits(v); }
  }

  lemma DecoderCan(v: Player, file: seq<byte>, maxChunk: nat)
    requires Inv(v.p) && CallOk(v, file) && AtRest(v) && BetweenGets(v) && !v.call.Landed?
    ensures exists a :: CanAct(v, a, file, maxChunk) && !OfReader(a)
  {
    if v.p.cons.CIdle? {
      IdleCan(v, file, maxChunk);
    } else if v.p.cons.CHold? {
      HoldsInCall(v);
      HoldCan(v, file, maxChunk);
    } else {
      ConsNextEnabled(v.p);
      assert CanAct(v, Inner(ConsNext(v.p)), file, maxChunk);
    }
  }

  /** A waiting read that would find enough counted and a chunk ready can poll and then copy. */
  predicate PollsAndCopies(v: Player, file: seq<byte>, maxChunk: nat) {
    CanAct(v, PollTotal, file, maxChunk) && CanAct(Act(v, PollTotal, file, maxChunk), EnterCopy, file, maxChunk)
  }

  lemma WaitEnds(v: Player, file: seq<byte>, maxChunk: nat)
    requires v.call.Waiting? && (v.pos == |file| || (v.call.want <= v.p.total && v.p.data.fifo != []))
    ensures PollsAndCopies(v, file, maxChunk)
  {
  }

  /** In every reachable state the reader can take a step; so can the decoder, except in front of the
      chunk at which its far branch has stopped; and a waiting read can go on to copy as soon as the
      counter covers what it asks for and a chunk is ready, or there is nothing to ask for. */
  lemma PlayGoesOn(trace: seq<Player>, file: seq<byte>, maxChunk: nat, n: nat, elemSize: nat, k: nat)
    requires Session(trace, file, maxChunk, n, elemSize) && k < |trace|
    ensures exists a :: CanAct(trace[k], a, file, maxChunk) && OfReader(a)
    ensures !trace[k].call.Landed? ==> exists a :: CanAct(trace[k], a, file, maxChunk) && !OfReader(a)
    ensures trace[k].call.Waiting?
            && (trace[k].pos == |file| || (trace[k].call.want <= trace[k].p.total && trace[k].p.data.fifo != []))
            ==> PollsAndCopies(trace[k], file, maxChunk)
  {
    var v := trace[k];
    if v.call.Waiting? && (v.pos == |file| || (v.call.want <= v.p.total && v.p.data.fifo != [])) {
      WaitEnds(v, file, maxChunk);
    }
    SessionInv(trace, file, maxChunk, n, elemSize, k);
    SessionReadOk(trace, file, maxChunk, n, elemSize, k);
    SessionBetween(trace, file, maxChunk, n, elemSize, k);
    ReaderCan(trace[k], file, maxChunk);
    if !trace[k].call.Landed? { DecoderCan(trace[k], file, maxChunk); }
  }
}
