/** When the decoder's calls end, in the midst of the file reader's steps: a read waits until enough
    is counted and something is ready, and comes back short only if it has found the data queue
    empty; a seek takes the branch that its distance calls for, and a skip over what is ready
    never waits. */
module DecoderCalls {
  import opened Bytes
  import opened Pipeline
  import opened Playback
  import opened PlaybackWindow
  import opened PlaybackProofs
  import opened ReadProgress

  // ----- one step of a read -----

  /** The counter covers what a waiting read asks for. */
  predicate Covered(v: Player, want: nat) { v.call.Waiting? && want <= v.p.total }

  /** A waiting read finds a chunk ready. */
  predicate FindsReady(v: Player) { v.call.Waiting? && v.p.data.fifo != [] }

  predicate Drained(v: Player) { v.p.data.fifo == [] }

  /** The copy loop has asked for a chunk that is there. */
  predicate Fetching(v: Player) { v.call.Copying? && v.call.phase.Busy? ==> OnTheWay(v.p) }

  predicate Enough(v: Player) { v.call.Waiting? && v.call.enough }

  predicate Complete(v: Player) { v.call.Copying? && v.call.phase.Over? ==> |v.call.got| == v.call.want }

  /** What one step of a read changes. */
  predicate ReadMoves(v: Player, v': Player, file: seq<byte>) {
    Asking(v.call) && Asking(v'.call) ==>
      && v'.pos == v.pos && v'.call.want == v.call.want
      && (Enough(v') ==> Enough(v) || Covered(v, v.call.want))
      && (v.call.Waiting? && v'.call.Copying? ==>
            v'.call.phase.Fresh? && (v.pos == |file| || (Enough(v) && FindsReady(v))))
      && (v.call.Copying? ==> v'.call.Copying?)
      && (Fetching(v) ==> Fetching(v') || Drained(v))
      && (Complete(v) ==> Complete(v'))
  }

  lemma InnerReads(v: Player, e: Event, file: seq<byte>)
    requires IsInner(e) && Enabled(v.p, e) && Inv(v.p)
    ensures ReadMoves(v, InnerAct(v, e), file)
  {
    if OnTheWay(v.p) { InnerOnTheWay(v.p, e); }
  }

  lemma GetBegins(p: State, e: Event)
    requires Enabled(p, e) && e.ProdGet?
    ensures var p' := Step(p, e); p'.cons == p.cons && p'.data == p.data && p'.chunks == p.chunks
  {
  }

  lemma FileReads(v: Player, a: Action, file: seq<byte>, maxChunk: nat)
    requires FileAction(a) && CanFile(v, a, file, maxChunk) && Inv(v.p)
    ensures ReadMoves(v, FileAct(v, a, file, maxChunk), file)
  {
    match a
    case Fill =>
      var n := Obtained(v, file, maxChunk);
      EditOnTheWay(v.p, FillEvent(v, file, maxChunk), v.readSoFar + n == |file| || n < Wanted(v, maxChunk));
    case ClearFront => EditOnTheWay(v.p, ProdClear, false);
    case StartFill => GetBegins(v.p, ProdGet);
    case StartFileSeek(_) => GetBegins(v.p, ProdGet);
    case EndJob =>
  }

  lemma RegisterReads(v: Player, a: Action, file: seq<byte>)
    requires Register(a) && CanRegister(v, a, file)
    ensures ReadMoves(v, RegisterAct(v, a, file), file)
  {
  }

  lemma ChunkReads(v: Player, a: Action, file: seq<byte>)
    requires ChunkAction(a) && CanChunk(v, a) && CallOk(v, file)
    ensures ReadMoves(v, ChunkAct(v, a), file)
  {
  }

  lemma MovesRead(v: Player, v': Player, file: seq<byte>, maxChunk: nat)
    requires Inv(v.p) && CallOk(v, file) && Moves(v, v', file, maxChunk)
    ensures ReadMoves(v, v', file)
  {
    var a :| CanAct(v, a, file, maxChunk) && v' == Act(v, a, file, maxChunk);
    if a.Inner? {
      InnerReads(v, a.e, file);
    } else if FileAction(a) {
      FileReads(v, a, file, maxChunk);
    } else if Register(a) {
      RegisterReads(v, a, file);
    } else {
      ChunkReads(v, a, file);
    }
  }

  // ----- a whole read -----

  ghost predicate SomeCovered(trace: seq<Player>, i: nat, j: nat, want: nat)
    requires j < |trace|
  {
    exists k :: i < k <= j && Covered(trace[k], want)
  }

  ghost predicate SomeReady(trace: seq<Player>, i: nat, j: nat)
    requires j < |trace|
  {
    exists k :: i < k <= j && FindsReady(trace[k])
  }

  ghost predicate SomeDrained(trace: seq<Player>, i: nat, j: nat)
    requires j < |trace|
  {
    exists k :: i < k <= j && Drained(trace[k])
  }

  /** What is known in state j of a read that was begun in state i. */
  ghost predicate ReadSoFarOk(trace: seq<Player>, i: nat, j: nat, file: seq<byte>)
    requires j < |trace|
  {
    var v := trace[j];
    && Asking(v.call)
    && (Enough(v) ==> SomeCovered(trace, i, j, v.call.want))
    && (v.call.Copying? ==> v.pos == |file| || (SomeCovered(trace, i, j, v.call.want) && SomeReady(trace, i, j)))
    && (Fetching(v) || SomeDrained(trace, i, j))
    && Complete(v)
  }

  lemma OneMore(trace: seq<Player>, i: nat, j: nat, file: seq<byte>)
    requires i < j < |trace| - 1 && ReadSoFarOk(trace, i, j, file)
    requires Asking(trace[j + 1].call) && ReadMoves(trace[j], trace[j + 1], file)
    ensures ReadSoFarOk(trace, i, j + 1, file)
  {
    var v, v', want := trace[j], trace[j + 1], trace[j].call.want;
    Longer(trace, i, j, want);
    assert Covered(v, want) ==> SomeCovered(trace, i, j + 1, want);
    assert FindsReady(v) ==> SomeReady(trace, i, j + 1);
    assert Drained(v) ==> SomeDrained(trace, i, j + 1);
  }

  lemma Longer(trace: seq<Player>, i: nat, j: nat, want: nat)
    requires j < |trace| - 1
    ensures SomeCovered(trace, i, j, want) ==> SomeCovered(trace, i, j + 1, want)
    ensures SomeReady(trace, i, j) ==> SomeReady(trace, i, j + 1)
    ensures SomeDrained(trace, i, j) ==> SomeDrained(trace, i, j + 1)
  {
  }

  lemma {:induction false} ReadGoesOn(
    trace: seq<Player>, file: seq<byte>, maxChunk: nat, n: nat, elemSize: nat, i: nat, j: nat)
    requires Session(trace, file, maxChunk, n, elemSize) && i < j < |trace|
    requires trace[i + 1].call.Waiting? && !trace[i + 1].call.enough
    requires forall k :: i < k <= j ==> Asking(trace[k].call)
    ensures ReadSoFarOk(trace, i, j, file)
    decreases j
  {
    if j != i + 1 {
      var m := j - 1;
      ReadGoesOn(trace, file, maxChunk, n, elemSize, i, m);
      SessionInv(trace, file, maxChunk, n, elemSize, m);
      assert Moves(trace[m], trace[m + 1], file, maxChunk);
      MovesRead(trace[m], trace[m + 1], file, maxChunk);
      OneMore(trace, i, m, file);
    }
  }

  lemma StartIs(v: Player, file: seq<byte>, bufSize: nat)
    requires CanRegister(v, StartRead(bufSize), file)
    ensures var v' := RegisterAct(v, StartRead(bufSize), file);
      && v'.call.Waiting? && !v'.call.enough && v'.pos == v.pos <= |file|
      && v'.call.want <= bufSize && v.pos + v'.call.want <= |file|
      && (v'.call.want == bufSize || v.pos + v'.call.want == |file|)
  {
  }

  /** A read from its call at i to its end in state j, whatever the file reader does meanwhile. It asks
      for the least of the caller's buffer and the rest of the stream. Unless it is at the end of the
      stream it has waited for a moment at which the counter covered that, and for one at which the
      data queue was not empty. What it returns is all it asks for, or it has found the data queue
      empty. */
  lemma ReadWaitsForEnough(
    trace: seq<Player>, file: seq<byte>, maxChunk: nat, n: nat, elemSize: nat, i: nat, j: nat, bufSize: nat)
    requires Session(trace, file, maxChunk, n, elemSize) && i < j < |trace|
    requires CanRegister(trace[i], StartRead(bufSize), file)
    requires trace[i + 1] == RegisterAct(trace[i], StartRead(bufSize), file)
    requires forall k :: i < k <= j ==> Asking(trace[k].call)
    requires CanRegister(trace[j], FinishRead, file)
    ensures var want, got := trace[j].call.want, trace[j].call.got;
      && want <= bufSize && trace[i].pos + want <= |file| && (want == bufSize || trace[i].pos + want == |file|)
      && (trace[i].pos < |file| ==>
            && (exists k :: i < k <= j && trace[k].call.Waiting? && want <= trace[k].p.total)
            && (exists k :: i < k <= j && trace[k].call.Waiting? && trace[k].p.data.fifo != []))
      && (|got| == want || exists k :: i < k <= j && trace[k].p.data.fifo == [])
  {
    StartIs(trace[i], file, bufSize);
    AllHoldRead(trace, file, maxChunk, n, elemSize);
    ReadSegment(trace, i + 1, j);
    ReadGoesOn(trace, file, maxChunk, n, elemSize, i, j);
    SessionReadEnd(trace[j], file);
    ReadOutcome(trace, i, j, file);
  }

  lemma SessionReadEnd(v: Player, file: seq<byte>)
    requires CanRegister(v, FinishRead, file) && Complete(v)
    ensures v.call.Copying? && (Fetching(v) ==> |v.call.got| == v.call.want)
  {
  }

  lemma ReadOutcome(trace: seq<Player>, i: nat, j: nat, file: seq<byte>)
    requires j < |trace| && ReadSoFarOk(trace, i, j, file) && trace[j].call.Copying?
    ensures trace[j].pos != |file| ==>
      && (exists k :: i < k <= j && trace[k].call.Waiting? && trace[j].call.want <= trace[k].p.total)
      && (exists k :: i < k <= j && trace[k].call.Waiting? && trace[k].p.data.fifo != [])
    ensures Fetching(trace[j]) || exists k :: i < k <= j && trace[k].p.data.fifo == []
  {
    if trace[j].pos != |file| {
      var k :| i < k <= j && Covered(trace[k], trace[j].call.want);
      var l :| i < l <= j && FindsReady(trace[l]);
    }
    if SomeDrained(trace, i, j) {
      var k :| i < k <= j && Drained(trace[k]);
    }
  }

  // ----- seeks -----

  /** How a seek begins and how it goes on after stepping back: inside the window it goes back first;
      a seek that need not go back, or has gone back, skips forward exactly if the counter covers the
      distance; every other seek is left to the file. */
  lemma SeekTakesBranch(v: Player, file: seq<byte>, to: nat)
    ensures CanRegister(v, StartSeek(to), file) ==>
      var c := RegisterAct(v, StartSeek(to), file).call;
      && (c.PushBack? <==> v.pos - |v.last| < to < v.pos)
      && (c.Deciding? <==> v.pos <= to)
      && (c.Far? <==> to < v.pos && to <= v.pos - |v.last|)
      && (c.PushBack? ==> c.target == to == v.pos - c.m)
      && (c.Deciding? || c.Far? ==> c.target == to) && (c.Far? ==> c.passed == 0)
    ensures CanRegister(v, Decide, file) ==>
      var c, target := RegisterAct(v, Decide, file).call, v.call.target;
      && (c.Skipping? <==> v.pos <= target <= v.pos + v.p.total)
      && (c.Far? <==> target < v.pos || v.pos + v.p.total < target)
      && (c.Skipping? ==> c.target == target == v.pos + c.left)
      && (c.Far? ==> c.target == target && c.passed == 0)
  {
  }

  /** One round on the chunk in hand: it is emptied, or nothing more is asked for. */
  lemma RoundTakesAll(v: Player, a: Action)
    requires (a.CopyDrop? || a.SkipDrop? || a.FarDrop?) && CanChunk(v, a) && Complete(v)
    requires v.call.Copying? ==> |v.call.got| <= v.call.want
    ensures var v' := ChunkAct(v, a);
      && v.p.cons.id < |v'.p.chunks|
      && var bytes, bytes' := v.p.chunks[v.p.cons.id].bytes, v'.p.chunks[v.p.cons.id].bytes;
      && |bytes'| <= |bytes| && bytes' == bytes[|bytes| - |bytes'|..]
      && (a.CopyDrop? ==>
            && v'.call.Copying? && v'.call.got == v.call.got + bytes[..|bytes| - |bytes'|]
            && (bytes' == [] || |v'.call.got| == v'.call.want)
            && (v'.call.phase.Over? <==> |v'.call.got| == v'.call.want))
      && (a.SkipDrop? ==>
            && v'.call.Skipping? && v'.call.left == v.call.left - (|bytes| - |bytes'|)
            && (bytes' == [] || v'.call.left == 0))
      && (a.FarDrop? ==> bytes' == [])
  {
  }

  /** A push-back puts the last bytes of the window in front of the chunk, which grows to hold them
      and is tagged with the new position. */
  lemma PushBackRestores(v: Player)
    requires CanChunk(v, BackEdit)
    ensures var v' := ChunkAct(v, BackEdit);
      && v.p.cons.id < |v'.p.chunks|
      && var c, c', k := v.p.chunks[v.p.cons.id], v'.p.chunks[v.p.cons.id], |v.last| - v.call.m;
      && c'.bytes == v.last[k..] + c.bytes && c'.first == v'.pos == v.pos - v.call.m
      && c'.cap == (if |c'.bytes| <= c.cap then c.cap else |c'.bytes|)
  {
  }

  /** All that is still to be skipped is ready. */
  predicate SkipReady(v: Player) {
    v.call.Skipping? ==> v.call.left <= DataSize(v.p)
  }

  lemma FileSkip(v: Player, a: Action, file: seq<byte>, maxChunk: nat)
    requires Inv(v.p) && FileAction(a) && CanFile(v, a, file, maxChunk) && SkipReady(v)
    ensures SkipReady(FileAct(v, a, file, maxChunk))
  {
    FileMoves(v, a, file, maxChunk);
    if a.Fill? {
      var n := Obtained(v, file, maxChunk);
      ProdEditData(v.p, FillEvent(v, file, maxChunk), v.readSoFar + n == |file| || n < Wanted(v, maxChunk));
    } else if a.ClearFront? {
      ProdEditData(v.p, ProdClear, false);
    }
  }

  lemma RegisterSkip(v: Player, a: Action, file: seq<byte>)
    requires Register(a) && CanRegister(v, a, file) && v.call.Skipping? && SkipReady(v)
    ensures SkipReady(RegisterAct(v, a, file))
  {
  }

  lemma ChunkSkip(v: Player, a: Action)
    requires Inv(v.p) && ChunkAction(a) && CanChunk(v, a) && v.call.Skipping? && SkipReady(v)
    ensures SkipReady(ChunkAct(v, a))
  {
    if a.SkipDrop? {
      ConsEditData(v.p, ConsDrop(Taken(v)));
    } else {
      GetMoves(v, a);
    }
  }

  lemma InnerSkip(v: Player, e: Event)
    requires IsInner(e) && Enabled(v.p, e) && Inv(v.p) && SkipReady(v)
    ensures SkipReady(InnerAct(v, e))
  {
    InnerData(v.p, e);
    InnerFrame(v, e);
  }

  lemma SkipMoves(v: Player, v': Player, file: seq<byte>, maxChunk: nat)
    requires Inv(v.p) && Moves(v, v', file, maxChunk) && v.call.Skipping? && SkipReady(v)
    ensures SkipReady(v')
  {
    var a :| CanAct(v, a, file, maxChunk) && v' == Act(v, a, file, maxChunk);
    if a.Inner? {
      InnerSkip(v, a.e);
    } else if FileAction(a) {
      FileSkip(v, a, file, maxChunk);
    } else if Register(a) {
      RegisterSkip(v, a, file);
    } else {
      ChunkSkip(v, a);
    }
  }

  /** A skip over bytes that are all in the data queue when it begins finds a chunk there until it has
      skipped them all: it never sleeps. */
  lemma {:induction false} ReadySkipNeverWaits(
    trace: seq<Player>, file: seq<byte>, maxChunk: nat, n: nat, elemSize: nat, i: nat, j: nat)
    requires Session(trace, file, maxChunk, n, elemSize) && i <= j < |trace|
    requires forall k :: i <= k <= j ==> trace[k].call.Skipping?
    requires trace[i].call.left <= |Contents(trace[i].p.chunks, trace[i].p.data.fifo)|
    ensures trace[j].call.left <= |Contents(trace[j].p.chunks, trace[j].p.data.fifo)|
    ensures 0 < trace[j].call.left ==> trace[j].p.data.fifo != []
    decreases j
  {
    if j != i {
      var m := j - 1;
      ReadySkipNeverWaits(trace, file, maxChunk, n, elemSize, i, m);
      SessionInv(trace, file, maxChunk, n, elemSize, m);
      assert Moves(trace[m], trace[m + 1], file, maxChunk);
      SkipMoves(trace[m], trace[m + 1], file, maxChunk);
    }
  }
}
