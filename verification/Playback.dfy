/** The file reader of input_plugin_file.cpp and the decoder side of
    decoder_plugins_manager.cpp as the two threads of `Pipeline`: `try_read` and the file part
    of a seek on the producer thread, `decoder_read_buffer` and the buffered branches of
    `update_dec_detail_seek`, with the loop of its far branch, on the consumer thread, in every
    interleaving. */
module Playback {
  import opened Bytes
  import opened Pipeline

  /** The job the input thread is running. */
  datatype Job =
    | NoJob
    | Filling(fin: bool)                       // try_read; fin is is_file_finished
    | Seeking(target: nat, cleared: bool)      // seek_helper

  /** Progress of one loop over the data queue's front chunk. */
  datatype Phase = Fresh | Busy | More | Over

  /** The call the decoder thread is running. In the wait loop `enough` is the last comparison with
      the counter; is_data_empty is one load of the other side's index, exact when it is made. */
  datatype Call =
    | NoCall
    | Waiting(want: nat, enough: bool)               // decoder_read_buffer, wait loop
    | Copying(want: nat, got: seq<byte>, phase: Phase) // write_into_raw_buffer
    | PushBack(target: nat, m: nat, phase: Phase)    // seek back inside the last-read window
    | Deciding(target: nat)                          // about to compare with the counter
    | Skipping(target: nat, left: nat, phase: Phase) // discard_data_upto
    | Far(target: nat, passed: nat)                  // waiting for a chunk with the target's tag
    | Landed(target: nat, passed: nat)               // in front of such a chunk

  /** `lastEnd`, `delivered`, `sought` and all of `h` are history: the stream position at the end
      of the last read; the bytes returned by reads; whether the decoder has ever moved by a seek. */
  datatype Player = Player(
    p: State, readSoFar: nat, closed: bool, job: Job,
    pos: nat, call: Call, last: seq<byte>,
    lastEnd: nat, delivered: seq<byte>, sought: bool, h: History)

  /** `made` is what the file reader has put into the buffer, less what its seeks have cleared
      again; `base` is what that was at the end of the last file seek, and `from` where that seek
      went. `sound` tells that no out-of-date window has been pushed back, `clean` in addition that
      no file seek has begun. */
  datatype History = History(made: seq<byte>, base: seq<byte>, from: nat, sound: bool, clean: bool)

  /** The last n bytes are taken back. */
  function Cut(s: seq<byte>, n: nat): seq<byte> { if n <= |s| then s[..|s| - n] else s }

  datatype Action =
    | Inner(e: Event)
    | StartFill | Fill | StartFileSeek(to: nat) | ClearFront | EndJob
    | StartRead(bufSize: nat) | PollTotal | EnterCopy | GiveUp | CopyGet | CopyDrop | FinishRead
    | StartSeek(to: nat) | BackGet | BackEdit | BackTimeout | Decide
    | SkipGet | SkipDrop | FinishSeek | FarGet | FarDrop | FarStop

  /** Events that are not a client's choice. */
  predicate IsInner(e: Event) {
    e.ProdRead? || e.ProdWrite? || e.ProdEmpty? || e.ProdFront? || e.ProdPutFront? || e.ProdAccount? ||
    e.ProdTaken? || e.ProdGiven? || e.ConsRead? || e.ConsWrite? || e.ConsEmpty? || e.ConsFront? ||
    e.ConsPutFront? || e.ConsAccount? || e.ConsTaken? || e.ConsCleared? || e.ConsGiven?
  }

  /** The bytes try_read obtains from the file: what fits, what it asks for, what is left. */
  function Wanted(v: Player, maxChunk: nat): nat
    requires v.p.prod.PHold? && v.p.prod.id < |v.p.chunks|
  {
    var c := v.p.chunks[v.p.prod.id];
    Min(maxChunk, if |c.bytes| <= c.cap then c.cap - |c.bytes| else 0)
  }

  function Obtained(v: Player, file: seq<byte>, maxChunk: nat): nat
    requires v.p.prod.PHold? && v.p.prod.id < |v.p.chunks| && v.readSoFar <= |file|
  {
    Min(Wanted(v, maxChunk), |file| - v.readSoFar)
  }

  function FillEvent(v: Player, file: seq<byte>, maxChunk: nat): Event
    requires v.p.prod.PHold? && v.p.prod.id < |v.p.chunks| && v.readSoFar <= |file|
  {
    ProdAppend(file[v.readSoFar..v.readSoFar + Obtained(v, file, maxChunk)],
               v.p.chunks[v.p.prod.id].cap, v.readSoFar)
  }

  /** The number of bytes one round takes from the chunk in hand. */
  function Taken(v: Player): nat
    requires v.p.cons.CHold? && v.p.cons.id < |v.p.chunks|
    requires v.call.Copying? || v.call.Skipping? || v.call.Far?
  {
    var size := |v.p.chunks[v.p.cons.id].bytes|;
    if v.call.Copying? then Min(if |v.call.got| <= v.call.want then v.call.want - |v.call.got| else 0, size)
    else if v.call.Skipping? then Min(v.call.left, size)
    else size
  }

  function PushBackEvent(v: Player): Event
    requires v.call.PushBack? && v.p.cons.CHold? && v.p.cons.id < |v.p.chunks|
    requires v.call.m <= |v.last| && v.call.m <= v.pos
  {
    var c := v.p.chunks[v.p.cons.id];
    var need := |c.bytes| + v.call.m;
    ConsPrepend(v.last[|v.last| - v.call.m..], if c.cap < need then need else c.cap, v.pos - v.call.m)
  }

  predicate FileAction(a: Action) {
    a.StartFill? || a.Fill? || a.StartFileSeek? || a.ClearFront? || a.EndJob?
  }

  /** Steps that change only the decoder's own registers. */
  predicate Register(a: Action) {
    a.StartRead? || a.PollTotal? || a.EnterCopy? || a.GiveUp? || a.FinishRead? || a.StartSeek? || a.BackTimeout? ||
    a.Decide? || a.FinishSeek? || a.FarStop?
  }

  /** Steps of the decoder on a chunk of the data queue. The far branch clears a chunk and puts it
      back for rotation: that is dropping all its bytes, but for the tag of the chunk, which nothing
      reads before it is filled again. The input thread's seek is not tied to the call here: it comes
      at any time, and more than once. */
  predicate ChunkAction(a: Action) {
    a.CopyGet? || a.CopyDrop? || a.BackGet? || a.BackEdit? || a.SkipGet? || a.SkipDrop? || a.FarGet? || a.FarDrop?
  }

  predicate CanFile(v: Player, a: Action, file: seq<byte>, maxChunk: nat)
    requires FileAction(a)
  {
    match a
    case StartFill => v.job.NoJob? && !v.closed && Enabled(v.p, ProdGet)
    case Fill =>
      v.job.Filling? && v.p.prod.PHold? && v.p.prod.id < |v.p.chunks| && v.readSoFar <= |file|
      && Enabled(v.p, FillEvent(v, file, maxChunk))
    case StartFileSeek(to) => v.job.NoJob? && to <= |file| && Enabled(v.p, ProdGet)
    case ClearFront => v.job.Seeking? && Enabled(v.p, ProdClear)
    case EndJob => !v.job.NoJob? && v.p.prod.PIdle?
  }

  predicate CanRegister(v: Player, a: Action, file: seq<byte>)
    requires Register(a)
  {
    match a
    case StartRead(bufSize) => v.call.NoCall? && v.pos <= |file|
    case PollTotal => v.call.Waiting?
    case EnterCopy => v.call.Waiting? && (v.pos == |file| || (v.call.enough && v.p.data.fifo != []))
    case GiveUp => v.call.Waiting? && v.pos < |file|
    case FinishRead => v.call.Copying? && (v.call.phase.Busy? || v.call.phase.Over?) && v.p.cons.CIdle?
    case StartSeek(to) => v.call.NoCall? && to <= |file|
    case BackTimeout => v.call.PushBack? && v.call.phase.Busy? && v.p.cons.CIdle?
    case Decide => v.call.Deciding? && v.p.cons.CIdle?
    case FinishSeek => v.call.Skipping? && v.call.left == 0 && v.p.cons.CIdle?
    case FarStop =>
      v.call.Far? && v.p.cons.CHold? && v.p.cons.id < |v.p.chunks| && v.p.chunks[v.p.cons.id].first == v.call.target
  }

  predicate CanChunk(v: Player, a: Action)
    requires ChunkAction(a)
  {
    match a
    case CopyGet => v.call.Copying? && (v.call.phase.Fresh? || v.call.phase.More?) && Enabled(v.p, ConsGet)
    case CopyDrop =>
      v.call.Copying? && v.p.cons.CHold? && v.p.cons.id < |v.p.chunks| && Enabled(v.p, ConsDrop(Taken(v)))
    case BackGet => v.call.PushBack? && Enabled(v.p, ConsGet)
    case BackEdit =>
      v.call.PushBack? && v.p.cons.CHold? && v.p.cons.id < |v.p.chunks|
      && v.call.m <= |v.last| && v.call.m <= v.pos && Enabled(v.p, PushBackEvent(v))
    case SkipGet => v.call.Skipping? && 0 < v.call.left && Enabled(v.p, ConsGet)
    case SkipDrop =>
      v.call.Skipping? && v.p.cons.CHold? && v.p.cons.id < |v.p.chunks| && Enabled(v.p, ConsDrop(Taken(v)))
    case FarGet => v.call.Far? && Enabled(v.p, ConsGet)
    case FarDrop =>
      v.call.Far? && v.p.cons.CHold? && v.p.cons.id < |v.p.chunks|
      && v.p.chunks[v.p.cons.id].first != v.call.target && Enabled(v.p, ConsDrop(Taken(v)))
  }

  predicate CanAct(v: Player, a: Action, file: seq<byte>, maxChunk: nat) {
    if a.Inner? then IsInner(a.e) && Enabled(v.p, a.e)
    else if FileAction(a) then CanFile(v, a, file, maxChunk)
    else if Register(a) then CanRegister(v, a, file)
    else CanChunk(v, a)
  }

  /** The producer's edit followed by the start of put_cache_ptr. */
  function ProdEditPut(p: State, e: Event, rotate: bool): State
    requires Enabled(p, e) && (e.ProdAppend? || e.ProdClear?)
  {
    Step(Step(p, e), ProdPut(rotate))
  }

  /** The consumer's edit followed by the start of put_data_ptr(false). */
  function ConsEditPut(p: State, e: Event): State
    requires Enabled(p, e) && (e.ConsDrop? || e.ConsPrepend?)
  {
    Step(Step(p, e), ConsPut(false))
  }

  function InnerAct(v: Player, e: Event): Player
    requires IsInner(e) && Enabled(v.p, e)
  {
    var p' := Step(v.p, e);
    v.(p := p',
       job := if v.job.Seeking? && e.ProdEmpty? && p'.prod.PIdle? then v.job.(cleared := true) else v.job)
  }

  function FileAct(v: Player, a: Action, file: seq<byte>, maxChunk: nat): Player
    requires FileAction(a) && CanFile(v, a, file, maxChunk)
  {
    match a
    case StartFill => v.(p := Step(v.p, ProdGet), job := Filling(false))
    case Fill =>
      var n := Obtained(v, file, maxChunk);
      var fin := v.readSoFar + n == |file| || n < Wanted(v, maxChunk);
      v.(p := ProdEditPut(v.p, FillEvent(v, file, maxChunk), fin),
         readSoFar := v.readSoFar + n, job := Filling(fin),
         h := v.h.(made := v.h.made + file[v.readSoFar..v.readSoFar + n]))
    case StartFileSeek(to) => v.(p := Step(v.p, ProdGet), job := Seeking(to, false), h := v.h.(clean := false))
    case ClearFront =>
      v.(p := ProdEditPut(v.p, ProdClear, false), job := v.job.(cleared := true),
         h := v.h.(made := Cut(v.h.made, |v.p.chunks[v.p.prod.id].bytes|)))
    case EndJob =>
      if v.job.Filling? then v.(job := NoJob, closed := v.job.fin)
      else v.(job := NoJob, closed := false, readSoFar := v.job.target,
              h := v.h.(base := v.h.made, from := v.job.target))
  }

  /** How update_dec_detail_seek begins. */
  function StartedSeek(v: Player, to: nat): Call {
    if to < v.pos then
      if v.pos - to < |v.last| then PushBack(to, v.pos - to, Fresh) else Far(to, 0)
    else Deciding(to)
  }

  function RegisterAct(v: Player, a: Action, file: seq<byte>): Player
    requires Register(a) && CanRegister(v, a, file)
  {
    match a
    case StartRead(bufSize) => v.(last := [], lastEnd := v.pos, call := Waiting(Min(bufSize, |file| - v.pos), false))
    case PollTotal => v.(call := Waiting(v.call.want, v.call.want <= v.p.total))
    case EnterCopy => v.(call := Copying(v.call.want, [], Fresh))
    case GiveUp => v.(call := NoCall)
    case FinishRead =>
      v.(call := NoCall, pos := v.pos + |v.call.got|, last := v.call.got, lastEnd := v.pos + |v.call.got|,
         delivered := v.delivered + v.call.got)
    case StartSeek(to) => v.(call := StartedSeek(v, to))
    case BackTimeout => v.(call := NoCall)
    case Decide =>
      if v.pos <= v.call.target && v.call.target - v.pos <= v.p.total
      then v.(call := Skipping(v.call.target, v.call.target - v.pos, Fresh))
      else v.(call := Far(v.call.target, 0))
    case FinishSeek => v.(call := NoCall, pos := v.call.target)
    case FarStop => v.(call := Landed(v.call.target, v.call.passed))
  }

  function ChunkAct(v: Player, a: Action): Player
    requires ChunkAction(a) && CanChunk(v, a)
  {
    match a
    case CopyGet => v.(p := Step(v.p, ConsGet), call := Copying(v.call.want, v.call.got, Busy))
    case CopyDrop =>
      var k, bytes := Taken(v), v.p.chunks[v.p.cons.id].bytes;
      var left := if |v.call.got| <= v.call.want then v.call.want - |v.call.got| else 0;
      v.(p := ConsEditPut(v.p, ConsDrop(k)),
         call := Copying(v.call.want, v.call.got + bytes[..k],
                         if |bytes| <= left && k < left then More else Over))
    case BackGet => v.(p := Step(v.p, ConsGet), call := PushBack(v.call.target, v.call.m, Busy))
    case BackEdit =>
      v.(p := ConsEditPut(v.p, PushBackEvent(v)),
         pos := v.pos - v.call.m, sought := true, call := Deciding(v.call.target),
         h := v.h.(sound := v.h.sound && v.lastEnd == v.pos, clean := v.h.clean && v.lastEnd == v.pos))
    case SkipGet => v.(p := Step(v.p, ConsGet), call := Skipping(v.call.target, v.call.left, Busy))
    case SkipDrop =>
      var k := Taken(v);
      v.(p := ConsEditPut(v.p, ConsDrop(k)), call := Skipping(v.call.target, v.call.left - k, More), sought := true)
    case FarGet => v.(p := Step(v.p, ConsGet))
    case FarDrop =>
      var k := Taken(v);
      v.(p := ConsEditPut(v.p, ConsDrop(k)), call := Far(v.call.target, v.call.passed + k), sought := true)
  }

  function Act(v: Player, a: Action, file: seq<byte>, maxChunk: nat): Player
    requires CanAct(v, a, file, maxChunk)
  {
    if a.Inner? then InnerAct(v, a.e)
    else if FileAction(a) then FileAct(v, a, file, maxChunk)
    else if Register(a) then RegisterAct(v, a, file)
    else ChunkAct(v, a)
  }
}
