# A verified model of the player's buffering core

The player reads files on an input thread, decodes them on a decoder thread and hands PCM to an
output thread. What joins the threads is `cache_buffer`: two single-producer, single-consumer ring
queues, one of free chunks and one of filled chunks, between which a fixed pool of chunks rotates
without a lock. This project models that core in Dafny 4.11 and proves what the rest of the player
relies on: nothing is lost, doubled or reordered, no chunk is ever in two hands, and a seek inside
the buffered data is a seek in the file. Beside it stand the two-lock queue, the pool of timers with
the jobs that reschedule themselves, and the loop-heavy codecs (base64, FLAC packing, playlist
files, the time display).

`dafny verify dfyconfig.toml` checks everything.

## How the model is built

The lock-free and locking code is modelled twice.

- As **step systems**, with one program counter per thread and one step per atomic load, slot access,
  store, lock or unlock, under sequential consistency. Claims about interleavings are lemmas about
  every state of every run: `RingSteps` (the ring), `Pipeline` and `PipelineRuns` (`cache_buffer`
  over two such rings, stepped through both of them), `HandOver` (its whole gets and puts), `Playback`,
  `PlaybackWindow` and `PlaybackProofs` (the file reader and the decoder as the two threads),
  `FillProgress` (whole runs of try_read), `ReadProgress` and `DecoderCalls` (whole reads, and the
  branches of a seek), `PlaybackGoesOn` (that nothing is stuck), `PlaybackFar` (where far seeks stop),
  `TwoLockQueue`, `TwoLockProofs` and `TwoLockProgress`, `Timers`.
- As **classes** with the source's fields and methods, for one caller at a time: `SpscQueue`,
  `CacheBuffers`, `Decoders`, `FarSeek`, `FileInputs`, `ThreadsafeQueues`, `AsyncTaskers`,
  `Playlists`, `FlacPack`, `FlacStreams`, `FlacPlay`. Their methods are proved against functions (a
  byte stream, a `Deck`, a `Pool`), and what those functions mean is proved as lemmas.

An undefined step, such as following a null pointer or reading a raw slot, has no result in the
rings and an arbitrary one in the two-lock queue; in both it is proved that no run reaches one.

## What turned out to be conditional

- A seek does not refresh the last-read window. A backward seek inside the window is right for every
  file exactly if the window still ends at the stream position (`SeekRightIffWindowFresh`); after one
  backward seek a second one lands on the wrong bytes (`SecondBackSeekGoesWrong`).
- `rotate_cache` drops a chunk that is empty, so the pool can shrink. Chunks in the queues and in
  flight, plus the dropped ones, are always the number created (`RotationsAlwaysFit`).
- The byte counter is never below the bytes in the data queue, except while the consumer has put
  bytes back and not yet reported them (`CounterBounds`; `CounterCoversDataIff` solves `CounterIsStreamLength` for that queue);
  `CounterFallsBehind` is a run in which it is.
- A seek beyond the buffered data waits for a chunk tagged with its target. Each byte consumed also
  lowers the tag of its chunk by one, so a partly consumed chunk can carry that tag by accident
  (`FarSeekGoesWrong`). And the reader, which is asked to seek by a posted job, may until then go on
  reading past the target, and begin a chunk there; after the seek those bytes come again
  (`LateChunkGoesWrong`). The seek is right for every file exactly if neither has happened, or, for the
  second, nothing has been filled after the file seek (`FarSeekRightIff`). With both threads stepped,
  it is right exactly if the decoder has passed just the bytes that were ready when the file seek
  ended; for a chunk that it has not edited, if it has passed at least those (`FarStopsRightIff`).
- FLAC samples of 17 to 23 bits are played as 32-bit samples but, unlike 24-bit ones, are not scaled
  (`SampleSurvives`).
- The counter of decoded samples grows once per output, so the flag for the last data reaches an
  output in time exactly if it is the first one and either the only one or the stream has a single
  non-empty frame; any other output is told only when its chunk happens to be full (`WriteStream`,
  `SecondOutputNotTold`).
- A loop job that is told to go on ends instead exactly if none is posted and the timer it remembers
  has expired and been handed to another job, which waits on it (`LoopEndsIff`, `ReusedTimerEndsLoop`).
  On the decoder's tasker the only other job with timers is `cont_internal`, which has itself armed
  while there is nothing to decode. It can take the loop's timer, and `decode_cont`, called meanwhile,
  then leaves nothing of its own behind (`RetryDelaysLoop`); but its timer runs `decode_cont` again, so
  there the loop is delayed and not lost (`LoopOrRetryGoesOn`, `LoopIsNeverLost`). Nothing bounds the
  number of those timers (`RetriesPileUp`).
- `put_data_ptr(true)` on a chunk that still holds bytes loses them and leaves them in the counter for
  good: the counter stays exact if and only if nothing is left over (`PutDataPtr`).
- With `remove_data` false, `write_into_raw_buffer` repeats the front chunk instead of reading on
  (`PeekIntoRawBuffer`). Whatever the chunks hold, that is what comes next exactly if the front chunk
  has as much as is asked for (`RepeatedRightIff`, `RepeatedGoesWrong`). Nothing in the repository
  passes it.

## Model

| member | source | states |
|---|---|---|
| RingSteps.WriterStepRefines | src/common/producerconsumerqueue.h:89-104 | every step of a writer, with a reader at any point, is defined and keeps the slots equal to what the FIFO and the two program counters say; only the index store appends |
| RingSteps.ReaderStepRefines | src/common/producerconsumerqueue.h:107-151 | the same for every step of read, frontPtr, popFront and isEmpty; only the index store of read or popFront removes the oldest element |
| RingSteps.RunIsBoundedFifo | src/common/producerconsumerqueue.h:89-146 | in every run, elements read or dropped are a prefix of those written, at most size - 1 lie between, and no slot is built over, read or destroyed in the wrong state |
| RingSteps.AnswersAreExact | src/common/producerconsumerqueue.h:89-177 | write fails, isFull and isEmpty answer, and read and frontPtr find nothing exactly as the FIFO is at the load of the other side's index; the writer's size guess is then exact, and so is the reader's at its first load |
| RingSteps.StaleAnswersAreSafe | src/common/producerconsumerqueue.h:126-177 | an answer used later errs on the safe side only: the writer never underestimates, the reader never overestimates, and a front pointer stays on the oldest element |
| SpscQueue.ProducerConsumerQueue.constructor | src/common/producerconsumerqueue.h:59-69 | an empty queue with the given number of slots |
| SpscQueue.ProducerConsumerQueue.Write | src/common/producerconsumerqueue.h:89-104 | appends the element, and fails exactly when size - 1 are queued |
| SpscQueue.ProducerConsumerQueue.Read | src/common/producerconsumerqueue.h:107-122 | takes the oldest element, or reports that there is none |
| SpscQueue.ProducerConsumerQueue.FrontPtr | src/common/producerconsumerqueue.h:126-133 | the oldest element, left in place |
| SpscQueue.ProducerConsumerQueue.PopFront | src/common/producerconsumerqueue.h:136-146 | drops the oldest element |
| SpscQueue.ProducerConsumerQueue.IsEmpty | src/common/producerconsumerqueue.h:148-151 | true exactly for the empty queue |
| SpscQueue.ProducerConsumerQueue.IsFull | src/common/producerconsumerqueue.h:153-163 | true exactly when size - 1 elements are queued |
| SpscQueue.ProducerConsumerQueue.SizeGuess | src/common/producerconsumerqueue.h:165-177 | with one caller, the number of elements, across the wrap-around |
| Pipeline.StepKeepsInv | src/common/cache_buffer.h:80-169 | each step of either thread keeps the whole invariant: both rings refine their FIFOs, chunks are in one place each, the stream order of the chunks spells the bytes in transit, and the counter is the sum of the sizes it knows; that a put does hand over is HandOver.PutHandsOver |
| PipelineRuns.StreamIsKept | src/common/cache_buffer.h:80-169 | in every interleaving, data queue, the producer's chunk in flight and the front free chunk hold the bytes in transit in order; every other free chunk is empty, and every queued filled chunk holds bytes, except that the front one may not while the consumer is in a call |
| PipelineRuns.NoSharedChunk | src/common/cache_buffer.h:80-169 | no chunk is ever within reach of both threads, through a front pointer, a held pointer or a rotation |
| PipelineRuns.RotationsAlwaysFit | src/common/cache_buffer.h:80-99 | the unchecked writes of both rotations succeed in every run, and chunks in the queues, in flight and dropped add up to the number created |
| PipelineRuns.CounterIsStreamLength | src/common/cache_buffer.h:101-127 | in every state the counter is the length of the stream, corrected by what the two edits under way have not reported |
| PipelineRuns.CounterBounds | src/common/cache_buffer.h:101-127 | the counter is never negative, exact when no edit is under way, and covers the data queue except during an unreported push-back |
| PipelineRuns.CounterCoversDataIff | src/common/cache_buffer.h:101-127 | CounterIsStreamLength solved for the data queue: the counter covers it exactly if the unreported push-back is no larger than what the counter knows to lie behind it |
| CounterRun.CounterFallsBehind | src/core/decoder_plugins_manager.cpp:154-160 | a run with one chunk of two bytes at whose end the data queue holds two bytes and the counter says one |
| PipelineRuns.CounterCapacity | src/common/cache_buffer.h:132-142 | without capacity growth the counter stays below buffer_size + elem_size in every run |
| HandOver.NoFullChunkStays | src/common/cache_buffer.h:101-117 | in every reachable state of every run with the producer in no call, the front free chunk, if there is one, has room: no full chunk is ever left in front of the cache queue |
| HandOver.PutHandsOver | src/common/cache_buffer.h:101-117 | a whole put_cache_ptr, from call to return, whatever the consumer does meanwhile: a full chunk, or one put back for rotation, is handed over, after which no free chunk holds a byte, and is dropped exactly if it is empty; any other is still in front with its contents |
| HandOver.GetFindsFreeChunk | src/common/cache_buffer.h:119-153 | a whole get_cache_ptr comes back empty-handed only if no chunk was free at the call, and otherwise with the front one and its size; the chunk in front at the call is the one it gets |
| HandOver.GetFindsFilledChunk | src/common/cache_buffer.h:119-164 | the same for get_data_ptr and the filled chunks |
| HandOver.EveryCallEnds | src/common/cache_buffer.h:80-169 | both threads are wait-free: each can always take a step, and inside a call each of its own steps lowers a count of at most 19 that no step of the other thread touches |
| Bytes.PoolFits | src/common/cache_buffer.h:135 | the pool covers the configured size and is less than a chunk larger |
| CacheBuffers.CacheBuffer.constructor | src/common/cache_buffer.h:132-142 | an empty data queue and a full cache queue of distinct empty chunks, of the promised total size |
| CacheBuffers.CacheBuffer.InitBuffer | src/common/cache_buffer.h:46-53 | fills a queue with distinct, empty chunks |
| CacheBuffers.CacheBuffer.RotateCache | src/common/cache_buffer.h:80-88 | the front free chunk, if there is one, goes to the end of the data queue, unless it is empty; its bytes join the end of the stream |
| CacheBuffers.CacheBuffer.RotateData | src/common/cache_buffer.h:90-99 | the front chunk, if there is one, goes to the end of the cache queue, empty; the stream loses exactly the bytes it still held |
| CacheBuffers.CacheBuffer.GetCachePtr | src/common/cache_buffer.h:119-153 | the front free chunk and its recorded size, or nothing |
| CacheBuffers.CacheBuffer.PutCachePtr | src/common/cache_buffer.h:101-158 | after the producer's edit the counter is exact again; a full chunk, or any on request, is handed over; the stored bytes do not change |
| CacheBuffers.CacheBuffer.GetDataPtr | src/common/cache_buffer.h:119-164 | the front filled chunk and its recorded size, or nothing |
| CacheBuffers.CacheBuffer.PutDataPtr | src/common/cache_buffer.h:101-169 | an emptied chunk, or any on request, is recycled; afterwards the counter is too high by exactly the bytes a forced rotation throws away, so it is exact if and only if there are none |
| CacheBuffers.CacheBuffer.WriteIntoRawBuffer | src/common/cache_buffer.h:171-205 | terminates, copies exactly min(size, buffered) bytes, the prefix of the stream, and leaves exactly the rest; emptied chunks follow the free ones in order and no queued chunk is empty |
| CacheBuffers.CacheBuffer.CopyRound | src/common/cache_buffer.h:59-74 | one round copies from the front chunk only and either has enough or uses the chunk up |
| CacheBuffers.CacheBuffer.DiscardDataUpto | src/common/cache_buffer.h:207-229 | drops exactly the requested prefix of the stream, or says how much is missing when it would wait |
| CacheBuffers.CacheBuffer.SkipThenCopy | src/common/cache_buffer.h:171-229 | dropping k bytes and copying m returns the tail of what copying k + m would, and leaves the same bytes |
| CacheBuffers.CacheBuffer.PeekIntoRawBuffer | src/common/cache_buffer.h:171-205 | with remove_data false the buffer stays as it is and the destination is filled with the front chunk, repeated |
| CacheBuffers.RepeatedRightIff | src/common/cache_buffer.h:171-205 | for chunks of any sizes, that is the beginning of the stream, whatever the chunks hold, exactly if the front chunk has as much as is asked for |
| CacheBuffers.RepeatedGoesWrong | src/common/cache_buffer.h:198-202 | two one-byte chunks, of which the second is not read |
| CacheBuffers.CacheBuffer.ClearData | src/common/cache_buffer.h:242-250 | empties the data queue, recycles every chunk in order and leaves the unfinished chunk alone |
| CacheBuffers.CacheBuffer.ClearCache | src/common/cache_buffer.h:252-259 | throws away the unfinished chunk's bytes only; nothing is rotated, except that a chunk without any room leaves the pool |
| CacheBuffers.CacheBuffer.SyncCache | src/common/cache_buffer.h:261-267 | hands the unfinished chunk over: the stored bytes become all readable |
| CacheBuffers.CacheBuffer.TotalBytesInBufferGuess | src/common/cache_buffer.h:285-288 | with no edit under way, the number of bytes in the buffer |
| CacheBuffers.CacheBuffer.IsDataEmpty | src/common/cache_buffer.h:273-275 | true exactly when no byte is ready |
| DecoderSeek.ReadReturnsFile | src/core/decoder_plugins_manager.cpp:303-359 | a read returns the file's bytes at the position, moves past them and leaves a window that ends there, whatever the window was; it is empty only for an empty request or at the end; giving up keeps position and stream |
| DecoderSeek.ReadEnds | src/core/decoder_plugins_manager.cpp:311-355 | before the end of the stream a read gives up exactly if fewer bytes are buffered than min(buffer, rest of the stream) or none is ready; otherwise it returns all it asks for, or all that was ready with the missing bytes in the unfinished chunk |
| DecoderSeek.SeekEnds | src/core/decoder_plugins_manager.cpp:130-178 | exactly when a seek is refused, goes to the far branch, waits or succeeds, by position, window, ready and unfinished bytes, and what each leaves |
| DecoderSeek.BufferedSeekIsFileSeek | src/core/decoder_plugins_manager.cpp:130-174 | with a fresh window, a successful seek stands on its target with exactly the file from there ahead; the refusing exits change nothing |
| DecoderSeek.ReadAfterSeek | src/core/decoder_plugins_manager.cpp:130-174 | the read after a successful seek returns the file's bytes at the target |
| DecoderSeek.SeekRightIffWindowFresh | src/core/decoder_plugins_manager.cpp:138-164 | a seek is right for every file exactly if it does not push back or the window ends at the stream position |
| DecoderSeek.SecondBackSeekGoesWrong | src/core/decoder_plugins_manager.cpp:138-164 | the input that shows it: after one backward seek a second succeeds at position 3 with byte 8 next |
| Decoders.Decoder.DecoderReadBuffer | src/core/decoder_plugins_manager.cpp:303-359 | the method over the buffer class gives up exactly if fewer bytes are buffered than the least of the buffer and the rest of the stream or none is ready, and then keeps position and bytes; otherwise it returns that many, or all that was ready, moves past them and remembers them |
| Decoders.Decoder.AwaitData | src/core/decoder_plugins_manager.cpp:313-341 | with nothing else running, the polling loop ends, and succeeds exactly when enough is buffered and some of it ready |
| Decoders.AwaitPolls | src/core/decoder_plugins_manager.cpp:313-341 | whatever the loop sees of the other thread, it ends at the first turn with enough buffered and some of it ready, or, if that comes earlier, gives up at the first turn that ends a row of 21 without a change of the counter |
| Decoders.Decoder.UpdateDecDetailSeek | src/core/decoder_plugins_manager.cpp:130-174 | the method computes DecoderSeek.Seek, branch by branch, over the buffer class |
| Decoders.Decoder.Prepend | src/core/decoder_plugins_manager.cpp:154-161 | the chunk grows to fit, the bytes come first in the stream, and the tag is the new position |
| Decoders.Decoder.StepBack | src/core/decoder_plugins_manager.cpp:138-164 | inside the window the missing bytes go back in front of the data, or nothing changes |
| Decoders.Decoder.SeekForward | src/core/decoder_plugins_manager.cpp:166-174 | a forward seek drops exactly the distance if that much is ready, waits if it is only buffered, and goes to the far branch exactly if it is not, or the target lies behind |
| Decoders.HalvesOfSeek | src/core/decoder_plugins_manager.cpp:130-174 | stepping back and then forward amounts to the whole seek |
| FarSeek.FarSeekRightIff | src/core/decoder_plugins_manager.cpp:166-200 | a far seek stands in front of the file from its target, for every file, exactly if the lowered tag of a partly consumed front chunk is not the target, and the reader has begun no chunk at the target between the guard and its own seek, or has filled none since |
| FarSeek.FarSeekGoesWrong | src/core/decoder_plugins_manager.cpp:182-200 | the input that shows it: a chunk tagged 20 with five bytes consumed ends a seek to 15, and byte 25 comes next |
| FarSeek.LateChunkGoesWrong | src/plugins/input_plugins/input_plugin_file.cpp:461-467 | the other input: a seek from 0 to 20 is asked for with ten bytes ready, the reader fills up to 30 before its own seek, and bytes 20 to 29 come twice |
| FarSeek.SkipToTag | src/core/decoder_plugins_manager.cpp:180-200 | with nothing else running, the loop clears and gives back chunks up to the first one with the tag, which stays with all that is behind it |
| FarSeek.StopsAtNew | src/core/decoder_plugins_manager.cpp:182-200 | unless a lowered tag or a late chunk has the target, the loop stops in front of exactly the chunks filled since the file seek |
| FarSeek.SkipToIs | src/core/decoder_plugins_manager.cpp:182-200 | what the loop leaves begins with a chunk that has the tag, if any has, and no chunk that it passes over has it |
| FileInputs.FileDetails.StoreChunk | src/plugins/input_plugins/input_plugin_file.cpp:247-270 | what is read are the next bytes of the file, as many as the least of the configured size, the room of the chunk and the rest of the file; they go to the end of the chunk, which never exceeds its capacity, and of the stored bytes; the chunk is tagged when it starts empty and handed over when full or at the end of the file |
| FileInputs.FileDetails.ReadSome | src/plugins/input_plugins/input_plugin_file.cpp:234-289 | with a free chunk one round reads the least of the configured size, the room of the front free chunk and the rest of the file, appends exactly the file's next bytes, and is finished exactly at the file's end; with none it does nothing |
| FileInputs.FileDetails.Round | src/plugins/input_plugins/input_plugin_file.cpp:234-300 | a round, which moves the position by that least amount, and the time to the next one: a second if no more than two chunks are not filled, a tenth of a second if more than two are filled, none otherwise |
| FileInputs.FileDetails.SeekTo | src/plugins/input_plugins/input_plugin_file.cpp:407-430 | the unfinished chunk is emptied and the file moves; readable data stays |
| FileInputs.FileInput.TryRead | src/plugins/input_plugins/input_plugin_file.cpp:178-301 | only while playing, only when its timer is not active, only the first file and only below the bound on finished files is read, by the least of the configured size, the chunk's room and the rest of the file, and it moves to the finished list exactly at its end |
| FileInputs.FileInput.CloseFile | src/plugins/input_plugins/input_plugin_file.cpp:164-168 | the first open file becomes the last finished one, its buffer untouched |
| FileInputs.SeekHelper | src/plugins/input_plugins/input_plugin_file.cpp:407-430 | the first file with the id, and no other, is sought |
| FileInputs.FileInput.MoveForSeek | src/plugins/input_plugins/input_plugin_file.cpp:438-451 | the request reaches an open file, or else a finished one, which becomes the first open file; every other file keeps its place |
| FileInputs.FileInput.SeekCallback | src/plugins/input_plugins/input_plugin_file.cpp:433-459 | with a file open the move is all; with none, reading restarts at once, unless the timer of try_read is still active, which then does it; what follows the ready bytes is the file from the point on, up to where the reader stands, which with room in the front free chunk is the least of the configured size, that room and the rest of the file further |
| PlaybackProofs.NothingLostNothingReordered | src/plugins/input_plugins/input_plugin_file.cpp:242-288 | in every interleaving of try_read, reads and buffered seeks, the bytes the chunks hold, from the data queue over the chunk in flight to the partly filled one, and then the unread rest of the file, are the file from the decoder's position; without seeks, delivered bytes and these make up the file |
| PlaybackProofs.DrainedMeansDelivered | src/core/decoder_plugins_manager.cpp:303-359 | when the reader has finished and the data queue is empty, the position is the stream length and, without seeks, exactly the file was delivered |
| PlaybackProofs.SeekLandsOnTarget | src/core/decoder_plugins_manager.cpp:130-174 | a buffered seek that finishes while the reader runs stands on its target with the file from there ahead |
| PlaybackProofs.RefusedSeekMovesNothing | src/core/decoder_plugins_manager.cpp:138-153 | from the start of a seek back through the timeout that ends it, whatever the reader does meanwhile, position, window and delivered bytes stay, and the file from the position is still what follows |
| PlaybackProofs.FileSeekKeepsWhatIsReady | src/plugins/input_plugins/input_plugin_file.cpp:407-459 | after a file seek, in every interleaving until the next one, the buffer holds what was ready when it ended and then the file from the target up to where the reader stands, less exactly what the decoder has taken since; without seeks of the decoder just that has been delivered |
| FillProgress.TryReadMakesProgress | src/plugins/input_plugins/input_plugin_file.cpp:178-301 | a whole run of try_read, with any steps of the decoder in between: if a chunk is free at its start it reads the least of the configured size, that chunk's room and the rest of the file, which is at least one byte if one is asked for and left, and finishes the file exactly at its end |
| FillProgress.FillAppends | src/plugins/input_plugins/input_plugin_file.cpp:247-264 | the chunk in hand keeps its capacity and gets that many next bytes of the file at its end, is tagged with their offset if it was empty, and is put back for rotation exactly at the end of the file |
| DecoderCalls.ReadWaitsForEnough | src/core/decoder_plugins_manager.cpp:303-359 | a whole read, with any steps of the reader in between: it asks for the least of the caller's buffer and the rest of the stream, before the end of the stream it has seen the counter cover that and the data queue not empty, and it comes back short only if it has found the data queue empty |
| DecoderCalls.SeekTakesBranch | src/core/decoder_plugins_manager.cpp:130-178 | a seek goes back first exactly if the target is inside the window, and skips forward exactly if the counter covers the distance; every other one is left to the file |
| DecoderCalls.RoundTakesAll | src/common/cache_buffer.h:59-74 | a round of a copy or a skip takes the front of the chunk in hand, until the chunk is empty or nothing more is asked for; a round of the far loop empties it |
| DecoderCalls.PushBackRestores | src/core/decoder_plugins_manager.cpp:154-160 | the push-back puts the end of the window in front of the chunk's bytes, grows the chunk if it must and no further, and tags it with the new position |
| DecoderCalls.ReadySkipNeverWaits | src/common/cache_buffer.h:207-229 | in every interleaving, a skip over bytes that are all in the data queue finds a chunk there until it has skipped them: it never sleeps |
| PlaybackGoesOn.PlayGoesOn | src/core/decoder_plugins_manager.cpp:130-359 | in every reachable state the file reader can take a step, and so can the decoder, except where its far branch has stopped; a waiting read can go on to copy whenever the counter covers its request and a chunk is ready |
| PlaybackFar.FarStopsRightIff | src/core/decoder_plugins_manager.cpp:182-200 | in every interleaving, when the far branch stops at the tag of the last file seek's target: what it has in front of it is the file from the target exactly if it has passed just the bytes ready when that file seek ended; for an unedited chunk, exactly if it has passed at least those |
| PlaybackFar.ActFarOk | src/core/decoder_plugins_manager.cpp:182-200 | every action of either thread keeps this: a chunk the decoder has not edited, filled since the last file seek, is tagged with its place in the file |
| PlaybackWindow.ActKeepsWindow | src/core/decoder_plugins_manager.cpp:138-160 | in every interleaving the last-read window ends within what has been taken and what the data queue holds, so the bytes that a file seek clears are never part of it |
| ReadProgress.ReadsAreNotEmpty | src/core/decoder_plugins_manager.cpp:303-359 | in every interleaving, a read begun before the end of the stream with room in the caller's buffer, if it does not give up, returns at least one byte and moves the position by exactly what it returns, within the buffer and the stream |
| ReadProgress.ActReadOk | src/core/decoder_plugins_manager.cpp:313-345 | every action of either thread keeps this: once the wait loop has let a read through, the data queue stays non-empty until the read holds a chunk with bytes in it |
| PlaybackProofs.UntouchedChunksHoldTheFile | src/plugins/input_plugins/input_plugin_file.cpp:247-264 | across fills, rotations, file seeks and decoder seeks, a chunk the decoder has not edited holds the file from its tag on |
| PlaybackProofs.ActKeeps | src/core/decoder_plugins_manager.cpp:130-359 | every action of either thread keeps the joint invariant of file reader, buffer and decoder |
| TwoLockProofs.Linearizable | src/common/threadsafe_queue.h:23-125 | every run of any number of threads looks to its callers like a run of the one-lock queue, each call taking effect at one moment between beginning and return, with the same results |
| TwoLockProofs.StepRefines | src/common/threadsafe_queue_stdqueue.h:16-41 | each step of the two-lock queue is a step of the one-lock queue or invisible: a push takes effect at the tail store, a pop at the head store, an empty answer at the tail load |
| TwoLockProofs.NeverTakesTheDummy | src/common/threadsafe_queue.h:29-34 | no reachable step follows a null or freed pointer; the unlinked node is never the tail and carries its element until it is read |
| TwoLockProofs.StepKeepsInv | src/common/threadsafe_queue.h:23-107 | each step keeps the acyclic list from head to the dummy, the owners of both locks and the privacy of detached nodes |
| TwoLockProgress.NoDeadlock | src/common/threadsafe_queue.h:23-125 | in every reachable state in which some thread is in a call, some thread in a call can take a step |
| TwoLockProgress.LooksAreExact | src/common/threadsafe_queue.h:36-75 | whatever is pushed meanwhile: wait_and_pop sleeps, try_pop returns nothing and empty answers true exactly if the queue was empty at the load of the tail; otherwise a pop goes on to take the first node |
| ThreadsafeQueues.ThreadsafeQueue.constructor | src/common/threadsafe_queue.h:78-80 | an empty queue of one dummy node |
| ThreadsafeQueues.ThreadsafeQueue.Push | src/common/threadsafe_queue.h:95-107 | the dummy takes the value and a new dummy is linked behind it; the value is queued last |
| ThreadsafeQueues.ThreadsafeQueue.PopHead | src/common/threadsafe_queue.h:29-34 | unlinks the first node, which carries the oldest element |
| ThreadsafeQueues.ThreadsafeQueue.TryPop | src/common/threadsafe_queue.h:109-113 | the oldest element, or nothing exactly when the queue is empty |
| ThreadsafeQueues.ThreadsafeQueue.Empty | src/common/threadsafe_queue.h:121-125 | true exactly for the empty queue |
| Timers.TimersAreConsistent | src/common/async_tasker.h:76-122 | in every run, active and expired timers are disjoint, without duplicates and within the bound, and each active timer has exactly one pending handler |
| Timers.AtMostOneScheduledLoop | src/core/decoder_plugins_manager.cpp:51-97 | in every run at most one timer is set to run decode_cont, or try_read, itself; timers of cont_internal are not counted |
| Timers.EachJobRunsOnce | src/common/async_tasker.h:76-154 | every step of the tasker's thread runs exactly one pending job; afterwards just the other pending jobs are pending, and those it has asked for: none is lost and none runs twice |
| Timers.LoopEndsIff | src/core/decoder_plugins_manager.cpp:58-108 | in every step of every run that runs the loop body, as a posted job, from a timer or inside another job, a loop told to go on ends exactly if none is posted and its remembered timer waits with another job |
| Timers.LoopOrRetryGoesOn | src/core/decoder_plugins_manager.cpp:51-109 | where only decode_cont and cont_internal set timers, a loop body told to go on leaves the loop posted, or a timer pending that runs it or cont_internal |
| Timers.LoopIsNeverLost | src/core/decoder_plugins_manager.cpp:362-382 | there, over whole segments of runs: once something pending leads to the loop body, something always does until a run of it is told to stop |
| Timers.RetryDelaysLoop | src/core/decoder_plugins_manager.cpp:366-373 | a run in which the delay of cont_internal takes the timer that decode_cont remembers, and decode_cont, told to go on, leaves itself neither posted nor set |
| Timers.RetriesPileUp | src/common/async_task.h:46-48 | for every n, a run after which n timers wait to run cont_internal |
| Timers.ReusedTimerEndsLoop | src/common/async_tasker.h:106-119 | a run in which the pool hands the loop's expired timer to another job and the loop ends although told to go on |
| AsyncTaskers.AsyncTasker.CreateGetTimer | src/common/async_tasker.h:103-122 | arms the oldest expired timer, which leaves the pool, or else a new one, never an active one; it becomes active and waits with the job |
| AsyncTaskers.AsyncTasker.HandleTimeout | src/common/async_tasker.h:76-101 | takes the timer out of the active set and its wait out of the waits, gives it back behind the others unless the pool is full, and yields its job |
| AsyncTaskers.AsyncTasker.IsActiveTimer | src/common/async_tasker.h:162-165 | true exactly when a handler of the timer is pending |
| AsyncTaskers.AsyncTasker.IsTimerExpired | src/common/async_tasker.h:157-160 | true exactly when no handler of the timer is pending |
| AsyncTaskers.LoopOwner.DecodeCont | src/core/decoder_plugins_manager.cpp:51-109 | while playing, with something to decode and its timer not waiting, it posts itself exactly if there is an output, every output has a free chunk and work is left, and has its timer wait exactly if there is no output or one has no free chunk; in every other case nothing changes |
| AsyncTaskers.LoopOwner.ContInternal | src/core/decoder_plugins_manager.cpp:362-382 | with nothing to decode it posts its own delayed start and changes nothing else; otherwise it posts decode_cont, sets its timer or does nothing, by the same conditions; either way it is one run of the retry job |
| AsyncTaskers.LoopOwner.AddJob | src/common/async_task.h:41-48 | a job, or the setting of its timer, is posted behind the others |
| AsyncTaskers.LoopOwner.TryRead | src/plugins/input_plugins/input_plugin_file.cpp:178-210 | try_read's timer logic: while playing, with a file open, its timer not waiting and work left on the way out, the timer is set to run it again; in every other case nothing changes |
| Base64.RoundTrip | src/plugins/core_plugins/playlist_management_plugin/tag_lib_parser.cpp:643-698 | every byte sequence, encoded by section 4 of RFC 4648 with padding, is decoded to itself |
| Base64.ConvertBase64 | src/plugins/core_plugins/playlist_management_plugin/tag_lib_parser.cpp:663-697 | for any text, the loop stays in bounds, decodes the leading run of k letters (as far as there is room) to exactly floor(3k/4) bytes and writes no others |
| Base64.DecodeSnoc | src/plugins/core_plugins/playlist_management_plugin/tag_lib_parser.cpp:677-693 | the byte each level of the switch writes completes the group-wise decoding by one letter |
| Base64.LookupInvertsLetter | src/plugins/core_plugins/playlist_management_plugin/tag_lib_parser.cpp:645-662 | the table inverts the alphabet of RFC 4648 and knows no other character |
| Base64.GroupSurvives | src/plugins/core_plugins/playlist_management_plugin/tag_lib_parser.cpp:677-693 | the three writes recover the 24 bits that four letters stand for |
| Base64.EncodedLength | src/plugins/core_plugins/playlist_management_plugin/tag_lib_parser.cpp:634-635 | an encoded text has 4 * ceil(n/3) characters, so a buffer as long as the text has room |
| FlacPack.FrameSurvives | src/plugins/decoder_plugins/decoder_plugin_flac.cpp:407-413 | for every block size and channel count, the bytes at the frame-major position of sample (i, c) read back as that sample, times 256 for 24-bit streams |
| FlacPack.SampleSurvives | src/common/decoder_plugin_api.h:48-80 | every sample within its bit depth survives either push function in two's complement |
| FlacPack.WidthFits | src/plugins/decoder_plugins/decoder_plugin_flac.cpp:444-451 | up to 8 bits take 1 byte, up to 16 take 2 and all others 4, and the width holds the depth |
| FlacPack.WriteFrame | src/plugins/decoder_plugins/decoder_plugin_flac.cpp:401-413 | the growth makes room for exactly the frame, so no byte of the circular buffer is overwritten and the whole frame is appended |
| FlacPack.TotalIs | src/common/sound_plugin_api.h:68-72 | the room reserved for a frame is the number of bytes packing produces |
| FlacPack.FullIs | src/plugins/decoder_plugins/decoder_plugin_flac.cpp:415-419 | a chunk counts as having too little room exactly if one more sample of every channel would exceed its capacity |
| FlacPack.FlacStream.WriteCallback | src/plugins/decoder_plugins/decoder_plugin_flac.cpp:365-423 | every output receives the frame behind what it has, and each rotation flag is as the sample counter and the free room say |
| FlacStreams.WriteStream | src/plugins/decoder_plugins/decoder_plugin_flac.cpp:365-423 | for a stream of any number of frames and outputs: every chunk receives, in order, the packed frames written to it, and during the last frame output k is told of the very last data exactly if its chunk is full, or if it is the first output and either the only one or no sample came before this frame |
| FlacPlay.PlayOutput | src/plugins/decoder_plugins/decoder_plugin_flac.cpp:393-418 | for any frames, any flags and an output thread that takes what it likes in between, with chunks coming back to the decoder over and over: what has been taken and what is stored are exactly the samples written so far, packed as one stream; after a frame told to be the last, none of it stays in an unfinished chunk |
| FlacPlay.WriteOutput | src/plugins/decoder_plugins/decoder_plugin_flac.cpp:393-418 | one output of write_callback over its buffer: without a free chunk nothing is written, otherwise the packed frame goes behind all that is stored, and being told that it is the last leaves no unfinished chunk |
| FlacPlay.PutFrame | src/plugins/decoder_plugins/decoder_plugin_flac.cpp:401-419 | the packed frame goes behind what is stored, and the chunk is handed over exactly if the frame was told to be the last, the chunk is full, or one more sample of every channel would not fit |
| FlacPlay.PackAppend | src/common/decoder_plugin_api.h:48-80 | packing two runs of samples one after the other is packing them together, so frame boundaries do not show |
| FlacStreams.SecondOutputNotTold | src/plugins/decoder_plugins/decoder_plugin_flac.cpp:406-418 | two outputs, one frame of one sample and room left: the first output is told of the last data, the second holds the whole stream and is not |
| FlacPack.PushFuncCall | src/common/decoder_plugin_api.h:48-72 | appends the low bytes, provided there is room |
| FlacPack.PushFuncCall24 | src/common/decoder_plugin_api.h:74-80 | appends a zero byte and the three low bytes, provided there is room |
| PlaylistText.RoundTripIff | src/plugins/core_plugins/playlist_management_plugin/playlist.cpp:299-332 | saving and loading restores the urls exactly if each is non-empty, trimmed, without newline, no comment and accepted by the metadata reader |
| PlaylistText.LoadThenSaveIsStable | src/plugins/core_plugins/playlist_management_plugin/playlist.cpp:299-332 | for any text, what load-then-save produces loads to the same urls |
| PlaylistText.TrimTrims | src/common/utils.h:72-90 | trimming leaves no blank at either end, changes nothing that has none and invents no character |
| PlaylistText.OnlyBlanksGo | src/common/utils.h:72-90 | trimming empties exactly the strings of blanks |
| PlaylistText.TrimAround | src/common/utils.h:72-90 | what stands between blanks, and neither begins nor ends with one, is what trimming leaves |
| PlaylistText.TrimLeaves | src/common/utils.h:72-90 | every string is blanks, its trimmed form, and blanks |
| PlaylistText.LineAndRest | src/plugins/core_plugins/playlist_management_plugin/playlist.cpp:299 | a line holds no newline, and the text is the line, its newline if there was one, and the rest |
| PlaylistText.UnterminatedLine | src/plugins/core_plugins/playlist_management_plugin/playlist.cpp:299-313 | a text that ends without a newline brings the same urls as with one: the last line counts |
| PlaylistText.LinesLoad | src/plugins/core_plugins/playlist_management_plugin/playlist.cpp:299-313 | loading goes line by line: each line, the last one with or without its newline, adds what is kept of it, in order |
| PlaylistText.UrlOfLine | src/plugins/core_plugins/playlist_management_plugin/playlist.cpp:299-307 | a line adds what stands between its blanks, unless that is nothing, begins with # or is not accepted |
| Playlists.Playlist.LoadPlaylist | src/plugins/core_plugins/playlist_management_plugin/playlist.cpp:268-315 | the accepted urls of the text, whose lines PlaylistText.LinesLoad spells out, get the next ids in order and are appended, or put in front, the last one first |
| Playlists.PlacedStand | src/plugins/core_plugins/playlist_management_plugin/playlist.cpp:307-311 | item by item: the loaded ones stand in order behind the old ones, or backwards in front of them, and the old ones keep their order |
| Playlists.Playlist.SavePlaylist | src/plugins/core_plugins/playlist_management_plugin/playlist.cpp:317-332 | writes one line per item, in order |
| Playlists.Playlist.AddItem | src/plugins/core_plugins/playlist_management_plugin/playlist.cpp:154-169 | inserts a new item with a fresh id exactly if the metadata can be read |
| Playlists.Playlist.MoveItem | src/plugins/core_plugins/playlist_management_plugin/playlist.cpp:176-195 | the splice puts the item directly before the target, or at the end, and keeps ids unique; it fails only for an unknown id |
| Playlists.MovedStands | src/plugins/core_plugins/playlist_management_plugin/playlist.cpp:176-203 | an item that is there and is not the target ends up directly in front of the target, or at the end if there is no target, and all others keep their order |
| Playlists.Playlist.MoveItems | src/plugins/core_plugins/playlist_management_plugin/playlist.cpp:220-227 | the items are moved one after the other from the end of the list |
| Playlists.MovedTogether | src/plugins/core_plugins/playlist_management_plugin/playlist.cpp:220-227 | for distinct ids other than the target: unmoved items keep their order, and the moved block stands directly before the target, or at the end |
| Playlists.BlockIsReversed | src/plugins/core_plugins/playlist_management_plugin/playlist.cpp:220-227 | the block is the id list backwards |
| Playlists.MovingPermutes | src/plugins/core_plugins/playlist_management_plugin/playlist.cpp:176-227 | whatever the ids, moving permutes the playlist and keeps ids unique |
| Playlists.Playlist.GetNextItemId | src/plugins/core_plugins/playlist_management_plugin/playlist.cpp:142-152 | the id of the item behind the given one; the invalid id for the last item and for an unknown id |
| Playlists.WalkMeetsAll | src/plugins/core_plugins/playlist_management_plugin/playlist.cpp:142-152 | from any item on, asking for the next id meets the rest of the playlist once, in order, and stops |
| TimeFormat.ParseFormat | src/common/utils.h:118-143 | a parser recovers every duration from its text, negative ones included |
| TimeFormat.Injective | src/common/utils.h:118-143 | different durations look different |
| TimeFormat.DropsIffNoHours | src/common/utils.h:138-141 | the leading "00:" is dropped exactly if there are no hours |
| TimeFormat.MixedRadix | src/common/utils.h:125-136 | the four quotients determine the duration |
| TimeFormat.CreateTimeFormatString | src/common/utils.h:118-143 | the loop over the formats writes exactly this text |
| TimeFormat.PaddedIs | src/common/utils.h:134 | a field is its number with zeros in front up to the width, and is never cut |
| TimeFormat.DecimalIsShort | src/common/utils.h:134 | a number has no zero in front, one digit below ten and one more for every division by ten |
| TimeFormat.FixedWidth | src/common/utils.h:118-143 | below a hundred hours the text with its hours has the form dd:dd:dd.ddd |

## Left out

- The far-seek branch of `update_dec_detail_seek`: in Playback file seeks come at any time, not only when the branch asks for one, and the call ends where the loop stops. FarSeek.FarSeekRightIff is about a data queue with at least one chunk filled before the file seek; with none, the loop stops at the first one filled since.
- Weak memory: every atomic step is sequentially consistent. The acquire and release orders of the ring are assumed to give that.
- Liveness that rests on wake-ups, on the length of a sleep or on a fair scheduler. What holds under any scheduler is proved: HandOver.EveryCallEnds, PlaybackGoesOn.PlayGoesOn and TwoLockProgress.NoDeadlock. In the step systems a wait is a step that may or may not give up; in the classes nothing else runs, so a wait either succeeds at once or runs out.
- CacheBuffers.CacheBuffer.WriteIntoRawBuffer: the bytes stored at the destination pointer are a result, not a buffer in memory.
- CacheBuffers.CacheBuffer.DiscardDataUpto: the sleep on an empty data queue is the result `left`; the loop that goes on after it, with the reader running, is the call `Skipping` of Playback.
- Pipeline.StepKeepsInv: in the step systems put_data_ptr(true) is called on an emptied chunk only, as clear_data does; what a forced rotation does to leftover bytes, as in the ALSA output, is stated by CacheBuffers.CacheBuffer.PutDataPtr for one caller.
- PlaybackProofs.NothingLostNothingReordered: holds until a file seek, or a push-back of an out-of-date window, has happened; what holds after a file seek is PlaybackProofs.FileSeekKeepsWhatIsReady, and the latter is exactly the condition of DecoderSeek.SeekRightIffWindowFresh.
- A playback session is one file; the lists of open and finished files are in FileInputs only. Opening a file, with its failure paths, and removing one are left out; `_file_size` is the length of the content.
- FlacPack.PushFuncCall: the bytes of the sample union come low byte first, as on a little-endian host.
- FileInputs.FileInput.TryRead: every file is open and has a buffer.
- FlacStreams.WriteStream: no bytes leave a chunk between frames; a buffer with an output thread is FlacPlay.PlayOutput, for one output at a time and with the flag of each frame as a parameter.
- FlacPack.FlacStream.WriteCallback: a free chunk is at hand for every output, and decoded samples fit their bit depth, as libFLAC promises.
- Playlists.Playlist.LoadPlaylist: the file's text and its directory are parameters, the metadata reader is a function from path to acceptance; tags, durations, album art, the playlist's name and the trimming of its file name are left out, as is what happens when the file does not exist.
- Addresses and numbers: 64-bit wrap-around of sizes, ids and counters. The two-lock queue may reuse any free address; destroying it is left out, and so is the notification of its condition variable.
- Timers: clock times and shutdown; a handler may run at any moment after its timer was armed, which covers cancelled timers. Exceptions thrown by handlers are left out.
- User interface, plugin loading, configuration, logging, FFmpeg, ALSA, DirectSound, TagLib and libFLAC, floating-point durations and volumes, `parse_flac_pict` and the album-art cache.
