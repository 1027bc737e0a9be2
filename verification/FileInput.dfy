/** The file side of input_plugin_file.cpp, for one caller at a time: `try_read` fills chunks
    from the first open file, a finished file moves to the finished list, and a seek empties
    the unfinished chunk, moves the file and, if need be, brings it back. */
module FileInputs {
  import opened Bytes
  import opened CacheBuffers

  /** What std::istream::read obtains at pos: what is asked for, or what is left. */
  function Delivered(content: seq<byte>, pos: nat, want: nat): (data: seq<byte>)
    requires pos <= |content|
    ensures |data| <= want && pos + |data| <= |content| && data == content[pos..pos + |data|]
    ensures |data| < want ==> pos + |data| == |content|
  {
    content[pos..pos + Min(want, |content| - pos)]
  }

  datatype Turn = Full | Ran(data: seq<byte>, fin: bool)

  /** When try_read runs next: not at all, when the timer that is already set fires, or after a time. */
  datatype Next = Idle | AtTimer | After(micros: nat)

  class FileDetails {
    const urlId: int
    const content: seq<byte>
    const cacheBuf: CacheBuffer
    var filePos: nat
    var eof: bool
    var currentReadSoFar: nat

    ghost predicate Valid()
      reads this, cacheBuf, cacheBuf.Queues(), if cacheBuf.QueuesOk() then cacheBuf.Chunks() else {}
    {
      cacheBuf.Settled() && filePos == currentReadSoFar <= |content|
    }

    constructor (urlId: int, content: seq<byte>, cacheBuf: CacheBuffer)
      requires cacheBuf.Settled()
      ensures Valid() && this.urlId == urlId && this.content == content && this.cacheBuf == cacheBuf
      ensures currentReadSoFar == 0 && !eof
    {
      this.urlId, this.content, this.cacheBuf := urlId, content, cacheBuf;
      filePos, eof, currentReadSoFar := 0, false, 0;
    }

    /** The file has delivered n bytes; `short` is the stream's end-of-file flag. */
    method Advance(n: nat, short: bool)
      requires Valid() && filePos + n <= |content|
      modifies this`filePos, this`eof, this`currentReadSoFar
      ensures Valid() && currentReadSoFar == old(filePos) + n && eof == short
      ensures cacheBuf.Stored() == old(cacheBuf.Stored())
    {
      filePos := filePos + n;
      currentReadSoFar := currentReadSoFar + n;
      eof := short;
    }

    /** Reads from the file into the chunk and puts it back: the tag is set when the chunk starts
        empty, and the last chunk of a file is handed over even if it is not full. The read stops
        at the configured size, at a full chunk or at the end of the file, whichever comes first. */
    method StoreChunk(chunk: Chunk, maxChunk: nat) returns (data: seq<byte>, fin: bool, short: bool)
      requires Valid() && cacheBuf.cacheLastSize == |chunk.bytes|
      requires cacheBuf.cacheBuffer.Contents != [] && chunk == cacheBuf.cacheBuffer.Contents[0]
      modifies cacheBuf`totalBytesInBuffer, cacheBuf.Queues(), chunk
      ensures chunk.capacity == old(chunk.capacity) && |data| <= maxChunk
      ensures data == [] || old(|chunk.bytes|) + |data| <= old(chunk.capacity)
      ensures |data| == maxChunk || old(|chunk.bytes|) + |data| >= old(chunk.capacity) || filePos + |data| == |content|
      ensures filePos + |data| <= |content| && data == Delivered(content, filePos, |data|)
      ensures (short ==> fin) && (fin <==> filePos + |data| == |content|)
      ensures short <==> |data| < maxChunk && old(|chunk.bytes|) + |data| < old(chunk.capacity)
      ensures Valid() && cacheBuf.Stored() == old(cacheBuf.Stored()) + data
      ensures chunk.bytes == old(chunk.bytes) + data
      ensures chunk.first == if old(chunk.bytes) == [] then filePos else old(chunk.first)
      ensures cacheBuf.cacheBuffer.Contents ==
        old(cacheBuf.cacheBuffer.Contents)[if |chunk.bytes| == chunk.capacity || fin then 1 else 0..]
    {
      var size := |chunk.bytes|;
      var freeSize := Min(maxChunk, if size <= chunk.capacity then chunk.capacity - size else 0);
      var first := if size == 0 then filePos else chunk.first;
      data := Delivered(content, filePos, freeSize);
      short := |data| < freeSize;
      fin := filePos + |data| == |content| || short;
      cacheBuf.AppendAndPut(chunk, data, first, fin);
    }

    /** The read with its effect on the file. */
    method FillChunk(chunk: Chunk, maxChunk: nat) returns (data: seq<byte>, fin: bool)
      requires Valid() && cacheBuf.cacheLastSize == |chunk.bytes|
      requires cacheBuf.cacheBuffer.Contents != [] && chunk == cacheBuf.cacheBuffer.Contents[0]
      modifies this`filePos, this`eof, this`currentReadSoFar
      modifies cacheBuf`totalBytesInBuffer, cacheBuf.Queues(), chunk
      ensures |data| <= maxChunk && (data == [] || old(|chunk.bytes|) + |data| <= old(chunk.capacity))
      ensures |data| == maxChunk || old(|chunk.bytes|) + |data| >= old(chunk.capacity) || currentReadSoFar == |content|
      ensures eof <==> |data| < maxChunk && old(|chunk.bytes|) + |data| < old(chunk.capacity)
      ensures Valid() && currentReadSoFar == old(currentReadSoFar) + |data| && (fin <==> currentReadSoFar == |content|)
      ensures data == Delivered(content, old(filePos), |data|)
      ensures cacheBuf.Stored() == old(cacheBuf.Stored()) + data
    {
      ghost var stored, pos := cacheBuf.Stored(), currentReadSoFar;
      var short;
      data, fin, short := StoreChunk(chunk, maxChunk);
      assert cacheBuf.Stored() == stored + data && filePos == currentReadSoFar == pos;
      Advance(|data|, short);
    }

    /** One round of try_read on this file. */
    method ReadSome(maxChunk: nat) returns (t: Turn)
      requires Valid()
      modifies this`filePos, this`eof, this`currentReadSoFar
      modifies cacheBuf`totalBytesInBuffer, cacheBuf`cacheLastSize, cacheBuf.Queues()
      modifies if cacheBuf.cacheBuffer.Contents == [] then {} else {cacheBuf.cacheBuffer.Contents[0]}
      ensures Valid()
      ensures t.Full? <==> old(cacheBuf.cacheBuffer.Contents) == []
      ensures t.Full? ==> cacheBuf.Stored() == old(cacheBuf.Stored()) && currentReadSoFar == old(currentReadSoFar)
      ensures t.Ran? ==>
        var size := old(|cacheBuf.cacheBuffer.Contents[0].bytes|);
        var capacity := old(cacheBuf.cacheBuffer.Contents[0].capacity);
        && |t.data| <= maxChunk && (t.data == [] || size + |t.data| <= capacity)
        && (|t.data| == maxChunk || size + |t.data| >= capacity || currentReadSoFar == |content|)
        && (eof <==> |t.data| < maxChunk && size + |t.data| < capacity)
      ensures t.Ran? ==>
        && currentReadSoFar == old(currentReadSoFar) + |t.data|
        && t.data == Delivered(content, old(filePos), |t.data|)
        && cacheBuf.Stored() == old(cacheBuf.Stored()) + t.data
        && (t.fin <==> currentReadSoFar == |content|)
    {
      var ptr := cacheBuf.GetCachePtr();
      if ptr.Raw? {
        return Full;
      }
      var data, fin := FillChunk(ptr.value, maxChunk);
      t := Ran(data, fin);
    }

    /** A round and the time to wait after it: a second when the data queue is full or nearly so, a
        tenth of a second when it has enough, no time when it is nearly empty. */
    method Round(maxChunk: nat) returns (micros: nat, fin: bool)
      requires Valid()
      modifies this`filePos, this`eof, this`currentReadSoFar
      modifies cacheBuf`totalBytesInBuffer, cacheBuf`cacheLastSize, cacheBuf.Queues()
      modifies if cacheBuf.cacheBuffer.Contents == [] then {} else {cacheBuf.cacheBuffer.Contents[0]}
      ensures Valid() && old(currentReadSoFar) <= currentReadSoFar
      ensures cacheBuf.Stored() == old(cacheBuf.Stored()) + content[old(currentReadSoFar)..currentReadSoFar]
      ensures fin <==> old(cacheBuf.cacheBuffer.Contents) != [] && currentReadSoFar == |content|
      ensures old(cacheBuf.cacheBuffer.Contents) == [] ==>
        currentReadSoFar == old(currentReadSoFar) && micros == 1_000_000
      ensures old(cacheBuf.cacheBuffer.Contents) != [] ==>
        var size := old(|cacheBuf.cacheBuffer.Contents[0].bytes|);
        var capacity := old(cacheBuf.cacheBuffer.Contents[0].capacity);
        var n := currentReadSoFar - old(currentReadSoFar);
        && n <= maxChunk && (n == 0 || size + n <= capacity)
        && (n == maxChunk || size + n >= capacity || currentReadSoFar == |content|)
      ensures old(cacheBuf.cacheBuffer.Contents) != [] ==>
        var count, filled := cacheBuf.bufferSizeCount, |cacheBuf.dataBuffer.Contents|;
        micros == if count - filled <= 2 then 1_000_000 else if filled > 2 then 100_000 else 0
    {
      ghost var stored, pos := cacheBuf.Stored(), currentReadSoFar;
      var t := ReadSome(maxChunk);
      if t.Full? {
        assert content[pos..pos] == [] && stored + [] == stored;
        return 1_000_000, false;
      }
      assert t.data == content[pos..currentReadSoFar];
      var filled := DataSizeGuess();
      if cacheBuf.bufferSizeCount - filled <= 2 {
        micros := 1_000_000;
      } else if filled > 2 {
        micros := 100_000;
      } else {
        micros := 0;
      }
      fin := t.fin;
    }

    function DataSizeGuess(): (n: nat)
      requires cacheBuf.QueuesOk()
      reads cacheBuf.Queues()
      ensures n == |cacheBuf.dataBuffer.Contents|
    {
      var q := cacheBuf.dataBuffer;
      if q.writeIndex < q.readIndex then q.writeIndex + q.size - q.readIndex else q.writeIndex - q.readIndex
    }

    /** The file stands at `point` and has nothing unfinished. */
    ghost predicate SoughtTo(point: nat)
      reads this, cacheBuf, cacheBuf.Queues(), if cacheBuf.QueuesOk() then cacheBuf.Chunks() else {}
    {
      Valid() && currentReadSoFar == point && !eof && cacheBuf.Partial() == []
    }

    /** The unfinished chunk is emptied. */
    method DropUnfinished()
      requires Valid()
      modifies cacheBuf`totalBytesInBuffer, cacheBuf`cacheLastSize, cacheBuf.Queues()
      modifies (if cacheBuf.cacheBuffer.Contents == [] then {} else {cacheBuf.cacheBuffer.Contents[0]})`bytes
      ensures Valid() && cacheBuf.DataBytes() == old(cacheBuf.DataBytes()) && cacheBuf.Partial() == []
      ensures cacheBuf.FreeChunks() <= old(cacheBuf.FreeChunks())
      ensures old(Room(this)) != 0 ==> cacheBuf.cacheBuffer.Contents == old(cacheBuf.cacheBuffer.Contents)
    {
      ghost var free := cacheBuf.FreeChunks();
      cacheBuf.ClearCache();
      assert cacheBuf.FreeChunks() <= free;
    }

    /** The file part of a seek: the unfinished chunk is emptied and the file moves. */
    method SeekTo(point: nat)
      requires Valid() && point <= |content|
      modifies this`filePos, this`eof, this`currentReadSoFar
      modifies cacheBuf`totalBytesInBuffer, cacheBuf`cacheLastSize, cacheBuf.Queues()
      modifies if cacheBuf.cacheBuffer.Contents == [] then {} else {cacheBuf.cacheBuffer.Contents[0]}
      ensures Valid() && currentReadSoFar == point && !eof
      ensures cacheBuf.DataBytes() == old(cacheBuf.DataBytes()) && cacheBuf.Partial() == []
      ensures cacheBuf.FreeChunks() <= old(cacheBuf.FreeChunks())
      ensures old(Room(this)) != 0 ==> Room(this) == old(Room(this))
    {
      DropUnfinished();
      Restart(point);
    }

    method Restart(point: nat)
      requires Valid() && point <= |content|
      modifies this`filePos, this`eof, this`currentReadSoFar
      ensures Valid() && currentReadSoFar == point && !eof
      ensures cacheBuf.DataBytes() == old(cacheBuf.DataBytes()) && cacheBuf.Partial() == old(cacheBuf.Partial())
      ensures Room(this) == old(Room(this))
    {
      eof := false;
      filePos := point;
      currentReadSoFar := point;
    }
  }

  /** The capacity of the chunk that the next round fills, zero if there is none. */
  ghost function Room(f: FileDetails): nat
    reads f.cacheBuf.cacheBuffer
    reads if f.cacheBuf.cacheBuffer.Contents == [] then {} else {f.cacheBuf.cacheBuffer.Contents[0]}
  {
    if f.cacheBuf.cacheBuffer.Contents == [] then 0 else f.cacheBuf.cacheBuffer.Contents[0].capacity
  }

  /** The objects of one file that a round may change. */
  ghost function Frame(fs: seq<FileDetails>): set<object>
    reads if fs == [] then {} else {fs[0], fs[0].cacheBuf} + fs[0].cacheBuf.Queues()
  {
    if fs == [] then {} else {fs[0], fs[0].cacheBuf} + fs[0].cacheBuf.Queues() + fs[0].cacheBuf.FreeChunks()
  }

  /** The position of the first file with this id, or the length of the list. */
  function IndexOf(fs: seq<FileDetails>, urlId: int): (i: nat)
    ensures i <= |fs| && (forall j :: 0 <= j < i ==> fs[j].urlId != urlId)
    ensures i < |fs| ==> fs[i].urlId == urlId
  {
    if fs == [] || fs[0].urlId == urlId then 0 else 1 + IndexOf(fs[1..], urlId)
  }

  lemma {:induction false} IndexOfIs(fs: seq<FileDetails>, urlId: int, i: nat)
    requires i < |fs| && fs[i].urlId == urlId && forall j :: 0 <= j < i ==> fs[j].urlId != urlId
    ensures IndexOf(fs, urlId) == i
  {
    if i == 0 {
    } else {
      IndexOfIs(fs[1..], urlId, i - 1);
    }
  }

  function Without<T>(s: seq<T>, j: nat): (r: seq<T>)
    requires j < |s|
    ensures |r| == |s| - 1 && forall k :: 0 <= k < |r| ==> r[k] == s[if k < j then k else k + 1]
  {
    s[..j] + s[j + 1..]
  }

  method Find(fs: seq<FileDetails>, urlId: int) returns (i: nat)
    ensures i == IndexOf(fs, urlId)
  {
    i := 0;
    while i < |fs| && fs[i].urlId != urlId
      invariant i <= |fs| && forall j :: 0 <= j < i ==> fs[j].urlId != urlId
    {
      i := i + 1;
    }
    if i < |fs| {
      IndexOfIs(fs, urlId, i);
    } else {
      assert IndexOf(fs, urlId) == i;
    }
  }

  /** The first file with this id, as a list of at most one. */
  function First(fs: seq<FileDetails>, urlId: int): seq<FileDetails> {
    if IndexOf(fs, urlId) < |fs| then [fs[IndexOf(fs, urlId)]] else []
  }

  ghost predicate CanSeek(t: seq<FileDetails>, point: nat)
    reads if t == [] then {} else {t[0], t[0].cacheBuf} + t[0].cacheBuf.Queues()
    reads if t == [] || !t[0].cacheBuf.QueuesOk() then {} else t[0].cacheBuf.Chunks()
  {
    t != [] ==> t[0].Valid() && point <= |t[0].content|
  }

  /** The file, if there is one, stands at `point`, `ready` is what its buffer has ready, and the
      chunk to be filled, if it had room, has `room`. */
  ghost predicate SoughtWith(t: seq<FileDetails>, point: nat, ready: seq<byte>, room: nat)
    reads if t == [] then {} else {t[0], t[0].cacheBuf} + t[0].cacheBuf.Queues()
    reads if t == [] || !t[0].cacheBuf.QueuesOk() then {} else t[0].cacheBuf.Chunks()
    reads RoomFrame(t)
  {
    t != [] ==> t[0].SoughtTo(point) && t[0].cacheBuf.DataBytes() == ready && (room != 0 ==> Room(t[0]) == room)
  }

  ghost function RoomFrame(t: seq<FileDetails>): set<object>
    reads if t == [] then {} else {t[0].cacheBuf.cacheBuffer}
  {
    if t == [] || t[0].cacheBuf.cacheBuffer.Contents == [] then {} else {t[0].cacheBuf.cacheBuffer.Contents[0]}
  }

  /** The room of the file, if there is one. */
  ghost function RoomOf(t: seq<FileDetails>): nat
    reads if t == [] then {} else {t[0].cacheBuf.cacheBuffer}
    reads RoomFrame(t)
  {
    if t == [] then 0 else Room(t[0])
  }

  ghost function Ready(t: seq<FileDetails>): seq<byte>
    reads if t == [] then {} else {t[0], t[0].cacheBuf} + t[0].cacheBuf.Queues()
    reads if t == [] || !t[0].cacheBuf.QueuesOk() then {} else t[0].cacheBuf.Chunks()
  {
    if t == [] || !t[0].cacheBuf.QueuesOk() then [] else t[0].cacheBuf.DataBytes()
  }

  /** Seeks the first file of the list that has this id. */
  method SeekHelper(fs: seq<FileDetails>, urlId: int, point: nat) returns (i: nat)
    requires CanSeek(First(fs, urlId), point)
    modifies Frame(First(fs, urlId))
    ensures i == IndexOf(fs, urlId)
    ensures SoughtWith(First(fs, urlId), point, old(Ready(First(fs, urlId))), old(RoomOf(First(fs, urlId))))
    ensures Frame(First(fs, urlId)) <= old(Frame(First(fs, urlId)))
  {
    i := Find(fs, urlId);
    if i < |fs| {
      fs[i].SeekTo(point);
    }
  }

  class FileInput {
    const maxFileChunkSize: nat
    const maxFinishFiles: nat
    var files: seq<FileDetails>
    var finishedFiles: seq<FileDetails>
    var playing: bool

    constructor (maxFileChunkSize: nat, maxFinishFiles: nat)
      ensures files == [] && finishedFiles == [] && !playing
      ensures this.maxFileChunkSize == maxFileChunkSize && this.maxFinishFiles == maxFinishFiles
    {
      this.maxFileChunkSize, this.maxFinishFiles := maxFileChunkSize, maxFinishFiles;
      files, finishedFiles, playing := [], [], false;
    }

    /** The first file goes to the end of the finished list; its buffer is left alone. */
    method CloseFile(file: FileDetails)
      requires files != [] && file == files[0] && file.Valid()
      modifies this
      ensures files == old(files)[1..] && finishedFiles == old(finishedFiles) + [file] && playing == old(playing)
      ensures file.Valid() && file.cacheBuf.Stored() == old(file.cacheBuf.Stored())
    {
      finishedFiles := finishedFiles + [files[0]];
      files := files[1..];
    }

    /** One run of try_read with every file open: while playing, unless _file_read_timer is active
        or too many files wait to be played, the first file fills a chunk; when it is at its end it
        moves to the finished list. */
    method TryRead(timerActive: bool) returns (next: Next)
      requires files != [] ==> files[0].Valid()
      modifies this, Frame(files)
      ensures playing == old(playing) && (next.Idle? <==> !old(playing) || old(files) == [])
      ensures next.AtTimer? <==> old(playing) && old(files) != [] && timerActive
      ensures !next.After? ==> files == old(files) && finishedFiles == old(finishedFiles)
      ensures !next.After? && old(files) != [] ==>
        old(files)[0].Valid() && old(files)[0].currentReadSoFar == old(files[0].currentReadSoFar)
        && old(files)[0].cacheBuf.Stored() == old(files[0].cacheBuf.Stored())
      ensures next.After? ==>
        var f := old(files)[0];
        var runs := |old(finishedFiles)| < maxFinishFiles && old(f.cacheBuf.cacheBuffer.Contents) != [];
        && f.Valid()
        && old(f.currentReadSoFar) <= f.currentReadSoFar
        && f.cacheBuf.Stored() == old(f.cacheBuf.Stored()) + f.content[old(f.currentReadSoFar)..f.currentReadSoFar]
        && (!runs ==> f.currentReadSoFar == old(f.currentReadSoFar))
        && (runs ==>
             var size := old(|f.cacheBuf.cacheBuffer.Contents[0].bytes|);
             var capacity := old(f.cacheBuf.cacheBuffer.Contents[0].capacity);
             var n := f.currentReadSoFar - old(f.currentReadSoFar);
             && n <= maxFileChunkSize && (n == 0 || size + n <= capacity)
             && (n == maxFileChunkSize || size + n >= capacity || f.currentReadSoFar == |f.content|))
        && next == After(
             if !runs || f.cacheBuf.bufferSizeCount - |f.cacheBuf.dataBuffer.Contents| <= 2 then 1_000_000
             else if |f.cacheBuf.dataBuffer.Contents| > 2 then 100_000
             else 0)
        && (if runs && f.currentReadSoFar == |f.content|
            then files == old(files)[1..] && finishedFiles == old(finishedFiles) + [f]
            else files == old(files) && finishedFiles == old(finishedFiles))
    {
      if !playing {
        return Idle;
      }
      if files == [] {
        return Idle;
      }
      if timerActive {
        return AtTimer;
      }
      if |finishedFiles| >= maxFinishFiles {
        return After(1_000_000);
      }
      var file := files[0];
      ghost var stored, pos := file.cacheBuf.Stored(), file.currentReadSoFar;
      var micros, fin := file.Round(maxFileChunkSize);
      assert file.cacheBuf.Stored() == stored + file.content[pos..file.currentReadSoFar];
      next := After(micros);
      if fin {
        CloseFile(file);
      }
    }

    /** The file a seek request means: an open one, or else a finished one. */
    ghost function Target(urlId: int): seq<FileDetails>
      reads this
    {
      if First(files, urlId) != [] then First(files, urlId) else First(finishedFiles, urlId)
    }

    /** A finished file, if there is one at j, becomes the first open one. */
    method Reopen(j: nat, ghost t: seq<FileDetails>, ghost point: nat, ghost ready: seq<byte>, ghost room: nat)
      requires SoughtWith(t, point, ready, room)
      modifies this`files, this`finishedFiles
      ensures SoughtWith(t, point, ready, room) && Frame(t) == old(Frame(t))
      ensures if j < |old(finishedFiles)|
        then files == [old(finishedFiles)[j]] + old(files) && finishedFiles == Without(old(finishedFiles), j)
        else files == old(files) && finishedFiles == old(finishedFiles)
    {
      if j < |finishedFiles| {
        files, finishedFiles := [finishedFiles[j]] + files, Without(finishedFiles, j);
      }
    }

    /** Seeks an open file. */
    method SeekOpen(urlId: int, point: nat) returns (found: bool)
      requires CanSeek(First(files, urlId), point)
      modifies Frame(First(files, urlId))
      ensures files == old(files) && finishedFiles == old(finishedFiles) && playing == old(playing)
      ensures found == (IndexOf(files, urlId) < |files|)
      ensures SoughtWith(First(files, urlId), point, old(Ready(First(files, urlId))), old(RoomOf(First(files, urlId))))
      ensures Frame(First(files, urlId)) <= old(Frame(First(files, urlId)))
    {
      var i := SeekHelper(files, urlId, point);
      found := i < |files|;
    }

    /** Seeks a finished file and reopens it. */
    method SeekFinished(urlId: int, point: nat) returns (found: bool)
      requires CanSeek(First(finishedFiles, urlId), point)
      modifies this`files, this`finishedFiles, Frame(First(finishedFiles, urlId))
      ensures Frame(old(First(finishedFiles, urlId))) <= old(Frame(First(finishedFiles, urlId)))
      ensures found == (old(First(finishedFiles, urlId)) != [])
      ensures SoughtWith(old(First(finishedFiles, urlId)), point, old(Ready(First(finishedFiles, urlId))),
                         old(RoomOf(First(finishedFiles, urlId))))
      ensures var j := IndexOf(old(finishedFiles), urlId);
        if j == |old(finishedFiles)| then files == old(files) && finishedFiles == old(finishedFiles)
        else files == [old(finishedFiles)[j]] + old(files) && finishedFiles == Without(old(finishedFiles), j)
    {
      ghost var t := First(finishedFiles, urlId);
      ghost var ready, room := Ready(t), RoomOf(t);
      var j := SeekHelper(finishedFiles, urlId, point);
      found := j < |finishedFiles|;
      Reopen(j, t, point, ready, room);
    }

    /** The move that a seek request asks for: the file goes to the point; a finished file
        becomes the first open one again, and every other file keeps its place. */
    method MoveForSeek(urlId: int, point: nat) returns (found: bool)
      requires CanSeek(Target(urlId), point)
      modifies this`files, this`finishedFiles, Frame(Target(urlId))
      ensures found == (old(Target(urlId)) != [])
      ensures Frame(old(Target(urlId))) <= old(Frame(Target(urlId)))
      ensures SoughtWith(old(Target(urlId)), point, old(Ready(Target(urlId))), old(RoomOf(Target(urlId))))
      ensures var i, j := IndexOf(old(files), urlId), IndexOf(old(finishedFiles), urlId);
        if i < |old(files)| || j == |old(finishedFiles)| then
          files == old(files) && finishedFiles == old(finishedFiles)
        else
          && files == [old(finishedFiles)[j]] + old(files)
          && finishedFiles == Without(old(finishedFiles), j)
    {
      ghost var t := Target(urlId);
      found := SeekOpen(urlId, point);
      if !found {
        assert t == First(finishedFiles, urlId);
        found := SeekFinished(urlId, point);
      }
    }

    /** cont_internal after a seek to `point` with no other file open. */
    method Resume(timerActive: bool, ghost point: nat, ghost ready: seq<byte>, ghost room: nat)
      returns (next: Next)
      requires |files| <= 1 && SoughtWith(files, point, ready, room)
      modifies this, Frame(files)
      ensures playing && (next.Idle? <==> old(files) == []) && (next.AtTimer? <==> old(files) != [] && timerActive)
      ensures next.AtTimer? ==> files == old(files) && old(files)[0].currentReadSoFar == point
      ensures old(files) == [] ==> files == [] && finishedFiles == old(finishedFiles)
      ensures old(files) != [] ==>
        var t := old(files)[0];
        && t.Valid() && point <= t.currentReadSoFar
        && t.cacheBuf.Stored() == ready + t.content[point..t.currentReadSoFar]
        && ((files == [t] && finishedFiles == old(finishedFiles))
            || (files == [] && finishedFiles == old(finishedFiles) + [t] && t.currentReadSoFar == |t.content|))
      ensures old(files) != [] && !timerActive && old(|finishedFiles|) < maxFinishFiles && room != 0 ==>
        var t := old(files)[0];
        var n := t.currentReadSoFar - point;
        && n <= maxFileChunkSize && n <= room
        && (n == maxFileChunkSize || n == room || t.currentReadSoFar == |t.content|)
    {
      if files != [] { Emptied(files[0], point, ready); }
      playing := true;
      next := TryRead(timerActive);
    }

    /** A seek request. When a file was open, that is all, and the timer of try_read goes on; when
        none was, reading starts again at once, unless that timer is still active, which will then
        start it. What follows the bytes that the buffer still has ready is the file from the point
        on. */
    method SeekCallback(urlId: int, point: nat, timerActive: bool) returns (found: bool, next: Option<Next>)
      requires CanSeek(Target(urlId), point)
      modifies this, Frame(Target(urlId))
      ensures found == (old(Target(urlId)) != []) && (next.None? <==> old(files) != [])
      ensures old(files) != [] ==> playing == old(playing)
      ensures old(files) != [] ==>
        SoughtWith(old(Target(urlId)), point, old(Ready(Target(urlId))), old(RoomOf(Target(urlId))))
      ensures old(files) == [] ==> playing && (next == Some(Idle) <==> !found)
      ensures old(files) == [] ==> (next == Some(AtTimer) <==> found && timerActive)
      ensures next == Some(AtTimer) ==> old(Target(urlId))[0].currentReadSoFar == point && files != []
      ensures old(files) == [] && found ==>
        var t := old(Target(urlId))[0];
        && t.Valid() && point <= t.currentReadSoFar
        && t.cacheBuf.Stored() == old(Ready(Target(urlId))) + t.content[point..t.currentReadSoFar]
      ensures old(files) == [] && found && !timerActive && |old(finishedFiles)| <= maxFinishFiles
              && old(RoomOf(Target(urlId))) != 0 ==>
        var t, room := old(Target(urlId))[0], old(RoomOf(Target(urlId)));
        var n := t.currentReadSoFar - point;
        && n <= maxFileChunkSize && n <= room
        && (n == maxFileChunkSize || n == room || t.currentReadSoFar == |t.content|)
      ensures var i, j := IndexOf(old(files), urlId), IndexOf(old(finishedFiles), urlId);
        if i < |old(files)| || j == |old(finishedFiles)| then
          files == old(files) && finishedFiles == old(finishedFiles)
        else
          var t, rest := old(finishedFiles)[j], Without(old(finishedFiles), j);
          || (files == [t] + old(files) && finishedFiles == rest)
          || (old(files) == [] && files == [] && finishedFiles == rest + [t] && t.currentReadSoFar == |t.content|)
    {
      var wasNoJob := files == [];
      ghost var t, ready, room := Target(urlId), Ready(Target(urlId)), RoomOf(Target(urlId));
      found := MoveForSeek(urlId, point);
      next := None;
      if wasNoJob {
        assert files == t;
        var n := Resume(timerActive, point, ready, room);
        next := Some(n);
      }
    }
  }

  /** A file that has been sought has nothing stored but what is ready. */
  lemma Emptied(f: FileDetails, point: nat, ready: seq<byte>)
    requires f.SoughtTo(point) && f.cacheBuf.DataBytes() == ready
    ensures f.cacheBuf.Stored() == ready == ready + f.content[point..point]
  {
    assert ready + [] == ready;
  }
}
