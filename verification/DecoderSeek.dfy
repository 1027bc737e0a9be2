/** The buffered part of a decoder's read and seek as values: what the decoder has in front of
    it, and what one call of update_dec_detail_seek makes of it. `Decoders` proves that the
    methods compute this; here is what it means for the file being played. */
module DecoderSeek {
  import opened Bytes

  /** Stream position, the bytes of the last read, the bytes ready in the data queue and the
      number of bytes in the chunk still being filled. */
  datatype Deck = Deck(pos: nat, last: seq<byte>, ready: seq<byte>, partial: nat)

  datatype Outcome =
    | Sought            // true
    | Refused           // false
    | Waiting(left: nat) // still in discard_data_upto, waiting for data
    | FarSeek           // the branch that asks the input thread

  function Seek(d: Deck, length: nat, to: int): (Outcome, Deck) {
    if to < 0 || length < to then (Refused, d)
    else if to < d.pos then
      if d.pos - to < |d.last| then
        if d.ready == [] then (Refused, d)
        else (Sought, d.(pos := to, ready := d.last[|d.last| - (d.pos - to)..] + d.ready))
      else (FarSeek, d)
    else if to - d.pos <= |d.ready| + d.partial then
      if to - d.pos <= |d.ready| then (Sought, d.(pos := to, ready := d.ready[to - d.pos..]))
      else (Waiting(to - d.pos - |d.ready|), d.(ready := []))
    else (FarSeek, d)
  }

  /** The deck stands at its position in the file: what is ready is what comes next. */
  predicate Follows(d: Deck, file: seq<byte>) {
    d.pos <= |file| && d.ready <= file[d.pos..]
  }

  /** The last-read window ends at the stream position, as it does right after a read. */
  predicate Fresh(d: Deck, file: seq<byte>) {
    |d.last| <= d.pos <= |file| && d.last == file[d.pos - |d.last|..d.pos]
  }

  lemma PrefixSlice(file: seq<byte>, pos: nat, ready: seq<byte>)
    requires pos <= |file| && ready <= file[pos..]
    ensures pos + |ready| <= |file| && ready == file[pos..pos + |ready|]
  {
  }

  lemma SlicePrefix(file: seq<byte>, a: nat, b: nat)
    requires a <= b <= |file|
    ensures file[a..b] <= file[a..]
  {
  }

  /** Which way a seek ends, for every deck. It is refused outside the stream, or when no chunk is
      ready to take what goes back; it is left to the file when the target lies before the window or
      beyond all that is buffered; it waits when some of the distance is in the unfinished chunk. */
  lemma SeekEnds(d: Deck, length: nat, to: int)
    ensures var (o, d') := Seek(d, length, to);
      && (o.Refused? <==> to < 0 || length < to || (d.pos - |d.last| < to < d.pos && d.ready == []))
      && (o.FarSeek? <==> 0 <= to <= length && ((to < d.pos && to <= d.pos - |d.last|)
                                                || d.pos + |d.ready| + d.partial < to))
      && (o.Waiting? <==> to <= length && d.pos + |d.ready| < to <= d.pos + |d.ready| + d.partial)
      && (o.Waiting? ==> d.pos + |d.ready| + o.left == to && d' == d.(ready := []))
      && (o.Refused? || o.FarSeek? ==> d' == d)
      && (o.Sought? ==> d'.pos == to && d'.last == d.last && d'.partial == d.partial
                        && d.pos + |d.ready| == d'.pos + |d'.ready|)
  {
  }

  /** A buffered seek is a file seek: with a fresh window, success puts the position on the
      target and leaves exactly the file from there on; every other exit leaves the position,
      and all but the waiting one leave the stream, as they were. */
  lemma BufferedSeekIsFileSeek(d: Deck, file: seq<byte>, to: int)
    requires Follows(d, file) && Fresh(d, file)
    ensures var (o, d') := Seek(d, |file|, to);
      && (o.Sought? ==> d'.pos == to && Follows(d', file))
      && (o.Refused? || o.FarSeek? ==> d' == d)
      && (o.Waiting? ==> d' == d.(ready := []) && d.pos + |d.ready| + o.left == to)
      && d'.last == d.last && d'.partial == d.partial
  {
    PrefixSlice(file, d.pos, d.ready);
    if 0 <= to < d.pos && d.pos - to < |d.last| {
      var m := d.pos - to;
      assert d.last[|d.last| - m..] == file[to..d.pos];
      assert file[to..d.pos] + file[d.pos..d.pos + |d.ready|] == file[to..d.pos + |d.ready|];
      SlicePrefix(file, to, d.pos + |d.ready|);
    } else if d.pos <= to <= d.pos + |d.ready| {
      assert d.ready[to - d.pos..] == file[to..d.pos + |d.ready|];
      SlicePrefix(file, to, d.pos + |d.ready|);
    }
  }

  datatype Result = Got(bytes: seq<byte>) | GaveUp

  /** decoder_read_buffer, when nothing else runs: the stream's end, or enough buffered bytes,
      or the wait loop gives up. */
  function Read(d: Deck, length: nat, bufSize: nat): (Result, Deck)
    requires d.pos <= length
  {
    var max := Min(bufSize, length - d.pos);
    if d.pos < length && (|d.ready| + d.partial < max || d.ready == []) then (GaveUp, d.(last := []))
    else
      var n := Min(max, |d.ready|);
      (Got(d.ready[..n]), Deck(d.pos + n, d.ready[..n], d.ready[n..], d.partial))
  }

  /** How a read ends, for every deck. Before the end of the stream it gives up exactly if fewer
      bytes are buffered than it asks for, which is the least of the caller's buffer and the rest of
      the stream, or none of them is ready. Otherwise it returns all it asks for, or else all that
      was ready, with the missing bytes in the unfinished chunk. */
  lemma ReadEnds(d: Deck, length: nat, bufSize: nat)
    requires d.pos <= length
    ensures var asked := if bufSize <= length - d.pos then bufSize else length - d.pos;
      var (r, d') := Read(d, length, bufSize);
      && (r.GaveUp? <==> d.pos < length && (|d.ready| + d.partial < asked || d.ready == []))
      && (r.GaveUp? ==> d' == d.(last := []))
      && (r.Got? ==>
            && |r.bytes| <= asked && |r.bytes| <= |d.ready| && r.bytes == d.ready[..|r.bytes|]
            && (|r.bytes| == asked || (r.bytes == d.ready && asked - |r.bytes| <= d.partial))
            && d' == Deck(d.pos + |r.bytes|, r.bytes, d.ready[|r.bytes|..], d.partial))
  {
  }

  /** A read returns the file's bytes at the position, moves past them, and leaves a fresh window
      whatever the window was before; giving up loses the window only. */
  lemma ReadReturnsFile(d: Deck, file: seq<byte>, bufSize: nat)
    requires Follows(d, file)
    ensures var (r, d') := Read(d, |file|, bufSize);
      && Follows(d', file) && d.pos + |d.ready| == d'.pos + |d'.ready|
      && (r.Got? ==> d'.pos == d.pos + |r.bytes| <= |file| && r.bytes == file[d.pos..d'.pos]
                     && |r.bytes| <= bufSize && Fresh(d', file))
      && (r.Got? && r.bytes == [] ==> bufSize == 0 || d.pos == |file|)
      && (r.GaveUp? ==> d' == d.(last := []))
  {
    PrefixSlice(file, d.pos, d.ready);
    var n := Min(Min(bufSize, |file| - d.pos), |d.ready|);
    assert d.ready[..n] == file[d.pos..d.pos + n];
    assert d.ready[n..] == file[d.pos + n..d.pos + |d.ready|];
    SlicePrefix(file, d.pos + n, d.pos + |d.ready|);
  }

  /** After a successful seek the next read returns the file's bytes at the target. */
  lemma ReadAfterSeek(d: Deck, file: seq<byte>, to: int, size: nat)
    requires Follows(d, file) && Fresh(d, file) && 0 <= to <= |file|
    requires Seek(d, |file|, to).0.Sought? && Seek(d, |file|, to).1.pos <= |file|
    requires Read(Seek(d, |file|, to).1, |file|, size).0.Got?
    ensures var r := Read(Seek(d, |file|, to).1, |file|, size).0.bytes;
      to + |r| <= |file| && r == file[to..to + |r|]
  {
    BufferedSeekIsFileSeek(d, file, to);
    ReadReturnsFile(Seek(d, |file|, to).1, file, size);
  }

  // ----- the window goes out of date -----

  /** The deck of a decoder that last read up to `end`, n bytes, and now stands at `pos` with the
      next k bytes ready. */
  function DeckOf(file: seq<byte>, pos: nat, n: nat, end: nat, k: nat): Deck
    requires n <= end <= |file| && pos + k <= |file|
  {
    Deck(pos, file[end - n..end], file[pos..pos + k], 0)
  }

  /** For every file that is long enough, the seek, if it succeeds, leaves the file from `to`. */
  ghost predicate RightForEveryFile(length: nat, pos: nat, n: nat, end: nat, k: nat, to: nat)
    requires n <= end <= length && pos + k <= length
  {
    forall file: seq<byte> :: |file| == length ==>
      var (o, d') := Seek(DeckOf(file, pos, n, end, k), length, to);
      o.Sought? ==> Follows(d', file)
  }

  /** A seek does not refresh the window. The push-back branch is right for every file exactly
      if the window still ends at the stream position; the other branches always are. */
  lemma SeekRightIffWindowFresh(length: nat, pos: nat, n: nat, end: nat, k: nat, to: nat)
    requires n <= end <= length && pos + k <= length
    ensures RightForEveryFile(length, pos, n, end, k, to)
      <==> (to < pos && pos - to < n && 0 < k ==> end == pos)
  {
    if to < pos && pos - to < n && 0 < k && end != pos {
      var file: seq<byte> := seq(length, i => if i == pos - 1 then 1 else 0);
      var d := DeckOf(file, pos, n, end, k);
      var (o, d') := Seek(d, length, to);
      var back := d.last[n - (pos - to)..];
      assert o.Sought? && d'.ready == back + d.ready && |back| == pos - to;
      assert back[pos - to - 1] == d.last[n - 1] == file[end - 1] == 0;
      assert d'.ready[pos - to - 1] == 0 && file[to..][pos - to - 1] == file[pos - 1] == 1;
      assert !Follows(d', file);
    } else {
      forall file: seq<byte> | |file| == length
        ensures var (o, d') := Seek(DeckOf(file, pos, n, end, k), length, to);
                o.Sought? ==> Follows(d', file)
      {
        OtherSeeksAreRight(file, pos, n, end, k, to);
      }
    }
  }

  lemma OtherSeeksAreRight(file: seq<byte>, pos: nat, n: nat, end: nat, k: nat, to: nat)
    requires n <= end <= |file| && pos + k <= |file|
    requires to < pos && pos - to < n && 0 < k ==> end == pos
    ensures var (o, d') := Seek(DeckOf(file, pos, n, end, k), |file|, to);
      o.Sought? ==> Follows(d', file)
  {
    var d := DeckOf(file, pos, n, end, k);
    SlicePrefix(file, pos, pos + k);
    if end == pos {
      BufferedSeekIsFileSeek(d, file, to);
    } else if pos <= to <= pos + k {
      assert d.ready[to - pos..] == file[to..pos + k];
      SlicePrefix(file, to, pos + k);
    }
  }

  /** The input that shows it: ten bytes read, a seek back to 5, then one to 3. The second seek
      reports success at position 3, where byte 8 now comes next instead of byte 3. */
  lemma SecondBackSeekGoesWrong()
    ensures var file: seq<byte> := [0, 1, 2, 3, 4, 5, 6, 7, 8, 9, 10, 11];
      var d0 := Deck(10, file[..10], file[10..], 0);
      var (o1, d1) := Seek(d0, 12, 5);
      var (o2, d2) := Seek(d1, 12, 3);
      && Follows(d0, file) && Fresh(d0, file)
      && o1 == Sought && Follows(d1, file)
      && o2 == Sought && d2.pos == 3 && d2.ready[0] == 8 && !Follows(d2, file)
  {
    var file: seq<byte> := [0, 1, 2, 3, 4, 5, 6, 7, 8, 9, 10, 11];
    var d0 := Deck(10, file[..10], file[10..], 0);
    var d1 := Seek(d0, 12, 5).1;
    assert file[..10][5..] == [5, 6, 7, 8, 9] && file[10..] == [10, 11];
    assert d1.ready == [5, 6, 7, 8, 9] + [10, 11];
    assert file[5..] == [5, 6, 7, 8, 9, 10, 11];
    var d2 := Seek(d1, 12, 3).1;
    assert file[..10][8..] == [8, 9] && d2.ready == [8, 9] + d1.ready;
    assert file[3..][0] == 3;
  }
}
