/** convert_base_64 of tag_lib_parser.cpp, which decodes the text of embedded cover art into a
    buffer, against section 4 of RFC 4648. The arithmetic stays within eight bits, so `bv8` is exact. */
module Base64 {
  const PAD: bv8 := 0x3d  // '='

  datatype Code = NoCode | Sextet(v: bv8)

  /** The decoding table. */
  function Lookup(p: bv8): Code {
    if 0x41 <= p <= 0x5a then Sextet(p - 0x41)
    else if 0x61 <= p <= 0x7a then Sextet(p - 0x61 + 26)
    else if 0x30 <= p <= 0x39 then Sextet(p - 0x30 + 52)
    else if p == 0x2b then Sextet(62)
    else if p == 0x2f then Sextet(63)
    else NoCode
  }

  /** Table 1 of section 4 of RFC 4648. */
  function Letter(v: bv8): bv8 {
    if v < 26 then 0x41 + v
    else if v < 52 then 0x61 + (v - 26)
    else if v < 62 then 0x30 + (v - 52)
    else if v == 62 then 0x2b
    else 0x2f
  }

  /** The table inverts the alphabet, and knows nothing else. */
  lemma LookupInvertsLetter(v: bv8, p: bv8)
    ensures v < 64 ==> Lookup(Letter(v)) == Sextet(v)
    ensures Lookup(p).Sextet? ==> Lookup(p).v < 64 && Letter(Lookup(p).v) == p
    ensures Lookup(PAD).NoCode? && Lookup(0).NoCode?
  {
  }

  // ----- what the loop computes -----

  /** The number of leading characters of the alphabet, up to a limit. */
  function Run(src: seq<bv8>, limit: nat): (k: nat)
    ensures k <= limit && k <= |src| && forall i :: 0 <= i < k ==> Lookup(src[i]).Sextet?
    ensures k < limit && k < |src| ==> Lookup(src[k]).NoCode?
  {
    if limit == 0 || src == [] || Lookup(src[0]).NoCode? then 0 else 1 + Run(src[1..], limit - 1)
  }

  lemma {:induction false} RunIs(src: seq<bv8>, limit: nat, k: nat)
    requires k <= limit && k <= |src| && forall i :: 0 <= i < k ==> Lookup(src[i]).Sextet?
    requires k == limit || k == |src| || Lookup(src[k]).NoCode?
    ensures Run(src, limit) == k
  {
    if k == 0 {
    } else {
      RunIs(src[1..], limit - 1, k - 1);
    }
  }

  predicate Letters(src: seq<bv8>) {
    forall i :: 0 <= i < |src| ==> Lookup(src[i]).Sextet?
  }

  function Sextets(src: seq<bv8>): (s: seq<bv8>)
    requires Letters(src)
    ensures |s| == |src| && forall i :: 0 <= i < |s| ==> s[i] == Lookup(src[i]).v
  {
    seq(|src|, i requires 0 <= i < |src| => Lookup(src[i]).v)
  }

  // What the switch writes on levels 1, 2 and 3.
  function Write1(last: bv8, c: bv8): bv8 { (last << 2) | ((c >> 4) & 0x03) }
  function Write2(last: bv8, c: bv8): bv8 { ((last << 4) & 0xf0) | ((c >> 2) & 0x0f) }
  function Write3(last: bv8, c: bv8): bv8 { ((last & 0x03) << 6) | c }

  /** Octet i lies across sextets i/3*4 + i%3 and the next one. */
  function From(i: nat): (k: nat)
    ensures forall n: nat :: i < 3 * n / 4 ==> k + 1 < n
  {
    i / 3 * 4 + i % 3
  }

  function OctetAt(s: seq<bv8>, i: nat): bv8
    requires i < 3 * |s| / 4
  {
    var a, b := s[From(i)], s[From(i) + 1];
    if i % 3 == 0 then Write1(a, b) else if i % 3 == 1 then Write2(a, b) else Write3(a, b)
  }

  /** Section 4 of RFC 4648: four sextets are three octets, and two or three sextets at the end
      are the one or two octets that they complete. */
  function Decode(s: seq<bv8>): (r: seq<bv8>)
    ensures |r| == 3 * |s| / 4
  {
    seq(3 * |s| / 4, i requires 0 <= i < 3 * |s| / 4 => OctetAt(s, i))
  }

  // ----- encoding, and what the decoder is for -----

  // The 24 bits of three octets, and the four sextets of 24 bits.
  function Group(x: bv8, y: bv8, z: bv8): bv24 { ((x as bv24) << 16) | ((y as bv24) << 8) | (z as bv24) }
  function Sextet0(g: bv24): bv8 { ((g >> 18) & 0x3f) as bv8 }
  function Sextet1(g: bv24): bv8 { ((g >> 12) & 0x3f) as bv8 }
  function Sextet2(g: bv24): bv8 { ((g >> 6) & 0x3f) as bv8 }
  function Sextet3(g: bv24): bv8 { (g & 0x3f) as bv8 }

  /** Section 4 of RFC 4648: groups of three octets, padded with "=" at the end. */
  function Encode(s: seq<bv8>): seq<bv8> {
    if s == [] then []
    else if |s| == 1 then
      var g := Group(s[0], 0, 0); [Letter(Sextet0(g)), Letter(Sextet1(g)), PAD, PAD]
    else if |s| == 2 then
      var g := Group(s[0], s[1], 0); [Letter(Sextet0(g)), Letter(Sextet1(g)), Letter(Sextet2(g)), PAD]
    else
      var g := Group(s[0], s[1], s[2]);
      [Letter(Sextet0(g)), Letter(Sextet1(g)), Letter(Sextet2(g)), Letter(Sextet3(g))] + Encode(s[3..])
  }

  /** The letters that stand for three octets, and what the switch makes of them. */
  lemma GroupSurvives(x: bv8, y: bv8, z: bv8)
    ensures var g := Group(x, y, z);
      && Sextet0(g) < 64 && Sextet1(g) < 64 && Sextet2(g) < 64 && Sextet3(g) < 64
      && Write1(Sextet0(g), Sextet1(g)) == x
      && Write2(Sextet1(g), Sextet2(g)) == y
      && Write3(Sextet2(g), Sextet3(g)) == z
  {
  }

  lemma LettersOf(g: bv24)
    requires Sextet0(g) < 64 && Sextet1(g) < 64 && Sextet2(g) < 64 && Sextet3(g) < 64
    ensures Lookup(Letter(Sextet0(g))) == Sextet(Sextet0(g)) && Lookup(Letter(Sextet1(g))) == Sextet(Sextet1(g))
    ensures Lookup(Letter(Sextet2(g))) == Sextet(Sextet2(g)) && Lookup(Letter(Sextet3(g))) == Sextet(Sextet3(g))
    ensures Lookup(PAD) == NoCode
  {
    LookupInvertsLetter(Sextet0(g), PAD);
    LookupInvertsLetter(Sextet1(g), PAD);
    LookupInvertsLetter(Sextet2(g), PAD);
    LookupInvertsLetter(Sextet3(g), PAD);
  }

  /** What the decoder makes of a text, given room for `room` bytes. */
  function Decoded(src: seq<bv8>, room: nat): seq<bv8> {
    Decode(Sextets(src[..Run(src, room)]))
  }

  lemma DecodeGroup(s: seq<bv8>)
    requires 4 <= |s|
    ensures Decode(s) == [Write1(s[0], s[1]), Write2(s[1], s[2]), Write3(s[2], s[3])] + Decode(s[4..])
  {
    var rest := s[4..];
    assert |Decode(s)| == 3 + |Decode(rest)|;
    forall i | 3 <= i < |Decode(s)|
      ensures Decode(s)[i] == Decode(rest)[i - 3]
    {
      assert From(i) == From(i - 3) + 4;
    }
    assert From(0) == 0 && From(1) == 1 && From(2) == 2;
  }

  /** A group of four letters decodes on its own. */
  lemma DecodedGroup(l: seq<bv8>, v: seq<bv8>, rest: seq<bv8>, room: nat)
    requires |l| == |v| == 4 <= room && forall i :: 0 <= i < 4 ==> Lookup(l[i]) == Sextet(v[i])
    ensures Decoded(l + rest, room) ==
      [Write1(v[0], v[1]), Write2(v[1], v[2]), Write3(v[2], v[3])] + Decoded(rest, room - 4)
  {
    GroupSextets(l, v, rest, room);
    var tail := Sextets(rest[..Run(rest, room - 4)]);
    DecodeGroup(v + tail);
    assert (v + tail)[4..] == tail;
  }

  /** The leading run of letters of a text that begins with four of them. */
  lemma GroupSextets(l: seq<bv8>, v: seq<bv8>, rest: seq<bv8>, room: nat)
    requires |l| == |v| == 4 <= room && forall i :: 0 <= i < 4 ==> Lookup(l[i]) == Sextet(v[i])
    ensures Sextets((l + rest)[..Run(l + rest, room)]) == v + Sextets(rest[..Run(rest, room - 4)])
  {
    var src, k := l + rest, Run(rest, room - 4);
    forall i | 0 <= i < 4 + k
      ensures Lookup(src[i]).Sextet?
    {
      if i < 4 { assert Lookup(l[i]) == Sextet(v[i]); } else { assert src[i] == rest[i - 4]; }
    }
    RunIs(src, room, 4 + k);
  }

  lemma {:induction false} EncodedLength(s: seq<bv8>)
    ensures |Encode(s)| == (|s| + 2) / 3 * 4
  {
    if |s| < 3 {
    } else {
      EncodedLength(s[3..]);
    }
  }

  predicate Survives(s: seq<bv8>, room: nat) {
    Decoded(Encode(s), room) == s
  }

  /** Every byte sequence survives: encoded as section 4 of RFC 4648 says, padding included, and
      decoded into a buffer at least as long as the text, it comes back. */
  lemma {:induction false} RoundTrip(s: seq<bv8>, room: nat)
    requires (|s| + 2) / 3 * 4 <= room
    ensures Survives(s, room)
    decreases |s|
  {
    if |s| == 1 {
      assert s == [s[0]];
      OneOctet(s[0], room);
    } else if |s| == 2 {
      assert s == [s[0], s[1]];
      TwoOctets(s[0], s[1], room);
    } else if s != [] {
      var rest := s[3..];
      assert s == [s[0], s[1], s[2]] + rest;
      RoundTrip(rest, room - 4);
      ThreeOctets(s[0], s[1], s[2], rest, room);
    }
  }

  lemma ThreeOctets(x: bv8, y: bv8, z: bv8, rest: seq<bv8>, room: nat)
    requires 4 <= room && Survives(rest, room - 4)
    ensures Survives([x, y, z] + rest, room)
  {
    var s := [x, y, z] + rest;
    var g := Group(x, y, z);
    var l := [Letter(Sextet0(g)), Letter(Sextet1(g)), Letter(Sextet2(g)), Letter(Sextet3(g))];
    assert s[3..] == rest && s[0] == x && s[1] == y && s[2] == z;
    assert Encode(s) == l + Encode(rest);
    GroupSurvives(x, y, z);
    LettersOf(g);
    DecodedGroup(l, [Sextet0(g), Sextet1(g), Sextet2(g), Sextet3(g)], Encode(rest), room);
  }

  lemma OneOctet(x: bv8, room: nat)
    requires 4 <= room
    ensures Survives([x], room)
  {
    var g := Group(x, 0, 0);
    GroupSurvives(x, 0, 0);
    LettersOf(g);
    var e := Encode([x]);
    RunIs(e, room, 2);
    assert Sextets(e[..2]) == [Sextet0(g), Sextet1(g)];
  }

  lemma TwoOctets(x: bv8, y: bv8, room: nat)
    requires 4 <= room
    ensures Survives([x, y], room)
  {
    var g := Group(x, y, 0);
    GroupSurvives(x, y, 0);
    LettersOf(g);
    var e := Encode([x, y]);
    RunIs(e, room, 3);
    assert Sextets(e[..3]) == [Sextet0(g), Sextet1(g), Sextet2(g)];
  }

  // ----- the loop -----

  /** What one more sextet adds: nothing on level 0, one byte on the others. */
  function Adds(level: nat, last: bv8, c: bv8): seq<bv8> {
    if level == 0 then [] else if level == 1 then [Write1(last, c)]
    else if level == 2 then [Write2(last, c)] else [Write3(last, c)]
  }

  lemma DecodeSnoc(s: seq<bv8>, groups: nat, level: nat, last: bv8, c: bv8)
    requires |s| == 4 * groups + level && level < 4
    requires s != [] ==> last == s[|s| - 1]
    ensures Decode(s + [c]) == Decode(s) + Adds(level, last, c)
  {
    var n := |Decode(s)|;
    assert n == 3 * groups + (if level == 0 then 0 else level - 1);
    assert |Decode(s + [c])| == n + |Adds(level, last, c)|;
    forall i | 0 <= i < n
      ensures OctetAt(s + [c], i) == OctetAt(s, i)
    {
      assert From(i) + 1 < |s|;
    }
  }

  predicate ReadAt(src: seq<bv8>, read: seq<bv8>, i: nat) {
    i < |src| && i < |read| && Lookup(src[i]) == Sextet(read[i])
  }

  lemma ReadMore(src: seq<bv8>, read: seq<bv8>, c: bv8)
    requires |read| < |src| && Lookup(src[|read|]) == Sextet(c)
    requires forall i: nat {:trigger ReadAt(src, read, i)} :: i < |read| ==> ReadAt(src, read, i)
    ensures forall i: nat {:trigger ReadAt(src, read + [c], i)} :: i < |read| + 1 ==> ReadAt(src, read + [c], i)
  {
    forall i: nat | i < |read| + 1
      ensures ReadAt(src, read + [c], i)
    {
      if i < |read| { assert ReadAt(src, read, i); }
    }
  }

  lemma AllRead(src: seq<bv8>, read: seq<bv8>, limit: nat)
    requires |read| <= |src| && |read| <= limit
    requires forall i: nat {:trigger ReadAt(src, read, i)} :: i < |read| ==> ReadAt(src, read, i)
    requires |read| == limit || |read| == |src| || Lookup(src[|read|]).NoCode?
    ensures Run(src, limit) == |read| && Sextets(src[..|read|]) == read
  {
    forall i | 0 <= i < |read|
      ensures Lookup(src[i]) == Sextet(read[i])
    {
      assert ReadAt(src, read, i);
    }
    RunIs(src, limit, |read|);
  }

  /** Decodes into dst and returns the length that dst is cut to. A text ends at its end, at a
      zero byte, at any character outside the alphabet, or when as many characters are read as
      dst has room for. */
  method ConvertBase64(dst: array<bv8>, src: seq<bv8>) returns (n: nat)
    modifies dst
    ensures n <= dst.Length && dst[..n] == Decoded(src, dst.Length)
    ensures n == 3 * Run(src, dst.Length) / 4
    ensures forall i :: n <= i < dst.Length ==> dst[i] == old(dst[i])
  {
    var level: nat, last: bv8, idx := 0, 0, 0;
    n := 0;
    ghost var read: seq<bv8>, groups: nat := [], 0;
    while idx != dst.Length && idx < |src| && src[idx] != 0
      invariant |read| == idx <= |src| && idx <= dst.Length && (read != [] ==> last == read[idx - 1])
      invariant level < 4 && idx == 4 * groups + level && n == 3 * groups + (if level == 0 then 0 else level - 1)
      invariant forall i: nat {:trigger ReadAt(src, read, i)} :: i < idx ==> ReadAt(src, read, i)
      invariant dst[..n] == Decode(read)
      invariant forall i :: n <= i < dst.Length ==> dst[i] == old(dst[i])
      decreases dst.Length - idx
    {
      var code := Lookup(src[idx]);
      if code.NoCode? {
        break;
      }
      var c := code.v;
      DecodeSnoc(read, groups, level, last, c);
      match level {
        case 0 =>
          level := level + 1;
        case 1 =>
          n := Store(dst, n, Write1(last, c));
          level := level + 1;
        case 2 =>
          n := Store(dst, n, Write2(last, c));
          level := level + 1;
        case _ =>
          n := Store(dst, n, Write3(last, c));
          level := 0;
          groups := groups + 1;
      }
      last := c;
      idx := idx + 1;
      ReadMore(src, read, c);
      read := read + [c];
    }
    AllRead(src, read, dst.Length);
  }

  /** *p_dst++ = b */
  method Store(dst: array<bv8>, at: nat, b: bv8) returns (next: nat)
    requires at < dst.Length
    modifies dst
    ensures next == at + 1 && dst[..next] == old(dst[..at]) + [b]
    ensures forall i :: next <= i < dst.Length ==> dst[i] == old(dst[i])
  {
    dst[at] := b;
    next := at + 1;
  }
}
