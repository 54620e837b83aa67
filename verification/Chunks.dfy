/** Chunk frames on a path stream: writing them, reading them back, and what any cut of the stream leaves. */
module Chunks {
  import opened Bytes
  import opened Streams
  import Crc

  datatype Chunk = Chunk(
    number: U64,      // position within its burst (the source's Seq)
    offset: U64,      // byte offset within its burst
    burstId: U64,
    burstBytes: U64,  // size of that whole burst
    checksum: U32,
    data: seq<Byte>)
  {
    predicate VerifyChecksum() {
      Crc.Checksum(data) == checksum
    }

    /** The chunk as WriteChunk sends it: with the checksum of its data. */
    function Stamped(): Chunk {
      this.(checksum := Crc.Checksum(data))
    }
  }

  const HEADER: nat := 40

  function Header(c: Chunk): (r: seq<Byte>)
    ensures |r| == HEADER
  {
    Encode(c.number, 8) + Encode(c.offset, 8) + Encode(c.burstId, 8) + Encode(c.burstBytes, 8)
    + Encode(|c.data|, 4) + Encode(c.checksum, 4)
  }

  /** The bytes of one frame, with the checksum c carries. */
  function Frame(c: Chunk): (r: seq<Byte>)
    ensures |r| == HEADER + |c.data|
  {
    Header(c) + c.data
  }

  method WriteChunk(w: Writer, c: Chunk)
    modifies w
    ensures w.written == old(w.written) + Frame(c.Stamped())
    ensures
      var at := |old(w.written)|;
      && HoldsAt(w.written, at, 8, c.number) && HoldsAt(w.written, at + 8, 8, c.offset)
      && HoldsAt(w.written, at + 16, 8, c.burstId) && HoldsAt(w.written, at + 24, 8, c.burstBytes)
      && HoldsAt(w.written, at + 32, 4, |c.data|) && HoldsAt(w.written, at + 36, 4, Crc.Checksum(c.data))
      && w.written[at + 40..] == c.data
  {
    hide HoldsAt;
    FrameLayout(w.written, c.Stamped());
    var number, offset := Encode(c.number, 8), Encode(c.offset, 8);
    var burstId, burstBytes := Encode(c.burstId, 8), Encode(c.burstBytes, 8);
    var length, checksum := Encode(|c.data|, 4), Encode(Crc.Checksum(c.data), 4);
    w.Write(number);
    w.Write(offset);
    w.Write(burstId);
    w.Write(burstBytes);
    w.Write(length);
    w.Write(checksum);
    w.Write(c.data);
    SevenWrites(old(w.written), number, offset, burstId, burstBytes, length, checksum, c.data);
  }

  /** What stands where in a frame. */
  lemma FrameLayout(before: seq<Byte>, c: Chunk)
    ensures
      var t := before + Frame(c);
      var at := |before|;
      && HoldsAt(t, at, 8, c.number) && HoldsAt(t, at + 8, 8, c.offset)
      && HoldsAt(t, at + 16, 8, c.burstId) && HoldsAt(t, at + 24, 8, c.burstBytes)
      && HoldsAt(t, at + 32, 4, |c.data|) && HoldsAt(t, at + 36, 4, c.checksum)
      && t[at + 40..] == c.data
  {
    hide HoldsAt, Encode;
    var t, at, s := before + Frame(c), |before|, Frame(c);
    assert s[..HEADER] == Header(c);
    HeaderFields(c, s);
    SliceAfter(before, s);
    EncodeHolds(t, at, 8, c.number);
    EncodeHolds(t, at + 8, 8, c.offset);
    EncodeHolds(t, at + 16, 8, c.burstId);
    EncodeHolds(t, at + 24, 8, c.burstBytes);
    EncodeHolds(t, at + 32, 4, |c.data|);
    EncodeHolds(t, at + 36, 4, c.checksum);
  }

  lemma SliceAfter(before: seq<Byte>, s: seq<Byte>)
    requires |s| >= HEADER
    ensures
      var t := before + s;
      var at := |before|;
      && t[at..at + 8] == s[0..8] && t[at + 8..at + 16] == s[8..16] && t[at + 16..at + 24] == s[16..24]
      && t[at + 24..at + 32] == s[24..32] && t[at + 32..at + 36] == s[32..36] && t[at + 36..at + 40] == s[36..40]
      && t[at + 40..] == s[40..]
  {
  }

  lemma SevenWrites(w: seq<Byte>, a: seq<Byte>, b: seq<Byte>, c: seq<Byte>, d: seq<Byte>, e: seq<Byte>, f: seq<Byte>,
                    g: seq<Byte>)
    ensures w + a + b + c + d + e + f + g == w + ((a + b + c + d + e + f) + g)
  {
  }

  // ---- Reading one frame ----

  /** The offsets within a frame at which one field ends and the next begins. */
  predicate FieldBoundary(k: nat) {
    k == 0 || k == 8 || k == 16 || k == 24 || k == 32 || k == 36 || k == 40
  }

  function ShortFrame(k: nat): Error {
    if FieldBoundary(k) then EndOfStream else UnexpectedEnd
  }

  /** The length field of a frame at the front of s. */
  function LengthField(s: seq<Byte>): (r: U32)
    requires |s| >= HEADER
  {
    Decode32(s[32..36])
  }

  /** A whole frame lies at the front of s. */
  predicate HasFrame(s: seq<Byte>) {
    |s| >= HEADER && |s| >= HEADER + LengthField(s)
  }

  /** The header at the front of s, as a chunk without data. */
  function HeaderAt(s: seq<Byte>): (c: Chunk)
    requires |s| >= HEADER
  {
    Chunk(Decode64(s[0..8]), Decode64(s[8..16]), Decode64(s[16..24]), Decode64(s[24..32]), Decode32(s[36..40]), [])
  }

  function FrameAt(s: seq<Byte>): (c: Chunk)
    requires HasFrame(s)
    ensures HEADER + |c.data| <= |s|
  {
    HeaderAt(s).(data := s[HEADER..HEADER + LengthField(s)])
  }

  method ReadHeader(r: Reader) returns (res: Result<Chunk>, length: U32)
    modifies r
    ensures res.Ok? <==> |old(r.rest)| >= HEADER
    ensures res.Ok? ==> res.value == HeaderAt(old(r.rest)) && length == LengthField(old(r.rest))
    ensures res.Ok? ==> r.rest == old(r.rest)[HEADER..]
    ensures res.Err? ==> res.error == ShortFrame(|old(r.rest)|) && r.rest == []
  {
    var s := r.rest;
    length := 0;
    var number := r.ReadFull(8);
    if number.Err? { return Err(number.error), 0; }
    var offset := r.ReadFull(8);
    if offset.Err? { return Err(offset.error), 0; }
    var burstId := r.ReadFull(8);
    if burstId.Err? { return Err(burstId.error), 0; }
    var burstBytes := r.ReadFull(8);
    if burstBytes.Err? { return Err(burstBytes.error), 0; }
    var n := r.ReadFull(4);
    if n.Err? { return Err(n.error), 0; }
    var checksum := r.ReadFull(4);
    if checksum.Err? { return Err(checksum.error), 0; }
    FieldSlices(s);
    length := Decode32(n.value);
    res := Ok(Chunk(Decode64(number.value), Decode64(offset.value), Decode64(burstId.value), Decode64(burstBytes.value),
                    Decode32(checksum.value), []));
  }

  /**
   Reads the fields one after another. A whole frame at the front is taken off the stream; otherwise the
   stream is used up, and the error is the plain one exactly when the bytes ran out between two fields.
   */
  method ReadChunk(r: Reader) returns (res: Result<Chunk>)
    modifies r
    ensures res.Ok? <==> HasFrame(old(r.rest))
    ensures res.Ok? ==> res.value == FrameAt(old(r.rest)) && r.rest == old(r.rest)[HEADER + |res.value.data|..]
    ensures res.Ok? ==>
              var s := old(r.rest);
              && res.value.number == BigEndian(s[0..8]) && res.value.offset == BigEndian(s[8..16])
              && res.value.burstId == BigEndian(s[16..24]) && res.value.burstBytes == BigEndian(s[24..32])
              && |res.value.data| == BigEndian(s[32..36]) && res.value.checksum == BigEndian(s[36..40])
              && res.value.data == s[40..40 + |res.value.data|]
    ensures res.Err? ==>
              && r.rest == []
              && res.error == if |old(r.rest)| in {0, 8, 16, 24, 32, 36, 40} then EndOfStream else UnexpectedEnd
  {
    var s := r.rest;
    var header, n := ReadHeader(r);
    if header.Err? { return header; }
    var data := r.ReadFull(n);
    if data.Err? { return Err(data.error); }
    assert data.value == s[HEADER..HEADER + n];
    assert r.rest == s[HEADER + |data.value|..];
    FrameReading(s);
    res := Ok(header.value.(data := data.value));
  }

  /** What a frame at the front of a stream says. */
  lemma FrameReading(s: seq<Byte>)
    requires HasFrame(s)
    ensures
      var c := FrameAt(s);
      && c.number == BigEndian(s[0..8]) && c.offset == BigEndian(s[8..16])
      && c.burstId == BigEndian(s[16..24]) && c.burstBytes == BigEndian(s[24..32])
      && |c.data| == BigEndian(s[32..36]) && c.checksum == BigEndian(s[36..40])
      && c.data == s[40..40 + |c.data|]
  {
    hide Decode, BigEndian;
    DecodeIsBigEndian(s[0..8]);
    DecodeIsBigEndian(s[8..16]);
    DecodeIsBigEndian(s[16..24]);
    DecodeIsBigEndian(s[24..32]);
    DecodeIsBigEndian(s[32..36]);
    DecodeIsBigEndian(s[36..40]);
  }

  /** Taking the fields off one after another takes these slices. */
  lemma FieldSlices(s: seq<Byte>)
    requires |s| >= HEADER
    ensures s[8..][..8] == s[8..16] && s[8..][8..] == s[16..]
    ensures s[16..][..8] == s[16..24] && s[16..][8..] == s[24..]
    ensures s[24..][..8] == s[24..32] && s[24..][8..] == s[32..]
    ensures s[32..][..4] == s[32..36] && s[32..][4..] == s[36..]
    ensures s[36..][..4] == s[36..40] && s[36..][4..] == s[40..]
    ensures s[..8] == s[0..8]
  {
  }

  // ---- A frame and its reading are inverse ----

  lemma HeaderFields(c: Chunk, s: seq<Byte>)
    requires |s| >= HEADER && s[..HEADER] == Header(c)
    ensures s[0..8] == Encode(c.number, 8) && s[8..16] == Encode(c.offset, 8)
    ensures s[16..24] == Encode(c.burstId, 8) && s[24..32] == Encode(c.burstBytes, 8)
    ensures s[32..36] == Encode(|c.data|, 4) && s[36..40] == Encode(c.checksum, 4)
  {
    var h := Header(c);
    assert s[0..8] == h[0..8] && s[8..16] == h[8..16] && s[16..24] == h[16..24];
    assert s[24..32] == h[24..32] && s[32..36] == h[32..36] && s[36..40] == h[36..40];
  }

  lemma HeaderDecodes(c: Chunk, s: seq<Byte>)
    requires |s| >= HEADER && s[..HEADER] == Header(c)
    ensures LengthField(s) == |c.data| % U32_LIMIT
    ensures HasFrame(s) ==>
              FrameAt(s) == Chunk(c.number, c.offset, c.burstId, c.burstBytes, c.checksum,
                s[HEADER..HEADER + LengthField(s)])
  {
    HeaderFields(c, s);
    Widths();
    Fits(c.number, 8);
    Fits(c.offset, 8);
    Fits(c.burstId, 8);
    Fits(c.burstBytes, 8);
    DecodeOfEncode(|c.data|, 4);
    Fits(c.checksum, 4);
  }

  /** A frame is read back as it was written exactly when its length fits the length field. */
  lemma FrameRoundTrip(c: Chunk, rest: seq<Byte>)
    ensures HasFrame(Frame(c) + rest)
    ensures FrameAt(Frame(c) + rest) == c <==> |c.data| < U32_LIMIT
  {
    var s := Frame(c) + rest;
    assert s[..HEADER] == Header(c);
    HeaderDecodes(c, s);
    assert |c.data| < U32_LIMIT ==> s[HEADER..HEADER + LengthField(s)] == c.data;
  }

  /** Whatever is read as a frame re-encodes to the bytes it was read from. */
  lemma ReadIsFrame(s: seq<Byte>)
    requires HasFrame(s)
    ensures |FrameAt(s).data| < U32_LIMIT
    ensures s == Frame(FrameAt(s)) + s[HEADER + |FrameAt(s).data|..]
  {
    HeaderOfRead(s, FrameAt(s));
    PrefixAndRest(s, HEADER, HEADER + LengthField(s));
  }

  lemma HeaderOfRead(s: seq<Byte>, c: Chunk)
    requires HasFrame(s) && c == FrameAt(s)
    ensures |c.data| == LengthField(s)
    ensures Header(c) == s[..HEADER]
  {
    EncodeOfDecode(s[0..8]);
    EncodeOfDecode(s[8..16]);
    EncodeOfDecode(s[16..24]);
    EncodeOfDecode(s[24..32]);
    EncodeOfDecode(s[32..36]);
    EncodeOfDecode(s[36..40]);
    SixSlices(s);
  }

  lemma SixSlices(s: seq<Byte>)
    requires |s| >= HEADER
    ensures s[0..8] + s[8..16] + s[16..24] + s[24..32] + s[32..36] + s[36..40] == s[..HEADER]
  {
  }

  lemma PrefixAndRest(s: seq<Byte>, a: nat, b: nat)
    requires a <= b <= |s|
    ensures s == (s[..a] + s[a..b]) + s[b..]
  {
  }

  // ---- Reading until the stream ends ----

  /** Every chunk the read loop gets from s, and the error that ends it. */
  function ReadAll(s: seq<Byte>): (seq<Chunk>, Error)
    decreases |s|
  {
    if HasFrame(s) then
      var c := FrameAt(s);
      var (cs, e) := ReadAll(s[HEADER + |c.data|..]);
      ([c] + cs, e)
    else
      ([], ShortFrame(|s|))
  }

  function Frames(cs: seq<Chunk>): seq<Byte> {
    if cs == [] then [] else Frame(cs[0]) + Frames(cs[1..])
  }

  predicate FitFrames(cs: seq<Chunk>) {
    forall i | 0 <= i < |cs| :: |cs[i].data| < U32_LIMIT
  }

  lemma {:induction false} FramesAppend(cs: seq<Chunk>, ds: seq<Chunk>)
    ensures Frames(cs + ds) == Frames(cs) + Frames(ds)
  {
    if cs == [] {
      assert cs + ds == ds;
    } else {
      assert (cs + ds)[1..] == cs[1..] + ds;
      FramesAppend(cs[1..], ds);
    }
  }

  lemma ReadAllStep(c: Chunk, tail: seq<Byte>)
    requires |c.data| < U32_LIMIT
    ensures ReadAll(Frame(c) + tail) == ([c] + ReadAll(tail).0, ReadAll(tail).1)
  {
    FrameRoundTrip(c, tail);
    assert (Frame(c) + tail)[HEADER + |c.data|..] == tail;
  }

  /** Frames at the front of a stream are read first, whatever follows them. */
  lemma {:induction false} ReadAllThrough(cs: seq<Chunk>, rest: seq<Byte>)
    requires FitFrames(cs)
    ensures ReadAll(Frames(cs) + rest) == (cs + ReadAll(rest).0, ReadAll(rest).1)
  {
    if cs == [] {
      AppendNothing(rest);
      AppendNothing(ReadAll(rest).0);
    } else {
      var c, ds := cs[0], cs[1..];
      AppendAssociative(Frame(c), Frames(ds), rest);
      ReadAllStep(c, Frames(ds) + rest);
      ReadAllThrough(ds, rest);
      AppendAssociative([c], ds, ReadAll(rest).0);
      assert cs == [c] + ds;
    }
  }

  /** Reading until the end returns exactly the chunks written, in order, and then the plain end. */
  lemma StreamRoundTrip(cs: seq<Chunk>)
    requires FitFrames(cs)
    ensures ReadAll(Frames(cs)) == (cs, EndOfStream)
  {
    ReadAllThrough(cs, []);
    assert Frames(cs) + [] == Frames(cs);
    assert cs + [] == cs;
  }

  /** Any byte string is the frames of what the read loop gets from it, followed by less than one frame. */
  lemma {:induction false} ReadAllDecomposes(s: seq<Byte>)
    ensures FitFrames(ReadAll(s).0)
    ensures |Frames(ReadAll(s).0)| <= |s|
    ensures s[..|Frames(ReadAll(s).0)|] == Frames(ReadAll(s).0)
    ensures !HasFrame(s[|Frames(ReadAll(s).0)|..])
    decreases |s|
  {
    if HasFrame(s) {
      var c := FrameAt(s);
      var t := s[HEADER + |c.data|..];
      ReadIsFrame(s);
      ReadAllDecomposes(t);
      assert ReadAll(s).0[1..] == ReadAll(t).0;
      PrefixOfAppend(Frame(c), t, Frames(ReadAll(t).0));
    }
  }

  lemma PrefixOfAppend(a: seq<Byte>, t: seq<Byte>, b: seq<Byte>)
    requires |b| <= |t| && t[..|b|] == b
    ensures (a + t)[..|a + b|] == a + b
    ensures (a + t)[|a + b|..] == t[|b|..]
  {
  }

  /** Inside one frame there is no whole frame, and the kind of end depends only on where the cut falls. */
  lemma CutFrame(c: Chunk, k: nat)
    requires |c.data| < U32_LIMIT && k < HEADER + |c.data|
    ensures ReadAll(Frame(c)[..k]) == ([], ShortFrame(k))
  {
    var s := Frame(c)[..k];
    if k >= HEADER {
      assert s[..HEADER] == Header(c);
      HeaderDecodes(c, s);
    }
  }

  /**
   Truncation: cut an encoded stream anywhere. If j whole frames lie before the cut, the read loop yields
   exactly those, and it ends plainly if and only if the cut falls on a field boundary of the next frame.
   */
  lemma Truncation(cs: seq<Chunk>, k: nat, j: nat)
    requires FitFrames(cs) && k <= |Frames(cs)| && j <= |cs|
    requires |Frames(cs[..j])| <= k
    requires j < |cs| ==> k < |Frames(cs[..j + 1])|
    ensures ReadAll(Frames(cs)[..k]).0 == cs[..j]
    ensures ReadAll(Frames(cs)[..k]).1 == EndOfStream <==> FieldBoundary(k - |Frames(cs[..j])|)
    ensures ReadAll(Frames(cs)[..k]).1 in {EndOfStream, UnexpectedEnd}
  {
    hide Frames, ReadAll, FieldBoundary;
    var before, after := cs[..j], cs[j..];
    var left := k - |Frames(before)|;
    assert cs == before + after;
    FramesAppend(before, after);
    PrefixThrough(Frames(before), Frames(after), left);
    if j < |cs| {
      NextFrameEnds(cs, j);
    }
    CutTail(after, left);
    ReadAllThrough(before, Frames(after)[..left]);
    AppendNothing(before);
  }

  lemma NextFrameEnds(cs: seq<Chunk>, j: nat)
    requires j < |cs|
    ensures |Frames(cs[..j + 1])| == |Frames(cs[..j])| + |Frame(cs[j])|
  {
    assert cs[..j + 1] == cs[..j] + [cs[j]];
    FramesAppend(cs[..j], [cs[j]]);
    FramesOfOne(cs[j]);
  }

  lemma CutTail(cs: seq<Chunk>, k: nat)
    requires FitFrames(cs) && k <= |Frames(cs)| && (cs != [] ==> k < |Frame(cs[0])|)
    ensures ReadAll(Frames(cs)[..k]) == ([], ShortFrame(k))
  {
    if cs != [] {
      PrefixWithin(Frame(cs[0]), Frames(cs[1..]), k);
      CutFrame(cs[0], k);
    }
  }

  lemma FramesOfOne(c: Chunk)
    ensures Frames([c]) == Frame(c)
  {
    AppendNothing(Frame(c));
    assert [c][1..] == [];
  }

  lemma PrefixThrough(a: seq<Byte>, b: seq<Byte>, n: nat)
    requires n <= |b|
    ensures (a + b)[..|a| + n] == a + b[..n]
  {
  }

  lemma PrefixWithin(a: seq<Byte>, b: seq<Byte>, n: nat)
    requires n <= |a|
    ensures (a + b)[..n] == a[..n]
  {
  }

  /** Every cut has such a j: the number of whole frames before it. */
  function WholeFrames(cs: seq<Chunk>, k: nat): (j: nat)
    requires k <= |Frames(cs)|
    ensures j <= |cs| && |Frames(cs[..j])| <= k
    ensures j < |cs| ==> k < |Frames(cs[..j + 1])|
  {
    if cs == [] || k < |Frame(cs[0])| then
      assert cs[..0] == [];
      assert cs != [] ==> cs[..1] == [cs[0]] && Frames([cs[0]]) == Frame(cs[0]) + Frames([cs[0]][1..]);
      0
    else
      var j := 1 + WholeFrames(cs[1..], k - |Frame(cs[0])|);
      assert cs[..j] == [cs[0]] + cs[1..][..j - 1] && cs[..j][1..] == cs[1..][..j - 1];
      assert j < |cs| ==> cs[..j + 1][1..] == cs[1..][..j];
      j
  }

  /** If a cut of some frames shows a whole frame, it is the first of them. */
  lemma FirstFrame(cs: seq<Chunk>, k: nat)
    requires FitFrames(cs) && k <= |Frames(cs)|
    requires HasFrame(Frames(cs)[..k])
    ensures cs != [] && |Frame(cs[0])| <= k && FrameAt(Frames(cs)[..k]) == cs[0]
  {
    if cs == [] || k < |Frame(cs[0])| {
      CutTail(cs, k);
    }
    var left := k - |Frame(cs[0])|;
    PrefixThrough(Frame(cs[0]), Frames(cs[1..]), left);
    FrameRoundTrip(cs[0], Frames(cs[1..])[..left]);
  }

  /** Some frames show no whole frame only if there are none. */
  lemma NoFrameNoChunks(cs: seq<Chunk>)
    requires FitFrames(cs) && !HasFrame(Frames(cs))
    ensures cs == []
  {
    if cs != [] {
      FrameRoundTrip(cs[0], Frames(cs[1..]));
    }
  }
}
