/** The message every path stream starts with, and the whole stream: a preamble, then chunk frames. */
module Preambles {
  import opened Bytes
  import opened Streams
  import opened Chunks

  type SessionId = s: seq<Byte> | |s| == 16 witness seq(16, _ => 0)

  /** TotalSize 0 announces a continuous session. */
  datatype ControlHeader = ControlHeader(
    sessionId: SessionId, totalSize: U64, chunkSize: U32, numPaths: U32, scheduler: seq<Byte>)

  datatype PathHello = PathHello(sessionId: SessionId, pathIndex: U32)

  datatype Preamble = Control(header: ControlHeader) | Hello(hello: PathHello)

  const CONTROL_KIND: Byte := 0
  const PATH_KIND: Byte := 1
  const CONTROL_FIELDS: nat := 34
  const HELLO_FIELDS: nat := 20

  function ControlFields(h: ControlHeader): (r: seq<Byte>)
    ensures |r| == CONTROL_FIELDS
  {
    h.sessionId + Encode(h.totalSize, 8) + Encode(h.chunkSize, 4) + Encode(h.numPaths, 4) + Encode(|h.scheduler|, 2)
  }

  function HelloFields(p: PathHello): (r: seq<Byte>)
    ensures |r| == HELLO_FIELDS
  {
    p.sessionId + Encode(p.pathIndex, 4)
  }

  function PreambleBytes(p: Preamble): seq<Byte> {
    match p
    case Control(h) => [CONTROL_KIND] + ControlFields(h) + h.scheduler
    case Hello(h) => [PATH_KIND] + HelloFields(h)
  }

  method WriteControlHeader(w: Writer, h: ControlHeader)
    modifies w
    ensures w.written == old(w.written) + PreambleBytes(Control(h))
    ensures
      var at := |old(w.written)|;
      && |w.written| == at + 35 + |h.scheduler|
      && w.written[at] == 0 && w.written[at + 1..at + 17] == h.sessionId
      && HoldsAt(w.written, at + 17, 8, h.totalSize) && HoldsAt(w.written, at + 25, 4, h.chunkSize)
      && HoldsAt(w.written, at + 29, 4, h.numPaths) && HoldsAt(w.written, at + 33, 2, |h.scheduler|)
      && w.written[at + 35..] == h.scheduler
  {
    hide HoldsAt;
    ControlLayout(w.written, h);
    var totalSize, chunkSize, numPaths := Encode(h.totalSize, 8), Encode(h.chunkSize, 4), Encode(h.numPaths, 4);
    var nameLength := Encode(|h.scheduler|, 2);
    w.Write([CONTROL_KIND]);
    w.Write(h.sessionId);
    w.Write(totalSize);
    w.Write(chunkSize);
    w.Write(numPaths);
    w.Write(nameLength);
    w.Write(h.scheduler);
    SevenWritten(old(w.written), [CONTROL_KIND], h.sessionId, totalSize, chunkSize, numPaths, nameLength, h.scheduler);
  }

  /** What stands where in a control preamble. */
  lemma ControlLayout(before: seq<Byte>, h: ControlHeader)
    ensures
      var t := before + PreambleBytes(Control(h));
      var at := |before|;
      && |t| == at + 35 + |h.scheduler|
      && t[at] == 0 && t[at + 1..at + 17] == h.sessionId
      && HoldsAt(t, at + 17, 8, h.totalSize) && HoldsAt(t, at + 25, 4, h.chunkSize)
      && HoldsAt(t, at + 29, 4, h.numPaths) && HoldsAt(t, at + 33, 2, |h.scheduler|)
      && t[at + 35..] == h.scheduler
  {
    hide HoldsAt, Encode;
    var t, at := before + PreambleBytes(Control(h)), |before|;
    SixParts(t, before, [CONTROL_KIND], h.sessionId, Encode(h.totalSize, 8), Encode(h.chunkSize, 4),
             Encode(h.numPaths, 4), Encode(|h.scheduler|, 2), h.scheduler);
    EncodeHolds(t, at + 17, 8, h.totalSize);
    EncodeHolds(t, at + 25, 4, h.chunkSize);
    EncodeHolds(t, at + 29, 4, h.numPaths);
    EncodeHolds(t, at + 33, 2, |h.scheduler|);
  }

  lemma SixParts(t: seq<Byte>, before: seq<Byte>, kind: seq<Byte>, id: seq<Byte>, total: seq<Byte>, size: seq<Byte>,
                 paths: seq<Byte>, nameLength: seq<Byte>, name: seq<Byte>)
    requires |kind| == 1 && |id| == 16 && |total| == 8 && |size| == 4 && |paths| == 4 && |nameLength| == 2
    requires t == before + (kind + (id + total + size + paths + nameLength) + name)
    ensures
      var at := |before|;
      && |t| == at + 35 + |name|
      && t[at] == kind[0] && t[at + 1..at + 17] == id && t[at + 17..at + 25] == total && t[at + 25..at + 29] == size
      && t[at + 29..at + 33] == paths && t[at + 33..at + 35] == nameLength && t[at + 35..] == name
  {
  }

  /** What stands where in a hello. */
  lemma HelloLayout(before: seq<Byte>, p: PathHello)
    ensures
      var t := before + PreambleBytes(Hello(p));
      var at := |before|;
      && |t| == at + 21
      && t[at] == 1 && t[at + 1..at + 17] == p.sessionId && HoldsAt(t, at + 17, 4, p.pathIndex)
  {
    hide HoldsAt, Encode;
    var t, at := before + PreambleBytes(Hello(p)), |before|;
    assert t[at + 17..at + 21] == Encode(p.pathIndex, 4);
    EncodeHolds(t, at + 17, 4, p.pathIndex);
  }

  lemma SevenWritten(w: seq<Byte>, a: seq<Byte>, b: seq<Byte>, c: seq<Byte>, d: seq<Byte>, e: seq<Byte>, f: seq<Byte>,
                     g: seq<Byte>)
    ensures w + a + b + c + d + e + f + g == w + (a + (b + c + d + e + f) + g)
  {
  }

  method WritePathHello(w: Writer, p: PathHello)
    modifies w
    ensures w.written == old(w.written) + PreambleBytes(Hello(p))
    ensures
      var at := |old(w.written)|;
      && |w.written| == at + 21
      && w.written[at] == 1 && w.written[at + 1..at + 17] == p.sessionId && HoldsAt(w.written, at + 17, 4, p.pathIndex)
  {
    hide HoldsAt;
    HelloLayout(w.written, p);
    var id, index := p.sessionId, Encode(p.pathIndex, 4);
    w.Write([PATH_KIND]);
    w.Write(id);
    w.Write(index);
    AppendAssociative(old(w.written), [PATH_KIND], id);
    AppendAssociative(old(w.written), [PATH_KIND] + id, index);
    AppendAssociative([PATH_KIND], id, index);
  }

  // ---- Reading ----

  function NameLength(s: seq<Byte>): nat
    requires |s| >= 1 + CONTROL_FIELDS
  {
    Decode(s[33..35])
  }

  /** A whole preamble lies at the front of s; its length. */
  function PreambleLength(s: seq<Byte>): (n: nat) {
    if s == [] then 1
    else if s[0] == PATH_KIND then 1 + HELLO_FIELDS
    else if s[0] == CONTROL_KIND && |s| >= 1 + CONTROL_FIELDS then 1 + CONTROL_FIELDS + NameLength(s)
    else 1 + CONTROL_FIELDS
  }

  predicate HasPreamble(s: seq<Byte>) {
    s != [] && (s[0] == CONTROL_KIND || s[0] == PATH_KIND) && |s| >= PreambleLength(s)
  }

  function PreambleAt(s: seq<Byte>): Preamble
    requires HasPreamble(s)
  {
    if s[0] == CONTROL_KIND then
      Control(ControlHeader(s[1..17], Decode64(s[17..25]), Decode32(s[25..29]), Decode32(s[29..33]),
                            s[35..35 + NameLength(s)]))
    else
      Hello(PathHello(s[1..17], Decode32(s[17..21])))
  }

  /** The offsets in a preamble of the given kind at which the bytes may end between two fields. */
  predicate PreambleBoundary(kind: Byte, k: nat) {
    k == 0 || k == 1 || k == 17 || (kind == CONTROL_KIND && (k == 25 || k == 29 || k == 33 || k == 35))
  }

  function PreambleError(s: seq<Byte>): Error
    requires !HasPreamble(s)
  {
    if s == [] then EndOfStream
    else if s[0] != CONTROL_KIND && s[0] != PATH_KIND then InvalidKind(s[0])
    else if PreambleBoundary(s[0], |s|) then EndOfStream
    else UnexpectedEnd
  }

  method ReadPreamble(r: Reader) returns (res: Result<Preamble>)
    modifies r
    ensures res.Ok? <==> HasPreamble(old(r.rest))
    ensures res.Ok? ==> res.value == PreambleAt(old(r.rest)) && r.rest == old(r.rest)[PreambleLength(old(r.rest))..]
    ensures res.Err? ==> res.error == PreambleError(old(r.rest))
    ensures
      var s := old(r.rest);
      res.Ok? <==>
        && s != []
        && ((s[0] == 1 && |s| >= 21) || (s[0] == 0 && |s| >= 35 && |s| >= 35 + BigEndian(s[33..35])))
    ensures res.Ok? ==>
              var s := old(r.rest);
              && (res.value.Control? <==> s[0] == 0)
              && (res.value.Control? ==>
                    var h := res.value.header;
                    && h.sessionId == s[1..17] && h.totalSize == BigEndian(s[17..25])
                    && h.chunkSize == BigEndian(s[25..29]) && h.numPaths == BigEndian(s[29..33])
                    && |h.scheduler| == BigEndian(s[33..35]) && h.scheduler == s[35..35 + |h.scheduler|])
              && (res.value.Hello? ==>
                    res.value.hello.sessionId == s[1..17] && res.value.hello.pathIndex == BigEndian(s[17..21]))
    ensures res.Err? ==>
              var s := old(r.rest);
              res.error == if s == [] then EndOfStream
                           else if s[0] > 1 then InvalidKind(s[0])
                           else if |s| in {1, 17} || (s[0] == 0 && |s| in {25, 29, 33, 35}) then EndOfStream
                           else UnexpectedEnd
  {
    hide BigEndian, Decode;
    PreambleReading(r.rest);
    var kind := r.ReadFull(1);
    if kind.Err? { return Err(kind.error); }
    AfterKind(r.rest, old(r.rest));
    if kind.value[0] != CONTROL_KIND && kind.value[0] != PATH_KIND { return Err(InvalidKind(kind.value[0])); }
    if kind.value[0] == CONTROL_KIND {
      res := ReadControlHeader(r, r.rest);
    } else {
      res := ReadPathHello(r);
    }
  }

  /** What a preamble at the front of a stream says. */
  lemma PreambleReading(s: seq<Byte>)
    ensures HasPreamble(s) <==>
              && s != []
              && ((s[0] == 1 && |s| >= 21) || (s[0] == 0 && |s| >= 35 && |s| >= 35 + BigEndian(s[33..35])))
    ensures HasPreamble(s) && s[0] == 0 ==>
              && PreambleAt(s).Control?
              && var h := PreambleAt(s).header;
              && h.sessionId == s[1..17] && h.totalSize == BigEndian(s[17..25])
              && h.chunkSize == BigEndian(s[25..29]) && h.numPaths == BigEndian(s[29..33])
              && |h.scheduler| == BigEndian(s[33..35]) && h.scheduler == s[35..35 + |h.scheduler|]
    ensures HasPreamble(s) && s[0] == 1 ==>
              && PreambleAt(s).Hello?
              && PreambleAt(s).hello.sessionId == s[1..17] && PreambleAt(s).hello.pathIndex == BigEndian(s[17..21])
  {
    hide BigEndian, Decode;
    if |s| >= 35 {
      DecodeIsBigEndian(s[17..25]);
      DecodeIsBigEndian(s[25..29]);
      DecodeIsBigEndian(s[29..33]);
      DecodeIsBigEndian(s[33..35]);
    }
    if |s| >= 21 {
      DecodeIsBigEndian(s[17..21]);
    }
  }

  /** Slices of what follows the kind byte, as slices of the whole. */
  lemma AfterKind(t: seq<Byte>, s: seq<Byte>)
    requires s != [] && t == s[1..]
    ensures |t| >= HELLO_FIELDS ==>
              t[0..16] == s[1..17] && t[16..20] == s[17..21] && t[HELLO_FIELDS..] == s[1 + HELLO_FIELDS..]
    ensures |t| >= CONTROL_FIELDS ==>
              && t[16..24] == s[17..25] && t[24..28] == s[25..29] && t[28..32] == s[29..33] && t[32..34] == s[33..35]
              && t[34..] == s[35..]
    ensures |t| >= CONTROL_FIELDS ==> var n := Decode(t[32..34]);
              |t| >= CONTROL_FIELDS + n ==> t[34..34 + n] == s[35..35 + n] && t[34 + n..] == s[35 + n..]
  {
  }

  /** Taking the header's fields off one after another takes these slices. */
  lemma ControlFieldSlices(t: seq<Byte>)
    requires |t| >= CONTROL_FIELDS
    ensures t[16..][..8] == t[16..24] && t[16..][8..] == t[24..]
    ensures t[24..][..4] == t[24..28] && t[24..][4..] == t[28..]
    ensures t[28..][..4] == t[28..32] && t[28..][4..] == t[32..]
    ensures t[32..][..2] == t[32..34] && t[32..][2..] == t[34..]
    ensures t[..16] == t[0..16]
  {
  }

  method ReadControlHeader(r: Reader, ghost t: seq<Byte>) returns (res: Result<Preamble>)
    requires r.rest == t
    modifies r
    ensures res.Ok? <==> |t| >= CONTROL_FIELDS && |t| >= CONTROL_FIELDS + Decode(t[32..34])
    ensures res.Ok? ==> r.rest == t[CONTROL_FIELDS + Decode(t[32..34])..]
    ensures res.Ok? ==>
              res.value == Control(ControlHeader(t[0..16], Decode64(t[16..24]), Decode32(t[24..28]),
                                                 Decode32(t[28..32]), t[34..34 + Decode(t[32..34])]))
    ensures res.Ok? ==>
              var h := res.value.header;
              && h.sessionId == t[0..16] && h.totalSize == BigEndian(t[16..24])
              && h.chunkSize == BigEndian(t[24..28]) && h.numPaths == BigEndian(t[28..32])
              && |h.scheduler| == BigEndian(t[32..34]) && h.scheduler == t[34..34 + |h.scheduler|]
    ensures res.Err? ==> res.error == if PreambleBoundary(CONTROL_KIND, 1 + |t|) then EndOfStream else UnexpectedEnd
  {
    hide BigEndian, Decode;
    var id := r.ReadFull(16);
    if id.Err? { return Err(id.error); }
    var totalSize := r.ReadFull(8);
    if totalSize.Err? { return Err(totalSize.error); }
    var chunkSize := r.ReadFull(4);
    if chunkSize.Err? { return Err(chunkSize.error); }
    var numPaths := r.ReadFull(4);
    if numPaths.Err? { return Err(numPaths.error); }
    var nameLength := r.ReadFull(2);
    if nameLength.Err? { return Err(nameLength.error); }
    ControlFieldSlices(t);
    assert nameLength.value == t[32..34] && r.rest == t[34..];
    DecodeIsBigEndian(t[16..24]);
    DecodeIsBigEndian(t[24..28]);
    DecodeIsBigEndian(t[28..32]);
    DecodeIsBigEndian(t[32..34]);
    var name := r.ReadFull(Decode(nameLength.value));
    if name.Err? { return Err(name.error); }
    assert name.value == t[34..34 + Decode(t[32..34])];
    res := Ok(Control(ControlHeader(id.value, Decode64(totalSize.value), Decode32(chunkSize.value),
                                    Decode32(numPaths.value), name.value)));
  }

  method ReadPathHello(r: Reader) returns (res: Result<Preamble>)
    modifies r
    ensures res.Ok? <==> |old(r.rest)| >= HELLO_FIELDS
    ensures res.Ok? ==> r.rest == old(r.rest)[HELLO_FIELDS..]
    ensures res.Ok? ==> res.value == Hello(PathHello(old(r.rest)[0..16], Decode32(old(r.rest)[16..20])))
    ensures res.Ok? ==> res.value.hello.pathIndex == BigEndian(old(r.rest)[16..20])
    ensures res.Err? ==>
              res.error == if PreambleBoundary(PATH_KIND, 1 + |old(r.rest)|) then EndOfStream else UnexpectedEnd
  {
    var t := r.rest;
    var id := r.ReadFull(16);
    if id.Err? { return Err(id.error); }
    var index := r.ReadFull(4);
    if index.Err? { return Err(index.error); }
    assert id.value == t[0..16] && index.value == t[16..20];
    DecodeIsBigEndian(t[16..20]);
    res := Ok(Hello(PathHello(id.value, Decode32(index.value))));
  }

  // ---- Round trips ----

  /** A hello is always read back as written. */
  lemma HelloRoundTrip(p: PathHello, rest: seq<Byte>)
    ensures HasPreamble(PreambleBytes(Hello(p)) + rest)
    ensures PreambleAt(PreambleBytes(Hello(p)) + rest) == Hello(p)
    ensures PreambleLength(PreambleBytes(Hello(p)) + rest) == |PreambleBytes(Hello(p))|
  {
    var s := PreambleBytes(Hello(p)) + rest;
    assert s[1..17] == p.sessionId && s[17..21] == Encode(p.pathIndex, 4);
    Widths();
    Fits(p.pathIndex, 4);
  }

  lemma ControlSlices(s: seq<Byte>, kind: Byte, id: seq<Byte>, total: seq<Byte>, size: seq<Byte>, paths: seq<Byte>,
                      nameLength: seq<Byte>, tail: seq<Byte>)
    requires |id| == 16 && |total| == 8 && |size| == 4 && |paths| == 4 && |nameLength| == 2
    requires s == [kind] + (id + total + size + paths + nameLength) + tail
    ensures s[0] == kind && s[1..17] == id && s[17..25] == total && s[25..29] == size && s[29..33] == paths
    ensures s[33..35] == nameLength && s[35..] == tail
  {
  }

  /** A control header is read back as written exactly when the scheduler's name fits its length field. */
  lemma ControlRoundTrip(h: ControlHeader, rest: seq<Byte>)
    ensures HasPreamble(PreambleBytes(Control(h)) + rest)
    ensures PreambleAt(PreambleBytes(Control(h)) + rest) == Control(h) <==> |h.scheduler| < U16_LIMIT
    ensures |h.scheduler| < U16_LIMIT ==>
              PreambleLength(PreambleBytes(Control(h)) + rest) == |PreambleBytes(Control(h))|
  {
    hide Encode, Decode;
    var s := PreambleBytes(Control(h)) + rest;
    var total, size, paths := Encode(h.totalSize, 8), Encode(h.chunkSize, 4), Encode(h.numPaths, 4);
    var nameLength := Encode(|h.scheduler|, 2);
    AppendAssociative([CONTROL_KIND] + ControlFields(h), h.scheduler, rest);
    ControlSlices(s, CONTROL_KIND, h.sessionId, total, size, paths, nameLength, h.scheduler + rest);
    Widths();
    Fits(h.totalSize, 8);
    Fits(h.chunkSize, 4);
    Fits(h.numPaths, 4);
    DecodeOfEncode(|h.scheduler|, 2);
    NameThenRest(s, h.scheduler, rest, NameLength(s));
  }

  lemma NameThenRest(s: seq<Byte>, name: seq<Byte>, rest: seq<Byte>, n: nat)
    requires |s| >= 35 && s[35..] == name + rest && n <= |name|
    ensures s[35..35 + n] == name[..n]
    ensures s[35..35 + n] == name <==> n == |name|
  {
    assert s[35..35 + n] == s[35..][..n];
  }

  predicate FitPreamble(p: Preamble) {
    p.Control? ==> |p.header.scheduler| < U16_LIMIT
  }

  lemma WholePreamble(p: Preamble, rest: seq<Byte>)
    requires FitPreamble(p)
    ensures HasPreamble(PreambleBytes(p) + rest)
    ensures PreambleAt(PreambleBytes(p) + rest) == p
    ensures PreambleLength(PreambleBytes(p) + rest) == |PreambleBytes(p)|
  {
    match p
    case Control(h) => ControlRoundTrip(h, rest);
    case Hello(h) => HelloRoundTrip(h, rest);
  }

  /** Any preamble is read back as written, and what follows it is left. */
  lemma PreambleRoundTrip(p: Preamble, rest: seq<Byte>)
    requires FitPreamble(p)
    ensures HasPreamble(PreambleBytes(p) + rest)
    ensures PreambleAt(PreambleBytes(p) + rest) == p
    ensures (PreambleBytes(p) + rest)[PreambleLength(PreambleBytes(p) + rest)..] == rest
  {
    WholePreamble(p, rest);
  }

  /** A preamble is seen as whole only once all its bytes are there. */
  lemma CutPreamble(p: Preamble, rest: seq<Byte>, m: nat)
    requires FitPreamble(p) && m <= |PreambleBytes(p) + rest|
    requires HasPreamble((PreambleBytes(p) + rest)[..m])
    ensures |PreambleBytes(p)| <= m
    ensures PreambleAt((PreambleBytes(p) + rest)[..m]) == p
    ensures PreambleLength((PreambleBytes(p) + rest)[..m]) == |PreambleBytes(p)|
  {
    var s := PreambleBytes(p) + rest;
    WholePreamble(p, rest);
    if m < |PreambleBytes(p)| {
      PartOfPreamble(s, m);
    }
    var n := m - |PreambleBytes(p)|;
    assert s[..m] == PreambleBytes(p) + rest[..n];
    WholePreamble(p, rest[..n]);
  }

  lemma PartOfPreamble(s: seq<Byte>, m: nat)
    requires HasPreamble(s) && m < PreambleLength(s) && m <= |s|
    ensures !HasPreamble(s[..m])
  {
    if m >= 1 + CONTROL_FIELDS {
      assert s[..m][33..35] == s[33..35];
    }
  }

  // ---- Whole path streams ----

  function PathStream(p: Preamble, cs: seq<Chunk>): seq<Byte> {
    PreambleBytes(p) + Frames(cs)
  }

  function StampAll(cs: seq<Chunk>): (r: seq<Chunk>)
    ensures |r| == |cs| && forall i | 0 <= i < |cs| :: r[i] == cs[i].Stamped()
  {
    seq(|cs|, i requires 0 <= i < |cs| => cs[i].Stamped())
  }

  /**
   What the server reads from a client's stream: the preamble, the chunks in order with valid checksums, a plain end.
   */
  lemma PathStreamRoundTrip(p: Preamble, cs: seq<Chunk>)
    requires FitPreamble(p) && FitFrames(cs)
    ensures
      var s := PathStream(p, StampAll(cs));
      && HasPreamble(s)
      && PreambleAt(s) == p
      && ReadAll(s[PreambleLength(s)..]) == (StampAll(cs), EndOfStream)
      && forall i | 0 <= i < |cs| :: StampAll(cs)[i].VerifyChecksum() && StampAll(cs)[i].data == cs[i].data
  {
    PreambleRoundTrip(p, Frames(StampAll(cs)));
    StreamRoundTrip(StampAll(cs));
  }

  /** Two different sessions never put the same bytes on a path. */
  lemma PathStreamInjective(p: Preamble, cs: seq<Chunk>, q: Preamble, ds: seq<Chunk>)
    requires FitPreamble(p) && FitFrames(cs) && FitPreamble(q) && FitFrames(ds)
    requires PathStream(p, cs) == PathStream(q, ds)
    ensures p == q && cs == ds
  {
    PreambleRoundTrip(p, Frames(cs));
    PreambleRoundTrip(q, Frames(ds));
    StreamRoundTrip(cs);
    StreamRoundTrip(ds);
  }
}
