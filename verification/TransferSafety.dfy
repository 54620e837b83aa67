/** What every reachable state of a transfer satisfies, and what the drain handshake proves to the client. */
module TransferSafety {
  import opened Bytes
  import opened Streams
  import opened Chunks
  import opened Preambles
  import opened Reassembly
  import opened Schedulers
  import opened Transfer
  import Crc
  import Sessions

  // ---- Damage is always noticed ----

  lemma ArrivesVerified(g: Config, f: Sent)
    requires f.number < |g.plan| && MayArriveAs(g.plan[f.number].data, f.data)
    ensures Arrives(g, f).VerifyChecksum() <==> f.data == g.plan[f.number].data
  {
    var w: nat :| Crc.WithinBurst(g.plan[f.number].data, f.data, w);
    if f.data != g.plan[f.number].data {
      Crc.BurstErrorDetected(g.plan[f.number].data, f.data, w);
    }
  }

  lemma ArrivesAsLong(g: Config, f: Sent)
    requires f.number < |g.plan| && MayArriveAs(g.plan[f.number].data, f.data)
    ensures |f.data| == |g.plan[f.number].data|
  {
    var w: nat :| Crc.WithinBurst(g.plan[f.number].data, f.data, w);
  }

  lemma ArrivingFits(g: Config, sent: seq<Sent>)
    requires ValidConfig(g) && Known(g, sent)
    requires forall i | 0 <= i < |sent| :: MayArriveAs(g.plan[sent[i].number].data, sent[i].data)
    ensures FitFrames(AllArrive(g, sent))
  {
    forall i | 0 <= i < |sent| ensures |AllArrive(g, sent)[i].data| < U32_LIMIT {
      ArrivesAsLong(g, sent[i]);
    }
  }

  /** A chunk that passes its checksum on arrival is the slot of the payload it was split from. */
  lemma ArrivesGenuine(g: Config, f: Sent)
    requires ValidConfig(g) && f.number < |g.plan| && MayArriveAs(g.plan[f.number].data, f.data)
    requires Arrives(g, f).VerifyChecksum()
    ensures IsSlot(Arrives(g, f), g.payload, g.size, f.number)
  {
    ArrivesVerified(g, f);
  }

  // ---- Client steps keep the lane ----

  lemma AppendNumbers(sent: seq<Sent>, f: Sent)
    ensures Numbers(sent + [f]) == Numbers(sent) + [f.number]
  {
  }

  lemma AppendArriving(g: Config, sent: seq<Sent>, f: Sent)
    requires Known(g, sent) && f.number < |g.plan|
    ensures Known(g, sent + [f])
    ensures AllArrive(g, sent + [f]) == AllArrive(g, sent) + [Arrives(g, f)]
  {
  }

  lemma MoveOne<T>(a: seq<T>, b: seq<T>)
    requires b != []
    ensures a + b == (a + [b[0]]) + b[1..]
  {
  }

  lemma WriteKeepsSender(g: Config, l: Lane, data: seq<Byte>)
    requires SenderFits(g, l.sender) && CanWrite(g, l.sender, data)
    ensures SenderFits(g, Written(g, l, data).sender)
  {
    hide PartOfFrame, MayArriveAs;
    var w := l.sender;
    var f := Sent(w.queue[0], data);
    AppendNumbers(w.sent, f);
    assert (w.sent + [f])[..|w.sent|] == w.sent;
    MoveOne(Numbers(w.sent), w.queue);
    AppendNothing(Numbers(w.sent));
    AppendNothing(Numbers(w.sent + [f]));
  }

  lemma FailKeepsSender(g: Config, l: Lane, data: seq<Byte>, k: nat)
    requires ValidConfig(g) && SenderFits(g, l.sender) && CanFail(g, l.sender, data, k)
    ensures SenderFits(g, Failed(g, l, data, k).sender)
  {
    hide MayArriveAs;
    var w := l.sender;
    var f := Sent(w.queue[0], data);
    MoveOne(Numbers(w.sent) + w.lost, w.queue);
    AppendAssociative(Numbers(w.sent), w.lost, [w.queue[0]]);
    AppendNothing(w.torn);
    AppendNothing(Frame(Arrives(g, f))[..k]);
    if w.lost == [] {
      ArrivesAsLong(g, f);
      assert IsPart(Frame(Arrives(g, f))[..k], Arrives(g, f), k);
    } else {
      assert Frame(Arrives(g, f))[..0] == [];
    }
  }

  lemma FailKeepsLane(g: Config, l: Lane, p: nat, data: seq<Byte>, k: nat, conn: Sessions.Conn, got: seq<Chunk>)
    requires ValidConfig(g) && p < U32_LIMIT && CanFail(g, l.sender, data, k) && LaneFits(g, l, p, conn, got)
    ensures LaneFits(g, Failed(g, l, data, k), p, conn, got)
  {
    hide SenderFits, ReaderFits, ValidConfig, PreambleBytes, Frame;
    SenderKnown(g, l.sender);
    FailKeepsSender(g, l, data, k);
    var part := Failed(g, l, data, k).stream[|l.stream|..];
    AppendThree(PreambleBytes(PreambleOf(g, p)), Frames(AllArrive(g, l.sender.sent)), l.sender.torn,
                Frame(Arrives(g, Sent(l.sender.queue[0], data)))[..k]);
  }

  lemma AppendThree(a: seq<Byte>, b: seq<Byte>, c: seq<Byte>, d: seq<Byte>)
    ensures (a + (b + c)) + d == a + (b + (c + d))
  {
  }

  lemma SenderKnown(g: Config, w: Sender)
    requires SenderFits(g, w)
    ensures Known(g, w.sent)
  {
  }

  lemma WriteKeepsStream(g: Config, l: Lane, p: nat, data: seq<Byte>)
    requires p < U32_LIMIT && StreamFits(g, l.stream, l.sender.sent, [], p) && CanWrite(g, l.sender, data)
    ensures StreamFits(g, Written(g, l, data).stream, Written(g, l, data).sender.sent, [], p)
  {
    var f := Sent(l.sender.queue[0], data);
    AppendArriving(g, l.sender.sent, f);
    FramesAppend(AllArrive(g, l.sender.sent), [Arrives(g, f)]);
    FramesOfOne(Arrives(g, f));
    AppendNothing(Frames(AllArrive(g, l.sender.sent)));
    AppendNothing(Frames(AllArrive(g, l.sender.sent + [f])));
    AppendAssociative(PreambleBytes(PreambleOf(g, p)), Frames(AllArrive(g, l.sender.sent)), Frame(Arrives(g, f)));
  }

  lemma WriteKeepsReader(g: Config, sent: seq<Sent>, f: Sent, position: nat, p: nat, unread: bool, got: seq<Chunk>)
    requires p < U32_LIMIT && Known(g, sent) && f.number < |g.plan| && ReaderFits(g, sent, position, p, unread, got)
    ensures Known(g, sent + [f]) && ReaderFits(g, sent + [f], position, p, unread, got)
  {
    AppendArriving(g, sent, f);
  }

  lemma WriteKeepsLane(g: Config, l: Lane, p: nat, data: seq<Byte>, conn: Sessions.Conn, got: seq<Chunk>)
    requires p < U32_LIMIT && LaneFits(g, l, p, conn, got) && CanWrite(g, l.sender, data)
    ensures LaneFits(g, Written(g, l, data), p, conn, got)
  {
    WriteKeepsSender(g, l, data);
    WriteKeepsStream(g, l, p, data);
    WriteKeepsReader(g, l.sender.sent, Sent(l.sender.queue[0], data), l.position, p, conn.Opened?, got);
  }

  lemma CountKeepsSender(g: Config, w: Sender)
    requires SenderFits(g, w) && w.uncounted
    ensures SenderFits(g, Counted(w))
  {
  }

  lemma CountKeepsLane(g: Config, l: Lane, p: nat, conn: Sessions.Conn, got: seq<Chunk>)
    requires p < U32_LIMIT && LaneFits(g, l, p, conn, got) && l.sender.uncounted
    ensures LaneFits(g, l.(sender := Counted(l.sender)), p, conn, got)
  {
    CountKeepsSender(g, l.sender);
  }

  lemma PushKeepsLane(g: Config, l: Lane, p: nat, k: nat, conn: Sessions.Conn, got: seq<Chunk>)
    requires p < U32_LIMIT && LaneFits(g, l, p, conn, got) && k < |g.plan| && l.phase == Writing
    ensures LaneFits(g, l.(sender := Queued(l.sender, k)), p, conn, got)
  {
    AppendAssociative(Numbers(l.sender.sent) + l.sender.lost, l.sender.queue, [k]);
  }

  // ---- Server steps keep the lane ----

  /** What the server has not read of the stream is the frames of the chunks it has not got, and what is torn. */
  lemma Unread(g: Config, l: Lane, p: nat, got: seq<Chunk>)
    requires p < U32_LIMIT && StreamFits(g, l.stream, l.sender.sent, l.sender.torn, p)
    requires ReaderFits(g, l.sender.sent, l.position, p, false, got)
    ensures l.position <= |l.stream| && |got| <= |l.sender.sent|
    ensures l.stream[l.position..] == Frames(AllArrive(g, l.sender.sent)[|got|..]) + l.sender.torn
  {
    hide PreambleBytes;
    var pre, all := PreambleBytes(PreambleOf(g, p)), AllArrive(g, l.sender.sent);
    assert all == got + all[|got|..];
    FramesAppend(got, all[|got|..]);
    DropTwo(pre, Frames(got), Frames(all[|got|..]), l.sender.torn);
  }

  lemma DropTwo(a: seq<Byte>, b: seq<Byte>, c: seq<Byte>, d: seq<Byte>)
    ensures (a + ((b + c) + d))[|a| + |b|..] == c + d
  {
  }

  /** If a cut of some frames and part of another shows a whole frame, it is the first of them. */
  lemma FirstWhole(cs: seq<Chunk>, torn: seq<Byte>, k: nat)
    requires FitFrames(cs) && PartOfFrame(torn) && k <= |Frames(cs) + torn|
    requires HasFrame((Frames(cs) + torn)[..k])
    ensures cs != [] && |Frame(cs[0])| <= k && FrameAt((Frames(cs) + torn)[..k]) == cs[0]
  {
    var c, n: nat :| IsPart(torn, c, n);
    FramesAppend(cs, [c]);
    FramesOfOne(c);
    CutInside(Frames(cs), Frame(c), n, k);
    FirstFrame(cs + [c], k);
  }

  lemma CutInside(a: seq<Byte>, b: seq<Byte>, n: nat, k: nat)
    requires n <= |b| && k <= |a| + n
    ensures (a + b[..n])[..k] == (a + b)[..k]
  {
  }

  lemma SliceOfRest(s: seq<Byte>, a: nat, b: nat)
    requires a <= b <= |s|
    ensures s[a..b] == s[a..][..b - a]
  {
  }

  /** A frame the server can see is the next one written on the path, whole. */
  lemma SeenFrame(g: Config, l: Lane, p: nat, conn: Sessions.Conn, got: seq<Chunk>)
    requires ValidConfig(g) && p < U32_LIMIT && LaneFits(g, l, p, conn, got) && !conn.Opened? && HasFrame(Visible(l))
    ensures |got| < |l.sender.sent|
    ensures FrameAt(Visible(l)) == Arrives(g, l.sender.sent[|got|])
    ensures l.position + HEADER + |FrameAt(Visible(l)).data| <= l.delivered
  {
    hide Frame, Frames, HasFrame, FrameAt, PreambleBytes, MayArriveAs, PartOfFrame, StreamFits, ReaderFits;
    Unread(g, l, p, got);
    SliceOfRest(l.stream, l.position, l.delivered);
    ArrivingFits(g, l.sender.sent);
    FirstWhole(AllArrive(g, l.sender.sent)[|got|..], l.sender.torn, l.delivered - l.position);
  }

  lemma ReadOneMore(g: Config, sent: seq<Sent>, position: nat, p: nat, got: seq<Chunk>, c: Chunk)
    requires p < U32_LIMIT && Known(g, sent) && ReaderFits(g, sent, position, p, false, got)
    requires |got| < |sent| && c == Arrives(g, sent[|got|])
    ensures ReaderFits(g, sent, position + HEADER + |c.data|, p, false, got + [c])
  {
    FramesAppend(got, [c]);
    FramesOfOne(c);
    assert AllArrive(g, sent)[..|got| + 1] == got + [c];
  }

  lemma ReadKeepsHandshake(l: Lane, p: nat, conn: Sessions.Conn, got: seq<Chunk>, c: Chunk, position: nat)
    requires HandshakeFits(l, p, conn, got) && conn.Reading?
    ensures HandshakeFits(l.(position := position), p, Sessions.Reading(Sessions.Tallied(conn.result, c)), got + [c])
  {
  }

  lemma ReadKeepsLane(g: Config, l: Lane, p: nat, conn: Sessions.Conn, got: seq<Chunk>, c: Chunk)
    requires ValidConfig(g) && p < U32_LIMIT && conn.Reading? && LaneFits(g, l, p, conn, got)
    requires HasFrame(Visible(l)) && c == FrameAt(Visible(l))
    ensures LaneFits(g, l.(position := l.position + HEADER + |c.data|), p,
            Sessions.Reading(Sessions.Tallied(conn.result, c)), got + [c])
  {
    hide SenderFits, StreamFits, ReaderFits, HandshakeFits, HasFrame, FrameAt, Visible, ValidConfig;
    SenderKnown(g, l.sender);
    SeenFrame(g, l, p, conn, got);
    ReadOneMore(g, l.sender.sent, l.position, p, got, c);
    ReadKeepsHandshake(l, p, conn, got, c, l.position + HEADER + |c.data|);
  }

  /** The plain end is seen only when every frame written on the path has been read. */
  lemma SeenEnd(g: Config, l: Lane, p: nat, conn: Sessions.Conn, got: seq<Chunk>)
    requires ValidConfig(g) && p < U32_LIMIT && LaneFits(g, l, p, conn, got) && !conn.Opened?
    requires l.fin && l.delivered == |l.stream| && !HasFrame(Visible(l))
    ensures |got| == |l.sender.sent|
  {
    hide Frame, Frames, HasFrame, PreambleBytes, MayArriveAs, PartOfFrame, StreamFits, ReaderFits;
    Unread(g, l, p, got);
    WholeRest(l.stream, l.position);
    AppendNothing(Frames(AllArrive(g, l.sender.sent)[|got|..]));
    ArrivingFits(g, l.sender.sent);
    NothingLeft(AllArrive(g, l.sender.sent), |got|);
  }

  lemma WholeRest(s: seq<Byte>, a: nat)
    requires a <= |s|
    ensures s[a..|s|] == s[a..]
  {
  }

  lemma NothingLeft(cs: seq<Chunk>, n: nat)
    requires FitFrames(cs) && n <= |cs| && !HasFrame(Frames(cs[n..]))
    ensures n == |cs|
  {
    NoFrameNoChunks(cs[n..]);
  }

  lemma SeenPreamble(g: Config, l: Lane, p: nat)
    requires ValidConfig(g) && p < g.paths && InOrder(l) && l.position == 0
    requires StreamFits(g, l.stream, l.sender.sent, l.sender.torn, p) && HasPreamble(Visible(l))
    ensures PreambleAt(Visible(l)) == PreambleOf(g, p)
    ensures PreambleLength(Visible(l)) == |PreambleBytes(PreambleOf(g, p))| <= l.delivered
  {
    hide Frame, Frames, HasPreamble, PreambleBytes, PreambleAt, PreambleLength;
    CutPreamble(PreambleOf(g, p), Frames(AllArrive(g, l.sender.sent)) + l.sender.torn, l.delivered);
    assert Visible(l) == l.stream[..l.delivered];
  }

  lemma GreetedReads(g: Config, l: Lane, p: nat, got: seq<Chunk>)
    requires p < U32_LIMIT && Known(g, l.sender.sent) && ReaderFits(g, l.sender.sent, l.position, p, true, got)
    ensures ReaderFits(g, l.sender.sent, |PreambleBytes(PreambleOf(g, p))|, p, false, got)
  {
    hide PreambleBytes;
    assert |Frames([])| == 0;
  }

  lemma GreetKeepsLane(g: Config, l: Lane, p: nat, conn: Sessions.Conn, got: seq<Chunk>)
    requires ValidConfig(g) && p < g.paths && conn.Opened? && LaneFits(g, l, p, conn, got) && HasPreamble(Visible(l))
    ensures PreambleAt(Visible(l)) == PreambleOf(g, p)
    ensures LaneFits(g, l.(position := l.position + PreambleLength(Visible(l))), p, Sessions.Waiting(p), got)
  {
    hide SenderFits, StreamFits, PreambleBytes, HasPreamble, PreambleLength, PreambleAt, Visible;
    SenderKnown(g, l.sender);
    SeenPreamble(g, l, p);
    GreetedReads(g, l, p, got);
  }

  // ---- What holds of the whole ----

  function Copies(g: Config): nat {
    CopiesOf(g.kind, g.paths)
  }

  /** The bytes of the first n chunks of the plan. */
  function PlanBytes(g: Config, n: nat): nat
    requires n <= |g.plan|
  {
    if n == 0 then 0 else PlanBytes(g, n - 1) + |g.plan[n - 1].data|
  }

  function NumberBytes(g: Config, ks: seq<nat>): nat
    requires forall i | 0 <= i < |ks| :: ks[i] < |g.plan|
  {
    if ks == [] then 0 else NumberBytes(g, ks[..|ks| - 1]) + |g.plan[ks[|ks| - 1]].data|
  }

  predicate LanesKnown(g: Config, lanes: seq<Lane>) {
    forall p, i | 0 <= p < |lanes| && 0 <= i < |lanes[p].sender.allotted| :: lanes[p].sender.allotted[i] < |g.plan|
  }

  function AllottedBytes(g: Config, lanes: seq<Lane>): nat
    requires LanesKnown(g, lanes)
  {
    if lanes == [] then 0
    else
      assert forall p | 1 <= p < |lanes| :: lanes[p] == lanes[1..][p - 1];
      NumberBytes(g, lanes[0].sender.allotted) + AllottedBytes(g, lanes[1..])
  }

  ghost predicate Covered(lanes: seq<Lane>, k: nat) {
    exists p, i | 0 <= p < |lanes| && 0 <= i < |lanes[p].sender.allotted| :: lanes[p].sender.allotted[i] == k
  }

  /** Every chunk scheduled so far is queued for the paths chosen, and their bytes add up. */
  ghost predicate ScheduleFits(g: Config, s: State) {
    && s.next <= |g.plan| && |s.pushing| <= Copies(g)
    && (s.pushing != [] ==> s.next > 0)
    && (forall i | 0 <= i < |s.pushing| :: s.pushing[i] < |s.lanes|)
    && LanesKnown(g, s.lanes)
    && (forall k: nat | k < s.next && !(k == s.next - 1 && |s.pushing| == Copies(g)) :: Covered(s.lanes, k))
    && AllottedBytes(g, s.lanes) + |s.pushing| * (if s.next > 0 then |g.plan[s.next - 1].data| else 0)
       == Copies(g) * PlanBytes(g, s.next)
  }

  ghost predicate ServerSound(g: Config, v: Sessions.State) {
    && Sessions.Sound(v)
    && Sessions.AllRecorded(v)
    && Sessions.Faithful(v, g.payload, g.size)
    && (v.core.ctrl.Some? ==> v.core.ctrl.value == g.header)
    && !v.core.panicked
    && Sessions.VerdictStands(v)
  }

  ghost predicate LanesFit(g: Config, s: State) {
    && |s.lanes| == |s.server.conns| == |s.server.got| == g.paths < U32_LIMIT
    && forall p | 0 <= p < |s.lanes| :: LaneFits(g, s.lanes[p], p, s.server.conns[p], s.server.got[p])
  }

  ghost predicate Safe(g: Config, s: State) {
    && LanesFit(g, s)
    && ScheduleFits(g, s)
    && ServerSound(g, s.server)
    && ClosedMeansSent(g, s)
  }

  /** No stream is closed before everything is sent, or has failed, on every path. */
  ghost predicate ClosedMeansSent(g: Config, s: State) {
    forall p | 0 <= p < |s.lanes| && s.lanes[p].phase != Writing :: AllSent(g, s)
  }

  // ---- Scheduling ----

  lemma {:induction false} AllotOneMore(g: Config, lanes: seq<Lane>, q: nat, l: Lane, k: nat)
    requires q < |lanes| && LanesKnown(g, lanes) && k < |g.plan| && l.sender.allotted == lanes[q].sender.allotted + [k]
    ensures LanesKnown(g, lanes[q := l])
    ensures AllottedBytes(g, lanes[q := l]) == AllottedBytes(g, lanes) + |g.plan[k].data|
    decreases |lanes|
  {
    if q == 0 {
      assert lanes[q := l][1..] == lanes[1..];
      assert l.sender.allotted[..|lanes[0].sender.allotted|] == lanes[0].sender.allotted;
    } else {
      assert lanes[q := l][1..] == lanes[1..][q - 1 := l];
      AllotOneMore(g, lanes[1..], q - 1, l, k);
    }
  }

  lemma {:induction false} SameAllotment(g: Config, lanes: seq<Lane>, others: seq<Lane>)
    requires |lanes| == |others| && LanesKnown(g, lanes)
    requires forall p | 0 <= p < |lanes| :: lanes[p].sender.allotted == others[p].sender.allotted
    ensures LanesKnown(g, others) && AllottedBytes(g, lanes) == AllottedBytes(g, others)
  {
    if lanes != [] {
      SameAllotment(g, lanes[1..], others[1..]);
    }
  }

  lemma CoveredStays(lanes: seq<Lane>, others: seq<Lane>, k: nat)
    requires Covered(lanes, k) && |lanes| == |others|
    requires forall p | 0 <= p < |lanes| :: lanes[p].sender.allotted <= others[p].sender.allotted
    ensures Covered(others, k)
  {
    var p, i :| 0 <= p < |lanes| && 0 <= i < |lanes[p].sender.allotted| && lanes[p].sender.allotted[i] == k;
    assert others[p].sender.allotted[i] == k;
  }

  lemma AssignKeepsSchedule(g: Config, s: State, infos: seq<PathInfo>, idxs: seq<nat>, counter: U64)
    requires ScheduleFits(g, s) && s.pushing == [] && s.next < |g.plan| && |s.lanes| == g.paths == |infos| > 0
    requires WellIndexed(infos) && Chooses(g.kind, s.counter, infos, idxs, counter)
    ensures ScheduleFits(g, s.(next := s.next + 1, counter := counter, pushing := idxs))
  {
    AnswersAreValid(g.kind, s.counter, infos, idxs, counter);
    Distribute(Copies(g), PlanBytes(g, s.next), |g.plan[s.next].data|);
  }

  lemma PushKeepsBytes(g: Config, s: State)
    requires ScheduleFits(g, s) && s.pushing != []
    ensures
      var t := Pushed(s);
      && LanesKnown(g, t.lanes)
      && AllottedBytes(g, t.lanes) + |t.pushing| * |g.plan[t.next - 1].data| == Copies(g) * PlanBytes(g, t.next)
  {
    hide Covered, Copies, PlanBytes, NumberBytes, AllottedBytes;
    var q, k := s.pushing[0], s.next - 1;
    AllotOneMore(g, s.lanes, q, Pushed(s).lanes[q], k);
    OneMoreSize(|s.pushing|, |g.plan[k].data|);
  }

  lemma CoveredHere(lanes: seq<Lane>, p: nat, i: nat)
    requires p < |lanes| && i < |lanes[p].sender.allotted|
    ensures Covered(lanes, lanes[p].sender.allotted[i])
  {
  }

  lemma PushKeepsSchedule(g: Config, s: State)
    requires ScheduleFits(g, s) && s.pushing != []
    ensures ScheduleFits(g, Pushed(s))
  {
    hide Covered, Copies, PlanBytes, NumberBytes, AllottedBytes;
    var t, q, k := Pushed(s), s.pushing[0], s.next - 1;
    PushKeepsBytes(g, s);
    forall j: nat | j < t.next && !(j == t.next - 1 && |t.pushing| == Copies(g)) ensures Covered(t.lanes, j) {
      if j == k {
        CoveredHere(t.lanes, q, |s.lanes[q].sender.allotted|);
      } else {
        CoveredStays(s.lanes, t.lanes, j);
      }
    }
  }

  lemma ScheduleUntouched(g: Config, s: State, t: State)
    requires ScheduleFits(g, s) && |t.lanes| == |s.lanes| && t.next == s.next && t.pushing == s.pushing
    requires forall p | 0 <= p < |s.lanes| :: s.lanes[p].sender.allotted == t.lanes[p].sender.allotted
    ensures ScheduleFits(g, t)
  {
    SameAllotment(g, s.lanes, t.lanes);
    forall k: nat | k < t.next && !(k == t.next - 1 && |t.pushing| == Copies(g)) ensures Covered(t.lanes, k) {
      CoveredStays(s.lanes, t.lanes, k);
    }
  }

  // ---- Server steps ----

  /** Everything the server has got that passes its checksum is genuine. */
  lemma GotIsGenuine(g: Config, s: State)
    requires ValidConfig(g) && LanesFit(g, s)
    ensures Sessions.GoodAreGenuine(s.server.got, g.payload, g.size)
  {
    forall p, j | 0 <= p < |s.server.got| && 0 <= j < |s.server.got[p]| && s.server.got[p][j].VerifyChecksum()
      ensures Sessions.IsSlotOf(s.server.got[p][j], g.payload, g.size)
    {
      var l := s.lanes[p];
      assert LaneFits(g, l, p, s.server.conns[p], s.server.got[p]);
      assert s.server.got[p][j] == Arrives(g, l.sender.sent[j]);
      ArrivesGenuine(g, l.sender.sent[j]);
      assert IsSlot(s.server.got[p][j], g.payload, g.size, l.sender.sent[j].number);
    }
  }

  lemma ConfigIsForPayload(g: Config, core: Sessions.Core)
    requires ValidConfig(g) && (core.ctrl.Some? ==> core.ctrl.value == g.header)
    ensures Sessions.ForPayload(core, g.payload, g.size)
  {
  }

  /** What a server step needs of what it reads. */
  ghost predicate ReadsRight(g: Config, act: Sessions.Action)
    requires g.size > 0
  {
    && (act.Greet? && act.preamble.Control? ==> act.preamble.header == g.header)
    && (act.Read? && act.c.VerifyChecksum() ==> Sessions.IsSlotOf(act.c, g.payload, g.size))
  }

  lemma GenuineIsTrackable(g: Config, s: State, c: Chunk)
    requires ValidConfig(g) && LanesFit(g, s) && Sessions.Faithful(s.server, g.payload, g.size)
             && !s.server.core.panicked
    requires c.VerifyChecksum() ==> Sessions.IsSlotOf(c, g.payload, g.size)
    ensures Sessions.Trackable(s.server.core.tracker, c)
  {
    if s.server.core.tracker.Assembling? && c.VerifyChecksum() {
      GotIsGenuine(g, s);
      var slots :| slots <= AllSlots(g.payload, g.size)
        && s.server.core.tracker.assembly == Filled(g.payload, g.size, slots);
      var i: nat :| IsSlot(c, g.payload, g.size, i);
      PlaceGenuine(g.payload, g.size, slots, c, i);
    }
  }

  lemma HeaderStays(g: Config, v: Sessions.State, act: Sessions.Action)
    requires ValidConfig(g) && ServerSound(g, v) && Sessions.Enabled(v, act) && ReadsRight(g, act)
    ensures Sessions.Next(v, act).core.ctrl.Some? ==> Sessions.Next(v, act).core.ctrl.value == g.header
  {
  }

  lemma NoPanic(g: Config, s: State, act: Sessions.Action)
    requires ValidConfig(g) && LanesFit(g, s) && ServerSound(g, s.server) && Sessions.Enabled(s.server, act)
             && ReadsRight(g, act)
    ensures !Sessions.Next(s.server, act).core.panicked
  {
    hide LaneFits, Sessions.Faithful, Sessions.AllCounted, Sessions.SlotsArrived, Sessions.VerdictStands;
    if act.Read? {
      GenuineIsTrackable(g, s, act.c);
    } else if act.Finish? {
      Sessions.NoChunkBeforeStart(s.server, act);
      Sessions.EndComesLast(s.server);
      assert Sessions.Enabled(s.server, Sessions.Finish(act.p, act.clean));
    }
  }

  lemma SessionStaysFaithful(g: Config, v: Sessions.State, act: Sessions.Action)
    requires ValidConfig(g) && ServerSound(g, v) && Sessions.Enabled(v, act) && ReadsRight(g, act)
    ensures Sessions.Faithful(Sessions.Next(v, act), g.payload, g.size)
  {
    hide Sessions.Faithful;
    HeaderStays(g, v, act);
    ConfigIsForPayload(g, Sessions.Next(v, act).core);
    Sessions.StepKeepsFaithful(v, act, g.payload, g.size);
  }

  /** A server step on what the lanes bring keeps the server sound, and does not panic. */
  lemma ServerStepIsSound(g: Config, s: State, act: Sessions.Action)
    requires ValidConfig(g) && LanesFit(g, s) && ServerSound(g, s.server) && Sessions.Enabled(s.server, act)
             && ReadsRight(g, act)
    ensures ServerSound(g, Sessions.Next(s.server, act))
  {
    HeaderStays(g, s.server, act);
    NoPanic(g, s, act);
    SessionStaysFaithful(g, s.server, act);
    Sessions.StepIsSound(s.server, act);
    Sessions.StepKeepsRecorded(s.server, act);
    Sessions.StepKeepsVerdict(s.server, act);
  }

  // ---- One step ----

  lemma LanesStayFit(g: Config, s: State, t: State, p: nat)
    requires LanesFit(g, s) && p < |s.lanes|
    requires |t.lanes| == |t.server.conns| == |t.server.got| == |s.lanes|
    requires forall q | 0 <= q < |s.lanes| && q != p ::
               t.lanes[q] == s.lanes[q] && t.server.conns[q] == s.server.conns[q] && t.server.got[q] == s.server.got[q]
    requires LaneFits(g, t.lanes[p], p, t.server.conns[p], t.server.got[p])
    ensures LanesFit(g, t)
  {
  }

  lemma SentStays(g: Config, s: State, p: nat, l: Lane)
    requires ClosedMeansSent(g, s) && p < |s.lanes|
    requires (l.phase != Writing ==> AllSent(g, s)) && (AllSent(g, s) ==> Drained(l.sender))
    ensures ClosedMeansSent(g, s.(lanes := s.lanes[p := l]))
  {
    assert AllSent(g, s) ==> AllSent(g, s.(lanes := s.lanes[p := l]));
  }

  /** A step of the client or the network on one lane, which queues nothing. */
  lemma LaneStepIsSafe(g: Config, s: State, p: nat, l: Lane)
    requires Safe(g, s) && p < |s.lanes|
    requires LaneFits(g, l, p, s.server.conns[p], s.server.got[p]) && l.sender.allotted == s.lanes[p].sender.allotted
    requires (l.phase != Writing ==> AllSent(g, s)) && (AllSent(g, s) ==> Drained(l.sender))
    ensures Safe(g, s.(lanes := s.lanes[p := l]))
  {
    hide LaneFits, ScheduleFits, ServerSound;
    var t := s.(lanes := s.lanes[p := l]);
    LanesStayFit(g, s, t, p);
    ScheduleUntouched(g, s, t);
    SentStays(g, s, p, l);
  }

  lemma AssignIsSafe(g: Config, s: State, act: Action)
    requires ValidConfig(g) && Safe(g, s) && act.Assign? && Enabled(g, s, act)
    ensures Safe(g, Next(g, s, act))
  {
    hide LaneFits, ServerSound;
    AssignKeepsSchedule(g, s, act.infos, act.idxs, act.counter);
  }

  lemma PushKeepsLanes(g: Config, s: State)
    requires LanesFit(g, s) && s.pushing != [] && s.pushing[0] < |s.lanes| && 0 < s.next <= |g.plan|
    requires s.lanes[s.pushing[0]].phase == Writing
    ensures LanesFit(g, Pushed(s))
  {
    hide SenderFits, StreamFits, ReaderFits;
    var q := s.pushing[0];
    PushKeepsLane(g, s.lanes[q], q, s.next - 1, s.server.conns[q], s.server.got[q]);
    LanesStayFit(g, s, Pushed(s), q);
  }

  lemma PushIsSafe(g: Config, s: State)
    requires ValidConfig(g) && Safe(g, s) && Enabled(g, s, Push)
    ensures Safe(g, Pushed(s))
  {
    hide LaneFits, ServerSound;
    PushKeepsLanes(g, s);
    PushKeepsSchedule(g, s);
  }

  lemma WriteIsSafe(g: Config, s: State, p: nat, data: seq<Byte>)
    requires Safe(g, s) && p < |s.lanes| && CanWrite(g, s.lanes[p].sender, data)
    ensures Safe(g, s.(lanes := s.lanes[p := Written(g, s.lanes[p], data)]))
  {
    hide SenderFits, StreamFits, ReaderFits, ScheduleFits, ServerSound;
    WriteKeepsLane(g, s.lanes[p], p, data, s.server.conns[p], s.server.got[p]);
    LaneStepIsSafe(g, s, p, Written(g, s.lanes[p], data));
  }

  lemma FailIsSafe(g: Config, s: State, p: nat, data: seq<Byte>, k: nat)
    requires ValidConfig(g) && Safe(g, s) && p < |s.lanes| && CanFail(g, s.lanes[p].sender, data, k)
    ensures Safe(g, s.(lanes := s.lanes[p := Failed(g, s.lanes[p], data, k)]))
  {
    hide SenderFits, StreamFits, ReaderFits, ScheduleFits, ServerSound, ValidConfig;
    FailKeepsLane(g, s.lanes[p], p, data, k, s.server.conns[p], s.server.got[p]);
    LaneStepIsSafe(g, s, p, Failed(g, s.lanes[p], data, k));
  }

  lemma CountIsSafe(g: Config, s: State, p: nat)
    requires Safe(g, s) && p < |s.lanes| && s.lanes[p].sender.uncounted && s.lanes[p].sender.sent != []
    ensures Safe(g, s.(lanes := s.lanes[p := s.lanes[p].(sender := Counted(s.lanes[p].sender))]))
  {
    hide SenderFits, StreamFits, ReaderFits, ScheduleFits, ServerSound;
    CountKeepsLane(g, s.lanes[p], p, s.server.conns[p], s.server.got[p]);
    LaneStepIsSafe(g, s, p, s.lanes[p].(sender := Counted(s.lanes[p].sender)));
  }

  lemma CloseKeepsLane(g: Config, l: Lane, p: nat, conn: Sessions.Conn, got: seq<Chunk>)
    requires p < U32_LIMIT && LaneFits(g, l, p, conn, got) && l.phase == Writing && Drained(l.sender)
    ensures LaneFits(g, Closed(l), p, conn, got)
  {
  }

  lemma CloseIsSafe(g: Config, s: State, p: nat)
    requires Safe(g, s) && p < |s.lanes| && s.lanes[p].phase == Writing && AllSent(g, s)
    ensures Safe(g, s.(lanes := s.lanes[p := Closed(s.lanes[p])]))
  {
    hide SenderFits, StreamFits, ReaderFits, ScheduleFits, ServerSound;
    CloseKeepsLane(g, s.lanes[p], p, s.server.conns[p], s.server.got[p]);
    LaneStepIsSafe(g, s, p, Closed(s.lanes[p]));
  }

  lemma DeliverIsSafe(g: Config, s: State, p: nat, upTo: nat)
    requires Safe(g, s) && p < |s.lanes| && s.lanes[p].delivered <= upTo <= |s.lanes[p].stream|
    ensures Safe(g, s.(lanes := s.lanes[p := s.lanes[p].(delivered := upTo)]))
  {
    hide SenderFits, StreamFits, ReaderFits, ScheduleFits, ServerSound;
    LaneStepIsSafe(g, s, p, s.lanes[p].(delivered := upTo));
  }

  lemma PhaseIsSafe(g: Config, s: State, p: nat, phase: Phase)
    requires Safe(g, s) && p < |s.lanes| && s.lanes[p].phase == Draining
    requires phase == TimedOut || (phase == Confirmed && s.server.conns[p].Acked?)
    ensures Safe(g, s.(lanes := s.lanes[p := s.lanes[p].(phase := phase)]))
  {
    hide SenderFits, StreamFits, ReaderFits, ScheduleFits, ServerSound;
    LaneStepIsSafe(g, s, p, s.lanes[p].(phase := phase));
  }

  /** A step of the server, with what it did to one lane's position; the client's side of the lane is as before. */
  lemma ServerStepIsSafe(g: Config, s: State, act: Sessions.Action, l: Lane)
    requires ValidConfig(g) && Safe(g, s) && Sessions.Enabled(s.server, act) && ReadsRight(g, act)
    requires !act.End? && !act.TakeOut?
    requires act.p < |s.lanes| && l.sender == s.lanes[act.p].sender && l.phase == s.lanes[act.p].phase
    requires
      var v := Sessions.Next(s.server, act);
      |v.conns| == |v.got| == |s.lanes| && LaneFits(g, l, act.p, v.conns[act.p], v.got[act.p])
    ensures Safe(g, s.(server := Sessions.Next(s.server, act), lanes := s.lanes[act.p := l]))
  {
    hide LaneFits, ScheduleFits, ServerSound, ReadsRight;
    var t := s.(server := Sessions.Next(s.server, act), lanes := s.lanes[act.p := l]);
    ServerStepIsSound(g, s, act);
    ScheduleUntouched(g, s, t);
    LanesStayFit(g, s, t, act.p);
    SentStays(g, s, act.p, l);
  }

  lemma EndIsSafe(g: Config, s: State)
    requires ValidConfig(g) && Safe(g, s) && Sessions.Enabled(s.server, Sessions.End)
    ensures Safe(g, s.(server := Sessions.Next(s.server, Sessions.End)))
  {
    hide LaneFits, ScheduleFits, ServerSound;
    ServerStepIsSound(g, s, Sessions.End);
    ScheduleUntouched(g, s, s.(server := Sessions.Next(s.server, Sessions.End)));
  }

  lemma GreetIsSafe(g: Config, s: State, p: nat)
    requires ValidConfig(g) && Safe(g, s) && Enabled(g, s, Greet(p))
    ensures Safe(g, Next(g, s, Greet(p)))
  {
    hide SenderFits, StreamFits, ReaderFits, ScheduleFits, ServerSound;
    var l := s.lanes[p];
    GreetKeepsLane(g, l, p, s.server.conns[p], s.server.got[p]);
    ServerStepIsSafe(g, s, Sessions.Greet(p, PreambleAt(Visible(l))),
      l.(position := l.position + PreambleLength(Visible(l))));
  }

  /** The next frame read on a lane is genuine if its checksum is right, and fits the lane. */
  lemma NextRead(g: Config, l: Lane, p: nat, conn: Sessions.Conn, got: seq<Chunk>, now: int)
    requires ValidConfig(g) && p < U32_LIMIT && LaneFits(g, l, p, conn, got) && conn.Reading? && HasFrame(Visible(l))
    ensures
      var c := FrameAt(Visible(l));
      && ReadsRight(g, Sessions.Read(p, c, now))
      && LaneFits(g, l.(position := l.position + HEADER + |c.data|), p,
        Sessions.Reading(Sessions.Tallied(conn.result, c)), got + [c])
  {
    hide StreamFits, ReaderFits, HasFrame, FrameAt, Visible;
    SeenFrame(g, l, p, conn, got);
    SeenIsGenuine(g, l.sender, |got|);
    ReadKeepsLane(g, l, p, conn, got, FrameAt(Visible(l)));
  }

  lemma ReadIsSafe(g: Config, s: State, p: nat, now: int)
    requires ValidConfig(g) && Safe(g, s) && Enabled(g, s, ReadFrame(p, now))
    ensures Safe(g, Next(g, s, ReadFrame(p, now)))
  {
    hide LaneFits, ScheduleFits, ServerSound, HasFrame, FrameAt, ReadsRight, ValidConfig;
    var l := s.lanes[p];
    var c := FrameAt(Visible(l));
    NextRead(g, l, p, s.server.conns[p], s.server.got[p], now);
    ServerStepIsSafe(g, s, Sessions.Read(p, c, now), l.(position := l.position + HEADER + |c.data|));
  }

  lemma SeenIsGenuine(g: Config, w: Sender, i: nat)
    requires ValidConfig(g) && SenderFits(g, w) && i < |w.sent|
    ensures Arrives(g, w.sent[i]).VerifyChecksum() ==> Sessions.IsSlotOf(Arrives(g, w.sent[i]), g.payload, g.size)
  {
    if Arrives(g, w.sent[i]).VerifyChecksum() {
      ArrivesGenuine(g, w.sent[i]);
    }
  }

  lemma EndOfStreamIsSafe(g: Config, s: State, p: nat)
    requires Enabled(g, s, ReadEnd(p)) && Sessions.Enabled(s.server, Sessions.Finish(p, true))
    requires ValidConfig(g) && Safe(g, s)
    ensures Safe(g, s.(server := Sessions.Next(s.server, Sessions.Finish(p, true))))
  {
    hide SenderFits, StreamFits, ReaderFits, ScheduleFits, ServerSound;
    SeenEnd(g, s.lanes[p], p, s.server.conns[p], s.server.got[p]);
    assert s.lanes[p := s.lanes[p]] == s.lanes;
    ServerStepIsSafe(g, s, Sessions.Finish(p, true), s.lanes[p]);
  }

  lemma WaitIsSafe(g: Config, s: State, p: nat, act: Sessions.Action)
    requires ValidConfig(g) && Safe(g, s) && p < |s.lanes| && Sessions.Enabled(s.server, act)
    requires act == Sessions.Proceed(p) || act == Sessions.GiveUp(p)
    ensures Safe(g, s.(server := Sessions.Next(s.server, act)))
  {
    hide SenderFits, StreamFits, ScheduleFits, ServerSound;
    assert s.lanes[p := s.lanes[p]] == s.lanes;
    ServerStepIsSafe(g, s, act, s.lanes[p]);
  }

  lemma LeaveIsSafe(g: Config, s: State, p: nat, act: Sessions.Action)
    requires ValidConfig(g) && Safe(g, s) && p < |s.lanes| && Sessions.Enabled(s.server, act)
    requires act == Sessions.Finish(p, false) || act == Sessions.Ack(p)
    ensures Safe(g, s.(server := Sessions.Next(s.server, act)))
  {
    hide SenderFits, StreamFits, ScheduleFits, ServerSound;
    assert s.lanes[p := s.lanes[p]] == s.lanes;
    ServerStepIsSafe(g, s, act, s.lanes[p]);
  }

  /** Every step of the client, the network and the server keeps the transfer safe. */
  lemma StepIsSafe(g: Config, s: State, act: Action)
    requires ValidConfig(g) && Safe(g, s) && Enabled(g, s, act)
    ensures Safe(g, Next(g, s, act))
  {
    hide Safe;
    match act {
      case Assign(_, _, _) => AssignIsSafe(g, s, act);
      case Push => PushIsSafe(g, s);
      case WriteFrame(p, data) => WriteIsSafe(g, s, p, data);
      case FailWrite(p, data, k) => FailIsSafe(g, s, p, data, k);
      case CountSent(p) => CountIsSafe(g, s, p);
      case CloseStream(p) => CloseIsSafe(g, s, p);
      case Deliver(p, upTo) => DeliverIsSafe(g, s, p, upTo);
      case Greet(p) => GreetIsSafe(g, s, p);
      case Proceed(p) => WaitIsSafe(g, s, p, Sessions.Proceed(p));
      case GiveUp(p) => WaitIsSafe(g, s, p, Sessions.GiveUp(p));
      case ReadFrame(p, now) => ReadIsSafe(g, s, p, now);
      case ReadEnd(p) => EndOfStreamIsSafe(g, s, p);
      case Abort(p) => LeaveIsSafe(g, s, p, Sessions.Finish(p, false));
      case Ack(p) => LeaveIsSafe(g, s, p, Sessions.Ack(p));
      case Confirm(p) => PhaseIsSafe(g, s, p, Confirmed);
      case TimeOut(p) => PhaseIsSafe(g, s, p, TimedOut);
      case End => EndIsSafe(g, s);
    }
  }

  // ---- Whole runs ----

  ghost predicate IsTransfer(g: Config, run: seq<State>, acts: seq<Action>) {
    && |run| == |acts| + 1
    && ValidConfig(g) && run[0] == Start(g)
    && forall i | 0 <= i < |acts| ::
         Enabled(g, run[i], acts[i]) && run[i + 1] == Next(g, run[i], acts[i])
  }

  lemma {:induction false} NothingAllotted(g: Config, lanes: seq<Lane>)
    requires forall p | 0 <= p < |lanes| :: lanes[p].sender.allotted == []
    ensures LanesKnown(g, lanes) && AllottedBytes(g, lanes) == 0
  {
    if lanes != [] {
      NothingAllotted(g, lanes[1..]);
    }
  }

  lemma OpeningFits(g: Config, p: nat)
    requires p < U32_LIMIT
    ensures LaneFits(g, Opening(g, p), p, Sessions.Opened, [])
  {
    AppendNothing(PreambleBytes(PreambleOf(g, p)));
    assert AllArrive(g, []) == [];
    var c := Chunk(0, 0, 0, 0, 0, []);
    assert IsPart([], c, 0);
  }

  lemma StartIsSafe(g: Config)
    requires ValidConfig(g)
    ensures Safe(g, Start(g))
  {
    hide LaneFits;
    var s := Start(g);
    NothingAllotted(g, s.lanes);
    forall p | 0 <= p < |s.lanes| ensures LaneFits(g, s.lanes[p], p, s.server.conns[p], s.server.got[p]) {
      OpeningFits(g, p);
    }
    Sessions.StartIsSound(g.paths);
    Sessions.NothingRecorded(s.server.conns);
  }

  lemma {:induction false} RunIsSafe(g: Config, run: seq<State>, acts: seq<Action>)
    requires IsTransfer(g, run, acts)
    ensures Safe(g, run[|acts|])
    decreases |acts|
  {
    hide Safe;
    if acts == [] {
      StartIsSafe(g);
    } else {
      var k := |acts| - 1;
      RunIsSafe(g, run[..k + 1], acts[..k]);
      StepIsSafe(g, run[k], acts[k]);
    }
  }
}
