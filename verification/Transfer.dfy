/**
 A whole one-shot transfer, client to server, as a state machine: the scheduler fills queues, one writer per
 path puts frames on its stream, streams deliver in order and may damage frame data, the server's connections
 read whatever has arrived, and the drain handshake closes each path. All steps interleave freely.
 */
module Transfer {
  import opened Bytes
  import opened Streams
  import opened Chunks
  import opened Preambles
  import opened Reassembly
  import opened Schedulers
  import Crc
  import Sessions

  /** plan is what Split makes of the payload; scheduler and round-trip times are arbitrary. */
  datatype Config = Config(payload: seq<Byte>, size: U32, plan: seq<Chunk>, paths: nat, kind: Kind,
    header: ControlHeader)

  ghost predicate ValidConfig(g: Config) {
    && 0 < |g.payload| < INT_LIMIT
    && g.size == EffectiveSize(|g.payload|, g.header.chunkSize) && g.size > 0
    && IsSplit(g.plan, g.payload, g.size, 0, |g.payload|)
    && 0 < g.paths < U32_LIMIT
    && g.header.totalSize == |g.payload| && g.header.numPaths == g.paths
    && |g.header.scheduler| < U16_LIMIT
  }

  function PreambleOf(g: Config, p: nat): Preamble
    requires p < U32_LIMIT
  {
    if p == 0 then Control(g.header) else Hello(PathHello(g.header.sessionId, p))
  }

  /** A frame written on a path: the chunk's number, and its data as the stream will deliver it. */
  datatype Sent = Sent(number: nat, data: seq<Byte>)

  datatype Phase = Writing | Draining | Confirmed | TimedOut

  /** The client's queue and writer for one path. */
  datatype Sender = Sender(
    allotted: seq<nat>,     // every chunk number ever queued for this path
    queue: seq<nat>,
    sent: seq<Sent>,        // the frames written whole
    lost: seq<nat>,         // numbers of the chunks whose writing failed; from the first failure on, all fail
    torn: seq<Byte>,        // what the first failure left of its frame on the stream
    uncounted: bool,        // the last frame is written but not yet in the counters
    bytesSent: nat,
    chunksSent: nat)

  /** One path: its sender, its stream, and how far the two ends are. */
  datatype Lane = Lane(
    sender: Sender,
    stream: seq<Byte>,
    fin: bool,
    delivered: nat,         // how much of the stream the server has been able to see
    position: nat,          // how much of it the server has read
    phase: Phase)

  datatype State = State(
    next: nat,              // chunks given to the scheduler so far
    counter: U64,
    pushing: seq<nat>,      // paths the last chunk has still to be queued for
    lanes: seq<Lane>,
    server: Sessions.State)

  datatype Action =
    | Assign(infos: seq<PathInfo>, idxs: seq<nat>, counter: U64)
    | Push
    | WriteFrame(p: nat, data: seq<Byte>)
    | FailWrite(p: nat, data: seq<Byte>, k: nat)   // after k bytes of the frame
    | CountSent(p: nat)
    | CloseStream(p: nat)
    | Deliver(p: nat, upTo: nat)
    | Greet(p: nat)
    | Proceed(p: nat)
    | GiveUp(p: nat)
    | ReadFrame(p: nat, now: int)
    | ReadEnd(p: nat)       // ReadChunk reports the plain end of the stream
    | Abort(p: nat)         // any other error, at any time
    | Ack(p: nat)
    | Confirm(p: nat)
    | TimeOut(p: nat)
    | End

  const QUEUE_CAPACITY: nat := 64

  predicate Drained(w: Sender) {
    w.queue == [] && !w.uncounted
  }

  /** sendChunks has returned: everything is assigned, queued, written and counted. */
  predicate AllSent(g: Config, s: State) {
    && s.next == |g.plan| && s.pushing == []
    && forall q | 0 <= q < |s.lanes| :: Drained(s.lanes[q].sender)
  }

  /** The network may change the data of a frame, but only within 32 consecutive bits. */
  ghost predicate MayArriveAs(data: seq<Byte>, arrived: seq<Byte>) {
    exists w: nat :: Crc.WithinBurst(data, arrived, w)
  }

  ghost predicate CanWrite(g: Config, w: Sender, data: seq<Byte>) {
    && w.queue != [] && !w.uncounted && w.queue[0] < |g.plan| && w.lost == []
    && MayArriveAs(g.plan[w.queue[0]].data, data)
  }

  /** A write fails short of the frame's end; once one has failed, nothing more gets onto the stream. */
  ghost predicate CanFail(g: Config, w: Sender, data: seq<Byte>, k: nat) {
    && w.queue != [] && !w.uncounted && w.queue[0] < |g.plan|
    && if w.lost == [] then MayArriveAs(g.plan[w.queue[0]].data, data) && k < HEADER + |data| else k == 0
  }

  function ToServer(s: State, act: Action): Sessions.Action
    requires act.Greet? || act.Proceed? || act.GiveUp? || act.ReadFrame? || act.ReadEnd? || act.Abort? || act.Ack?
             || act.End?
    requires !act.End? ==> act.p < |s.lanes|
                           && s.lanes[act.p].position <= s.lanes[act.p].delivered <= |s.lanes[act.p].stream|
    requires act.Greet? ==> HasPreamble(Visible(s.lanes[act.p]))
    requires act.ReadFrame? ==> HasFrame(Visible(s.lanes[act.p]))
  {
    match act
    case Greet(p) => Sessions.Greet(p, PreambleAt(Visible(s.lanes[p])))
    case Proceed(p) => Sessions.Proceed(p)
    case GiveUp(p) => Sessions.GiveUp(p)
    case ReadFrame(p, now) => Sessions.Read(p, FrameAt(Visible(s.lanes[p])), now)
    case ReadEnd(p) => Sessions.Finish(p, true)
    case Abort(p) => Sessions.Finish(p, false)
    case Ack(p) => Sessions.Ack(p)
    case End => Sessions.End
  }

  /** The delivered bytes the server has not read yet. */
  function Visible(l: Lane): seq<Byte>
    requires l.position <= l.delivered <= |l.stream|
  {
    l.stream[l.position..l.delivered]
  }

  predicate InOrder(l: Lane) {
    l.position <= l.delivered <= |l.stream|
  }

  ghost predicate Enabled(g: Config, s: State, act: Action) {
    && (forall q | 0 <= q < |s.lanes| :: InOrder(s.lanes[q]))
    && match act
       case Assign(infos, idxs, counter) =>
         s.next < |g.plan| && s.pushing == [] && |infos| == g.paths && WellIndexed(infos)
         && Chooses(g.kind, s.counter, infos, idxs, counter)
       case Push => s.pushing != [] && s.next > 0 && s.pushing[0] < |s.lanes|
         && |s.lanes[s.pushing[0]].sender.queue| < QUEUE_CAPACITY
       case WriteFrame(p, data) =>
         p < |s.lanes| && CanWrite(g, s.lanes[p].sender, data)
       case FailWrite(p, data, k) => p < |s.lanes| && CanFail(g, s.lanes[p].sender, data, k)
       case CountSent(p) => p < |s.lanes| && s.lanes[p].sender.uncounted && s.lanes[p].sender.sent != []
       case CloseStream(p) => p < |s.lanes| && s.lanes[p].phase == Writing && AllSent(g, s)
       case Deliver(p, upTo) => p < |s.lanes| && s.lanes[p].delivered <= upTo <= |s.lanes[p].stream|
       case Confirm(p) => p < |s.lanes| && s.lanes[p].phase == Draining && p < |s.server.conns|
         && s.server.conns[p].Acked?
       case TimeOut(p) => p < |s.lanes| && s.lanes[p].phase == Draining
       case Greet(p) => p < |s.lanes| && HasPreamble(Visible(s.lanes[p]))
         && Sessions.Enabled(s.server, ToServer(s, act))
       case ReadFrame(p, _) => p < |s.lanes| && HasFrame(Visible(s.lanes[p]))
         && Sessions.Enabled(s.server, ToServer(s, act))
       case ReadEnd(p) =>
         p < |s.lanes| && s.lanes[p].fin && s.lanes[p].delivered == |s.lanes[p].stream|
           && !HasFrame(Visible(s.lanes[p]))
         && FieldBoundary(|Visible(s.lanes[p])|) && Sessions.Enabled(s.server, ToServer(s, act))
       case Proceed(p) => p < |s.lanes| && Sessions.Enabled(s.server, ToServer(s, act))
       case GiveUp(p) => p < |s.lanes| && Sessions.Enabled(s.server, ToServer(s, act))
       case Abort(p) => p < |s.lanes| && Sessions.Enabled(s.server, ToServer(s, act))
       case Ack(p) => p < |s.lanes| && Sessions.Enabled(s.server, ToServer(s, act))
       case End => Sessions.Enabled(s.server, ToServer(s, act))
  }

  /** The frame's chunk as the server reads it: the checksum is of the data written. */
  function Arrives(g: Config, f: Sent): Chunk
    requires f.number < |g.plan|
  {
    g.plan[f.number].Stamped().(data := f.data)
  }

  function OnServer(s: State, act: Action): State
    requires act.Greet? || act.Proceed? || act.GiveUp? || act.ReadFrame? || act.ReadEnd? || act.Abort? || act.Ack?
             || act.End?
    requires !act.End? ==> act.p < |s.lanes| && InOrder(s.lanes[act.p])
    requires act.Greet? ==> HasPreamble(Visible(s.lanes[act.p]))
    requires act.ReadFrame? ==> HasFrame(Visible(s.lanes[act.p]))
    requires Sessions.Enabled(s.server, ToServer(s, act))
  {
    s.(server := Sessions.Next(s.server, ToServer(s, act)))
  }

  function Written(g: Config, l: Lane, data: seq<Byte>): Lane
    requires l.sender.queue != [] && l.sender.queue[0] < |g.plan|
  {
    var w := l.sender;
    var f := Sent(w.queue[0], data);
    l.(sender := w.(queue := w.queue[1..], sent := w.sent + [f], uncounted := true), stream := l.stream
      + Frame(Arrives(g, f)))
  }

  function Failed(g: Config, l: Lane, data: seq<Byte>, k: nat): Lane
    requires l.sender.queue != [] && l.sender.queue[0] < |g.plan| && k <= HEADER + |data|
  {
    var w := l.sender;
    var part := Frame(Arrives(g, Sent(w.queue[0], data)))[..k];
    l.(sender := w.(queue := w.queue[1..], lost := w.lost + [w.queue[0]], torn := w.torn + part), stream := l.stream
      + part)
  }

  function Counted(w: Sender): Sender
    requires w.sent != []
  {
    w.(uncounted := false, bytesSent := w.bytesSent + |w.sent[|w.sent| - 1].data|, chunksSent := w.chunksSent + 1)
  }

  /** Only a stream on which every write succeeded ends with a FIN. */
  function Closed(l: Lane): Lane {
    l.(fin := l.sender.lost == [], phase := Draining)
  }

  function Queued(w: Sender, k: nat): Sender {
    w.(allotted := w.allotted + [k], queue := w.queue + [k])
  }

  function Pushed(s: State): State
    requires s.pushing != [] && s.pushing[0] < |s.lanes| && s.next > 0
  {
    var q := s.pushing[0];
    var l := s.lanes[q];
    s.(pushing := s.pushing[1..], lanes := s.lanes[q := l.(sender := Queued(l.sender, s.next - 1))])
  }

  ghost function Next(g: Config, s: State, act: Action): State
    requires Enabled(g, s, act)
  {
    match act
    case Assign(_, idxs, counter) => s.(next := s.next + 1, counter := counter, pushing := idxs)
    case Push => Pushed(s)
    case WriteFrame(p, data) => s.(lanes := s.lanes[p := Written(g, s.lanes[p], data)])
    case FailWrite(p, data, k) => s.(lanes := s.lanes[p := Failed(g, s.lanes[p], data, k)])
    case CountSent(p) => s.(lanes := s.lanes[p := s.lanes[p].(sender := Counted(s.lanes[p].sender))])
    case CloseStream(p) => s.(lanes := s.lanes[p := Closed(s.lanes[p])])
    case Deliver(p, upTo) => s.(lanes := s.lanes[p := s.lanes[p].(delivered := upTo)])
    case Confirm(p) => s.(lanes := s.lanes[p := s.lanes[p].(phase := Confirmed)])
    case TimeOut(p) => s.(lanes := s.lanes[p := s.lanes[p].(phase := TimedOut)])
    case Greet(p) =>
      var l := s.lanes[p];
      OnServer(s, act).(lanes := s.lanes[p := l.(position := l.position + PreambleLength(Visible(l)))])
    case ReadFrame(p, _) =>
      var l := s.lanes[p];
      OnServer(s, act).(lanes := s.lanes[p := l.(position := l.position + HEADER + |FrameAt(Visible(l)).data|)])
    case ReadEnd(_) => OnServer(s, act)
    case Proceed(_) => OnServer(s, act)
    case GiveUp(_) => OnServer(s, act)
    case Abort(_) => OnServer(s, act)
    case Ack(_) => OnServer(s, act)
    case End => OnServer(s, act)
  }

  function Opening(g: Config, p: nat): Lane
    requires p < U32_LIMIT
  {
    Lane(Sender([], [], [], [], [], false, 0, 0), PreambleBytes(PreambleOf(g, p)), false, 0, 0, Writing)
  }

  /** Every path's preamble is on its stream before the first chunk is scheduled. */
  function Start(g: Config): State
    requires g.paths < U32_LIMIT
  {
    State(0, 0, [], seq(g.paths, p requires 0 <= p < g.paths => Opening(g, p)), Sessions.Start(g.paths))
  }

  // ---- What holds of one lane ----

  function Numbers(sent: seq<Sent>): (r: seq<nat>)
    ensures |r| == |sent|
  {
    seq(|sent|, i requires 0 <= i < |sent| => sent[i].number)
  }

  predicate Known(g: Config, sent: seq<Sent>) {
    forall i | 0 <= i < |sent| :: sent[i].number < |g.plan|
  }

  /** The chunks a lane's stream carries, as they arrive. */
  function AllArrive(g: Config, sent: seq<Sent>): (r: seq<Chunk>)
    requires Known(g, sent)
    ensures |r| == |sent|
  {
    seq(|sent|, i requires 0 <= i < |sent| => Arrives(g, sent[i]))
  }

  function SentBytes(sent: seq<Sent>): nat {
    if sent == [] then 0 else SentBytes(sent[..|sent| - 1]) + |sent[|sent| - 1].data|
  }

  ghost predicate SenderFits(g: Config, w: Sender) {
    && Known(g, w.sent)
    && (forall k | 0 <= k < |w.queue| :: w.queue[k] < |g.plan|)
    && w.allotted == Numbers(w.sent) + w.lost + w.queue
    && (w.lost == [] ==> w.torn == []) && PartOfFrame(w.torn)
    && (forall i | 0 <= i < |w.sent| :: MayArriveAs(g.plan[w.sent[i].number].data, w.sent[i].data))
    && (w.uncounted ==> w.sent != [])
    && var counted := if w.uncounted then w.sent[..|w.sent| - 1] else w.sent;
    w.bytesSent == SentBytes(counted) && w.chunksSent == |counted|
  }

  ghost predicate PartOfFrame(part: seq<Byte>) {
    exists c: Chunk, k: nat :: IsPart(part, c, k)
  }

  predicate IsPart(part: seq<Byte>, c: Chunk, k: nat) {
    |c.data| < U32_LIMIT && k < HEADER + |c.data| && part == Frame(c)[..k]
  }

  /** A stream carries the preamble, the frames written whole, and at most part of one more. */
  ghost predicate StreamFits(g: Config, stream: seq<Byte>, sent: seq<Sent>, torn: seq<Byte>, p: nat)
    requires p < U32_LIMIT
  {
    Known(g, sent) && stream == PreambleBytes(PreambleOf(g, p)) + (Frames(AllArrive(g, sent)) + torn)
  }

  /** The server has read the preamble and the frames of a prefix of what was sent. */
  ghost predicate ReaderFits(g: Config, sent: seq<Sent>, position: nat, p: nat, unread: bool, got: seq<Chunk>)
    requires p < U32_LIMIT && Known(g, sent)
  {
    && |got| <= |sent| && got == AllArrive(g, sent)[..|got|]
    && if unread then position == 0 && got == []
       else position == |PreambleBytes(PreambleOf(g, p))| + |Frames(got)|
  }

  predicate EndedPlainly(conn: Sessions.Conn) {
    (conn.Done? && conn.clean) || conn.Acked?
  }

  /** After a plain end everything sent has been read; a confirmed path has been acknowledged. */
  predicate HandshakeFits(l: Lane, p: nat, conn: Sessions.Conn, got: seq<Chunk>) {
    && (!Sessions.Active(conn) ==> got == [])
    && (EndedPlainly(conn) ==> l.fin && |got| == |l.sender.sent|)
    && (conn.Waiting? ==> conn.index == p) && (Sessions.Active(conn) ==> conn.result.index == p)
    && (l.phase != Writing ==> Drained(l.sender))
    && (l.fin ==> l.phase != Writing && l.sender.lost == [])
    && (l.phase == Confirmed ==> conn.Acked?)
  }

  ghost predicate LaneFits(g: Config, l: Lane, p: nat, conn: Sessions.Conn, got: seq<Chunk>)
    requires p < U32_LIMIT
  {
    && InOrder(l) && SenderFits(g, l.sender) && StreamFits(g, l.stream, l.sender.sent, l.sender.torn, p)
    && ReaderFits(g, l.sender.sent, l.position, p, conn.Opened?, got) && HandshakeFits(l, p, conn, got)
  }
}
