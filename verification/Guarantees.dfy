/** What a transfer guarantees to its client and its server: the theorems over all runs. */
module Guarantees {
  import opened Bytes
  import opened Chunks
  import opened Preambles
  import opened Reassembly
  import opened Schedulers
  import opened Transfer
  import opened TransferSafety
  import Sessions

  // ---- The server's buffer ----

  /** The buffer holds the payload on the slots received and zeros elsewhere. */
  ghost predicate RightWhereReceived(a: Assembly, payload: seq<Byte>, size: nat)
    requires size > 0
  {
    && |a.buf| == |payload| && |a.received| == ChunkCount(|payload|, size)
    && forall k | 0 <= k < |payload| ::
         k / size < |a.received| && a.buf[k] == if a.received[k / size] then payload[k] else 0
  }

  lemma FilledIsRight(payload: seq<Byte>, size: U32, slots: set<nat>)
    requires size > 0
    ensures RightWhereReceived(Filled(payload, size, slots), payload, size)
  {
    forall k | 0 <= k < |payload| ensures 0 <= k / size < ChunkCount(|payload|, size) {
      PositionHasSlot(|payload|, size, k);
    }
  }

  lemma SafeIsFaithful(g: Config, s: State)
    requires ValidConfig(g) && Safe(g, s) && s.server.core.ctrl.Some?
    ensures s.server.core.tracker.Assembling?
    ensures Sessions.HoldsPayload(s.server.core.tracker.assembly, g.payload, g.size)
    ensures s.server.core.tracker.assembly.size == g.size
  {
    hide LanesFit, ScheduleFits;
    GotIsGenuine(g, s);
  }

  /** In every reachable state: no panic, and the buffer is right on exactly the slots that have arrived undamaged. */
  lemma EveryBufferIsRight(g: Config, run: seq<State>, acts: seq<Action>)
    requires IsTransfer(g, run, acts)
    ensures
      var s := run[|acts|].server;
      && !s.core.panicked
      && (s.core.ctrl.Some? ==>
            && s.core.tracker.Assembling?
            && RightWhereReceived(s.core.tracker.assembly, g.payload, g.size)
            && forall i: nat | i < |s.core.tracker.assembly.received| ::
                 s.core.tracker.assembly.received[i] <==> Sessions.Arrived(s.got, g.size, i))
  {
    hide LanesFit, ScheduleFits;
    RunIsSafe(g, run, acts);
    var s := run[|acts|];
    if s.server.core.ctrl.Some? {
      SafeIsFaithful(g, s);
      var slots :| slots <= AllSlots(g.payload, g.size)
        && s.server.core.tracker.assembly == Filled(g.payload, g.size, slots);
      FilledIsRight(g.payload, g.size, slots);
    }
  }

  // ---- One path ----

  predicate Intact(g: Config, f: Sent) {
    f.number < |g.plan| && f.data == g.plan[f.number].data
  }

  function DamagedCount(g: Config, sent: seq<Sent>): nat {
    if sent == [] then 0
    else DamagedCount(g, sent[..|sent| - 1]) + if Intact(g, sent[|sent| - 1]) then 0 else 1
  }

  ghost predicate MayAllArrive(g: Config, sent: seq<Sent>) {
    Known(g, sent) && forall i | 0 <= i < |sent| :: MayArriveAs(g.plan[sent[i].number].data, sent[i].data)
  }

  lemma ArrivingOneMore(g: Config, sent: seq<Sent>, f: Sent)
    requires Known(g, sent) && f.number < |g.plan|
    ensures Sessions.DataBytes(AllArrive(g, sent + [f])) == Sessions.DataBytes(AllArrive(g, sent)) + |f.data|
    ensures Sessions.BadCount(AllArrive(g, sent + [f])) ==
            Sessions.BadCount(AllArrive(g, sent)) + if Arrives(g, f).VerifyChecksum() then 0 else 1
  {
    hide Chunk.VerifyChecksum;
    AppendArriving(g, sent, f);
    Sessions.CountOneMore(AllArrive(g, sent), Arrives(g, f));
  }

  lemma NumberOneMore(g: Config, sent: seq<Sent>, f: Sent)
    requires Known(g, sent) && f.number < |g.plan|
    ensures NumberBytes(g, Numbers(sent + [f])) == NumberBytes(g, Numbers(sent)) + |g.plan[f.number].data|
  {
    AppendNumbers(sent, f);
    assert (Numbers(sent) + [f.number])[..|sent|] == Numbers(sent);
  }

  /** The server's counters for what arrives are those of what was sent. */
  lemma {:induction false} ArrivingCounts(g: Config, sent: seq<Sent>)
    requires MayAllArrive(g, sent)
    ensures Sessions.DataBytes(AllArrive(g, sent)) == SentBytes(sent) == NumberBytes(g, Numbers(sent))
    ensures Sessions.BadCount(AllArrive(g, sent)) == DamagedCount(g, sent)
  {
    hide MayArriveAs, Chunk.VerifyChecksum, AllArrive, Numbers, Arrives;
    if sent == [] {
      assert AllArrive(g, sent) == [] && Numbers(sent) == [];
    } else {
      var init, f := sent[..|sent| - 1], sent[|sent| - 1];
      ArrivingCounts(g, init);
      ArrivesVerified(g, f);
      ArrivesAsLong(g, f);
      assert sent == init + [f];
      ArrivingOneMore(g, init, f);
      NumberOneMore(g, init, f);
    }
  }

  /** What a plain end of a path's stream means, on both sides of it. */
  ghost predicate PathDelivered(g: Config, w: Sender, conn: Sessions.Conn, got: seq<Chunk>, p: nat) {
    && MayAllArrive(g, w.sent) && Drained(w) && w.lost == []
    && Numbers(w.sent) == w.allotted
    && got == AllArrive(g, w.sent)
    && w.bytesSent == NumberBytes(g, Numbers(w.sent))
    && Sessions.Active(conn) && conn.result == Sessions.PathResult(p, w.bytesSent, w.chunksSent,
      DamagedCount(g, w.sent))
  }

  lemma AllRead(g: Config, sent: seq<Sent>, position: nat, p: nat, got: seq<Chunk>)
    requires p < U32_LIMIT && Known(g, sent) && ReaderFits(g, sent, position, p, false, got) && |got| == |sent|
    ensures got == AllArrive(g, sent)
  {
  }

  lemma PlainEndDelivers(g: Config, l: Lane, p: nat, conn: Sessions.Conn, got: seq<Chunk>)
    requires p < U32_LIMIT && LaneFits(g, l, p, conn, got) && EndedPlainly(conn) && Sessions.Counted(conn, got)
    ensures PathDelivered(g, l.sender, conn, got, p)
  {
    hide MayArriveAs, PartOfFrame, StreamFits, ReaderFits, AllArrive, Numbers, DamagedCount, NumberBytes;
    AllRead(g, l.sender.sent, l.position, p, got);
    ArrivingCounts(g, l.sender.sent);
    AppendNothing(Numbers(l.sender.sent));
  }

  /**
   Drain-ack safety: once the client has read the acknowledgement on a path, everything ever queued for that path
   has been written, read and handled, nothing was lost, and the path's result, with exactly the client's counts,
   is among those recorded.
   */
  lemma AckProvesDelivery(g: Config, run: seq<State>, acts: seq<Action>, p: nat)
    requires IsTransfer(g, run, acts)
    requires p < |run[|acts|].lanes| && run[|acts|].lanes[p].phase == Confirmed
    ensures
      var s := run[|acts|];
      && p < |s.server.conns| && p < |s.server.got| && s.server.conns[p].Acked?
      && PathDelivered(g, s.lanes[p].sender, s.server.conns[p], s.server.got[p], p)
      && s.server.conns[p].result in s.server.core.results
  {
    hide ScheduleFits, SenderFits, StreamFits, ReaderFits, PathDelivered;
    RunIsSafe(g, run, acts);
    var s := run[|acts|];
    assert LaneFits(g, s.lanes[p], p, s.server.conns[p], s.server.got[p]);
    assert Sessions.Counted(s.server.conns[p], s.server.got[p]);
    PlainEndDelivers(g, s.lanes[p], p, s.server.conns[p], s.server.got[p]);
    Sessions.ResultIsRecorded(s.server.conns, p);
    assert s.server.conns[p].result in multiset(s.server.core.results);
  }

  // ---- All paths ----

  ghost predicate AllDelivered(g: Config, s: State) {
    && |s.lanes| == |s.server.conns| == |s.server.got|
    && forall p | 0 <= p < |s.lanes| :: PathDelivered(g, s.lanes[p].sender, s.server.conns[p], s.server.got[p], p)
  }

  ghost predicate AllEndedPlainly(s: State) {
    forall p | 0 <= p < |s.server.conns| :: EndedPlainly(s.server.conns[p])
  }

  lemma PlainEndsDeliver(g: Config, s: State)
    requires Safe(g, s) && AllEndedPlainly(s)
    ensures AllDelivered(g, s)
  {
    hide ScheduleFits, PathDelivered, SenderFits, StreamFits, ReaderFits, HandshakeFits;
    forall p | 0 <= p < |s.lanes| ensures PathDelivered(g, s.lanes[p].sender, s.server.conns[p], s.server.got[p], p) {
      assert LaneFits(g, s.lanes[p], p, s.server.conns[p], s.server.got[p]);
      assert Sessions.Counted(s.server.conns[p], s.server.got[p]);
      PlainEndDelivers(g, s.lanes[p], p, s.server.conns[p], s.server.got[p]);
    }
  }

  /** An undamaged copy of chunk k was sent on some path. */
  ghost predicate HasIntactCopy(g: Config, lanes: seq<Lane>, k: nat) {
    exists p, j | 0 <= p < |lanes| && 0 <= j < |lanes[p].sender.sent| :: IsIntactCopy(g, lanes[p].sender.sent[j], k)
  }

  predicate IsIntactCopy(g: Config, f: Sent, k: nat) {
    Intact(g, f) && f.number == k
  }

  ghost predicate NothingDamaged(g: Config, lanes: seq<Lane>) {
    forall p, j | 0 <= p < |lanes| && 0 <= j < |lanes[p].sender.sent| :: Intact(g, lanes[p].sender.sent[j])
  }

  /** A frame is good for a slot on the server exactly when it is an undamaged copy of the slot's chunk. */
  lemma GoodIsIntact(g: Config, f: Sent, k: nat)
    requires ValidConfig(g) && f.number < |g.plan| && MayArriveAs(g.plan[f.number].data, f.data)
    ensures Sessions.IsGoodFor(Arrives(g, f), g.size, k) <==> IsIntactCopy(g, f, k)
  {
    hide MayArriveAs, Chunk.VerifyChecksum;
    ArrivesVerified(g, f);
    DivisionIsUnique(Arrives(g, f).offset, g.size, f.number, 0);
  }

  lemma ArrivedIsIntact(g: Config, s: State, k: nat)
    requires ValidConfig(g) && AllDelivered(g, s)
    ensures Sessions.Arrived(s.server.got, g.size, k) <==> HasIntactCopy(g, s.lanes, k)
  {
    hide MayArriveAs, Sessions.IsGoodFor, IsIntactCopy;
    var got := s.server.got;
    if Sessions.Arrived(got, g.size, k) {
      var p, j :| 0 <= p < |got| && 0 <= j < |got[p]| && Sessions.IsGoodFor(got[p][j], g.size, k);
      assert PathDelivered(g, s.lanes[p].sender, s.server.conns[p], got[p], p);
      GoodIsIntact(g, s.lanes[p].sender.sent[j], k);
    }
    if HasIntactCopy(g, s.lanes, k) {
      var p, j :| 0 <= p < |s.lanes| && 0 <= j < |s.lanes[p].sender.sent|
        && IsIntactCopy(g, s.lanes[p].sender.sent[j], k);
      assert PathDelivered(g, s.lanes[p].sender, s.server.conns[p], got[p], p);
      GoodIsIntact(g, s.lanes[p].sender.sent[j], k);
      assert Sessions.IsGoodFor(got[p][j], g.size, k);
    }
  }

  /** Once every path has ended plainly, every chunk of the plan has been sent, at least once. */
  lemma EverythingWasSent(g: Config, s: State, k: nat)
    requires ValidConfig(g) && Safe(g, s) && AllDelivered(g, s) && AllSent(g, s) && k < |g.plan|
    ensures exists p, j ::
              0 <= p < |s.lanes| && 0 <= j < |s.lanes[p].sender.sent| && s.lanes[p].sender.sent[j].number == k
  {
    hide PathDelivered, LanesFit, ServerSound;
    assert Covered(s.lanes, k);
    var p, i :| 0 <= p < |s.lanes| && 0 <= i < |s.lanes[p].sender.allotted| && s.lanes[p].sender.allotted[i] == k;
    assert PathDelivered(g, s.lanes[p].sender, s.server.conns[p], s.server.got[p], p);
    SentAt(g, s.lanes[p].sender, s.server.conns[p], s.server.got[p], p, i);
  }

  lemma SentAt(g: Config, w: Sender, conn: Sessions.Conn, got: seq<Chunk>, p: nat, i: nat)
    requires PathDelivered(g, w, conn, got, p) && i < |w.allotted|
    ensures i < |w.sent| && w.sent[i].number == w.allotted[i]
  {
  }

  /** A server's assembly is complete exactly when every slot has arrived, and then it is the payload, whole. */
  lemma CompleteMeansPayload(g: Config, s: State)
    requires ValidConfig(g) && Safe(g, s) && s.server.core.ctrl.Some?
    ensures
      var a := s.server.core.tracker.assembly;
      && (a.remaining == 0 <==> forall k: nat | k < |g.plan| :: Sessions.Arrived(s.server.got, g.size, k))
      && (a.remaining == 0 ==> a.buf == g.payload && a.receivedBytes == |g.payload|)
  {
    hide LanesFit, ScheduleFits, Filled, AllSlots, Sessions.Arrived, Sessions.Barrier, Sessions.AllCounted;
    SafeIsFaithful(g, s);
    var a := s.server.core.tracker.assembly;
    var slots :| slots <= AllSlots(g.payload, g.size) && a == Filled(g.payload, g.size, slots);
    CompleteBySlot(g.payload, g.size, slots);
  }

  /** A state in which every connection has ended plainly has been started and has sent everything. */
  lemma EndedMeansSent(g: Config, s: State)
    requires ValidConfig(g) && Safe(g, s) && AllEndedPlainly(s)
    ensures s.server.core.ctrl.Some? && AllSent(g, s)
    ensures forall p | 0 <= p < |s.server.conns| :: Sessions.Finished(s.server.conns[p])
  {
    hide ScheduleFits, SenderFits, StreamFits, ReaderFits;
    assert LaneFits(g, s.lanes[0], 0, s.server.conns[0], s.server.got[0]);
    assert Sessions.Active(s.server.conns[0]);
  }

  /**
   End to end: whatever the scheduler, the round-trip times and the interleaving, once every stream has been read to
   its plain end the reassembler is complete if and only if of every chunk some copy was undamaged, and then it
   holds exactly the payload.
   */
  lemma DrainedTransferIsComplete(g: Config, run: seq<State>, acts: seq<Action>)
    requires IsTransfer(g, run, acts) && AllEndedPlainly(run[|acts|])
    ensures run[|acts|].server.core.tracker.Assembling?
    ensures
      var s := run[|acts|];
      var a := s.server.core.tracker.assembly;
      && (a.remaining == 0 <==> forall k: nat | k < |g.plan| :: HasIntactCopy(g, s.lanes, k))
      && (a.remaining == 0 ==> a.buf == g.payload && a.receivedBytes == |g.payload|)
      && (NothingDamaged(g, s.lanes) ==> a.remaining == 0)
  {
    hide Safe, AllDelivered, AllSent, HasIntactCopy, Sessions.Arrived, NothingDamaged;
    RunIsSafe(g, run, acts);
    var s := run[|acts|];
    PlainEndsDeliver(g, s);
    EndedMeansSent(g, s);
    SafeIsFaithful(g, s);
    CompleteMeansPayload(g, s);
    forall k: nat | k < |g.plan|
      ensures Sessions.Arrived(s.server.got, g.size, k) <==> HasIntactCopy(g, s.lanes, k)
      ensures NothingDamaged(g, s.lanes) ==> HasIntactCopy(g, s.lanes, k)
    {
      ArrivedIsIntact(g, s, k);
      UndamagedIsIntact(g, s, k);
    }
  }

  lemma UndamagedIsIntact(g: Config, s: State, k: nat)
    requires ValidConfig(g) && Safe(g, s) && AllDelivered(g, s) && AllSent(g, s) && k < |g.plan|
    ensures NothingDamaged(g, s.lanes) ==> HasIntactCopy(g, s.lanes, k)
  {
    hide Safe, AllDelivered, AllSent, ValidConfig;
    EverythingWasSent(g, s, k);
    var p, j :| 0 <= p < |s.lanes| && 0 <= j < |s.lanes[p].sender.sent| && s.lanes[p].sender.sent[j].number == k;
    assert Intact(g, s.lanes[p].sender.sent[j]) ==> IsIntactCopy(g, s.lanes[p].sender.sent[j], k);
  }

  // ---- The verdict ----

  lemma {:induction false} NoneDamaged(g: Config, sent: seq<Sent>)
    ensures DamagedCount(g, sent) == 0 <==> forall j | 0 <= j < |sent| :: Intact(g, sent[j])
  {
    if sent != [] {
      NoneDamaged(g, sent[..|sent| - 1]);
      assert forall j | 0 <= j < |sent| - 1 :: sent[j] == sent[..|sent| - 1][j];
    }
  }

  lemma LaneUndamaged(g: Config, w: Sender, conn: Sessions.Conn, got: seq<Chunk>, p: nat)
    requires PathDelivered(g, w, conn, got, p)
    ensures Sessions.Active(conn)
    ensures conn.result.corrupted == 0 <==> forall j | 0 <= j < |w.sent| :: Intact(g, w.sent[j])
  {
    NoneDamaged(g, w.sent);
  }

  lemma CorruptedMeansDamaged(g: Config, s: State)
    requires AllDelivered(g, s) && forall p | 0 <= p < |s.server.conns| :: Sessions.Finished(s.server.conns[p])
    ensures Sessions.FinishedCorrupted(s.server.conns) == 0 <==> NothingDamaged(g, s.lanes)
  {
    hide PathDelivered, Intact;
    Sessions.NoneCorrupted(s.server.conns);
    forall p | 0 <= p < |s.lanes|
      ensures s.server.conns[p].result.corrupted == 0 <==> forall j | 0 <= j < |s.lanes[p].sender.sent| ::
              Intact(g, s.lanes[p].sender.sent[j])
    {
      assert PathDelivered(g, s.lanes[p].sender, s.server.conns[p], s.server.got[p], p);
      LaneUndamaged(g, s.lanes[p].sender, s.server.conns[p], s.server.got[p], p);
    }
  }

  /**
   After plain ends on all paths the server's integrity verdict is true if and only if no frame was damaged at all.
   */
  lemma VerdictMeansUndamaged(g: Config, run: seq<State>, acts: seq<Action>)
    requires IsTransfer(g, run, acts) && AllEndedPlainly(run[|acts|]) && run[|acts|].server.core.endings != []
    ensures |run[|acts|].server.core.endings| == 1
    ensures run[|acts|].server.core.endings[0].integrityOk <==> NothingDamaged(g, run[|acts|].lanes)
    ensures multiset(run[|acts|].server.core.endings[0].results) == Sessions.FinishedResults(run[|acts|].server.conns)
  {
    hide AllDelivered, LanesFit, ScheduleFits, Sessions.FinishedResults, NothingDamaged, HasIntactCopy;
    var s := run[|acts|];
    DrainedTransferIsComplete(g, run, acts);
    RunIsSafe(g, run, acts);
    PlainEndsDeliver(g, s);
    EndedMeansSent(g, s);
    CorruptedMeansDamaged(g, s);
  }

  // ---- Bytes ----

  /** Every byte the client counts as sent, over all paths. */
  function TotalSent(lanes: seq<Lane>): nat {
    if lanes == [] then 0 else lanes[0].sender.bytesSent + TotalSent(lanes[1..])
  }

  /** Every byte the server's path results report. */
  function TotalReceived(conns: seq<Sessions.Conn>): nat {
    if conns == [] then 0
    else TotalReceived(conns[1..]) + if Sessions.Active(conns[0]) then conns[0].result.bytes else 0
  }

  lemma {:induction false} PlanIsPayload(g: Config, n: nat)
    requires ValidConfig(g) && n <= |g.plan|
    ensures PlanBytes(g, n) == GotBytes(g.payload, g.size, AllSlots(g.payload, g.size), n)
  {
    if n > 0 {
      PlanIsPayload(g, n - 1);
    }
  }

  lemma WholePlan(g: Config)
    requires ValidConfig(g)
    ensures PlanBytes(g, |g.plan|) == |g.payload|
  {
    var n := |g.plan|;
    PlanIsPayload(g, n);
    GotAll(g.payload, g.size, AllSlots(g.payload, g.size), n);
    CountCovers(|g.payload|, g.size);
  }

  lemma {:induction false} LanesTotal(g: Config, lanes: seq<Lane>)
    requires LanesKnown(g, lanes)
    requires forall p | 0 <= p < |lanes| :: lanes[p].sender.bytesSent == NumberBytes(g, lanes[p].sender.allotted)
    ensures TotalSent(lanes) == AllottedBytes(g, lanes)
  {
    if lanes != [] {
      LanesTotal(g, lanes[1..]);
    }
  }

  lemma {:induction false} TotalsAgree(lanes: seq<Lane>, conns: seq<Sessions.Conn>)
    requires |lanes| == |conns|
    requires forall p | 0 <= p < |lanes| ::
               Sessions.Active(conns[p]) && conns[p].result.bytes == lanes[p].sender.bytesSent
    ensures TotalSent(lanes) == TotalReceived(conns)
  {
    if lanes != [] {
      TotalsAgree(lanes[1..], conns[1..]);
    }
  }

  lemma DeliveredBytes(g: Config, s: State, p: nat)
    requires AllDelivered(g, s) && p < |s.lanes|
    ensures Sessions.Active(s.server.conns[p]) && s.server.conns[p].result.bytes == s.lanes[p].sender.bytesSent
    ensures s.server.conns[p].result.chunks == s.lanes[p].sender.chunksSent
    ensures Known(g, s.lanes[p].sender.sent) && Numbers(s.lanes[p].sender.sent) == s.lanes[p].sender.allotted
    ensures s.lanes[p].sender.bytesSent == NumberBytes(g, Numbers(s.lanes[p].sender.sent))
  {
    assert PathDelivered(g, s.lanes[p].sender, s.server.conns[p], s.server.got[p], p);
  }

  predicate NothingLost(lanes: seq<Lane>) {
    forall p | 0 <= p < |lanes| :: lanes[p].sender.lost == []
  }

  lemma {:induction false} CountedIsAllotted(g: Config, w: Sender)
    requires SenderFits(g, w) && Drained(w) && w.lost == []
    ensures Known(g, w.sent) && w.allotted == Numbers(w.sent)
    ensures w.bytesSent == NumberBytes(g, w.allotted)
  {
    hide MayArriveAs, PartOfFrame;
    AppendNothing(Numbers(w.sent));
    ArrivingCounts(g, w.sent);
  }

  lemma LaneSender(g: Config, s: State, p: nat)
    requires LanesFit(g, s) && p < |s.lanes|
    ensures SenderFits(g, s.lanes[p].sender)
  {
    assert LaneFits(g, s.lanes[p], p, s.server.conns[p], s.server.got[p]);
  }

  lemma SentIsAllotted(g: Config, s: State)
    requires LanesFit(g, s) && AllSent(g, s) && NothingLost(s.lanes) && LanesKnown(g, s.lanes)
    ensures TotalSent(s.lanes) == AllottedBytes(g, s.lanes)
  {
    hide LanesFit, SenderFits, NumberBytes;
    forall p | 0 <= p < |s.lanes| ensures s.lanes[p].sender.bytesSent == NumberBytes(g, s.lanes[p].sender.allotted) {
      LaneSender(g, s, p);
      CountedIsAllotted(g, s.lanes[p].sender);
    }
    LanesTotal(g, s.lanes);
  }

  lemma AllottedInAll(g: Config, s: State)
    requires ValidConfig(g) && ScheduleFits(g, s) && AllSent(g, s)
    ensures AllottedBytes(g, s.lanes) == Copies(g) * |g.payload|
  {
    hide Covered;
    WholePlan(g);
  }

  /** When everything has been sent and no write has failed, the client has counted the payload once per copy. */
  lemma EverythingIsCounted(g: Config, run: seq<State>, acts: seq<Action>)
    requires IsTransfer(g, run, acts) && AllSent(g, run[|acts|]) && NothingLost(run[|acts|].lanes)
    ensures TotalSent(run[|acts|].lanes) == Copies(g) * |g.payload|
  {
    hide LanesFit, AllSent;
    RunIsSafe(g, run, acts);
    SentIsAllotted(g, run[|acts|]);
    AllottedInAll(g, run[|acts|]);
  }

  lemma DeliveredIsNotLost(g: Config, s: State)
    requires AllDelivered(g, s)
    ensures NothingLost(s.lanes)
  {
    forall p | 0 <= p < |s.lanes| ensures s.lanes[p].sender.lost == [] {
      assert PathDelivered(g, s.lanes[p].sender, s.server.conns[p], s.server.got[p], p);
    }
  }

  /** Path by path, client and server count the same bytes and the same chunks. */
  predicate CountsAgree(s: State) {
    && |s.lanes| == |s.server.conns|
    && forall p | 0 <= p < |s.lanes| ::
         && Sessions.Active(s.server.conns[p])
         && s.server.conns[p].result.bytes == s.lanes[p].sender.bytesSent
         && s.server.conns[p].result.chunks == s.lanes[p].sender.chunksSent
  }

  lemma DeliveredCountsAgree(g: Config, s: State)
    requires AllDelivered(g, s)
    ensures CountsAgree(s)
  {
    forall p | 0 <= p < |s.lanes|
      ensures Sessions.Active(s.server.conns[p]) && s.server.conns[p].result.bytes == s.lanes[p].sender.bytesSent
      ensures s.server.conns[p].result.chunks == s.lanes[p].sender.chunksSent
    {
      DeliveredBytes(g, s, p);
    }
  }

  /**
   Byte conservation: after plain ends on all paths client and server agree on bytes and chunks path by path, and in
   all it is the payload once, or once per path under the redundant scheduler.
   */
  lemma BytesAreConserved(g: Config, run: seq<State>, acts: seq<Action>)
    requires IsTransfer(g, run, acts) && AllEndedPlainly(run[|acts|])
    ensures CountsAgree(run[|acts|])
    ensures TotalReceived(run[|acts|].server.conns) == TotalSent(run[|acts|].lanes)
         == (if g.kind.RedundantKind? then g.paths else 1) * |g.payload|
  {
    hide Safe, AllDelivered, AllSent, NothingLost;
    var s := run[|acts|];
    RunIsSafe(g, run, acts);
    PlainEndsDeliver(g, s);
    EndedMeansSent(g, s);
    DeliveredIsNotLost(g, s);
    DeliveredCountsAgree(g, s);
    TotalsAgree(s.lanes, s.server.conns);
    EverythingIsCounted(g, run, acts);
  }

  /**
   The client's test that a burst has been sent, comparing the bytes counted with the burst's size: with every write
   successful it holds if and only if the scheduler makes no copies. Under the redundant scheduler with two or more
   paths it fails although everything was sent.
   */
  lemma SentEqualsSizeOnlyWithoutCopies(g: Config, run: seq<State>, acts: seq<Action>)
    requires IsTransfer(g, run, acts) && AllSent(g, run[|acts|]) && NothingLost(run[|acts|].lanes)
    ensures TotalSent(run[|acts|].lanes) == |g.payload| <==> (g.kind.RedundantKind? ==> g.paths == 1)
  {
    EverythingIsCounted(g, run, acts);
    OnlyOnce(Copies(g), |g.payload|);
  }

  // ---- Redundancy ----

  function FirstNumbers(n: nat): (r: seq<nat>)
    ensures |r| == n
  {
    seq(n, i => i)
  }

  /** Under the redundant scheduler each path is allotted every chunk, in order; the last one path by path. */
  predicate Mirrored(g: Config, s: State) {
    g.kind.RedundantKind? ==>
      && |s.lanes| == g.paths && |s.pushing| <= g.paths && (s.pushing != [] ==> s.next > 0)
      && (forall i | 0 <= i < |s.pushing| :: s.pushing[i] == g.paths - |s.pushing| + i)
      && forall p | 0 <= p < |s.lanes| ::
           s.lanes[p].sender.allotted == if p < g.paths - |s.pushing| then FirstNumbers(s.next)
             else FirstNumbers(s.next - 1)
  }

  lemma AssignKeepsMirrored(g: Config, s: State, act: Action)
    requires ValidConfig(g) && Mirrored(g, s) && act.Assign? && Enabled(g, s, act)
    ensures Mirrored(g, Next(g, s, act))
  {
    AnswersAreValid(g.kind, s.counter, act.infos, act.idxs, act.counter);
  }

  lemma PushKeepsMirrored(g: Config, s: State)
    requires ValidConfig(g) && Mirrored(g, s) && s.pushing != [] && s.next > 0 && s.pushing[0] < |s.lanes|
    ensures Mirrored(g, Pushed(s))
  {
    assert FirstNumbers(s.next) == FirstNumbers(s.next - 1) + [s.next - 1];
  }

  lemma OthersKeepMirrored(g: Config, s: State, t: State)
    requires Mirrored(g, s) && |t.lanes| == |s.lanes| && t.next == s.next && t.pushing == s.pushing
    requires forall p | 0 <= p < |s.lanes| :: s.lanes[p].sender.allotted == t.lanes[p].sender.allotted
    ensures Mirrored(g, t)
  {
  }

  lemma StepKeepsMirrored(g: Config, s: State, act: Action)
    requires ValidConfig(g) && Mirrored(g, s) && Enabled(g, s, act)
    ensures Mirrored(g, Next(g, s, act))
  {
    hide Mirrored, SenderFits, CanWrite, CanFail, Chooses;
    if act.Assign? {
      AssignKeepsMirrored(g, s, act);
    } else if act.Push? {
      PushKeepsMirrored(g, s);
    } else {
      OthersKeepMirrored(g, s, Next(g, s, act));
    }
  }

  lemma {:induction false} RunIsMirrored(g: Config, run: seq<State>, acts: seq<Action>)
    requires IsTransfer(g, run, acts)
    ensures Mirrored(g, run[|acts|])
    decreases |acts|
  {
    hide Enabled;
    if acts == [] {
      assert FirstNumbers(0) == [];
    } else {
      var k := |acts| - 1;
      RunIsMirrored(g, run[..k + 1], acts[..k]);
      StepKeepsMirrored(g, run[k], acts[k]);
    }
  }

  lemma WholePlanArrives(g: Config, w: Sender, conn: Sessions.Conn, got: seq<seq<Chunk>>, p: nat, k: nat)
    requires ValidConfig(g) && p < |got| && PathDelivered(g, w, conn, got[p], p)
    requires w.allotted == FirstNumbers(|g.plan|) && k < |g.plan|
    requires forall j | 0 <= j < |w.sent| :: Intact(g, w.sent[j])
    ensures Sessions.Arrived(got, g.size, k)
  {
    hide MayArriveAs;
    assert Numbers(w.sent)[k] == FirstNumbers(|g.plan|)[k] == k;
    GoodIsIntact(g, w.sent[k], k);
    assert Sessions.IsGoodFor(got[p][k], g.size, k);
  }

  /**
   Under the redundant scheduler a single path is enough: if one path is confirmed and its frames were undamaged, the
   server holds the payload, whatever happened on the other paths.
   */
  lemma OnePathIsEnough(g: Config, run: seq<State>, acts: seq<Action>, p: nat)
    requires IsTransfer(g, run, acts) && g.kind.RedundantKind?
    requires p < |run[|acts|].lanes| && run[|acts|].lanes[p].phase == Confirmed
    requires forall j | 0 <= j < |run[|acts|].lanes[p].sender.sent| :: Intact(g, run[|acts|].lanes[p].sender.sent[j])
    ensures
      var tracker := run[|acts|].server.core.tracker;
      && tracker.Assembling? && tracker.assembly.remaining == 0 && tracker.assembly.buf == g.payload
      && tracker.assembly.receivedBytes == |g.payload|
  {
    hide LaneFits, PathDelivered, ScheduleFits, FirstNumbers, Intact, Sessions.Arrived;
    var s := run[|acts|];
    RunIsSafe(g, run, acts);
    RunIsMirrored(g, run, acts);
    AckProvesDelivery(g, run, acts, p);
    assert Sessions.Active(s.server.conns[p]);
    SafeIsFaithful(g, s);
    CompleteMeansPayload(g, s);
    forall k: nat | k < |g.plan| ensures Sessions.Arrived(s.server.got, g.size, k) {
      WholePlanArrives(g, s.lanes[p].sender, s.server.conns[p], s.server.got, p, k);
    }
  }

  // ---- The end of a stream ----

  /** All of a closed stream is read to a plain end: at every point its reader sees a whole frame or nothing at all. */
  lemma FinEndsPlainly(g: Config, run: seq<State>, acts: seq<Action>, p: nat, now: int)
    requires IsTransfer(g, run, acts) && p < |run[|acts|].lanes|
    requires
      var l := run[|acts|].lanes[p];
      l.fin && l.delivered == |l.stream| && p < |run[|acts|].server.conns| && run[|acts|].server.conns[p].Reading?
    ensures Enabled(g, run[|acts|], ReadFrame(p, now)) || Enabled(g, run[|acts|], ReadEnd(p))
  {
    hide ScheduleFits, LaneFits, HasFrame, Sessions.AllRecorded, Sessions.Faithful, Sessions.AllCounted,
         Sessions.SlotsArrived, Enabled, Visible;
    RunIsSafe(g, run, acts);
    var s := run[|acts|];
    forall q | 0 <= q < |s.lanes| ensures InOrder(s.lanes[q]) {
      LaneInOrder(g, s.lanes[q], q, s.server.conns[q], s.server.got[q]);
    }
    FrameOrNothing(g, s.lanes[p], p, s.server.conns[p], s.server.got[p]);
    ReadingGoesOn(g, s, p, now);
  }

  lemma ReadingGoesOn(g: Config, s: State, p: nat, now: int)
    requires p < |s.lanes| == |s.server.conns| == |s.server.got|
    requires InOrder(s.lanes[p]) && forall q | 0 <= q < |s.lanes| :: InOrder(s.lanes[q])
    requires s.lanes[p].fin && s.lanes[p].delivered == |s.lanes[p].stream|
    requires !s.server.core.panicked && s.server.conns[p].Reading?
    requires HasFrame(Visible(s.lanes[p])) || Visible(s.lanes[p]) == []
    ensures Enabled(g, s, ReadFrame(p, now)) || Enabled(g, s, ReadEnd(p))
  {
    hide HasFrame, FrameAt;
    if !HasFrame(Visible(s.lanes[p])) {
      assert FieldBoundary(|Visible(s.lanes[p])|);
    }
  }

  lemma LaneInOrder(g: Config, l: Lane, p: nat, conn: Sessions.Conn, got: seq<Chunk>)
    requires p < U32_LIMIT && LaneFits(g, l, p, conn, got)
    ensures InOrder(l)
  {
  }

  lemma FrameOrNothing(g: Config, l: Lane, p: nat, conn: Sessions.Conn, got: seq<Chunk>)
    requires ValidConfig(g) && p < U32_LIMIT && LaneFits(g, l, p, conn, got) && !conn.Opened?
    requires InOrder(l) && l.fin && l.delivered == |l.stream|
    ensures HasFrame(Visible(l)) || Visible(l) == []
  {
    hide HasFrame, PreambleBytes, MayArriveAs, PartOfFrame, StreamFits, ReaderFits;
    Unread(g, l, p, got);
    WholeRest(l.stream, l.position);
    AppendNothing(Frames(AllArrive(g, l.sender.sent)[|got|..]));
    if !HasFrame(Visible(l)) {
      SeenEnd(g, l, p, conn, got);
    }
  }
}
