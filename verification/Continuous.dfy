/**
 A continuous session's server as a whole: the connections of the session and the recorders of its burst log, running
 freely against each other on one tracker. What each connection counted is found again in the log, path by path.
 */
module Continuous {
  import opened Bytes
  import opened Streams
  import opened Chunks
  import opened Preambles
  import opened Sums
  import opened Bursts
  import opened PathLog
  import BurstLog
  import Crc
  import Sessions

  datatype State = State(session: Sessions.State, log: BurstLog.State)

  /** Connection p is that of path p. A chunk read, and an entry taken out, are steps of both parts. */
  datatype Action =
    | Connect(act: Sessions.Action)         // greeting, waiting, finishing and acknowledging
    | Bring(p: nat, c: Chunks.Chunk, now: int)
    | TakeOut(take: BurstLog.Action)        // the sweep loop, or a shutdown of the process
    | Log(row: BurstLog.Action)
    | End(flush: BurstLog.Action)           // the end of the session, with its flush

  predicate IsConnect(act: Sessions.Action) {
    match act
    case Greet(p, preamble) => Sessions.PreambleIndex(preamble) == p
    case Proceed(_) => true
    case GiveUp(_) => true
    case Finish(_, _) => true
    case Ack(_) => true
    case _ => false
  }

  /** A chunk's arrival at the tracker: corrupted exactly if its checksum is not that of its data. */
  function ArrivalOf(c: Chunks.Chunk, path: nat, now: int): Arrival {
    Arrival(c, Crc.Checksum(c.data) != c.checksum, path, now)
  }

  ghost predicate Enabled(s: State, act: Action, ttl: int) {
    && BurstLog.Tracked(s.log)
    && match act
       case Connect(a) => IsConnect(a) && Sessions.Enabled(s.session, a)
       case Bring(p, c, now) => Sessions.Enabled(s.session, Sessions.Read(p, c, now))
       case TakeOut(t) =>
         (t.Sweep? || t.Flush?) && BurstLog.Enabled(s.log, t, ttl)
         && Sessions.Enabled(s.session, Sessions.TakeOut(ToSet(t.order)))
       case Log(a) => (a.LogBurst? || a.LogPath?) && BurstLog.Enabled(s.log, a, ttl)
       case End(f) => f.Flush? && BurstLog.Enabled(s.log, f, ttl) && Sessions.Enabled(s.session, Sessions.End)
  }

  ghost function Next(s: State, act: Action, ttl: int): State
    requires Enabled(s, act, ttl)
  {
    match act
    case Connect(a) => s.(session := Sessions.Next(s.session, a))
    case Bring(p, c, now) =>
      var a := BurstLog.Arrive(ArrivalOf(c, p, now));
      State(Sessions.Next(s.session, Sessions.Read(p, c, now)), BurstLog.Next(s.log, a, ttl))
    case TakeOut(t) =>
      State(Sessions.Next(s.session, Sessions.TakeOut(ToSet(t.order))), BurstLog.Next(s.log, t, ttl))
    case Log(a) => s.(log := BurstLog.Next(s.log, a, ttl))
    case End(f) => State(Sessions.Next(s.session, Sessions.End), BurstLog.Next(s.log, f, ttl))
  }

  // ---- The two parts agree on the tracker ----

  predicate IndexFits(conn: Sessions.Conn, p: nat) {
    (conn.Waiting? ==> conn.index == p) && (Sessions.Active(conn) ==> conn.result.index == p)
  }

  /** The session is continuous, if it has been started. */
  predicate IsContinuous(s: Sessions.State) {
    s.core.ctrl.Some? ==> s.core.ctrl.value.totalSize == 0
  }

  /** The arrivals on a path are the chunks its connection has handled, each with the right flag. */
  predicate ArrivalsFit(arrivals: seq<Arrival>, got: seq<seq<Chunks.Chunk>>) {
    && (forall p | 0 <= p < |got| :: ChunksOn(arrivals, p) == got[p])
    && forall i | 0 <= i < |arrivals| ::
         && arrivals[i].path < |got|
         && arrivals[i].corrupted == (Crc.Checksum(arrivals[i].chunk.data) != arrivals[i].chunk.checksum)
  }

  ghost predicate Agree(s: State) {
    && Sessions.Barrier(s.session) && BurstLog.Tracked(s.log)
    && (forall p | 0 <= p < |s.session.conns| :: IndexFits(s.session.conns[p], p))
    && (if s.session.core.ctrl.None? then s.log.tracker == map[]
        else s.session.core.tracker == Sessions.Tracking(s.log.tracker))
    && ArrivalsFit(s.log.arrivals, s.session.got)
  }

  lemma OneMoreArrival(arrivals: seq<Arrival>, got: seq<seq<Chunks.Chunk>>, p: nat, c: Chunks.Chunk, now: int)
    requires ArrivalsFit(arrivals, got) && p < |got|
    ensures ArrivalsFit(arrivals + [ArrivalOf(c, p, now)], got[p := got[p] + [c]])
  {
    hide Crc.Checksum;
    var more, longer := arrivals + [ArrivalOf(c, p, now)], got[p := got[p] + [c]];
    assert more[..|arrivals|] == arrivals;
    forall q | 0 <= q < |longer| ensures ChunksOn(more, q) == longer[q] {
      if q != p {
        AppendNothing(ChunksOn(arrivals, q));
      }
    }
  }

  lemma ChunkAgrees(s: State, p: nat, c: Chunks.Chunk, now: int, ttl: int)
    requires Agree(s) && IsContinuous(s.session) && Enabled(s, Bring(p, c, now), ttl)
    ensures Agree(Next(s, Bring(p, c, now), ttl))
  {
    hide BurstLog.Take, Crc.Checksum, ArrivalsFit, Sessions.Handled, WriteEntry;
    var act := Sessions.Read(p, c, now);
    Sessions.StepKeepsBarrier(s.session, act);
    Sessions.NoChunkBeforeStart(s.session, act);
    Sessions.HandledSays(s.session.core, c, p, now);
    OneMoreArrival(s.log.arrivals, s.session.got, p, c, now);
    WriteKeys(s.log.tracker, ArrivalOf(c, p, now));
  }

  lemma WriteKeys(m: Entries, a: Arrival)
    ensures WriteEntry(m, a).Keys == m.Keys + {a.chunk.burstId}
  {
  }

  lemma TakeOutAgrees(s: State, t: BurstLog.Action, ttl: int)
    requires Agree(s) && IsContinuous(s.session) && Enabled(s, TakeOut(t), ttl)
    ensures Agree(Next(s, TakeOut(t), ttl))
  {
    hide BurstLog.Take, ArrivalsFit;
    Sessions.StepKeepsBarrier(s.session, Sessions.TakeOut(ToSet(t.order)));
    BurstLog.OrderIsTracked(s.log, t, ttl);
  }

  lemma EndAgrees(s: State, f: BurstLog.Action, ttl: int)
    requires Agree(s) && IsContinuous(s.session) && Enabled(s, End(f), ttl)
    ensures Agree(Next(s, End(f), ttl))
  {
    hide BurstLog.Take, ArrivalsFit;
    Sessions.StepKeepsBarrier(s.session, Sessions.End);
    BurstLog.OrderIsTracked(s.log, f, ttl);
    ListsMembers(f.order, s.log.tracker.Keys);
    assert ToSet(f.order) == s.log.tracker.Keys;
  }

  lemma ConnectAgrees(s: State, a: Sessions.Action, ttl: int)
    requires Agree(s) && Enabled(s, Connect(a), ttl) && IsContinuous(Next(s, Connect(a), ttl).session)
    ensures Agree(Next(s, Connect(a), ttl))
  {
    hide ArrivalsFit;
    Sessions.StepKeepsBarrier(s.session, a);
  }

  lemma LogAgrees(s: State, a: BurstLog.Action, ttl: int)
    requires Agree(s) && Enabled(s, Log(a), ttl)
    ensures Agree(Next(s, Log(a), ttl))
  {
    hide ArrivalsFit, Sessions.Barrier;
  }

  lemma StepAgrees(s: State, act: Action, ttl: int)
    requires Agree(s) && Enabled(s, act, ttl) && IsContinuous(s.session) && IsContinuous(Next(s, act, ttl).session)
    ensures Agree(Next(s, act, ttl))
  {
    hide Agree;
    match act {
      case Connect(a) => ConnectAgrees(s, a, ttl);
      case Bring(p, c, now) => ChunkAgrees(s, p, c, now, ttl);
      case TakeOut(t) => TakeOutAgrees(s, t, ttl);
      case Log(a) => LogAgrees(s, a, ttl);
      case End(f) => EndAgrees(s, f, ttl);
    }
  }

  // ---- Whole runs ----

  function Start(paths: nat, recorders: nat): State {
    State(Sessions.Start(paths), BurstLog.Start(recorders))
  }

  ghost predicate IsRun(run: seq<State>, acts: seq<Action>, paths: nat, recorders: nat, ttl: int) {
    && |run| == |acts| + 1
    && run[0] == Start(paths, recorders)
    && forall i | 0 <= i < |acts| :: Enabled(run[i], acts[i], ttl) && run[i + 1] == Next(run[i], acts[i], ttl)
  }

  lemma StepWasContinuous(s: State, act: Action, ttl: int)
    requires Enabled(s, act, ttl) && IsContinuous(Next(s, act, ttl).session)
    ensures IsContinuous(s.session)
  {
    hide BurstLog.Next, BurstLog.Enabled, Sessions.Next, Sessions.Enabled;
    if s.session.core.ctrl.Some? {
      match act {
        case Connect(a) => Sessions.HeaderNeverChanges(s.session, a);
        case Bring(p, c, now) => Sessions.HeaderNeverChanges(s.session, Sessions.Read(p, c, now));
        case TakeOut(t) => Sessions.HeaderNeverChanges(s.session, Sessions.TakeOut(ToSet(t.order)));
        case Log(_) =>
        case End(_) => Sessions.HeaderNeverChanges(s.session, Sessions.End);
      }
    }
  }

  lemma StartAgrees(paths: nat, recorders: nat)
    ensures Agree(Start(paths, recorders))
  {
    Sessions.StartIsSound(paths);
  }

  /** In every run of a continuous session, whatever the interleaving, session and log agree. */
  lemma {:induction false} RunAgrees(run: seq<State>, acts: seq<Action>, paths: nat, recorders: nat, ttl: int)
    requires IsRun(run, acts, paths, recorders, ttl) && IsContinuous(run[|acts|].session)
    ensures Agree(run[|acts|])
    decreases |acts|
  {
    hide Agree, Enabled, Next;
    if acts == [] {
      StartAgrees(paths, recorders);
    } else {
      var k := |acts| - 1;
      StepWasContinuous(run[k], acts[k], ttl);
      RunAgrees(run[..k + 1], acts[..k], paths, recorders, ttl);
      StepAgrees(run[k], acts[k], ttl);
    }
  }

  /** The log's part of a run is a run of the log. */
  lemma {:induction false} LogRuns(run: seq<State>, acts: seq<Action>, paths: nat, recorders: nat, ttl: int)
    returns (logs: seq<BurstLog.State>, takes: seq<BurstLog.Action>)
    requires IsRun(run, acts, paths, recorders, ttl)
    ensures BurstLog.IsRun(logs, takes, recorders, ttl) && logs[|takes|] == run[|acts|].log
    decreases |acts|
  {
    hide Enabled, Next;
    if acts == [] {
      logs, takes := [BurstLog.Start(recorders)], [];
    } else {
      var k := |acts| - 1;
      logs, takes := LogRuns(run[..k + 1], acts[..k], paths, recorders, ttl);
      if !acts[k].Connect? {
        var act := LogPart(run[k], acts[k], ttl);
        logs, takes := ExtendLog(logs, takes, recorders, ttl, act);
      } else {
        ConnectKeepsLog(run[k], acts[k], ttl);
      }
    }
  }

  lemma ConnectKeepsLog(s: State, act: Action, ttl: int)
    requires Enabled(s, act, ttl) && act.Connect?
    ensures Next(s, act, ttl).log == s.log
  {
  }

  lemma LogPart(s: State, act: Action, ttl: int) returns (part: BurstLog.Action)
    requires Enabled(s, act, ttl) && !act.Connect?
    ensures BurstLog.Tracked(s.log) && BurstLog.Enabled(s.log, part, ttl)
    ensures Next(s, act, ttl).log == BurstLog.Next(s.log, part, ttl)
  {
    match act {
      case Bring(p, c, now) => part := BurstLog.Arrive(ArrivalOf(c, p, now));
      case TakeOut(t) => part := t;
      case Log(a) => part := a;
      case End(f) => part := f;
    }
  }

  lemma ExtendLog(logs: seq<BurstLog.State>, takes: seq<BurstLog.Action>, recorders: nat, ttl: int,
                  act: BurstLog.Action)
    returns (longer: seq<BurstLog.State>, more: seq<BurstLog.Action>)
    requires BurstLog.IsRun(logs, takes, recorders, ttl)
    requires BurstLog.Tracked(logs[|takes|]) && BurstLog.Enabled(logs[|takes|], act, ttl)
    ensures BurstLog.IsRun(longer, more, recorders, ttl) && |more| == |takes| + 1
    ensures longer[|more|] == BurstLog.Next(logs[|takes|], act, ttl)
  {
    hide BurstLog.Enabled, BurstLog.Next;
    var n := |takes|;
    longer, more := logs + [BurstLog.Next(logs[n], act, ttl)], takes + [act];
    forall i | 0 <= i < |more|
      ensures BurstLog.Tracked(longer[i]) && BurstLog.Enabled(longer[i], more[i], ttl)
      ensures longer[i + 1] == BurstLog.Next(longer[i], more[i], ttl)
    {
      if i < n {
        assert longer[i] == logs[i] && more[i] == takes[i] && longer[i + 1] == logs[i + 1];
      } else {
        assert longer[i] == logs[n] && more[i] == act;
      }
    }
  }

  // ---- What each connection counted is in the log ----

  lemma {:induction false} BadOn(arrivals: seq<Arrival>, p: nat)
    requires forall i | 0 <= i < |arrivals| ::
               arrivals[i].corrupted == (Crc.Checksum(arrivals[i].chunk.data) != arrivals[i].chunk.checksum)
    ensures Count(arrivals, CorruptOnPath(p)) == Sessions.BadCount(ChunksOn(arrivals, p))
  {
    hide Crc.Checksum;
    if arrivals != [] {
      var init, a := arrivals[..|arrivals| - 1], arrivals[|arrivals| - 1];
      BadOn(init, p);
      if a.path == p {
        Sessions.CountOneMore(ChunksOn(init, p), a.chunk);
      } else {
        AppendNothing(ChunksOn(init, p));
      }
    }
  }

  /** Chunks, or corrupted chunks, as connection p has counted them. */
  function CountOf(got: seq<Chunks.Chunk>, f: Field): nat {
    if f == Corrupted then Sessions.BadCount(got) else |got|
  }

  function SelectorOf(p: nat, f: Field): Selector {
    if f == Corrupted then CorruptOnPath(p) else OnPath(p)
  }

  lemma CountsAgree(s: State, p: nat, f: Field)
    requires Agree(s) && p < |s.session.got| && f != Field.Bytes
    ensures Count(s.log.arrivals, SelectorOf(p, f)) == CountOf(s.session.got[p], f)
  {
    hide Sessions.Barrier, Crc.Checksum;
    assert ChunksOn(s.log.arrivals, p) == s.session.got[p];
    BadOn(s.log.arrivals, p);
    CountsChunksOn(s.log.arrivals, p);
  }

  /**
   At every moment of every run of a continuous session: what the bursts logged, in hand and tracked have on a path, in
   chunks and in corrupted chunks, is exactly what the path's connection has read, and failed, so far.
   */
  lemma TrackerAccountsForConnections(run: seq<State>, acts: seq<Action>, paths: nat, recorders: nat, ttl: int,
                                      p: nat, f: Field)
    requires IsRun(run, acts, paths, recorders, ttl) && IsContinuous(run[|acts|].session)
    requires p < |run[|acts|].session.got| && f != Field.Bytes
    ensures
      var s := run[|acts|];
      SharesLogged(s.log.log, p, f) + SharesInHand(s.log.recorders, p, f)
        + SumValues(SharesTracked(s.log.tracker, p, f))
      == CountOf(s.session.got[p], f)
  {
    hide Enabled, Next, Agree, Sessions.BadCount;
    RunAgrees(run, acts, paths, recorders, ttl);
    CountsAgree(run[|acts|], p, f);
    var logs, takes := LogRuns(run, acts, paths, recorders, ttl);
    EveryPathIsCounted(logs, takes, recorders, ttl, p, f, SelectorOf(p, f));
  }

  /** When all is quiet, the log's rows of a path say what its connection has read, and failed. */
  lemma LogAccountsForConnections(run: seq<State>, acts: seq<Action>, paths: nat, recorders: nat, ttl: int, p: nat,
                                  f: Field)
    requires IsRun(run, acts, paths, recorders, ttl) && IsContinuous(run[|acts|].session) && Quiet(run[|acts|].log)
    requires p < |run[|acts|].session.got| && f != Field.Bytes
    ensures RowsOf(run[|acts|].log.log, p, f) == CountOf(run[|acts|].session.got[p], f)
  {
    hide Enabled, Next, Agree, Sessions.BadCount;
    RunAgrees(run, acts, paths, recorders, ttl);
    CountsAgree(run[|acts|], p, f);
    var logs, takes := LogRuns(run, acts, paths, recorders, ttl);
    PathChunksAddUp(logs, takes, recorders, ttl, p, f, SelectorOf(p, f));
  }

  // ---- End to end ----

  lemma {:induction false} IsOn(arrivals: seq<Arrival>, p: nat, i: nat)
    requires i < |arrivals| && arrivals[i].path == p
    ensures arrivals[i].chunk in ChunksOn(arrivals, p)
  {
    var init := arrivals[..|arrivals| - 1];
    if i < |init| {
      assert init[i] == arrivals[i];
      IsOn(init, p, i);
    }
  }

  lemma AllStamped(q: seq<Chunks.Chunk>, c: Chunks.Chunk)
    requires c in StampAll(q)
    ensures Crc.Checksum(c.data) == c.checksum
  {
  }

  lemma {:induction false} SameBytes(q: seq<Chunks.Chunk>)
    ensures Sessions.DataBytes(StampAll(q)) == Sessions.DataBytes(q)
  {
    if q != [] {
      SameBytes(q[..|q| - 1]);
      assert StampAll(q)[..|q| - 1] == StampAll(q[..|q| - 1]);
    }
  }

  lemma {:induction false} StampedIsGood(q: seq<Chunks.Chunk>)
    ensures Sessions.BadCount(StampAll(q)) == 0
  {
    Sessions.NoBad(StampAll(q));
  }

  lemma NoneBadOn(s: State, p: nat, q: seq<Chunks.Chunk>)
    requires Agree(s) && p < |s.session.got| && s.session.got[p] == StampAll(q)
    ensures forall i | 0 <= i < |s.log.arrivals| && s.log.arrivals[i].path == p :: !s.log.arrivals[i].corrupted
  {
    hide Sessions.Barrier, Crc.Checksum, StampAll;
    var arrivals := s.log.arrivals;
    forall i | 0 <= i < |arrivals| && arrivals[i].path == p ensures !arrivals[i].corrupted {
      assert ChunksOn(arrivals, p) == s.session.got[p];
      IsOn(arrivals, p, i);
      AllStamped(q, arrivals[i].chunk);
    }
  }

  /**
   End to end: let q be all that the client has put on path p, over any schedule of bursts, and let its connection have
   read the stream to its plain end. Once everything is flushed and logged, the rows of the path count exactly the
   client's chunks, none as corrupted, and the client's bytes, if no chunk was sent twice.
   */
  lemma ContinuousSessionAddsUp(run: seq<State>, acts: seq<Action>, paths: nat, recorders: nat, ttl: int, p: nat,
                                q: seq<Chunks.Chunk>)
    requires IsRun(run, acts, paths, recorders, ttl) && IsContinuous(run[|acts|].session) && Quiet(run[|acts|].log)
    requires p < |run[|acts|].session.got| && FitFrames(q)
    requires ReadAll(Frames(StampAll(q))) == (run[|acts|].session.got[p], EndOfStream)
    ensures RowsOf(run[|acts|].log.log, p, Field.Chunks) == |q|
    ensures RowsOf(run[|acts|].log.log, p, Corrupted) == 0
    ensures NoRepeats(run[|acts|].log.arrivals) ==> RowsOf(run[|acts|].log.log, p, Field.Bytes) == Sessions.DataBytes(q)
  {
    hide Enabled, Next, Agree, Quiet, NoRepeats, RowsOf, ReadAll, Sessions.BadCount, Crc.Checksum;
    var s := run[|acts|];
    StreamRoundTrip(StampAll(q));
    StampedIsGood(q);
    LogAccountsForConnections(run, acts, paths, recorders, ttl, p, Field.Chunks);
    LogAccountsForConnections(run, acts, paths, recorders, ttl, p, Corrupted);
    if NoRepeats(s.log.arrivals) {
      RunAgrees(run, acts, paths, recorders, ttl);
      NoneBadOn(s, p, q);
      var logs, takes := LogRuns(run, acts, paths, recorders, ttl);
      PathBytesAddUp(logs, takes, recorders, ttl, p);
      ArrivedIsGot(s, p);
      SameBytes(q);
    }
  }

  lemma ArrivedIsGot(s: State, p: nat)
    requires Agree(s) && p < |s.session.got|
    ensures ChunksOn(s.log.arrivals, p) == s.session.got[p]
  {
  }
}
