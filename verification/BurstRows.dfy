/**
 The rows of the burst log as they are written to its file. Over every run each row is that of one incarnation of its
 burst, and its numbers are what that incarnation's arrivals come to, in all or on the row's path.
 */
module BurstRows {
  import opened Bytes
  import opened Bursts
  import opened BurstLog
  import opened Incarnations

  /** Path index -1 marks the row of the whole burst. Times are milliseconds since the session's start. */
  datatype Sample = Sample(burstId: U64, pathIndex: int, bytesExpected: nat, bytesReceived: nat, chunks: nat,
                           corrupted: nat, complete: bool, start: int, end: int)

  const MILLISECOND: nat := 1_000_000

  /** A duration in nanoseconds as whole milliseconds, towards zero. */
  function Milliseconds(d: int): int {
    if d >= 0 then d / MILLISECOND else -(-d / MILLISECOND)
  }

  function SampleOf(row: Row, started: int): Sample
    requires row.PathRow? ==> row.path in row.report.stats.perPath
  {
    var b := row.report.stats;
    var start, end := Milliseconds(b.startedAt - started), Milliseconds(b.lastActivity - started);
    match row
    case BurstRow(_) =>
      Sample(b.burstId, -1, b.bytesExpected, b.bytesReceived, b.chunks, b.corrupted, b.complete, start, end)
    case PathRow(_, p) =>
      var share := b.perPath[p];
      Sample(b.burstId, p, b.bytesExpected, share.bytesReceived, share.chunks, share.corrupted,
             share.bytesReceived >= b.bytesExpected, start, end)
  }

  // ---- Path rows follow the row of their burst ----

  predicate Follows(log: seq<Row>, row: Row) {
    row.PathRow? ==> row.path in row.report.stats.perPath && row.report in InRows(log)
  }

  predicate RecorderFollows(log: seq<Row>, r: Recorder) {
    forall p | p in r.paths :: p in r.current.stats.perPath && r.current in InRows(log)
  }

  predicate PathsFollow(s: State) {
    && (forall k | 0 <= k < |s.log| :: Follows(s.log, s.log[k]))
    && forall w | 0 <= w < |s.recorders| :: RecorderFollows(s.log, s.recorders[w])
  }

  lemma RowKeepsFollowing(s: State, row: Row)
    requires PathsFollow(s) && (row.PathRow? ==> Follows(s.log, row))
    ensures PathsFollow(s.(log := s.log + [row]))
    ensures row.BurstRow? ==> row.report in InRows(s.log + [row])
  {
    hide InRows;
    RowsExtend(s.log, row);
    var log := s.log + [row];
    forall k | 0 <= k < |log| ensures Follows(log, log[k]) {
      assert k < |s.log| ==> Follows(s.log, s.log[k]);
    }
    forall w | 0 <= w < |s.recorders| ensures RecorderFollows(log, s.recorders[w]) {
      assert RecorderFollows(s.log, s.recorders[w]);
    }
  }

  lemma StepKeepsFollowing(s: State, act: Action, ttl: int)
    requires Tracked(s) && Enabled(s, act, ttl) && PathsFollow(s)
    ensures PathsFollow(Next(s, act, ttl))
  {
    hide InRows, Follows, Take, Lists, IdleIds, WriteEntry;
    match act {
      case Arrive(_) =>
      case Sweep(_, _, _) => OrderIsTracked(s, act, ttl);
      case Flush(_, _) => OrderIsTracked(s, act, ttl);
      case LogBurst(w) => RowKeepsFollowing(s, BurstRow(s.recorders[w].todo[0]));
      case LogPath(w, p) => PathRowKeepsFollowing(s, w, p);
    }
  }

  lemma PathRowKeepsFollowing(s: State, w: nat, p: nat)
    requires PathsFollow(s) && w < |s.recorders| && p in s.recorders[w].paths
    ensures PathsFollow(PathLogged(s, w, p))
  {
    hide InRows;
    assert RecorderFollows(s.log, s.recorders[w]);
    RowKeepsFollowing(s, PathRow(s.recorders[w].current, p));
  }

  lemma {:induction false} RunKeepsFollowing(run: seq<State>, acts: seq<Action>, recorders: nat, ttl: int)
    requires IsRun(run, acts, recorders, ttl)
    ensures PathsFollow(run[|acts|])
    decreases |acts|
  {
    hide PathsFollow, Enabled, Next;
    if acts == [] {
      NothingFollows(recorders);
    } else {
      var k := |acts| - 1;
      RunKeepsFollowing(run[..k + 1], acts[..k], recorders, ttl);
      StepKeepsFollowing(run[k], acts[k], ttl);
    }
  }

  lemma NothingFollows(recorders: nat)
    ensures PathsFollow(Start(recorders))
  {
  }

  // ---- What every row says ----

  /** m is d in whole units, rounded towards zero. */
  predicate Rounds(d: int, unit: nat, m: int) {
    if d >= 0 then 0 <= m * unit <= d < m * unit + unit else m * unit - unit < d <= m * unit <= 0
  }

  lemma MillisecondsRound(d: int)
    ensures Rounds(d, 1_000_000, Milliseconds(d))
  {
  }

  /**
   Every row of the log at any moment of any run is of one incarnation of a burst. It says the size the first arrival
   announced, the times of the first and last arrivals, and for the whole burst, or on its path, how many chunks
   arrived, how many failed, the bytes credited, and whether these reach the announced size.
   */
  lemma EveryRowSays(run: seq<State>, acts: seq<Action>, recorders: nat, ttl: int, i: nat, started: int)
    returns (id: U64, k: nat)
    requires IsRun(run, acts, recorders, ttl) && i < |run[|acts|].log|
    ensures k < |acts| && Takes(acts[k], id) && Incarnation(run, acts, recorders, ttl, id, k) != []
    ensures
      var row := run[|acts|].log[i];
      var h := Incarnation(run, acts, recorders, ttl, id, k);
      && (row.PathRow? ==> row.path in row.report.stats.perPath && row.path in PathsOf(h))
      && var sample := SampleOf(row, started);
      && sample.burstId == id && sample.bytesExpected == h[0].chunk.burstBytes
      && Rounds(h[0].at - started, 1_000_000, sample.start)
      && Rounds(h[|h| - 1].at - started, 1_000_000, sample.end)
      && (row.BurstRow? ==>
            && sample.pathIndex == -1 && sample.chunks == |h| && sample.corrupted == Count(h, Corrupt)
            && sample.bytesReceived == Credited(h, Any)
            && (sample.complete <==> Credited(h, Any) >= h[0].chunk.burstBytes))
      && (row.PathRow? ==>
            && sample.pathIndex == row.path && sample.chunks == Count(h, OnPath(row.path))
            && sample.corrupted == Count(h, CorruptOnPath(row.path))
            && sample.bytesReceived == Credited(h, OnPath(row.path))
            && (sample.complete <==> Credited(h, OnPath(row.path)) >= h[0].chunk.burstBytes))
  {
    hide Incarnation, Count, Credited, PathsOf, InRows, InHands, Milliseconds, Rounds, Enabled, Next;
    var s := run[|acts|];
    var row := s.log[i];
    RunKeepsFollowing(run, acts, recorders, ttl);
    RowIsHeld(s, i);
    id, k := EveryReportSays(run, acts, recorders, ttl, row.report);
    MillisecondsRound(row.report.stats.startedAt - started);
    MillisecondsRound(row.report.stats.lastActivity - started);
  }

  lemma RowIsHeld(s: State, i: nat)
    requires PathsFollow(s) && i < |s.log|
    ensures s.log[i].report in Held(s)
    ensures s.log[i].PathRow? ==> s.log[i].path in s.log[i].report.stats.perPath
  {
    hide InRows, InHands;
    assert Follows(s.log, s.log[i]);
    BurstRowIsHeld(s.log, i);
  }

  lemma {:induction false} BurstRowIsHeld(log: seq<Row>, i: nat)
    requires i < |log|
    ensures log[i].BurstRow? ==> log[i].report in InRows(log)
  {
    if i < |log| - 1 {
      BurstRowIsHeld(log[..|log| - 1], i);
    }
  }
}
