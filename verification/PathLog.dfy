/**
 The burst log path by path: what the reports logged, in hand and tracked have on a path is what has arrived on it, and
 so are the log's rows of the path when all is quiet.
 */
module PathLog {
  import opened Bytes
  import opened Streams
  import opened Chunks
  import opened Preambles
  import opened Sums
  import opened Bursts
  import opened BurstLog
  import Incarnations
  import Sessions

  // ---- Path rows of one path ----

  function Share(stats: BurstStats, p: nat, f: Field): nat {
    if p in stats.perPath then f.Of(stats.perPath[p]) else 0
  }

  /** What the bursts logged so far have on path p. */
  function SharesLogged(log: seq<Row>, p: nat, f: Field): nat {
    if log == [] then 0
    else
      var row := log[|log| - 1];
      SharesLogged(log[..|log| - 1], p, f) + if row.BurstRow? then Share(row.report.stats, p, f) else 0
  }

  /** What the log's rows of path p say. */
  function RowsOf(log: seq<Row>, p: nat, f: Field): nat {
    if log == [] then 0
    else
      var row := log[|log| - 1];
      RowsOf(log[..|log| - 1], p, f) + if row.PathRow? && row.path == p then Share(row.report.stats, p, f) else 0
  }

  function StillOwed(r: Recorder, p: nat, f: Field): nat {
    if p in r.paths then Share(r.current.stats, p, f) else 0
  }

  function Owing(hands: seq<Recorder>, p: nat, f: Field): nat {
    if hands == [] then 0 else StillOwed(hands[0], p, f) + Owing(hands[1..], p, f)
  }

  predicate PathBalances(s: State, p: nat, f: Field) {
    SharesLogged(s.log, p, f) == RowsOf(s.log, p, f) + Owing(s.recorders, p, f)
  }

  lemma {:induction false} OwingUpdate(hands: seq<Recorder>, w: nat, r: Recorder, p: nat, f: Field)
    requires w < |hands|
    ensures Owing(hands[w := r], p, f) + StillOwed(hands[w], p, f) == Owing(hands, p, f) + StillOwed(r, p, f)
  {
    hide StillOwed;
    if w == 0 {
      assert hands[w := r][1..] == hands[1..];
    } else {
      assert hands[w := r][1..] == hands[1..][w - 1 := r];
      OwingUpdate(hands[1..], w - 1, r, p, f);
    }
  }

  lemma LogExtends(log: seq<Row>, row: Row, p: nat, f: Field)
    ensures SharesLogged(log + [row], p, f) == SharesLogged(log, p, f)
            + if row.BurstRow? then Share(row.report.stats, p, f) else 0
    ensures RowsOf(log + [row], p, f) ==
            RowsOf(log, p, f) + if row.PathRow? && row.path == p then Share(row.report.stats, p, f) else 0
  {
    assert (log + [row])[..|log|] == log;
  }

  lemma StepBalancesPath(s: State, act: Action, ttl: int, p: nat, f: Field)
    requires Tracked(s) && Enabled(s, act, ttl) && PathBalances(s, p, f)
    ensures PathBalances(Next(s, act, ttl), p, f)
  {
    hide Share, SharesLogged, RowsOf, Owing, Take;
    match act {
      case Arrive(_) =>
      case Sweep(w, _, order) =>
        OrderIsTracked(s, act, ttl);
        OwingUpdate(s.recorders, w, TakenOut(s, w, order).recorders[w], p, f);
      case Flush(w, order) =>
        OrderIsTracked(s, act, ttl);
        OwingUpdate(s.recorders, w, TakenOut(s, w, order).recorders[w], p, f);
      case LogBurst(w) =>
        var report := s.recorders[w].todo[0];
        LogExtends(s.log, BurstRow(report), p, f);
        OwingUpdate(s.recorders, w, BurstLogged(s, w).recorders[w], p, f);
        OwesShare(BurstLogged(s, w).recorders[w], p, f);
      case LogPath(w, q) =>
        LogExtends(s.log, PathRow(s.recorders[w].current, q), p, f);
        OwingUpdate(s.recorders, w, PathLogged(s, w, q).recorders[w], p, f);
    }
  }

  /** A burst whose row has just been logged owes every path its share. */
  lemma OwesShare(r: Recorder, p: nat, f: Field)
    requires r.paths == r.current.stats.perPath.Keys
    ensures StillOwed(r, p, f) == Share(r.current.stats, p, f)
  {
  }

  lemma {:induction false} NobodyOwes(hands: seq<Recorder>, p: nat, f: Field)
    requires forall w | 0 <= w < |hands| :: hands[w].paths == {}
    ensures Owing(hands, p, f) == 0
  {
    if hands != [] {
      NobodyOwes(hands[1..], p, f);
    }
  }

  lemma {:induction false} RunBalancesPath(run: seq<State>, acts: seq<Action>, recorders: nat, ttl: int, p: nat,
                                           f: Field, k: nat)
    requires IsRun(run, acts, recorders, ttl) && k <= |acts|
    ensures PathBalances(run[k], p, f)
    decreases k
  {
    hide Enabled, Next, PathBalances;
    if k == 0 {
      StartBalances(recorders, p, f);
    } else {
      RunBalancesPath(run, acts, recorders, ttl, p, f, k - 1);
      StepBalancesPath(run[k - 1], acts[k - 1], ttl, p, f);
    }
  }

  lemma StartBalances(recorders: nat, p: nat, f: Field)
    ensures PathBalances(Start(recorders), p, f)
  {
    NobodyOwes(Start(recorders).recorders, p, f);
  }

  // ---- Weights of a quiet log ----

  /** Nothing is tracked and no recorder has anything to do. */
  predicate Quiet(s: State) {
    s.tracker == map[] && forall w | 0 <= w < |s.recorders| :: Resting(s.recorders[w])
  }

  lemma {:induction false} EmptyHands(hands: seq<Recorder>, v: nat -> nat)
    requires forall w | 0 <= w < |hands| :: hands[w].todo == []
    ensures InHand(hands, v) == 0
  {
    if hands != [] {
      EmptyHands(hands[1..], v);
    }
  }

  /**
   In a quiet state the log accounts for the whole weight of the arrivals, and the path's rows for the bursts'
   shares.
   */
  lemma QuietLog(run: seq<State>, acts: seq<Action>, recorders: nat, ttl: int, v: nat -> nat, p: nat, f: Field)
    requires IsRun(run, acts, recorders, ttl) && Quiet(run[|acts|])
    ensures AllGenuine(run[|acts|])
    ensures Logged(run[|acts|].log, v) == WeightBelow(|run[|acts|].arrivals|, v)
    ensures RowsOf(run[|acts|].log, p, f) == SharesLogged(run[|acts|].log, p, f)
  {
    hide Enabled, Next, AllGenuine, Genuine, GenuineEntry, GenuineRecorder;
    var s := run[|acts|];
    RunKeepsAll(run, acts, recorders, ttl, v, f);
    NothingTracked(s);
    EmptyHands(s.recorders, v);
    assert Weights(s.histories, v) == map[];
    RunBalancesPath(run, acts, recorders, ttl, p, f, |acts|);
    NobodyOwes(s.recorders, p, f);
  }

  lemma NothingTracked(s: State)
    requires AllGenuine(s) && s.tracker == map[]
    ensures s.histories == map[]
  {
    assert s.histories.Keys == {};
  }

  // ---- Chunks ----

  /** The chunks that arrived on path p, in order. */
  function ChunksOn(arrivals: seq<Arrival>, p: nat): seq<Chunk> {
    if arrivals == [] then []
    else
      var a := arrivals[|arrivals| - 1];
      ChunksOn(arrivals[..|arrivals| - 1], p) + if a.path == p then [a.chunk] else []
  }

  lemma {:induction false} CountsChunksOn(arrivals: seq<Arrival>, p: nat)
    ensures Count(arrivals, OnPath(p)) == |ChunksOn(arrivals, p)|
  {
    if arrivals != [] {
      CountsChunksOn(arrivals[..|arrivals| - 1], p);
    }
  }

  /** The field of a path's share that counts the selected arrivals. */
  predicate PathCounts(p: nat, f: Field, sel: Selector) {
    (f == Chunks && sel == OnPath(p)) || (f == Corrupted && sel == CorruptOnPath(p))
  }

  /** A genuine report's share on a path is what its arrivals on the path make. */
  lemma ShareIsCount(arrivals: seq<Arrival>, r: Report, p: nat)
    requires Genuine(arrivals, r)
    ensures Share(r.stats, p, Chunks) == Count(Pick(arrivals, r.history), OnPath(p))
    ensures Share(r.stats, p, Corrupted) == Count(Pick(arrivals, r.history), CorruptOnPath(p))
    ensures Share(r.stats, p, Bytes) == Credited(Pick(arrivals, r.history), OnPath(p))
  {
    hide IsStretch, Count, Credited, PathsOf;
    SummaryShares(r.stats.burstId, Pick(arrivals, r.history), p);
  }

  lemma SummaryShares(id: U64, h: seq<Arrival>, p: nat)
    requires h != []
    ensures Share(StatsOf(id, Summary(h)), p, Chunks) == Count(h, OnPath(p))
    ensures Share(StatsOf(id, Summary(h)), p, Corrupted) == Count(h, CorruptOnPath(p))
    ensures Share(StatsOf(id, Summary(h)), p, Bytes) == Credited(h, OnPath(p))
  {
    hide Count, Credited, PathsOf;
    if p !in PathsOf(h) {
      NothingOnOtherPath(h, p);
    }
  }

  lemma ShareIsWeight(arrivals: seq<Arrival>, r: Report, p: nat, f: Field, sel: Selector, v: nat -> nat)
    requires PathCounts(p, f, sel) && Marks(arrivals, sel, v) && Genuine(arrivals, r)
    ensures Weight(r.history, v) == Share(r.stats, p, f)
  {
    hide Share, Marks, Weight, Count, Credited, IsStretch;
    ShareIsCount(arrivals, r, p);
    MarkedWeight(arrivals, r.history, sel, v);
  }

  lemma {:induction false} LoggedShares(arrivals: seq<Arrival>, log: seq<Row>, p: nat, f: Field, sel: Selector,
                                        v: nat -> nat)
    requires PathCounts(p, f, sel) && Marks(arrivals, sel, v)
    requires forall k | 0 <= k < |log| :: Genuine(arrivals, log[k].report)
    ensures Logged(log, v) == SharesLogged(log, p, f)
  {
    hide Share, Genuine, Marks, PathCounts;
    if log != [] {
      LoggedShares(arrivals, log[..|log| - 1], p, f, sel, v);
      ShareIsWeight(arrivals, log[|log| - 1].report, p, f, sel, v);
    }
  }

  function SharesToDo(todo: seq<Report>, p: nat, f: Field): nat {
    if todo == [] then 0 else Share(todo[0].stats, p, f) + SharesToDo(todo[1..], p, f)
  }

  /** What the bursts taken out and still to be logged have on path p. */
  function SharesInHand(hands: seq<Recorder>, p: nat, f: Field): nat {
    if hands == [] then 0 else SharesToDo(hands[0].todo, p, f) + SharesInHand(hands[1..], p, f)
  }

  /** What the tracked bursts have on path p. */
  function SharesTracked(tracker: Entries, p: nat, f: Field): map<U64, nat> {
    map id | id in tracker :: Share(StatsOf(id, tracker[id]), p, f)
  }

  lemma {:induction false} ToDoShares(arrivals: seq<Arrival>, todo: seq<Report>, p: nat, f: Field, sel: Selector,
                                      v: nat -> nat)
    requires PathCounts(p, f, sel) && Marks(arrivals, sel, v)
    requires forall k | 0 <= k < |todo| :: Genuine(arrivals, todo[k])
    ensures ToDo(todo, v) == SharesToDo(todo, p, f)
  {
    hide Share, Genuine, Marks, PathCounts;
    if todo != [] {
      ShareIsWeight(arrivals, todo[0], p, f, sel, v);
      ToDoShares(arrivals, todo[1..], p, f, sel, v);
    }
  }

  lemma {:induction false} HandShares(arrivals: seq<Arrival>, hands: seq<Recorder>, p: nat, f: Field, sel: Selector,
                                      v: nat -> nat)
    requires PathCounts(p, f, sel) && Marks(arrivals, sel, v)
    requires forall w | 0 <= w < |hands| :: GenuineRecorder(arrivals, hands[w])
    ensures InHand(hands, v) == SharesInHand(hands, p, f)
  {
    hide Genuine, Marks, PathCounts;
    if hands != [] {
      assert GenuineRecorder(arrivals, hands[0]);
      ToDoShares(arrivals, hands[0].todo, p, f, sel, v);
      HandShares(arrivals, hands[1..], p, f, sel, v);
    }
  }

  lemma TrackedShares(s: State, p: nat, f: Field, sel: Selector, v: nat -> nat)
    requires AllGenuine(s) && PathCounts(p, f, sel) && Marks(s.arrivals, sel, v)
    ensures Weights(s.histories, v) == SharesTracked(s.tracker, p, f)
  {
    hide Share, Summary, Weight, Marks, PathCounts, IsCurrent;
    forall id | id in s.tracker ensures Weight(s.histories[id], v) == Share(StatsOf(id, s.tracker[id]), p, f) {
      EntryShare(s.arrivals, id, s.tracker[id], s.histories[id], p, f, sel, v);
    }
  }

  lemma EntryShare(arrivals: seq<Arrival>, id: U64, b: Burst, h: seq<nat>, p: nat, f: Field, sel: Selector,
                   v: nat -> nat)
    requires GenuineEntry(arrivals, id, b, h) && PathCounts(p, f, sel) && Marks(arrivals, sel, v)
    ensures Weight(h, v) == Share(StatsOf(id, b), p, f)
  {
    hide Share, Weight, Count, Credited, Marks, IsCurrent;
    SummaryShares(id, Pick(arrivals, h), p);
    MarkedWeight(arrivals, h, sel, v);
  }

  /**
   At every moment of every run: what the bursts logged, in hand and tracked have on a path, in chunks or in corrupted
   chunks, is what has arrived on it.
   */
  lemma EveryPathIsCounted(run: seq<State>, acts: seq<Action>, recorders: nat, ttl: int, p: nat, f: Field,
                           sel: Selector)
    requires IsRun(run, acts, recorders, ttl) && PathCounts(p, f, sel)
    ensures
      var s := run[|acts|];
      SharesLogged(s.log, p, f) + SharesInHand(s.recorders, p, f) + SumValues(SharesTracked(s.tracker, p, f))
      == Count(s.arrivals, sel)
  {
    hide Enabled, Next, Genuine, GenuineEntry, GenuineRecorder, PathCounts;
    var s := run[|acts|];
    var v := (j: nat) => if j < |s.arrivals| && sel.Selects(s.arrivals[j]) then 1 else 0;
    RunKeepsAll(run, acts, recorders, ttl, v, f);
    LoggedShares(s.arrivals, s.log, p, f, sel, v);
    HandShares(s.arrivals, s.recorders, p, f, sel, v);
    TrackedShares(s, p, f, sel, v);
    MarkedBelow(s.arrivals, |s.arrivals|, sel, v);
    assert s.arrivals[..|s.arrivals|] == s.arrivals;
  }

  /** When all is quiet the rows of a path say exactly how many chunks, and how many corrupted ones, arrived on it. */
  lemma PathChunksAddUp(run: seq<State>, acts: seq<Action>, recorders: nat, ttl: int, p: nat, f: Field, sel: Selector)
    requires IsRun(run, acts, recorders, ttl) && Quiet(run[|acts|]) && PathCounts(p, f, sel)
    ensures RowsOf(run[|acts|].log, p, f) == Count(run[|acts|].arrivals, sel)
  {
    hide Enabled, Next, Genuine, GenuineEntry, GenuineRecorder, PathCounts;
    var s := run[|acts|];
    var v := (j: nat) => if j < |s.arrivals| && sel.Selects(s.arrivals[j]) then 1 else 0;
    QuietLog(run, acts, recorders, ttl, v, p, f);
    LoggedShares(s.arrivals, s.log, p, f, sel, v);
    MarkedBelow(s.arrivals, |s.arrivals|, sel, v);
    assert s.arrivals[..|s.arrivals|] == s.arrivals;
  }

  // ---- Bytes ----

  /** No chunk has come uncorrupted more than once. */
  predicate NoRepeats(arrivals: seq<Arrival>) {
    forall i, j | 0 <= i < j < |arrivals| :: !Repeats(arrivals[i], arrivals[j])
  }

  predicate Repeats(a: Arrival, b: Arrival) {
    !a.corrupted && !b.corrupted && a.chunk.burstId == b.chunk.burstId && a.chunk.number == b.chunk.number
  }

  /** The bytes of an arrival that count for path p. */
  function BytesOn(a: Arrival, p: nat): nat {
    if a.path == p && !a.corrupted then |a.chunk.data| else 0
  }

  ghost predicate Carries(arrivals: seq<Arrival>, p: nat, v: nat -> nat) {
    forall j: nat | j < |arrivals| :: v(j) == BytesOn(arrivals[j], p)
  }

  /** Each arrival that a stretch names is an earlier one of the burst. */
  lemma {:induction false} PickedFrom(arrivals: seq<Arrival>, id: U64, lo: nat, hi: nat, i: nat) returns (j: nat)
    requires lo <= hi <= |arrivals| && i < |Positions(arrivals, id, lo, hi)|
    ensures j < hi && arrivals[j].chunk.burstId == id
            && Pick(arrivals, Positions(arrivals, id, lo, hi))[i] == arrivals[j]
    decreases hi
  {
    var init := Positions(arrivals, id, lo, hi - 1);
    if arrivals[hi - 1].chunk.burstId == id {
      Incarnations.PickOneMore(arrivals, init, hi - 1);
    } else {
      AppendNothing(init);
    }
    if i < |init| {
      j := PickedFrom(arrivals, id, lo, hi - 1, i);
    } else {
      j := hi - 1;
    }
  }

  lemma NewNumber(arrivals: seq<Arrival>, id: U64, lo: nat, hi: nat)
    requires lo <= hi < |arrivals| && NoRepeats(arrivals) && arrivals[hi].chunk.burstId == id && !arrivals[hi].corrupted
    ensures arrivals[hi].chunk.number !in Seen(Pick(arrivals, Positions(arrivals, id, lo, hi)))
  {
    var h := Pick(arrivals, Positions(arrivals, id, lo, hi));
    forall i | 0 <= i < |h| && !h[i].corrupted ensures h[i].chunk.number != arrivals[hi].chunk.number {
      var j := PickedFrom(arrivals, id, lo, hi, i);
      assert !Repeats(arrivals[j], arrivals[hi]);
    }
  }

  lemma WeightOneMore(history: seq<nat>, i: nat, v: nat -> nat)
    ensures Weight(history + [i], v) == Weight(history, v) + v(i)
  {
    assert (history + [i])[..|history|] == history;
  }

  /** Without repeats a stretch is credited every uncorrupted byte on the path. */
  lemma {:induction false} AllCredited(arrivals: seq<Arrival>, id: U64, lo: nat, hi: nat, p: nat, v: nat -> nat)
    requires lo <= hi <= |arrivals| && NoRepeats(arrivals) && Carries(arrivals, p, v)
    ensures Weight(Positions(arrivals, id, lo, hi), v) ==
            Credited(Pick(arrivals, Positions(arrivals, id, lo, hi)), OnPath(p))
    decreases hi
  {
    hide Seen, Weight, Credited, Pick, NoRepeats;
    if lo == hi {
      NothingCredited(arrivals, v, OnPath(p));
    } else {
      var init, a := Positions(arrivals, id, lo, hi - 1), arrivals[hi - 1];
      AllCredited(arrivals, id, lo, hi - 1, p, v);
      if a.chunk.burstId == id {
        Incarnations.PickOneMore(arrivals, init, hi - 1);
        WeightOneMore(init, hi - 1, v);
        CountsExtend(Pick(arrivals, init), a, OnPath(p));
        if !a.corrupted {
          NewNumber(arrivals, id, lo, hi - 1);
        }
      } else {
        AppendNothing(init);
      }
    }
  }

  lemma NothingCredited(arrivals: seq<Arrival>, v: nat -> nat, s: Selector)
    ensures Weight([], v) == 0 && Credited(Pick(arrivals, []), s) == 0
  {
  }

  lemma ShareOfStretch(arrivals: seq<Arrival>, r: Report, p: nat, v: nat -> nat)
    requires Genuine(arrivals, r) && NoRepeats(arrivals) && Carries(arrivals, p, v)
    ensures Weight(r.history, v) == Share(r.stats, p, Bytes)
  {
    hide NoRepeats, Share, Carries;
    ShareIsCount(arrivals, r, p);
    var lo: nat, hi: nat :| Spans(arrivals, r.stats.burstId, r.history, lo, hi);
    AllCredited(arrivals, r.stats.burstId, lo, hi, p, v);
  }

  lemma {:induction false} LoggedBytes(arrivals: seq<Arrival>, log: seq<Row>, p: nat, v: nat -> nat)
    requires NoRepeats(arrivals) && Carries(arrivals, p, v)
    requires forall k | 0 <= k < |log| :: Genuine(arrivals, log[k].report)
    ensures Logged(log, v) == SharesLogged(log, p, Bytes)
  {
    hide Share, Genuine, NoRepeats, Carries;
    if log != [] {
      LoggedBytes(arrivals, log[..|log| - 1], p, v);
      ShareOfStretch(arrivals, log[|log| - 1].report, p, v);
    }
  }

  lemma {:induction false} BytesBelow(arrivals: seq<Arrival>, n: nat, p: nat, v: nat -> nat)
    requires n <= |arrivals| && Carries(arrivals, p, v)
    requires forall i | 0 <= i < |arrivals| && arrivals[i].path == p :: !arrivals[i].corrupted
    ensures WeightBelow(n, v) == Sessions.DataBytes(ChunksOn(arrivals[..n], p))
  {
    if n > 0 {
      BytesBelow(arrivals, n - 1, p, v);
      var a := arrivals[n - 1];
      assert arrivals[..n][..n - 1] == arrivals[..n - 1];
      if a.path == p {
        Sessions.CountOneMore(ChunksOn(arrivals[..n - 1], p), a.chunk);
      } else {
        AppendNothing(ChunksOn(arrivals[..n - 1], p));
      }
    }
  }

  /**
   When all is quiet, nothing was repeated and nothing corrupted, the rows of a path say exactly what bytes have
   arrived on it.
   */
  lemma PathBytesAddUp(run: seq<State>, acts: seq<Action>, recorders: nat, ttl: int, p: nat)
    requires IsRun(run, acts, recorders, ttl) && Quiet(run[|acts|]) && NoRepeats(run[|acts|].arrivals)
    requires forall i | 0 <= i < |run[|acts|].arrivals| && run[|acts|].arrivals[i].path == p ::
             !run[|acts|].arrivals[i].corrupted
    ensures RowsOf(run[|acts|].log, p, Bytes) == Sessions.DataBytes(ChunksOn(run[|acts|].arrivals, p))
  {
    hide Enabled, Next, Genuine, GenuineEntry, GenuineRecorder, NoRepeats;
    var s := run[|acts|];
    var v := (j: nat) => if j < |s.arrivals| then BytesOn(s.arrivals[j], p) else 0;
    QuietLog(run, acts, recorders, ttl, v, p, Bytes);
    LoggedBytes(s.arrivals, s.log, p, v);
    BytesBelow(s.arrivals, |s.arrivals|, p, v);
    assert s.arrivals[..|s.arrivals|] == s.arrivals;
  }
}
