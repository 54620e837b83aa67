/**
 What becomes of a burst over a whole run of paths and recorders. The arrivals of a burst between two takes of it are
 one incarnation: tracked as one entry while it lasts, and reported exactly once when it is taken out.
 */
module Incarnations {
  import opened Bytes
  import opened Sums
  import opened Bursts
  import opened BurstLog

  predicate Takes(act: Action, id: U64) {
    (act.Sweep? || act.Flush?) && id in act.order
  }

  /** How many arrivals there were when the burst was last taken out, before step k; none if it never was. */
  function LastTake(run: seq<State>, acts: seq<Action>, id: U64, k: nat): nat
    requires |run| == |acts| + 1 && k <= |acts|
    decreases k
  {
    if k == 0 then 0 else if Takes(acts[k - 1], id) then |run[k].arrivals| else LastTake(run, acts, id, k - 1)
  }

  /** The arrivals of the burst since then, up to step k. */
  ghost function Incarnation(run: seq<State>, acts: seq<Action>, recorders: nat, ttl: int, id: U64,
                             k: nat): seq<Arrival>
    requires IsRun(run, acts, recorders, ttl) && k <= |acts|
  {
    HistoryIsStretch(run, acts, recorders, ttl, id, k);
    OfBurst(run[k].arrivals[LastTake(run, acts, id, k)..], id)
  }

  // ---- The history of an entry is its incarnation ----

  lemma StepHistory(s: State, act: Action, ttl: int, id: U64, lo: nat)
    requires Tracked(s) && Enabled(s, act, ttl) && Spans(s.arrivals, id, HistoryOf(s, id), lo, |s.arrivals|)
    ensures
      var t := Next(s, act, ttl);
      if Takes(act, id) then HistoryOf(t, id) == []
      else Spans(t.arrivals, id, HistoryOf(t, id), lo, |t.arrivals|)
  {
    match act {
      case Arrive(a) =>
        PositionsExtend(s.arrivals, a, id, lo);
        AppendNothing(HistoryOf(s, id));
      case Sweep(_, _, _) => OrderIsTracked(s, act, ttl);
      case Flush(_, _) => OrderIsTracked(s, act, ttl);
      case LogBurst(_) =>
      case LogPath(_, _) =>
    }
  }

  lemma {:induction false} HistoryIsStretch(run: seq<State>, acts: seq<Action>, recorders: nat, ttl: int, id: U64,
                                            k: nat)
    requires IsRun(run, acts, recorders, ttl) && k <= |acts|
    ensures Spans(run[k].arrivals, id, HistoryOf(run[k], id), LastTake(run, acts, id, k), |run[k].arrivals|)
    decreases k
  {
    hide Enabled, Next;
    if k > 0 {
      HistoryIsStretch(run, acts, recorders, ttl, id, k - 1);
      StepHistory(run[k - 1], acts[k - 1], ttl, id, LastTake(run, acts, id, k - 1));
    }
  }

  lemma PickOneMore(arrivals: seq<Arrival>, history: seq<nat>, i: nat)
    requires InRange(history, |arrivals|) && i < |arrivals|
    ensures Pick(arrivals, history + [i]) == Pick(arrivals, history) + [arrivals[i]]
  {
    assert (history + [i])[..|history|] == history;
  }

  lemma OfBurstOneMore(events: seq<Arrival>, a: Arrival, id: U64)
    ensures OfBurst(events + [a], id) == OfBurst(events, id) + if a.chunk.burstId == id then [a] else []
  {
    assert (events + [a])[..|events|] == events;
  }

  lemma PickExtends(arrivals: seq<Arrival>, history: seq<nat>, i: nat, slice: seq<Arrival>, id: U64)
    requires InRange(history, |arrivals|) && i < |arrivals| && Pick(arrivals, history) == OfBurst(slice, id)
    ensures
      var more := history + if arrivals[i].chunk.burstId == id then [i] else [];
      InRange(more, |arrivals|) && Pick(arrivals, more) == OfBurst(slice + [arrivals[i]], id)
  {
    hide Pick, OfBurst;
    OfBurstOneMore(slice, arrivals[i], id);
    if arrivals[i].chunk.burstId == id {
      PickOneMore(arrivals, history, i);
    } else {
      AppendNothing(history);
      AppendNothing(OfBurst(slice, id));
    }
  }

  lemma PositionsOneMore(arrivals: seq<Arrival>, id: U64, lo: nat, hi: nat)
    requires lo < hi <= |arrivals|
    ensures InRange(Positions(arrivals, id, lo, hi - 1), |arrivals|)
    ensures Positions(arrivals, id, lo, hi)
         == Positions(arrivals, id, lo, hi - 1) + if arrivals[hi - 1].chunk.burstId == id then [hi - 1] else []
  {
  }

  lemma SliceOneMore<T>(s: seq<T>, lo: nat, hi: nat)
    requires lo < hi <= |s|
    ensures s[lo..hi] == s[lo..hi - 1] + [s[hi - 1]]
  {
  }

  /** The arrivals named by a stretch are the burst's among a slice of all arrivals. */
  lemma {:induction false} PickIsOfBurst(arrivals: seq<Arrival>, id: U64, lo: nat, hi: nat)
    requires lo <= hi <= |arrivals|
    ensures Pick(arrivals, Positions(arrivals, id, lo, hi)) == OfBurst(arrivals[lo..hi], id)
    decreases hi
  {
    if lo < hi {
      hide Pick, OfBurst, InRange, Positions;
      PickIsOfBurst(arrivals, id, lo, hi - 1);
      PositionsOneMore(arrivals, id, lo, hi);
      PickExtends(arrivals, Positions(arrivals, id, lo, hi - 1), hi - 1, arrivals[lo..hi - 1], id);
      SliceOneMore(arrivals, lo, hi);
    }
  }

  lemma {:induction false} EveryStateIsGenuine(run: seq<State>, acts: seq<Action>, recorders: nat, ttl: int, k: nat)
    requires IsRun(run, acts, recorders, ttl) && k <= |acts|
    ensures AllGenuine(run[k])
  {
    hide Enabled, Next, AllGenuine;
    RunKeepsAll(run[..k + 1], acts[..k], recorders, ttl, j => 0, Chunks);
  }

  /**
   Bursts do not interfere, whatever expires in between: a burst is tracked if and only if it has arrivals since it
   was last taken out, and its entry is the summary of exactly those.
   */
  lemma EntryIsItsIncarnation(run: seq<State>, acts: seq<Action>, recorders: nat, ttl: int, id: U64, k: nat)
    requires IsRun(run, acts, recorders, ttl) && k <= |acts|
    ensures id in run[k].tracker <==> Incarnation(run, acts, recorders, ttl, id, k) != []
    ensures id in run[k].tracker ==> run[k].tracker[id] == Summary(Incarnation(run, acts, recorders, ttl, id, k))
  {
    hide Summary, Enabled, Next, OfBurst, LastTake;
    var s := run[k];
    var lo := LastTake(run, acts, id, k);
    EveryStateIsGenuine(run, acts, recorders, ttl, k);
    HistoryIsStretch(run, acts, recorders, ttl, id, k);
    PickIsOfBurst(s.arrivals, id, lo, |s.arrivals|);
    assert s.arrivals[lo..|s.arrivals|] == s.arrivals[lo..];
    if id in s.tracker {
      assert GenuineEntry(s.arrivals, id, s.tracker[id], s.histories[id]);
    }
  }

  // ---- Every report is one incarnation ----

  /** The report that taking the burst out at step k makes. */
  ghost function ReportOf(run: seq<State>, acts: seq<Action>, recorders: nat, ttl: int, id: U64, k: nat): Report
    requires IsRun(run, acts, recorders, ttl) && k <= |acts|
    requires Incarnation(run, acts, recorders, ttl, id, k) != []
  {
    Report(StatsOf(id, Summary(Incarnation(run, acts, recorders, ttl, id, k))), HistoryOf(run[k], id))
  }

  /** The reports in burst rows of the log. */
  function InRows(log: seq<Row>): multiset<Report> {
    if log == [] then multiset{}
    else
      var row := log[|log| - 1];
      InRows(log[..|log| - 1]) + if row.BurstRow? then multiset{row.report} else multiset{}
  }

  function InHands(hands: seq<Recorder>): multiset<Report> {
    if hands == [] then multiset{} else multiset(hands[0].todo) + InHands(hands[1..])
  }

  /** All reports there are: those logged and those still to be logged. */
  function Held(s: State): multiset<Report> {
    InRows(s.log) + InHands(s.recorders)
  }

  function TakenAt(s: State, act: Action): multiset<Report> {
    if (act.Sweep? || act.Flush?) && forall id | id in act.order :: id in s.tracker && id in s.histories
    then multiset(Take(s.tracker, s.histories, act.order))
    else multiset{}
  }

  /** The reports made by the first k steps. */
  function Taken(run: seq<State>, acts: seq<Action>, k: nat): multiset<Report>
    requires |run| == |acts| + 1 && k <= |acts|
    decreases k
  {
    if k == 0 then multiset{} else Taken(run, acts, k - 1) + TakenAt(run[k - 1], acts[k - 1])
  }

  lemma {:induction false} HandsUpdate(hands: seq<Recorder>, w: nat, r: Recorder)
    requires w < |hands|
    ensures InHands(hands[w := r]) + multiset(hands[w].todo) == InHands(hands) + multiset(r.todo)
  {
    if w == 0 {
      assert hands[w := r][1..] == hands[1..];
    } else {
      assert hands[w := r][1..] == hands[1..][w - 1 := r];
      HandsUpdate(hands[1..], w - 1, r);
      assert InHands(hands[w := r]) + multiset(hands[w].todo)
          == multiset(hands[0].todo) + (InHands(hands[1..][w - 1 := r]) + multiset(hands[1..][w - 1].todo));
    }
  }

  lemma RowsExtend(log: seq<Row>, row: Row)
    ensures InRows(log + [row]) == InRows(log) + if row.BurstRow? then multiset{row.report} else multiset{}
  {
    assert (log + [row])[..|log|] == log;
  }

  lemma AddOver<T>(rows: multiset<T>, after: multiset<T>, before: multiset<T>, x: multiset<T>)
    requires after + multiset([]) == before + x
    ensures rows + after == (rows + before) + x
  {
    forall y ensures (rows + after)[y] == ((rows + before) + x)[y] {
      assert (after + multiset([]))[y] == (before + x)[y];
    }
  }

  lemma TakingHolds(s: State, who: nat, order: seq<U64>)
    requires who < |s.recorders| && Resting(s.recorders[who])
    requires forall id | id in order :: id in s.tracker && id in s.histories
    ensures Held(TakenOut(s, who, order)) == Held(s) + multiset(Take(s.tracker, s.histories, order))
  {
    var r := s.recorders[who].(todo := Take(s.tracker, s.histories, order));
    HandsUpdate(s.recorders, who, r);
    AddOver(InRows(s.log), InHands(TakenOut(s, who, order).recorders), InHands(s.recorders), multiset(r.todo));
  }

  lemma LoggingHolds(s: State, w: nat)
    requires w < |s.recorders| && s.recorders[w].todo != []
    ensures Held(BurstLogged(s, w)) == Held(s)
  {
    var todo := s.recorders[w].todo;
    RowsExtend(s.log, BurstRow(todo[0]));
    HandsUpdate(s.recorders, w, Recorder(todo[0], todo[0].stats.perPath.Keys, todo[1..]));
    assert todo == [todo[0]] + todo[1..];
    MoveOver(InRows(s.log), multiset{todo[0]}, InHands(BurstLogged(s, w).recorders), multiset(todo[1..]),
      InHands(s.recorders));
  }

  lemma MoveOver<T>(rows: multiset<T>, x: multiset<T>, after: multiset<T>, rest: multiset<T>, before: multiset<T>)
    requires after + (x + rest) == before + rest
    ensures (rows + x) + after == rows + before
  {
    forall y ensures ((rows + x) + after)[y] == (rows + before)[y] {
      assert (after + (x + rest))[y] == (before + rest)[y];
    }
  }

  lemma PathLoggingHolds(s: State, w: nat, p: nat)
    requires w < |s.recorders|
    ensures Held(PathLogged(s, w, p)) == Held(s)
  {
    var r := s.recorders[w];
    RowsExtend(s.log, PathRow(r.current, p));
    HandsUpdate(s.recorders, w, r.(paths := r.paths - {p}));
    Cancel(InHands(PathLogged(s, w, p).recorders), InHands(s.recorders), multiset(r.todo));
  }

  lemma StepHolds(s: State, act: Action, ttl: int)
    requires Tracked(s) && Enabled(s, act, ttl)
    ensures Held(Next(s, act, ttl)) == Held(s) + TakenAt(s, act)
  {
    hide InRows, InHands;
    match act {
      case Arrive(_) =>
      case Sweep(w, _, order) =>
        OrderIsTracked(s, act, ttl);
        TakingHolds(s, w, order);
      case Flush(w, order) =>
        OrderIsTracked(s, act, ttl);
        TakingHolds(s, w, order);
      case LogBurst(w) => LoggingHolds(s, w);
      case LogPath(w, p) => PathLoggingHolds(s, w, p);
    }
  }

  /** At every moment the reports logged and in hand are exactly those made so far, each as often as it was made. */
  lemma {:induction false} ReportsAreTakes(run: seq<State>, acts: seq<Action>, recorders: nat, ttl: int, k: nat)
    requires IsRun(run, acts, recorders, ttl) && k <= |acts|
    ensures Held(run[k]) == Taken(run, acts, k)
    decreases k
  {
    hide Held, Enabled, Next, TakenAt;
    if k == 0 {
      NothingHeld(recorders);
    } else {
      ReportsAreTakes(run, acts, recorders, ttl, k - 1);
      StepHolds(run[k - 1], acts[k - 1], ttl);
    }
  }

  lemma NothingHeld(recorders: nat)
    ensures Held(Start(recorders)) == multiset{}
  {
    NoHands(Start(recorders).recorders);
  }

  lemma {:induction false} NoHands(hands: seq<Recorder>)
    requires forall w | 0 <= w < |hands| :: hands[w].todo == []
    ensures InHands(hands) == multiset{}
  {
    if hands != [] {
      NoHands(hands[1..]);
    }
  }

  lemma {:induction false} TakeHas(m: Entries, histories: map<U64, seq<nat>>, order: seq<U64>, id: U64)
    requires (forall other | other in order :: other in m && other in histories) && id in order
    ensures Report(StatsOf(id, m[id]), histories[id]) in multiset(Take(m, histories, order))
  {
    var rest := Take(m, histories, order[1..]);
    assert multiset(Take(m, histories, order)) == multiset{Take(m, histories, order)[0]} + multiset(rest);
    if id != order[0] {
      TakeHas(m, histories, order[1..], id);
    }
  }

  lemma {:induction false} TakeOnly(m: Entries, histories: map<U64, seq<nat>>, order: seq<U64>, r: Report)
    returns (id: U64)
    requires (forall other | other in order :: other in m && other in histories) && r in Take(m, histories, order)
    ensures id in order && r == Report(StatsOf(id, m[id]), histories[id])
  {
    if r == Take(m, histories, order)[0] {
      id := order[0];
    } else {
      id := TakeOnly(m, histories, order[1..], r);
    }
  }

  /** What is taken out at step k is the report of the burst's incarnation, which is not empty. */
  lemma TakesItsIncarnation(run: seq<State>, acts: seq<Action>, recorders: nat, ttl: int, id: U64, k: nat)
    requires IsRun(run, acts, recorders, ttl) && k < |acts| && Takes(acts[k], id)
    ensures id in run[k].tracker && id in run[k].histories && Incarnation(run, acts, recorders, ttl, id, k) != []
    ensures ReportOf(run, acts, recorders, ttl, id, k) == Report(StatsOf(id, run[k].tracker[id]), run[k].histories[id])
  {
    hide Summary, OfBurst, LastTake;
    OrderIsTracked(run[k], acts[k], ttl);
    EntryIsItsIncarnation(run, acts, recorders, ttl, id, k);
  }

  lemma {:induction false} TakenIsIncarnation(run: seq<State>, acts: seq<Action>, recorders: nat, ttl: int, r: Report,
                                              k: nat)
    returns (id: U64, j: nat)
    requires IsRun(run, acts, recorders, ttl) && k <= |acts| && r in Taken(run, acts, k)
    ensures j < k && Takes(acts[j], id) && Incarnation(run, acts, recorders, ttl, id, j) != []
    ensures r == ReportOf(run, acts, recorders, ttl, id, j)
    decreases k
  {
    hide Incarnation, ReportOf, Enabled, Next;
    j := k - 1;
    if r in TakenAt(run[j], acts[j]) {
      id := TakeOnly(run[j].tracker, run[j].histories, acts[j].order, r);
      TakesItsIncarnation(run, acts, recorders, ttl, id, j);
    } else {
      id, j := TakenIsIncarnation(run, acts, recorders, ttl, r, j);
    }
  }

  /** Every report there is, logged or in hand, is of one burst: the summary of one incarnation of it. */
  lemma EveryReportIsAnIncarnation(run: seq<State>, acts: seq<Action>, recorders: nat, ttl: int, r: Report)
    returns (id: U64, k: nat)
    requires IsRun(run, acts, recorders, ttl) && r in Held(run[|acts|])
    ensures k < |acts| && Takes(acts[k], id) && Incarnation(run, acts, recorders, ttl, id, k) != []
    ensures r == ReportOf(run, acts, recorders, ttl, id, k)
  {
    ReportsAreTakes(run, acts, recorders, ttl, |acts|);
    id, k := TakenIsIncarnation(run, acts, recorders, ttl, r, |acts|);
  }

  /**
   What such a report says: the size its first arrival announced, the times of its first and last arrivals, how many
   arrived, the bytes credited, and complete exactly if these reach the announced size; and the same for each path.
   */
  lemma EveryReportSays(run: seq<State>, acts: seq<Action>, recorders: nat, ttl: int, r: Report)
    returns (id: U64, k: nat)
    requires IsRun(run, acts, recorders, ttl) && r in Held(run[|acts|])
    ensures k < |acts| && Takes(acts[k], id) && Incarnation(run, acts, recorders, ttl, id, k) != []
    ensures
      var h := Incarnation(run, acts, recorders, ttl, id, k);
      && r.stats.burstId == id
      && r.stats.bytesExpected == h[0].chunk.burstBytes
      && r.stats.startedAt == h[0].at && r.stats.lastActivity == h[|h| - 1].at
      && r.stats.chunks == |h| && r.stats.corrupted == Count(h, Corrupt)
      && r.stats.bytesReceived == Credited(h, Any)
      && (r.stats.complete <==> Credited(h, Any) >= h[0].chunk.burstBytes)
      && r.stats.perPath.Keys == PathsOf(h)
      && forall p | p in r.stats.perPath ::
           && r.stats.perPath[p].chunks == Count(h, OnPath(p))
           && r.stats.perPath[p].corrupted == Count(h, CorruptOnPath(p))
           && r.stats.perPath[p].bytesReceived == Credited(h, OnPath(p))
  {
    hide Incarnation, Count, Credited, PathsOf, Held;
    id, k := EveryReportIsAnIncarnation(run, acts, recorders, ttl, r);
    CountAnyIsLength(Incarnation(run, acts, recorders, ttl, id, k));
  }

  // ---- Every incarnation is reported once ----

  lemma {:induction false} FirstWeighs(history: seq<nat>, v: nat -> nat)
    requires history != [] && v(history[0]) >= 1
    ensures Weight(history, v) >= 1
  {
    if |history| > 1 {
      FirstWeighs(history[..|history| - 1], v);
    }
  }

  lemma {:induction false} RowsWeigh(log: seq<Row>, r: Report, v: nat -> nat)
    requires Weight(r.history, v) >= 1
    ensures InRows(log)[r] <= Logged(log, v)
  {
    if log != [] {
      RowsWeigh(log[..|log| - 1], r, v);
    }
  }

  lemma {:induction false} ToDoWeighs(todo: seq<Report>, r: Report, v: nat -> nat)
    requires Weight(r.history, v) >= 1
    ensures multiset(todo)[r] <= ToDo(todo, v)
  {
    if todo != [] {
      assert todo == [todo[0]] + todo[1..];
      ToDoWeighs(todo[1..], r, v);
    }
  }

  lemma {:induction false} HandsWeigh(hands: seq<Recorder>, r: Report, v: nat -> nat)
    requires Weight(r.history, v) >= 1
    ensures InHands(hands)[r] <= InHand(hands, v)
  {
    if hands != [] {
      ToDoWeighs(hands[0].todo, r, v);
      HandsWeigh(hands[1..], r, v);
    }
  }

  lemma {:induction false} TakenGrows(run: seq<State>, acts: seq<Action>, r: Report, k: nat, n: nat)
    requires |run| == |acts| + 1 && k < n <= |acts| && r in TakenAt(run[k], acts[k])
    ensures r in Taken(run, acts, n)
    decreases n
  {
    hide TakenAt;
    if k < n - 1 {
      TakenGrows(run, acts, r, k, n - 1);
    }
  }

  lemma {:induction false} ArrivalsStay(run: seq<State>, acts: seq<Action>, recorders: nat, ttl: int, k: nat, n: nat)
    requires IsRun(run, acts, recorders, ttl) && k <= n <= |acts|
    ensures |run[k].arrivals| <= |run[n].arrivals|
    decreases n
  {
    if k < n {
      ArrivalsStay(run, acts, recorders, ttl, k, n - 1);
    }
  }

  /** An arrival is in one place only, so a report that names it is held once at most. */
  lemma HeldAtMostOnce(run: seq<State>, acts: seq<Action>, recorders: nat, ttl: int, r: Report)
    requires IsRun(run, acts, recorders, ttl) && r.history != [] && r.history[0] < |run[|acts|].arrivals|
    ensures Held(run[|acts|])[r] <= 1
  {
    hide Enabled, Next;
    var s := run[|acts|];
    var i := r.history[0];
    var here := (j: nat) => if j == i then 1 else 0;
    EveryArrivalExactlyOnce(run, acts, recorders, ttl, i, here);
    FirstWeighs(r.history, here);
    RowsWeigh(s.log, r, here);
    HandsWeigh(s.recorders, r, here);
  }

  /**
   Exactly once: a burst that is taken out is reported with the summary of exactly its own arrivals since it was last
   taken out, and from then on this report is there exactly once, in the log or in some recorder's hands, whatever
   sweeps, shutdowns and paths race with each other.
   */
  lemma EveryIncarnationIsReportedOnce(run: seq<State>, acts: seq<Action>, recorders: nat, ttl: int, id: U64, k: nat)
    requires IsRun(run, acts, recorders, ttl) && k < |acts| && Takes(acts[k], id)
    ensures Incarnation(run, acts, recorders, ttl, id, k) != []
    ensures Held(run[|acts|])[ReportOf(run, acts, recorders, ttl, id, k)] == 1
  {
    hide Summary, OfBurst, LastTake, Held, Incarnation;
    TakesItsIncarnation(run, acts, recorders, ttl, id, k);
    var r := ReportOf(run, acts, recorders, ttl, id, k);
    OrderIsTracked(run[k], acts[k], ttl);
    TakeHas(run[k].tracker, run[k].histories, acts[k].order, id);
    TakenGrows(run, acts, r, k, |acts|);
    ReportsAreTakes(run, acts, recorders, ttl, |acts|);
    EveryStateIsGenuine(run, acts, recorders, ttl, k);
    assert GenuineEntry(run[k].arrivals, id, run[k].tracker[id], run[k].histories[id]);
    ArrivalsStay(run, acts, recorders, ttl, k, |acts|);
    HeldAtMostOnce(run, acts, recorders, ttl, r);
  }

  // ---- Repeated shutdowns ----

  lemma FlushEmpties(s: State, act: Action, ttl: int)
    requires Tracked(s) && Enabled(s, act, ttl) && act.Flush?
    ensures Next(s, act, ttl).tracker == map[]
  {
    ListsMembers(act.order, s.tracker.Keys);
    OrderIsTracked(s, act, ttl);
    assert ToSet(act.order) == s.tracker.Keys;
  }

  lemma NamesNothing(order: seq<U64>)
    ensures ToSet(order) == {} ==> order == []
  {
    if |order| > 0 {
      assert order[0] in ToSet(order);
    }
  }

  lemma TakingNothing(s: State, act: Action, ttl: int)
    requires Tracked(s) && Enabled(s, act, ttl) && (act.Flush? || act.Sweep?) && s.tracker == map[]
    ensures Next(s, act, ttl) == s
  {
    OrderIsTracked(s, act, ttl);
    NamesNothing(act.order);
    assert s.recorders[act.who := s.recorders[act.who].(todo := [])] == s.recorders;
  }

  /** A flush does nothing at all if and only if nothing is tracked. */
  lemma FlushDoesNothingIff(s: State, act: Action, ttl: int)
    requires Tracked(s) && Enabled(s, act, ttl) && act.Flush?
    ensures Next(s, act, ttl) == s <==> s.tracker == map[]
  {
    FlushEmpties(s, act, ttl);
    if s.tracker == map[] {
      TakingNothing(s, act, ttl);
    }
  }

  /**
   Over a run: whichever flush it is, the first or a later one, it does nothing if and only if no burst has had an
   arrival since it was last taken out.
   */
  lemma FlushDoesNothingInRun(run: seq<State>, acts: seq<Action>, recorders: nat, ttl: int, j: nat)
    requires IsRun(run, acts, recorders, ttl) && j < |acts| && acts[j].Flush?
    ensures run[j + 1] == run[j] <==> forall id: U64 :: Incarnation(run, acts, recorders, ttl, id, j) == []
  {
    hide Incarnation, Enabled, Next;
    FlushDoesNothingIff(run[j], acts[j], ttl);
    forall id: U64 ensures id in run[j].tracker <==> Incarnation(run, acts, recorders, ttl, id, j) != [] {
      EntryIsItsIncarnation(run, acts, recorders, ttl, id, j);
    }
    NothingTracked(run[j].tracker);
  }

  lemma NothingTracked(m: Entries)
    ensures m == map[] <==> forall id: U64 :: id !in m
  {
    if m != map[] {
      var id :| id in m;
    }
  }

  lemma {:induction false} EmptyAfterFlush(run: seq<State>, acts: seq<Action>, recorders: nat, ttl: int, i: nat, j: nat)
    requires IsRun(run, acts, recorders, ttl) && i < j <= |acts| && acts[i].Flush?
    requires forall k | i < k < j :: !acts[k].Arrive?
    ensures run[j].tracker == map[]
    decreases j
  {
    if j == i + 1 {
      FlushEmpties(run[i], acts[i], ttl);
    } else {
      EmptyAfterFlush(run, acts, recorders, ttl, i, j - 1);
      StaysEmpty(run[j - 1], acts[j - 1], ttl);
    }
  }

  lemma StaysEmpty(s: State, act: Action, ttl: int)
    requires Tracked(s) && Enabled(s, act, ttl) && s.tracker == map[] && !act.Arrive?
    ensures Next(s, act, ttl).tracker == map[]
  {
  }

  /** In particular a second flush, or a sweep after a flush, does nothing if nothing has arrived in between. */
  lemma SecondFlushDoesNothing(run: seq<State>, acts: seq<Action>, recorders: nat, ttl: int, i: nat, j: nat)
    requires IsRun(run, acts, recorders, ttl) && i < j < |acts|
    requires acts[i].Flush? && (acts[j].Flush? || acts[j].Sweep?)
    requires forall k | i < k < j :: !acts[k].Arrive?
    ensures run[j + 1] == run[j]
  {
    EmptyAfterFlush(run, acts, recorders, ttl, i, j);
    TakingNothing(run[j], acts[j], ttl);
  }

  /** But a second flush can report a burst: here one that arrives between the two. */
  lemma SecondFlushCanReport(a: Arrival, ttl: int) returns (run: seq<State>, acts: seq<Action>)
    ensures IsRun(run, acts, 1, ttl) && |acts| == 3 && acts[0].Flush? && acts[2].Flush?
    ensures run[2].recorders[0].todo == []
    ensures |run[3].recorders[0].todo| == 1 && run[3].recorders[0].todo[0].stats ==
            StatsOf(a.chunk.burstId, Summary([a]))
  {
    hide Summary, Take, Lists, Arrived;
    acts := [Flush(0, []), Arrive(a), Flush(0, [a.chunk.burstId])];
    var s := Arrived(Start(1), a);
    FirstArrival(a, ttl);
    TakingNothing(Start(1), acts[0], ttl);
    FlushOne(s, acts[2], ttl);
    run := [Start(1), Start(1), s, Next(s, acts[2], ttl)];
  }

  lemma FirstArrival(a: Arrival, ttl: int)
    ensures Enabled(Start(1), Flush(0, []), ttl) && Tracked(Start(1))
    ensures
      var s := Arrived(Start(1), a);
      && Tracked(s) && s.tracker == map[a.chunk.burstId := Summary([a])] && s.recorders == Start(1).recorders
      && Enabled(s, Flush(0, [a.chunk.burstId]), ttl)
  {
    assert [] + [a] == [a];
    RecordExtendsSummary([], a);
    assert Lists([], {});
    assert Lists([a.chunk.burstId], {a.chunk.burstId});
  }

  lemma FlushOne(s: State, act: Action, ttl: int)
    requires Tracked(s) && Enabled(s, act, ttl) && act.Flush? && |act.order| == 1
    ensures act.order[0] in s.tracker
    ensures
      var id := act.order[0];
      && act.who < |s.recorders|
      && Next(s, act, ttl).recorders[act.who].todo == [Report(StatsOf(id, s.tracker[id]), s.histories[id])]
  {
    OrderIsTracked(s, act, ttl);
    TakeOne(s.tracker, s.histories, act.order[0]);
    assert act.order == [act.order[0]];
  }

  lemma TakeOne(m: Entries, histories: map<U64, seq<nat>>, id: U64)
    requires id in m && id in histories
    ensures Take(m, histories, [id]) == [Report(StatsOf(id, m[id]), histories[id])]
  {
    assert [id][1..] == [] && Take(m, histories, []) == [];
  }
}
