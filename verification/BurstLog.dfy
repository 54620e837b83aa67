/**
 Recording bursts. Paths write to one tracker while any number of recorders (the sweep loop, and each caller
 of shutdownContinuous) take entries out of it and append rows to the burst log, all interleaved freely.
 Every tracker call and every append is one atomic step. Nothing is lost, and nothing is reported twice.
 */
module BurstLog {
  import opened Bytes
  import opened Sums
  import opened Bursts

  /** An entry taken out of the tracker; history is the numbers of the arrivals it stands for. */
  datatype Report = Report(stats: BurstStats, history: seq<nat>)

  /** Row of a whole burst, or of one path's share in it. */
  datatype Row = BurstRow(report: Report) | PathRow(report: Report, path: nat)

  /** What a recorder has still to log: the paths left of the burst at hand, then the bursts to do. */
  datatype Recorder = Recorder(current: Report, paths: set<nat>, todo: seq<Report>)

  /** histories says, for each tracked burst, which arrivals its entry stands for. */
  datatype State = State(
    arrivals: seq<Arrival>,
    tracker: Entries,
    histories: map<U64, seq<nat>>,
    recorders: seq<Recorder>,
    log: seq<Row>)

  datatype Action =
    | Arrive(a: Arrival)                               // one BurstTracker.Write
    | Sweep(who: nat, now: int, order: seq<U64>)       // one BurstTracker.Expire, in the given map order
    | Flush(who: nat, order: seq<U64>)                 // one BurstTracker.ExpireAll
    | LogBurst(who: nat)
    | LogPath(who: nat, path: nat)

  predicate Resting(r: Recorder) {
    r.paths == {} && r.todo == []
  }

  ghost predicate Enabled(s: State, act: Action, ttl: int) {
    match act
    case Arrive(_) => true
    case Sweep(w, now, order) => w < |s.recorders| && Resting(s.recorders[w])
      && Lists(order, IdleIds(s.tracker, now, ttl))
    case Flush(w, order) => w < |s.recorders| && Resting(s.recorders[w]) && Lists(order, s.tracker.Keys)
    case LogBurst(w) => w < |s.recorders| && s.recorders[w].paths == {} && s.recorders[w].todo != []
    case LogPath(w, p) => w < |s.recorders| && p in s.recorders[w].paths
  }

  function Take(m: Entries, histories: map<U64, seq<nat>>, order: seq<U64>): seq<Report>
    requires forall id | id in order :: id in m && id in histories
  {
    if order == [] then []
    else [Report(StatsOf(order[0], m[order[0]]), histories[order[0]])] + Take(m, histories, order[1..])
  }

  ghost predicate Tracked(s: State) {
    s.histories.Keys == s.tracker.Keys
  }

  /** What taking out the entries named by order leaves. */
  function TakenOut(s: State, who: nat, order: seq<U64>): State
    requires who < |s.recorders| && forall id | id in order :: id in s.tracker && id in s.histories
  {
    var ids := ToSet(order);
    s.(tracker := s.tracker - ids, histories := s.histories - ids,
       recorders := s.recorders[who := s.recorders[who].(todo := Take(s.tracker, s.histories, order))])
  }

  lemma OrderIsTracked(s: State, act: Action, ttl: int)
    requires Tracked(s) && Enabled(s, act, ttl) && (act.Sweep? || act.Flush?)
    ensures forall id | id in act.order :: id in s.tracker && id in s.histories
    ensures ToSet(act.order) <= s.tracker.Keys
  {
    ListsMembers(act.order, if act.Sweep? then IdleIds(s.tracker, act.now, ttl) else s.tracker.Keys);
  }

  function HistoryOf(s: State, id: U64): seq<nat> {
    if id in s.histories then s.histories[id] else []
  }

  /** What one arrival leaves: its number goes to the end of its burst's history. */
  function Arrived(s: State, a: Arrival): State {
    var id := a.chunk.burstId;
    s.(arrivals := s.arrivals + [a],
       tracker := WriteEntry(s.tracker, a),
       histories := s.histories[id := HistoryOf(s, id) + [|s.arrivals|]])
  }

  function BurstLogged(s: State, who: nat): State
    requires who < |s.recorders| && s.recorders[who].todo != []
  {
    var r := s.recorders[who];
    var report := r.todo[0];
    s.(log := s.log + [BurstRow(report)],
       recorders := s.recorders[who := Recorder(report, report.stats.perPath.Keys, r.todo[1..])])
  }

  function PathLogged(s: State, who: nat, path: nat): State
    requires who < |s.recorders|
  {
    var r := s.recorders[who];
    s.(log := s.log + [PathRow(r.current, path)], recorders := s.recorders[who := r.(paths := r.paths - {path})])
  }

  ghost function Next(s: State, act: Action, ttl: int): State
    requires Tracked(s) && Enabled(s, act, ttl)
  {
    match act
    case Arrive(a) => Arrived(s, a)
    case Sweep(w, _, order) => OrderIsTracked(s, act, ttl); TakenOut(s, w, order)
    case Flush(w, order) => OrderIsTracked(s, act, ttl); TakenOut(s, w, order)
    case LogBurst(w) => BurstLogged(s, w)
    case LogPath(w, p) => PathLogged(s, w, p)
  }

  // ---- Every reported and every tracked entry is the summary of its arrivals ----

  predicate InRange(history: seq<nat>, n: nat) {
    forall k | 0 <= k < |history| :: history[k] < n
  }

  /** The arrivals a history names. */
  function Pick(arrivals: seq<Arrival>, history: seq<nat>): (r: seq<Arrival>)
    requires InRange(history, |arrivals|)
    ensures |r| == |history|
  {
    if history == [] then [] else Pick(arrivals, history[..|history| - 1]) + [arrivals[history[|history| - 1]]]
  }

  /** The arrivals of a burst from lo up to hi, by number. */
  function Positions(arrivals: seq<Arrival>, id: U64, lo: nat, hi: nat): (r: seq<nat>)
    requires lo <= hi <= |arrivals|
    ensures InRange(r, hi)
    decreases hi
  {
    if lo == hi then []
    else Positions(arrivals, id, lo, hi - 1) + if arrivals[hi - 1].chunk.burstId == id then [hi - 1] else []
  }

  /** They are in order, all of the burst, and none is missing. */
  lemma {:induction false} PositionsAre(arrivals: seq<Arrival>, id: U64, lo: nat, hi: nat)
    requires lo <= hi <= |arrivals|
    ensures
      var r := Positions(arrivals, id, lo, hi);
      && (forall i, j | 0 <= i < j < |r| :: r[i] < r[j])
      && forall j: nat :: j in r <==> lo <= j < hi && arrivals[j].chunk.burstId == id
    decreases hi
  {
    if lo < hi {
      PositionsAre(arrivals, id, lo, hi - 1);
    }
  }

  /** The history is a stretch of the burst's own arrivals, with none of them missing in between. */
  ghost predicate IsStretch(arrivals: seq<Arrival>, id: U64, history: seq<nat>) {
    exists lo: nat, hi: nat :: Spans(arrivals, id, history, lo, hi)
  }

  predicate Spans(arrivals: seq<Arrival>, id: U64, history: seq<nat>, lo: nat, hi: nat) {
    lo <= hi <= |arrivals| && history == Positions(arrivals, id, lo, hi)
  }

  /** The history is such a stretch up to the present. */
  ghost predicate IsCurrent(arrivals: seq<Arrival>, id: U64, history: seq<nat>) {
    exists lo: nat :: Spans(arrivals, id, history, lo, |arrivals|)
  }

  /** The report is of the burst it names: the summary of a stretch of that burst's arrivals. */
  ghost predicate Genuine(arrivals: seq<Arrival>, r: Report) {
    && r.history != [] && InRange(r.history, |arrivals|) && IsStretch(arrivals, r.stats.burstId, r.history)
    && r.stats == StatsOf(r.stats.burstId, Summary(Pick(arrivals, r.history)))
  }

  ghost predicate GenuineEntry(arrivals: seq<Arrival>, id: U64, b: Burst, history: seq<nat>) {
    && history != [] && InRange(history, |arrivals|) && IsCurrent(arrivals, id, history)
    && b == Summary(Pick(arrivals, history))
  }

  ghost predicate GenuineRecorder(arrivals: seq<Arrival>, r: Recorder) {
    && (forall k | 0 <= k < |r.todo| :: Genuine(arrivals, r.todo[k]))
    && (r.paths != {} ==> Genuine(arrivals, r.current))
    && r.paths <= r.current.stats.perPath.Keys
  }

  ghost predicate AllGenuine(s: State) {
    && Tracked(s)
    && (forall id | id in s.tracker :: GenuineEntry(s.arrivals, id, s.tracker[id], s.histories[id]))
    && (forall w | 0 <= w < |s.recorders| :: GenuineRecorder(s.arrivals, s.recorders[w]))
    && (forall k | 0 <= k < |s.log| :: Genuine(s.arrivals, s.log[k].report))
  }

  lemma {:induction false} PickGrows(arrivals: seq<Arrival>, a: Arrival, history: seq<nat>)
    requires InRange(history, |arrivals|)
    ensures Pick(arrivals + [a], history) == Pick(arrivals, history)
  {
    if history != [] {
      PickGrows(arrivals, a, history[..|history| - 1]);
    }
  }

  lemma {:induction false} PositionsGrow(arrivals: seq<Arrival>, a: Arrival, id: U64, lo: nat, hi: nat)
    requires lo <= hi <= |arrivals|
    ensures Positions(arrivals + [a], id, lo, hi) == Positions(arrivals, id, lo, hi)
    decreases hi
  {
    if lo < hi {
      PositionsGrow(arrivals, a, id, lo, hi - 1);
    }
  }

  /** Up to the present, one more arrival counts for its own burst only. */
  lemma PositionsExtend(arrivals: seq<Arrival>, a: Arrival, id: U64, lo: nat)
    requires lo <= |arrivals|
    ensures Positions(arrivals + [a], id, lo, |arrivals| + 1) ==
            Positions(arrivals, id, lo, |arrivals|) + if a.chunk.burstId == id then [|arrivals|] else []
  {
    PositionsGrow(arrivals, a, id, lo, |arrivals|);
  }

  lemma StretchGrows(arrivals: seq<Arrival>, a: Arrival, id: U64, history: seq<nat>)
    requires IsStretch(arrivals, id, history)
    ensures IsStretch(arrivals + [a], id, history)
  {
    var lo: nat, hi: nat :| Spans(arrivals, id, history, lo, hi);
    PositionsGrow(arrivals, a, id, lo, hi);
    assert Spans(arrivals + [a], id, history, lo, hi);
  }

  lemma CurrentGrows(arrivals: seq<Arrival>, a: Arrival, id: U64, history: seq<nat>)
    requires IsCurrent(arrivals, id, history)
    ensures IsCurrent(arrivals + [a], id, history + if a.chunk.burstId == id then [|arrivals|] else [])
  {
    var lo: nat :| Spans(arrivals, id, history, lo, |arrivals|);
    PositionsExtend(arrivals, a, id, lo);
    var longer := history + if a.chunk.burstId == id then [|arrivals|] else [];
    assert Spans(arrivals + [a], id, longer, lo, |arrivals + [a]|);
  }

  lemma GenuineGrows(arrivals: seq<Arrival>, a: Arrival, r: Report)
    requires Genuine(arrivals, r)
    ensures Genuine(arrivals + [a], r)
  {
    hide IsStretch, Summary;
    PickGrows(arrivals, a, r.history);
    StretchGrows(arrivals, a, r.stats.burstId, r.history);
  }

  lemma EntryGrows(arrivals: seq<Arrival>, a: Arrival, id: U64, b: Burst, history: seq<nat>)
    requires GenuineEntry(arrivals, id, b, history) && a.chunk.burstId != id
    ensures GenuineEntry(arrivals + [a], id, b, history)
  {
    hide IsCurrent, Summary;
    PickGrows(arrivals, a, history);
    CurrentGrows(arrivals, a, id, history);
    AppendNothing(history);
  }

  /** Recording an arrival in an entry and in its history keeps them in step; also when there was no entry. */
  lemma EntryRecords(arrivals: seq<Arrival>, a: Arrival, history: seq<nat>)
    requires InRange(history, |arrivals|) && IsCurrent(arrivals, a.chunk.burstId, history)
    ensures GenuineEntry(arrivals + [a], a.chunk.burstId, Recorded(Base(Pick(arrivals, history), a), a),
                         history + [|arrivals|])
  {
    hide IsCurrent, Summary, Recorded;
    var longer := history + [|arrivals|];
    PickGrows(arrivals, a, history);
    RecordExtendsSummary(Pick(arrivals, history), a);
    CurrentGrows(arrivals, a, a.chunk.burstId, history);
    assert longer[..|history|] == history;
  }

  lemma ArrivedEntry(s: State, a: Arrival)
    requires AllGenuine(s)
    ensures
      var id := a.chunk.burstId;
      GenuineEntry(s.arrivals + [a], id, WriteEntry(s.tracker, a)[id], HistoryOf(s, id) + [|s.arrivals|])
  {
    hide IsStretch, Genuine, GenuineRecorder, Recorded;
    var id := a.chunk.burstId;
    if id in s.tracker {
      assert GenuineEntry(s.arrivals, id, s.tracker[id], s.histories[id]);
    } else {
      assert Spans(s.arrivals, id, [], |s.arrivals|, |s.arrivals|);
    }
    EntryRecords(s.arrivals, a, HistoryOf(s, id));
  }

  lemma EntryAfter(s: State, a: Arrival, id: U64)
    requires AllGenuine(s) && id in Arrived(s, a).tracker
    ensures id in Arrived(s, a).histories
    ensures GenuineEntry(s.arrivals + [a], id, Arrived(s, a).tracker[id], Arrived(s, a).histories[id])
  {
    hide GenuineEntry, Genuine, GenuineRecorder, Recorded;
    if id == a.chunk.burstId {
      ArrivedEntry(s, a);
    } else {
      EntryGrows(s.arrivals, a, id, s.tracker[id], s.histories[id]);
    }
  }

  lemma ArriveKeepsEntries(s: State, a: Arrival)
    requires AllGenuine(s)
    ensures Tracked(Arrived(s, a))
    ensures forall id | id in Arrived(s, a).tracker ::
              GenuineEntry(s.arrivals + [a], id, Arrived(s, a).tracker[id], Arrived(s, a).histories[id])
  {
    hide GenuineEntry, Genuine, GenuineRecorder, Recorded;
    forall id | id in Arrived(s, a).tracker
      ensures GenuineEntry(s.arrivals + [a], id, Arrived(s, a).tracker[id], Arrived(s, a).histories[id])
    {
      EntryAfter(s, a, id);
    }
  }

  lemma ArriveKeepsGenuine(s: State, a: Arrival)
    requires AllGenuine(s)
    ensures AllGenuine(Arrived(s, a))
  {
    hide GenuineEntry, Genuine, GenuineRecorder, WriteEntry;
    var t := Arrived(s, a);
    ArriveKeepsEntries(s, a);
    forall w | 0 <= w < |t.recorders| ensures GenuineRecorder(t.arrivals, t.recorders[w]) {
      RecorderGrows(s.arrivals, a, s.recorders[w]);
    }
    forall k | 0 <= k < |t.log| ensures Genuine(t.arrivals, t.log[k].report) {
      GenuineGrows(s.arrivals, a, s.log[k].report);
    }
  }

  lemma RecorderGrows(arrivals: seq<Arrival>, a: Arrival, r: Recorder)
    requires GenuineRecorder(arrivals, r)
    ensures GenuineRecorder(arrivals + [a], r)
  {
    hide Genuine;
    forall k | 0 <= k < |r.todo| ensures Genuine(arrivals + [a], r.todo[k]) {
      GenuineGrows(arrivals, a, r.todo[k]);
    }
    if r.paths != {} {
      GenuineGrows(arrivals, a, r.current);
    }
  }

  lemma {:induction false} TakeIsGenuine(s: State, order: seq<U64>)
    requires AllGenuine(s) && forall id | id in order :: id in s.tracker && id in s.histories
    ensures forall k | 0 <= k < |Take(s.tracker, s.histories, order)| ::
            Genuine(s.arrivals, Take(s.tracker, s.histories, order)[k])
  {
    hide AllGenuine, Genuine;
    if order != [] {
      TakenIsGenuine(s, order[0]);
      TakeIsGenuine(s, order[1..]);
    }
  }

  lemma TakenIsGenuine(s: State, id: U64)
    requires AllGenuine(s) && id in s.tracker && id in s.histories
    ensures Genuine(s.arrivals, Report(StatsOf(id, s.tracker[id]), s.histories[id]))
  {
    assert GenuineEntry(s.arrivals, id, s.tracker[id], s.histories[id]);
    var lo: nat :| Spans(s.arrivals, id, s.histories[id], lo, |s.arrivals|);
  }

  lemma TakingKeepsGenuine(s: State, who: nat, order: seq<U64>)
    requires AllGenuine(s) && who < |s.recorders| && Resting(s.recorders[who])
    requires forall id | id in order :: id in s.tracker && id in s.histories
    ensures AllGenuine(TakenOut(s, who, order))
  {
    hide Genuine, GenuineEntry;
    TakeIsGenuine(s, order);
  }

  lemma BurstLoggedIsGenuine(s: State, w: nat)
    requires AllGenuine(s) && w < |s.recorders| && s.recorders[w].todo != []
    ensures AllGenuine(BurstLogged(s, w))
  {
    hide Genuine, GenuineEntry;
    var r := s.recorders[w];
    assert GenuineRecorder(s.arrivals, r) && Genuine(s.arrivals, r.todo[0]);
    assert GenuineRecorder(s.arrivals, BurstLogged(s, w).recorders[w]);
  }

  lemma PathLoggedIsGenuine(s: State, w: nat, p: nat)
    requires AllGenuine(s) && w < |s.recorders| && p in s.recorders[w].paths
    ensures AllGenuine(PathLogged(s, w, p))
  {
    hide Genuine, GenuineEntry;
    assert GenuineRecorder(s.arrivals, s.recorders[w]);
    assert GenuineRecorder(s.arrivals, PathLogged(s, w, p).recorders[w]);
  }

  lemma StepKeepsGenuine(s: State, act: Action, ttl: int)
    requires AllGenuine(s) && Enabled(s, act, ttl)
    ensures AllGenuine(Next(s, act, ttl))
  {
    match act {
      case Arrive(a) => ArriveKeepsGenuine(s, a);
      case Sweep(w, _, order) =>
        OrderIsTracked(s, act, ttl);
        TakingKeepsGenuine(s, w, order);
      case Flush(w, order) =>
        OrderIsTracked(s, act, ttl);
        TakingKeepsGenuine(s, w, order);
      case LogBurst(w) => BurstLoggedIsGenuine(s, w);
      case LogPath(w, p) => PathLoggedIsGenuine(s, w, p);
    }
  }

  // ---- Conservation: any weight given to arrivals is found again in rows, recorders and tracker ----

  function Weight(history: seq<nat>, v: nat -> nat): nat {
    if history == [] then 0 else Weight(history[..|history| - 1], v) + v(history[|history| - 1])
  }

  function WeightBelow(n: nat, v: nat -> nat): nat {
    if n == 0 then 0 else WeightBelow(n - 1, v) + v(n - 1)
  }

  /** The weight of the whole-burst rows. */
  function Logged(log: seq<Row>, v: nat -> nat): nat {
    if log == [] then 0
    else
      var row := log[|log| - 1];
      Logged(log[..|log| - 1], v) + if row.BurstRow? then Weight(row.report.history, v) else 0
  }

  function ToDo(todo: seq<Report>, v: nat -> nat): nat {
    if todo == [] then 0 else Weight(todo[0].history, v) + ToDo(todo[1..], v)
  }

  function InHand(recorders: seq<Recorder>, v: nat -> nat): nat {
    if recorders == [] then 0 else ToDo(recorders[0].todo, v) + InHand(recorders[1..], v)
  }

  function Weights(histories: map<U64, seq<nat>>, v: nat -> nat): map<U64, nat> {
    map id | id in histories :: Weight(histories[id], v)
  }

  ghost predicate Conserved(s: State, v: nat -> nat) {
    Logged(s.log, v) + InHand(s.recorders, v) + SumValues(Weights(s.histories, v)) == WeightBelow(|s.arrivals|, v)
  }

  lemma {:induction false} InHandUpdate(recorders: seq<Recorder>, w: nat, r: Recorder, v: nat -> nat)
    requires w < |recorders|
    ensures InHand(recorders[w := r], v) + ToDo(recorders[w].todo, v) == InHand(recorders, v) + ToDo(r.todo, v)
  {
    if w == 0 {
      assert recorders[w := r][1..] == recorders[1..];
    } else {
      assert recorders[w := r][1..] == recorders[1..][w - 1 := r];
      InHandUpdate(recorders[1..], w - 1, r, v);
    }
  }

  lemma LogOneMore(log: seq<Row>, row: Row, v: nat -> nat)
    ensures Logged(log + [row], v) == Logged(log, v) + if row.BurstRow? then Weight(row.report.history, v) else 0
  {
    assert (log + [row])[..|log|] == log;
  }

  lemma {:induction false} TakeMovesWeight(m: Entries, histories: map<U64, seq<nat>>, order: seq<U64>, v: nat -> nat)
    requires forall id | id in order :: id in m && id in histories
    requires Lists(order, ToSet(order))
    ensures
      ToDo(Take(m, histories, order), v) + SumValues(Weights(histories - ToSet(order), v))
      == SumValues(Weights(histories, v))
    decreases order
  {
    if order == [] {
      assert histories - {} == histories;
    } else {
      var first, rest := order[0], order[1..];
      var left := histories - {first};
      RestLists(order);
      SumRemove(Weights(histories, v), first);
      assert Weights(histories, v) - {first} == Weights(left, v);
      TakeIgnores(m, histories, first, rest);
      TakeMovesWeight(m, left, rest, v);
      RemoveInTwo(histories, first, ToSet(rest));
    }
  }

  lemma RemoveInTwo(histories: map<U64, seq<nat>>, first: U64, rest: set<U64>)
    ensures (histories - {first}) - rest == histories - ({first} + rest)
  {
  }

  /** An order that names each id once names its first only at the front. */
  lemma RestLists(order: seq<U64>)
    requires order != [] && Lists(order, ToSet(order))
    ensures order[0] !in order[1..]
    ensures ToSet(order) == {order[0]} + ToSet(order[1..])
    ensures Lists(order[1..], ToSet(order[1..]))
  {
    var first, rest := order[0], order[1..];
    assert order == [first] + rest;
    assert multiset(order) == multiset{first} + multiset(rest);
    assert first in ToSet(order);
    assert multiset(order)[first] == 1;
    assert first !in multiset(rest);
    assert ToSet(order) == {first} + ToSet(rest);
    assert multiset(ToSet(order)) == multiset{first} + multiset(ToSet(rest));
    assert multiset(rest) == multiset(order) - multiset{first} == multiset(ToSet(rest));
  }

  lemma {:induction false} TakeIgnores(m: Entries, histories: map<U64, seq<nat>>, other: U64, order: seq<U64>)
    requires forall id | id in order :: id in m && id in histories
    requires other !in order
    ensures Take(m, histories - {other}, order) == Take(m, histories, order)
  {
    if order != [] {
      TakeIgnores(m, histories, other, order[1..]);
    }
  }

  lemma ArriveConserves(s: State, a: Arrival, v: nat -> nat)
    requires Conserved(s, v)
    ensures Conserved(Arrived(s, a), v)
  {
    var id := a.chunk.burstId;
    var h := HistoryOf(s, id);
    var longer := h + [|s.arrivals|];
    assert longer[..|h|] == h;
    assert Weights(Arrived(s, a).histories, v) == Weights(s.histories, v)[id := Weight(longer, v)];
    if id in s.histories {
      SumUpdate(Weights(s.histories, v), id, Weight(longer, v));
    } else {
      SumAdd(Weights(s.histories, v), id, Weight(longer, v));
    }
  }

  lemma TakingConserves(s: State, who: nat, order: seq<U64>, v: nat -> nat)
    requires Tracked(s) && Conserved(s, v) && who < |s.recorders| && Resting(s.recorders[who])
    requires forall id | id in order :: id in s.tracker && id in s.histories
    requires Lists(order, ToSet(order))
    ensures Conserved(TakenOut(s, who, order), v)
  {
    TakeMovesWeight(s.tracker, s.histories, order, v);
    InHandUpdate(s.recorders, who, s.recorders[who].(todo := Take(s.tracker, s.histories, order)), v);
  }

  lemma ListsItself(order: seq<U64>, ids: set<U64>)
    requires Lists(order, ids)
    ensures Lists(order, ToSet(order))
  {
    ListsMembers(order, ids);
    assert ToSet(order) == ids;
  }

  lemma StepConserves(s: State, act: Action, ttl: int, v: nat -> nat)
    requires Tracked(s) && Conserved(s, v) && Enabled(s, act, ttl)
    ensures Conserved(Next(s, act, ttl), v)
  {
    match act {
      case Arrive(a) => ArriveConserves(s, a, v);
      case Sweep(w, now, order) =>
        OrderIsTracked(s, act, ttl);
        ListsItself(order, IdleIds(s.tracker, now, ttl));
        TakingConserves(s, w, order, v);
      case Flush(w, order) =>
        OrderIsTracked(s, act, ttl);
        ListsItself(order, s.tracker.Keys);
        TakingConserves(s, w, order, v);
      case LogBurst(w) =>
        var r := s.recorders[w];
        LogOneMore(s.log, BurstRow(r.todo[0]), v);
        InHandUpdate(s.recorders, w, Recorder(r.todo[0], r.todo[0].stats.perPath.Keys, r.todo[1..]), v);
      case LogPath(w, p) =>
        var r := s.recorders[w];
        LogOneMore(s.log, PathRow(r.current, p), v);
        InHandUpdate(s.recorders, w, r.(paths := r.paths - {p}), v);
    }
  }

  // ---- Path rows add up to burst rows ----

  function FieldOf(stats: BurstStats, f: Field): nat {
    match f
    case Bytes => stats.bytesReceived
    case Chunks => stats.chunks
    case Corrupted => stats.corrupted
  }

  function BurstRows(log: seq<Row>, f: Field): nat {
    if log == [] then 0
    else
      var row := log[|log| - 1];
      BurstRows(log[..|log| - 1], f) + if row.BurstRow? then FieldOf(row.report.stats, f) else 0
  }

  function PathRows(log: seq<Row>, f: Field): nat {
    if log == [] then 0
    else
      var row := log[|log| - 1];
      PathRows(log[..|log| - 1], f)
      + if row.PathRow? && row.path in row.report.stats.perPath then f.Of(row.report.stats.perPath[row.path]) else 0
  }

  /** What the burst at hand still has to get in path rows. */
  function Remaining(r: Recorder, f: Field): map<nat, nat> {
    map p | p in r.paths && p in r.current.stats.perPath :: f.Of(r.current.stats.perPath[p])
  }

  ghost function Owed(recorders: seq<Recorder>, f: Field): nat {
    if recorders == [] then 0 else SumValues(Remaining(recorders[0], f)) + Owed(recorders[1..], f)
  }

  /** Logged burst rows exceed logged path rows by exactly what the recorders still owe. */
  ghost predicate RowsBalance(s: State, f: Field) {
    BurstRows(s.log, f) == PathRows(s.log, f) + Owed(s.recorders, f)
  }

  lemma {:induction false} OwedUpdate(recorders: seq<Recorder>, w: nat, r: Recorder, f: Field)
    requires w < |recorders|
    ensures Owed(recorders[w := r], f) + SumValues(Remaining(recorders[w], f)) == Owed(recorders, f)
            + SumValues(Remaining(r, f))
  {
    if w == 0 {
      assert recorders[w := r][1..] == recorders[1..];
    } else {
      assert recorders[w := r][1..] == recorders[1..][w - 1 := r];
      OwedUpdate(recorders[1..], w - 1, r, f);
    }
  }

  lemma OneRowMore(log: seq<Row>, row: Row, f: Field)
    ensures BurstRows(log + [row], f) == BurstRows(log, f) + if row.BurstRow? then FieldOf(row.report.stats, f) else 0
    ensures PathRows(log + [row], f) ==
            PathRows(log, f)
            + if row.PathRow? && row.path in row.report.stats.perPath then f.Of(row.report.stats.perPath[row.path])
              else 0
  {
    assert (log + [row])[..|log|] == log;
  }

  lemma OwesNothing(r: Recorder, f: Field)
    requires r.paths == {}
    ensures SumValues(Remaining(r, f)) == 0
  {
    assert Remaining(r, f) == map[];
  }

  /** A whole burst owes as much as its row says: the shares add up. */
  lemma OwesItsRow(arrivals: seq<Arrival>, report: Report, todo: seq<Report>, f: Field)
    requires Genuine(arrivals, report)
    ensures SumValues(Remaining(Recorder(report, report.stats.perPath.Keys, todo), f)) == FieldOf(report.stats, f)
  {
    SummaryAddsUp(Pick(arrivals, report.history));
    assert Remaining(Recorder(report, report.stats.perPath.Keys, todo), f) == Project(report.stats.perPath, f);
  }

  lemma StepKeepsBalance(s: State, act: Action, ttl: int, f: Field)
    requires AllGenuine(s) && RowsBalance(s, f) && Enabled(s, act, ttl)
    ensures RowsBalance(Next(s, act, ttl), f)
  {
    match act {
      case Arrive(_) =>
      case Sweep(w, _, order) =>
        OrderIsTracked(s, act, ttl);
        TakingKeepsBalance(s, w, order, f);
      case Flush(w, order) =>
        OrderIsTracked(s, act, ttl);
        TakingKeepsBalance(s, w, order, f);
      case LogBurst(w) => BurstRowKeepsBalance(s, w, f);
      case LogPath(w, p) => PathRowKeepsBalance(s, w, p, f);
    }
  }

  lemma BurstRowKeepsBalance(s: State, w: nat, f: Field)
    requires AllGenuine(s) && RowsBalance(s, f)
    requires w < |s.recorders| && s.recorders[w].paths == {} && s.recorders[w].todo != []
    ensures RowsBalance(BurstLogged(s, w), f)
  {
    var r := s.recorders[w];
    var report := r.todo[0];
    assert GenuineRecorder(s.arrivals, r) && Genuine(s.arrivals, report);
    OneRowMore(s.log, BurstRow(report), f);
    OwesNothing(r, f);
    OwesItsRow(s.arrivals, report, r.todo[1..], f);
    OwedUpdate(s.recorders, w, Recorder(report, report.stats.perPath.Keys, r.todo[1..]), f);
  }

  lemma PathRowKeepsBalance(s: State, w: nat, p: nat, f: Field)
    requires AllGenuine(s) && RowsBalance(s, f) && w < |s.recorders| && p in s.recorders[w].paths
    ensures RowsBalance(PathLogged(s, w, p), f)
  {
    var r := s.recorders[w];
    var r' := r.(paths := r.paths - {p});
    assert GenuineRecorder(s.arrivals, r);
    OneRowMore(s.log, PathRow(r.current, p), f);
    SumRemove(Remaining(r, f), p);
    assert Remaining(r, f) - {p} == Remaining(r', f);
    OwedUpdate(s.recorders, w, r', f);
  }

  lemma TakingKeepsBalance(s: State, who: nat, order: seq<U64>, f: Field)
    requires who < |s.recorders| && Resting(s.recorders[who]) && RowsBalance(s, f)
    requires forall id | id in order :: id in s.tracker && id in s.histories
    ensures RowsBalance(TakenOut(s, who, order), f)
  {
    var r := s.recorders[who].(todo := Take(s.tracker, s.histories, order));
    OwesNothing(s.recorders[who], f);
    OwesNothing(r, f);
    OwedUpdate(s.recorders, who, r, f);
  }

  // ---- Whole runs ----

  function Start(recorders: nat): State {
    State([], map[], map[], seq(recorders, _ => Idler()), [])
  }

  function Idler(): Recorder {
    Recorder(Report(BurstStats(0, 0, 0, 0, 0, true, 0, 0, map[]), []), {}, [])
  }

  /** The states a run passes through. */
  ghost predicate IsRun(run: seq<State>, acts: seq<Action>, recorders: nat, ttl: int) {
    && |run| == |acts| + 1
    && run[0] == Start(recorders)
    && forall i | 0 <= i < |acts| ::
         Tracked(run[i]) && Enabled(run[i], acts[i], ttl) && run[i + 1] == Next(run[i], acts[i], ttl)
  }

  lemma {:induction false} StartIsQuiet(recorders: seq<Recorder>, v: nat -> nat, f: Field)
    requires forall w | 0 <= w < |recorders| :: recorders[w] == Idler()
    ensures InHand(recorders, v) == 0 && Owed(recorders, f) == 0
  {
    if recorders != [] {
      assert Remaining(recorders[0], f) == map[];
      StartIsQuiet(recorders[1..], v, f);
    }
  }

  lemma {:induction false} RunKeepsAll(run: seq<State>, acts: seq<Action>, recorders: nat, ttl: int, v: nat -> nat,
                                       f: Field)
    requires IsRun(run, acts, recorders, ttl)
    ensures AllGenuine(run[|acts|]) && Conserved(run[|acts|], v) && RowsBalance(run[|acts|], f)
    decreases |acts|
  {
    if acts == [] {
      StartIsQuiet(run[0].recorders, v, f);
      assert Weights(map[], v) == map[];
    } else {
      var k := |acts| - 1;
      RunKeepsAll(run[..k + 1], acts[..k], recorders, ttl, v, f);
      StepKeepsGenuine(run[k], acts[k], ttl);
      StepConserves(run[k], acts[k], ttl, v);
      StepKeepsBalance(run[k], acts[k], ttl, f);
    }
  }

  // ---- What it means ----

  lemma {:induction false} IndicatorBelow(n: nat, i: nat, here: nat -> nat)
    requires forall j: nat :: here(j) == if j == i then 1 else 0
    ensures WeightBelow(n, here) == if i < n then 1 else 0
  {
    if n > 0 {
      IndicatorBelow(n - 1, i, here);
    }
  }

  /**
   Exactly once: at every moment of every run, each arrival is in exactly one place: in one logged burst row,
   in one report still to be logged, or in the tracked entry. Its history names it there once.
   */
  lemma EveryArrivalExactlyOnce(run: seq<State>, acts: seq<Action>, recorders: nat, ttl: int, i: nat, here: nat -> nat)
    requires IsRun(run, acts, recorders, ttl) && i < |run[|acts|].arrivals|
    requires forall j: nat :: here(j) == if j == i then 1 else 0
    ensures
      var s := run[|acts|];
      Logged(s.log, here) + InHand(s.recorders, here) + SumValues(Weights(s.histories, here)) == 1
  {
    RunKeepsAll(run, acts, recorders, ttl, here, Chunks);
    IndicatorBelow(|run[|acts|].arrivals|, i, here);
  }

  /** The field that counts the selected arrivals. */
  predicate Counts(f: Field, sel: Selector) {
    (f == Chunks && sel == Any) || (f == Corrupted && sel == Corrupt)
  }

  ghost predicate Marks(arrivals: seq<Arrival>, sel: Selector, v: nat -> nat) {
    forall j: nat | j < |arrivals| :: v(j) == if sel.Selects(arrivals[j]) then 1 else 0
  }

  lemma {:induction false} MarkedWeight(arrivals: seq<Arrival>, h: seq<nat>, sel: Selector, v: nat -> nat)
    requires InRange(h, |arrivals|) && Marks(arrivals, sel, v)
    ensures Weight(h, v) == Count(Pick(arrivals, h), sel)
  {
    if h != [] {
      var init := h[..|h| - 1];
      MarkedWeight(arrivals, init, sel, v);
      CountsExtend(Pick(arrivals, init), arrivals[h[|h| - 1]], sel);
    }
  }

  lemma {:induction false} MarkedBelow(arrivals: seq<Arrival>, n: nat, sel: Selector, v: nat -> nat)
    requires n <= |arrivals| && Marks(arrivals, sel, v)
    ensures WeightBelow(n, v) == Count(arrivals[..n], sel)
  {
    if n > 0 {
      MarkedBelow(arrivals, n - 1, sel, v);
      CountsExtend(arrivals[..n - 1], arrivals[n - 1], sel);
      assert arrivals[..n] == arrivals[..n - 1] + [arrivals[n - 1]];
    }
  }

  lemma {:induction false} LoggedField(arrivals: seq<Arrival>, log: seq<Row>, f: Field, sel: Selector, v: nat -> nat)
    requires Counts(f, sel) && Marks(arrivals, sel, v)
    requires forall k | 0 <= k < |log| :: Genuine(arrivals, log[k].report)
    ensures Logged(log, v) == BurstRows(log, f)
  {
    if log != [] {
      LoggedField(arrivals, log[..|log| - 1], f, sel, v);
      MarkedWeight(arrivals, log[|log| - 1].report.history, sel, v);
    }
  }

  function ToDoField(todo: seq<Report>, f: Field): nat {
    if todo == [] then 0 else FieldOf(todo[0].stats, f) + ToDoField(todo[1..], f)
  }

  /** The field's total over the reports taken but not yet logged. */
  function InHandField(recorders: seq<Recorder>, f: Field): nat {
    if recorders == [] then 0 else ToDoField(recorders[0].todo, f) + InHandField(recorders[1..], f)
  }

  lemma {:induction false} ToDoFields(arrivals: seq<Arrival>, todo: seq<Report>, f: Field, sel: Selector, v: nat -> nat)
    requires Counts(f, sel) && Marks(arrivals, sel, v)
    requires forall k | 0 <= k < |todo| :: Genuine(arrivals, todo[k])
    ensures ToDo(todo, v) == ToDoField(todo, f)
  {
    if todo != [] {
      MarkedWeight(arrivals, todo[0].history, sel, v);
      ToDoFields(arrivals, todo[1..], f, sel, v);
    }
  }

  lemma {:induction false} InHandFields(arrivals: seq<Arrival>, recorders: seq<Recorder>, f: Field, sel: Selector,
                                        v: nat -> nat)
    requires Counts(f, sel) && Marks(arrivals, sel, v)
    requires forall w | 0 <= w < |recorders| :: GenuineRecorder(arrivals, recorders[w])
    ensures InHand(recorders, v) == InHandField(recorders, f)
  {
    if recorders != [] {
      assert GenuineRecorder(arrivals, recorders[0]);
      ToDoFields(arrivals, recorders[0].todo, f, sel, v);
      InHandFields(arrivals, recorders[1..], f, sel, v);
    }
  }

  function TrackedField(tracker: Entries, f: Field): map<U64, nat> {
    map id | id in tracker :: FieldOf(StatsOf(id, tracker[id]), f)
  }

  lemma TrackedFields(s: State, f: Field, sel: Selector, v: nat -> nat)
    requires AllGenuine(s) && Counts(f, sel) && Marks(s.arrivals, sel, v)
    ensures Weights(s.histories, v) == TrackedField(s.tracker, f)
  {
    hide Summary, Weight, Count, Credited, IsCurrent;
    forall id | id in s.tracker ensures Weight(s.histories[id], v) == FieldOf(StatsOf(id, s.tracker[id]), f) {
      EntryField(s.arrivals, id, s.tracker[id], s.histories[id], f, sel, v);
    }
  }

  lemma EntryField(arrivals: seq<Arrival>, id: U64, b: Burst, h: seq<nat>, f: Field, sel: Selector, v: nat -> nat)
    requires GenuineEntry(arrivals, id, b, h) && Counts(f, sel) && Marks(arrivals, sel, v)
    ensures Weight(h, v) == FieldOf(StatsOf(id, b), f)
  {
    MarkedWeight(arrivals, h, sel, v);
  }

  /**
   Conservation: at every moment of every run, the chunks (and the corrupted ones) of everything logged, of
   everything taken and still to be logged, and of everything tracked are together the (corrupted) writes so far.
   */
  lemma EveryWriteIsCounted(run: seq<State>, acts: seq<Action>, recorders: nat, ttl: int, f: Field, sel: Selector)
    requires IsRun(run, acts, recorders, ttl) && Counts(f, sel)
    ensures
      var s := run[|acts|];
      BurstRows(s.log, f) + InHandField(s.recorders, f) + SumValues(TrackedField(s.tracker, f)) ==
        Count(s.arrivals, sel)
  {
    var s := run[|acts|];
    var v := (j: nat) => if j < |s.arrivals| && sel.Selects(s.arrivals[j]) then 1 else 0;
    RunKeepsAll(run, acts, recorders, ttl, v, f);
    LoggedField(s.arrivals, s.log, f, sel, v);
    InHandFields(s.arrivals, s.recorders, f, sel, v);
    TrackedFields(s, f, sel, v);
    MarkedBelow(s.arrivals, |s.arrivals|, sel, v);
    assert s.arrivals[..|s.arrivals|] == s.arrivals;
  }

  /** Whenever no recorder is in the middle of a burst, the path rows logged add up to the burst rows logged. */
  lemma PathRowsAddUp(run: seq<State>, acts: seq<Action>, recorders: nat, ttl: int, f: Field)
    requires IsRun(run, acts, recorders, ttl)
    requires forall w | 0 <= w < |run[|acts|].recorders| :: run[|acts|].recorders[w].paths == {}
    ensures PathRows(run[|acts|].log, f) == BurstRows(run[|acts|].log, f)
  {
    RunKeepsAll(run, acts, recorders, ttl, j => 0, f);
    NothingOwed(run[|acts|].recorders, f);
  }

  lemma {:induction false} NothingOwed(recorders: seq<Recorder>, f: Field)
    requires forall w | 0 <= w < |recorders| :: recorders[w].paths == {}
    ensures Owed(recorders, f) == 0
  {
    if recorders != [] {
      OwesNothing(recorders[0], f);
      NothingOwed(recorders[1..], f);
    }
  }

  /** When the tracker is empty and every recorder at rest, the log alone accounts for every write. */
  lemma LogIsCompleteWhenQuiet(run: seq<State>, acts: seq<Action>, recorders: nat, ttl: int)
    requires IsRun(run, acts, recorders, ttl)
    requires run[|acts|].tracker == map[] && forall w | 0 <= w < |run[|acts|].recorders| ::
             Resting(run[|acts|].recorders[w])
    ensures BurstRows(run[|acts|].log, Chunks) == PathRows(run[|acts|].log, Chunks) == |run[|acts|].arrivals|
    ensures BurstRows(run[|acts|].log, Corrupted) == PathRows(run[|acts|].log, Corrupted) ==
            Count(run[|acts|].arrivals, Corrupt)
  {
    var s := run[|acts|];
    EveryWriteIsCounted(run, acts, recorders, ttl, Chunks, Any);
    EveryWriteIsCounted(run, acts, recorders, ttl, Corrupted, Corrupt);
    PathRowsAddUp(run, acts, recorders, ttl, Chunks);
    PathRowsAddUp(run, acts, recorders, ttl, Corrupted);
    CountAnyIsLength(s.arrivals);
    assert TrackedField(s.tracker, Chunks) == TrackedField(s.tracker, Corrupted) == map[];
    NothingInHand(s.recorders, Chunks);
    NothingInHand(s.recorders, Corrupted);
  }

  lemma {:induction false} NothingInHand(recorders: seq<Recorder>, f: Field)
    requires forall w | 0 <= w < |recorders| :: Resting(recorders[w])
    ensures InHandField(recorders, f) == 0
  {
    if recorders != [] {
      NothingInHand(recorders[1..], f);
    }
  }
}
