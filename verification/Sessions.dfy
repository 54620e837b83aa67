/**
 A server session as a state machine. Its connections run freely against each other; every locked method
 of the session is one atomic step. The barrier, the single end of the session and the integrity verdict are
 invariants of every run, for any number of connections and whatever chunks arrive.
 */
module Sessions {
  import opened Bytes
  import opened Chunks
  import opened Preambles
  import opened Reassembly
  import opened Sums
  import Bursts
  import Crc

  datatype Option<+T> = None | Some(value: T)

  datatype PathResult = PathResult(index: nat, bytes: nat, chunks: nat, corrupted: nat)

  /** Exactly one of reassembler and burst tracker exists once the session has started. */
  datatype Tracker = NoTracker | Assembling(assembly: Assembly) | Tracking(entries: Bursts.Entries)

  /** One run of the end-of-session action: the results it saw, and a one-shot session's verdict. */
  datatype Ending = Ending(results: seq<PathResult>, integrityOk: bool)

  datatype Core = Core(
    ctrl: Option<ControlHeader>,
    tracker: Tracker,
    outstanding: nat,       // the WaitGroup's counter
    results: seq<PathResult>,
    waiting: bool,          // a goroutine waits for the counter to reach zero
    endings: seq<Ending>,
    panicked: bool)

  function NewCore(): Core {
    Core(None, NoTracker, 0, [], false, [], false)
  }

  // ---- The session's methods ----

  /** Allocating the reassembler (and dividing by its chunk size) is possible. */
  predicate Startable(h: ControlHeader) {
    h.totalSize > 0 ==> h.totalSize < INT_LIMIT && EffectiveSize(h.totalSize, h.chunkSize) > 0
  }

  function NewTracker(h: ControlHeader): Tracker
    requires Startable(h)
  {
    if h.totalSize == 0 then Tracking(map[])
    else
      var size := EffectiveSize(h.totalSize, h.chunkSize);
      CountFits(h.totalSize, size);
      Assembling(Empty(h.totalSize, size, BoundedCount(h.totalSize, size)))
  }

  function Started(s: Core, h: ControlHeader): Core {
    if s.ctrl.Some? then s
    else if !Startable(h) then s.(panicked := true)
    else s.(ctrl := Some(h), tracker := NewTracker(h), outstanding := h.numPaths, waiting := true)
  }

  predicate Trackable(t: Tracker, c: Chunk) {
    t.Assembling? && c.VerifyChecksum() ==> Placeable(t.assembly, c)
  }

  function Track(t: Tracker, c: Chunk, path: nat, now: int): Tracker
    requires Trackable(t, c)
  {
    match t
    case NoTracker => t
    case Assembling(a) => if c.VerifyChecksum() then Assembling(Place(a, c)) else t
    case Tracking(m) => Tracking(Bursts.WriteEntry(m, Bursts.Arrival(c, !c.VerifyChecksum(), path, now)))
  }

  function Handled(s: Core, c: Chunk, path: nat, now: int): Core {
    if Trackable(s.tracker, c) then s.(tracker := Track(s.tracker, c, path, now)) else s.(panicked := true)
  }

  /**
   What handling a chunk does, written out. A continuous session counts every chunk, as corrupted exactly if its
   checksum is not that of its data; a one-shot session leaves a corrupted chunk alone.
   */
  lemma HandledSays(s: Core, c: Chunk, path: nat, now: int)
    ensures s.tracker.Tracking? ==>
              var m := s.tracker.entries;
              var corrupted := Crc.Checksum(c.data) != c.checksum;
              var a := Bursts.Arrival(c, corrupted, path, now);
              Handled(s, c, path, now) == s.(tracker := Tracking(Bursts.WriteEntry(m, a)))
    ensures s.tracker.Assembling? && Crc.Checksum(c.data) != c.checksum ==> Handled(s, c, path, now) == s
    ensures s.tracker.Assembling? && Crc.Checksum(c.data) == c.checksum ==>
              if Placeable(s.tracker.assembly, c)
              then Handled(s, c, path, now) == s.(tracker := Assembling(Place(s.tracker.assembly, c)))
              else Handled(s, c, path, now) == s.(panicked := true)
  {
  }

  /** In the entry's own fields: one chunk of a continuous session. */
  lemma ContinuousChunk(s: Core, c: Chunk, path: nat, now: int)
    requires s.tracker.Tracking?
    ensures
      var m := s.tracker.entries;
      var t := Handled(s, c, path, now);
      var before := if c.burstId in m then m[c.burstId] else Bursts.Burst(c.burstBytes, 0, {}, 0, 0, now, now, map[]);
      var share := if path in before.perPath then before.perPath[path] else Bursts.PathShare(0, 0, 0);
      && t == s.(tracker := t.tracker) && t.tracker.Tracking?
      && t.tracker.entries.Keys == m.Keys + {c.burstId}
      && (forall id | id in m && id != c.burstId :: t.tracker.entries[id] == m[id])
      && var after := t.tracker.entries[c.burstId];
      && path in after.perPath
      && after.bytesExpected == before.bytesExpected && after.chunks == before.chunks + 1
      && after.startedAt == before.startedAt && after.lastActivity == now
      && after.perPath[path].chunks == share.chunks + 1
      && (forall p | p in before.perPath && p != path :: p in after.perPath && after.perPath[p] == before.perPath[p])
      && (Crc.Checksum(c.data) != c.checksum ==>
            && after.bytesReceived == before.bytesReceived && after.seen == before.seen
            && after.corrupted == before.corrupted + 1
            && after.perPath[path].bytesReceived == share.bytesReceived
            && after.perPath[path].corrupted == share.corrupted + 1)
      && (Crc.Checksum(c.data) == c.checksum ==>
            var credit := if c.number in before.seen then 0 else |c.data|;
            && after.bytesReceived == before.bytesReceived + credit && after.seen == before.seen + {c.number}
            && after.corrupted == before.corrupted
            && after.perPath[path].bytesReceived == share.bytesReceived + credit
            && after.perPath[path].corrupted == share.corrupted)
  {
    hide Bursts.WriteEntry, Handled;
    HandledSays(s, c, path, now);
    Bursts.WriteChanges(s.tracker.entries, Bursts.Arrival(c, Crc.Checksum(c.data) != c.checksum, path, now));
  }

  function PathDone(s: Core, r: PathResult): Core {
    if s.outstanding == 0 then s.(results := s.results + [r], panicked := true)
    else s.(results := s.results + [r], outstanding := s.outstanding - 1)
  }

  function CorruptedIn(results: seq<PathResult>): nat {
    if results == [] then 0 else CorruptedIn(results[..|results| - 1]) + results[|results| - 1].corrupted
  }

  function Verdict(s: Core): bool {
    s.tracker.Assembling? && CorruptedIn(s.results) == 0 && s.tracker.assembly.remaining == 0
  }

  /** What a shutdown of a continuous session leaves; a one-shot session is left alone. */
  function Flushed(s: Core): Core {
    if s.tracker.Tracking? then s.(tracker := Tracking(map[])) else s
  }

  /** finalize for a one-shot session; for a continuous one, shutdownContinuous flushes the tracker. */
  function Ended(s: Core): Core {
    Flushed(s).(waiting := false, endings := s.endings + [Ending(s.results, Verdict(s))])
  }

  // ---- Connections ----

  datatype Conn =
    | Opened
    | Waiting(index: nat)
    | Reading(result: PathResult)
    | Done(result: PathResult, clean: bool)   // path result recorded; clean if the stream ended plainly
    | Acked(result: PathResult)
    | Gone                                    // gave up waiting for the control header

  /** got holds, for each connection, every chunk it has handled. */
  datatype State = State(core: Core, conns: seq<Conn>, got: seq<seq<Chunk>>)

  datatype Action =
    | Greet(p: nat, preamble: Preamble)
    | Proceed(p: nat)
    | GiveUp(p: nat)
    | Read(p: nat, c: Chunk, now: int)
    | Finish(p: nat, clean: bool)
    | Ack(p: nat)
    | TakeOut(ids: set<U64>)   // the sweep loop, or a shutdown of the process, takes entries out of the tracker
    | End

  predicate Enabled(s: State, act: Action) {
    && !s.core.panicked && |s.got| == |s.conns|
    && match act
       case Greet(p, _) => p < |s.conns| && s.conns[p].Opened?
       case Proceed(p) => p < |s.conns| && s.conns[p].Waiting? && s.core.ctrl.Some?
       case GiveUp(p) => p < |s.conns| && s.conns[p].Waiting?
       case Read(p, _, _) => p < |s.conns| && s.conns[p].Reading?
       case Finish(p, _) => p < |s.conns| && s.conns[p].Reading?
       case Ack(p) => p < |s.conns| && s.conns[p].Done? && s.conns[p].clean
       case TakeOut(_) => s.core.tracker.Tracking?
       case End => s.core.waiting && s.core.outstanding == 0
  }

  function Tallied(r: PathResult, c: Chunk): PathResult {
    PathResult(r.index, r.bytes + |c.data|, r.chunks + 1, r.corrupted + if c.VerifyChecksum() then 0 else 1)
  }

  function PreambleIndex(p: Preamble): nat {
    match p
    case Control(_) => 0
    case Hello(h) => h.pathIndex
  }

  function Next(s: State, act: Action): State
    requires Enabled(s, act)
  {
    match act
    case Greet(p, preamble) =>
      State(if preamble.Control? then Started(s.core, preamble.header) else s.core,
            s.conns[p := Waiting(PreambleIndex(preamble))], s.got)
    case Proceed(p) => s.(conns := s.conns[p := Reading(PathResult(s.conns[p].index, 0, 0, 0))])
    case GiveUp(p) => s.(conns := s.conns[p := Gone])
    case Read(p, c, now) =>
      State(Handled(s.core, c, s.conns[p].result.index, now),
            s.conns[p := Reading(Tallied(s.conns[p].result, c))],
            s.got[p := s.got[p] + [c]])
    case Finish(p, clean) =>
      s.(core := PathDone(s.core, s.conns[p].result), conns := s.conns[p := Done(s.conns[p].result, clean)])
    case Ack(p) => s.(conns := s.conns[p := Acked(s.conns[p].result)])
    case TakeOut(ids) => s.(core := s.core.(tracker := Tracking(s.core.tracker.entries - ids)))
    case End => s.(core := Ended(s.core))
  }

  function Start(paths: nat): State {
    State(NewCore(), seq(paths, _ => Opened), seq(paths, _ => []))
  }

  // ---- The barrier and the single end ----

  predicate Finished(c: Conn) {
    c.Done? || c.Acked?
  }

  predicate Active(c: Conn) {
    c.Reading? || Finished(c)
  }

  function FinishedCount(conns: seq<Conn>): nat {
    if conns == [] then 0 else FinishedCount(conns[1..]) + if Finished(conns[0]) then 1 else 0
  }

  /** Corrupted chunks as the finished connections counted them. */
  function FinishedCorrupted(conns: seq<Conn>): nat {
    if conns == [] then 0
    else FinishedCorrupted(conns[1..]) + if Finished(conns[0]) then conns[0].result.corrupted else 0
  }

  predicate TrackerFits(s: Core) {
    match s.ctrl
    case None => s.tracker == NoTracker
    case Some(h) =>
      && Startable(h)
      && (if h.totalSize == 0 then s.tracker.Tracking?
          else s.tracker.Assembling? && AssemblyFits(s.tracker.assembly, h))
  }

  /** The assembly has the dimensions the header announced. */
  predicate AssemblyFits(a: Assembly, h: ControlHeader)
    requires Startable(h) && h.totalSize > 0
  {
    && a.size == EffectiveSize(h.totalSize, h.chunkSize)
    && |a.buf| == h.totalSize && |a.received| == BoundedCount(h.totalSize, a.size)
    && a.remaining == Unset(a.received)
  }

  ghost predicate Barrier(s: State) {
    && |s.got| == |s.conns|
    && TrackerFits(s.core)
    && (s.core.ctrl.None? ==>
          && s.core.results == [] && s.core.endings == [] && !s.core.waiting
          && forall p | 0 <= p < |s.conns| :: !Active(s.conns[p]))
    && (s.core.ctrl.Some? ==> (s.core.waiting <==> s.core.endings == []))
    && |s.core.endings| <= 1
    && |s.core.results| == FinishedCount(s.conns)
    && CorruptedIn(s.core.results) == FinishedCorrupted(s.conns)
    && (!s.core.panicked && s.core.ctrl.Some? ==> s.core.outstanding + |s.core.results| == s.core.ctrl.value.numPaths)
    && (!s.core.panicked && s.core.endings != [] ==>
          s.core.endings[0].results == s.core.results && |s.core.results| == s.core.ctrl.value.numPaths)
  }

  lemma {:induction false} FinishOne(conns: seq<Conn>, p: nat, c: Conn)
    requires p < |conns|
    ensures FinishedCount(conns[p := c]) + (if Finished(conns[p]) then 1 else 0) == FinishedCount(conns)
            + if Finished(c) then 1 else 0
    ensures FinishedCorrupted(conns[p := c]) + (if Finished(conns[p]) then conns[p].result.corrupted else 0)
            == FinishedCorrupted(conns) + if Finished(c) then c.result.corrupted else 0
  {
    if p == 0 {
      assert conns[p := c][1..] == conns[1..];
    } else {
      assert conns[p := c][1..] == conns[1..][p - 1 := c];
      FinishOne(conns[1..], p - 1, c);
    }
  }

  lemma {:induction false} AllUnset(n: nat)
    ensures Unset(Repeat(false, n)) == n
  {
    if n > 0 {
      UnsetAppend(Repeat(false, n - 1), false);
      AllUnset(n - 1);
    }
  }

  lemma {:induction false} UnsetAppend(r: seq<bool>, x: bool)
    ensures Unset(r + [x]) == Unset(r) + if x then 0 else 1
  {
    if r == [] {
      assert r + [x] == [x] && [x][1..] == [];
    } else {
      assert (r + [x])[1..] == r[1..] + [x];
      UnsetAppend(r[1..], x);
    }
  }

  lemma StartedFits(s: Core, h: ControlHeader)
    requires TrackerFits(s)
    ensures TrackerFits(Started(s, h))
  {
    if s.ctrl.None? && Startable(h) && h.totalSize > 0 {
      AllUnset(BoundedCount(h.totalSize, EffectiveSize(h.totalSize, h.chunkSize)));
    }
  }

  lemma HandledFits(s: Core, c: Chunk, path: nat, now: int)
    requires TrackerFits(s)
    ensures TrackerFits(Handled(s, c, path, now))
  {
    if s.tracker.Assembling? && Trackable(s.tracker, c) && c.VerifyChecksum() {
      RemainingCountsUnset(s.tracker.assembly, c);
    }
  }

  lemma CorruptedInAppend(results: seq<PathResult>, r: PathResult)
    ensures CorruptedIn(results + [r]) == CorruptedIn(results) + r.corrupted
  {
    assert (results + [r])[..|results|] == results;
  }

  lemma {:induction false} NoneCorruptedIn(results: seq<PathResult>)
    ensures CorruptedIn(results) == 0 <==> forall i | 0 <= i < |results| :: results[i].corrupted == 0
  {
    if results != [] {
      var k := |results| - 1;
      NoneCorruptedIn(results[..k]);
      assert forall i | 0 <= i < k :: results[..k][i] == results[i];
    }
  }

  /** A step that only moves a connection on, neither finishing it nor touching the core. */
  lemma MoveKeepsBarrier(s: State, p: nat, c: Conn)
    requires Barrier(s) && p < |s.conns|
    requires Finished(c) <==> Finished(s.conns[p])
    requires Finished(c) ==> c.result == s.conns[p].result
    requires s.core.ctrl.None? ==> !Active(c)
    ensures Barrier(s.(conns := s.conns[p := c]))
  {
    FinishOne(s.conns, p, c);
  }

  lemma GreetKeepsBarrier(s: State, p: nat, preamble: Preamble)
    requires Barrier(s) && Enabled(s, Greet(p, preamble))
    ensures Barrier(Next(s, Greet(p, preamble)))
  {
    MoveKeepsBarrier(s, p, Waiting(PreambleIndex(preamble)));
    if preamble.Control? {
      StartedFits(s.core, preamble.header);
    }
  }

  lemma ReadKeepsBarrier(s: State, p: nat, c: Chunk, now: int)
    requires Barrier(s) && Enabled(s, Read(p, c, now))
    ensures Barrier(Next(s, Read(p, c, now)))
  {
    assert Active(s.conns[p]);
    FinishOne(s.conns, p, Reading(Tallied(s.conns[p].result, c)));
    HandledFits(s.core, c, s.conns[p].result.index, now);
  }

  lemma FinishKeepsBarrier(s: State, p: nat, clean: bool)
    requires Barrier(s) && Enabled(s, Finish(p, clean))
    ensures Barrier(Next(s, Finish(p, clean)))
  {
    assert Active(s.conns[p]);
    FinishOne(s.conns, p, Done(s.conns[p].result, clean));
    CorruptedInAppend(s.core.results, s.conns[p].result);
  }

  lemma StepKeepsBarrier(s: State, act: Action)
    requires Barrier(s) && Enabled(s, act)
    ensures Barrier(Next(s, act))
  {
    match act {
      case Greet(p, preamble) => GreetKeepsBarrier(s, p, preamble);
      case Proceed(p) => MoveKeepsBarrier(s, p, Reading(PathResult(s.conns[p].index, 0, 0, 0)));
      case GiveUp(p) => MoveKeepsBarrier(s, p, Gone);
      case Read(p, c, now) => ReadKeepsBarrier(s, p, c, now);
      case Finish(p, clean) => FinishKeepsBarrier(s, p, clean);
      case Ack(p) => MoveKeepsBarrier(s, p, Acked(s.conns[p].result));
      case TakeOut(_) =>
      case End =>
    }
  }

  lemma HeaderNeverChanges(s: State, act: Action)
    requires Enabled(s, act) && s.core.ctrl.Some?
    ensures Next(s, act).core.ctrl == s.core.ctrl
  {
    hide NewTracker, Startable, Trackable, Track, Verdict;
  }

  /** A continuous header always starts a session, without a panic; a one-shot one exactly if its sizes allow it. */
  lemma StartsUnless(s: Core, h: ControlHeader)
    requires s.ctrl.None?
    ensures h.totalSize == 0 ==>
              var t := Started(s, h);
              && t.panicked == s.panicked && t.ctrl == Some(h) && t.tracker == Tracking(map[])
              && t.outstanding == h.numPaths
    ensures h.totalSize > 0 ==>
              var t := Started(s, h);
              if h.totalSize < 0x8000_0000_0000_0000 && (h.chunkSize > 0 || h.totalSize % 0x1_0000_0000 > 0)
              then t.panicked == s.panicked && t.ctrl == Some(h) && t.tracker.Assembling? && t.outstanding == h.numPaths
              else t.panicked && t.ctrl.None?
  {
  }

  /** Once started, neither the header nor the kind of tracker changes; a later start does nothing. */
  lemma StartHappensOnce(s: State, act: Action)
    requires Barrier(s) && Enabled(s, act) && s.core.ctrl.Some?
    ensures Next(s, act).core.ctrl == s.core.ctrl
    ensures Next(s, act).core.tracker.Assembling? <==> s.core.tracker.Assembling?
    ensures Next(s, act).core.tracker.Tracking? <==> s.core.tracker.Tracking?
    ensures act.Greet? ==> Next(s, act).core == s.core
  {
  }

  /** Reading is possible only after the barrier, and only with exactly one tracker in place. */
  lemma NoChunkBeforeStart(s: State, act: Action)
    requires Barrier(s) && Enabled(s, act) && (act.Read? || act.Finish?)
    ensures s.core.ctrl.Some? && s.core.tracker != NoTracker
  {
    assert Active(s.conns[act.p]);
  }

  lemma {:induction false} AllFinished(conns: seq<Conn>, p: nat)
    requires FinishedCount(conns) == |conns| && p < |conns|
    ensures Finished(conns[p])
  {
    FinishedAtMost(conns[1..]);
    if p > 0 {
      AllFinished(conns[1..], p - 1);
    }
  }

  lemma {:induction false} EveryoneCounts(conns: seq<Conn>)
    requires forall p | 0 <= p < |conns| :: Finished(conns[p])
    ensures FinishedCount(conns) == |conns|
  {
    if conns != [] {
      EveryoneCounts(conns[1..]);
    }
  }

  lemma {:induction false} FinishedAtMost(conns: seq<Conn>)
    ensures FinishedCount(conns) <= |conns|
  {
    if conns != [] {
      FinishedAtMost(conns[1..]);
    }
  }

  /** Recording a path result makes the counter negative exactly when all announced paths have been recorded before. */
  lemma CounterGoesNegative(s: State, p: nat, clean: bool)
    requires Barrier(s) && Enabled(s, Finish(p, clean))
    ensures Next(s, Finish(p, clean)).core.panicked <==> |s.core.results| == s.core.ctrl.value.numPaths
  {
    NoChunkBeforeStart(s, Finish(p, clean));
  }

  /**
   With exactly the announced number of connections that never happens, and the end of the session is possible if and
   only if every connection has finished and it has not happened yet.
   */
  lemma EndComesLast(s: State)
    requires Barrier(s) && !s.core.panicked && s.core.ctrl.Some? && |s.conns| == s.core.ctrl.value.numPaths
    ensures forall p, clean :: Enabled(s, Finish(p, clean)) ==> !Next(s, Finish(p, clean)).core.panicked
    ensures Enabled(s, End) || s.core.endings != [] ==>
              |s.core.results| == |s.conns| && forall p | 0 <= p < |s.conns| :: Finished(s.conns[p])
    ensures s.core.endings != [] ==> !Enabled(s, End)
    ensures s.core.endings == [] && (forall p | 0 <= p < |s.conns| :: Finished(s.conns[p])) ==> Enabled(s, End)
  {
    if forall p | 0 <= p < |s.conns| :: Finished(s.conns[p]) {
      EveryoneCounts(s.conns);
    }
    if s.core.outstanding == 0 {
      forall p | 0 <= p < |s.conns| ensures Finished(s.conns[p]) {
        AllFinished(s.conns, p);
      }
    }
  }

  // ---- Every path result is recorded once ----

  function ResultOf(c: Conn): multiset<PathResult> {
    if Finished(c) then multiset{c.result} else multiset{}
  }

  /** The results of the finished connections, each as often as it occurs. */
  function FinishedResults(conns: seq<Conn>): multiset<PathResult> {
    if conns == [] then multiset{} else FinishedResults(conns[1..]) + ResultOf(conns[0])
  }

  ghost predicate AllRecorded(s: State) {
    multiset(s.core.results) == FinishedResults(s.conns)
  }

  lemma {:induction false} RecordOne(conns: seq<Conn>, p: nat, c: Conn)
    requires p < |conns|
    ensures FinishedResults(conns[p := c]) + ResultOf(conns[p]) == FinishedResults(conns) + ResultOf(c)
  {
    hide ResultOf;
    if p == 0 {
      assert conns[p := c][1..] == conns[1..];
    } else {
      assert conns[p := c][1..] == conns[1..][p - 1 := c];
      RecordOne(conns[1..], p - 1, c);
      Exchange(FinishedResults(conns[1..][p - 1 := c]), FinishedResults(conns[1..]), ResultOf(conns[p]), ResultOf(c),
        ResultOf(conns[0]));
    }
  }

  lemma Exchange<T>(a: multiset<T>, b: multiset<T>, x: multiset<T>, y: multiset<T>, z: multiset<T>)
    requires a + x == b + y
    ensures a + z + x == b + z + y
  {
    assert a + z + x == (a + x) + z && b + z + y == (b + y) + z;
  }

  lemma {:induction false} ResultIsRecorded(conns: seq<Conn>, p: nat)
    requires p < |conns| && Finished(conns[p])
    ensures conns[p].result in FinishedResults(conns)
  {
    if p > 0 {
      ResultIsRecorded(conns[1..], p - 1);
    }
  }

  lemma MoveKeepsResults(conns: seq<Conn>, p: nat, c: Conn)
    requires p < |conns| && (Finished(c) <==> Finished(conns[p])) && (Finished(c) ==> c.result == conns[p].result)
    ensures FinishedResults(conns[p := c]) == FinishedResults(conns)
  {
    hide FinishedResults;
    RecordOne(conns, p, c);
    Cancel(FinishedResults(conns[p := c]), FinishedResults(conns), ResultOf(c));
  }

  lemma MoveKeepsRecorded(s: State, t: State, p: nat, c: Conn)
    requires AllRecorded(s) && p < |s.conns| && t.conns == s.conns[p := c] && t.core.results == s.core.results
    requires (Finished(c) <==> Finished(s.conns[p])) && (Finished(c) ==> c.result == s.conns[p].result)
    ensures AllRecorded(t)
  {
    hide FinishedResults;
    MoveKeepsResults(s.conns, p, c);
  }

  lemma FinishKeepsRecorded(s: State, p: nat, clean: bool)
    requires AllRecorded(s) && Enabled(s, Finish(p, clean))
    ensures AllRecorded(Next(s, Finish(p, clean)))
  {
    hide FinishedResults;
    RecordOne(s.conns, p, Done(s.conns[p].result, clean));
  }

  /** Whatever the order in which connections finish, the recorded results are theirs and no others. */
  lemma StepKeepsRecorded(s: State, act: Action)
    requires AllRecorded(s) && Enabled(s, act)
    ensures AllRecorded(Next(s, act))
  {
    hide AllRecorded, NewTracker, Startable, Trackable, Track, Verdict;
    var t := Next(s, act);
    match act {
      case Greet(p, preamble) => MoveKeepsRecorded(s, t, p, Waiting(PreambleIndex(preamble)));
      case Proceed(p) => MoveKeepsRecorded(s, t, p, Reading(PathResult(s.conns[p].index, 0, 0, 0)));
      case GiveUp(p) => MoveKeepsRecorded(s, t, p, Gone);
      case Read(p, c, _) => MoveKeepsRecorded(s, t, p, Reading(Tallied(s.conns[p].result, c)));
      case Finish(p, clean) => FinishKeepsRecorded(s, p, clean);
      case Ack(p) => MoveKeepsRecorded(s, t, p, Acked(s.conns[p].result));
      case TakeOut(_) => SameRecorded(s, t);
      case End => SameRecorded(s, t);
    }
  }

  lemma SameRecorded(s: State, t: State)
    requires AllRecorded(s) && t.conns == s.conns && t.core.results == s.core.results
    ensures AllRecorded(t)
  {
  }

  // ---- What the connections counted, and what the verdict means ----

  function DataBytes(cs: seq<Chunk>): nat {
    if cs == [] then 0 else DataBytes(cs[..|cs| - 1]) + |cs[|cs| - 1].data|
  }

  function BadCount(cs: seq<Chunk>): nat {
    if cs == [] then 0 else BadCount(cs[..|cs| - 1]) + if cs[|cs| - 1].VerifyChecksum() then 0 else 1
  }

  /** The counters of a connection are those of the chunks it has handled. */
  predicate Counted(c: Conn, got: seq<Chunk>) {
    if Active(c) then c.result.bytes == DataBytes(got) && c.result.chunks == |got|
      && c.result.corrupted == BadCount(got)
    else got == []
  }

  predicate AllCounted(s: State) {
    |s.got| == |s.conns| && forall p | 0 <= p < |s.conns| :: Counted(s.conns[p], s.got[p])
  }

  lemma CountOneMore(got: seq<Chunk>, c: Chunk)
    ensures DataBytes(got + [c]) == DataBytes(got) + |c.data|
    ensures BadCount(got + [c]) == BadCount(got) + if c.VerifyChecksum() then 0 else 1
  {
    assert (got + [c])[..|got|] == got;
  }

  lemma StepKeepsCounts(s: State, act: Action)
    requires AllCounted(s) && Enabled(s, act)
    ensures AllCounted(Next(s, act))
  {
    var t := Next(s, act);
    forall p | 0 <= p < |t.conns| ensures Counted(t.conns[p], t.got[p]) {
      assert Counted(s.conns[p], s.got[p]);
      if act.Read? && act.p == p {
        CountsAfterRead(s.conns[p], s.got[p], act.c);
      }
    }
  }

  lemma CountsAfterRead(conn: Conn, got: seq<Chunk>, c: Chunk)
    requires conn.Reading? && Counted(conn, got)
    ensures Counted(Reading(Tallied(conn.result, c)), got + [c])
  {
    CountOneMore(got, c);
  }

  /** Some connection has handled an uncorrupted chunk of the slot. */
  ghost predicate Arrived(got: seq<seq<Chunk>>, size: nat, slot: nat)
    requires size > 0
  {
    exists p, j | 0 <= p < |got| && 0 <= j < |got[p]| :: IsGoodFor(got[p][j], size, slot)
  }

  predicate IsGoodFor(c: Chunk, size: nat, slot: nat)
    requires size > 0
  {
    c.VerifyChecksum() && c.offset / size == slot
  }

  lemma ArrivedGrows(got: seq<seq<Chunk>>, p: nat, c: Chunk, size: nat, slot: nat)
    requires size > 0 && p < |got|
    ensures Arrived(got[p := got[p] + [c]], size, slot) <==> Arrived(got, size, slot) || IsGoodFor(c, size, slot)
  {
    var more := got[p := got[p] + [c]];
    if Arrived(got, size, slot) {
      var q, j :| 0 <= q < |got| && 0 <= j < |got[q]| && IsGoodFor(got[q][j], size, slot);
      assert more[q][j] == got[q][j];
    }
    if IsGoodFor(c, size, slot) {
      assert more[p][|got[p]|] == c;
    }
  }

  /** A slot is marked received exactly when an uncorrupted chunk of it has been handled. */
  ghost predicate SlotsArrived(s: State) {
    !s.core.panicked && s.core.tracker.Assembling? ==>
      var a := s.core.tracker.assembly;
      a.size > 0 && forall i: nat | i < |a.received| :: a.received[i] <==> Arrived(s.got, a.size, i)
  }

  lemma StepKeepsSlots(s: State, act: Action)
    requires Barrier(s) && AllCounted(s) && SlotsArrived(s) && Enabled(s, act)
    ensures SlotsArrived(Next(s, act))
  {
    match act {
      case Greet(p, preamble) => GreetKeepsSlots(s, p, preamble);
      case Read(p, c, now) => ReadKeepsSlots(s, p, c, now);
      case Proceed(_) =>
      case GiveUp(_) =>
      case Finish(_, _) =>
      case Ack(_) =>
      case TakeOut(_) =>
      case End =>
    }
  }

  lemma GreetKeepsSlots(s: State, p: nat, preamble: Preamble)
    requires Barrier(s) && AllCounted(s) && SlotsArrived(s) && Enabled(s, Greet(p, preamble))
    ensures SlotsArrived(Next(s, Greet(p, preamble)))
  {
    var t := Next(s, Greet(p, preamble));
    if s.core.ctrl.None? && t.core.tracker.Assembling? {
      forall q | 0 <= q < |s.got| ensures s.got[q] == [] {
        assert Counted(s.conns[q], s.got[q]);
      }
    }
  }

  lemma PlaceMarks(a: Assembly, c: Chunk, i: nat)
    requires Placeable(a, c) && i < |a.received| < INT_LIMIT
    ensures |Place(a, c).received| == |a.received| && Place(a, c).size == a.size
    ensures Place(a, c).received[i] <==> a.received[i] || c.offset / a.size == i
  {
    hide Overlay;
  }

  lemma TrackMarks(a: Assembly, c: Chunk, path: nat, now: int, i: nat)
    requires Trackable(Assembling(a), c) && a.size > 0 && i < |a.received| < INT_LIMIT
    ensures
      var b := Track(Assembling(a), c, path, now).assembly;
      && |b.received| == |a.received| && b.size == a.size
      && (b.received[i] <==> a.received[i] || IsGoodFor(c, a.size, i))
  {
    hide Place, Placeable;
    if c.VerifyChecksum() {
      PlaceMarks(a, c, i);
    }
  }

  lemma ReadKeepsSlots(s: State, p: nat, c: Chunk, now: int)
    requires Barrier(s) && SlotsArrived(s) && Enabled(s, Read(p, c, now))
    ensures SlotsArrived(Next(s, Read(p, c, now)))
  {
    hide Arrived, IsGoodFor, Track, Trackable, FinishedCount, FinishedCorrupted, CorruptedIn;
    var t := Next(s, Read(p, c, now));
    if Trackable(s.core.tracker, c) {
      TrackKeepsKind(s.core.tracker, c, s.conns[p].result.index, now);
    }
    if s.core.tracker.Assembling? && Trackable(s.core.tracker, c) {
      var a := s.core.tracker.assembly;
      CountFits(s.core.ctrl.value.totalSize, a.size);
      TrackKeepsShape(a, c, s.conns[p].result.index, now);
      forall i: nat | i < |a.received| ensures t.core.tracker.assembly.received[i] <==> Arrived(t.got, a.size, i) {
        TrackMarks(a, c, s.conns[p].result.index, now, i);
        ArrivedGrows(s.got, p, c, a.size, i);
      }
    }
  }

  lemma TrackKeepsKind(t: Tracker, c: Chunk, path: nat, now: int)
    requires Trackable(t, c)
    ensures Track(t, c, path, now).Assembling? <==> t.Assembling?
  {
  }

  lemma TrackKeepsShape(a: Assembly, c: Chunk, path: nat, now: int)
    requires Trackable(Assembling(a), c)
    ensures
      var t := Track(Assembling(a), c, path, now);
      t.Assembling? && |t.assembly.received| == |a.received| && t.assembly.size == a.size
  {
  }

  // ---- The verdict ----

  /** After the end of a one-shot session the recorded verdict stays that of the present state. */
  predicate VerdictStands(s: State) {
    !s.core.panicked && s.core.endings != [] && s.core.tracker.Assembling? ==>
      s.core.endings[0].integrityOk == Verdict(s.core)
  }

  predicate AsAnnounced(s: State) {
    s.core.ctrl.Some? ==> |s.conns| == s.core.ctrl.value.numPaths
  }

  lemma StepKeepsVerdict(s: State, act: Action)
    requires Barrier(s) && VerdictStands(s) && AsAnnounced(s) && Enabled(s, act)
    ensures VerdictStands(Next(s, act))
  {
    if s.core.endings != [] {
      EndComesLast(s);
    }
  }

  ghost predicate NothingCorrupted(got: seq<seq<Chunk>>) {
    forall p, j | 0 <= p < |got| && 0 <= j < |got[p]| :: got[p][j].VerifyChecksum()
  }

  lemma {:induction false} NoBad(cs: seq<Chunk>)
    ensures BadCount(cs) == 0 <==> forall j | 0 <= j < |cs| :: cs[j].VerifyChecksum()
  {
    if cs != [] {
      NoBad(cs[..|cs| - 1]);
      assert forall j | 0 <= j < |cs| - 1 :: cs[j] == cs[..|cs| - 1][j];
    }
  }

  lemma {:induction false} NoneCorrupted(conns: seq<Conn>)
    requires forall p | 0 <= p < |conns| :: Finished(conns[p])
    ensures FinishedCorrupted(conns) == 0 <==> forall p | 0 <= p < |conns| ::
            Finished(conns[p]) && conns[p].result.corrupted == 0
  {
    if conns != [] {
      NoneCorrupted(conns[1..]);
      assert forall p | 1 <= p < |conns| :: conns[p] == conns[1..][p - 1];
    }
  }

  lemma {:induction false} NoneUnset(r: seq<bool>)
    ensures Unset(r) == 0 <==> forall i | 0 <= i < |r| :: r[i]
  {
    if r != [] {
      NoneUnset(r[1..]);
      assert forall i | 1 <= i < |r| :: r[i] == r[1..][i - 1];
    }
  }

  /** The chunks that pass their checksum are what the payload's split put in their slots. */
  ghost predicate GoodAreGenuine(got: seq<seq<Chunk>>, payload: seq<Byte>, size: nat)
    requires size > 0
  {
    forall p, j | 0 <= p < |got| && 0 <= j < |got[p]| && got[p][j].VerifyChecksum() ::
      IsSlotOf(got[p][j], payload, size)
  }

  ghost predicate IsSlotOf(c: Chunk, payload: seq<Byte>, size: nat)
    requires size > 0
  {
    exists i: nat :: IsSlot(c, payload, size, i)
  }

  ghost predicate ForPayload(s: Core, payload: seq<Byte>, size: U32) {
    s.ctrl.Some? ==>
      && s.ctrl.value.totalSize == |payload| && 0 < |payload| < INT_LIMIT
      && size == EffectiveSize(|payload|, s.ctrl.value.chunkSize) && size > 0
  }

  /** The assembly stands for a set of slots of the payload: right bytes there, zeros elsewhere, counters to match. */
  ghost predicate HoldsPayload(a: Assembly, payload: seq<Byte>, size: U32)
    requires size > 0
  {
    exists slots: set<nat> :: slots <= AllSlots(payload, size) && a == Filled(payload, size, slots)
  }

  ghost predicate Faithful(s: State, payload: seq<Byte>, size: U32) {
    size > 0 && GoodAreGenuine(s.got, payload, size) && s.core.tracker.Assembling? && !s.core.panicked ==>
      HoldsPayload(s.core.tracker.assembly, payload, size)
  }

  lemma StepKeepsFaithful(s: State, act: Action, payload: seq<Byte>, size: U32)
    requires Barrier(s) && Faithful(s, payload, size) && Enabled(s, act) && ForPayload(Next(s, act).core, payload, size)
    ensures Faithful(Next(s, act), payload, size)
  {
    if size > 0 {
      match act {
        case Greet(p, preamble) =>
          if preamble.Control? && s.core.ctrl.None? && Next(s, act).core.tracker.Assembling? {
            CountFits(preamble.header.totalSize, EffectiveSize(preamble.header.totalSize, preamble.header.chunkSize));
            NothingFilled(payload, size);
            assert {} <= AllSlots(payload, size);
          }
        case Read(p, c, now) => ReadKeepsFaithful(s, p, c, now, payload, size);
        case Proceed(_) =>
        case GiveUp(_) =>
        case Finish(_, _) =>
        case Ack(_) =>
        case TakeOut(_) =>
        case End =>
      }
    }
  }

  lemma ReadKeepsFaithful(s: State, p: nat, c: Chunk, now: int, payload: seq<Byte>, size: U32)
    requires size > 0 && |payload| < INT_LIMIT
    requires Faithful(s, payload, size) && Enabled(s, Read(p, c, now))
    ensures Faithful(Next(s, Read(p, c, now)), payload, size)
  {
    var t := Next(s, Read(p, c, now));
    if GoodAreGenuine(t.got, payload, size) && s.core.tracker.Assembling? {
      FewerAreGenuine(s.got, p, c, payload, size);
      if c.VerifyChecksum() {
        var slots :| slots <= AllSlots(payload, size) && s.core.tracker.assembly == Filled(payload, size, slots);
        var i: nat :| IsSlot(c, payload, size, i);
        PlaceGenuine(payload, size, slots, c, i);
        assert slots + {i} <= AllSlots(payload, size);
      }
    }
  }

  lemma FewerAreGenuine(got: seq<seq<Chunk>>, p: nat, c: Chunk, payload: seq<Byte>, size: nat)
    requires size > 0 && p < |got| && GoodAreGenuine(got[p := got[p] + [c]], payload, size)
    ensures GoodAreGenuine(got, payload, size)
    ensures c.VerifyChecksum() ==> IsSlotOf(c, payload, size)
  {
    var more := got[p := got[p] + [c]];
    assert more[p][|got[p]|] == c;
    forall q, j | 0 <= q < |got| && 0 <= j < |got[q]| && got[q][j].VerifyChecksum()
      ensures IsSlotOf(got[q][j], payload, size) {
      assert more[q][j] == got[q][j];
    }
  }

  // ---- Whole runs ----

  ghost predicate IsRun(run: seq<State>, acts: seq<Action>, paths: nat) {
    && |run| == |acts| + 1
    && run[0] == Start(paths)
    && forall i | 0 <= i < |acts| :: Enabled(run[i], acts[i]) && run[i + 1] == Next(run[i], acts[i])
  }

  ghost predicate Sound(s: State) {
    Barrier(s) && AllCounted(s) && SlotsArrived(s)
  }

  lemma {:induction false} NobodyFinished(conns: seq<Conn>)
    requires forall p | 0 <= p < |conns| :: conns[p] == Opened
    ensures FinishedCount(conns) == 0 && FinishedCorrupted(conns) == 0
  {
    if conns != [] {
      NobodyFinished(conns[1..]);
    }
  }

  lemma {:induction false} NothingRecorded(conns: seq<Conn>)
    requires forall p | 0 <= p < |conns| :: conns[p] == Opened
    ensures FinishedResults(conns) == multiset{}
  {
    if conns != [] {
      NothingRecorded(conns[1..]);
    }
  }

  lemma StartIsSound(paths: nat)
    ensures Sound(Start(paths))
  {
    NobodyFinished(Start(paths).conns);
  }

  lemma StepIsSound(s: State, act: Action)
    requires Sound(s) && Enabled(s, act)
    ensures Sound(Next(s, act))
  {
    StepKeepsBarrier(s, act);
    StepKeepsCounts(s, act);
    StepKeepsSlots(s, act);
  }

  /** Every state of every run is sound, for any number of connections and any chunks. */
  lemma {:induction false} RunIsSound(run: seq<State>, acts: seq<Action>, paths: nat)
    requires IsRun(run, acts, paths)
    ensures Sound(run[|acts|])
    decreases |acts|
  {
    if acts == [] {
      StartIsSound(paths);
    } else {
      var k := |acts| - 1;
      RunIsSound(run[..k + 1], acts[..k], paths);
      StepIsSound(run[k], acts[k]);
    }
  }

  lemma {:induction false} RunRecords(run: seq<State>, acts: seq<Action>, paths: nat)
    requires IsRun(run, acts, paths)
    ensures AllRecorded(run[|acts|])
    decreases |acts|
  {
    hide AllRecorded, Enabled;
    if acts == [] {
      NothingIsRecorded(paths);
    } else {
      var k := |acts| - 1;
      RunRecords(run[..k + 1], acts[..k], paths);
      StepKeepsRecorded(run[k], acts[k]);
    }
  }

  lemma NothingIsRecorded(paths: nat)
    ensures AllRecorded(Start(paths))
  {
    NothingRecorded(Start(paths).conns);
  }

  /** The session has the same header and the same kind of tracker as in the other state. */
  predicate SameSession(s: Core, t: Core) {
    s.ctrl == t.ctrl && (s.tracker.Assembling? <==> t.tracker.Assembling?)
      && (s.tracker.Tracking? <==> t.tracker.Tracking?)
  }

  lemma {:induction false} StaysStarted(run: seq<State>, acts: seq<Action>, paths: nat, i: nat)
    requires IsRun(run, acts, paths) && i <= |acts| && run[i].core.ctrl.Some?
    ensures SameSession(run[i].core, run[|acts|].core)
    decreases |acts| - i
  {
    hide Barrier, AllCounted, SlotsArrived;
    if i < |acts| {
      RunIsSound(run[..i + 1], acts[..i], paths);
      StartHappensOnce(run[i], acts[i]);
      StaysStarted(run, acts, paths, i + 1);
    }
  }

  /**
   The barrier over a whole run: whenever a connection reads a chunk or finishes, the session has been started, with
   the header and the one tracker it will keep.
   */
  lemma NothingBeforeTheBarrier(run: seq<State>, acts: seq<Action>, paths: nat, i: nat)
    requires IsRun(run, acts, paths) && i < |acts| && (acts[i].Read? || acts[i].Finish?)
    ensures run[i].core.ctrl.Some? && (run[i].core.tracker.Assembling? || run[i].core.tracker.Tracking?)
    ensures SameSession(run[i].core, run[|acts|].core)
  {
    RunIsSound(run[..i + 1], acts[..i], paths);
    NoChunkBeforeStart(run[i], acts[i]);
    StaysStarted(run, acts, paths, i);
  }

  /**
   The end over a whole run: with the announced number of connections it is possible if and only if every connection
   has finished and it has not happened, it happens at most once, and it sees exactly the connections' results.
   */
  lemma SessionEndsOnce(run: seq<State>, acts: seq<Action>, paths: nat)
    requires IsRun(run, acts, paths) && AsAnnounced(run[|acts|]) && !run[|acts|].core.panicked && paths > 0
    ensures
      var s := run[|acts|];
      && |s.core.endings| <= 1
      && (Enabled(s, End) <==> s.core.endings == [] && forall p | 0 <= p < |s.conns| :: Finished(s.conns[p]))
      && (s.core.endings != [] ==>
            && (forall p | 0 <= p < |s.conns| :: Finished(s.conns[p]))
            && |s.core.endings[0].results| == |s.conns|
            && multiset(s.core.endings[0].results) == FinishedResults(s.conns))
  {
    hide AllCounted, SlotsArrived, FinishedResults;
    var s := run[|acts|];
    RunIsSound(run, acts, paths);
    RunRecords(run, acts, paths);
    RunKeepsConnections(run, acts, paths);
    if s.core.ctrl.Some? {
      EndComesLast(s);
    } else {
      assert !Active(s.conns[0]);
    }
  }

  lemma {:induction false} RunKeepsConnections(run: seq<State>, acts: seq<Action>, paths: nat)
    requires IsRun(run, acts, paths)
    ensures |run[|acts|].conns| == paths
    decreases |acts|
  {
    if acts != [] {
      var k := |acts| - 1;
      RunKeepsConnections(run[..k + 1], acts[..k], paths);
    }
  }

  /** A run in which one path more finishes than the header announces: the counter goes negative. */
  lemma OnePathTooMany(h: ControlHeader, hello: PathHello) returns (run: seq<State>, acts: seq<Action>)
    requires h.numPaths == 1 && h.totalSize == 0
    ensures IsRun(run, acts, 2) && run[|acts|].core.panicked
  {
    acts := [Greet(0, Control(h)), Greet(1, Hello(hello)), Proceed(0), Proceed(1), Finish(0, true), Finish(1, true)];
    var s0 := Start(2);
    var s1 := Next(s0, acts[0]);
    var s2 := Next(s1, acts[1]);
    var s3 := Next(s2, acts[2]);
    var s4 := Next(s3, acts[3]);
    var s5 := Next(s4, acts[4]);
    run := [s0, s1, s2, s3, s4, s5, Next(s5, acts[5])];
  }

  lemma StepKeepsAnnounced(s: State, act: Action)
    requires Enabled(s, act) && AsAnnounced(Next(s, act))
    ensures AsAnnounced(s)
  {
  }

  lemma {:induction false} RunKeepsVerdict(run: seq<State>, acts: seq<Action>, paths: nat)
    requires IsRun(run, acts, paths) && AsAnnounced(run[|acts|])
    ensures VerdictStands(run[|acts|])
    decreases |acts|
  {
    if acts != [] {
      var k := |acts| - 1;
      StepKeepsAnnounced(run[k], acts[k]);
      RunKeepsVerdict(run[..k + 1], acts[..k], paths);
      RunIsSound(run[..k + 1], acts[..k], paths);
      StepKeepsVerdict(run[k], acts[k]);
    }
  }

  /**
   The verdict of a one-shot session with the announced number of connections is true if and only if no frame on
   any path failed its checksum and every slot was brought uncorrupted at least once.
   */
  lemma IntegrityVerdict(run: seq<State>, acts: seq<Action>, paths: nat)
    requires IsRun(run, acts, paths)
    requires
      var s := run[|acts|];
      AsAnnounced(s) && !s.core.panicked && s.core.endings != [] && s.core.tracker.Assembling?
    ensures
      var s := run[|acts|];
      var a := s.core.tracker.assembly;
      && a.size > 0
      && (s.core.endings[0].integrityOk <==>
          NothingCorrupted(s.got) && forall i: nat | i < |a.received| :: Arrived(s.got, a.size, i))
  {
    var s := run[|acts|];
    RunIsSound(run, acts, paths);
    RunKeepsVerdict(run, acts, paths);
    EndComesLast(s);
    NoneCorrupted(s.conns);
    NoneUnset(s.core.tracker.assembly.received);
    forall p | 0 <= p < |s.conns|
      ensures s.conns[p].result.corrupted == 0 <==> forall j | 0 <= j < |s.got[p]| :: s.got[p][j].VerifyChecksum()
    {
      assert Counted(s.conns[p], s.got[p]);
      NoBad(s.got[p]);
    }
  }

  lemma {:induction false} RunIsFaithful(run: seq<State>, acts: seq<Action>, paths: nat, payload: seq<Byte>, size: U32)
    requires IsRun(run, acts, paths) && ForPayload(run[|acts|].core, payload, size)
    ensures Faithful(run[|acts|], payload, size)
    decreases |acts|
  {
    hide Barrier, AllCounted, SlotsArrived, GoodAreGenuine, HoldsPayload;
    if acts != [] {
      var k := |acts| - 1;
      RunIsSound(run[..k + 1], acts[..k], paths);
      RunIsFaithful(run[..k + 1], acts[..k], paths, payload, size);
      StepKeepsFaithful(run[k], acts[k], payload, size);
    }
  }

  /** If every chunk that passes its checksum is genuine, a true verdict means that the buffer is the payload. */
  lemma VerdictMeansPayload(run: seq<State>, acts: seq<Action>, paths: nat, payload: seq<Byte>, size: U32)
    requires IsRun(run, acts, paths) && ForPayload(run[|acts|].core, payload, size) && size > 0
    requires GoodAreGenuine(run[|acts|].got, payload, size)
    requires
      var s := run[|acts|];
      AsAnnounced(s) && !s.core.panicked && s.core.endings != [] && s.core.tracker.Assembling?
    ensures run[|acts|].core.endings[0].integrityOk ==> run[|acts|].core.tracker.assembly.buf == payload
  {
    var s := run[|acts|];
    RunKeepsVerdict(run, acts, paths);
    RunIsFaithful(run, acts, paths, payload, size);
    var slots :| slots <= AllSlots(payload, size) && s.core.tracker.assembly == Filled(payload, size, slots);
    Completion(payload, size, slots);
  }
}
