/**
 The server's side as it is written: a session object whose methods update its fields, and the loop that reads one
 path. Each method is proved to do to the session what the state machine of Sessions does in one step.
 */
module Server {
  import opened Bytes
  import opened Streams
  import opened Chunks
  import opened Preambles
  import opened Sessions
  import Bursts
  import Crc
  import Reassembly

  class ServerSession {
    var ctrl: Option<ControlHeader>
    var reassembler: Reassembly.Reassembler?   // one-shot sessions only
    var burstTracker: Bursts.BurstTracker?     // continuous sessions only
    var outstanding: nat
    var pathResults: seq<PathResult>
    var waiting: bool
    var endings: seq<Ending>
    var panicked: bool

    /** The objects that hold what has arrived. */
    ghost function Store(): set<object>
      reads this
    {
      (if reassembler != null then {reassembler, reassembler.buf, reassembler.received} else {})
      + (if burstTracker != null then {burstTracker} else {})
    }

    ghost predicate Valid()
      reads this
    {
      (reassembler == null || burstTracker == null) && (ctrl.None? <==> reassembler == null && burstTracker == null)
    }

    ghost function Tracker(): Tracker
      reads this, Store()
    {
      if reassembler != null then Assembling(reassembler.State())
      else if burstTracker != null then Tracking(burstTracker.bursts)
      else NoTracker
    }

    ghost function State(): Core
      reads this, Store()
    {
      Core(ctrl, Tracker(), outstanding, pathResults, waiting, endings, panicked)
    }

    constructor ()
      ensures Valid() && State() == NewCore() && Store() == {}
    {
      ctrl, reassembler, burstTracker := None, null, null;
      outstanding, pathResults, waiting, endings, panicked := 0, [], false, [], false;
    }

    /** Only the first call does anything. */
    method Start(h: ControlHeader, burstTtl: int)
      requires Valid()
      modifies this
      ensures Valid() && fresh(Store() - old(Store()))
      ensures State() == Started(old(State()), h)
      ensures old(ctrl).None? && h.totalSize == 0 ==>
                && !panicked == !old(panicked) && ctrl == Some(h) && outstanding == h.numPaths && waiting
                && reassembler == null && burstTracker != null && burstTracker.bursts == map[]
                && burstTracker.ttl == burstTtl
      ensures old(ctrl).None? && h.totalSize > 0 ==>
                var size := if h.chunkSize == 0 then h.totalSize % 0x1_0000_0000 else h.chunkSize;
                if h.totalSize < 0x8000_0000_0000_0000 && size > 0 then
                  && panicked == old(panicked) && ctrl == Some(h) && outstanding == h.numPaths && waiting
                  && burstTracker == null && reassembler != null
                  && reassembler.chunkSize == size && reassembler.buf.Length == h.totalSize
                else panicked && ctrl.None?
    {
      if ctrl.Some? {
        return;
      }
      if h.totalSize == 0 {
        burstTracker := new Bursts.BurstTracker(burstTtl);
      } else {
        if h.totalSize >= Reassembly.INT_LIMIT || Reassembly.EffectiveSize(h.totalSize, h.chunkSize) == 0 {
          panicked := true;
          return;
        }
        reassembler := new Reassembly.Reassembler(h.totalSize, h.chunkSize);
      }
      ctrl := Some(h);
      outstanding := h.numPaths;
      waiting := true;
    }

    /** What the read loop does with one chunk, and whether its checksum failed. */
    method HandleChunk(c: Chunk, path: nat, now: int) returns (corrupt: bool)
      requires Valid()
      modifies this`panicked, Store()
      ensures Valid() && Store() == old(Store())
      ensures State() == Handled(old(State()), c, path, now)
      ensures corrupt <==> !c.VerifyChecksum()
      ensures corrupt <==> Crc.Checksum(c.data) != c.checksum
    {
      corrupt := !c.VerifyChecksum();
      if burstTracker != null {
        var complete := burstTracker.Write(c, corrupt, path, now);
      } else if !corrupt && reassembler != null {
        var ok := reassembler.InBounds(c);
        if ok {
          var complete := reassembler.Write(c);
        } else {
          panicked := true;
        }
      }
    }

    /** A counter that would go below zero panics. */
    method PathDone(r: PathResult)
      requires Valid()
      modifies this`pathResults, this`outstanding, this`panicked
      ensures Valid() && Store() == old(Store())
      ensures State() == Sessions.PathDone(old(State()), r)
      ensures pathResults == old(pathResults) + [r]
      ensures if old(outstanding) == 0 then panicked && outstanding == 0
              else outstanding == old(outstanding) - 1 && panicked == old(panicked)
    {
      pathResults := pathResults + [r];
      if outstanding == 0 {
        panicked := true;
      } else {
        outstanding := outstanding - 1;
      }
    }

    /** A one-shot session's verdict. */
    method Finalize() returns (ok: bool)
      requires Valid() && reassembler != null
      ensures ok <==> Verdict(State())
      ensures ok <==> reassembler.remaining == 0
                      && forall i | 0 <= i < |pathResults| :: pathResults[i].corrupted == 0
    {
      var corrupted := 0;
      for i := 0 to |pathResults|
        invariant corrupted == CorruptedIn(pathResults[..i])
      {
        CorruptedInAppend(pathResults[..i], pathResults[i]);
        assert pathResults[..i + 1] == pathResults[..i] + [pathResults[i]];
        corrupted := corrupted + pathResults[i].corrupted;
      }
      assert pathResults[..|pathResults|] == pathResults;
      NoneCorruptedIn(pathResults);
      var complete := reassembler.Complete();
      ok := corrupted == 0 && complete;
    }

    /** Reports everything still tracked and leaves the tracker empty; a session without a tracker is left alone. */
    method ShutdownContinuous() returns (stats: seq<Bursts.BurstStats>)
      requires Valid()
      modifies Store()
      ensures Valid() && Store() == old(Store())
      ensures State() == Flushed(old(State()))
      ensures burstTracker != null ==> burstTracker.bursts == map[]
      ensures reassembler != null ==> reassembler.State() == old(reassembler.State())
      ensures if burstTracker == null then stats == []
              else Bursts.IsReport(stats, old(burstTracker.bursts), old(burstTracker.bursts).Keys)
    {
      if burstTracker == null {
        return [];
      }
      stats := burstTracker.ExpireAll();
    }

    /** What happens when the counter reaches zero. */
    method End()
      requires Valid() && ctrl.Some?
      modifies this`waiting, this`endings, Store()
      ensures Valid() && Store() == old(Store())
      ensures State() == Ended(old(State()))
      ensures !waiting && |endings| == |old(endings)| + 1 && endings[..|old(endings)|] == old(endings)
      ensures endings[|old(endings)|].results == pathResults
      ensures burstTracker != null ==> burstTracker.bursts == map[]
    {
      hide Bursts.IsReport, Verdict;
      var ok := false;
      if burstTracker != null {
        var stats := ShutdownContinuous();
        NoVerdict(old(State()));
      } else {
        ok := Finalize();
      }
      endings := endings + [Ending(pathResults, ok)];
      waiting := false;
    }

    /** Reads the preamble of a connection, and starts the session if it is the control header. */
    method Greet(r: Reader, burstTtl: int) returns (res: Result<nat>)
      requires Valid()
      modifies r, this
      ensures Valid() && fresh(Store() - old(Store()))
      ensures res.Ok? <==> HasPreamble(old(r.rest))
      ensures res.Ok? ==>
                var preamble := PreambleAt(old(r.rest));
                && res.value == PreambleIndex(preamble)
                && r.rest == old(r.rest)[PreambleLength(old(r.rest))..]
                && State() == if preamble.Control? then Started(old(State()), preamble.header) else old(State())
      ensures res.Ok? && old(r.rest)[0] == 0 ==> res.value == 0
      ensures res.Ok? && old(r.rest)[0] == 1 ==> res.value == BigEndian(old(r.rest)[17..21])
      ensures res.Err? ==> State() == old(State()) && res.error == PreambleError(old(r.rest))
    {
      PreambleReading(r.rest);
      var preamble := ReadPreamble(r);
      if preamble.Err? {
        return Err(preamble.error);
      }
      match preamble.value {
        case Control(h) =>
          Start(h, burstTtl);
          res := Ok(0);
        case Hello(h) =>
          res := Ok(h.pathIndex);
      }
    }

    /** The read loop: handles the chunks of the stream in order until the stream ends, or a panic stops everything. */
    method ReadChunks(r: Reader, path: nat, times: nat -> int) returns (result: PathResult, end: Error)
      requires Valid() && !panicked
      modifies r, this`panicked, Store()
      ensures Valid() && Store() == old(Store())
      ensures
        var (cs, e) := ReadAll(old(r.rest));
        && State() == HandleAll(old(State()), cs, path, times)
        && (!panicked ==> end == e && result == PathResult(path, DataBytes(cs), |cs|, BadCount(cs)))
    {
      hide Handled, HasFrame, FrameAt, ReadAll, HandleAll, DataBytes, BadCount, Chunk.VerifyChecksum, Tracker,
           Crc.Checksum;
      var bytes, chunks, corrupted := 0, 0, 0;
      ghost var left, core, cs, e := r.rest, State(), ReadAll(r.rest).0, ReadAll(r.rest).1;
      NothingHandled(core, cs, path, times);
      var next := NextChunk(r);
      while next.Ok?
        invariant Valid() && Store() == old(Store()) && !panicked
        invariant chunks <= |cs| && ReadAll(left) == (cs[chunks..], e)
        invariant bytes == DataBytes(cs[..chunks]) && corrupted == BadCount(cs[..chunks])
        invariant State() == HandleAll(core, cs[..chunks], path, times)
        invariant next.Ok? <==> HasFrame(left)
        invariant next.Ok? ==> next.value == FrameAt(left) && r.rest == left[HEADER + |next.value.data|..]
        invariant next.Err? ==> next.error == ShortFrame(|left|)
        decreases |left|, next.Ok?
      {
        NextOfAll(left, cs, e, chunks);
        OneMore(core, cs, chunks, path, times);
        var corrupt := HandleChunk(next.value, path, times(chunks));
        HandlePanics(core, cs, chunks + 1, path, times);
        chunks := chunks + 1;
        bytes := bytes + |next.value.data|;
        if corrupt {
          corrupted := corrupted + 1;
        }
        if panicked {
          return PathResult(path, bytes, chunks, corrupted), EndOfStream;
        }
        left := r.rest;
        next := NextChunk(r);
      }
      EndOfAll(left, cs, e, chunks);
      return PathResult(path, bytes, chunks, corrupted), next.error;
    }

    /**
     Reads a path to its end, when no other path runs: every chunk of the stream is handled in order, then the path's
     result is recorded, and it is acknowledged exactly if the stream ended plainly. A panic stops everything.
     */
    method ReadPath(r: Reader, w: Writer, path: nat, times: nat -> int)
      requires Valid() && !panicked
      modifies r, w, this`pathResults, this`outstanding, this`panicked, Store()
      ensures Valid() && Store() == old(Store())
      ensures
        var (cs, end) := ReadAll(old(r.rest));
        var handled := HandleAll(old(State()), cs, path, times);
        var done := Sessions.PathDone(handled, PathResult(path, DataBytes(cs), |cs|, BadCount(cs)));
        && State() == (if handled.panicked then handled else done)
        && w.written == old(w.written) + if !State().panicked && end == EndOfStream then [1] else []
    {
      hide Sessions.PathDone, ReadAll, HandleAll, DataBytes, BadCount, Tracker;
      var result, end := ReadChunks(r, path, times);
      if panicked {
        return;
      }
      PathDone(result);
      if !panicked && end == EndOfStream {
        w.Write([1]);
      }
    }
  }

  lemma NoVerdict(s: Core)
    requires !s.tracker.Assembling?
    ensures !Verdict(s)
  {
  }

  /** The sessions of all clients. Connections meet in one session exactly if they name the same one. */
  class SessionRegistry {
    var sessions: map<SessionId, ServerSession>

    ghost predicate Valid()
      reads this
    {
      forall i, j | i in sessions && j in sessions && i != j :: sessions[i] != sessions[j]
    }

    constructor ()
      ensures Valid() && sessions == map[]
    {
      sessions := map[];
    }

    method GetOrCreate(id: SessionId) returns (s: ServerSession)
      requires Valid()
      modifies this
      ensures Valid() && sessions == old(sessions)[id := s]
      ensures id in old(sessions) ==> s == old(sessions)[id]
      ensures id !in old(sessions) ==> fresh(s) && s.Valid() && s.State() == NewCore()
      ensures forall other | other in sessions && other != id :: sessions[other] != s
    {
      if id in sessions {
        s := sessions[id];
      } else {
        s := new ServerSession();
        sessions := sessions[id := s];
      }
    }
  }

  /** The session after handling chunks one after another; nothing is handled after a panic. */
  function HandleAll(s: Core, cs: seq<Chunk>, path: nat, times: nat -> int): Core {
    if cs == [] then s
    else
      var k := |cs| - 1;
      var before := HandleAll(s, cs[..k], path, times);
      if before.panicked then before else Handled(before, cs[k], path, times(k))
  }

  /** The next chunk as the loop needs it. */
  method NextChunk(r: Reader) returns (res: Result<Chunk>)
    modifies r
    ensures res.Ok? <==> HasFrame(old(r.rest))
    ensures res.Ok? ==> res.value == FrameAt(old(r.rest)) && r.rest == old(r.rest)[HEADER + |res.value.data|..]
    ensures res.Err? ==> r.rest == [] && res.error == ShortFrame(|old(r.rest)|)
  {
    res := ReadChunk(r);
  }

  lemma NothingHandled(s: Core, cs: seq<Chunk>, path: nat, times: nat -> int)
    ensures cs[..0] == [] && cs[0..] == cs
    ensures DataBytes(cs[..0]) == 0 && BadCount(cs[..0]) == 0 && HandleAll(s, cs[..0], path, times) == s
  {
  }

  /** While a whole frame is there, it is the next chunk of the stream. */
  lemma NextOfAll(left: seq<Byte>, cs: seq<Chunk>, end: Error, k: nat)
    requires k <= |cs| && ReadAll(left) == (cs[k..], end) && HasFrame(left)
    ensures k < |cs| && cs[k] == FrameAt(left)
    ensures ReadAll(left[HEADER + |FrameAt(left).data|..]) == (cs[k + 1..], end)
  {
    assert cs[k..] == [FrameAt(left)] + ReadAll(left[HEADER + |FrameAt(left).data|..]).0;
    assert cs[k..][1..] == cs[k + 1..];
  }

  lemma EndOfAll(left: seq<Byte>, cs: seq<Chunk>, end: Error, k: nat)
    requires k <= |cs| && ReadAll(left) == (cs[k..], end) && !HasFrame(left)
    ensures k == |cs| && cs[..k] == cs && end == ShortFrame(|left|)
  {
  }

  lemma OneMore(s: Core, cs: seq<Chunk>, k: nat, path: nat, times: nat -> int)
    requires k < |cs|
    ensures DataBytes(cs[..k + 1]) == DataBytes(cs[..k]) + |cs[k].data|
    ensures BadCount(cs[..k + 1]) == BadCount(cs[..k]) + if cs[k].VerifyChecksum() then 0 else 1
    ensures
      var before := HandleAll(s, cs[..k], path, times);
      HandleAll(s, cs[..k + 1], path, times) == if before.panicked then before
        else Handled(before, cs[k], path, times(k))
  {
    assert cs[..k + 1] == cs[..k] + [cs[k]] && cs[..k + 1][..k] == cs[..k];
    CountOneMore(cs[..k], cs[k]);
  }

  /** A panic is final. */
  lemma {:induction false} HandlePanics(s: Core, cs: seq<Chunk>, k: nat, path: nat, times: nat -> int)
    requires k <= |cs|
    ensures HandleAll(s, cs[..k], path, times).panicked ==>
            HandleAll(s, cs, path, times) == HandleAll(s, cs[..k], path, times)
  {
    if k < |cs| {
      HandlePanics(s, cs[..|cs| - 1], k, path, times);
      assert cs[..|cs| - 1][..k] == cs[..k];
    } else {
      assert cs[..k] == cs;
    }
  }

  // ---- What the chunks of a path come to ----

  /** The arrivals of a path at a continuous session's tracker. */
  function ArrivalsOn(cs: seq<Chunk>, path: nat, times: nat -> int): (r: seq<Bursts.Arrival>)
    ensures |r| == |cs|
  {
    seq(|cs|, i requires 0 <= i < |cs| =>
      Bursts.Arrival(cs[i], Crc.Checksum(cs[i].data) != cs[i].checksum, path, times(i)))
  }

  /** The chunks whose checksum is that of their data. */
  function Intact(cs: seq<Chunk>): seq<Chunk> {
    if cs == [] then []
    else
      var c := cs[|cs| - 1];
      Intact(cs[..|cs| - 1]) + if Crc.Checksum(c.data) == c.checksum then [c] else []
  }

  /** A continuous session writes every chunk of the path to its tracker, in order, and never panics. */
  lemma {:induction false} ContinuousPath(s: Core, cs: seq<Chunk>, path: nat, times: nat -> int)
    requires s.tracker.Tracking? && !s.panicked
    ensures HandleAll(s, cs, path, times)
         == s.(tracker := Tracking(Bursts.WriteAll(s.tracker.entries, ArrivalsOn(cs, path, times))))
  {
    hide Handled, Bursts.WriteEntry;
    if cs != [] {
      var k := |cs| - 1;
      ContinuousPath(s, cs[..k], path, times);
      HandledSays(HandleAll(s, cs[..k], path, times), cs[k], path, times(k));
      assert ArrivalsOn(cs, path, times)[..k] == ArrivalsOn(cs[..k], path, times);
    }
  }

  /** A one-shot session writes the intact chunks of the path to its buffer, and panics exactly if one cannot be. */
  lemma {:induction false} OneShotPath(s: Core, cs: seq<Chunk>, path: nat, times: nat -> int)
    requires s.tracker.Assembling? && !s.panicked
    ensures
      var a, t := s.tracker.assembly, HandleAll(s, cs, path, times);
      && (t.panicked <==> !Reassembly.AllPlaceable(a, Intact(cs)))
      && (!t.panicked ==> t == s.(tracker := Assembling(Reassembly.PlaceAll(a, Intact(cs)))))
  {
    hide Handled, Reassembly.Placeable, Reassembly.Place, Crc.Checksum;
    if cs != [] {
      var k, a := |cs| - 1, s.tracker.assembly;
      OneShotPath(s, cs[..k], path, times);
      Reassembly.PlaceOneMore(a, Intact(cs[..k]), cs[k]);
      AppendNothing(Intact(cs[..k]));
      HandledSays(HandleAll(s, cs[..k], path, times), cs[k], path, times(k));
    }
  }
}
