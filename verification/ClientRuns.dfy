/**
 The client's code against the state machine of a transfer: what SendChunks leaves on the streams and in the counters
 is what some run of the machine's scheduler, queue and writer steps leaves there.
 */
module ClientRuns {
  import opened Bytes
  import opened Chunks
  import opened Preambles
  import opened Reassembly
  import opened Schedulers
  import opened Transfer
  import opened TransferSafety
  import Client
  import Crc
  import Sessions

  /** The actions lead from s to t. */
  ghost predicate Leads(g: Config, s: State, acts: seq<Action>, t: State)
    decreases |acts|
  {
    if acts == [] then s == t else Enabled(g, s, acts[0]) && Leads(g, Next(g, s, acts[0]), acts[1..], t)
  }

  lemma {:induction false} LeadsOn(g: Config, s: State, acts: seq<Action>, t: State, more: seq<Action>, u: State)
    requires Leads(g, s, acts, t) && Leads(g, t, more, u)
    ensures Leads(g, s, acts + more, u)
    decreases |acts|
  {
    hide Enabled, Next;
    if acts == [] {
      assert acts + more == more;
    } else {
      assert (acts + more)[1..] == acts[1..] + more;
      LeadsOn(g, Next(g, s, acts[0]), acts[1..], t, more, u);
    }
  }

  lemma LeadsBy(g: Config, s: State, act: Action)
    requires Enabled(g, s, act)
    ensures Leads(g, s, [act], Next(g, s, act))
  {
    hide Enabled, Next;
    assert [act][1..] == [];
  }

  /** Such a sequence of actions from the start is a run. */
  lemma {:induction false} LeadsIsRun(g: Config, s: State, acts: seq<Action>, t: State) returns (run: seq<State>)
    requires Leads(g, s, acts, t)
    ensures |run| == |acts| + 1 && run[0] == s && run[|acts|] == t
    ensures forall i | 0 <= i < |acts| :: Enabled(g, run[i], acts[i]) && run[i + 1] == Next(g, run[i], acts[i])
    decreases |acts|
  {
    hide Enabled, Next;
    if acts == [] {
      run := [s];
    } else {
      var rest := LeadsIsRun(g, Next(g, s, acts[0]), acts[1..], t);
      run := [s] + rest;
      forall i | 0 <= i < |acts| ensures Enabled(g, run[i], acts[i]) && run[i + 1] == Next(g, run[i], acts[i]) {
        if i > 0 {
          assert run[i] == rest[i - 1] && acts[i] == acts[1..][i - 1] && run[i + 1] == rest[i];
        }
      }
    }
  }

  // ---- What a lane looks like between two chunks ----

  /** The queue q has been written, undamaged and counted, and nothing else has happened on the path. */
  predicate HasWritten(g: Config, l: Lane, p: nat, q: seq<Chunk>)
    requires p < U32_LIMIT
  {
    && l.phase == Writing && !l.fin && l.position == l.delivered == 0
    && Drained(l.sender) && l.sender.lost == []
    && l.sender.bytesSent == Sessions.DataBytes(q) && l.sender.chunksSent == |q|
    && l.stream == PreambleBytes(PreambleOf(g, p)) + Frames(StampAll(q))
  }

  ghost predicate AllWritten(g: Config, s: State, queues: seq<seq<Chunk>>) {
    && |s.lanes| == g.paths == |queues| < U32_LIMIT
    && forall p | 0 <= p < |s.lanes| :: HasWritten(g, s.lanes[p], p, queues[p])
  }

  lemma Undamaged(data: seq<Byte>)
    ensures MayArriveAs(data, data)
  {
    assert Crc.WithinBurst(data, data, 0);
  }

  lemma WrittenInOrder(g: Config, s: State, queues: seq<seq<Chunk>>)
    requires AllWritten(g, s, queues)
    ensures forall p | 0 <= p < |s.lanes| :: InOrder(s.lanes[p])
  {
    hide PreambleBytes, Frames, StampAll;
    forall p | 0 <= p < |s.lanes| ensures InOrder(s.lanes[p]) {
      assert HasWritten(g, s.lanes[p], p, queues[p]);
    }
  }

  /** The lane after chunk k has been queued, written and counted. */
  function WroteOne(g: Config, l: Lane, k: nat): Lane
    requires k < |g.plan| && Drained(l.sender)
  {
    var w := Written(g, l.(sender := Queued(l.sender, k)), g.plan[k].data);
    w.(sender := Counted(w.sender))
  }

  lemma WriteOne(g: Config, l: Lane, p: nat, k: nat, q: seq<Chunk>)
    requires p < U32_LIMIT && k < |g.plan| && HasWritten(g, l, p, q)
    ensures HasWritten(g, WroteOne(g, l, k), p, q + [g.plan[k]])
  {
    hide PreambleBytes, Frame;
    var c := g.plan[k];
    assert StampAll(q + [c]) == StampAll(q) + [c.Stamped()];
    FramesAppend(StampAll(q), [c.Stamped()]);
    FramesOfOne(c.Stamped());
    AppendAssociative(PreambleBytes(PreambleOf(g, p)), Frames(StampAll(q)), Frame(c.Stamped()));
    Sessions.CountOneMore(q, c);
    assert Arrives(g, Sent(k, c.data)) == c.Stamped();
  }

  // ---- One chunk ----

  function AfterOne(g: Config, s: State): State
    requires s.pushing != [] && s.pushing[0] < |s.lanes| && 0 < s.next <= |g.plan|
             && Drained(s.lanes[s.pushing[0]].sender)
  {
    var p := s.pushing[0];
    s.(pushing := s.pushing[1..], lanes := s.lanes[p := WroteOne(g, s.lanes[p], s.next - 1)])
  }

  lemma ThreeLead(g: Config, s: State, a: Action, s1: State, b: Action, s2: State, c: Action, t: State)
    requires Enabled(g, s, a) && s1 == Next(g, s, a)
    requires Enabled(g, s1, b) && s2 == Next(g, s1, b)
    requires Enabled(g, s2, c) && t == Next(g, s2, c)
    ensures Leads(g, s, [a] + [b] + [c], t)
  {
    hide Enabled, Next;
    LeadsBy(g, s, a);
    LeadsBy(g, s1, b);
    LeadsBy(g, s2, c);
    LeadsOn(g, s, [a], s1, [b], s2);
    LeadsOn(g, s, [a] + [b], s2, [c], t);
  }

  predicate AllInOrder(lanes: seq<Lane>) {
    forall p | 0 <= p < |lanes| :: InOrder(lanes[p])
  }

  lemma CanPush(g: Config, s: State)
    requires AllInOrder(s.lanes) && s.pushing != [] && s.pushing[0] < |s.lanes| && s.next > 0
    requires Drained(s.lanes[s.pushing[0]].sender)
    ensures Enabled(g, s, Push) && Next(g, s, Push) == Pushed(s) && AllInOrder(Pushed(s).lanes)
  {
  }

  lemma CanWriteNow(g: Config, s: State, p: nat, data: seq<Byte>)
    requires AllInOrder(s.lanes) && p < |s.lanes| && CanWrite(g, s.lanes[p].sender, data)
    ensures Enabled(g, s, WriteFrame(p, data))
    ensures Next(g, s, WriteFrame(p, data)) == s.(lanes := s.lanes[p := Written(g, s.lanes[p], data)])
    ensures AllInOrder(Next(g, s, WriteFrame(p, data)).lanes)
  {
    hide CanWrite, Frame;
  }

  lemma CanCount(g: Config, s: State, p: nat)
    requires AllInOrder(s.lanes) && p < |s.lanes| && s.lanes[p].sender.uncounted && s.lanes[p].sender.sent != []
    ensures Enabled(g, s, CountSent(p))
    ensures Next(g, s, CountSent(p)) == s.(lanes := s.lanes[p := s.lanes[p].(sender := Counted(s.lanes[p].sender))])
  {
  }

  /** Queueing, writing and counting one copy of the last chunk assigned. */
  lemma OneCopy(g: Config, s: State, queues: seq<seq<Chunk>>)
    requires AllWritten(g, s, queues) && s.pushing != [] && s.pushing[0] < |s.lanes| && 0 < s.next <= |g.plan|
    ensures Drained(s.lanes[s.pushing[0]].sender)
    ensures
      var p := s.pushing[0];
      Leads(g, s, [Push] + [WriteFrame(p, g.plan[s.next - 1].data)] + [CountSent(p)], AfterOne(g, s))
  {
    hide PreambleBytes, Frames, Frame, StampAll, MayArriveAs, Leads, Enabled, Next;
    var p, k := s.pushing[0], s.next - 1;
    var data := g.plan[k].data;
    assert HasWritten(g, s.lanes[p], p, queues[p]);
    WrittenInOrder(g, s, queues);
    Undamaged(data);
    CanPush(g, s);
    var s1 := Pushed(s);
    CanWriteNow(g, s1, p, data);
    var s2 := Next(g, s1, WriteFrame(p, data));
    CanCount(g, s2, p);
    var t := Next(g, s2, CountSent(p));
    assert t.lanes == AfterOne(g, s).lanes;
    ThreeLead(g, s, Push, s1, WriteFrame(p, data), s2, CountSent(p), t);
  }

  lemma OneCopyWrites(g: Config, s: State, queues: seq<seq<Chunk>>)
    requires AllWritten(g, s, queues) && s.pushing != [] && s.pushing[0] < |s.lanes| && 0 < s.next <= |g.plan|
    requires Drained(s.lanes[s.pushing[0]].sender)
    ensures
      var p := s.pushing[0];
      AllWritten(g, AfterOne(g, s), queues[p := queues[p] + [g.plan[s.next - 1]]])
  {
    hide HasWritten, WroteOne;
    var p := s.pushing[0];
    WriteOne(g, s.lanes[p], p, s.next - 1, queues[p]);
  }

  /** All copies still to be pushed are queued, written and counted, one after another. */
  lemma {:induction false} AllCopies(g: Config, s: State, queues: seq<seq<Chunk>>)
    returns (acts: seq<Action>, t: State, longer: seq<seq<Chunk>>)
    requires AllWritten(g, s, queues) && 0 < s.next <= |g.plan|
    requires forall i | 0 <= i < |s.pushing| :: s.pushing[i] < |s.lanes|
    ensures Leads(g, s, acts, t) && t == s.(pushing := [], lanes := t.lanes)
    ensures AllWritten(g, t, longer) && Client.Grown(longer, queues, g.plan[s.next - 1], s.pushing)
    decreases |s.pushing|
  {
    hide AllWritten, Leads, Client.Grown, AfterOne;
    if s.pushing == [] {
      acts, t, longer := [], s, queues;
      NothingLeads(g, s);
      Client.NotGrown(queues, g.plan[s.next - 1], s.pushing);
      assert s.pushing[..0] == s.pushing;
    } else {
      var p, c := s.pushing[0], g.plan[s.next - 1];
      SameLanes(g, s, queues);
      OneCopy(g, s, queues);
      OneCopyWrites(g, s, queues);
      var s1, more := AfterOne(g, s), queues[p := queues[p] + [c]];
      AfterOneIs(g, s);
      var rest;
      rest, t, longer := AllCopies(g, s1, more);
      acts := [Push] + [WriteFrame(p, c.data)] + [CountSent(p)] + rest;
      LeadsOn(g, s, [Push] + [WriteFrame(p, c.data)] + [CountSent(p)], s1, rest, t);
      GrowFirst(longer, queues, c, s.pushing);
    }
  }

  lemma NothingLeads(g: Config, s: State)
    ensures Leads(g, s, [], s)
  {
  }

  lemma SameLanes(g: Config, s: State, queues: seq<seq<Chunk>>)
    requires AllWritten(g, s, queues)
    ensures |s.lanes| == |queues|
  {
  }

  lemma AfterOneIs(g: Config, s: State)
    requires s.pushing != [] && s.pushing[0] < |s.lanes| && 0 < s.next <= |g.plan|
             && Drained(s.lanes[s.pushing[0]].sender)
    ensures
      var t := AfterOne(g, s);
      t == s.(pushing := s.pushing[1..], lanes := t.lanes) && |t.lanes| == |s.lanes|
  {
  }

  /** Growing by the first path and then by the rest is growing by all. */
  lemma GrowFirst(longer: seq<seq<Chunk>>, queues: seq<seq<Chunk>>, c: Chunk, idxs: seq<nat>)
    requires idxs != [] && idxs[0] < |queues|
    requires Client.Grown(longer, queues[idxs[0] := queues[idxs[0]] + [c]], c, idxs[1..])
    ensures Client.Grown(longer, queues, c, idxs)
  {
    forall p | 0 <= p < |queues| ensures longer[p] == queues[p] + Repeat(c, Times(idxs, p)) {
      var more := queues[idxs[0] := queues[idxs[0]] + [c]];
      assert longer[p] == more[p] + Repeat(c, Times(idxs[1..], p));
      if p == idxs[0] {
        RepeatFirst(c, Times(idxs[1..], p));
        AppendAssociative(queues[p], [c], Repeat(c, Times(idxs[1..], p)));
      }
    }
  }

  lemma RepeatFirst<T>(x: T, n: nat)
    ensures [x] + Repeat(x, n) == Repeat(x, n + 1)
  {
  }

  // ---- All chunks ----

  /** Assigning one more chunk, by whatever the scheduler answers, and sending all its copies. */
  lemma OneChunk(g: Config, s: State, queues: seq<seq<Chunk>>, call: Call, next: U64)
    returns (acts: seq<Action>, t: State, longer: seq<seq<Chunk>>)
    requires AllWritten(g, s, queues) && s.pushing == [] && s.next < |g.plan|
    requires Chooses(g.kind, s.counter, call.paths, call.idxs, next) && |call.paths| == g.paths > 0
             && WellIndexed(call.paths)
    ensures Leads(g, s, acts, t) && t == s.(next := s.next + 1, counter := next, lanes := t.lanes)
    ensures AllWritten(g, t, longer) && Client.Grown(longer, queues, g.plan[s.next], call.idxs)
  {
    hide Leads, Client.Grown, HasWritten;
    WrittenInOrder(g, s, queues);
    AnswersAreValid(g.kind, s.counter, call.paths, call.idxs, next);
    var act := Assign(call.paths, call.idxs, next);
    LeadsBy(g, s, act);
    var rest;
    rest, t, longer := AllCopies(g, Next(g, s, act), queues);
    acts := [act] + rest;
    LeadsOn(g, s, [act], Next(g, s, act), rest, t);
  }

  lemma {:induction false} RestOfChunks(g: Config, s: State, queues: seq<seq<Chunk>>, calls: seq<Call>, last: U64)
    returns (acts: seq<Action>, t: State, longer: seq<seq<Chunk>>)
    requires AllWritten(g, s, queues) && s.pushing == [] && s.next <= |calls| == |g.plan| && g.paths > 0
    requires IsRun(g.kind, s.counter, calls[s.next..], last) && AmongPaths(calls, g.paths)
    requires Client.QueuesFit(queues, g.plan[..s.next], calls[..s.next])
    ensures Leads(g, s, acts, t) && t.next == |g.plan| && t.pushing == [] && t.server == s.server
    ensures AllWritten(g, t, longer) && Client.QueuesFit(longer, g.plan, calls)
    decreases |g.plan| - s.next
  {
    hide AllWritten, Leads, Client.QueuesFit, Client.Grown, Chooses, WellIndexed;
    var k := s.next;
    if k == |g.plan| {
      acts, t, longer := [], s, queues;
      NothingLeads(g, s);
      assert g.plan[..k] == g.plan && calls[..k] == calls;
    } else {
      assert calls[k..][0] == calls[k] && calls[k..][1..] == calls[k + 1..];
      var next: U64 :| Chooses(g.kind, s.counter, calls[k].paths, calls[k].idxs, next)
        && IsRun(g.kind, next, calls[k + 1..], last);
      var first, s1, more := OneChunk(g, s, queues, calls[k], next);
      Client.QueuesStayFit(queues, more, g.plan[..k], calls[..k], g.plan[k], calls[k]);
      assert g.plan[..k + 1] == g.plan[..k] + [g.plan[k]] && calls[..k + 1] == calls[..k] + [calls[k]];
      var rest;
      rest, t, longer := RestOfChunks(g, s1, more, calls, last);
      acts := first + rest;
      LeadsOn(g, s, first, s1, rest, t);
    }
  }

  lemma NothingWritten(g: Config, queues: seq<seq<Chunk>>, calls: seq<Call>)
    requires ValidConfig(g) && |queues| == g.paths && |calls| == |g.plan|
    requires forall p | 0 <= p < |queues| :: queues[p] == []
    ensures AllWritten(g, Start(g), queues) && Client.QueuesFit(queues, g.plan[..0], calls[..0])
  {
    hide PreambleBytes;
    forall p | 0 <= p < g.paths ensures HasWritten(g, Start(g).lanes[p], p, queues[p]) {
      AppendNothing(PreambleBytes(PreambleOf(g, p)));
      assert StampAll([]) == [];
    }
  }

  /**
   Whatever a new scheduler answers, there is a run of the machine after which everything is sent, every stream has
   its preamble and the frames of exactly the queue the answers make, and the counters are those of the queue: the
   state SendChunks leaves its paths in.
   */
  lemma SendingIsARun(g: Config, calls: seq<Call>, last: U64, queues: seq<seq<Chunk>>)
    returns (run: seq<State>, acts: seq<Action>)
    requires ValidConfig(g) && |calls| == |g.plan| && IsRun(g.kind, 0, calls, last) && AmongPaths(calls, g.paths)
    requires |queues| == g.paths && Client.QueuesFit(queues, g.plan, calls)
    ensures IsTransfer(g, run, acts) && AllSent(g, run[|acts|]) && AllWritten(g, run[|acts|], queues)
  {
    hide Leads, IsRun, HasWritten;
    var empty: seq<seq<Chunk>> := seq(g.paths, _ => []);
    NothingWritten(g, empty, calls);
    assert calls[0..] == calls;
    var t, longer;
    acts, t, longer := RestOfChunks(g, Start(g), empty, calls, last);
    assert longer == queues;
    run := LeadsIsRun(g, Start(g), acts, t);
    WrittenIsSent(g, t, queues);
  }

  lemma WrittenIsSent(g: Config, s: State, queues: seq<seq<Chunk>>)
    requires AllWritten(g, s, queues) && s.next == |g.plan| && s.pushing == []
    ensures AllSent(g, s)
  {
    hide PreambleBytes, Frames, StampAll;
    forall p | 0 <= p < |s.lanes| ensures Drained(s.lanes[p].sender) {
      assert HasWritten(g, s.lanes[p], p, queues[p]);
    }
  }
}
