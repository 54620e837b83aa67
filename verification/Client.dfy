/**
 The client's side as it is written: the writers of the paths, the loop that hands chunks to the scheduler and fills
 the paths' queues, and the accounting of one burst. Writers run one after another here; Transfer has them interleave.
 */
module Client {
  import opened Bytes
  import opened Streams
  import opened Chunks
  import opened Preambles
  import opened Reassembly
  import opened Schedulers
  import Sessions

  /** A scheduler chosen by its kind. */
  class Scheduler {
    const kind: Kind
    const roundRobin: RoundRobin
    const redundant: Redundant
    const rttAware: RttAware

    constructor (kind: Kind)
      ensures this.kind == kind && Counter() == 0
      ensures fresh(roundRobin) && fresh(redundant) && fresh(rttAware) && fresh(rttAware.fallback)
    {
      this.kind := kind;
      roundRobin := new RoundRobin();
      redundant := new Redundant();
      rttAware := new RttAware();
    }

    ghost function Counter(): U64
      reads roundRobin, rttAware.fallback
    {
      if kind.RttAwareKind? then rttAware.fallback.n else roundRobin.n
    }

    method Assign(chunkSeq: U64, paths: seq<PathInfo>) returns (idxs: seq<nat>)
      modifies roundRobin, rttAware.fallback
      ensures Chooses(kind, old(Counter()), paths, idxs, Counter())
    {
      match kind {
        case RoundRobinKind => idxs := roundRobin.Assign(chunkSeq, paths);
        case RedundantKind => idxs := redundant.Assign(chunkSeq, paths);
        case RttAwareKind => idxs := rttAware.Assign(chunkSeq, paths);
      }
    }
  }

  class PathConn {
    const index: nat
    const stream: Writer
    var bytesSent: nat
    var chunksSent: nat
    var finished: bool   // the stream has been closed for writing

    constructor (index: nat, stream: Writer)
      ensures this.index == index && this.stream == stream && bytesSent == 0 && chunksSent == 0 && !finished
    {
      this.index, this.stream := index, stream;
      bytesSent, chunksSent, finished := 0, 0, false;
    }

    /** Writes a queue to its end, every write succeeding: the frames in order, and the counters to match. */
    method WriteQueue(q: seq<Chunk>)
      modifies this`bytesSent, this`chunksSent, stream
      ensures stream.written == old(stream.written) + Frames(StampAll(q))
      ensures bytesSent == old(bytesSent) + Sessions.DataBytes(q) && chunksSent == old(chunksSent) + |q|
    {
      assert stream.written + [] == stream.written;
      for i := 0 to |q|
        invariant stream.written == old(stream.written) + Frames(StampAll(q[..i]))
        invariant bytesSent == old(bytesSent) + Sessions.DataBytes(q[..i]) && chunksSent == old(chunksSent) + i
      {
        WriteOneMore(q, i);
        AppendAssociative(old(stream.written), Frames(StampAll(q[..i])), Frame(q[i].Stamped()));
        WriteChunk(stream, q[i]);
        bytesSent := bytesSent + |q[i].data|;
        chunksSent := chunksSent + 1;
      }
      assert q[..|q|] == q;
    }

    /** Closes the stream, if that is possible, and then waits for one byte: confirmed only if both succeed. */
    method Drain(closes: bool, ack: Reader) returns (confirmed: bool)
      modifies this`finished, ack
      ensures finished == (old(finished) || closes)
      ensures confirmed <==> closes && old(ack.rest) != []
      ensures !closes ==> ack.rest == old(ack.rest)
    {
      if !closes {
        return false;
      }
      finished := true;
      var r := ack.ReadFull(1);
      confirmed := r.Ok?;
    }
  }

  lemma WriteOneMore(q: seq<Chunk>, i: nat)
    requires i < |q|
    ensures Frames(StampAll(q[..i + 1])) == Frames(StampAll(q[..i])) + Frame(q[i].Stamped())
    ensures Sessions.DataBytes(q[..i + 1]) == Sessions.DataBytes(q[..i]) + |q[i].data|
  {
    assert q[..i + 1] == q[..i] + [q[i]];
    assert StampAll(q[..i + 1]) == StampAll(q[..i]) + [q[i].Stamped()];
    FramesAppend(StampAll(q[..i]), [q[i].Stamped()]);
    FramesOfOne(q[i].Stamped());
    Sessions.CountOneMore(q[..i], q[i]);
  }

  // ---- Queues ----

  datatype Tally = Tally(bytes: nat, chunks: nat)
  {
    function Plus(other: Tally): Tally {
      Tally(bytes + other.bytes, chunks + other.chunks)
    }

    function Times(n: nat): Tally {
      Tally(n * bytes, n * chunks)
    }
  }

  function TallyOf(q: seq<Chunk>): Tally {
    Tally(Sessions.DataBytes(q), |q|)
  }

  function Queued(queues: seq<seq<Chunk>>): Tally {
    if queues == [] then Tally(0, 0) else TallyOf(queues[0]).Plus(Queued(queues[1..]))
  }

  lemma TimesPlus(a: Tally, b: Tally, n: nat)
    ensures a.Plus(b).Times(n) == a.Times(n).Plus(b.Times(n))
  {
    Distribute(n, a.bytes, b.bytes);
    Distribute(n, a.chunks, b.chunks);
  }

  lemma TallyGrows(q: seq<Chunk>, c: Chunk)
    ensures TallyOf(q + [c]) == TallyOf(q).Plus(Tally(|c.data|, 1))
  {
    Sessions.CountOneMore(q, c);
  }

  lemma {:induction false} QueueOne(queues: seq<seq<Chunk>>, p: nat, c: Chunk)
    requires p < |queues|
    ensures Queued(queues[p := queues[p] + [c]]) == Queued(queues).Plus(Tally(|c.data|, 1))
  {
    hide TallyOf;
    if p == 0 {
      TallyGrows(queues[0], c);
      assert queues[p := queues[p] + [c]][1..] == queues[1..];
    } else {
      assert queues[p := queues[p] + [c]][1..] == queues[1..][p - 1 := queues[1..][p - 1] + [c]];
      QueueOne(queues[1..], p - 1, c);
    }
  }

  lemma {:induction false} EmptyQueues(queues: seq<seq<Chunk>>)
    requires forall p | 0 <= p < |queues| :: queues[p] == []
    ensures Queued(queues) == Tally(0, 0)
  {
    if queues != [] {
      EmptyQueues(queues[1..]);
    }
  }

  lemma AnswersAreCopies(kind: Kind, n: U64, infos: seq<PathInfo>, idxs: seq<nat>, next: U64)
    requires Chooses(kind, n, infos, idxs, next) && WellIndexed(infos)
    ensures |idxs| == CopiesOf(kind, |infos|)
    ensures forall i | 0 <= i < |idxs| :: idxs[i] < |infos|
  {
    if infos != [] {
      AnswersAreValid(kind, n, infos, idxs, next);
    }
  }

  predicate Extends(longer: seq<seq<Chunk>>, queues: seq<seq<Chunk>>) {
    |longer| == |queues| && forall p | 0 <= p < |queues| :: queues[p] <= longer[p]
  }

  /** What ends up in the queue of path p: each chunk as often as its call's answer names p, in order. */
  function QueueOf(chunks: seq<Chunk>, calls: seq<Call>, p: nat): seq<Chunk>
    requires |chunks| == |calls|
  {
    if chunks == [] then []
    else
      var k := |chunks| - 1;
      QueueOf(chunks[..k], calls[..k], p) + Repeat(chunks[k], Times(calls[k].idxs, p))
  }

  /** Each queue has grown by c, as often as idxs names its path. */
  predicate Grown(longer: seq<seq<Chunk>>, queues: seq<seq<Chunk>>, c: Chunk, idxs: seq<nat>) {
    && |longer| == |queues|
    && forall p | 0 <= p < |queues| :: longer[p] == queues[p] + Repeat(c, Times(idxs, p))
  }

  lemma GrowOnce(longer: seq<seq<Chunk>>, queues: seq<seq<Chunk>>, c: Chunk, idxs: seq<nat>, p: nat)
    requires Grown(longer, queues, c, idxs) && p < |queues|
    ensures Grown(longer[p := longer[p] + [c]], queues, c, idxs + [p])
  {
    forall q | 0 <= q < |queues|
      ensures longer[p := longer[p] + [c]][q] == queues[q] + Repeat(c, Times(idxs + [p], q))
    {
      TimesAppend(idxs, [p], q);
      assert Times([p], q) == if q == p then 1 else 0 by { assert [p][1..] == []; }
      AppendAssociative(queues[p], Repeat(c, Times(idxs, p)), [c]);
    }
  }

  lemma QueueGrows(chunks: seq<Chunk>, calls: seq<Call>, c: Chunk, call: Call, p: nat)
    requires |chunks| == |calls|
    ensures QueueOf(chunks + [c], calls + [call], p) == QueueOf(chunks, calls, p) + Repeat(c, Times(call.idxs, p))
  {
    assert (chunks + [c])[..|chunks|] == chunks && (calls + [call])[..|calls|] == calls;
  }

  /** The queues are those the calls' answers make. */
  predicate QueuesFit(queues: seq<seq<Chunk>>, chunks: seq<Chunk>, calls: seq<Call>) {
    |chunks| == |calls| && forall p | 0 <= p < |queues| :: queues[p] == QueueOf(chunks, calls, p)
  }

  lemma QueuesStayFit(queues: seq<seq<Chunk>>, longer: seq<seq<Chunk>>, chunks: seq<Chunk>, calls: seq<Call>,
                      c: Chunk, call: Call)
    requires QueuesFit(queues, chunks, calls) && Grown(longer, queues, c, call.idxs)
    ensures QueuesFit(longer, chunks + [c], calls + [call])
  {
    hide QueueOf, Times, Repeat;
    forall p | 0 <= p < |queues| ensures longer[p] == QueueOf(chunks + [c], calls + [call], p) {
      QueueGrows(chunks, calls, c, call, p);
    }
  }

  predicate InQueue(queues: seq<seq<Chunk>>, p: nat, c: Chunk) {
    p < |queues| && c in queues[p]
  }

  lemma AppendExtends(longer: seq<seq<Chunk>>, queues: seq<seq<Chunk>>, p: nat, c: Chunk)
    requires Extends(longer, queues) && p < |longer|
    ensures Extends(longer[p := longer[p] + [c]], queues) && Extends(longer[p := longer[p] + [c]], longer)
    ensures InQueue(longer[p := longer[p] + [c]], p, c)
  {
    assert (longer[p] + [c])[|longer[p]|] == c;
  }

  lemma StaysInQueue(longer: seq<seq<Chunk>>, queues: seq<seq<Chunk>>, p: nat, c: Chunk)
    requires Extends(longer, queues) && InQueue(queues, p, c)
    ensures InQueue(longer, p, c)
  {
    var i :| 0 <= i < |queues[p]| && queues[p][i] == c;
    assert longer[p][i] == c;
  }

  /** One chunk goes to the queues of the paths chosen. */
  method Enqueue(queues: seq<seq<Chunk>>, c: Chunk, idxs: seq<nat>) returns (longer: seq<seq<Chunk>>)
    requires forall i | 0 <= i < |idxs| :: idxs[i] < |queues|
    ensures Queued(longer) == Queued(queues).Plus(Tally(|c.data|, 1).Times(|idxs|))
    ensures Extends(longer, queues)
    ensures forall i | 0 <= i < |idxs| :: InQueue(longer, idxs[i], c)
    ensures Grown(longer, queues, c, idxs)
  {
    hide InQueue, Queued, Grown;
    longer := queues;
    NotGrown(queues, c, idxs);
    for i := 0 to |idxs|
      invariant Queued(longer) == Queued(queues).Plus(Tally(|c.data|, 1).Times(i))
      invariant Extends(longer, queues)
      invariant forall j | 0 <= j < i :: InQueue(longer, idxs[j], c)
      invariant Grown(longer, queues, c, idxs[..i])
    {
      GrowOnce(longer, queues, c, idxs[..i], idxs[i]);
      assert idxs[..i + 1] == idxs[..i] + [idxs[i]];
      ghost var before := longer;
      QueueOne(longer, idxs[i], c);
      AppendExtends(longer, queues, idxs[i], c);
      longer := longer[idxs[i] := longer[idxs[i]] + [c]];
      forall j | 0 <= j < i ensures InQueue(longer, idxs[j], c) {
        StaysInQueue(longer, before, idxs[j], c);
      }
    }
    assert idxs[..|idxs|] == idxs;
  }

  lemma NotGrown(queues: seq<seq<Chunk>>, c: Chunk, idxs: seq<nat>)
    ensures Grown(queues, queues, c, idxs[..0])
  {
  }

  /** Chunks before k are in some queue, if there is one. */
  ghost predicate AllQueued(chunks: seq<Chunk>, k: nat, queues: seq<seq<Chunk>>)
    requires k <= |chunks|
  {
    |queues| > 0 ==> forall j | 0 <= j < k :: InSomeQueue(queues, chunks[j])
  }

  ghost predicate InSomeQueue(queues: seq<seq<Chunk>>, c: Chunk) {
    exists p: nat :: InQueue(queues, p, c)
  }

  lemma QueuedStays(chunks: seq<Chunk>, k: nat, queues: seq<seq<Chunk>>, longer: seq<seq<Chunk>>, idxs: seq<nat>)
    requires k < |chunks| && AllQueued(chunks, k, queues) && Extends(longer, queues)
    requires forall i | 0 <= i < |idxs| :: InQueue(longer, idxs[i], chunks[k])
    requires |queues| > 0 ==> |idxs| > 0
    ensures AllQueued(chunks, k + 1, longer)
  {
    if |queues| > 0 {
      forall j | 0 <= j < k + 1 ensures InSomeQueue(longer, chunks[j]) {
        if j == k {
          assert InQueue(longer, idxs[0], chunks[j]);
        } else {
          assert InSomeQueue(queues, chunks[j]);
          var p: nat :| InQueue(queues, p, chunks[j]);
          StaysInQueue(longer, queues, p, chunks[j]);
        }
      }
    }
  }

  lemma NoBytes(chunks: seq<Chunk>, n: nat)
    ensures TallyOf(chunks[..0]).Times(n) == Tally(0, 0)
  {
  }

  lemma SomeCopies(kind: Kind, n: nat)
    ensures CopiesOf(kind, n) == 0 <==> n == 0
  {
  }

  function Infos(rtt: (nat, nat) -> int, k: nat, n: nat): (r: seq<PathInfo>)
    ensures |r| == n && WellIndexed(r)
  {
    seq(n, i requires 0 <= i < n => PathInfo(i, rtt(k, i)))
  }

  /** The scheduler was told the round-trip times of the moment. */
  predicate Informed(calls: seq<Call>, rtt: (nat, nat) -> int, n: nat) {
    forall k | 0 <= k < |calls| :: calls[k].paths == Infos(rtt, k, n)
  }

  /**
   The queues are exactly what the scheduler's answers make of the chunks. All bytes of all chunks are queued as often
   as the scheduler makes copies, and no chunk is left out.
   */
  method FillQueues(chunks: seq<Chunk>, n: nat, scheduler: Scheduler, rtt: (nat, nat) -> int)
    returns (queues: seq<seq<Chunk>>, ghost calls: seq<Call>)
    modifies scheduler.roundRobin, scheduler.rttAware.fallback
    ensures IsRun(scheduler.kind, old(scheduler.Counter()), calls, scheduler.Counter()) && Informed(calls, rtt, n)
    ensures |queues| == n && QueuesFit(queues, chunks, calls)
    ensures Queued(queues) == TallyOf(chunks).Times(CopiesOf(scheduler.kind, n))
    ensures AllQueued(chunks, |chunks|, queues)
  {
    hide InSomeQueue, Queued, Sessions.DataBytes, TallyOf, Tally.Times, CopiesOf, Chooses, QueueOf, Grown, IsRun, Infos;
    queues, calls := seq(n, _ => []), [];
    EmptyQueues(queues);
    NoBytes(chunks, CopiesOf(scheduler.kind, n));
    NothingCalled(scheduler.kind, scheduler.Counter(), queues, chunks);
    for k := 0 to |chunks|
      invariant |queues| == n && |calls| == k
      invariant IsRun(scheduler.kind, old(scheduler.Counter()), calls, scheduler.Counter()) && Informed(calls, rtt, n)
      invariant QueuesFit(queues, chunks[..k], calls)
      invariant Queued(queues) == TallyOf(chunks[..k]).Times(CopiesOf(scheduler.kind, n))
      invariant AllQueued(chunks, k, queues)
    {
      var infos := Infos(rtt, k, n);
      ghost var counter := scheduler.Counter();
      var idxs := scheduler.Assign(chunks[k].number, infos);
      AnswersAreCopies(scheduler.kind, counter, infos, idxs, scheduler.Counter());
      SomeCopies(scheduler.kind, n);
      var longer := Enqueue(queues, chunks[k], idxs);
      QueuedStays(chunks, k, queues, longer, idxs);
      RunExtends(scheduler.kind, old(scheduler.Counter()), calls, counter, Call(infos, idxs), scheduler.Counter());
      QueuesStayFit(queues, longer, chunks[..k], calls, chunks[k], Call(infos, idxs));
      assert chunks[..k + 1] == chunks[..k] + [chunks[k]];
      TallyGrows(chunks[..k], chunks[k]);
      TimesPlus(TallyOf(chunks[..k]), Tally(|chunks[k].data|, 1), |idxs|);
      calls := calls + [Call(infos, idxs)];
      queues := longer;
    }
    assert chunks[..|chunks|] == chunks;
  }

  lemma NothingCalled(kind: Kind, n: U64, queues: seq<seq<Chunk>>, chunks: seq<Chunk>)
    requires forall p | 0 <= p < |queues| :: queues[p] == []
    ensures IsRun(kind, n, [], n) && QueuesFit(queues, chunks[..0], [])
  {
  }

  // ---- One burst ----

  function Total(ts: seq<Tally>): Tally {
    if ts == [] then Tally(0, 0) else ts[0].Plus(Total(ts[1..]))
  }

  lemma {:induction false} TotalsDiffer(before: seq<Tally>, after: seq<Tally>, queues: seq<seq<Chunk>>)
    requires |before| == |after| == |queues|
    requires forall i | 0 <= i < |queues| :: after[i] == before[i].Plus(TallyOf(queues[i]))
    ensures Total(after) == Total(before).Plus(Queued(queues))
  {
    if queues != [] {
      TotalsDiffer(before[1..], after[1..], queues[1..]);
    }
  }

  lemma {:induction false} TotalAppend(ts: seq<Tally>, t: Tally)
    ensures Total(ts + [t]) == Total(ts).Plus(t)
  {
    if ts == [] {
      assert (ts + [t])[1..] == [];
    } else {
      assert (ts + [t])[1..] == ts[1..] + [t];
      TotalAppend(ts[1..], t);
    }
  }

  lemma {:induction false} TotalOfQueues(ts: seq<Tally>, queues: seq<seq<Chunk>>)
    requires |ts| == |queues| && forall i | 0 <= i < |queues| :: ts[i] == TallyOf(queues[i])
    ensures Total(ts) == Queued(queues)
  {
    if queues != [] {
      TotalOfQueues(ts[1..], queues[1..]);
    }
  }

  lemma {:induction false} SplitBytesUpTo(chunks: seq<Chunk>, data: seq<Byte>, size: U32, burstId: U64,
                                          burstBytes: U64, k: nat)
    requires size > 0 && IsSplit(chunks, data, size, burstId, burstBytes) && k <= |chunks|
    ensures Sessions.DataBytes(chunks[..k]) == GotBytes(data, size, AllSlots(data, size), k)
  {
    hide Slot, ChunkCount;
    if k > 0 {
      SplitBytesUpTo(chunks, data, size, burstId, burstBytes, k - 1);
      assert chunks[..k] == chunks[..k - 1] + [chunks[k - 1]];
      assert chunks[k - 1].data == Slot(data, size, k - 1) && k - 1 in AllSlots(data, size);
      hide IsSplit, AllSlots, Sessions.DataBytes;
      Sessions.CountOneMore(chunks[..k - 1], chunks[k - 1]);
    }
  }

  lemma SplitBytes(chunks: seq<Chunk>, data: seq<Byte>, size: U32, burstId: U64, burstBytes: U64)
    requires size > 0 && IsSplit(chunks, data, size, burstId, burstBytes)
    ensures Sessions.DataBytes(chunks) == |data|
  {
    SplitBytesUpTo(chunks, data, size, burstId, burstBytes, |chunks|);
    assert chunks[..|chunks|] == chunks;
    GotAll(data, size, AllSlots(data, size), |chunks|);
    CountCovers(|data|, size);
  }

  /** The number of chunks Split makes of so much data. */
  function ChunksIn(length: nat, chunkSize: U32): nat
    requires length > 0 ==> EffectiveSize(length, chunkSize) > 0
  {
    if length == 0 then 0 else ChunkCount(length, EffectiveSize(length, chunkSize))
  }

  lemma BurstBytes(chunks: seq<Chunk>, data: seq<Byte>, chunkSize: U32, burstId: U64)
    requires |data| < U64_LIMIT && (data != [] ==> EffectiveSize(|data|, chunkSize) > 0)
    requires if data == [] then chunks == [] else IsSplit(chunks, data, EffectiveSize(|data|, chunkSize), burstId,
             |data|)
    ensures TallyOf(chunks) == Tally(|data|, ChunksIn(|data|, chunkSize))
  {
    if data != [] {
      SplitBytes(chunks, data, EffectiveSize(|data|, chunkSize), burstId, |data|);
    }
  }

  lemma ManyOrOne(n: nat, d: nat)
    ensures n * d == d <==> d == 0 || n == 1
  {
    if d > 0 {
      OnlyOnce(n, d);
    }
  }

  /** A row of the client's burst log: of the whole burst, with index -1, or of one path. */
  datatype Row = Row(pathIndex: int, size: nat, sent: Tally, complete: bool)

  function RowOf(pathIndex: int, size: nat, sent: Tally): Row {
    Row(pathIndex, size, sent, sent.bytes == size)
  }

  /** What was sent between two snapshots. */
  function Since(before: Tally, after: Tally): (t: Tally)
    requires before.bytes <= after.bytes && before.chunks <= after.chunks
    ensures before.Plus(t) == after
  {
    Tally(after.bytes - before.bytes, after.chunks - before.chunks)
  }

  function SentOf(rows: seq<Row>): (r: seq<Tally>)
    ensures |r| == |rows| && forall i | 0 <= i < |rows| :: r[i] == rows[i].sent
  {
    seq(|rows|, i requires 0 <= i < |rows| => rows[i].sent)
  }

  /** The rows of all paths. */
  function PathRows(indices: seq<nat>, size: nat, before: seq<Tally>, after: seq<Tally>): (rows: seq<Row>)
    requires |indices| == |before| == |after|
    requires forall i | 0 <= i < |before| :: before[i].bytes <= after[i].bytes && before[i].chunks <= after[i].chunks
    ensures |rows| == |before|
    ensures forall i | 0 <= i < |rows| :: rows[i] == RowOf(indices[i], size, Since(before[i], after[i]))
  {
    seq(|before|, i requires 0 <= i < |before| => RowOf(indices[i], size, Since(before[i], after[i])))
  }

  lemma Grew(before: seq<Tally>, after: seq<Tally>, queues: seq<seq<Chunk>>)
    requires |before| == |after| == |queues|
    requires forall i | 0 <= i < |queues| :: after[i] == before[i].Plus(TallyOf(queues[i]))
    ensures forall i | 0 <= i < |before| :: before[i].bytes <= after[i].bytes && before[i].chunks <= after[i].chunks
  {
    hide TallyOf;
    forall i | 0 <= i < |before| ensures before[i].bytes <= after[i].bytes && before[i].chunks <= after[i].chunks {
      assert after[i] == before[i].Plus(TallyOf(queues[i]));
    }
  }

  /** The path rows add up to what was queued. */
  lemma RowsAddUp(rows: seq<Row>, before: seq<Tally>, after: seq<Tally>, queues: seq<seq<Chunk>>)
    requires |rows| == |before| == |after| == |queues|
    requires forall i | 0 <= i < |queues| :: after[i] == before[i].Plus(TallyOf(queues[i]))
    requires forall i | 0 <= i < |rows| :: before[i].Plus(rows[i].sent) == after[i]
    ensures Total(SentOf(rows)) == Queued(queues) && Total(after) == Total(before).Plus(Queued(queues))
  {
    hide TallyOf;
    TotalsDiffer(before, after, queues);
    TotalOfQueues(SentOf(rows), queues);
  }

  class MultipathClient {
    const paths: seq<PathConn>
    const scheduler: Scheduler

    ghost predicate Valid() {
      && (forall i, j | 0 <= i < j < |paths| :: paths[i] != paths[j] && paths[i].stream != paths[j].stream)
    }

    constructor (paths: seq<PathConn>, scheduler: Scheduler)
      ensures this.paths == paths && this.scheduler == scheduler
    {
      this.paths, this.scheduler := paths, scheduler;
    }

    ghost function Streams(): set<object> {
      set i | 0 <= i < |paths| :: paths[i].stream
    }

    ghost function SentPerPath(): (r: seq<Tally>)
      reads paths
      ensures |r| == |paths| && forall i | 0 <= i < |r| :: r[i] == Tally(paths[i].bytesSent, paths[i].chunksSent)
    {
      seq(|paths|, i requires 0 <= i < |paths| reads paths => Tally(paths[i].bytesSent, paths[i].chunksSent))
    }

    method SnapshotPerPath() returns (sent: seq<Tally>)
      ensures sent == SentPerPath()
      ensures |sent| == |paths|
      ensures forall i | 0 <= i < |paths| ::
                sent[i].bytes == paths[i].bytesSent && sent[i].chunks == paths[i].chunksSent
    {
      sent := [];
      for i := 0 to |paths|
        invariant sent == SentPerPath()[..i]
      {
        sent := sent + [Tally(paths[i].bytesSent, paths[i].chunksSent)];
      }
    }

    method Snapshot() returns (bytes: nat, chunks: nat)
      ensures Tally(bytes, chunks) == Total(SentPerPath())
    {
      bytes, chunks := 0, 0;
      for i := 0 to |paths|
        invariant Tally(bytes, chunks) == Total(SentPerPath()[..i])
      {
        TotalAppend(SentPerPath()[..i], SentPerPath()[i]);
        assert SentPerPath()[..i + 1] == SentPerPath()[..i] + [SentPerPath()[i]];
        bytes := bytes + paths[i].bytesSent;
        chunks := chunks + paths[i].chunksSent;
      }
      assert SentPerPath()[..|paths|] == SentPerPath();
    }

    /** Hands every chunk to the scheduler, and writes every queue to its path. */
    method SendChunks(chunks: seq<Chunk>, rtt: (nat, nat) -> int)
      returns (ghost queues: seq<seq<Chunk>>, ghost calls: seq<Call>)
      requires Valid()
      modifies paths, Streams(), scheduler.roundRobin, scheduler.rttAware.fallback
      ensures IsRun(scheduler.kind, old(scheduler.Counter()), calls, scheduler.Counter())
              && Informed(calls, rtt, |paths|)
      ensures |queues| == |paths| && QueuesFit(queues, chunks, calls) && AllQueued(chunks, |chunks|, queues)
      ensures Queued(queues) == TallyOf(chunks).Times(CopiesOf(scheduler.kind, |paths|))
      ensures forall i | 0 <= i < |paths| ::
                && paths[i].stream.written == old(paths[i].stream.written) + Frames(StampAll(queues[i]))
                && paths[i].bytesSent == old(paths[i].bytesSent) + Sessions.DataBytes(queues[i])
                && paths[i].chunksSent == old(paths[i].chunksSent) + |queues[i]|
    {
      hide Frames, StampAll, Sessions.DataBytes, AllQueued, Queued, CopiesOf, QueuesFit, IsRun, Informed;
      var filled;
      filled, calls := FillQueues(chunks, |paths|, scheduler, rtt);
      queues := filled;
      ghost var counter := scheduler.Counter();
      for p := 0 to |paths|
        invariant scheduler.Counter() == counter
        invariant forall i | 0 <= i < p ::
                    && paths[i].stream.written == old(paths[i].stream.written) + Frames(StampAll(filled[i]))
                    && paths[i].bytesSent == old(paths[i].bytesSent) + Sessions.DataBytes(filled[i])
                    && paths[i].chunksSent == old(paths[i].chunksSent) + |filled[i]|
        invariant forall i | p <= i < |paths| ::
                    && paths[i].stream.written == old(paths[i].stream.written)
                    && paths[i].bytesSent == old(paths[i].bytesSent)
                    && paths[i].chunksSent == old(paths[i].chunksSent)
      {
        paths[p].WriteQueue(filled[p]);
      }
    }

    /** Sends chunks and makes the rows of what the counters say was sent. */
    method SendAndCount(chunks: seq<Chunk>, size: nat, rtt: (nat, nat) -> int) returns (rows: seq<Row>)
      requires Valid()
      modifies paths, Streams(), scheduler.roundRobin, scheduler.rttAware.fallback
      ensures |rows| == 1 + |paths|
      ensures rows[0] == RowOf(-1, size, TallyOf(chunks).Times(CopiesOf(scheduler.kind, |paths|)))
      ensures Total(SentOf(rows[1..])) == rows[0].sent
      ensures forall i | 0 <= i < |paths| ::
                && rows[i + 1] == RowOf(paths[i].index, size, rows[i + 1].sent)
                && paths[i].bytesSent == old(paths[i].bytesSent) + rows[i + 1].sent.bytes
                && paths[i].chunksSent == old(paths[i].chunksSent) + rows[i + 1].sent.chunks
    {
      hide Frames, StampAll, Sessions.DataBytes, Tally.Times, AllQueued, Queued, Total, CopiesOf, QueuesFit, IsRun,
           Informed;
      var bytes, count := Snapshot();
      var before := SnapshotPerPath();
      ghost var queues, calls := SendChunks(chunks, rtt);
      var bytesAfter, countAfter := Snapshot();
      var after := SnapshotPerPath();
      forall i | 0 <= i < |paths| ensures after[i] == before[i].Plus(TallyOf(queues[i])) {
        assert after[i] == Tally(paths[i].bytesSent, paths[i].chunksSent);
      }
      Grew(before, after, queues);
      var perPath := PathRows(Indices(), size, before, after);
      RowsAddUp(perPath, before, after, queues);
      rows := [RowOf(-1, size, Since(Tally(bytes, count), Tally(bytesAfter, countAfter)))] + perPath;
      assert rows[1..] == perPath;
      forall i | 0 <= i < |paths|
        ensures paths[i].bytesSent == old(paths[i].bytesSent) + rows[i + 1].sent.bytes
        ensures paths[i].chunksSent == old(paths[i].chunksSent) + rows[i + 1].sent.chunks
      {
        assert rows[i + 1] == perPath[i] && after[i] == Tally(paths[i].bytesSent, paths[i].chunksSent);
      }
    }

    function Indices(): (r: seq<nat>)
      ensures |r| == |paths| && forall i | 0 <= i < |r| :: r[i] == paths[i].index
    {
      seq(|paths|, i requires 0 <= i < |paths| => paths[i].index)
    }

    /**
     Sends one burst and accounts for it. The path rows say what each path sent, and add up to the burst's row, which
     counts every copy; so a burst whose every write succeeded is reported complete if and only if it is empty or was
     sent in one copy.
     */
    method SendBurst(data: seq<Byte>, chunkSize: U32, burstId: U64, rtt: (nat, nat) -> int) returns (rows: seq<Row>)
      requires Valid() && |data| < U64_LIMIT
      requires data != [] ==> EffectiveSize(|data|, chunkSize) > 0
      modifies paths, Streams(), scheduler.roundRobin, scheduler.rttAware.fallback
      ensures |rows| == 1 + |paths|
      ensures
        var copies := CopiesOf(scheduler.kind, |paths|);
        && rows[0] == Row(-1, |data|, Tally(|data|, ChunksIn(|data|, chunkSize)).Times(copies),
                          data == [] || copies == 1)
        && Total(SentOf(rows[1..])) == rows[0].sent
      ensures forall i | 0 <= i < |paths| ::
                && rows[i + 1].pathIndex == paths[i].index && rows[i + 1].size == |data|
                && paths[i].bytesSent == old(paths[i].bytesSent) + rows[i + 1].sent.bytes
                && paths[i].chunksSent == old(paths[i].chunksSent) + rows[i + 1].sent.chunks
                && (rows[i + 1].complete <==> rows[i + 1].sent.bytes == |data|)
    {
      hide TallyOf, Total, IsSplit, CopiesOf, ChunksIn;
      var chunks := Split(data, chunkSize, burstId, |data|);
      BurstBytes(chunks, data, chunkSize, burstId);
      rows := SendAndCount(chunks, |data|, rtt);
      ManyOrOne(CopiesOf(scheduler.kind, |paths|), |data|);
    }
  }
}
