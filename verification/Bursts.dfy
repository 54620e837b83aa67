/**
 The burst tracker of continuous sessions. It stores no bytes; each entry is shown to be a function of the
 arrivals of that burst alone, its per-path shares to add up, and its verdict to agree with a Reassembler.
 */
module Bursts {
  import opened Bytes
  import opened Chunks
  import opened Sums
  import Reassembly

  datatype PathShare = PathShare(bytesReceived: nat, chunks: nat, corrupted: nat)

  datatype Burst = Burst(
    bytesExpected: nat,
    bytesReceived: nat,
    seen: set<U64>,       // numbers of the uncorrupted chunks that have arrived
    chunks: nat,
    corrupted: nat,
    startedAt: int,
    lastActivity: int,
    perPath: map<nat, PathShare>)

  datatype BurstStats = BurstStats(
    burstId: U64, bytesExpected: nat, bytesReceived: nat, chunks: nat, corrupted: nat, complete: bool,
    startedAt: int, lastActivity: int, perPath: map<nat, PathShare>)

  function StatsOf(id: U64, b: Burst): BurstStats {
    BurstStats(id, b.bytesExpected, b.bytesReceived, b.chunks, b.corrupted, b.bytesReceived >= b.bytesExpected,
               b.startedAt, b.lastActivity, b.perPath)
  }

  /** One call of Write: a chunk, whether its checksum failed, the path it came on, and the clock. */
  datatype Arrival = Arrival(chunk: Chunk, corrupted: bool, path: nat, at: int)

  // ---- What an entry means: a closed form over the arrivals of one burst ----

  datatype Selector = Any | Corrupt | OnPath(path: nat) | CorruptOnPath(path: nat)
  {
    predicate Selects(a: Arrival) {
      match this
      case Any => true
      case Corrupt => a.corrupted
      case OnPath(p) => a.path == p
      case CorruptOnPath(p) => a.path == p && a.corrupted
    }
  }

  function Count(h: seq<Arrival>, s: Selector): nat {
    if h == [] then 0
    else Count(h[..|h| - 1], s) + if s.Selects(h[|h| - 1]) then 1 else 0
  }

  function Seen(h: seq<Arrival>): set<U64> {
    set i | 0 <= i < |h| && !h[i].corrupted :: h[i].chunk.number
  }

  /** The lengths of the selected arrivals that were the first uncorrupted ones of their number. */
  function Credited(h: seq<Arrival>, s: Selector): nat {
    if h == [] then 0
    else
      var init, a := h[..|h| - 1], h[|h| - 1];
      Credited(init, s) + if s.Selects(a) && !a.corrupted && a.chunk.number !in Seen(init) then |a.chunk.data| else 0
  }

  function PathsOf(h: seq<Arrival>): set<nat> {
    set i | 0 <= i < |h| :: h[i].path
  }

  function Summary(h: seq<Arrival>): Burst
    requires h != []
  {
    Burst(h[0].chunk.burstBytes, Credited(h, Any), Seen(h), Count(h, Any), Count(h, Corrupt),
          h[0].at, h[|h| - 1].at,
          map p | p in PathsOf(h) :: ShareOf(h, p))
  }

  // ---- What Write does to an entry ----

  function Fresh(a: Arrival): Burst {
    Burst(a.chunk.burstBytes, 0, {}, 0, 0, a.at, a.at, map[])
  }

  function Recorded(b: Burst, a: Arrival): Burst {
    var share := if a.path in b.perPath then b.perPath[a.path] else PathShare(0, 0, 0);
    var credit := if !a.corrupted && a.chunk.number !in b.seen then |a.chunk.data| else 0;
    var bad := if a.corrupted then 1 else 0;
    Burst(b.bytesExpected, b.bytesReceived + credit,
          if a.corrupted then b.seen else b.seen + {a.chunk.number},
          b.chunks + 1, b.corrupted + bad, b.startedAt, a.at,
          b.perPath[a.path := PathShare(share.bytesReceived + credit, share.chunks + 1, share.corrupted + bad)])
  }

  type Entries = map<U64, Burst>

  function WriteEntry(m: Entries, a: Arrival): Entries {
    var id := a.chunk.burstId;
    m[id := Recorded(if id in m then m[id] else Fresh(a), a)]
  }

  predicate Idle(b: Burst, now: int, ttl: int) {
    now - b.lastActivity >= ttl
  }

  function IdleIds(m: Entries, now: int, ttl: int): set<U64> {
    set id | id in m && Idle(m[id], now, ttl)
  }

  function Reports(order: seq<U64>, m: Entries): (rs: seq<BurstStats>)
    requires forall id | id in order :: id in m
  {
    if order == [] then []
    else
      var last := |order| - 1;
      assert forall id | id in order[..last] :: id in order;
      Reports(order[..last], m) + [StatsOf(order[last], m[order[last]])]
  }

  /** The order names each of the ids exactly once. */
  ghost predicate Lists(order: seq<U64>, ids: set<U64>) {
    multiset(order) == multiset(ids)
  }

  lemma ListsMembers(order: seq<U64>, ids: set<U64>)
    requires Lists(order, ids)
    ensures forall id :: id in order <==> id in ids
  {
    forall id ensures id in order <==> id in ids {
      assert id in multiset(order) <==> id in multiset(ids);
    }
  }

  /** The reports are those of the entries of the given ids, each once, in some order. */
  ghost predicate IsReport(rs: seq<BurstStats>, m: Entries, ids: set<U64>) {
    exists order: seq<U64> :: IsReportInOrder(rs, m, ids, order)
  }

  ghost predicate IsReportInOrder(rs: seq<BurstStats>, m: Entries, ids: set<U64>, order: seq<U64>) {
    Lists(order, ids) && (forall id | id in order :: id in m) && rs == Reports(order, m)
  }

  lemma NothingReported(m: Entries)
    ensures IsReportInOrder([], m, {}, [])
  {
  }

  lemma ReportExtends(rs: seq<BurstStats>, m: Entries, ids: set<U64>, order: seq<U64>, id: U64)
    requires IsReportInOrder(rs, m, ids, order) && id in m && id !in ids
    ensures IsReportInOrder(rs + [StatsOf(id, m[id])], m, ids + {id}, order + [id])
  {
    var longer := order + [id];
    assert longer[..|order|] == order;
    assert multiset(ids + {id}) == multiset(ids) + multiset{id};
  }

  lemma RemoveOneMore(m: Entries, gone: set<U64>, id: U64)
    ensures (m - gone) - {id} == m - (gone + {id})
  {
  }

  /** One more id looked at: it counts as gone exactly when it is idle. */
  lemma LookedAt(idle: set<U64>, left: set<U64>, id: U64)
    requires id in left
    ensures id in idle ==> idle - (left - {id}) == (idle - left) + {id}
    ensures id !in idle ==> idle - (left - {id}) == idle - left
  {
  }

  /** The statistics say what the entry holds, field by field. */
  predicate Describes(s: BurstStats, id: U64, b: Burst) {
    && s.burstId == id
    && s.bytesExpected == b.bytesExpected && s.bytesReceived == b.bytesReceived
    && s.chunks == b.chunks && s.corrupted == b.corrupted
    && (s.complete <==> b.bytesReceived >= b.bytesExpected)
    && s.startedAt == b.startedAt && s.lastActivity == b.lastActivity && s.perPath == b.perPath
  }

  predicate Reported(rs: seq<BurstStats>, id: U64) {
    exists i | 0 <= i < |rs| :: rs[i].burstId == id
  }

  lemma {:induction false} ReportAt(order: seq<U64>, m: Entries, i: nat)
    requires (forall id | id in order :: id in m) && i < |order|
    ensures |Reports(order, m)| == |order| && Reports(order, m)[i] == StatsOf(order[i], m[order[i]])
  {
    var last := |order| - 1;
    assert forall id | id in order[..last] :: id in order;
    if i < last {
      ReportAt(order[..last], m, i);
    } else if last > 0 {
      ReportAt(order[..last], m, 0);
    }
  }

  lemma TwicePresent<T>(s: seq<T>, i: nat, j: nat)
    requires i < j < |s| && s[i] == s[j]
    ensures multiset(s)[s[i]] >= 2
  {
    assert s == s[..j] + s[j..];
    assert s[..j][i] == s[i] && s[j..][0] == s[j];
  }

  lemma ListedOnce(order: seq<U64>, ids: set<U64>, i: nat, j: nat)
    requires Lists(order, ids) && i < j < |order|
    ensures order[i] != order[j]
  {
    if order[i] == order[j] {
      TwicePresent(order, i, j);
    }
  }

  /** Reports describe the entries they are of; each id is reported, and once. */
  lemma ReportSays(rs: seq<BurstStats>, m: Entries, ids: set<U64>, order: seq<U64>)
    requires IsReportInOrder(rs, m, ids, order)
    ensures forall i | 0 <= i < |rs| :: rs[i].burstId in m && Describes(rs[i], rs[i].burstId, m[rs[i].burstId])
    ensures forall i, j | 0 <= i < j < |rs| :: rs[i].burstId != rs[j].burstId
    ensures forall id: U64 :: Reported(rs, id) <==> id in ids
  {
    ReportCount(order, m);
    forall i | 0 <= i < |order|
      ensures |rs| == |order| && rs[i] == StatsOf(order[i], m[order[i]]) && order[i] in m
    {
      ReportAt(order, m, i);
    }
    forall i, j | 0 <= i < j < |rs| ensures rs[i].burstId != rs[j].burstId {
      ListedOnce(order, ids, i, j);
    }
    ListsMembers(order, ids);
    forall id: U64 ensures Reported(rs, id) <==> id in ids {
      if id in order {
        var i :| 0 <= i < |order| && order[i] == id;
        assert rs[i].burstId == id;
      }
    }
  }

  lemma ReportCount(order: seq<U64>, m: Entries)
    requires forall id | id in order :: id in m
    ensures |Reports(order, m)| == |order|
  {
    if order != [] {
      ReportAt(order, m, 0);
    }
  }

  class BurstTracker {
    var bursts: Entries
    const ttl: int

    constructor (ttl: int)
      ensures bursts == map[] && this.ttl == ttl
    {
      bursts := map[];
      this.ttl := ttl;
    }

    method Write(c: Chunk, corrupted: bool, pathIndex: nat, now: int) returns (complete: bool)
      modifies this`bursts
      ensures bursts == WriteEntry(old(bursts), Arrival(c, corrupted, pathIndex, now))
      ensures bursts.Keys == old(bursts).Keys + {c.burstId}
      ensures forall id | id in old(bursts) && id != c.burstId :: bursts[id] == old(bursts)[id]
      ensures complete <==> bursts[c.burstId].bytesReceived >= bursts[c.burstId].bytesExpected
    {
      var b := if c.burstId in bursts then bursts[c.burstId] else Burst(c.burstBytes, 0, {}, 0, 0, now, now, map[]);
      b := b.(lastActivity := now, chunks := b.chunks + 1);
      var p := if pathIndex in b.perPath then b.perPath[pathIndex] else PathShare(0, 0, 0);
      p := p.(chunks := p.chunks + 1);
      if corrupted {
        b := b.(corrupted := b.corrupted + 1);
        p := p.(corrupted := p.corrupted + 1);
      } else if c.number !in b.seen {
        b := b.(seen := b.seen + {c.number}, bytesReceived := b.bytesReceived + |c.data|);
        p := p.(bytesReceived := p.bytesReceived + |c.data|);
      } else {
        assert b.seen + {c.number} == b.seen;
      }
      b := b.(perPath := b.perPath[pathIndex := p]);
      bursts := bursts[c.burstId := b];
      complete := b.bytesReceived >= b.bytesExpected;
    }

    method Stats(burstId: U64) returns (stats: BurstStats, ok: bool)
      ensures ok <==> burstId in bursts
      ensures ok ==> stats == StatsOf(burstId, bursts[burstId]) && Describes(stats, burstId, bursts[burstId])
      ensures ok ==>
                var b := bursts[burstId];
                && stats.burstId == burstId
                && stats.bytesExpected == b.bytesExpected && stats.bytesReceived == b.bytesReceived
                && stats.chunks == b.chunks && stats.corrupted == b.corrupted
                && (stats.complete <==> b.bytesReceived >= b.bytesExpected)
                && stats.startedAt == b.startedAt && stats.lastActivity == b.lastActivity && stats.perPath == b.perPath
    {
      if burstId in bursts {
        return StatsOf(burstId, bursts[burstId]), true;
      }
      return BurstStats(0, 0, 0, 0, 0, false, 0, 0, map[]), false;
    }

    /** Removes and reports exactly the entries that have been idle for the ttl or longer. */
    method Expire(now: int) returns (expired: seq<BurstStats>)
      modifies this`bursts
      ensures IsReport(expired, old(bursts), IdleIds(old(bursts), now, ttl))
      ensures bursts == old(bursts) - IdleIds(old(bursts), now, ttl)
      ensures forall id: U64 :: id in bursts <==> id in old(bursts) && now - old(bursts)[id].lastActivity < ttl
      ensures forall id: U64 :: id in bursts ==> bursts[id] == old(bursts)[id]
      ensures forall i | 0 <= i < |expired| ::
                && expired[i].burstId in old(bursts)
                && Describes(expired[i], expired[i].burstId, old(bursts)[expired[i].burstId])
      ensures forall i, j | 0 <= i < j < |expired| :: expired[i].burstId != expired[j].burstId
      ensures forall id: U64 ::
                Reported(expired, id) <==> id in old(bursts) && now - old(bursts)[id].lastActivity >= ttl
    {
      hide IsReportInOrder, Describes, Reported;
      expired := [];
      NothingReported(bursts);
      var left := bursts.Keys;
      ghost var m, idle := bursts, IdleIds(bursts, now, ttl);
      ghost var gone, order := {}, [];
      while left != {}
        invariant left <= bursts.Keys && left !! gone
        invariant gone == idle - left
        invariant bursts == m - gone
        invariant IsReportInOrder(expired, m, gone, order)
        decreases left
      {
        var id :| id in left;
        LookedAt(idle, left, id);
        left := left - {id};
        if now - bursts[id].lastActivity >= ttl {
          ReportExtends(expired, m, gone, order, id);
          RemoveOneMore(m, gone, id);
          expired := expired + [StatsOf(id, bursts[id])];
          bursts := bursts - {id};
          gone, order := gone + {id}, order + [id];
        }
      }
      assert gone == idle;
      ReportSays(expired, m, idle, order);
    }

    method ExpireAll() returns (all: seq<BurstStats>)
      modifies this`bursts
      ensures IsReport(all, old(bursts), old(bursts).Keys)
      ensures bursts == map[]
      ensures forall i | 0 <= i < |all| ::
                && all[i].burstId in old(bursts)
                && Describes(all[i], all[i].burstId, old(bursts)[all[i].burstId])
      ensures forall i, j | 0 <= i < j < |all| :: all[i].burstId != all[j].burstId
      ensures forall id: U64 :: Reported(all, id) <==> id in old(bursts)
    {
      all := [];
      var left := bursts.Keys;
      ghost var gone, order := {}, [];
      while left != {}
        invariant bursts == old(bursts)
        invariant left <= bursts.Keys && gone == bursts.Keys - left
        invariant IsReportInOrder(all, bursts, gone, order)
        decreases left
      {
        var id :| id in left;
        ReportExtends(all, bursts, gone, order, id);
        left := left - {id};
        all := all + [StatsOf(id, bursts[id])];
        gone, order := gone + {id}, order + [id];
      }
      assert gone == bursts.Keys;
      ReportSays(all, bursts, gone, order);
      bursts := map[];
    }
  }

  /** What one arrival does to an entry, field by field; without an entry it is as if there had been an empty one. */
  lemma WriteChanges(m: Entries, a: Arrival)
    ensures
      var id := a.chunk.burstId;
      var before := if id in m then m[id] else Burst(a.chunk.burstBytes, 0, {}, 0, 0, a.at, a.at, map[]);
      var after := WriteEntry(m, a)[id];
      var share := if a.path in before.perPath then before.perPath[a.path] else PathShare(0, 0, 0);
      && after.bytesExpected == before.bytesExpected && after.startedAt == before.startedAt
      && after.lastActivity == a.at && after.chunks == before.chunks + 1
      && a.path in after.perPath && after.perPath[a.path].chunks == share.chunks + 1
      && (forall p | p != a.path :: p in after.perPath <==> p in before.perPath)
      && (forall p | p in before.perPath && p != a.path :: after.perPath[p] == before.perPath[p])
      && (a.corrupted ==>
            && after.bytesReceived == before.bytesReceived && after.seen == before.seen
            && after.corrupted == before.corrupted + 1
            && after.perPath[a.path].bytesReceived == share.bytesReceived
            && after.perPath[a.path].corrupted == share.corrupted + 1)
      && (!a.corrupted ==>
            var credit := if a.chunk.number in before.seen then 0 else |a.chunk.data|;
            && after.bytesReceived == before.bytesReceived + credit && after.seen == before.seen + {a.chunk.number}
            && after.corrupted == before.corrupted
            && after.perPath[a.path].bytesReceived == share.bytesReceived + credit
            && after.perPath[a.path].corrupted == share.corrupted)
    ensures WriteEntry(m, a).Keys == m.Keys + {a.chunk.burstId}
    ensures forall id | id in m && id != a.chunk.burstId :: WriteEntry(m, a)[id] == m[id]
  {
  }

  // ---- The entry is the summary of its arrivals ----

  lemma SeenExtends(h: seq<Arrival>, a: Arrival)
    ensures Seen(h + [a]) == if a.corrupted then Seen(h) else Seen(h) + {a.chunk.number}
  {
    var g := h + [a];
    assert forall i | 0 <= i < |h| :: g[i] == h[i];
    assert g[|h|] == a;
    forall x | x in Seen(h) ensures x in Seen(g) {
      var i :| 0 <= i < |h| && !h[i].corrupted && h[i].chunk.number == x;
      assert g[i] == h[i];
    }
  }

  lemma PathsExtend(h: seq<Arrival>, a: Arrival)
    ensures PathsOf(h + [a]) == PathsOf(h) + {a.path}
  {
    var g := h + [a];
    assert g[|h|] == a;
    forall x | x in PathsOf(h) ensures x in PathsOf(g) {
      var i :| 0 <= i < |h| && h[i].path == x;
      assert g[i] == h[i];
    }
  }

  lemma CountsExtend(h: seq<Arrival>, a: Arrival, s: Selector)
    ensures Count(h + [a], s) == Count(h, s) + if s.Selects(a) then 1 else 0
    ensures Credited(h + [a], s) ==
            Credited(h, s) + if s.Selects(a) && !a.corrupted && a.chunk.number !in Seen(h) then |a.chunk.data| else 0
  {
    assert (h + [a])[..|h|] == h;
  }

  lemma {:induction false} NothingOnOtherPath(h: seq<Arrival>, p: nat)
    requires p !in PathsOf(h)
    ensures Count(h, OnPath(p)) == 0 && Count(h, CorruptOnPath(p)) == 0 && Credited(h, OnPath(p)) == 0
  {
    if h != [] {
      var init := h[..|h| - 1];
      assert h[|h| - 1].path in PathsOf(h);
      forall x | x in PathsOf(init) ensures x in PathsOf(h) {
        var i :| 0 <= i < |init| && init[i].path == x;
        assert h[i] == init[i];
      }
      NothingOnOtherPath(init, p);
    }
  }

  function Base(h: seq<Arrival>, a: Arrival): Burst {
    if h == [] then Fresh(a) else Summary(h)
  }

  function ShareOf(h: seq<Arrival>, p: nat): PathShare {
    PathShare(Credited(h, OnPath(p)), Count(h, OnPath(p)), Count(h, CorruptOnPath(p)))
  }

  lemma ShareExtends(h: seq<Arrival>, a: Arrival, p: nat)
    ensures p != a.path ==> ShareOf(h + [a], p) == ShareOf(h, p)
    ensures p == a.path ==>
              var credit := if !a.corrupted && a.chunk.number !in Seen(h) then |a.chunk.data| else 0;
              var o := ShareOf(h, p);
              ShareOf(h + [a], p) ==
              PathShare(o.bytesReceived + credit, o.chunks + 1, o.corrupted + if a.corrupted then 1 else 0)
  {
    CountsExtend(h, a, OnPath(p));
    CountsExtend(h, a, CorruptOnPath(p));
  }

  lemma SharesExtend(h: seq<Arrival>, a: Arrival)
    ensures Recorded(Base(h, a), a).perPath == Summary(h + [a]).perPath
  {
    PathsExtend(h, a);
    if a.path !in PathsOf(h) {
      NothingOnOtherPath(h, a.path);
    }
    var left := Recorded(Base(h, a), a).perPath;
    var right := Summary(h + [a]).perPath;
    assert left.Keys == PathsOf(h) + {a.path} == right.Keys;
    forall p | p in right ensures left[p] == right[p] {
      ShareExtends(h, a, p);
    }
  }

  /** Recording one more arrival of a burst turns the summary of its arrivals into that of one more. */
  lemma RecordExtendsSummary(h: seq<Arrival>, a: Arrival)
    ensures Recorded(Base(h, a), a) == Summary(h + [a])
  {
    SharesExtend(h, a);
    SeenExtends(h, a);
    CountsExtend(h, a, Any);
    CountsExtend(h, a, Corrupt);
    assert (h + [a])[0] == if h == [] then a else h[0];
  }

  lemma {:induction false} CountAnyIsLength(h: seq<Arrival>)
    ensures Count(h, Any) == |h|
  {
    if h != [] {
      CountAnyIsLength(h[..|h| - 1]);
    }
  }

  // ---- Bursts do not interfere ----

  function WriteAll(m: Entries, events: seq<Arrival>): Entries {
    if events == [] then m else WriteEntry(WriteAll(m, events[..|events| - 1]), events[|events| - 1])
  }

  function OfBurst(events: seq<Arrival>, id: U64): seq<Arrival> {
    if events == [] then []
    else
      var a := events[|events| - 1];
      OfBurst(events[..|events| - 1], id) + if a.chunk.burstId == id then [a] else []
  }

  /**
   After any interleaving of arrivals, a burst's entry is the summary of its own arrivals, and is there if it has
   any.
   */
  lemma {:induction false} BurstsDoNotInterfere(events: seq<Arrival>, id: U64)
    ensures id in WriteAll(map[], events) <==> OfBurst(events, id) != []
    ensures id in WriteAll(map[], events) ==> WriteAll(map[], events)[id] == Summary(OfBurst(events, id))
  {
    if events != [] {
      var init, a := events[..|events| - 1], events[|events| - 1];
      BurstsDoNotInterfere(init, id);
      if a.chunk.burstId == id {
        RecordExtendsSummary(OfBurst(init, id), a);
      } else {
        assert OfBurst(init, id) + [] == OfBurst(init, id);
      }
    }
  }

  // ---- Per-path shares add up ----

  datatype Field = Bytes | Chunks | Corrupted
  {
    function Of(s: PathShare): nat {
      match this
      case Bytes => s.bytesReceived
      case Chunks => s.chunks
      case Corrupted => s.corrupted
    }
  }

  function Project(m: map<nat, PathShare>, f: Field): map<nat, nat> {
    map p | p in m :: f.Of(m[p])
  }

  ghost function Total(m: map<nat, PathShare>, f: Field): nat {
    SumValues(Project(m, f))
  }

  ghost predicate SharesAddUp(b: Burst) {
    Total(b.perPath, Bytes) == b.bytesReceived && Total(b.perPath, Chunks) == b.chunks
      && Total(b.perPath, Corrupted) == b.corrupted
  }

  lemma SetShare(m: map<nat, PathShare>, p: nat, s: PathShare, f: Field)
    ensures Total(m[p := s], f) + (if p in m then f.Of(m[p]) else 0) == Total(m, f) + f.Of(s)
  {
    assert Project(m[p := s], f) == Project(m, f)[p := f.Of(s)];
    if p in m {
      SumUpdate(Project(m, f), p, f.Of(s));
    } else {
      SumAdd(Project(m, f), p, f.Of(s));
    }
  }

  lemma RecordedAddsUp(b: Burst, a: Arrival)
    requires SharesAddUp(b)
    ensures SharesAddUp(Recorded(b, a))
  {
    var share := Recorded(b, a).perPath[a.path];
    SetShare(b.perPath, a.path, share, Bytes);
    SetShare(b.perPath, a.path, share, Chunks);
    SetShare(b.perPath, a.path, share, Corrupted);
  }

  lemma FreshAddsUp(a: Arrival)
    ensures SharesAddUp(Fresh(a))
  {
    assert Project(map[], Bytes) == Project(map[], Chunks) == Project(map[], Corrupted) == map[];
  }

  /** In every entry, the bytes, chunks and corrupted counts are the sums over the paths. */
  lemma {:induction false} SummaryAddsUp(h: seq<Arrival>)
    requires h != []
    ensures SharesAddUp(Summary(h))
  {
    var init, a := h[..|h| - 1], h[|h| - 1];
    if init == [] {
      FreshAddsUp(a);
    } else {
      SummaryAddsUp(init);
    }
    RecordedAddsUp(Base(init, a), a);
    RecordExtendsSummary(init, a);
    assert init + [a] == h;
  }

  // ---- Totals do not depend on the order of arrival ----

  /** Chunks of the same number are equally long, and all chunks announce the same burst size. */
  ghost predicate Consistent(h: seq<Arrival>, lengths: map<U64, nat>, burstBytes: nat) {
    forall a | a in h :: a.chunk.burstBytes == burstBytes && a.chunk.number in lengths
      && lengths[a.chunk.number] == |a.chunk.data|
  }

  ghost function LengthsOf(seen: set<U64>, lengths: map<U64, nat>): map<U64, nat>
    requires seen <= lengths.Keys
  {
    map x | x in seen :: lengths[x]
  }

  lemma {:induction false} CreditedIsSumOfSeen(h: seq<Arrival>, lengths: map<U64, nat>, burstBytes: nat)
    requires Consistent(h, lengths, burstBytes)
    ensures Seen(h) <= lengths.Keys
    ensures Credited(h, Any) == SumValues(LengthsOf(Seen(h), lengths))
  {
    if h == [] {
      assert LengthsOf(Seen(h), lengths) == map[];
    } else {
      var init, a := h[..|h| - 1], h[|h| - 1];
      CreditedIsSumOfSeen(init, lengths, burstBytes);
      SeenExtends(init, a);
      assert init + [a] == h;
      var x := a.chunk.number;
      if a.corrupted || x in Seen(init) {
        assert Seen(h) == Seen(init);
      } else {
        SumAdd(LengthsOf(Seen(init), lengths), x, lengths[x]);
        assert LengthsOf(Seen(h), lengths) == LengthsOf(Seen(init), lengths)[x := lengths[x]];
      }
    }
  }

  ghost function CountIn(m: multiset<Arrival>, s: Selector): nat
    decreases |m|
  {
    if m == multiset{} then 0
    else
      var a :| a in m;
      CountIn(m - multiset{a}, s) + if s.Selects(a) then 1 else 0
  }

  lemma {:induction false} CountInRemove(m: multiset<Arrival>, a: Arrival, s: Selector)
    requires a in m
    ensures CountIn(m, s) == CountIn(m - multiset{a}, s) + if s.Selects(a) then 1 else 0
    decreases |m|
  {
    var b :| b in m && CountIn(m, s) == CountIn(m - multiset{b}, s) + if s.Selects(b) then 1 else 0;
    if a != b {
      var both := m - multiset{a} - multiset{b};
      assert m - multiset{b} - multiset{a} == both;
      CountInRemove(m - multiset{b}, a, s);
      CountInRemove(m - multiset{a}, b, s);
    }
  }

  lemma {:induction false} CountIsOfMultiset(h: seq<Arrival>, s: Selector)
    ensures Count(h, s) == CountIn(multiset(h), s)
  {
    if h != [] {
      var init, a := h[..|h| - 1], h[|h| - 1];
      assert h == init + [a];
      CountIsOfMultiset(init, s);
      CountInRemove(multiset(h), a, s);
      assert multiset(h) - multiset{a} == multiset(init);
    }
  }

  /** Reordering the arrivals of a burst changes no total of the whole burst. */
  lemma TotalsIgnoreOrder(h: seq<Arrival>, g: seq<Arrival>, lengths: map<U64, nat>, burstBytes: nat)
    requires h != [] && g != [] && multiset(h) == multiset(g)
    requires Consistent(h, lengths, burstBytes)
    ensures
      var b, c := Summary(h), Summary(g);
      && b.bytesExpected == c.bytesExpected && b.bytesReceived == c.bytesReceived && b.seen == c.seen
      && b.chunks == c.chunks && b.corrupted == c.corrupted
      && b.perPath.Keys == c.perPath.Keys
      && forall p | p in b.perPath ::
           b.perPath[p].chunks == c.perPath[p].chunks && b.perPath[p].corrupted == c.perPath[p].corrupted
  {
    forall a ensures a in h <==> a in g {
      assert a in multiset(h) <==> a in multiset(g);
    }
    assert h[0] in h && g[0] in g;
    SeenIsOfMembers(h, g);
    CreditedIsSumOfSeen(h, lengths, burstBytes);
    CreditedIsSumOfSeen(g, lengths, burstBytes);
    SameCounts(h, g, Any);
    SameCounts(h, g, Corrupt);
    forall p | p in Summary(h).perPath
      ensures Count(h, OnPath(p)) == Count(g, OnPath(p)) && Count(h, CorruptOnPath(p)) == Count(g, CorruptOnPath(p))
    {
      SameCounts(h, g, OnPath(p));
      SameCounts(h, g, CorruptOnPath(p));
    }
  }

  lemma SameCounts(h: seq<Arrival>, g: seq<Arrival>, s: Selector)
    requires multiset(h) == multiset(g)
    ensures Count(h, s) == Count(g, s)
  {
    CountIsOfMultiset(h, s);
    CountIsOfMultiset(g, s);
  }

  lemma SeenIsOfMembers(h: seq<Arrival>, g: seq<Arrival>)
    requires forall a :: a in h <==> a in g
    ensures Seen(h) == Seen(g) && PathsOf(h) == PathsOf(g)
  {
    forall x ensures x in Seen(h) <==> exists a :: a in h && !a.corrupted && a.chunk.number == x {}
    forall x ensures x in Seen(g) <==> exists a :: a in g && !a.corrupted && a.chunk.number == x {}
    forall x ensures x in PathsOf(h) <==> exists a :: a in h && a.path == x {}
    forall x ensures x in PathsOf(g) <==> exists a :: a in g && a.path == x {}
  }

  // ---- Agreement with the Reassembler ----

  /** The arrival brings slot i of the payload of the given burst, or a corrupted copy of it. */
  ghost predicate Brings(a: Arrival, payload: seq<Byte>, size: U32, id: U64, i: nat)
    requires size > 0
  {
    && i < Reassembly.ChunkCount(|payload|, size)
    && a.chunk.number == i && a.chunk.burstId == id && a.chunk.burstBytes == |payload|
    && (!a.corrupted ==> Reassembly.IsSlot(a.chunk, payload, size, i))
  }

  /** The tracker's entry (if any) and the reassembler's state stand for the same set of slots. */
  ghost predicate SameProgress(m: Entries, id: U64, s: Reassembly.Assembly, payload: seq<Byte>, size: U32,
                               got: set<nat>)
    requires size > 0
  {
    && got <= Reassembly.AllSlots(payload, size)
    && s == Reassembly.Filled(payload, size, got)
    && (id in m ==> m[id].seen == got && m[id].bytesReceived == s.receivedBytes && m[id].bytesExpected == |payload|)
    && (id !in m ==> got == {})
  }

  /** The chunks a Reassembler gets of these arrivals: the uncorrupted ones. */
  function Good(events: seq<Arrival>): seq<Chunk> {
    if events == [] then []
    else Good(events[..|events| - 1]) + if events[|events| - 1].corrupted then [] else [events[|events| - 1].chunk]
  }

  /** One arrival keeps tracker and reassembler in step. */
  lemma ProgressStep(m: Entries, id: U64, s: Reassembly.Assembly, payload: seq<Byte>, size: U32, got: set<nat>,
                     a: Arrival, i: nat)
    requires size > 0 && |payload| < Reassembly.INT_LIMIT
    requires SameProgress(m, id, s, payload, size, got) && Brings(a, payload, size, id, i)
    ensures a.corrupted ==> SameProgress(WriteEntry(m, a), id, s, payload, size, got)
    ensures !a.corrupted ==> Reassembly.Placeable(s, a.chunk)
    ensures !a.corrupted ==> SameProgress(WriteEntry(m, a), id, Reassembly.Place(s, a.chunk), payload, size, got + {i})
  {
    hide Reassembly.Slot, Reassembly.GotBytes, Reassembly.Overlay, Reassembly.SlotIndex;
    Reassembly.GotNothing(payload, size, Reassembly.ChunkCount(|payload|, size));
    if !a.corrupted {
      Reassembly.PlaceGenuine(payload, size, got, a.chunk, i);
      FilledBytes(payload, size, got, i);
    }
  }

  lemma FilledBytes(payload: seq<Byte>, size: U32, got: set<nat>, i: nat)
    requires size > 0 && i < Reassembly.ChunkCount(|payload|, size)
    ensures Reassembly.Filled(payload, size, got + {i}).receivedBytes ==
            Reassembly.Filled(payload, size, got).receivedBytes + if i in got then 0
              else |Reassembly.Slot(payload, size, i)|
  {
    if i in got {
      assert got + {i} == got;
    } else {
      Reassembly.GotBytesAdd(payload, size, got, i, Reassembly.ChunkCount(|payload|, size));
    }
  }

  lemma {:induction false} ProgressAgrees(events: seq<Arrival>, payload: seq<Byte>, size: U32, id: U64, slots: seq<nat>)
    returns (got: set<nat>)
    requires size > 0 && |payload| < Reassembly.INT_LIMIT
    requires |slots| == |events| && forall j | 0 <= j < |events| :: Brings(events[j], payload, size, id, slots[j])
    ensures
      var empty := Reassembly.Empty(|payload|, size, Reassembly.ChunkCount(|payload|, size));
      && Reassembly.AllPlaceable(empty, Good(events))
      && SameProgress(WriteAll(map[], events), id, Reassembly.PlaceAll(empty, Good(events)), payload, size, got)
  {
    var empty := Reassembly.Empty(|payload|, size, Reassembly.ChunkCount(|payload|, size));
    if events == [] {
      got := {};
      Reassembly.NothingFilled(payload, size);
    } else {
      var k := |events| - 1;
      var init, a := events[..k], events[k];
      got := ProgressAgrees(init, payload, size, id, slots[..k]);
      ProgressStep(WriteAll(map[], init), id, Reassembly.PlaceAll(empty, Good(init)), payload, size, got, a, slots[k]);
      if a.corrupted {
        assert Good(init) + [] == Good(init);
      } else {
        PlaceOneMore(empty, Good(init), a.chunk);
        got := got + {slots[k]};
      }
    }
  }

  lemma {:induction false} PlaceOneMore(s: Reassembly.Assembly, cs: seq<Chunk>, c: Chunk)
    requires Reassembly.AllPlaceable(s, cs) && Reassembly.Placeable(Reassembly.PlaceAll(s, cs), c)
    ensures Reassembly.AllPlaceable(s, cs + [c])
    ensures Reassembly.PlaceAll(s, cs + [c]) == Reassembly.Place(Reassembly.PlaceAll(s, cs), c)
    decreases |cs|
  {
    if cs == [] {
      assert (cs + [c])[1..] == [];
    } else {
      assert (cs + [c])[1..] == cs[1..] + [c];
      PlaceOneMore(Reassembly.Place(s, cs[0]), cs[1..], c);
    }
  }

  /**
   Refinement: after any arrivals of one burst, in any order, repeated, corrupted or not, over any paths, the
   tracker reports the byte count and the completeness that a Reassembler fed the uncorrupted ones would.
   */
  lemma TrackerAgreesWithReassembler(events: seq<Arrival>, payload: seq<Byte>, size: U32, id: U64, slots: seq<nat>)
    requires size > 0 && 0 < |payload| < Reassembly.INT_LIMIT
    requires events != []
    requires |slots| == |events| && forall j | 0 <= j < |events| :: Brings(events[j], payload, size, id, slots[j])
    ensures
      var empty := Reassembly.Empty(|payload|, size, Reassembly.ChunkCount(|payload|, size));
      var m := WriteAll(map[], events);
      && Reassembly.AllPlaceable(empty, Good(events))
      && var s := Reassembly.PlaceAll(empty, Good(events));
      && id in m
      && m[id].bytesReceived == s.receivedBytes
      && m[id].bytesReceived <= m[id].bytesExpected
      && StatsOf(id, m[id]).complete == (s.remaining == 0)
      && (StatsOf(id, m[id]).complete ==> s.buf == payload)
  {
    var got := ProgressAgrees(events, payload, size, id, slots);
    Reassembly.Completion(payload, size, got);
    assert events[|events| - 1].chunk.burstId == id;
  }
}
