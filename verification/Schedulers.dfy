/** The three schedulers: what each call chooses, and what their choices add up to over whole runs. */
module Schedulers {
  import opened Bytes

  /** rtt is the path's last known round-trip time; not positive when unknown. */
  datatype PathInfo = PathInfo(index: nat, rtt: int)

  datatype Kind = RoundRobinKind | RedundantKind | RttAwareKind

  // ---- What a call chooses ----

  predicate Measured(p: PathInfo) {
    p.rtt > 0
  }

  /** Position k is the leftmost of those with the least positive round-trip time. */
  predicate IsBest(paths: seq<PathInfo>, k: nat) {
    && k < |paths| && Measured(paths[k])
    && forall j | 0 <= j < |paths| && Measured(paths[j]) ::
      paths[k].rtt <= paths[j].rtt && (j < k ==> paths[k].rtt < paths[j].rtt)
  }

  predicate NoneMeasured(paths: seq<PathInfo>) {
    forall j | 0 <= j < |paths| :: !Measured(paths[j])
  }

  function Indices(paths: seq<PathInfo>): (r: seq<nat>)
    ensures |r| == |paths|
  {
    seq(|paths|, i requires 0 <= i < |paths| => paths[i].index)
  }

  function NextTurn(n: U64): U64 {
    (n + 1) % U64_LIMIT
  }

  /** idxs and the next counter value are what a scheduler of the given kind and counter may answer. */
  ghost predicate Chooses(kind: Kind, n: U64, paths: seq<PathInfo>, idxs: seq<nat>, next: U64) {
    if kind.RedundantKind? then idxs == Indices(paths) && next == n
    else if paths == [] then idxs == [] && next == n
    else if kind.RttAwareKind? && !NoneMeasured(paths) then
      next == n && exists k: nat :: IsBest(paths, k) && idxs == [paths[k].index]
    else idxs == [paths[n % |paths|].index] && next == NextTurn(n)
  }

  class RoundRobin {
    var n: U64

    constructor ()
      ensures n == 0
    {
      n := 0;
    }

    method Assign(chunkSeq: U64, paths: seq<PathInfo>) returns (idxs: seq<nat>)
      modifies this
      ensures Chooses(RoundRobinKind, old(n), paths, idxs, n)
      ensures if paths == [] then idxs == [] && n == old(n)
              else idxs == [paths[old(n) % |paths|].index] && n == (old(n) + 1) % 0x1_0000_0000_0000_0000
    {
      if |paths| == 0 {
        return [];
      }
      var idx := n % |paths|;
      n := (n + 1) % U64_LIMIT;
      idxs := [paths[idx].index];
    }
  }

  class Redundant {
    constructor () {
    }

    method Assign(chunkSeq: U64, paths: seq<PathInfo>) returns (idxs: seq<nat>)
      ensures forall n: U64 :: Chooses(RedundantKind, n, paths, idxs, n)
      ensures |idxs| == |paths| && forall i | 0 <= i < |paths| :: idxs[i] == paths[i].index
    {
      var filled := new nat[|paths|];
      for i := 0 to |paths|
        invariant forall j | 0 <= j < i :: filled[j] == paths[j].index
      {
        filled[i] := paths[i].index;
      }
      idxs := filled[..];
      assert idxs == Indices(paths);
    }
  }

  class RttAware {
    const fallback: RoundRobin

    constructor ()
      ensures fresh(fallback) && fallback.n == 0
    {
      fallback := new RoundRobin();
    }

    method Assign(chunkSeq: U64, paths: seq<PathInfo>) returns (idxs: seq<nat>)
      modifies fallback
      ensures Chooses(RttAwareKind, old(fallback.n), paths, idxs, fallback.n)
    {
      if |paths| == 0 {
        return [];
      }
      var best: int := -1;
      var bestRtt := 0;
      ghost var at: nat := 0;
      for i := 0 to |paths|
        invariant best == -1 ==> NoneMeasured(paths[..i])
        invariant best != -1 ==> IsBest(paths[..i], at) && best == paths[at].index && bestRtt == paths[at].rtt
      {
        if paths[i].rtt > 0 {
          if best == -1 || paths[i].rtt < bestRtt {
            best, bestRtt, at := paths[i].index, paths[i].rtt, i;
          }
        }
      }
      assert paths[..|paths|] == paths;
      if best == -1 {
        idxs := fallback.Assign(chunkSeq, paths);
      } else {
        assert Measured(paths[at]);
        idxs := [best];
      }
    }
  }

  /** At most one position is best, and there is one as soon as any path is measured. */
  lemma BestIsUnique(paths: seq<PathInfo>, k: nat, j: nat)
    requires IsBest(paths, k) && IsBest(paths, j)
    ensures k == j
  {
  }

  /**
   What an answer is, written out. The rtt-aware one names the path of position k, which is measured, and no measured
   path has a shorter round-trip time, nor one before it an equal one; it falls back only if none is measured.
   */
  lemma AnswerSays(kind: Kind, n: U64, paths: seq<PathInfo>, idxs: seq<nat>, next: U64) returns (k: nat)
    requires Chooses(kind, n, paths, idxs, next)
    ensures paths == [] ==> idxs == [] && next == n
    ensures kind.RedundantKind? ==>
              next == n && |idxs| == |paths| && forall i | 0 <= i < |paths| :: idxs[i] == paths[i].index
    ensures paths != [] && !kind.RedundantKind?
            && (kind.RttAwareKind? ==> forall j | 0 <= j < |paths| :: paths[j].rtt <= 0) ==>
              idxs == [paths[n % |paths|].index] && next == (n + 1) % 0x1_0000_0000_0000_0000
    ensures kind.RttAwareKind? && (exists j | 0 <= j < |paths| :: paths[j].rtt > 0) ==>
              && next == n && k < |paths| && idxs == [paths[k].index] && paths[k].rtt > 0
              && (forall j | 0 <= j < |paths| && paths[j].rtt > 0 :: paths[k].rtt <= paths[j].rtt)
              && (forall j | 0 <= j < k && paths[j].rtt > 0 :: paths[k].rtt < paths[j].rtt)
  {
    k := 0;
    if kind.RttAwareKind? && paths != [] && !NoneMeasured(paths) {
      k :| IsBest(paths, k) && idxs == [paths[k].index];
      assert Measured(paths[k]);
      forall j | 0 <= j < |paths| && paths[j].rtt > 0
        ensures paths[k].rtt <= paths[j].rtt && (j < k ==> paths[k].rtt < paths[j].rtt)
      {
        assert Measured(paths[j]);
      }
    }
  }

  /** A scheduler's answer and next counter are a function of its counter and what it is told. */
  lemma AnswerIsDetermined(kind: Kind, n: U64, paths: seq<PathInfo>, idxs: seq<nat>, next: U64, others: seq<nat>,
                           after: U64)
    requires Chooses(kind, n, paths, idxs, next) && Chooses(kind, n, paths, others, after)
    ensures idxs == others && next == after
  {
    if kind.RttAwareKind? && paths != [] && !NoneMeasured(paths) {
      var k: nat :| IsBest(paths, k) && idxs == [paths[k].index];
      var j: nat :| IsBest(paths, j) && others == [paths[j].index];
      BestIsUnique(paths, k, j);
    }
  }

  lemma {:induction false} BestExists(paths: seq<PathInfo>) returns (k: nat)
    requires !NoneMeasured(paths)
    ensures IsBest(paths, k)
  {
    var init := paths[..|paths| - 1];
    var last := paths[|paths| - 1];
    assert forall j | 0 <= j < |init| :: paths[j] == init[j];
    if NoneMeasured(init) {
      k := |init|;
    } else {
      k := BestExists(init);
      if Measured(last) && last.rtt < init[k].rtt {
        k := |init|;
      }
    }
  }

  /** The copies a scheduler of this kind makes of a chunk, for n paths. */
  function CopiesOf(kind: Kind, n: nat): nat {
    if kind.RedundantKind? || n == 0 then n else 1
  }

  predicate WellIndexed(paths: seq<PathInfo>) {
    forall i | 0 <= i < |paths| :: paths[i].index == i
  }

  /**
   With paths numbered by position, every answer names existing paths, each at most once: one path, or all of them.
   */
  lemma AnswersAreValid(kind: Kind, n: U64, paths: seq<PathInfo>, idxs: seq<nat>, next: U64)
    requires Chooses(kind, n, paths, idxs, next) && WellIndexed(paths) && paths != []
    ensures kind.RedundantKind? ==> idxs == seq(|paths|, i => i)
    ensures !kind.RedundantKind? ==> |idxs| == 1 && idxs[0] < |paths|
  {
    if kind.RedundantKind? {
      assert idxs == seq(|paths|, i => i);
    } else if kind.RttAwareKind? && !NoneMeasured(paths) {
      var k: nat :| IsBest(paths, k) && idxs == [paths[k].index];
    } else {
      assert n % |paths| < |paths|;
    }
  }

  // ---- Rotation over a run ----

  /** The paths that m consecutive round-robin turns choose among count paths, starting with counter n. */
  function Turns(n: U64, m: nat, count: nat): (r: seq<nat>)
    requires count > 0
    ensures |r| == m
    decreases m
  {
    if m == 0 then [] else [n % count] + Turns(NextTurn(n), m - 1, count)
  }

  function Times(s: seq<nat>, p: nat): nat {
    if s == [] then 0 else (if s[0] == p then 1 else 0) + Times(s[1..], p)
  }

  /** Every path has the floor or the ceiling of its share of the turns. */
  predicate Fair(s: seq<nat>, count: nat)
    requires count > 0
  {
    forall p: nat | p < count ::
      Times(s, p) == |s| / count || (|s| % count != 0 && Times(s, p) == |s| / count + 1)
  }

  lemma Distribute(d: nat, x: nat, y: nat)
    ensures d * (x + y) == d * x + d * y
  {
  }

  lemma DivideParts(a: nat, m: nat, d: nat, qa: nat, ra: nat, qm: nat, rm: nat)
    requires a == d * qa + ra && m == d * qm + rm && ra < d && rm < d
    ensures (a + m) / d == qa + qm + if ra + rm >= d then 1 else 0
    ensures (a + m) % d == if ra + rm >= d then ra + rm - d else ra + rm
  {
    Distribute(d, qa, qm);
    if ra + rm >= d {
      Distribute(d, qa + qm, 1);
      DivisionIsUnique(a + m, d, qa + qm + 1, ra + rm - d);
    } else {
      DivisionIsUnique(a + m, d, qa + qm, ra + rm);
    }
  }

  lemma DivideSum(a: nat, m: nat, d: nat)
    requires d > 0
    ensures (a + m) / d == a / d + m / d + if a % d + m % d >= d then 1 else 0
    ensures (a + m) % d == if a % d + m % d >= d then a % d + m % d - d else a % d + m % d
  {
    DivideParts(a, m, d, a / d, a % d, m / d, m % d);
  }

  /** The number of multiples passed: x's of residue p below n + m but not below n. */
  function Passed(n: nat, m: nat, p: nat, count: nat): int
    requires p < count
  {
    (n + m + (count - 1 - p)) / count - (n + (count - 1 - p)) / count
  }

  lemma PassOne(n: nat, m: nat, p: nat, count: nat)
    requires p < count
    ensures Passed(n, m + 1, p, count) == Passed(n + 1, m, p, count) + if n % count == p then 1 else 0
  {
    var a := n + (count - 1 - p);
    DivideSum(a, 1, count);
    DivideSum(n, count - 1 - p, count);
    if count == 1 {
      assert n % count == 0;
    } else {
      DivisionIsUnique(1, count, 0, 1);
      DivisionIsUnique(count - 1 - p, count, 0, count - 1 - p);
    }
  }

  lemma PassNone(n: nat, p: nat, count: nat)
    requires p < count
    ensures Passed(n, 0, p, count) == 0
  {
  }

  lemma OneTurn(n: U64, m: nat, p: nat, count: nat)
    requires p < count && m > 0
    ensures Times(Turns(n, m, count), p) == Times(Turns(NextTurn(n), m - 1, count), p) + if n % count == p then 1 else 0
  {
    hide NextTurn;
    assert Turns(n, m, count)[1..] == Turns(NextTurn(n), m - 1, count);
  }

  /** The next counter value passes what the next number would, wrapped or not. */
  lemma NextPasses(n: U64, m: nat, p: nat, count: nat)
    requires p < count && (n + 1 + m <= U64_LIMIT || U64_LIMIT % count == 0)
    ensures NextTurn(n) + m <= U64_LIMIT || U64_LIMIT % count == 0
    ensures Passed(NextTurn(n), m, p, count) == Passed(n + 1, m, p, count)
  {
    hide Passed;
    if n + 1 == U64_LIMIT {
      if m == 0 {
        PassNone(n + 1, p, count);
        PassNone(0, p, count);
      } else {
        WrapKeepsResidue(m, p, count);
      }
    }
  }

  lemma {:induction false} TurnsPass(n: U64, m: nat, p: nat, count: nat)
    requires p < count
    requires n + m <= U64_LIMIT || U64_LIMIT % count == 0
    ensures Times(Turns(n, m, count), p) == Passed(n, m, p, count)
    decreases m
  {
    hide Passed, NextTurn;
    if m == 0 {
      PassNone(n, p, count);
    } else {
      NextPasses(n, m - 1, p, count);
      TurnsPass(NextTurn(n), m - 1, p, count);
      PassOne(n, m - 1, p, count);
      OneTurn(n, m, p, count);
    }
  }

  /** When the number of paths divides the counter's range, starting over is starting at the same residue. */
  lemma WrapKeepsResidue(m: nat, p: nat, count: nat)
    requires p < count && U64_LIMIT % count == 0
    ensures Passed(U64_LIMIT, m, p, count) == Passed(0, m, p, count)
  {
    DivideSum(U64_LIMIT, m + (count - 1 - p), count);
    DivideSum(U64_LIMIT, count - 1 - p, count);
  }

  lemma PassedIsShare(n: nat, m: nat, p: nat, count: nat)
    requires p < count
    ensures Passed(n, m, p, count) == m / count || (m % count != 0 && Passed(n, m, p, count) == m / count + 1)
  {
    DivideSum(n + (count - 1 - p), m, count);
  }

  /** Any run of turns during which the counter does not wrap, wherever it starts, is fair. */
  lemma WindowIsFair(n: U64, m: nat, count: nat)
    requires count > 0
    requires n + m <= U64_LIMIT || U64_LIMIT % count == 0
    ensures Fair(Turns(n, m, count), count)
  {
    forall p: nat | p < count
      ensures Times(Turns(n, m, count), p) == m / count
              || (m % count != 0 && Times(Turns(n, m, count), p) == m / count + 1)
    {
      TurnsPass(n, m, p, count);
      PassedIsShare(n, m, p, count);
    }
  }

  lemma {:induction false} TurnsAppend(n: U64, m: nat, k: nat, count: nat)
    requires count > 0 && n + m == U64_LIMIT && m > 0
    ensures Turns(n, m + k, count) == Turns(n, m, count) + Turns(0, k, count)
    decreases m
  {
    if m > 1 {
      TurnsAppend(NextTurn(n), m - 1, k, count);
    } else {
      assert Turns(0, 0, count) == [] && Turns(n, 1, count) == [n % count] + Turns(NextTurn(n), 0, count);
    }
  }

  lemma {:induction false} TimesAppend(a: seq<nat>, b: seq<nat>, p: nat)
    ensures Times(a + b, p) == Times(a, p) + Times(b, p)
  {
    if a == [] {
      assert a + b == b;
    } else {
      assert (a + b)[1..] == a[1..] + b;
      TimesAppend(a[1..], b, p);
    }
  }

  /**
   Where the counter wraps, unless the number of paths divides its range, some path is skipped while another is
   served twice.
   */
  lemma WrapIsUnfair(count: nat)
    requires 0 < count < U64_LIMIT && U64_LIMIT % count != 0
    ensures var r := U64_LIMIT % count; !Fair(Turns(U64_LIMIT - r, 2 * r, count), count)
  {
    var r := U64_LIMIT % count;
    var n := U64_LIMIT - r;
    TurnsAppend(n, r, r, count);
    TimesAppend(Turns(n, r, count), Turns(0, r, count), 0);
    TimesAppend(Turns(n, r, count), Turns(0, r, count), count - 1);
    TurnsPass(n, r, 0, count);
    TurnsPass(0, r, 0, count);
    TurnsPass(n, r, count - 1, count);
    TurnsPass(0, r, count - 1, count);
    MultipleResidue(count);
    PassedFromMultiple(n, r, count);
    PassedFromMultiple(0, r, count);
    var s := Turns(n, 2 * r, count);
    assert s == Turns(n, r, count) + Turns(0, r, count);
    assert Times(s, 0) == 2 && Times(s, count - 1) == 0;
    TwoApart(s, count, 0, count - 1);
  }

  /** Fair counts of two paths differ by at most one. */
  lemma TwoApart(s: seq<nat>, count: nat, p: nat, q: nat)
    requires p < count && q < count && Times(s, p) >= Times(s, q) + 2
    ensures !Fair(s, count)
  {
  }

  lemma MultipleResidue(count: nat)
    requires 0 < count
    ensures (U64_LIMIT - U64_LIMIT % count) % count == 0
  {
    DivisionIsUnique(U64_LIMIT - U64_LIMIT % count, count, U64_LIMIT / count, 0);
  }

  lemma PassedFromMultiple(n: nat, r: nat, count: nat)
    requires 0 < r < count && n % count == 0
    ensures Passed(n, r, 0, count) == 1 && Passed(n, r, count - 1, count) == 0
  {
    DivideSum(n, r + (count - 1), count);
    DivideSum(n, count - 1, count);
    DivideSum(n, r, count);
    DivisionIsUnique(count - 1, count, 0, count - 1);
    DivisionIsUnique(r, count, 0, r);
    DivideSum(r, count - 1, count);
  }

  /** Rotation is fair over every run from every counter value if and only if the number of paths divides 2^64. */
  lemma FairEverywhere(count: nat)
    requires 0 < count < U64_LIMIT
    ensures (forall n: U64, m: nat :: Fair(Turns(n, m, count), count)) <==> U64_LIMIT % count == 0
  {
    if U64_LIMIT % count == 0 {
      forall n: U64, m: nat ensures Fair(Turns(n, m, count), count) {
        WindowIsFair(n, m, count);
      }
    } else {
      WrapIsUnfair(count);
      var r := U64_LIMIT % count;
      assert !Fair(Turns(U64_LIMIT - r, 2 * r, count), count);
    }
  }

  // ---- A run of any scheduler ----

  /** One call: what the scheduler was told and what it answered. */
  datatype Call = Call(paths: seq<PathInfo>, idxs: seq<nat>)

  ghost predicate IsRun(kind: Kind, n: U64, calls: seq<Call>, last: U64)
    decreases |calls|
  {
    if calls == [] then last == n
    else
      exists next: U64 ::
        Chooses(kind, n, calls[0].paths, calls[0].idxs, next) && IsRun(kind, next, calls[1..], last)
  }

  lemma {:induction false} RunExtends(kind: Kind, n: U64, calls: seq<Call>, last: U64, c: Call, next: U64)
    requires IsRun(kind, n, calls, last) && Chooses(kind, last, c.paths, c.idxs, next)
    ensures IsRun(kind, n, calls + [c], next)
    decreases |calls|
  {
    hide Chooses;
    if calls == [] {
      assert (calls + [c])[1..] == [] && IsRun(kind, next, [], next);
    } else {
      var after: U64 :| Chooses(kind, n, calls[0].paths, calls[0].idxs, after) && IsRun(kind, after, calls[1..], last);
      assert (calls + [c])[1..] == calls[1..] + [c];
      RunExtends(kind, after, calls[1..], last, c, next);
    }
  }

  /** All paths chosen in a run, in order. */
  function Choices(calls: seq<Call>): seq<nat> {
    if calls == [] then [] else calls[0].idxs + Choices(calls[1..])
  }

  predicate AmongPaths(calls: seq<Call>, count: nat) {
    forall i | 0 <= i < |calls| :: |calls[i].paths| == count && WellIndexed(calls[i].paths)
  }

  lemma OneCall(n: U64, c: Call, next: U64, count: nat)
    requires count > 0 && Chooses(RoundRobinKind, n, c.paths, c.idxs, next) && |c.paths| == count
             && WellIndexed(c.paths)
    ensures c.idxs == [n % count] && next == NextTurn(n)
  {
    assert c.paths[n % count].index == n % count;
  }

  lemma OneMixedCall(n: U64, c: Call, next: U64, count: nat)
    requires count > 0 && Chooses(RttAwareKind, n, c.paths, c.idxs, next) && |c.paths| == count && WellIndexed(c.paths)
    ensures if FellBack(c) then c.idxs == [n % count] && next == NextTurn(n) else next == n
  {
    assert c.paths[n % count].index == n % count;
  }

  /** The choices of a round-robin run are consecutive turns, whatever round-trip times it is told. */
  lemma {:induction false} RoundRobinRotates(n: U64, calls: seq<Call>, last: U64, count: nat)
    requires count > 0 && IsRun(RoundRobinKind, n, calls, last) && AmongPaths(calls, count)
    ensures Choices(calls) == Turns(n, |calls|, count)
    decreases |calls|
  {
    hide Chooses, WellIndexed, NextTurn;
    if calls != [] {
      var next: U64 :| Chooses(RoundRobinKind, n, calls[0].paths, calls[0].idxs, next)
        && IsRun(RoundRobinKind, next, calls[1..], last);
      OneCall(n, calls[0], next, count);
      RoundRobinRotates(next, calls[1..], last, count);
    }
  }

  /** What follows a run's first i calls is itself a run. */
  lemma {:induction false} RunAfter(kind: Kind, n: U64, calls: seq<Call>, last: U64, i: nat) returns (m: U64)
    requires IsRun(kind, n, calls, last) && i <= |calls|
    ensures IsRun(kind, n, calls[..i], m) && IsRun(kind, m, calls[i..], last)
    decreases i
  {
    hide Chooses;
    if i == 0 {
      m := n;
      assert calls[0..] == calls;
    } else {
      var next: U64 :| Chooses(kind, n, calls[0].paths, calls[0].idxs, next) && IsRun(kind, next, calls[1..], last);
      m := RunAfter(kind, next, calls[1..], last, i - 1);
      assert calls[..i][1..] == calls[1..][..i - 1] && calls[1..][i - 1..] == calls[i..];
    }
  }

  lemma {:induction false} RoundRobinCounts(n: U64, calls: seq<Call>, last: U64, count: nat)
    requires count > 0 && IsRun(RoundRobinKind, n, calls, last) && AmongPaths(calls, count) && n + |calls| < U64_LIMIT
    ensures last == n + |calls|
    decreases |calls|
  {
    hide Chooses, WellIndexed;
    if calls != [] {
      var next: U64 :| Chooses(RoundRobinKind, n, calls[0].paths, calls[0].idxs, next)
        && IsRun(RoundRobinKind, next, calls[1..], last);
      OneCall(n, calls[0], next, count);
      RoundRobinCounts(next, calls[1..], last, count);
    }
  }

  /**
   Fair rotation: in every contiguous window of the calls to a new round-robin scheduler, across the bounds of bursts
   too, each path is chosen the floor or the ceiling of its share of times.
   */
  lemma RoundRobinIsFair(calls: seq<Call>, last: U64, count: nat, i: nat, j: nat)
    requires count > 0 && IsRun(RoundRobinKind, 0, calls, last) && AmongPaths(calls, count) && |calls| < U64_LIMIT
    requires i <= j <= |calls|
    ensures Fair(Choices(calls[i..j]), count)
  {
    hide IsRun, Fair, Turns, Choices;
    var m := RunAfter(RoundRobinKind, 0, calls, last, i);
    RoundRobinCounts(0, calls[..i], m, count);
    var end := RunAfter(RoundRobinKind, m, calls[i..], last, j - i);
    assert calls[i..][..j - i] == calls[i..j];
    RoundRobinRotates(m, calls[i..j], end, count);
    WindowIsFair(m, j - i, count);
  }

  predicate FellBack(c: Call) {
    c.paths != [] && NoneMeasured(c.paths)
  }

  /** The paths the fallback chose, in order. */
  function FallbackChoices(calls: seq<Call>): seq<nat> {
    if calls == [] then []
    else (if FellBack(calls[0]) then calls[0].idxs else []) + FallbackChoices(calls[1..])
  }

  /**
   In any run of the rtt-aware scheduler, however measured and unmeasured moments alternate, the fallback's choices
   rotate.
   */
  lemma {:induction false} FallbackRotates(n: U64, calls: seq<Call>, last: U64, count: nat)
    requires count > 0 && IsRun(RttAwareKind, n, calls, last)
    requires AmongPaths(calls, count)
    ensures FallbackChoices(calls) == Turns(n, |FallbackChoices(calls)|, count)
    decreases |calls|
  {
    hide Chooses, WellIndexed, NextTurn, FellBack;
    if calls != [] {
      var next: U64 :| Chooses(RttAwareKind, n, calls[0].paths, calls[0].idxs, next)
        && IsRun(RttAwareKind, next, calls[1..], last);
      OneMixedCall(n, calls[0], next, count);
      FallbackRotates(next, calls[1..], last, count);
      if !FellBack(calls[0]) {
        assert FallbackChoices(calls) == FallbackChoices(calls[1..]);
      }
    }
  }

  /** So they are fair as long as the counter stays within its range. */
  lemma FallbackIsFair(calls: seq<Call>, last: U64, count: nat)
    requires count > 0 && IsRun(RttAwareKind, 0, calls, last) && |calls| <= U64_LIMIT
    requires AmongPaths(calls, count)
    ensures Fair(FallbackChoices(calls), count)
  {
    FallbackRotates(0, calls, last, count);
    FallbacksAreCalls(0, calls, last, count);
    WindowIsFair(0, |FallbackChoices(calls)|, count);
  }

  lemma {:induction false} FallbacksAreCalls(n: U64, calls: seq<Call>, last: U64, count: nat)
    requires count > 0 && IsRun(RttAwareKind, n, calls, last)
    requires AmongPaths(calls, count)
    ensures |FallbackChoices(calls)| <= |calls|
    decreases |calls|
  {
    hide Chooses, WellIndexed, NextTurn, FellBack;
    if calls != [] {
      var next: U64 :| Chooses(RttAwareKind, n, calls[0].paths, calls[0].idxs, next)
        && IsRun(RttAwareKind, next, calls[1..], last);
      OneMixedCall(n, calls[0], next, count);
      FallbacksAreCalls(next, calls[1..], last, count);
    }
  }
}
