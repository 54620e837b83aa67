/**
 The bytes a burst credits to each path. Totals ignore the order of arrival; a path's credit does so exactly when no
 chunk with data comes uncorrupted over two paths. A scheduler that makes no copies guarantees that.
 */
module Credit {
  import opened Bytes
  import opened Chunks
  import opened Sums
  import opened Bursts
  import opened Schedulers

  /** No chunk with data has come uncorrupted over two different paths. */
  predicate OnePathEach(h: seq<Arrival>) {
    forall i, j | 0 <= i < |h| && 0 <= j < |h| :: !Race(h[i], h[j])
  }

  /** Two arrivals that compete for the credit of one chunk. */
  predicate Race(a: Arrival, b: Arrival) {
    && !a.corrupted && !b.corrupted && a.chunk.number == b.chunk.number && a.path != b.path
    && |a.chunk.data| > 0
  }

  /** The order of these arrivals does not matter for any path's credit. */
  ghost predicate CreditIgnoresOrder(h: seq<Arrival>) {
    forall g: seq<Arrival>, p: nat | multiset(g) == multiset(h) :: Credited(g, OnPath(p)) == Credited(h, OnPath(p))
  }

  // ---- Without a race the credit is a sum over the numbers seen on the path ----

  function SeenOn(h: seq<Arrival>, p: nat): set<U64> {
    set i | 0 <= i < |h| && !h[i].corrupted && h[i].path == p :: h[i].chunk.number
  }

  lemma SeenOnExtends(h: seq<Arrival>, a: Arrival, p: nat)
    ensures SeenOn(h + [a], p) == if a.corrupted || a.path != p then SeenOn(h, p) else SeenOn(h, p) + {a.chunk.number}
  {
    var g := h + [a];
    assert forall i | 0 <= i < |h| :: g[i] == h[i];
    assert g[|h|] == a;
    forall x | x in SeenOn(h, p) ensures x in SeenOn(g, p) {
      var i :| 0 <= i < |h| && !h[i].corrupted && h[i].path == p && h[i].chunk.number == x;
      assert g[i] == h[i];
    }
  }

  lemma SeenOnIsSeen(h: seq<Arrival>, p: nat)
    ensures SeenOn(h, p) <= Seen(h)
  {
  }

  /** A number that has been seen was seen on some path. */
  lemma SeenSomewhere(h: seq<Arrival>, x: U64) returns (i: nat)
    requires x in Seen(h)
    ensures i < |h| && !h[i].corrupted && h[i].chunk.number == x && x in SeenOn(h, h[i].path)
  {
    i :| 0 <= i < |h| && !h[i].corrupted && h[i].chunk.number == x;
  }

  lemma PrefixIsFine(h: seq<Arrival>, lengths: map<U64, nat>, burstBytes: nat)
    requires h != [] && Consistent(h, lengths, burstBytes) && OnePathEach(h)
    ensures Consistent(h[..|h| - 1], lengths, burstBytes) && OnePathEach(h[..|h| - 1])
  {
    var init := h[..|h| - 1];
    forall i, j | 0 <= i < |init| && 0 <= j < |init| ensures !Race(init[i], init[j]) {
      assert init[i] == h[i] && init[j] == h[j];
    }
  }

  /** One more arrival credits its path with its number's length if the number is new to the path, and else nothing. */
  lemma CreditsNewNumber(h: seq<Arrival>, a: Arrival, lengths: map<U64, nat>, burstBytes: nat)
    requires Consistent(h + [a], lengths, burstBytes) && OnePathEach(h + [a]) && !a.corrupted
    ensures a.chunk.number in lengths && lengths[a.chunk.number] == |a.chunk.data|
    ensures a.chunk.number !in Seen(h) ==> a.chunk.number !in SeenOn(h, a.path)
    ensures a.chunk.number in Seen(h) ==> a.chunk.number in SeenOn(h, a.path) || |a.chunk.data| == 0
  {
    var g := h + [a];
    assert g[|h|] == a && a in g;
    SeenOnIsSeen(h, a.path);
    if a.chunk.number in Seen(h) {
      var i := SeenSomewhere(h, a.chunk.number);
      assert g[i] == h[i] && !Race(g[|h|], g[i]);
    }
  }

  lemma {:induction false} CreditIsSumOfSeenOn(h: seq<Arrival>, p: nat, lengths: map<U64, nat>, burstBytes: nat)
    requires Consistent(h, lengths, burstBytes) && OnePathEach(h)
    ensures SeenOn(h, p) <= lengths.Keys
    ensures Credited(h, OnPath(p)) == SumValues(LengthsOf(SeenOn(h, p), lengths))
  {
    if h == [] {
      assert LengthsOf(SeenOn(h, p), lengths) == map[];
    } else {
      var init, a := h[..|h| - 1], h[|h| - 1];
      assert h == init + [a];
      PrefixIsFine(h, lengths, burstBytes);
      CreditIsSumOfSeenOn(init, p, lengths, burstBytes);
      CountsExtend(init, a, OnPath(p));
      SeenOnExtends(init, a, p);
      if !a.corrupted && a.path == p {
        CreditsNewNumber(init, a, lengths, burstBytes);
        SumOneMore(SeenOn(init, p), a.chunk.number, lengths);
      }
    }
  }

  lemma SumOneMore(seen: set<U64>, x: U64, lengths: map<U64, nat>)
    requires seen <= lengths.Keys && x in lengths
    ensures SumValues(LengthsOf(seen + {x}, lengths)) ==
            SumValues(LengthsOf(seen, lengths)) + if x in seen then 0 else lengths[x]
  {
    if x in seen {
      assert seen + {x} == seen;
    } else {
      SumAdd(LengthsOf(seen, lengths), x, lengths[x]);
      assert LengthsOf(seen + {x}, lengths) == LengthsOf(seen, lengths)[x := lengths[x]];
    }
  }

  lemma SameMembers(h: seq<Arrival>, g: seq<Arrival>)
    requires multiset(g) == multiset(h)
    ensures forall a :: a in h <==> a in g
  {
    forall a ensures a in h <==> a in g {
      assert a in multiset(h) <==> a in multiset(g);
    }
  }

  lemma SeenOnIsOfMembers(h: seq<Arrival>, g: seq<Arrival>, p: nat)
    requires forall a :: a in h <==> a in g
    ensures SeenOn(h, p) == SeenOn(g, p)
  {
    forall x ensures x in SeenOn(h, p) <==> exists a :: a in h && !a.corrupted && a.path == p && a.chunk.number == x {}
    forall x ensures x in SeenOn(g, p) <==> exists a :: a in g && !a.corrupted && a.path == p && a.chunk.number == x {}
  }

  lemma NoRaceInOrder(h: seq<Arrival>, g: seq<Arrival>)
    requires OnePathEach(h) && forall a :: a in h <==> a in g
    ensures OnePathEach(g)
  {
    forall i, j | 0 <= i < |g| && 0 <= j < |g| ensures !Race(g[i], g[j]) {
      assert g[i] in g && g[j] in g;
      var k :| 0 <= k < |h| && h[k] == g[i];
      var l :| 0 <= l < |h| && h[l] == g[j];
      assert !Race(h[k], h[l]);
    }
  }

  lemma NoRaceNoOrder(h: seq<Arrival>, lengths: map<U64, nat>, burstBytes: nat)
    requires Consistent(h, lengths, burstBytes) && OnePathEach(h)
    ensures CreditIgnoresOrder(h)
  {
    forall g: seq<Arrival>, p: nat | multiset(g) == multiset(h)
      ensures Credited(g, OnPath(p)) == Credited(h, OnPath(p)) {
      SameMembers(h, g);
      NoRaceInOrder(h, g);
      SeenOnIsOfMembers(h, g, p);
      CreditIsSumOfSeenOn(h, p, lengths, burstBytes);
      CreditIsSumOfSeenOn(g, p, lengths, burstBytes);
    }
  }

  // ---- With a race the credit goes to whoever comes first ----

  /** What follows credits the same after any two beginnings that have seen the same. */
  lemma {:induction false} SameCreditAfter(u: seq<Arrival>, v: seq<Arrival>, rest: seq<Arrival>, s: Selector)
    requires Seen(u) == Seen(v)
    ensures Seen(u + rest) == Seen(v + rest)
    ensures Credited(u + rest, s) - Credited(u, s) == Credited(v + rest, s) - Credited(v, s)
    decreases |rest|
  {
    if rest == [] {
      AppendNothing(u);
      AppendNothing(v);
    } else {
      var init, a := rest[..|rest| - 1], rest[|rest| - 1];
      SameCreditAfter(u, v, init, s);
      assert rest == init + [a];
      AppendAssociative(u, init, [a]);
      AppendAssociative(v, init, [a]);
      CountsExtend(u + init, a, s);
      CountsExtend(v + init, a, s);
      SeenExtends(u + init, a);
      SeenExtends(v + init, a);
    }
  }

  /** The first of two racing arrivals has the credit. */
  lemma FirstHasCredit(a: Arrival, b: Arrival)
    requires Race(a, b)
    ensures Credited([a, b], OnPath(a.path)) == |a.chunk.data|
    ensures Credited([b, a], OnPath(a.path)) == 0
    ensures Seen([a, b]) == Seen([b, a])
  {
    Twice(a, b);
    Twice(b, a);
  }

  lemma Twice(a: Arrival, b: Arrival)
    requires !a.corrupted && !b.corrupted && a.chunk.number == b.chunk.number && a.path != b.path
    ensures Seen([a, b]) == {a.chunk.number}
    ensures Credited([a, b], OnPath(a.path)) == |a.chunk.data|
    ensures Credited([a, b], OnPath(b.path)) == 0
  {
    assert [] + [a] == [a] && [a] + [b] == [a, b] && Seen([]) == {};
    SeenExtends([], a);
    SeenExtends([a], b);
    CountsExtend([], a, OnPath(a.path));
    CountsExtend([a], b, OnPath(a.path));
    CountsExtend([], a, OnPath(b.path));
    CountsExtend([a], b, OnPath(b.path));
  }

  function Without(h: seq<Arrival>, i: nat): seq<Arrival>
    requires i < |h|
  {
    h[..i] + h[i + 1..]
  }

  lemma TakenToFront(h: seq<Arrival>, i: nat)
    requires i < |h|
    ensures multiset(h) == multiset([h[i]] + Without(h, i))
  {
    assert h == h[..i] + [h[i]] + h[i + 1..];
  }

  /** Any two arrivals can be brought to the front, in either order. */
  lemma TwoToFront(h: seq<Arrival>, i: nat, j: nat) returns (rest: seq<Arrival>)
    requires i < j < |h|
    ensures multiset([h[i], h[j]] + rest) == multiset(h) == multiset([h[j], h[i]] + rest)
  {
    var g := Without(h, i);
    DropBefore(h, i, j);
    rest := Without(g, j - 1);
    TakenToFront(h, i);
    TakenToFront(g, j - 1);
    InTwoSteps(h[i], h[j], g, rest);
  }

  lemma DropBefore(h: seq<Arrival>, i: nat, j: nat)
    requires i < j < |h|
    ensures |Without(h, i)| == |h| - 1 && Without(h, i)[j - 1] == h[j]
  {
  }

  lemma InTwoSteps<T>(a: T, b: T, g: seq<T>, rest: seq<T>)
    requires multiset(g) == multiset([b] + rest)
    ensures multiset([a, b] + rest) == multiset([a] + g) == multiset([b, a] + rest)
  {
    assert [a, b] + rest == [a] + ([b] + rest);
    assert [b, a] + rest == [b] + ([a] + rest);
  }

  lemma RaceNeedsOrder(h: seq<Arrival>, i: nat, j: nat)
    requires i < j < |h| && Race(h[i], h[j])
    ensures !CreditIgnoresOrder(h)
  {
    var a, b := h[i], h[j];
    var rest := TwoToFront(h, i, j);
    FirstHasCredit(a, b);
    SameCreditAfter([a, b], [b, a], rest, OnPath(a.path));
    assert Credited([a, b] + rest, OnPath(a.path)) != Credited([b, a] + rest, OnPath(a.path));
  }

  /**
   Reordering the arrivals of a burst never changes what any path is credited with if and only if no chunk with data
   came uncorrupted over two different paths.
   */
  lemma CreditIgnoresOrderIff(h: seq<Arrival>, lengths: map<U64, nat>, burstBytes: nat)
    requires Consistent(h, lengths, burstBytes)
    ensures CreditIgnoresOrder(h) <==> OnePathEach(h)
  {
    if OnePathEach(h) {
      NoRaceNoOrder(h, lengths, burstBytes);
    } else {
      var i, j :| 0 <= i < |h| && 0 <= j < |h| && Race(h[i], h[j]);
      assert i != j;
      assert h[i] in h && h[j] in h;
      if i < j {
        RaceNeedsOrder(h, i, j);
      } else {
        RaceNeedsOrder(h, j, i);
      }
    }
  }

  /** It can happen: two copies of a chunk with data, over two paths, and whoever brings it first has the credit. */
  lemma CreditDependsOnOrder(c: Chunk)
    requires |c.data| > 0
    ensures
      var a, b := Arrival(c, false, 0, 0), Arrival(c, false, 1, 0);
      && multiset([a, b]) == multiset([b, a])
      && Summary([a, b]).perPath[0].bytesReceived != Summary([b, a]).perPath[0].bytesReceived
  {
    var a, b := Arrival(c, false, 0, 0), Arrival(c, false, 1, 0);
    FirstHasCredit(a, b);
    assert [a, b][0].path in PathsOf([a, b]) && [b, a][1].path in PathsOf([b, a]);
  }

  // ---- Schedulers ----

  /** Every chunk came only over paths it was assigned to: chunk k of the burst by the k-th of the calls. */
  predicate AsAssigned(h: seq<Arrival>, calls: seq<Call>) {
    forall i | 0 <= i < |h| :: h[i].chunk.number < |calls| && h[i].path in calls[h[i].chunk.number].idxs
  }

  lemma {:induction false} OneAnswerEach(kind: Kind, n: U64, calls: seq<Call>, last: U64, count: nat, k: nat)
    requires !kind.RedundantKind? && IsRun(kind, n, calls, last) && AmongPaths(calls, count) && k < |calls|
    ensures |calls[k].idxs| <= 1
    decreases k
  {
    var next: U64 :| Chooses(kind, n, calls[0].paths, calls[0].idxs, next) && IsRun(kind, next, calls[1..], last);
    if k > 0 {
      OneAnswerEach(kind, next, calls[1..], last, count, k - 1);
    }
  }

  /** Under a scheduler that makes no copies a path's credit does not depend on the order of arrival. */
  lemma NoCopiesNoRace(h: seq<Arrival>, lengths: map<U64, nat>, burstBytes: nat,
                       kind: Kind, n: U64, calls: seq<Call>, last: U64, count: nat)
    requires Consistent(h, lengths, burstBytes) && AsAssigned(h, calls)
    requires !kind.RedundantKind? && IsRun(kind, n, calls, last) && AmongPaths(calls, count)
    ensures CreditIgnoresOrder(h)
  {
    forall i, j | 0 <= i < |h| && 0 <= j < |h| ensures !Race(h[i], h[j]) {
      OneAnswerEach(kind, n, calls, last, count, h[i].chunk.number);
    }
    CreditIgnoresOrderIff(h, lengths, burstBytes);
  }
}
