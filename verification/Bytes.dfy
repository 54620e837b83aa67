/** Bytes, the source's fixed-width unsigned integers, and sums over sequences. */
module Bytes {

  type Byte = b: nat | b < 256

  const U16_LIMIT: nat := 0x1_0000
  const U32_LIMIT: nat := 0x1_0000_0000
  const U64_LIMIT: nat := 0x1_0000_0000_0000_0000

  type U32 = n: nat | n < U32_LIMIT
  type U64 = n: nat | n < U64_LIMIT

  /** The sum of the lengths of the members of ss. */
  function TotalLength<T>(ss: seq<seq<T>>): (r: nat) {
    if ss == [] then 0 else |ss[0]| + TotalLength(ss[1..])
  }

  function Flatten<T>(ss: seq<seq<T>>): (r: seq<T>)
    ensures |r| == TotalLength(ss)
  {
    if ss == [] then [] else ss[0] + Flatten(ss[1..])
  }

  lemma {:induction false} FlattenAppend<T>(ss: seq<seq<T>>, ts: seq<seq<T>>)
    ensures Flatten(ss + ts) == Flatten(ss) + Flatten(ts)
  {
    if ss == [] {
      assert ss + ts == ts;
    } else {
      assert (ss + ts)[1..] == ss[1..] + ts;
      FlattenAppend(ss[1..], ts);
    }
  }

  function ToSet<T>(s: seq<T>): set<T> {
    set x | x in s
  }

  lemma AppendAssociative<T>(a: seq<T>, b: seq<T>, c: seq<T>)
    ensures (a + b) + c == a + (b + c)
  {
  }

  lemma AppendNothing<T>(a: seq<T>)
    ensures a + [] == a && [] + a == a
  {
  }

  lemma Multiples(m: nat, d: int)
    ensures d >= 1 ==> m * d >= m
    ensures d <= -1 ==> m * d <= 0 - m
  {
  }

  lemma OnlyOnce(n: nat, d: nat)
    requires d > 0
    ensures n * d == d <==> n == 1
  {
    if n != 1 {
      Multiples(d, n - 1);
      assert n * d == d + d * (n - 1);
    }
  }

  lemma DivisionIsUnique(n: nat, m: nat, q: nat, r: nat)
    requires n == m * q + r && r < m
    ensures n / m == q && n % m == r
  {
    var d := n / m - q;
    Multiples(m, d);
    assert m * (n / m) == m * q + m * d;
    assert m * d == r - n % m;
  }

  /** The natural numbers below n. */
  function Below(n: nat): (r: set<nat>)
    ensures forall i: nat :: i in r <==> i < n
    ensures |r| == n
  {
    if n == 0 then {} else Below(n - 1) + {n - 1}
  }

  lemma AllOrFewer(n: nat, got: set<nat>)
    requires got <= Below(n)
    ensures |got| <= n
    ensures |got| == n <==> got == Below(n)
  {
    assert Below(n) == got + (Below(n) - got);
    assert |Below(n)| == |got| + |Below(n) - got|;
  }
}
