/**
 Splitting a payload into chunks and putting it together again. The assembled state is shown to depend on
 nothing but the set of distinct chunks written: not on their order, their repetition or the path they took.
 */
module Reassembly {
  import opened Bytes
  import opened Chunks

  // ---- Splitting ----

  /** Chunk size 0 stands for the whole length, converted to 32 bits. */
  function EffectiveSize(length: nat, chunkSize: U32): U32 {
    if chunkSize == 0 then length % U32_LIMIT else chunkSize
  }

  /** The number of chunks of the given size that cover a length: the quotient rounded up. */
  function ChunkCount(length: nat, size: nat): nat
    requires size > 0
  {
    length / size + if length % size == 0 then 0 else 1
  }

  function SlotEnd(length: nat, size: nat, i: nat): nat {
    if (i + 1) * size <= length then (i + 1) * size else length
  }

  lemma SlotBounds(length: nat, size: nat, i: nat)
    requires size > 0 && i < ChunkCount(length, size)
    ensures i * size < SlotEnd(length, size, i) <= length
    ensures SlotEnd(length, size, i) <= i * size + size
    ensures i + 1 < ChunkCount(length, size) ==> SlotEnd(length, size, i) == (i + 1) * size
  {
    var q := length / size;
    assert length == q * size + length % size;
    assert (i + 1) * size == i * size + size;
    if i < q {
      MulMonotone(i + 1, q, size);
    }
  }

  lemma MulMonotone(a: nat, b: nat, m: nat)
    requires a <= b
    ensures a * m <= b * m
  {
  }

  /** The bytes the i-th chunk of the payload carries. */
  function Slot(payload: seq<Byte>, size: nat, i: nat): (r: seq<Byte>)
    requires size > 0 && i < ChunkCount(|payload|, size)
    ensures 0 < |r| == SlotEnd(|payload|, size, i) - i * size <= size
    ensures i + 1 < ChunkCount(|payload|, size) ==> |r| == size
  {
    SlotBounds(|payload|, size, i);
    assert (i + 1) * size == i * size + size;
    payload[i * size..SlotEnd(|payload|, size, i)]
  }

  /** The chunk holds what Split puts in slot i: the right bytes at the right offset. */
  ghost predicate IsSlot(c: Chunk, payload: seq<Byte>, size: nat, i: nat)
    requires size > 0
  {
    i < ChunkCount(|payload|, size) && c.offset == i * size && c.data == Slot(payload, size, i)
  }

  predicate IsSplit(chunks: seq<Chunk>, data: seq<Byte>, size: nat, burstId: U64, burstBytes: U64)
    requires size > 0
  {
    && |chunks| == ChunkCount(|data|, size)
    && forall i | 0 <= i < |chunks| ::
         && chunks[i].number == i && chunks[i].offset == i * size
         && chunks[i].burstId == burstId && chunks[i].burstBytes == burstBytes
         && chunks[i].checksum == 0
         && chunks[i].data == Slot(data, size, i)
  }

  /** The loop steps by the effective size, so it needs that size to be positive unless there is nothing to split. */
  method Split(data: seq<Byte>, chunkSize: U32, burstId: U64, burstBytes: U64) returns (chunks: seq<Chunk>)
    requires |data| < U64_LIMIT
    requires data != [] ==> EffectiveSize(|data|, chunkSize) > 0
    ensures data == [] ==> chunks == []
    ensures data != [] ==> IsSplit(chunks, data, EffectiveSize(|data|, chunkSize), burstId, burstBytes)
    ensures forall i | 0 <= i < |chunks| ::
              && chunks[i].number == i && chunks[i].burstId == burstId && chunks[i].burstBytes == burstBytes
              && chunks[i].offset + |chunks[i].data| <= |data|
              && chunks[i].data == data[chunks[i].offset..chunks[i].offset + |chunks[i].data|]
    ensures chunkSize > 0 ==>
              && (|data| > 0 ==> (|chunks| - 1) * chunkSize < |data| <= |chunks| * chunkSize)
              && forall i | 0 <= i < |chunks| ::
                   && chunks[i].offset == i * chunkSize
                   && 0 < |chunks[i].data| <= chunkSize && (i + 1 < |chunks| ==> |chunks[i].data| == chunkSize)
    ensures chunkSize == 0 && 0 < |data| < 0x1_0000_0000 ==>
              |chunks| == 1 && chunks[0].offset == 0 && chunks[0].data == data
  {
    hide IsSplit;
    chunks := SplitEvery(data, if chunkSize == 0 then |data| % U32_LIMIT else chunkSize, burstId, burstBytes);
    if data != [] {
      SplitSizes(chunks, data, chunkSize, burstId, burstBytes);
    }
  }

  /** The loop, once the size it steps by is known. */
  method SplitEvery(data: seq<Byte>, size: nat, burstId: U64, burstBytes: U64) returns (chunks: seq<Chunk>)
    requires |data| < U64_LIMIT
    requires data != [] ==> 0 < size < U32_LIMIT
    ensures data == [] ==> chunks == []
    ensures data != [] ==> IsSplit(chunks, data, size, burstId, burstBytes)
  {
    chunks := [];
    var offset, number := 0, 0;
    while offset < |data|
      invariant number == |chunks|
      invariant data != [] ==> 0 <= number <= ChunkCount(|data|, size) && offset == number * size
      invariant data == [] ==> chunks == []
      invariant data != [] ==> forall i | 0 <= i < number ::
                    && chunks[i].number == i && chunks[i].offset == i * size
                    && chunks[i].burstId == burstId && chunks[i].burstBytes == burstBytes
                    && chunks[i].checksum == 0
                    && chunks[i].data == Slot(data, size, i)
      decreases |data| - offset
    {
      CoversMore(|data|, size, number);
      SlotBounds(|data|, size, number);
      assert (number + 1) * size == offset + size;
      var end := offset + size;
      if end > |data| { end := |data|; }
      chunks := chunks + [Chunk(number, offset, burstId, burstBytes, 0, data[offset..end])];
      number := number + 1;
      offset := offset + size;
    }
    if data != [] {
      CoversAll(|data|, size, number);
    }
  }

  /** What a split is, in terms of the chunk size asked for. */
  lemma SplitSizes(chunks: seq<Chunk>, data: seq<Byte>, chunkSize: U32, burstId: U64, burstBytes: U64)
    requires data != [] && EffectiveSize(|data|, chunkSize) > 0
    requires IsSplit(chunks, data, EffectiveSize(|data|, chunkSize), burstId, burstBytes)
    ensures forall i | 0 <= i < |chunks| ::
              && chunks[i].offset + |chunks[i].data| <= |data|
              && chunks[i].data == data[chunks[i].offset..chunks[i].offset + |chunks[i].data|]
    ensures chunkSize > 0 ==>
              && (|chunks| - 1) * chunkSize < |data| <= |chunks| * chunkSize
              && forall i | 0 <= i < |chunks| ::
                   && chunks[i].offset == i * chunkSize
                   && 0 < |chunks[i].data| <= chunkSize && (i + 1 < |chunks| ==> |chunks[i].data| == chunkSize)
    ensures chunkSize == 0 && 0 < |data| < 0x1_0000_0000 ==>
              |chunks| == 1 && chunks[0].offset == 0 && chunks[0].data == data
  {
    var size := EffectiveSize(|data|, chunkSize);
    LastSlotEnds(|data|, size);
    SlotBounds(|data|, size, |chunks| - 1);
    CountCovers(|data|, size);
    forall i | 0 <= i < |chunks|
      ensures
        && chunks[i].offset + |chunks[i].data| <= |data|
        && chunks[i].data == data[chunks[i].offset..chunks[i].offset + |chunks[i].data|]
    {
      SlotIsSlice(data, size, i);
    }
    if chunkSize == 0 && |data| < U32_LIMIT {
      WholeIsOneSlot(data);
    }
  }

  lemma SlotIsSlice(data: seq<Byte>, size: nat, i: nat)
    requires size > 0 && i < ChunkCount(|data|, size)
    ensures
      var r := Slot(data, size, i);
      i * size + |r| <= |data| && r == data[i * size..i * size + |r|]
  {
    SlotBounds(|data|, size, i);
  }

  lemma WholeIsOneSlot(data: seq<Byte>)
    requires data != []
    ensures ChunkCount(|data|, |data|) == 1 && Slot(data, |data|, 0) == data
  {
    DivisionIsUnique(|data|, |data|, 1, 0);
  }

  lemma CoversMore(length: nat, size: nat, i: nat)
    requires size > 0 && i * size < length
    ensures i < ChunkCount(length, size)
  {
    if i >= ChunkCount(length, size) {
      MulMonotone(ChunkCount(length, size), i, size);
      CountCovers(length, size);
    }
  }

  lemma CountCovers(length: nat, size: nat)
    requires size > 0
    ensures ChunkCount(length, size) * size >= length
  {
    assert length == (length / size) * size + length % size;
    assert (length / size + 1) * size == (length / size) * size + size;
  }

  lemma CoversAll(length: nat, size: nat, i: nat)
    requires size > 0 && i * size >= length && i <= ChunkCount(length, size)
    ensures i == ChunkCount(length, size)
  {
    if i < ChunkCount(length, size) {
      SlotBounds(length, size, i);
    }
  }

  /** The offsets Split's loop has gone through so far: it goes on only from an offset within the data. */
  predicate IsLoop(offsets: seq<nat>, length: nat, chunkSize: U32) {
    && |offsets| > 0 && offsets[0] == 0
    && forall i | 0 <= i < |offsets| - 1 ::
         offsets[i] < length && offsets[i + 1] == offsets[i] + EffectiveSize(length, chunkSize)
  }

  predicate HasEnded(offsets: seq<nat>, length: nat, chunkSize: U32) {
    IsLoop(offsets, length, chunkSize) && offsets[|offsets| - 1] >= length
  }

  lemma {:induction false} StuckAtZero(offsets: seq<nat>, length: nat, chunkSize: U32, i: nat)
    requires IsLoop(offsets, length, chunkSize) && EffectiveSize(length, chunkSize) == 0 && i < |offsets|
    ensures offsets[i] == 0
  {
    if i > 0 {
      StuckAtZero(offsets, length, chunkSize, i - 1);
    }
  }

  function Multiplied(size: nat, n: nat): (r: seq<nat>)
    ensures |r| == n && forall i | 0 <= i < n :: r[i] == i * size
  {
    seq(n, i requires 0 <= i < n => i * size)
  }

  lemma LoopEnds(length: nat, chunkSize: U32) returns (offsets: seq<nat>)
    requires EffectiveSize(length, chunkSize) > 0
    ensures HasEnded(offsets, length, chunkSize)
  {
    var size := EffectiveSize(length, chunkSize);
    var n := ChunkCount(length, size);
    offsets := Multiplied(size, n + 1);
    CountCovers(length, size);
    forall i | 0 <= i < n ensures offsets[i] < length && offsets[i + 1] == offsets[i] + size {
      SlotBounds(length, size, i);
      assert (i + 1) * size == i * size + size;
    }
  }

  /** Split's loop comes to an end if and only if there is nothing to split or the effective size is positive. */
  lemma SplitTerminates(length: nat, chunkSize: U32)
    ensures (exists offsets: seq<nat> :: HasEnded(offsets, length, chunkSize))
            <==> (length > 0 ==> EffectiveSize(length, chunkSize) > 0)
  {
    if EffectiveSize(length, chunkSize) > 0 {
      var offsets := LoopEnds(length, chunkSize);
    } else if length == 0 {
      assert HasEnded([0], length, chunkSize);
    } else {
      forall offsets: seq<nat> ensures !HasEnded(offsets, length, chunkSize) {
        if IsLoop(offsets, length, chunkSize) {
          StuckAtZero(offsets, length, chunkSize, |offsets| - 1);
        }
      }
    }
  }

  /** With chunk size 0 and 2^32 bytes of data it never does: it goes on from offset 0 for ever. */
  lemma SplitLoopsForever(offsets: seq<nat>)
    requires IsLoop(offsets, U32_LIMIT, 0)
    ensures offsets[|offsets| - 1] == 0 && IsLoop(offsets + [0], U32_LIMIT, 0)
  {
    assert EffectiveSize(U32_LIMIT, 0) == 0;
    StuckAtZero(offsets, U32_LIMIT, 0, |offsets| - 1);
  }

  /** The first k slots, end to end, are the payload up to where the k-th begins. */
  lemma {:induction false} SlotsConcatenate(payload: seq<Byte>, size: nat, pieces: seq<seq<Byte>>, k: nat)
    requires size > 0 && k <= |pieces| == ChunkCount(|payload|, size)
    requires forall i | 0 <= i < |pieces| :: pieces[i] == Slot(payload, size, i)
    ensures Flatten(pieces[..k]) == if k == 0 then [] else payload[..SlotEnd(|payload|, size, k - 1)]
    decreases k
  {
    if k > 0 {
      SlotsConcatenate(payload, size, pieces, k - 1);
      assert pieces[..k] == pieces[..k - 1] + [pieces[k - 1]];
      FlattenAppend(pieces[..k - 1], [pieces[k - 1]]);
      FlattenOne(pieces[k - 1]);
      SlotBounds(|payload|, size, k - 1);
      Adjoin(payload, (k - 1) * size, SlotEnd(|payload|, size, k - 1));
      if k > 1 {
        SlotBounds(|payload|, size, k - 2);
        assert Flatten(pieces[..k - 1]) == payload[..(k - 1) * size];
      } else {
        assert Flatten(pieces[..k - 1]) == payload[..0];
      }
    }
  }

  lemma Adjoin(s: seq<Byte>, a: nat, b: nat)
    requires a <= b <= |s|
    ensures s[..a] + s[a..b] == s[..b]
  {
  }

  lemma LastSlotEnds(length: nat, size: nat)
    requires size > 0 && length > 0
    ensures ChunkCount(length, size) > 0
    ensures SlotEnd(length, size, ChunkCount(length, size) - 1) == length
  {
    CountCovers(length, size);
  }

  lemma FlattenOne<T>(s: seq<T>)
    ensures Flatten([s]) == s
  {
    assert Flatten([s][1..]) == [];
  }

  function DataOf(chunks: seq<Chunk>): seq<seq<Byte>> {
    seq(|chunks|, i requires 0 <= i < |chunks| => chunks[i].data)
  }

  /** Partition: the chunks of a split concatenate to the data and cover it without gap or overlap. */
  lemma SplitPartitions(chunks: seq<Chunk>, data: seq<Byte>, size: nat, burstId: U64, burstBytes: U64)
    requires size > 0 && IsSplit(chunks, data, size, burstId, burstBytes)
    ensures Flatten(DataOf(chunks)) == data
    ensures forall i | 0 <= i < |chunks| :: 0 < |chunks[i].data| <= size
    ensures forall i | 0 <= i < |chunks| - 1 ::
              |chunks[i].data| == size && chunks[i + 1].offset == chunks[i].offset + size
  {
    SlotsConcatenate(data, size, DataOf(chunks), |chunks|);
    assert DataOf(chunks)[..|chunks|] == DataOf(chunks);
    if data != [] {
      LastSlotEnds(|data|, size);
    }
    forall i | 0 <= i < |chunks| - 1
      ensures |chunks[i].data| == size && chunks[i + 1].offset == chunks[i].offset + size
    {
      assert (i + 1) * size == i * size + size;
    }
  }

  const INT_LIMIT: nat := 0x8000_0000_0000_0000

  /** The conversion of an unsigned 64-bit integer to a signed one. */
  function ToInt(n: U64): int {
    if n < INT_LIMIT then n else n - U64_LIMIT
  }

  /** It keeps the number modulo 2^64 and lands in the signed range. */
  lemma ToIntIsSigned(n: U64)
    ensures -0x8000_0000_0000_0000 <= ToInt(n) < 0x8000_0000_0000_0000
    ensures ToInt(n) == n || ToInt(n) == n - 0x1_0000_0000_0000_0000
  {
  }

  /** The number of slots as NewReassembler computes it: a 64-bit sum, its quotient, converted to a signed integer. */
  function BoundedCount(totalSize: U64, size: U32): int
    requires size > 0
  {
    ToInt(((totalSize + size - 1) % U64_LIMIT) / size)
  }

  lemma CountsWithout(totalSize: nat, size: nat, q: nat, r: nat)
    requires 0 < size && totalSize == q * size + r && r < size
    ensures (totalSize + size - 1) / size == ChunkCount(totalSize, size)
  {
    DivisionIsUnique(totalSize, size, q, r);
    if r == 0 {
      DivisionIsUnique(totalSize + size - 1, size, q, size - 1);
    } else {
      assert (q + 1) * size == q * size + size;
      DivisionIsUnique(totalSize + size - 1, size, q + 1, r - 1);
    }
  }

  lemma SomeChunks(length: nat, size: nat)
    requires size > 0 && length > 0
    ensures ChunkCount(length, size) > 0
  {
    CountCovers(length, size);
  }

  /**
   The bounded computation agrees with the number of chunks exactly when its sum does not overflow and its quotient
   fits a signed integer.
   */
  lemma BoundedCountAgrees(totalSize: U64, size: U32)
    requires size > 0 && totalSize > 0
    ensures BoundedCount(totalSize, size) == ChunkCount(totalSize, size)
            <==> totalSize + size - 1 < U64_LIMIT && ChunkCount(totalSize, size) < INT_LIMIT
  {
    hide ChunkCount;
    SomeChunks(totalSize, size);
    DivideBy(totalSize, size);
    CountsWithout(totalSize, size, totalSize / size, totalSize % size);
    Wrapped(totalSize + size - 1, size);
  }

  /** It does for every size that fits a signed integer. */
  lemma CountFits(totalSize: U64, size: U32)
    requires size > 0 && totalSize < INT_LIMIT
    ensures BoundedCount(totalSize, size) == ChunkCount(totalSize, size) <= totalSize
  {
    if totalSize == 0 {
      DivisionIsUnique(size - 1, size, 0, size - 1);
      DivisionIsUnique(0, size, 0, 0);
    } else {
      SomeCountFits(totalSize, size);
    }
  }

  lemma SomeCountFits(totalSize: U64, size: U32)
    requires size > 0 && 0 < totalSize < INT_LIMIT
    ensures BoundedCount(totalSize, size) == ChunkCount(totalSize, size) <= totalSize
  {
    hide ChunkCount, BoundedCount;
    var n := ChunkCount(totalSize, size);
    SomeChunks(totalSize, size);
    SlotBounds(totalSize, size, n - 1);
    IndexIsSmaller(n - 1, size);
    BoundedCountAgrees(totalSize, size);
  }

  lemma DivideBy(n: nat, size: nat)
    requires size > 0
    ensures n == (n / size) * size + n % size && n % size < size
  {
  }

  lemma Wrapped(sum: nat, size: nat)
    requires 0 < size && sum < U64_LIMIT + size
    ensures sum < U64_LIMIT ==> sum % U64_LIMIT == sum
    ensures sum >= U64_LIMIT ==> (sum % U64_LIMIT) / size == 0
  {
    if sum >= U64_LIMIT {
      var rest := sum - U64_LIMIT;
      if rest < U64_LIMIT {
        DivisionIsUnique(sum, U64_LIMIT, 1, rest);
        DivisionIsUnique(rest, size, 0, rest);
      } else {
        assert sum % U64_LIMIT < U64_LIMIT <= rest < size;
        DivisionIsUnique(sum % U64_LIMIT, size, 0, sum % U64_LIMIT);
      }
    }
  }

  // ---- Reassembling ----

  /** The state of a Reassembler, as a value. */
  datatype Assembly = Assembly(buf: seq<Byte>, received: seq<bool>, size: U32, remaining: int, receivedBytes: nat)

  /** The slot the source computes for a chunk; it can be out of range, on either side. */
  function SlotIndex(a: Assembly, c: Chunk): int
    requires a.size > 0
  {
    ToInt(c.offset / a.size)
  }

  predicate NewToSlot(a: Assembly, c: Chunk)
    requires a.size > 0
  {
    0 <= SlotIndex(a, c) < |a.received| && !a.received[SlotIndex(a, c)]
  }

  /** Slicing the buffer at the chunk's offset is possible whenever it is done. */
  predicate Placeable(a: Assembly, c: Chunk) {
    a.size > 0 && (NewToSlot(a, c) ==> c.offset <= |a.buf|)
  }

  /** What copying data over buf from an offset leaves; what does not fit is dropped. */
  function Overlay(buf: seq<Byte>, offset: nat, data: seq<Byte>): (r: seq<Byte>)
    requires offset <= |buf|
    ensures |r| == |buf|
  {
    seq(|buf|, k requires 0 <= k < |buf| => if offset <= k < offset + |data| then data[k - offset] else buf[k])
  }

  function Place(a: Assembly, c: Chunk): Assembly
    requires Placeable(a, c)
  {
    if NewToSlot(a, c) then
      Assembly(Overlay(a.buf, c.offset, c.data), a.received[SlotIndex(a, c) := true], a.size, a.remaining - 1,
               a.receivedBytes + |c.data|)
    else a
  }

  function Empty(totalSize: nat, size: U32, slots: nat): Assembly {
    Assembly(Repeat(0, totalSize), Repeat(false, slots), size, slots, 0)
  }

  function Repeat<T>(x: T, n: nat): (r: seq<T>)
    ensures |r| == n && forall k | 0 <= k < n :: r[k] == x
  {
    if n == 0 then [] else Repeat(x, n - 1) + [x]
  }

  lemma IsRepeat<T>(s: seq<T>, x: T)
    requires forall k | 0 <= k < |s| :: s[k] == x
    ensures s == Repeat(x, |s|)
  {
  }

  /** The number of slots covers the length, and one fewer would not. */
  lemma CountOfSize(length: nat, size: nat)
    requires size > 0
    ensures length > 0 ==> (ChunkCount(length, size) - 1) * size < length <= ChunkCount(length, size) * size
    ensures length == size ==> ChunkCount(length, size) == 1
  {
    if length > 0 {
      LastSlotEnds(length, size);
      SlotBounds(length, size, ChunkCount(length, size) - 1);
      CountCovers(length, size);
    }
    DivisionIsUnique(size, size, 1, 0);
  }

  class Reassembler {
    const buf: array<Byte>
    const received: array<bool>
    const chunkSize: U32
    var remaining: int
    var receivedBytes: nat

    ghost function State(): Assembly
      reads this, buf, received
    {
      Assembly(buf[..], received[..], chunkSize, remaining, receivedBytes)
    }

    /** Allocation needs a total that fits a signed integer, and the division a positive chunk size. */
    constructor (totalSize: U64, chunkSize: U32)
      requires totalSize < INT_LIMIT && EffectiveSize(totalSize, chunkSize) > 0
      ensures fresh(buf) && fresh(received)
      ensures
        var size := EffectiveSize(totalSize, chunkSize);
        && BoundedCount(totalSize, size) >= 0
        && State() == Empty(totalSize, size, BoundedCount(totalSize, size))
      ensures buf.Length == totalSize && (forall k | 0 <= k < buf.Length :: buf[k] == 0)
      ensures (forall i | 0 <= i < received.Length :: !received[i])
      ensures remaining == received.Length && receivedBytes == 0
      ensures chunkSize > 0 ==>
                && this.chunkSize == chunkSize
                && (totalSize > 0 ==> (received.Length - 1) * chunkSize < totalSize <= received.Length * chunkSize)
      ensures chunkSize == 0 && totalSize < 0x1_0000_0000 ==> this.chunkSize == totalSize && received.Length == 1
    {
      hide BoundedCount, ChunkCount;
      var size := EffectiveSize(totalSize, chunkSize);
      CountFits(totalSize, size);
      CountOfSize(totalSize, size);
      var numChunks := BoundedCount(totalSize, size);
      buf := new Byte[totalSize](_ => 0);
      received := new bool[numChunks](_ => false);
      this.chunkSize := size;
      remaining := numChunks;
      receivedBytes := 0;
      new;
      assert |Empty(totalSize, size, numChunks).received| == numChunks;
      IsRepeat(buf[..], 0);
      IsRepeat(received[..], false);
    }

    method Write(c: Chunk) returns (complete: bool)
      requires Placeable(State(), c)
      modifies this, buf, received
      ensures State() == Place(old(State()), c)
      ensures complete <==> remaining == 0
      ensures
        var i := c.offset / chunkSize;
        if i < 0x8000_0000_0000_0000 && i < received.Length && !old(received[..])[i] then
          && received[..] == old(received[..])[i := true]
          && remaining == old(remaining) - 1 && receivedBytes == old(receivedBytes) + |c.data|
          && forall k | 0 <= k < buf.Length ::
               buf[k] == if c.offset <= k < c.offset + |c.data| then c.data[k - c.offset] else old(buf[..])[k]
        else
          && received[..] == old(received[..]) && buf[..] == old(buf[..])
          && remaining == old(remaining) && receivedBytes == old(receivedBytes)
    {
      var slot := ToInt(c.offset / chunkSize);
      if slot < 0 || slot >= received.Length {
        return remaining == 0;
      }
      if !received[slot] {
        ghost var before := State();
        forall k | c.offset <= k < c.offset + |c.data| && k < buf.Length {
          buf[k] := c.data[k - c.offset];
        }
        received[slot] := true;
        remaining := remaining - 1;
        receivedBytes := receivedBytes + |c.data|;
        assert buf[..] == Overlay(before.buf, c.offset, c.data);
      }
      return remaining == 0;
    }

    /** The runtime's checks: whether Write can divide by the chunk size and slice the buffer at the chunk's offset. */
    method InBounds(c: Chunk) returns (ok: bool)
      ensures ok <==> Placeable(State(), c)
      ensures ok <==>
                && chunkSize > 0
                && var i := c.offset / chunkSize;
                (i < 0x8000_0000_0000_0000 && i < received.Length && !received[i] ==> c.offset <= buf.Length)
    {
      if chunkSize == 0 {
        return false;
      }
      var slot := ToInt(c.offset / chunkSize);
      if slot < 0 || slot >= received.Length || received[slot] {
        return true;
      }
      return c.offset <= buf.Length;
    }

    method ReceivedBytes() returns (n: nat)
      ensures n == receivedBytes
    {
      n := receivedBytes;
    }

    method Bytes() returns (bytes: seq<Byte>)
      ensures bytes == buf[..]
    {
      bytes := buf[..];
    }

    method Complete() returns (complete: bool)
      ensures complete <==> remaining == 0
    {
      complete := remaining == 0;
    }
  }

  // ---- Order and repetition do not matter ----

  /** The total length of those of the first k slots that are in got. */
  function GotBytes(payload: seq<Byte>, size: nat, got: set<nat>, k: nat): nat
    requires size > 0 && k <= ChunkCount(|payload|, size)
  {
    if k == 0 then 0
    else GotBytes(payload, size, got, k - 1) + if k - 1 in got then |Slot(payload, size, k - 1)| else 0
  }

  function AllSlots(payload: seq<Byte>, size: nat): set<nat>
    requires size > 0
  {
    Below(ChunkCount(|payload|, size))
  }

  /** The state that stands for having received exactly the slots in got. */
  function Filled(payload: seq<Byte>, size: U32, got: set<nat>): Assembly
    requires size > 0
  {
    var n := ChunkCount(|payload|, size);
    Assembly(seq(|payload|, k requires 0 <= k < |payload| => if k / size in got then payload[k] else 0),
             seq(n, i requires 0 <= i < n => i in got),
             size, n - |got|, GotBytes(payload, size, got, n))
  }

  lemma {:induction false} GotBytesAdd(payload: seq<Byte>, size: nat, got: set<nat>, i: nat, k: nat)
    requires size > 0 && k <= ChunkCount(|payload|, size)
    requires i !in got && i < ChunkCount(|payload|, size)
    ensures GotBytes(payload, size, got + {i}, k) ==
            GotBytes(payload, size, got, k) + if i < k then |Slot(payload, size, i)| else 0
  {
    if k > 0 {
      GotBytesAdd(payload, size, got, i, k - 1);
    }
  }

  lemma {:induction false} GotNothing(payload: seq<Byte>, size: nat, k: nat)
    requires size > 0 && k <= ChunkCount(|payload|, size)
    ensures GotBytes(payload, size, {}, k) == 0
  {
    if k > 0 {
      GotNothing(payload, size, k - 1);
    }
  }

  lemma NothingFilled(payload: seq<Byte>, size: U32)
    requires size > 0
    ensures Empty(|payload|, size, ChunkCount(|payload|, size)) == Filled(payload, size, {})
  {
    GotNothing(payload, size, ChunkCount(|payload|, size));
  }

  lemma SlotOfPosition(length: nat, size: nat, i: nat, k: nat)
    requires size > 0 && i < ChunkCount(length, size) && k < length
    ensures k / size == i <==> i * size <= k < SlotEnd(length, size, i)
  {
    var q := k / size;
    assert k == q * size + k % size;
    assert (i + 1) * size == i * size + size;
    if q < i {
      MulMonotone(q + 1, i, size);
      assert (q + 1) * size == q * size + size;
    } else if q > i {
      MulMonotone(i + 1, q, size);
    }
  }

  lemma SlotOfChunk(payload: seq<Byte>, size: U32, a: Assembly, c: Chunk, i: nat)
    requires size > 0 && IsSlot(c, payload, size, i) && |payload| < INT_LIMIT && a.size == size
    ensures SlotIndex(a, c) == i && c.offset <= |payload|
  {
    hide Slot;
    SlotBounds(|payload|, size, i);
    DivisionIsUnique(c.offset, size, i, 0);
    IndexIsSmaller(i, size);
  }

  /** Writing a genuine chunk adds its slot to the set, and does nothing else; also when the slot is there already. */
  lemma PlaceGenuine(payload: seq<Byte>, size: U32, got: set<nat>, c: Chunk, i: nat)
    requires size > 0 && got <= AllSlots(payload, size)
    requires IsSlot(c, payload, size, i) && |payload| < INT_LIMIT
    ensures Placeable(Filled(payload, size, got), c)
    ensures Place(Filled(payload, size, got), c) == Filled(payload, size, got + {i})
  {
    hide SlotIndex, Slot, Overlay, GotBytes, ChunkCount;
    var a := Filled(payload, size, got);
    SlotOfChunk(payload, size, a, c, i);
    if i in got {
      assert got + {i} == got;
    } else {
      GotBytesAdd(payload, size, got, i, ChunkCount(|payload|, size));
      OverlaySlot(payload, size, got, c, i);
      assert a.received[i := true] == Filled(payload, size, got + {i}).received;
    }
  }

  lemma OverlaySlot(payload: seq<Byte>, size: U32, got: set<nat>, c: Chunk, i: nat)
    requires size > 0 && IsSlot(c, payload, size, i) && c.offset <= |payload|
    ensures Overlay(Filled(payload, size, got).buf, c.offset, c.data) == Filled(payload, size, got + {i}).buf
  {
    var left := Overlay(Filled(payload, size, got).buf, c.offset, c.data);
    var right := Filled(payload, size, got + {i}).buf;
    SlotBounds(|payload|, size, i);
    forall k | 0 <= k < |payload| ensures left[k] == right[k] {
      SlotOfPosition(|payload|, size, i, k);
    }
  }

  lemma IndexIsSmaller(i: nat, size: nat)
    requires size > 0
    ensures i <= i * size
  {
  }

  /** The slots of a sequence of genuine chunks, and the state after writing them all. */
  ghost predicate AllGenuine(payload: seq<Byte>, size: nat, cs: seq<Chunk>, slots: seq<nat>)
    requires size > 0
  {
    |cs| == |slots| && forall j | 0 <= j < |cs| :: IsSlot(cs[j], payload, size, slots[j])
  }

  ghost predicate AllPlaceable(a: Assembly, cs: seq<Chunk>)
    decreases |cs|
  {
    cs == [] || (Placeable(a, cs[0]) && AllPlaceable(Place(a, cs[0]), cs[1..]))
  }

  ghost function PlaceAll(a: Assembly, cs: seq<Chunk>): Assembly
    requires AllPlaceable(a, cs)
    decreases |cs|
  {
    if cs == [] then a else PlaceAll(Place(a, cs[0]), cs[1..])
  }

  lemma {:induction false} PlaceOneMore(a: Assembly, cs: seq<Chunk>, c: Chunk)
    ensures AllPlaceable(a, cs + [c]) <==> AllPlaceable(a, cs) && Placeable(PlaceAll(a, cs), c)
    ensures AllPlaceable(a, cs + [c]) ==> PlaceAll(a, cs + [c]) == Place(PlaceAll(a, cs), c)
    decreases |cs|
  {
    hide Placeable, Place;
    var more := cs + [c];
    if cs == [] {
      assert more == [c] && more[1..] == [];
    } else {
      assert more[0] == cs[0] && more[1..] == cs[1..] + [c];
      if Placeable(a, cs[0]) {
        PlaceOneMore(Place(a, cs[0]), cs[1..], c);
      }
    }
  }

  lemma {:induction false} PlaceAllGenuine(payload: seq<Byte>, size: U32, got: set<nat>, cs: seq<Chunk>,
                                           slots: seq<nat>)
    requires size > 0 && got <= AllSlots(payload, size) && |payload| < INT_LIMIT
    requires AllGenuine(payload, size, cs, slots)
    ensures AllPlaceable(Filled(payload, size, got), cs)
    ensures PlaceAll(Filled(payload, size, got), cs) == Filled(payload, size, got + ToSet(slots))
    decreases |cs|
  {
    if cs == [] {
      assert got + ToSet(slots) == got;
    } else {
      PlaceGenuine(payload, size, got, cs[0], slots[0]);
      PlaceAllGenuine(payload, size, got + {slots[0]}, cs[1..], slots[1..]);
      assert got + ToSet(slots) == (got + {slots[0]}) + ToSet(slots[1..]);
    }
  }

  /** The whole state after any writes is a function of the set of distinct chunks among them. */
  lemma OrderAndRepetitionDoNotMatter(payload: seq<Byte>, size: U32, cs: seq<Chunk>, slots: seq<nat>, ds: seq<Chunk>,
                                      others: seq<nat>)
    requires size > 0 && |payload| < INT_LIMIT
    requires AllGenuine(payload, size, cs, slots) && AllGenuine(payload, size, ds, others)
    requires ToSet(slots) == ToSet(others)
    ensures
      var a := Empty(|payload|, size, ChunkCount(|payload|, size));
      && AllPlaceable(a, cs) && AllPlaceable(a, ds)
      && PlaceAll(a, cs) == PlaceAll(a, ds) == Filled(payload, size, ToSet(slots))
  {
    NothingFilled(payload, size);
    PlaceAllGenuine(payload, size, {}, cs, slots);
    PlaceAllGenuine(payload, size, {}, ds, others);
    assert {} + ToSet(slots) == ToSet(slots);
  }

  // ---- Completion ----

  lemma {:induction false} GotAll(payload: seq<Byte>, size: nat, got: set<nat>, k: nat)
    requires size > 0 && k <= ChunkCount(|payload|, size)
    requires forall i: nat | i < k :: i in got
    ensures GotBytes(payload, size, got, k) == if k * size <= |payload| then k * size else |payload|
  {
    hide Slot, ChunkCount;
    if k > 0 {
      GotAll(payload, size, got, k - 1);
      SlotBounds(|payload|, size, k - 1);
      OneMoreSize(k, size);
    }
  }

  lemma OneMoreSize(k: nat, size: nat)
    requires k > 0
    ensures k * size == (k - 1) * size + size
  {
  }

  lemma {:induction false} GotBytesAtMost(payload: seq<Byte>, size: nat, got: set<nat>, k: nat)
    requires size > 0 && k <= ChunkCount(|payload|, size)
    ensures GotBytes(payload, size, got, k) <= GotBytes(payload, size, AllSlots(payload, size), k)
    ensures GotBytes(payload, size, got, k) == GotBytes(payload, size, AllSlots(payload, size), k)
            <==> forall i: nat | i < k :: i in got
  {
    if k > 0 {
      GotBytesAtMost(payload, size, got, k - 1);
    }
  }

  /** Complete, all bytes received and all slots filled are the same thing, and then the buffer is the payload. */
  lemma Completion(payload: seq<Byte>, size: U32, got: set<nat>)
    requires size > 0 && got <= AllSlots(payload, size)
    ensures Filled(payload, size, got).remaining == 0 <==> got == AllSlots(payload, size)
    ensures Filled(payload, size, got).receivedBytes <= |payload|
    ensures Filled(payload, size, got).receivedBytes == |payload| <==> got == AllSlots(payload, size)
    ensures got == AllSlots(payload, size) ==> Filled(payload, size, got).buf == payload
  {
    var n := ChunkCount(|payload|, size);
    AllOrFewer(n, got);
    GotAll(payload, size, AllSlots(payload, size), n);
    CountCovers(|payload|, size);
    GotBytesAtMost(payload, size, got, n);
    if got == AllSlots(payload, size) {
      AllFilled(payload, size);
    } else {
      var i :| i in AllSlots(payload, size) && i !in got;
    }
  }

  lemma CompleteBySlot(payload: seq<Byte>, size: U32, got: set<nat>)
    requires size > 0 && got <= AllSlots(payload, size)
    ensures
      var a := Filled(payload, size, got);
      && |a.received| == ChunkCount(|payload|, size)
      && (a.remaining == 0 <==> forall k | 0 <= k < |a.received| :: a.received[k])
      && (a.remaining == 0 ==> a.buf == payload && a.receivedBytes == |payload|)
  {
    hide GotBytes, Slot;
    Completion(payload, size, got);
    var a := Filled(payload, size, got);
    if forall k | 0 <= k < |a.received| :: a.received[k] {
      forall k | k in AllSlots(payload, size) ensures k in got {
        assert a.received[k];
      }
    }
  }

  lemma PositionHasSlot(length: nat, size: nat, k: nat)
    requires size > 0 && k < length
    ensures 0 <= k / size < ChunkCount(length, size)
  {
    assert k == (k / size) * size + k % size;
    CoversMore(length, size, k / size);
  }

  lemma AllFilled(payload: seq<Byte>, size: U32)
    requires size > 0
    ensures Filled(payload, size, AllSlots(payload, size)).buf == payload
  {
    var buf := Filled(payload, size, AllSlots(payload, size)).buf;
    forall k | 0 <= k < |payload| ensures buf[k] == payload[k] {
      PositionHasSlot(|payload|, size, k);
    }
  }

  // ---- Any chunks at all ----

  function Unset(received: seq<bool>): nat {
    if received == [] then 0 else (if received[0] then 0 else 1) + Unset(received[1..])
  }

  lemma {:induction false} UnsetAfterSet(received: seq<bool>, i: nat)
    requires i < |received| && !received[i]
    ensures Unset(received[i := true]) == Unset(received) - 1
  {
    if i == 0 {
      assert received[i := true][1..] == received[1..];
    } else {
      assert received[i := true][1..] == received[1..][i - 1 := true];
      UnsetAfterSet(received[1..], i - 1);
    }
  }

  /** Whatever chunk is written, remaining goes on counting the slots not yet received. */
  lemma RemainingCountsUnset(a: Assembly, c: Chunk)
    requires Placeable(a, c) && a.remaining == Unset(a.received)
    ensures Place(a, c).remaining == Unset(Place(a, c).received)
    ensures |Place(a, c).received| == |a.received| && |Place(a, c).buf| == |a.buf|
  {
    if NewToSlot(a, c) {
      UnsetAfterSet(a.received, SlotIndex(a, c));
    }
  }
}
