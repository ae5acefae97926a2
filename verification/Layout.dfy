/**
 The shared-memory layout of a service: ring capacities, the chunk budget, and where
 everything lies in the control and the data segment.
 */
module Layout {
  import opened Arithmetic
  import opened Channel

  const CACHE_LINE: nat := 64
  const PAGE: nat := 4096

  // ---------------------------------------------------------------------------
  // Powers of two
  // ---------------------------------------------------------------------------

  ghost predicate IsPow2(p: nat) { exists k: nat :: p == Pow2(k) }

  /** A 32-bit unsigned shift by one. */
  function Shl32(p: nat): nat { 2 * p % TWO32 }

  lemma Pow31()
    ensures Pow2(31) == 0x8000_0000
  {
    assert Pow2(8) == 256;
    assert Pow2(16) == 65536;
    assert Pow2(24) == 0x100_0000;
  }

  lemma Shl32Is(p: nat)
    requires p <= 0x8000_0000
    ensures Shl32(p) == if p < 0x8000_0000 then 2 * p else 0
  {
  }

  /** A power of two not below `v`, and, with `LeastAbove`, the least one; for every `v` up
      to 2^31. */
  method NextPow2(v: nat) returns (p: nat)
    requires v <= 0x8000_0000
    ensures IsPow2(p) && v <= p <= 0x8000_0000 && (p == 1 || p < 2 * v)
  {
    p := 1;
    ghost var k := 0;
    while p < v
      invariant p == Pow2(k) && p <= 0x8000_0000 && (p == 1 || p < 2 * v)
      decreases 0x8000_0000 - p
    {
      BelowPow31(k);
      Shl32Is(p);
      p := Shl32(p);
      k := k + 1;
    }
  }

  lemma BelowPow31(k: nat)
    requires Pow2(k) < 0x8000_0000
    ensures 2 * Pow2(k) <= 0x8000_0000
  {
    Pow31();
    if k < 31 {
      Pow2Grows(k, 31);
    } else if 31 < k {
      Pow2Grows(31, k);
      assert false;
    } else {
      assert false;
    }
  }

  lemma LeastAbove(v: nat, p: nat, q: nat)
    requires IsPow2(p) && (p == 1 || p < 2 * v) && IsPow2(q) && v <= q
    ensures p <= q
  {
    var k: nat, j: nat :| p == Pow2(k) && q == Pow2(j);
    if j < k {
      Pow2Grows(j, k);
    } else if k < j {
      Pow2Grows(k, j);
    }
  }

  /** `p` after `k` rounds of the loop. */
  function Shifted(k: nat): nat { if k == 0 then 1 else Shl32(Shifted(k - 1)) }

  lemma {:induction false} ShiftedIs(k: nat)
    ensures Shifted(k) == if k < 32 then Pow2(k) else 0
    ensures Shifted(k) <= 0x8000_0000
  {
    if k > 0 {
      ShiftedIs(k - 1);
      Shl32Is(Shifted(k - 1));
      if k < 32 { BelowPow32(k - 1); BelowPow31(k - 1); } else if k == 32 { Pow31(); }
    }
  }

  lemma BelowPow32(k: nat)
    requires k < 31
    ensures Pow2(k) < 0x8000_0000
  {
    Pow31();
    Pow2Grows(k, 31);
  }

  /** The loop ends exactly when the argument is at most 2^31: past that the shift wraps
      to zero and `p < v` stays true for ever. */
  lemma NextPow2EndsIff(v: nat)
    ensures (exists k: nat :: Shifted(k) >= v) <==> v <= 0x8000_0000
  {
    ShiftedIs(31);
    Pow31();
    if v > 0x8000_0000 {
      forall k: nat
        ensures Shifted(k) < v
      {
        ShiftedIs(k);
      }
    } else {
      assert Shifted(31) >= v;
    }
  }

  // ---------------------------------------------------------------------------
  // Masks
  // ---------------------------------------------------------------------------

  /** Bitwise and of two naturals. */
  function BitAnd(a: nat, b: nat): nat {
    if a == 0 || b == 0 then 0 else 2 * BitAnd(a / 2, b / 2) + (a % 2) * (b % 2)
  }

  lemma AndOdd(x: nat, half: nat)
    requires 0 < half
    ensures BitAnd(x, 2 * half - 1) == 2 * BitAnd(x / 2, half - 1) + x % 2
  {
    assert (2 * half - 1) / 2 == half - 1 && (2 * half - 1) % 2 == 1;
  }

  lemma MaskStep(x: nat, half: nat)
    requires 0 < half && BitAnd(x / 2, half - 1) == (x / 2) % half
    ensures BitAnd(x, 2 * half - 1) == x % (2 * half)
  {
    AndOdd(x, half);
    hide BitAnd;
    HalfRemainder(x, half);
  }

  /** With a power-of-two capacity, masking an index is taking its remainder. */
  lemma {:induction false} MaskIsRemainder(x: nat, k: nat)
    ensures BitAnd(x, Pow2(k) - 1) == x % Pow2(k)
    decreases k
  {
    hide BitAnd;
    if k > 0 {
      MaskIsRemainder(x / 2, k - 1);
      MaskStep(x, Pow2(k - 1));
    } else {
      AndZero(x);
    }
  }

  lemma AndZero(x: nat)
    ensures BitAnd(x, 0) == 0
  {
  }

  lemma HalfRemainder(x: nat, m: nat)
    requires 0 < m
    ensures x % (2 * m) == 2 * ((x / 2) % m) + x % 2
  {
    var q, r := (x / 2) / m, (x / 2) % m;
    assert x == 2 * (q * m + r) + x % 2;
    assert x == q * (2 * m) + (2 * r + x % 2);
    QuotientRemainder(x, 2 * m, q, 2 * r + x % 2);
  }

  // ---------------------------------------------------------------------------
  // The layout
  // ---------------------------------------------------------------------------

  function RoundUp(value: nat, align: nat): (r: nat)
    requires 0 < align
    ensures value <= r < value + align && r % align == 0
  {
    var q := (value + align - 1) / align;
    assert q * align <= value + align - 1 < q * align + align;
    QuotientRemainder(q * align, align, q, 0);
    q * align
  }

  datatype Layout = Layout(
    queueCapacity: nat, completionCapacity: nat, chunkCount: nat, chunkStride: nat, slotStride: nat,
    slotsOffset: nat, chunkHeadersOffset: nat, payloadsOffset: nat, totalSize: nat, dataSize: nat)

  /** Byte sizes the C++ structs have. */
  const SLOT_SIZE: nat := 512
  const CHUNK_HEADER_SIZE: nat := 16

  /** Slot `i` of the control segment: [from, to). */
  function SlotFrom(l: Layout, i: nat): nat { l.slotsOffset + i * l.slotStride }
  function SlotTo(l: Layout, i: nat): nat {
    SlotFrom(l, i) + SLOT_SIZE + 4 * (l.queueCapacity + l.completionCapacity)
  }

  /** Payload of chunk `c` in the data segment. */
  function PayloadFrom(l: Layout, c: nat): nat { l.payloadsOffset + c * l.chunkStride }

  /** Every region lies inside its segment, apart from the others and aligned. */
  ghost predicate WellLaidOut(l: Layout, headerSize: nat, subscribers: nat, typeSize: nat, typeAlign: nat) {
    && headerSize <= l.slotsOffset
    && (forall i | 0 <= i < subscribers :: SlotTo(l, i) <= l.totalSize && SlotFrom(l, i) % CACHE_LINE == 0)
    && (forall i | 0 <= i && i + 1 < subscribers :: SlotTo(l, i) <= SlotFrom(l, i + 1))
    && CHUNK_HEADER_SIZE * l.chunkCount <= l.payloadsOffset
    && (forall c | 0 <= c < l.chunkCount :: PayloadFrom(l, c) + typeSize <= l.dataSize
                                           && PayloadFrom(l, c) % Alignment(typeAlign) == 0)
    && (forall c | 0 <= c && c + 1 < l.chunkCount :: PayloadFrom(l, c) + typeSize <= PayloadFrom(l, c + 1))
    && l.totalSize % PAGE == 0 && l.dataSize % PAGE == 0
  }

  /** Nothing is left between the regions that alignment does not ask for. */
  ghost predicate NoWaste(l: Layout, headerSize: nat, subscribers: nat, typeSize: nat, typeAlign: nat) {
    && l.slotsOffset < headerSize + CACHE_LINE && l.chunkHeadersOffset == 0
    && l.slotStride < SLOT_SIZE + 4 * (l.queueCapacity + l.completionCapacity) + CACHE_LINE
    && l.totalSize < l.slotsOffset + l.slotStride * subscribers + PAGE
    && l.payloadsOffset < CHUNK_HEADER_SIZE * l.chunkCount + Alignment(typeAlign)
    && l.chunkStride < typeSize + Alignment(typeAlign)
    && l.dataSize < l.payloadsOffset + l.chunkStride * l.chunkCount + PAGE
  }

  function Alignment(typeAlign: nat): (a: nat)
    ensures 0 < a
  {
    if typeAlign > CACHE_LINE then typeAlign else CACHE_LINE
  }

  lemma StrideFits(offset: nat, stride: nat, n: nat, i: nat)
    requires i < n
    ensures offset + i * stride + stride <= offset + stride * n
  {
    assert (i + 1) * stride <= n * stride;
  }

  lemma StrideAligned(offset: nat, stride: nat, i: nat, a: nat)
    requires 0 < a && offset % a == 0 && stride % a == 0
    ensures (offset + i * stride) % a == 0
  {
    var p, q := offset / a, stride / a;
    assert offset == p * a && stride == q * a;
    assert offset + i * stride == (p + i * q) * a + 0 by { assert i * (q * a) == (i * q) * a; }
    QuotientRemainder(offset + i * stride, a, p + i * q, 0);
  }

  lemma RegionsFit(l: Layout, headerSize: nat, subscribers: nat, typeSize: nat, typeAlign: nat)
    requires headerSize <= l.slotsOffset && l.slotsOffset % CACHE_LINE == 0
    requires SLOT_SIZE + 4 * (l.queueCapacity + l.completionCapacity) <= l.slotStride && l.slotStride % CACHE_LINE == 0
    requires l.slotsOffset + l.slotStride * subscribers <= l.totalSize && l.totalSize % PAGE == 0
    requires CHUNK_HEADER_SIZE * l.chunkCount <= l.payloadsOffset && l.payloadsOffset % Alignment(typeAlign) == 0
    requires typeSize <= l.chunkStride && l.chunkStride % Alignment(typeAlign) == 0
    requires l.payloadsOffset + l.chunkStride * l.chunkCount <= l.dataSize && l.dataSize % PAGE == 0
    ensures WellLaidOut(l, headerSize, subscribers, typeSize, typeAlign)
  {
    forall i | 0 <= i < subscribers
      ensures SlotTo(l, i) <= l.totalSize && SlotFrom(l, i) % CACHE_LINE == 0
    {
      StrideFits(l.slotsOffset, l.slotStride, subscribers, i);
      StrideAligned(l.slotsOffset, l.slotStride, i, CACHE_LINE);
    }
    forall c | 0 <= c < l.chunkCount
      ensures PayloadFrom(l, c) + typeSize <= l.dataSize && PayloadFrom(l, c) % Alignment(typeAlign) == 0
    {
      StrideFits(l.payloadsOffset, l.chunkStride, l.chunkCount, c);
      StrideAligned(l.payloadsOffset, l.chunkStride, c, Alignment(typeAlign));
    }
    forall i | 0 <= i && i + 1 < subscribers
      ensures SlotTo(l, i) <= SlotFrom(l, i + 1)
    {
      assert (i + 1) * l.slotStride == i * l.slotStride + l.slotStride;
    }
    forall c | 0 <= c && c + 1 < l.chunkCount
      ensures PayloadFrom(l, c) + typeSize <= PayloadFrom(l, c + 1)
    {
      assert (c + 1) * l.chunkStride == c * l.chunkStride + l.chunkStride;
    }
  }

  /** The chunk budget: room for everything a run can hold at once. */
  function Budget(subscribers: nat, cap: nat, borrowed: nat, loans: nat): nat {
    subscribers * (cap + borrowed) + loans
  }

  /** The configurations assumed: no 32-bit product overflows, so both searches for a power
      of two end. */
  ghost predicate Small(subscribers: nat, queueCapacity: nat, borrowed: nat, loans: nat) {
    && queueCapacity <= 0x8000_0000
    && Budget(subscribers, 2 * queueCapacity + 1, borrowed, loans) <= 0x8000_0000
  }

  lemma BudgetGrows(subscribers: nat, cap: nat, cap': nat, borrowed: nat, loans: nat)
    requires cap <= cap'
    ensures Budget(subscribers, cap, borrowed, loans) <= Budget(subscribers, cap', borrowed, loans)
  {
    assert subscribers * (cap + borrowed) <= subscribers * (cap' + borrowed);
  }

  /** Both ring capacities are powers of two and the done ring has room for every chunk. */
  method Capacities(subscribers: nat, queueCapacity: nat, borrowed: nat, loans: nat)
    returns (cap: nat, chunks: nat, completion: nat)
    requires Small(subscribers, queueCapacity, borrowed, loans)
    ensures IsPow2(cap) && IsPow2(completion) && 1 <= cap && queueCapacity <= cap <= 2 * queueCapacity + 1
    ensures chunks == Budget(subscribers, cap, borrowed, loans) <= completion
    ensures (cap == 1 || cap < 2 * queueCapacity) && (completion == 1 || completion < 2 * chunks)
  {
    cap := NextPow2(if queueCapacity < 1 then 1 else queueCapacity);
    chunks := Budget(subscribers, cap, borrowed, loans);
    BudgetGrows(subscribers, cap, 2 * queueCapacity + 1, borrowed, loans);
    completion := NextPow2(chunks);
  }

  /** The whole layout: the capacities above, and regions that do not meet. */
  method ComputeLayout(subscribers: nat, queueCapacity: nat, borrowed: nat, loans: nat, typeSize: nat, typeAlign: nat,
                       headerSize: nat)
    returns (l: Layout)
    requires Small(subscribers, queueCapacity, borrowed, loans)
    ensures IsPow2(l.queueCapacity) && IsPow2(l.completionCapacity)
    ensures 1 <= l.queueCapacity && queueCapacity <= l.queueCapacity <= 2 * queueCapacity + 1
    ensures l.chunkCount == Budget(subscribers, l.queueCapacity, borrowed, loans) <= l.completionCapacity
    ensures l.queueCapacity == 1 || l.queueCapacity < 2 * queueCapacity
    ensures l.completionCapacity == 1 || l.completionCapacity < 2 * l.chunkCount
    ensures WellLaidOut(l, headerSize, subscribers, typeSize, typeAlign)
    ensures NoWaste(l, headerSize, subscribers, typeSize, typeAlign)
  {
    hide Small, IsPow2, Budget, WellLaidOut, RoundUp;
    var cap, chunks, completion := Capacities(subscribers, queueCapacity, borrowed, loans);
    var stride := RoundUp(typeSize, Alignment(typeAlign));
    var slotStride := RoundUp(SLOT_SIZE + 4 * (cap + completion), CACHE_LINE);
    var slotsOffset := RoundUp(headerSize, CACHE_LINE);
    var totalSize := RoundUp(slotsOffset + slotStride * subscribers, PAGE);
    var payloads := RoundUp(CHUNK_HEADER_SIZE * chunks, Alignment(typeAlign));
    var dataSize := RoundUp(payloads + stride * chunks, PAGE);
    l := Layout(cap, completion, chunks, stride, slotStride, slotsOffset, 0, payloads, totalSize, dataSize);
    RegionsFit(l, headerSize, subscribers, typeSize, typeAlign);
  }

  /** A layout the constructor accepts is a configuration the service model is proved for. */
  lemma LayoutIsGood(l: Layout, subscribers: nat, borrowed: nat, loans: nat)
    requires 1 <= subscribers && 1 <= l.queueCapacity
    requires l.chunkCount == Budget(subscribers, l.queueCapacity, borrowed, loans) <= 0xFFFF
    requires l.chunkCount <= l.completionCapacity
    ensures GoodConfig(Config(subscribers, l.queueCapacity, borrowed, loans, l.chunkCount, l.completionCapacity))
  {
    assert subscribers * 1 <= subscribers * (l.queueCapacity + borrowed);
  }
}
