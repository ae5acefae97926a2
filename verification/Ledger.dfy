/**
 The publisher's private books: the stack of free chunks, one reference count per
 chunk and, per subscriber slot, what that subscriber still holds. They live outside
 shared memory, so only the functions below ever change them.
 */
module Ledger {

  /** `free` is the free stack, `refs[c]` the reference count of chunk `c`, and
      `out[s][c]` how many references slot `s` holds on chunk `c`. */
  datatype Ledger = Ledger(free: seq<nat>, refs: seq<nat>, out: seq<seq<nat>>)

  ghost predicate Shape(l: Ledger, chunks: nat, slots: nat) {
    && |l.refs| == chunks
    && |l.out| == slots
    && (forall s | 0 <= s < slots :: |l.out[s]| == chunks)
  }

  // ---------------------------------------------------------------------------
  // Operations
  // ---------------------------------------------------------------------------

  /** 16-bit unsigned arithmetic, as the counters are stored: it wraps. */
  function Plus16(a: nat, b: nat): nat { (a + b) % 0x1_0000 }
  function Minus16(a: nat, b: nat): nat { (a - b) % 0x1_0000 }

  /** Entry `(s, c)` replaced by `held`, and the count of `c` by `count`. */
  function SetEntry(l: Ledger, s: nat, c: nat, held: nat, count: nat): Ledger
    requires s < |l.out| && |l.out[s]| == |l.refs| && c < |l.refs|
  {
    var row: seq<nat> := l.out[s][c := held];
    l.(refs := l.refs[c := count], out := l.out[s := row])
  }

  function Free(l: Ledger, c: nat): Ledger {
    l.(free := l.free + [c])
  }

  /** Give back one reference of slot `s` on chunk `c`. The index comes from another
      process: one this slot was never given changes nothing. */
  function ReleaseRef(l: Ledger, s: nat, c: nat): Ledger
    requires s < |l.out| && |l.out[s]| == |l.refs|
  {
    if c >= |l.refs| || l.out[s][c] == 0 then l
    else
      var l' := SetEntry(l, s, c, l.out[s][c] - 1, Minus16(l.refs[c], 1));
      if l'.refs[c] == 0 then Free(l', c) else l'
  }

  function AddRef(l: Ledger, s: nat, c: nat): Ledger
    requires s < |l.out| && |l.out[s]| == |l.refs| && c < |l.refs|
  {
    SetEntry(l, s, c, Plus16(l.out[s][c], 1), Plus16(l.refs[c], 1))
  }

  /** All of `entries`, in order, as released by slot `s`. */
  function ReleaseAll(l: Ledger, s: nat, entries: seq<nat>): (r: Ledger)
    requires s < |l.out| && |l.out[s]| == |l.refs|
    ensures |r.refs| == |l.refs| && |r.out| == |l.out| && |r.out[s]| == |r.refs|
    decreases |entries|
  {
    if entries == [] then l
    else ReleaseRef(ReleaseAll(l, s, entries[..|entries| - 1]), s, entries[|entries| - 1])
  }

  /** Take back whatever slot `s` still holds on chunk `c`. */
  function ForfeitOne(l: Ledger, s: nat, c: nat): Ledger
    requires s < |l.out| && |l.out[s]| == |l.refs| && c < |l.refs|
  {
    var o := l.out[s][c];
    if o == 0 then l
    else
      var l' := SetEntry(l, s, c, 0, Minus16(l.refs[c], o));
      if l'.refs[c] == 0 then Free(l', c) else l'
  }

  /** Take back everything slot `s` holds on the chunks below `n`. */
  function Forfeit(l: Ledger, s: nat, n: nat): (r: Ledger)
    requires s < |l.out| && |l.out[s]| == |l.refs| && n <= |l.refs|
    ensures |r.refs| == |l.refs| && |r.out| == |l.out| && |r.out[s]| == |r.refs|
  {
    if n == 0 then l else ForfeitOne(Forfeit(l, s, n - 1), s, n - 1)
  }

  /** The book-keeping half of reclaiming a slot: drain its done ring, then forfeit. */
  function Reclaim(l: Ledger, s: nat, entries: seq<nat>): Ledger
    requires s < |l.out| && |l.out[s]| == |l.refs|
  {
    Forfeit(ReleaseAll(l, s, entries), s, |l.refs|)
  }

  // ---------------------------------------------------------------------------
  // The invariant
  // ---------------------------------------------------------------------------

  /** The references all slots together hold on chunk `c`. */
  ghost function Column(out: seq<seq<nat>>, c: nat): nat
    requires forall s | 0 <= s < |out| :: c < |out[s]|
  {
    if out == [] then 0 else Column(out[..|out| - 1], c) + out[|out| - 1][c]
  }

  ghost predicate Distinct(free: seq<nat>) {
    forall i, j | 0 <= i < j < |free| :: free[i] != free[j]
  }

  ghost predicate RowsUnit(l: Ledger) {
    forall s, c | 0 <= s < |l.out| && 0 <= c < |l.out[s]| :: l.out[s][c] <= 1
  }

  ghost predicate CountsAgree(l: Ledger)
    requires Shape(l, |l.refs|, |l.out|)
  {
    forall c | 0 <= c < |l.refs| :: l.refs[c] == Column(l.out, c)
  }

  /** Every chunk is in exactly one place: on the free stack, loaned to the publisher's
      caller, being delivered, or referenced by some slot. */
  ghost predicate Placed(l: Ledger, loaned: set<nat>, moving: set<nat>) {
    && loaned !! moving
    && (forall c | c in loaned + moving :: c < |l.refs|)
    && (forall c | c in loaned :: c < |l.refs| && l.refs[c] == 0)
    && Distinct(l.free)
    && (forall c | c in l.free :: c < |l.refs|)
    && (forall c | 0 <= c < |l.refs| :: c in l.free <==> l.refs[c] == 0 && c !in loaned + moving)
  }

  ghost predicate Books(l: Ledger, chunks: nat, slots: nat, loaned: set<nat>, moving: set<nat>) {
    && Shape(l, chunks, slots)
    && slots <= 0xFFFF
    && RowsUnit(l)
    && CountsAgree(l)
    && Placed(l, loaned, moving)
  }

  // ---------------------------------------------------------------------------
  // Columns
  // ---------------------------------------------------------------------------

  lemma {:induction false} ColumnUpdate(out: seq<seq<nat>>, s: nat, row: seq<nat>, c: nat)
    requires s < |out|
    requires forall t | 0 <= t < |out| :: c < |out[t]|
    requires c < |row|
    ensures Column(out[s := row], c) + out[s][c] == Column(out, c) + row[c]
  {
    var n := |out| - 1;
    if s == n {
      assert out[s := row][..n] == out[..n];
    } else {
      assert out[s := row][..n] == out[..n][s := row];
      ColumnUpdate(out[..n], s, row, c);
    }
  }

  lemma {:induction false} ColumnCovers(out: seq<seq<nat>>, s: nat, c: nat)
    requires s < |out|
    requires forall t | 0 <= t < |out| :: c < |out[t]|
    ensures out[s][c] <= Column(out, c)
  {
    if s < |out| - 1 { ColumnCovers(out[..|out| - 1], s, c); }
  }

  lemma {:induction false} ColumnZero(out: seq<seq<nat>>, c: nat)
    requires forall t | 0 <= t < |out| :: c < |out[t]|
    ensures Column(out, c) == 0 <==> forall t | 0 <= t < |out| :: out[t][c] == 0
  {
    if out != [] {
      var pre := out[..|out| - 1];
      ColumnZero(pre, c);
      assert forall t | 0 <= t < |pre| :: out[t] == pre[t];
    }
  }

  /** With unit rows a count never exceeds the number of slots, so it cannot wrap. */
  lemma {:induction false} ColumnBounded(out: seq<seq<nat>>, c: nat)
    requires forall t | 0 <= t < |out| :: c < |out[t]| && out[t][c] <= 1
    ensures Column(out, c) <= |out|
  {
    if out != [] { ColumnBounded(out[..|out| - 1], c); }
  }

  /** Replacing one entry of a row moves exactly that column. */
  lemma SetEntryCounts(l: Ledger, s: nat, c: nat, v: nat)
    requires Shape(l, |l.refs|, |l.out|) && CountsAgree(l)
    requires s < |l.out| && c < |l.refs|
    requires l.refs[c] + v >= l.out[s][c]
    ensures
      var l' := SetEntry(l, s, c, v, l.refs[c] + v - l.out[s][c]);
      Shape(l', |l.refs|, |l.out|) && CountsAgree(l')
  {
    var row: seq<nat> := l.out[s][c := v];
    var out' := l.out[s := row];
    forall d | 0 <= d < |l.refs|
      ensures Column(out', d) == (if d == c then l.refs[c] + v - l.out[s][c] else l.refs[d])
    {
      ColumnUpdate(l.out, s, row, d);
    }
  }

  // ---------------------------------------------------------------------------
  // Every operation keeps the books
  // ---------------------------------------------------------------------------

  /** Slot `s` holds nothing that is being delivered (or loaned) right now. */
  ghost predicate RowClear(l: Ledger, s: nat, moving: set<nat>)
    requires s < |l.out|
  {
    forall c | c in moving && c < |l.out[s]| :: l.out[s][c] == 0
  }

  /** What a step of the books may change: the references of slot `s`, downwards, and
      the free stack, by appending chunks that slot held and nobody else does. */
  ghost predicate OnlyRow(l: Ledger, l': Ledger, s: nat)
    requires s < |l.out|
  {
    && |l'.out| == |l.out|
    && |l'.refs| == |l.refs|
    && (forall t | 0 <= t < |l.out| && t != s :: l'.out[t] == l.out[t])
    && |l'.out[s]| == |l.out[s]|
    && (forall c | 0 <= c < |l.out[s]| :: l'.out[s][c] <= l.out[s][c])
    && l.free <= l'.free
  }

  /** One reference on a chunk that is neither loaned nor in delivery goes away. */
  lemma DropKeepsPlaced(l: Ledger, l': Ledger, loaned: set<nat>, moving: set<nat>, c: nat)
    requires Placed(l, loaned, moving) && c < |l.refs| && c !in loaned + moving && 0 < l.refs[c]
    requires l'.free == l.free && l'.refs == l.refs[c := l.refs[c] - 1]
    ensures Placed(if l'.refs[c] == 0 then Free(l', c) else l', loaned, moving)
  {
  }

  lemma DropKeepsBooks(l: Ledger, chunks: nat, slots: nat, loaned: set<nat>, moving: set<nat>, s: nat, c: nat)
    requires Books(l, chunks, slots, loaned, moving) && s < slots && c < chunks
    requires RowClear(l, s, moving) && l.out[s][c] != 0
    ensures l.out[s][c] == 1 && 0 < l.refs[c] <= 0xFFFF
    ensures
      var l' := SetEntry(l, s, c, 0, l.refs[c] - 1);
      Books(if l'.refs[c] == 0 then Free(l', c) else l', chunks, slots, loaned, moving)
  {
    ColumnCovers(l.out, s, c);
    ColumnBounded(l.out, c);
    SetEntryCounts(l, s, c, 0);
    assert c !in loaned + moving;
    DropKeepsPlaced(l, SetEntry(l, s, c, 0, l.refs[c] - 1), loaned, moving, c);
  }

  lemma ReleaseRefKeepsBooks(l: Ledger, chunks: nat, slots: nat, loaned: set<nat>, moving: set<nat>, s: nat, c: nat)
    requires Books(l, chunks, slots, loaned, moving) && s < slots
    requires RowClear(l, s, moving)
    ensures Books(ReleaseRef(l, s, c), chunks, slots, loaned, moving)
    ensures OnlyRow(l, ReleaseRef(l, s, c), s)
    ensures forall d | 0 <= d < chunks ::
              ReleaseRef(l, s, c).out[s][d] == if d == c then 0 else l.out[s][d]
  {
    hide RowsUnit, CountsAgree, Placed;
    if c < chunks && l.out[s][c] != 0 { DropKeepsBooks(l, chunks, slots, loaned, moving, s, c); }
  }

  lemma {:induction false} ReleaseAllKeepsBooks(l: Ledger, chunks: nat, slots: nat, loaned: set<nat>, moving: set<nat>,
                                                s: nat, entries: seq<nat>)
    requires Books(l, chunks, slots, loaned, moving) && s < slots
    requires RowClear(l, s, moving)
    ensures Books(ReleaseAll(l, s, entries), chunks, slots, loaned, moving)
    ensures OnlyRow(l, ReleaseAll(l, s, entries), s)
    ensures forall d | 0 <= d < chunks ::
              ReleaseAll(l, s, entries).out[s][d] == if d in entries then 0 else l.out[s][d]
    decreases |entries|
  {
    hide RowsUnit, CountsAgree, Placed;
    if entries != [] {
      var init := entries[..|entries| - 1];
      ReleaseAllKeepsBooks(l, chunks, slots, loaned, moving, s, init);
      ReleaseRefKeepsBooks(ReleaseAll(l, s, init), chunks, slots, loaned, moving, s, entries[|entries| - 1]);
      assert entries == init + [entries[|entries| - 1]];
    }
  }

  lemma ForfeitOneKeepsBooks(l: Ledger, chunks: nat, slots: nat, loaned: set<nat>, moving: set<nat>, s: nat, c: nat)
    requires Books(l, chunks, slots, loaned, moving) && s < slots && c < chunks
    requires RowClear(l, s, moving)
    ensures Books(ForfeitOne(l, s, c), chunks, slots, loaned, moving)
    ensures OnlyRow(l, ForfeitOne(l, s, c), s)
    ensures forall d | 0 <= d < chunks ::
              ForfeitOne(l, s, c).out[s][d] == if d == c then 0 else l.out[s][d]
  {
    hide RowsUnit, CountsAgree, Placed;
    if l.out[s][c] != 0 { DropKeepsBooks(l, chunks, slots, loaned, moving, s, c); }
  }

  lemma {:induction false} ForfeitKeepsBooks(l: Ledger, chunks: nat, slots: nat, loaned: set<nat>, moving: set<nat>,
                                             s: nat, n: nat)
    requires Books(l, chunks, slots, loaned, moving) && s < slots && n <= chunks
    requires RowClear(l, s, moving)
    ensures Books(Forfeit(l, s, n), chunks, slots, loaned, moving)
    ensures OnlyRow(l, Forfeit(l, s, n), s)
    ensures forall d | 0 <= d < chunks :: Forfeit(l, s, n).out[s][d] == if d < n then 0 else l.out[s][d]
  {
    hide RowsUnit, CountsAgree, Placed;
    if n > 0 {
      ForfeitKeepsBooks(l, chunks, slots, loaned, moving, s, n - 1);
      ForfeitOneKeepsBooks(Forfeit(l, s, n - 1), chunks, slots, loaned, moving, s, n - 1);
    }
  }

  /** Reclaiming a slot, whatever its done ring contained: the books stay consistent, the
      slot's row is zero, the other rows are as they were, and a chunk is free afterwards
      exactly when it was free before or this slot was its last holder. */
  lemma ReclaimIsExact(l: Ledger, chunks: nat, slots: nat, loaned: set<nat>, moving: set<nat>, s: nat, entries: seq<nat>)
    requires Books(l, chunks, slots, loaned, moving) && s < slots
    requires RowClear(l, s, moving)
    ensures
      var l' := Reclaim(l, s, entries);
      && Books(l', chunks, slots, loaned, moving)
      && OnlyRow(l, l', s)
      && (forall c | 0 <= c < chunks :: l'.out[s][c] == 0)
      && (forall c | 0 <= c < chunks ::
            c in l'.free <==> c in l.free || (l.out[s][c] > 0 && LastHolder(l, s, c)))
  {
    var mid := ReleaseAll(l, s, entries);
    ReleaseAllKeepsBooks(l, chunks, slots, loaned, moving, s, entries);
    ForfeitKeepsBooks(mid, chunks, slots, loaned, moving, s, chunks);
    var l' := Reclaim(l, s, entries);
    forall c | 0 <= c < chunks
      ensures c in l'.free <==> c in l.free || (l.out[s][c] > 0 && LastHolder(l, s, c))
    {
      ColumnZero(l'.out, c);
      ColumnZero(l.out, c);
      assert l.refs[c] == Column(l.out, c) && l'.refs[c] == Column(l'.out, c);
    }
  }

  ghost predicate LastHolder(l: Ledger, s: nat, c: nat)
    requires forall t | 0 <= t < |l.out| :: c < |l.out[t]|
  {
    forall t | 0 <= t < |l.out| && t != s :: l.out[t][c] == 0
  }

  /** Raising the count of the chunk being delivered, for a slot that does not hold it. */
  lemma AddRefKeepsBooks(l: Ledger, chunks: nat, slots: nat, loaned: set<nat>, moving: set<nat>, s: nat, c: nat)
    requires Books(l, chunks, slots, loaned, moving) && s < slots && c in moving && c < chunks
    requires l.out[s][c] == 0
    ensures Books(AddRef(l, s, c), chunks, slots, loaned, moving)
    ensures AddRef(l, s, c).refs[c] == l.refs[c] + 1
  {
    SetEntryCounts(l, s, c, 1);
    ColumnRoom(l.out, s, c);
    var l' := SetEntry(l, s, c, 1, l.refs[c] + 1);
    assert AddRef(l, s, c) == l';
    assert Placed(l', loaned, moving);
  }

  /** A slot that does not hold a chunk leaves its count below the number of slots. */
  lemma {:induction false} ColumnRoom(out: seq<seq<nat>>, s: nat, c: nat)
    requires s < |out|
    requires forall t | 0 <= t < |out| :: c < |out[t]| && out[t][c] <= 1
    requires out[s][c] == 0
    ensures Column(out, c) < |out|
  {
    if s < |out| - 1 { ColumnRoom(out[..|out| - 1], s, c); } else { ColumnBounded(out[..|out| - 1], c); }
  }

  /** loan(): the top of the free stack becomes a loan. */
  lemma TakeFreeKeepsBooks(l: Ledger, chunks: nat, slots: nat, loaned: set<nat>)
    requires Books(l, chunks, slots, loaned, {}) && l.free != []
    ensures
      var n := |l.free| - 1;
      Books(l.(free := l.free[..n]), chunks, slots, loaned + {l.free[n]}, {})
  {
    var n := |l.free| - 1;
    var c := l.free[n];
    var free' := l.free[..n];
    assert l.free == free' + [c];
    assert forall d | d in free' :: d in l.free && d != c;
    assert c in l.free;
  }

  /** release_loan(): a loan goes back to the free stack. */
  lemma ReturnKeepsBooks(l: Ledger, chunks: nat, slots: nat, loaned: set<nat>, c: nat)
    requires Books(l, chunks, slots, loaned, {}) && c in loaned
    ensures Books(Free(l, c), chunks, slots, loaned - {c}, {})
  {
  }

  /** The end of send(): a chunk nobody took is free again, any other is referenced. */
  lemma SettleKeepsBooks(l: Ledger, chunks: nat, slots: nat, loaned: set<nat>, c: nat)
    requires Books(l, chunks, slots, loaned, {c}) && c < chunks
    ensures Books(if l.refs[c] == 0 then Free(l, c) else l, chunks, slots, loaned, {})
  {
  }

  // ---------------------------------------------------------------------------
  // Counting chunks
  // ---------------------------------------------------------------------------

  ghost function RowSum(row: seq<nat>): nat {
    if row == [] then 0 else RowSum(row[..|row| - 1]) + row[|row| - 1]
  }

  ghost function TableSum(out: seq<seq<nat>>): nat {
    if out == [] then 0 else TableSum(out[..|out| - 1]) + RowSum(out[|out| - 1])
  }

  lemma {:induction false} RowSumMonotone(a: seq<nat>, b: seq<nat>)
    requires |a| == |b| && forall c | 0 <= c < |a| :: a[c] <= b[c]
    ensures RowSum(a) <= RowSum(b)
  {
    if a != [] {
      var n := |a| - 1;
      assert forall c | 0 <= c < n :: a[..n][c] == a[c] && b[..n][c] == b[c];
      RowSumMonotone(a[..n], b[..n]);
    }
  }

  /** The counts of a prefix of chunks, summed by chunk or by slot. */
  lemma {:induction false} SumByColumns(out: seq<seq<nat>>, refs: seq<nat>)
    requires forall s | 0 <= s < |out| :: |out[s]| == |refs|
    requires forall c | 0 <= c < |refs| :: refs[c] == Column(out, c)
    ensures RowSum(refs) == TableSum(out)
    decreases |out|
  {
    if out == [] {
      assert forall c | 0 <= c < |refs| :: refs[c] == 0;
      SumOfZeros(refs);
    } else {
      var n := |out| - 1;
      var pre := out[..n];
      var rest := seq(|refs|, c requires 0 <= c < |refs| => Column(pre, c));
      SumByColumns(pre, rest);
      SumOfSums(rest, out[n], refs);
    }
  }

  lemma {:induction false} SumOfZeros(row: seq<nat>)
    requires forall c | 0 <= c < |row| :: row[c] == 0
    ensures RowSum(row) == 0
  {
    if row != [] { SumOfZeros(row[..|row| - 1]); }
  }

  lemma {:induction false} SumOfSums(a: seq<nat>, b: seq<nat>, ab: seq<nat>)
    requires |a| == |b| == |ab| && forall c | 0 <= c < |a| :: ab[c] == a[c] + b[c]
    ensures RowSum(ab) == RowSum(a) + RowSum(b)
  {
    if a != [] {
      var n := |a| - 1;
      SumOfSums(a[..n], b[..n], ab[..n]);
    }
  }

  lemma {:induction false} TableSumBounded(out: seq<seq<nat>>, bound: nat)
    requires forall s | 0 <= s < |out| :: RowSum(out[s]) <= bound
    ensures TableSum(out) <= |out| * bound
  {
    if out != [] {
      TableSumBounded(out[..|out| - 1], bound);
      assert |out| * bound == (|out| - 1) * bound + bound;
    }
  }

  /** If no chunk is free, the chunks are covered by the loans and the references. */
  lemma {:induction false} ChunksCovered(refs: seq<nat>, held: set<nat>)
    requires forall c | 0 <= c < |refs| :: refs[c] > 0 || c in held
    ensures |refs| <= |held| + RowSum(refs)
  {
    if refs != [] {
      var n := |refs| - 1;
      if n in held {
        assert forall c | 0 <= c < n :: refs[..n][c] > 0 || c in held - {n};
        ChunksCovered(refs[..n], held - {n});
      } else {
        ChunksCovered(refs[..n], held);
      }
    }
  }

  /** The chunk budget: if every slot is down to `perSlot` references and fewer than
      `loans` chunks are loaned, a chunk is free. */
  lemma BudgetLeavesFreeChunk(l: Ledger, chunks: nat, slots: nat, loaned: set<nat>, perSlot: nat, loans: nat)
    requires Books(l, chunks, slots, loaned, {})
    requires chunks == slots * perSlot + loans
    requires |loaned| < loans
    requires forall s | 0 <= s < slots :: RowSum(l.out[s]) <= perSlot
    ensures l.free != []
  {
    if l.free == [] {
      assert forall c | 0 <= c < chunks :: l.refs[c] > 0 || c in loaned by {
        assert forall c | 0 <= c < chunks :: c !in l.free;
      }
      ChunksCovered(l.refs, loaned);
      SumByColumns(l.out, l.refs);
      TableSumBounded(l.out, perSlot);
      assert false;
    }
  }

  /** A row read as a bag of chunks has as many references as the bag has elements. */
  lemma {:induction false} RowIsBag(row: seq<nat>, bag: multiset<nat>)
    requires forall c | c in bag :: c < |row|
    requires forall c | 0 <= c < |row| :: row[c] == bag[c]
    ensures RowSum(row) == |bag|
    decreases |row|
  {
    if row == [] {
      assert bag == multiset{};
    } else {
      var n := |row| - 1;
      var rest := bag[n := 0];
      RowIsBag(row[..n], rest);
      assert bag == rest + multiset{}[n := bag[n]];
      assert |multiset{}[n := bag[n]]| == bag[n];
    }
  }

  /** A bag of distinct chunks below `n` has at most `n` elements. */
  lemma {:induction false} UnitBagBounded(bag: multiset<nat>, n: nat)
    requires forall c | c in bag :: c < n && bag[c] <= 1
    ensures |bag| <= n
  {
    if n == 0 {
      assert bag == multiset{};
    } else {
      var rest := bag[n - 1 := 0];
      UnitBagBounded(rest, n - 1);
      assert bag == rest + multiset{}[n - 1 := bag[n - 1]];
      assert |multiset{}[n - 1 := bag[n - 1]]| == bag[n - 1];
    }
  }
}
