/**
 The publisher's books as it keeps them: a free stack, one 16-bit reference count per
 chunk, and one flat table of 16-bit per-subscriber counts. Every method is proved to do
 what the `Ledger` function of the same step says.
 */
module PublisherCore {
  import L = Ledger
  import opened Channel
  import B = Bus

  /** Row `s` of a flat table with `n` entries to the row. */
  ghost function Row(flat: seq<nat>, n: nat, s: nat): seq<nat> {
    if s * n + n <= |flat| then flat[s * n..s * n + n] else []
  }

  ghost function Rows(flat: seq<nat>, n: nat, slots: nat): (rows: seq<seq<nat>>)
    ensures |rows| == slots && forall s | 0 <= s < slots :: rows[s] == Row(flat, n, s)
  {
    seq(slots, s requires 0 <= s < slots => Row(flat, n, s))
  }

  lemma RowFits(n: nat, slots: nat, s: nat)
    requires s < slots
    ensures s * n + n <= slots * n
  {
    assert (s + 1) * n <= slots * n;
  }

  lemma RowsShape(flat: seq<nat>, n: nat, slots: nat)
    requires |flat| == slots * n
    ensures forall s | 0 <= s < slots :: |Rows(flat, n, slots)[s]| == n
  {
    forall s | 0 <= s < slots
      ensures |Rows(flat, n, slots)[s]| == n
    {
      RowFits(n, slots, s);
    }
  }

  /** Entries of different rows are different entries. */
  lemma RowsApart(n: nat, s: nat, c: nat, t: nat, k: nat)
    requires c < n && k < n && s != t
    ensures s * n + c != t * n + k
  {
    if s < t {
      assert (s + 1) * n <= t * n;
    } else {
      assert (t + 1) * n <= s * n;
    }
  }

  lemma RowUpdate(flat: seq<nat>, n: nat, slots: nat, s: nat, c: nat, v: nat, t: nat)
    requires |flat| == slots * n && s < slots && t < slots && c < n && s * n + c < |flat|
    ensures |Row(flat, n, t)| == n
    ensures Row(flat[s * n + c := v], n, t) == if t == s then Row(flat, n, t)[c := v] else Row(flat, n, t)
  {
    RowFits(n, slots, t);
    var flat' := flat[s * n + c := v];
    forall k | 0 <= k < n
      ensures Row(flat', n, t)[k] == if t == s && k == c then v else Row(flat, n, t)[k]
    {
      if t != s { RowsApart(n, s, c, t, k); }
    }
  }

  lemma RowsUpdate(flat: seq<nat>, n: nat, slots: nat, s: nat, c: nat, v: nat)
    requires |flat| == slots * n && s < slots && c < n
    ensures s * n + c < |flat| && |Rows(flat, n, slots)[s]| == n
    ensures Rows(flat, n, slots)[s][c] == flat[s * n + c]
    ensures
      var row: seq<nat> := Rows(flat, n, slots)[s][c := v];
      Rows(flat[s * n + c := v], n, slots) == Rows(flat, n, slots)[s := row]
  {
    RowFits(n, slots, s);
    forall t | 0 <= t < slots { RowUpdate(flat, n, slots, s, c, v, t); }
    hide Row;
    assert Rows(flat, n, slots)[s][c] == flat[s * n + c] by { RowEntry(flat, n, s, c); }
  }

  lemma RowEntry(flat: seq<nat>, n: nat, s: nat, c: nat)
    requires s * n + n <= |flat| && c < n
    ensures |Row(flat, n, s)| == n && Row(flat, n, s)[c] == flat[s * n + c]
  {
  }

  /** The books as the constructor fills them. */
  lemma FreshBooks(l: L.Ledger, chunks: nat, slots: nat)
    requires L.Shape(l, chunks, slots) && slots <= 0xFFFF
    requires l.free == seq(chunks, k requires 0 <= k < chunks => chunks - 1 - k)
    requires forall c | 0 <= c < chunks :: l.refs[c] == 0
    requires forall s, c | 0 <= s < slots && 0 <= c < chunks :: l.out[s][c] == 0
    ensures L.Books(l, chunks, slots, {}, {})
  {
    forall c | 0 <= c < chunks
      ensures L.Column(l.out, c) == 0 && c in l.free
    {
      L.ColumnZero(l.out, c);
      assert l.free[chunks - 1 - c] == c;
    }
  }

  /** What a scan finds in a slot: nothing to do, a new subscriber to serve, or one that is
      leaving or cannot be watched. */
  datatype Scan = Leave | Onboard | TakeBack

  datatype Loaned = Chunk(c: nat) | LoanLimit | OutOfChunks

  ghost predicate Readable(rings: seq<DoneRing>) {
    forall s | 0 <= s < |rings| :: 1 <= |rings[s].buf| && rings[s].tail <= rings[s].head
  }

  class Publisher {
    const chunks: nat
    const slots: nat
    const maxLoans: nat
    var loansOut: nat
    var loanFailures: nat
    var free: seq<nat>
    var refcount: seq<nat>
    var outstanding: seq<nat>
    var active: seq<bool>
    var activeList: seq<nat>

    ghost predicate Valid()
      reads this
    {
      |refcount| == chunks && |outstanding| == slots * chunks && |active| == slots
    }

    /** The books this object keeps, as a value. */
    ghost function Books(): (l: L.Ledger)
      requires Valid()
      reads this
      ensures L.Shape(l, chunks, slots)
    {
      RowsShape(outstanding, chunks, slots);
      L.Ledger(free, refcount, Rows(outstanding, chunks, slots))
    }

    constructor (chunks: nat, slots: nat, maxLoans: nat)
      requires slots <= 0xFFFF
      ensures Valid() && this.chunks == chunks && this.slots == slots && this.maxLoans == maxLoans
      ensures activeList == [] && loansOut == loanFailures == 0
      ensures L.Books(Books(), chunks, slots, {}, {})
      ensures |free| == chunks && forall s | 0 <= s < slots :: !active[s]
    {
      this.chunks, this.slots, this.maxLoans := chunks, slots, maxLoans;
      loansOut, loanFailures := 0, 0;
      free := seq(chunks, k requires 0 <= k < chunks => chunks - 1 - k);
      refcount := seq(chunks, _ => 0);
      outstanding := seq(slots * chunks, _ => 0);
      active := seq(slots, _ => false);
      activeList := [];
      new;
      forall s, c | 0 <= s < slots && 0 <= c < chunks
        ensures Books().out[s][c] == 0
      {
        RowFits(chunks, slots, s);
        RowEntry(outstanding, chunks, s, c);
      }
      FreshBooks(Books(), chunks, slots);
    }

    method FreeChunk(c: nat)
      requires Valid()
      modifies `free
      ensures Valid() && Books() == L.Free(old(Books()), c)
    {
      free := free + [c];
    }

    method ReleaseRef(s: nat, c: nat)
      requires Valid() && s < slots
      modifies `free, `refcount, `outstanding
      ensures Valid() && Books() == L.ReleaseRef(old(Books()), s, c)
    {
      if c >= chunks { return; }
      RowsUpdate(outstanding, chunks, slots, s, c, 0);
      var out := outstanding[s * chunks + c];
      if out == 0 { return; }
      RowsUpdate(outstanding, chunks, slots, s, c, out - 1);
      outstanding := outstanding[s * chunks + c := out - 1];
      refcount := refcount[c := L.Minus16(refcount[c], 1)];
      if refcount[c] == 0 { FreeChunk(c); }
    }

    /** deliver() raises the counts after it has published the chunk. */
    method Credit(s: nat, c: nat)
      requires Valid() && s < slots && c < chunks
      modifies `refcount, `outstanding
      ensures Valid() && Books() == L.AddRef(old(Books()), s, c)
    {
      refcount := refcount[c := L.Plus16(refcount[c], 1)];
      RowsUpdate(outstanding, chunks, slots, s, c, 0);
      var out := L.Plus16(outstanding[s * chunks + c], 1);
      RowsUpdate(outstanding, chunks, slots, s, c, out);
      outstanding := outstanding[s * chunks + c := out];
    }

    /** Reads a done ring up to the head it loaded; returns the new done_tail. */
    method DrainDone(s: nat, d: DoneRing) returns (tail: nat)
      requires Valid() && s < slots && 1 <= |d.buf| && d.tail <= d.head
      modifies `free, `refcount, `outstanding
      ensures Valid() && tail == d.head
      ensures Books() == L.ReleaseAll(old(Books()), s, Undrained(d))
    {
      hide L.ReleaseRef, Rows, Row;
      ghost var todo := Undrained(d);
      tail := d.tail;
      while tail != d.head
        invariant d.tail <= tail <= d.head && Valid()
        invariant Books() == L.ReleaseAll(old(Books()), s, todo[..tail - d.tail])
        decreases d.head - tail
      {
        ghost var k := tail - d.tail;
        assert todo[..k + 1][..k] == todo[..k] && todo[..k + 1][k] == d.buf[tail % |d.buf|];
        ReleaseRef(s, d.buf[tail % |d.buf|]);
        tail := tail + 1;
      }
      assert todo[..|todo|] == todo;
    }

    method ReclaimSlot(s: nat, d: DoneRing)
      requires Valid() && s < slots && 1 <= |d.buf| && d.tail <= d.head
      modifies `free, `refcount, `outstanding, `active
      ensures Valid() && Books() == L.Reclaim(old(Books()), s, Undrained(d))
      ensures active == old(active)[s := false]
    {
      hide L.ForfeitOne, L.ReleaseAll, Rows, Row;
      var _ := DrainDone(s, d);
      label Drained:
      var c := 0;
      while c < chunks
        invariant c <= chunks && Valid() && active == old(active)
        invariant Books() == L.Forfeit(old@Drained(Books()), s, c)
      {
        Forfeit(s, c);
        c := c + 1;
      }
      active := active[s := false];
    }

    /** One chunk of reclaim_slot()'s loop. */
    method Forfeit(s: nat, c: nat)
      requires Valid() && s < slots && c < chunks
      modifies `free, `refcount, `outstanding
      ensures Valid() && Books() == L.ForfeitOne(old(Books()), s, c)
    {
      RowsUpdate(outstanding, chunks, slots, s, c, 0);
      var out := outstanding[s * chunks + c];
      if out == 0 { return; }
      refcount := refcount[c := L.Minus16(refcount[c], out)];
      outstanding := outstanding[s * chunks + c := 0];
      if refcount[c] == 0 { FreeChunk(c); }
    }

    /** Two passes over the slots, the Block subscribers in the second. The list is the one
        the service model delivers by. */
    method RebuildActiveList(blocking: seq<bool>, ghost w: B.World)
      requires Valid() && |blocking| == slots
      requires w.onboard == active && |w.chans| == slots
      requires forall i | 0 <= i < slots :: blocking[i] <==> w.chans[i].policy == Block
      modifies `activeList
      ensures Valid() && activeList == B.ActiveList(w)
    {
      activeList := [];
      var pass := 0;
      while pass < 2
        invariant 0 <= pass <= 2
        invariant activeList == (if 1 <= pass then B.Pass(w, false, slots) else [])
                                + (if pass == 2 then B.Pass(w, true, slots) else [])
      {
        ghost var before := activeList;
        var s := 0;
        while s < slots
          invariant 0 <= s <= slots
          invariant activeList == before + B.Pass(w, pass == 1, s)
        {
          if active[s] && blocking[s] == (pass == 1) {
            activeList := activeList + [s];
          }
          s := s + 1;
        }
        pass := pass + 1;
      }
    }

    /** Drains every subscriber the publisher delivers to. */
    method DrainActive(rings: seq<DoneRing>)
      requires Valid() && |rings| == slots && Readable(rings)
      requires forall k | 0 <= k < |activeList| :: activeList[k] < slots
      modifies `free, `refcount, `outstanding
      ensures Valid() && Books() == DrainList(old(Books()), rings, activeList)
    {
      hide Rows, Row, L.ReleaseAll;
      var k := 0;
      while k < |activeList|
        invariant 0 <= k <= |activeList| && Valid()
        invariant Books() == DrainList(old(Books()), rings, activeList[..k])
      {
        assert activeList[..k + 1][..k] == activeList[..k];
        var _ := DrainDone(activeList[k], rings[activeList[k]]);
        k := k + 1;
      }
      assert activeList[..|activeList|] == activeList;
    }

    /** Takes back the slots of those who left, serves the new ones, and renews the list if
        anything changed. */
    method ScanSlots(rings: seq<DoneRing>, found: seq<Scan>, blocking: seq<bool>, ghost w: B.World)
      requires Valid() && |rings| == |found| == |blocking| == slots && Readable(rings)
      requires |w.chans| == slots && forall i | 0 <= i < slots :: blocking[i] <==> w.chans[i].policy == Block
      modifies `free, `refcount, `outstanding, `active, `activeList
      ensures Valid() && Books() == ScanBooks(old(Books()), rings, found, slots)
      ensures forall s | 0 <= s < slots :: active[s] == (found[s] == Onboard || (found[s] == Leave && old(active)[s]))
      ensures activeList == if forall s | 0 <= s < slots :: found[s] == Leave then old(activeList)
                            else B.ActiveList(w.(onboard := active))
    {
      hide L.Reclaim, Rows, Row;
      var changed := false;
      for s := 0 to slots
        invariant Valid() && Books() == ScanBooks(old(Books()), rings, found, s) && activeList == old(activeList)
        invariant forall k | 0 <= k < s :: active[k] == (found[k] == Onboard || (found[k] == Leave && old(active)[k]))
        invariant forall k | s <= k < slots :: active[k] == old(active)[k]
        invariant changed <==> !forall k | 0 <= k < s :: found[k] == Leave
      {
        match found[s]
        case Leave =>
        case Onboard => active, changed := active[s := true], true;
        case TakeBack =>
          ReclaimSlot(s, rings[s]);
          changed := true;
      }
      if changed { RebuildActiveList(blocking, w.(onboard := active)); }
    }

    /** Drains the done rings, and if that leaves no chunk scans the slots; `late` is what
        their done rings hold by then. */
    method Collect(rings: seq<DoneRing>, late: seq<DoneRing>, found: seq<Scan>, blocking: seq<bool>, ghost w: B.World)
      requires Valid() && |rings| == |late| == |found| == |blocking| == slots && Readable(rings) && Readable(late)
      requires |w.chans| == slots && forall i | 0 <= i < slots :: blocking[i] <==> w.chans[i].policy == Block
      requires forall k | 0 <= k < |activeList| :: activeList[k] < slots
      modifies `free, `refcount, `outstanding, `active, `activeList
      ensures Valid() && Books() == CollectBooks(old(Books()), rings, old(activeList), late, found)
    {
      DrainActive(rings);
      hide DrainList, ScanBooks, Rows, Row;
      if free == [] { ScanSlots(late, found, blocking, w); }
    }

    /** loan(): nothing above the limit, else the top of the stack that collecting leaves. If
        the books were in order with the chunks in `loaned` out, the chunk lent is one that
        nobody had but what the done rings returned or the scan took back; and there is none
        only if every chunk is out or still held. Within the chunk budget there always is one. */
    method Loan(rings: seq<DoneRing>, late: seq<DoneRing>, found: seq<Scan>, blocking: seq<bool>, ghost w: B.World,
                ghost loaned: set<nat>, ghost perSlot: nat)
      returns (r: Loaned)
      requires Valid() && |rings| == |late| == |found| == |blocking| == slots && Readable(rings) && Readable(late)
      requires |w.chans| == slots && forall i | 0 <= i < slots :: blocking[i] <==> w.chans[i].policy == Block
      requires forall k | 0 <= k < |activeList| :: activeList[k] < slots
      modifies this
      ensures Valid()
      ensures
        var l := CollectBooks(old(Books()), rings, old(activeList), late, found);
        if maxLoans <= old(loansOut) then
          r == LoanLimit && Books() == old(Books()) && loansOut == old(loansOut) && loanFailures == old(loanFailures)
        else if l.free == [] then
          r == OutOfChunks && Books() == l && loansOut == old(loansOut) && loanFailures == old(loanFailures) + 1
        else
          && r == Chunk(l.free[|l.free| - 1]) && Books() == l.(free := l.free[..|l.free| - 1])
          && loansOut == old(loansOut) + 1 && loanFailures == old(loanFailures)
      ensures maxLoans <= old(loansOut)
              || FairLoan(old(Books()), chunks, loaned, rings, old(activeList), found, r, Books())
      ensures old(loansOut) < maxLoans && WithinBudget(old(Books()), chunks, loaned, rings, old(activeList), perSlot, maxLoans)
              ==> r.Chunk?
    {
      hide CollectBooks, Rows, Row, L.Books, WithinBudget, FairLoan, DrainList;
      CollectIsFair(Books(), chunks, loaned, rings, activeList, late, found);
      CollectLeavesOne(Books(), chunks, loaned, rings, activeList, late, found, perSlot, maxLoans);
      if loansOut >= maxLoans { return LoanLimit; }
      Collect(rings, late, found, blocking, w);
      if free == [] {
        loanFailures := loanFailures + 1;
        return OutOfChunks;
      }
      r := Chunk(free[|free| - 1]);
      free := free[..|free| - 1];
      loansOut := loansOut + 1;
    }

    method ReleaseLoan(c: nat)
      requires Valid() && 0 < loansOut
      modifies `free, `loansOut
      ensures Valid() && loansOut == old(loansOut) - 1 && Books() == L.Free(old(Books()), c)
    {
      loansOut := loansOut - 1;
      FreeChunk(c);
    }
  }

  ghost function DrainList(l: L.Ledger, rings: seq<DoneRing>, list: seq<nat>): (r: L.Ledger)
    requires L.Shape(l, |l.refs|, |rings|)
    requires forall k | 0 <= k < |list| :: list[k] < |rings|
    requires Readable(rings)
    ensures L.Shape(r, |l.refs|, |rings|)
    decreases |list|
  {
    if list == [] then l
    else
      var n := |list| - 1;
      var mid := DrainList(l, rings, list[..n]);
      ReleaseAllShape(mid, list[n], Undrained(rings[list[n]]));
      L.ReleaseAll(mid, list[n], Undrained(rings[list[n]]))
  }

  lemma {:induction false} ReleaseAllShape(l: L.Ledger, s: nat, entries: seq<nat>)
    requires L.Shape(l, |l.refs|, |l.out|) && s < |l.out|
    ensures L.Shape(L.ReleaseAll(l, s, entries), |l.refs|, |l.out|)
    decreases |entries|
  {
    if entries != [] { ReleaseAllShape(l, s, entries[..|entries| - 1]); }
  }

  lemma {:induction false} ForfeitShape(l: L.Ledger, s: nat, n: nat)
    requires L.Shape(l, |l.refs|, |l.out|) && s < |l.out| && n <= |l.refs|
    ensures L.Shape(L.Forfeit(l, s, n), |l.refs|, |l.out|)
  {
    if n > 0 { ForfeitShape(l, s, n - 1); }
  }

  /** The books after the first `n` slots of a scan. */
  ghost function ScanBooks(l: L.Ledger, rings: seq<DoneRing>, found: seq<Scan>, n: nat): (r: L.Ledger)
    requires L.Shape(l, |l.refs|, |rings|) && n <= |rings| == |found| && Readable(rings)
    ensures L.Shape(r, |l.refs|, |rings|)
  {
    if n == 0 then l
    else
      var mid := ScanBooks(l, rings, found, n - 1);
      var entries := Undrained(rings[n - 1]);
      ReleaseAllShape(mid, n - 1, entries);
      ForfeitShape(L.ReleaseAll(mid, n - 1, entries), n - 1, |mid.refs|);
      if found[n - 1] == TakeBack then L.Reclaim(mid, n - 1, entries) else mid
  }

  ghost function CollectBooks(l: L.Ledger, rings: seq<DoneRing>, list: seq<nat>, late: seq<DoneRing>, found: seq<Scan>)
    : (r: L.Ledger)
    requires L.Shape(l, |l.refs|, |rings|) && |rings| == |late| == |found| && Readable(rings) && Readable(late)
    requires forall k | 0 <= k < |list| :: list[k] < |rings|
    ensures L.Shape(r, |l.refs|, |rings|)
  {
    var drained := DrainList(l, rings, list);
    if drained.free == [] then ScanBooks(drained, late, found, |late|) else drained
  }

  // ---------------------------------------------------------------------------
  // What collecting leaves
  // ---------------------------------------------------------------------------

  /** What slot `s` still has on chunk `d` once the listed done rings are drained. */
  ghost function Kept(l: L.Ledger, rings: seq<DoneRing>, list: seq<nat>, s: nat, d: nat): nat
    requires s < |l.out| == |rings| && d < |l.out[s]| && Readable(rings)
  {
    if s in list && d in Undrained(rings[s]) then 0 else l.out[s][d]
  }

  /** Draining takes back exactly what the listed done rings return. */
  lemma {:induction false} DrainListIsExact(l: L.Ledger, chunks: nat, loaned: set<nat>, rings: seq<DoneRing>, list: seq<nat>)
    requires L.Books(l, chunks, |rings|, loaned, {}) && Readable(rings)
    requires forall k | 0 <= k < |list| :: list[k] < |rings|
    ensures L.Books(DrainList(l, rings, list), chunks, |rings|, loaned, {})
    ensures forall s, d | 0 <= s < |rings| && 0 <= d < chunks ::
              DrainList(l, rings, list).out[s][d] == Kept(l, rings, list, s, d)
    decreases |list|
  {
    hide L.RowsUnit, L.CountsAgree, L.Placed, Undrained, L.ReleaseAll;
    if list != [] {
      var n := |list| - 1;
      DrainListIsExact(l, chunks, loaned, rings, list[..n]);
      L.ReleaseAllKeepsBooks(DrainList(l, rings, list[..n]), chunks, |rings|, loaned, {}, list[n], Undrained(rings[list[n]]));
      assert list == list[..n] + [list[n]];
    }
  }

  /** A scan clears the rows of the slots taken back, and no others. */
  lemma {:induction false} ScanIsExact(l: L.Ledger, chunks: nat, loaned: set<nat>, rings: seq<DoneRing>, found: seq<Scan>, n: nat)
    requires L.Books(l, chunks, |rings|, loaned, {}) && n <= |rings| == |found| && Readable(rings)
    ensures L.Books(ScanBooks(l, rings, found, n), chunks, |rings|, loaned, {})
    ensures forall s, d | 0 <= s < |rings| && 0 <= d < chunks ::
              ScanBooks(l, rings, found, n).out[s][d] == if s < n && found[s] == TakeBack then 0 else l.out[s][d]
  {
    hide L.RowsUnit, L.CountsAgree, L.Placed, Undrained, L.Reclaim, L.LastHolder;
    if n > 0 {
      ScanIsExact(l, chunks, loaned, rings, found, n - 1);
      var mid := ScanBooks(l, rings, found, n - 1);
      if found[n - 1] == TakeBack {
        L.ReclaimIsExact(mid, chunks, |rings|, loaned, {}, n - 1, Undrained(rings[n - 1]));
      }
    }
  }

  /** What slot `s` still has on chunk `d` after collecting. */
  ghost function Left(l: L.Ledger, rings: seq<DoneRing>, list: seq<nat>, found: seq<Scan>, scanned: bool, s: nat, d: nat): nat
    requires s < |l.out| == |rings| == |found| && d < |l.out[s]| && Readable(rings)
  {
    if scanned && found[s] == TakeBack then 0 else Kept(l, rings, list, s, d)
  }

  lemma CollectIsExact(l: L.Ledger, chunks: nat, loaned: set<nat>, rings: seq<DoneRing>, list: seq<nat>, late: seq<DoneRing>,
                       found: seq<Scan>)
    requires L.Books(l, chunks, |rings|, loaned, {}) && |rings| == |late| == |found| && Readable(rings) && Readable(late)
    requires forall k | 0 <= k < |list| :: list[k] < |rings|
    ensures
      var l' := CollectBooks(l, rings, list, late, found);
      var scanned := DrainList(l, rings, list).free == [];
      && L.Books(l', chunks, |rings|, loaned, {})
      && (forall s, d | 0 <= s < |rings| && 0 <= d < chunks :: l'.out[s][d] == Left(l, rings, list, found, scanned, s, d))
      && (forall c | 0 <= c < chunks ::
            c in l'.free <==> c !in loaned && forall s | 0 <= s < |rings| :: Left(l, rings, list, found, scanned, s, c) == 0)
  {
    DrainListIsExact(l, chunks, loaned, rings, list);
    var mid := DrainList(l, rings, list);
    ScanIsExact(mid, chunks, loaned, late, found, |late|);
    hide Undrained, DrainList, ScanBooks;
    var l' := CollectBooks(l, rings, list, late, found);
    forall c | 0 <= c < chunks
      ensures c in l'.free <==> c !in loaned && forall s | 0 <= s < |rings| :: l'.out[s][c] == 0
    {
      L.ColumnZero(l'.out, c);
    }
  }

  /** A loan from books in order, with the chunks in `loaned` out: the chunk lent is one nobody
      has any more; and there is none only if every chunk is out or still held. */
  ghost predicate FairLoan(l: L.Ledger, chunks: nat, loaned: set<nat>, rings: seq<DoneRing>, list: seq<nat>, found: seq<Scan>,
                           r: Loaned, after: L.Ledger)
    requires L.Shape(l, chunks, |rings|) && |found| == |rings| && Readable(rings)
    requires forall k | 0 <= k < |list| :: list[k] < |rings|
  {
    var scanned := DrainList(l, rings, list).free == [];
    L.Books(l, chunks, |rings|, loaned, {}) ==>
      match r
      case LoanLimit => false
      case Chunk(c) =>
        && c < chunks && c !in loaned && L.Books(after, chunks, |rings|, loaned + {c}, {})
        && forall s | 0 <= s < |rings| :: Left(l, rings, list, found, scanned, s, c) == 0
      case OutOfChunks =>
        forall c | 0 <= c < chunks ::
          c in loaned || exists s | 0 <= s < |rings| :: Left(l, rings, list, found, scanned, s, c) > 0
  }

  lemma CollectIsFair(l: L.Ledger, chunks: nat, loaned: set<nat>, rings: seq<DoneRing>, list: seq<nat>, late: seq<DoneRing>,
                      found: seq<Scan>)
    requires L.Shape(l, chunks, |rings|) && |rings| == |late| == |found| && Readable(rings) && Readable(late)
    requires forall k | 0 <= k < |list| :: list[k] < |rings|
    ensures
      var l' := CollectBooks(l, rings, list, late, found);
      var n := |l'.free| - 1;
      if l'.free == [] then FairLoan(l, chunks, loaned, rings, list, found, OutOfChunks, l')
      else FairLoan(l, chunks, loaned, rings, list, found, Chunk(l'.free[n]), l'.(free := l'.free[..n]))
  {
    if !L.Books(l, chunks, |rings|, loaned, {}) { return; }
    CollectIsExact(l, chunks, loaned, rings, list, late, found);
    var l' := CollectBooks(l, rings, list, late, found);
    hide CollectBooks, DrainList, Left, Undrained;
    if l'.free != [] {
      assert l'.free[|l'.free| - 1] in l'.free;
      L.TakeFreeKeepsBooks(l', chunks, |rings|, loaned);
    }
  }

  /** Fewer than `loans` chunks are out, and no slot keeps more than `perSlot` after draining. */
  ghost predicate WithinBudget(l: L.Ledger, chunks: nat, loaned: set<nat>, rings: seq<DoneRing>, list: seq<nat>, perSlot: nat,
                               loans: nat)
    requires L.Shape(l, chunks, |rings|) && Readable(rings) && forall k | 0 <= k < |list| :: list[k] < |rings|
  {
    && L.Books(l, chunks, |rings|, loaned, {}) && chunks == |rings| * perSlot + loans && |loaned| < loans
    && forall s | 0 <= s < |rings| :: L.RowSum(DrainList(l, rings, list).out[s]) <= perSlot
  }

  /** Within the chunk budget collecting leaves a chunk, without a scan. */
  lemma CollectLeavesOne(l: L.Ledger, chunks: nat, loaned: set<nat>, rings: seq<DoneRing>, list: seq<nat>, late: seq<DoneRing>,
                         found: seq<Scan>, perSlot: nat, loans: nat)
    requires L.Shape(l, chunks, |rings|) && |rings| == |late| == |found| && Readable(rings) && Readable(late)
    requires forall k | 0 <= k < |list| :: list[k] < |rings|
    ensures WithinBudget(l, chunks, loaned, rings, list, perSlot, loans) ==>
              DrainList(l, rings, list).free != [] && CollectBooks(l, rings, list, late, found).free != []
  {
    if !WithinBudget(l, chunks, loaned, rings, list, perSlot, loans) { return; }
    DrainListIsExact(l, chunks, loaned, rings, list);
    hide L.Books, DrainList, Kept;
    L.BudgetLeavesFreeChunk(DrainList(l, rings, list), chunks, |rings|, loaned, perSlot, loans);
  }
}
