/**
 Where a channel's chunks are. A chunk handed to a subscriber is queued, held by the
 subscriber, or on its way back in the done ring; the publisher's row for that slot
 counts exactly those, up to the one chunk whose count is still to be raised.
 */
module ChannelCustody {
  import Ledger
  import opened Channel
  import opened ChannelRing

  /** The chunks of a list of samples, as a bag. */
  ghost function Bag(es: seq<Entry>): multiset<nat> {
    if es == [] then multiset{} else Bag(es[..|es| - 1]) + multiset{es[|es| - 1].chunk}
  }

  ghost function Queue(r: Ring): seq<Entry>
    requires r.tail <= r.head == |r.log|
  {
    r.log[r.tail..]
  }

  ghost predicate Countable(ch: Chan) {
    && ch.ring.tail <= ch.ring.head == |ch.ring.log|
    && 1 <= |ch.done.buf|
    && ch.done.tail <= ch.done.head
  }

  ghost function Custody(ch: Chan): multiset<nat>
    requires Countable(ch)
  {
    Bag(Queue(ch.ring)) + Bag(ch.reader.held) + multiset(Undrained(ch.done))
  }

  /** What the books (plus the count still to be raised) say the slot holds of chunk `c`. */
  ghost function Owed(row: seq<nat>, pv: PubView, c: nat): nat {
    (if c < |row| then row[c] else 0) + (if pv.Delivering? && pv.at.Credit? && pv.entry.chunk == c then 1 else 0)
  }

  ghost predicate Agrees(bag: multiset<nat>, row: seq<nat>, pv: PubView) {
    forall c: nat :: bag[c] == Owed(row, pv, c) <= 1
  }

  /** Custody and the books agree, and no chunk is counted twice. */
  ghost predicate Conserved(ch: Chan, row: seq<nat>, pv: PubView)
    requires Countable(ch)
  {
    Agrees(Custody(ch), row, pv)
  }

  /** The borrow limit, and the sample a receive in progress has already popped. */
  ghost predicate HeldInv(cfg: Config, ch: Chan) {
    var r := ch.reader;
    && |r.held| <= cfg.maxBorrowed
    && (ch.state == Active ==> |r.held| == r.borrowed + (if MidPop(r.pc) then 1 else 0))
    && (PrePop(r.pc) ==> r.borrowed < cfg.maxBorrowed)
    && (MidPop(r.pc) ==> r.held != [] && r.got != [] && r.held[|r.held| - 1] == r.got[|r.got| - 1]
                         && r.held[|r.held| - 1].chunk == r.pc.c)
  }

  // ---------------------------------------------------------------------------
  // Bags
  // ---------------------------------------------------------------------------

  lemma {:induction false} BagConcat(a: seq<Entry>, b: seq<Entry>)
    ensures Bag(a + b) == Bag(a) + Bag(b)
    decreases |b|
  {
    if b == [] {
      assert a + b == a;
    } else {
      var n := |b| - 1;
      assert (a + b)[..|a + b| - 1] == a + b[..n];
      BagConcat(a, b[..n]);
    }
  }

  lemma BagOne(e: Entry)
    ensures Bag([e]) == multiset{e.chunk}
  {
    assert [e][..0] == [];
  }

  lemma {:induction false} BagHas(es: seq<Entry>, k: nat)
    requires k < |es|
    ensures Bag(es)[es[k].chunk] >= 1
    decreases |es|
  {
    if k < |es| - 1 { BagHas(es[..|es| - 1], k); }
  }

  lemma BagWithout(es: seq<Entry>, k: nat)
    requires k < |es|
    ensures Bag(es) == Bag(Without(es, k)) + multiset{es[k].chunk}
  {
    hide Bag;
    var a, e, b := es[..k], es[k], es[k + 1..];
    calc {
      Bag(es);
      { assert es == (a + [e]) + b; }
      Bag((a + [e]) + b);
      { BagConcat(a + [e], b); BagConcat(a, [e]); BagOne(e); }
      Bag(a) + multiset{e.chunk} + Bag(b);
      { BagConcat(a, b); }
      Bag(a + b) + multiset{e.chunk};
    }
  }

  lemma {:induction false} BagSize(es: seq<Entry>)
    ensures |Bag(es)| == |es|
  {
    if es != [] { BagSize(es[..|es| - 1]); }
  }

  lemma QueuePopped(r: Ring)
    requires r.tail < r.head == |r.log|
    ensures Bag(Queue(r)) == Bag(r.log[r.tail + 1..]) + multiset{r.log[r.tail].chunk}
  {
    hide Bag;
    assert Queue(r) == [r.log[r.tail]] + r.log[r.tail + 1..];
    BagConcat([r.log[r.tail]], r.log[r.tail + 1..]);
    BagOne(r.log[r.tail]);
  }

  lemma QueuePushed(r: Ring, e: Entry)
    requires r.tail <= r.head == |r.log|
    ensures Bag((r.log + [e])[r.tail..]) == Bag(Queue(r)) + multiset{e.chunk}
  {
    hide Bag;
    assert (r.log + [e])[r.tail..] == Queue(r) + [e];
    BagConcat(Queue(r), [e]);
    BagOne(e);
  }

  /** Appending to a done ring that is not full. */
  lemma DonePushed(d: DoneRing, c: nat)
    requires 1 <= |d.buf| && d.tail <= d.head < d.tail + |d.buf|
    ensures Undrained(PushDone(d, c)) == Undrained(d) + [c]
  {
    var a, b := Undrained(PushDone(d, c)), Undrained(d);
    forall k | 0 <= k < |a|
      ensures a[k] == (b + [c])[k]
    {
      if k < |b| { NoSharedWord(d.tail + k, d.head, |d.buf|); }
    }
  }

  // ---------------------------------------------------------------------------
  // The done ring never overflows
  // ---------------------------------------------------------------------------

  /** A channel's custody is a set of distinct chunks, so it fits the chunk pool. */
  lemma CustodyFits(cfg: Config, ch: Chan, row: seq<nat>, pv: PubView)
    requires Countable(ch) && Conserved(ch, row, pv) && |row| == cfg.chunks
    requires pv.Delivering? ==> pv.entry.chunk < cfg.chunks
    ensures |Custody(ch)| <= cfg.chunks
    ensures forall c | c in Custody(ch) :: c < cfg.chunks
  {
    forall c | c in Custody(ch)
      ensures c < cfg.chunks && Custody(ch)[c] <= 1
    {
      assert Custody(ch)[c] == Owed(row, pv, c);
    }
    Ledger.UnitBagBounded(Custody(ch), cfg.chunks);
  }

  /** release() never checks for a full done ring, and never needs to. */
  lemma DoneRingHasRoom(cfg: Config, ch: Chan, row: seq<nat>, pv: PubView)
    requires GoodConfig(cfg) && |ch.done.buf| == cfg.doneCap
    requires Countable(ch) && Conserved(ch, row, pv) && |row| == cfg.chunks
    requires pv.Delivering? ==> pv.entry.chunk < cfg.chunks
    requires ch.reader.held != []
    ensures ch.done.head < ch.done.tail + cfg.doneCap
  {
    CustodyFits(cfg, ch, row, pv);
    BagSize(ch.reader.held);
    assert |multiset(Undrained(ch.done))| == ch.done.head - ch.done.tail;
  }

  // ---------------------------------------------------------------------------
  // Every action conserves chunks
  // ---------------------------------------------------------------------------

  lemma PopKeepsCustody(ch: Chan, t: nat, c: nat)
    requires Countable(ch) && (ch.ring.tail == t ==> t < ch.ring.head)
    ensures Countable(PopCas(ch, t, c)) && Custody(PopCas(ch, t, c)) == Custody(ch)
  {
    hide Bag;
    var r := ch.ring;
    if r.tail == t {
      var e := r.log[t];
      QueuePopped(r);
      BagConcat(ch.reader.held, [e]);
      BagOne(e);
      var ch' := PopCas(ch, t, c);
      assert Queue(ch'.ring) == r.log[t + 1..];
    }
  }

  lemma ReleaseKeepsCustody(ch: Chan, k: nat, ch': Chan)
    requires Countable(ch) && k < |ch.reader.held|
    requires ch.done.head < ch.done.tail + |ch.done.buf|
    requires ch'.ring == ch.ring
    requires ch'.done == PushDone(ch.done, ch.reader.held[k].chunk)
    requires ch'.reader.held == Without(ch.reader.held, k)
    ensures Countable(ch') && Custody(ch') == Custody(ch)
  {
    hide Bag;
    DonePushed(ch.done, ch.reader.held[k].chunk);
    BagWithout(ch.reader.held, k);
  }

  lemma OnlyMovesKeepsCustody(cfg: Config, ch: Chan, ch': Chan)
    requires Countable(ch) && OnlyMoves(cfg, ch, ch')
    ensures Countable(ch') && Custody(ch') == Custody(ch)
  {
    hide Bag;
  }

  lemma OnlyMovesKeepsHeld(cfg: Config, ch: Chan, ch': Chan)
    requires HeldInv(cfg, ch) && OnlyMoves(cfg, ch, ch')
    ensures HeldInv(cfg, ch')
  {
  }

  /** A subscriber's actions move chunks along; they neither make nor lose any. */
  lemma SubKeepsCustody(cfg: Config, mem: seq<Cell>, gone: bool, ch: Chan, ch': Chan, row: seq<nat>, pv: PubView, act: SubAct)
    requires GoodConfig(cfg) && Sized(cfg, ch) && SubCan(cfg, ch, act) && LifeInv(ch)
    requires ReaderSees(ch.ring, ch.reader.pc) && Countable(ch)
    requires Conserved(ch, row, pv) && |row| == cfg.chunks && (pv.Delivering? ==> pv.entry.chunk < cfg.chunks)
    requires ch' == SubDo(cfg, mem, gone, ch, act)
    ensures Countable(ch') && Custody(ch') == Custody(ch)
  {
    hide SubDo, Conserved, Custody, LifeInv, PopCas;
    if !Special(act) {
      SubOnlyMoves(cfg, mem, gone, ch, ch', act);
      OnlyMovesKeepsCustody(cfg, ch, ch');
    } else {
      SpecialActs(cfg, mem, gone, ch, ch', act);
      if act == Pop(CasTail) {
        PopKeepsCustody(ch, ch.reader.pc.t, ch.reader.pc.c);
      } else if act == Pop(TakeSample) {
        TakeKeepsCustody(cfg, ch, ch', mem);
      } else {
        DoneRingHasRoom(cfg, ch, row, pv);
        ReleaseKeepsCustody(ch, act.life.k, ch');
      }
    }
  }

  lemma TakeKeepsCustody(cfg: Config, ch: Chan, ch': Chan, mem: seq<Cell>)
    requires Countable(ch) && ch.reader.pc.RecvTake?
    requires ch' == ch.(reader := TakeHeader(cfg, ch.reader, mem, ch.reader.pc.c))
    ensures Countable(ch') && Custody(ch') == Custody(ch)
  {
    hide Bag;
  }

  lemma SameCustodyConserves(ch: Chan, ch': Chan, row: seq<nat>, pv: PubView, pv': PubView)
    requires Countable(ch) && Countable(ch') && Custody(ch') == Custody(ch)
    requires Conserved(ch, row, pv)
    requires forall c: nat :: Owed(row, pv', c) == Owed(row, pv, c)
    ensures Conserved(ch', row, pv')
  {
    forall c: nat
      ensures Custody(ch')[c] == Owed(row, pv', c) <= 1
    {
      assert Custody(ch)[c] == Owed(row, pv, c);
    }
  }

  /** A popped index is a real chunk: a subscriber never meets a corrupt entry. */
  lemma HeldInRange(cfg: Config, ch: Chan, row: seq<nat>, pv: PubView, k: nat)
    requires Countable(ch) && Conserved(ch, row, pv) && |row| == cfg.chunks
    requires pv.Delivering? ==> pv.entry.chunk < cfg.chunks
    requires k < |ch.reader.held|
    ensures ch.reader.held[k].chunk < cfg.chunks
  {
    CustodyFits(cfg, ch, row, pv);
    BagHas(ch.reader.held, k);
    assert ch.reader.held[k].chunk in Custody(ch);
  }

  lemma PopKeepsHeld(cfg: Config, ch: Chan, t: nat, c: nat)
    requires HeldInv(cfg, ch) && ch.state == Active && ch.reader.pc == RecvCas(t, c)
    requires ReaderSees(ch.ring, ch.reader.pc)
    ensures HeldInv(cfg, PopCas(ch, t, c))
  {
  }

  lemma TakeKeepsHeld(cfg: Config, ch: Chan, ch': Chan, mem: seq<Cell>)
    requires HeldInv(cfg, ch) && ch.state == Active && ch.reader.pc.RecvTake? && ch.reader.pc.c < cfg.chunks
    requires ch' == ch.(reader := TakeHeader(cfg, ch.reader, mem, ch.reader.pc.c))
    ensures HeldInv(cfg, ch')
  {
  }

  lemma SubKeepsHeld(cfg: Config, mem: seq<Cell>, gone: bool, ch: Chan, ch': Chan, act: SubAct)
    requires Sized(cfg, ch) && SubCan(cfg, ch, act) && LifeInv(ch)
    requires act == Pop(TakeSample) ==> ch.reader.pc.c < cfg.chunks
    requires ReaderSees(ch.ring, ch.reader.pc)
    requires HeldInv(cfg, ch)
    requires ch' == SubDo(cfg, mem, gone, ch, act)
    ensures HeldInv(cfg, ch')
  {
    hide SubDo, PopCas;
    if !Special(act) {
      SubOnlyMoves(cfg, mem, gone, ch, ch', act);
      OnlyMovesKeepsHeld(cfg, ch, ch');
    } else {
      SpecialActs(cfg, mem, gone, ch, ch', act);
      if act == Pop(CasTail) {
        PopKeepsHeld(cfg, ch, ch.reader.pc.t, ch.reader.pc.c);
      } else if act == Pop(TakeSample) {
        TakeKeepsHeld(cfg, ch, ch', mem);
      }
    }
  }

  /** The publisher's row after the private effect of one action. */
  ghost predicate RowAfter(row: seq<nat>, row': seq<nat>, effect: Effect) {
    && |row'| == |row|
    && match effect
       case NoEffect => row' == row
       case Unref(v) => forall c | 0 <= c < |row| :: row'[c] == if c == v then 0 else row[c]
       case Ref(v) => v < |row| && row[v] == 0 && row' == row[v := 1]
  }

  /** What one action of deliver() adds to and removes from the slot's custody. */
  ghost predicate Moved(bag: multiset<nat>, bag': multiset<nat>, e: Entry, act: PubAct, effect: Effect) {
    && (act == Push(DStoreHead) ==> bag' == bag + multiset{e.chunk})
    && (effect.Unref? ==> bag == bag' + multiset{effect.c})
    && (act != Push(DStoreHead) && !effect.Unref? ==> bag' == bag)
  }

  lemma EvictMoves(ch: Chan, t: nat, v: nat)
    requires Countable(ch) && (ch.ring.tail == t ==> t < ch.ring.head && v == ch.ring.log[t].chunk)
    ensures
      var o := EvictOldest(ch, t, v);
      && Countable(o.ch)
      && (o.effect.Unref? ==> Custody(ch) == Custody(o.ch) + multiset{o.effect.c})
      && (!o.effect.Unref? ==> Custody(o.ch) == Custody(ch))
  {
    hide Bag;
    if ch.ring.tail == t {
      QueuePopped(ch.ring);
      assert Queue(EvictOldest(ch, t, v).ch.ring) == ch.ring.log[t + 1..];
    }
  }

  lemma PublishMoves(ch: Chan, ch': Chan, e: Entry)
    requires Countable(ch) && ch'.done == ch.done && ch'.reader == ch.reader
    requires ch'.ring == ch.ring.(head := ch.ring.head + 1, log := ch.ring.log + [e])
    ensures Countable(ch') && Custody(ch') == Custody(ch) + multiset{e.chunk}
  {
    hide Bag;
    QueuePushed(ch.ring, e);
  }

  ghost predicate QueueSame(ch: Chan, ch': Chan) {
    && ch'.ring.log == ch.ring.log && ch'.ring.tail == ch.ring.tail && ch'.ring.head == ch.ring.head
    && ch'.done == ch.done && ch'.reader.held == ch.reader.held
  }

  lemma OtherPubActs(cfg: Config, ch: Chan, e: Entry, at: DeliverPc, act: PubAct, o: Outcome)
    requires Sized(cfg, ch) && PubCan(at, act) && act != Push(DCasTail) && act != Push(DStoreHead)
    requires o == PubDo(cfg, ch, e, at, act)
    ensures QueueSame(ch, o.ch) && !o.effect.Unref?
  {
  }

  lemma QueueSameKeepsCustody(ch: Chan, ch': Chan)
    requires Countable(ch) && QueueSame(ch, ch')
    ensures Countable(ch') && Custody(ch') == Custody(ch)
  {
    hide Bag;
  }

  lemma PubMovesCustody(cfg: Config, ch: Chan, e: Entry, at: DeliverPc, act: PubAct, o: Outcome)
    requires Sized(cfg, ch) && PubCan(at, act)
    requires PublisherSees(cfg.cap, ch.ring, Delivering(e, at)) && Countable(ch)
    requires o == PubDo(cfg, ch, e, at, act)
    ensures Countable(o.ch) && Moved(Custody(ch), Custody(o.ch), e, act, o.effect)
  {
    hide Custody;
    if act == Push(DCasTail) {
      EvictMoves(ch, at.t, at.v);
    } else if act == Push(DStoreHead) {
      PublishMoves(ch, o.ch, e);
    } else {
      OtherPubActs(cfg, ch, e, at, act, o);
      QueueSameKeepsCustody(ch, o.ch);
    }
  }

  /** When deliver() owes a reference, and when it pays it. */
  ghost predicate Ordered(at: DeliverPc, act: PubAct, e: Entry, to: Where, effect: Effect) {
    && (act == Push(DStoreHead) <==> to == Next(Credit))
    && (act == Push(DStoreHead) ==> at.StoreHead? && effect == NoEffect)
    && (at.Credit? <==> effect.Ref?)
    && (effect.Ref? ==> effect.c == e.chunk)
  }

  lemma PubActsOrdered(cfg: Config, ch: Chan, e: Entry, at: DeliverPc, act: PubAct)
    requires Sized(cfg, ch) && PubCan(at, act)
    ensures
      var o := PubDo(cfg, ch, e, at, act);
      Ordered(at, act, e, o.to, o.effect)
  {
  }

  /** The row follows the custody. */
  lemma RowFollows(bag: multiset<nat>, bag': multiset<nat>, e: Entry, at: DeliverPc, act: PubAct, to: Where,
                   effect: Effect, row: seq<nat>, row': seq<nat>)
    requires Moved(bag, bag', e, act, effect) && Ordered(at, act, e, to, effect)
    requires e.chunk < |row| && (row[e.chunk] == 0 || at.BumpData? || at.WakeData?)
    requires RowAfter(row, row', effect)
    requires Agrees(bag, row, Delivering(e, at))
    ensures Agrees(bag', row', ViewOf(e, to))
  {
    forall c: nat
      ensures bag'[c] == Owed(row', ViewOf(e, to), c) <= 1
    {
      assert bag[c] == Owed(row, Delivering(e, at), c) <= 1;
    }
  }

  lemma PubConserves(cfg: Config, ch: Chan, e: Entry, at: DeliverPc, act: PubAct, o: Outcome, row: seq<nat>, row': seq<nat>)
    requires Sized(cfg, ch) && PubCan(at, act)
    requires PublisherSees(cfg.cap, ch.ring, Delivering(e, at)) && Countable(ch)
    requires Conserved(ch, row, Delivering(e, at)) && |row| == cfg.chunks && e.chunk < cfg.chunks
    requires row[e.chunk] == 0 || at.BumpData? || at.WakeData?
    requires o == PubDo(cfg, ch, e, at, act)
    requires RowAfter(row, row', o.effect)
    ensures Countable(o.ch) && Conserved(o.ch, row', ViewOf(e, o.to))
  {
    PubActsOrdered(cfg, ch, e, at, act);
    PubMovesCustody(cfg, ch, e, at, act, o);
    hide Custody, Agrees, PubDo, PublisherSees;
    RowFollows(Custody(ch), Custody(o.ch), e, at, act, o.to, o.effect, row, row');
  }

  /** Draining the done ring: exactly the drained chunks leave the row. */
  lemma DrainConserves(ch: Chan, row: seq<nat>, row': seq<nat>)
    requires Countable(ch) && Conserved(ch, row, Away)
    requires |row'| == |row|
    requires forall c | 0 <= c < |row| :: row'[c] == if c in Undrained(ch.done) then 0 else row[c]
    ensures Countable(Drained(ch)) && Conserved(Drained(ch), row', Away)
    ensures Custody(Drained(ch)) == Bag(Queue(ch.ring)) + Bag(ch.reader.held)
  {
    hide Bag;
    var ch' := Drained(ch);
    assert Undrained(ch'.done) == [];
    forall c: nat
      ensures Custody(ch')[c] == Owed(row', Away, c) <= 1
    {
      assert Custody(ch)[c] == Owed(row, Away, c);
      assert c in Undrained(ch.done) <==> multiset(Undrained(ch.done))[c] > 0;
    }
  }

  /** Right after a drain a slot is down to its queue and its borrowed samples. */
  lemma DrainedRowBounded(cfg: Config, ch: Chan, row: seq<nat>)
    requires Countable(ch) && Conserved(ch, row, Away) && |row| == cfg.chunks
    requires ch.done.head == ch.done.tail
    requires ch.ring.head <= ch.ring.tail + cfg.cap && |ch.reader.held| <= cfg.maxBorrowed
    ensures Ledger.RowSum(row) <= cfg.cap + cfg.maxBorrowed
  {
    CustodyFits(cfg, ch, row, Away);
    forall c | 0 <= c < |row|
      ensures row[c] == Custody(ch)[c]
    {
      assert Custody(ch)[c] == Owed(row, Away, c);
    }
    Ledger.RowIsBag(row, Custody(ch));
    BagSize(Queue(ch.ring));
    BagSize(ch.reader.held);
    assert Undrained(ch.done) == [];
  }
}
