/**
 The whole invariant of one channel, and its preservation by every action either side
 can take, alone and at any time.
 */
module ChannelSafe {
  import Ledger
  import opened Channel
  import opened ChannelRing
  import opened ChannelWake
  import opened ChannelCustody
  import opened ChannelCount

  ghost predicate ChanOk(cfg: Config, mem: seq<Cell>, row: seq<nat>, pv: PubView, ch: Chan) {
    && Sized(cfg, ch)
    && |row| == cfg.chunks
    && LifeInv(ch)
    && RingInv(cfg, ch, pv)
    && Countable(ch)
    && WakeInv(ch, pv)
    && BlockInv(cfg, ch, pv)
    && HeldInv(cfg, ch)
    && Conserved(ch, row, pv)
    && CountInv(ch, pv)
    && PolicyInv(ch, pv)
    && HeaderInv(mem, ch, pv)
    && (pv.Delivering? ==> pv.entry.chunk < cfg.chunks && (ch.state == Active || ch.state == Closing))
  }

  lemma PoppedChunkInRange(cfg: Config, mem: seq<Cell>, row: seq<nat>, pv: PubView, ch: Chan)
    requires ChanOk(cfg, mem, row, pv, ch) && MidPop(ch.reader.pc)
    ensures ch.reader.pc.c < cfg.chunks
  {
    HeldInRange(cfg, ch, row, pv, |ch.reader.held| - 1);
  }

  lemma SubKeepsConserved(cfg: Config, mem: seq<Cell>, row: seq<nat>, pv: PubView, pv': PubView, ch: Chan, ch': Chan,
                          act: SubAct)
    requires GoodConfig(cfg) && Sized(cfg, ch) && LifeInv(ch) && RingInv(cfg, ch, pv) && Countable(ch)
    requires Conserved(ch, row, pv) && |row| == cfg.chunks && (pv.Delivering? ==> pv.entry.chunk < cfg.chunks)
    requires SubCan(cfg, ch, act) && ch' == SubDo(cfg, mem, pv.Leaving?, ch, act) && pv' == SubDoView(pv, act)
    ensures Countable(ch') && Conserved(ch', row, pv')
  {
    hide SubDo, LifeInv, RingShape, Conserved, Custody;
    SubKeepsCustody(cfg, mem, pv.Leaving?, ch, ch', row, pv, act);
    SameCustodyConserves(ch, ch', row, pv, pv');
  }

  /** Whoever delivers does so to a slot in use, and a subscriber cannot change that. */
  lemma InUseStays(cfg: Config, mem: seq<Cell>, gone: bool, ch: Chan, ch': Chan, act: SubAct)
    requires Sized(cfg, ch) && SubCan(cfg, ch, act) && LifeInv(ch)
    requires ch' == SubDo(cfg, mem, gone, ch, act)
    requires ch.state == Active || ch.state == Closing
    ensures ch'.state == Active || ch'.state == Closing
  {
  }

  lemma SubKeepsChan(cfg: Config, mem: seq<Cell>, row: seq<nat>, pv: PubView, pv': PubView, ch: Chan, ch': Chan,
                     act: SubAct)
    requires GoodConfig(cfg) && ChanOk(cfg, mem, row, pv, ch)
    requires SubCan(cfg, ch, act) && ch' == SubDo(cfg, mem, pv.Leaving?, ch, act) && pv' == SubDoView(pv, act)
    ensures ChanOk(cfg, mem, row, pv', ch')
  {
    hide SubDo, SubCan, GoodConfig, PublisherSees, PoppedOf, WakeInv, BlockInv, HeldInv, Conserved, CountInv, PolicyInv,
         HeaderInv;
    if act == Pop(TakeSample) {
      TakingIsMidPop(cfg, ch, act);
      PoppedChunkInRange(cfg, mem, row, pv, ch);
    }
    SubKeepsLife(cfg, mem, pv.Leaving?, ch, ch', act);
    SubKeepsRing(cfg, mem, pv.Leaving?, ch, ch', pv, act);
    SubKeepsWake(cfg, mem, ch, ch', pv, act);
    SubKeepsBlock(cfg, mem, pv.Leaving?, ch, ch', pv, act);
    SubKeepsConserved(cfg, mem, row, pv, pv', ch, ch', act);
    SubKeepsHeld(cfg, mem, pv.Leaving?, ch, ch', act);
    SubKeepsCount(cfg, mem, pv.Leaving?, ch, ch', pv, act);
    SubKeepsPolicy(cfg, mem, pv.Leaving?, ch, ch', pv, act);
    SubKeepsHeaders(cfg, mem, pv.Leaving?, ch, ch', pv, act);
    if pv.Delivering? { InUseStays(cfg, mem, pv.Leaving?, ch, ch', act); }
  }

  lemma TakingIsMidPop(cfg: Config, ch: Chan, act: SubAct)
    requires SubCan(cfg, ch, act) && act == Pop(TakeSample)
    ensures ch.reader.pc.RecvTake?
  {
  }

  lemma PubKeepsChan(cfg: Config, mem: seq<Cell>, row: seq<nat>, row': seq<nat>, ch: Chan, e: Entry, at: DeliverPc,
                     act: PubAct, o: Outcome, pv': PubView)
    requires GoodConfig(cfg) && ChanOk(cfg, mem, row, Delivering(e, at), ch)
    requires PubCan(at, act) && o == PubDo(cfg, ch, e, at, act) && pv' == ViewOf(e, o.to)
    requires RowAfter(row, row', o.effect)
    requires row[e.chunk] == 0 || at.BumpData? || at.WakeData?
    ensures ChanOk(cfg, mem, row', pv', o.ch)
    ensures o.to == Return ==> NextOffer(o.ch) == e.seqno + 1
    ensures LeavesReader(ch, o.ch)
  {
    hide PubDo, PubCan, LifeInv, WakeInv, BlockInv, HeldInv, Conserved, CountInv, PolicyInv, HeaderInv;
    PubLeavesReader(cfg, ch, e, at, act, o);
    PubKeepsLife(cfg, ch, o.ch);
    PubKeepsRing(cfg, ch, e, at, act, o);
    PubKeepsWake(cfg, ch, e, at, act, o);
    PubKeepsBlock(cfg, ch, e, at, act, o);
    PubConserves(cfg, ch, e, at, act, o, row, row');
    PubKeepsHeld(cfg, ch, o.ch);
    PubKeepsCount(cfg, ch, e, at, act, o);
    PubKeepsPolicy(cfg, ch, e, at, act, o);
    PubKeepsHeaders(cfg, mem, ch, e, at, act, o);
  }

  /** What an eviction takes out of the ring is one of this slot's references. */
  lemma VictimIsOwed(cfg: Config, mem: seq<Cell>, row: seq<nat>, ch: Chan, e: Entry, at: DeliverPc, act: PubAct)
    requires ChanOk(cfg, mem, row, Delivering(e, at), ch) && PubCan(at, act)
    requires PubDo(cfg, ch, e, at, act).effect.Unref?
    ensures
      var v := PubDo(cfg, ch, e, at, act).effect.c;
      v < |row| && row[v] == 1
  {
    hide LifeInv, WakeInv, BlockInv, HeldInv, CountInv, HeaderInv, PoppedOf, Bag;
    EvictsTail(cfg, ch, e, at, act);
    QueuePopped(ch.ring);
    assert Custody(ch)[at.v] == Owed(row, Delivering(e, at), at.v);
  }

  lemma EvictsTail(cfg: Config, ch: Chan, e: Entry, at: DeliverPc, act: PubAct)
    requires Sized(cfg, ch) && PubCan(at, act) && PubDo(cfg, ch, e, at, act).effect.Unref?
    ensures at.EvictCas? && at.t == ch.ring.tail && PubDo(cfg, ch, e, at, act).effect.c == at.v
  {
  }

  /** Only custody knows about the done ring. */
  lemma DoneIsFramed(cfg: Config, mem: seq<Cell>, row: seq<nat>, pv: PubView, ch: Chan, ch': Chan)
    requires ChanOk(cfg, mem, row, pv, ch) && ch' == ch.(done := ch'.done)
    requires |ch'.done.buf| == cfg.doneCap && ch'.done.head == ch'.done.tail
    ensures Sized(cfg, ch') && LifeInv(ch') && RingInv(cfg, ch', pv) && WakeInv(ch', pv) && BlockInv(cfg, ch', pv)
    ensures HeldInv(cfg, ch') && CountInv(ch', pv) && PolicyInv(ch', pv) && HeaderInv(mem, ch', pv)
  {
    hide RingShape, ReaderSees, PublisherSees, PoppedOf, OffersSplit, GapsInv, Conserved;
  }

  /** The publisher drains this slot's done ring. */
  lemma DrainKeepsChan(cfg: Config, mem: seq<Cell>, row: seq<nat>, row': seq<nat>, ch: Chan)
    requires ChanOk(cfg, mem, row, Away, ch)
    requires |row'| == |row|
    requires forall c | 0 <= c < |row| :: row'[c] == if c in Undrained(ch.done) then 0 else row[c]
    ensures ChanOk(cfg, mem, row', Away, Drained(ch))
    ensures Ledger.RowSum(row') <= cfg.cap + cfg.maxBorrowed
  {
    hide LifeInv, WakeInv, BlockInv, CountInv, HeaderInv, Conserved;
    DrainConserves(ch, row, row');
    DoneIsFramed(cfg, mem, row, Away, ch, Drained(ch));
    DrainedRowBounded(cfg, Drained(ch), row');
  }

  /** A reclaimed slot is blank, and the publisher is owed nothing for it. */
  lemma RecycledIsOk(cfg: Config, mem: seq<Cell>, row: seq<nat>, pv: PubView, ch: Chan)
    requires Sized(cfg, ch) && |row| == cfg.chunks && pv == Away && !ch.space.flag
    requires forall c | 0 <= c < |row| :: row[c] == 0
    ensures ChanOk(cfg, mem, row, pv, Recycled(ch))
    ensures NextOffer(Recycled(ch)) == 0
  {
    var ch' := Recycled(ch);
    assert Queue(ch'.ring) == [] && Undrained(ch'.done) == [];
    assert Custody(ch') == multiset{};
  }
}
