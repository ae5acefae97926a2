/**
 Per-subscriber accounting: every send since the subscriber was onboarded ends in exactly
 one place, sequence numbers only go up, and the gaps a subscriber observes are the sends
 it lost. Also the headers and payloads its samples point at: they stay as sent.
 */
module ChannelCount {
  import opened Channel
  import opened ChannelRing
  import opened ChannelCustody

  ghost function Evictions(taken: seq<Take>): nat {
    if taken == [] then 0
    else Evictions(taken[..|taken| - 1]) + (if taken[|taken| - 1].who == Evicted then 1 else 0)
  }

  /** The sequence number the next send to this subscriber will carry. */
  ghost function NextOffer(ch: Chan): nat { ch.first + ch.ring.head + |ch.refused| }

  ghost predicate Published(pv: PubView) {
    pv.Delivering? && (pv.at.Credit? || pv.at.BumpData? || pv.at.WakeData?)
  }

  ghost predicate Rising(es: seq<Entry>) {
    forall i, j | 0 <= i < j < |es| :: es[i].seqno < es[j].seqno
  }

  ghost predicate InLog(log: seq<Entry>, s: nat) {
    exists k | 0 <= k < |log| :: log[k].seqno == s
  }

  /** The sends offered so far are consecutive, and split into queued and refused ones. */
  ghost predicate OffersSplit(log: seq<Entry>, refused: set<nat>, first: nat, next: nat) {
    && Rising(log)
    && next == first + |log| + |refused|
    && (forall k | 0 <= k < |log| :: first <= log[k].seqno < next && log[k].seqno !in refused)
    && (forall s | s in refused :: first <= s < next)
    && (forall s {:trigger InLog(log, s)} | first <= s < next :: s in refused || InLog(log, s))
    && (log != [] ==> 0 < first)
  }

  ghost predicate StatsInv(ch: Chan, pv: PubView) {
    && ch.stats.delivered + (if pv.Delivering? && pv.at.Credit? then 1 else 0) == ch.ring.head
    && ch.stats.droppedOldest == Evictions(ch.ring.taken)
    && ch.stats.droppedNewest + ch.stats.blockTimeouts == |ch.refused|
    && (pv.Delivering? ==> 0 < ch.first && pv.entry.seqno + (if Published(pv) then 1 else 0) == NextOffer(ch))
  }

  /** The subscriber's own counters, from the samples it got. */
  ghost predicate GapsInv(r: Reader) {
    && r.received + (if MidPop(r.pc) then 1 else 0) == |r.got|
    && (r.received == 0 ==> r.lastSeq == 0 && r.gaps == 0)
    && (r.received > 0 ==>
          && r.lastSeq == r.got[r.received - 1].seqno
          && r.gaps + r.received + r.got[0].seqno == r.lastSeq + 1)
  }

  ghost predicate CountInv(ch: Chan, pv: PubView) {
    && OffersSplit(ch.ring.log, ch.refused, ch.first, NextOffer(ch))
    && StatsInv(ch, pv)
    && (ch.state == Active ==> GapsInv(ch.reader))
  }

  /** Each policy loses samples in its own way only, and counts them as such. */
  ghost predicate PolicyInv(ch: Chan, pv: PubView) {
    && (ch.policy == DropOldest ==> ch.refused == {} && ch.stats.droppedNewest == ch.stats.blockTimeouts == 0)
    && (ch.policy != DropOldest ==>
          ch.stats.droppedOldest == 0 && forall k | 0 <= k < |ch.ring.taken| :: ch.ring.taken[k].who == Popped)
    && (ch.policy == DropNewest ==> ch.stats.blockTimeouts == 0)
    && (ch.policy == Block ==> ch.stats.droppedNewest == 0)
    && (pv.Delivering? && Evicting(pv.at) ==> ch.policy == DropOldest)
    && (pv.Delivering? && Holding(pv.at) ==> ch.policy == Block)
  }

  ghost predicate Evicting(at: DeliverPc) { at.EvictEntry? || at.EvictCas? }

  /** On a full Block queue. */
  ghost predicate Holding(at: DeliverPc) {
    at.BlockWord? || at.BlockFlag? || at.BlockTail? || at.BlockState? || at.BlockSleep? || at.BlockAsleep? || at.BlockClear?
  }

  ghost predicate Intact(mem: seq<Cell>, e: Entry) {
    e.chunk < |mem| && mem[e.chunk] == Cell(e.seqno, e.payload)
  }

  /** Everything queued, held or being delivered is still as it was sent. */
  ghost predicate HeaderInv(mem: seq<Cell>, ch: Chan, pv: PubView) {
    && (forall k | ch.ring.tail <= k < |ch.ring.log| :: Intact(mem, ch.ring.log[k]))
    && (forall k | 0 <= k < |ch.reader.held| :: Intact(mem, ch.reader.held[k]))
    && (pv.Delivering? ==> Intact(mem, pv.entry))
  }

  // ---------------------------------------------------------------------------
  // Popped samples rise
  // ---------------------------------------------------------------------------

  /** Every popped sample was published at a position that has been taken. */
  lemma {:induction false} PoppedFrom(log: seq<Entry>, taken: seq<Take>, i: nat) returns (k: nat)
    requires |taken| <= |log| && i < |PoppedOf(log, taken)|
    ensures k < |taken| && PoppedOf(log, taken)[i] == log[k]
    decreases |taken|
  {
    var n := |taken| - 1;
    if i < |PoppedOf(log, taken[..n])| { k := PoppedFrom(log, taken[..n], i); } else { k := n; }
  }

  lemma {:induction false} PoppedRise(log: seq<Entry>, taken: seq<Take>)
    requires |taken| <= |log| && Rising(log)
    ensures Rising(PoppedOf(log, taken))
    decreases |taken|
  {
    if taken != [] {
      var n := |taken| - 1;
      var pre := PoppedOf(log, taken[..n]);
      PoppedRise(log, taken[..n]);
      forall i | 0 <= i < |pre|
        ensures pre[i].seqno < log[n].seqno
      {
        var k := PoppedFrom(log, taken[..n], i);
      }
    }
  }

  lemma {:induction false} PoppedAndEvicted(log: seq<Entry>, taken: seq<Take>)
    ensures |PoppedOf(log, taken)| + Evictions(taken) == |taken|
    decreases |taken|
  {
    if taken != [] { PoppedAndEvicted(log, taken[..|taken| - 1]); }
  }

  // ---------------------------------------------------------------------------
  // The subscriber's actions
  // ---------------------------------------------------------------------------

  lemma PopKeepsGaps(r: Reader, r': Reader, e: Entry)
    requires GapsInv(r) && !MidPop(r.pc) && MidPop(r'.pc)
    requires r' == r.(pc := r'.pc, held := r'.held, got := r.got + [e])
    ensures GapsInv(r')
  {
  }

  lemma PopKeepsStats(ch: Chan, ch': Chan, pv: PubView, c: nat)
    requires StatsInv(ch, pv)
    requires ch'.stats == ch.stats && ch'.refused == ch.refused && ch'.first == ch.first
    requires ch'.ring == ch.ring.(tail := ch'.ring.tail, taken := ch.ring.taken + [Take(Popped, c)])
    ensures StatsInv(ch', pv)
  {
    assert ch'.ring.taken[..|ch.ring.taken|] == ch.ring.taken;
  }

  lemma PopKeepsCount(ch: Chan, pv: PubView, t: nat, c: nat)
    requires CountInv(ch, pv) && ch.reader.pc == RecvCas(t, c) && ch.state == Active
    ensures CountInv(PopCas(ch, t, c), pv)
  {
    if ch.ring.tail == t {
      var ch' := PopCas(ch, t, c);
      PopKeepsGaps(ch.reader, ch'.reader, At(ch.ring.log, t));
      PopKeepsStats(ch, ch', pv, c);
    }
  }

  lemma TakeKeepsGaps(cfg: Config, ch: Chan, pv: PubView, mem: seq<Cell>, c: nat)
    requires CountInv(ch, pv) && ch.state == Active && ch.reader.pc == RecvTake(c)
    requires HeldInv(cfg, ch) && HeaderInv(mem, ch, pv) && c < cfg.chunks
    requires RingInv(cfg, ch, pv)
    ensures GapsInv(TakeHeader(cfg, ch.reader, mem, c))
  {
    var r := ch.reader;
    var last := |r.held| - 1;
    assert Intact(mem, r.held[last]);
    PoppedRise(ch.ring.log, ch.ring.taken);
    var k0 := PoppedFrom(ch.ring.log, ch.ring.taken, 0);
    if r.received > 0 {
      assert r.got[r.received - 1].seqno < r.got[r.received].seqno;
      assert r.got[0].seqno > 0;
      assert r.got[0].seqno <= r.got[r.received - 1].seqno;
    }
  }

  lemma OnlyMovesKeepsCount(cfg: Config, ch: Chan, ch': Chan, pv: PubView, pv': PubView)
    requires CountInv(ch, pv) && OnlyMoves(cfg, ch, ch')
    requires pv' == pv || (pv.Delivering? && pv.at.BlockAsleep? && pv' == pv.(at := BlockClear))
    ensures CountInv(ch', pv')
  {
    hide OffersSplit, Evictions;
  }

  lemma ReaderKeepsCount(ch: Chan, ch': Chan, pv: PubView)
    requires CountInv(ch, pv) && ch' == ch.(reader := ch'.reader, done := ch'.done)
    requires ch.state == Active ==> GapsInv(ch'.reader)
    ensures CountInv(ch', pv)
  {
  }

  lemma SubKeepsCount(cfg: Config, mem: seq<Cell>, gone: bool, ch: Chan, ch': Chan, pv: PubView, act: SubAct)
    requires Sized(cfg, ch) && SubCan(cfg, ch, act) && LifeInv(ch)
    requires RingInv(cfg, ch, pv) && HeldInv(cfg, ch) && HeaderInv(mem, ch, pv)
    requires act == Pop(TakeSample) ==> ch.reader.pc.c < cfg.chunks
    requires CountInv(ch, pv)
    requires ch' == SubDo(cfg, mem, gone, ch, act)
    ensures CountInv(ch', SubDoView(pv, act))
  {
    hide SubDo, PopCas, TakeHeader, OffersSplit, StatsInv, RingInv, HeldInv, HeaderInv;
    if !Special(act) {
      SubOnlyMoves(cfg, mem, gone, ch, ch', act);
      OnlyMovesKeepsCount(cfg, ch, ch', pv, SubDoView(pv, act));
    } else {
      SpecialActs(cfg, mem, gone, ch, ch', act);
      if act == Pop(CasTail) {
        PopKeepsCount(ch, pv, ch.reader.pc.t, ch.reader.pc.c);
      } else if act == Pop(TakeSample) {
        TakeKeepsGaps(cfg, ch, pv, mem, ch.reader.pc.c);
        ReaderKeepsCount(ch, ch', pv);
      } else {
        ReaderKeepsCount(ch, ch', pv);
      }
    }
  }

  lemma PopKeepsHeaders(mem: seq<Cell>, ch: Chan, pv: PubView, t: nat, c: nat)
    requires HeaderInv(mem, ch, pv) && (ch.ring.tail == t ==> t < |ch.ring.log|)
    ensures HeaderInv(mem, PopCas(ch, t, c), pv)
  {
  }

  lemma ReleaseKeepsHeaders(mem: seq<Cell>, ch: Chan, ch': Chan, pv: PubView, k: nat)
    requires HeaderInv(mem, ch, pv) && k < |ch.reader.held|
    requires ch'.ring == ch.ring && ch'.reader.held == Without(ch.reader.held, k)
    ensures HeaderInv(mem, ch', pv)
  {
  }

  lemma SubKeepsHeaders(cfg: Config, mem: seq<Cell>, gone: bool, ch: Chan, ch': Chan, pv: PubView, act: SubAct)
    requires Sized(cfg, ch) && SubCan(cfg, ch, act) && LifeInv(ch)
    requires ReaderSees(ch.ring, ch.reader.pc) && |ch.ring.log| == ch.ring.head
    requires HeaderInv(mem, ch, pv)
    requires ch' == SubDo(cfg, mem, gone, ch, act)
    ensures HeaderInv(mem, ch', SubDoView(pv, act))
  {
    hide SubDo, PopCas;
    if !Special(act) {
      SubOnlyMoves(cfg, mem, gone, ch, ch', act);
    } else {
      SpecialActs(cfg, mem, gone, ch, ch', act);
      if act == Pop(CasTail) {
        PopKeepsHeaders(mem, ch, pv, ch.reader.pc.t, ch.reader.pc.c);
      } else if act.Life? {
        ReleaseKeepsHeaders(mem, ch, ch', pv, act.life.k);
      }
    }
  }

  // ---------------------------------------------------------------------------
  // The publisher's actions
  // ---------------------------------------------------------------------------

  /** One more send, queued or refused. */
  lemma OfferQueued(log: seq<Entry>, refused: set<nat>, first: nat, next: nat, e: Entry)
    requires OffersSplit(log, refused, first, next) && e.seqno == next && 0 < first
    ensures OffersSplit(log + [e], refused, first, next + 1)
  {
    var log' := log + [e];
    assert log'[|log|] == e;
    forall s | first <= s < next + 1
      ensures s in refused || InLog(log', s)
    {
      if s < next && s !in refused {
        assert InLog(log, s);
        var k :| 0 <= k < |log| && log[k].seqno == s;
        assert log'[k].seqno == s;
      }
    }
  }

  lemma OfferRefused(log: seq<Entry>, refused: set<nat>, first: nat, next: nat)
    requires OffersSplit(log, refused, first, next)
    ensures OffersSplit(log, refused + {next}, first, next + 1)
    ensures |refused + {next}| == |refused| + 1
  {
    assert next !in refused;
  }

  lemma EvictKeepsCount(ch: Chan, ch': Chan, e: Entry, t: nat, v: nat)
    requires CountInv(ch, Delivering(e, EvictCas(t, v)))
    requires ch' == EvictOldest(ch, t, v).ch
    ensures CountInv(ch', Delivering(e, LoadTail))
  {
    hide OffersSplit, GapsInv;
    if ch.ring.tail == t { assert ch'.ring.taken[..|ch.ring.taken|] == ch.ring.taken; }
  }

  lemma PublishKeepsCount(ch: Chan, ch': Chan, e: Entry)
    requires CountInv(ch, Delivering(e, StoreHead)) && |ch.ring.log| == ch.ring.head
    requires ch' == ch.(ring := ch.ring.(head := ch.ring.head + 1, log := ch.ring.log + [e]))
    ensures CountInv(ch', Delivering(e, Credit))
  {
    OfferQueued(ch.ring.log, ch.refused, ch.first, NextOffer(ch), e);
  }

  lemma RefuseKeepsCount(ch: Chan, e: Entry, stats: Stats)
    requires CountInv(ch, Delivering(e, LoadTail)) && |ch.ring.log| == ch.ring.head
    requires stats == ch.stats.(droppedNewest := ch.stats.droppedNewest + 1)
             || stats == ch.stats.(blockTimeouts := ch.stats.blockTimeouts + 1)
    ensures
      var o := Refuse(ch, e, stats);
      CountInv(o.ch, ViewOf(e, o.to)) && NextOffer(o.ch) == e.seqno + 1
  {
    OfferRefused(ch.ring.log, ch.refused, ch.first, NextOffer(ch));
  }

  /** An action after which the send still has to be counted (or was already). */
  ghost predicate Neutral(ch: Chan, ch': Chan, pv: PubView, pv': PubView) {
    && ch'.ring == ch.ring.(buf := ch'.ring.buf)
    && ch'.refused == ch.refused && ch'.first == ch.first && ch'.state == ch.state
    && ch'.stats == ch.stats.(delivered := ch'.stats.delivered)
    && ch'.reader == ch.reader.(pc := ch'.reader.pc)
    && (MidPop(ch'.reader.pc) <==> MidPop(ch.reader.pc))
    && ch'.stats.delivered == ch.stats.delivered + (if pv.Delivering? && pv.at.Credit? then 1 else 0)
    && !(pv'.Delivering? && pv'.at.Credit?)
    && (pv'.Delivering? ==> pv.Delivering? && pv'.entry == pv.entry && (Published(pv') <==> Published(pv)))
  }

  lemma NeutralKeepsCount(ch: Chan, ch': Chan, pv: PubView, pv': PubView)
    requires CountInv(ch, pv) && Neutral(ch, ch', pv, pv')
    ensures CountInv(ch', pv')
  {
  }

  lemma PushNeutral(cfg: Config, ch: Chan, e: Entry, at: DeliverPc, act: PushAct, o: Outcome)
    requires Sized(cfg, ch) && PushCan(at, act) && !act.DCasTail? && !act.DStoreHead?
    requires o == PushDo(cfg, ch, e, at, act) && (act.DLoadTail? ==> o.to != Return)
    ensures Neutral(ch, o.ch, Delivering(e, at), ViewOf(e, o.to)) && (o.to == Return ==> Published(Delivering(e, at)))
  {
  }

  lemma HoldNeutral(cfg: Config, ch: Chan, e: Entry, at: DeliverPc, act: BlockAct, o: Outcome)
    requires HoldCan(at, act) && o == HoldDo(cfg, ch, at, act)
    ensures Neutral(ch, o.ch, Delivering(e, at), ViewOf(e, o.to)) && o.to != Return
  {
  }

  lemma NeutralReturns(ch: Chan, ch': Chan, e: Entry, at: DeliverPc, pv': PubView)
    requires StatsInv(ch, Delivering(e, at)) && Neutral(ch, ch', Delivering(e, at), pv') && Published(Delivering(e, at))
    ensures NextOffer(ch') == e.seqno + 1
  {
  }

  lemma NeutralKeepsAll(ch: Chan, o: Outcome, e: Entry, at: DeliverPc)
    requires CountInv(ch, Delivering(e, at)) && Neutral(ch, o.ch, Delivering(e, at), ViewOf(e, o.to))
    requires o.to == Return ==> Published(Delivering(e, at))
    ensures CountInv(o.ch, ViewOf(e, o.to))
    ensures o.to == Return ==> NextOffer(o.ch) == e.seqno + 1
  {
    NeutralKeepsCount(ch, o.ch, Delivering(e, at), ViewOf(e, o.to));
    hide OffersSplit, GapsInv;
    if o.to == Return { NeutralReturns(ch, o.ch, e, at, ViewOf(e, o.to)); }
  }

  lemma RefusalIsRefuse(cfg: Config, ch: Chan, e: Entry, patience: Patience, o: Outcome)
    requires Sized(cfg, ch) && o == PushDo(cfg, ch, e, LoadTail, DLoadTail(patience)) && o.to == Return
    ensures o == Refuse(ch, e, o.ch.stats)
    ensures o.ch.stats == ch.stats.(droppedNewest := ch.stats.droppedNewest + 1)
            || o.ch.stats == ch.stats.(blockTimeouts := ch.stats.blockTimeouts + 1)
  {
  }

  lemma PushKeepsCount(cfg: Config, ch: Chan, e: Entry, at: DeliverPc, act: PushAct, o: Outcome)
    requires Sized(cfg, ch) && PushCan(at, act) && |ch.ring.log| == ch.ring.head
    requires CountInv(ch, Delivering(e, at)) && o == PushDo(cfg, ch, e, at, act)
    ensures CountInv(o.ch, ViewOf(e, o.to))
    ensures o.to == Return ==> NextOffer(o.ch) == e.seqno + 1
  {
    hide CountInv, NextOffer, Refuse;
    if act.DCasTail? {
      EvictKeepsCount(ch, o.ch, e, at.t, at.v);
    } else if act.DStoreHead? {
      PublishKeepsCount(ch, o.ch, e);
    } else if act.DLoadTail? && o.to == Return {
      RefusalIsRefuse(cfg, ch, e, act.patience, o);
      RefuseKeepsCount(ch, e, o.ch.stats);
    } else {
      PushNeutral(cfg, ch, e, at, act, o);
      NeutralKeepsAll(ch, o, e, at);
    }
  }

  /** When deliver() returns, the send has been offered: queued or refused, once. */
  lemma PubKeepsCount(cfg: Config, ch: Chan, e: Entry, at: DeliverPc, act: PubAct, o: Outcome)
    requires Sized(cfg, ch) && PubCan(at, act) && |ch.ring.log| == ch.ring.head
    requires CountInv(ch, Delivering(e, at))
    requires o == PubDo(cfg, ch, e, at, act)
    ensures CountInv(o.ch, ViewOf(e, o.to))
    ensures o.to == Return ==> NextOffer(o.ch) == e.seqno + 1
  {
    hide CountInv, PushDo, HoldDo;
    match act
    case Push(a) => PushKeepsCount(cfg, ch, e, at, a, o);
    case Hold(a) => HoldNeutral(cfg, ch, e, at, a, o); NeutralKeepsAll(ch, o, e, at);
  }

  lemma PubKeepsHeaders(cfg: Config, mem: seq<Cell>, ch: Chan, e: Entry, at: DeliverPc, act: PubAct, o: Outcome)
    requires Sized(cfg, ch) && PubCan(at, act) && |ch.ring.log| == ch.ring.head
    requires HeaderInv(mem, ch, Delivering(e, at))
    requires o == PubDo(cfg, ch, e, at, act)
    ensures HeaderInv(mem, o.ch, ViewOf(e, o.to))
  {
  }

  lemma PubKeepsHeld(cfg: Config, ch: Chan, ch': Chan)
    requires HeldInv(cfg, ch) && LeavesReader(ch, ch')
    ensures HeldInv(cfg, ch')
  {
  }

  // ---------------------------------------------------------------------------
  // Policies
  // ---------------------------------------------------------------------------

  lemma PopKeepsPolicy(cfg: Config, mem: seq<Cell>, ch: Chan, ch': Chan, pv: PubView, act: PopAct)
    requires Sized(cfg, ch) && PopCan(cfg, ch.reader, act)
    requires PolicyInv(ch, pv) && ch' == PopDo(cfg, mem, ch, act)
    ensures PolicyInv(ch', pv)
  {
  }

  /** A subscriber chooses its policy before anything is counted. */
  lemma LifeKeepsPolicy(cfg: Config, ch: Chan, ch': Chan, pv: PubView, act: LifeAct)
    requires Sized(cfg, ch) && LifeCan(ch, act) && LifeInv(ch) && |ch.ring.taken| == ch.ring.tail
    requires pv.Delivering? ==> ch.state == Active || ch.state == Closing
    requires PolicyInv(ch, pv) && ch' == LifeDo(cfg, ch, act)
    ensures PolicyInv(ch', pv)
  {
  }

  lemma WokenKeepsPolicy(ch: Chan, pv: PubView, act: SubAct)
    requires PolicyInv(ch, pv)
    ensures PolicyInv(ch, SubDoView(pv, act))
  {
  }

  lemma SubKeepsPolicy(cfg: Config, mem: seq<Cell>, gone: bool, ch: Chan, ch': Chan, pv: PubView, act: SubAct)
    requires Sized(cfg, ch) && SubCan(cfg, ch, act) && LifeInv(ch) && |ch.ring.taken| == ch.ring.tail
    requires pv.Delivering? ==> ch.state == Active || ch.state == Closing
    requires PolicyInv(ch, pv) && ch' == SubDo(cfg, mem, gone, ch, act)
    ensures PolicyInv(ch', SubDoView(pv, act))
  {
    hide PopDo, LifeDo, LifeInv, SubDoView;
    match act {
      case Pop(a) =>
        hide PolicyInv;
        PopKeepsPolicy(cfg, mem, ch, ch', pv, a);
      case Wait(a) =>
      case Life(a) =>
        hide PolicyInv;
        LifeKeepsPolicy(cfg, ch, ch', pv, a);
    }
    assert PolicyInv(ch', pv);
    hide PolicyInv;
    WokenKeepsPolicy(ch', pv, act);
  }

  lemma PushKeepsPolicy(cfg: Config, ch: Chan, e: Entry, at: DeliverPc, act: PushAct, o: Outcome)
    requires Sized(cfg, ch) && PushCan(at, act)
    requires PolicyInv(ch, Delivering(e, at)) && o == PushDo(cfg, ch, e, at, act)
    ensures PolicyInv(o.ch, ViewOf(e, o.to))
  {
  }

  lemma HoldKeepsPolicy(cfg: Config, ch: Chan, e: Entry, at: DeliverPc, act: BlockAct, o: Outcome)
    requires HoldCan(at, act)
    requires PolicyInv(ch, Delivering(e, at)) && o == HoldDo(cfg, ch, at, act)
    ensures PolicyInv(o.ch, ViewOf(e, o.to))
  {
  }

  lemma PubKeepsPolicy(cfg: Config, ch: Chan, e: Entry, at: DeliverPc, act: PubAct, o: Outcome)
    requires Sized(cfg, ch) && PubCan(at, act)
    requires PolicyInv(ch, Delivering(e, at)) && o == PubDo(cfg, ch, e, at, act)
    ensures PolicyInv(o.ch, ViewOf(e, o.to))
  {
    hide PolicyInv, PushDo, HoldDo;
    match act
    case Push(a) => PushKeepsPolicy(cfg, ch, e, at, a, o);
    case Hold(a) => HoldKeepsPolicy(cfg, ch, e, at, a, o);
  }

  // ---------------------------------------------------------------------------
  // What the counters mean
  // ---------------------------------------------------------------------------

  /** Between sends and between receives, every send since onboarding is accounted for. */
  lemma EverySendAccounted(cfg: Config, ch: Chan, pv: PubView)
    requires CountInv(ch, pv) && RingInv(cfg, ch, pv)
    requires !pv.Delivering? && ch.state == Active && !MidPop(ch.reader.pc)
    ensures NextOffer(ch) - ch.first ==
            ch.reader.received + (ch.ring.head - ch.ring.tail)
            + ch.stats.droppedOldest + ch.stats.droppedNewest + ch.stats.blockTimeouts
    ensures ch.stats.delivered == ch.ring.head
  {
    PoppedAndEvicted(ch.ring.log, ch.ring.taken);
  }

  /** The sends a subscriber lost strictly between two sequence numbers: evicted or refused. */
  ghost function LostBetween(ch: Chan, lo: nat, hi: nat): set<nat> {
    set s | lo < s < hi && (s in ch.refused || WasEvicted(ch.ring, s))
  }

  ghost predicate WasEvicted(r: Ring, s: nat) {
    exists k | 0 <= k < |r.taken| && k < |r.log| :: r.log[k].seqno == s && r.taken[k].who == Evicted
  }

  ghost function SeqSet(es: seq<Entry>): set<nat> {
    set k | 0 <= k < |es| :: es[k].seqno
  }

  /** Samples reach a subscriber in strictly rising order, and the gaps it counts are
      exactly the sends lost between its first and its latest sample. */
  lemma GapsAreLosses(cfg: Config, ch: Chan, pv: PubView)
    requires CountInv(ch, pv) && RingInv(cfg, ch, pv)
    requires ch.state == Active && !MidPop(ch.reader.pc) && 0 < ch.reader.received
    ensures Rising(ch.reader.got)
    ensures ch.reader.gaps == |LostBetween(ch, ch.reader.got[0].seqno, ch.reader.lastSeq)|
  {
    var got := ch.reader.got;
    PoppedRise(ch.ring.log, ch.ring.taken);
    SpanSplit(cfg, ch, got[0].seqno, got[|got| - 1].seqno);
  }

  /** From the first to the last received sequence number: received ones plus losses. */
  lemma SpanSplit(cfg: Config, ch: Chan, lo: nat, hi: nat)
    requires RingShape(cfg.cap, ch.ring) && ch.reader.got == PoppedOf(ch.ring.log, ch.ring.taken)
    requires OffersSplit(ch.ring.log, ch.refused, ch.first, NextOffer(ch))
    requires ch.reader.got != [] && Rising(ch.reader.got)
    requires lo == ch.reader.got[0].seqno && hi == ch.reader.got[|ch.reader.got| - 1].seqno
    ensures lo <= hi && hi + 1 - lo == |ch.reader.got| + |LostBetween(ch, lo, hi)|
  {
    forall s | lo <= s <= hi
      ensures s in SeqSet(ch.reader.got) <==> s !in LostBetween(ch, lo, hi)
    {
      ReceivedOrLost(cfg, ch, s);
    }
    SpanSizes(ch.reader.got, LostBetween(ch, lo, hi));
  }

  lemma SpanSizes(got: seq<Entry>, lost: set<nat>)
    requires got != [] && Rising(got)
    requires forall s | got[0].seqno <= s <= got[|got| - 1].seqno :: s in SeqSet(got) <==> s !in lost
    requires forall s | s in lost :: got[0].seqno <= s <= got[|got| - 1].seqno
    ensures got[0].seqno <= got[|got| - 1].seqno
    ensures got[|got| - 1].seqno + 1 - got[0].seqno == |got| + |lost|
  {
    var lo, hi := got[0].seqno, got[|got| - 1].seqno;
    SeqSetSpan(got);
    SplitSizes(Interval(lo, hi + 1), SeqSet(got), lost);
    IntervalSize(lo, hi + 1);
    RisingSize(got);
  }

  lemma SeqSetSpan(es: seq<Entry>)
    requires Rising(es) && es != []
    ensures es[0].seqno <= es[|es| - 1].seqno
    ensures forall s | s in SeqSet(es) :: es[0].seqno <= s <= es[|es| - 1].seqno
  {
  }

  lemma SplitSizes(all: set<nat>, mine: set<nat>, lost: set<nat>)
    requires mine <= all && lost <= all
    requires forall s | s in all :: s in mine <==> s !in lost
    ensures |all| == |mine| + |lost|
  {
    assert all == mine + lost;
    assert mine * lost == {};
  }

  /** A sequence number between the first and the last received one was itself received,
      or else evicted or refused, never both. */
  lemma ReceivedOrLost(cfg: Config, ch: Chan, s: nat)
    requires RingShape(cfg.cap, ch.ring) && ch.reader.got == PoppedOf(ch.ring.log, ch.ring.taken)
    requires OffersSplit(ch.ring.log, ch.refused, ch.first, NextOffer(ch))
    requires ch.reader.got != []
    requires ch.reader.got[0].seqno <= s <= ch.reader.got[|ch.reader.got| - 1].seqno
    ensures s in SeqSet(ch.reader.got) <==>
            s !in LostBetween(ch, ch.reader.got[0].seqno, ch.reader.got[|ch.reader.got| - 1].seqno)
  {
    var got, log, taken := ch.reader.got, ch.ring.log, ch.ring.taken;
    PoppedRise(log, taken);
    var a := PoppedFrom(log, taken, 0);
    var b := PoppedFrom(log, taken, |got| - 1);
    if s in ch.refused {
      RefusedNotPopped(log, taken, ch.refused, s);
      assert got[0].seqno in SeqSet(got) && got[|got| - 1].seqno in SeqSet(got);
    } else {
      assert InLog(log, s);
      var k :| 0 <= k < |log| && log[k].seqno == s;
      assert k <= b;
      PoppedIff(log, taken, k);
      EvictedIff(ch.ring, k);
      assert got[0].seqno in SeqSet(got) && got[|got| - 1].seqno in SeqSet(got);
    }
  }

  lemma RefusedNotPopped(log: seq<Entry>, taken: seq<Take>, refused: set<nat>, s: nat)
    requires |taken| <= |log| && Rising(log) && s in refused
    requires forall k | 0 <= k < |log| :: log[k].seqno !in refused
    ensures s !in SeqSet(PoppedOf(log, taken))
  {
    var got := PoppedOf(log, taken);
    PoppedRise(log, taken);
    forall i | 0 <= i < |got|
      ensures got[i].seqno != s
    {
      var k := PoppedFrom(log, taken, i);
    }
  }

  lemma EvictedIff(r: Ring, k: nat)
    requires Rising(r.log) && k < |r.taken| <= |r.log|
    ensures WasEvicted(r, r.log[k].seqno) <==> r.taken[k].who == Evicted
  {
  }

  /** A taken position was popped exactly if its sample is among the popped ones. */
  lemma {:induction false} PoppedIff(log: seq<Entry>, taken: seq<Take>, k: nat)
    requires |taken| <= |log| && Rising(log) && k < |taken|
    ensures taken[k].who == Popped <==> log[k].seqno in SeqSet(PoppedOf(log, taken))
    decreases |taken|
  {
    var n := |taken| - 1;
    var pre := PoppedOf(log, taken[..n]);
    var got := PoppedOf(log, taken);
    PoppedRise(log, taken[..n]);
    if k < n {
      PoppedIff(log, taken[..n], k);
      assert forall i | 0 <= i < |pre| :: got[i] == pre[i];
      if log[k].seqno in SeqSet(pre) {
        var i :| 0 <= i < |pre| && pre[i].seqno == log[k].seqno;
        assert got[i].seqno == log[k].seqno;
      }
      if log[k].seqno in SeqSet(got) {
        var i :| 0 <= i < |got| && got[i].seqno == log[k].seqno;
        assert i < |pre|;
        assert pre[i].seqno == log[k].seqno;
      }
    } else {
      forall i | 0 <= i < |pre|
        ensures pre[i].seqno != log[n].seqno
      {
        var j := PoppedFrom(log, taken[..n], i);
      }
      if taken[n].who == Popped { assert got[|pre|] == log[n]; }
    }
  }

  ghost function Interval(lo: nat, hi: nat): (all: set<nat>)
    requires lo <= hi
    ensures forall s: nat :: s in all <==> lo <= s < hi
    decreases hi
  {
    if lo == hi then {} else Interval(lo, hi - 1) + {hi - 1}
  }

  lemma {:induction false} IntervalSize(lo: nat, hi: nat)
    requires lo <= hi
    ensures |Interval(lo, hi)| == hi - lo
    decreases hi
  {
    if lo < hi { IntervalSize(lo, hi - 1); }
  }

  lemma {:induction false} RisingSize(es: seq<Entry>)
    requires Rising(es)
    ensures |SeqSet(es)| == |es|
  {
    if es != [] {
      var n := |es| - 1;
      RisingSize(es[..n]);
      assert SeqSet(es) == SeqSet(es[..n]) + {es[n].seqno} by {
        forall k | 0 <= k < n
          ensures es[k].seqno in SeqSet(es[..n])
        {
          assert es[..n][k] == es[k];
        }
      }
      assert es[n].seqno !in SeqSet(es[..n]);
    }
  }
}
