/**
 The invariant of a devbus service, and its preservation by every step.
 */
module BusInv {
  import L = Ledger
  import opened Channel
  import opened ChannelRing
  import W = ChannelWake
  import opened ChannelCustody
  import opened ChannelCount
  import opened ChannelSafe
  import opened Bus

  ghost predicate RowZero(row: seq<nat>) { forall c | 0 <= c < |row| :: row[c] == 0 }

  /** Only an onboarded slot was ever sent anything or holds any reference. */
  ghost predicate OnboardOk(row: seq<nat>, ch: Chan, on: bool) {
    if on then (ch.state == Active || ch.state == Closing) && 0 < ch.first
    else RowZero(row) && ch.ring.head == 0 && ch.refused == {}
  }

  /** One slot: its channel, and the sequence number its next send is due to carry. */
  ghost predicate SlotOk(cfg: Config, mem: seq<Cell>, row: seq<nat>, pv: PubView, ch: Chan, on: bool, due: nat) {
    && ChanOk(cfg, mem, row, pv, ch)
    && OnboardOk(row, ch, on)
    && (on && !pv.Delivering? ==> NextOffer(ch) == due)
    && (pv.Delivering? ==> on)
  }

  /** The send in progress has not reached this slot yet. */
  ghost predicate Owing(pc: PubPc, i: nat) {
    match pc
    case Scanning(_, ForSend(_)) => true
    case Sending(_, todo, _) => i in todo
    case _ => false
  }

  ghost function Due(w: World, i: nat): nat {
    if Owing(w.pc, i) && 0 < w.nextSeq then w.nextSeq - 1 else w.nextSeq
  }

  ghost predicate SlotInv(cfg: Config, w: World, i: nat)
    requires Shaped(cfg, w) && i < cfg.slots
  {
    SlotOk(cfg, w.mem, w.books.out[i], View(w.pc, i), w.chans[i], w.onboard[i], Due(w, i))
  }

  ghost predicate AllOnboard(onboard: seq<bool>, list: seq<nat>) {
    && L.Distinct(list)
    && (forall k | 0 <= k < |list| :: list[k] < |onboard| && onboard[list[k]])
  }

  /** active_list_ names each onboarded slot once. */
  ghost predicate ListOk(onboard: seq<bool>, list: seq<nat>) {
    && AllOnboard(onboard, list)
    && (forall i | 0 <= i < |onboard| && onboard[i] :: i in list)
  }

  ghost predicate SendOk(cfg: Config, w: World, e: Entry) {
    0 < e.seqno && e.seqno + 1 == w.nextSeq && Intact(w.mem, e) && e.chunk < cfg.chunks
  }

  ghost predicate PerSlotBound(cfg: Config, w: World, todo: seq<nat>)
    requires Shaped(cfg, w)
  {
    forall i | 0 <= i < cfg.slots && i !in todo :: L.RowSum(w.books.out[i]) <= cfg.cap + cfg.maxBorrowed
  }

  /** None of the slots still to be served holds the chunk being sent. */
  ghost predicate NotYetSent(out: seq<seq<nat>>, e: Entry, todo: seq<nat>, at: DeliverPc) {
    forall k | 0 <= k < |todo| && !(k == 0 && (at.BumpData? || at.WakeData?)) ::
      todo[k] < |out| && e.chunk < |out[todo[k]]| && out[todo[k]][e.chunk] == 0
  }

  ghost predicate PcOk(cfg: Config, w: World)
    requires Shaped(cfg, w)
  {
    match w.pc
    case Idle => ListOk(w.onboard, w.list)
    case Draining(todo) =>
      ListOk(w.onboard, w.list) && |w.loaned| < cfg.maxLoans && AllOnboard(w.onboard, todo) && PerSlotBound(cfg, w, todo)
    case Scanning(next, goal) =>
      && next <= cfg.slots && !goal.ForLoan?
      && (goal.ForSend? ==> SendOk(cfg, w, goal.entry) && w.books.refs[goal.entry.chunk] == 0)
    case Reaping(next) => next <= cfg.slots
    case Sending(e, todo, at) =>
      ListOk(w.onboard, w.list) && AllOnboard(w.onboard, todo) && SendOk(cfg, w, e) && NotYetSent(w.books.out, e, todo, at)
    case Exiting(next, _) => next <= cfg.slots
  }

  ghost predicate Inv(cfg: Config, w: World) {
    && GoodConfig(cfg)
    && Shaped(cfg, w)
    && L.Books(w.books, cfg.chunks, cfg.slots, w.loaned, Moving(w.pc))
    && AllSlots(cfg, w)
    && PcOk(cfg, w)
    && 0 < w.nextSeq
    && w.failures == 0
  }

  // ---------------------------------------------------------------------------
  // One slot at a time
  // ---------------------------------------------------------------------------

  lemma CasKeepsOffer(ch: Chan, t: nat, c: nat)
    ensures
      var ch' := PopCas(ch, t, c);
      ch'.first == ch.first && ch'.refused == ch.refused && ch'.ring.head == ch.ring.head
  {
  }

  lemma SubKeepsOffer(cfg: Config, mem: seq<Cell>, gone: bool, ch: Chan, ch': Chan, act: SubAct)
    requires Sized(cfg, ch) && SubCan(cfg, ch, act) && LifeInv(ch)
    requires ch' == SubDo(cfg, mem, gone, ch, act)
    ensures ch'.first == ch.first && ch'.refused == ch.refused && ch'.ring.head == ch.ring.head
  {
    hide SubDo, PopCas, LifeInv;
    if Special(act) {
      SpecialActs(cfg, mem, gone, ch, ch', act);
      if act == Pop(CasTail) { CasKeepsOffer(ch, ch.reader.pc.t, ch.reader.pc.c); }
    } else {
      SubOnlyMoves(cfg, mem, gone, ch, ch', act);
    }
  }

  lemma SubKeepsSlot(cfg: Config, mem: seq<Cell>, row: seq<nat>, pv: PubView, pv': PubView, ch: Chan, ch': Chan,
                     on: bool, due: nat, act: SubAct)
    requires GoodConfig(cfg) && SlotOk(cfg, mem, row, pv, ch, on, due)
    requires SubCan(cfg, ch, act) && ch' == SubDo(cfg, mem, pv.Leaving?, ch, act) && pv' == SubDoView(pv, act)
    ensures SlotOk(cfg, mem, row, pv', ch', on, due) && Sized(cfg, ch') && ch'.done.tail <= ch'.done.head
  {
    hide GoodConfig, ChanOk, LifeInv, SubDo, SubCan;
    ChanParts(cfg, mem, row, pv, ch);
    SubKeepsChan(cfg, mem, row, pv, pv', ch, ch', act);
    ChanParts(cfg, mem, row, pv', ch');
    SubKeepsOffer(cfg, mem, pv.Leaving?, ch, ch', act);
    if on { InUseStays(cfg, mem, pv.Leaving?, ch, ch', act); }
  }

  lemma ChanParts(cfg: Config, mem: seq<Cell>, row: seq<nat>, pv: PubView, ch: Chan)
    requires ChanOk(cfg, mem, row, pv, ch)
    ensures Sized(cfg, ch) && LifeInv(ch) && ch.done.tail <= ch.done.head
  {
    hide LifeInv, RingInv, W.WakeInv, W.BlockInv, HeldInv, Conserved, CountInv, PolicyInv, HeaderInv;
  }

  /** One action of deliver() on its slot. */
  lemma PubKeepsSlot(cfg: Config, mem: seq<Cell>, row: seq<nat>, row': seq<nat>, ch: Chan, e: Entry, at: DeliverPc,
                     act: PubAct, o: Outcome, due: nat)
    requires GoodConfig(cfg) && SlotOk(cfg, mem, row, Delivering(e, at), ch, true, due)
    requires PubCan(at, act) && o == PubDo(cfg, ch, e, at, act)
    requires RowAfter(row, row', o.effect)
    requires row[e.chunk] == 0 || at.BumpData? || at.WakeData?
    ensures SlotOk(cfg, mem, row', ViewOf(e, o.to), o.ch, true, e.seqno + 1)
    ensures Sized(cfg, o.ch) && o.ch.done == ch.done
  {
    hide GoodConfig, PubDo, PubCan, LifeInv, RingInv, W.WakeInv, W.BlockInv, HeldInv, Conserved, CountInv, PolicyInv, HeaderInv;
    PubKeepsChan(cfg, mem, row, row', ch, e, at, act, o, ViewOf(e, o.to));
  }

  /** deliver() starts on a slot. */
  lemma BeginDelivery(cfg: Config, mem: seq<Cell>, row: seq<nat>, ch: Chan, e: Entry, due: nat)
    requires SlotOk(cfg, mem, row, Away, ch, true, e.seqno) && Intact(mem, e) && e.chunk < cfg.chunks
    ensures SlotOk(cfg, mem, row, Delivering(e, LoadTail), ch, true, due)
  {
    hide LifeInv, HeldInv, Custody, OffersSplit, GapsInv, RingShape, PoppedOf;
    SameCustodyConserves(ch, ch, row, Away, Delivering(e, LoadTail));
  }

  lemma DrainKeepsSlot(cfg: Config, mem: seq<Cell>, row: seq<nat>, row': seq<nat>, ch: Chan, on: bool, due: nat)
    requires SlotOk(cfg, mem, row, Away, ch, on, due)
    requires |row'| == |row|
    requires forall c | 0 <= c < |row| :: row'[c] == if c in Undrained(ch.done) then 0 else row[c]
    ensures SlotOk(cfg, mem, row', Away, Drained(ch), on, due) && Sized(cfg, Drained(ch))
    ensures L.RowSum(row') <= cfg.cap + cfg.maxBorrowed
  {
    hide LifeInv, RingInv, W.WakeInv, W.BlockInv, HeldInv, Conserved, CountInv, PolicyInv, HeaderInv;
    DrainKeepsChan(cfg, mem, row, row', ch);
  }

  lemma RecycledKeepsSlot(cfg: Config, mem: seq<Cell>, row: seq<nat>, row': seq<nat>, ch: Chan, on: bool, due: nat, due': nat)
    requires SlotOk(cfg, mem, row, Away, ch, on, due) && |row'| == |row| && RowZero(row')
    ensures SlotOk(cfg, mem, row', Away, Recycled(ch), false, due') && Sized(cfg, Recycled(ch))
  {
    hide LifeInv, RingInv, W.WakeInv, HeldInv, Conserved, CountInv, PolicyInv, HeaderInv;
    RecycledIsOk(cfg, mem, row', Away, ch);
  }

  /** A newly onboarded slot starts with the send named by `seqno`. */
  lemma OnboardKeepsSlot(cfg: Config, mem: seq<Cell>, row: seq<nat>, ch: Chan, ch': Chan, seqno: nat, due: nat)
    requires SlotOk(cfg, mem, row, Away, ch, false, due) && ch.state == Active && 0 < seqno
    requires ch' == ch.(first := seqno)
    ensures SlotOk(cfg, mem, row, Away, ch', true, seqno) && Sized(cfg, ch')
  {
    OnboardKeepsCounts(cfg, ch, ch', seqno);
    FirstIsPrivate(cfg, mem, ch, ch');
    hide LifeInv, RingInv, W.WakeInv, W.BlockInv, HeldInv, Conserved, CountInv, PolicyInv, HeaderInv, Custody;
    QueueSameKeepsCustody(ch, ch');
    SameCustodyConserves(ch, ch', row, Away, Away);
  }

  /** Which send a subscriber was onboarded at matters to the accounting alone. */
  lemma FirstIsPrivate(cfg: Config, mem: seq<Cell>, ch: Chan, ch': Chan)
    requires LifeInv(ch) && RingInv(cfg, ch, Away) && W.WakeInv(ch, Away) && W.BlockInv(cfg, ch, Away)
    requires HeldInv(cfg, ch) && PolicyInv(ch, Away) && HeaderInv(mem, ch, Away) && ch' == ch.(first := ch'.first)
    ensures LifeInv(ch') && RingInv(cfg, ch', Away) && W.WakeInv(ch', Away) && W.BlockInv(cfg, ch', Away)
    ensures HeldInv(cfg, ch') && PolicyInv(ch', Away) && HeaderInv(mem, ch', Away)
  {
    hide RingShape, PoppedOf;
  }

  lemma OnboardKeepsCounts(cfg: Config, ch: Chan, ch': Chan, seqno: nat)
    requires Sized(cfg, ch) && RingInv(cfg, ch, Away) && CountInv(ch, Away)
    requires ch.ring.head == 0 && ch.refused == {} && ch' == ch.(first := seqno)
    ensures CountInv(ch', Away)
  {
    hide PoppedOf, GapsInv;
    assert ch.ring.log == [];
  }

  /** A chunk nobody is owed may change under a channel unnoticed. */
  lemma WriteKeepsSlot(cfg: Config, mem: seq<Cell>, mem': seq<Cell>, row: seq<nat>, ch: Chan, on: bool, due: nat, c: nat)
    requires SlotOk(cfg, mem, row, Away, ch, on, due) && c < cfg.chunks == |mem| && row[c] == 0
    requires |mem'| == |mem| && forall d | 0 <= d < |mem| && d != c :: mem'[d] == mem[d]
    ensures SlotOk(cfg, mem', row, Away, ch, on, due)
  {
    hide LifeInv, RingInv, W.WakeInv, W.BlockInv, HeldInv, CountInv, PolicyInv, Bag;
    assert Custody(ch)[c] == Owed(row, Away, c) == 0;
    forall k | ch.ring.tail <= k < |ch.ring.log|
      ensures Intact(mem', ch.ring.log[k])
    {
      BagHas(Queue(ch.ring), k - ch.ring.tail);
      assert Intact(mem, ch.ring.log[k]);
    }
    forall k | 0 <= k < |ch.reader.held|
      ensures Intact(mem', ch.reader.held[k])
    {
      BagHas(ch.reader.held, k);
      assert Intact(mem, ch.reader.held[k]);
    }
  }

  /** A channel seen from a publisher that is leaving, before and after each of its steps. */
  ghost predicate LeaveStep(pv: PubView, pv': PubView, ch: Chan, ch': Chan) {
    || (pv == Away && pv' == Leaving(false, false) && ch' == ch)
    || (pv == Leaving(false, false) && pv' == Leaving(true, false) && ch' == Channel.ExitBump(ch))
    || (pv == Leaving(true, false) && pv' == Leaving(true, true) && ch' == WakeReader(ch))
  }

  lemma LeavingKeepsHandshakes(cfg: Config, pv: PubView, pv': PubView, ch: Chan, ch': Chan)
    requires W.WakeInv(ch, pv) && W.BlockInv(cfg, ch, pv) && LifeInv(ch) && LeaveStep(pv, pv', ch, ch')
    ensures W.WakeInv(ch', pv') && W.BlockInv(cfg, ch', pv') && LifeInv(ch') && LeavesReader(ch, ch')
  {
  }

  lemma LeavingKeepsTallies(cfg: Config, mem: seq<Cell>, pv: PubView, pv': PubView, ch: Chan, ch': Chan)
    requires RingInv(cfg, ch, pv) && CountInv(ch, pv) && PolicyInv(ch, pv) && HeaderInv(mem, ch, pv)
    requires LeaveStep(pv, pv', ch, ch')
    ensures RingInv(cfg, ch', pv') && CountInv(ch', pv') && PolicyInv(ch', pv') && HeaderInv(mem, ch', pv')
    ensures ch'.ring == ch.ring && ch'.done == ch.done && ch'.reader.held == ch.reader.held && NextOffer(ch') == NextOffer(ch)
  {
    hide RingShape, PoppedOf, OffersSplit, Evictions;
  }

  lemma LeavingKeepsSlot(cfg: Config, mem: seq<Cell>, row: seq<nat>, pv: PubView, pv': PubView, ch: Chan, ch': Chan,
                         on: bool, due: nat)
    requires SlotOk(cfg, mem, row, pv, ch, on, due) && LeaveStep(pv, pv', ch, ch')
    ensures SlotOk(cfg, mem, row, pv', ch', on, due) && Sized(cfg, ch') && ch'.done.tail <= ch'.done.head
  {
    LeavingKeepsHandshakes(cfg, pv, pv', ch, ch');
    LeavingKeepsTallies(cfg, mem, pv, pv', ch, ch');
    hide LifeInv, RingInv, W.WakeInv, W.BlockInv, HeldInv, Conserved, CountInv, PolicyInv, HeaderInv, WakeReader;
    PubKeepsHeld(cfg, ch, ch');
    QueueSameKeepsCustody(ch, ch');
    SameCustodyConserves(ch, ch', row, pv, pv');
  }

  // ---------------------------------------------------------------------------
  // All slots
  // ---------------------------------------------------------------------------

  /** All slots but `s` look exactly as before. */
  ghost predicate Elsewhere(cfg: Config, w: World, w': World, s: nat)
    requires Shaped(cfg, w) && Shaped(cfg, w')
  {
    forall i | 0 <= i < cfg.slots && i != s ::
      && w'.chans[i] == w.chans[i] && w'.books.out[i] == w.books.out[i] && w'.onboard[i] == w.onboard[i]
      && View(w'.pc, i) == View(w.pc, i) && Due(w', i) == Due(w, i)
  }

  ghost predicate AllSlots(cfg: Config, w: World)
    requires Shaped(cfg, w)
  {
    forall i | 0 <= i < cfg.slots :: SlotInv(cfg, w, i)
  }

  lemma SlotsFramed(cfg: Config, w: World, w': World, s: nat)
    requires Shaped(cfg, w) && AllSlots(cfg, w) && Shaped(cfg, w') && w'.mem == w.mem
    requires Elsewhere(cfg, w, w', s)
    requires s < cfg.slots ==> SlotInv(cfg, w', s)
    ensures AllSlots(cfg, w')
  {
    hide SlotOk;
    forall i | 0 <= i < cfg.slots
      ensures SlotInv(cfg, w', i)
    {
      if i != s { assert SlotInv(cfg, w, i); }
    }
  }

  /** As `SlotsFramed`, when deliver() may move on to one of the other slots. */
  lemma SlotsMoveOn(cfg: Config, w: World, w': World, s: nat)
    requires Shaped(cfg, w) && AllSlots(cfg, w) && Shaped(cfg, w') && w'.mem == w.mem && w'.pc.Sending?
    requires forall i | 0 <= i < cfg.slots && i != s ::
      && w'.chans[i] == w.chans[i] && w'.books.out[i] == w.books.out[i] && w'.onboard[i] == w.onboard[i]
      && View(w.pc, i) == Away
      && (View(w'.pc, i) == Away ==> Due(w', i) == Due(w, i) || !w.onboard[i])
      && (View(w'.pc, i) != Away ==>
            w.onboard[i] && Due(w, i) == w'.pc.entry.seqno && View(w'.pc, i) == Delivering(w'.pc.entry, LoadTail))
    requires Intact(w.mem, w'.pc.entry) && w'.pc.entry.chunk < cfg.chunks
    requires s < cfg.slots ==> SlotInv(cfg, w', s)
    ensures AllSlots(cfg, w')
  {
    hide ChanOk;
    forall i | 0 <= i < cfg.slots
      ensures SlotInv(cfg, w', i)
    {
      if i != s {
        assert SlotInv(cfg, w, i);
        if View(w'.pc, i) != Away {
          BeginDelivery(cfg, w.mem, w.books.out[i], w.chans[i], w'.pc.entry, Due(w', i));
        }
      }
    }
  }

  lemma PutChanShaped(cfg: Config, w: World, i: nat, ch: Chan)
    requires Shaped(cfg, w) && i < cfg.slots && Sized(cfg, ch) && ch.done.tail <= ch.done.head
    ensures Shaped(cfg, PutChan(w, i, ch))
  {
  }

  /** A step that leaves the channels and their rows alone. */
  lemma QuietKeepsSlots(cfg: Config, w: World, w': World)
    requires Shaped(cfg, w) && AllSlots(cfg, w) && Shaped(cfg, w') && w'.mem == w.mem
    requires w'.chans == w.chans && w'.books.out == w.books.out && w'.onboard == w.onboard
    requires forall i | 0 <= i < cfg.slots :: View(w'.pc, i) == View(w.pc, i) && Due(w', i) == Due(w, i)
    ensures AllSlots(cfg, w')
  {
    hide SlotOk;
    SlotsFramed(cfg, w, w', cfg.slots);
  }

  // ---------------------------------------------------------------------------
  // Steps of the subscribers
  // ---------------------------------------------------------------------------

  lemma WakePcOk(cfg: Config, w: World, w': World, i: nat, act: SubAct)
    requires Shaped(cfg, w) && PcOk(cfg, w) && Shaped(cfg, w')
    requires w' == w.(pc := WokenPc(w.pc, i, act), chans := w'.chans)
    ensures PcOk(cfg, w')
  {
    hide ListOk, AllOnboard;
  }

  lemma WakeView(pc: PubPc, i: nat, j: nat, act: SubAct)
    ensures View(WokenPc(pc, i, act), j) == if j == i then SubDoView(View(pc, i), act) else View(pc, j)
    ensures Owing(WokenPc(pc, i, act), j) == Owing(pc, j)
    ensures Moving(WokenPc(pc, i, act)) == Moving(pc)
    ensures View(pc, j).Leaving? == pc.Exiting?
  {
  }

  lemma SubStepKeepsSlots(cfg: Config, w: World, w': World, i: nat, act: SubAct)
    requires GoodConfig(cfg) && Shaped(cfg, w) && AllSlots(cfg, w) && i < cfg.slots && SubCan(cfg, w.chans[i], act)
    requires w'.chans == w.chans[i := SubDo(cfg, w.mem, w.pc.Exiting?, w.chans[i], act)]
    requires w' == w.(pc := WokenPc(w.pc, i, act), chans := w'.chans)
    ensures Shaped(cfg, w') && AllSlots(cfg, w')
  {
    hide GoodConfig, SlotOk, SubDo, SubCan, WokenPc, View, Owing;
    assert SlotInv(cfg, w, i);
    forall j | 0 <= j < cfg.slots { WakeView(w.pc, i, j, act); }
    SubKeepsSlot(cfg, w.mem, w.books.out[i], View(w.pc, i), View(w'.pc, i), w.chans[i], w'.chans[i], w.onboard[i],
                 Due(w, i), act);
    PutChanShaped(cfg, w.(pc := w'.pc), i, w'.chans[i]);
    SlotsFramed(cfg, w, w', i);
  }

  lemma SubStepKeepsInv(cfg: Config, w: World, w': World, i: nat, act: SubAct)
    requires Inv(cfg, w) && IsStep(cfg, w, Sub(i, act), w')
    ensures Inv(cfg, w')
  {
    hide GoodConfig, AllSlots, L.Books, PcOk, WokenPc;
    SubStepKeepsSlots(cfg, w, w', i, act);
    WakeView(w.pc, i, i, act);
    WakePcOk(cfg, w, w', i, act);
  }

  // ---------------------------------------------------------------------------
  // Deliver
  // ---------------------------------------------------------------------------

  /** The books after the private effect of one deliver action on slot `s`. */
  lemma EffectKeepsBooks(cfg: Config, l: L.Ledger, loaned: set<nat>, e: Entry, s: nat, effect: Effect)
    requires L.Books(l, cfg.chunks, cfg.slots, loaned, {e.chunk}) && s < cfg.slots && e.chunk < cfg.chunks
    requires effect != NoEffect ==> l.out[s][e.chunk] == 0
    requires effect.Ref? ==> effect.c == e.chunk
    ensures
      var l' := ApplyEffect(l, s, effect);
      && L.Books(l', cfg.chunks, cfg.slots, loaned, {e.chunk})
      && RowAfter(l.out[s], l'.out[s], effect)
      && (forall t | 0 <= t < cfg.slots && t != s :: l'.out[t] == l.out[t])
  {
    hide L.RowsUnit, L.CountsAgree, L.Placed;
    match effect
    case NoEffect =>
    case Unref(c) => L.ReleaseRefKeepsBooks(l, cfg.chunks, cfg.slots, loaned, {e.chunk}, s, c);
    case Ref(c) => L.AddRefKeepsBooks(l, cfg.chunks, cfg.slots, loaned, {e.chunk}, s, c);
  }

  /** Which actions touch the books, and where they lead. */
  lemma DeliverEffects(cfg: Config, ch: Chan, e: Entry, at: DeliverPc, act: PubAct, o: Outcome)
    requires Sized(cfg, ch) && PubCan(at, act) && o == PubDo(cfg, ch, e, at, act)
    ensures EffectOf(o, e) == o.effect
    ensures o.effect != NoEffect ==> !at.BumpData? && !at.WakeData?
    ensures (at.BumpData? || at.WakeData?) && o.to.Next? ==> o.to.at.WakeData?
    ensures o.effect.Ref? ==> o.effect.c == e.chunk
    ensures o.effect.Ref? && o.to.Next? ==> o.to.at.BumpData?
  {
  }

  /** After the action, the slots still to be served are still without the chunk. */
  lemma StillNotSent(out: seq<seq<nat>>, out': seq<seq<nat>>, e: Entry, todo: seq<nat>, at: DeliverPc, o: Outcome)
    requires NotYetSent(out, e, todo, at) && L.Distinct(todo) && todo != [] && todo[0] < |out| == |out'|
    requires RowAfter(out[todo[0]], out'[todo[0]], o.effect)
    requires forall t | 0 <= t < |out| && t != todo[0] :: out'[t] == out[t]
    requires o.effect.Ref? && o.to.Next? ==> o.to.at.BumpData?
    requires (at.BumpData? || at.WakeData?) && o.to.Next? ==> o.to.at.WakeData?
    ensures o.to.Next? ==> NotYetSent(out', e, todo, o.to.at)
    ensures o.to.Return? ==> NotYetSent(out', e, todo[1..], LoadTail)
  {
  }

  /** What one deliver action does to the world, channel by channel. */
  ghost predicate Delivered(cfg: Config, w: World, w': World, s: nat, o: Outcome)
    requires Shaped(cfg, w)
  {
    && w.pc.Sending? && w.pc.todo != [] && s == w.pc.todo[0] < cfg.slots
    && w' == w.(books := w'.books, pc := AfterDeliver(w.pc, o.to), chans := w.chans[s := o.ch])
    && L.Books(w'.books, cfg.chunks, cfg.slots, w.loaned, {w.pc.entry.chunk})
    && RowAfter(w.books.out[s], w'.books.out[s], o.effect)
    && (forall t | 0 <= t < cfg.slots && t != s :: w'.books.out[t] == w.books.out[t])
  }

  lemma DeliverStep(cfg: Config, w: World, w': World, move: PubAct, s: nat, o: Outcome)
    requires Shaped(cfg, w) && IsStep(cfg, w, Deliver(move), w') && PcOk(cfg, w)
    requires L.Books(w.books, cfg.chunks, cfg.slots, w.loaned, {w.pc.entry.chunk})
    requires s == w.pc.todo[0] && o == PubDo(cfg, w.chans[s], w.pc.entry, w.pc.at, move)
    ensures Delivered(cfg, w, w', s, o)
  {
    hide PubDo, L.Books, ListOk, AllOnboard, SendOk;
    DeliverEffects(cfg, w.chans[s], w.pc.entry, w.pc.at, move, o);
    EffectKeepsBooks(cfg, w.books, w.loaned, w.pc.entry, s, o.effect);
  }

  lemma DeliverKeepsSlot(cfg: Config, w: World, w': World, move: PubAct, s: nat, o: Outcome)
    requires GoodConfig(cfg) && Shaped(cfg, w) && Delivered(cfg, w, w', s, o)
    requires SlotInv(cfg, w, s) && PcOk(cfg, w) && 0 < w.nextSeq
    requires PubCan(w.pc.at, move) && o == PubDo(cfg, w.chans[s], w.pc.entry, w.pc.at, move)
    ensures Shaped(cfg, w') && SlotInv(cfg, w', s)
  {
    hide GoodConfig, ChanOk, L.RowsUnit, L.CountsAgree, L.Placed, PubDo, PubCan, ListOk;
    var e := w.pc.entry;
    PubKeepsSlot(cfg, w.mem, w.books.out[s], w'.books.out[s], w.chans[s], e, w.pc.at, move, o, Due(w, s));
    PutChanShaped(cfg, w.(books := w'.books, pc := w'.pc), s, o.ch);
    if o.to.Return? { assert s !in w'.pc.todo; }
  }

  /** Who is served next, and who still is not. */
  lemma AfterDeliverViews(pc: PubPc, to: Where, i: nat)
    requires pc.Sending? && pc.todo != [] && L.Distinct(pc.todo) && i != pc.todo[0]
    ensures Owing(AfterDeliver(pc, to), i) == Owing(pc, i)
    ensures View(AfterDeliver(pc, to), i) == Away
            || (i in pc.todo && View(AfterDeliver(pc, to), i) == Delivering(pc.entry, LoadTail))
  {
    if to.Return? && i in pc.todo {
      var k :| 0 <= k < |pc.todo| && pc.todo[k] == i;
      assert pc.todo[1..][k - 1] == i;
    }
  }

  lemma DeliverKeepsSlots(cfg: Config, w: World, w': World, s: nat, o: Outcome)
    requires Shaped(cfg, w) && AllSlots(cfg, w) && PcOk(cfg, w) && 0 < w.nextSeq
    requires Delivered(cfg, w, w', s, o) && Shaped(cfg, w') && SlotInv(cfg, w', s)
    ensures AllSlots(cfg, w')
  {
    hide SlotOk, L.Books, AfterDeliver;
    forall i | 0 <= i < cfg.slots && i != s { AfterDeliverViews(w.pc, o.to, i); }
    assert w'.pc.Sending? && w'.pc.entry == w.pc.entry by { AfterDeliverSends(w.pc, o.to); }
    SlotsMoveOn(cfg, w, w', s);
  }

  lemma AfterDeliverSends(pc: PubPc, to: Where)
    requires pc.Sending? && pc.todo != []
    ensures AfterDeliver(pc, to).Sending? && AfterDeliver(pc, to).entry == pc.entry
    ensures Moving(AfterDeliver(pc, to)) == Moving(pc) == {pc.entry.chunk}
  {
  }

  lemma DeliverKeepsPc(cfg: Config, w: World, w': World, s: nat, o: Outcome)
    requires Shaped(cfg, w) && PcOk(cfg, w) && Delivered(cfg, w, w', s, o) && Shaped(cfg, w')
    requires o.effect.Ref? && o.to.Next? ==> o.to.at.BumpData?
    requires (w.pc.at.BumpData? || w.pc.at.WakeData?) && o.to.Next? ==> o.to.at.WakeData?
    ensures PcOk(cfg, w')
  {
    hide L.Books;
    StillNotSent(w.books.out, w'.books.out, w.pc.entry, w.pc.todo, w.pc.at, o);
  }

  lemma DeliverKeepsInv(cfg: Config, w: World, w': World, move: PubAct)
    requires Inv(cfg, w) && IsStep(cfg, w, Deliver(move), w')
    ensures Inv(cfg, w')
  {
    hide GoodConfig, SlotOk, L.Books, PubDo, PubCan;
    var s := w.pc.todo[0];
    var o := PubDo(cfg, w.chans[s], w.pc.entry, w.pc.at, move);
    DeliverStep(cfg, w, w', move, s, o);
    assert SlotInv(cfg, w, s);
    DeliverKeepsSlot(cfg, w, w', move, s, o);
    DeliverKeepsSlots(cfg, w, w', s, o);
    DeliverEffects(cfg, w.chans[s], w.pc.entry, w.pc.at, move, o);
    DeliverKeepsPc(cfg, w, w', s, o);
    AfterDeliverSends(w.pc, o.to);
  }

  // ---------------------------------------------------------------------------
  // Loans
  // ---------------------------------------------------------------------------

  lemma UnlistedIsBounded(cfg: Config, w: World, i: nat)
    requires Shaped(cfg, w) && i < cfg.slots && SlotInv(cfg, w, i) && ListOk(w.onboard, w.list) && i !in w.list
    ensures L.RowSum(w.books.out[i]) <= cfg.cap + cfg.maxBorrowed
  {
    hide ChanOk;
    L.SumOfZeros(w.books.out[i]);
  }

  lemma LoanBeginKeepsInv(cfg: Config, w: World, w': World)
    requires Inv(cfg, w) && IsStep(cfg, w, LoanBegin, w')
    ensures Inv(cfg, w')
  {
    hide GoodConfig, SlotOk, L.Books;
    QuietKeepsSlots(cfg, w, w');
    forall i | 0 <= i < cfg.slots && i !in w.list
      ensures L.RowSum(w.books.out[i]) <= cfg.cap + cfg.maxBorrowed
    {
      assert SlotInv(cfg, w, i);
      UnlistedIsBounded(cfg, w, i);
    }
  }

  lemma DrainOneKeepsPc(cfg: Config, w: World, w': World, s: nat)
    requires Shaped(cfg, w) && Shaped(cfg, w') && PcOk(cfg, w)
    requires w.pc.Draining? && w.pc.todo != [] && s == w.pc.todo[0] && w'.pc == Draining(w.pc.todo[1..])
    requires w' == w.(books := w'.books, chans := w'.chans, pc := w'.pc)
    requires forall i | 0 <= i < cfg.slots && i != s :: w'.books.out[i] == w.books.out[i]
    requires s < cfg.slots ==> L.RowSum(w'.books.out[s]) <= cfg.cap + cfg.maxBorrowed
    ensures PcOk(cfg, w')
  {
    hide L.RowSum;
    forall i | 0 <= i < cfg.slots && i !in w'.pc.todo
      ensures L.RowSum(w'.books.out[i]) <= cfg.cap + cfg.maxBorrowed
    {
      if i != s { assert i !in w.pc.todo; }
    }
  }

  lemma DrainOneKeepsSlots(cfg: Config, w: World, w': World, s: nat)
    requires Shaped(cfg, w) && AllSlots(cfg, w) && L.Books(w.books, cfg.chunks, cfg.slots, w.loaned, {})
    requires w.pc.Draining? && s < cfg.slots && w'.pc.Draining?
    requires w' == DrainSlot(cfg, w, s).(pc := w'.pc)
    ensures Shaped(cfg, w') && L.Books(w'.books, cfg.chunks, cfg.slots, w.loaned, {})
    ensures AllSlots(cfg, w')
    ensures L.OnlyRow(w.books, w'.books, s) && L.RowSum(w'.books.out[s]) <= cfg.cap + cfg.maxBorrowed
  {
    hide ChanOk, L.RowsUnit, L.CountsAgree, L.Placed, L.RowSum;
    var ch := w.chans[s];
    assert SlotInv(cfg, w, s);
    L.ReleaseAllKeepsBooks(w.books, cfg.chunks, cfg.slots, w.loaned, {}, s, Undrained(ch.done));
    DrainKeepsSlot(cfg, w.mem, w.books.out[s], w'.books.out[s], ch, w.onboard[s], Due(w, s));
    PutChanShaped(cfg, w.(books := w'.books, pc := w'.pc), s, Drained(ch));
    SlotsFramed(cfg, w, w', s);
  }

  lemma DrainOneKeepsInv(cfg: Config, w: World, w': World)
    requires Inv(cfg, w) && IsStep(cfg, w, DrainOne, w')
    ensures Inv(cfg, w')
  {
    hide GoodConfig, SlotOk, L.Books, L.RowSum;
    var s := w.pc.todo[0];
    DrainOneKeepsSlots(cfg, w, w', s);
    DrainOneKeepsPc(cfg, w, w', s);
  }

  /** Once every done ring has been drained, a chunk is free. */
  lemma LoanNeverRunsOut(cfg: Config, w: World)
    requires Inv(cfg, w) && w.pc == Draining([])
    ensures w.books.free != []
  {
    hide SlotOk, L.Books;
    L.BudgetLeavesFreeChunk(w.books, cfg.chunks, cfg.slots, w.loaned, cfg.cap + cfg.maxBorrowed, cfg.maxLoans);
  }

  lemma LoanTakeKeepsInv(cfg: Config, w: World, w': World)
    requires Inv(cfg, w) && IsStep(cfg, w, LoanTake, w')
    ensures Inv(cfg, w')
  {
    hide GoodConfig, SlotOk, L.RowsUnit, L.CountsAgree, L.Placed;
    QuietKeepsSlots(cfg, w, w');
    L.TakeFreeKeepsBooks(w.books, cfg.chunks, cfg.slots, w.loaned);
  }

  lemma CancelKeepsInv(cfg: Config, w: World, w': World, c: nat)
    requires Inv(cfg, w) && IsStep(cfg, w, Cancel(c), w')
    ensures Inv(cfg, w')
  {
    hide GoodConfig, SlotOk, L.RowsUnit, L.CountsAgree, L.Placed;
    QuietKeepsSlots(cfg, w, w');
    L.ReturnKeepsBooks(w.books, cfg.chunks, cfg.slots, w.loaned, c);
  }

  // ---------------------------------------------------------------------------
  // Writing a loaned chunk disturbs nobody
  // ---------------------------------------------------------------------------

  lemma LoanedIsUnreferenced(cfg: Config, w: World, c: nat, i: nat)
    requires L.Books(w.books, cfg.chunks, cfg.slots, w.loaned, Moving(w.pc)) && c in w.loaned && i < cfg.slots
    ensures c < cfg.chunks && w.books.out[i][c] == 0
  {
    assert c in w.loaned + Moving(w.pc);
    L.ColumnCovers(w.books.out, i, c);
  }

  lemma WriteKeepsSlots(cfg: Config, w: World, w': World, c: nat)
    requires Shaped(cfg, w) && AllSlots(cfg, w) && L.Books(w.books, cfg.chunks, cfg.slots, w.loaned, {})
    requires w.pc == Idle && c in w.loaned
    requires Shaped(cfg, w') && w'.chans == w.chans && w'.books.out == w.books.out && w'.onboard == w.onboard
    requires forall d | 0 <= d < cfg.chunks && d != c :: w'.mem[d] == w.mem[d]
    requires forall i | 0 <= i < cfg.slots :: View(w'.pc, i) == Away && Due(w', i) == w.nextSeq
    ensures AllSlots(cfg, w')
  {
    hide SlotOk, L.Books;
    forall i | 0 <= i < cfg.slots
      ensures SlotInv(cfg, w', i)
    {
      assert SlotInv(cfg, w, i);
      LoanedIsUnreferenced(cfg, w, c, i);
      WriteKeepsSlot(cfg, w.mem, w'.mem, w.books.out[i], w.chans[i], w.onboard[i], Due(w, i), c);
    }
  }

  lemma FillKeepsInv(cfg: Config, w: World, w': World, c: nat, payload: int)
    requires Inv(cfg, w) && IsStep(cfg, w, Fill(c, payload), w')
    ensures Inv(cfg, w')
  {
    hide GoodConfig, SlotOk, L.Books;
    WriteKeepsSlots(cfg, w, w', c);
  }

  lemma SendKeepsBooks(cfg: Config, w: World, c: nat)
    requires L.Books(w.books, cfg.chunks, cfg.slots, w.loaned, {}) && c in w.loaned
    ensures L.Books(w.books, cfg.chunks, cfg.slots, w.loaned - {c}, {c})
    ensures c < cfg.chunks && w.books.refs[c] == 0
  {
  }

  lemma SendBeginKeepsInv(cfg: Config, w: World, w': World, c: nat)
    requires Inv(cfg, w) && IsStep(cfg, w, SendBegin(c), w')
    ensures Inv(cfg, w')
  {
    hide GoodConfig, SlotOk, L.Books;
    WriteKeepsSlots(cfg, w, w', c);
    SendKeepsBooks(cfg, w, c);
  }

  lemma SendEndKeepsInv(cfg: Config, w: World, w': World, check: bool)
    requires Inv(cfg, w) && IsStep(cfg, w, SendEnd(check), w')
    ensures Inv(cfg, w')
  {
    hide GoodConfig, SlotOk, L.RowsUnit, L.CountsAgree, L.Placed;
    L.SettleKeepsBooks(w.books, cfg.chunks, cfg.slots, w.loaned, w.pc.entry.chunk);
    QuietKeepsSlots(cfg, w, w');
  }

  // ---------------------------------------------------------------------------
  // Scanning and reaping
  // ---------------------------------------------------------------------------

  lemma MovingRowClear(cfg: Config, w: World, k: nat)
    requires Shaped(cfg, w) && L.Books(w.books, cfg.chunks, cfg.slots, w.loaned, Moving(w.pc)) && PcOk(cfg, w)
    requires k < cfg.slots && (w.pc.Scanning? || w.pc.Reaping?)
    ensures L.RowClear(w.books, k, Moving(w.pc))
  {
    forall c | c in Moving(w.pc)
      ensures w.books.out[k][c] == 0
    {
      L.ColumnCovers(w.books.out, k, c);
    }
  }

  lemma UnreferencedStay(l: L.Ledger, l': L.Ledger, chunks: nat, slots: nat, loaned: set<nat>, moving: set<nat>, s: nat)
    requires L.Books(l, chunks, slots, loaned, moving) && L.Books(l', chunks, slots, loaned, moving)
    requires s < slots && L.OnlyRow(l, l', s)
    ensures forall c | 0 <= c < chunks && l.refs[c] == 0 :: l'.refs[c] == 0
  {
    forall c | 0 <= c < chunks && l.refs[c] == 0
      ensures l'.refs[c] == 0
    {
      L.ColumnZero(l.out, c);
      L.ColumnZero(l'.out, c);
    }
  }

  /** Reclaiming a slot keeps the books, whatever its done ring held. */
  lemma ReclaimKeepsBooks(cfg: Config, w: World, w': World, k: nat)
    requires Shaped(cfg, w) && L.Books(w.books, cfg.chunks, cfg.slots, w.loaned, Moving(w.pc)) && PcOk(cfg, w)
    requires k < cfg.slots && (w.pc.Scanning? || w.pc.Reaping?) && w'.books == ReclaimSlot(cfg, w, k).books
    ensures L.Books(w'.books, cfg.chunks, cfg.slots, w.loaned, Moving(w.pc))
    ensures L.OnlyRow(w.books, w'.books, k)
    ensures RowZero(w'.books.out[k])
    ensures forall c | 0 <= c < cfg.chunks && w.books.refs[c] == 0 :: w'.books.refs[c] == 0
  {
    MovingRowClear(cfg, w, k);
    hide L.RowsUnit, L.CountsAgree, L.Placed, L.RowClear, PcOk;
    L.ReclaimIsExact(w.books, cfg.chunks, cfg.slots, w.loaned, Moving(w.pc), k, Undrained(w.chans[k].done));
    UnreferencedStay(w.books, w'.books, cfg.chunks, cfg.slots, w.loaned, Moving(w.pc), k);
  }

  lemma ReclaimKeepsSlots(cfg: Config, w: World, w': World, k: nat, pc': PubPc)
    requires Shaped(cfg, w) && AllSlots(cfg, w) && k < cfg.slots && (w.pc.Scanning? || w.pc.Reaping?)
    requires pc'.Scanning? == w.pc.Scanning? && pc'.Reaping? == w.pc.Reaping?
    requires pc'.Scanning? ==> pc'.goal == w.pc.goal
    requires w' == ReclaimSlot(cfg, w, k).(pc := pc')
    requires L.Shape(w'.books, cfg.chunks, cfg.slots) && RowZero(w'.books.out[k])
    requires forall t | 0 <= t < cfg.slots && t != k :: w'.books.out[t] == w.books.out[t]
    ensures Shaped(cfg, w') && AllSlots(cfg, w')
  {
    hide SlotOk, L.Reclaim;
    assert SlotInv(cfg, w, k);
    RecycledKeepsSlot(cfg, w.mem, w.books.out[k], w'.books.out[k], w.chans[k], w.onboard[k], Due(w, k), Due(w', k));
    PutChanShaped(cfg, w.(books := w'.books, onboard := w'.onboard, pc := pc'), k, Recycled(w.chans[k]));
    SlotsFramed(cfg, w, w', k);
  }

  lemma ReclaimKeepsInv(cfg: Config, w: World, w': World, k: nat)
    requires Inv(cfg, w) && (w.pc.Scanning? || w.pc.Reaping?) && k == w.pc.next < cfg.slots
    requires w'.pc == (if w.pc.Scanning? then Scanning(k + 1, w.pc.goal) else Reaping(k + 1))
    requires w' == ReclaimSlot(cfg, w, k).(pc := w'.pc)
    ensures Inv(cfg, w')
  {
    hide GoodConfig, SlotOk, L.RowsUnit, L.CountsAgree, L.Placed, L.Reclaim;
    ReclaimKeepsBooks(cfg, w, w', k);
    ReclaimKeepsSlots(cfg, w, w', k, w'.pc);
  }

  lemma OnboardKeepsSlots(cfg: Config, w: World, w': World, k: nat, seqno: nat)
    requires Shaped(cfg, w) && AllSlots(cfg, w) && PcOk(cfg, w) && 0 < w.nextSeq
    requires w.pc.Scanning? && k == w.pc.next < cfg.slots && seqno == FirstSeq(w, w.pc.goal)
    requires w.chans[k].state == Active && !w.onboard[k]
    requires w' == w.(onboard := w.onboard[k := true], chans := w.chans[k := w.chans[k].(first := seqno)],
                      pc := Scanning(k + 1, w.pc.goal))
    ensures Shaped(cfg, w') && AllSlots(cfg, w')
  {
    hide SlotOk;
    var ch := w.chans[k];
    assert SlotInv(cfg, w, k);
    OnboardKeepsSlot(cfg, w.mem, w.books.out[k], ch, w'.chans[k], seqno, Due(w, k));
    PutChanShaped(cfg, w.(onboard := w'.onboard, pc := w'.pc), k, w'.chans[k]);
    SlotsFramed(cfg, w, w', k);
  }

  /** The three things scan_slots() can do with a slot. */
  lemma ScanCases(cfg: Config, w: World, w': World, k: nat, opens: bool)
    requires Shaped(cfg, w) && w.pc.Scanning? && k == w.pc.next < cfg.slots
    requires w' == ScanSlot(cfg, w, k, FirstSeq(w, w.pc.goal), opens).(pc := Scanning(k + 1, w.pc.goal))
    ensures
      var ch := w.chans[k];
      if ch.state == Active && !w.onboard[k] && opens then
        w' == w.(onboard := w.onboard[k := true], chans := w.chans[k := ch.(first := FirstSeq(w, w.pc.goal))],
                 pc := Scanning(k + 1, w.pc.goal))
      else if (ch.state == Active && !w.onboard[k]) || ch.state == Closing then
        w' == ReclaimSlot(cfg, w, k).(pc := Scanning(k + 1, w.pc.goal))
      else w' == w.(pc := Scanning(k + 1, w.pc.goal))
  {
    hide ReclaimSlot;
  }

  lemma ScanOneKeepsInv(cfg: Config, w: World, w': World, opens: bool)
    requires Inv(cfg, w) && IsStep(cfg, w, ScanOne(opens), w')
    ensures Inv(cfg, w')
  {
    hide GoodConfig, SlotOk, L.Books, ReclaimSlot, ScanSlot;
    var k := w.pc.next;
    var ch := w.chans[k];
    ScanCases(cfg, w, w', k, opens);
    if ch.state == Active && !w.onboard[k] && opens {
      OnboardKeepsSlots(cfg, w, w', k, FirstSeq(w, w.pc.goal));
    } else if (ch.state == Active && !w.onboard[k]) || ch.state == Closing {
      ReclaimKeepsInv(cfg, w, w', k);
    } else {
      QuietKeepsSlots(cfg, w, w');
    }
  }

  lemma ReapOneKeepsInv(cfg: Config, w: World, w': World, reap: bool)
    requires Inv(cfg, w) && IsStep(cfg, w, ReapOne(reap), w')
    ensures Inv(cfg, w')
  {
    hide GoodConfig, SlotOk, L.Books, ReclaimSlot;
    if reap {
      ReclaimKeepsInv(cfg, w, w', w.pc.next);
    } else {
      QuietKeepsSlots(cfg, w, w');
    }
  }

  /** One pass lists, in order, the onboarded slots below `n` of one kind. */
  lemma {:induction false} PassLists(w: World, blocking: bool, n: nat)
    requires n <= |w.chans| == |w.onboard|
    ensures L.Distinct(Pass(w, blocking, n))
    ensures forall i :: i in Pass(w, blocking, n) <==>
                        0 <= i < n && w.onboard[i] && (w.chans[i].policy == Block) == blocking
  {
    if n > 0 { PassLists(w, blocking, n - 1); }
  }

  ghost predicate Ascending(list: seq<nat>) { forall a, b | 0 <= a < b < |list| :: list[a] < list[b] }

  lemma {:induction false} PassAscends(w: World, blocking: bool, n: nat)
    requires n <= |w.chans| == |w.onboard|
    ensures Ascending(Pass(w, blocking, n)) && forall k | 0 <= k < |Pass(w, blocking, n)| :: Pass(w, blocking, n)[k] < n
  {
    if n > 0 { PassAscends(w, blocking, n - 1); }
  }

  /** The rebuilt list names each onboarded slot once. */
  lemma ActiveListIsOk(w: World)
    requires |w.onboard| == |w.chans|
    ensures ListOk(w.onboard, ActiveList(w))
  {
    PassLists(w, false, |w.chans|);
    PassLists(w, true, |w.chans|);
    var p, q := Pass(w, false, |w.chans|), Pass(w, true, |w.chans|);
    hide Pass;
    assert forall k | 0 <= k < |p| :: p[k] in p;
    assert forall k | 0 <= k < |q| :: q[k] in q;
    assert forall k | 0 <= k < |p + q| :: (p + q)[k] == if k < |p| then p[k] else q[k - |p|];
  }

  /** No Block subscriber is served before one that cannot hold the publisher up, and within
      each kind they are served by slot number. */
  lemma BlockServedLast(w: World, a: nat, b: nat)
    requires |w.onboard| == |w.chans| && a < b < |ActiveList(w)|
    ensures ActiveList(w)[a] < |w.chans| && ActiveList(w)[b] < |w.chans|
    ensures w.chans[ActiveList(w)[a]].policy == Block ==> w.chans[ActiveList(w)[b]].policy == Block
    ensures (w.chans[ActiveList(w)[a]].policy == Block) == (w.chans[ActiveList(w)[b]].policy == Block) ==>
              ActiveList(w)[a] < ActiveList(w)[b]
  {
    PassAscends(w, false, |w.chans|);
    PassAscends(w, true, |w.chans|);
    PassLists(w, false, |w.chans|);
    PassLists(w, true, |w.chans|);
    var p, q := Pass(w, false, |w.chans|), Pass(w, true, |w.chans|);
    hide Pass;
    assert ActiveList(w)[a] == if a < |p| then p[a] else q[a - |p|];
    assert ActiveList(w)[b] == if b < |p| then p[b] else q[b - |p|];
    assert forall k | 0 <= k < |p| :: p[k] in p;
    assert forall k | 0 <= k < |q| :: q[k] in q;
  }

  lemma FreshListNotSent(cfg: Config, w: World, e: Entry, list: seq<nat>)
    requires L.Books(w.books, cfg.chunks, cfg.slots, w.loaned, {e.chunk}) && e.chunk < cfg.chunks
    requires w.books.refs[e.chunk] == 0 && |w.onboard| == cfg.slots && AllOnboard(w.onboard, list)
    ensures NotYetSent(w.books.out, e, list, LoadTail)
  {
    forall k | 0 <= k < |list|
      ensures w.books.out[list[k]][e.chunk] == 0
    {
      L.ColumnCovers(w.books.out, list[k], e.chunk);
    }
  }

  lemma ScanEndForSend(cfg: Config, w: World, w': World, e: Entry)
    requires Inv(cfg, w) && w.pc == Scanning(cfg.slots, ForSend(e)) && ListOk(w.onboard, w'.list)
    requires w' == w.(list := w'.list, pc := Sending(e, w'.list, LoadTail))
    ensures Inv(cfg, w')
  {
    hide GoodConfig, SlotOk, L.Books;
    FreshListNotSent(cfg, w, e, w'.list);
    SlotsMoveOn(cfg, w, w', cfg.slots);
  }

  lemma NewListKeepsInv(cfg: Config, w: World, w': World)
    requires Inv(cfg, w) && (w.pc.Scanning? || w.pc.Reaping?) && Moving(w.pc) == {} && ListOk(w.onboard, w'.list)
    requires w' == w.(list := w'.list, pc := w'.pc) && (w'.pc == Idle || w'.pc == Reaping(0))
    ensures Inv(cfg, w')
  {
    hide GoodConfig, SlotOk, L.Books, ListOk;
    QuietKeepsSlots(cfg, w, w');
  }

  /** A scan never has to rescue a loan. */
  lemma NoRescue(cfg: Config, w: World)
    requires Inv(cfg, w) && w.pc.Scanning?
    ensures !w.pc.goal.ForLoan?
  {
    hide SlotOk, L.Books, GoodConfig;
  }

  lemma ScanEndKeepsInv(cfg: Config, w: World, w': World)
    requires Inv(cfg, w) && IsStep(cfg, w, ScanEnd, w')
    ensures Inv(cfg, w')
  {
    hide Inv, ActiveList, ListOk, Pass;
    NoRescue(cfg, w);
    ActiveListIsOk(w);
    match w.pc.goal
    case ForCheck => NewListKeepsInv(cfg, w, w');
    case ForSend(e) => ScanEndForSend(cfg, w, w', e);
  }

  lemma ReapEndKeepsInv(cfg: Config, w: World, w': World)
    requires Inv(cfg, w) && IsStep(cfg, w, ReapEnd, w')
    ensures Inv(cfg, w')
  {
    hide Inv, ActiveList, ListOk, Pass;
    ActiveListIsOk(w);
    NewListKeepsInv(cfg, w, w');
  }

  lemma CheckBeginKeepsInv(cfg: Config, w: World, w': World)
    requires Inv(cfg, w) && IsStep(cfg, w, CheckBegin, w')
    ensures Inv(cfg, w')
  {
    hide GoodConfig, SlotOk, L.Books;
    QuietKeepsSlots(cfg, w, w');
  }

  // ---------------------------------------------------------------------------
  // The publisher leaves
  // ---------------------------------------------------------------------------

  lemma ExitBeginKeepsInv(cfg: Config, w: World, w': World)
    requires Inv(cfg, w) && IsStep(cfg, w, ExitBegin, w')
    ensures Inv(cfg, w')
  {
    hide GoodConfig, SlotOk, L.Books;
    forall i | 0 <= i < cfg.slots
      ensures SlotInv(cfg, w', i)
    {
      assert SlotInv(cfg, w, i);
      LeavingKeepsSlot(cfg, w.mem, w.books.out[i], Away, View(w'.pc, i), w.chans[i], w.chans[i], w.onboard[i], Due(w, i));
    }
  }

  lemma ExitKeepsSlots(cfg: Config, w: World, w': World, k: nat)
    requires Shaped(cfg, w) && AllSlots(cfg, w) && w.pc.Exiting? && k == w.pc.next < cfg.slots == |w'.chans|
    requires w' == w.(chans := w.chans[k := w'.chans[k]], pc := w'.pc)
    requires w'.pc == if w.pc.bumped then Exiting(k + 1, false) else Exiting(k, true)
    requires w'.chans[k] == if w.pc.bumped then WakeReader(w.chans[k]) else Channel.ExitBump(w.chans[k])
    ensures Shaped(cfg, w') && AllSlots(cfg, w')
  {
    hide SlotOk;
    assert SlotInv(cfg, w, k);
    LeavingKeepsSlot(cfg, w.mem, w.books.out[k], View(w.pc, k), View(w'.pc, k), w.chans[k], w'.chans[k], w.onboard[k],
                     Due(w, k));
    PutChanShaped(cfg, w.(pc := w'.pc), k, w'.chans[k]);
    SlotsFramed(cfg, w, w', k);
  }

  lemma ExitKeepsInv(cfg: Config, w: World, w': World, step: Step)
    requires Inv(cfg, w) && IsStep(cfg, w, step, w')
    requires step.ExitBump? || step.ExitWake?
    ensures Inv(cfg, w')
  {
    hide GoodConfig, SlotOk, L.Books;
    ExitKeepsSlots(cfg, w, w', w.pc.next);
  }

  // ---------------------------------------------------------------------------
  // Every step, every run
  // ---------------------------------------------------------------------------

  lemma PublisherStepKeepsInv(cfg: Config, w: World, step: Step, w': World)
    requires Inv(cfg, w) && IsStep(cfg, w, step, w') && !step.Sub? && !step.Deliver?
    ensures Inv(cfg, w')
  {
    hide Inv, Do, Shaped;
    match step
    case LoanBegin => LoanBeginKeepsInv(cfg, w, w');
    case DrainOne => DrainOneKeepsInv(cfg, w, w');
    case LoanTake => LoanTakeKeepsInv(cfg, w, w');
    case LoanRescue => LoanNeverRunsOut(cfg, w); assert false;
    case Cancel(c) => CancelKeepsInv(cfg, w, w', c);
    case Fill(c, payload) => FillKeepsInv(cfg, w, w', c, payload);
    case SendBegin(c) => SendBeginKeepsInv(cfg, w, w', c);
    case SendEnd(check) => SendEndKeepsInv(cfg, w, w', check);
    case ScanOne(opens) => ScanOneKeepsInv(cfg, w, w', opens);
    case ScanEnd => ScanEndKeepsInv(cfg, w, w');
    case CheckBegin => CheckBeginKeepsInv(cfg, w, w');
    case ReapOne(reap) => ReapOneKeepsInv(cfg, w, w', reap);
    case ReapEnd => ReapEndKeepsInv(cfg, w, w');
    case ExitBegin => ExitBeginKeepsInv(cfg, w, w');
    case ExitBump => ExitKeepsInv(cfg, w, w', step);
    case ExitWake => ExitKeepsInv(cfg, w, w', step);
  }

  lemma StepKeepsInv(cfg: Config, w: World, step: Step, w': World)
    requires Inv(cfg, w) && IsStep(cfg, w, step, w')
    ensures Inv(cfg, w')
  {
    hide Inv, Do, Shaped;
    match step
    case Sub(i, act) => SubStepKeepsInv(cfg, w, w', i, act);
    case Deliver(move) => DeliverKeepsInv(cfg, w, w', move);
    case _ => PublisherStepKeepsInv(cfg, w, step, w');
  }

  /** A slot nobody has claimed yet. */
  lemma FreeSlotIsOk(cfg: Config, mem: seq<Cell>, row: seq<nat>, ch: Chan, due: nat)
    requires Sized(cfg, ch) && |row| == cfg.chunks == |mem| && RowZero(row)
    requires ch == Chan(Free, false, ch.policy, BlankRing(ch.ring.buf), DoneRing(ch.done.buf, 0, 0),
                        Futex(0, false), Futex(0, false), Stats(0, 0, 0, 0), NoReader, [], 0, {}, 0)
    ensures SlotOk(cfg, mem, row, Away, ch, false, due)
  {
    RecycledIsOk(cfg, mem, row, Away, ch);
    assert Recycled(ch) == ch;
  }

  lemma {:induction false} ColumnOfZeros(out: seq<seq<nat>>, chunks: nat, c: nat)
    requires c < chunks && forall s | 0 <= s < |out| :: |out[s]| == chunks && out[s][c] == 0
    ensures L.Column(out, c) == 0
  {
    L.ColumnZero(out, c);
  }

  lemma InitInv(cfg: Config, w: World)
    requires GoodConfig(cfg) && Init(cfg, w)
    ensures Inv(cfg, w)
  {
    hide GoodConfig, SlotOk;
    forall i | 0 <= i < cfg.slots
      ensures SlotInv(cfg, w, i)
    {
      FreeSlotIsOk(cfg, w.mem, w.books.out[i], w.chans[i], Due(w, i));
    }
    InitBooks(cfg, w);
  }

  lemma InitBooks(cfg: Config, w: World)
    requires GoodConfig(cfg) && Init(cfg, w)
    ensures L.Books(w.books, cfg.chunks, cfg.slots, {}, {})
  {
    forall c | 0 <= c < cfg.chunks
      ensures L.Column(w.books.out, c) == 0
      ensures c in w.books.free
    {
      ColumnOfZeros(w.books.out, cfg.chunks, c);
      assert w.books.free[cfg.chunks - 1 - c] == c;
    }
  }

  /** The invariant holds in every state of every run. */
  lemma {:induction false} RunKeepsInv(cfg: Config, run: seq<World>, steps: seq<Step>, k: nat)
    requires GoodConfig(cfg) && IsRun(cfg, run, steps) && k < |run|
    ensures Inv(cfg, run[k])
  {
    hide GoodConfig, Inv, Init, IsStep;
    if k == 0 {
      InitInv(cfg, run[0]);
    } else {
      RunKeepsInv(cfg, run, steps, k - 1);
      assert IsStep(cfg, run[k - 1], steps[k - 1], run[k - 1 + 1]);
      StepKeepsInv(cfg, run[k - 1], steps[k - 1], run[k]);
    }
  }
}
