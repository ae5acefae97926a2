/**
 The two futex handshakes of a channel. A subscriber sleeps on `data` until something is
 queued or the publisher leaves; a Block publisher sleeps on `space` until there is room
 or the subscriber leaves. Neither ever sleeps through the event it waits for.
 */
module ChannelWake {
  import opened Channel

  ghost predicate Queued(r: Ring) { r.tail < r.head }

  /** The publisher has published and is still to read the sleeping flag or bump the word. */
  ghost predicate DataAlarm(pv: PubView) { pv.Delivering? && (pv.at.Credit? || pv.at.BumpData?) }

  /** The publisher has bumped the word and is about to wake the sleepers. */
  ghost predicate DataWakePending(pv: PubView) {
    (pv.Delivering? && pv.at.WakeData?) || (pv.Leaving? && pv.bumped && !pv.woken)
  }

  /** A subscriber between setting and clearing its sleeping flag. */
  ghost predicate Announced(pc: SubPc) {
    pc.WaitTail? || pc.WaitHead? || pc.WaitGone? || pc.WaitSleep? || pc.Asleep? || pc.WaitClear?
  }

  ghost predicate WakeInv(ch: Chan, pv: PubView) {
    var pc, d := ch.reader.pc, ch.data;
    && (pc.WaitFlag? || pc.WaitTail? || pc.WaitHead? || pc.WaitGone? || pc.WaitSleep? || pc.Asleep? ==>
          pc.w <= d.word)
    && (d.flag <==> Announced(pc))
    && (pc.WaitGone? || pc.WaitSleep? || pc.Asleep? ==>
          Queued(ch.ring) && d.word == pc.w ==> DataAlarm(pv))
    && (pc.WaitSleep? || pc.Asleep? ==> pv.Leaving? && pv.bumped ==> pc.w < d.word)
    && (pc.Asleep? ==> pc.w < d.word ==> DataWakePending(pv))
    && (pv.Leaving? && pv.woken ==> pv.bumped)
  }

  /** Somebody has bumped the word past `w` and is about to wake whoever sleeps on it. */
  ghost predicate WakeDue(leavers: seq<Leaver>, w: nat) {
    exists k | 0 <= k < |leavers| :: leavers[k].ToWake? && w < leavers[k].b
  }

  ghost predicate WindowPc(at: DeliverPc) { at.BlockState? || at.BlockSleep? || at.BlockAsleep? }

  ghost predicate BlockInv(cfg: Config, ch: Chan, pv: PubView) {
    var pc, s := ch.reader.pc, ch.space;
    && (s.flag <==> pv.Delivering? && (pv.at.BlockTail? || WindowPc(pv.at) || pv.at.BlockClear?))
    && (pv.Delivering? ==>
          var at := pv.at;
          && (at.BlockFlag? || at.BlockTail? || WindowPc(at) ==> at.w <= s.word)
          && (WindowPc(at) && at.w == s.word && Room(cfg, ch.ring) ==> pc.RecvWon? || pc.RecvBump?)
          && ((at.BlockSleep? || at.BlockAsleep?) && at.w == s.word && ch.state != Active ==>
                ToBump(ch.tenant) in ch.leavers)
          && (at.BlockAsleep? && at.w < s.word ==> (pc.RecvWake? && at.w < pc.b) || WakeDue(ch.leavers, at.w)))
  }

  // ---------------------------------------------------------------------------
  // Waiting for data
  // ---------------------------------------------------------------------------

  lemma PopKeepsWake(cfg: Config, mem: seq<Cell>, ch: Chan, pv: PubView, act: PopAct)
    requires Sized(cfg, ch) && PopCan(cfg, ch.reader, act) && WakeInv(ch, pv)
    ensures WakeInv(PopDo(cfg, mem, ch, act), SubDoView(pv, Pop(act)))
  {
  }

  /** The two loads of the emptiness check may straddle an eviction: still, a stale tail
      that equals the head means the queue was empty when the head was read. */
  lemma WaitKeepsWake(ch: Chan, pv: PubView, act: WaitAct)
    requires WaitCan(ch.reader, act) && ch.ring.tail <= ch.ring.head
    requires ch.reader.pc.WaitHead? ==> ch.reader.pc.t <= ch.ring.tail
    requires WakeInv(ch, pv)
    ensures WakeInv(WaitDo(pv.Leaving?, ch, act), pv)
  {
  }

  lemma LifeKeepsWake(cfg: Config, ch: Chan, pv: PubView, act: LifeAct)
    requires Sized(cfg, ch) && LifeCan(ch, act) && WakeInv(ch, pv)
    ensures WakeInv(LifeDo(cfg, ch, act), SubDoView(pv, Life(act)))
  {
  }

  lemma SubKeepsWake(cfg: Config, mem: seq<Cell>, ch: Chan, ch': Chan, pv: PubView, act: SubAct)
    requires Sized(cfg, ch) && SubCan(cfg, ch, act)
    requires ch.ring.tail <= ch.ring.head
    requires ch.reader.pc.WaitHead? ==> ch.reader.pc.t <= ch.ring.tail
    requires WakeInv(ch, pv)
    requires ch' == SubDo(cfg, mem, pv.Leaving?, ch, act)
    ensures WakeInv(ch', SubDoView(pv, act))
  {
    hide PopDo, WaitDo, LifeDo, WakeInv;
    match act
    case Pop(a) => PopKeepsWake(cfg, mem, ch, pv, a);
    case Wait(a) => WaitKeepsWake(ch, pv, a);
    case Life(a) => LifeKeepsWake(cfg, ch, pv, a);
  }

  lemma PushKeepsWake(cfg: Config, ch: Chan, e: Entry, at: DeliverPc, act: PushAct, o: Outcome)
    requires Sized(cfg, ch) && PushCan(at, act) && ch.ring.tail <= ch.ring.head
    requires WakeInv(ch, Delivering(e, at)) && o == PushDo(cfg, ch, e, at, act)
    ensures WakeInv(o.ch, ViewOf(e, o.to))
  {
  }

  lemma HoldKeepsWake(cfg: Config, ch: Chan, e: Entry, at: DeliverPc, act: BlockAct, o: Outcome)
    requires HoldCan(at, act)
    requires WakeInv(ch, Delivering(e, at)) && o == HoldDo(cfg, ch, at, act)
    ensures WakeInv(o.ch, ViewOf(e, o.to))
  {
  }

  lemma PubKeepsWake(cfg: Config, ch: Chan, e: Entry, at: DeliverPc, act: PubAct, o: Outcome)
    requires Sized(cfg, ch) && PubCan(at, act)
    requires ch.ring.tail <= ch.ring.head
    requires WakeInv(ch, Delivering(e, at))
    requires o == PubDo(cfg, ch, e, at, act)
    ensures WakeInv(o.ch, ViewOf(e, o.to))
  {
    hide PushDo, HoldDo, WakeInv;
    match act
    case Push(a) => PushKeepsWake(cfg, ch, e, at, a, o);
    case Hold(a) => HoldKeepsWake(cfg, ch, e, at, a, o);
  }

  // ---------------------------------------------------------------------------
  // Waiting for room
  // ---------------------------------------------------------------------------

  lemma PopKeepsBlock(cfg: Config, mem: seq<Cell>, ch: Chan, pv: PubView, act: PopAct)
    requires Sized(cfg, ch) && PopCan(cfg, ch.reader, act) && BlockInv(cfg, ch, pv)
    ensures BlockInv(cfg, PopDo(cfg, mem, ch, act), SubDoView(pv, Pop(act)))
  {
  }

  lemma WaitKeepsBlock(cfg: Config, gone: bool, ch: Chan, pv: PubView, act: WaitAct)
    requires WaitCan(ch.reader, act) && BlockInv(cfg, ch, pv)
    ensures BlockInv(cfg, WaitDo(gone, ch, act), pv)
  {
  }

  lemma LeaverKeepsBlock(cfg: Config, ch: Chan, pv: PubView, act: LifeAct)
    requires Sized(cfg, ch) && LifeCan(ch, act) && (act.LeaverBump? || act.LeaverWake?) && BlockInv(cfg, ch, pv)
    ensures BlockInv(cfg, LifeDo(cfg, ch, act), SubDoView(pv, Life(act)))
  {
    var ls, k := ch.leavers, act.k;
    if act.LeaverBump? {
      assert ls[k := ToWake(ch.space.word + 1)][k] == ToWake(ch.space.word + 1);
    } else {
      assert ls == ls[..k] + [ls[k]] + ls[k + 1..];
    }
  }

  lemma LifeKeepsBlock(cfg: Config, ch: Chan, pv: PubView, act: LifeAct)
    requires Sized(cfg, ch) && LifeCan(ch, act) && !act.LeaverBump? && !act.LeaverWake? && BlockInv(cfg, ch, pv)
    requires ch.ring.tail <= ch.ring.head
    requires pv.Delivering? ==> ch.state == Active || ch.state == Closing
    requires ch.state == Active ==> !ch.reader.pc.HasPid?
    requires ch.state == Closing ==> ch.reader.pc == NoSub
    ensures BlockInv(cfg, LifeDo(cfg, ch, act), SubDoView(pv, Life(act)))
  {
    if act.Close? && pv.Delivering? && pv.at.BlockAsleep? && WakeDue(ch.leavers, pv.at.w) {
      WakeDueStays(ch.leavers, ToBump(ch.tenant), pv.at.w);
    }
  }

  lemma WakeDueStays(leavers: seq<Leaver>, l: Leaver, w: nat)
    requires WakeDue(leavers, w)
    ensures WakeDue(leavers + [l], w)
  {
    var k :| 0 <= k < |leavers| && leavers[k].ToWake? && w < leavers[k].b;
    assert (leavers + [l])[k] == leavers[k];
  }

  lemma SubKeepsBlock(cfg: Config, mem: seq<Cell>, gone: bool, ch: Chan, ch': Chan, pv: PubView, act: SubAct)
    requires Sized(cfg, ch) && SubCan(cfg, ch, act)
    requires ch.ring.tail <= ch.ring.head
    requires pv.Delivering? ==> ch.state == Active || ch.state == Closing
    requires ch.state == Active ==> !ch.reader.pc.HasPid?
    requires ch.state == Closing ==> ch.reader.pc == NoSub
    requires BlockInv(cfg, ch, pv)
    requires ch' == SubDo(cfg, mem, gone, ch, act)
    ensures BlockInv(cfg, ch', SubDoView(pv, act))
  {
    hide PopDo, WaitDo, LifeDo, BlockInv;
    match act
    case Pop(a) => PopKeepsBlock(cfg, mem, ch, pv, a);
    case Wait(a) => WaitKeepsBlock(cfg, gone, ch, pv, a);
    case Life(a) =>
      if a.LeaverBump? || a.LeaverWake? {
        LeaverKeepsBlock(cfg, ch, pv, a);
      } else {
        LifeKeepsBlock(cfg, ch, pv, a);
      }
  }

  lemma PushKeepsBlock(cfg: Config, ch: Chan, e: Entry, at: DeliverPc, act: PushAct, o: Outcome)
    requires Sized(cfg, ch) && PushCan(at, act)
    requires BlockInv(cfg, ch, Delivering(e, at)) && o == PushDo(cfg, ch, e, at, act)
    ensures BlockInv(cfg, o.ch, ViewOf(e, o.to))
  {
  }

  lemma HoldKeepsBlock(cfg: Config, ch: Chan, e: Entry, at: DeliverPc, act: BlockAct, o: Outcome)
    requires HoldCan(at, act)
    requires BlockInv(cfg, ch, Delivering(e, at)) && o == HoldDo(cfg, ch, at, act)
    ensures BlockInv(cfg, o.ch, ViewOf(e, o.to))
  {
  }

  lemma PubKeepsBlock(cfg: Config, ch: Chan, e: Entry, at: DeliverPc, act: PubAct, o: Outcome)
    requires Sized(cfg, ch) && PubCan(at, act)
    requires BlockInv(cfg, ch, Delivering(e, at))
    requires o == PubDo(cfg, ch, e, at, act)
    ensures BlockInv(cfg, o.ch, ViewOf(e, o.to))
  {
    hide PushDo, HoldDo, BlockInv;
    match act
    case Push(a) => PushKeepsBlock(cfg, ch, e, at, a, o);
    case Hold(a) => HoldKeepsBlock(cfg, ch, e, at, a, o);
  }
}
