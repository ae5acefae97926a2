/**
 What every interleaving keeps true of one channel's data ring: the race between a
 subscriber's pop and a DropOldest eviction, ring slots being reused meanwhile.
 */
module ChannelRing {
  import opened Channel

  /** Which subscriber positions go with which slot state; an unclaimed or freshly
      claimed slot is blank. */
  ghost predicate LifeInv(ch: Chan) {
    var pc := ch.reader.pc;
    && (ch.state == Free ==> pc == NoSub)
    && (ch.state == Claimed <==> pc.JustClaimed? || pc.HasPid?)
    && (ch.state == Active <==> !(pc.NoSub? || pc.JustClaimed? || pc.HasPid?))
    && (ch.state == Free || ch.state == Claimed ==> Blank(ch))
    && (pc.HasPid? || ch.state == Active ==> ch.pid)
  }

  ghost predicate Blank(ch: Chan) {
    && ch.ring.head == ch.ring.tail == 0
    && ch.done.head == ch.done.tail
    && ch.stats == Stats(0, 0, 0, 0)
    && ch.refused == {}
    && ch.reader == NoReader.(pc := ch.reader.pc, alive := ch.reader.alive)
  }

  ghost predicate RingShape(cap: nat, r: Ring) {
    && 1 <= cap == |r.buf|
    && |r.log| == r.head
    && |r.taken| == r.tail
    && r.tail <= r.head <= r.tail + cap
    && (forall k | r.tail <= k < r.head :: Holds(cap, r, k))
    && (forall k | 0 <= k < r.tail :: r.taken[k].chunk == r.log[k].chunk)
  }

  /** The ring word for position `k` is the index published there. */
  ghost predicate Holds(cap: nat, r: Ring, k: nat)
    requires 1 <= cap == |r.buf| && k < |r.log|
  {
    r.buf[k % cap] == r.log[k].chunk
  }

  /** What a subscriber's loaded values still mean, however stale they are. */
  ghost predicate ReaderSees(r: Ring, pc: SubPc) {
    match pc
    case RecvHead(t) => t <= r.tail
    case RecvEntry(t) => t <= r.tail && t < r.head
    case RecvCas(t, c) => t <= r.tail && t < r.head && (t == r.tail ==> c == At(r.log, t).chunk)
    case WaitHead(_, t) => t <= r.tail
    case _ => true
  }

  ghost predicate PublisherSees(cap: nat, r: Ring, pv: PubView)
    requires 1 <= cap == |r.buf|
  {
    pv.Delivering? ==>
      match pv.at
      case EvictEntry(t) => t <= r.tail && t < r.head
      case EvictCas(t, v) => t <= r.tail && t < r.head && (t == r.tail ==> v == At(r.log, t).chunk)
      case StoreEntry => r.head < r.tail + cap
      case StoreHead => r.head < r.tail + cap && r.buf[r.head % cap] == pv.entry.chunk
      case Credit => 0 < r.head && At(r.log, r.head - 1) == pv.entry
      case _ => true
  }

  /** The samples a subscriber popped, in order, read off the ring's history. */
  ghost function PoppedOf(log: seq<Entry>, taken: seq<Take>): seq<Entry> {
    if taken == [] then []
    else
      var n := |taken| - 1;
      PoppedOf(log, taken[..n]) + (if taken[n].who == Popped then [At(log, n)] else [])
  }

  ghost predicate RingInv(cfg: Config, ch: Chan, pv: PubView) {
    && RingShape(cfg.cap, ch.ring)
    && ReaderSees(ch.ring, ch.reader.pc)
    && PublisherSees(cfg.cap, ch.ring, pv)
    && ch.reader.got == PoppedOf(ch.ring.log, ch.ring.taken)
  }

  // ---------------------------------------------------------------------------
  // Actions that only move the subscriber along
  // ---------------------------------------------------------------------------

  /** Popped, but not yet counted as borrowed. */
  ghost predicate MidPop(pc: SubPc) { pc.RecvWon? || pc.RecvBump? || pc.RecvWake? || pc.RecvTake? }
  ghost predicate PrePop(pc: SubPc) { pc.RecvHead? || pc.RecvEntry? || pc.RecvCas? }

  /** The three actions that move a chunk or count a sample. */
  ghost predicate Special(act: SubAct) {
    act == Pop(CasTail) || act == Pop(TakeSample) || (act.Life? && act.life.Release?)
  }

  /** The others leave the ring, the done ring, the counters and the held samples alone. */
  ghost predicate OnlyMoves(cfg: Config, ch: Chan, ch': Chan) {
    var r, r' := ch.reader, ch'.reader;
    && ch'.ring == ch.ring && ch'.done == ch.done
    && ch'.stats == ch.stats && ch'.first == ch.first && ch'.refused == ch.refused
    && r' == r.(pc := r'.pc, alive := r'.alive)
    && (MidPop(r'.pc) ==> MidPop(r.pc) && r'.pc.c == r.pc.c)
    && (MidPop(r.pc) ==> MidPop(r'.pc))
    && (PrePop(r'.pc) ==> r.borrowed < cfg.maxBorrowed || PrePop(r.pc))
    && (ch'.state == Active && ch.state != Active ==> Blank(ch) && !MidPop(r'.pc))
  }

  lemma PopOnlyMoves(cfg: Config, mem: seq<Cell>, ch: Chan, act: PopAct)
    requires Sized(cfg, ch) && PopCan(cfg, ch.reader, act) && !act.CasTail? && !act.TakeSample?
    ensures OnlyMoves(cfg, ch, PopDo(cfg, mem, ch, act))
  {
  }

  lemma WaitOnlyMoves(cfg: Config, gone: bool, ch: Chan, act: WaitAct)
    requires WaitCan(ch.reader, act)
    ensures OnlyMoves(cfg, ch, WaitDo(gone, ch, act))
  {
  }

  lemma LifeOnlyMoves(cfg: Config, ch: Chan, act: LifeAct)
    requires Sized(cfg, ch) && LifeCan(ch, act) && LifeInv(ch) && !act.Release?
    ensures OnlyMoves(cfg, ch, LifeDo(cfg, ch, act))
  {
  }

  lemma SubOnlyMoves(cfg: Config, mem: seq<Cell>, gone: bool, ch: Chan, ch': Chan, act: SubAct)
    requires Sized(cfg, ch) && SubCan(cfg, ch, act) && LifeInv(ch) && !Special(act)
    requires ch' == SubDo(cfg, mem, gone, ch, act)
    ensures OnlyMoves(cfg, ch, ch')
  {
    hide PopDo, WaitDo, LifeDo, LifeInv, OnlyMoves;
    match act
    case Pop(a) => PopOnlyMoves(cfg, mem, ch, a);
    case Wait(a) => WaitOnlyMoves(cfg, gone, ch, a);
    case Life(a) => LifeOnlyMoves(cfg, ch, a);
  }

  // ---------------------------------------------------------------------------
  // The ring
  // ---------------------------------------------------------------------------

  /** Ring positions closer than the capacity never share a word. */
  lemma NoSharedWord(i: nat, j: nat, cap: nat)
    requires i < j < i + cap
    ensures i % cap != j % cap
  {
    var a, b := i / cap, j / cap;
    assert i == cap * a + i % cap && j == cap * b + j % cap;
    if i % cap == j % cap {
      MultipleIsFar(cap, b - a);
      assert cap * b - cap * a == cap * (b - a) by { Distribute(cap, b, a); }
      assert false;
    }
  }

  lemma Distribute(m: int, x: int, y: int)
    ensures m * x - m * y == m * (x - y)
  {
  }

  lemma MultipleIsFar(m: nat, d: int)
    requires 0 < m
    ensures m * d <= 0 || m * d >= m
  {
    if d >= 1 { assert m * d == m + m * (d - 1); }
  }

  lemma {:induction false} PoppedOfLonger(log: seq<Entry>, more: seq<Entry>, taken: seq<Take>)
    requires |taken| <= |log|
    ensures PoppedOf(log + more, taken) == PoppedOf(log, taken)
    decreases |taken|
  {
    if taken != [] { PoppedOfLonger(log, more, taken[..|taken| - 1]); }
  }

  /** Taking the position at the tail, whoever does it, appends the index written there. */
  lemma TakeKeepsRing(cap: nat, r: Ring, who: Taker, c: nat)
    requires RingShape(cap, r) && r.tail < r.head && c == r.log[r.tail].chunk
    ensures RingShape(cap, r.(tail := r.tail + 1, taken := r.taken + [Take(who, c)]))
    ensures PoppedOf(r.log, r.taken + [Take(who, c)]) ==
            PoppedOf(r.log, r.taken) + (if who == Popped then [r.log[r.tail]] else [])
  {
    var r' := r.(tail := r.tail + 1, taken := r.taken + [Take(who, c)]);
    assert r'.taken[..r.tail] == r.taken;
    assert forall k | r'.tail <= k < r'.head :: Holds(cap, r, k) && Holds(cap, r', k);
  }

  lemma TailHolds(cap: nat, r: Ring)
    requires RingShape(cap, r) && r.tail < r.head
    ensures r.buf[r.tail % cap] == At(r.log, r.tail).chunk
  {
    assert Holds(cap, r, r.tail);
  }

  /** What a subscriber has loaded, apart from the CAS, it has loaded from this ring. */
  lemma PopSees(cfg: Config, mem: seq<Cell>, ch: Chan, act: PopAct)
    requires Sized(cfg, ch) && PopCan(cfg, ch.reader, act) && !act.CasTail?
    requires ch.ring.tail <= ch.ring.head && ReaderSees(ch.ring, ch.reader.pc)
    requires ch.ring.tail < ch.ring.head ==> ch.ring.buf[ch.ring.tail % cfg.cap] == At(ch.ring.log, ch.ring.tail).chunk
    ensures ReaderSees(ch.ring, PopDo(cfg, mem, ch, act).reader.pc)
  {
  }

  lemma WaitSees(gone: bool, ch: Chan, act: WaitAct)
    requires WaitCan(ch.reader, act) && ch.ring.tail <= ch.ring.head
    ensures ReaderSees(ch.ring, WaitDo(gone, ch, act).reader.pc)
  {
  }

  lemma LifeSees(cfg: Config, ch: Chan, act: LifeAct)
    requires Sized(cfg, ch) && LifeCan(ch, act) && ReaderSees(ch.ring, ch.reader.pc)
    ensures ReaderSees(ch.ring, LifeDo(cfg, ch, act).reader.pc)
  {
  }

  lemma SubSees(cfg: Config, mem: seq<Cell>, gone: bool, ch: Chan, ch': Chan, act: SubAct)
    requires Sized(cfg, ch) && SubCan(cfg, ch, act) && act != Pop(CasTail)
    requires RingShape(cfg.cap, ch.ring) && ReaderSees(ch.ring, ch.reader.pc)
    requires ch' == SubDo(cfg, mem, gone, ch, act)
    ensures ReaderSees(ch.ring, ch'.reader.pc)
  {
    hide PopDo, WaitDo, LifeDo, ReaderSees;
    if ch.ring.tail < ch.ring.head { TailHolds(cfg.cap, ch.ring); }
    match act
    case Pop(a) => PopSees(cfg, mem, ch, a);
    case Wait(a) => WaitSees(gone, ch, a);
    case Life(a) => LifeSees(cfg, ch, a);
  }

  lemma PopKeepsRing(cfg: Config, ch: Chan, pv: PubView, t: nat, c: nat)
    requires RingInv(cfg, ch, pv) && ch.reader.pc == RecvCas(t, c)
    ensures RingInv(cfg, PopCas(ch, t, c), pv)
  {
    if ch.ring.tail == t { TakeKeepsRing(cfg.cap, ch.ring, Popped, c); }
  }

  lemma SameRing(cfg: Config, ch: Chan, ch': Chan, pv: PubView, act: SubAct)
    requires RingInv(cfg, ch, pv) && ch'.ring == ch.ring && ch'.reader.got == ch.reader.got
    requires ReaderSees(ch.ring, ch'.reader.pc)
    ensures RingInv(cfg, ch', SubDoView(pv, act))
  {
    hide RingShape, ReaderSees, PoppedOf;
  }

  /** The special actions, spelled out. */
  lemma SpecialActs(cfg: Config, mem: seq<Cell>, gone: bool, ch: Chan, ch': Chan, act: SubAct)
    requires Sized(cfg, ch) && SubCan(cfg, ch, act) && Special(act)
    requires ch' == SubDo(cfg, mem, gone, ch, act)
    ensures act == Pop(CasTail) ==> ch.reader.pc.RecvCas? && ch' == PopCas(ch, ch.reader.pc.t, ch.reader.pc.c)
    ensures act == Pop(TakeSample) ==>
              ch.reader.pc.RecvTake? && ch' == ch.(reader := TakeHeader(cfg, ch.reader, mem, ch.reader.pc.c))
    ensures act.Life? ==>
              && act.life.k < |ch.reader.held| && 0 < ch.reader.borrowed && ch.reader.pc == Ready
              && ch' == ch.(done := PushDone(ch.done, ch.reader.held[act.life.k].chunk), reader := ch'.reader)
              && ch'.reader == ch.reader.(held := Without(ch.reader.held, act.life.k), borrowed := ch.reader.borrowed - 1)
  {
  }

  lemma SubKeepsRing(cfg: Config, mem: seq<Cell>, gone: bool, ch: Chan, ch': Chan, pv: PubView, act: SubAct)
    requires Sized(cfg, ch) && SubCan(cfg, ch, act) && LifeInv(ch)
    requires RingInv(cfg, ch, pv)
    requires ch' == SubDo(cfg, mem, gone, ch, act)
    ensures RingInv(cfg, ch', SubDoView(pv, act))
  {
    hide SubDo, RingShape, ReaderSees, PublisherSees, PoppedOf, LifeInv, PopCas;
    if Special(act) { SpecialActs(cfg, mem, gone, ch, ch', act); } else { SubOnlyMoves(cfg, mem, gone, ch, ch', act); }
    if act == Pop(CasTail) {
      PopKeepsRing(cfg, ch, pv, ch.reader.pc.t, ch.reader.pc.c);
    } else {
      SubSees(cfg, mem, gone, ch, ch', act);
      SameRing(cfg, ch, ch', pv, act);
    }
  }

  lemma SubKeepsLife(cfg: Config, mem: seq<Cell>, gone: bool, ch: Chan, ch': Chan, act: SubAct)
    requires Sized(cfg, ch) && SubCan(cfg, ch, act) && LifeInv(ch)
    requires ch' == SubDo(cfg, mem, gone, ch, act)
    ensures LifeInv(ch') && Sized(cfg, ch')
  {
    match act
    case Pop(a) => PopKeepsLife(cfg, mem, ch, a);
    case Wait(a) => WaitKeepsLife(cfg, gone, ch, a);
    case Life(a) => LifeKeepsLife(cfg, ch, a);
  }

  lemma PopKeepsLife(cfg: Config, mem: seq<Cell>, ch: Chan, act: PopAct)
    requires Sized(cfg, ch) && PopCan(cfg, ch.reader, act) && LifeInv(ch)
    ensures LifeInv(PopDo(cfg, mem, ch, act)) && Sized(cfg, PopDo(cfg, mem, ch, act))
  {
  }

  lemma WaitKeepsLife(cfg: Config, gone: bool, ch: Chan, act: WaitAct)
    requires Sized(cfg, ch) && WaitCan(ch.reader, act) && LifeInv(ch)
    ensures LifeInv(WaitDo(gone, ch, act)) && Sized(cfg, WaitDo(gone, ch, act))
  {
  }

  lemma LifeKeepsLife(cfg: Config, ch: Chan, act: LifeAct)
    requires Sized(cfg, ch) && LifeCan(ch, act) && LifeInv(ch)
    ensures LifeInv(LifeDo(cfg, ch, act)) && Sized(cfg, LifeDo(cfg, ch, act))
  {
  }

  // ---------------------------------------------------------------------------
  // The publisher
  // ---------------------------------------------------------------------------

  /** Writing the word for the next position disturbs no queued entry. */
  lemma StoreKeepsRing(cap: nat, r: Ring, c: nat)
    requires RingShape(cap, r) && r.head < r.tail + cap
    ensures RingShape(cap, r.(buf := r.buf[r.head % cap := c]))
  {
    var r' := r.(buf := r.buf[r.head % cap := c]);
    forall k | r'.tail <= k < r'.head
      ensures Holds(cap, r', k)
    {
      assert Holds(cap, r, k);
      NoSharedWord(k, r.head, cap);
    }
  }

  lemma PublishKeepsRing(cap: nat, r: Ring, e: Entry)
    requires RingShape(cap, r) && r.head < r.tail + cap && r.buf[r.head % cap] == e.chunk
    ensures RingShape(cap, r.(head := r.head + 1, log := r.log + [e]))
  {
    var r' := r.(head := r.head + 1, log := r.log + [e]);
    forall k | r'.tail <= k < r'.head
      ensures Holds(cap, r', k)
    {
      if k < r.head { assert Holds(cap, r, k); }
    }
  }

  lemma EvictKeepsRing(cfg: Config, ch: Chan, e: Entry, t: nat, v: nat)
    requires RingInv(cfg, ch, Delivering(e, EvictCas(t, v)))
    ensures RingInv(cfg, EvictOldest(ch, t, v).ch, Delivering(e, LoadTail))
  {
    if ch.ring.tail == t { TakeKeepsRing(cfg.cap, ch.ring, Evicted, v); }
  }

  lemma StoreEntryKeepsRing(cfg: Config, ch: Chan, ch': Chan, e: Entry)
    requires Sized(cfg, ch) && RingInv(cfg, ch, Delivering(e, StoreEntry))
    requires ch' == ch.(ring := ch.ring.(buf := ch.ring.buf[ch.ring.head % cfg.cap := e.chunk]))
    ensures RingInv(cfg, ch', Delivering(e, StoreHead))
  {
    hide PoppedOf;
    StoreKeepsRing(cfg.cap, ch.ring, e.chunk);
  }

  lemma StoreHeadKeepsRing(cfg: Config, ch: Chan, ch': Chan, e: Entry)
    requires RingInv(cfg, ch, Delivering(e, StoreHead))
    requires ch' == ch.(ring := ch.ring.(head := ch.ring.head + 1, log := ch.ring.log + [e]))
    ensures RingInv(cfg, ch', Delivering(e, Credit))
  {
    PublishKeepsRing(cfg.cap, ch.ring, e);
    PoppedOfLonger(ch.ring.log, [e], ch.ring.taken);
  }

  /** The remaining steps of deliver() leave the ring alone. */
  lemma PushLooks(cfg: Config, ch: Chan, e: Entry, at: DeliverPc, act: PushAct, o: Outcome)
    requires Sized(cfg, ch) && PushCan(at, act) && !act.DCasTail? && !act.DStoreEntry? && !act.DStoreHead?
    requires RingInv(cfg, ch, Delivering(e, at)) && o == PushDo(cfg, ch, e, at, act)
    ensures RingInv(cfg, o.ch, ViewOf(e, o.to))
  {
    var r := ch.ring;
    if r.tail < r.head { TailHolds(cfg.cap, r); }
    hide RingShape, PoppedOf;
  }

  lemma PushKeepsRing(cfg: Config, ch: Chan, e: Entry, at: DeliverPc, act: PushAct, o: Outcome)
    requires Sized(cfg, ch) && PushCan(at, act)
    requires RingInv(cfg, ch, Delivering(e, at))
    requires o == PushDo(cfg, ch, e, at, act)
    ensures RingInv(cfg, o.ch, ViewOf(e, o.to))
  {
    hide RingInv;
    match act
    case DCasTail => EvictKeepsRing(cfg, ch, e, at.t, at.v);
    case DStoreEntry => StoreEntryKeepsRing(cfg, ch, o.ch, e);
    case DStoreHead => StoreHeadKeepsRing(cfg, ch, o.ch, e);
    case _ => PushLooks(cfg, ch, e, at, act, o);
  }

  lemma HoldKeepsRing(cfg: Config, ch: Chan, e: Entry, at: DeliverPc, act: BlockAct, o: Outcome)
    requires HoldCan(at, act) && RingInv(cfg, ch, Delivering(e, at))
    requires o == HoldDo(cfg, ch, at, act)
    ensures RingInv(cfg, o.ch, ViewOf(e, o.to))
  {
    hide RingShape, ReaderSees, PoppedOf;
  }

  lemma PubKeepsRing(cfg: Config, ch: Chan, e: Entry, at: DeliverPc, act: PubAct, o: Outcome)
    requires Sized(cfg, ch) && PubCan(at, act)
    requires RingInv(cfg, ch, Delivering(e, at))
    requires o == PubDo(cfg, ch, e, at, act)
    ensures RingInv(cfg, o.ch, ViewOf(e, o.to))
  {
    hide PushDo, HoldDo, RingInv;
    match act
    case Push(a) => PushKeepsRing(cfg, ch, e, at, a, o);
    case Hold(a) => HoldKeepsRing(cfg, ch, e, at, a, o);
  }

  /** Of the subscriber's own state, deliver() can only end its sleep. */
  ghost predicate LeavesReader(ch: Chan, ch': Chan) {
    && ch' == ch.(ring := ch'.ring, data := ch'.data, space := ch'.space, stats := ch'.stats, refused := ch'.refused,
                  reader := ch.reader.(pc := ch'.reader.pc))
    && |ch'.ring.buf| == |ch.ring.buf|
    && (ch'.reader.pc == ch.reader.pc || (ch.reader.pc.Asleep? && ch'.reader.pc == WaitClear))
  }

  lemma PushLeavesReader(cfg: Config, ch: Chan, e: Entry, at: DeliverPc, act: PushAct, o: Outcome)
    requires Sized(cfg, ch) && PushCan(at, act) && o == PushDo(cfg, ch, e, at, act)
    ensures LeavesReader(ch, o.ch)
  {
  }

  lemma HoldLeavesReader(cfg: Config, ch: Chan, at: DeliverPc, act: BlockAct, o: Outcome)
    requires HoldCan(at, act) && o == HoldDo(cfg, ch, at, act)
    ensures LeavesReader(ch, o.ch)
  {
  }

  lemma PubLeavesReader(cfg: Config, ch: Chan, e: Entry, at: DeliverPc, act: PubAct, o: Outcome)
    requires Sized(cfg, ch) && PubCan(at, act)
    requires o == PubDo(cfg, ch, e, at, act)
    ensures LeavesReader(ch, o.ch)
  {
    hide PushDo, HoldDo, LeavesReader;
    match act
    case Push(a) => PushLeavesReader(cfg, ch, e, at, a, o);
    case Hold(a) => HoldLeavesReader(cfg, ch, at, a, o);
  }

  lemma PubKeepsLife(cfg: Config, ch: Chan, ch': Chan)
    requires Sized(cfg, ch) && LifeInv(ch) && (ch.state == Active || ch.state == Closing)
    requires LeavesReader(ch, ch')
    ensures LifeInv(ch') && Sized(cfg, ch')
  {
  }
}
