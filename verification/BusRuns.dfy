/**
 What holds in every state a devbus service can reach, however its processes interleave,
 whatever time-outs occur and wherever a subscriber crashes.
 */
module BusRuns {
  import L = Ledger
  import opened Channel
  import opened ChannelRing
  import W = ChannelWake
  import opened ChannelCustody
  import opened ChannelCount
  import opened ChannelSafe
  import opened Bus
  import opened BusInv

  /** `w` is the last state of some run. */
  ghost predicate Reachable(cfg: Config, w: World) {
    && GoodConfig(cfg)
    && exists run, steps :: IsRun(cfg, run, steps) && run[|run| - 1] == w
  }

  lemma ReachableInv(cfg: Config, w: World)
    requires Reachable(cfg, w)
    ensures Inv(cfg, w)
  {
    hide GoodConfig, Inv, Init, IsStep;
    var run, steps :| IsRun(cfg, run, steps) && run[|run| - 1] == w;
    RunKeepsInv(cfg, run, steps, |run| - 1);
  }

  lemma ReachableSlot(cfg: Config, w: World, i: nat)
    requires Reachable(cfg, w) && i < cfg.slots
    ensures Inv(cfg, w) && Shaped(cfg, w)
    ensures ChanOk(cfg, w.mem, w.books.out[i], View(w.pc, i), w.chans[i])
    ensures L.Books(w.books, cfg.chunks, cfg.slots, w.loaned, Moving(w.pc))
  {
    hide Reachable, ChanOk, L.Books;
    ReachableInv(cfg, w);
    assert SlotInv(cfg, w, i);
  }

  // ---------------------------------------------------------------------------
  // Chunks
  // ---------------------------------------------------------------------------

  /** The references slot `i` really has on chunk `c`: queued, held, or being returned. */
  ghost function InCustody(ch: Chan, c: nat): nat
    requires Countable(ch)
  {
    Bag(Queue(ch.ring))[c] + Bag(ch.reader.held)[c] + multiset(Undrained(ch.done))[c]
  }

  /** Every chunk is in exactly one place, its reference count is the number of slots that
      have it, and each slot's row is what that slot really has -- up to the single count
      that is raised after the chunk was published. */
  lemma ChunksConserved(cfg: Config, w: World, c: nat, i: nat)
    requires Reachable(cfg, w) && c < cfg.chunks && i < cfg.slots
    ensures Shaped(cfg, w)
    ensures w.books.refs[c] == L.Column(w.books.out, c)
    ensures L.Distinct(w.books.free)
    ensures c in w.books.free <==> w.books.refs[c] == 0 && c !in w.loaned && c !in Moving(w.pc)
    ensures c in w.loaned ==> w.books.refs[c] == 0 && c !in Moving(w.pc)
    ensures Countable(w.chans[i])
    ensures InCustody(w.chans[i], c) == Owed(w.books.out[i], View(w.pc, i), c) <= 1
    ensures !w.onboard[i] ==> w.books.out[i][c] == 0
  {
    hide Reachable, LifeInv, RingInv, W.WakeInv, W.BlockInv, HeldInv, CountInv, PolicyInv, HeaderInv, Bag, PcOk, GoodConfig;
    ReachableSlot(cfg, w, i);
    assert SlotInv(cfg, w, i);
    assert Custody(w.chans[i])[c] == Owed(w.books.out[i], View(w.pc, i), c);
  }

  /** A sample a subscriber can see: queued for it, or held by it. */
  ghost predicate Visible(ch: Chan, e: Entry) {
    || (exists k | ch.ring.tail <= k < |ch.ring.log| :: ch.ring.log[k] == e)
    || e in ch.reader.held
  }

  lemma VisibleIsOwed(cfg: Config, w: World, i: nat, e: Entry)
    requires Reachable(cfg, w) && i < cfg.slots && Shaped(cfg, w) && Visible(w.chans[i], e)
    ensures e.chunk < cfg.chunks && 0 < Owed(w.books.out[i], View(w.pc, i), e.chunk)
    ensures w.mem[e.chunk] == Cell(e.seqno, e.payload)
  {
    hide Reachable, Inv, LifeInv, RingInv, W.WakeInv, W.BlockInv, HeldInv, CountInv, PolicyInv, Bag;
    ReachableSlot(cfg, w, i);
    var ch := w.chans[i];
    if e in ch.reader.held {
      var k :| 0 <= k < |ch.reader.held| && ch.reader.held[k] == e;
      BagHas(ch.reader.held, k);
      assert Intact(w.mem, ch.reader.held[k]);
    } else {
      var k :| ch.ring.tail <= k < |ch.ring.log| && ch.ring.log[k] == e;
      BagHas(Queue(ch.ring), k - ch.ring.tail);
      assert Intact(w.mem, ch.ring.log[k]);
    }
    assert Custody(ch)[e.chunk] == Owed(w.books.out[i], View(w.pc, i), e.chunk);
  }

  /** Zero-copy safety: a sample a subscriber can see is neither free nor loaned, and its
      header and payload are the ones that were sent. */
  lemma VisibleSampleIsAsSent(cfg: Config, w: World, i: nat, e: Entry)
    requires Reachable(cfg, w) && i < cfg.slots && Shaped(cfg, w) && Visible(w.chans[i], e)
    ensures e.chunk < cfg.chunks
    ensures e.chunk !in w.books.free && e.chunk !in w.loaned
    ensures w.mem[e.chunk] == Cell(e.seqno, e.payload)
  {
    hide Reachable, Inv, ChanOk, L.RowsUnit, Visible;
    VisibleIsOwed(cfg, w, i, e);
    ReachableSlot(cfg, w, i);
    if w.books.out[i][e.chunk] > 0 {
      L.ColumnCovers(w.books.out, i, e.chunk);
    } else {
      assert e.chunk in Moving(w.pc);
    }
  }

  lemma OnlyWritesLoaned(cfg: Config, w: World, step: Step, w': World, c: nat)
    requires IsStep(cfg, w, step, w') && c < cfg.chunks && c !in w.loaned
    ensures |w'.mem| == |w.mem| && w'.mem[c] == w.mem[c]
  {
    hide SubDo, PubDo, L.Reclaim, L.ReleaseAll, Recycled, Drained, WokenPc, ActiveList;
  }

  /** Nothing anyone does, from any reachable state, writes to a sample a subscriber can see. */
  lemma VisibleSampleIsLeftAlone(cfg: Config, w: World, step: Step, w': World, i: nat, e: Entry)
    requires Reachable(cfg, w) && IsStep(cfg, w, step, w') && i < cfg.slots && Visible(w.chans[i], e)
    ensures e.chunk < |w.mem| == |w'.mem| && w'.mem[e.chunk] == w.mem[e.chunk]
  {
    hide Reachable, Visible, Can, Do;
    VisibleSampleIsAsSent(cfg, w, i, e);
    OnlyWritesLoaned(cfg, w, step, w', e.chunk);
  }

  /** With at most max_loans chunks on loan, loan() always finds a free one. */
  lemma LoanNeverFails(cfg: Config, w: World)
    requires Reachable(cfg, w)
    ensures w.failures == 0
    ensures w.pc == Draining([]) ==> w.books.free != []
  {
    hide Reachable;
    ReachableInv(cfg, w);
    if w.pc == Draining([]) { LoanNeverRunsOut(cfg, w); }
  }

  /** release() stores into the done ring unchecked, and never over an entry the publisher
      has not read. */
  lemma DoneRingNeverFull(cfg: Config, w: World, i: nat)
    requires Reachable(cfg, w) && i < cfg.slots && Shaped(cfg, w) && w.chans[i].reader.held != []
    ensures w.chans[i].done.head < w.chans[i].done.tail + |w.chans[i].done.buf|
  {
    assert GoodConfig(cfg);
    hide Reachable, Inv, GoodConfig, LifeInv, RingInv, W.WakeInv, W.BlockInv, HeldInv, CountInv, PolicyInv, HeaderInv, Conserved;
    ReachableSlot(cfg, w, i);
    DoneRingHasRoom(cfg, w.chans[i], w.books.out[i], View(w.pc, i));
  }

  // ---------------------------------------------------------------------------
  // The ring race
  // ---------------------------------------------------------------------------

  /** The publisher's eviction and the subscriber's pop may race for the oldest entry, with
      the ring word being reused meanwhile: still every position is taken once, in order,
      by whoever won, with the index that was published there; and the subscriber got
      exactly the samples it won. */
  lemma RingRaceIsWon(cfg: Config, w: World, i: nat)
    requires Reachable(cfg, w) && i < cfg.slots && Shaped(cfg, w)
    ensures
      var ch := w.chans[i];
      && |ch.ring.taken| == ch.ring.tail <= |ch.ring.log| == ch.ring.head <= ch.ring.tail + cfg.cap
      && (forall k | 0 <= k < ch.ring.tail :: ch.ring.taken[k].chunk == ch.ring.log[k].chunk)
      && ch.reader.got == PoppedOf(ch.ring.log, ch.ring.taken)
  {
    hide Reachable, Inv, LifeInv, W.WakeInv, W.BlockInv, HeldInv, CountInv, PolicyInv, HeaderInv, Conserved, PoppedOf;
    ReachableSlot(cfg, w, i);
  }

  // ---------------------------------------------------------------------------
  // Sleeping and waking
  // ---------------------------------------------------------------------------

  /** A subscriber asleep while something is queued for it, or after the publisher has
      bumped its word to leave, is about to be woken; none sleeps on once it has left, and
      between sends none sleeps with anything queued. */
  lemma SubscriberNeverSleepsThroughData(cfg: Config, w: World, i: nat)
    requires Reachable(cfg, w) && i < cfg.slots && Shaped(cfg, w) && w.chans[i].reader.pc.Asleep?
    ensures
      var ch, pv := w.chans[i], View(w.pc, i);
      && (W.Queued(ch.ring) ==> W.DataAlarm(pv) || W.DataWakePending(pv))
      && (pv == Away ==> !W.Queued(ch.ring))
      && (pv.Leaving? ==> !pv.woken)
      && ch.data.flag
  {
    hide Reachable, Inv, LifeInv, RingInv, W.BlockInv, HeldInv, CountInv, PolicyInv, HeaderInv, Conserved;
    ReachableSlot(cfg, w, i);
  }

  /** How many actions deliver() is away from waking the subscriber. */
  ghost function AlarmRank(pv: PubView): nat {
    if !pv.Delivering? then 0
    else if pv.at.Credit? then 3 else if pv.at.BumpData? then 2 else if pv.at.WakeData? then 1 else 0
  }

  /** The alarm is not lost on the way: from any reachable state, each action deliver() takes
      on the slot of such a sleeper brings the wake one action nearer, and the last one ends
      the sleep. */
  lemma AlarmIsCarriedThrough(cfg: Config, w: World, move: PubAct, w': World, i: nat)
    requires Reachable(cfg, w) && i < cfg.slots && Shaped(cfg, w) && w.chans[i].reader.pc.Asleep?
    requires 0 < AlarmRank(View(w.pc, i)) && IsStep(cfg, w, Deliver(move), w')
    ensures |w'.chans| == cfg.slots
    ensures
      var pc := w'.chans[i].reader.pc;
      if AlarmRank(View(w.pc, i)) == 1 then pc == WaitClear
      else pc == w.chans[i].reader.pc && AlarmRank(View(w'.pc, i)) == AlarmRank(View(w.pc, i)) - 1
  {
    SubscriberNeverSleepsThroughData(cfg, w, i);
    hide Reachable, L.ReleaseRef, L.AddRef;
  }

  /** A Block publisher asleep on `w` although there is room, or although the subscriber has
      left, is about to be woken by the one responsible: the subscriber that popped, this
      very tenant on its way out, or whoever bumped the word past `w`. (If that process
      crashed right there, the time slice ends the sleep.) */
  lemma PublisherNeverSleepsThroughRoom(cfg: Config, w: World, i: nat)
    requires Reachable(cfg, w) && i < cfg.slots && Shaped(cfg, w)
    requires View(w.pc, i).Delivering? && View(w.pc, i).at.BlockAsleep?
    ensures
      var ch, word := w.chans[i], View(w.pc, i).at.w;
      && ch.space.flag && word <= ch.space.word
      && (word == ch.space.word && Room(cfg, ch.ring) ==> ch.reader.pc.RecvWon? || ch.reader.pc.RecvBump?)
      && (word == ch.space.word && ch.state != Active ==> ToBump(ch.tenant) in ch.leavers)
      && (word < ch.space.word ==>
            (ch.reader.pc.RecvWake? && word < ch.reader.pc.b) || W.WakeDue(ch.leavers, word))
  {
    hide Reachable, Inv, LifeInv, RingInv, W.WakeInv, HeldInv, CountInv, PolicyInv, HeaderInv, Conserved;
    ReachableSlot(cfg, w, i);
  }

  /** How many actions a subscriber that has popped is away from waking the publisher. */
  ghost function WakeRank(pc: SubPc): nat {
    if pc.RecvWon? then 3 else if pc.RecvBump? then 2 else if pc.RecvWake? then 1 else 0
  }

  /** Nor is the wake for room lost: from any reachable state with the publisher asleep on
      the slot, each receive action of a subscriber that has popped brings the wake one
      action nearer, and the last one ends the sleep. */
  lemma PopperCannotPassBy(cfg: Config, w: World, act: PopAct, w': World, i: nat)
    requires Reachable(cfg, w) && i < cfg.slots && Shaped(cfg, w)
    requires View(w.pc, i).Delivering? && View(w.pc, i).at.BlockAsleep?
    requires 0 < WakeRank(w.chans[i].reader.pc) && IsStep(cfg, w, Sub(i, Pop(act)), w')
    ensures |w'.chans| == cfg.slots
    ensures
      if WakeRank(w.chans[i].reader.pc) == 1 then View(w'.pc, i) == View(w.pc, i).(at := BlockClear)
      else View(w'.pc, i) == View(w.pc, i) && WakeRank(w'.chans[i].reader.pc) == WakeRank(w.chans[i].reader.pc) - 1
  {
    PublisherNeverSleepsThroughRoom(cfg, w, i);
    hide Reachable;
  }

  /** The same for a subscriber that is leaving: its bump makes it one that is about to wake
      for a newer word, and its wake ends the sleep. */
  lemma LeaverCannotPassBy(cfg: Config, w: World, act: LifeAct, w': World, i: nat)
    requires Reachable(cfg, w) && i < cfg.slots && Shaped(cfg, w)
    requires View(w.pc, i).Delivering? && View(w.pc, i).at.BlockAsleep?
    requires (act.LeaverBump? || act.LeaverWake?) && IsStep(cfg, w, Sub(i, Life(act)), w')
    ensures |w'.chans| == cfg.slots
    ensures act.LeaverBump? ==> W.WakeDue(w'.chans[i].leavers, View(w.pc, i).at.w)
    ensures act.LeaverWake? ==> View(w'.pc, i) == View(w.pc, i).(at := BlockClear)
  {
    PublisherNeverSleepsThroughRoom(cfg, w, i);
    hide Reachable;
    if act.LeaverBump? {
      var ls := w'.chans[i].leavers;
      assert ls[act.k] == ToWake(w.chans[i].space.word + 1);
    }
  }

  // ---------------------------------------------------------------------------
  // Evictions
  // ---------------------------------------------------------------------------

  /** An eviction that wins the race always gives a reference back: the victim carries this
      slot's count, so release_ref never ignores it. */
  lemma EvictionReleases(cfg: Config, w: World, w': World)
    requires Reachable(cfg, w) && Shaped(cfg, w) && IsStep(cfg, w, Deliver(Push(DCasTail)), w')
    requires w.chans[w.pc.todo[0]].ring.tail == w.pc.at.t
    ensures
      var s, v := w.pc.todo[0], w.pc.at.v;
      && v < cfg.chunks && w.books.out[s][v] == 1 && 0 < w.books.refs[v]
      && L.Shape(w'.books, cfg.chunks, cfg.slots)
      && w'.books.out[s][v] == 0 && w'.books.refs[v] == w.books.refs[v] - 1
      && (w'.books.refs[v] == 0 ==> v in w'.books.free)
      && (forall t | 0 <= t < cfg.slots && t != s :: w'.books.out[t] == w.books.out[t])
  {
    hide Reachable, Inv, ChanOk, L.Books, L.ReleaseRef, Do;
    var s, v := w.pc.todo[0], w.pc.at.v;
    ReachableSlot(cfg, w, s);
    VictimIsOwed(cfg, w.mem, w.books.out[s], w.chans[s], w.pc.entry, w.pc.at, Push(DCasTail));
    EvictionBooks(cfg, w, w', s, v);
    ReleaseTakesOne(w.books, cfg.chunks, cfg.slots, w.loaned, Moving(w.pc), s, v);
  }

  lemma ReleaseTakesOne(l: L.Ledger, chunks: nat, slots: nat, loaned: set<nat>, moving: set<nat>, s: nat, v: nat)
    requires L.Books(l, chunks, slots, loaned, moving) && s < slots && v < chunks && l.out[s][v] == 1
    ensures 0 < l.refs[v]
    ensures
      var l' := L.ReleaseRef(l, s, v);
      && L.Shape(l', chunks, slots)
      && l'.out[s][v] == 0 && l'.refs[v] == l.refs[v] - 1
      && (l'.refs[v] == 0 ==> v in l'.free)
      && (forall t | 0 <= t < slots && t != s :: l'.out[t] == l.out[t])
  {
    L.ColumnCovers(l.out, s, v);
    L.ColumnBounded(l.out, v);
  }

  lemma EvictionBooks(cfg: Config, w: World, w': World, s: nat, v: nat)
    requires Shaped(cfg, w) && IsStep(cfg, w, Deliver(Push(DCasTail)), w')
    requires s == w.pc.todo[0] && v == w.pc.at.v && w.chans[s].ring.tail == w.pc.at.t
    ensures w'.books == L.ReleaseRef(w.books, s, v)
  {
    hide L.ReleaseRef;
  }

  // ---------------------------------------------------------------------------
  // Counters
  // ---------------------------------------------------------------------------

  /** Between sends, every send since a subscriber was onboarded was received, is queued,
      was evicted, refused or timed out. */
  lemma SendsAccounted(cfg: Config, w: World, i: nat)
    requires Reachable(cfg, w) && i < cfg.slots && Shaped(cfg, w) && w.pc == Idle && w.onboard[i]
    requires w.chans[i].state == Active && !MidPop(w.chans[i].reader.pc)
    ensures
      var ch := w.chans[i];
      && w.nextSeq - ch.first ==
         ch.reader.received + (ch.ring.head - ch.ring.tail)
         + ch.stats.droppedOldest + ch.stats.droppedNewest + ch.stats.blockTimeouts
      && ch.stats.delivered == ch.ring.head
  {
    hide Reachable, GoodConfig, LifeInv, W.WakeInv, W.BlockInv, HeldInv, PolicyInv, HeaderInv, Conserved, RingInv, CountInv,
         L.Books;
    ReachableInv(cfg, w);
    assert SlotInv(cfg, w, i);
    EverySendAccounted(cfg, w.chans[i], Away);
  }

  /** What a full queue loses is decided by its subscriber's policy, in every reachable state:
      DropOldest turns no send away, the others evict nothing; each loss is in the policy's own
      counter; and the publisher evicts only from DropOldest queues and waits only for Block
      ones. */
  lemma LossesFollowPolicy(cfg: Config, w: World, i: nat)
    requires Reachable(cfg, w) && i < cfg.slots && Shaped(cfg, w)
    ensures
      var ch, pv := w.chans[i], View(w.pc, i);
      && (ch.policy == DropOldest ==> ch.refused == {} && ch.stats.droppedNewest == ch.stats.blockTimeouts == 0)
      && (ch.policy != DropOldest ==>
            ch.stats.droppedOldest == 0 && forall k | 0 <= k < |ch.ring.taken| :: ch.ring.taken[k].who == Popped)
      && (ch.policy == DropNewest ==> ch.stats.blockTimeouts == 0 && ch.stats.droppedNewest == |ch.refused|)
      && (ch.policy == Block ==> ch.stats.droppedNewest == 0 && ch.stats.blockTimeouts == |ch.refused|)
      && (pv.Delivering? && Evicting(pv.at) ==> ch.policy == DropOldest)
      && (pv.Delivering? && Holding(pv.at) ==> ch.policy == Block)
  {
    hide Reachable, Inv, LifeInv, RingInv, W.WakeInv, W.BlockInv, HeldInv, HeaderInv, Conserved, OffersSplit, GapsInv;
    ReachableSlot(cfg, w, i);
  }

  /** A subscriber's samples rise strictly, and its gap counter is the number of sends it
      lost between its first and its latest one. */
  lemma GapsCounted(cfg: Config, w: World, i: nat)
    requires Reachable(cfg, w) && i < cfg.slots && Shaped(cfg, w)
    requires w.chans[i].state == Active && !MidPop(w.chans[i].reader.pc) && 0 < w.chans[i].reader.received
    ensures
      var r := w.chans[i].reader;
      && Rising(r.got) && |r.got| == r.received
      && r.lastSeq == r.got[|r.got| - 1].seqno
      && r.gaps == |LostBetween(w.chans[i], r.got[0].seqno, r.lastSeq)|
  {
    hide Reachable, Inv, LifeInv, RingInv, W.WakeInv, W.BlockInv, HeldInv, PolicyInv, HeaderInv, Conserved, Rising, LostBetween;
    ReachableSlot(cfg, w, i);
    GapsAreLosses(cfg, w.chans[i], View(w.pc, i));
  }

  // ---------------------------------------------------------------------------
  // Dead subscribers
  // ---------------------------------------------------------------------------

  /** The step by which the publisher takes back slot `k`. */
  ghost predicate TakesBack(w: World, step: Step, k: nat)
    requires k < |w.chans| == |w.onboard|
  {
    || (step == ReapOne(true) && w.pc == Reaping(k))
    || (step.ScanOne? && w.pc.Scanning? && w.pc.next == k
        && (w.chans[k].state == Closing || (w.chans[k].state == Active && !w.onboard[k] && !step.opens)))
  }

  lemma TakesBackReclaims(cfg: Config, w: World, step: Step, w': World, k: nat)
    requires Shaped(cfg, w) && IsStep(cfg, w, step, w') && k < cfg.slots && TakesBack(w, step, k)
    ensures w'.books == ReclaimSlot(cfg, w, k).books && w'.chans == w.chans[k := Recycled(w.chans[k])]
    ensures w'.onboard == w.onboard[k := false]
    ensures w.pc.Scanning? || w.pc.Reaping?
  {
    hide L.Reclaim, Recycled, SubDo, PubDo, ActiveList;
  }

  /** Taking back a slot, whoever left or died and whatever garbage its done ring holds:
      its row is cleared, no other slot is touched, and exactly the chunks it held last
      become free. */
  lemma TakingBackIsExact(cfg: Config, w: World, step: Step, w': World, k: nat)
    requires Shaped(cfg, w) && k < cfg.slots && TakesBack(w, step, k)
    requires Reachable(cfg, w) && IsStep(cfg, w, step, w')
    ensures |w'.books.out| == |w'.chans| == |w'.onboard| == cfg.slots && |w'.books.out[k]| == cfg.chunks
    ensures RowZero(w'.books.out[k]) && w'.chans[k].state == Free && !w'.onboard[k]
    ensures forall t | 0 <= t < cfg.slots && t != k ::
              w'.books.out[t] == w.books.out[t] && w'.chans[t] == w.chans[t]
    ensures forall c | 0 <= c < cfg.chunks ::
              c in w'.books.free <==> c in w.books.free || (w.books.out[k][c] > 0 && L.LastHolder(w.books, k, c))
  {
    hide Reachable, SlotOk, Do, Can, L.Reclaim, L.RowsUnit, L.CountsAgree, L.Placed, L.LastHolder;
    ReachableInv(cfg, w);
    TakesBackReclaims(cfg, w, step, w', k);
    MovingRowClear(cfg, w, k);
    L.ReclaimIsExact(w.books, cfg.chunks, cfg.slots, w.loaned, Moving(w.pc), k, Undrained(w.chans[k].done));
  }

  /** Its subscriber has left, or died after writing its pid. */
  ghost predicate Gone(w: World, k: nat) {
    && k < |w.chans| == |w.onboard|
    && var ch := w.chans[k];
    ch.state == Closing || (!ch.reader.alive && (ch.state == Active || (ch.state == Claimed && ch.pid)))
  }

  /** During a liveness check: the slot is still to be taken back. */
  ghost predicate StillDue(w: World, k: nat) {
    && Gone(w, k)
    && match w.pc
       case Scanning(n, ForCheck) => n > k ==> SeenDead(w, k)
       case Reaping(n) => n <= k && SeenDead(w, k)
       case _ => false
  }

  lemma GoneTakesNoStep(cfg: Config, mem: seq<Cell>, gone: bool, ch: Chan, act: SubAct)
    requires Sized(cfg, ch) && SubCan(cfg, ch, act) && LifeInv(ch)
    requires ch.state == Closing || (!ch.reader.alive && ch.state != Free)
    ensures
      var ch' := SubDo(cfg, mem, gone, ch, act);
      ch'.state == ch.state && ch'.reader.alive == ch.reader.alive && ch'.pid == ch.pid
  {
  }

  lemma SubKeepsDue(cfg: Config, w: World, i: nat, act: SubAct, w': World, k: nat)
    requires IsStep(cfg, w, Sub(i, act), w') && k < cfg.slots && StillDue(w, k) && LifeInv(w.chans[k])
    ensures StillDue(w', k)
  {
    if i == k { GoneTakesNoStep(cfg, w.mem, w.pc.Exiting?, w.chans[k], act); }
    hide SubDo, SubCan, LifeInv, Sized, L.Shape;
    assert w'.pc == w.pc && w'.onboard == w.onboard;
  }

  lemma PubKeepsDue(cfg: Config, w: World, step: Step, w': World, k: nat)
    requires IsStep(cfg, w, step, w') && !step.Sub? && k < cfg.slots && StillDue(w, k)
    requires w.chans[k].state == Active ==> w.chans[k].pid
    ensures TakesBack(w, step, k) || StillDue(w', k)
  {
    hide L.Reclaim, L.ReleaseAll, Recycled, PubDo, ActiveList, SubDo, Undrained, SubCan, L.Shape;
  }

  /** One step of a liveness check on a slot that is due: it stays due or is taken back. */
  lemma CheckStep(cfg: Config, w: World, step: Step, w': World, k: nat)
    requires IsStep(cfg, w, step, w') && k < cfg.slots && StillDue(w, k) && LifeInv(w.chans[k])
    ensures TakesBack(w, step, k) || StillDue(w', k)
  {
    PidWritten(w.chans[k]);
    hide IsStep, StillDue, TakesBack, LifeInv;
    if step.Sub? { SubKeepsDue(cfg, w, step.i, step.act, w', k); } else { PubKeepsDue(cfg, w, step, w', k); }
  }

  lemma PidWritten(ch: Chan)
    requires LifeInv(ch)
    ensures ch.state == Active ==> ch.pid
  {
  }

  /** A liveness check, made on its own or after a send, takes back every slot whose subscriber
      had left or died when it began, whatever the other processes do meanwhile. */
  lemma {:induction false} DeadAreReaped(cfg: Config, run: seq<World>, steps: seq<Step>, a: nat, b: nat, k: nat) returns (j: nat)
    requires GoodConfig(cfg) && IsRun(cfg, run, steps) && 0 < a <= b < |run| && k < cfg.slots
    requires steps[a - 1] == CheckBegin || steps[a - 1] == SendEnd(true)
    requires run[b].pc == Idle && forall i | a <= i < b :: run[i].pc != Idle
    requires Gone(run[a], k)
    ensures a <= j < b && Shaped(cfg, run[j]) && TakesBack(run[j], steps[j], k)
  {
    hide GoodConfig, Init, Inv, IsStep, Gone, TakesBack, StillDue;
    assert IsStep(cfg, run[a - 1], steps[a - 1], run[a - 1 + 1]);
    CheckBegins(cfg, run[a - 1], steps[a - 1], run[a], k);
    j := a;
    while j < b
      invariant a <= j <= b && StillDue(run[j], k)
    {
      assert IsStep(cfg, run[j], steps[j], run[j + 1]);
      RunKeepsInv(cfg, run, steps, j);
      SlotLife(cfg, run[j], k);
      InvShaped(cfg, run[j]);
      if TakesBack(run[j], steps[j], k) { return; }
      CheckStep(cfg, run[j], steps[j], run[j + 1], k);
      j := j + 1;
    }
    NotIdle(run[b], k);
    assert false;
  }

  lemma CheckBegins(cfg: Config, w: World, step: Step, w': World, k: nat)
    requires IsStep(cfg, w, step, w') && (step == CheckBegin || step == SendEnd(true)) && Gone(w', k)
    ensures StillDue(w', k)
  {
    hide L.Reclaim, Recycled, PubDo, ActiveList, SubDo;
  }

  lemma NotIdle(w: World, k: nat)
    requires StillDue(w, k)
    ensures w.pc != Idle
  {
  }

  // ---------------------------------------------------------------------------
  // What comes from where
  // ---------------------------------------------------------------------------

  /** A slot's policy is the one its subscriber chose: nothing but its activation sets it. */
  lemma PolicyIsChosen(cfg: Config, w: World, step: Step, w': World, i: nat)
    requires IsStep(cfg, w, step, w') && i < cfg.slots
    ensures |w'.chans| == cfg.slots
    ensures w'.chans[i].policy ==
            if step.Sub? && step.i == i && step.act.Life? && step.act.life.Activate? then step.act.life.policy
            else w.chans[i].policy
  {
    hide L.Reclaim, L.ReleaseAll, L.ReleaseRef, L.AddRef, ActiveList, Undrained, SubDo, PubDo;
    if step.Sub? { SubPolicy(cfg, w.mem, w.pc.Exiting?, w.chans[step.i], step.act); }
    if step.Deliver? {
      var ch, e, at := w.chans[w.pc.todo[0]], w.pc.entry, w.pc.at;
      PubLeavesReader(cfg, ch, e, at, step.move, PubDo(cfg, ch, e, at, step.move));
    }
  }

  lemma SubPolicy(cfg: Config, mem: seq<Cell>, gone: bool, ch: Chan, act: SubAct)
    requires Sized(cfg, ch) && SubCan(cfg, ch, act)
    ensures SubDo(cfg, mem, gone, ch, act).policy == if act.Life? && act.life.Activate? then act.life.policy else ch.policy
  {
  }

  /** Chunks are lent by a loan, one that was free each time, and returned by a cancel or a
      send; nothing else lends or returns any. */
  lemma LoansMove(cfg: Config, w: World, step: Step, w': World)
    requires Reachable(cfg, w) && IsStep(cfg, w, step, w')
    ensures
      match step
      case LoanTake => w.books.free != [] && w'.loaned == w.loaned + {w.books.free[|w.books.free| - 1]}
      case Cancel(c) => c in w.loaned && w'.loaned == w.loaned - {c} && c in w'.books.free
      case SendBegin(c) => c in w.loaned && w'.loaned == w.loaned - {c}
      case _ => w'.loaned == w.loaned
  {
    hide Reachable, L.Reclaim, L.ReleaseAll, L.ReleaseRef, L.AddRef, ActiveList, Undrained, SubDo, PubDo;
    if step.Cancel? { assert w'.books.free[|w.books.free|] == step.c; }
    if step == ScanEnd && w.pc.goal.ForLoan? { NoRescueIsReached(cfg, w); }
  }

  /** The rescue scan of a loan is never begun. */
  lemma NoRescueIsReached(cfg: Config, w: World)
    requires Reachable(cfg, w)
    ensures !(w.pc.Scanning? && w.pc.goal.ForLoan?)
  {
    hide Reachable, SlotOk, L.Books;
    ReachableInv(cfg, w);
  }

  /** The flags that spare the other side a system call are up exactly while their owner may be
      asleep: `sleeping` while the subscriber waits, `publisher_waiting` while a Block delivery
      does. */
  lemma FlagsAreExact(cfg: Config, w: World, i: nat)
    requires Reachable(cfg, w) && i < cfg.slots && Shaped(cfg, w)
    ensures
      var ch, pv := w.chans[i], View(w.pc, i);
      && (ch.data.flag <==> W.Announced(ch.reader.pc))
      && (ch.space.flag <==> pv.Delivering? && (pv.at.BlockTail? || W.WindowPc(pv.at) || pv.at.BlockClear?))
  {
    hide Reachable, Inv, LifeInv, RingInv, HeldInv, CountInv, PolicyInv, HeaderInv, Conserved;
    ReachableSlot(cfg, w, i);
  }

  /** A chunk's payload is what was last filled in, its number the send's, and a send takes
      both along. */
  lemma PayloadIsFilled(cfg: Config, w: World, step: Step, w': World, c: nat)
    requires IsStep(cfg, w, step, w') && c < cfg.chunks
    ensures |w'.mem| == cfg.chunks
    ensures w'.mem[c].payload == if step.Fill? && step.c == c then step.payload else w.mem[c].payload
    ensures w'.mem[c].seqno == if step == SendBegin(c) then w.nextSeq else w.mem[c].seqno
    ensures step == SendBegin(c) ==>
              w'.nextSeq == w.nextSeq + 1 && w'.pc == Scanning(0, ForSend(Entry(c, w.nextSeq, w.mem[c].payload)))
  {
    hide L.Reclaim, L.ReleaseAll, L.ReleaseRef, L.AddRef, ActiveList, Undrained, SubDo, PubDo;
  }

  lemma InvShaped(cfg: Config, w: World)
    requires Inv(cfg, w)
    ensures Shaped(cfg, w)
  {
    hide SlotOk, L.Books, GoodConfig;
  }

  lemma SlotLife(cfg: Config, w: World, k: nat)
    requires Inv(cfg, w) && k < cfg.slots
    ensures |w.chans| == cfg.slots && LifeInv(w.chans[k])
  {
    hide L.Books, GoodConfig, LifeInv;
    assert SlotInv(cfg, w, k);
  }
}
