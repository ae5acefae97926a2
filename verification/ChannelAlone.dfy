/**
 What a whole call of deliver() or try_receive() does when nobody else touches the slot
 meanwhile: it is one operation of a bounded queue with the subscriber's policy.
 */
module ChannelAlone {
  import opened Channel
  import opened ChannelRing
  import opened ChannelCustody
  import opened ChannelCount

  // ---------------------------------------------------------------------------
  // The bounded queue
  // ---------------------------------------------------------------------------

  /** A send to a queue of at most `cap`: what is queued afterwards. */
  ghost function Offered(q: seq<Entry>, cap: nat, policy: Policy, e: Entry): seq<Entry> {
    if |q| < cap then q + [e]
    else if policy == DropOldest && q != [] then q[1..] + [e]
    else q
  }

  /** And what is counted. */
  ghost function Counted(s: Stats, q: seq<Entry>, cap: nat, policy: Policy): Stats {
    if |q| < cap then s.(delivered := s.delivered + 1)
    else
      match policy
      case DropOldest => s.(delivered := s.delivered + 1, droppedOldest := s.droppedOldest + 1)
      case DropNewest => s.(droppedNewest := s.droppedNewest + 1)
      case Block => s.(blockTimeouts := s.blockTimeouts + 1)
  }

  // ---------------------------------------------------------------------------
  // deliver()
  // ---------------------------------------------------------------------------

  /** Where deliver() can be on its own: nothing it has loaded is stale. */
  ghost predicate Alone(cfg: Config, ch: Chan, e: Entry, at: DeliverPc) {
    && Sized(cfg, ch) && RingInv(cfg, ch, Delivering(e, at))
    && (Evicting(at) ==> at.t == ch.ring.tail && !Room(cfg, ch.ring) && ch.policy == DropOldest)
  }

  /** The queue and the counters this call will leave behind. */
  ghost function QueueDue(cfg: Config, ch: Chan, e: Entry, at: DeliverPc): seq<Entry>
    requires ch.ring.tail <= ch.ring.head == |ch.ring.log|
  {
    var q := Queue(ch.ring);
    if at.StoreEntry? || at.StoreHead? then q + [e]
    else if at.Credit? || at.BumpData? || at.WakeData? then q
    else Offered(q, cfg.cap, ch.policy, e)
  }

  ghost function StatsDue(cfg: Config, ch: Chan, at: DeliverPc): Stats
    requires ch.ring.tail <= ch.ring.head == |ch.ring.log|
  {
    var s := ch.stats;
    if at.StoreEntry? || at.StoreHead? || at.Credit? then s.(delivered := s.delivered + 1)
    else if at.BumpData? || at.WakeData? then s
    else Counted(s, Queue(ch.ring), cfg.cap, ch.policy)
  }

  /** Every action keeps what is due, and the last one has done it. */
  ghost predicate Due(cfg: Config, ch: Chan, e: Entry, at: DeliverPc, o: Outcome)
    requires ch.ring.tail <= ch.ring.head == |ch.ring.log| && o.ch.ring.tail <= o.ch.ring.head == |o.ch.ring.log|
  {
    if o.to.Next? then
      QueueDue(cfg, o.ch, e, o.to.at) == QueueDue(cfg, ch, e, at) && StatsDue(cfg, o.ch, o.to.at) == StatsDue(cfg, ch, at)
    else Queue(o.ch.ring) == QueueDue(cfg, ch, e, at) && o.ch.stats == StatsDue(cfg, ch, at)
  }

  lemma LoadAlone(cfg: Config, ch: Chan, e: Entry, at: DeliverPc, act: PushAct, o: Outcome)
    requires Alone(cfg, ch, e, at) && PushCan(at, act) && o == PushDo(cfg, ch, e, at, act) && act.DLoadTail?
    ensures o.ch.ring.tail <= o.ch.ring.head == |o.ch.ring.log| && Due(cfg, ch, e, at, o)
    ensures o.to.Next? && Evicting(o.to.at) ==> o.to.at.t == o.ch.ring.tail && !Room(cfg, o.ch.ring) && ch.policy == DropOldest
  {
    hide PoppedOf, ReaderSees;
    assert |Queue(ch.ring)| == ch.ring.head - ch.ring.tail;
    assert o.ch.ring == ch.ring;
    hide Queue, RingShape;
  }

  lemma TakeAlone(cfg: Config, ch: Chan, e: Entry, at: DeliverPc, act: PushAct, o: Outcome)
    requires Alone(cfg, ch, e, at) && PushCan(at, act) && o == PushDo(cfg, ch, e, at, act)
    requires act.DCasTail? || act.DStoreHead?
    ensures o.ch.ring.tail <= o.ch.ring.head == |o.ch.ring.log| && Due(cfg, ch, e, at, o)
    ensures o.to.Next? && Evicting(o.to.at) ==> o.to.at.t == o.ch.ring.tail && !Room(cfg, o.ch.ring) && ch.policy == DropOldest
  {
    hide PoppedOf, ReaderSees;
    assert |Queue(ch.ring)| == ch.ring.head - ch.ring.tail <= cfg.cap;
    assert Queue(o.ch.ring) == if act.DCasTail? then Queue(ch.ring)[1..] else Queue(ch.ring) + [e];
    hide Queue, RingShape;
  }

  lemma RestAlone(cfg: Config, ch: Chan, e: Entry, at: DeliverPc, act: PushAct, o: Outcome)
    requires Alone(cfg, ch, e, at) && PushCan(at, act) && o == PushDo(cfg, ch, e, at, act)
    requires !act.DCasTail? && !act.DStoreHead? && !act.DLoadTail?
    ensures o.ch.ring.tail <= o.ch.ring.head == |o.ch.ring.log| && Due(cfg, ch, e, at, o)
    ensures o.to.Next? && Evicting(o.to.at) ==> o.to.at.t == o.ch.ring.tail && !Room(cfg, o.ch.ring) && ch.policy == DropOldest
  {
    hide PoppedOf, ReaderSees, Room;
    assert Queue(o.ch.ring) == Queue(ch.ring);
    hide Queue, RingShape;
  }

  lemma PushAlone(cfg: Config, ch: Chan, e: Entry, at: DeliverPc, act: PushAct, o: Outcome)
    requires Alone(cfg, ch, e, at) && PushCan(at, act) && o == PushDo(cfg, ch, e, at, act)
    ensures o.ch.ring.tail <= o.ch.ring.head == |o.ch.ring.log| && Due(cfg, ch, e, at, o)
    ensures o.to.Next? && Evicting(o.to.at) ==> o.to.at.t == o.ch.ring.tail && !Room(cfg, o.ch.ring) && ch.policy == DropOldest
  {
    hide Alone, PushDo, PushCan, Due;
    match act
    case DLoadTail(_) => LoadAlone(cfg, ch, e, at, act, o);
    case DCasTail => TakeAlone(cfg, ch, e, at, act, o);
    case DStoreHead => TakeAlone(cfg, ch, e, at, act, o);
    case _ => RestAlone(cfg, ch, e, at, act, o);
  }

  lemma HoldAlone(cfg: Config, ch: Chan, e: Entry, at: DeliverPc, act: BlockAct, o: Outcome)
    requires Alone(cfg, ch, e, at) && HoldCan(at, act) && o == HoldDo(cfg, ch, at, act)
    ensures o.ch.ring == ch.ring && Due(cfg, ch, e, at, o) && o.to.Next? && !Evicting(o.to.at)
  {
    hide PoppedOf, ReaderSees, RingShape;
  }

  lemma StepAlone(cfg: Config, ch: Chan, e: Entry, at: DeliverPc, act: PubAct, o: Outcome)
    requires Alone(cfg, ch, e, at) && PubCan(at, act) && o == PubDo(cfg, ch, e, at, act)
    ensures o.ch.ring.tail <= o.ch.ring.head == |o.ch.ring.log| && Due(cfg, ch, e, at, o)
    ensures o.to.Next? ==> Alone(cfg, o.ch, e, o.to.at)
    ensures o.ch.policy == ch.policy
  {
    PubKeepsRing(cfg, ch, e, at, act, o);
    PubLeavesReader(cfg, ch, e, at, act, o);
    hide RingInv, Due, PushDo, HoldDo;
    match act
    case Push(a) => PushAlone(cfg, ch, e, at, a, o);
    case Hold(a) => HoldAlone(cfg, ch, e, at, a, o);
  }

  /** The actions take deliver() from `at` to the outcome, with nobody in between. */
  ghost predicate Runs(cfg: Config, ch: Chan, e: Entry, at: DeliverPc, acts: seq<PubAct>, end: Outcome)
    decreases |acts|
  {
    && acts != [] && Sized(cfg, ch) && PubCan(at, acts[0])
    && var o := PubDo(cfg, ch, e, at, acts[0]);
    if |acts| == 1 then end == o else o.to.Next? && Runs(cfg, o.ch, e, o.to.at, acts[1..], end)
  }

  lemma {:induction false} RunIsDue(cfg: Config, ch: Chan, e: Entry, at: DeliverPc, acts: seq<PubAct>, end: Outcome)
    requires Alone(cfg, ch, e, at) && Runs(cfg, ch, e, at, acts, end) && end.to == Return
    ensures end.ch.ring.tail <= end.ch.ring.head == |end.ch.ring.log|
    ensures Queue(end.ch.ring) == QueueDue(cfg, ch, e, at) && end.ch.stats == StatsDue(cfg, ch, at)
    decreases |acts|
  {
    var o := PubDo(cfg, ch, e, at, acts[0]);
    StepAlone(cfg, ch, e, at, acts[0], o);
    hide Alone, PubDo, QueueDue, StatsDue;
    if |acts| > 1 { RunIsDue(cfg, o.ch, e, o.to.at, acts[1..], end); }
  }

  /** However it spins, sleeps or retries, a deliver() that nobody disturbs is one send to a
      bounded queue: a full DropOldest queue loses its oldest sample, a full DropNewest or Block
      queue the new one, and the policy's counter says so. */
  lemma DeliverAlone(cfg: Config, ch: Chan, e: Entry, acts: seq<PubAct>, end: Outcome)
    requires Sized(cfg, ch) && RingInv(cfg, ch, Away) && Runs(cfg, ch, e, LoadTail, acts, end) && end.to == Return
    ensures end.ch.ring.tail <= end.ch.ring.head == |end.ch.ring.log|
    ensures Queue(end.ch.ring) == Offered(Queue(ch.ring), cfg.cap, ch.policy, e)
    ensures end.ch.stats == Counted(ch.stats, Queue(ch.ring), cfg.cap, ch.policy)
  {
    hide Runs, RingShape, PoppedOf, ReaderSees;
    RunIsDue(cfg, ch, e, LoadTail, acts, end);
  }

  /** The action deliver() takes at this point, out of patience on a Block queue. */
  ghost function Hurried(at: DeliverPc): PubAct
    requires !Holding(at)
  {
    match at
    case LoadTail => Push(DLoadTail(TimeOut))
    case EvictEntry(_) => Push(DLoadVictim)
    case EvictCas(_, _) => Push(DCasTail)
    case StoreEntry => Push(DStoreEntry)
    case StoreHead => Push(DStoreHead)
    case Credit => Push(DLoadSleeping)
    case BumpData => Push(DBumpData)
    case WakeData => Push(DWakeData)
  }

  /** The actions still to come, at most. */
  ghost function Left(cfg: Config, ch: Chan, at: DeliverPc): nat
    requires !Holding(at)
  {
    match at
    case LoadTail => if Room(cfg, ch.ring) then 6 else 9
    case EvictEntry(_) => 8
    case EvictCas(_, _) => 7
    case StoreEntry => 5
    case StoreHead => 4
    case Credit => 3
    case BumpData => 2
    case WakeData => 1
  }

  lemma HurryEnds(cfg: Config, ch: Chan, e: Entry, at: DeliverPc, o: Outcome)
    requires Alone(cfg, ch, e, at) && !Holding(at) && PubCan(at, Hurried(at)) && o == PubDo(cfg, ch, e, at, Hurried(at))
    ensures o.to.Next? ==> !Holding(o.to.at) && Left(cfg, o.ch, o.to.at) < Left(cfg, ch, at)
  {
    hide PoppedOf, ReaderSees;
  }

  /** And it can end: in at most nine actions. */
  lemma {:induction false} DeliverEnds(cfg: Config, ch: Chan, e: Entry, at: DeliverPc) returns (acts: seq<PubAct>, end: Outcome)
    requires Alone(cfg, ch, e, at) && !Holding(at)
    ensures Runs(cfg, ch, e, at, acts, end) && end.to == Return && |acts| <= Left(cfg, ch, at)
    decreases Left(cfg, ch, at)
  {
    var act := Hurried(at);
    var o := PubDo(cfg, ch, e, at, act);
    StepAlone(cfg, ch, e, at, act, o);
    HurryEnds(cfg, ch, e, at, o);
    assert Sized(cfg, ch);
    hide Alone, PubDo, Left;
    if o.to == Return {
      acts, end := [act], o;
    } else {
      hide Runs, Hurried;
      var rest;
      rest, end := DeliverEnds(cfg, o.ch, e, o.to.at);
      acts := [act] + rest;
      RunsOn(cfg, ch, e, at, act, o, rest, end);
    }
  }

  lemma RunsOn(cfg: Config, ch: Chan, e: Entry, at: DeliverPc, act: PubAct, o: Outcome, rest: seq<PubAct>, end: Outcome)
    requires Sized(cfg, ch) && PubCan(at, act) && o == PubDo(cfg, ch, e, at, act) && o.to.Next?
    requires Runs(cfg, o.ch, e, o.to.at, rest, end)
    ensures Runs(cfg, ch, e, at, [act] + rest, end)
  {
    hide PubDo;
    assert ([act] + rest)[1..] == rest;
  }

  // ---------------------------------------------------------------------------
  // try_receive()
  // ---------------------------------------------------------------------------

  /** What is queued, and what the subscriber has. */
  datatype Desk = Desk(queue: seq<Entry>, got: seq<Entry>, held: seq<Entry>, received: nat, borrowed: nat)

  ghost function DeskOf(ch: Chan): Desk
    requires ch.ring.tail <= ch.ring.head == |ch.ring.log|
  {
    Desk(Queue(ch.ring), ch.reader.got, ch.reader.held, ch.reader.received, ch.reader.borrowed)
  }

  /** One receive: the oldest sample, if there is any. */
  ghost function Received(d: Desk): Desk {
    if d.queue == [] then d
    else Desk(d.queue[1..], d.got + [d.queue[0]], d.held + [d.queue[0]], d.received + 1, d.borrowed + 1)
  }

  /** Where try_receive() can be on its own, with good indices only. */
  ghost predicate PopAlone(cfg: Config, ch: Chan) {
    var r, pc := ch.ring, ch.reader.pc;
    && Sized(cfg, ch) && RingShape(cfg.cap, r) && ReaderSees(r, pc)
    && (PrePop(pc) ==> pc.t == r.tail && (r.tail < r.head ==> r.log[r.tail].chunk < cfg.chunks))
    && (MidPop(pc) ==> pc.c < cfg.chunks)
    && (PrePop(pc) || MidPop(pc))
  }

  ghost function DeskDue(ch: Chan): Desk
    requires ch.ring.tail <= ch.ring.head == |ch.ring.log|
  {
    var d := DeskOf(ch);
    if PrePop(ch.reader.pc) then Received(d) else d.(received := d.received + 1, borrowed := d.borrowed + 1)
  }

  lemma PopStepAlone(cfg: Config, mem: seq<Cell>, ch: Chan, act: PopAct, ch': Chan)
    requires PopAlone(cfg, ch) && PopCan(cfg, ch.reader, act) && ch' == PopDo(cfg, mem, ch, act)
    ensures ch'.ring.tail <= ch'.ring.head == |ch'.ring.log|
    ensures if ch'.reader.pc == Ready then DeskOf(ch') == DeskDue(ch) else PopAlone(cfg, ch') && DeskDue(ch') == DeskDue(ch)
  {
    var r := ch.ring;
    if r.tail < r.head { TailHolds(cfg.cap, r); }
    if act.CasTail? {
      TakeKeepsRing(cfg.cap, r, Popped, ch.reader.pc.c);
      assert Queue(ch'.ring) == Queue(r)[1..];
    }
    hide RingShape;
  }

  /** The actions take try_receive() back to where it can be called again. */
  ghost predicate PopRuns(cfg: Config, mem: seq<Cell>, ch: Chan, acts: seq<PopAct>, end: Chan)
    decreases |acts|
  {
    && acts != [] && Sized(cfg, ch) && PopCan(cfg, ch.reader, acts[0])
    && var ch' := PopDo(cfg, mem, ch, acts[0]);
    if |acts| == 1 then end == ch' && ch'.reader.pc == Ready
    else ch'.reader.pc != Ready && PopRuns(cfg, mem, ch', acts[1..], end)
  }

  lemma {:induction false} PopRunIsDue(cfg: Config, mem: seq<Cell>, ch: Chan, acts: seq<PopAct>, end: Chan)
    requires PopAlone(cfg, ch) && PopRuns(cfg, mem, ch, acts, end)
    ensures end.ring.tail <= end.ring.head == |end.ring.log| && DeskOf(end) == DeskDue(ch)
    decreases |acts|
  {
    var ch' := PopDo(cfg, mem, ch, acts[0]);
    PopStepAlone(cfg, mem, ch, acts[0], ch');
    hide PopAlone, PopDo, DeskDue;
    if |acts| > 1 { PopRunIsDue(cfg, mem, ch', acts[1..], end); }
  }

  /** A receive that nobody disturbs takes the oldest sample, or nothing from an empty queue. */
  lemma ReceiveAlone(cfg: Config, mem: seq<Cell>, ch: Chan, acts: seq<PopAct>, end: Chan)
    requires Sized(cfg, ch) && RingShape(cfg.cap, ch.ring) && ch.reader.pc == Ready && PopRuns(cfg, mem, ch, acts, end)
    requires ch.ring.tail < ch.ring.head ==> ch.ring.log[ch.ring.tail].chunk < cfg.chunks
    ensures end.ring.tail <= end.ring.head == |end.ring.log| && DeskOf(end) == Received(DeskOf(ch))
  {
    var ch' := PopDo(cfg, mem, ch, acts[0]);
    assert acts[0] == LoadTailForPop && |acts| > 1;
    hide RingShape;
    PopRunIsDue(cfg, mem, ch', acts[1..], end);
  }

  // ---------------------------------------------------------------------------
  // Sleeping
  // ---------------------------------------------------------------------------

  /** The subscriber after at most `n` more actions of wait(), up to its sleep or its way out. */
  ghost function Waiting(gone: bool, ch: Chan, n: nat): Chan
    requires ch.reader.alive
    decreases n
  {
    if n == 0 then ch
    else
      match ch.reader.pc
      case Ready => Waiting(gone, WaitDo(gone, ch, LoadWord), n - 1)
      case WaitFlag(_) => Waiting(gone, WaitDo(gone, ch, SetSleeping), n - 1)
      case WaitTail(_) => Waiting(gone, WaitDo(gone, ch, LoadTailForWait), n - 1)
      case WaitHead(_, _) => Waiting(gone, WaitDo(gone, ch, LoadHeadForWait), n - 1)
      case WaitGone(_) => Waiting(gone, WaitDo(gone, ch, LoadPublisherPid), n - 1)
      case WaitSleep(_) => Waiting(gone, WaitDo(gone, ch, FutexWait), n - 1)
      case _ => ch
  }

  /** A wait that nobody disturbs goes to sleep, announced, exactly if nothing is queued and the
      publisher is there; else it is about to return. */
  lemma WaitAlone(gone: bool, ch: Chan)
    requires ch.reader.alive && ch.reader.pc == Ready
    ensures
      var end := Waiting(gone, ch, 6);
      && end.data.flag && end.ring == ch.ring
      && end.reader.pc == if ch.ring.tail == ch.ring.head && !gone then Asleep(ch.data.word) else WaitClear
  {
    var s1 := WaitDo(gone, ch, LoadWord);
    var s2 := WaitDo(gone, s1, SetSleeping);
    assert Waiting(gone, ch, 6) == Waiting(gone, s1, 5) == Waiting(gone, s2, 4);
    assert s2.reader.pc == WaitTail(ch.data.word) && s2.data == Futex(ch.data.word, true) && s2.ring == ch.ring;
    hide WaitDo;
    LookAround(gone, s2);
  }

  lemma LookAround(gone: bool, ch: Chan)
    requires ch.reader.alive && ch.reader.pc == WaitTail(ch.data.word)
    ensures
      var end := Waiting(gone, ch, 4);
      && end.data == ch.data && end.ring == ch.ring
      && end.reader.pc == if ch.ring.tail == ch.ring.head && !gone then Asleep(ch.data.word) else WaitClear
  {
    var s3 := WaitDo(gone, ch, LoadTailForWait);
    var s4 := WaitDo(gone, s3, LoadHeadForWait);
    assert Waiting(gone, ch, 4) == Waiting(gone, s3, 3) == Waiting(gone, s4, 2);
    if s4.reader.pc.WaitGone? {
      var s5 := WaitDo(gone, s4, LoadPublisherPid);
      assert Waiting(gone, s4, 2) == Waiting(gone, s5, 1);
      if s5.reader.pc.WaitSleep? { assert Waiting(gone, s5, 1) == WaitDo(gone, s5, FutexWait); }
    }
  }

  /** Returning from a wait, woken or not, leaves the slot as it was before. */
  lemma WaitReturns(gone: bool, ch: Chan)
    requires ch.reader.alive && ch.reader.pc == Ready
    ensures
      var awake := Goto(ch.(data := ch.data.(flag := true)), WaitClear);
      WaitDo(gone, awake, ClearSleeping) == ch.(data := ch.data.(flag := false))
  {
  }

  /** A patient deliver() on a full Block queue that nobody disturbs ends up asleep, announced,
      on the word it loaded, as long as the subscriber has not left. */
  lemma HoldSleeps(cfg: Config, ch: Chan, e: Entry)
    requires Sized(cfg, ch) && ch.policy == Block && !Room(cfg, ch.ring)
    ensures PubDo(cfg, ch, e, LoadTail, Push(DLoadTail(Sleep))) == Stay(ch, BlockWord)
    ensures
      var w := ch.space.word;
      var o1 := HoldDo(cfg, ch, BlockWord, DLoadSpace);
      && o1.to == Next(BlockFlag(w))
      && var o2 := HoldDo(cfg, o1.ch, BlockFlag(w), DSetWaiting);
      && o2.to == Next(BlockTail(w)) && o2.ch.space == Futex(w, true)
      && var o3 := HoldDo(cfg, o2.ch, BlockTail(w), DRecheckTail);
      && o3.to == Next(BlockState(w))
      && var o4 := HoldDo(cfg, o3.ch, BlockState(w), DRecheckState);
      if ch.state != Active then o4.to == Next(BlockClear)
      else o4.to == Next(BlockSleep(w)) && HoldDo(cfg, o4.ch, BlockSleep(w), DFutexWait).to == Next(BlockAsleep(w))
    ensures HoldDo(cfg, ch, BlockClear, DClearWaiting) == Stay(ch.(space := ch.space.(flag := false)), LoadTail)
  {
  }
}
