/**
 One publisher-to-subscriber channel of a devbus service: a subscriber slot in shared
 memory, the subscriber that owns it, and the part of the publisher that is working on
 it. Every action below is one atomic access to shared memory, together with the
 private computation that follows it, under sequentially consistent interleaving.

 A process that crashes simply takes no further action, wherever it was.
 */
module Channel {

  datatype Config = Config(
    slots: nat, cap: nat, maxBorrowed: nat, maxLoans: nat, chunks: nat, doneCap: nat)

  /** What the constructor and the layout computation guarantee. */
  ghost predicate GoodConfig(cfg: Config) {
    && 1 <= cfg.slots
    && 1 <= cfg.cap
    && cfg.chunks == cfg.slots * (cfg.cap + cfg.maxBorrowed) + cfg.maxLoans
    && cfg.slots <= cfg.chunks <= 0xFFFF
    && cfg.chunks <= cfg.doneCap
  }

  datatype Policy = DropOldest | DropNewest | Block
  datatype SlotState = Free | Claimed | Active | Closing

  /** A sample as it was sent. */
  datatype Entry = Entry(chunk: nat, seqno: nat, payload: int)
  /** A chunk's header and payload in the data segment. */
  datatype Cell = Cell(seqno: nat, payload: int)

  datatype Taker = Popped | Evicted
  datatype Take = Take(who: Taker, chunk: nat)

  /** The data ring. `buf`, `head` and `tail` are the shared words; `log` and `taken`
      are its history: what was published at each position, and who took each
      position with which chunk index. */
  datatype Ring = Ring(buf: seq<nat>, head: nat, tail: nat, log: seq<Entry>, taken: seq<Take>)

  datatype DoneRing = DoneRing(buf: seq<nat>, head: nat, tail: nat)

  /** A futex word and the flag that says its sleeper is (about to be) asleep. */
  datatype Futex = Futex(word: nat, flag: bool)

  datatype Stats = Stats(delivered: nat, droppedOldest: nat, droppedNewest: nat, blockTimeouts: nat)

  /** Where a subscriber is. Arguments are the values it has loaded so far. */
  datatype SubPc =
    | NoSub
    | JustClaimed
    | HasPid
    | Ready
    | RecvHead(t: nat)            // loaded data_tail
    | RecvEntry(t: nat)           // saw a newer data_head
    | RecvCas(t: nat, c: nat)     // loaded the ring entry
    | RecvWon(c: nat)             // its CAS on data_tail succeeded
    | RecvBump(c: nat)            // saw publisher_waiting
    | RecvWake(c: nat, b: nat)    // bumped space_futex to b
    | RecvTake(c: nat)            // about to read the chunk header
    | WaitFlag(w: nat)            // loaded futex_word
    | WaitTail(w: nat)            // set sleeping
    | WaitHead(w: nat, t: nat)    // loaded data_tail
    | WaitGone(w: nat)            // saw an empty queue
    | WaitSleep(w: nat)           // saw a live publisher; about to call futex_wait
    | Asleep(w: nat)
    | WaitClear                   // about to clear sleeping

  /** The subscriber process. `held` lists the samples it has popped and not released;
      `got` every sample it ever popped (history). */
  datatype Reader = Reader(
    pc: SubPc, alive: bool, borrowed: nat, received: nat, gaps: nat, lastSeq: nat,
    held: seq<Entry>, got: seq<Entry>)

  /** A subscriber past its last store to `state`: the tenant still to bump space_futex, or
      having bumped it to `b` still to wake its sleeper. Its slot may already belong to
      somebody else. */
  datatype Leaver = ToBump(tenant: nat) | ToWake(b: nat)

  /** `first` is the sequence number of the first send this subscriber took part in,
      `refused` the sequence numbers its full queue turned away, and `tenant` counts the
      subscribers that ever claimed the slot (all history). */
  datatype Chan = Chan(
    state: SlotState, pid: bool, policy: Policy,
    ring: Ring, done: DoneRing, data: Futex, space: Futex, stats: Stats,
    reader: Reader, leavers: seq<Leaver>, first: nat, refused: set<nat>, tenant: nat)

  /** Where the publisher is inside deliver(). */
  datatype DeliverPc =
    | LoadTail
    | EvictEntry(t: nat)          // loaded data_tail
    | EvictCas(t: nat, v: nat)    // loaded the oldest entry
    | BlockWord
    | BlockFlag(w: nat)           // loaded space_futex
    | BlockTail(w: nat)           // set publisher_waiting
    | BlockState(w: nat)          // saw a full queue again
    | BlockSleep(w: nat)          // saw an Active slot; about to call futex_wait
    | BlockAsleep(w: nat)
    | BlockClear                  // about to clear publisher_waiting
    | StoreEntry
    | StoreHead
    | Credit                      // head is stored, the reference count not yet raised
    | BumpData                    // saw sleeping
    | WakeData

  /** The publisher as one channel sees it. */
  datatype PubView =
    | Away
    | Delivering(entry: Entry, at: DeliverPc)
    | Leaving(bumped: bool, woken: bool)

  ghost predicate Sized(cfg: Config, ch: Chan) {
    && 1 <= cfg.cap && 1 <= cfg.doneCap
    && |ch.ring.buf| == cfg.cap
    && |ch.done.buf| == cfg.doneCap
  }

  function At(log: seq<Entry>, k: nat): Entry {
    if k < |log| then log[k] else Entry(0, 0, 0)
  }

  function CellAt(mem: seq<Cell>, c: nat): Cell {
    if c < |mem| then mem[c] else Cell(0, 0)
  }

  /** A slot as its owner finds it: nothing queued, nothing held, counters at zero. */
  function BlankRing(buf: seq<nat>): Ring { Ring(buf, 0, 0, [], []) }
  const NoReader := Reader(NoSub, true, 0, 0, 0, 0, [], [])

  // ---------------------------------------------------------------------------
  // The subscriber
  // ---------------------------------------------------------------------------

  /** Receiving: try_receive(). */
  datatype PopAct =
    LoadTailForPop | LoadHeadForPop | LoadEntry | CasTail | LoadWaiting | BumpSpace | WakeSpace | TakeSample

  /** Waiting for data on the futex: wait(). Time-outs and spurious wake-ups may come at any time. */
  datatype WaitAct =
    LoadWord | SetSleeping | LoadTailForWait | LoadHeadForWait | LoadPublisherPid | GiveUpWaiting | FutexWait
    | WakeUnasked | ClearSleeping

  /** Everything else: claiming a slot, releasing a sample, leaving, crashing. */
  datatype LifeAct =
    Claim | SetPid | Activate(policy: Policy) | Release(k: nat) | Close | LeaverBump(k: nat) | LeaverWake(k: nat) | Crash

  datatype SubAct = Pop(pop: PopAct) | Wait(wait: WaitAct) | Life(life: LifeAct)

  predicate PopCan(cfg: Config, r: Reader, act: PopAct) {
    r.alive
    && match act
       case LoadTailForPop => r.pc == Ready && r.borrowed < cfg.maxBorrowed
       case LoadHeadForPop => r.pc.RecvHead?
       case LoadEntry => r.pc.RecvEntry?
       case CasTail => r.pc.RecvCas?
       case LoadWaiting => r.pc.RecvWon?
       case BumpSpace => r.pc.RecvBump?
       case WakeSpace => r.pc.RecvWake?
       case TakeSample => r.pc.RecvTake?
  }

  predicate WaitCan(r: Reader, act: WaitAct) {
    r.alive
    && match act
       case LoadWord => r.pc == Ready
       case SetSleeping => r.pc.WaitFlag?
       case LoadTailForWait => r.pc.WaitTail?
       case LoadHeadForWait => r.pc.WaitHead?
       case LoadPublisherPid => r.pc.WaitGone?
       case GiveUpWaiting => r.pc.WaitSleep?
       case FutexWait => r.pc.WaitSleep?
       case WakeUnasked => r.pc.Asleep?
       case ClearSleeping => r.pc == WaitClear
  }

  predicate LifeCan(ch: Chan, act: LifeAct) {
    var r := ch.reader;
    match act
    case Claim => ch.state == Free && r.pc == NoSub
    case SetPid => r.alive && r.pc == JustClaimed
    case Activate(_) => r.alive && r.pc == HasPid
    case Release(k) => r.alive && r.pc == Ready && k < |r.held| && 0 < r.borrowed
    case Close => r.alive && r.pc == Ready
    case LeaverBump(k) => k < |ch.leavers| && ch.leavers[k].ToBump?
    case LeaverWake(k) => k < |ch.leavers| && ch.leavers[k].ToWake?
    case Crash => r.alive && r.pc != NoSub
  }

  /** When the code reaches the action. Crashed subscribers never act again. */
  predicate SubCan(cfg: Config, ch: Chan, act: SubAct) {
    match act
    case Pop(a) => PopCan(cfg, ch.reader, a)
    case Wait(a) => WaitCan(ch.reader, a)
    case Life(a) => LifeCan(ch, a)
  }

  function Goto(ch: Chan, pc: SubPc): Chan { ch.(reader := ch.reader.(pc := pc)) }

  /** The CAS that pops position `t`: it wins if nobody has moved data_tail since. */
  function PopCas(ch: Chan, t: nat, c: nat): Chan {
    if ch.ring.tail == t then
      var e := At(ch.ring.log, t);
      ch.(ring := ch.ring.(tail := t + 1, taken := ch.ring.taken + [Take(Popped, c)]),
          reader := ch.reader.(pc := RecvWon(c), held := ch.reader.held + [e], got := ch.reader.got + [e]))
    else Goto(ch, Ready)
  }

  /** Reading the header of a popped chunk. A corrupt index is skipped. */
  function TakeHeader(cfg: Config, r: Reader, mem: seq<Cell>, c: nat): Reader {
    if c >= cfg.chunks then r.(pc := Ready)
    else
      var s := CellAt(mem, c).seqno;
      r.(pc := Ready, borrowed := r.borrowed + 1, received := r.received + 1, lastSeq := s,
         gaps := if r.lastSeq != 0 && s > r.lastSeq + 1 then r.gaps + (s - r.lastSeq - 1) else r.gaps)
  }

  function PopDo(cfg: Config, mem: seq<Cell>, ch: Chan, act: PopAct): Chan
    requires Sized(cfg, ch) && PopCan(cfg, ch.reader, act)
  {
    var pc := ch.reader.pc;
    match act
    case LoadTailForPop => Goto(ch, RecvHead(ch.ring.tail))
    case LoadHeadForPop => Goto(ch, if pc.t == ch.ring.head then Ready else RecvEntry(pc.t))
    case LoadEntry => Goto(ch, RecvCas(pc.t, ch.ring.buf[pc.t % cfg.cap]))
    case CasTail => PopCas(ch, pc.t, pc.c)
    case LoadWaiting => Goto(ch, if ch.space.flag then RecvBump(pc.c) else RecvTake(pc.c))
    case BumpSpace => Goto(ch.(space := ch.space.(word := ch.space.word + 1)), RecvWake(pc.c, ch.space.word + 1))
    case WakeSpace => Goto(ch, RecvTake(pc.c))
    case TakeSample => ch.(reader := TakeHeader(cfg, ch.reader, mem, pc.c))
  }

  /** Where wait() goes next; `gone` is a cleared publisher pid. */
  function WaitNext(r: Ring, d: Futex, gone: bool, pc: SubPc, act: WaitAct): SubPc
    requires
      match act
      case LoadWord => true
      case SetSleeping => pc.WaitFlag?
      case LoadTailForWait => pc.WaitTail?
      case LoadHeadForWait => pc.WaitHead?
      case LoadPublisherPid => pc.WaitGone?
      case GiveUpWaiting => true
      case FutexWait => pc.WaitSleep?
      case WakeUnasked => true
      case ClearSleeping => true
  {
    match act
    case LoadWord => WaitFlag(d.word)
    case SetSleeping => WaitTail(pc.w)
    case LoadTailForWait => WaitHead(pc.w, r.tail)
    case LoadHeadForWait => if pc.t != r.head then WaitClear else WaitGone(pc.w)
    case LoadPublisherPid => if gone then WaitClear else WaitSleep(pc.w)
    case GiveUpWaiting => WaitClear
    case FutexWait => if d.word == pc.w then Asleep(pc.w) else WaitClear
    case WakeUnasked => WaitClear
    case ClearSleeping => Ready
  }

  function WaitDo(gone: bool, ch: Chan, act: WaitAct): Chan
    requires WaitCan(ch.reader, act)
  {
    var flag := if act.SetSleeping? then true else if act.ClearSleeping? then false else ch.data.flag;
    Goto(ch.(data := ch.data.(flag := flag)), WaitNext(ch.ring, ch.data, gone, ch.reader.pc, act))
  }

  function PushDone(d: DoneRing, c: nat): DoneRing
    requires 1 <= |d.buf|
  {
    d.(buf := d.buf[d.head % |d.buf| := c], head := d.head + 1)
  }

  function Without(held: seq<Entry>, k: nat): seq<Entry>
    requires k < |held|
  {
    held[..k] + held[k + 1..]
  }

  function LifeDo(cfg: Config, ch: Chan, act: LifeAct): Chan
    requires Sized(cfg, ch) && LifeCan(ch, act)
  {
    var r := ch.reader;
    match act
    case Claim => ch.(state := Claimed, reader := NoReader.(pc := JustClaimed), tenant := ch.tenant + 1)
    case SetPid => Goto(ch.(pid := true), HasPid)
    case Activate(p) =>
      Goto(ch.(policy := p, state := Active,
               ring := ch.ring.(tail := ch.ring.head), done := ch.done.(head := ch.done.tail)), Ready)
    case Release(k) =>
      ch.(done := PushDone(ch.done, r.held[k].chunk),
          reader := r.(held := Without(r.held, k), borrowed := r.borrowed - 1))
    case Close => Goto(ch.(state := Closing, leavers := ch.leavers + [ToBump(ch.tenant)]), NoSub)
    case LeaverBump(k) =>
      ch.(space := ch.space.(word := ch.space.word + 1), leavers := ch.leavers[k := ToWake(ch.space.word + 1)])
    case LeaverWake(k) => ch.(leavers := ch.leavers[..k] + ch.leavers[k + 1..])
    case Crash => ch.(reader := r.(alive := false))
  }

  function SubDo(cfg: Config, mem: seq<Cell>, gone: bool, ch: Chan, act: SubAct): Chan
    requires Sized(cfg, ch) && SubCan(cfg, ch, act)
  {
    match act
    case Pop(a) => PopDo(cfg, mem, ch, a)
    case Wait(a) => WaitDo(gone, ch, a)
    case Life(a) => LifeDo(cfg, ch, a)
  }

  /** futex_wake on space_futex. */
  predicate WakesPublisher(act: SubAct) { (act.Pop? && act.pop.WakeSpace?) || (act.Life? && act.life.LeaverWake?) }

  /** A wake on space_futex reaches a publisher asleep on this channel. */
  function SubDoView(pv: PubView, act: SubAct): PubView {
    if WakesPublisher(act) && pv.Delivering? && pv.at.BlockAsleep? then pv.(at := BlockClear) else pv
  }

  // ---------------------------------------------------------------------------
  // The publisher, inside deliver()
  // ---------------------------------------------------------------------------

  /** How a full Block queue is handled this time round; the clock decides. */
  datatype Patience = TimeOut | Spin | Sleep

  /** Queueing the chunk and alerting the subscriber. */
  datatype PushAct =
    DLoadTail(patience: Patience) | DLoadVictim | DCasTail | DStoreEntry | DStoreHead | DLoadSleeping | DBumpData | DWakeData

  /** Sleeping on a full Block queue. */
  datatype BlockAct =
    DLoadSpace | DSetWaiting | DRecheckTail | DRecheckState | DFutexWait | DWakeUnasked | DClearWaiting

  datatype PubAct = Push(push: PushAct) | Hold(hold: BlockAct)

  /** What the action does to the publisher's private books. */
  datatype Effect = NoEffect | Unref(c: nat) | Ref(c: nat)

  /** The channel afterwards, and where deliver() goes next (None: it returns). */
  datatype Where = Next(at: DeliverPc) | Return
  datatype Outcome = Outcome(ch: Chan, to: Where, effect: Effect)

  predicate PushCan(at: DeliverPc, act: PushAct) {
    match act
    case DLoadTail(_) => at == LoadTail
    case DLoadVictim => at.EvictEntry?
    case DCasTail => at.EvictCas?
    case DStoreEntry => at == StoreEntry
    case DStoreHead => at == StoreHead
    case DLoadSleeping => at == Credit
    case DBumpData => at == BumpData
    case DWakeData => at == WakeData
  }

  predicate HoldCan(at: DeliverPc, act: BlockAct) {
    match act
    case DLoadSpace => at == BlockWord
    case DSetWaiting => at.BlockFlag?
    case DRecheckTail => at.BlockTail?
    case DRecheckState => at.BlockState?
    case DFutexWait => at.BlockSleep?
    case DWakeUnasked => at.BlockAsleep?
    case DClearWaiting => at == BlockClear
  }

  predicate PubCan(at: DeliverPc, act: PubAct) {
    match act
    case Push(a) => PushCan(at, a)
    case Hold(a) => HoldCan(at, a)
  }

  /** The send is turned away: counted, and deliver() returns false. */
  function Refuse(ch: Chan, e: Entry, stats: Stats): Outcome {
    Outcome(ch.(stats := stats, refused := ch.refused + {e.seqno}), Return, NoEffect)
  }

  function Full(cfg: Config, ch: Chan, e: Entry, patience: Patience): Outcome
    requires Sized(cfg, ch)
  {
    var s := ch.stats;
    match ch.policy
    case DropNewest => Refuse(ch, e, s.(droppedNewest := s.droppedNewest + 1))
    case DropOldest => Outcome(ch, Next(EvictEntry(ch.ring.tail)), NoEffect)
    case Block =>
      match patience
      case TimeOut => Refuse(ch, e, s.(blockTimeouts := s.blockTimeouts + 1))
      case Spin => Outcome(ch, Next(LoadTail), NoEffect)
      case Sleep => Outcome(ch, Next(BlockWord), NoEffect)
  }

  /** The CAS that evicts position `t`. If the subscriber popped it first there is room. */
  function EvictOldest(ch: Chan, t: nat, v: nat): Outcome {
    if ch.ring.tail == t then
      var s := ch.stats;
      Outcome(ch.(ring := ch.ring.(tail := t + 1, taken := ch.ring.taken + [Take(Evicted, v)]),
                  stats := s.(droppedOldest := s.droppedOldest + 1)),
              Next(LoadTail), Unref(v))
    else Outcome(ch, Next(LoadTail), NoEffect)
  }

  function Stay(ch: Chan, at: DeliverPc): Outcome { Outcome(ch, Next(at), NoEffect) }

  predicate Room(cfg: Config, r: Ring) { r.head < r.tail + cfg.cap }

  function PushDo(cfg: Config, ch: Chan, e: Entry, at: DeliverPc, act: PushAct): Outcome
    requires Sized(cfg, ch) && PushCan(at, act)
  {
    var r := ch.ring;
    match act
    case DLoadTail(patience) => if Room(cfg, r) then Stay(ch, StoreEntry) else Full(cfg, ch, e, patience)
    case DLoadVictim => Stay(ch, EvictCas(at.t, r.buf[at.t % cfg.cap]))
    case DCasTail => EvictOldest(ch, at.t, at.v)
    case DStoreEntry => Stay(ch.(ring := r.(buf := r.buf[r.head % cfg.cap := e.chunk])), StoreHead)
    case DStoreHead => Stay(ch.(ring := r.(head := r.head + 1, log := r.log + [e])), Credit)
    case DLoadSleeping =>
      var ch' := ch.(stats := ch.stats.(delivered := ch.stats.delivered + 1));
      Outcome(ch', if ch.data.flag then Next(BumpData) else Return, Ref(e.chunk))
    case DBumpData => Stay(ch.(data := ch.data.(word := ch.data.word + 1)), WakeData)
    case DWakeData => Outcome(WakeReader(ch), Return, NoEffect)
  }

  function HoldNext(cfg: Config, ch: Chan, at: DeliverPc, act: BlockAct): DeliverPc
    requires HoldCan(at, act)
  {
    match act
    case DLoadSpace => BlockFlag(ch.space.word)
    case DSetWaiting => BlockTail(at.w)
    case DRecheckTail => if Room(cfg, ch.ring) then BlockClear else BlockState(at.w)
    case DRecheckState => if ch.state != Active then BlockClear else BlockSleep(at.w)
    case DFutexWait => if ch.space.word == at.w then BlockAsleep(at.w) else BlockClear
    case DWakeUnasked => BlockClear
    case DClearWaiting => LoadTail
  }

  function HoldDo(cfg: Config, ch: Chan, at: DeliverPc, act: BlockAct): Outcome
    requires HoldCan(at, act)
  {
    var flag := if act.DSetWaiting? then true else if act.DClearWaiting? then false else ch.space.flag;
    Stay(ch.(space := ch.space.(flag := flag)), HoldNext(cfg, ch, at, act))
  }

  function PubDo(cfg: Config, ch: Chan, e: Entry, at: DeliverPc, act: PubAct): Outcome
    requires Sized(cfg, ch) && PubCan(at, act)
  {
    match act
    case Push(a) => PushDo(cfg, ch, e, at, a)
    case Hold(a) => HoldDo(cfg, ch, at, a)
  }

  function WakeReader(ch: Chan): Chan {
    if ch.reader.pc.Asleep? then Goto(ch, WaitClear) else ch
  }

  function ViewOf(e: Entry, to: Where): PubView {
    match to
    case Next(at) => Delivering(e, at)
    case Return => Away
  }

  // ---------------------------------------------------------------------------
  // The publisher, outside deliver()
  // ---------------------------------------------------------------------------

  /** The chunk indices in the done ring that the publisher has not read yet. */
  function Undrained(d: DoneRing): (es: seq<nat>)
    requires 1 <= |d.buf| && d.tail <= d.head
    ensures |es| == d.head - d.tail
  {
    seq(d.head - d.tail, k requires 0 <= k < d.head - d.tail => d.buf[(d.tail + k) % |d.buf|])
  }

  function Drained(ch: Chan): Chan { ch.(done := ch.done.(tail := ch.done.head)) }

  /** reclaim_slot(), as far as shared memory is concerned. The leavers live on. */
  function Recycled(ch: Chan): Chan {
    ch.(state := Free, pid := false, ring := BlankRing(ch.ring.buf), done := DoneRing(ch.done.buf, 0, 0),
        data := ch.data.(flag := false), stats := Stats(0, 0, 0, 0), reader := NoReader, first := 0, refused := {})
  }

  /** May the publisher take this slot back: its subscriber left, or it is dead. */
  ghost predicate Reclaimable(ch: Chan) {
    ch.state == Closing || (ch.state != Free && !ch.reader.alive)
  }

  /** The publisher's destructor bumps and wakes every slot's futex. */
  function ExitBump(ch: Chan): Chan { ch.(data := ch.data.(word := ch.data.word + 1)) }
}
