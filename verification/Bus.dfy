/**
 A whole devbus service: one publisher, its private books, and one channel per subscriber
 slot. A run is any interleaving of the publisher's steps with the subscribers' actions;
 a process that crashes just stops taking steps.
 */
module Bus {
  import L = Ledger
  import opened Channel

  /** Why the slots are being scanned. */
  datatype Goal = ForSend(entry: Entry) | ForLoan | ForCheck

  datatype PubPc =
    | Idle
    | Draining(todo: seq<nat>)                              // loan(): done rings still to drain
    | Scanning(next: nat, goal: Goal)                       // scan_slots()
    | Reaping(next: nat)                                    // check_liveness(), after its scan
    | Sending(entry: Entry, todo: seq<nat>, at: DeliverPc)  // send(): delivering to todo[0]
    | Exiting(next: nat, bumped: bool)                      // the destructor, pid already cleared

  datatype World = World(
    books: L.Ledger, loaned: set<nat>, nextSeq: nat, mem: seq<Cell>,
    onboard: seq<bool>, list: seq<nat>, failures: nat, pc: PubPc, chans: seq<Chan>)

  function View(pc: PubPc, i: nat): PubView {
    match pc
    case Sending(e, todo, at) => if todo != [] && todo[0] == i then Delivering(e, at) else Away
    case Exiting(next, bumped) => Leaving(i < next || (i == next && bumped), i < next)
    case _ => Away
  }

  /** The chunk send() is working on: no longer loaned, not yet fully referenced. */
  function Moving(pc: PubPc): set<nat> {
    match pc
    case Scanning(_, ForSend(e)) => {e.chunk}
    case Sending(e, _, _) => {e.chunk}
    case _ => {}
  }

  // ---------------------------------------------------------------------------
  // Steps
  // ---------------------------------------------------------------------------

  datatype Step =
    | Sub(i: nat, act: SubAct)
    | Deliver(move: PubAct)
    | LoanBegin | DrainOne | LoanTake | LoanRescue
    | Cancel(c: nat) | Fill(c: nat, payload: int)
    | SendBegin(c: nat) | SendEnd(check: bool)
    | ScanOne(opens: bool) | ScanEnd
    | CheckBegin | ReapOne(reap: bool) | ReapEnd
    | ExitBegin | ExitBump | ExitWake

  ghost predicate Shaped(cfg: Config, w: World) {
    && |w.chans| == |w.onboard| == cfg.slots
    && |w.mem| == cfg.chunks
    && L.Shape(w.books, cfg.chunks, cfg.slots)
    && (forall i | 0 <= i < cfg.slots :: Sized(cfg, w.chans[i]) && w.chans[i].done.tail <= w.chans[i].done.head)
  }

  /** The liveness check takes back a slot exactly when it finds its process dead; for one
      that died before writing its pid that takes a second, so it may have to wait. */
  ghost predicate SeenDead(w: World, k: nat)
    requires k < |w.chans| == |w.onboard|
  {
    var ch := w.chans[k];
    !ch.reader.alive && (w.onboard[k] || ((ch.state == Claimed || ch.state == Active) && ch.pid))
  }

  ghost predicate Can(cfg: Config, w: World, step: Step)
    requires Shaped(cfg, w)
  {
    match step
    case Sub(i, act) => i < cfg.slots && SubCan(cfg, w.chans[i], act)
    case Deliver(move) => w.pc.Sending? && w.pc.todo != [] && w.pc.todo[0] < cfg.slots && PubCan(w.pc.at, move)
                         && w.pc.entry.chunk < cfg.chunks
    case LoanBegin => w.pc == Idle && |w.loaned| < cfg.maxLoans
    case DrainOne => w.pc.Draining? && w.pc.todo != [] && w.pc.todo[0] < cfg.slots
    case LoanTake => w.pc == Draining([]) && w.books.free != []
    case LoanRescue => w.pc == Draining([]) && w.books.free == []
    case Cancel(c) => w.pc == Idle && c in w.loaned
    case Fill(c, _) => w.pc == Idle && c in w.loaned && c < cfg.chunks
    case SendBegin(c) => w.pc == Idle && c in w.loaned && c < cfg.chunks
    case SendEnd(_) => w.pc.Sending? && w.pc.todo == [] && w.pc.entry.chunk < cfg.chunks
    case ScanOne(opens) => w.pc.Scanning? && w.pc.next < cfg.slots && (w.chans[w.pc.next].reader.alive ==> opens)
    case ScanEnd => w.pc.Scanning? && w.pc.next == cfg.slots
    case CheckBegin => w.pc == Idle
    case ReapOne(reap) => w.pc.Reaping? && w.pc.next < cfg.slots && (reap ==> Reclaimable(w.chans[w.pc.next]))
                          && (SeenDead(w, w.pc.next) ==> reap)
    case ReapEnd => w.pc.Reaping? && w.pc.next == cfg.slots
    case ExitBegin => w.pc == Idle
    case ExitBump => w.pc.Exiting? && w.pc.next < cfg.slots && !w.pc.bumped
    case ExitWake => w.pc.Exiting? && w.pc.next < cfg.slots && w.pc.bumped
  }

  /** The onboarded slots, the Block ones last. */
  function ActiveList(w: World): seq<nat>
    requires |w.onboard| == |w.chans|
  {
    Pass(w, false, |w.chans|) + Pass(w, true, |w.chans|)
  }

  function Pass(w: World, blocking: bool, n: nat): seq<nat>
    requires n <= |w.chans| == |w.onboard|
  {
    if n == 0 then []
    else Pass(w, blocking, n - 1)
         + (if w.onboard[n - 1] && (w.chans[n - 1].policy == Block) == blocking then [n - 1] else [])
  }

  function PutChan(w: World, i: nat, ch: Chan): World
    requires i < |w.chans|
  {
    w.(chans := w.chans[i := ch])
  }

  /** reclaim_slot(): the subscriber is gone, so nobody else touches the slot meanwhile. */
  function ReclaimSlot(cfg: Config, w: World, k: nat): World
    requires Shaped(cfg, w) && k < cfg.slots
  {
    PutChan(w.(books := L.Reclaim(w.books, k, Undrained(w.chans[k].done)), onboard := w.onboard[k := false]),
            k, Recycled(w.chans[k]))
  }

  /** drain_done(): entries below the loaded done_head cannot change any more. */
  function DrainSlot(cfg: Config, w: World, k: nat): World
    requires Shaped(cfg, w) && k < cfg.slots
  {
    PutChan(w.(books := L.ReleaseAll(w.books, k, Undrained(w.chans[k].done))), k, Drained(w.chans[k]))
  }

  /** One slot of scan_slots(): onboard a new subscriber if its process can be opened, take
      back one that left. Opening may still succeed for a process that has just died. */
  function ScanSlot(cfg: Config, w: World, k: nat, seqno: nat, opens: bool): World
    requires Shaped(cfg, w) && k < cfg.slots
  {
    var ch := w.chans[k];
    if ch.state == Active && !w.onboard[k] then
      if !opens then ReclaimSlot(cfg, w, k)
      else PutChan(w.(onboard := w.onboard[k := true]), k, ch.(first := seqno))
    else if ch.state == Closing then ReclaimSlot(cfg, w, k)
    else w
  }

  /** The first send a subscriber onboarded now takes part in. */
  function FirstSeq(w: World, goal: Goal): nat {
    if goal.ForSend? then goal.entry.seqno else w.nextSeq
  }

  function TakeFree(w: World): World
    requires w.books.free != []
  {
    var n := |w.books.free| - 1;
    w.(books := w.books.(free := w.books.free[..n]), loaned := w.loaned + {w.books.free[n]}, pc := Idle)
  }

  function ApplyEffect(l: L.Ledger, s: nat, effect: Effect): L.Ledger
    requires s < |l.out| && |l.out[s]| == |l.refs|
    requires effect.Ref? ==> effect.c < |l.refs|
  {
    match effect
    case NoEffect => l
    case Unref(c) => L.ReleaseRef(l, s, c)
    case Ref(c) => L.AddRef(l, s, c)
  }

  function AfterDeliver(pc: PubPc, to: Where): PubPc
    requires pc.Sending? && pc.todo != []
  {
    match to
    case Next(at) => pc.(at := at)
    case Return => Sending(pc.entry, pc.todo[1..], LoadTail)
  }

  /** A subscriber's wake can reach the publisher asleep in deliver(). */
  function WokenPc(pc: PubPc, i: nat, act: SubAct): PubPc {
    if WakesPublisher(act) && pc.Sending? && pc.todo != [] && pc.todo[0] == i && pc.at.BlockAsleep?
    then pc.(at := BlockClear)
    else pc
  }

  function Do(cfg: Config, w: World, step: Step): World
    requires Shaped(cfg, w) && Can(cfg, w, step)
  {
    match step
    case Sub(i, act) =>
      PutChan(w.(pc := WokenPc(w.pc, i, act)), i, SubDo(cfg, w.mem, w.pc.Exiting?, w.chans[i], act))
    case Deliver(move) =>
      var s := w.pc.todo[0];
      var o := PubDo(cfg, w.chans[s], w.pc.entry, w.pc.at, move);
      PutChan(w.(books := ApplyEffect(w.books, s, EffectOf(o, w.pc.entry)), pc := AfterDeliver(w.pc, o.to)), s, o.ch)
    case LoanBegin => w.(pc := Draining(w.list))
    case DrainOne => DrainSlot(cfg, w, w.pc.todo[0]).(pc := Draining(w.pc.todo[1..]))
    case LoanTake => TakeFree(w)
    case LoanRescue => w.(pc := Scanning(0, ForLoan))
    case Cancel(c) => w.(loaned := w.loaned - {c}, books := L.Free(w.books, c))
    case Fill(c, payload) => w.(mem := w.mem[c := w.mem[c].(payload := payload)])
    case SendBegin(c) =>
      w.(loaned := w.loaned - {c}, nextSeq := w.nextSeq + 1, mem := w.mem[c := w.mem[c].(seqno := w.nextSeq)],
         pc := Scanning(0, ForSend(Entry(c, w.nextSeq, w.mem[c].payload))))
    case SendEnd(check) =>
      var c := w.pc.entry.chunk;
      w.(books := if w.books.refs[c] == 0 then L.Free(w.books, c) else w.books,
         pc := if check then Scanning(0, ForCheck) else Idle)
    case ScanOne(opens) =>
      ScanSlot(cfg, w, w.pc.next, FirstSeq(w, w.pc.goal), opens).(pc := Scanning(w.pc.next + 1, w.pc.goal))
    case ScanEnd =>
      var w' := w.(list := ActiveList(w));
      (match w.pc.goal
       case ForSend(e) => w'.(pc := Sending(e, w'.list, LoadTail))
       case ForLoan => if w'.books.free == [] then w'.(failures := w'.failures + 1, pc := Idle) else TakeFree(w')
       case ForCheck => w'.(pc := Reaping(0)))
    case CheckBegin => w.(pc := Scanning(0, ForCheck))
    case ReapOne(reap) =>
      (if reap then ReclaimSlot(cfg, w, w.pc.next) else w).(pc := Reaping(w.pc.next + 1))
    case ReapEnd => w.(list := ActiveList(w), pc := Idle)
    case ExitBegin => w.(pc := Exiting(0, false))
    case ExitBump => PutChan(w.(pc := w.pc.(bumped := true)), w.pc.next, Channel.ExitBump(w.chans[w.pc.next]))
    case ExitWake => PutChan(w.(pc := Exiting(w.pc.next + 1, false)), w.pc.next, WakeReader(w.chans[w.pc.next]))
  }

  /** deliver() only ever raises the count of the chunk it was given. */
  function EffectOf(o: Outcome, e: Entry): Effect {
    if o.effect.Ref? then Ref(e.chunk) else o.effect
  }

  // ---------------------------------------------------------------------------
  // Runs
  // ---------------------------------------------------------------------------

  ghost predicate Init(cfg: Config, w: World) {
    && Shaped(cfg, w)
    && w.pc == Idle && w.loaned == {} && w.nextSeq == 1 && w.failures == 0 && w.list == []
    && w.books.free == seq(cfg.chunks, k requires 0 <= k < cfg.chunks => cfg.chunks - 1 - k)
    && (forall c | 0 <= c < cfg.chunks :: w.books.refs[c] == 0)
    && (forall s, c | 0 <= s < cfg.slots && 0 <= c < cfg.chunks :: w.books.out[s][c] == 0)
    && (forall i | 0 <= i < cfg.slots ::
          && !w.onboard[i]
          && w.chans[i] == Chan(Free, false, w.chans[i].policy, BlankRing(w.chans[i].ring.buf),
                                DoneRing(w.chans[i].done.buf, 0, 0), Futex(0, false), Futex(0, false),
                                Stats(0, 0, 0, 0), NoReader, [], 0, {}, 0))
  }

  /** `run` starts in an initial state and every next state is some step of the last. */
  ghost predicate IsRun(cfg: Config, run: seq<World>, steps: seq<Step>) {
    && |run| == |steps| + 1
    && Init(cfg, run[0])
    && (forall k | 0 <= k < |steps| :: IsStep(cfg, run[k], steps[k], run[k + 1]))
  }

  ghost predicate IsStep(cfg: Config, w: World, step: Step, w': World) {
    Shaped(cfg, w) && Can(cfg, w, step) && w' == Do(cfg, w, step)
  }
}
