/**
 The sample FIFO under preemption. The SPI interrupt has the higher priority: a frame may
 be handled between any two statements of the timer interrupt. The FIFO still is a bounded
 queue of 31 items, and every step of the two handlers is one step of that queue.
 */
module FifoRace {
  import opened Arithmetic
  import opened Firmware

  /** Where the timer handler is. */
  datatype TimerPc =
    | Idle
    | Sampled(value: nat)               // read seq_counter for the value
    | GotNext(value: nat, next: nat)    // computed the next head
    | Numbering(value: nat, next: nat)  // saw room
    | Storing(value: nat, next: nat)    // stored the number, raised seq_counter
    | Publishing(next: nat)             // stored the value
    | Reading                           // about to compare head and tail for DATA_READY
    | Writing(up: bool)                 // about to drive DATA_READY

  /** `ticks`, `numbered` and `dropped` are the history since the last START. */
  datatype Race = Race(f: Fifo, control: bool, pc: TimerPc, ticks: nat, numbered: nat, dropped: nat)

  datatype Step = Fire | Advance | Command(cmd: nat, v: nat)

  predicate IsStart(cmd: nat, v: nat) { cmd == WRITE_FLAG + REG_CONTROL && v % 2 == 1 }

  /** START comes only between samples: the supervisor stops acquisition first. */
  predicate Can(r: Race, step: Step) {
    match step
    case Fire => r.pc == Idle
    case Advance => r.pc != Idle
    case Command(cmd, v) => IsStart(cmd, v) ==> r.pc == Idle
  }

  function AdvanceTimer(r: Race): Race
    requires FifoShape(r.f) && r.pc != Idle
  {
    var f := r.f;
    match r.pc
    case Sampled(value) => r.(pc := GotNext(value, (f.head + 1) % DEPTH))
    case GotNext(value, next) =>
      if next == f.tail then r.(f := f.(overflow := (f.overflow + 1) % TWO32), dropped := r.dropped + 1, pc := Reading)
      else r.(pc := Numbering(value, next))
    case Numbering(value, next) =>
      r.(f := f.(buf := f.buf[f.head := f.buf[f.head].(sequence := f.seqCounter)],
                 seqCounter := (f.seqCounter + 1) % TWO32),
         numbered := r.numbered + 1, pc := Storing(value, next))
    case Storing(value, next) =>
      r.(f := f.(buf := f.buf[f.head := f.buf[f.head].(value := value)]), pc := Publishing(next))
    case Publishing(next) => r.(f := f.(head := next), pc := Reading)
    case Reading => r.(pc := Writing(!Empty(f)))
    case Writing(up) => r.(f := f.(pin := up), pc := Idle)
  }

  /** A whole frame, handled in one go. */
  function RunCommand(r: Race, cmd: nat, v: nat): Race
    requires FifoShape(r.f)
  {
    var r' := r.(f := FifoAfter(r.f, cmd, v),
                 control := if cmd == WRITE_FLAG + REG_CONTROL then v % 2 == 1 else r.control);
    if IsStart(cmd, v) then r'.(ticks := 0, numbered := 0, dropped := 0) else r'
  }

  function Do(r: Race, step: Step): Race
    requires FifoShape(r.f) && Can(r, step)
  {
    match step
    case Fire => if r.control then r.(ticks := r.ticks + 1, pc := Sampled(r.f.seqCounter % 0x1_0000)) else r
    case Advance => AdvanceTimer(r)
    case Command(cmd, v) => RunCommand(r, cmd, v)
  }

  // ---------------------------------------------------------------------------
  // The bounded queue
  // ---------------------------------------------------------------------------

  /** What the FIFO is for: `made` counts the items ever queued, `dropped` the ones that
      found 31 items ahead of them. */
  datatype Bounded = Bounded(items: seq<Item>, made: nat, dropped: nat)

  datatype Act = Stutter | Enqueue | Drop | Dequeue | Clear

  function ItemNo(n: nat): Item { Item(n % TWO32, n % TWO32 % 0x1_0000) }

  ghost predicate ActCan(q: Bounded, act: Act) {
    match act
    case Enqueue => |q.items| < DEPTH - 1
    case Drop => |q.items| == DEPTH - 1
    case Dequeue => q.items != []
    case _ => true
  }

  ghost function ActDo(q: Bounded, act: Act): Bounded
    requires ActCan(q, act)
  {
    match act
    case Stutter => q
    case Enqueue => q.(items := q.items + [ItemNo(q.made)], made := q.made + 1)
    case Drop => q.(dropped := q.dropped + 1)
    case Dequeue => q.(items := q.items[1..])
    case Clear => Bounded([], 0, 0)
  }

  /** Numbered but not yet visible. */
  ghost predicate Pending(pc: TimerPc) { pc.Storing? || pc.Publishing? }

  ghost function Made(r: Race): int { r.numbered - (if Pending(r.pc) then 1 else 0) }

  ghost function Abs(r: Race): Bounded
    requires FifoShape(r.f) && 0 <= Made(r)
  {
    Bounded(Queue(r.f), Made(r), r.dropped)
  }

  /** The step of the queue each step of the handlers is. */
  ghost function ActOf(r: Race, step: Step): Act {
    match step
    case Fire => Stutter
    case Advance =>
      if r.pc.Publishing? then Enqueue
      else if r.pc.GotNext? && r.pc.next == r.f.tail then Drop
      else Stutter
    case Command(cmd, v) =>
      if IsStart(cmd, v) then Clear
      else if cmd == REG_DATA_VAL && !Empty(r.f) then Dequeue
      else Stutter
  }

  // ---------------------------------------------------------------------------
  // The invariant
  // ---------------------------------------------------------------------------

  ghost predicate PcInv(r: Race) {
    var f := r.f;
    && (r.pc.Sampled? || r.pc.GotNext? || r.pc.Numbering? ==> r.pc.value == f.seqCounter % 0x1_0000)
    && (r.pc.GotNext? || r.pc.Numbering? || r.pc.Storing? || r.pc.Publishing? ==> r.pc.next == (f.head + 1) % DEPTH)
    && (r.pc.Numbering? || r.pc.Storing? || r.pc.Publishing? ==> r.pc.next != f.tail)
  }

  /** The slot being filled. */
  ghost predicate SlotInv(r: Race)
    requires FifoShape(r.f)
  {
    Pending(r.pc) ==>
      && 0 < r.numbered
      && r.f.buf[r.f.head].sequence == (r.numbered - 1) % TWO32
      && (r.pc.Storing? ==> r.pc.value == (r.numbered - 1) % TWO32 % 0x1_0000)
      && (r.pc.Publishing? ==> r.f.buf[r.f.head] == ItemNo(r.numbered - 1))
  }

  /** Everything the history says about the counters. */
  ghost predicate CountInv(r: Race) {
    && r.f.seqCounter == r.numbered % TWO32
    && r.f.overflow == r.dropped % TWO32
    && r.ticks == r.numbered + r.dropped
                  + (if r.pc.Sampled? || r.pc.GotNext? || r.pc.Numbering? then 1 else 0)
  }

  /** The last items made are the ones queued. */
  ghost predicate Latest(items: seq<Item>, made: nat) {
    |items| <= made && forall i | 0 <= i < |items| :: items[i] == ItemNo(made - |items| + i)
  }

  ghost predicate PeekInv(f: Fifo)
    requires FifoShape(f)
  {
    f.peeked ==> !Empty(f) && Item(f.lastSeq, f.lastVal) == f.buf[f.tail]
  }

  /** DATA_READY is never left low while something is queued. */
  ghost predicate LineUp(r: Race) {
    match r.pc
    case Reading => true
    case Writing(up) => !Empty(r.f) ==> up
    case _ => !Empty(r.f) ==> r.f.pin
  }

  ghost predicate RaceInv(r: Race) {
    && FifoShape(r.f)
    && PcInv(r)
    && SlotInv(r)
    && CountInv(r)
    && 0 <= Made(r) && Latest(Queue(r.f), Made(r))
    && PeekInv(r.f)
    && LineUp(r)
  }

  // ---------------------------------------------------------------------------
  // One step of the timer handler
  // ---------------------------------------------------------------------------

  /** Filling the slot at the head changes nothing that is queued. */
  lemma HeadSlotIsHidden(f: Fifo, f': Fifo)
    requires FifoShape(f) && |f'.buf| == DEPTH
    requires f' == f.(buf := f.buf[f.head := f'.buf[f.head]], seqCounter := f'.seqCounter)
    ensures FifoShape(f') && Queue(f') == Queue(f) && (!Empty(f) ==> f'.buf[f.tail] == f.buf[f.tail])
  {
    forall i | 0 <= i < Level(f)
      ensures Queue(f')[i] == Queue(f)[i]
    {
      assert (f.tail + i) % DEPTH != f.head;
    }
  }

  /** Moving the head makes the slot visible. */
  lemma PublishQueues(f: Fifo, next: nat)
    requires FifoShape(f) && next == (f.head + 1) % DEPTH && next != f.tail
    ensures FifoShape(f.(head := next)) && Level(f) < DEPTH - 1 && !Empty(f.(head := next))
    ensures Queue(f.(head := next)) == Queue(f) + [f.buf[f.head]]
  {
    var f' := f.(head := next);
    assert Level(f') == Level(f) + 1;
    forall i | 0 <= i < Level(f')
      ensures Queue(f')[i] == (Queue(f) + [f.buf[f.head]])[i]
    {
      if i == Level(f) { assert (f.tail + i) % DEPTH == f.head; }
    }
  }

  lemma LatestGrows(items: seq<Item>, made: nat)
    requires Latest(items, made)
    ensures Latest(items + [ItemNo(made)], made + 1)
  {
  }

  lemma LatestShrinks(items: seq<Item>, made: nat)
    requires Latest(items, made) && items != []
    ensures Latest(items[1..], made)
  {
  }

  lemma FullWhenNextIsTail(f: Fifo)
    requires FifoShape(f) && (f.head + 1) % DEPTH == f.tail
    ensures Level(f) == DEPTH - 1
  {
  }

  lemma BumpCounter(n: nat)
    ensures (n % TWO32 + 1) % TWO32 == (n + 1) % TWO32
  {
  }

  lemma StoreRefines(r: Race, r': Race)
    requires RaceInv(r) && (r.pc.Numbering? || r.pc.Storing?) && r' == AdvanceTimer(r)
    ensures RaceInv(r') && Abs(r') == Abs(r)
  {
    HeadSlotIsHidden(r.f, r'.f);
    BumpCounter(r.numbered);
    hide Queue;
  }

  lemma PublishRefines(r: Race, r': Race)
    requires RaceInv(r) && r.pc.Publishing? && r' == AdvanceTimer(r)
    ensures RaceInv(r') && ActCan(Abs(r), Enqueue) && Abs(r') == ActDo(Abs(r), Enqueue)
  {
    PublishQueues(r.f, r.pc.next);
    LatestGrows(Queue(r.f), Made(r));
    hide Queue, Latest, ItemNo;
  }

  lemma DropRefines(r: Race, r': Race)
    requires RaceInv(r) && r.pc.GotNext? && r.pc.next == r.f.tail && r' == AdvanceTimer(r)
    ensures RaceInv(r') && ActCan(Abs(r), Drop) && Abs(r') == ActDo(Abs(r), Drop)
  {
    FullWhenNextIsTail(r.f);
    BumpCounter(r.dropped);
    assert Queue(r'.f) == Queue(r.f);
    hide Queue, Latest;
  }

  lemma QuietAdvanceRefines(r: Race, r': Race)
    requires RaceInv(r) && r.pc != Idle && r' == AdvanceTimer(r)
    requires r.pc.Sampled? || r.pc.Reading? || r.pc.Writing? || (r.pc.GotNext? && r.pc.next != r.f.tail)
    ensures RaceInv(r') && Abs(r') == Abs(r)
  {
    assert Queue(r'.f) == Queue(r.f);
    hide Queue, Latest;
  }

  lemma AdvanceRefines(r: Race, r': Race)
    requires RaceInv(r) && r.pc != Idle && r' == AdvanceTimer(r)
    ensures RaceInv(r') && ActCan(Abs(r), ActOf(r, Advance)) && Abs(r') == ActDo(Abs(r), ActOf(r, Advance))
  {
    if r.pc.Numbering? || r.pc.Storing? {
      StoreRefines(r, r');
    } else if r.pc.Publishing? {
      PublishRefines(r, r');
    } else if r.pc.GotNext? && r.pc.next == r.f.tail {
      DropRefines(r, r');
    } else {
      QuietAdvanceRefines(r, r');
    }
    hide RaceInv, AdvanceTimer, Queue;
  }

  // ---------------------------------------------------------------------------
  // One frame, at any point of the timer handler
  // ---------------------------------------------------------------------------

  lemma TakeOldest(f: Fifo)
    requires FifoShape(f) && PeekInv(f) && !Empty(f)
    ensures
      var g := ReadVal(f);
      && g == f.(tail := (f.tail + 1) % DEPTH, lastSeq := g.lastSeq, lastVal := g.lastVal, peeked := false, pin := g.pin)
      && FifoShape(g) && g.pin == !Empty(g)
      && Queue(g) == Queue(f)[1..] && ValResponse(f) == Queue(f)[0].value
  {
    var g := if f.peeked then f.(peeked := false) else Peek(f);
    SameQueue(f, g);
    PopDequeues(g);
    SameQueue(PopOne(g), SetPin(PopOne(g)));
    hide Queue;
  }

  lemma PopRefines(r: Race, r': Race, v: nat)
    requires RaceInv(r) && !Empty(r.f) && r' == RunCommand(r, REG_DATA_VAL, v)
    ensures RaceInv(r') && ActCan(Abs(r), Dequeue) && Abs(r') == ActDo(Abs(r), Dequeue)
  {
    hide Queue, Latest, ItemNo, ReadVal;
    TakeOldest(r.f);
    LatestShrinks(Queue(r.f), Made(r));
    TailStaysApart(r.f.head, r.f.tail);
  }

  /** Taking an item leaves the room the timer handler has already seen. */
  lemma TailStaysApart(head: nat, tail: nat)
    requires head < DEPTH && tail < DEPTH && head != tail
    ensures (head + 1) % DEPTH != (tail + 1) % DEPTH
  {
  }

  lemma StartRefines(r: Race, r': Race, v: nat)
    requires RaceInv(r) && r.pc == Idle && v % 2 == 1 && r' == RunCommand(r, WRITE_FLAG + REG_CONTROL, v)
    ensures RaceInv(r') && Abs(r') == ActDo(Abs(r), Clear)
  {
    assert Queue(r'.f) == [];
    hide Queue;
  }

  /** The other commands at most look at the FIFO or redrive the line. */
  lemma OtherCommandRefines(r: Race, r': Race, cmd: nat, v: nat)
    requires RaceInv(r) && r' == RunCommand(r, cmd, v) && !IsStart(cmd, v) && (cmd == REG_DATA_VAL ==> Empty(r.f))
    ensures RaceInv(r') && Abs(r') == Abs(r)
  {
    SameQueue(r.f, r'.f);
    hide Queue, Latest, ItemNo;
  }

  lemma CommandRefines(r: Race, r': Race, cmd: nat, v: nat)
    requires RaceInv(r) && Can(r, Command(cmd, v)) && r' == RunCommand(r, cmd, v)
    ensures RaceInv(r') && ActCan(Abs(r), ActOf(r, Command(cmd, v)))
    ensures Abs(r') == ActDo(Abs(r), ActOf(r, Command(cmd, v)))
  {
    if IsStart(cmd, v) {
      StartRefines(r, r', v);
    } else if cmd == REG_DATA_VAL && !Empty(r.f) {
      PopRefines(r, r', v);
    } else {
      OtherCommandRefines(r, r', cmd, v);
    }
    hide RaceInv, RunCommand, Queue;
  }

  /** Every step of the preempted handlers is a step of the bounded queue. */
  lemma StepRefines(r: Race, step: Step, r': Race)
    requires RaceInv(r) && Can(r, step) && r' == Do(r, step)
    ensures RaceInv(r') && ActCan(Abs(r), ActOf(r, step)) && Abs(r') == ActDo(Abs(r), ActOf(r, step))
  {
    match step
    case Fire =>
      assert Queue(r'.f) == Queue(r.f);
      hide Queue, Latest, AdvanceTimer, RunCommand;
    case Advance => AdvanceRefines(r, r');
    case Command(cmd, v) => CommandRefines(r, r', cmd, v);
  }

  /** And the answers are the queue's: DATA_SEQ shows the oldest item's number, DATA_VAL
      its value, both zero when there is none. */
  lemma AnswersAreTheOldest(r: Race)
    requires RaceInv(r)
    ensures
      var items := Abs(r).items;
      && (Empty(r.f) <==> items == [])
      && (items != [] ==> r.f.buf[r.f.tail].sequence == items[0].sequence && ValResponse(r.f) == items[0].value)
      && (items == [] ==> ValResponse(r.f) == 0)
      && Level(r.f) == |items|
  {
    if !Empty(r.f) { PopDequeues(r.f); }
  }

  // ---------------------------------------------------------------------------
  // Runs
  // ---------------------------------------------------------------------------

  ghost predicate Init(r: Race) {
    && FifoShape(r.f) && Empty(r.f) && !r.f.peeked
    && r.f.seqCounter == 0 && r.f.overflow == 0 && !r.control && r.pc == Idle
    && r.ticks == r.numbered == r.dropped == 0
  }

  ghost predicate IsRun(run: seq<Race>, steps: seq<Step>) {
    && |run| == |steps| + 1
    && Init(run[0])
    && forall k | 0 <= k < |steps| :: FifoShape(run[k].f) && Can(run[k], steps[k]) && run[k + 1] == Do(run[k], steps[k])
  }

  lemma {:induction false} RunKeepsInv(run: seq<Race>, steps: seq<Step>, k: nat)
    requires IsRun(run, steps) && k < |run|
    ensures RaceInv(run[k])
  {
    if k > 0 {
      RunKeepsInv(run, steps, k - 1);
      assert run[k - 1 + 1] == Do(run[k - 1], steps[k - 1]);
      StepRefines(run[k - 1], steps[k - 1], run[k]);
    }
  }

  /** Between samples, in every run: what is queued is the latest samples made, numbered
      consecutively modulo 2^32 up to just below the counter, each value the low half of
      its number; and every tick since START was either numbered or counted as overflow. */
  lemma FifoMeansQueue(run: seq<Race>, steps: seq<Step>, k: nat)
    requires IsRun(run, steps) && k < |run| && run[k].pc == Idle
    ensures
      var r := run[k];
      && FifoShape(r.f)
      && Numbered(Queue(r.f), r.f.seqCounter)
      && r.ticks == r.numbered + r.dropped
      && r.f.seqCounter == r.numbered % TWO32 && r.f.overflow == r.dropped % TWO32
      && (!Empty(r.f) ==> r.f.pin)
  {
    RunKeepsInv(run, steps, k);
    LatestIsNumbered(Queue(run[k].f), run[k].numbered);
    hide Queue;
  }

  lemma LatestIsNumbered(items: seq<Item>, made: nat)
    requires Latest(items, made)
    ensures Numbered(items, made % TWO32)
  {
    forall i | 0 <= i < |items|
      ensures items[i].sequence == (made % TWO32 - (|items| - i)) % TWO32
    {
      ModShift(made, |items| - i);
    }
  }

  // ---------------------------------------------------------------------------
  // Without preemption
  // ---------------------------------------------------------------------------

  /** The rest of the timer handler, nobody coming in between. */
  ghost function Finish(r: Race, fuel: nat): Race
    requires FifoShape(r.f)
    decreases fuel
  {
    if r.pc == Idle || fuel == 0 then r
    else
      var r' := AdvanceTimer(r);
      if FifoShape(r'.f) then Finish(r', fuel - 1) else r'
  }

  /** Left alone, the statements of the handler together are one tick of `Firmware`. */
  lemma TickAlone(r: Race)
    requires FifoShape(r.f) && r.pc == Idle
    ensures
      var end := Finish(Do(r, Fire), 7);
      && end.pc == Idle && end.control == r.control
      && end.f == if r.control then SetPin(Push(r.f, r.f.seqCounter % 0x1_0000)) else r.f
  {
    if r.control {
      var r1 := AdvanceTimer(Do(r, Fire));
      var r2 := AdvanceTimer(r1);
      assert Finish(Do(r, Fire), 7) == Finish(r1, 6) == Finish(r2, 5);
      if r2.pc == Reading {
        PinAlone(r2, 5);
      } else {
        StoreAlone(r2);
      }
    }
  }

  lemma StoreAlone(r: Race)
    requires FifoShape(r.f) && r.pc.Numbering? && r.pc.next < DEPTH
    ensures
      var f := r.f;
      var g := f.(buf := f.buf[f.head := Item(f.seqCounter, r.pc.value)], seqCounter := (f.seqCounter + 1) % TWO32,
                  head := r.pc.next);
      FifoShape(g) && Finish(r, 5) == r.(f := SetPin(g), numbered := r.numbered + 1, pc := Idle)
  {
    var r1 := AdvanceTimer(r);
    var r2 := AdvanceTimer(r1);
    var r3 := AdvanceTimer(r2);
    assert Finish(r, 5) == Finish(r1, 4) == Finish(r2, 3) == Finish(r3, 2);
    PinAlone(r3, 2);
  }

  lemma PinAlone(r: Race, fuel: nat)
    requires FifoShape(r.f) && r.pc == Reading && 2 <= fuel
    ensures Finish(r, fuel) == r.(f := SetPin(r.f), pc := Idle)
  {
    var r1 := AdvanceTimer(r);
    var r2 := AdvanceTimer(r1);
    assert Finish(r, fuel) == Finish(r1, fuel - 1) == Finish(r2, fuel - 2);
  }

  // ---------------------------------------------------------------------------
  // The DATA_READY line
  // ---------------------------------------------------------------------------

  /** Frames handled between the read and the write of the line. */
  function RunCommands(r: Race, cmds: seq<(nat, nat)>): Race
    requires FifoShape(r.f)
    decreases |cmds|
  {
    if cmds == [] then r
    else
      var r' := RunCommand(r, cmds[0].0, cmds[0].1);
      CommandShape(r, cmds[0].0, cmds[0].1);
      RunCommands(r', cmds[1..])
  }

  lemma CommandShape(r: Race, cmd: nat, v: nat)
    requires FifoShape(r.f)
    ensures FifoShape(RunCommand(r, cmd, v).f)
  {
  }

  function Pops(cmds: seq<(nat, nat)>): nat {
    if cmds == [] then 0 else (if cmds[0].0 == REG_DATA_VAL then 1 else 0) + Pops(cmds[1..])
  }

  ghost predicate NoStart(cmds: seq<(nat, nat)>) {
    forall k | 0 <= k < |cmds| :: !IsStart(cmds[k].0, cmds[k].1)
  }

  lemma {:induction false} CommandsPop(r: Race, cmds: seq<(nat, nat)>)
    requires FifoShape(r.f) && PeekInv(r.f) && NoStart(cmds)
    ensures
      var r' := RunCommands(r, cmds);
      && FifoShape(r'.f) && r'.pc == r.pc
      && Level(r'.f) == if Pops(cmds) <= Level(r.f) then Level(r.f) - Pops(cmds) else 0
    decreases |cmds|
  {
    if cmds != [] {
      var cmd, v := cmds[0].0, cmds[0].1;
      assert !IsStart(cmd, v);
      CommandPops(r, cmd, v);
      assert NoStart(cmds[1..]);
      CommandsPop(RunCommand(r, cmd, v), cmds[1..]);
    }
  }

  lemma CommandPops(r: Race, cmd: nat, v: nat)
    requires FifoShape(r.f) && PeekInv(r.f) && !IsStart(cmd, v)
    ensures
      var r' := RunCommand(r, cmd, v);
      && FifoShape(r'.f) && PeekInv(r'.f) && r'.pc == r.pc
      && Level(r'.f) == if cmd == REG_DATA_VAL && Level(r.f) > 0 then Level(r.f) - 1 else Level(r.f)
  {
  }

  /** The handler reads the indices and then drives the line, and a frame may come in
      between. The line then shows whether anything is queued exactly when fewer samples
      were taken in between than were queued at the read. */
  lemma LineIsRightIff(r: Race, cmds: seq<(nat, nat)>)
    requires RaceInv(r) && r.pc == Reading && NoStart(cmds)
    ensures
      var read := AdvanceTimer(r);
      var end := RunCommands(read, cmds);
      && FifoShape(end.f) && end.pc.Writing?
      && (AdvanceTimer(end).f.pin == !Empty(AdvanceTimer(end).f)
          <==> Level(r.f) == 0 || Pops(cmds) < Level(r.f))
  {
    var read := AdvanceTimer(r);
    CommandsPop(read, cmds);
    hide RunCommands, Pops;
  }

  ghost predicate Reachable(r: Race) {
    exists run, steps :: IsRun(run, steps) && run[|run| - 1] == r
  }

  lemma Extend(r: Race, step: Step)
    requires Reachable(r) && FifoShape(r.f) && Can(r, step)
    ensures Reachable(Do(r, step))
  {
    hide Init, Do;
    var run, steps :| IsRun(run, steps) && run[|run| - 1] == r;
    var run', steps' := run + [Do(r, step)], steps + [step];
    assert IsRun(run', steps') && run'[|run'| - 1] == Do(r, step);
  }

  lemma StartIsReachable(r: Race)
    requires Init(r)
    ensures Reachable(Do(r, Command(WRITE_FLAG + REG_CONTROL, 1)))
  {
    assert IsRun([r], []) && [r][|[r]| - 1] == r;
    Extend(r, Command(WRITE_FLAG + REG_CONTROL, 1));
  }

  /** From START to the first sample in the FIFO, the line still to be driven. */
  lemma FirstSample(r: Race) returns (end: Race)
    requires Reachable(r) && FifoShape(r.f) && r.control && r.pc == Idle && r.f.head == r.f.tail == 0 && !r.f.peeked
    ensures Reachable(end) && FifoShape(end.f) && end.pc == Writing(true)
    ensures end.f.head == 1 && end.f.tail == 0 && !end.f.peeked && end.control
  {
    hide Reachable;
    Extend(r, Fire);
    end := Do(r, Fire);
    Extend(end, Advance);
    end := AdvanceTimer(end);
    Extend(end, Advance);
    end := AdvanceTimer(end);
    Extend(end, Advance);
    end := AdvanceTimer(end);
    Extend(end, Advance);
    end := AdvanceTimer(end);
    Extend(end, Advance);
    end := AdvanceTimer(end);
    Extend(end, Advance);
    end := AdvanceTimer(end);
  }

  /** Otherwise it is stuck high with an empty FIFO: here one sample, taken by a frame that
      comes between the read and the write. */
  lemma LineCanStickHigh(r: Race) returns (end: Race)
    requires Init(r)
    ensures Reachable(end) && end.pc == Idle && FifoShape(end.f) && Empty(end.f) && end.f.pin && end.control
  {
    hide Reachable;
    StartIsReachable(r);
    end := FirstSample(Do(r, Command(WRITE_FLAG + REG_CONTROL, 1)));
    Extend(end, Command(REG_DATA_VAL, 0));
    end := RunCommand(end, REG_DATA_VAL, 0);
    Extend(end, Advance);
    end := AdvanceTimer(end);
  }

  // ---------------------------------------------------------------------------
  // Stuck high
  // ---------------------------------------------------------------------------

  /** Without an edge the driver starts no pass, so nobody takes a sample or starts or stops
      acquisition; other clients may read what they like. */
  predicate Quiet(step: Step) { step.Command? ==> step.cmd != REG_DATA_VAL && step.cmd != WRITE_FLAG + REG_CONTROL }

  ghost predicate StuckHigh(r: Race) { r.f.pin && (r.pc == Reading ==> !Empty(r.f)) && (r.pc.Writing? ==> r.pc.up) }

  lemma QuietKeepsHigh(r: Race, step: Step, r': Race)
    requires RaceInv(r) && StuckHigh(r) && Quiet(step) && Can(r, step) && r' == Do(r, step)
    ensures StuckHigh(r') && ActOf(r, step) in {Stutter, Enqueue, Drop}
  {
    if step.Advance? { LevelOfNext(r); }
    hide Queue, Latest;
  }

  lemma LevelOfNext(r: Race)
    requires RaceInv(r)
    ensures r.pc.Publishing? ==> !Empty(r.f.(head := r.pc.next))
    ensures r.pc.GotNext? && r.pc.next == r.f.tail ==> !Empty(r.f)
  {
    hide Queue, Latest;
  }

  ghost predicate IsQuietRun(run: seq<Race>, steps: seq<Step>) {
    && |run| == |steps| + 1
    && Reachable(run[0]) && run[0].pc == Idle && FifoShape(run[0].f) && Empty(run[0].f) && run[0].f.pin
    && forall k | 0 <= k < |steps| ::
         FifoShape(run[k].f) && Can(run[k], steps[k]) && Quiet(steps[k]) && run[k + 1] == Do(run[k], steps[k])
  }

  lemma ReachableInv(r: Race)
    requires Reachable(r)
    ensures RaceInv(r)
  {
    hide RaceInv, Init, Do;
    var run, steps :| IsRun(run, steps) && run[|run| - 1] == r;
    RunKeepsInv(run, steps, |run| - 1);
  }

  lemma {:induction false} QuietRunKeeps(run: seq<Race>, steps: seq<Step>, k: nat)
    requires IsQuietRun(run, steps) && k < |run|
    ensures RaceInv(run[k]) && StuckHigh(run[k]) && RaceInv(run[0])
    ensures |Abs(run[k]).items| == Made(run[k]) - Made(run[0])
  {
    hide Reachable;
    ReachableInv(run[0]);
    if k == 0 {
      EmptyQueue(run[0].f);
      hide Queue;
    } else {
      QuietRunKeeps(run, steps, k - 1);
      hide RaceInv, StuckHigh, Do, Queue;
      assert run[k - 1 + 1] == Do(run[k - 1], steps[k - 1]);
      StepRefines(run[k - 1], steps[k - 1], run[k]);
      QuietKeepsHigh(run[k - 1], steps[k - 1], run[k]);
    }
  }

  lemma EmptyQueue(f: Fifo)
    requires FifoShape(f) && Empty(f)
    ensures Queue(f) == []
  {
  }

  /** Once the line is stuck high over an empty FIFO it never falls, so it never rises again:
      no edge, no pass. Of the samples taken from then on at most 31 wait in the FIFO, and
      all the others are dropped. */
  lemma StuckHighIsSilent(run: seq<Race>, steps: seq<Step>, k: nat)
    requires IsQuietRun(run, steps) && k < |run|
    ensures run[k].f.pin
    ensures run[k].pc == Idle ==>
              && FifoShape(run[k].f) && Level(run[k].f) <= DEPTH - 1
              && run[k].ticks - run[0].ticks == Level(run[k].f) + (run[k].dropped - run[0].dropped)
  {
    QuietRunKeeps(run, steps, k);
    AnswersAreTheOldest(run[k]);
    hide Queue, IsQuietRun, Latest;
  }
}
