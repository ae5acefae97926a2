/**
 A drained sample is put together from two register reads, DATA_SEQ and DATA_VAL, each of
 which may fail and be retried. As long as nobody else takes samples or restarts
 acquisition, every drained sample is one sample the firmware made, in order, and each
 failed DATA_VAL loses at most one.
 */
module Pairing {
  import opened Arithmetic
  import opened Firmware
  import R = Registers
  import opened Drain
  import opened Subsequence

  /** What became of a sample the MCU handed out. */
  datatype Fate = Delivered | Lost | InFlight

  /** `made`: the samples in the FIFO at the start and those produced since. `taken`: those
      that left the FIFO, with their `fate`. `drained`: what the drain loop put together.
      `valErrors`: its failed DATA_VAL reads. */
  datatype Book = Book(
    sys: Sys, made: seq<Item>, taken: seq<Item>, fate: seq<Fate>, drained: seq<Item>, valErrors: nat)

  /** No other client reads DATA_VAL or starts acquisition. */
  predicate Polite(step: Step) {
    step.Reg? && step.step.Acquire? && step.step.client != DRIVER ==>
      step.step.cmd != REG_DATA_VAL && !(step.step.cmd == WRITE_FLAG + REG_CONTROL && step.step.data % 2 == 1)
  }

  // ---------------------------------------------------------------------------
  // Keeping the books
  // ---------------------------------------------------------------------------

  /** The sample a tick puts into the FIFO, if any. */
  ghost function Produced(l: R.Line, r: R.Step): seq<Item>
    requires McuShape(l.mcu)
  {
    if r == R.Meanwhile(R.TimerTick) then NewItem(l.mcu) else []
  }

  ghost function NewItem(m: Mcu): seq<Item>
    requires McuShape(m)
  {
    if m.control && Level(m.fifo) < DEPTH - 1 then [Item(m.fifo.seqCounter, m.fifo.seqCounter % 0x1_0000)] else []
  }

  /** The sample a heard DATA_VAL command takes out, if any. */
  ghost function Removed(l: R.Line, r: R.Step): seq<Item>
    requires McuShape(l.mcu) && R.Can(l, r)
  {
    if r.SendFirst? && R.Heard(r.outcome) && l.lock.op.cmd == REG_DATA_VAL && !Empty(l.mcu.fifo)
    then [Queue(l.mcu.fifo)[0]] else []
  }

  /** The driver's DATA_VAL read returns with this step. */
  ghost predicate ValReturns(s: Sys, l': R.Line) { s.pass.AtVal? && Returns(s.line, l') }

  ghost function Settle(fate: seq<Fate>, ok: bool): seq<Fate> {
    if fate != [] && fate[|fate| - 1] == InFlight
    then fate[|fate| - 1 := if ok then Delivered else Lost] else fate
  }

  ghost function Record(b: Book, step: Step): Book
    requires LineReady(b.sys.line) && Can(b.sys, step)
  {
    var s' := Do(b.sys, step);
    match step
    case Begin => b.(sys := s')
    case Reg(r) =>
      var l, l' := b.sys.line, R.Do(b.sys.line, r);
      var fate1 := b.fate + seq(|Removed(l, r)|, _ => InFlight);
      var b1 := b.(sys := s', made := b.made + Produced(l, r), taken := b.taken + Removed(l, r), fate := fate1);
      if ValReturns(b.sys, l') then
        (match l'.finished[|l'.finished| - 1].result
         case Ok(v) => b1.(drained := b.drained + [Item(b.sys.pass.seqno, v)], fate := Settle(fate1, true))
         case Eio => b1.(valErrors := b.valErrors + 1, fate := Settle(fate1, false)))
      else b1
  }

  /** The samples that were delivered, in order. */
  ghost function Chosen(taken: seq<Item>, fate: seq<Fate>): seq<Item>
    requires |taken| == |fate|
  {
    if taken == [] then []
    else
      var n := |taken| - 1;
      Chosen(taken[..n], fate[..n]) + (if fate[n] == Delivered then [taken[n]] else [])
  }

  ghost function Losses(fate: seq<Fate>): nat {
    if fate == [] then 0
    else Losses(fate[..|fate| - 1]) + (if fate[|fate| - 1] == Lost then 1 else 0)
  }

  // ---------------------------------------------------------------------------
  // The invariant
  // ---------------------------------------------------------------------------

  /** The driver's DATA_VAL command has been carried out and its answer is on the way. */
  ghost predicate ValInFlight(s: Sys) {
    && s.pass.AtVal? && s.line.lock.Locked? && s.line.lock.op.client == DRIVER
    && s.line.lock.phase.Second? && s.line.lock.phase.heard
  }

  /** The last answer still describes the FIFO. */
  ghost predicate AnswerInv(a: R.Answer, f: Fifo)
    requires FifoShape(f)
  {
    && (a.cmd == REG_FIFO_LEVEL && a.value > 0 ==> !Empty(f))
    && (a.cmd == REG_DATA_SEQ && f.peeked ==> !Empty(f) && a.value == Queue(f)[0].sequence)
  }

  /** What the drain loop relies on between its reads. */
  ghost predicate LoopInv(s: Sys, a: R.Answer)
    requires FifoShape(s.line.mcu.fifo)
  {
    var f := s.line.mcu.fifo;
    && (s.pass.AtSeq? ==> !Empty(f) && (a.cmd == REG_DATA_SEQ ==> f.peeked))
    && (s.pass.AtVal? && !ValInFlight(s) ==>
          !Empty(f) && Queue(f)[0].sequence == s.pass.seqno && a.cmd != REG_DATA_VAL)
  }

  ghost predicate OthersInv(l: R.Line) {
    l.lock.Locked? && l.lock.op.client != DRIVER ==>
      l.lock.op.cmd != REG_DATA_VAL && !(l.lock.op.cmd == WRITE_FLAG + REG_CONTROL && l.lock.op.data % 2 == 1)
  }

  /** Every delivered sample was put together right; the lost ones are accounted for; at most
      the last one taken is still in flight, and then it is the sample `x`. */
  ghost predicate FateOk(taken: seq<Item>, fate: seq<Fate>, drained: seq<Item>, errors: nat, flying: bool, x: Item) {
    && |fate| == |taken|
    && drained == Chosen(taken, fate)
    && Losses(fate) <= errors
    && (forall k | 0 <= k < |fate| :: fate[k] == InFlight ==> k == |fate| - 1 && flying)
    && (flying ==> fate != [] && fate[|fate| - 1] == InFlight && taken[|taken| - 1] == x)
  }

  /** The sample the driver is fetching the value of. */
  ghost function Flying(s: Sys): Item {
    if ValInFlight(s) then Item(s.pass.seqno, s.line.lock.phase.answer) else Item(0, 0)
  }

  ghost predicate FateInv(b: Book) {
    FateOk(b.taken, b.fate, b.drained, b.valErrors, ValInFlight(b.sys), Flying(b.sys))
  }

  ghost predicate StreamInv(b: Book)
    requires FifoShape(b.sys.line.mcu.fifo)
  {
    b.made == b.taken + Queue(b.sys.line.mcu.fifo) && Numbered(b.made, b.sys.line.mcu.fifo.seqCounter)
  }

  ghost predicate PairInv(b: Book) {
    && DrainInv(b.sys)
    && LineReady(b.sys.line) && R.TxIsLast(b.sys.line)
    && AnswerInv(LastAnswer(b.sys.line), b.sys.line.mcu.fifo)
    && LoopInv(b.sys, LastAnswer(b.sys.line))
    && OthersInv(b.sys.line)
    && FateInv(b)
    && StreamInv(b)
  }

  // ---------------------------------------------------------------------------
  // The FIFO
  // ---------------------------------------------------------------------------

  /** A tick appends at most one sample and never disturbs the oldest. */
  lemma TickAppends(m: Mcu)
    requires McuShape(m) && FifoInv(m.fifo)
    ensures FifoShape(Tick(m).fifo) && Queue(Tick(m).fifo) == Queue(m.fifo) + NewItem(m)
    ensures Tick(m).fifo.seqCounter == if NewItem(m) == [] then m.fifo.seqCounter else (m.fifo.seqCounter + 1) % TWO32
    ensures Tick(m).fifo.peeked == m.fifo.peeked
  {
    var f := m.fifo;
    if m.control {
      var g := Push(f, f.seqCounter % 0x1_0000);
      PushQueues(f, f.seqCounter % 0x1_0000);
      SameQueue(g, SetPin(g));
      PushKeepsPeek(f, f.seqCounter % 0x1_0000);
    }
    hide Queue;
  }

  /** Any command but START: only DATA_VAL takes anything out, and the answers are the
      oldest sample's. */
  lemma CommandTakes(m: Mcu, cmd: nat, data: nat)
    requires McuShape(m) && FifoInv(m.fifo) && cmd < 256 && data < TWO32
    requires !(cmd == WRITE_FLAG + REG_CONTROL && data % 2 == 1)
    ensures
      var f, f' := m.fifo, FifoAfter(m.fifo, cmd, data);
      var v := Execute(m, cmd, data).value;
      && FifoShape(f') && f'.seqCounter == f.seqCounter
      && Queue(f') == (if cmd == REG_DATA_VAL && !Empty(f) then Queue(f)[1..] else Queue(f))
      && (cmd == REG_DATA_SEQ && !Empty(f) ==> f'.peeked && v == Queue(f)[0].sequence)
      && (cmd == REG_DATA_SEQ && Empty(f) ==> f' == f)
      && (cmd == REG_DATA_VAL && !Empty(f) ==> v == Queue(f)[0].value)
      && (cmd == REG_FIFO_LEVEL ==> v == Level(f))
      && (cmd != REG_DATA_SEQ && cmd != REG_DATA_VAL ==> f'.peeked == f.peeked)
  {
    var f := m.fifo;
    ReadSeqKeeps(f);
    ReadValTakesOldest(f);
    SameQueue(f, SetPin(f));
    if !Empty(f) { PopDequeues(f); }
    hide Queue, McuShape, ReadVal, ValResponse, FifoInv;
  }

  lemma AnswerAfterTick(a: R.Answer, m: Mcu)
    requires McuShape(m) && FifoInv(m.fifo) && AnswerInv(a, m.fifo)
    ensures FifoShape(Tick(m).fifo) && AnswerInv(a, Tick(m).fifo)
  {
    TickAppends(m);
    hide Tick, McuShape;
  }

  lemma AnswerAfterCommand(m: Mcu, cmd: nat, data: nat)
    requires McuShape(m) && FifoInv(m.fifo) && cmd < 256 && data < TWO32
    requires !(cmd == WRITE_FLAG + REG_CONTROL && data % 2 == 1)
    ensures FifoShape(FifoAfter(m.fifo, cmd, data))
    ensures AnswerInv(R.Answer(cmd, Execute(m, cmd, data).value), FifoAfter(m.fifo, cmd, data))
  {
    CommandTakes(m, cmd, data);
    hide McuShape, Execute, FifoAfter;
  }

  // ---------------------------------------------------------------------------
  // What a protocol step is, seen from here
  // ---------------------------------------------------------------------------

  /** The last answer after a step. */
  lemma AnswerAfter(l: R.Line, r: R.Step)
    requires LineReady(l) && R.Can(l, r) && l.answers != []
    ensures
      var l' := R.Do(l, r);
      && l'.answers != []
      && LastAnswer(l') ==
         (if r.SendFirst? && R.Heard(r.outcome) then
            R.Answer(l.lock.op.cmd, Execute(l.mcu, l.lock.op.cmd, l.lock.op.data).value)
          else if r.SendSecond? && R.Heard(r.outcome) then R.Answer(REG_NOP, 0)
          else LastAnswer(l))
  {
    NopAnswersZero(l.mcu);
    hide McuShape, HandleFrame, Execute, Pack;
  }

  lemma NopAnswersZero(m: Mcu)
    requires McuShape(m)
    ensures Execute(m, REG_NOP, 0).value == 0
  {
  }

  ghost predicate NoStart(l: R.Line) {
    l.lock.Locked? ==> !(l.lock.op.cmd == WRITE_FLAG + REG_CONTROL && l.lock.op.data % 2 == 1)
  }

  /** What one step does to the queue, and to the latch and the last answer. */
  ghost predicate QueueMoved(l: R.Line, r: R.Step, l': R.Line)
    requires LineReady(l) && R.Can(l, r) && McuShape(l'.mcu)
  {
    var f, f' := l.mcu.fifo, l'.mcu.fifo;
    && Queue(f') == Queue(f)[|Removed(l, r)|..] + Produced(l, r)
    && f'.seqCounter == (if Produced(l, r) == [] then f.seqCounter else (f.seqCounter + 1) % TWO32)
  }

  ghost predicate AnswerMoved(l: R.Line, r: R.Step, l': R.Line)
    requires LineReady(l) && R.Can(l, r) && McuShape(l'.mcu) && l.answers != [] && l'.answers != []
  {
    var f, f' := l.mcu.fifo, l'.mcu.fifo;
    && AnswerInv(LastAnswer(l'), f')
    && (Removed(l, r) == [] ==> (LastAnswer(l') == LastAnswer(l) && f'.peeked == f.peeked)
                                || LastAnswer(l') == R.Answer(REG_NOP, 0)
                                || (r.SendFirst? && R.Heard(r.outcome) && LastAnswer(l').cmd == l.lock.op.cmd))
    && (r.SendFirst? && R.Heard(r.outcome) && l.lock.op.cmd == REG_DATA_SEQ && !Empty(f) ==> f'.peeked)
  }

  ghost predicate Moved(l: R.Line, r: R.Step, l': R.Line)
    requires LineReady(l) && R.Can(l, r) && McuShape(l'.mcu) && l.answers != [] && l'.answers != []
  {
    QueueMoved(l, r, l') && AnswerMoved(l, r, l')
  }

  lemma StepMoves(l: R.Line, r: R.Step, l': R.Line)
    requires LineReady(l) && R.Can(l, r) && l' == R.Do(l, r) && McuShape(l'.mcu) && l.answers != []
    requires FifoInv(l.mcu.fifo) && AnswerInv(LastAnswer(l), l.mcu.fifo) && NoStart(l)
    ensures l'.answers != [] && Moved(l, r, l')
  {
    StepFifo(l, r);
    AnswerAfter(l, r);
    if r.SendFirst? && R.Heard(r.outcome) {
      CommandMoves(l, r, l');
    } else if r == R.Meanwhile(R.TimerTick) {
      TickAppends(l.mcu);
      AnswerAfterTick(LastAnswer(l), l.mcu);
      hide McuShape, Tick, Queue;
      assert Queue(l.mcu.fifo)[0..] == Queue(l.mcu.fifo);
    } else {
      hide McuShape, Queue;
      assert l'.mcu.fifo == l.mcu.fifo;
      assert Queue(l.mcu.fifo)[0..] + [] == Queue(l.mcu.fifo);
    }
  }

  lemma CommandMoves(l: R.Line, r: R.Step, l': R.Line)
    requires LineReady(l) && R.Can(l, r) && McuShape(l'.mcu) && l.answers != [] && l'.answers != []
    requires FifoInv(l.mcu.fifo) && NoStart(l) && r.SendFirst? && R.Heard(r.outcome)
    requires l'.mcu.fifo == FifoAfter(l.mcu.fifo, l.lock.op.cmd, l.lock.op.data)
    requires LastAnswer(l') == R.Answer(l.lock.op.cmd, Execute(l.mcu, l.lock.op.cmd, l.lock.op.data).value)
    ensures Moved(l, r, l')
  {
    hide McuShape, Execute, FifoAfter, Queue, AnswerInv, FifoInv, QueueMoved;
    CommandQueue(l, r, l');
    CommandTakes(l.mcu, l.lock.op.cmd, l.lock.op.data);
    AnswerAfterCommand(l.mcu, l.lock.op.cmd, l.lock.op.data);
  }

  lemma CommandQueue(l: R.Line, r: R.Step, l': R.Line)
    requires LineReady(l) && R.Can(l, r) && McuShape(l'.mcu)
    requires FifoInv(l.mcu.fifo) && NoStart(l) && r.SendFirst? && R.Heard(r.outcome)
    requires l'.mcu.fifo == FifoAfter(l.mcu.fifo, l.lock.op.cmd, l.lock.op.data)
    ensures QueueMoved(l, r, l')
  {
    assert FifoShape(l.mcu.fifo);
    hide McuShape, Execute, FifoAfter, Queue, FifoInv;
    CommandTakes(l.mcu, l.lock.op.cmd, l.lock.op.data);
    EmptyIsEmpty(l.mcu.fifo);
    var q := Queue(l.mcu.fifo);
    if Removed(l, r) == [] {
      assert q[0..] + [] == q;
    } else {
      assert q[1..] + [] == q[1..];
    }
  }

  // ---------------------------------------------------------------------------
  // The stream of samples
  // ---------------------------------------------------------------------------

  /** The books after a step, field by field. */
  lemma RecordFields(b: Book, r: R.Step, b': Book)
    requires LineReady(b.sys.line) && Can(b.sys, Reg(r)) && b' == Record(b, Reg(r))
    ensures b'.sys == Do(b.sys, Reg(r)) && b'.sys.line == R.Do(b.sys.line, r)
    ensures b'.made == b.made + Produced(b.sys.line, r) && b'.taken == b.taken + Removed(b.sys.line, r)
    ensures
      var fate := b.fate + seq(|Removed(b.sys.line, r)|, _ => InFlight);
      if ValReturns(b.sys, b'.sys.line) then
        var result := b'.sys.line.finished[|b'.sys.line.finished| - 1].result;
        && b'.fate == Settle(fate, result.Ok?)
        && b'.drained == b.drained + (if result.Ok? then [Item(b.sys.pass.seqno, result.value)] else [])
        && b'.valErrors == b.valErrors + (if result.Ok? then 0 else 1)
      else b'.fate == fate && b'.drained == b.drained && b'.valErrors == b.valErrors
  {
    hide R.Do, R.Can, McuShape, Removed, Produced, Settle;
    LoopStays(b.sys, r, b'.sys);
  }

  lemma StreamMoves(made: seq<Item>, taken: seq<Item>, q: seq<Item>, gone: seq<Item>, news: seq<Item>, q': seq<Item>)
    requires made == taken + q && |gone| <= |q| && gone == q[..|gone|] && q' == q[|gone|..] + news
    ensures made + news == taken + gone + q'
  {
  }

  lemma RemovedIsFront(l: R.Line, r: R.Step)
    requires McuShape(l.mcu) && R.Can(l, r)
    ensures |Removed(l, r)| <= |Queue(l.mcu.fifo)| && Removed(l, r) == Queue(l.mcu.fifo)[..|Removed(l, r)|]
  {
  }

  lemma {:induction false} StreamKeeps(b: Book, r: R.Step, b': Book)
    requires PairInv(b) && Can(b.sys, Reg(r)) && b' == Record(b, Reg(r))
    requires McuShape(b'.sys.line.mcu) && b'.sys.line.answers != [] && Moved(b.sys.line, r, b'.sys.line)
    ensures StreamInv(b')
  {
    assert FifoShape(b.sys.line.mcu.fifo) && FifoShape(b'.sys.line.mcu.fifo);
    hide DrainInv, AnswerInv, LoopInv, OthersInv, FateInv, Numbered, R.Do, R.Can, McuShape, Queue, Record, Removed, R.TxIsLast;
    var l, l' := b.sys.line, b'.sys.line;
    RecordFields(b, r, b');
    RemovedIsFront(l, r);
    StreamMoves(b.made, b.taken, Queue(l.mcu.fifo), Removed(l, r), Produced(l, r), Queue(l'.mcu.fifo));
    if Produced(l, r) != [] { MadeGrows(b.made, l.mcu); }
    else { assert b'.made == b.made; }
  }

  lemma MadeGrows(made: seq<Item>, m: Mcu)
    requires McuShape(m) && Numbered(made, m.fifo.seqCounter)
    ensures NewItem(m) != [] ==> Numbered(made + NewItem(m), (m.fifo.seqCounter + 1) % TWO32)
  {
    NumberedPush(made, m.fifo.seqCounter);
  }

  // ---------------------------------------------------------------------------
  // The loop
  // ---------------------------------------------------------------------------

  /** A heard command of another client, or of the driver outside DATA_VAL, takes nothing. */
  lemma NothingRemoved(s: Sys, r: R.Step)
    requires LineReady(s.line) && R.Can(s.line, r) && HolderInv(s) && OthersInv(s.line) && !s.pass.AtVal?
    ensures Removed(s.line, r) == []
  {
    hide McuShape;
  }

  lemma SeqStays(s: Sys, r: R.Step, s': Sys)
    requires LineReady(s.line) && Can(s, Reg(r)) && s' == Do(s, Reg(r)) && s.line.answers != []
    requires McuShape(s'.line.mcu) && s'.line.answers != [] && Moved(s.line, r, s'.line)
    requires HolderInv(s) && OthersInv(s.line) && LoopInv(s, LastAnswer(s.line))
    requires s.pass.AtSeq? && s'.pass == s.pass
    ensures LoopInv(s', LastAnswer(s'.line))
  {
    LoopStays(s, r, s');
    NothingRemoved(s, r);
    hide McuShape, R.Do, Do;
    EmptyIsEmpty(s.line.mcu.fifo);
    EmptyIsEmpty(s'.line.mcu.fifo);
  }

  lemma EmptyIsEmpty(f: Fifo)
    requires FifoShape(f)
    ensures Empty(f) <==> Queue(f) == []
  {
  }

  lemma ValStays(s: Sys, r: R.Step, s': Sys)
    requires LineReady(s.line) && Can(s, Reg(r)) && s' == Do(s, Reg(r)) && s.line.answers != []
    requires McuShape(s'.line.mcu) && s'.line.answers != [] && Moved(s.line, r, s'.line)
    requires HolderInv(s) && OthersInv(s.line) && LoopInv(s, LastAnswer(s.line))
    requires s.pass.AtVal? && !Returns(s.line, s'.line)
    ensures LoopInv(s', LastAnswer(s'.line))
  {
    LoopStays(s, r, s');
    LockMoves(s.line, r, s'.line);
    EmptyIsEmpty(s.line.mcu.fifo);
    EmptyIsEmpty(s'.line.mcu.fifo);
    HeardIsInFlight(s, r, s');
    hide McuShape, R.Do, Do, Queue;
  }

  /** The driver's DATA_VAL, once heard, is in flight until it returns. */
  lemma HeardIsInFlight(s: Sys, r: R.Step, s': Sys)
    requires LineReady(s.line) && Can(s, Reg(r)) && s' == Do(s, Reg(r))
    requires HolderInv(s) && OthersInv(s.line) && s.pass.AtVal? && !Returns(s.line, s'.line) && s'.pass == s.pass
    ensures ValInFlight(s) ==> ValInFlight(s') && s'.line.lock == s.line.lock
    ensures Removed(s.line, r) != [] ==> ValInFlight(s')
    ensures r.SendFirst? && R.Heard(r.outcome) && s.line.lock.op.cmd == REG_DATA_VAL ==> ValInFlight(s')
    ensures !ValInFlight(s) && ValInFlight(s') ==>
              r == R.SendFirst(R.Done)
              && s'.line.lock.phase.answer == Execute(s.line.mcu, REG_DATA_VAL, s.line.lock.op.data).value
  {
    hide McuShape, HandleFrame, Execute, Pack;
  }

  /** The driver's read returns: the loop moves on with what the MCU really said. */
  lemma LoopMovesOn(s: Sys, r: R.Step, s': Sys)
    requires LineReady(s.line) && Can(s, Reg(r)) && s' == Do(s, Reg(r)) && R.TxIsLast(s.line)
    requires McuShape(s'.line.mcu) && s'.line.answers != [] && Moved(s.line, r, s'.line)
    requires HolderInv(s) && LoopInv(s, LastAnswer(s.line)) && AnswerInv(LastAnswer(s.line), s.line.mcu.fifo)
    requires Returns(s.line, s'.line)
    ensures LoopInv(s', LastAnswer(s'.line))
  {
    hide McuShape, R.Do, Do, Queue, Moved, R.Can, FifoStep, Pack;
    LoopStays(s, r, s');
    LockMoves(s.line, r, s'.line);
    ReturnedValue(s.line, r, s'.line);
    if r == R.SendSecond(R.Done) {
      AnswerAfter(s.line, r);
      SecondLeavesFifo(s.line, r);
    }
  }

  lemma LoopKeeps(b: Book, r: R.Step, b': Book)
    requires PairInv(b) && Can(b.sys, Reg(r)) && b' == Record(b, Reg(r))
    requires McuShape(b'.sys.line.mcu) && b'.sys.line.answers != [] && Moved(b.sys.line, r, b'.sys.line)
    ensures LoopInv(b'.sys, LastAnswer(b'.sys.line))
  {
    hide R.LineOk, LineInv, R.Do, Moved, McuShape, AnswerInv, OthersInv, FateInv, StreamInv, Pack, Settle;
    var s, s' := b.sys, b'.sys;
    LoopStays(s, r, s');
    if Returns(s.line, s'.line) {
      LoopMovesOn(s, r, s');
    } else if s.pass.AtSeq? {
      SeqStays(s, r, s');
    } else if s.pass.AtVal? {
      ValStays(s, r, s');
    }
  }

  // ---------------------------------------------------------------------------
  // Fates
  // ---------------------------------------------------------------------------

  lemma ChosenGrows(taken: seq<Item>, fate: seq<Fate>, x: Item, d: Fate)
    requires |taken| == |fate|
    ensures Chosen(taken + [x], fate + [d]) == Chosen(taken, fate) + (if d == Delivered then [x] else [])
    ensures Losses(fate + [d]) == Losses(fate) + (if d == Lost then 1 else 0)
  {
    assert (taken + [x])[..|taken|] == taken && (fate + [d])[..|fate|] == fate;
  }

  /** A sample leaves the FIFO, its answer on the way. */
  lemma TakeOff(taken: seq<Item>, fate: seq<Fate>, drained: seq<Item>, errors: nat, x0: Item, x: Item)
    requires FateOk(taken, fate, drained, errors, false, x0)
    ensures FateOk(taken + [x], fate + [InFlight], drained, errors, true, x)
  {
    ChosenGrows(taken, fate, x, InFlight);
    hide Chosen, Losses;
  }

  /** The answer arrives, or does not. */
  lemma Land(taken: seq<Item>, fate: seq<Fate>, drained: seq<Item>, errors: nat, x: Item, x0: Item)
    requires FateOk(taken, fate, drained, errors, true, x)
    ensures FateOk(taken, Settle(fate, true), drained + [x], errors, false, x0)
    ensures FateOk(taken, Settle(fate, false), drained, errors + 1, false, x0)
  {
    var n := |fate| - 1;
    assert Settle(fate, true)[..n] == fate[..n] && Settle(fate, false)[..n] == fate[..n];
    assert Chosen(taken, fate) == Chosen(taken[..n], fate[..n]);
  }

  /** The three ways a step can touch the samples taken. */
  lemma FateKeeps(b: Book, r: R.Step, b': Book)
    requires PairInv(b) && Can(b.sys, Reg(r)) && b' == Record(b, Reg(r))
    ensures FateInv(b')
  {
    hide R.LineOk, LineInv, R.Do, McuShape, AnswerInv, FateInv, StreamInv, R.TxIsLast, Settle, LoopInv, HolderInv, OthersInv;
    var s, s' := b.sys, b'.sys;
    LoopStays(s, r, s');
    if ValReturns(s, s'.line) {
      LineOkReady(s.line);
      FateAtReturn(b, r, b');
    } else if s.pass.AtVal? {
      FateInVal(b, r, b');
    } else {
      FateElsewhere(b, r, b');
    }
  }

  lemma FateElsewhere(b: Book, r: R.Step, b': Book)
    requires PairInv(b) && Can(b.sys, Reg(r)) && b' == Record(b, Reg(r)) && !b.sys.pass.AtVal?
    ensures FateInv(b')
  {
    NothingRemoved(b.sys, r);
    LoopStays(b.sys, r, b'.sys);
    NotYetInFlight(b.sys, r, b'.sys);
    hide R.LineOk, LineInv, R.Do, McuShape, AnswerInv, StreamInv, R.TxIsLast, Settle, LoopInv, R.Can, Removed;
    assert b'.taken == b.taken && b'.fate == b.fate;
    hide FateOk;
  }

  lemma NotYetInFlight(s: Sys, r: R.Step, s': Sys)
    requires LineReady(s.line) && Can(s, Reg(r)) && s' == Do(s, Reg(r)) && !s.pass.AtVal?
    ensures !ValInFlight(s')
  {
    hide McuShape, HandleFrame, Execute, Pack;
  }

  /** What leaves the FIFO for the driver is the sample whose number it has read. */
  lemma RemovedIsExpected(s: Sys, r: R.Step, s': Sys)
    requires LineReady(s.line) && Can(s, Reg(r)) && s' == Do(s, Reg(r)) && s.line.answers != []
    requires HolderInv(s) && OthersInv(s.line) && LoopInv(s, LastAnswer(s.line)) && s.pass.AtVal?
    requires FifoInv(s.line.mcu.fifo) && !Returns(s.line, s'.line) && s'.pass == s.pass
    ensures Removed(s.line, r) != [] ==>
              !ValInFlight(s) && ValInFlight(s') && Removed(s.line, r) == [Flying(s')]
    ensures Removed(s.line, r) == [] ==> ValInFlight(s') == ValInFlight(s) && Flying(s') == Flying(s)
  {
    HeardIsInFlight(s, r, s');
    if Removed(s.line, r) != [] { CommandTakes(s.line.mcu, REG_DATA_VAL, s.line.lock.op.data); }
    hide McuShape, R.Do, Do, Queue, Execute, FifoAfter;
  }

  lemma FateInVal(b: Book, r: R.Step, b': Book)
    requires PairInv(b) && Can(b.sys, Reg(r)) && b' == Record(b, Reg(r))
    requires b.sys.pass.AtVal? && !Returns(b.sys.line, b'.sys.line)
    ensures FateInv(b')
  {
    hide R.LineOk, R.Do, McuShape, AnswerInv, StreamInv, Pack, Settle, LoopInv, R.Can, Removed, FateOk, Do, Record;
    RecordFields(b, r, b');
    var s, s' := b.sys, b'.sys;
    LoopStays(s, r, s');
    RemovedIsExpected(s, r, s');
    if Removed(s.line, r) != [] {
      assert b'.taken == b.taken + [Flying(s')] && b'.fate == b.fate + [InFlight];
      TakeOff(b.taken, b.fate, b.drained, b.valErrors, Flying(s), Flying(s'));
    } else {
      assert b'.taken == b.taken && b'.fate == b.fate;
    }
  }

  /** When the driver's DATA_VAL returns a value it is the one in flight. */
  lemma ReturnIsFlying(s: Sys, r: R.Step, s': Sys)
    requires LineReady(s.line) && Can(s, Reg(r)) && s' == Do(s, Reg(r)) && R.TxIsLast(s.line) && R.LockInv(s.line)
    requires HolderInv(s) && LoopInv(s, LastAnswer(s.line)) && ValReturns(s, s'.line)
    ensures !ValInFlight(s')
    ensures ValInFlight(s) ==> Removed(s.line, r) == []
    ensures
      var f := s'.line.finished[|s'.line.finished| - 1];
      f.result.Ok? ==> ValInFlight(s) && Item(s.pass.seqno, f.result.value) == Flying(s)
    ensures |Removed(s.line, r)| <= 1
  {
    LoopStays(s, r, s');
    ReturnedValue(s.line, r, s'.line);
    LockMoves(s.line, r, s'.line);
    hide McuShape, R.Do, Do, Pack, Queue;
  }

  lemma {:induction false} FateAtReturn(b: Book, r: R.Step, b': Book)
    requires LineReady(b.sys.line) && Can(b.sys, Reg(r)) && b' == Record(b, Reg(r)) && ValReturns(b.sys, b'.sys.line)
    requires R.TxIsLast(b.sys.line) && R.LockInv(b.sys.line) && HolderInv(b.sys) && LoopInv(b.sys, LastAnswer(b.sys.line))
    requires FateInv(b)
    ensures FateInv(b')
  {
    hide R.LockInv, R.Do, McuShape, R.TxIsLast, Settle, LoopInv, R.Can, Removed, FateOk, Do, Record, HolderInv, ValInFlight,
         Flying;
    RecordFields(b, r, b');
    var s, s' := b.sys, b'.sys;
    ReturnIsFlying(s, r, s');
    var result := s'.line.finished[|s'.line.finished| - 1].result;
    FateSettles(b.taken, b.fate, b.drained, b.valErrors, Removed(s.line, r), ValInFlight(s), Flying(s), result.Ok?, Flying(s'));
  }

  /** A DATA_VAL read ends, whether or not its command took a sample out. */
  lemma FateSettles(taken: seq<Item>, fate: seq<Fate>, drained: seq<Item>, errors: nat, gone: seq<Item>, flying: bool,
                    x: Item, ok: bool, x0: Item)
    requires FateOk(taken, fate, drained, errors, flying, x)
    requires |gone| <= 1 && (flying ==> gone == []) && (ok ==> flying)
    ensures FateOk(taken + gone, Settle(fate + seq(|gone|, _ => InFlight), ok),
                   drained + (if ok then [x] else []), errors + (if ok then 0 else 1), false, x0)
  {
    hide FateOk, Settle;
    if gone == [] {
      assert taken + gone == taken && fate + seq(|gone|, _ => InFlight) == fate && drained + [] == drained;
      if flying { Land(taken, fate, drained, errors, x, x0); } else { NothingLands(taken, fate, drained, errors, x, x0); }
    } else {
      assert gone == [gone[0]] && seq(|gone|, _ => InFlight) == [InFlight] && drained + [] == drained;
      TakeOff(taken, fate, drained, errors, x, gone[0]);
      Land(taken + [gone[0]], fate + [InFlight], drained, errors, gone[0], x0);
    }
  }

  lemma NothingLands(taken: seq<Item>, fate: seq<Fate>, drained: seq<Item>, errors: nat, x: Item, x0: Item)
    requires FateOk(taken, fate, drained, errors, false, x)
    ensures FateOk(taken, Settle(fate, false), drained, errors + 1, false, x0)
  {
  }

  // ---------------------------------------------------------------------------
  // Every polite run
  // ---------------------------------------------------------------------------

  lemma OthersKeep(s: Sys, r: R.Step, s': Sys)
    requires LineReady(s.line) && Can(s, Reg(r)) && s' == Do(s, Reg(r)) && OthersInv(s.line) && Polite(Reg(r))
    ensures OthersInv(s'.line)
  {
    hide McuShape, HandleFrame, Execute, Pack;
  }

  /** The driver never starts acquisition while it drains. */
  lemma NobodyStarts(s: Sys)
    requires HolderInv(s) && OthersInv(s.line)
    ensures NoStart(s.line)
  {
  }

  lemma RegKeepsPairs(b: Book, r: R.Step, b': Book)
    requires PairInv(b) && Can(b.sys, Reg(r)) && Polite(Reg(r)) && b' == Record(b, Reg(r))
    ensures PairInv(b')
  {
    var s, s' := b.sys, b'.sys;
    RecordFields(b, r, b');
    NobodyStarts(s);
    assert s.line.answers != [] && FifoInv(s.line.mcu.fifo);
    hide R.LineOk, R.Do, McuShape, AnswerInv, StreamInv, LoopInv, R.Can, Do, LineInv, OthersInv, Record, HolderInv, FateInv,
         Moved, Pack;
    RegKeepsInv(s, r, s');
    DrainReady(s');
    StepMoves(s.line, r, s'.line);
    AnswerOf(s.line, r, s'.line);
    LoopKeeps(b, r, b');
    StreamKeeps(b, r, b');
    FateKeeps(b, r, b');
    OthersKeep(s, r, s');
  }

  lemma AnswerOf(l: R.Line, r: R.Step, l': R.Line)
    requires LineReady(l) && R.Can(l, r) && McuShape(l'.mcu) && l.answers != [] && l'.answers != [] && Moved(l, r, l')
    ensures AnswerInv(LastAnswer(l'), l'.mcu.fifo)
  {
    hide McuShape, Queue;
  }

  lemma DrainReady(s: Sys)
    requires DrainInv(s)
    ensures LineReady(s.line) && McuShape(s.line.mcu) && R.TxIsLast(s.line)
  {
  }

  lemma StepKeepsPairs(b: Book, step: Step, b': Book)
    requires PairInv(b) && Can(b.sys, step) && Polite(step) && b' == Record(b, step)
    ensures PairInv(b')
  {
    match step
    case Begin =>
      StepKeepsInv(b.sys, Begin, b'.sys);
      hide R.LineOk, McuShape, LineInv, R.TxIsLast;
    case Reg(r) =>
      hide PairInv, Record;
      RegKeepsPairs(b, r, b');
  }

  // ---------------------------------------------------------------------------
  // Where a polite run may begin
  // ---------------------------------------------------------------------------

  /** The last answer describes the FIFO in every run, polite or not. */
  ghost predicate Described(l: R.Line) {
    LineReady(l) && R.TxIsLast(l) && FifoInv(l.mcu.fifo) && AnswerInv(LastAnswer(l), l.mcu.fifo)
  }

  /** After START the last answer is that of a write, which describes nothing. */
  lemma StartDescribes(a: R.Answer, f: Fifo)
    requires FifoShape(f) && a.cmd == WRITE_FLAG + REG_CONTROL
    ensures AnswerInv(a, f)
  {
  }

  lemma StepDescribes(s: Sys, r: R.Step, s': Sys)
    requires DrainInv(s) && Described(s.line) && DrainInv(s') && Can(s, Reg(r)) && s' == Do(s, Reg(r))
    ensures Described(s'.line)
  {
    var l, l' := s.line, s'.line;
    LoopStays(s, r, s');
    DrainReady(s');
    AnswerAfter(l, r);
    assert FifoInv(l'.mcu.fifo);
    if NoStart(l) || !r.SendFirst? || !R.Heard(r.outcome) {
      hide R.LineOk, R.Do, McuShape, LineInv, Queue, AnswerInv, Do, FifoInv;
      AnswerStays(l, r, l');
    } else {
      hide R.LineOk, R.Do, McuShape, LineInv, Queue, Do, Execute, AnswerInv;
      StartDescribes(LastAnswer(l'), l'.mcu.fifo);
    }
  }

  lemma AnswerStays(l: R.Line, r: R.Step, l': R.Line)
    requires Described(l) && R.Can(l, r) && l' == R.Do(l, r) && McuShape(l'.mcu)
    requires NoStart(l) || !r.SendFirst? || !R.Heard(r.outcome)
    ensures l'.answers != [] && AnswerInv(LastAnswer(l'), l'.mcu.fifo)
  {
    StepFifo(l, r);
    AnswerAfter(l, r);
    if r.SendFirst? && R.Heard(r.outcome) {
      AnswerAfterCommand(l.mcu, l.lock.op.cmd, l.lock.op.data);
    } else if r == R.Meanwhile(R.TimerTick) {
      AnswerAfterTick(LastAnswer(l), l.mcu);
    }
    hide McuShape, Queue, R.Do, Execute, FifoAfter, Tick;
  }

  lemma {:induction false} RunIsDescribed(run: seq<Sys>, steps: seq<Step>, k: nat)
    requires IsRun(run, steps) && k < |run|
    ensures Described(run[k].line)
  {
    RunKeepsInv(run, steps, k);
    if k == 0 {
      DrainReady(run[0]);
    } else {
      RunIsDescribed(run, steps, k - 1);
      RunKeepsInv(run, steps, k - 1);
      assert SysStep(run[k - 1], steps[k - 1], run[k - 1 + 1]);
      hide DrainInv, Init, Described;
      if steps[k - 1].Reg? { StepDescribes(run[k - 1], steps[k - 1].step, run[k]); }
    }
  }

  /** The books may be opened in any reachable state between passes. */
  ghost predicate Opened(b: Book) {
    && Reachable(b.sys) && McuShape(b.sys.line.mcu)
    && b.sys.pass == NoPass && b.sys.line.lock == R.Unlocked
    && b.made == Queue(b.sys.line.mcu.fifo)
    && b.taken == [] && b.fate == [] && b.drained == [] && b.valErrors == 0
  }

  ghost predicate BookStep(b: Book, step: Step, b': Book) {
    LineReady(b.sys.line) && Can(b.sys, step) && Polite(step) && b' == Record(b, step)
  }

  ghost predicate IsPoliteRun(run: seq<Book>, steps: seq<Step>) {
    && |run| == |steps| + 1
    && Opened(run[0])
    && forall k | 0 <= k < |steps| :: BookStep(run[k], steps[k], run[k + 1])
  }

  lemma {:induction false} RunKeepsPairs(run: seq<Book>, steps: seq<Step>, k: nat)
    requires IsPoliteRun(run, steps) && k < |run|
    ensures PairInv(run[k])
  {
    if k == 0 {
      OpenedIsOk(run[0]);
    } else {
      hide PairInv, Opened, LineReady, Can, Record;
      RunKeepsPairs(run, steps, k - 1);
      assert BookStep(run[k - 1], steps[k - 1], run[k - 1 + 1]);
      StepKeepsPairs(run[k - 1], steps[k - 1], run[k]);
    }
  }

  lemma OpenedIsOk(b: Book)
    requires Opened(b)
    ensures PairInv(b)
  {
    ReachableIsOk(b.sys);
    hide Reachable, R.LineOk, McuShape, R.TxIsLast, Numbered, AnswerInv;
    assert b.made == b.taken + Queue(b.sys.line.mcu.fifo);
  }

  /** Such runs exist: once acquisition has been switched on, one can begin. */
  lemma PoliteRunsBegin(s: Sys) returns (b: Book)
    requires Init(s) && !s.latched
    ensures Opened(b) && b.sys.line.mcu.control && Reachable(b.sys)
  {
    var s1 := SwitchOn(s);
    hide Reachable, LineInv, McuShape, Queue;
    b := Book(s1, Queue(s1.line.mcu.fifo), [], [], [], 0);
  }

  lemma ReachableIsOk(s: Sys)
    requires Reachable(s)
    ensures DrainInv(s) && Described(s.line)
  {
    hide DrainInv, Init, SysStep, Described;
    var run, steps :| IsRun(run, steps) && run[|run| - 1] == s;
    RunKeepsInv(run, steps, |run| - 1);
    RunIsDescribed(run, steps, |run| - 1);
  }

  /** In every run in which nobody else takes samples or restarts: the drained samples are,
      number and value, samples the firmware made, in order and none twice; the rest of
      what left the FIFO was lost to failed DATA_VAL reads, at most one each; and what was
      made is what left the FIFO plus what is in it, numbered consecutively. */
  lemma DrainedSamplesAreGenuine(run: seq<Book>, steps: seq<Step>, k: nat)
    requires IsPoliteRun(run, steps) && k < |run|
    ensures
      var b := run[k];
      && |b.fate| == |b.taken| && b.drained == Chosen(b.taken, b.fate)
      && Losses(b.fate) <= b.valErrors
      && FifoShape(b.sys.line.mcu.fifo) && b.made == b.taken + Queue(b.sys.line.mcu.fifo)
      && Numbered(b.made, b.sys.line.mcu.fifo.seqCounter)
      && (b.sys.pass == NoPass ==> |b.taken| == |b.drained| + Losses(b.fate))
  {
    hide IsPoliteRun;
    RunKeepsPairs(run, steps, k);
    hide R.LineOk, McuShape, Queue, Numbered, AnswerInv;
    var b := run[k];
    if b.sys.pass == NoPass { AllSettled(b.taken, b.fate); }
  }

  lemma {:induction false} AllSettled(taken: seq<Item>, fate: seq<Fate>)
    requires |taken| == |fate| && InFlight !in fate
    ensures |taken| == |Chosen(taken, fate)| + Losses(fate)
    decreases |taken|
  {
    if taken != [] {
      var n := |taken| - 1;
      assert fate[n] in fate;
      AllSettled(taken[..n], fate[..n]);
    }
  }

  /** The drained samples sit in order among those taken. */
  lemma {:induction false} ChosenEmbeds(taken: seq<Item>, fate: seq<Fate>) returns (at: seq<nat>)
    requires |taken| == |fate|
    ensures Embeds(Chosen(taken, fate), taken, at)
    decreases |taken|
  {
    if taken == [] {
      at := [];
    } else {
      hide Embeds;
      var n := |taken| - 1;
      at := ChosenEmbeds(taken[..n], fate[..n]);
      Grows(Chosen(taken[..n], fate[..n]), taken[..n], at, taken[n]);
      assert taken[..n] + [taken[n]] == taken;
      if fate[n] == Delivered { at := at + [n]; }
    }
  }
}
