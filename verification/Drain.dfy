/**
 Driver and MCU together: DATA_READY is a level, the interrupt it raises is an edge, and
 the threaded handler drains the MCU's FIFO until it reads an empty level or gives up
 after three failed iterations. Exactly when are samples left behind with no edge to come?
 */
module Drain {
  import opened Arithmetic
  import opened Firmware
  import R = Registers

  const DRAIN_MAX_ERRORS: nat := 3

  /** The drain thread is one client of the register lock. */
  const DRIVER: nat := 0

  /** Where the drain loop is: which register it reads next, and the failed iterations since
      its last whole sample. */
  datatype Pass = NoPass | AtLevel(errors: nat) | AtSeq(errors: nat) | AtVal(errors: nat, seqno: nat)

  datatype Sys = Sys(line: R.Line, pass: Pass, latched: bool)

  datatype Step = Begin | Reg(step: R.Step)

  // ---------------------------------------------------------------------------
  // Steps
  // ---------------------------------------------------------------------------

  /** The register the loop reads at this point. */
  function Wanted(pass: Pass): nat
    requires pass != NoPass
  {
    match pass
    case AtLevel(_) => REG_FIFO_LEVEL
    case AtSeq(_) => REG_DATA_SEQ
    case AtVal(_, _) => REG_DATA_VAL
  }

  ghost predicate Can(s: Sys, step: Step) {
    match step
    case Begin => s.pass == NoPass && s.latched
    case Reg(r) =>
      && R.Can(s.line, r)
      && (r.Acquire? && r.client == DRIVER ==> s.pass != NoPass && r.cmd == Wanted(s.pass))
  }

  function Retry(s: Sys, errors: nat): Sys {
    if errors + 1 < DRAIN_MAX_ERRORS then s.(pass := AtLevel(errors + 1)) else s.(pass := NoPass)
  }

  /** The loop goes on with what its register read returned. */
  function Next(s: Sys, f: R.Finished): Sys
    requires s.pass != NoPass
  {
    match f.result
    case Eio => Retry(s, s.pass.errors)
    case Ok(v) =>
      match s.pass
      case AtLevel(errors) =>
        if v == 0 then s.(pass := NoPass) else s.(pass := AtSeq(errors))
      case AtSeq(errors) => s.(pass := AtVal(errors, v))
      case AtVal(_, _) => s.(pass := AtLevel(0))
  }

  ghost predicate LineReady(l: R.Line) {
    McuShape(l.mcu) && (l.lock.Locked? ==> l.lock.op.cmd < 256 && l.lock.op.data < TWO32)
  }

  /** The driver's operation ended with this step. */
  ghost predicate Returns(l: R.Line, l': R.Line) {
    l.lock.Locked? && l.lock.op.client == DRIVER && l'.lock == R.Unlocked && l'.finished != []
  }

  ghost function Do(s: Sys, step: Step): Sys
    requires LineReady(s.line) && Can(s, step)
  {
    match step
    case Begin => s.(pass := AtLevel(0), latched := false)
    case Reg(r) =>
      var l' := R.Do(s.line, r);
      var s' := s.(line := l', latched := s.latched || (!s.line.mcu.fifo.pin && l'.mcu.fifo.pin));
      if Returns(s.line, l') && s.pass != NoPass then Next(s', l'.finished[|l'.finished| - 1]) else s'
  }

  /** A step that does not end the driver's operation leaves the loop where it is. */
  lemma LoopStays(s: Sys, r: R.Step, s': Sys)
    requires LineReady(s.line) && Can(s, Reg(r)) && s' == Do(s, Reg(r))
    ensures s'.line == R.Do(s.line, r)
    ensures s'.latched == (s.latched || (!s.line.mcu.fifo.pin && s'.line.mcu.fifo.pin))
    ensures !Returns(s.line, s'.line) ==> s'.pass == s.pass
    ensures Returns(s.line, s'.line) && s.pass != NoPass ==>
              s'.pass == Next(s, s'.line.finished[|s'.line.finished| - 1]).pass
  {
    hide R.Do, R.Can, McuShape;
  }

  // ---------------------------------------------------------------------------
  // What a protocol step does to the FIFO
  // ---------------------------------------------------------------------------

  ghost function FifoStep(l: R.Line, step: R.Step): Fifo
    requires McuShape(l.mcu) && R.Can(l, step)
  {
    var f := l.mcu.fifo;
    match step
    case SendFirst(o) => if R.Heard(o) then FifoAfter(f, l.lock.op.cmd, l.lock.op.data) else f
    case Meanwhile(TimerTick) => Tick(l.mcu).fifo
    case _ => f
  }

  lemma HandleFifo(m: Mcu, cmd: nat, data: nat)
    requires McuShape(m) && cmd < 256 && data < TWO32
    ensures HandleFrame(m, Pack(cmd, data)).fifo == FifoAfter(m.fifo, cmd, data)
  {
    hide McuShape, Execute, FifoAfter;
    ExecuteFifo(m, cmd, data);
  }

  lemma StepFifo(l: R.Line, step: R.Step)
    requires LineReady(l) && R.Can(l, step)
    ensures R.Do(l, step).mcu.fifo == FifoStep(l, step)
  {
    assert FifoShape(l.mcu.fifo);
    hide McuShape, HandleFrame, Tick, FifoAfter, Execute, Pack;
    match step
    case Acquire(_, _, _) =>
    case SendFirst(o) => HandleFifo(l.mcu, l.lock.op.cmd, l.lock.op.data);
    case SendSecond(o) =>
      HandleFifo(l.mcu, REG_NOP, 0);
      NopLeavesFifo(l.mcu.fifo);
    case Meanwhile(env) =>
  }

  lemma NopLeavesFifo(f: Fifo)
    requires FifoShape(f)
    ensures FifoAfter(f, REG_NOP, 0) == f
  {
  }

  lemma FifoStepKeeps(l: R.Line, step: R.Step)
    requires LineReady(l) && R.Can(l, step) && LineInv(l.mcu.fifo)
    ensures LineInv(FifoStep(l, step))
  {
    hide McuShape, LineInv, Tick, FifoAfter;
    match step
    case SendFirst(o) => if R.Heard(o) { FifoAfterKeeps(l.mcu.fifo, l.lock.op.cmd, l.lock.op.data); }
    case Meanwhile(env) => if env.TimerTick? { TickKeeps(l.mcu); }
    case _ =>
  }

  // ---------------------------------------------------------------------------
  // The invariant
  // ---------------------------------------------------------------------------

  /** The driver has asked for the level, and the MCU has answered that nothing is queued. */
  ghost predicate ToldEmpty(s: Sys) {
    && s.line.lock.Locked? && s.line.lock.op.client == DRIVER && s.line.lock.op.cmd == REG_FIFO_LEVEL
    && s.line.lock.phase == R.Second(true, 0)
  }

  ghost predicate HolderInv(s: Sys) {
    s.line.lock.Locked? && s.line.lock.op.client == DRIVER ==>
      s.pass != NoPass && s.line.lock.op.cmd == Wanted(s.pass)
  }

  ghost predicate DrainInv(s: Sys) {
    && R.LineOk(s.line)
    && LineInv(s.line.mcu.fifo)
    && HolderInv(s)
    && (ToldEmpty(s) && !Empty(s.line.mcu.fifo) ==> s.latched)
  }

  /** A sample that arrives in an empty FIFO raises an edge. */
  lemma FillRaisesEdge(f: Fifo, f': Fifo)
    requires LineInv(f) && LineInv(f') && Empty(f) && !Empty(f')
    ensures !f.pin && f'.pin
  {
  }

  lemma LineOkReady(l: R.Line)
    requires R.LineOk(l)
    ensures LineReady(l) && R.LockInv(l) && R.TxIsLast(l)
  {
  }

  ghost function LastAnswer(l: R.Line): R.Answer
    requires l.answers != []
  {
    l.answers[|l.answers| - 1]
  }

  /** The driver's operation fails with this step: a transfer fails, or the echo waiting in
      the MCU is not that of its command. */
  ghost predicate FailsNow(l: R.Line, r: R.Step)
    requires l.answers != []
  {
    && l.lock.Locked? && l.lock.op.client == DRIVER
    && ((r.SendFirst? && r.outcome.Failed?)
        || (r.SendSecond? && (r.outcome != R.Done || LastAnswer(l).cmd != l.lock.op.cmd)))
  }

  /** What the driver's operation returns: an error exactly when it fails now, else the last
      answer, given to the same command. */
  lemma ReturnedValue(l: R.Line, r: R.Step, l': R.Line)
    requires LineReady(l) && R.TxIsLast(l) && R.Can(l, r) && l' == R.Do(l, r) && Returns(l, l') && l.lock.op.cmd != 0
    ensures
      var f := l'.finished[|l'.finished| - 1];
      && l'.finished == l.finished + [f] && f.op == l.lock.op
      && (f.result == R.Eio <==> FailsNow(l, r))
      && (f.result.Ok? ==> r == R.SendSecond(R.Done) && LastAnswer(l) == R.Answer(l.lock.op.cmd, f.result.value))
    ensures (r.SendFirst? && r.outcome.Failed?) || r.SendSecond?
  {
    R.UnpackPack(LastAnswer(l).cmd, LastAnswer(l).value);
    hide McuShape, HandleFrame, Execute, Pack, Unpack;
  }

  lemma RegKeepsInv(s: Sys, r: R.Step, s': Sys)
    requires DrainInv(s) && LineReady(s.line) && Can(s, Reg(r)) && s' == Do(s, Reg(r))
    ensures DrainInv(s')
  {
    hide R.LineOk, LineInv, R.Do, FifoStep, McuShape, R.Can;
    var l, l' := s.line, R.Do(s.line, r);
    R.StepKeeps(l, r);
    StepFifo(l, r);
    FifoStepKeeps(l, r);
    if Empty(l.mcu.fifo) && !Empty(l'.mcu.fifo) { FillRaisesEdge(l.mcu.fifo, l'.mcu.fifo); }
    LevelAnswer(l, r, l');
    LockMoves(l, r, l');
  }

  /** Who holds the lock afterwards. */
  lemma LockMoves(l: R.Line, r: R.Step, l': R.Line)
    requires LineReady(l) && R.Can(l, r) && l' == R.Do(l, r)
    ensures l.lock == R.Unlocked && l'.lock.Locked? ==>
              r.Acquire? && l'.lock.op.client == r.client && l'.lock.op.cmd == r.cmd && l'.lock.phase == R.First
    ensures l.lock.Locked? && l'.lock.Locked? ==> l'.lock.op == l.lock.op
    ensures l.lock.Locked? && l'.lock == R.Unlocked ==> l'.finished != []
    ensures l.lock.Locked? && l'.lock.Locked? && l'.lock.phase != l.lock.phase ==> r.SendFirst?
  {
    hide McuShape, HandleFrame, Execute, Pack;
  }

  /** A level of zero is answered only by an empty FIFO. */
  lemma LevelAnswer(l: R.Line, r: R.Step, l': R.Line)
    requires LineReady(l) && R.Can(l, r) && l' == R.Do(l, r)
    ensures r.SendFirst? && l'.lock.Locked? && l'.lock.phase == R.Second(true, 0) && l.lock.op.cmd == REG_FIFO_LEVEL ==>
              Empty(l.mcu.fifo) && l'.mcu.fifo == l.mcu.fifo
  {
    StepFifo(l, r);
    hide HandleFrame, Pack;
  }

  lemma StepKeepsInv(s: Sys, step: Step, s': Sys)
    requires DrainInv(s) && LineReady(s.line) && Can(s, step) && s' == Do(s, step)
    ensures DrainInv(s')
  {
    match step
    case Begin =>
      LineOkReady(s.line);
      hide R.LineOk, LineInv, McuShape;
    case Reg(r) =>
      hide DrainInv, Do, LineReady;
      RegKeepsInv(s, r, s');
  }

  // ---------------------------------------------------------------------------
  // Runs
  // ---------------------------------------------------------------------------

  ghost predicate Init(s: Sys) {
    R.Init(s.line) && LineInv(s.line.mcu.fifo) && Empty(s.line.mcu.fifo) && s.pass == NoPass
  }

  ghost predicate SysStep(s: Sys, step: Step, s': Sys) { LineReady(s.line) && Can(s, step) && s' == Do(s, step) }

  ghost predicate IsRun(run: seq<Sys>, steps: seq<Step>) {
    && |run| == |steps| + 1
    && Init(run[0])
    && forall k | 0 <= k < |steps| :: SysStep(run[k], steps[k], run[k + 1])
  }

  lemma {:induction false} RunKeepsInv(run: seq<Sys>, steps: seq<Step>, k: nat)
    requires IsRun(run, steps) && k < |run|
    ensures DrainInv(run[k])
  {
    if k == 0 {
      R.InitOk(run[0].line);
      hide R.LineOk, LineInv, R.Init;
    } else {
      hide DrainInv, Init, LineReady, Can, Do;
      RunKeepsInv(run, steps, k - 1);
      assert SysStep(run[k - 1], steps[k - 1], run[k - 1 + 1]);
      StepKeepsInv(run[k - 1], steps[k - 1], run[k]);
    }
  }

  // ---------------------------------------------------------------------------
  // Stuck
  // ---------------------------------------------------------------------------

  /** Samples in the MCU, nobody draining them, and no edge to come. */
  ghost predicate Stuck(s: Sys) { !Empty(s.line.mcu.fifo) && s.pass == NoPass && !s.latched }

  /** The pass gives up: its operation fails and it is the third to do so. */
  ghost predicate GivesUp(s: Sys, r: R.Step)
    requires s.line.answers != []
  {
    s.pass != NoPass && s.pass.errors + 1 >= DRAIN_MAX_ERRORS && FailsNow(s.line, r)
  }

  /** The pass is misled: the MCU has not heard its level command, and the answer waiting
      there is a zero level given to somebody before. */
  ghost predicate IsMisled(s: Sys, r: R.Step)
    requires s.line.answers != []
  {
    && s.pass.AtLevel? && s.line.lock.Locked? && s.line.lock.op.client == DRIVER
    && s.line.lock.phase.Second? && !s.line.lock.phase.heard
    && r == R.SendSecond(R.Done) && LastAnswer(s.line) == R.Answer(REG_FIFO_LEVEL, 0)
  }

  /** The step by which a pass ends although it has not seen an empty FIFO. */
  ghost predicate EndsBlind(s: Sys, step: Step) {
    step.Reg? && s.line.answers != [] && (GivesUp(s, step.step) || IsMisled(s, step.step))
  }

  /** When a pass ends, and why. */
  lemma PassEnds(s: Sys, r: R.Step, s': Sys)
    requires DrainInv(s) && LineReady(s.line) && Can(s, Reg(r)) && s' == Do(s, Reg(r)) && s.pass != NoPass
    ensures s'.pass == NoPass <==>
              EndsBlind(s, Reg(r))
              || (ToldEmpty(s) && s.pass.AtLevel? && r == R.SendSecond(R.Done)
                  && LastAnswer(s.line) == R.Answer(REG_FIFO_LEVEL, 0))
    ensures s'.pass == NoPass ==> s.line.lock.Locked? && s.line.lock.op.client == DRIVER && (r.SendFirst? || r.SendSecond?)
  {
    LineOkReady(s.line);
    LoopStays(s, r, s');
    hide R.LineOk, LineInv, Do, R.Do, McuShape, R.Can;
    var l, l' := s.line, s'.line;
    LockMoves(l, r, l');
    if Returns(l, l') { ReturnedValue(l, r, l'); } else { StillHeld(l, r, l'); }
  }

  /** A step that ends nothing is neither a failure nor a second frame of the driver. */
  lemma StillHeld(l: R.Line, r: R.Step, l': R.Line)
    requires LineReady(l) && R.Can(l, r) && l' == R.Do(l, r) && !Returns(l, l')
    ensures l.lock.Locked? && l.lock.op.client == DRIVER ==> !r.SendSecond? && !(r.SendFirst? && r.outcome.Failed?)
  {
    hide McuShape, HandleFrame, Execute, Pack;
  }

  /** The driver's own frames never fill the FIFO. */
  lemma DriverDoesNotFill(s: Sys, r: R.Step)
    requires LineReady(s.line) && R.Can(s.line, r) && HolderInv(s) && (r.SendFirst? || r.SendSecond?)
    requires s.line.lock.Locked? && s.line.lock.op.client == DRIVER && Empty(s.line.mcu.fifo) && !s.line.mcu.fifo.peeked
    ensures Empty(R.Do(s.line, r).mcu.fifo)
  {
    StepFifo(s.line, r);
    hide R.Do, McuShape, R.Can;
  }

  /** One step of the law: stuck after a step exactly if stuck before, or a pass ends blind
      with no edge latched -- and in either case the FIFO is not empty now. */
  lemma StuckStep(s: Sys, step: Step, s': Sys)
    requires DrainInv(s) && SysStep(s, step, s')
    ensures Stuck(s') <==> !Empty(s'.line.mcu.fifo) && (Stuck(s) || (EndsBlind(s, step) && !s.latched))
  {
    StepKeepsInv(s, step, s');
    LineOkReady(s.line);
    assert LineInv(s.line.mcu.fifo) && LineInv(s'.line.mcu.fifo);
    NotPeeked(s.line.mcu.fifo);
    if step.Reg? { RegStuck(s, step.step, s'); }
    hide R.LineOk, LineInv, McuShape;
  }

  lemma NotPeeked(f: Fifo)
    requires LineInv(f)
    ensures Empty(f) ==> !f.peeked
    ensures f.pin == !Empty(f)
  {
  }

  lemma RegStuck(s: Sys, r: R.Step, s': Sys)
    requires DrainInv(s) && DrainInv(s') && LineReady(s.line) && Can(s, Reg(r)) && s' == Do(s, Reg(r))
    ensures Stuck(s') <==> !Empty(s'.line.mcu.fifo) && (Stuck(s) || (EndsBlind(s, Reg(r)) && !s.latched))
  {
    NotPeeked(s.line.mcu.fifo);
    NotPeeked(s'.line.mcu.fifo);
    LoopStays(s, r, s');
    var l := s.line;
    hide R.LineOk, LineInv, Do, R.Do, McuShape, R.Can;
    if s.pass != NoPass {
      PassEnds(s, r, s');
      if s'.pass == NoPass {
        if Empty(l.mcu.fifo) { DriverDoesNotFill(s, r); }
        if r.SendSecond? { SecondLeavesFifo(l, r); }
      }
    }
  }

  lemma SecondLeavesFifo(l: R.Line, r: R.Step)
    requires LineReady(l) && R.Can(l, r) && r.SendSecond?
    ensures R.Do(l, r).mcu.fifo == l.mcu.fifo
  {
    StepFifo(l, r);
    hide R.Do, McuShape;
  }

  /** At step `j` a pass ended blind with no edge latched. */
  ghost predicate LostAt(run: seq<Sys>, steps: seq<Step>, j: nat)
    requires 0 < j < |run| == |steps| + 1
  {
    EndsBlind(run[j - 1], steps[j - 1]) && !run[j - 1].latched
  }

  ghost predicate FullSince(run: seq<Sys>, j: nat, k: nat)
    requires j <= k < |run|
  {
    forall i | j <= i <= k :: !Empty(run[i].line.mcu.fifo)
  }

  /** Some pass ended blind, and the FIFO has not been empty since. */
  ghost predicate LeftBehind(run: seq<Sys>, steps: seq<Step>, k: nat)
    requires k < |run| == |steps| + 1
  {
    exists j | 0 < j <= k :: LostAt(run, steps, j) && FullSince(run, j, k)
  }

  /** In every run, whatever transfers fail, acquisition is stuck exactly when some pass
      ended blind with no edge latched and the FIFO has not been empty since. */
  lemma {:induction false} StuckExactlyWhen(run: seq<Sys>, steps: seq<Step>, k: nat)
    requires IsRun(run, steps) && k < |run|
    ensures Stuck(run[k]) <==> LeftBehind(run, steps, k)
  {
    if k > 0 {
      hide LeftBehind, SysStep, Init;
      StuckExactlyWhen(run, steps, k - 1);
      RunKeepsInv(run, steps, k - 1);
      assert SysStep(run[k - 1], steps[k - 1], run[k - 1 + 1]);
      hide DrainInv, EndsBlind, Stuck;
      StuckStep(run[k - 1], steps[k - 1], run[k]);
      LeftBehindGrows(run, steps, k);
    }
  }

  lemma {:induction false} LeftBehindGrows(run: seq<Sys>, steps: seq<Step>, k: nat)
    requires 0 < k < |run| == |steps| + 1
    ensures LeftBehind(run, steps, k) <==>
              !Empty(run[k].line.mcu.fifo) && (LostAt(run, steps, k) || LeftBehind(run, steps, k - 1))
  {
    hide LostAt;
    if LeftBehind(run, steps, k) {
      var j :| 0 < j <= k && LostAt(run, steps, j) && FullSince(run, j, k);
      if j < k { assert FullSince(run, j, k - 1); }
    }
    if !Empty(run[k].line.mcu.fifo) {
      if LostAt(run, steps, k) {
        assert FullSince(run, k, k);
      } else if LeftBehind(run, steps, k - 1) {
        var j :| 0 < j <= k - 1 && LostAt(run, steps, j) && FullSince(run, j, k - 1);
        assert FullSince(run, j, k);
      }
    }
  }

  // ---------------------------------------------------------------------------
  // Giving up
  // ---------------------------------------------------------------------------

  /** A finished operation counts as a failure if it was the driver's and returned an error. */
  function Bad(f: R.Finished): nat { if f.op.client == DRIVER && f.result == R.Eio then 1 else 0 }

  function Failures(fs: seq<R.Finished>): nat {
    if fs == [] then 0 else Failures(fs[..|fs| - 1]) + Bad(fs[|fs| - 1])
  }

  /** With this step the loop has a whole sample. */
  ghost predicate WholeSample(s: Sys, s': Sys) {
    s.pass.AtVal? && Returns(s.line, s'.line) && s'.line.finished[|s'.line.finished| - 1].result.Ok?
  }

  /** State `b` begins a pass or follows a whole sample. */
  ghost predicate Anew(run: seq<Sys>, steps: seq<Step>, b: nat)
    requires |run| == |steps| + 1
  {
    0 < b < |run| && (steps[b - 1] == Begin || WholeSample(run[b - 1], run[b]))
  }

  /** What a step adds to the finished operations. */
  lemma FinishedGrows(l: R.Line, r: R.Step, l': R.Line)
    requires LineReady(l) && R.Can(l, r) && l' == R.Do(l, r)
    ensures if l.lock.Locked? && l'.lock == R.Unlocked then
              |l'.finished| == |l.finished| + 1 && l'.finished[..|l.finished|] == l.finished
              && l'.finished[|l.finished|].op == l.lock.op
            else l'.finished == l.finished
  {
    hide McuShape, HandleFrame, Execute, Pack;
  }

  /** A step that neither begins a pass nor completes a sample raises the error count by the
      failure it finishes. */
  lemma ErrorStep(s: Sys, step: Step, s': Sys)
    requires SysStep(s, step, s') && DrainInv(s)
    requires s'.pass != NoPass && step != Begin && !WholeSample(s, s')
    ensures s.pass != NoPass && (s.pass.errors < DRAIN_MAX_ERRORS ==> s'.pass.errors < DRAIN_MAX_ERRORS)
    ensures
      var fs, fs' := s.line.finished, s'.line.finished;
      || (fs' == fs && s'.pass.errors == s.pass.errors)
      || (|fs'| == |fs| + 1 && fs'[..|fs|] == fs && s'.pass.errors == s.pass.errors + Bad(fs'[|fs|]))
  {
    LoopStays(s, step.step, s');
    FinishedGrows(s.line, step.step, s'.line);
    LockMoves(s.line, step.step, s'.line);
    hide Do, R.Do, McuShape, R.Can, R.LineOk, LineInv, ToldEmpty;
  }

  lemma FailuresGrow(fs: seq<R.Finished>, fs': seq<R.Finished>, n: nat)
    requires n <= |fs| && |fs'| == |fs| + 1 && fs'[..|fs|] == fs
    ensures Failures(fs'[n..]) == Failures(fs[n..]) + Bad(fs'[|fs|])
  {
    assert fs'[n..][..|fs| - n] == fs[n..];
  }

  /** `b` is where state `k`'s pass last began or completed a sample, and `n` operations of the
      driver have failed since. */
  ghost predicate Counts(run: seq<Sys>, steps: seq<Step>, b: nat, k: nat, n: nat)
    requires k < |run| == |steps| + 1
  {
    && b <= k && Anew(run, steps, b) && (forall i | b < i <= k :: !Anew(run, steps, i))
    && |run[b].line.finished| <= |run[k].line.finished|
    && Failures(run[k].line.finished[|run[b].line.finished|..]) == n
  }

  lemma NothingSince(run: seq<Sys>, steps: seq<Step>, k: nat)
    requires k < |run| == |steps| + 1 && Anew(run, steps, k)
    ensures Counts(run, steps, k, k, 0)
  {
    hide Anew;
  }

  lemma CountGrows(run: seq<Sys>, steps: seq<Step>, b: nat, k: nat, n: nat)
    requires 0 < k < |run| == |steps| + 1 && Counts(run, steps, b, k - 1, n) && !Anew(run, steps, k)
    requires
      var fs, fs' := run[k - 1].line.finished, run[k].line.finished;
      fs' == fs || (|fs'| == |fs| + 1 && fs'[..|fs|] == fs)
    ensures
      var fs, fs' := run[k - 1].line.finished, run[k].line.finished;
      Counts(run, steps, b, k, if fs' == fs then n else n + Bad(fs'[|fs|]))
  {
    hide Anew, Failures;
    var fs, fs' := run[k - 1].line.finished, run[k].line.finished;
    if fs' != fs { FailuresGrow(fs, fs', |run[b].line.finished|); }
  }

  /** The error count is the number of the driver's operations that failed since the pass
      began or its last whole sample, and stays below three. */
  lemma {:induction false} ErrorsAreCounted(run: seq<Sys>, steps: seq<Step>, k: nat) returns (b: nat)
    requires IsRun(run, steps) && k < |run| && run[k].pass != NoPass
    ensures Counts(run, steps, b, k, run[k].pass.errors) && run[k].pass.errors < DRAIN_MAX_ERRORS
  {
    assert k > 0;
    hide SysStep, Init, WholeSample, HolderInv, Failures, DrainInv;
    assert SysStep(run[k - 1], steps[k - 1], run[k - 1 + 1]);
    if Anew(run, steps, k) {
      b := k;
      AnewIsZero(run[k - 1], steps[k - 1], run[k]);
      NothingSince(run, steps, k);
    } else {
      RunKeepsInv(run, steps, k - 1);
      hide Counts;
      ErrorStep(run[k - 1], steps[k - 1], run[k]);
      b := ErrorsAreCounted(run, steps, k - 1);
      CountGrows(run, steps, b, k, run[k - 1].pass.errors);
    }
  }

  lemma AnewIsZero(s: Sys, step: Step, s': Sys)
    requires SysStep(s, step, s') && (step == Begin || WholeSample(s, s'))
    ensures s'.pass == AtLevel(0)
  {
    hide R.Do, McuShape, R.Can;
  }

  /** A pass that gives up has seen exactly three of its operations fail since it began or
      since its last whole sample. */
  lemma GiveUpMeansThree(run: seq<Sys>, steps: seq<Step>, k: nat) returns (b: nat)
    requires IsRun(run, steps) && k < |steps| && steps[k].Reg? && run[k].line.answers != []
    requires GivesUp(run[k], steps[k].step)
    ensures run[k + 1].pass == NoPass && Counts(run, steps, b, k + 1, 3)
  {
    hide SysStep, Init, Counts, DrainInv, Failures, WholeSample, FailsNow;
    b := ErrorsAreCounted(run, steps, k);
    RunKeepsInv(run, steps, k);
    assert SysStep(run[k], steps[k], run[k + 1]);
    ThirdFailure(run[k], steps[k].step, run[k + 1]);
    CountGrows(run, steps, b, k + 1, run[k].pass.errors);
  }

  lemma ThirdFailure(s: Sys, r: R.Step, s': Sys)
    requires DrainInv(s) && SysStep(s, Reg(r), s') && s.line.answers != [] && GivesUp(s, r)
    ensures s'.pass == NoPass
    ensures |s'.line.finished| == |s.line.finished| + 1 && s'.line.finished[..|s.line.finished|] == s.line.finished
    ensures Bad(s'.line.finished[|s.line.finished|]) == 1 && !WholeSample(s, s')
  {
    PassEnds(s, r, s');
    LineOkReady(s.line);
    var l' := R.Do(s.line, r);
    FinishedGrows(s.line, r, l');
    hide R.LineOk, LineInv, R.Do, McuShape, R.Can;
    if Returns(s.line, l') { ReturnedValue(s.line, r, l'); }
  }

  /** Restarting acquisition empties the FIFO and drops the line, so the first new sample
      raises an edge even after a pass that gave up. */
  lemma StartUnsticks(m: Mcu, v: nat)
    requires McuShape(m) && LineInv(m.fifo) && v < TWO32 && v % 2 == 1
    ensures
      var m1 := Execute(m, WRITE_FLAG + REG_CONTROL, v).m;
      && Empty(m1.fifo) && !m1.fifo.pin && m1.control
      && !Empty(Tick(m1).fifo) && Tick(m1).fifo.pin
  {
    RestartKeeps(m.fifo);
    var m1 := Execute(m, WRITE_FLAG + REG_CONTROL, v).m;
    assert m1.fifo == Restart(m.fifo);
    PushQueues(m1.fifo, 0);
  }

  // ---------------------------------------------------------------------------
  // Misled
  // ---------------------------------------------------------------------------

  ghost predicate Reachable(s: Sys) {
    exists run, steps :: IsRun(run, steps) && run[|run| - 1] == s
  }

  lemma Extend(s: Sys, step: Step, s': Sys)
    requires Reachable(s) && SysStep(s, step, s')
    ensures Reachable(s')
  {
    hide Init, SysStep;
    var run, steps :| IsRun(run, steps) && run[|run| - 1] == s;
    var run', steps' := run + [s'], steps + [step];
    assert forall k | 0 <= k < |steps'| :: SysStep(run'[k], steps'[k], run'[k + 1]);
    assert IsRun(run', steps') && run'[|run'| - 1] == s';
  }

  lemma StartIsReachable(s: Sys)
    requires Init(s)
    ensures Reachable(s)
  {
    assert IsRun([s], []) && [s][|[s]| - 1] == s;
  }

  /** At rest, acquisition on, nothing queued. */
  ghost predicate Resting(s: Sys) {
    && LineReady(s.line) && LineInv(s.line.mcu.fifo) && s.line.mcu.control && Empty(s.line.mcu.fifo)
    && s.line.lock == R.Unlocked && s.pass == NoPass && !s.latched
  }

  /** One whole operation of another client. */
  lemma OtherOp(s: Sys, cmd: nat, data: nat, second: R.Outcome) returns (s': Sys)
    requires Reachable(s) && LineReady(s.line) && s.line.lock == R.Unlocked
    requires cmd < 256 && data < TWO32 && (cmd < WRITE_FLAG ==> data == 0) && !second.Silent?
    requires !Execute(s.line.mcu, cmd, data).m.fifo.pin
    ensures Reachable(s') && LineReady(s'.line) && s'.line.lock == R.Unlocked
    ensures s'.pass == s.pass && s'.latched == s.latched
    ensures second == R.Failed(false) ==> s'.line.mcu == HandleFrame(s.line.mcu, Pack(cmd, data))
    ensures second == R.Done ==>
              s'.line.mcu == HandleFrame(HandleFrame(s.line.mcu, Pack(cmd, data)), Pack(REG_NOP, 0))
  {
    hide Reachable, McuShape, Execute, FifoAfter;
    HandleFifo(s.line.mcu, cmd, data);
    ExecuteFifo(s.line.mcu, cmd, data);
    var s1 := Do(s, Reg(R.Acquire(1, cmd, data)));
    Extend(s, Reg(R.Acquire(1, cmd, data)), s1);
    var s2 := Do(s1, Reg(R.SendFirst(R.Done)));
    Extend(s1, Reg(R.SendFirst(R.Done)), s2);
    s' := Do(s2, Reg(R.SendSecond(second)));
    StepFifo(s2.line, R.SendSecond(second));
    Extend(s2, Reg(R.SendSecond(second)), s');
  }

  lemma SwitchOn(s: Sys) returns (s': Sys)
    requires Init(s) && !s.latched
    ensures Reachable(s') && Resting(s')
  {
    StartIsReachable(s);
    var m := s.line.mcu;
    RestartKeeps(m.fifo);
    var m1 := HandleFrame(m, Pack(WRITE_FLAG + REG_CONTROL, 1));
    assert m1.control && m1.fifo == Restart(m.fifo);
    NopLeavesFifo(m1.fifo);
    HandleFifo(m1, REG_NOP, 0);
    assert HandleFrame(m1, Pack(REG_NOP, 0)).control;
    hide Reachable, HandleFrame, LineInv;
    s' := OtherOp(s, WRITE_FLAG + REG_CONTROL, 1, R.Done);
  }

  /** Another client reads the level, and its second frame is lost: the zero stays in the
      MCU's answer buffer. A sample comes, an edge is latched. */
  lemma ZeroStays(s: Sys) returns (s': Sys)
    requires Reachable(s) && Resting(s)
    ensures Reachable(s') && LineReady(s'.line) && s'.line.lock == R.Unlocked && s'.pass == NoPass && s'.latched
    ensures !Empty(s'.line.mcu.fifo) && s'.line.mcu.fifo.pin && s'.line.mcu.tx == Pack(REG_FIFO_LEVEL, 0)
  {
    var m1 := HandleFrame(s.line.mcu, Pack(REG_FIFO_LEVEL, 0));
    assert m1.tx == Pack(REG_FIFO_LEVEL, 0) && m1.fifo == s.line.mcu.fifo && m1.control;
    var s1 := OtherOp(s, REG_FIFO_LEVEL, 0, R.Failed(false));
    PushQueues(m1.fifo, m1.fifo.seqCounter % 0x1_0000);
    assert !Empty(Tick(m1).fifo) && Tick(m1).fifo.pin;
    hide Reachable, HandleFrame, Pack, McuShape;
    s' := Do(s1, Reg(R.Meanwhile(R.TimerTick)));
    Extend(s1, Reg(R.Meanwhile(R.TimerTick)), s');
  }

  /** The pass that edge starts: its level command is not heard, the old zero comes back
      with the right echo, and the pass ends with the sample left behind and no edge to
      come. */
  lemma MisledPassIsStuck(s: Sys) returns (end: Sys)
    requires Init(s) && !s.latched
    ensures Reachable(end) && Stuck(end)
  {
    var s1 := SwitchOn(s);
    var s2 := ZeroStays(s1);
    R.UnpackPack(REG_FIFO_LEVEL, 0);
    end := ReadsOldZero(s2);
  }

  lemma ReadsOldZero(s: Sys) returns (end: Sys)
    requires Reachable(s) && LineReady(s.line) && s.line.lock == R.Unlocked && s.pass == NoPass && s.latched
    requires !Empty(s.line.mcu.fifo) && s.line.mcu.tx[0] == REG_FIFO_LEVEL && Unpack(s.line.mcu.tx) == 0
    requires s.line.mcu.fifo.pin
    ensures Reachable(end) && Stuck(end)
  {
    hide Reachable, McuShape, HandleFrame, Pack, Unpack;
    var s1 := Do(s, Begin);
    Extend(s, Begin, s1);
    var s2 := Do(s1, Reg(R.Acquire(DRIVER, REG_FIFO_LEVEL, 0)));
    Extend(s1, Reg(R.Acquire(DRIVER, REG_FIFO_LEVEL, 0)), s2);
    var s3 := Do(s2, Reg(R.SendFirst(R.Silent)));
    Extend(s2, Reg(R.SendFirst(R.Silent)), s3);
    StepFifo(s3.line, R.SendSecond(R.Done));
    end := Do(s3, Reg(R.SendSecond(R.Done)));
    Extend(s3, Reg(R.SendSecond(R.Done)), end);
  }
}
