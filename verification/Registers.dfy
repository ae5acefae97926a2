/**
 The two-frame register protocol between the driver and the MCU. The answer to a command
 travels in the next frame, so every operation is a command frame followed by a NOP frame;
 a mutex keeps the two together. Frames may fail on either side at any time.
 */
module Registers {
  import opened Arithmetic
  import opened Firmware

  /** One transfer: it works; the driver sees an error (and the MCU did or did not get the
      frame); or the driver reads a silent line and the MCU got nothing. */
  datatype Outcome = Done | Failed(heard: bool) | Silent

  predicate Heard(o: Outcome) { o == Done || o == Failed(true) }

  datatype Phase = First | Second(heard: bool, answer: nat)

  /** A register operation in progress. Reads carry data 0. */
  datatype Op = Op(client: nat, cmd: nat, data: nat, serial: nat)

  datatype Lock = Unlocked | Locked(op: Op, phase: Phase)

  datatype Result = Ok(value: nat) | Eio

  /** A finished operation: how its frames went, what the MCU answered, what it returned. */
  datatype Finished = Finished(op: Op, first: Outcome, second: Outcome, answer: nat, result: Result)

  datatype Answer = Answer(cmd: nat, value: nat)

  /** `effects` lists the operations whose command the MCU carried out, in order; `answers`
      everything it ever had ready to send; `finished` the operations that returned. */
  datatype Line = Line(
    mcu: Mcu, lock: Lock, serial: nat, effects: seq<nat>, answers: seq<Answer>, finished: seq<Finished>)

  datatype Env = TimerTick | BusError(rearmed: bool) | AuthReady(mac: seq<nat>, cycles: nat, keyed: bool)

  datatype Step =
    | Acquire(client: nat, cmd: nat, data: nat)
    | SendFirst(outcome: Outcome)
    | SendSecond(outcome: Outcome)
    | Meanwhile(env: Env)

  const ZEROS: Frame := [0, 0, 0, 0, 0]

  // ---------------------------------------------------------------------------
  // Steps
  // ---------------------------------------------------------------------------

  predicate Can(l: Line, step: Step) {
    match step
    case Acquire(_, cmd, data) => l.lock == Unlocked && cmd < 256 && data < TWO32 && (cmd < WRITE_FLAG ==> data == 0)
    case SendFirst(_) => l.lock.Locked? && l.lock.phase == First
    case SendSecond(_) => l.lock.Locked? && l.lock.phase.Second?
    case Meanwhile(AuthReady(mac, cycles, _)) => |mac| == 4 && (forall i | 0 <= i < 4 :: mac[i] < TWO32) && cycles < TWO32
    case Meanwhile(_) => true
  }

  function EnvDo(m: Mcu, env: Env): (r: Mcu)
    requires McuShape(m)
    requires env.AuthReady? ==> |env.mac| == 4 && (forall i | 0 <= i < 4 :: env.mac[i] < TWO32) && env.cycles < TWO32
    ensures McuShape(r) && r.tx == m.tx
  {
    match env
    case TimerTick => Tick(m)
    case BusError(rearmed) => SpiError(m, rearmed)
    case AuthReady(mac, cycles, keyed) =>
      m.(mac := if keyed then mac else [0, 0, 0, 0], cycles := if keyed then cycles else m.cycles, authRequest := false,
         status := m.status.(authBusy := false, authDone := true, authNoKey := m.status.authNoKey || !keyed))
  }

  /** The MCU takes in a frame: it carries the command out and readies the answer. */
  function Deliver(l: Line, cmd: nat, data: nat): Line
    requires McuShape(l.mcu) && cmd < 256 && data < TWO32
  {
    l.(mcu := HandleFrame(l.mcu, Pack(cmd, data)),
       answers := l.answers + [Answer(cmd, Execute(l.mcu, cmd, data).value)])
  }

  function Finish(l: Line, f: Finished): Line { l.(lock := Unlocked, finished := l.finished + [f]) }

  function FirstDo(l: Line, o: Outcome): Line
    requires McuShape(l.mcu) && l.lock.Locked? && l.lock.op.cmd < 256 && l.lock.op.data < TWO32
  {
    var op := l.lock.op;
    var answer := if Heard(o) then Execute(l.mcu, op.cmd, op.data).value else 0;
    var l' := if Heard(o) then Deliver(l, op.cmd, op.data).(effects := l.effects + [op.serial]) else l;
    if o.Failed? then Finish(l', Finished(op, o, Silent, answer, Eio))
    else l'.(lock := Locked(op, Second(Heard(o), answer)))
  }

  /** Compare the echo, decode the value. */
  function Judge(cmd: nat, rx: Frame): Result { if rx[0] == cmd then Ok(Unpack(rx)) else Eio }

  function SecondDo(l: Line, o: Outcome): Line
    requires McuShape(l.mcu) && l.lock.Locked? && l.lock.phase.Second?
  {
    var op, p := l.lock.op, l.lock.phase;
    var l' := if Heard(o) then Deliver(l, REG_NOP, 0) else l;
    var result := match o case Done => Judge(op.cmd, l.mcu.tx) case Silent => Judge(op.cmd, ZEROS) case Failed(_) => Eio;
    Finish(l', Finished(op, if p.heard then Done else Silent, o, p.answer, result))
  }

  function Do(l: Line, step: Step): Line
    requires McuShape(l.mcu) && Can(l, step)
    requires l.lock.Locked? ==> l.lock.op.cmd < 256 && l.lock.op.data < TWO32
  {
    match step
    case Acquire(client, cmd, data) =>
      l.(lock := Locked(Op(client, cmd, data, l.serial), First), serial := l.serial + 1)
    case SendFirst(o) => FirstDo(l, o)
    case SendSecond(o) => SecondDo(l, o)
    case Meanwhile(env) => l.(mcu := EnvDo(l.mcu, env))
  }

  // ---------------------------------------------------------------------------
  // The invariant
  // ---------------------------------------------------------------------------

  ghost predicate Clocked(op: Op) { op.cmd < 256 && op.data < TWO32 && (op.cmd < WRITE_FLAG ==> op.data == 0) }

  /** The frame waiting in the MCU is its last answer. */
  ghost predicate TxIsLast(l: Line) {
    l.answers != [] && var a := l.answers[|l.answers| - 1];
    a.cmd < 256 && a.value < TWO32 && l.mcu.tx == Pack(a.cmd, a.value)
  }

  ghost predicate Times(effects: seq<nat>, serial: nat, n: nat) { multiset(effects)[serial] == n }

  ghost predicate LockInv(l: Line) {
    l.lock.Locked? ==>
      && Clocked(l.lock.op) && l.lock.op.serial + 1 == l.serial
      && (l.lock.phase == First ==> Times(l.effects, l.lock.op.serial, 0))
      && (l.lock.phase.Second? ==>
            && Times(l.effects, l.lock.op.serial, if l.lock.phase.heard then 1 else 0)
            && (l.lock.phase.heard ==>
                  && l.answers != []
                  && l.answers[|l.answers| - 1] == Answer(l.lock.op.cmd, l.lock.phase.answer)))
  }

  /** An operation that returned a value either got the MCU's answer to its own command, or
      an earlier answer to the same command because its own was not heard, or the zeros of
      a silent line as the "echo" of address 0. */
  ghost predicate Honest(f: Finished, answers: seq<Answer>) {
    && (f.first == Done && f.second == Done ==> f.result == Ok(f.answer))
    && (f.result.Ok? ==>
          if f.second == Silent then f.op.cmd == 0 && f.result.value == 0
          else f.second == Done && Answer(f.op.cmd, f.result.value) in answers
               && (f.first == Done ==> f.result.value == f.answer))
    && (f.second == Silent && !f.first.Failed? ==> (f.result == Ok(0) <==> f.op.cmd == 0))
  }

  ghost predicate DoneInv(l: Line) {
    forall k | 0 <= k < |l.finished| ::
      && l.finished[k].op.serial < l.serial
      && (l.lock.Locked? ==> l.finished[k].op.serial != l.lock.op.serial)
      && Times(l.effects, l.finished[k].op.serial, if Heard(l.finished[k].first) then 1 else 0)
      && Honest(l.finished[k], l.answers)
  }

  ghost predicate Fresh(l: Line) { forall k | 0 <= k < |l.effects| :: l.effects[k] < l.serial }

  ghost predicate LineOk(l: Line) {
    McuShape(l.mcu) && TxIsLast(l) && LockInv(l) && DoneInv(l) && Fresh(l)
  }

  // ---------------------------------------------------------------------------
  // Every step keeps it
  // ---------------------------------------------------------------------------

  lemma UnpackPack(cmd: nat, v: nat)
    requires cmd < 256 && v < TWO32
    ensures Pack(cmd, v)[0] == cmd && Unpack(Pack(cmd, v)) == v
  {
  }

  lemma DeliverIsLast(l: Line, cmd: nat, data: nat)
    requires McuShape(l.mcu) && cmd < 256 && data < TWO32
    ensures
      var l' := Deliver(l, cmd, data);
      && McuShape(l'.mcu) && TxIsLast(l')
      && l'.answers[|l'.answers| - 1] == Answer(cmd, Execute(l.mcu, cmd, data).value)
  {
    hide Execute, McuShape, Pack, Unpack;
    UnpackPack(cmd, data);
  }

  lemma EffectOnce(effects: seq<nat>, serial: nat, s: nat)
    ensures multiset(effects + [serial])[s] == multiset(effects)[s] + (if s == serial then 1 else 0)
  {
  }

  lemma HonestGrows(f: Finished, answers: seq<Answer>, a: Answer)
    requires Honest(f, answers)
    ensures Honest(f, answers + [a])
  {
  }

  /** The finished operations stay as they were. */
  lemma DoneGrows(l: Line, l': Line)
    requires DoneInv(l) && l.lock.Locked?
    requires l'.finished == l.finished && l'.serial == l.serial && (l'.lock.Locked? ==> l'.lock.op == l.lock.op)
    requires l'.effects == l.effects || l'.effects == l.effects + [l.lock.op.serial]
    requires l'.answers == l.answers || (l'.answers != [] && l'.answers[..|l'.answers| - 1] == l.answers)
    ensures DoneInv(l')
  {
    hide Honest;
    forall k | 0 <= k < |l'.finished|
      ensures Times(l'.effects, l'.finished[k].op.serial, if Heard(l'.finished[k].first) then 1 else 0)
      ensures Honest(l'.finished[k], l'.answers)
    {
      var f := l.finished[k];
      EffectOnce(l.effects, l.lock.op.serial, f.op.serial);
      if l'.answers != l.answers {
        assert l'.answers == l.answers + [l'.answers[|l'.answers| - 1]];
        HonestGrows(f, l.answers, l'.answers[|l'.answers| - 1]);
      }
    }
  }

  lemma FinishKeeps(l: Line, f: Finished)
    requires l.lock.Locked? && DoneInv(l) && f.op.serial < l.serial
    requires Times(l.effects, f.op.serial, if Heard(f.first) then 1 else 0) && Honest(f, l.answers)
    ensures DoneInv(Finish(l, f))
  {
    hide Honest, Times;
  }

  lemma FreshIsNew(l: Line, serial: nat)
    requires Fresh(l) && l.serial <= serial
    ensures Times(l.effects, serial, 0)
  {
    assert serial !in l.effects;
  }

  lemma AcquireKeeps(l: Line, client: nat, cmd: nat, data: nat)
    requires LineOk(l) && Can(l, Acquire(client, cmd, data))
    ensures LineOk(Do(l, Acquire(client, cmd, data)))
  {
    hide McuShape, Honest, Times;
    FreshIsNew(l, l.serial);
  }

  /** The MCU heard the command: it is carried out now, once, and its answer is waiting. */
  lemma HeardFirst(l: Line, l1: Line)
    requires LineOk(l) && l.lock.Locked? && l.lock.phase == First
    requires l1 == Deliver(l, l.lock.op.cmd, l.lock.op.data).(effects := l.effects + [l.lock.op.serial])
    ensures McuShape(l1.mcu) && TxIsLast(l1) && DoneInv(l1) && Fresh(l1) && l1.lock == l.lock && l1.serial == l.serial
    ensures Times(l1.effects, l.lock.op.serial, 1)
    ensures l1.answers[|l1.answers| - 1] == Answer(l.lock.op.cmd, Execute(l.mcu, l.lock.op.cmd, l.lock.op.data).value)
  {
    DeliverIsLast(l, l.lock.op.cmd, l.lock.op.data);
    EffectOnce(l.effects, l.lock.op.serial, l.lock.op.serial);
    hide McuShape, Honest, Execute, HandleFrame, Pack;
    assert l1.answers[..|l1.answers| - 1] == l.answers;
    DoneGrows(l, l1);
  }

  lemma FirstKeeps(l: Line, o: Outcome)
    requires LineOk(l) && Can(l, SendFirst(o))
    ensures LineOk(FirstDo(l, o))
  {
    hide McuShape, Execute, Pack, HandleFrame, DoneInv, TxIsLast, Fresh;
    var op := l.lock.op;
    if Heard(o) {
      var l1 := Deliver(l, op.cmd, op.data).(effects := l.effects + [op.serial]);
      HeardFirst(l, l1);
      FirstEnds(l1, o, Execute(l.mcu, op.cmd, op.data).value);
    } else {
      FirstEnds(l, o, 0);
    }
  }

  lemma FirstEnds(l: Line, o: Outcome, answer: nat)
    requires McuShape(l.mcu) && TxIsLast(l) && DoneInv(l) && Fresh(l)
    requires l.lock.Locked? && Clocked(l.lock.op) && l.lock.op.serial + 1 == l.serial
    requires Times(l.effects, l.lock.op.serial, if Heard(o) then 1 else 0)
    requires Heard(o) ==> l.answers[|l.answers| - 1] == Answer(l.lock.op.cmd, answer)
    ensures
      LineOk(if o.Failed? then Finish(l, Finished(l.lock.op, o, Silent, answer, Eio))
             else l.(lock := Locked(l.lock.op, Second(Heard(o), answer))))
  {
    hide McuShape, Times;
    if o.Failed? {
      FinishKeeps(l, Finished(l.lock.op, o, Silent, answer, Eio));
    } else {
      var l' := l.(lock := Locked(l.lock.op, Second(Heard(o), answer)));
      hide Honest;
      DoneGrows(l, l');
    }
  }

  /** Whatever the second frame brings, the verdict on it is honest. */
  lemma SecondIsHonest(l: Line, o: Outcome)
    requires TxIsLast(l) && LockInv(l) && l.lock.Locked? && l.lock.phase.Second?
    ensures Honest(SecondDoResult(l, o), l.answers)
  {
    var a := l.answers[|l.answers| - 1];
    UnpackPack(a.cmd, a.value);
    assert a in l.answers;
  }

  ghost function SecondDoResult(l: Line, o: Outcome): Finished
    requires l.lock.Locked? && l.lock.phase.Second?
  {
    var op, p := l.lock.op, l.lock.phase;
    var result := match o case Done => Judge(op.cmd, l.mcu.tx) case Silent => Judge(op.cmd, ZEROS) case Failed(_) => Eio;
    Finished(op, if p.heard then Done else Silent, o, p.answer, result)
  }

  lemma SecondKeeps(l: Line, o: Outcome)
    requires LineOk(l) && Can(l, SendSecond(o))
    ensures LineOk(SecondDo(l, o))
  {
    hide McuShape, Execute, Pack, Unpack, HandleFrame, Honest, Times;
    var f := SecondDoResult(l, o);
    SecondIsHonest(l, o);
    if Heard(o) {
      DeliverIsLast(l, REG_NOP, 0);
      var l1 := Deliver(l, REG_NOP, 0);
      assert l1.answers[..|l1.answers| - 1] == l.answers;
      DoneGrows(l, l1);
      HonestGrows(f, l.answers, l1.answers[|l1.answers| - 1]);
      FinishKeeps(l1, f);
    } else {
      FinishKeeps(l, f);
    }
  }

  lemma StepKeeps(l: Line, step: Step)
    requires LineOk(l) && Can(l, step)
    ensures LineOk(Do(l, step))
  {
    match step
    case Acquire(client, cmd, data) => AcquireKeeps(l, client, cmd, data);
    case SendFirst(o) => FirstKeeps(l, o);
    case SendSecond(o) => SecondKeeps(l, o);
    case Meanwhile(env) =>
      hide McuShape, Honest, Times, EnvDo;
      assert EnvDo(l.mcu, env).tx == l.mcu.tx;
  }

  // ---------------------------------------------------------------------------
  // Runs
  // ---------------------------------------------------------------------------

  /** Power-up: the MCU's first answer is that of a NOP. */
  ghost predicate Init(l: Line) {
    && McuShape(l.mcu) && l.mcu.tx == Pack(REG_NOP, 0) && l.lock == Unlocked && l.serial == 0
    && l.effects == [] && l.finished == [] && l.answers == [Answer(REG_NOP, 0)]
  }

  ghost predicate IsRun(run: seq<Line>, steps: seq<Step>) {
    && |run| == |steps| + 1
    && Init(run[0])
    && forall k | 0 <= k < |steps| :: LineStep(run[k], steps[k], run[k + 1])
  }

  ghost predicate LineStep(l: Line, step: Step, l': Line) {
    && McuShape(l.mcu) && Can(l, step)
    && (l.lock.Locked? ==> l.lock.op.cmd < 256 && l.lock.op.data < TWO32)
    && l' == Do(l, step)
  }

  lemma {:induction false} RunKeeps(run: seq<Line>, steps: seq<Step>, k: nat)
    requires IsRun(run, steps) && k < |run|
    ensures LineOk(run[k])
  {
    hide LineOk, LineStep, Init;
    if k == 0 {
      InitOk(run[0]);
    } else {
      RunKeeps(run, steps, k - 1);
      assert LineStep(run[k - 1], steps[k - 1], run[k - 1 + 1]);
      StepIsKept(run[k - 1], steps[k - 1], run[k]);
    }
  }

  lemma InitOk(l: Line)
    requires Init(l)
    ensures LineOk(l)
  {
  }

  lemma StepIsKept(l: Line, step: Step, l': Line)
    requires LineOk(l) && LineStep(l, step, l')
    ensures LineOk(l')
  {
    hide LineOk, Do;
    StepKeeps(l, step);
  }

  /** In every run, with any number of clients and any history of failures: an operation
      whose two frames went through returned exactly what the MCU answered to it, and the
      MCU carried its command out exactly once. */
  lemma OperationsAreSelfSynchronising(run: seq<Line>, steps: seq<Step>, k: nat, j: nat)
    requires IsRun(run, steps) && k < |run| && j < |run[k].finished|
    ensures
      var f := run[k].finished[j];
      && (f.first == Done && f.second == Done ==> f.result == Ok(f.answer))
      && multiset(run[k].effects)[f.op.serial] == (if Heard(f.first) then 1 else 0)
  {
    hide IsRun;
    RunKeeps(run, steps, k);
    assert Honest(run[k].finished[j], run[k].answers);
  }

  /** And whatever went wrong, a value returned is one the MCU had ready for that very
      command, except that a silent line reads as a zero from address 0. */
  lemma ReturnedValuesAreAnswers(run: seq<Line>, steps: seq<Step>, k: nat, j: nat)
    requires IsRun(run, steps) && k < |run| && j < |run[k].finished| && run[k].finished[j].result.Ok?
    ensures
      var f := run[k].finished[j];
      if f.second == Silent then f.op.cmd == 0 && f.result.value == 0
      else Answer(f.op.cmd, f.result.value) in run[k].answers
  {
    hide IsRun;
    RunKeeps(run, steps, k);
    assert Honest(run[k].finished[j], run[k].answers);
  }

  /** The echo check cannot tell a dead bus from the device id register: on a silent line a
      read succeeds exactly for address 0, with value 0. */
  lemma DeadBusReads(run: seq<Line>, steps: seq<Step>, k: nat, j: nat)
    requires IsRun(run, steps) && k < |run| && j < |run[k].finished|
    requires run[k].finished[j].first == run[k].finished[j].second == Silent
    ensures run[k].finished[j].result == (if run[k].finished[j].op.cmd == 0 then Ok(0) else Eio)
  {
    hide IsRun;
    RunKeeps(run, steps, k);
    assert Honest(run[k].finished[j], run[k].answers);
  }
}
