/**
 What a host reads from the MCU, in terms of what happened to it: every register is a
 function of the history of frames, ticks, bus errors and finished authentications.
 Addresses and bits are written out here as the register map gives them.
 */
module RegisterFile {
  import opened Arithmetic
  import opened Firmware
  import R = Registers

  datatype Event = Command(cmd: nat, v: nat) | Other(env: R.Env)

  ghost predicate Sane(e: Event) {
    match e
    case Command(cmd, v) => cmd < 256 && v < TWO32
    case Other(AuthReady(mac, cycles, _)) => |mac| == 4 && (forall i | 0 <= i < 4 :: mac[i] < TWO32) && cycles < TWO32
    case Other(_) => true
  }

  ghost function Apply(m: Mcu, e: Event): (r: Mcu)
    requires McuShape(m) && Sane(e)
    ensures McuShape(r)
  {
    match e
    case Command(cmd, v) => HandleFrame(m, Pack(cmd, v))
    case Other(env) => R.EnvDo(m, env)
  }

  ghost predicate AllSane(es: seq<Event>) { forall k | 0 <= k < |es| :: Sane(es[k]) }

  /** The MCU after these events. */
  ghost function After(m: Mcu, es: seq<Event>): (r: Mcu)
    requires McuShape(m) && AllSane(es)
    ensures McuShape(r)
  {
    if es == [] then m else Apply(After(m, es[..|es| - 1]), es[|es| - 1])
  }

  /** At power-up everything is zero but the rate. */
  ghost predicate PowerUp(m: Mcu) {
    && McuShape(m) && Empty(m.fifo) && !m.fifo.peeked && !m.fifo.pin && m.fifo.seqCounter == m.fifo.overflow == 0
    && m.status == Status(false, false, false, false, false, false, false)
    && !m.control && !m.timer && !m.authRequest && m.rate == 1000
    && m.rearmFail == m.errorCount == m.cycles == 0 && m.nonce == m.mac == [0, 0, 0, 0]
  }

  // ---------------------------------------------------------------------------
  // The history
  // ---------------------------------------------------------------------------

  /** A write to the register at this address. */
  ghost predicate Writes(e: Event, addr: nat) { e.Command? && e.cmd == 0x80 + addr }

  ghost predicate Starts(e: Event) { Writes(e, 0x03) && e.v % 2 == 1 }
  ghost predicate Clears(e: Event) { Writes(e, 0x03) && e.v / 2 % 2 == 1 }
  ghost predicate AsksAuth(e: Event) { Writes(e, 0x14) && e.v % 2 == 1 }
  ghost predicate SetsRate(e: Event) { Writes(e, 0x04) && 1 <= e.v <= 10000 }
  ghost predicate BadRate(e: Event) { Writes(e, 0x04) && !(1 <= e.v <= 10000) }

  /** A read or a write of an address that has none. */
  ghost predicate BadCommand(e: Event) {
    e.Command? && if e.cmd < 0x80 then !(e.cmd <= 0x0A || 0x10 <= e.cmd <= 0x13 || 0x15 <= e.cmd <= 0x19 || e.cmd == 0x7F)
                  else !(e.cmd == 0x83 || e.cmd == 0x84 || 0x90 <= e.cmd <= 0x94)
  }

  ghost predicate Ticked(e: Event) { e == Other(R.TimerTick) }
  ghost predicate Broke(e: Event) { e.Other? && e.env.BusError? }
  ghost predicate Wedged(e: Event) { e == Other(R.BusError(false)) }
  ghost predicate Answered(e: Event) { e.Other? && e.env.AuthReady? }
  ghost predicate Keyless(e: Event) { Answered(e) && !e.env.keyed }
  ghost predicate Keyed(e: Event) { Answered(e) && e.env.keyed }

  ghost predicate Running(es: seq<Event>) {
    es != [] && var e := es[|es| - 1]; if Writes(e, 0x03) then e.v % 2 == 1 else Running(es[..|es| - 1])
  }

  /** Raised by the one and not lowered by the other since. */
  ghost predicate Up(es: seq<Event>, raises: Event -> bool, lowers: Event -> bool) {
    es != [] && var e := es[|es| - 1]; !lowers(e) && (raises(e) || Up(es[..|es| - 1], raises, lowers))
  }

  ghost function Count(es: seq<Event>, p: Event -> bool): nat {
    if es == [] then 0 else Count(es[..|es| - 1], p) + (if p(es[|es| - 1]) then 1 else 0)
  }

  ghost function RateOf(es: seq<Event>): nat {
    if es == [] then 1000 else if SetsRate(es[|es| - 1]) then es[|es| - 1].v else RateOf(es[..|es| - 1])
  }

  ghost function NonceOf(es: seq<Event>, i: nat): nat {
    if es == [] then 0 else if Writes(es[|es| - 1], 0x10 + i) then es[|es| - 1].v else NonceOf(es[..|es| - 1], i)
  }

  /** The last MAC; without a key it reads as zero. */
  ghost function MacOf(es: seq<Event>, i: nat): nat {
    if es == [] then 0
    else
      var e := es[|es| - 1];
      if Keyed(e) && i < |e.env.mac| then e.env.mac[i] else if Keyless(e) then 0 else MacOf(es[..|es| - 1], i)
  }

  ghost function CyclesOf(es: seq<Event>): nat {
    if es == [] then 0 else if Keyed(es[|es| - 1]) then es[|es| - 1].env.cycles else CyclesOf(es[..|es| - 1])
  }

  /** Since the last START: the samples queued, how many were made, how many found no room. */
  datatype Samples = Samples(queue: seq<Item>, made: nat, dropped: nat)

  ghost function SamplesOf(es: seq<Event>): Samples {
    if es == [] then Samples([], 0, 0)
    else
      var s, e := SamplesOf(es[..|es| - 1]), es[|es| - 1];
      if Starts(e) then Samples([], 0, 0)
      else if Ticked(e) && Running(es[..|es| - 1]) then
        if |s.queue| == 31 then s.(dropped := s.dropped + 1)
        else s.(queue := s.queue + [Item(s.made % TWO32, s.made % TWO32 % 0x1_0000)], made := s.made + 1)
      else if e.Command? && e.cmd == 0x07 && s.queue != [] then s.(queue := s.queue[1..])
      else s
  }

  ghost function StatusOf(es: seq<Event>): Status {
    Status(Running(es), Up(es, BadCommand, Clears), Up(es, BadRate, Clears), Up(es, Broke, Clears),
           Up(es, AsksAuth, Answered), Up(es, Answered, AsksAuth), Up(es, Keyless, AsksAuth))
  }

  /** What a read of each address answers. */
  ghost function Expected(es: seq<Event>, addr: nat): nat {
    var s := SamplesOf(es);
    match addr
    case 0x00 => 0xAC00ACC0
    case 0x01 => 0x00010400
    case 0x02 =>
      (if Running(es) then 0x01 else 0) + (if Up(es, BadCommand, Clears) then 0x02 else 0)
      + (if Up(es, BadRate, Clears) then 0x04 else 0) + (if Up(es, Broke, Clears) then 0x08 else 0)
      + (if Up(es, AsksAuth, Answered) then 0x10 else 0) + (if Up(es, Answered, AsksAuth) then 0x20 else 0)
      + (if Up(es, Keyless, AsksAuth) then 0x40 else 0)
    case 0x03 => if Running(es) then 1 else 0
    case 0x04 => RateOf(es)
    case 0x05 => |s.queue|
    case 0x06 => if s.queue == [] then 0 else s.queue[0].sequence
    case 0x07 => if s.queue == [] then 0 else s.queue[0].value
    case 0x08 => s.dropped % TWO32
    case 0x09 => Count(es, Wedged) % TWO32
    case 0x0A => Count(es, Broke) % TWO32
    case 0x10 => NonceOf(es, 0)
    case 0x11 => NonceOf(es, 1)
    case 0x12 => NonceOf(es, 2)
    case 0x13 => NonceOf(es, 3)
    case 0x15 => MacOf(es, 0)
    case 0x16 => MacOf(es, 1)
    case 0x17 => MacOf(es, 2)
    case 0x18 => MacOf(es, 3)
    case 0x19 => CyclesOf(es)
    case _ => 0
  }

  // ---------------------------------------------------------------------------
  // The state is that function of the history
  // ---------------------------------------------------------------------------

  ghost predicate WordsShow(m: Mcu, es: seq<Event>)
    requires McuShape(m)
  {
    && m.control == m.timer == Running(es) && m.rate == RateOf(es) && m.authRequest == Up(es, AsksAuth, Answered)
    && m.rearmFail == Count(es, Wedged) % TWO32 && m.errorCount == Count(es, Broke) % TWO32
    && (forall i | 0 <= i < 4 :: m.nonce[i] == NonceOf(es, i) && m.mac[i] == MacOf(es, i))
    && m.cycles == CyclesOf(es)
  }

  ghost predicate FifoShows(f: Fifo, es: seq<Event>) {
    var s := SamplesOf(es);
    FifoInv(f) && Queue(f) == s.queue && f.seqCounter == s.made % TWO32 && f.overflow == s.dropped % TWO32
  }

  ghost predicate Shows(m: Mcu, es: seq<Event>)
    requires McuShape(m)
  {
    m.status == StatusOf(es) && WordsShow(m, es) && FifoShows(m.fifo, es)
  }

  ghost predicate LastIs(es: seq<Event>, es0: seq<Event>, e: Event) { es != [] && es0 == es[..|es| - 1] && e == es[|es| - 1] }

  lemma UpStep(es: seq<Event>, es0: seq<Event>, e: Event, raises: Event -> bool, lowers: Event -> bool)
    requires LastIs(es, es0, e)
    ensures Up(es, raises, lowers) == (!lowers(e) && (raises(e) || Up(es0, raises, lowers)))
  {
  }

  lemma ShownUnless(m: Mcu, cmd: nat, v: nat)
    requires McuShape(m) && cmd < 0x80
    ensures Shown(m, cmd) < 0 && cmd != 0x06 && cmd != 0x07 <==> BadCommand(Command(cmd, v))
  {
    hide StatusWord;
  }

  /** A read changes nothing but the FIFO, unless there is no such address. */
  lemma ReadStep(m: Mcu, cmd: nat, v: nat)
    requires McuShape(m) && cmd < 0x80
    ensures
      var r := ReadReg(m, cmd).m;
      r == m.(fifo := r.fifo, status := if BadCommand(Command(cmd, v)) then m.status.(cmdErr := true) else m.status)
  {
    ShownUnless(m, cmd, v);
    hide ReadSeq, ReadVal, ValResponse, Shown, McuShape, BadCommand;
  }

  /** How one event changes the flags. */
  ghost function Flags(s: Status, e: Event): Status {
    Status(if Writes(e, 0x03) then e.v % 2 == 1 else s.running,
           !Clears(e) && (BadCommand(e) || s.cmdErr), !Clears(e) && (BadRate(e) || s.rangeErr),
           !Clears(e) && (Broke(e) || s.resync), !Answered(e) && (AsksAuth(e) || s.authBusy),
           !AsksAuth(e) && (Answered(e) || s.authDone), !AsksAuth(e) && (Keyless(e) || s.authNoKey))
  }

  lemma WriteFlags(m: Mcu, cmd: nat, v: nat)
    requires McuShape(m) && 0x80 <= cmd < 256 && v < TWO32
    ensures WriteReg(m, cmd - 0x80, v).status == Flags(m.status, Command(cmd, v))
  {
    hide McuShape, WriteControl;
    if cmd == 0x83 { ControlFlags(m, v); } else { assert !Clears(Command(cmd, v)); }
  }

  lemma ControlFlags(m: Mcu, v: nat)
    requires McuShape(m)
    ensures WriteControl(m, v).status == Flags(m.status, Command(0x83, v))
  {
    hide McuShape, Restart, SetPin;
  }

  lemma ReadFlags(s: Status, cmd: nat, v: nat)
    requires cmd < 0x80
    ensures Flags(s, Command(cmd, v)) == if BadCommand(Command(cmd, v)) then s.(cmdErr := true) else s
  {
    hide BadCommand;
  }

  lemma OtherFlags(m: Mcu, env: R.Env)
    requires McuShape(m) && Sane(Other(env))
    ensures R.EnvDo(m, env).status == Flags(m.status, Other(env))
  {
    hide McuShape, Push, SetPin;
  }

  lemma StatusStep(m: Mcu, e: Event)
    requires McuShape(m) && Sane(e)
    ensures Apply(m, e).status == Flags(m.status, e)
  {
    hide Pack, Unpack, ReadReg, WriteReg, McuShape, Flags, R.EnvDo, BadCommand;
    match e
    case Command(cmd, v) =>
      if cmd < 0x80 {
        ReadStep(m, cmd, v);
        ReadFlags(m.status, cmd, v);
      } else {
        WriteFlags(m, cmd, v);
      }
    case Other(env) => OtherFlags(m, env);
  }

  lemma StatusShows(m: Mcu, es: seq<Event>, es0: seq<Event>, e: Event)
    requires LastIs(es, es0, e) && McuShape(m) && Sane(e) && m.status == StatusOf(es0)
    ensures Apply(m, e).status == StatusOf(es)
  {
    StatusStep(m, e);
    UpStep(es, es0, e, BadCommand, Clears);
    UpStep(es, es0, e, BadRate, Clears);
    UpStep(es, es0, e, Broke, Clears);
    UpStep(es, es0, e, AsksAuth, Answered);
    UpStep(es, es0, e, Answered, AsksAuth);
    UpStep(es, es0, e, Keyless, AsksAuth);
    hide Up, Apply, McuShape, Sane, BadCommand, BadRate, Broke, AsksAuth, Answered, Keyless, Clears;
  }

  lemma CountStep(es: seq<Event>, es0: seq<Event>, e: Event, p: Event -> bool)
    requires LastIs(es, es0, e)
    ensures Count(es, p) == Count(es0, p) + (if p(e) then 1 else 0)
  {
  }

  /** How one event changes the plain words. */
  ghost predicate WordsMove(m: Mcu, e: Event, r: Mcu)
    requires Sane(e)
  {
    && r.control == (if Writes(e, 0x03) then e.v % 2 == 1 else m.control)
    && r.timer == (if Writes(e, 0x03) then e.v % 2 == 1 else m.timer)
    && r.authRequest == (!Answered(e) && (AsksAuth(e) || m.authRequest))
    && r.rate == (if SetsRate(e) then e.v else m.rate)
    && r.rearmFail == (if Wedged(e) then (m.rearmFail + 1) % TWO32 else m.rearmFail)
    && r.errorCount == (if Broke(e) then (m.errorCount + 1) % TWO32 else m.errorCount)
    && r.cycles == (if Keyed(e) then e.env.cycles else m.cycles)
    && |r.nonce| == |m.nonce| == 4 && |r.mac| == |m.mac| == 4
    && (forall i | 0 <= i < 4 :: r.nonce[i] == if Writes(e, 0x10 + i) then e.v else m.nonce[i])
    && (forall i | 0 <= i < 4 :: r.mac[i] == if Keyed(e) then e.env.mac[i] else if Keyless(e) then 0 else m.mac[i])
  }

  lemma WriteMoves(m: Mcu, cmd: nat, v: nat)
    requires McuShape(m) && 0x80 <= cmd < 256 && v < TWO32
    ensures WordsMove(m, Command(cmd, v), WriteReg(m, cmd - 0x80, v))
  {
    assert |m.nonce| == 4 && |m.mac| == 4;
    hide McuShape, Restart, SetPin;
  }

  lemma ReadMoves(m: Mcu, cmd: nat, v: nat)
    requires McuShape(m) && cmd < 0x80 && v < TWO32
    ensures WordsMove(m, Command(cmd, v), ReadReg(m, cmd).m)
  {
    assert |m.nonce| == 4 && |m.mac| == 4;
    ReadStep(m, cmd, v);
    hide McuShape, ReadReg;
  }

  lemma OtherMoves(m: Mcu, env: R.Env)
    requires McuShape(m) && Sane(Other(env))
    ensures WordsMove(m, Other(env), R.EnvDo(m, env))
  {
    assert |m.nonce| == 4 && |m.mac| == 4;
    hide McuShape, Push, SetPin;
  }

  /** The answer buffer is not one of them. */
  lemma TxMoves(m: Mcu, e: Event, r: Mcu, r': Mcu)
    requires Sane(e) && WordsMove(m, e, r) && r' == r.(tx := r'.tx)
    ensures WordsMove(m, e, r')
  {
  }

  lemma WordsStep(m: Mcu, e: Event)
    requires McuShape(m) && Sane(e)
    ensures WordsMove(m, e, Apply(m, e))
  {
    hide Pack, Unpack, ReadReg, WriteReg, McuShape, WordsMove, R.EnvDo;
    match e
    case Command(cmd, v) =>
      if cmd < 0x80 { ReadMoves(m, cmd, v); } else { WriteMoves(m, cmd, v); }
      TxMoves(m, e, Execute(m, cmd, v).m, Apply(m, e));
    case Other(env) => OtherMoves(m, env);
  }

  lemma WordsShown(m: Mcu, es: seq<Event>, es0: seq<Event>, e: Event)
    requires LastIs(es, es0, e) && McuShape(m) && Sane(e) && WordsShow(m, es0)
    ensures WordsShow(Apply(m, e), es)
  {
    WordsStep(m, e);
    CountStep(es, es0, e, Wedged);
    CountStep(es, es0, e, Broke);
    MadeStep(Count(es0, Wedged));
    MadeStep(Count(es0, Broke));
    UpStep(es, es0, e, AsksAuth, Answered);
    hide Apply, McuShape, Count, Up, Keyed, Keyless, Writes, SetsRate, Wedged, Broke, AsksAuth, Answered;
  }

  lemma FifoShown(m: Mcu, es: seq<Event>, es0: seq<Event>, e: Event)
    requires LastIs(es, es0, e) && McuShape(m) && Sane(e) && FifoShows(m.fifo, es0) && m.control == Running(es0)
    ensures FifoShows(Apply(m, e).fifo, es)
  {
    match e
    case Command(cmd, v) => CommandShown(m, es, es0, cmd, v);
    case Other(env) => if env.TimerTick? { TickShown(m, es, es0); }
  }

  lemma CommandShown(m: Mcu, es: seq<Event>, es0: seq<Event>, cmd: nat, v: nat)
    requires LastIs(es, es0, Command(cmd, v)) && McuShape(m) && cmd < 256 && v < TWO32 && FifoShows(m.fifo, es0)
    ensures FifoShows(HandleFrame(m, Pack(cmd, v)).fifo, es)
  {
    var f := m.fifo;
    ExecuteFifo(m, cmd, v);
    ReadSeqKeeps(f);
    ReadValTakesOldest(f);
    RestartKeeps(f);
    SameQueue(f, SetPin(f));
    hide Queue, McuShape, Execute, Numbered;
  }

  lemma TickShown(m: Mcu, es: seq<Event>, es0: seq<Event>)
    requires LastIs(es, es0, Other(R.TimerTick)) && McuShape(m) && FifoShows(m.fifo, es0) && m.control == Running(es0)
    ensures FifoShows(Tick(m).fifo, es)
  {
    var f := m.fifo;
    var g := Push(f, f.seqCounter % 0x1_0000);
    PushQueues(f, f.seqCounter % 0x1_0000);
    PushKeepsPeek(f, f.seqCounter % 0x1_0000);
    NumberedPush(Queue(f), f.seqCounter);
    SameQueue(g, SetPin(g));
    hide Queue, McuShape, Numbered, Push;
    MadeStep(SamplesOf(es0).made);
    MadeStep(SamplesOf(es0).dropped);
  }

  lemma MadeStep(n: nat)
    ensures (n % TWO32 + 1) % TWO32 == (n + 1) % TWO32
  {
  }

  lemma PowerUpShows(m: Mcu)
    requires PowerUp(m)
    ensures Shows(m, [])
  {
  }

  lemma {:induction false} HistoryShows(m: Mcu, es: seq<Event>)
    requires PowerUp(m) && AllSane(es)
    ensures Shows(After(m, es), es)
    decreases |es|
  {
    if es == [] {
      PowerUpShows(m);
    } else {
      var es0, e := es[..|es| - 1], es[|es| - 1];
      HistoryShows(m, es0);
      var m0 := After(m, es0);
      assert m0.control == Running(es0);
      hide McuShape, PowerUp, StatusOf, WordsShow, FifoShows, Apply;
      StatusShows(m0, es, es0, e);
      WordsShown(m0, es, es0, e);
      FifoShown(m0, es, es0, e);
    }
  }

  lemma DataShows(m: Mcu, es: seq<Event>, addr: nat)
    requires McuShape(m) && FifoShows(m.fifo, es) && (addr == 0x06 || addr == 0x07)
    ensures ReadReg(m, addr).value == Expected(es, addr)
  {
    ReadValTakesOldest(m.fifo);
    if !Empty(m.fifo) { PopDequeues(m.fifo); }
    hide McuShape, Queue, Numbered, ReadSeq, ReadVal, ValResponse, SamplesOf;
  }

  lemma WordShows(m: Mcu, es: seq<Event>, addr: nat)
    requires McuShape(m) && Shows(m, es) && addr != 0x06 && addr != 0x07
    ensures (if Shown(m, addr) >= 0 then Shown(m, addr) else 0) == Expected(es, addr)
  {
    hide McuShape, Numbered, Up, Running, Count, RateOf, NonceOf, MacOf, CyclesOf, SamplesOf;
  }

  lemma ReadShows(m: Mcu, es: seq<Event>, addr: nat)
    requires McuShape(m) && Shows(m, es) && addr < 0x80
    ensures ReadReg(m, addr).value == Expected(es, addr)
  {
    if addr == 0x06 || addr == 0x07 {
      DataShows(m, es, addr);
    } else {
      WordShows(m, es, addr);
      hide McuShape, Shows, Expected, Shown;
    }
  }

  /** After any history whatever, a read of any address answers as that history says. */
  lemma ReadsTellHistory(m: Mcu, es: seq<Event>, addr: nat)
    requires PowerUp(m) && AllSane(es) && addr < 0x80
    ensures ReadReg(After(m, es), addr).value == Expected(es, addr)
  {
    HistoryShows(m, es);
    hide PowerUp, After, Shows, ReadReg, Expected;
    ReadShows(After(m, es), es, addr);
  }

  /** So does the frame that goes out next: a read is answered as the history says, a write
      with zero, both with the command as echo. */
  lemma FramesTellHistory(m: Mcu, es: seq<Event>, cmd: nat, v: nat)
    requires PowerUp(m) && AllSane(es) && cmd < 256 && v < TWO32
    ensures AllSane(es + [Command(cmd, v)])
    ensures
      var tx := After(m, es + [Command(cmd, v)]).tx;
      tx[0] == cmd && Unpack(tx) == if cmd < 0x80 then Expected(es, cmd) else 0
  {
    var es' := es + [Command(cmd, v)];
    assert es'[..|es'| - 1] == es && es'[|es'| - 1] == Command(cmd, v);
    if cmd < 0x80 { ReadsTellHistory(m, es, cmd); }
    hide PowerUp, Expected, ReadReg, WriteReg, Pack, Unpack;
  }
}
