/**
 The MCU firmware: sample FIFO, register file and SPI frame handler. Each function below is
 one interrupt handler run to its end; `Isr` is the same code as it is written, over fields
 and fixed buffers, proved to compute these functions.
 */
module Firmware {
  import opened Arithmetic

  const DEPTH: nat := 32

  const DEVICE_ID: nat := 0xAC00ACC0
  const FW_VERSION: nat := 0x00010400

  const REG_DEVICE_ID: nat := 0x00
  const REG_FW_VERSION: nat := 0x01
  const REG_STATUS: nat := 0x02
  const REG_CONTROL: nat := 0x03
  const REG_SAMPLE_RATE: nat := 0x04
  const REG_FIFO_LEVEL: nat := 0x05
  const REG_DATA_SEQ: nat := 0x06
  const REG_DATA_VAL: nat := 0x07
  const REG_OVERFLOW_COUNT: nat := 0x08
  const REG_SPI_REARM_FAIL: nat := 0x09
  const REG_SPI_ERROR_COUNT: nat := 0x0A
  const REG_AUTH_NONCE0: nat := 0x10
  const REG_AUTH_CTRL: nat := 0x14
  const REG_AUTH_MAC0: nat := 0x15
  const REG_AUTH_CYCLES: nat := 0x19
  const REG_NOP: nat := 0x7F
  const WRITE_FLAG: nat := 0x80

  // ---------------------------------------------------------------------------
  // Frames
  // ---------------------------------------------------------------------------

  /** Five bytes: command, then a big-endian word. */
  type Frame = f: seq<nat> | |f| == 5 && forall i | 0 <= i < 5 :: f[i] < 256 witness [0, 0, 0, 0, 0]

  function Pack(cmd: nat, v: nat): (f: Frame)
    requires cmd < 256 && v < TWO32
    ensures f[0] == cmd && Unpack(f) == v
    ensures f[1] == v / 0x100_0000 && f[2] == v / 0x1_0000 % 0x100 && f[3] == v / 0x100 % 0x100 && f[4] == v % 0x100
  {
    var a := v / 256;
    var b := a / 256;
    [cmd, b / 256, b % 256, a % 256, v % 256]
  }

  function Unpack(f: Frame): (v: nat)
    ensures v < TWO32
  {
    f[1] * 0x100_0000 + f[2] * 0x1_0000 + f[3] * 0x100 + f[4]
  }

  /** The other direction: a frame is its command byte and its word. */
  lemma PackUnpack(f: Frame)
    ensures Pack(f[0], Unpack(f)) == f
  {
    var v := Unpack(f);
    assert v / 256 == f[1] * 0x1_0000 + f[2] * 256 + f[3];
    assert v / 256 / 256 == f[1] * 256 + f[2];
  }

  // ---------------------------------------------------------------------------
  // The sample FIFO
  // ---------------------------------------------------------------------------

  datatype Item = Item(sequence: nat, value: nat)

  /** fifo_buf and the words around it. `pin` is the DATA_READY line. */
  datatype Fifo = Fifo(
    buf: seq<Item>, head: nat, tail: nat, overflow: nat, seqCounter: nat,
    lastSeq: nat, lastVal: nat, peeked: bool, pin: bool)

  ghost predicate FifoShape(f: Fifo) { |f.buf| == DEPTH && f.head < DEPTH && f.tail < DEPTH }

  function Level(f: Fifo): nat
    requires f.head < DEPTH && f.tail < DEPTH
  {
    if f.head >= f.tail then f.head - f.tail else DEPTH - f.tail + f.head
  }

  /** What is queued, oldest first. */
  function Queue(f: Fifo): (q: seq<Item>)
    requires FifoShape(f)
    ensures |q| == Level(f) < DEPTH
  {
    seq(Level(f), i requires 0 <= i < Level(f) => f.buf[(f.tail + i) % DEPTH])
  }

  predicate Empty(f: Fifo) { f.head == f.tail }

  function Push(f: Fifo, value: nat): Fifo
    requires FifoShape(f)
  {
    var next := (f.head + 1) % DEPTH;
    if next == f.tail then f.(overflow := (f.overflow + 1) % TWO32)
    else f.(buf := f.buf[f.head := Item(f.seqCounter, value)], seqCounter := (f.seqCounter + 1) % TWO32, head := next)
  }

  function Peek(f: Fifo): Fifo
    requires FifoShape(f)
  {
    if Empty(f) then f else f.(lastSeq := f.buf[f.tail].sequence, lastVal := f.buf[f.tail].value)
  }

  function PopOne(f: Fifo): Fifo
    requires FifoShape(f)
  {
    if Empty(f) then f else f.(tail := (f.tail + 1) % DEPTH)
  }

  function SetPin(f: Fifo): Fifo { f.(pin := !Empty(f)) }

  /** Reading DATA_SEQ shows the oldest item without removing it. */
  function ReadSeq(f: Fifo): Fifo
    requires FifoShape(f)
  {
    if Empty(f) then f else Peek(f).(peeked := true)
  }

  /** Reading DATA_VAL removes the item DATA_SEQ showed, or else the oldest one. */
  function ReadVal(f: Fifo): Fifo
    requires FifoShape(f)
  {
    if f.peeked then SetPin(PopOne(f.(peeked := false)))
    else if !Empty(f) then SetPin(PopOne(Peek(f)))
    else f
  }

  function ValResponse(f: Fifo): nat
    requires FifoShape(f)
  {
    if f.peeked then f.lastVal else if !Empty(f) then f.buf[f.tail].value else 0
  }

  function Restart(f: Fifo): Fifo {
    SetPin(f.(seqCounter := 0, head := 0, tail := 0, overflow := 0, peeked := false))
  }

  // ---------------------------------------------------------------------------
  // Registers
  // ---------------------------------------------------------------------------

  datatype Status = Status(
    running: bool, cmdErr: bool, rangeErr: bool, resync: bool, authBusy: bool, authDone: bool, authNoKey: bool)

  function Bit(b: bool, weight: nat): nat { if b then weight else 0 }

  function StatusWord(s: Status): (v: nat)
    ensures v < 128
  {
    Bit(s.running, 1) + Bit(s.cmdErr, 2) + Bit(s.rangeErr, 4) + Bit(s.resync, 8) + Bit(s.authBusy, 16)
    + Bit(s.authDone, 32) + Bit(s.authNoKey, 64)
  }

  datatype Mcu = Mcu(
    fifo: Fifo, status: Status, control: bool, rate: nat, timer: bool,
    rearmFail: nat, errorCount: nat, nonce: seq<nat>, mac: seq<nat>, cycles: nat, authRequest: bool, tx: Frame)

  ghost predicate McuShape(m: Mcu) {
    && FifoShape(m.fifo) && |m.nonce| == |m.mac| == 4
    && (forall i | 0 <= i < DEPTH :: m.fifo.buf[i].sequence < TWO32 && m.fifo.buf[i].value < TWO32)
    && m.fifo.overflow < TWO32 && m.fifo.seqCounter < TWO32 && m.fifo.lastSeq < TWO32 && m.fifo.lastVal < TWO32
    && 1 <= m.rate <= 10000 && m.rearmFail < TWO32 && m.errorCount < TWO32 && m.cycles < TWO32
    && (forall i | 0 <= i < 4 :: m.nonce[i] < TWO32 && m.mac[i] < TWO32)
  }

  datatype Reply = Reply(m: Mcu, value: nat)

  /** The registers that only show a stored word, or nothing for an unknown address. */
  function Shown(m: Mcu, addr: nat): (v: int)
    requires McuShape(m)
    ensures -1 <= v < TWO32
  {
    if addr == REG_DEVICE_ID then DEVICE_ID
    else if addr == REG_FW_VERSION then FW_VERSION
    else if addr == REG_STATUS then StatusWord(m.status)
    else if addr == REG_CONTROL then Bit(m.control, 1)
    else if addr == REG_SAMPLE_RATE then m.rate
    else if addr == REG_NOP then 0
    else if addr == REG_FIFO_LEVEL then Level(m.fifo)
    else if addr == REG_OVERFLOW_COUNT then m.fifo.overflow
    else if addr == REG_SPI_REARM_FAIL then m.rearmFail
    else if REG_AUTH_NONCE0 <= addr < REG_AUTH_NONCE0 + 4 then m.nonce[addr - REG_AUTH_NONCE0]
    else if REG_AUTH_MAC0 <= addr < REG_AUTH_MAC0 + 4 then m.mac[addr - REG_AUTH_MAC0]
    else if addr == REG_AUTH_CYCLES then m.cycles
    else if addr == REG_SPI_ERROR_COUNT then m.errorCount
    else -1
  }

  function ReadReg(m: Mcu, addr: nat): (r: Reply)
    requires McuShape(m)
    ensures McuShape(r.m) && r.value < TWO32 && r.m.tx == m.tx
  {
    var f := m.fifo;
    if addr == REG_DATA_SEQ then Reply(m.(fifo := ReadSeq(f)), if Empty(f) then 0 else f.buf[f.tail].sequence)
    else if addr == REG_DATA_VAL then Reply(m.(fifo := ReadVal(f)), ValResponse(f))
    else if Shown(m, addr) >= 0 then Reply(m, Shown(m, addr))
    else Reply(m.(status := m.status.(cmdErr := true)), 0)
  }

  /** Bit 1 of a CONTROL write clears the error flags, bit 0 starts or stops. */
  function WriteControl(m: Mcu, v: nat): (r: Mcu)
    requires McuShape(m)
    ensures McuShape(r) && r.tx == m.tx
  {
    var s := m.status;
    var s := if v / 2 % 2 == 1 then s.(cmdErr := false, rangeErr := false, resync := false) else s;
    if v % 2 == 1 then
      m.(status := s.(running := true), control := true, fifo := Restart(m.fifo), timer := true)
    else
      m.(status := s.(running := false), control := false, fifo := SetPin(m.fifo), timer := false)
  }

  function WriteReg(m: Mcu, addr: nat, v: nat): (r: Mcu)
    requires McuShape(m) && v < TWO32
    ensures McuShape(r) && r.tx == m.tx
  {
    if REG_AUTH_NONCE0 <= addr < REG_AUTH_NONCE0 + 4 then m.(nonce := m.nonce[addr - REG_AUTH_NONCE0 := v])
    else if addr == REG_AUTH_CTRL then
      if v % 2 == 1 then
        m.(status := m.status.(authDone := false, authNoKey := false, authBusy := true), authRequest := true)
      else m
    else if addr == REG_CONTROL then WriteControl(m, v)
    else if addr == REG_SAMPLE_RATE then
      if 1 <= v <= 10000 then m.(rate := v) else m.(status := m.status.(rangeErr := true))
    else m.(status := m.status.(cmdErr := true))
  }

  /** The registers a host may write. */
  predicate Writable(addr: nat) {
    addr == REG_CONTROL || addr == REG_SAMPLE_RATE || addr == REG_AUTH_CTRL
    || REG_AUTH_NONCE0 <= addr < REG_AUTH_NONCE0 + 4
  }

  /** A register that accepts a value shows it; one that refuses keeps what it had and raises
      a flag. */
  lemma WrittenIsRead(m: Mcu, addr: nat, v: nat)
    requires McuShape(m) && v < TWO32
    ensures REG_AUTH_NONCE0 <= addr < REG_AUTH_NONCE0 + 4 || (addr == REG_SAMPLE_RATE && 1 <= v <= 10000) ==>
              ReadReg(WriteReg(m, addr, v), addr).value == v
    ensures addr == REG_CONTROL ==>
              && ReadReg(WriteReg(m, addr, v), addr).value == v % 2
              && ReadReg(WriteReg(m, addr, v), REG_STATUS).value % 2 == v % 2
              && WriteReg(m, addr, v).timer == (v % 2 == 1)
    ensures addr == REG_SAMPLE_RATE && !(1 <= v <= 10000) ==>
              WriteReg(m, addr, v) == m.(status := m.status.(rangeErr := true))
    ensures !Writable(addr) ==> WriteReg(m, addr, v) == m.(status := m.status.(cmdErr := true))
  {
    assert |m.nonce| == 4;
    hide McuShape, ReadSeq, ReadVal, ValResponse, Restart, SetPin;
    if addr == REG_CONTROL { RunningBit(WriteControl(m, v).status); }
  }

  lemma RunningBit(s: Status)
    ensures StatusWord(s) % 2 == if s.running then 1 else 0
  {
  }

  /** What the MCU answers to a command byte, and what the command does to it. */
  function Execute(m: Mcu, cmd: nat, v: nat): (r: Reply)
    requires McuShape(m) && cmd < 256 && v < TWO32
    ensures McuShape(r.m) && r.value < TWO32 && r.m.tx == m.tx
  {
    if cmd >= WRITE_FLAG then Reply(WriteReg(m, cmd - WRITE_FLAG, v), 0) else ReadReg(m, cmd)
  }

  /** One received frame: the answer waits in tx for the next one. */
  function HandleFrame(m: Mcu, rx: Frame): (r: Mcu)
    requires McuShape(m)
    ensures McuShape(r)
  {
    var a := Execute(m, rx[0], Unpack(rx));
    a.m.(tx := Pack(rx[0], a.value))
  }

  /** The sample timer: one synthesized sample while acquisition is on. */
  function Tick(m: Mcu): (r: Mcu)
    requires McuShape(m)
    ensures McuShape(r) && r.tx == m.tx
  {
    if m.control then m.(fifo := SetPin(Push(m.fifo, m.fifo.seqCounter % 0x1_0000))) else m
  }

  /** An SPI error interrupt: counted, flagged, re-armed with the same answer. */
  function SpiError(m: Mcu, rearmed: bool): (r: Mcu)
    requires McuShape(m)
    ensures McuShape(r) && r.tx == m.tx && r.fifo == m.fifo
  {
    m.(status := m.status.(resync := true), errorCount := (m.errorCount + 1) % TWO32,
       rearmFail := if rearmed then m.rearmFail else (m.rearmFail + 1) % TWO32)
  }

  // ---------------------------------------------------------------------------
  // What the handlers keep
  // ---------------------------------------------------------------------------

  /** Consecutive numbers modulo 2^32 ending just below the counter, each value the low 16
      bits of its number. */
  ghost predicate Numbered(q: seq<Item>, counter: nat) {
    forall i | 0 <= i < |q| ::
      q[i].sequence == (counter - (|q| - i)) % TWO32 && q[i].value == q[i].sequence % 0x1_0000
  }

  ghost predicate FifoInv(f: Fifo) {
    && FifoShape(f)
    && Numbered(Queue(f), f.seqCounter)
    && (f.peeked ==> !Empty(f) && Item(f.lastSeq, f.lastVal) == Queue(f)[0])
  }

  /** With handlers that run to their end, the line is up exactly while something is queued. */
  ghost predicate LineInv(f: Fifo) { FifoInv(f) && f.pin == !Empty(f) }

  /** The index arithmetic: one push appends, unless 31 items are queued already. */
  lemma PushQueues(f: Fifo, value: nat)
    requires FifoShape(f)
    ensures FifoShape(Push(f, value))
    ensures Level(f) == DEPTH - 1 ==> Push(f, value) == f.(overflow := (f.overflow + 1) % TWO32)
    ensures Level(f) < DEPTH - 1 ==>
              Queue(Push(f, value)) == Queue(f) + [Item(f.seqCounter, value)]
  {
    var f' := Push(f, value);
    if Level(f) < DEPTH - 1 {
      assert Level(f') == Level(f) + 1;
      forall i | 0 <= i < Level(f')
        ensures Queue(f')[i] == (Queue(f) + [Item(f.seqCounter, value)])[i]
      {
      }
    }
  }

  lemma PopDequeues(f: Fifo)
    requires FifoShape(f) && !Empty(f)
    ensures FifoShape(PopOne(f)) && Queue(PopOne(f)) == Queue(f)[1..]
    ensures Queue(f)[0] == f.buf[f.tail]
  {
    var f' := PopOne(f);
    assert Level(f') == Level(f) - 1;
    forall i | 0 <= i < Level(f')
      ensures Queue(f')[i] == Queue(f)[i + 1]
    {
    }
  }

  lemma NumberedPush(q: seq<Item>, counter: nat)
    requires Numbered(q, counter) && counter < TWO32
    ensures Numbered(q + [Item(counter, counter % 0x1_0000)], (counter + 1) % TWO32)
  {
    var q' := q + [Item(counter, counter % 0x1_0000)];
    forall i | 0 <= i < |q'|
      ensures q'[i].sequence == ((counter + 1) % TWO32 - (|q'| - i)) % TWO32
    {
      ModShift(counter + 1, |q'| - i);
    }
  }

  lemma ModShift(a: int, b: int)
    ensures (a % TWO32 - b) % TWO32 == (a - b) % TWO32
  {
    var k := a / TWO32;
    assert a == k * TWO32 + a % TWO32;
  }

  lemma TickKeeps(m: Mcu)
    requires McuShape(m) && LineInv(m.fifo)
    ensures LineInv(Tick(m).fifo)
  {
    var f := m.fifo;
    if m.control {
      var g := Push(f, f.seqCounter % 0x1_0000);
      PushQueues(f, f.seqCounter % 0x1_0000);
      NumberedPush(Queue(f), f.seqCounter);
      SameQueue(g, SetPin(g));
      PushKeepsPeek(f, f.seqCounter % 0x1_0000);
    }
    hide Queue, Numbered, Push;
  }

  lemma PushKeepsPeek(f: Fifo, value: nat)
    requires FifoShape(f)
    ensures
      var g := Push(f, value);
      && g.peeked == f.peeked && g.lastSeq == f.lastSeq && g.lastVal == f.lastVal
      && (Level(f) < DEPTH - 1 ==> g.seqCounter == (f.seqCounter + 1) % TWO32)
      && (!Empty(f) ==> !Empty(g))
  {
  }

  lemma ReadSeqKeeps(f: Fifo)
    requires FifoInv(f)
    ensures FifoInv(ReadSeq(f)) && Queue(ReadSeq(f)) == Queue(f)
    ensures !Empty(f) ==> ReadSeq(f).peeked && Item(ReadSeq(f).lastSeq, ReadSeq(f).lastVal) == Queue(f)[0]
  {
  }

  /** Reading DATA_VAL answers with the oldest item's value and removes that item. */
  lemma ReadValTakesOldest(f: Fifo)
    requires FifoInv(f)
    ensures FifoInv(ReadVal(f)) && !ReadVal(f).peeked
    ensures if Empty(f) then ReadVal(f) == f && ValResponse(f) == 0
            else Queue(ReadVal(f)) == Queue(f)[1..] && ValResponse(f) == Queue(f)[0].value
    ensures !Empty(f) ==> ReadVal(f).pin == !Empty(ReadVal(f))
  {
    if !Empty(f) {
      var g := if f.peeked then f.(peeked := false) else Peek(f);
      SameQueue(f, g);
      PopDequeues(g);
      var h := PopOne(g);
      SameQueue(h, SetPin(h));
      NumberedTail(Queue(f), f.seqCounter);
    }
    hide Queue, Numbered;
  }

  lemma SameQueue(f: Fifo, g: Fifo)
    requires FifoShape(f) && g == f.(lastSeq := g.lastSeq, lastVal := g.lastVal, peeked := g.peeked, pin := g.pin)
    ensures FifoShape(g) && Queue(g) == Queue(f)
  {
  }

  lemma NumberedTail(q: seq<Item>, counter: nat)
    requires q != [] && Numbered(q, counter)
    ensures Numbered(q[1..], counter)
  {
    var t := q[1..];
    forall i | 0 <= i < |t|
      ensures t[i].sequence == (counter - (|t| - i)) % TWO32 && t[i].value == t[i].sequence % 0x1_0000
    {
      assert t[i] == q[i + 1];
    }
  }

  lemma RestartKeeps(f: Fifo)
    requires FifoShape(f)
    ensures LineInv(Restart(f)) && Queue(Restart(f)) == [] && !Restart(f).pin
  {
  }

  /** What a command does to the FIFO. */
  function FifoAfter(f: Fifo, cmd: nat, v: nat): Fifo
    requires FifoShape(f)
  {
    if cmd == REG_DATA_SEQ then ReadSeq(f)
    else if cmd == REG_DATA_VAL then ReadVal(f)
    else if cmd == WRITE_FLAG + REG_CONTROL then (if v % 2 == 1 then Restart(f) else SetPin(f))
    else f
  }

  lemma ExecuteFifo(m: Mcu, cmd: nat, v: nat)
    requires McuShape(m) && cmd < 256 && v < TWO32
    ensures Execute(m, cmd, v).m.fifo == FifoAfter(m.fifo, cmd, v)
  {
    hide McuShape, ReadSeq, ReadVal, Restart, SetPin;
  }

  lemma ExecuteKeeps(m: Mcu, cmd: nat, v: nat)
    requires McuShape(m) && LineInv(m.fifo) && cmd < 256 && v < TWO32
    ensures LineInv(Execute(m, cmd, v).m.fifo)
  {
    hide McuShape, Execute, Queue, Numbered, ReadSeq, ReadVal, Restart, SetPin;
    ExecuteFifo(m, cmd, v);
    FifoAfterKeeps(m.fifo, cmd, v);
  }

  lemma FifoAfterKeeps(f: Fifo, cmd: nat, v: nat)
    requires LineInv(f)
    ensures LineInv(FifoAfter(f, cmd, v))
  {
    if cmd == REG_DATA_SEQ {
      ReadSeqKeeps(f);
    } else if cmd == REG_DATA_VAL {
      ReadValTakesOldest(f);
    } else if cmd == WRITE_FLAG + REG_CONTROL {
      RestartKeeps(f);
      PinKeeps(f);
    }
    hide FifoInv;
  }

  lemma PinKeeps(f: Fifo)
    requires FifoInv(f)
    ensures LineInv(SetPin(f)) && FifoShape(f)
  {
    assert Queue(SetPin(f)) == Queue(f);
  }
}
