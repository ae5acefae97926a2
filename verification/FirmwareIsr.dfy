/**
 The interrupt handlers as they are written: global words and fixed buffers, changed in
 place. Every method computes the `Firmware` function of the same handler.
 */
module FirmwareIsr {
  import opened Arithmetic
  import opened Firmware
  import RegisterFile

  lemma EmptyFifo(f: Fifo)
    requires FifoShape(f) && f.head == f.tail && !f.peeked && !f.pin
    ensures LineInv(f)
  {
  }

  class Isr {
    const fifoBuf: array<Item>
    const txBuf: array<nat>
    const nonce: array<nat>
    const mac: array<nat>
    var head: nat
    var tail: nat
    var overflow: nat
    var seqCounter: nat
    var lastSeq: nat
    var lastVal: nat
    var peeked: bool
    var pin: bool
    var status: Status
    var control: bool
    var rate: nat
    var timer: bool
    var rearmFail: nat
    var errorCount: nat
    var cycles: nat
    var authRequest: bool

    ghost predicate Laid()
      reads this, txBuf
    {
      && fifoBuf.Length == DEPTH && txBuf.Length == 5 && nonce.Length == mac.Length == 4
      && nonce != mac && nonce != txBuf && mac != txBuf
      && (forall i | 0 <= i < 5 :: txBuf[i] < 256)
    }

    ghost function FifoModel(): Fifo
      reads this, fifoBuf
    {
      Fifo(fifoBuf[..], head, tail, overflow, seqCounter, lastSeq, lastVal, peeked, pin)
    }

    /** The firmware's state as a value. */
    ghost function Model(): Mcu
      requires Laid()
      reads this, fifoBuf, txBuf, nonce, mac
    {
      Mcu(FifoModel(), status, control, rate, timer, rearmFail, errorCount, nonce[..], mac[..], cycles, authRequest,
          txBuf[..])
    }

    ghost predicate Valid()
      reads this, fifoBuf, txBuf, nonce, mac
    {
      Laid() && McuShape(Model())
    }

    constructor ()
      ensures Valid() && fresh(fifoBuf) && fresh(txBuf) && fresh(nonce) && fresh(mac)
      ensures LineInv(Model().fifo) && RegisterFile.PowerUp(Model()) && Model().tx == Pack(REG_NOP, 0)
    {
      fifoBuf := new Item[DEPTH](_ => Item(0, 0));
      txBuf := new nat[5](i => if i == 0 then REG_NOP else 0);
      nonce := new nat[4](_ => 0);
      mac := new nat[4](_ => 0);
      head, tail, overflow, seqCounter, lastSeq, lastVal := 0, 0, 0, 0, 0, 0;
      peeked, pin, control, timer, authRequest := false, false, false, false, false;
      status := Status(false, false, false, false, false, false, false);
      rate, rearmFail, errorCount, cycles := 1000, 0, 0, 0;
      new;
      EmptyFifo(FifoModel());
      hide LineInv;
    }

    method FifoPush(value: nat)
      requires Valid() && value < TWO32
      modifies this`overflow, this`seqCounter, this`head, fifoBuf
      ensures Laid() && FifoModel() == Push(old(FifoModel()), value)
    {
      var next := (head + 1) % DEPTH;
      if next == tail {
        overflow := (overflow + 1) % TWO32;
        return;
      }
      fifoBuf[head] := Item(seqCounter, fifoBuf[head].value);
      seqCounter := (seqCounter + 1) % TWO32;
      fifoBuf[head] := fifoBuf[head].(value := value);
      head := next;
    }

    method FifoPeek() returns (any: bool)
      requires Valid()
      modifies this`lastSeq, this`lastVal
      ensures any == !Empty(old(FifoModel())) && FifoModel() == Peek(old(FifoModel()))
    {
      if head == tail { return false; }
      lastSeq := fifoBuf[tail].sequence;
      lastVal := fifoBuf[tail].value;
      return true;
    }

    method FifoPop()
      requires FifoShape(FifoModel())
      modifies this`tail
      ensures FifoModel() == PopOne(old(FifoModel()))
    {
      if head == tail { return; }
      tail := (tail + 1) % DEPTH;
    }

    method UpdateDataReady()
      modifies this`pin
      ensures FifoModel() == SetPin(old(FifoModel()))
    {
      pin := head != tail;
    }

    method ReadDataSeq() returns (v: nat)
      requires Valid()
      modifies this`lastSeq, this`lastVal, this`peeked
      ensures FifoModel() == ReadSeq(old(FifoModel()))
      ensures v == if Empty(old(FifoModel())) then 0 else old(fifoBuf[tail].sequence)
    {
      var any := FifoPeek();
      if any {
        peeked := true;
        return lastSeq;
      }
      return 0;
    }

    method ReadDataVal() returns (v: nat)
      requires Valid()
      modifies this`lastSeq, this`lastVal, this`peeked, this`tail, this`pin
      ensures FifoModel() == ReadVal(old(FifoModel())) && v == ValResponse(old(FifoModel()))
    {
      if peeked {
        peeked := false;
        FifoPop();
        UpdateDataReady();
        return lastVal;
      }
      var any := FifoPeek();
      if any {
        FifoPop();
        UpdateDataReady();
        return lastVal;
      }
      return 0;
    }

    method RegRead(addr: nat) returns (v: nat)
      requires Valid()
      modifies this
      ensures Valid() && Model() == ReadReg(old(Model()), addr).m && v == ReadReg(old(Model()), addr).value
    {
      ghost var after := ReadReg(Model(), addr);
      hide McuShape, Shown;
      if addr == REG_DATA_SEQ {
        v := ReadDataSeq();
      } else if addr == REG_DATA_VAL {
        v := ReadDataVal();
      } else {
        var shown := ShowReg(addr);
        if shown >= 0 { v := shown; } else { v := 0; status := status.(cmdErr := true); }
      }
      assert Model() == after.m;
    }

    /** The plain cases of the switch; -1 is its default. */
    method ShowReg(addr: nat) returns (v: int)
      requires Valid()
      ensures v == Shown(Model(), addr)
    {
      if addr == REG_DEVICE_ID { return DEVICE_ID; }
      if addr == REG_FW_VERSION { return FW_VERSION; }
      if addr == REG_STATUS { return StatusWord(status); }
      if addr == REG_CONTROL { return if control then 1 else 0; }
      if addr == REG_SAMPLE_RATE { return rate; }
      if addr == REG_NOP { return 0; }
      if addr == REG_FIFO_LEVEL { return if head >= tail then head - tail else DEPTH - tail + head; }
      if addr == REG_OVERFLOW_COUNT { return overflow; }
      if addr == REG_SPI_REARM_FAIL { return rearmFail; }
      if REG_AUTH_NONCE0 <= addr < REG_AUTH_NONCE0 + 4 { return nonce[addr - REG_AUTH_NONCE0]; }
      if REG_AUTH_MAC0 <= addr < REG_AUTH_MAC0 + 4 { return mac[addr - REG_AUTH_MAC0]; }
      if addr == REG_AUTH_CYCLES { return cycles; }
      if addr == REG_SPI_ERROR_COUNT { return errorCount; }
      return -1;
    }

    method RegWrite(addr: nat, v: nat)
      requires Valid() && v < TWO32
      modifies this, nonce
      ensures Valid() && Model() == WriteReg(old(Model()), addr, v)
    {
      ghost var after := WriteReg(Model(), addr, v);
      hide McuShape;
      if REG_AUTH_NONCE0 <= addr < REG_AUTH_NONCE0 + 4 {
        nonce[addr - REG_AUTH_NONCE0] := v;
      } else if addr == REG_AUTH_CTRL {
        if v % 2 == 1 {
          status := status.(authDone := false, authNoKey := false);
          status := status.(authBusy := true);
          authRequest := true;
        }
      } else if addr == REG_CONTROL {
        WriteControlReg(v);
      } else if addr == REG_SAMPLE_RATE {
        if 1 <= v <= 10000 { rate := v; } else { status := status.(rangeErr := true); }
      } else {
        status := status.(cmdErr := true);
      }
      assert Model() == after;
    }

    method WriteControlReg(v: nat)
      requires Valid()
      modifies this
      ensures Valid() && Model() == WriteControl(old(Model()), v)
    {
      ghost var after := WriteControl(Model(), v);
      hide McuShape, Restart, SetPin;
      if v / 2 % 2 == 1 { status := status.(cmdErr := false, rangeErr := false, resync := false); }
      if v % 2 == 1 { Start(); } else { Stop(); }
      assert Model() == after;
    }

    method Start()
      requires Laid()
      modifies `status, `control, `timer, `seqCounter, `head, `tail, `overflow, `peeked, `pin
      ensures FifoModel() == Restart(old(FifoModel()))
      ensures status == old(status).(running := true) && control && timer
    {
      hide Restart;
      control := true;
      status := status.(running := true);
      ResetFifo();
      timer := true;
    }

    method Stop()
      requires Laid()
      modifies `status, `control, `timer, `pin
      ensures FifoModel() == SetPin(old(FifoModel()))
      ensures status == old(status).(running := false) && !control && !timer
    {
      hide SetPin;
      control := false;
      status := status.(running := false);
      timer := false;
      UpdateDataReady();
    }

    method ResetFifo()
      modifies this`seqCounter, this`head, this`tail, this`overflow, this`peeked, this`pin
      ensures FifoModel() == Restart(old(FifoModel()))
    {
      seqCounter := 0;
      head := 0;
      tail := 0;
      overflow := 0;
      peeked := false;
      UpdateDataReady();
    }

    method StoreTx(out: Frame)
      requires Laid()
      modifies txBuf
      ensures txBuf[..] == out
    {
      txBuf[0], txBuf[1], txBuf[2], txBuf[3], txBuf[4] := out[0], out[1], out[2], out[3], out[4];
    }

    method HandleRx(rx: Frame)
      requires Valid()
      modifies this, nonce, txBuf
      ensures Valid() && Model() == HandleFrame(old(Model()), rx)
    {
      hide McuShape, WriteReg, ReadReg, Pack, Unpack;
      ghost var answer, after := Execute(Model(), rx[0], Unpack(rx)), HandleFrame(Model(), rx);
      var resp := 0;
      if rx[0] >= WRITE_FLAG {
        RegWrite(rx[0] - WRITE_FLAG, Unpack(rx));
      } else {
        resp := RegRead(rx[0]);
      }
      var out := Pack(rx[0], resp);
      assert Model() == answer.m && resp == answer.value;
      StoreTx(out);
      assert Laid() by { assert forall i | 0 <= i < 5 :: txBuf[i] == out[i]; }
      assert Model() == after;
    }

    method ErrorCallback(rearmed: bool)
      requires Valid()
      modifies `status, `errorCount, `rearmFail
      ensures Valid() && Model() == SpiError(old(Model()), rearmed)
    {
      ghost var after := SpiError(Model(), rearmed);
      hide McuShape;
      errorCount := (errorCount + 1) % TWO32;
      status := status.(resync := true);
      if !rearmed { rearmFail := (rearmFail + 1) % TWO32; }
      assert Model() == after;
    }

    method TimerCallback()
      requires Valid()
      modifies this, fifoBuf
      ensures Valid() && Model() == Tick(old(Model()))
    {
      ghost var after := Tick(Model());
      if control {
        FifoPush(seqCounter % 0x1_0000);
        UpdateDataReady();
      }
    }
  }
}
