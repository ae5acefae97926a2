/**
 The service model does run: every acceptable configuration has an initial state, and in a
 small one a subscriber comes, a sample is loaned and sent, and the subscriber gets it.
 */
module BusWitness {
  import L = Ledger
  import opened Channel
  import opened ChannelRing
  import opened Bus
  import opened BusRuns

  lemma Extend(cfg: Config, w: World, step: Step, w': World)
    requires Reachable(cfg, w) && IsStep(cfg, w, step, w')
    ensures Reachable(cfg, w')
  {
    hide GoodConfig, Init, IsStep;
    var run, steps :| IsRun(cfg, run, steps) && run[|run| - 1] == w;
    var run', steps' := run + [w'], steps + [step];
    assert forall k | 0 <= k < |steps'| :: IsStep(cfg, run'[k], steps'[k], run'[k + 1]);
    assert IsRun(cfg, run', steps') && run'[|run'| - 1] == w';
  }

  function FreeSlot(cfg: Config): Chan
  {
    Chan(Free, false, DropOldest, BlankRing(seq(cfg.cap, _ => 0)), DoneRing(seq(cfg.doneCap, _ => 0), 0, 0),
         Futex(0, false), Futex(0, false), Stats(0, 0, 0, 0), NoReader, [], 0, {}, 0)
  }

  function Start(cfg: Config): World {
    World(L.Ledger(seq(cfg.chunks, k requires 0 <= k < cfg.chunks => cfg.chunks - 1 - k), seq(cfg.chunks, _ => 0),
                   seq(cfg.slots, _ => seq(cfg.chunks, _ => 0))),
          {}, 1, seq(cfg.chunks, _ => Cell(0, 0)), seq(cfg.slots, _ => false), [], 0, Idle,
          seq(cfg.slots, _ => FreeSlot(cfg)))
  }

  /** Every acceptable configuration has a service that starts. */
  lemma ServiceStarts(cfg: Config)
    requires GoodConfig(cfg)
    ensures Reachable(cfg, Start(cfg))
  {
    var w := Start(cfg);
    assert 1 <= cfg.chunks;
    assert Init(cfg, w);
    hide GoodConfig, Init;
    assert IsRun(cfg, [w], []) && [w][|[w]| - 1] == w;
  }

  const SMALL := Config(1, 1, 1, 1, 3, 4)

  /** At rest, one slot, all three chunks free. */
  ghost predicate Fresh(w: World) {
    && Shaped(SMALL, w) && w.pc == Idle && w.list == [] && w.loaned == {} && w.nextSeq == 1
    && !w.onboard[0] && w.books.free == [2, 1, 0]
  }

  lemma StartIsFresh()
    ensures Reachable(SMALL, Start(SMALL)) && Fresh(Start(SMALL)) && Start(SMALL).chans[0] == FreeSlot(SMALL)
  {
    assert GoodConfig(SMALL);
    hide Reachable, GoodConfig;
    ServiceStarts(SMALL);
  }

  /** A subscriber takes the slot. */
  lemma SubscriberComes() returns (w: World)
    ensures Reachable(SMALL, w) && Fresh(w)
    ensures
      var ch := w.chans[0];
      && ch.state == Active && ch.policy == DropOldest && ch.reader == NoReader.(pc := Ready)
      && ch.ring.head == 0 && ch.ring.tail == 0 && ch.ring.log == [] && !ch.data.flag && !ch.space.flag
  {
    hide Reachable, GoodConfig, Start;
    StartIsFresh();
    var w0 := Start(SMALL);
    var w1 := Do(SMALL, w0, Sub(0, Life(Claim)));
    Extend(SMALL, w0, Sub(0, Life(Claim)), w1);
    var w2 := Do(SMALL, w1, Sub(0, Life(SetPid)));
    Extend(SMALL, w1, Sub(0, Life(SetPid)), w2);
    w := Do(SMALL, w2, Sub(0, Life(Activate(DropOldest))));
    Extend(SMALL, w2, Sub(0, Life(Activate(DropOldest))), w);
  }

  /** The publisher loans a chunk, sends it, and finds the subscriber. */
  lemma SampleIsSent(w: World) returns (w': World)
    requires Reachable(SMALL, w) && Fresh(w)
    requires w.chans[0].state == Active && w.chans[0].reader.alive && w.chans[0].policy == DropOldest
    ensures Reachable(SMALL, w') && Shaped(SMALL, w')
    ensures w'.pc == Sending(Entry(0, 1, w.mem[0].payload), [0], LoadTail)
    ensures w'.mem == w.mem[0 := Cell(1, w.mem[0].payload)] && w'.chans[0] == w.chans[0].(first := 1)
  {
    hide Reachable;
    var w1 := Do(SMALL, w, LoanBegin);
    Extend(SMALL, w, LoanBegin, w1);
    var w2 := Do(SMALL, w1, LoanTake);
    Extend(SMALL, w1, LoanTake, w2);
    var w3 := Do(SMALL, w2, SendBegin(0));
    Extend(SMALL, w2, SendBegin(0), w3);
    var w4 := Do(SMALL, w3, ScanOne(true));
    Extend(SMALL, w3, ScanOne(true), w4);
    hide L.Reclaim, L.ReleaseAll;
    OnlyOne(w4);
    w' := Do(SMALL, w4, ScanEnd);
    Extend(SMALL, w4, ScanEnd, w');
  }

  lemma OnlyOne(w: World)
    requires |w.chans| == |w.onboard| == 1 && w.onboard[0] && w.chans[0].policy == DropOldest
    ensures ActiveList(w) == [0]
  {
    assert Pass(w, false, 0) == [] && Pass(w, true, 0) == [];
  }

  /** It is queued for the subscriber. */
  lemma SampleIsQueued(w: World) returns (w': World)
    requires Reachable(SMALL, w) && Shaped(SMALL, w) && w.pc.Sending? && w.pc.todo == [0] && w.pc.at == LoadTail
    requires w.pc.entry.chunk == 0
    requires
      var ch := w.chans[0];
      ch.ring.head == 0 && ch.ring.tail == 0 && ch.ring.log == [] && !ch.data.flag
    ensures Reachable(SMALL, w') && Shaped(SMALL, w') && w'.pc == Sending(w.pc.entry, [], LoadTail) && w'.mem == w.mem
    ensures
      var ch, ch' := w.chans[0], w'.chans[0];
      && ch'.ring.head == 1 && ch'.ring.tail == 0 && ch'.ring.log == [w.pc.entry] && ch'.ring.buf[0] == 0
      && ch'.reader == ch.reader && ch'.space == ch.space
  {
    hide Reachable;
    var w1 := Do(SMALL, w, Deliver(Push(DLoadTail(TimeOut))));
    Extend(SMALL, w, Deliver(Push(DLoadTail(TimeOut))), w1);
    var w2 := Do(SMALL, w1, Deliver(Push(DStoreEntry)));
    Extend(SMALL, w1, Deliver(Push(DStoreEntry)), w2);
    var w3 := Do(SMALL, w2, Deliver(Push(DStoreHead)));
    Extend(SMALL, w2, Deliver(Push(DStoreHead)), w3);
    w' := Do(SMALL, w3, Deliver(Push(DLoadSleeping)));
    Extend(SMALL, w3, Deliver(Push(DLoadSleeping)), w');
  }

  /** And the subscriber takes it. */
  lemma SampleIsReceived(w: World, e: Entry) returns (w': World)
    requires Reachable(SMALL, w) && Shaped(SMALL, w) && w.pc == Sending(e, [], LoadTail) && e.chunk == 0
    requires w.mem[0] == Cell(e.seqno, e.payload)
    requires
      var ch := w.chans[0];
      && ch.ring.head == 1 && ch.ring.tail == 0 && ch.ring.log == [e] && ch.ring.buf[0] == 0
      && ch.reader == NoReader.(pc := Ready) && !ch.space.flag
    ensures Reachable(SMALL, w') && Shaped(SMALL, w') && w'.chans[0].reader.held == [e]
    ensures w'.chans[0].reader.received == 1 && w'.chans[0].reader.lastSeq == e.seqno
  {
    hide Reachable;
    var a := Sub(0, Pop(LoadTailForPop));
    var w1 := Do(SMALL, w, a);
    Extend(SMALL, w, a, w1);
    a := Sub(0, Pop(LoadHeadForPop));
    var w2 := Do(SMALL, w1, a);
    Extend(SMALL, w1, a, w2);
    a := Sub(0, Pop(LoadEntry));
    var w3 := Do(SMALL, w2, a);
    Extend(SMALL, w2, a, w3);
    a := Sub(0, Pop(CasTail));
    var w4 := Do(SMALL, w3, a);
    Extend(SMALL, w3, a, w4);
    a := Sub(0, Pop(LoadWaiting));
    var w5 := Do(SMALL, w4, a);
    Extend(SMALL, w4, a, w5);
    a := Sub(0, Pop(TakeSample));
    w' := Do(SMALL, w5, a);
    Extend(SMALL, w5, a, w');
  }

  /** So samples do arrive: a reachable state in which a subscriber holds the first one. */
  lemma ASampleArrives() returns (w: World)
    ensures Reachable(SMALL, w) && |w.chans| == 1
    ensures |w.chans[0].reader.held| == 1 && w.chans[0].reader.held[0].seqno == 1 && w.chans[0].reader.received == 1
  {
    hide Reachable;
    var w0 := SubscriberComes();
    var w1 := SampleIsSent(w0);
    var w2 := SampleIsQueued(w1);
    w := SampleIsReceived(w2, w1.pc.entry);
  }
}
