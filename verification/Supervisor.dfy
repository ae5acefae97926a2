/**
 The supervisor: applies events one at a time, carries out the device actions each change
 of state needs, and runs the long recovery and calibration procedures. Everything that is
 not up to it -- whether a device action fails, whether samples flow, whether the worker
 has died, what other threads post meanwhile -- is decided by arbitrary oracles.
 */
module Supervisor {
  import opened Arithmetic
  import opened DeviceState

  const HISTORY_LEN: nat := 32

  /** A write to the device's control attribute, and whether it succeeded. */
  datatype Write = Write(on: bool, ok: bool)

  ghost predicate LastWrite(writes: seq<Write>, on: bool) {
    writes != [] && writes[|writes| - 1] == Write(on, true)
  }

  /** The device was last stopped and started again. */
  ghost predicate SoftReset(writes: seq<Write>) {
    2 <= |writes| && writes[|writes| - 2] == Write(false, true) && LastWrite(writes, true)
  }

  /** What each resting state says about the device. */
  ghost predicate DeviceAgrees(state: State, writes: seq<Write>) {
    && (state == Init ==> writes == [])
    && (state == Running ==> LastWrite(writes, true))
    && (state == Paused ==> LastWrite(writes, false))
    && (state == Ready && writes != [] ==> LastWrite(writes, false))
  }

  /** The newest entries of the run, at most 32. */
  ghost predicate IsRecent(history: seq<Change>, changes: seq<Change>) {
    && |history| == (if |changes| <= HISTORY_LEN then |changes| else HISTORY_LEN)
    && history == changes[|changes| - |history|..]
  }

  /** States no follow-up can come back from within the same event. */
  ghost predicate Last(state: State, failed: bool) { failed || state == Recovering || state == Calibrating }

  /** How the long procedures may end, but for a Stop. */
  ghost predicate Follows(state: State, e: Event) {
    || (state == Recovering && (e == Recovered || e == RecoveryFailed))
    || (state == Calibrating && (e == CalibrationDone || e == DeviceError))
  }

  /** After a failed action, DeviceError has somewhere to go. */
  ghost predicate CanFail(state: State) { state == Ready || state == Running || state == Paused }

  /** The backoffs of `n` failed attempts together: backoff * (1 + 2 + 4 + ...). */
  ghost function Waited(backoff: nat, n: int): nat { if n < 0 then 0 else backoff * (Pow2(n) - 1) }

  lemma NoWait(backoff: nat)
    ensures forall n | n <= 0 :: Waited(backoff, n) == 0
    ensures forall n :: 0 <= Waited(backoff, n)
  {
  }

  lemma WaitedStep(backoff: nat, k: nat)
    ensures Waited(backoff, k) + backoff * Pow2(k) == Waited(backoff, k + 1)
  {
  }

  lemma {:induction false} WaitedGrows(backoff: nat, j: nat, k: nat)
    requires j <= k
    ensures Waited(backoff, j) <= Waited(backoff, k)
    decreases k
  {
    if j < k {
      WaitedGrows(backoff, j, k - 1);
      WaitedStep(backoff, k - 1);
    }
  }

  /** What the table says that the procedures rely on. */
  lemma TableFacts(from: State, e: Event)
    ensures
      var to := Transition(from, e);
      && (e == Stop ==> to == if from == Stopped then None else Some(Stopped))
      && (to == Some(Stopped) ==> e == Stop)
      && (from == Stopped ==> to == None)
      && (to == Some(Ready) ==> from == Init || (from == Calibrating && e == CalibrationDone))
      && (to == Some(Running) ==> from == Ready || from == Paused || (from == Recovering && e == Recovered))
      && (e == Recovered && from == Recovering ==> to == Some(Running))
      && (to == Some(Paused) ==> from == Running)
      && (CanFail(from) && e == DeviceError ==> to == Some(Fault))
      && (Last(from, false) && to.Some? ==> to.value == Running || to.value == Fault || to.value == Ready || to.value == Stopped)
      && (from == Recovering && to.Some? && to.value == Running ==> e == Recovered)
  {
  }

  /** One more write, and how it went. */
  ghost predicate Wrote(before: seq<Write>, after: seq<Write>, on: bool) {
    |after| == |before| + 1 && before <= after && after[|before|].on == on
  }

  /** The writes a prepared change leaves behind. */
  ghost predicate Prepared(from: State, to: State, ok: bool, before: seq<Write>, after: seq<Write>) {
    if NeedsDevice(from, to) then after == before + [Write(to == Running, ok)]
    else ok && if to == Stopped then Wrote(before, after, false) else after == before
  }

  /** The changes that only come about if the device does as told. */
  predicate NeedsDevice(from: State, to: State) { to == Paused || (to == Running && (from == Ready || from == Paused)) }

  /** Only starting and pausing can fail, and never as the follow-up of a failure. */
  lemma FailureLeads(from: State, e: Event, to: State, before: seq<Write>, after: seq<Write>)
    requires Transition(from, e) == Some(to) && Prepared(from, to, false, before, after)
    ensures CanFail(from) && e != DeviceError && e != Stop && !Internal(e)
  {
  }

  lemma DeviceFollows(from: State, e: Event, to: State, before: seq<Write>, after: seq<Write>)
    requires Transition(from, e) == Some(to) && Prepared(from, to, true, before, after)
    requires DeviceAgrees(from, before) || (CanFail(from) && e == DeviceError)
    requires e == Recovered ==> LastWrite(before, true)
    requires e == CalibrationDone ==> LastWrite(before, false)
    ensures DeviceAgrees(to, after)
  {
  }

  /** What other threads may post. */
  type Outside = e: Event | !Internal(e) witness Stop

  /** Other threads have posted meanwhile: the queue has grown at its end, and the stop flag
      is up if one of them posted a Stop. */
  ghost predicate Posted(queue: seq<Event>, stop: bool, queue': seq<Event>, stop': bool) {
    && queue <= queue' && (stop ==> stop') && (stop' && !stop ==> Stop in queue')
    && forall k | |queue| <= k < |queue'| :: !Internal(queue'[k]) && (queue'[k] == Stop ==> stop')
  }

  lemma PostedMore(q0: seq<Event>, p0: bool, queue: seq<Event>, stop: bool, posts: seq<Outside>)
    requires Posted(q0, p0, queue, stop)
    ensures Posted(q0, p0, queue + posts, stop || Stop in posts)
    ensures Stop in queue || Stop in posts ==> Stop in queue + posts
  {
  }

  lemma NothingPosted(queue: seq<Event>, stop: bool)
    ensures Posted(queue, stop, queue, stop)
  {
  }

  /** A point in time to measure from: what was queued, whether a Stop had been noticed, and
      the event about to be applied. */
  datatype Mark = Mark(queue: seq<Event>, stop: bool, next: Option<Event>)

  // ---------------------------------------------------------------------------
  // What applying an event does
  // ---------------------------------------------------------------------------

  /** Where the supervisor stands: its state, its changes so far and its writes to the device. */
  datatype Stand = Stand(state: State, changes: seq<Change>, writes: seq<Write>)

  /** One round: nothing if the table has no change for the event; the change, if the device
      did as told; else one failed write. */
  ghost predicate Handled(e: Event, s: Stand, failed: bool, s': Stand) {
    var to := Transition(s.state, e);
    if to == None then !failed && s' == s
    else if failed then
      NeedsDevice(s.state, to.value) && s' == s.(writes := s.writes + [Write(to.value == Running, false)])
    else
      && s'.changes == s.changes + [Change(s.state, to.value, e)] && s'.state == to.value
      && (NeedsDevice(s.state, to.value) ==> s'.writes == s.writes + [Write(to.value == Running, true)])
      && (to.value == Fault || to.value == Stopped ==> Wrote(s.writes, s'.writes, false))
      && (to.value == Ready || (to.value == Running && s.state == Recovering) ==> s'.writes == s.writes)
  }

  /** A whole apply(). Nothing, if the table has no change for the event. If the device refused
      to start or pause: that one failed write, then Fault on a DeviceError. Else the change,
      and after Recovering or Calibrating the change their outcome calls for -- or none, if a
      Stop is pending. */
  ghost predicate Applied(e: Event, s: Stand, s': Stand, stop: bool) {
    var to, n := Transition(s.state, e), |s.changes|;
    if to == None then s' == s
    else if s'.changes == s.changes + [Change(s.state, Fault, DeviceError)] && e != DeviceError then
      && NeedsDevice(s.state, to.value) && s'.state == Fault
      && Wrote(s.writes + [Write(to.value == Running, false)], s'.writes, false)
    else if to.value == Recovering || to.value == Calibrating then
      var c := Change(s.state, to.value, e);
      || (s'.changes == s.changes + [c] && s'.state == to.value && stop)
      || (|s'.changes| == n + 2 && s'.changes[..n + 1] == s.changes + [c] && Follows(to.value, s'.changes[n + 1].event)
          && s'.changes[n + 1] == Change(to.value, s'.state, s'.changes[n + 1].event))
    else Handled(e, s, false, s')
  }

  lemma FirstRound(e: Event, s: Stand, failed: bool, s': Stand, stop: bool)
    requires Handled(e, s, failed, s') && !failed
    requires s'.changes != s.changes && (s'.state == Recovering || s'.state == Calibrating) ==> stop
    ensures Applied(e, s, s', stop)
  {
    TableFacts(s.state, e);
    hide Transition;
    if s'.changes == s.changes + [Change(s.state, Fault, DeviceError)] {
      assert s'.changes[|s.changes|] == Change(s.state, Fault, DeviceError);
    }
  }

  /** The second round completes what the first began. */
  lemma SecondRound(e: Event, s: Stand, failed: bool, s1: Stand, next: Event, s2: Stand, stop: bool)
    requires Handled(e, s, failed, s1) && Handled(next, s1, false, s2)
    requires if failed then next == DeviceError && CanFail(s.state) && e != DeviceError
             else Transition(s.state, e).Some? && Follows(s1.state, next)
    ensures Applied(e, s, s2, stop)
  {
    TableFacts(s.state, e);
    TableFacts(s1.state, next);
    hide Transition;
    if !failed {
      FollowUps(s1.state, next);
      assert s2.changes[|s.changes|] == Change(s.state, s1.state, e);
      assert s2.changes[..|s.changes| + 1] == s1.changes;
    }
  }

  lemma AppliedIsShort(e: Event, s: Stand, s': Stand, stop: bool)
    requires Applied(e, s, s', stop)
    ensures |s'.changes| <= |s.changes| + 2 && s.changes <= s'.changes
  {
    hide Transition;
    if |s'.changes| == |s.changes| + 2 { assert s.changes <= s'.changes[..|s.changes| + 1]; }
  }

  lemma FollowUps(state: State, e: Event)
    requires Follows(state, e)
    ensures Transition(state, e).Some?
  {
  }

  ghost predicate External(queue: seq<Event>) { forall k | 0 <= k < |queue| :: !Internal(queue[k]) }

  /** How many events are ahead of the first Stop. */
  ghost function Ahead(queue: seq<Event>): nat
    requires Stop in queue
  {
    if queue[0] == Stop then 0 else 1 + Ahead(queue[1..])
  }

  lemma {:induction false} AheadStays(before: seq<Event>, after: seq<Event>)
    requires before <= after && Stop in before
    ensures Stop in after && Ahead(after) == Ahead(before)
    decreases |before|
  {
    assert after[0] == before[0];
    if before[0] != Stop {
      assert Stop in before[1..] && before[1..] <= after[1..];
      AheadStays(before[1..], after[1..]);
    }
  }

  /** What a wait on the device may end in. */
  datatype Sight = Samples | Death | Interruption | Nothing

  /** A recovery attempt: the first question it asks, and whether a Stop was pending by then. */
  datatype Try = Try(at: nat, stop: bool)

  class Supervisor {
    const maxAttempts: int
    const backoff: nat
    const polls: nat
    const oracle: nat -> bool
    const mail: nat -> seq<Outside>
    var asked: nat
    var state: State
    var history: seq<Change>
    var queue: seq<Event>
    var stopPending: bool
    var faults: nat
    var recoveries: nat
    var recoveryAttempts: nat
    var calibratorAttached: bool
    ghost var changes: seq<Change>
    ghost var writes: seq<Write>
    ghost var slept: nat
    ghost var startThrew: bool

    constructor (maxAttempts: int, backoff: nat, polls: nat, oracle: nat -> bool, mail: nat -> seq<Outside>)
      requires maxAttempts <= 31
      ensures Rests() && state == Init && queue == [] && !stopPending && changes == []
      ensures this.maxAttempts == maxAttempts && this.backoff == backoff && this.polls == polls
      ensures this.oracle == oracle && this.mail == mail
    {
      this.maxAttempts, this.backoff, this.polls, this.oracle := maxAttempts, backoff, polls, oracle;
      this.mail := mail;
      asked, state, history, queue, stopPending := 0, Init, [], [], false;
      faults, recoveries, recoveryAttempts, calibratorAttached := 0, 0, 0, false;
      changes, writes, slept, startThrew := [], [], 0, false;
      new;
      hide Transition;
      assert Linked([], Init) && Entries([], Fault) == 0 && Comebacks([]) == 0;
    }

    // -------------------------------------------------------------------------
    // Invariants
    // -------------------------------------------------------------------------

    /** The record of the run. */
    ghost predicate Recorded()
      reads this
    {
      && Linked(changes, state) && IsRecent(history, changes)
      && (if changes == [] then state == Init else changes[0].from == Init)
    }

    /** A Stop that has been noticed is still to come out of the queue. */
    ghost predicate StopComes(next: Option<Event>)
      reads `queue, `stopPending, `state
    {
      stopPending ==> Stop in queue || state == Stopped || next == Some(Stop)
    }

    /** In between: `next` is about to be applied; `failed` says a device action has just
        failed and `next` is the DeviceError for it. */
    ghost predicate Settled(next: Option<Event>, failed: bool)
      reads this
    {
      && Recorded() && StopComes(next)
      && faults == Entries(changes, Fault)
      && recoveries == Comebacks(changes) + (if next == Some(Recovered) then 1 else 0)
      && (next == Some(Recovered) ==> state == Recovering && LastWrite(writes, true))
      && (next == Some(RecoveryFailed) ==> state == Recovering)
      && (next == Some(CalibrationDone) ==> state == Calibrating && LastWrite(writes, false))
      && (if failed then next == Some(DeviceError) && CanFail(state) else DeviceAgrees(state, writes))
      && (calibratorAttached <==> startThrew)
      && maxAttempts <= 31
    }

    /** Between events. */
    ghost predicate Rests()
      reads this
    {
      Settled(None, false)
    }

    // -------------------------------------------------------------------------
    // The outside world
    // -------------------------------------------------------------------------

    ghost function Now(): Stand
      reads `state, `changes, `writes
    {
      Stand(state, changes, writes)
    }

    /** Since then other threads have posted, and a noticed Stop is still to be applied. */
    ghost predicate Since(m: Mark)
      reads `queue, `stopPending, `state
    {
      Posted(m.queue, m.stop, queue, stopPending) && StopComes(m.next)
    }

    /** Whatever is asked takes time, in which other threads may post. */
    method Ask(ghost m: Mark) returns (b: bool)
      requires Since(m)
      modifies `asked, `queue, `stopPending
      ensures Since(m) && b == oracle(old(asked)) && asked == old(asked) + 1
      ensures stopPending == (old(stopPending) || Stop in mail(old(asked)))
    {
      b := oracle(asked);
      var posts := mail(asked);
      asked := asked + 1;
      PostedMore(m.queue, m.stop, queue, stopPending, posts);
      queue := queue + posts;
      if Stop in posts { stopPending := true; }
    }

    method SetAcquisition(on: bool, ghost m: Mark) returns (ok: bool)
      requires Since(m)
      modifies `asked, `writes, `queue, `stopPending
      ensures Since(m) && writes == old(writes) + [Write(on, ok)] && ok == oracle(old(asked)) && asked == old(asked) + 1
      ensures stopPending == (old(stopPending) || Stop in mail(old(asked)))
    {
      ok := Ask(m);
      writes := writes + [Write(on, ok)];
    }

    method Stopping(ghost m: Mark) returns (stop: bool)
      requires Since(m)
      modifies `asked, `queue, `stopPending
      ensures Since(m) && stop == stopPending && asked == old(asked) + 1
      ensures stopPending == (old(stopPending) || Stop in mail(old(asked)))
    {
      var _ := Ask(m);
      return stopPending;
    }

    /** Is a Stop pending after the next `n` questions? */
    ghost predicate StopBy(stop: bool, at: nat, n: nat) {
      stop || exists i | at <= i < at + n :: Stop in mail(i)
    }

    lemma StopByThen(stop: bool, at: nat)
      ensures StopBy(stop, at, 2) == (stop || Stop in mail(at) || Stop in mail(at + 1))
      ensures StopBy(stop, at, 3) == (StopBy(stop, at, 2) || Stop in mail(at + 2))
      ensures StopBy(stop, at, 4) == (StopBy(stop, at, 3) || Stop in mail(at + 3))
    {
    }

    /** What at most `k` polls of a restarted device come to, from question `at` on: samples, a
        dead worker, a Stop, or none of these. */
    ghost function Watched(stop: bool, at: nat, k: nat): Sight
      decreases k
    {
      if k == 0 then Nothing
      else if oracle(at) then Samples
      else if oracle(at + 1) then Death
      else if StopBy(stop, at, 3) then Interruption
      else Watched(StopBy(stop, at, 3), at + 3, k - 1)
    }

    /** What at most `k` looks at a calibrating device come to, and the question after them. */
    ghost function Measured(stop: bool, at: nat, k: nat): Sight
      decreases k
    {
      if k == 0 then Nothing
      else if oracle(at) then Death
      else if StopBy(stop, at, 2) then Interruption
      else Measured(StopBy(stop, at, 2), at + 2, k - 1)
    }

    ghost function MeasuredBy(stop: bool, at: nat, k: nat): nat
      decreases k
    {
      if k == 0 then at
      else if oracle(at) then at + 1
      else if StopBy(stop, at, 2) then at + 2
      else MeasuredBy(StopBy(stop, at, 2), at + 2, k - 1)
    }

    /** What a recovery attempt comes to: probe, reopen, stop and start must all succeed first. */
    ghost function Tried(t: Try): Sight {
      if oracle(t.at) && oracle(t.at + 1) && oracle(t.at + 2) && oracle(t.at + 3)
      then Watched(StopBy(t.stop, t.at, 4), t.at + 4, polls) else Nothing
    }

    /** From any thread at any time, also while an event is being applied. */
    method Post(e: Event, ghost next: Option<Event>, ghost failed: bool)
      requires StopComes(next)
      modifies `queue, `stopPending
      ensures queue == old(queue) + [e] && stopPending == (old(stopPending) || e == Stop)
      ensures StopComes(next) && (old(Settled(next, failed)) ==> Settled(next, failed))
    {
      queue := queue + [e];
      assert queue[|queue| - 1] == e;
      if e == Stop { stopPending := true; }
    }

    /** A request is accepted exactly when the table has a change for it now. */
    method Request(e: Event, ghost next: Option<Event>, ghost failed: bool) returns (accepted: bool)
      requires StopComes(next)
      modifies `queue, `stopPending
      ensures accepted <==> Transition(state, e).Some?
      ensures queue == old(queue) + (if accepted then [e] else [])
      ensures stopPending == (old(stopPending) || (accepted && e == Stop))
      ensures StopComes(next) && (old(Settled(next, failed)) ==> Settled(next, failed))
    {
      accepted := Transition(state, e).Some?;
      if accepted { Post(e, next, failed); } else { assert queue + [] == queue; }
    }

    // -------------------------------------------------------------------------
    // One change
    // -------------------------------------------------------------------------

    /** The device action a change needs first. Shutdown ignores failures. */
    method Prepare(to: State, from: State, ghost m: Mark) returns (ok: bool)
      requires Since(m)
      modifies `asked, `writes, `queue, `stopPending
      ensures Since(m) && Prepared(from, to, ok, old(writes), writes)
      ensures NeedsDevice(from, to) ==> ok == oracle(old(asked))
    {
      hide Posted;
      ok := true;
      if to == Running && (from == Ready || from == Paused) {
        ok := SetAcquisition(true, m);
      } else if to == Paused {
        ok := SetAcquisition(false, m);
      } else if to == Stopped {
        var _ := SetAcquisition(false, m);
      }
    }

    method Record(to: State, event: Event)
      requires Recorded() && Transition(state, event) == Some(to)
      modifies `history, `state, `changes
      ensures Recorded() && state == to && changes == old(changes) + [Change(old(state), to, event)]
    {
      LinkedGrows(changes, state, to, event);
      changes := changes + [Change(state, to, event)];
      history := history + [Change(state, to, event)];
      if |history| > HISTORY_LEN { history := history[1..]; }
      state := to;
    }

    /** Probe, reopen, stop, start; each may fail and end the attempt. */
    method Restart(ghost m: Mark) returns (started: bool)
      requires Since(m)
      modifies `asked, `writes, `queue, `stopPending
      ensures Since(m)
      ensures var a := old(asked); started <==> oracle(a) && oracle(a + 1) && oracle(a + 2) && oracle(a + 3)
      ensures started ==> asked == old(asked) + 4 && writes == old(writes) + [Write(false, true), Write(true, true)]
      ensures started ==> stopPending == StopBy(old(stopPending), old(asked), 4)
    {
      hide Posted, StopComes, StopBy;
      StopByThen(stopPending, asked);
      var probed := Ask(m);
      var reopened := Ask(m);
      if !probed || !reopened { return false; }
      var stopped := SetAcquisition(false, m);
      if !stopped { return false; }
      started := SetAcquisition(true, m);
    }

    /** Polls the restarted device. */
    method Watch(ghost m: Mark) returns (flowing: bool, interrupted: bool)
      requires Since(m)
      modifies `asked, `queue, `stopPending
      ensures Since(m) && (interrupted ==> stopPending)
      ensures flowing <==> Watched(old(stopPending), old(asked), polls).Samples?
      ensures interrupted <==> Watched(old(stopPending), old(asked), polls).Interruption?
    {
      hide Posted, StopComes, StopBy;
      flowing, interrupted := false, false;
      var k := 0;
      while k < polls
        invariant Since(m) && k <= polls
        invariant Watched(old(stopPending), old(asked), polls) == Watched(stopPending, asked, polls - k)
      {
        StopByThen(stopPending, asked);
        var samples := Ask(m);
        if samples { return true, false; }
        var died := Ask(m);
        if died { return; }
        var stop := Stopping(m);
        if stop { return false, true; }
        k := k + 1;
      }
    }

    /** One attempt of the recovery loop: does the device produce samples again? */
    method Attempt(ghost m: Mark) returns (flowing: bool, interrupted: bool)
      requires Since(m)
      modifies `asked, `writes, `queue, `stopPending, `recoveryAttempts
      ensures Since(m) && recoveryAttempts == old(recoveryAttempts) + 1
      ensures flowing ==> writes == old(writes) + [Write(false, true), Write(true, true)]
      ensures interrupted ==> stopPending
      ensures flowing <==> Tried(Try(old(asked), old(stopPending))).Samples?
      ensures interrupted <==> Tried(Try(old(asked), old(stopPending))).Interruption?
    {
      hide Posted, StopComes, Watched;
      recoveryAttempts := recoveryAttempts + 1;
      flowing, interrupted := false, false;
      var started := Restart(m);
      if started { flowing, interrupted := Watch(m); }
    }

    /** At most maxAttempts attempts, with exponential backoff in between; Recovered exactly
        when the last one saw samples. */
    method RunRecovery(ghost m: Mark) returns (next: Option<Event>, ghost tries: seq<Try>)
      requires state == Recovering && Since(m) && maxAttempts <= 31
      modifies `asked, `writes, `queue, `stopPending, `recoveryAttempts, `recoveries, `slept
      ensures Since(m)
      ensures next == None || next == Some(Recovered) || next == Some(RecoveryFailed)
      ensures next == None ==> stopPending
      ensures |tries| == recoveryAttempts - old(recoveryAttempts)
      ensures next == Some(Recovered) <==> tries != [] && Tried(tries[|tries| - 1]).Samples?
      ensures forall k | 0 <= k < |tries| - 1 :: !Tried(tries[k]).Samples? && !Tried(tries[k]).Interruption?
      ensures next == Some(RecoveryFailed) ==> tries == [] || !Tried(tries[|tries| - 1]).Interruption?
      ensures next == Some(Recovered) ==> SoftReset(writes)
      ensures recoveries == old(recoveries) + (if next == Some(Recovered) then 1 else 0)
      ensures |tries| <= (if maxAttempts < 0 then 0 else maxAttempts)
      ensures next == Some(RecoveryFailed) && 0 <= maxAttempts ==> |tries| == maxAttempts
      ensures slept - old(slept) <= Waited(backoff, maxAttempts - 1)
      ensures next == Some(RecoveryFailed) ==> slept - old(slept) == Waited(backoff, maxAttempts - 1)
    {
      hide Waited, Pow2, Posted, StopComes, Tried;
      NoWait(backoff);
      tries := [];
      var attempt := 1;
      while attempt <= maxAttempts
        invariant attempt == 1 || 1 <= attempt <= maxAttempts + 1
        invariant Since(m) && recoveries == old(recoveries)
        invariant |tries| == attempt - 1 && recoveryAttempts == old(recoveryAttempts) + attempt - 1
        invariant forall k | 0 <= k < |tries| :: !Tried(tries[k]).Samples? && !Tried(tries[k]).Interruption?
        invariant slept <= old(slept) + Waited(backoff, maxAttempts - 1)
        invariant slept == old(slept) + Waited(backoff, if attempt <= maxAttempts then attempt - 1 else maxAttempts - 1)
        decreases maxAttempts - attempt
      {
        var stop := Stopping(m);
        if stop { return None, tries; }
        tries := tries + [Try(asked, stopPending)];
        var flowing, interrupted := Attempt(m);
        if flowing {
          recoveries := recoveries + 1;
          return Some(Recovered), tries;
        }
        if interrupted { return None, tries; }
        if attempt < maxAttempts {
          WaitedGrows(backoff, attempt, maxAttempts - 1);
          WaitedStep(backoff, attempt - 1);
          slept := slept + backoff * Pow2(attempt - 1);
          var wake := Stopping(m);
          if wake { return None, tries; }
        }
        attempt := attempt + 1;
      }
      next := Some(RecoveryFailed);
    }

    /** Waits while the worker measures. */
    method Measure(ghost m: Mark) returns (died: bool, interrupted: bool)
      requires Since(m)
      modifies `asked, `queue, `stopPending
      ensures Since(m) && (interrupted ==> stopPending)
      ensures died <==> Measured(old(stopPending), old(asked), polls).Death?
      ensures interrupted <==> Measured(old(stopPending), old(asked), polls).Interruption?
      ensures asked == MeasuredBy(old(stopPending), old(asked), polls)
    {
      hide Posted, StopComes, StopBy;
      died, interrupted := false, false;
      var k := 0;
      while k < polls
        invariant Since(m) && k <= polls && !died && !interrupted
        invariant Measured(old(stopPending), old(asked), polls) == Measured(stopPending, asked, polls - k)
        invariant MeasuredBy(old(stopPending), old(asked), polls) == MeasuredBy(stopPending, asked, polls - k)
      {
        StopByThen(stopPending, asked);
        died := Ask(m);
        if died { return; }
        interrupted := Stopping(m);
        if interrupted { return; }
        k := k + 1;
      }
    }

    /** Reads the rate, attaches the calibrator and starts the device. */
    method BeginCalibration(ghost m: Mark) returns (ok: bool)
      requires Since(m) && (calibratorAttached <==> startThrew)
      modifies `asked, `writes, `queue, `stopPending, `calibratorAttached, `startThrew
      ensures Since(m) && (ok <==> oracle(old(asked)) && oracle(old(asked) + 1))
      ensures if ok then calibratorAttached && !startThrew else calibratorAttached <==> startThrew
      ensures ok ==> asked == old(asked) + 2 && stopPending == StopBy(old(stopPending), old(asked), 2)
      ensures oracle(old(asked)) ==> startThrew == !ok && writes == old(writes) + [Write(true, ok)]
      ensures !oracle(old(asked)) ==> writes == old(writes)
    {
      hide Posted, StopComes, StopBy;
      StopByThen(stopPending, asked);
      var read := Ask(m);
      if !read { return false; }
      calibratorAttached := true;
      ok := SetAcquisition(true, m);
      startThrew := !ok;
    }

    /** Measures the clock. `threw` means an action failed and the exception left it: reading
        the rate, starting or stopping. A worker that died is a DeviceError, a Stop ends it
        with nothing, and else it is done. */
    method RunCalibration(ghost m: Mark) returns (next: Option<Event>, threw: bool)
      requires state == Calibrating && Since(m) && (calibratorAttached <==> startThrew)
      modifies `asked, `writes, `queue, `stopPending, `calibratorAttached, `startThrew
      ensures Since(m) && (calibratorAttached <==> startThrew)
      ensures
        var a := old(asked);
        var begun := StopBy(old(stopPending), a, 2);
        var sight, end := Measured(begun, a + 2, polls), MeasuredBy(begun, a + 2, polls);
        && (threw <==> !oracle(a) || !oracle(a + 1) || !oracle(end))
        && next == if threw then None
                   else if sight.Death? || oracle(end + 1) then Some(DeviceError)
                   else if sight.Interruption? then None
                   else Some(CalibrationDone)
      ensures !threw ==> writes == old(writes) + [Write(true, true), Write(false, true)]
      ensures next == None && !threw ==> stopPending
    {
      hide Posted, StopComes, Measured, MeasuredBy, StopBy;
      var begun := BeginCalibration(m);
      if !begun { return None, true; }
      var died, interrupted := Measure(m);
      calibratorAttached := false;
      var stopped := SetAcquisition(false, m);
      if !stopped { return None, true; }
      var late := Ask(m);
      if died || late { return Some(DeviceError), false; }
      if interrupted { return None, false; }
      next, threw := Some(CalibrationDone), false;
    }

    method EnterFault(ghost m: Mark)
      requires Since(m)
      modifies `asked, `writes, `faults, `queue, `stopPending
      ensures Since(m) && faults == old(faults) + 1 && Wrote(old(writes), writes, false)
    {
      hide Posted, StopComes;
      var _ := SetAcquisition(false, m);
      faults := faults + 1;
    }

    // -------------------------------------------------------------------------
    // Applying events
    // -------------------------------------------------------------------------

    /** What a new state does first; an exception becomes a DeviceError. */
    method Enter(to: State, ghost m: Mark) returns (next: Option<Event>)
      requires state == to && Recorded() && m.next == None && Since(m)
      requires (calibratorAttached <==> startThrew) && maxAttempts <= 31
      requires faults + (if to == Fault then 1 else 0) == Entries(changes, Fault) && recoveries == Comebacks(changes)
      requires DeviceAgrees(to, writes)
      modifies `asked, `writes, `queue, `stopPending, `recoveryAttempts, `recoveries, `slept, `calibratorAttached,
               `startThrew, `faults
      ensures Settled(next, false) && Since(m)
      ensures next.Some? ==> Follows(to, next.value)
      ensures next == None && (to == Recovering || to == Calibrating) ==> stopPending
      ensures to == Fault ==> Wrote(old(writes), writes, false)
      ensures to != Fault && to != Recovering && to != Calibrating ==> writes == old(writes)
    {
      hide Linked, IsRecent, Entries, Comebacks, Posted;
      next := None;
      if to == Calibrating {
        var threw;
        next, threw := RunCalibration(m);
        if threw { next := Some(DeviceError); }
      } else if to == Recovering {
        ghost var tries;
        next, tries := RunRecovery(m);
      } else if to == Fault {
        EnterFault(m);
      }
    }

    /** The change itself, once the device is prepared. */
    method Proceed(e: Event, to: State, ghost before: seq<Write>, ghost m: Mark) returns (next: Option<Event>)
      requires Transition(state, e) == Some(to) && Prepared(state, to, true, before, writes)
      requires Recorded() && m.next == Some(e) && Since(m) && faults == Entries(changes, Fault)
      requires recoveries == Comebacks(changes) + (if e == Recovered then 1 else 0)
      requires DeviceAgrees(state, before) || (CanFail(state) && e == DeviceError)
      requires e == Recovered ==> state == Recovering && LastWrite(before, true)
      requires e == CalibrationDone ==> LastWrite(before, false)
      requires (calibratorAttached <==> startThrew) && maxAttempts <= 31
      modifies this
      ensures Settled(next, false) && Since(m.(next := None))
      ensures state == to && changes == old(changes) + [Change(old(state), to, e)]
      ensures next.Some? ==> Follows(to, next.value)
      ensures next == None && (to == Recovering || to == Calibrating) ==> stopPending
      ensures to == Fault ==> Wrote(old(writes), writes, false)
      ensures to != Fault && to != Recovering && to != Calibrating ==> writes == old(writes)
    {
      TableFacts(state, e);
      hide Linked, IsRecent, Entries, Comebacks, Transition, DeviceAgrees, LastWrite, Prepared, Posted;
      DeviceFollows(state, e, to, before, writes);
      CountsGrow(changes, Change(state, to, e));
      Record(to, e);
      next := Enter(to, m.(next := None));
    }

    /** One round of apply()'s loop. */
    method Iterate(e: Event, ghost failed: bool, ghost m: Mark) returns (next: Option<Event>, ghost failed': bool)
      requires Settled(Some(e), failed) && (Internal(e) ==> Last(state, failed)) && m.next == Some(e) && Since(m)
      modifies this
      ensures Settled(next, failed') && Since(m.(next := next))
      ensures Handled(e, old(Now()), failed', Now())
      ensures failed' ==> next == Some(DeviceError) && CanFail(old(state)) && e != DeviceError
      ensures next.Some? && !failed' ==> Transition(old(state), e).Some?
      ensures Transition(old(state), e) == None ==> next == None
      ensures next.Some? && !failed' ==> Follows(state, next.value)
      ensures old(Last(state, failed)) ==> next == None
      ensures e == Stop ==> state == Stopped && next == None
      ensures next == None && changes != old(changes) && (state == Recovering || state == Calibrating) ==> stopPending
    {
      hide Linked, IsRecent, Entries, Comebacks, Transition, DeviceAgrees, LastWrite, Posted;
      failed' := false;
      var to := Transition(state, e);
      TableFacts(state, e);
      if to == None { return None, false; }
      var ok := Prepare(to.value, state, m);
      if !ok {
        FailureLeads(state, e, to.value, old(writes), writes);
        return Some(DeviceError), true;
      }
      next := Proceed(e, to.value, old(writes), m);
    }

    /** apply(): every event, whatever fails, ends with at most two changes of state, and
        leaves the record, the counters and the device in agreement. */
    method Apply(e: Event)
      requires Settled(Some(e), false) && !Internal(e)
      modifies this
      ensures Rests() && Posted(old(queue), old(stopPending), queue, stopPending)
      ensures Applied(e, old(Now()), Now(), stopPending)
      ensures |changes| <= |old(changes)| + 2 && old(changes) <= changes
      ensures e == Stop ==> state == Stopped
    {
      NothingPosted(queue, stopPending);
      hide Linked, IsRecent, Entries, Comebacks, Transition, DeviceAgrees, LastWrite, Posted, Handled, Applied;
      ghost var m, was := Mark(queue, stopPending, Some(e)), Now();
      var next := Some(e);
      ghost var failed, first := false, true;
      while next.Some?
        invariant Settled(next, failed) && Since(m.(next := next))
        invariant first ==> next == Some(e) && !failed && Now() == was
        invariant !first && next.Some? ==>
                    && Handled(e, was, failed, Now()) && Last(state, failed)
                    && (if failed then next == Some(DeviceError) && CanFail(was.state) && e != DeviceError
                        else Transition(was.state, e).Some? && Follows(state, next.value))
        invariant !first && next == None ==> Applied(e, was, Now(), stopPending)
        invariant !first && e == Stop ==> state == Stopped && next == None
        decreases next.Some?, first
      {
        ghost var e1, mid, failed1 := next.value, Now(), failed;
        next, failed := Iterate(next.value, failed, m.(next := next));
        if first {
          first := false;
          if next == None { FirstRound(e, was, failed, Now(), stopPending); }
        } else {
          SecondRound(e, was, failed1, mid, e1, Now(), stopPending);
        }
      }
      AppliedIsShort(e, was, Now(), stopPending);
    }

    /** One round of the supervisor thread: an event from the queue, or, when there is none,
        a look at whether the acquisition thread has died. */
    method RunOnce()
      requires Rests() && External(queue)
      modifies this
      ensures Rests() && External(queue)
      ensures old(changes) <= changes && |changes| <= |old(changes)| + 2
      ensures old(queue) != [] ==>
                && Applied(old(queue)[0], old(Now()), Now(), stopPending)
                && Posted(old(queue)[1..], old(stopPending), queue, stopPending)
                && (old(queue)[0] == Stop ==> state == Stopped)
      ensures old(queue) == [] ==>
                if oracle(old(asked)) && CanFail(old(state)) then Applied(DeviceError, old(Now()), Now(), stopPending)
                else Now() == old(Now())
    {
      hide Linked, IsRecent, Entries, Comebacks, DeviceAgrees, LastWrite, Applied;
      if queue == [] {
        var failed := Ask(Mark(queue, stopPending, None));
        if failed && (state == Ready || state == Running || state == Paused) { Apply(DeviceError); }
        return;
      }
      var e := queue[0];
      PopKeepsStop(queue);
      queue := queue[1..];
      Apply(e);
    }

    /** Once a Stop has been posted the supervisor ends in Stopped, whatever is queued before
        it and whatever fails on the way. */
    method Serve()
      requires Rests() && External(queue) && Stop in queue
      modifies this
      ensures Rests() && state == Stopped && old(changes) <= changes
    {
      while state != Stopped
        invariant Rests() && External(queue) && old(changes) <= changes
        invariant state != Stopped ==> Stop in queue
        decreases if state != Stopped then 1 + Ahead(queue) else 0
      {
        ghost var before := queue;
        RunOnce();
        if state != Stopped {
          assert before[0] != Stop && Stop in before[1..];
          AheadStays(before[1..], queue);
        }
      }
    }
  }

  lemma PopKeepsStop(queue: seq<Event>)
    requires queue != []
    ensures Stop in queue ==> queue[0] == Stop || Stop in queue[1..]
  {
    assert queue == [queue[0]] + queue[1..];
  }
}
