/**
 The driver's sample queue between the drain loop and /dev/acq0: a 128-entry kfifo with
 three ways to behave when samples come too fast. Every sample drained ends in exactly one
 place, and readers get theirs in order.
 */
module SampleQueue {
  import opened Arithmetic
  import opened Subsequence

  const SIZE: nat := 128
  const SAMPLE_BYTES: nat := 16

  datatype Sample = Sample(seqno: nat, value: nat, irqNs: int)
  datatype Policy = Newest | Oldest | Downsample

  /** What became of a drained sample, and how a queued one left the queue. */
  datatype Fate = Injected | Downsampled | Overflowed | Queued
  datatype Way = Read | Evicted

  /** `Interrupted`: a signal ended the wait for data. */
  datatype ReadResult = Data(samples: seq<Sample>) | Invalid | WouldBlock | Interrupted

  // ---------------------------------------------------------------------------
  // History
  // ---------------------------------------------------------------------------

  ghost function Kept(offered: seq<Sample>, fates: seq<Fate>): seq<Sample>
    requires |offered| == |fates|
  {
    if offered == [] then []
    else
      var n := |offered| - 1;
      Kept(offered[..n], fates[..n]) + (if fates[n] == Queued then [offered[n]] else [])
  }

  ghost function CountFate(fates: seq<Fate>, f: Fate): nat {
    if fates == [] then 0 else CountFate(fates[..|fates| - 1], f) + (if fates[|fates| - 1] == f then 1 else 0)
  }

  ghost function CountWay(ways: seq<Way>, w: Way): nat {
    if ways == [] then 0 else CountWay(ways[..|ways| - 1], w) + (if ways[|ways| - 1] == w then 1 else 0)
  }

  /** The queued samples that were read, in order. */
  ghost function ReadOf(kept: seq<Sample>, ways: seq<Way>): seq<Sample>
    requires |ways| <= |kept|
  {
    if ways == [] then []
    else
      var n := |ways| - 1;
      ReadOf(kept, ways[..n]) + (if ways[n] == Read then [kept[n]] else [])
  }

  lemma KeptGrows(offered: seq<Sample>, fates: seq<Fate>, s: Sample, f: Fate)
    requires |offered| == |fates|
    ensures Kept(offered + [s], fates + [f]) == Kept(offered, fates) + (if f == Queued then [s] else [])
    ensures forall g :: CountFate(fates + [f], g) == CountFate(fates, g) + (if f == g then 1 else 0)
  {
    assert (offered + [s])[..|offered|] == offered && (fates + [f])[..|fates|] == fates;
  }

  lemma WaysGrow(ways: seq<Way>, w: Way)
    ensures forall v :: CountWay(ways + [w], v) == CountWay(ways, v) + (if w == v then 1 else 0)
  {
    assert (ways + [w])[..|ways|] == ways;
  }

  /** Appending to the queue leaves what was read alone. */
  lemma {:induction false} ReadOfPrefix(kept: seq<Sample>, more: seq<Sample>, ways: seq<Way>)
    requires |ways| <= |kept|
    ensures ReadOf(kept + more, ways) == ReadOf(kept, ways)
    decreases |ways|
  {
    if ways != [] { ReadOfPrefix(kept, more, ways[..|ways| - 1]); }
  }

  lemma OneRead(kept: seq<Sample>, ways: seq<Way>)
    requires |ways| < |kept|
    ensures ReadOf(kept, ways + [Read]) == ReadOf(kept, ways) + [kept[|ways|]]
    ensures CountWay(ways + [Read], Evicted) == CountWay(ways, Evicted)
    ensures CountWay(ways + [Read], Read) == CountWay(ways, Read) + 1
  {
    assert (ways + [Read])[..|ways|] == ways;
  }

  lemma {:induction false} ReadsAppend(kept: seq<Sample>, ways: seq<Way>, n: nat)
    requires |ways| + n <= |kept|
    ensures ReadOf(kept, ways + Reads(n)) == ReadOf(kept, ways) + kept[|ways|..|ways| + n]
    ensures CountWay(ways + Reads(n), Evicted) == CountWay(ways, Evicted)
    ensures CountWay(ways + Reads(n), Read) == CountWay(ways, Read) + n
    decreases n
  {
    hide ReadOf, CountWay;
    if n == 0 {
      assert ways + Reads(0) == ways;
    } else {
      ReadsAppend(kept, ways, n - 1);
      OneRead(kept, ways + Reads(n - 1));
      assert ways + Reads(n) == ways + Reads(n - 1) + [Read];
      assert kept[|ways|..|ways| + n] == kept[|ways|..|ways| + n - 1] + [kept[|ways| + n - 1]];
    }
  }

  ghost function Reads(n: nat): (r: seq<Way>)
    ensures |r| == n
  {
    if n == 0 then [] else Reads(n - 1) + [Read]
  }

  // ---------------------------------------------------------------------------
  // Conservation
  // ---------------------------------------------------------------------------

  /** The counters and the queue, from the history. */
  ghost predicate Accounts(offered: seq<Sample>, fates: seq<Fate>, ways: seq<Way>, got: seq<Sample>, fifo: seq<Sample>,
                           overflow: nat, dropped: nat) {
    && |offered| == |fates| && |fifo| <= SIZE
    && var kept := Kept(offered, fates);
    && |ways| <= |kept| && fifo == kept[|ways|..] && got == ReadOf(kept, ways)
    && overflow == CountFate(fates, Overflowed) % TWO32
    && dropped == (CountFate(fates, Downsampled) + CountWay(ways, Evicted)) % TWO32
  }

  lemma {:induction false} FatesSplit(offered: seq<Sample>, fates: seq<Fate>)
    requires |offered| == |fates|
    ensures |offered| == CountFate(fates, Injected) + CountFate(fates, Downsampled) + CountFate(fates, Overflowed)
                         + CountFate(fates, Queued)
    ensures |Kept(offered, fates)| == CountFate(fates, Queued)
    decreases |offered|
  {
    if offered != [] { FatesSplit(offered[..|offered| - 1], fates[..|fates| - 1]); }
  }

  lemma {:induction false} WaysSplit(kept: seq<Sample>, ways: seq<Way>)
    requires |ways| <= |kept|
    ensures |ways| == CountWay(ways, Read) + CountWay(ways, Evicted)
    ensures |ReadOf(kept, ways)| == CountWay(ways, Read)
    decreases |ways|
  {
    if ways != [] { WaysSplit(kept, ways[..|ways| - 1]); }
  }

  /** Drained = injected + downsampled + overflowed + queued, and queued = read + evicted +
      still there. */
  lemma SamplesConserved(offered: seq<Sample>, fates: seq<Fate>, ways: seq<Way>, got: seq<Sample>, fifo: seq<Sample>,
                         overflow: nat, dropped: nat)
    requires Accounts(offered, fates, ways, got, fifo, overflow, dropped)
    ensures |offered| == CountFate(fates, Injected) + CountFate(fates, Downsampled) + CountFate(fates, Overflowed)
                         + |got| + CountWay(ways, Evicted) + |fifo|
  {
    FatesSplit(offered, fates);
    WaysSplit(Kept(offered, fates), ways);
  }

  /** Readers see the queued samples in order: what was read and what is still queued is all
      that was queued, but for the evicted ones. */
  lemma {:induction false} OrderKept(kept: seq<Sample>, ways: seq<Way>)
    requires |ways| <= |kept|
    ensures CountWay(ways, Evicted) == 0 ==> ReadOf(kept, ways) + kept[|ways|..] == kept
    decreases |ways|
  {
    if ways != [] && CountWay(ways, Evicted) == 0 {
      var n := |ways| - 1;
      OrderKept(kept, ways[..n]);
      assert kept[n..] == [kept[n]] + kept[n + 1..];
    }
  }

  lemma {:induction false} KeptEmbeds(offered: seq<Sample>, fates: seq<Fate>) returns (at: seq<nat>)
    requires |offered| == |fates|
    ensures Embeds(Kept(offered, fates), offered, at)
    decreases |offered|
  {
    if offered == [] {
      at := [];
    } else {
      hide Embeds;
      var n := |offered| - 1;
      at := KeptEmbeds(offered[..n], fates[..n]);
      Grows(Kept(offered[..n], fates[..n]), offered[..n], at, offered[n]);
      assert offered[..n] + [offered[n]] == offered;
      if fates[n] == Queued { at := at + [n]; }
    }
  }

  lemma {:induction false} ReadEmbeds(kept: seq<Sample>, ways: seq<Way>) returns (at: seq<nat>)
    requires |ways| <= |kept|
    ensures Embeds(ReadOf(kept, ways), kept[..|ways|], at)
    decreases |ways|
  {
    if ways == [] {
      at := [];
    } else {
      hide Embeds;
      var n := |ways| - 1;
      at := ReadEmbeds(kept, ways[..n]);
      Grows(ReadOf(kept, ways[..n]), kept[..n], at, kept[n]);
      assert kept[..n] + [kept[n]] == kept[..n + 1];
      if ways[n] == Read { at := at + [n]; }
    }
  }

  /** Whatever the policies did, what readers got is a subsequence of what was drained. */
  lemma ReadersSeeDrainOrder(offered: seq<Sample>, fates: seq<Fate>, ways: seq<Way>, got: seq<Sample>, fifo: seq<Sample>,
                             overflow: nat, dropped: nat) returns (at: seq<nat>)
    requires Accounts(offered, fates, ways, got, fifo, overflow, dropped)
    ensures Embeds(got, offered, at)
  {
    var kept := Kept(offered, fates);
    var w1 := ReadEmbeds(kept, ways);
    hide Kept, ReadOf, CountFate, CountWay, Embeds;
    PrefixEmbeds(got, kept[..|ways|], kept[|ways|..], w1);
    assert kept[..|ways|] + kept[|ways|..] == kept;
    var w2 := KeptEmbeds(offered, fates);
    at := Through(got, kept, offered, w1, w2);
  }

  lemma Offered(offered: seq<Sample>, fates: seq<Fate>, ways: seq<Way>, got: seq<Sample>, fifo: seq<Sample>,
                overflow: nat, dropped: nat, s: Sample, f: Fate)
    requires Accounts(offered, fates, ways, got, fifo, overflow, dropped) && (f == Queued ==> |fifo| < SIZE)
    ensures Accounts(offered + [s], fates + [f], ways, got, if f == Queued then fifo + [s] else fifo,
                     if f == Overflowed then (overflow + 1) % TWO32 else overflow,
                     if f == Downsampled then (dropped + 1) % TWO32 else dropped)
  {
    KeptGrows(offered, fates, s, f);
    var kept := Kept(offered, fates);
    ReadOfPrefix(kept, [s], ways);
    hide Kept, CountFate, CountWay, ReadOf;
    if f == Queued { assert (kept + [s])[|ways|..] == kept[|ways|..] + [s]; } else { assert kept + [] == kept; }
  }

  lemma Evict(offered: seq<Sample>, fates: seq<Fate>, ways: seq<Way>, got: seq<Sample>, fifo: seq<Sample>,
              overflow: nat, dropped: nat)
    requires Accounts(offered, fates, ways, got, fifo, overflow, dropped) && fifo != []
    ensures Accounts(offered, fates, ways + [Evicted], got, fifo[1..], overflow, (dropped + 1) % TWO32)
  {
    WaysGrow(ways, Evicted);
    var kept := Kept(offered, fates);
    assert (ways + [Evicted])[..|ways|] == ways;
    assert kept[|ways|..][1..] == kept[|ways| + 1..];
  }

  lemma TakeOut(offered: seq<Sample>, fates: seq<Fate>, ways: seq<Way>, got: seq<Sample>, fifo: seq<Sample>,
                overflow: nat, dropped: nat, n: nat)
    requires Accounts(offered, fates, ways, got, fifo, overflow, dropped) && n <= |fifo|
    ensures Accounts(offered, fates, ways + Reads(n), got + fifo[..n], fifo[n..], overflow, dropped)
  {
    var kept := Kept(offered, fates);
    ReadsAppend(kept, ways, n);
    hide Kept, CountFate, CountWay, ReadOf;
    assert kept[|ways|..][n..] == kept[|ways| + n..];
    assert kept[|ways|..][..n] == kept[|ways|..|ways| + n];
  }

  // ---------------------------------------------------------------------------
  // Downsampling
  // ---------------------------------------------------------------------------

  /** Every `n`-th; 0 means never. */
  predicate Every(x: nat, n: nat) { n != 0 && x % n == 0 }

  /** How many of the next `m` counted samples are kept when the 32-bit counter stands at `c`. */
  ghost function KeptFrom(c: nat, m: nat, n: nat): nat {
    if m == 0 then 0 else KeptFrom(c, m - 1, n) + (if Every((c + m) % TWO32, n) then 1 else 0)
  }

  /** The samples kept up to position `x`: those of the whole rounds of the counter, each
      beginning with a kept one, and those since. */
  ghost function KeptUpTo(x: nat, n: nat): int
    requires 0 < n
  {
    (x / TWO32) * ((TWO32 - 1) / n + 1) + (x % TWO32) / n
  }

  lemma NextPosition(x: nat)
    ensures if x % TWO32 == TWO32 - 1 then (x + 1) / TWO32 == x / TWO32 + 1 && (x + 1) % TWO32 == 0
            else (x + 1) / TWO32 == x / TWO32 && (x + 1) % TWO32 == x % TWO32 + 1
  {
  }

  lemma UpToGrows(x: nat, n: nat)
    requires 0 < n
    ensures KeptUpTo(x + 1, n) == KeptUpTo(x, n) + (if Every((x + 1) % TWO32, n) then 1 else 0)
  {
    NextPosition(x);
    if x % TWO32 == TWO32 - 1 {
      ghost var q, p := x / TWO32, (TWO32 - 1) / n + 1;
      assert (q + 1) * p == q * p + p;
      QuotientRemainder(0, n, 0, 0);
    } else {
      QuotientStep(x % TWO32, n);
    }
  }

  /** The exact count, over any number of wraps. */
  lemma {:induction false} KeptExactly(c: nat, m: nat, n: nat)
    requires 0 < n
    ensures KeptFrom(c, m, n) == KeptUpTo(c + m, n) - KeptUpTo(c, n)
  {
    hide KeptUpTo, Every;
    if m > 0 {
      KeptExactly(c, m - 1, n);
      UpToGrows(c + m - 1, n);
    }
  }

  /** Below one round a position is its own remainder; past the wrap the round counts. */
  lemma UpToIs(x: nat, n: nat)
    requires 0 < n && x < 2 * TWO32
    ensures x < TWO32 ==> KeptUpTo(x, n) == x / n
    ensures TWO32 <= x ==> KeptUpTo(x, n) == (TWO32 - 1) / n + 1 + (x - TWO32) / n
  {
    if x < TWO32 { QuotientRemainder(x, TWO32, 0, x); } else { QuotientRemainder(x, TWO32, 1, x - TWO32); }
  }

  /** Of n consecutive counted samples exactly one is kept, unless the counter wraps among
      them and they begin before the last multiple of n below 2^32: then two are kept. */
  lemma OneInEveryNIff(c: nat, n: nat)
    requires 1 <= n < TWO32 && c < TWO32
    ensures KeptFrom(c, n, n) == if c + n < TWO32 || c / n == (TWO32 - 1) / n then 1 else 2
  {
    hide KeptUpTo, KeptFrom;
    KeptExactly(c, n, n);
    UpToIs(c, n);
    UpToIs(c + n, n);
    if c + n < TWO32 {
      OneFurther(c, n);
    } else {
      QuotientRemainder(c + n - TWO32, n, 0, c + n - TWO32);
      LastMultiples(c, n);
    }
  }

  lemma OneFurther(c: nat, n: nat)
    requires 1 <= n
    ensures (c + n) / n == c / n + 1
  {
    assert (c / n + 1) * n == (c / n) * n + n;
    QuotientRemainder(c + n, n, c / n + 1, c % n);
  }

  lemma LastMultiples(c: nat, n: nat)
    requires 1 <= n && c < TWO32 <= c + n
    ensures (TWO32 - 1) / n == c / n || (TWO32 - 1) / n == c / n + 1
  {
    var a, b := c / n, (TWO32 - 1) / n;
    assert a * n + c % n == c && b * n + (TWO32 - 1) % n == TWO32 - 1;
    Multiples(b, a + 1, n);
    Multiples(a, b, n);
    assert (a + 1) * n == a * n + n;
  }

  /** So "one in every n" holds wherever the counter stands exactly if n divides 2^32. */
  lemma OneInEveryNAlwaysIff(n: nat)
    requires 1 <= n < TWO32
    ensures (forall c: nat | c < TWO32 :: KeptFrom(c, n, n) == 1) <==> TWO32 % n == 0
  {
    hide KeptFrom;
    var q, r := TWO32 / n, TWO32 % n;
    assert q * n + r == TWO32;
    assert (q - 1) * n == q * n - n;
    if r == 0 {
      QuotientRemainder(TWO32 - 1, n, q - 1, n - 1);
      forall c: nat | c < TWO32
        ensures KeptFrom(c, n, n) == 1
      {
        OneInEveryNIff(c, n);
        if TWO32 <= c + n { QuotientRemainder(c, n, q - 1, c - (q - 1) * n); }
      }
    } else {
      QuotientRemainder(TWO32 - 1, n, q, r - 1);
      QuotientRemainder(TWO32 - n, n, q - 1, r);
      OneInEveryNIff(TWO32 - n, n);
      assert KeptFrom(TWO32 - n, n, n) == 2;
    }
  }

  lemma QuotientStep(a: nat, n: nat)
    requires 0 < n
    ensures (a + 1) / n == a / n + (if (a + 1) % n == 0 then 1 else 0)
  {
    var q, r := a / n, a % n;
    assert a == q * n + r;
    if r + 1 == n {
      assert a + 1 == (q + 1) * n;
      QuotientRemainder(a + 1, n, q + 1, 0);
    } else {
      assert a + 1 == q * n + (r + 1);
      QuotientRemainder(a + 1, n, q, r + 1);
    }
  }

  // ---------------------------------------------------------------------------
  // The queue
  // ---------------------------------------------------------------------------

  /** The policy sends this sample through the counter. */
  predicate Counted(s: Sample, policy: Policy, dropEvery: nat) { !Every(s.seqno, dropEvery) && policy == Downsample }

  ghost function CountedIn(samples: seq<Sample>, policy: nat -> Policy, dropEvery: nat): nat {
    if samples == [] then 0
    else
      var n := |samples| - 1;
      CountedIn(samples[..n], policy, dropEvery) + (if Counted(samples[n], policy(n), dropEvery) then 1 else 0)
  }

  lemma FateGrows(fates: seq<Fate>, f: Fate)
    ensures CountFate(fates + [f], Downsampled) == CountFate(fates, Downsampled) + (if f == Downsampled then 1 else 0)
  {
    assert (fates + [f])[..|fates|] == fates;
  }

  lemma CountedGrows(samples: seq<Sample>, i: nat, policy: nat -> Policy, dropEvery: nat)
    requires i < |samples|
    ensures CountedIn(samples[..i + 1], policy, dropEvery)
            == CountedIn(samples[..i], policy, dropEvery) + (if Counted(samples[i], policy(i), dropEvery) then 1 else 0)
  {
    assert samples[..i + 1][..i] == samples[..i];
  }

  lemma WrapStep(c: nat, m: nat)
    ensures ((c + m) % TWO32 + 1) % TWO32 == (c + m + 1) % TWO32
  {
  }

  class Driver {
    var fifo: seq<Sample>
    var kfifoOverflow: nat
    var policyDropped: nat
    var downsampleCounter: nat
    ghost var offered: seq<Sample>
    ghost var fates: seq<Fate>
    ghost var ways: seq<Way>
    ghost var got: seq<Sample>

    ghost predicate Valid()
      reads this
    {
      Accounts(offered, fates, ways, got, fifo, kfifoOverflow, policyDropped) && downsampleCounter < TWO32
    }

    constructor ()
      ensures Valid() && offered == [] && got == [] && fifo == [] && downsampleCounter == 0
    {
      fifo, kfifoOverflow, policyDropped, downsampleCounter := [], 0, 0, 0;
      offered, fates, ways, got := [], [], [], [];
    }

    /** One drained sample. The policy is looked up twice and may change in between. */
    method Take(s: Sample, first: Policy, second: Policy, dropEvery: nat, downsampleN: nat)
      requires Valid() && (Counted(s, first, dropEvery) ==> 1 <= downsampleN)
      modifies this
      ensures Valid() && offered == old(offered) + [s] && got == old(got)
      ensures
        var injected := Every(s.seqno, dropEvery);
        var counted := Counted(s, first, dropEvery);
        var skipped := counted && !Every(downsampleCounter, downsampleN);
        var full := |old(fifo)| == SIZE;
        && downsampleCounter == (if counted then (old(downsampleCounter) + 1) % TWO32 else old(downsampleCounter))
        && fates == old(fates) + [if injected then Injected else if skipped then Downsampled
                                  else if full && second != Oldest then Overflowed else Queued]
        && ways == old(ways) + (if !injected && !skipped && full && second == Oldest then [Evicted] else [])
        && fifo == (if injected || skipped then old(fifo)
                    else if !full then old(fifo) + [s]
                    else if second == Oldest then old(fifo)[1..] + [s] else old(fifo))
    {
      assert ways + [] == ways;
      hide Accounts, Every;
      if Every(s.seqno, dropEvery) {
        DropInjected(s);
        return;
      }
      if first == Downsample {
        downsampleCounter := (downsampleCounter + 1) % TWO32;
        if !Every(downsampleCounter, downsampleN) {
          DropDownsampled(s);
          return;
        }
      }
      Put(s, second);
    }

    /** The samples of one or more drain passes, each with whatever policies are in force
        when it comes: of those that go through the counter, exactly as many are skipped as
        `KeptFrom` leaves out. */
    method TakeAll(samples: seq<Sample>, first: nat -> Policy, second: nat -> Policy, dropEvery: nat, downsampleN: nat)
      requires Valid()
      requires forall i | 0 <= i < |samples| :: Counted(samples[i], first(i), dropEvery) ==> 1 <= downsampleN
      modifies this
      ensures Valid() && offered == old(offered) + samples && got == old(got)
      ensures
        var m := CountedIn(samples, first, dropEvery);
        && downsampleCounter == (old(downsampleCounter) + m) % TWO32
        && CountFate(fates, Downsampled) + KeptFrom(old(downsampleCounter), m, downsampleN)
           == old(CountFate(fates, Downsampled)) + m
    {
      hide Accounts, Every, CountFate;
      ghost var c, m := downsampleCounter, 0;
      assert samples[..0] == [];
      for i := 0 to |samples|
        invariant Valid() && offered == old(offered) + samples[..i] && got == old(got)
        invariant m == CountedIn(samples[..i], first, dropEvery) && downsampleCounter == (c + m) % TWO32
        invariant CountFate(fates, Downsampled) + KeptFrom(c, m, downsampleN) == old(CountFate(fates, Downsampled)) + m
      {
        ghost var fates0 := fates;
        CountedGrows(samples, i, first, dropEvery);
        WrapStep(c, m);
        Take(samples[i], first(i), second(i), dropEvery, downsampleN);
        FateGrows(fates0, fates[|fates| - 1]);
        if Counted(samples[i], first(i), dropEvery) { m := m + 1; }
        assert samples[..i + 1] == samples[..i] + [samples[i]];
      }
      assert samples[..|samples|] == samples;
    }

    /** Fault injection discards a sample uncounted. */
    ghost method DropInjected(s: Sample)
      requires Valid()
      modifies `offered, `fates
      ensures Valid() && offered == old(offered) + [s] && fates == old(fates) + [Injected]
    {
      hide Accounts;
      Offered(offered, fates, ways, got, fifo, kfifoOverflow, policyDropped, s, Injected);
      offered, fates := offered + [s], fates + [Injected];
    }

    method DropDownsampled(s: Sample)
      requires Valid()
      modifies `offered, `fates, `policyDropped
      ensures Valid() && offered == old(offered) + [s] && fates == old(fates) + [Downsampled]
    {
      hide Accounts;
      Offered(offered, fates, ways, got, fifo, kfifoOverflow, policyDropped, s, Downsampled);
      policyDropped := (policyDropped + 1) % TWO32;
      offered, fates := offered + [s], fates + [Downsampled];
    }

    /** The part under fifo_lock. */
    method Put(s: Sample, policy: Policy)
      requires Valid()
      modifies `fifo, `kfifoOverflow, `policyDropped, `offered, `fates, `ways
      ensures Valid() && offered == old(offered) + [s]
      ensures
        var full := |old(fifo)| == SIZE;
        && fates == old(fates) + [if full && policy != Oldest then Overflowed else Queued]
        && ways == old(ways) + (if full && policy == Oldest then [Evicted] else [])
        && fifo == (if !full then old(fifo) + [s] else if policy == Oldest then old(fifo)[1..] + [s] else old(fifo))
    {
      assert ways + [] == ways && |fifo| <= SIZE;
      hide Accounts;
      if policy == Oldest && |fifo| == SIZE { DropOldest(); }
      Push(s);
    }

    method DropOldest()
      requires Valid() && fifo != []
      modifies `fifo, `policyDropped, `ways
      ensures Valid() && fifo == old(fifo)[1..] && ways == old(ways) + [Evicted]
    {
      hide Accounts;
      Evict(offered, fates, ways, got, fifo, kfifoOverflow, policyDropped);
      fifo, ways := fifo[1..], ways + [Evicted];
      policyDropped := (policyDropped + 1) % TWO32;
    }

    method Push(s: Sample)
      requires Valid()
      modifies `fifo, `kfifoOverflow, `offered, `fates
      ensures Valid() && offered == old(offered) + [s]
      ensures
        var full := |old(fifo)| == SIZE;
        fates == old(fates) + [if full then Overflowed else Queued] && fifo == (if full then old(fifo) else old(fifo) + [s])
    {
      assert |fifo| <= SIZE;
      hide Accounts;
      if |fifo| == SIZE {
        Offered(offered, fates, ways, got, fifo, kfifoOverflow, policyDropped, s, Overflowed);
        kfifoOverflow := (kfifoOverflow + 1) % TWO32;
        offered, fates := offered + [s], fates + [Overflowed];
      } else {
        Offered(offered, fates, ways, got, fifo, kfifoOverflow, policyDropped, s, Queued);
        fifo := fifo + [s];
        offered, fates := offered + [s], fates + [Queued];
      }
    }

    /** Whole samples only, oldest first, as many as fit and are there when the lock is
        taken. `sawEmpty` is what the test without the lock saw before; a reader that saw or
        waited for samples may find that another has taken them, and gets none. */
    method ReadOut(count: nat, sawEmpty: bool, nonblocking: bool, signalled: bool) returns (r: ReadResult)
      requires Valid()
      modifies `fifo, `ways, `got
      ensures Valid()
      ensures
        var n := if count / SAMPLE_BYTES <= |old(fifo)| then count / SAMPLE_BYTES else |old(fifo)|;
        if count < SAMPLE_BYTES then r == Invalid && fifo == old(fifo) && got == old(got)
        else if sawEmpty && nonblocking then r == WouldBlock && fifo == old(fifo) && got == old(got)
        else if sawEmpty && signalled then r == Interrupted && fifo == old(fifo) && got == old(got)
        else r == Data(old(fifo)[..n]) && fifo == old(fifo)[n..] && got == old(got) + old(fifo)[..n]
             && (r.samples == [] <==> old(fifo) == [])
    {
      hide Accounts;
      var whole := count - count % SAMPLE_BYTES;
      if whole == 0 { return Invalid; }
      if sawEmpty {
        if nonblocking { return WouldBlock; }
        if signalled { return Interrupted; }
      }
      var n := if whole / SAMPLE_BYTES <= |fifo| then whole / SAMPLE_BYTES else |fifo|;
      TakeOut(offered, fates, ways, got, fifo, kfifoOverflow, policyDropped, n);
      r := Data(fifo[..n]);
      ways, got, fifo := ways + Reads(n), got + fifo[..n], fifo[n..];
    }
  }

  /** At the wrap the driver keeps two samples in a row although n is 3. */
  method WrapKeepsTwo(d: Driver, s: Sample, t: Sample)
    requires d.Valid() && d.fifo == [] && d.downsampleCounter == 0xFFFF_FFFE
    modifies d
    ensures d.Valid() && d.fates == old(d.fates) + [Queued, Queued] && d.fifo == [s, t]
    ensures KeptFrom(0xFFFF_FFFE, 2, 3) == 2
  {
    hide Accounts;
    d.Take(s, Downsample, Downsample, 0, 3);
    d.Take(t, Downsample, Downsample, 0, 3);
    assert KeptFrom(0xFFFF_FFFE, 0, 3) == 0 && KeptFrom(0xFFFF_FFFE, 1, 3) == 1;
  }
}
