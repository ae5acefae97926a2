/**
 From the MCU's timer to the reader of /dev/acq0: the drain loop hands what it drained to
 the sample queue, and readers take it from there.
 */
module EndToEnd {
  import opened Arithmetic
  import opened Firmware
  import opened Drain
  import opened Pairing
  import Q = SampleQueue
  import opened Subsequence

  /** A queued sample without its time stamp. */
  ghost function Plain(s: Q.Sample): Item { Item(s.seqno, s.value) }

  ghost function PlainAll(ss: seq<Q.Sample>): seq<Item> { seq(|ss|, i requires 0 <= i < |ss| => Plain(ss[i])) }

  /** The books of a polite run and the accounts of the sample queue, with every drained
      sample offered to the queue, in order. */
  ghost predicate Joined(b: Book, offered: seq<Q.Sample>, fates: seq<Q.Fate>, ways: seq<Q.Way>, got: seq<Q.Sample>,
                         fifo: seq<Q.Sample>, overflow: nat, dropped: nat) {
    Q.Accounts(offered, fates, ways, got, fifo, overflow, dropped) && PlainAll(offered) == b.drained
  }

  lemma PlainEmbeds(sub: seq<Q.Sample>, whole: seq<Q.Sample>, at: seq<nat>)
    requires Embeds(sub, whole, at)
    ensures Embeds(PlainAll(sub), PlainAll(whole), at)
  {
  }

  /** Consecutive numbers: a distance in the stream is the difference of the numbers. */
  lemma NumbersTellDistance(made: seq<Item>, counter: nat, a: nat, b: nat)
    requires Numbered(made, counter) && a < b < |made|
    ensures (made[b].sequence - made[a].sequence) % TWO32 == (b - a) % TWO32
  {
    var x, y := counter - (|made| - a), counter - (|made| - b);
    assert made[a].sequence == x % TWO32 && made[b].sequence == y % TWO32;
    ModDifference(x, y);
  }

  lemma ModDifference(x: int, y: int)
    ensures (y % TWO32 - x % TWO32) % TWO32 == (y - x) % TWO32
  {
  }

  /** What readers get is, number and value, a subsequence of what the firmware made, and
      the numbers of two samples tell how many were made from one to the other, modulo 2^32:
      whatever failed, was dropped or evicted in between shows as a gap, and nothing else does. */
  lemma ReadersGetFirmwareSamples(run: seq<Book>, steps: seq<Step>, k: nat, offered: seq<Q.Sample>, fates: seq<Q.Fate>,
                                  ways: seq<Q.Way>, got: seq<Q.Sample>, fifo: seq<Q.Sample>, overflow: nat, dropped: nat)
    returns (at: seq<nat>)
    requires IsPoliteRun(run, steps) && k < |run|
    requires Joined(run[k], offered, fates, ways, got, fifo, overflow, dropped)
    ensures Embeds(PlainAll(got), run[k].made, at)
    ensures forall i, j | 0 <= i < j < |got| :: (got[j].seqno - got[i].seqno) % TWO32 == (at[j] - at[i]) % TWO32
  {
    var b := run[k];
    DrainedSamplesAreGenuine(run, steps, k);
    hide IsPoliteRun, Q.Accounts, Queue, Numbered;
    var w1 := Q.ReadersSeeDrainOrder(offered, fates, ways, got, fifo, overflow, dropped);
    PlainEmbeds(got, offered, w1);
    var w2 := ChosenEmbeds(b.taken, b.fate);
    PrefixEmbeds(b.drained, b.taken, Queue(b.sys.line.mcu.fifo), w2);
    at := Through(PlainAll(got), b.drained, b.made, w1, w2);
    forall i, j | 0 <= i < j < |got|
      ensures (got[j].seqno - got[i].seqno) % TWO32 == (at[j] - at[i]) % TWO32
    {
      assert PlainAll(got)[i] == Plain(got[i]) && PlainAll(got)[j] == Plain(got[j]);
      NumbersTellDistance(b.made, b.sys.line.mcu.fifo.seqCounter, at[i], at[j]);
    }
  }

  /** Between passes every sample the firmware made is in one place: in its FIFO, lost with a
      failed DATA_VAL, dropped by fault injection or a policy, in the queue, or read. */
  lemma EverySampleIsSomewhere(run: seq<Book>, steps: seq<Step>, k: nat, offered: seq<Q.Sample>, fates: seq<Q.Fate>,
                               ways: seq<Q.Way>, got: seq<Q.Sample>, fifo: seq<Q.Sample>, overflow: nat, dropped: nat)
    requires IsPoliteRun(run, steps) && k < |run| && run[k].sys.pass == NoPass
    requires Joined(run[k], offered, fates, ways, got, fifo, overflow, dropped)
    ensures FifoShape(run[k].sys.line.mcu.fifo)
    ensures |run[k].made| ==
            |Queue(run[k].sys.line.mcu.fifo)| + Losses(run[k].fate)
            + Q.CountFate(fates, Q.Injected) + Q.CountFate(fates, Q.Downsampled) + Q.CountFate(fates, Q.Overflowed)
            + Q.CountWay(ways, Q.Evicted) + |fifo| + |got|
  {
    DrainedSamplesAreGenuine(run, steps, k);
    hide IsPoliteRun, Q.Accounts, Queue, Numbered;
    Q.SamplesConserved(offered, fates, ways, got, fifo, overflow, dropped);
    assert |PlainAll(offered)| == |offered|;
  }
}
