/**
 Record and replay: what the recorder writes, the replayer reads back. The file is a
 32-byte header, the service name, and one fixed-size record per sample, little-endian.
 */
module Recording {
  import opened Arithmetic

  type Byte = x: nat | x < 256
  const HEADER: nat := 32
  const PREFIX: nat := 16
  const MAX_NAME: nat := 4096

  /** "DBUSREC1" */
  const MAGIC: seq<Byte> := [0x44, 0x42, 0x55, 0x53, 0x52, 0x45, 0x43, 0x31]

  datatype TypeInfo = TypeInfo(hash: nat, size: nat, align: nat)
  datatype Sample = Sample(seqno: nat, publishNs: int, payload: seq<Byte>)
  datatype Opened = NotARecording | Truncated | Open(info: TypeInfo, name: seq<Byte>)

  // ---------------------------------------------------------------------------
  // Little-endian numbers
  // ---------------------------------------------------------------------------

  function Le(n: nat, v: nat): (b: seq<Byte>)
    ensures |b| == n
  {
    if n == 0 then [] else [v % 256] + Le(n - 1, v / 256)
  }

  function FromLe(b: seq<Byte>): nat { if b == [] then 0 else b[0] + 256 * FromLe(b[1..]) }

  function Pow256(n: nat): (p: nat)
    ensures 0 < p
  {
    if n == 0 then 1 else 256 * Pow256(n - 1)
  }

  /** A number survives if it fits. */
  lemma {:induction false} LeRoundTrip(n: nat, v: nat)
    requires v < Pow256(n)
    ensures FromLe(Le(n, v)) == v
    decreases n
  {
    if n > 0 {
      LeRoundTrip(n - 1, v / 256);
      assert Le(n, v)[1..] == Le(n - 1, v / 256);
    }
  }

  /** By position: the least significant byte first. */
  lemma {:induction false} LeAt(n: nat, v: nat, i: nat)
    requires i < n
    ensures Le(n, v)[i] == v / Pow256(i) % 256
    decreases n
  {
    if i > 0 {
      LeAt(n - 1, v / 256, i - 1);
      DivideTwice(v, Pow256(i - 1));
    }
  }

  lemma DivideTwice(v: nat, p: nat)
    requires 0 < p
    ensures v / 256 / p == v / (256 * p)
  {
    var q, r := v / 256, v % 256;
    var a, b := q / p, q % p;
    assert q == a * p + b && v == 256 * q + r;
    assert v == a * (256 * p) + (256 * b + r);
    assert 256 * b + r < 256 * p;
    QuotientRemainder(v, 256 * p, a, 256 * b + r);
  }

  /** The file starts with these characters. */
  lemma MagicIs(i: nat)
    requires i < 8
    ensures MAGIC[i] as char == "DBUSREC1"[i]
  {
  }

  lemma Powers()
    ensures Pow256(4) == TWO32 && Pow256(8) == TWO64
  {
    assert Pow256(2) == 65536;
  }

  // ---------------------------------------------------------------------------
  // The file
  // ---------------------------------------------------------------------------

  function Header(t: TypeInfo, nameLen: nat): (h: seq<Byte>)
    ensures |h| == HEADER
  {
    MAGIC + Le(4, 1) + Le(4, t.size % TWO32) + Le(8, t.hash % TWO64) + Le(4, t.align % TWO32) + Le(4, nameLen % TWO32)
  }

  function Record(s: Sample): (r: seq<Byte>)
    ensures |r| == PREFIX + |s.payload|
  {
    Le(8, s.seqno % TWO64) + Le(8, s.publishNs % TWO64) + s.payload
  }

  function Records(samples: seq<Sample>): seq<Byte> {
    if samples == [] then [] else Records(samples[..|samples| - 1]) + Record(samples[|samples| - 1])
  }

  function File(t: TypeInfo, name: seq<Byte>, samples: seq<Sample>): seq<Byte> {
    Header(t, |name|) + name + Records(samples)
  }

  ghost predicate Sized(samples: seq<Sample>, size: nat) {
    forall k | 0 <= k < |samples| :: |samples[k].payload| == size
  }

  lemma {:induction false} RecordsGrow(a: seq<Sample>, b: seq<Sample>)
    ensures Records(a + b) == Records(a) + Records(b)
    decreases |b|
  {
    hide Record;
    if b == [] {
      assert a + b == a;
    } else {
      var n := |b| - 1;
      assert (a + b)[..|a + b| - 1] == a + b[..n];
      RecordsGrow(a, b[..n]);
    }
  }

  lemma {:induction false} RecordsLength(samples: seq<Sample>, size: nat)
    requires Sized(samples, size)
    ensures |Records(samples)| == |samples| * (PREFIX + size)
    decreases |samples|
  {
    hide Record;
    if samples != [] {
      RecordsLength(samples[..|samples| - 1], size);
      assert |samples| * (PREFIX + size) == (|samples| - 1) * (PREFIX + size) + (PREFIX + size);
    }
  }

  // ---------------------------------------------------------------------------
  // Reading it back
  // ---------------------------------------------------------------------------

  function Field(h: seq<Byte>, at: nat, n: nat): nat
    requires at + n <= |h|
  {
    FromLe(h[at..at + n])
  }

  /** The checks of the replayer's constructor. */
  function OpenFile(file: seq<Byte>): Opened {
    if |file| < HEADER || file[..8] != MAGIC || Field(file, 8, 4) != 1 || Field(file, 12, 4) == 0
       || Field(file, 28, 4) > MAX_NAME then NotARecording
    else
      var n := Field(file, 28, 4);
      if |file| < HEADER + n then Truncated
      else Open(TypeInfo(Field(file, 16, 8), Field(file, 12, 4), Field(file, 24, 4)), file[HEADER..HEADER + n])
  }

  /** The payloads of the records that are there in full. */
  function Replayed(bytes: seq<Byte>, size: nat): seq<seq<Byte>>
    decreases |bytes|
  {
    if |bytes| < PREFIX + size then []
    else [bytes[PREFIX..PREFIX + size]] + Replayed(bytes[PREFIX + size..], size)
  }

  // ---------------------------------------------------------------------------
  // Round trip
  // ---------------------------------------------------------------------------

  /** Where the fields of a header are. */
  lemma HeaderFields(t: TypeInfo, nameLen: nat, rest: seq<Byte>)
    ensures
      var f := Header(t, nameLen) + rest;
      && f[..8] == MAGIC && f[8..12] == Le(4, 1) && f[12..16] == Le(4, t.size % TWO32)
      && f[16..24] == Le(8, t.hash % TWO64) && f[24..28] == Le(4, t.align % TWO32) && f[28..32] == Le(4, nameLen % TWO32)
  {
    hide Le;
  }

  lemma HeaderReads(t: TypeInfo, nameLen: nat, rest: seq<Byte>)
    ensures
      var f := Header(t, nameLen) + rest;
      && f[..8] == MAGIC && Field(f, 8, 4) == 1 && Field(f, 12, 4) == t.size % TWO32
      && Field(f, 16, 8) == t.hash % TWO64 && Field(f, 24, 4) == t.align % TWO32 && Field(f, 28, 4) == nameLen % TWO32
  {
    HeaderFields(t, nameLen, rest);
    Powers();
    LeRoundTrip(4, 1);
    LeRoundTrip(4, t.size % TWO32);
    LeRoundTrip(8, t.hash % TWO64);
    LeRoundTrip(4, t.align % TWO32);
    LeRoundTrip(4, nameLen % TWO32);
    hide Le, FromLe, Pow256, Header;
  }

  /** A recording opens exactly when its type has a size (modulo 2^32) and its name is not
      too long; and then type and name are what was recorded. Cut anywhere in the name it
      is reported as truncated, cut in the header as no recording. */
  lemma OpensIff(t: TypeInfo, name: seq<Byte>, samples: seq<Sample>, cut: nat)
    requires |name| < TWO32 && cut <= |File(t, name, samples)|
    ensures
      var o := OpenFile(File(t, name, samples)[..cut]);
      if cut < HEADER || t.size % TWO32 == 0 || |name| > MAX_NAME then o == NotARecording
      else if cut < HEADER + |name| then o == Truncated
      else o == Open(TypeInfo(t.hash % TWO64, t.size % TWO32, t.align % TWO32), name)
  {
    hide Records, Field, Header;
    var file := File(t, name, samples);
    if HEADER <= cut {
      var rest := (name + Records(samples))[..cut - HEADER];
      assert file[..cut] == Header(t, |name|) + rest;
      HeaderReads(t, |name|, rest);
      if HEADER + |name| <= cut { NameIs(Header(t, |name|), name, Records(samples), cut); }
    }
  }

  lemma NameIs(h: seq<Byte>, name: seq<Byte>, rest: seq<Byte>, cut: nat)
    requires |h| == HEADER && HEADER + |name| <= cut <= HEADER + |name| + |rest|
    ensures (h + name + rest)[..cut][HEADER..HEADER + |name|] == name
  {
    assert (h + name + rest)[..cut] == h + name + rest[..cut - HEADER - |name|];
    Middle(h, name, rest[..cut - HEADER - |name|]);
  }

  lemma Middle(a: seq<Byte>, b: seq<Byte>, c: seq<Byte>)
    ensures (a + b + c)[|a|..|a| + |b|] == b
  {
  }

  lemma {:induction false} FromLeFits(b: seq<Byte>)
    ensures FromLe(b) < Pow256(|b|) && Le(|b|, FromLe(b)) == b
    decreases |b|
  {
    if b != [] {
      FromLeFits(b[1..]);
      assert FromLe(b) % 256 == b[0] && FromLe(b) / 256 == FromLe(b[1..]);
      assert b == [b[0]] + b[1..];
    }
  }

  /** A file begins like a recording of this type and name. */
  ghost predicate Begins(file: seq<Byte>, t: TypeInfo, name: seq<Byte>) {
    && 0 < t.size < TWO32 && t.hash < TWO64 && t.align < TWO32 && |name| <= MAX_NAME
    && Header(t, |name|) + name <= file
  }

  /** The other way round: whatever the file, it opens as this type and name exactly if it
      begins like a recording of them. */
  lemma OpensAsWhatItIs(file: seq<Byte>, t: TypeInfo, name: seq<Byte>)
    ensures OpenFile(file) == Open(t, name) <==> Begins(file, t, name)
  {
    hide OpenFile, Begins;
    if Begins(file, t, name) {
      BeginsOpens(file, t, name);
    } else if OpenFile(file) == Open(t, name) {
      OpenedBegins(file, t, name);
    }
  }

  lemma BeginsOpens(file: seq<Byte>, t: TypeInfo, name: seq<Byte>)
    requires Begins(file, t, name)
    ensures OpenFile(file) == Open(t, name)
  {
    hide Header, Field;
    var h := Header(t, |name|);
    var rest := file[|h| + |name|..];
    assert file == h + name + rest;
    Middle(h, name, rest);
    assert h + name + rest == h + (name + rest);
    HeaderReads(t, |name|, name + rest);
  }

  lemma OpenedBegins(file: seq<Byte>, t: TypeInfo, name: seq<Byte>)
    requires OpenFile(file) == Open(t, name)
    ensures Begins(file, t, name)
  {
    hide Header, Field;
    HeaderParts(file);
    HeaderIs(file[..32], t, |name|);
    assert file[..HEADER + |name|] == file[..32] + file[HEADER..HEADER + |name|];
  }

  lemma HeaderParts(file: seq<Byte>)
    requires 32 <= |file|
    ensures
      var h := file[..32];
      && h[..8] == file[..8] && Field(h, 8, 4) == Field(file, 8, 4) && Field(h, 12, 4) == Field(file, 12, 4)
      && Field(h, 16, 8) == Field(file, 16, 8) && Field(h, 24, 4) == Field(file, 24, 4) && Field(h, 28, 4) == Field(file, 28, 4)
  {
    hide FromLe;
    var h := file[..32];
    assert h[8..12] == file[8..12] && h[12..16] == file[12..16] && h[16..24] == file[16..24];
    assert h[24..28] == file[24..28] && h[28..32] == file[28..32];
  }

  /** A header with these fields is the header of this type. */
  lemma HeaderIs(h: seq<Byte>, t: TypeInfo, nameLen: nat)
    requires |h| == 32 && h[..8] == MAGIC && Field(h, 8, 4) == 1 && Field(h, 12, 4) == t.size && Field(h, 16, 8) == t.hash
    requires Field(h, 24, 4) == t.align && Field(h, 28, 4) == nameLen
    ensures h == Header(t, nameLen) && t.size < TWO32 && t.hash < TWO64 && t.align < TWO32 && nameLen < TWO32
  {
    hide Le, Field;
    FieldsBack(h);
    var size, hash, align, n := t.size % TWO32, t.hash % TWO64, t.align % TWO32, nameLen % TWO32;
    assert size == t.size && hash == t.hash && align == t.align && n == nameLen;
    HeaderJoined(t, nameLen, size, hash, align, n);
  }

  lemma HeaderJoined(t: TypeInfo, nameLen: nat, size: nat, hash: nat, align: nat, n: nat)
    requires size == t.size % TWO32 && hash == t.hash % TWO64 && align == t.align % TWO32 && n == nameLen % TWO32
    ensures Header(t, nameLen) == MAGIC + Le(4, 1) + Le(4, size) + Le(8, hash) + Le(4, align) + Le(4, n)
  {
    hide Le;
  }

  lemma FieldsBack(h: seq<Byte>)
    requires |h| == 32
    ensures h == h[..8] + Le(4, Field(h, 8, 4)) + Le(4, Field(h, 12, 4)) + Le(8, Field(h, 16, 8)) + Le(4, Field(h, 24, 4))
                 + Le(4, Field(h, 28, 4))
    ensures Field(h, 8, 4) < TWO32 && Field(h, 12, 4) < TWO32 && Field(h, 16, 8) < TWO64 && Field(h, 24, 4) < TWO32
    ensures Field(h, 28, 4) < TWO32
  {
    Powers();
    FromLeFits(h[8..12]);
    FromLeFits(h[12..16]);
    FromLeFits(h[16..24]);
    FromLeFits(h[24..28]);
    FromLeFits(h[28..32]);
    hide Le, FromLe, Pow256;
    assert h == h[..8] + h[8..12] + h[12..16] + h[16..24] + h[24..28] + h[28..32];
  }

  ghost function Payloads(samples: seq<Sample>): (p: seq<seq<Byte>>)
    ensures |p| == |samples|
  {
    seq(|samples|, k requires 0 <= k < |samples| => samples[k].payload)
  }

  /** One record at the front. */
  lemma ReplaysFirst(s: Sample, rest: seq<Byte>)
    ensures Replayed(Record(s) + rest, |s.payload|) == [s.payload] + Replayed(rest, |s.payload|)
  {
    hide Le;
    var bytes := Record(s) + rest;
    var n := PREFIX + |s.payload|;
    assert bytes[PREFIX..n] == s.payload && bytes[n..] == rest;
  }

  /** Whole records, then something shorter than a record. */
  lemma {:induction false} ReplaysWhole(samples: seq<Sample>, size: nat, tail: seq<Byte>)
    requires Sized(samples, size) && |tail| < PREFIX + size
    ensures Replayed(Records(samples) + tail, size) == Payloads(samples)
    decreases |samples|
  {
    hide Record;
    if samples == [] {
      assert Records(samples) + tail == tail;
    } else {
      var first, more := samples[0], samples[1..];
      assert samples == [first] + more;
      RecordsGrow([first], more);
      SingleRecord(first);
      assert Records(samples) + tail == Record(first) + (Records(more) + tail);
      ReplaysFirst(first, Records(more) + tail);
      ReplaysWhole(more, size, tail);
      hide Replayed, Records;
      assert [first.payload] + Payloads(more) == Payloads(samples);
    }
  }

  lemma SingleRecord(s: Sample)
    ensures Records([s]) == Record(s)
  {
    hide Record;
    assert [s][..0] == [];
    assert Records([]) + Record(s) == Record(s);
  }

  /** Each record carries its sample's number, time and payload, modulo 2^64. */
  lemma RecordFields(s: Sample, rest: seq<Byte>)
    ensures
      var r := Record(s) + rest;
      && Field(r, 0, 8) == s.seqno % TWO64 && Field(r, 8, 8) == s.publishNs % TWO64
      && r[PREFIX..PREFIX + |s.payload|] == s.payload
  {
    hide Le, FromLe, Pow256;
    var r := Record(s) + rest;
    assert r[0..8] == Le(8, s.seqno % TWO64) && r[8..16] == Le(8, s.publishNs % TWO64);
    Powers();
    LeRoundTrip(8, s.seqno % TWO64);
    LeRoundTrip(8, s.publishNs % TWO64);
  }

  /** Where the record of sample `k` begins. */
  function RecordAt(nameLen: nat, size: nat, k: nat): nat { HEADER + nameLen + k * (PREFIX + size) }

  /** So every sample recorded can be read back in full, at its place in the file. */
  lemma SampleReadsBack(t: TypeInfo, name: seq<Byte>, samples: seq<Sample>, k: nat)
    requires Sized(samples, t.size) && k < |samples|
    ensures
      var at := RecordAt(|name|, t.size, k);
      var file := File(t, name, samples);
      && at + PREFIX + t.size <= |file|
      && Field(file, at, 8) == samples[k].seqno % TWO64 && Field(file, at + 8, 8) == samples[k].publishNs % TWO64
      && file[at + PREFIX..at + PREFIX + t.size] == samples[k].payload
  {
    hide Records, Record, Header, FromLe;
    var front, s, back := samples[..k], samples[k], samples[k + 1..];
    assert samples == front + ([s] + back);
    RecordsGrow(front, [s] + back);
    RecordsGrow([s], back);
    SingleRecord(s);
    RecordsLength(front, t.size);
    RecordFields(s, Records(back));
    var at := RecordAt(|name|, t.size, k);
    var r := Record(s) + Records(back);
    assert File(t, name, samples) == Header(t, |name|) + name + Records(front) + r;
    assert File(t, name, samples)[at..] == r;
    SliceShift(File(t, name, samples), at, 0, 8);
    SliceShift(File(t, name, samples), at, 8, 16);
    SliceShift(File(t, name, samples), at, PREFIX, PREFIX + t.size);
  }

  lemma SliceShift(file: seq<Byte>, at: nat, i: nat, j: nat)
    requires at <= |file| && i <= j <= |file| - at
    ensures file[at..][i..j] == file[at + i..at + j]
  {
    assert forall k | 0 <= k < j - i :: file[at..][i..j][k] == file[at + i..at + j][k];
  }

  /** The part of a file after a name of that length, and the first `k` samples. */
  function Body(file: seq<Byte>, nameLen: nat): seq<Byte> {
    if HEADER + nameLen <= |file| then file[HEADER + nameLen..] else []
  }

  function FirstOf(samples: seq<Sample>, k: nat): seq<Sample> { if k <= |samples| then samples[..k] else samples }

  function WholeIn(bytes: nat, size: nat): nat { bytes / (PREFIX + size) }

  /** A recording cut anywhere after the name replays exactly the records that are there in
      full; uncut, all of them, in order. */
  lemma TruncatedReplay(t: TypeInfo, name: seq<Byte>, samples: seq<Sample>, cut: nat)
    requires Sized(samples, t.size) && HEADER + |name| <= cut <= |File(t, name, samples)|
    ensures Replayed(Body(File(t, name, samples)[..cut], |name|), t.size) ==
            Payloads(FirstOf(samples, WholeIn(cut - HEADER - |name|, t.size)))
    ensures WholeIn(cut - HEADER - |name|, t.size) <= |samples|
    ensures cut == |File(t, name, samples)| ==> WholeIn(cut - HEADER - |name|, t.size) == |samples|
  {
    hide Records, Header, Replayed, WholeIn;
    var body := cut - HEADER - |name|;
    var whole := WholeIn(body, t.size);
    RecordsLength(samples, t.size);
    WholeRecords(body, t.size, |samples|);
    CutReplay(t, name, samples, body, whole);
  }

  lemma CutReplay(t: TypeInfo, name: seq<Byte>, samples: seq<Sample>, body: nat, whole: nat)
    requires Sized(samples, t.size) && whole <= |samples| && body <= |Records(samples)|
    requires whole * (PREFIX + t.size) <= body < whole * (PREFIX + t.size) + (PREFIX + t.size)
    ensures Replayed(Records(samples)[..body], t.size) == Payloads(FirstOf(samples, whole))
    ensures Body(File(t, name, samples)[..HEADER + |name| + body], |name|) == Records(samples)[..body]
  {
    hide Records, Header, Replayed;
    var kept, lost := samples[..whole], samples[whole..];
    assert samples == kept + lost;
    RecordsGrow(kept, lost);
    RecordsLength(kept, t.size);
    var tail := Records(lost)[..body - |Records(kept)|];
    assert Records(samples)[..body] == Records(kept) + tail;
    ReplaysWhole(kept, t.size, tail);
  }

  lemma WholeRecords(body: nat, size: nat, n: nat)
    requires body <= n * (PREFIX + size)
    ensures
      var q := WholeIn(body, size);
      && q <= n && q * (PREFIX + size) <= body < q * (PREFIX + size) + (PREFIX + size)
      && (body == n * (PREFIX + size) ==> q == n)
  {
    var one := PREFIX + size;
    var q := body / one;
    assert body == q * one + body % one;
    Multiples(q, n, one);
  }

  // ---------------------------------------------------------------------------
  // The recorder and the replayer
  // ---------------------------------------------------------------------------

  class Recorder {
    const info: TypeInfo
    const name: seq<Byte>
    var file: seq<Byte>
    var samples: nat
    var bytes: nat
    ghost var recorded: seq<Sample>

    ghost predicate Valid()
      reads this
    {
      && file == File(info, name, recorded) && Sized(recorded, info.size)
      && samples == |recorded| && bytes == |file|
    }

    constructor (info: TypeInfo, name: seq<Byte>)
      ensures Valid() && this.info == info && this.name == name && recorded == []
    {
      this.info, this.name := info, name;
      file := Header(info, |name|) + name;
      samples, bytes, recorded := 0, HEADER + |name|, [];
      new;
      assert file + [] == file;
    }

    /** Everything received since the last poll is appended, in order. */
    method Poll(received: seq<Sample>) returns (n: nat)
      requires Valid() && Sized(received, info.size)
      modifies this
      ensures Valid() && n == |received| && recorded == old(recorded) + received
    {
      hide Record, Records, Header;
      n := 0;
      ghost var before := recorded;
      while n < |received|
        invariant 0 <= n <= |received| && recorded == before + received[..n]
        invariant file == File(info, name, recorded) && Sized(recorded, info.size)
        invariant samples == |before| && bytes == |File(info, name, before)|
        invariant |file| == bytes + n * (PREFIX + info.size)
      {
        var s := received[n];
        RecordsGrow(recorded, [s]);
        SingleRecord(s);
        assert before + received[..n] + [s] == before + received[..n + 1];
        StepLength(n, PREFIX + info.size);
        file := file + Record(s);
        recorded := recorded + [s];
        n := n + 1;
      }
      assert received[..n] == received;
      samples := samples + n;
      bytes := bytes + n * (PREFIX + info.size);
    }
  }

  lemma StepLength(n: nat, one: nat)
    ensures (n + 1) * one == n * one + one
  {
  }

  class Replayer {
    const file: seq<Byte>
    var at: nat
    var info: TypeInfo
    var name: seq<Byte>

    constructor (file: seq<Byte>)
      ensures this.file == file && at == 0
    {
      this.file, at := file, 0;
      info, name := TypeInfo(0, 0, 0), [];
    }

    /** fread: what is left, at most `n` bytes. */
    method Fetch(n: nat) returns (b: seq<Byte>)
      requires at <= |file|
      modifies `at
      ensures old(at) <= at <= |file| && b == file[old(at)..at]
      ensures |b| == if n <= |file| - old(at) then n else |file| - old(at)
    {
      var end := if n <= |file| - at then at + n else |file|;
      b := file[at..end];
      at := end;
    }

    method OpenIt() returns (r: Opened)
      requires at == 0
      modifies this
      ensures r == OpenFile(file)
      ensures r.Open? ==> info == r.info && name == r.name && at == HEADER + |name| <= |file|
    {
      hide FromLe;
      var h := Fetch(HEADER);
      if |h| < HEADER || h[..8] != MAGIC || Field(h, 8, 4) != 1 || Field(h, 12, 4) == 0 || Field(h, 28, 4) > MAX_NAME {
        HeaderIsFront(file, h);
        return NotARecording;
      }
      HeaderIsFront(file, h);
      var n := Field(h, 28, 4);
      var got := Fetch(n);
      if |got| != n { return Truncated; }
      name := got;
      info := TypeInfo(Field(h, 16, 8), Field(h, 12, 4), Field(h, 24, 4));
      r := Open(info, name);
    }

    /** Publishes the payloads one by one, as long as the caller wants to go on. A record for
        which no chunk can be had is skipped and counted. `read` records were handled. */
    method Run(keepGoing: nat -> bool, loans: nat -> bool)
      returns (sent: seq<seq<Byte>>, failures: nat, ghost read: nat)
      requires at <= |file|
      modifies `at
      ensures
        var all := Replayed(file[old(at)..], info.size);
        && read <= |all| && sent == Loanable(all[..read], loans) && failures + |sent| == read
        && (forall i | 0 <= i < read :: keepGoing(i)) && (read < |all| ==> !keepGoing(read))
    {
      hide Replayed;
      ghost var all := Replayed(file[at..], info.size);
      sent, failures, read := [], 0, 0;
      assert all[..0] == [] && Loanable(all[..0], loans) == [];
      hide Loanable;
      var more := true;
      while more
        invariant at <= |file| && read == failures + |sent| <= |all| && sent == Loanable(all[..read], loans)
        invariant forall i | 0 <= i < read :: keepGoing(i)
        invariant more ==> all[read..] == Replayed(file[at..], info.size)
        invariant !more ==> read == |all| || !keepGoing(read)
        decreases more, |file| - at
      {
        ghost var rest := file[at..];
        ReplayStep(rest, info.size);
        var prefix := Fetch(PREFIX);
        var payload := Fetch(info.size);
        if |prefix| < PREFIX || |payload| < info.size {
          more := false;
        } else {
          assert payload == rest[PREFIX..PREFIX + info.size] && file[at..] == rest[PREFIX + info.size..];
          assert all[read] == all[read..][0] == payload && all[read + 1..] == all[read..][1..];
          if !keepGoing(failures + |sent|) {
            more := false;
          } else {
            OneMoreRecord(all, read, loans);
            if loans(failures + |sent|) { sent := sent + [payload]; } else { failures := failures + 1; }
            read := read + 1;
          }
        }
      }
    }
  }

  /** The records for which a chunk can be had. */
  ghost function Loanable(records: seq<seq<Byte>>, loans: nat -> bool): seq<seq<Byte>> {
    if records == [] then []
    else
      var n := |records| - 1;
      Loanable(records[..n], loans) + (if loans(n) then [records[n]] else [])
  }

  lemma OneMoreRecord(all: seq<seq<Byte>>, n: nat, loans: nat -> bool)
    requires n < |all|
    ensures Loanable(all[..n + 1], loans) == Loanable(all[..n], loans) + (if loans(n) then [all[n]] else [])
  {
    assert all[..n + 1][..n] == all[..n];
  }

  lemma {:induction false} AllLoanable(records: seq<seq<Byte>>, loans: nat -> bool)
    requires forall k | 0 <= k < |records| :: loans(k)
    ensures Loanable(records, loans) == records
  {
    if records != [] { AllLoanable(records[..|records| - 1], loans); }
  }

  lemma ReplayStep(bytes: seq<Byte>, size: nat)
    ensures |bytes| < PREFIX + size ==> Replayed(bytes, size) == []
    ensures PREFIX + size <= |bytes| ==>
              Replayed(bytes, size) == [bytes[PREFIX..PREFIX + size]] + Replayed(bytes[PREFIX + size..], size)
  {
  }

  lemma HeaderIsFront(file: seq<Byte>, h: seq<Byte>)
    requires h <= file && |h| <= HEADER
    ensures |h| == HEADER ==> h[..8] == file[..8] && Field(h, 8, 4) == Field(file, 8, 4) && Field(h, 12, 4) == Field(file, 12, 4)
    ensures |h| == HEADER ==> Field(h, 16, 8) == Field(file, 16, 8) && Field(h, 24, 4) == Field(file, 24, 4)
                              && Field(h, 28, 4) == Field(file, 28, 4)
  {
    hide FromLe;
    if |h| == HEADER {
      assert h[8..12] == file[8..12] && h[12..16] == file[12..16] && h[16..24] == file[16..24];
      assert h[24..28] == file[24..28] && h[28..32] == file[28..32];
    }
  }

  /** Record, then replay: the type, the name and every payload come back, in order, but for
      those no chunk could be had for. */
  method RecordThenReplay(info: TypeInfo, name: seq<Byte>, received: seq<Sample>, loans: nat -> bool)
    returns (o: Opened, sent: seq<seq<Byte>>)
    requires 0 < info.size < TWO32 && |name| <= MAX_NAME && Sized(received, info.size)
    ensures o == Open(TypeInfo(info.hash % TWO64, info.size, info.align % TWO32), name)
    ensures sent == Loanable(Payloads(received), loans)
    ensures (forall k | 0 <= k < |received| :: loans(k)) ==> sent == Payloads(received)
  {
    hide Header, Records, Replayed, OpenFile, WholeIn, Loanable;
    var recorder := new Recorder(info, name);
    var _ := recorder.Poll(received);
    assert [] + received == received;
    var file := recorder.file;
    OpensIff(info, name, received, |file|);
    TruncatedReplay(info, name, received, |file|);
    assert file[..|file|] == file && FirstOf(received, |received|) == received;
    var replayer := new Replayer(file);
    o := replayer.OpenIt();
    var failures;
    ghost var read;
    sent, failures, read := replayer.Run(_ => true, loans);
    ghost var all := Payloads(received);
    assert all[..|all|] == all;
    if forall k | 0 <= k < |received| :: loans(k) { AllLoanable(all, loans); }
  }
}
