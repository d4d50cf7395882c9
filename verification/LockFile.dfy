/** `flock.bin` byte by byte: 1024 int counters, then the 48-byte owner record
    with its checksum. */
module LockFile {
  import opened Common
  import opened LockTypes
  import opened Bytes

  const MAGIC := 0x484B464C
  const VERSION := 1
  const RECORD_SIZE := 48
  const RECORD_OFFSET := 4096 // sizeof(int) * 1024
  const FLOCK_SIZE := 4144

  // ----- checksum -----

  const FNV_START := 1469598103934665603
  const FNV_PRIME := 1099511628211
  /** FNV_PRIME is odd, so it has an inverse modulo 2^64. */
  const FNV_INVERSE := 14886173955864302971

  function Round(h: nat, b: Byte): (r: nat)
    ensures r < TWO64
  {
    (Xor(h, b) * FNV_PRIME) % TWO64
  }

  function Hash(h: nat, bs: seq<Byte>): nat
    decreases |bs|
  {
    if bs == [] then h else Hash(Round(h, bs[0]), bs[1..])
  }

  const ZEROS: seq<Byte> := [0, 0, 0, 0, 0, 0, 0, 0]

  /** The checksum is taken with the checksum field zeroed. */
  function Checksum(bs: seq<Byte>): nat
    requires |bs| == RECORD_SIZE
  {
    Hash(FNV_START, bs[..40] + ZEROS)
  }

  /** `metadata_checksum`: the loop computes the fold. */
  method MetadataChecksum(bs: seq<Byte>) returns (hash: nat)
    requires |bs| == RECORD_SIZE
    ensures hash == Checksum(bs)
  {
    var copy := bs[..40] + ZEROS;
    hash := FNV_START;
    var i := 0;
    while i < |copy|
      invariant 0 <= i <= |copy|
      invariant Hash(FNV_START, copy) == Hash(hash, copy[i..])
    {
      hash := (Xor(hash, copy[i]) * FNV_PRIME) % TWO64;
      i := i + 1;
    }
  }

  lemma ModOfSum(x: nat, z: int)
    requires x < TWO64
    ensures (x + TWO64 * z) % TWO64 == x
  {
  }

  lemma PrimeHasInverse(x: nat)
    requires x < TWO64
    ensures ((x * FNV_PRIME) % TWO64 * FNV_INVERSE) % TWO64 == x
  {
    var q := (x * FNV_PRIME) / TWO64;
    var r := (x * FNV_PRIME) % TWO64;
    var z := 887285111055 * x - FNV_INVERSE * q;
    assert r == x * FNV_PRIME - TWO64 * q;
    assert r * FNV_INVERSE == x + TWO64 * z;
    ModOfSum(x, z);
  }

  lemma Pow2Of8()
    ensures Pow2(8) == 256
  {
  }

  lemma Pow2Of64()
    ensures Pow2(64) == TWO64 && Pow2(8) == 256
  {
    hide Pow2;
    Pow2Of8();
    Pow2Add(8, 8);
    Pow2Add(16, 16);
    Pow2Add(32, 32);
  }

  lemma RoundInjective(h: nat, g: nat, b: Byte, d: Byte)
    requires h < TWO64 && g < TWO64 && Round(h, b) == Round(g, d)
    ensures Xor(h, b) == Xor(g, d)
    ensures b == d ==> h == g
    ensures h == g ==> b == d
  {
    Pow2Of64();
    XorBound(h, b, 64);
    XorBound(g, d, 64);
    PrimeHasInverse(Xor(h, b));
    PrimeHasInverse(Xor(g, d));
    XorCancels(h, b);
    XorCancels(g, d);
    XorCommutes(h, b);
    XorCommutes(g, d);
    XorCancels(b, h);
    XorCancels(d, g);
  }

  lemma {:induction false} HashInjective(h: nat, g: nat, bs: seq<Byte>)
    requires h < TWO64 && g < TWO64 && Hash(h, bs) == Hash(g, bs)
    ensures h == g
    decreases |bs|
  {
    hide Round;
    if bs != [] {
      HashInjective(Round(h, bs[0]), Round(g, bs[0]), bs[1..]);
      RoundInjective(h, g, bs[0], bs[0]);
    }
  }

  /** One changed byte survives all remaining rounds. */
  lemma {:induction false} HashSeesByte(h: nat, bs: seq<Byte>, i: nat, b: Byte)
    requires h < TWO64 && i < |bs| && b != bs[i]
    ensures Hash(h, bs[i := b]) != Hash(h, bs)
    decreases |bs|
  {
    hide Round;
    var cs := bs[i := b];
    if i == 0 {
      assert cs[1..] == bs[1..];
      if Hash(h, cs) == Hash(h, bs) {
        HashInjective(Round(h, b), Round(h, bs[0]), bs[1..]);
        RoundInjective(h, h, b, bs[0]);
      }
    } else {
      assert cs[1..] == bs[1..][i - 1 := b];
      HashSeesByte(Round(h, bs[0]), bs[1..], i - 1, b);
    }
  }

  // ----- the record -----

  function StateCode(s: LockState): (n: nat)
    ensures n <= 3
  {
    match s case Unlocked => 0 case Acquiring => 1 case Locked => 2 case Releasing => 3
  }

  function StateOf(n: nat): (s: LockState)
    requires n <= 3
    ensures StateCode(s) == n
  {
    if n == 0 then Unlocked else if n == 1 then Acquiring else if n == 2 then Locked else Releasing
  }

  /** The checks of an inspection, in their order. */
  function ParseRecord(bs: seq<Byte>): RecordView
    requires |bs| == RECORD_SIZE
  {
    if FromBytes(bs[0..4]) != MAGIC then BadMagic
    else if FromBytes(bs[4..6]) != VERSION || FromBytes(bs[6..8]) != RECORD_SIZE then BadVersion
    else if FromBytes(bs[40..48]) != Checksum(bs) then BadChecksum
    else if FromBytes(bs[8..12]) > 3 then BadState
    else Good(LockRecord(
                StateOf(FromBytes(bs[8..12])),
                FromBytes(bs[12..16]),
                Identity(Signed(FromBytes(bs[16..24]), 8), FromBytes(bs[24..32])),
                FromBytes(bs[32..40])))
  }

  predicate InRange(m: LockRecord) {
    m.reserved < Pow256(4) && FitsSigned(m.owner.pid, 8) && m.owner.token < Pow256(8) && m.generation < Pow256(8)
  }

  function Body(m: LockRecord): (bs: seq<Byte>)
    requires InRange(m)
    ensures |bs| == 40
  {
    ToBytes(MAGIC, 4) + ToBytes(VERSION, 2) + ToBytes(RECORD_SIZE, 2) + ToBytes(StateCode(m.state), 4)
    + ToBytes(m.reserved, 4) + ToBytes(Unsigned(m.owner.pid, 8), 8) + ToBytes(m.owner.token, 8)
    + ToBytes(m.generation, 8)
  }

  /** The 48 bytes `write_metadata` puts into the file. */
  function Encode(m: LockRecord): (bs: seq<Byte>)
    requires InRange(m)
    ensures |bs| == RECORD_SIZE
  {
    Body(m) + ToBytes(Hash(FNV_START, Body(m) + ZEROS), 8)
  }

  lemma {:induction false} HashBound(h: nat, bs: seq<Byte>)
    requires h < TWO64
    ensures Hash(h, bs) < TWO64
    decreases |bs|
  {
    hide Round;
    if bs != [] {
      HashBound(Round(h, bs[0]), bs[1..]);
    }
  }

  lemma Powers()
    ensures Pow256(2) == 0x1_0000 && Pow256(4) == 0x1_0000_0000 && Pow256(8) == TWO64
  {
    assert Pow256(6) == 0x1_0000_0000_0000;
  }

  /** A record survives the trip through the file. */
  lemma RecordRoundTrip(m: LockRecord)
    requires InRange(m)
    ensures ParseRecord(Encode(m)) == Good(m)
  {
    hide Hash, ToBytes, FromBytes;
    Powers();
    var bs := Encode(m);
    var body := Body(m);
    var sum := Hash(FNV_START, body + ZEROS);
    HashBound(FNV_START, body + ZEROS);
    assert bs[..40] == body;
    assert bs[40..48] == ToBytes(sum, 8);
    assert bs[0..4] == ToBytes(MAGIC, 4);
    assert bs[4..6] == ToBytes(VERSION, 2);
    assert bs[6..8] == ToBytes(RECORD_SIZE, 2);
    assert bs[8..12] == ToBytes(StateCode(m.state), 4);
    assert bs[12..16] == ToBytes(m.reserved, 4);
    assert bs[16..24] == ToBytes(Unsigned(m.owner.pid, 8), 8);
    assert bs[24..32] == ToBytes(m.owner.token, 8);
    assert bs[32..40] == ToBytes(m.generation, 8);
    FromToBytes(MAGIC, 4);
    FromToBytes(VERSION, 2);
    FromToBytes(RECORD_SIZE, 2);
    FromToBytes(StateCode(m.state), 4);
    FromToBytes(m.reserved, 4);
    FromToBytes(Unsigned(m.owner.pid, 8), 8);
    FromToBytes(m.owner.token, 8);
    FromToBytes(m.generation, 8);
    FromToBytes(sum, 8);
  }

  /** Where the fields are: the layout of MasterLockMetadataV1 on a 64-bit machine. */
  lemma LayoutIs(m: LockRecord)
    requires InRange(m)
    ensures var bs := Encode(m);
            && FromBytes(bs[0..4]) == 0x484B464C && FromBytes(bs[4..6]) == 1 && FromBytes(bs[6..8]) == 48
            && FromBytes(bs[8..12]) == StateCode(m.state)
            && FromBytes(bs[12..16]) == m.reserved
            && Signed(FromBytes(bs[16..24]), 8) == m.owner.pid
            && FromBytes(bs[24..32]) == m.owner.token
            && FromBytes(bs[32..40]) == m.generation
            && ChecksumMatches(bs)
  {
    hide Hash, ToBytes, FromBytes;
    RecordRoundTrip(m);
    var bs := Encode(m);
    assert bs[8..12] == ToBytes(StateCode(m.state), 4);
    Powers();
    FromToBytes(StateCode(m.state), 4);
  }

  /** A record is accepted iff all five checks pass; the first one that fails is named. */
  lemma AcceptedIff(bs: seq<Byte>)
    requires |bs| == RECORD_SIZE
    ensures ParseRecord(bs).Good? <==>
            && FromBytes(bs[0..4]) == 0x484B464C && FromBytes(bs[4..6]) == 1 && FromBytes(bs[6..8]) == 48
            && ChecksumMatches(bs) && FromBytes(bs[8..12]) <= 3
    ensures ParseRecord(bs).BadMagic? <==> FromBytes(bs[0..4]) != 0x484B464C
    ensures ParseRecord(bs).BadState? ==> ChecksumMatches(bs) && FromBytes(bs[8..12]) > 3
    ensures ParseRecord(bs).BadChecksum? ==> !ChecksumMatches(bs)
    ensures ParseRecord(bs).BadVersion? ==> FromBytes(bs[4..6]) != 1 || FromBytes(bs[6..8]) != 48
    ensures !ParseRecord(bs).Absent?
  {
  }

  lemma ParsedInRange(bs: seq<Byte>)
    requires |bs| == RECORD_SIZE && ParseRecord(bs).Good?
    ensures InRange(ParseRecord(bs).rec)
  {
    hide Hash, FromBytes, Pow256;
    FromBytesBound(bs[12..16]);
    FromBytesBound(bs[16..24]);
    FromBytesBound(bs[24..32]);
    FromBytesBound(bs[32..40]);
  }

  predicate ChecksumMatches(bs: seq<Byte>)
    requires |bs| == RECORD_SIZE
  {
    FromBytes(bs[40..48]) == Checksum(bs)
  }

  /** Changing any one byte of a record whose checksum matches breaks the match. */
  lemma OneByteBreaksChecksum(bs: seq<Byte>, i: nat, b: Byte)
    requires |bs| == RECORD_SIZE && ChecksumMatches(bs)
    requires i < RECORD_SIZE && b != bs[i]
    ensures !ChecksumMatches(bs[i := b])
  {
    var cs := bs[i := b];
    if i < 40 {
      assert cs[40..48] == bs[40..48];
      assert cs[..40] + ZEROS == (bs[..40] + ZEROS)[i := b];
      HashSeesByte(FNV_START, bs[..40] + ZEROS, i, b);
    } else {
      assert cs[..40] == bs[..40];
      assert cs[40..48][i - 40] != bs[40..48][i - 40];
      if FromBytes(cs[40..48]) == FromBytes(bs[40..48]) {
        FromBytesInjective(cs[40..48], bs[40..48]);
      }
    }
  }

  // ----- the whole file -----

  function CounterAt(f: seq<Byte>, i: nat): int
    requires 4 * i + 4 <= |f|
  {
    Signed(FromBytes(f[4 * i..4 * i + 4]), 4)
  }

  function CounterOf(f: seq<Byte>): Option<int> {
    if |f| < 4 then None else Some(CounterAt(f, 0))
  }

  function RecordOf(f: seq<Byte>): RecordView {
    if |f| < FLOCK_SIZE then Absent else ParseRecord(f[RECORD_OFFSET..FLOCK_SIZE])
  }

  /** `inspect_locked` on the bytes of any file, of any size. */
  function InspectBytes(f: seq<Byte>, status: Status): Inspection {
    Inspect(CounterOf(f), RecordOf(f), status)
  }

  function PutRecordBytes(f: seq<Byte>, m: LockRecord): seq<Byte>
    requires InRange(m)
  {
    WriteAt(f, RECORD_OFFSET, Encode(m))
  }

  function PutCounterBytes(f: seq<Byte>, i: nat, v: int): seq<Byte>
    requires FitsSigned(v, 4)
  {
    WriteAt(f, 4 * i, ToBytes(Unsigned(v, 4), 4))
  }

  /** Corruption detection: whatever the identity lookup answers, a record that
      passes the checksum and then has one byte changed is rejected as UNKNOWN. */
  lemma CorruptionIsDetected(f: seq<Byte>, i: nat, b: Byte, status: Status)
    requires |f| >= FLOCK_SIZE && ChecksumMatches(f[RECORD_OFFSET..FLOCK_SIZE])
    requires RECORD_OFFSET <= i < FLOCK_SIZE && b != f[i]
    ensures var r := InspectBytes(f[i := b], status);
            r.health == Unknown && (r.cause == Format || r.cause == Unsupported || r.cause == Corrupt)
  {
    var bs := f[RECORD_OFFSET..FLOCK_SIZE];
    var g := f[i := b];
    OneByteBreaksChecksum(bs, i - RECORD_OFFSET, b);
    assert g[RECORD_OFFSET..FLOCK_SIZE] == bs[i - RECORD_OFFSET := b];
  }

  /** A written record reads back, and counter 0 is left alone. */
  lemma RecordWritten(f: seq<Byte>, m: LockRecord)
    requires InRange(m) && |f| >= FLOCK_SIZE
    ensures RecordOf(PutRecordBytes(f, m)) == Good(m)
    ensures |PutRecordBytes(f, m)| == |f|
    ensures forall i :: 0 <= i < MAX_SEM ==> CounterAt(PutRecordBytes(f, m), i) == CounterAt(f, i)
  {
    RecordRoundTrip(m);
    var g := PutRecordBytes(f, m);
    forall i | 0 <= i < MAX_SEM
      ensures CounterAt(g, i) == CounterAt(f, i)
    {
      assert g[4 * i..4 * i + 4] == f[4 * i..4 * i + 4];
    }
  }

  /** A written counter reads back, and neither the record nor another counter moves. */
  lemma CounterWritten(f: seq<Byte>, k: nat, v: int)
    requires FitsSigned(v, 4) && k < MAX_SEM && |f| >= FLOCK_SIZE
    ensures CounterAt(PutCounterBytes(f, k, v), k) == v
    ensures |PutCounterBytes(f, k, v)| == |f|
    ensures RecordOf(PutCounterBytes(f, k, v)) == RecordOf(f)
    ensures forall i :: 0 <= i < MAX_SEM && i != k ==> CounterAt(PutCounterBytes(f, k, v), i) == CounterAt(f, i)
  {
    var g := PutCounterBytes(f, k, v);
    FromToBytes(Unsigned(v, 4), 4);
    assert g[4 * k..4 * k + 4] == ToBytes(Unsigned(v, 4), 4);
    assert g[RECORD_OFFSET..FLOCK_SIZE] == f[RECORD_OFFSET..FLOCK_SIZE];
    forall i | 0 <= i < MAX_SEM && i != k
      ensures CounterAt(g, i) == CounterAt(f, i)
    {
      assert g[4 * i..4 * i + 4] == f[4 * i..4 * i + 4];
    }
  }
}
