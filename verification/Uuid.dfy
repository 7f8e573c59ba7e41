/** Time-ordered UUIDs (internal/platform/logger/uuid.go; sections 5.7 and 6.2 of RFC 9562). */
module Uuid {
  import opened Hex

  const TWO_48 := 0x1_0000_0000_0000

  /** The clock state as one number, 4096 ticks to the millisecond. */
  function Ticks(ms: int, seq12: int): int { ms * 4096 + seq12 }

  class Uuid7Clock {
    var lastMs: int
    var lastSeq: int

    constructor ()
      ensures lastMs == 0 && lastSeq == 0
    {
      lastMs, lastSeq := 0, 0;
    }

    ghost predicate Valid()
      reads this
    {
      0 <= lastMs && 0 <= lastSeq < 4096
    }

    /** The three-way case split of the source is one maximum: the next tick, or the first
        tick of a later reading. */
    method NextTimestampAndSeq(currentMs: int) returns (ms: int, seq12: int)
      requires Valid()
      modifies this
      ensures Valid() && ms == lastMs && seq12 == lastSeq
      ensures Ticks(ms, seq12) == NextTick(old(Ticks(lastMs, lastSeq)), currentMs)
    {
      ms := currentMs;
      if ms < lastMs {
        ms := lastMs;
      }
      if ms == lastMs {
        seq12 := lastSeq + 1;
        if seq12 >= 0x1000 {
          ms := ms + 1;
          seq12 := 0;
        }
      } else {
        seq12 := 0;
      }
      lastMs := ms;
      lastSeq := seq12;
    }
  }

  function NextTick(tick: int, now: int): int {
    if tick + 1 < now * 4096 then now * 4096 else tick + 1
  }

  /** The tick after a sequence of readings, from a fresh clock. */
  function TickAfter(readings: seq<int>): int {
    if readings == [] then 0 else NextTick(TickAfter(readings[..|readings| - 1]), readings[|readings| - 1])
  }

  function MaxReading(readings: seq<int>): int {
    if readings == [] then 0
    else
      var m := MaxReading(readings[..|readings| - 1]);
      if readings[|readings| - 1] > m then readings[|readings| - 1] else m
  }

  // ---------- packing ----------

  /** The masks of the source, on the bit patterns they meet. */
  lemma MasksAreArithmetic(high: bv8, rnd: bv8)
    requires high < 16
    ensures 0x70 | high == 0x70 + high
    ensures (rnd & 0x3f) | 0x80 == (rnd & 0x3f) + 0x80 && (rnd & 0x3f) == rnd % 64
  { }

  /** Bytes 0 to 7: the 48-bit timestamp, then version 7 and the 12-bit sequence. */
  function Stamp(ms: int, seq12: int): (bs: seq<byte>)
    requires 0 <= seq12 < 4096
  {
    [ms / 0x100_0000_0000 % 256, ms / 0x1_0000_0000 % 256, ms / 0x100_0000 % 256,
     ms / 0x1_0000 % 256, ms / 0x100 % 256, ms % 256,
     0x70 + seq12 / 256, seq12 % 256]
  }

  /** Bytes 8 to 15: variant 10 and 62 random bits. */
  function Tail(rand: seq<byte>): (bs: seq<byte>)
    requires |rand| == 8
  {
    [rand[0] % 64 + 0x80] + rand[1..]
  }

  method PutStamp(b: array<byte>, ms: int, seq12: int)
    requires b.Length == 16 && 0 <= seq12 < 4096
    modifies b
    ensures b[..8] == Stamp(ms, seq12) && b[8..] == old(b[8..])
  {
    ghost var bs := Stamp(ms, seq12);
    b[0] := ms / 0x100_0000_0000 % 256;
    b[1] := ms / 0x1_0000_0000 % 256;
    b[2] := ms / 0x100_0000 % 256;
    b[3] := ms / 0x1_0000 % 256;
    b[4] := ms / 0x100 % 256;
    b[5] := ms % 256;
    b[6] := 0x70 + seq12 / 256;
    b[7] := seq12 % 256;
    assert b[0] == bs[0] && b[1] == bs[1] && b[2] == bs[2] && b[3] == bs[3]
        && b[4] == bs[4] && b[5] == bs[5] && b[6] == bs[6] && b[7] == bs[7];
    hide Stamp;
  }

  method Uuid7Bytes(ms: int, seq12: int, rand: seq<byte>) returns (b: array<byte>)
    requires 0 <= ms && 0 <= seq12 < 4096 && |rand| == 9
    ensures fresh(b) && b.Length == 16
    ensures b[..] == Stamp(ms, seq12) + Tail(rand[1..])
  {
    hide Stamp;
    b := new byte[16](i => 0);
    for i := 7 to 16
      invariant forall j :: 7 <= j < i ==> b[j] == rand[j - 7]
    {
      b[i] := rand[i - 7];
    }
    assert b[8..] == rand[1..];
    PutStamp(b, ms, seq12);
    assert b[8] == rand[1..][0] by { assert b[8..][0] == rand[1..][0]; }
    b[8] := b[8] % 64 + 0x80;
    assert b[..8] == Stamp(ms, seq12);
    assert b[8..] == Tail(rand[1..]);
    assert b[..] == b[..8] + b[8..];
  }

  /** The canonical 8-4-4-4-12 form. */
  function Format(b: seq<byte>): (s: string)
    requires |b| == 16
    ensures |s| == 36
  {
    var h := Encode(b);
    h[0..8] + "-" + h[8..12] + "-" + h[12..16] + "-" + h[16..20] + "-" + h[20..32]
  }

  /** The id made from a tick and a random tail. */
  function Id(tick: int, rand: seq<byte>): (s: string)
    requires |rand| == 8
    ensures |s| == 36
  {
    Format(Stamp(tick / 4096, tick % 4096) + Tail(rand))
  }

  /** uuid7(): one reading of the clock, nine random bytes. */
  method Uuid7(clock: Uuid7Clock, now: int, rand: seq<byte>) returns (id: string)
    requires clock.Valid() && |rand| == 9
    modifies clock
    ensures clock.Valid()
    ensures Ticks(clock.lastMs, clock.lastSeq) == NextTick(old(Ticks(clock.lastMs, clock.lastSeq)), now)
    ensures id == Id(Ticks(clock.lastMs, clock.lastSeq), rand[1..])
    ensures Parse(id)[8] % 64 == rand[1] % 64 && Parse(id)[9..] == rand[2..]
  {
    var ms, seq12 := clock.NextTimestampAndSeq(now);
    var b := Uuid7Bytes(ms, seq12, rand);
    id := Format(b[..]);
    TicksSplit(ms, seq12);
    RandomReadsBack(Ticks(ms, seq12), rand[1..]);
    assert rand[1..][1..] == rand[2..];
  }

  lemma TicksSplit(ms: int, seq12: int)
    requires 0 <= ms && 0 <= seq12 < 4096
    ensures Ticks(ms, seq12) / 4096 == ms && Ticks(ms, seq12) % 4096 == seq12
  { }

  // ---------- order ----------

  /** An n-byte big-endian numeral. */
  function BigEndian(m: int, n: nat): (bs: seq<byte>)
    requires 0 <= m
    ensures |bs| == n
  {
    if n == 0 then [] else BigEndian(m / 256, n - 1) + [m % 256]
  }

  function Power256(n: nat): nat {
    if n == 0 then 1 else 256 * Power256(n - 1)
  }

  /** Numerals compare as their numbers do. */
  lemma {:induction false} BigEndianOrder(x: int, y: int, n: nat)
    requires 0 <= x < y < Power256(n)
    ensures Less(BYTE_LESS, BigEndian(x, n), BigEndian(y, n))
  {
    var low1: seq<byte>, low2: seq<byte> := [x % 256], [y % 256];
    if x / 256 < y / 256 {
      BigEndianOrder(x / 256, y / 256, n - 1);
      LessBefore(BYTE_LESS, BigEndian(x / 256, n - 1), BigEndian(y / 256, n - 1), low1, low2);
    } else {
      LessAt(BYTE_LESS, low1, low2, 0);
      LessAfter(BYTE_LESS, BigEndian(x / 256, n - 1), low1, low2);
    }
  }

  /** The shifts of the source cut a big-endian numeral. */
  lemma StampIsBigEndian(ms: int, seq12: int)
    requires 0 <= ms && 0 <= seq12 < 4096
    ensures Stamp(ms, seq12) == BigEndian(ms, 6) + [0x70 + seq12 / 256, seq12 % 256]
  {
    var m1, m2, m3, m4, m5 := ms / 0x100, ms / 0x1_0000, ms / 0x100_0000, ms / 0x1_0000_0000, ms / 0x100_0000_0000;
    assert m1 / 256 == m2;
    assert m2 / 256 == m3;
    assert m3 / 256 == m4;
    assert m4 / 256 == m5;
    assert BigEndian(m5, 1) == [] + [m5 % 256];
    assert BigEndian(m4, 2) == [m5 % 256, m4 % 256];
    assert BigEndian(m3, 3) == [m5 % 256, m4 % 256, m3 % 256];
    assert BigEndian(m2, 4) == [m5 % 256, m4 % 256, m3 % 256, m2 % 256];
    assert BigEndian(m1, 5) == [m5 % 256, m4 % 256, m3 % 256, m2 % 256, m1 % 256];
    assert BigEndian(ms, 6) == [m5 % 256, m4 % 256, m3 % 256, m2 % 256, m1 % 256, ms % 256];
  }

  lemma StampOrder(m1: int, s1: int, m2: int, s2: int)
    requires 0 <= m1 < TWO_48 && 0 <= m2 < TWO_48 && 0 <= s1 < 4096 && 0 <= s2 < 4096
    requires m1 < m2 || (m1 == m2 && s1 < s2)
    ensures Less(BYTE_LESS, Stamp(m1, s1), Stamp(m2, s2))
  {
    StampIsBigEndian(m1, s1);
    StampIsBigEndian(m2, s2);
    var a: seq<byte>, b: seq<byte> := [0x70 + s1 / 256, s1 % 256], [0x70 + s2 / 256, s2 % 256];
    hide Stamp, BigEndian;
    if m1 < m2 {
      assert Power256(6) == TWO_48 by { assert Power256(2) == 65536 && Power256(4) == 65536 * 65536; }
      BigEndianOrder(m1, m2, 6);
      LessBefore(BYTE_LESS, BigEndian(m1, 6), BigEndian(m2, 6), a, b);
    } else {
      LessAt(BYTE_LESS, a, b, if s1 / 256 < s2 / 256 then 0 else 1);
      LessAfter(BYTE_LESS, BigEndian(m1, 6), a, b);
    }
  }

  /** Where a hex digit lands in the hyphenated form, and which digit stands at a place. */
  function Place(k: nat): nat {
    if k < 8 then k else if k < 12 then k + 1 else if k < 16 then k + 2 else if k < 20 then k + 3 else k + 4
  }

  function DigitAt(j: nat): nat {
    if j < 8 then j else if j < 13 then j - 1 else if j < 18 then j - 2 else if j < 23 then j - 3 else j - 4
  }

  lemma FormatPlaces(b: seq<byte>, j: nat)
    requires |b| == 16 && j < 36
    ensures Format(b)[j] == if j in {8, 13, 18, 23} then '-' else Encode(b)[DigitAt(j)]
  {
    hide Encode;
  }

  lemma FormatKeepsOrder(a: seq<byte>, b: seq<byte>)
    requires |a| == |b| == 16 && Less(BYTE_LESS, a, b)
    ensures Less(CHAR_LESS, Format(a), Format(b))
  {
    hide Format, Encode;
    EncodeKeepsOrder(a, b);
    var i := FirstDifference(CHAR_LESS, Encode(a), Encode(b));
    FormatPlaces(a, Place(i));
    FormatPlaces(b, Place(i));
    forall j: nat | j < Place(i) ensures Format(a)[j] == Format(b)[j] {
      FormatPlaces(a, j);
      FormatPlaces(b, j);
    }
    LessAt(CHAR_LESS, Format(a), Format(b), Place(i));
  }

  lemma IdsFollowTicks(t1: int, r1: seq<byte>, t2: int, r2: seq<byte>)
    requires 0 <= t1 < t2 && t2 / 4096 < TWO_48 && |r1| == |r2| == 8
    ensures Less(CHAR_LESS, Id(t1, r1), Id(t2, r2))
  {
    hide Format, Less;
    assert t1 == t1 / 4096 * 4096 + t1 % 4096 && t2 == t2 / 4096 * 4096 + t2 % 4096;
    assert t1 / 4096 < t2 / 4096 || (t1 / 4096 == t2 / 4096 && t1 % 4096 < t2 % 4096);
    StampOrder(t1 / 4096, t1 % 4096, t2 / 4096, t2 % 4096);
    LessBefore(BYTE_LESS, Stamp(t1 / 4096, t1 % 4096), Stamp(t2 / 4096, t2 % 4096), Tail(r1), Tail(r2));
    FormatKeepsOrder(Stamp(t1 / 4096, t1 % 4096) + Tail(r1), Stamp(t2 / 4096, t2 % 4096) + Tail(r2));
  }

  // ---------- reading an id ----------

  function Unformat(s: string): string
    requires |s| == 36
  {
    s[0..8] + s[9..13] + s[14..18] + s[19..23] + s[24..36]
  }

  /** The sixteen bytes of a formatted id. */
  function Parse(id: string): (b: seq<byte>)
    requires |id| == 36
    ensures |b| == 16
  {
    var h := Unformat(id);
    DecodeLength(h);
    Decode(h)
  }

  lemma {:induction false} DecodeLength(s: string)
    ensures |Decode(s)| == |s| / 2
  {
    if |s| >= 2 { DecodeLength(s[2..]); }
  }

  lemma FormatReadsBack(b: seq<byte>)
    requires |b| == 16
    ensures Parse(Format(b)) == b
  {
    EncodeReadsBack(b);
    var h, f := Encode(b), Format(b);
    hide Encode, Decode;
    assert f[0..8] == h[0..8] && f[9..13] == h[8..12] && f[14..18] == h[12..16] && f[19..23] == h[16..20] && f[24..36] == h[20..32];
    assert Unformat(f) == h;
  }

  /** The number a big-endian numeral stands for. */
  function Number(bs: seq<byte>): nat {
    if bs == [] then 0 else Number(bs[..|bs| - 1]) * 256 + bs[|bs| - 1]
  }

  lemma {:induction false} NumeralReadsBack(m: int, n: nat)
    requires 0 <= m < Power256(n)
    ensures Number(BigEndian(m, n)) == m
  {
    if n > 0 {
      NumeralReadsBack(m / 256, n - 1);
      var bs := BigEndian(m, n);
      assert bs[..n - 1] == BigEndian(m / 256, n - 1);
    }
  }

  /** The random bytes of an id: all but the two bits of the variant. */
  lemma RandomReadsBack(tick: int, rand: seq<byte>)
    requires |rand| == 8
    ensures var b := Parse(Id(tick, rand)); b[8] / 64 == 2 && b[8] % 64 == rand[0] % 64 && b[9..] == rand[1..]
  {
    FormatReadsBack(Stamp(tick / 4096, tick % 4096) + Tail(rand));
    hide Stamp, Parse, Format;
    var b := Stamp(tick / 4096, tick % 4096) + Tail(rand);
    assert b[8] == Tail(rand)[0] && b[9..] == Tail(rand)[1..];
  }

  /** An id gives back its clock reading, its sequence number, its version and its variant
      (section 5.7 of RFC 9562), in its bytes and where its text shows them. */
  lemma IdReadsBack(tick: int, rand: seq<byte>)
    requires 0 <= tick && tick / 4096 < TWO_48 && |rand| == 8
    ensures var b := Parse(Id(tick, rand));
            && Number(b[..6]) == tick / 4096
            && (b[6] as int) % 16 * 256 + (b[7] as int) == tick % 4096
            && b[6] / 16 == 7 && b[8] / 64 == 2
    ensures var id := Id(tick, rand);
            id[8] == id[13] == id[18] == id[23] == '-' && id[14] == '7' && id[19] in {'8', '9', 'a', 'b'}
  {
    var ms, seq12 := tick / 4096, tick % 4096;
    var b := Stamp(ms, seq12) + Tail(rand);
    FormatReadsBack(b);
    StampIsBigEndian(ms, seq12);
    assert Power256(6) == TWO_48 by { assert Power256(2) == 65536 && Power256(4) == 65536 * 65536; }
    NumeralReadsBack(ms, 6);
    assert b[..6] == BigEndian(ms, 6) && b[6] == 0x70 + seq12 / 256 && b[7] == seq12 % 256 && b[8] == rand[0] % 64 + 0x80;
    hide Stamp, BigEndian, Number, Parse, Format, Tail;
    FormatPlaces(b, 8);
    FormatPlaces(b, 13);
    FormatPlaces(b, 18);
    FormatPlaces(b, 23);
    FormatPlaces(b, 14);
    FormatPlaces(b, 19);
    EncodeAt(b, 6);
    EncodeAt(b, 8);
    VariantDigit(b[8]);
  }

  lemma {:induction false} EncodeAt(bs: seq<byte>, i: nat)
    requires i < |bs|
    ensures Encode(bs)[2 * i] == Digit(bs[i] / 16)
  {
    if i > 0 {
      EncodeAt(bs[1..], i - 1);
    }
  }

  lemma VariantDigit(x: byte)
    requires x / 64 == 2
    ensures Digit(x / 16) in {'8', '9', 'a', 'b'} && Digit(7) == '7'
  { }

  /** Within one tick two ids are equal exactly when their random bits are. */
  lemma IdsEqualIff(tick: int, r1: seq<byte>, r2: seq<byte>)
    requires |r1| == |r2| == 8
    ensures Id(tick, r1) == Id(tick, r2) <==> r1[0] % 64 == r2[0] % 64 && r1[1..] == r2[1..]
  {
    RandomReadsBack(tick, r1);
    RandomReadsBack(tick, r2);
    hide Format, Parse;
  }

  // ---------- whole histories ----------

  lemma {:induction false} TicksGrow(readings: seq<int>, i: nat)
    requires i <= |readings|
    ensures TickAfter(readings[..i]) + (|readings| - i) <= TickAfter(readings)
    decreases |readings| - i
  {
    if i == |readings| {
      assert readings[..i] == readings;
    } else {
      TicksGrow(readings, i + 1);
      assert readings[..i + 1][..i] == readings[..i];
    }
  }

  /** The embedded time neither lags behind the latest reading so far nor runs ahead of it
      by more than one millisecond per 4096 calls. */
  lemma {:induction false} DriftIsBounded(readings: seq<int>)
    ensures MaxReading(readings) * 4096 <= TickAfter(readings) <= MaxReading(readings) * 4096 + |readings|
    ensures MaxReading(readings) <= TickAfter(readings) / 4096 <= MaxReading(readings) + |readings| / 4096
  {
    if readings != [] {
      DriftIsBounded(readings[..|readings| - 1]);
    }
  }

  /** For every sequence of clock readings, backward ones included, a later id sorts after an
      earlier one, whatever their random tails, while the embedded time fits 48 bits. */
  lemma IdsStrictlyIncrease(readings: seq<int>, i: nat, j: nat, r1: seq<byte>, r2: seq<byte>)
    requires i < j <= |readings| && |r1| == |r2| == 8
    requires MaxReading(readings[..j]) + j / 4096 < TWO_48
    ensures Less(CHAR_LESS, Id(TickAfter(readings[..i]), r1), Id(TickAfter(readings[..j]), r2))
  {
    TicksGrow(readings[..j], i);
    assert readings[..j][..i] == readings[..i];
    DriftIsBounded(readings[..i]);
    DriftIsBounded(readings[..j]);
    MaxIsNat(readings[..i]);
    hide Id, Less;
    IdsFollowTicks(TickAfter(readings[..i]), r1, TickAfter(readings[..j]), r2);
  }

  lemma {:induction false} MaxIsNat(readings: seq<int>)
    ensures MaxReading(readings) >= 0
  {
    if readings != [] {
      MaxIsNat(readings[..|readings| - 1]);
    }
  }
}
