/** Lower-case hexadecimal text (Go's encoding/hex) and the byte-wise order of strings. */
module Hex {

  type byte = x: int | 0 <= x < 256

  function Digit(n: int): (c: char)
    requires 0 <= n < 16
  {
    "0123456789abcdef"[n]
  }

  lemma DigitOrder(a: int, b: int)
    requires 0 <= a < b < 16
    ensures Digit(a) < Digit(b)
  {
    assert forall i :: 0 <= i < 10 ==> "0123456789abcdef"[i] == '0' + i as char;
    assert forall i :: 10 <= i < 16 ==> "0123456789abcdef"[i] == 'a' + (i - 10) as char;
  }

  function Encode(bs: seq<byte>): (s: string)
    ensures |s| == 2 * |bs|
  {
    if bs == [] then "" else [Digit(bs[0] / 16), Digit(bs[0] % 16)] + Encode(bs[1..])
  }

  function Value(c: char): (n: int)
    ensures 0 <= n < 16
  {
    if '0' <= c <= '9' then (c - '0') as int else if 'a' <= c <= 'f' then (c - 'a') as int + 10 else 0
  }

  function Decode(s: string): seq<byte> {
    if |s| < 2 then [] else [Value(s[0]) * 16 + Value(s[1])] + Decode(s[2..])
  }

  lemma DigitReadsBack(n: int)
    requires 0 <= n < 16
    ensures Value(Digit(n)) == n
  {
    assert forall i :: 0 <= i < 10 ==> "0123456789abcdef"[i] == '0' + i as char;
    assert forall i :: 10 <= i < 16 ==> "0123456789abcdef"[i] == 'a' + (i - 10) as char;
  }

  lemma {:induction false} EncodeReadsBack(bs: seq<byte>)
    ensures Decode(Encode(bs)) == bs
  {
    if bs != [] {
      DigitReadsBack(bs[0] / 16);
      DigitReadsBack(bs[0] % 16);
      EncodeReadsBack(bs[1..]);
      assert Encode(bs)[2..] == Encode(bs[1..]);
    }
  }

  /** Strings of one length compared from the left, as a sort by bytes does. */
  predicate Less<T(==)>(lt: (T, T) -> bool, a: seq<T>, b: seq<T>)
    requires |a| == |b|
  {
    a != [] && (lt(a[0], b[0]) || (a[0] == b[0] && Less(lt, a[1..], b[1..])))
  }

  const CHAR_LESS := (x: char, y: char) => x < y
  const BYTE_LESS := (x: byte, y: byte) => x < y

  lemma {:induction false} EncodeKeepsOrder(a: seq<byte>, b: seq<byte>)
    requires |a| == |b| && Less(BYTE_LESS, a, b)
    ensures Less(CHAR_LESS, Encode(a), Encode(b))
  {
    var a0, b0 := [Digit(a[0] / 16), Digit(a[0] % 16)], [Digit(b[0] / 16), Digit(b[0] % 16)];
    if a[0] == b[0] {
      EncodeKeepsOrder(a[1..], b[1..]);
      LessAfter(CHAR_LESS, a0, Encode(a[1..]), Encode(b[1..]));
    } else {
      DigitsOrder(a[0], b[0]);
      LessBefore(CHAR_LESS, a0, b0, Encode(a[1..]), Encode(b[1..]));
    }
  }

  lemma DigitsOrder(x: byte, y: byte)
    requires x < y
    ensures Less(CHAR_LESS, [Digit(x / 16), Digit(x % 16)], [Digit(y / 16), Digit(y % 16)])
  {
    if x / 16 == y / 16 {
      DigitOrder(x % 16, y % 16);
      assert Less(CHAR_LESS, [Digit(x % 16)], [Digit(y % 16)]);
    } else {
      DigitOrder(x / 16, y / 16);
    }
    assert [Digit(x / 16), Digit(x % 16)][1..] == [Digit(x % 16)];
    assert [Digit(y / 16), Digit(y % 16)][1..] == [Digit(y % 16)];
  }

  lemma {:induction false} EncodeInjective(a: seq<byte>, b: seq<byte>)
    requires |a| == |b| && a != b
    ensures Encode(a) != Encode(b)
  {
    var x, y := Encode(a), Encode(b);
    assert x[2..] == Encode(a[1..]) && y[2..] == Encode(b[1..]);
    if a[0] == b[0] {
      assert a == [a[0]] + a[1..] && b == [b[0]] + b[1..];
      EncodeInjective(a[1..], b[1..]);
    } else {
      if a[0] / 16 < b[0] / 16 { DigitOrder(a[0] / 16, b[0] / 16); }
      if b[0] / 16 < a[0] / 16 { DigitOrder(b[0] / 16, a[0] / 16); }
      if a[0] % 16 < b[0] % 16 { DigitOrder(a[0] % 16, b[0] % 16); }
      if b[0] % 16 < a[0] % 16 { DigitOrder(b[0] % 16, a[0] % 16); }
      assert x[0] != y[0] || x[1] != y[1];
    }
  }

  /** A common prefix does not change the order. */
  lemma {:induction false} LessAfter<T>(lt: (T, T) -> bool, p: seq<T>, a: seq<T>, b: seq<T>)
    requires |a| == |b| && Less(lt, a, b)
    ensures Less(lt, p + a, p + b)
  {
    if p == [] {
      assert p + a == a && p + b == b;
    } else {
      LessAfter(lt, p[1..], a, b);
      assert (p + a)[1..] == p[1..] + a && (p + b)[1..] == p[1..] + b;
    }
  }

  /** What follows a difference does not change the order. */
  lemma {:induction false} LessBefore<T>(lt: (T, T) -> bool, a: seq<T>, b: seq<T>, c: seq<T>, d: seq<T>)
    requires |a| == |b| && |c| == |d| && Less(lt, a, b)
    ensures Less(lt, a + c, b + d)
  {
    if !lt(a[0], b[0]) {
      LessBefore(lt, a[1..], b[1..], c, d);
      assert (a + c)[1..] == a[1..] + c && (b + d)[1..] == b[1..] + d;
    }
  }

  /** A first difference decides the order. */
  lemma {:induction false} LessAt<T>(lt: (T, T) -> bool, a: seq<T>, b: seq<T>, i: nat)
    requires |a| == |b| && i < |a| && lt(a[i], b[i])
    requires forall j :: 0 <= j < i ==> a[j] == b[j]
    ensures Less(lt, a, b)
  {
    if i > 0 {
      LessAt(lt, a[1..], b[1..], i - 1);
    }
  }

  lemma {:induction false} FirstDifference<T>(lt: (T, T) -> bool, a: seq<T>, b: seq<T>) returns (i: nat)
    requires |a| == |b| && Less(lt, a, b)
    ensures i < |a| && lt(a[i], b[i]) && forall j :: 0 <= j < i ==> a[j] == b[j]
  {
    if lt(a[0], b[0]) {
      i := 0;
    } else {
      var k := FirstDifference(lt, a[1..], b[1..]);
      i := k + 1;
      forall j | 0 <= j < i ensures a[j] == b[j] {
        if j > 0 { assert a[1..][j - 1] == b[1..][j - 1]; }
      }
    }
  }
}
