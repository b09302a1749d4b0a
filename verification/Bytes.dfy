/** Bytes, two-byte addresses and the little-endian integers the messages are made of. */
module Bytes {

  /** A byte, as the number it stands for. */
  type byte = x: int | 0 <= x < 256

  /** A node address: two bytes, in the order in which a message carries them. */
  datatype Ip = Ip(b0: byte, b1: byte)

  datatype Option<+T> = None | Some(value: T)

  /** One more than the greatest `unsigned long int`. */
  const U64 := 0x1_0000_0000_0000_0000

  /** What an `unsigned long int` keeps of a mathematical result. */
  function Wrap64(x: int): (r: nat)
    ensures r < U64
    ensures 0 <= x < U64 ==> r == x
  {
    x % 0x1_0000_0000_0000_0000
  }

  /** What a `short` keeps of a mathematical result. */
  function Wrap16(x: int): (r: int)
    ensures -32768 <= r < 32768
    ensures -32768 <= x < 32768 ==> r == x
  {
    (x + 32768) % 65536 - 32768
  }

  // ---------------------------------------------------------------- numbers

  function Pow256(k: nat): (p: nat)
    ensures p > 0
  {
    if k == 0 then 1 else 256 * Pow256(k - 1)
  }

  /** The first `k` little-endian bytes of `v`. */
  function Le(v: nat, k: nat): (s: seq<byte>)
    ensures |s| == k
  {
    if k == 0 then [] else [v % 256] + Le(v / 256, k - 1)
  }

  /** The number that the bytes `s` stand for, least significant byte first. */
  function UnLe(s: seq<byte>): nat {
    if s == [] then 0 else s[0] as int + 256 * UnLe(s[1..])
  }

  lemma {:induction false} LeRoundTrip(v: nat, k: nat)
    requires v < Pow256(k)
    ensures UnLe(Le(v, k)) == v
  {
    if k > 0 {
      LeRoundTrip(v / 256, k - 1);
      assert Le(v, k)[1..] == Le(v / 256, k - 1);
    }
  }

  /** Two bytes read as an `unsigned short`. */
  function U16At(b: seq<byte>, at: nat): (r: nat)
    requires at + 2 <= |b|
    ensures r < 65536
  {
    b[at] as int + 256 * (b[at + 1] as int)
  }

  /** Two bytes read as a `short`. */
  function ShortAt(b: seq<byte>, at: nat): (r: int)
    requires at + 2 <= |b|
    ensures -32768 <= r < 32768
  {
    Wrap16(U16At(b, at))
  }

  /** The low byte and the high byte of a `short`, as `*(short*)p = x` stores them. */
  function Lo(x: int): byte {
    x % 256
  }

  function Hi(x: int): byte {
    x / 256 % 256
  }

  lemma ShortRoundTrip(x: int)
    ensures Lo(x) as int + 256 * (Hi(x) as int) == x % 65536
    ensures Wrap16(x % 65536) == Wrap16(x)
  {
    var high, y := x / 65536, x % 65536;
    assert x == 65536 * high + y;
    assert x / 256 == 256 * high + y / 256 && x % 256 == y % 256;
    assert y == 256 * (y / 256) + y % 256;
  }

  // ---------------------------------------------------------------- bits

  function Pow2(k: nat): (p: nat)
    ensures p > 0
  {
    if k == 0 then 1 else 2 * Pow2(k - 1)
  }

  /** `x << 1` in a byte. */
  function Doubled(x: byte): (r: byte)
    ensures r as int == if x >= 128 then 2 * (x as int) - 256 else 2 * (x as int)
  {
    2 * (x as int) % 256
  }

  /** `x << s` in a byte. */
  function ShiftLeft(x: byte, s: nat): byte {
    if s == 0 then x else Doubled(ShiftLeft(x, s - 1))
  }

  /** Bit `k`, counted from the most significant end: `(0x80 >> k) & b` is not zero. */
  predicate Bit(b: byte, k: nat)
    requires k < 8
    decreases k
  {
    if k == 0 then b >= 128 else Bit(Doubled(b), k - 1)
  }

  lemma {:induction false} BitWeighs(b: byte, k: nat)
    requires k < 8 && Bit(b, k)
    ensures b >= Pow2(7 - k)
    decreases k
  {
    if k == 0 {
      assert Pow2(7) == 128;
    } else {
      BitWeighs(Doubled(b), k - 1);
    }
  }

  /** `CLEARBIT(7 - k, b)`: takes away the weight of bit `k` if the bit is set. */
  function Cleared(b: byte, k: nat): byte
    requires k < 8
  {
    if Bit(b, k) then (BitWeighs(b, k); b - Pow2(7 - k)) else b
  }

  /** Clearing and doubling commute. */
  lemma ClearedDoubles(b: byte, k: nat)
    requires 0 < k < 8
    ensures Doubled(Cleared(b, k)) == Cleared(Doubled(b), k - 1)
  {
    if Bit(b, k) {
      BitWeighs(b, k);
      BitWeighs(Doubled(b), k - 1);
      SmallWeight(k);
    }
  }

  lemma {:induction false} ClearedBits(b: byte, k: nat, j: nat)
    requires k < 8 && j < 8
    ensures Bit(Cleared(b, k), j) <==> Bit(b, j) && j != k
    decreases k
  {
    if k == 0 {
      assert Pow2(7) == 128;
      assert j > 0 ==> Doubled(Cleared(b, 0)) == Doubled(b);
    } else if j == 0 {
      ClearedTop(b, k);
    } else {
      ClearedDoubles(b, k);
      ClearedBits(Doubled(b), k - 1, j - 1);
    }
  }

  lemma {:induction false} SmallWeight(k: nat)
    requires 0 < k < 8
    ensures Pow2(7 - k) <= 64
  {
    if k == 1 {
      assert Pow2(6) == 64;
    } else {
      SmallWeight(k - 1);
    }
  }

  /** Clearing a lower bit leaves the top bit alone. */
  lemma ClearedTop(b: byte, k: nat)
    requires 0 < k < 8
    ensures Cleared(b, k) >= 128 <==> b >= 128
  {
    if Bit(b, k) && b >= 128 {
      BitWeighs(Doubled(b), k - 1);
    }
  }

  lemma {:induction false} RoomForBit(b: byte, k: nat)
    requires k < 8 && !Bit(b, k)
    ensures b + Pow2(7 - k) < 256
    decreases k
  {
    if k == 0 {
      assert Pow2(7) == 128;
    } else {
      RoomForBit(Doubled(b), k - 1);
    }
  }

  /** `SETBIT(7 - k, b)`: adds the weight of bit `k` unless the bit is set. */
  function WithBit(b: byte, k: nat): byte
    requires k < 8
  {
    if Bit(b, k) then b else (RoomForBit(b, k); b + Pow2(7 - k))
  }

  /** Setting and doubling commute. */
  lemma SetDoubles(b: byte, k: nat)
    requires 0 < k < 8
    ensures Doubled(WithBit(b, k)) == WithBit(Doubled(b), k - 1)
    ensures WithBit(b, k) >= 128 <==> b >= 128
  {
    if !Bit(b, k) {
      RoomForBit(b, k);
      RoomForBit(Doubled(b), k - 1);
      SmallWeight(k);
    }
  }

  lemma {:induction false} SetBits(b: byte, k: nat, j: nat)
    requires k < 8 && j < 8
    ensures Bit(WithBit(b, k), j) <==> Bit(b, j) || j == k
    decreases k
  {
    if k == 0 {
      assert Pow2(7) == 128;
      assert j > 0 ==> Doubled(WithBit(b, 0)) == Doubled(b);
    } else {
      SetDoubles(b, k);
      if j > 0 {
        SetBits(Doubled(b), k - 1, j - 1);
      }
    }
  }

  /** `0xff << s` is its own double, one bit shorter. */
  lemma OnesDouble(s: nat)
    requires s < 8
    ensures Doubled(ShiftLeft(0xff, s)) == ShiftLeft(0xff, s + 1)
    ensures ShiftLeft(0xff, s) >= 128
  {
    ShiftedOnes(s);
    Pow2Grows(s, 7);
    assert Pow2(7) == 128;
  }

  /** `0xff << (8 - rest)` keeps exactly the first `rest` bits. */
  lemma {:induction false} LeadingOnes(rest: nat, j: nat)
    requires rest <= 8 && j < 8
    ensures Bit(ShiftLeft(0xff, 8 - rest), j) <==> j < rest
    decreases j
  {
    if rest == 0 {
      ShiftedOnes(8);
      assert Pow2(8) == 256;
      ZeroBit(j);
    } else {
      OnesDouble(8 - rest);
      if j > 0 {
        LeadingOnes(rest - 1, j - 1);
      }
    }
  }

  lemma {:induction false} Pow2Grows(a: nat, b: nat)
    ensures a <= b ==> Pow2(a) <= Pow2(b)
  {
    if a < b {
      Pow2Grows(a, b - 1);
    }
  }

  lemma {:induction false} ShiftedOnes(s: nat)
    requires s <= 8
    ensures ShiftLeft(0xff, s) == 256 - Pow2(s)
  {
    assert Pow2(8) == 256;
    Pow2Grows(s, 8);
    if s > 0 {
      ShiftedOnes(s - 1);
    }
  }

  /** A byte without its first `m` bits is small. */
  lemma {:induction false} SmallWithoutLeadingBits(b: byte, m: nat)
    requires m <= 8 && forall j | 0 <= j < m :: !Bit(b, j)
    ensures b < Pow2(8 - m)
    decreases m
  {
    if m == 0 {
      assert Pow2(8) == 256;
    } else {
      assert !Bit(b, 0);
      forall j | 0 <= j < m - 1
        ensures !Bit(Doubled(b), j)
      {
        assert !Bit(b, j + 1);
      }
      SmallWithoutLeadingBits(Doubled(b), m - 1);
    }
  }

  lemma {:induction false} ZeroBit(k: nat)
    requires k < 8
    ensures !Bit(0, k)
  {
    if k > 0 {
      ZeroBit(k - 1);
    }
  }

  ghost predicate NoBits(b: byte) {
    forall j | 0 <= j < 8 :: !Bit(b, j)
  }

  /** A byte is zero exactly when it has no bit. */
  lemma ZeroHasNoBits(b: byte)
    ensures b == 0 <==> NoBits(b)
  {
    if b == 0 {
      forall j | 0 <= j < 8
        ensures !Bit(b, j)
      {
        ZeroBit(j);
      }
    }
    if NoBits(b) {
      SmallWithoutLeadingBits(b, 8);
      assert Pow2(0) == 1;
    }
  }
}
