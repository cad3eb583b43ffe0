/** Bytes, concatenation and big-endian integers: the vocabulary of every wire format here. */
module Bytes {

  type byte = x: int | 0 <= x < 256

  datatype Option<+T> = None | Some(value: T)

  /** All the bytes of a list of chunks, in order. */
  function Concat(chunks: seq<seq<byte>>): (r: seq<byte>)
  {
    if chunks == [] then [] else chunks[0] + Concat(chunks[1..])
  }

  lemma {:induction false} ConcatAppend(xs: seq<seq<byte>>, ys: seq<seq<byte>>)
    ensures Concat(xs + ys) == Concat(xs) + Concat(ys)
  {
    if xs == [] {
      assert xs + ys == ys;
    } else {
      assert (xs + ys)[1..] == xs[1..] + ys;
      ConcatAppend(xs[1..], ys);
    }
  }

  lemma ConcatOne(x: seq<byte>)
    ensures Concat([x]) == x
  {
    assert [x][1..] == [];
  }

  lemma Associate<T>(a: seq<T>, b: seq<T>, c: seq<T>)
    ensures a + (b + c) == (a + b) + c
  {
  }

  function Min(a: nat, b: nat): nat
  {
    if a <= b then a else b
  }

  function Power256(k: nat): (r: nat)
    ensures r > 0
  {
    if k == 0 then 1 else 256 * Power256(k - 1)
  }

  /** The low `k` bytes of `n`, most significant first. */
  function BigEndian(n: nat, k: nat): (r: seq<byte>)
    ensures |r| == k
  {
    if k == 0 then [] else BigEndian(n / 256, k - 1) + [n % 256]
  }

  function FromBigEndian(s: seq<byte>): (n: nat)
    ensures n < Power256(|s|)
  {
    if s == [] then 0 else 256 * FromBigEndian(s[..|s| - 1]) + s[|s| - 1]
  }

  lemma {:induction false} BigEndianRoundTrip(n: nat, k: nat)
    requires n < Power256(k)
    ensures FromBigEndian(BigEndian(n, k)) == n
  {
    if k > 0 {
      var high := BigEndian(n / 256, k - 1);
      assert BigEndian(n, k)[..k - 1] == high;
      BigEndianRoundTrip(n / 256, k - 1);
    }
  }

  lemma {:induction false} FromBigEndianRoundTrip(s: seq<byte>)
    ensures BigEndian(FromBigEndian(s), |s|) == s
    decreases |s|
  {
    if s != [] {
      FromBigEndianRoundTrip(s[..|s| - 1]);
      assert s == s[..|s| - 1] + [s[|s| - 1]];
    }
  }

  /** The digit of weight 256 to the `i`. */
  function Digit(n: nat, i: nat): nat
  {
    if i == 0 then n % 256 else Digit(n / 256, i - 1)
  }

  /** The most significant digit comes first, the least significant last. */
  lemma {:induction false} BigEndianDigit(n: nat, k: nat, i: nat)
    requires i < k
    ensures BigEndian(n, k)[i] == Digit(n, k - 1 - i)
  {
    if i < k - 1 {
      BigEndianDigit(n / 256, k - 1, i);
    }
  }

  lemma NextByte(s: seq<byte>, k: nat)
    requires k < |s|
    ensures FromBigEndian(s[..k + 1]) == 256 * FromBigEndian(s[..k]) + s[k]
  {
    assert s[..k + 1][..k] == s[..k];
  }

  /** The first byte read weighs most: two and four bytes, written out. */
  lemma FirstByteWeighsMost(s: seq<byte>)
    ensures |s| == 2 ==> FromBigEndian(s) == 0x100 * (s[0] as int) + s[1]
    ensures |s| == 4 ==>
              FromBigEndian(s) == 0x100_0000 * (s[0] as int) + 0x1_0000 * (s[1] as int) + 0x100 * (s[2] as int) + s[3]
  {
    if |s| >= 2 {
      NextByte(s, 0);
      NextByte(s, 1);
      assert s[..0] == [] && FromBigEndian(s[..0]) == 0;
    }
    hide FromBigEndian;
    if |s| == 2 {
      assert s[..2] == s;
    } else if |s| == 4 {
      NextByte(s, 2);
      NextByte(s, 3);
      assert s[..4] == s;
    }
  }

  lemma Widths()
    ensures Power256(0) == 1
    ensures Power256(3) == 0x100_0000
    ensures Power256(1) == 0x100
    ensures Power256(2) == 0x1_0000
    ensures Power256(4) == 0x1_0000_0000
    ensures Power256(8) == 0x1_0000_0000_0000_0000
  {
    assert Power256(0) == 1;
    assert Power256(1) == 0x100;
    assert Power256(2) == 0x1_0000;
    assert Power256(3) == 0x100_0000;
    assert Power256(4) == 0x1_0000_0000;
    assert Power256(5) == 0x100_0000_0000;
    assert Power256(6) == 0x1_0000_0000_0000;
    assert Power256(7) == 0x100_0000_0000_0000;
  }

  /** Exclusive or of the low `k` bits. */
  function XorBits(a: nat, b: nat, k: nat): (r: nat)
    ensures r < Power2(k)
  {
    if k == 0 then 0
    else (if a % 2 != b % 2 then 1 else 0) + 2 * XorBits(a / 2, b / 2, k - 1)
  }

  function Power2(k: nat): (r: nat)
    ensures r > 0
  {
    if k == 0 then 1 else 2 * Power2(k - 1)
  }

  function Xor(a: byte, b: byte): byte
  {
    assert Power2(8) == 256 by {
      assert Power2(4) == 16;
    }
    XorBits(a, b, 8)
  }

  lemma {:induction false} XorBitsInvolution(a: nat, b: nat, k: nat)
    requires a < Power2(k)
    ensures XorBits(XorBits(a, b, k), b, k) == a
  {
    if k > 0 {
      var once := XorBits(a, b, k);
      assert once / 2 == XorBits(a / 2, b / 2, k - 1);
      XorBitsInvolution(a / 2, b / 2, k - 1);
    }
  }

  /** Bit `i` of a number. */
  function Bit(a: nat, i: nat): nat
  {
    if i == 0 then a % 2 else Bit(a / 2, i - 1)
  }

  lemma {:induction false} XorBitsAre(a: nat, b: nat, k: nat, i: nat)
    requires i < k
    ensures Bit(XorBits(a, b, k), i) == (Bit(a, i) + Bit(b, i)) % 2
  {
    var x := XorBits(a, b, k);
    assert x / 2 == XorBits(a / 2, b / 2, k - 1) && x % 2 == if a % 2 != b % 2 then 1 else 0;
    if i > 0 {
      XorBitsAre(a / 2, b / 2, k - 1, i - 1);
    }
  }

  /** Exclusive or, bit by bit: a bit is set exactly when it is set in one of the two bytes. */
  lemma XorIsBitwise(a: byte, b: byte, i: nat)
    requires i < 8
    ensures Bit(Xor(a, b), i) == (Bit(a, i) + Bit(b, i)) % 2
  {
    XorBitsAre(a, b, 8, i);
  }

  lemma {:induction false} XorBitsZero(a: nat, k: nat)
    requires a < Power2(k)
    ensures XorBits(0, a, k) == a && XorBits(a, 0, k) == a
  {
    if k > 0 {
      XorBitsZero(a / 2, k - 1);
    }
  }

  lemma XorZero(a: byte)
    ensures Xor(0, a) == a && Xor(a, 0) == a
  {
    assert Power2(4) == 16;
    XorBitsZero(a, 8);
  }

  /** Masking twice with the same key byte gives the byte back. */
  lemma XorInvolution(a: byte, b: byte)
    ensures Xor(Xor(a, b), b) == a
  {
    assert Power2(4) == 16;
    XorBitsInvolution(a, b, 8);
  }
}
