/** Disk blocks are 512 bytes. Index blocks, inodes and the log header are read as
    little-endian 32-bit words; bitmap blocks are read bit by bit. */
module Blocks {
  import opened Layout

  type Byte = x: int | 0 <= x < 256
  type Block = s: seq<Byte> | |s| == BSIZE witness seq(BSIZE, _ => 0)

  function Zero(): (b: Block)
    ensures forall i :: 0 <= i < BSIZE ==> b[i] == 0
  {
    seq(BSIZE, _ => 0)
  }

  function Word(b: Block, k: nat): (w: nat)
    requires k < WORDS
    ensures w < WORDLIMIT
  {
    var b0: int, b1: int, b2: int, b3: int := b[4 * k], b[4 * k + 1], b[4 * k + 2], b[4 * k + 3];
    b0 + 256 * (b1 + 256 * (b2 + 256 * b3))
  }

  function SetWord(b: Block, k: nat, v: nat): (r: Block)
    requires k < WORDS && v < WORDLIMIT
  {
    b[4 * k := v % 256][4 * k + 1 := v / 256 % 256]
     [4 * k + 2 := v / 256 / 256 % 256][4 * k + 3 := v / 256 / 256 / 256]
  }

  /** A word that was stored reads back, and no other word of the block moves. */
  lemma WordAfterSet(b: Block, k: nat, v: nat, j: nat)
    requires k < WORDS && j < WORDS && v < WORDLIMIT
    ensures Word(SetWord(b, k, v), j) == if j == k then v else Word(b, j)
  {
    var r := SetWord(b, k, v);
    if j != k {
      assert 4 * j + 3 < 4 * k || 4 * k + 3 < 4 * j;
      assert r[4 * j] == b[4 * j] && r[4 * j + 1] == b[4 * j + 1];
      assert r[4 * j + 2] == b[4 * j + 2] && r[4 * j + 3] == b[4 * j + 3];
    }
  }

  lemma WordOfZero(k: nat)
    requires k < WORDS
    ensures Word(Zero(), k) == 0
  {
  }

  /** Bit `i` of the binary representation of `x`. */
  predicate BitOf(x: nat, i: nat) {
    if i == 0 then x % 2 == 1 else BitOf(x / 2, i - 1)
  }

  /** `x | (1 << i)` when `on`, `x & ~(1 << i)` otherwise. */
  function WithBit(x: nat, i: nat, on: bool): (r: nat) {
    if i == 0 then 2 * (x / 2) + (if on then 1 else 0) else 2 * WithBit(x / 2, i - 1, on) + x % 2
  }

  lemma {:induction false} BitOfWithBit(x: nat, i: nat, on: bool, j: nat)
    ensures BitOf(WithBit(x, i, on), j) == if j == i then on else BitOf(x, j)
  {
    if i > 0 {
      var r := WithBit(x, i, on);
      assert r / 2 == WithBit(x / 2, i - 1, on) && r % 2 == x % 2;
      if j > 0 { BitOfWithBit(x / 2, i - 1, on, j - 1); }
    }
  }

  function Pow2(n: nat): nat {
    if n == 0 then 1 else 2 * Pow2(n - 1)
  }

  /** Changing bit `i` of an `n`-bit value leaves an `n`-bit value. */
  lemma {:induction false} WithBitFits(x: nat, i: nat, on: bool, n: nat)
    requires i < n && x < Pow2(n)
    ensures WithBit(x, i, on) < Pow2(n)
  {
    if i > 0 {
      assert x / 2 < Pow2(n - 1);
      WithBitFits(x / 2, i - 1, on, n - 1);
    }
  }

  lemma WithBitByte(x: Byte, i: nat, on: bool)
    requires i < 8
    ensures WithBit(x, i, on) < 256
  {
    assert Pow2(8) == 256 by { assert Pow2(4) == 16; }
    WithBitFits(x, i, on, 8);
  }

  /** Bit `i` of a bitmap block: bit i % 8 of byte i / 8. */
  predicate Bit(b: Block, i: nat)
    requires i < BPB
  {
    BitOf(b[i / 8], i % 8)
  }

  function SetBit(b: Block, i: nat, on: bool): (r: Block)
    requires i < BPB
  {
    WithBitByte(b[i / 8], i % 8, on);
    b[i / 8 := WithBit(b[i / 8], i % 8, on)]
  }

  /** Setting or clearing one bitmap bit changes that bit alone. */
  lemma BitAfterSet(b: Block, i: nat, on: bool, j: nat)
    requires i < BPB && j < BPB
    ensures Bit(SetBit(b, i, on), j) == if j == i then on else Bit(b, j)
  {
    WithBitByte(b[i / 8], i % 8, on);
    assert j == i <==> (j / 8 == i / 8 && j % 8 == i % 8);
    BitOfWithBit(b[i / 8], i % 8, on, j % 8);
  }

  // ---------- the same in bytes ----------

  /** A number in two bytes from byte `i` on, and in four, low byte first. */
  function Two(b: Block, i: nat): (n: nat)
    requires i + 2 <= 512
    ensures n < 65536
  {
    var b0: int, b1: int := b[i], b[i + 1];
    b0 + 256 * b1
  }

  function Four(b: Block, i: nat): (n: nat)
    requires i + 4 <= 512
  {
    var b0: int, b1: int, b2: int, b3: int := b[i], b[i + 1], b[i + 2], b[i + 3];
    b0 + 256 * b1 + 65536 * b2 + 16777216 * b3
  }

  /** Words are little-endian and follow one another. */
  lemma WordIsFour(b: Block, k: nat)
    requires k < 128
    ensures Word(b, k) == Four(b, 4 * k)
  {
  }

  function Power(i: nat): (n: nat)
    requires i < 8
  {
    [1, 2, 4, 8, 16, 32, 64, 128][i]
  }

  /** Bits go from the low to the high end of a byte, and from byte to byte. */
  lemma BitIsDigit(b: Block, i: nat)
    requires i < 4096
    ensures Bit(b, i) <==> b[i / 8] / Power(i % 8) % 2 == 1
  {
    DigitIs(b[i / 8], i % 8);
  }

  lemma DigitIs(x: nat, i: nat)
    requires i < 8
    ensures BitOf(x, i) <==> x / Power(i) % 2 == 1
  {
    if i > 0 {
      DigitIs(x / 2, i - 1);
      Halved(x, Power(i - 1));
    }
  }

  lemma Halved(x: nat, n: nat)
    requires n > 0
    ensures x / 2 / n == x / (2 * n)
  {
    var q, r := x / (2 * n), x % (2 * n);
    assert x == 2 * n * q + r;
    assert x == 2 * (n * q) + r;
    assert x / 2 == n * q + r / 2;
    Quotient(x / 2, n, q, r / 2);
  }

  lemma Quotient(x: nat, n: nat, q: nat, r: nat)
    requires x == n * q + r && r < n
    ensures x / n == q
  {
    var d := x / n;
    assert x == n * d + x % n;
    if d < q { Times(n, d + 1, q); }
    if q < d { Times(n, q + 1, d); }
  }

  lemma Times(n: nat, a: nat, b: nat)
    requires a <= b
    ensures n * a <= n * b
  {
  }
}
