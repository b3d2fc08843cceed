/** The 16-bit one's-complement sum of section 2 of RFC 1071, and when two sums fold to the same 16 bits. */
module OnesComplement {

  newtype byte = x: int | 0 <= x < 256

  const MAX16: nat := 0xffff

  /** One's-complement addition: the carry out of bit 15 comes back in at bit 0. */
  function OnesAdd(a: nat, b: nat): (r: nat) {
    if a + b > MAX16 then a + b - MAX16 else a + b
  }

  /** The 16-bit word of a byte pair as a little-endian processor reads it. */
  function Pair(low: byte, high: byte): (w: nat) {
    low as nat + 256 * (high as nat)
  }

  /** The sum of the byte pairs of s; an odd last byte is paired with zero. */
  function OnesSum(s: seq<byte>): (r: nat)
    ensures r <= MAX16
  {
    if s == [] then 0
    else if |s| == 1 then s[0] as nat
    else OnesAdd(Pair(s[0], s[1]), OnesSum(s[2..]))
  }

  /** What a sum of any size is after all its carries have been brought back in. */
  function Fold(n: nat): (r: nat)
    ensures r <= MAX16 && (r == 0 <==> n == 0)
  {
    if n == 0 then 0 else (n - 1) % MAX16 + 1
  }

  /** The plain sum of s, each byte counting 1 or 256; odd says that the first byte counts 256. */
  function Plain(s: seq<byte>, odd: bool): (n: nat) {
    if s == [] then 0 else (if odd then 256 else 1) * (s[0] as nat) + Plain(s[1..], !odd)
  }

  lemma FoldSmall(n: nat)
    requires n <= MAX16
    ensures Fold(n) == n
  {
  }

  /** Carries do not change the fold. */
  lemma FoldShift(n: nat, k: nat)
    requires n > 0
    ensures Fold(n + MAX16 * k) == Fold(n)
  {
    ModShift(n - 1, k);
  }

  lemma ModShift(n: nat, k: nat)
    ensures (n + MAX16 * k) % MAX16 == n % MAX16
  {
  }

  lemma FoldSplit(n: nat) returns (q: nat)
    ensures n == MAX16 * q + Fold(n)
  {
    q := if n == 0 then 0 else (n - 1) / MAX16;
  }

  /** The fold of a sum depends on the fold of its parts only. */
  lemma FoldAdd(a: nat, b: nat, c: nat)
    requires Fold(a) == Fold(b)
    ensures Fold(a + c) == Fold(b + c)
  {
    if a > 0 {
      var q := FoldSplit(a);
      var q' := FoldSplit(b);
      FoldShift(Fold(a) + c, q);
      FoldShift(Fold(a) + c, q');
    }
  }

  lemma FoldScale(a: nat, b: nat, c: nat)
    requires Fold(a) == Fold(b) && c > 0
    ensures Fold(c * a) == Fold(c * b)
  {
    if a > 0 {
      var q := FoldSplit(a);
      var q' := FoldSplit(b);
      var f := Fold(a);
      assert c * a == c * f + MAX16 * (c * q);
      assert c * b == c * f + MAX16 * (c * q');
      assert c * f > 0;
      FoldShift(c * f, c * q);
      FoldShift(c * f, c * q');
    }
  }

  lemma OnesAddFolds(a: nat, b: nat)
    requires a <= MAX16 && b <= MAX16
    ensures OnesAdd(a, b) == Fold(a + b)
  {
    if a + b > MAX16 {
      FoldShift(a + b - MAX16, 1);
    }
    FoldSmall(OnesAdd(a, b));
  }

  /** The one's-complement sum is the plain sum with all carries brought back in. */
  lemma {:induction false} OnesSumFolds(s: seq<byte>)
    ensures OnesSum(s) == Fold(Plain(s, false))
  {
    if s == [] {
    } else if |s| == 1 {
      FoldSmall(s[0] as nat);
    } else {
      var w, rest := Pair(s[0], s[1]), s[2..];
      OnesSumFolds(rest);
      OnesAddFolds(w, OnesSum(rest));
      assert s[1..][1..] == rest;
      FoldSmall(OnesSum(rest));
      FoldAdd(OnesSum(rest), Plain(rest, false), w);
    }
  }

  /** Counting every byte at the other position multiplies the sum by 256, up to carries. */
  lemma {:induction false} SwappedSum(s: seq<byte>, odd: bool)
    ensures Fold(Plain(s, !odd)) == Fold(256 * Plain(s, odd))
  {
    if s != [] {
      var b := s[0] as nat;
      SwappedSum(s[1..], !odd);
      FoldAdd(Plain(s[1..], odd), 256 * Plain(s[1..], !odd), (if odd then 1 else 256) * b);
      if odd && (b > 0 || Plain(s[1..], !odd) > 0) {
        FoldShift(b + 256 * Plain(s[1..], !odd), b);
        assert 256 * Plain(s, odd) == b + 256 * Plain(s[1..], !odd) + MAX16 * b
          by { assert Plain(s, odd) == 256 * b + Plain(s[1..], !odd); }
      }
    }
  }

  lemma {:induction false} PlainAppend(s: seq<byte>, t: seq<byte>, odd: bool)
    ensures Plain(s + t, odd) == Plain(s, odd) + Plain(t, odd != (|s| % 2 == 1))
  {
    if s == [] {
      assert s + t == t;
    } else {
      assert (s + t)[1..] == s[1..] + t;
      PlainAppend(s[1..], t, !odd);
    }
  }

  /** The sum is zero only if every byte is. */
  lemma {:induction false} PlainZero(s: seq<byte>, odd: bool)
    ensures Plain(s, odd) == 0 <==> forall i :: 0 <= i < |s| ==> s[i] == 0
  {
    if s != [] {
      PlainZero(s[1..], !odd);
      assert forall i :: 0 < i < |s| ==> s[i] == s[1..][i - 1];
    }
  }

  lemma ZeroSumIsZeroData(s: seq<byte>)
    ensures OnesSum(s) == 0 <==> forall i :: 0 <= i < |s| ==> s[i] == 0
  {
    OnesSumFolds(s);
    PlainZero(s, false);
  }
}

/** checksum.c: the Thumb-2 routine, register by register. */
module Thumb2 {
  import opened OnesComplement

  const WORD: nat := 0x1_0000_0000

  /** adds and adc #0: 32-bit addition whose carry is added to the result. */
  function AddCarry(a: nat, b: nat): (r: nat)
    requires a < WORD && b < WORD
    ensures r < WORD
  {
    var sum, carry := (a + b) % WORD, (a + b) / WORD;
    sum + carry
  }

  /** The byte at address p of a buffer that starts at address base. */
  function LoadByte(buf: seq<byte>, base: nat, p: nat): (r: nat)
    requires base <= p < base + |buf|
    ensures r < 256
  {
    buf[p - base] as nat
  }

  /** ldrh, at even addresses only. */
  function LoadHalf(buf: seq<byte>, base: nat, p: nat): (r: nat)
    requires p % 2 == 0 && base <= p && p + 2 <= base + |buf|
    ensures r < 0x1_0000
  {
    LoadByte(buf, base, p) + 0x100 * LoadByte(buf, base, p + 1)
  }

  lemma Aligned(p: nat)
    ensures p % 4 == 0 ==> p % 2 == 0 && (p + 2) % 2 == 0 && (p + 4) % 4 == 0
    ensures p % 2 == 0 && p % 4 != 0 ==> (p + 2) % 4 == 0
    ensures p % 2 == 1 ==> (p + 1) % 2 == 0
  {
    var q, r := p / 4, p % 4;
    assert p == 2 * (2 * q) + r;
    Parity(2 * q, r);
    Parity(2 * q, r + 1);
    Parity(2 * q, r + 2);
    Fours(q + 1);
  }

  lemma Parity(x: nat, r: nat)
    ensures (2 * x + r) % 2 == r % 2
  {
  }

  lemma Fours(x: nat)
    ensures (4 * x) % 4 == 0
  {
  }

  /** ldr, at multiples of four only. */
  function LoadWord(buf: seq<byte>, base: nat, p: nat): (r: nat)
    requires p % 4 == 0 && base <= p && p + 4 <= base + |buf|
    ensures r < WORD
  {
    Aligned(p);
    LoadHalf(buf, base, p) + 0x1_0000 * LoadHalf(buf, base, p + 2)
  }

  /** ubfx of the upper and of the lower half. */
  function Upper(r: nat): (h: nat) {
    r / 0x1_0000
  }

  function Lower(r: nat): (h: nat) {
    r % 0x1_0000
  }

  /** rev16 on a register that holds 16 bits. */
  function Rev16(r: nat): (x: nat) {
    r % 0x100 * 0x100 + r / 0x100
  }

  /** No end-around carry is lost. */
  lemma AddCarryFolds(a: nat, b: nat)
    requires a < WORD && b < WORD
    ensures Fold(AddCarry(a, b)) == Fold(a + b)
  {
    if a + b >= WORD {
      assert a + b == AddCarry(a, b) + MAX16 * 0x1_0001;
      FoldShift(AddCarry(a, b), 0x1_0001);
    }
  }

  /** Folding twice brings a 32-bit sum to 16 bits. */
  lemma TwoFoldsSuffice(r: nat)
    requires r < WORD
    ensures var s := Lower(r) + Upper(r); Lower(s) + Upper(s) == Fold(r)
  {
    var s := Lower(r) + Upper(r);
    var t := Lower(s) + Upper(s);
    if r > 0 {
      assert r == s + MAX16 * Upper(r);
      FoldShift(s, Upper(r));
      assert s == t + MAX16 * Upper(s);
      FoldShift(t, Upper(s));
      FoldSmall(t);
    }
  }

  lemma Rev16Folds(r: nat)
    requires r <= MAX16
    ensures Rev16(r) == Fold(256 * r)
  {
    if r > 0 {
      assert 256 * r == Rev16(r) + MAX16 * (r / 0x100);
      FoldShift(Rev16(r), r / 0x100);
      FoldSmall(Rev16(r));
    }
  }

  /** The plain sum of the first n bytes of buf. */
  ghost function Sum(buf: seq<byte>, n: nat, odd: bool): (s: nat)
    requires n <= |buf|
  {
    Plain(buf[..n], odd)
  }

  lemma SumByte(buf: seq<byte>, n: nat, odd: bool)
    requires n < |buf|
    ensures Sum(buf, n + 1, odd) == Sum(buf, n, odd) + (if odd == (n % 2 == 1) then 1 else 256) * (buf[n] as nat)
  {
    assert buf[..n + 1] == buf[..n] + [buf[n]];
    PlainAppend(buf[..n], [buf[n]], odd);
    assert Plain([buf[n]], odd != (n % 2 == 1)) == (if odd == (n % 2 == 1) then 1 else 256) * (buf[n] as nat);
  }

  /** A half-word load adds two bytes. */
  lemma SumHalf(buf: seq<byte>, base: nat, p: nat, odd: bool, r2: nat)
    requires p % 2 == 0 && base <= p && p + 2 <= base + |buf| && odd == (base % 2 == 1) && r2 < WORD
    requires Fold(r2) == Fold(Sum(buf, p - base, odd))
    ensures Fold(r2 + LoadHalf(buf, base, p)) == Fold(Sum(buf, p - base + 2, odd))
  {
    hide Fold, Sum;
    SumByte(buf, p - base, odd);
    SumByte(buf, p - base + 1, odd);
    FoldAdd(r2, Sum(buf, p - base, odd), LoadHalf(buf, base, p));
  }

  /** A word load adds four bytes, up to a carry. */
  lemma SumWord(buf: seq<byte>, base: nat, p: nat, odd: bool, r2: nat)
    requires p % 4 == 0 && base <= p && p + 4 <= base + |buf| && odd == (base % 2 == 1) && r2 < WORD
    requires Fold(r2) == Fold(Sum(buf, p - base, odd))
    ensures Fold(r2 + LoadWord(buf, base, p)) == Fold(Sum(buf, p - base + 4, odd))
  {
    hide Fold, Sum, LoadHalf;
    var x, y := LoadHalf(buf, base, p), LoadHalf(buf, base, p + 2);
    SumHalf(buf, base, p, odd, r2);
    FoldAdd(r2 + x, Sum(buf, p - base + 2, odd), y);
    HalfTail(buf, base, p + 2, odd);
    if r2 + x + y > 0 {
      FoldShift(r2 + x + y, y);
      assert r2 + LoadWord(buf, base, p) == r2 + x + y + MAX16 * y;
    }
  }

  lemma HalfTail(buf: seq<byte>, base: nat, p: nat, odd: bool)
    requires p % 2 == 0 && base <= p && p + 2 <= base + |buf| && odd == (base % 2 == 1)
    ensures Sum(buf, p - base + 2, odd) == Sum(buf, p - base, odd) + LoadHalf(buf, base, p)
  {
    hide Sum;
    SumByte(buf, p - base, odd);
    SumByte(buf, p - base + 1, odd);
  }

  /**
   * thumb2_checksum: for every buffer, length and start address, the one's-complement sum of the bytes,
   * not inverted. Words are loaded at multiples of four and half-words at even addresses only.
   */
  method Checksum(buf: seq<byte>, address: nat) returns (r0: nat)
    requires address + |buf| <= WORD
    ensures r0 == OnesSum(buf)
  {
    hide Fold, Sum, AddCarry, LoadHalf, Upper, Lower, Rev16, OnesSum, LoadByte;
    var p, r1, r2, r3 := address, |buf|, 0, address % 2;
    SumNothing(buf, address % 2 == 1);
    if r3 != 0 {
      if r1 == 0 {
        EmptySum(buf);
        return r2;
      }
      FirstByte(buf, address);
      Aligned(p);
      r2 := LoadByte(buf, address, p) * 0x100;
      p, r1 := p + 1, r1 - 1;
    }
    if p % 4 == 0 || r1 >= 2 {
      p, r1, r2 := AlignToWord(buf, address, p, r1, r2);
      p, r1, r2 := AddWords(buf, address, p, r1, r2);
      Aligned(p);
      p, r1, r2 := AddHalves(buf, address, p, r1, r2);
    }
    r2 := AddLastByte(buf, address, p, r1, r2);
    r2 := FoldAndSwap(buf, r3, r2);
    return r2;
  }

  /** At label 1$: a half-word, if the address is no multiple of four. */
  method AlignToWord(buf: seq<byte>, address: nat, p: nat, r1: nat, r2: nat) returns (p': nat, r1': nat, r2': nat)
    requires address <= p && p + r1 == address + |buf| && p % 2 == 0 && r2 <= 0xff00 && (p % 4 == 0 || r1 >= 2)
    requires Fold(r2) == Fold(Sum(buf, p - address, address % 2 == 1))
    ensures address <= p' && p' + r1' == address + |buf| && p' % 4 == 0 && r2' < WORD
    ensures Fold(r2') == Fold(Sum(buf, p' - address, address % 2 == 1))
  {
    hide Fold, Sum, LoadHalf;
    p', r1', r2' := p, r1, r2;
    var r4 := p % 4;
    if r4 != 0 {
      Aligned(p);
      SumHalf(buf, address, p, address % 2 == 1, r2);
      r4 := LoadHalf(buf, address, p);
      p', r2', r1' := p + 2, r2 + r4, r1 - 2;
    }
  }

  /** At label 7$: a byte, if one is left. */
  method AddLastByte(buf: seq<byte>, address: nat, p: nat, r1: nat, r2: nat) returns (r2': nat)
    requires address <= p && p + r1 == address + |buf| && p % 2 == 0 && r1 < 2 && r2 < WORD
    requires Fold(r2) == Fold(Sum(buf, p - address, address % 2 == 1))
    ensures r2' < WORD && Fold(r2') == Fold(Sum(buf, |buf|, address % 2 == 1))
  {
    hide Fold, Sum, AddCarry;
    r2' := r2;
    if r1 != 0 {
      var r4 := LoadByte(buf, address, p);
      SumByte(buf, p - address, address % 2 == 1);
      SameParity(address, p);
      FoldAdd(r2, Sum(buf, p - address, address % 2 == 1), r4);
      AddCarryFolds(r2, r4);
      r2' := AddCarry(r2, r4);
    }
  }

  lemma SameParity(address: nat, p: nat)
    requires address <= p && p % 2 == 0
    ensures (address % 2 == 1) == ((p - address) % 2 == 1)
  {
  }

  /** At label 8$: the two folds, and the swap for a buffer that started at an odd address. */
  method FoldAndSwap(buf: seq<byte>, r3: nat, r2: nat) returns (r2': nat)
    requires r2 < WORD && r3 < 2 && Fold(r2) == Fold(Sum(buf, |buf|, r3 == 1))
    ensures r2' == OnesSum(buf)
  {
    hide Fold, Sum, Upper, Lower, Rev16, OnesSum;
    TwoFoldsSuffice(r2);
    var r4 := Upper(r2);
    r2' := Lower(r2);
    r2' := r2' + r4;
    r4 := Upper(r2');
    r2' := Lower(r2');
    r2' := r2' + r4;
    if r3 != 0 {
      Unswap(buf, r2');
      r2' := Rev16(r2');
    } else {
      OnesSumFolds(buf);
      SumAll(buf, false);
    }
  }

  /** The loop at label 2$: two words at a time. */
  method AddWords(buf: seq<byte>, address: nat, p: nat, r1: nat, r2: nat) returns (p': nat, r1': nat, r2': nat)
    requires address <= p && p + r1 == address + |buf| && p % 4 == 0 && r2 < WORD
    requires Fold(r2) == Fold(Sum(buf, p - address, address % 2 == 1))
    ensures address <= p' && p' + r1' == address + |buf| && p' % 4 == 0 && r2' < WORD && r1' < 8
    ensures Fold(r2') == Fold(Sum(buf, p' - address, address % 2 == 1))
  {
    hide Fold, Sum, AddCarry, LoadWord;
    p', r1', r2' := p, r1, r2;
    while r1' >= 8
      invariant address <= p' && p' + r1' == address + |buf| && p' % 4 == 0 && r2' < WORD
      invariant Fold(r2') == Fold(Sum(buf, p' - address, address % 2 == 1))
      decreases r1'
    {
      r2' := AddWord(buf, address, p', r2');
      p' := p' + 4;
      r2' := AddWord(buf, address, p', r2');
      p' := p' + 4;
      r1' := r1' - 8;
    }
  }

  method AddWord(buf: seq<byte>, address: nat, p: nat, r2: nat) returns (r2': nat)
    requires address <= p && p + 4 <= address + |buf| && p % 4 == 0 && r2 < WORD
    requires Fold(r2) == Fold(Sum(buf, p - address, address % 2 == 1))
    ensures r2' < WORD && Fold(r2') == Fold(Sum(buf, p + 4 - address, address % 2 == 1))
  {
    hide Fold, Sum, AddCarry, LoadWord;
    var r4 := LoadWord(buf, address, p);
    SumWord(buf, address, p, address % 2 == 1, r2);
    AddCarryFolds(r2, r4);
    r2' := AddCarry(r2, r4);
  }

  /** The loop at label 3$: the half-words that are left. */
  method AddHalves(buf: seq<byte>, address: nat, p: nat, r1: nat, r2: nat) returns (p': nat, r1': nat, r2': nat)
    requires address <= p && p + r1 == address + |buf| && p % 2 == 0 && r2 < WORD
    requires Fold(r2) == Fold(Sum(buf, p - address, address % 2 == 1))
    ensures address <= p' && p' + r1' == address + |buf| && p' % 2 == 0 && r2' < WORD && r1' < 2
    ensures Fold(r2') == Fold(Sum(buf, p' - address, address % 2 == 1))
  {
    hide Fold, Sum, AddCarry, LoadHalf;
    p', r1', r2' := p, r1, r2;
    while r1' >= 2
      invariant address <= p' && p' + r1' == address + |buf| && p' % 2 == 0 && r2' < WORD
      invariant Fold(r2') == Fold(Sum(buf, p' - address, address % 2 == 1))
      decreases r1'
    {
      var r4 := LoadHalf(buf, address, p');
      SumHalf(buf, address, p', address % 2 == 1, r2');
      AddCarryFolds(r2', r4);
      r2' := AddCarry(r2', r4);
      p', r1' := p' + 2, r1' - 2;
    }
  }

  lemma SumNothing(buf: seq<byte>, odd: bool)
    ensures Sum(buf, 0, odd) == 0
  {
  }

  lemma EmptySum(buf: seq<byte>)
    requires buf == []
    ensures OnesSum(buf) == 0
  {
  }

  lemma FirstByte(buf: seq<byte>, address: nat)
    requires buf != [] && address % 2 == 1
    ensures Sum(buf, 1, true) == LoadByte(buf, address, address) * 0x100
  {
    SumNothing(buf, true);
    SumByte(buf, 0, true);
  }

  lemma SumAll(buf: seq<byte>, odd: bool)
    ensures Sum(buf, |buf|, odd) == Plain(buf, odd)
  {
    assert buf[..|buf|] == buf;
  }

  /** The sum of a buffer at an odd address, with its bytes swapped. */
  lemma Unswap(buf: seq<byte>, r2: nat)
    requires r2 == Fold(Sum(buf, |buf|, true))
    ensures r2 <= MAX16 && Rev16(r2) == OnesSum(buf)
  {
    SumAll(buf, true);
    Rev16Folds(r2);
    FoldSmall(r2);
    FoldScale(r2, Plain(buf, true), 256);
    SwappedSum(buf, true);
    OnesSumFolds(buf);
  }
}
