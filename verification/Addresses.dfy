/** Pod addresses: four octets that count up from 10.0.0.10. */
module Addresses {

  const WORD: nat := 0x1_0000_0000

  type Octet = x: nat | x < 256

  datatype Address = Address(a: Octet, b: Octet, c: Octet, d: Octet)

  /** The 32-bit number an address stands for. */
  function Pack(i: Address): nat {
    i.a * 0x100_0000 + i.b * 0x1_0000 + i.c * 0x100 + i.d
  }

  /** The low four octets of a number, as shifts and masks take them. */
  function Unpack(v: nat): Address {
    Address(v / 0x100_0000 % 256, v / 0x1_0000 % 256, v / 0x100 % 256, v % 256)
  }

  const FIRST := Address(10, 0, 0, 10)

  /** Shifting by eight once more drops one more octet. */
  lemma Shift(v: nat)
    ensures v / 0x100 / 256 == v / 0x1_0000
    ensures v / 0x1_0000 / 256 == v / 0x100_0000
    ensures v / 0x100_0000 / 256 == v / WORD
  {
  }

  /** Packing and unpacking carry across octets and wrap at the word. */
  lemma PackUnpack(v: nat)
    ensures Pack(Unpack(v)) == v % WORD
  {
    Shift(v);
    var q1, q2, q3, q4 := v / 0x100, v / 0x1_0000, v / 0x100_0000, v / WORD;
    assert v == q1 * 0x100 + v % 256 && q1 == q2 * 256 + q1 % 256;
    assert q2 == q3 * 256 + q2 % 256 && q3 == q4 * 256 + q3 % 256;
    assert v == q4 * WORD + v % WORD;
  }

  lemma UnpackPack(i: Address)
    ensures Unpack(Pack(i)) == i && Pack(i) < WORD
  {
    var v := Pack(i);
    assert v / 0x100 == i.a * 0x1_0000 + i.b * 0x100 + i.c;
    assert v / 0x1_0000 == i.a * 0x100 + i.b;
    assert v / 0x100_0000 == i.a;
  }

  lemma Successor(v: nat)
    ensures (v % WORD + 1) % WORD == (v + 1) % WORD
  {
  }

  lemma Congruent(m: nat, n: nat, k: nat)
    ensures (k + m) % WORD == (k + n) % WORD <==> (m - n) % WORD == 0
  {
    assert k + m == WORD * ((k + m) / WORD) + (k + m) % WORD;
    assert k + n == WORD * ((k + n) / WORD) + (k + n) % WORD;
    assert m - n == WORD * ((m - n) / WORD) + (m - n) % WORD;
  }

  /** The address the n-th call returns, counting from zero. */
  function Nth(n: nat): Address {
    if n == 0 then FIRST else Unpack(Pack(Nth(n - 1)) + 1)
  }

  lemma {:induction false} NthIsFrom(start: nat, n: nat)
    requires start == Pack(FIRST)
    ensures Pack(Nth(n)) == (start + n) % WORD
  {
    if n == 0 {
      BelowWord(FIRST);
      SameNumber(start, false);
    } else {
      NthIsFrom(start, n - 1);
      PackUnpack(Pack(Nth(n - 1)) + 1);
      Successor(start + n - 1);
    }
  }

  lemma FirstIs()
    ensures Pack(FIRST) == 0x0A00_000A && WORD == 0x1_0000_0000
  {
  }

  lemma NthIsOffset(n: nat)
    ensures Pack(Nth(n)) == (0x0A00_000A + n) % 0x1_0000_0000
  {
    FirstIs();
    NthIsFrom(Pack(FIRST), n);
  }

  /** Two calls return the same address exactly when a multiple of the word lies between them. */
  lemma SameAddress(m: nat, n: nat)
    ensures Nth(m) == Nth(n) <==> (m - n) % WORD == 0
  {
    NthIsFrom(Pack(FIRST), m);
    NthIsFrom(Pack(FIRST), n);
    UnpackPack(Nth(m));
    UnpackPack(Nth(n));
    Congruent(m, n, Pack(FIRST));
  }

  /** So no address repeats within a word's worth of consecutive calls. */
  lemma ConsecutiveDistinct(m: nat, n: nat)
    requires m < n < m + WORD
    ensures Nth(m) != Nth(n)
  {
    SameAddress(n, m);
    Nonzero(n - m);
  }

  lemma Nonzero(k: nat)
    requires 0 < k < WORD
    ensures k % WORD != 0
  {
  }

  lemma Advance(n: nat)
    ensures Nth(n + 1) == Unpack(Pack(Nth(n)) + 1)
    ensures Pack(Nth(n)) == (0x0A00_000A + n) % 0x1_0000_0000
  {
    NthIsOffset(n);
  }

  /** The next address, octet by octet: the last that is not full goes up by one and those after it start over. */
  function Next(i: Address): Address {
    if i.d < 255 then Address(i.a, i.b, i.c, i.d + 1)
    else if i.c < 255 then Address(i.a, i.b, i.c + 1, 0)
    else if i.b < 255 then Address(i.a, i.b + 1, 0, 0)
    else if i.a < 255 then Address(i.a + 1, 0, 0, 0)
    else Address(0, 0, 0, 0)
  }

  /** The next address stands for the next number, and the last wraps to zero. */
  lemma PackNext(i: Address)
    ensures Pack(Next(i)) == if i == Address(255, 255, 255, 255) then 0 else Pack(i) + 1
  {
  }

  lemma LastAddress()
    ensures Pack(Address(255, 255, 255, 255)) + 1 == WORD
  {
  }

  lemma PackInjective(i: Address, j: Address)
    requires Pack(i) == Pack(j)
    ensures i == j
  {
    UnpackPack(i);
    UnpackPack(j);
  }

  lemma BelowWord(i: Address)
    ensures Pack(i) < WORD
    ensures Pack(i) + 1 == WORD <==> i == Address(255, 255, 255, 255)
  {
    UnpackPack(i);
    LastAddress();
    if Pack(i) + 1 == WORD {
      PackInjective(i, Address(255, 255, 255, 255));
    }
  }

  lemma NextIsUnpacked(i: Address)
    ensures Unpack(Pack(i) + 1) == Next(i)
  {
    PackNext(i);
    BelowWord(i);
    PackUnpack(Pack(i) + 1);
    SameNumber(Pack(i) + 1, Pack(i) + 1 == WORD);
    PackInjective(Unpack(Pack(i) + 1), Next(i));
  }

  /** The first address is 10.0.0.10, and each call returns the next one. */
  lemma CountsUp(n: nat)
    ensures Nth(0) == Address(10, 0, 0, 10) && Nth(n + 1) == Next(Nth(n))
  {
    NextIsUnpacked(Nth(n));
  }

  lemma SameNumber(v: nat, full: bool)
    requires if full then v == WORD else v < WORD
    ensures v % WORD == if full then 0 else v
  {
  }

  class Allocator {
    var nextIp: Address
    ghost var calls: nat

    ghost predicate Valid()
      reads this
    {
      nextIp == Nth(calls)
    }

    constructor ()
      ensures Valid() && calls == 0
    {
      nextIp, calls := FIRST, 0;
    }

    method GetIP() returns (ret: Address)
      requires Valid()
      modifies this
      ensures Valid() && calls == old(calls) + 1
      ensures ret == Nth(old(calls)) && Pack(ret) == (0x0A00_000A + old(calls)) % 0x1_0000_0000
    {
      Advance(calls);
      ret := nextIp;
      var v := Pack(nextIp);
      v := v + 1;
      nextIp := Unpack(v);
      calls := calls + 1;
    }
  }
}
