/** Address prefixes: Classless Inter-domain Routing, section 3.1 of RFC 4632, and section 2.3 of RFC 4291. */
module Prefixes {

  function Pow2(n: nat): (r: nat)
    ensures r > 0
  {
    if n == 0 then 1 else 2 * Pow2(n - 1)
  }

  function RoundDown(v: nat, d: nat): nat
    requires d > 0
  {
    RoundedDown(v, d);
    (v / d) * d
  }

  /** An address is `width` bits wide. */
  datatype Addr = Addr(width: nat, value: nat) {
    predicate Valid() { (width == 32 || width == 128) && value < Pow2(width) }
  }

  /** The addresses that share the first `bits` bits of `addr`. */
  datatype Prefix = Prefix(addr: Addr, bits: nat) {
    predicate Valid() { addr.Valid() && bits <= addr.width }

    /** The size of the block. */
    function Size(): (r: nat)
      requires bits <= addr.width
      ensures r > 0
    {
      Pow2(addr.width - bits)
    }

    predicate Contains(a: Addr)
      requires bits <= addr.width
    {
      a.width == addr.width && a.value / Size() == addr.value / Size()
    }

    /** The host bits cleared. */
    function Masked(): Prefix
      requires bits <= addr.width
    {
      Prefix(Addr(addr.width, RoundDown(addr.value, Size())), bits)
    }

    predicate Canonical() { Valid() && addr.value % Size() == 0 }
  }

  function Host(a: Addr): Prefix { Prefix(a, a.width) }

  lemma {:induction false} Pow2Adds(a: nat, b: nat)
    ensures Pow2(a + b) == Pow2(a) * Pow2(b)
  {
    if a > 0 { Pow2Adds(a - 1, b); }
  }

  lemma DivMod(v: int, d: int)
    requires d > 0
    ensures v == (v / d) * d + v % d && 0 <= v % d < d
  {
  }

  lemma Scaled(e: int, d: int)
    requires d > 0
    ensures (e >= 1 ==> e * d >= d) && (e <= -1 ==> e * d <= -d)
  {
    if e >= 1 {
      assert (e - 1) * d >= 0;
    } else if e <= -1 {
      assert (-1 - e) * d >= 0;
    }
  }

  lemma QuotientUnique(v: int, d: int, q: int, r: int)
    requires 0 <= r < d && v == q * d + r
    ensures v / d == q && v % d == r
  {
    var e := v / d - q;
    assert e * d == r - v % d by {
      DivMod(v, d);
      assert (v / d - q) * d == (v / d) * d - q * d;
    }
    Scaled(e, d);
    assert -d < r - v % d < d by { DivMod(v, d); }
    assert e == 0;
  }

  lemma RoundedDown(v: nat, d: int)
    requires d > 0
    ensures 0 <= (v / d) * d <= v && (v / d) * d / d == v / d && (v / d) * d % d == 0
  {
    DivMod(v, d);
    assert v / d >= 0;
    QuotientUnique((v / d) * d, d, v / d, 0);
  }

  /** Dividing twice is dividing by the product. */
  lemma DivideTwice(v: nat, x: nat, y: nat)
    requires x > 0 && y > 0
    ensures x * y > 0 && v / (x * y) == v / x / y
  {
    var q, r := v / x / y, v / x % y;
    var low := v % x;
    assert v == (q * y + r) * x + low;
    assert (q * y + r) * x + low == q * (x * y) + (r * x + low);
    assert r * x + low < x * y by { assert (r + 1) * x <= y * x; }
    assert 0 <= r * x + low;
    QuotientUnique(v, x * y, q, r * x + low);
  }

  /** A shorter prefix sees no difference between two addresses a longer one holds together. */
  lemma ShorterSeesLess(p: Prefix, q: Prefix, a: Addr)
    requires p.Valid() && q.Valid() && p.addr.width == q.addr.width && p.bits <= q.bits && q.Contains(a)
    ensures p.Contains(a) <==> p.Contains(q.addr)
  {
    var k := Pow2(q.bits - p.bits);
    Pow2Adds(q.addr.width - q.bits, q.bits - p.bits);
    assert p.Size() == q.Size() * k;
    DivideTwice(a.value, q.Size(), k);
    DivideTwice(q.addr.value, q.Size(), k);
  }

  /** Masking moves nothing in or out, and is idempotent. */
  lemma MaskedKeepsAddresses(p: Prefix)
    requires p.Valid()
    ensures p.Masked().Canonical() && p.Masked().Masked() == p.Masked()
    ensures forall a :: p.Masked().Contains(a) <==> p.Contains(a)
  {
    RoundedDown(p.addr.value, p.Size());
    assert p.Masked().Size() == p.Size();
  }

  lemma TwoToTheEighth()
    ensures Pow2(8) == 256
  {}

  lemma OneMoreBit(n: nat)
    ensures Pow2(0) == 1 && Pow2(n + 1) == 2 * Pow2(n)
  {}

  lemma Powers()
    ensures Pow2(8) == 256 && Pow2(32) == 0x1_0000_0000
    ensures Pow2(128) == 0x1_0000_0000_0000_0000_0000_0000_0000_0000
  {
    hide Pow2;
    TwoToTheEighth();
    Pow2Adds(8, 8);
    Pow2Adds(16, 16);
    Pow2Adds(32, 32);
    Pow2Adds(64, 64);
  }

  /** Addresses are numbers of 32 or 128 bits. */
  lemma AddressesAre(a: Addr)
    ensures a.Valid() <==>
              || (a.width == 32 && a.value < 0x1_0000_0000)
              || (a.width == 128 && a.value < 0x1_0000_0000_0000_0000_0000_0000_0000_0000)
  {
    hide Pow2;
    Powers();
  }

  /** A block one bit shorter is twice as large, and that of all bits a single address; 24 bits of an IPv4 address leave
      256. */
  lemma BlockSizes(p: Prefix)
    requires p.Valid()
    ensures p.bits == p.addr.width ==> p.Size() == 1
    ensures p.bits > 0 ==> Prefix(p.addr, p.bits - 1).Size() == 2 * p.Size()
    ensures p.bits == 24 && p.addr.width == 32 ==> p.Size() == 256
  {
    hide Pow2;
    Powers();
    OneMoreBit(p.addr.width - p.bits);
  }

  /** A block is the run of as many addresses as its size that begins at its network. */
  lemma BlockIsARun(p: Prefix, a: Addr)
    requires p.Valid() && a.width == p.addr.width
    ensures var first := p.Masked().addr.value;
            && p.Contains(a) <==> first <= a.value < first + p.Size()
  {
    var d, q := p.Size(), p.addr.value / p.Size();
    DivMod(a.value, d);
    if q * d <= a.value < q * d + d { QuotientUnique(a.value, d, q, a.value - q * d); }
  }

  /** Two blocks of one size that share their network are the same block. */
  lemma CanonicalIsUnique(p: Prefix, q: Prefix)
    requires p.Canonical() && q.Canonical() && p.bits == q.bits && p.Contains(q.addr)
    ensures p == q
  {
    var d := p.Size();
    DivMod(p.addr.value, d);
    DivMod(q.addr.value, d);
  }

  /** Two blocks are nested or have no address in common. */
  lemma NestedOrDisjoint(p: Prefix, q: Prefix, a: Addr)
    requires p.Valid() && q.Valid() && p.bits <= q.bits && p.Contains(a) && q.Contains(a)
    ensures p.Contains(q.addr) && forall b :: q.Contains(b) ==> p.Contains(b)
  {
    ShorterSeesLess(p, q, a);
    forall b | q.Contains(b) ensures p.Contains(b) { ShorterSeesLess(p, q, b); }
  }
}
