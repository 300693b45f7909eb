/**
  IP addresses and prefixes as Go's net/netip defines them: an IPv4 address, an IPv6
  address that may carry a zone, the zero Addr, and prefixes that need not be masked.
 */
module NetAddr {
  function Pow2(k: nat): (r: nat)
    ensures r > 0
  {
    if k == 0 then 1 else 2 * Pow2(k - 1)
  }

  const MAPPED_TOP: nat := 0xffff

  type U32 = n: nat | n < 0x1_0000_0000
  type U128 = n: nat | n < 0x1_0000_0000_0000_0000_0000_0000_0000_0000

  datatype Addr = NoAddr | V4(n: U32) | V6(n6: U128, zoned: bool) {
    function Width(): nat {
      match this
      case NoAddr => 0
      case V4(_) => 32
      case V6(_, _) => 128
    }

    function Number(): nat {
      match this
      case NoAddr => 0
      case V4(n) => n
      case V6(n, _) => n
    }

    predicate Is4In6() {
      V6? && n6 / 0x1_0000_0000 == MAPPED_TOP
    }

    /** An IPv4-mapped IPv6 address becomes the IPv4 address; every other address is unchanged. */
    function Unmap(): Addr {
      if Is4In6() then V4(n6 % 0x1_0000_0000) else this
    }
  }

  /** The network number of n: its first `bits` bits in an address of the given width. */
  function Block(n: nat, width: nat, bits: nat): nat
    requires bits <= width
  {
    var size: nat := Pow2(width - bits);
    QuotientNotNegative(n, size);
    n / size
  }

  lemma QuotientNotNegative(n: nat, d: nat)
    requires d > 0
    ensures n / d >= 0
  {
  }

  datatype Prefix = BadPrefix | Prefix(addr: Addr, bits: nat)

  /** netip never builds a prefix with a zone or with more bits than its family has. */
  predicate WellFormed(p: Prefix) {
    p.Prefix? ==> !p.addr.NoAddr? && (p.addr.V6? ==> !p.addr.zoned) && p.bits <= p.addr.Width()
  }

  type Cidr = p: Prefix | WellFormed(p) witness BadPrefix

  lemma BlockBound(n: nat, width: nat, bits: nat)
    requires bits <= width
    ensures Block(n, width, bits) * Pow2(width - bits) <= n
  {
    var p := Pow2(width - bits);
    assert n == (n / p) * p + n % p;
  }

  function MaskedNumber(n: nat, width: nat, bits: nat): (r: nat)
    requires bits <= width
    ensures r <= n
  {
    BlockBound(n, width, bits);
    Block(n, width, bits) * Pow2(width - bits)
  }

  function WithNumber(a: Addr, n: nat): Addr
    requires n <= a.Number()
  {
    match a
    case NoAddr => NoAddr
    case V4(_) => V4(n)
    case V6(_, z) => V6(n, z)
  }

  /** Prefix.Masked: the host bits are cleared. */
  function Masked(p: Cidr): (r: Cidr)
  {
    if p.BadPrefix? then p
    else Prefix(WithNumber(p.addr, MaskedNumber(p.addr.Number(), p.addr.Width(), p.bits)), p.bits)
  }

  /** Prefix.Contains: same family, no zone, same network number. */
  predicate Contains(p: Cidr, a: Addr) {
    && p.Prefix?
    && a.Width() == p.addr.Width()
    && !(a.V6? && a.zoned)
    && Block(a.Number(), a.Width(), p.bits) == Block(p.addr.Number(), p.addr.Width(), p.bits)
  }

  /** Prefix.Overlaps: both numbers are cut to the shorter prefix and compared. */
  predicate Overlaps(p: Cidr, q: Cidr) {
    && p.Prefix? && q.Prefix?
    && (p == q ||
        (&& p.addr.V4? == q.addr.V4?
         && var bits := if p.bits < q.bits then p.bits else q.bits;
            (bits == 0 || MaskedNumber(p.addr.Number(), p.addr.Width(), bits) == MaskedNumber(q.addr.Number(), q.addr.Width(), bits))))
  }

  // ------------------------------------------------------------------ proofs

  lemma DoubleProduct(x: int, y: int)
    ensures (2 * x) * y == 2 * (x * y)
  {
  }

  lemma {:induction false} Pow2Add(a: nat, b: nat)
    ensures Pow2(a + b) == Pow2(a) * Pow2(b)
    decreases a
  {
    if a > 0 {
      Pow2Add(a - 1, b);
      assert Pow2(a + b) == 2 * Pow2((a - 1) + b);
      DoubleProduct(Pow2(a - 1), Pow2(b));
    }
  }

  lemma Quotient(n: nat, d: nat, q: nat, r: nat)
    requires r < d && n == q * d + r
    ensures n / d == q
  {
    var q' := n / d;
    var r' := n % d;
    assert n == q' * d + r';
    assert (q' - q) * d == r - r';
    MultipleBound(q' - q, d);
  }

  lemma MultipleBound(k: int, d: int)
    requires d >= 0
    ensures k >= 1 ==> k * d >= d
    ensures k <= -1 ==> k * d <= -d
  {
    if k >= 1 {
      assert k * d == (k - 1) * d + d;
    }
    if k <= -1 {
      assert k * d == (k + 1) * d - d;
    }
  }

  lemma DivTwice(n: nat, a: nat, b: nat)
    requires a > 0 && b > 0
    ensures a * b > 0 && (n / a) / b == n / (a * b)
  {
    var q, r := n / a, n % a;
    var q2, r2 := q / b, q % b;
    QuotientNotNegative(n, a);
    QuotientNotNegative(q, b);
    Regroup(q2, b, r2, a, r);
    TailBound(r2, b, r, a);
    Quotient(n, a * b, q2, r2 * a + r);
  }

  lemma Regroup(q2: int, b: int, r2: int, a: int, r: int)
    ensures (q2 * b + r2) * a + r == q2 * (a * b) + (r2 * a + r)
  {
    assert (q2 * b + r2) * a == (q2 * b) * a + r2 * a;
    assert (q2 * b) * a == q2 * (b * a);
  }

  lemma TailBound(r2: int, b: int, r: int, a: int)
    requires 0 <= r2 < b && 0 <= r < a
    ensures 0 <= r2 * a + r < a * b
  {
    MultipleBound(b - r2, a);
    assert (b - r2) * a == b * a - r2 * a;
    assert r2 * a >= 0;
  }

  /** Numbers with the same network number at some length agree at every shorter length. */
  lemma BlockShorter(m: nat, n: nat, width: nat, bits: nat, shorter: nat)
    requires shorter <= bits <= width
    requires Block(m, width, bits) == Block(n, width, bits)
    ensures Block(m, width, shorter) == Block(n, width, shorter)
  {
    var a := Pow2(width - bits);
    var b := Pow2(bits - shorter);
    Pow2Add(width - bits, bits - shorter);
    assert (width - bits) + (bits - shorter) == width - shorter;
    DivTwice(m, a, b);
    DivTwice(n, a, b);
  }

  lemma MaskedBlock(n: nat, width: nat, bits: nat)
    requires bits <= width
    ensures Block(MaskedNumber(n, width, bits), width, bits) == Block(n, width, bits)
  {
    var p := Pow2(width - bits);
    Quotient(Block(n, width, bits) * p, p, Block(n, width, bits), 0);
  }

  lemma SameMask(m: nat, n: nat, width: nat, bits: nat)
    requires bits <= width
    ensures MaskedNumber(m, width, bits) == MaskedNumber(n, width, bits) <==> Block(m, width, bits) == Block(n, width, bits)
  {
    MaskedBlock(m, width, bits);
    MaskedBlock(n, width, bits);
  }

  lemma BlockZero(n: nat, width: nat)
    requires n < Pow2(width)
    ensures Block(n, width, 0) == 0
  {
    Quotient(n, Pow2(width), 0, n);
  }

  lemma SmallPowers()
    ensures Pow2(0) == 1 && Pow2(4) == 0x10 && Pow2(8) == 0x100 && Pow2(16) == 0x1_0000
    ensures Pow2(20) == 0x10_0000 && Pow2(24) == 0x100_0000 && Pow2(28) == 0x1000_0000
    ensures Pow2(32) == 0x1_0000_0000 && Pow2(36) == 0x10_0000_0000
  {
    assert Pow2(4) == 0x10;
    Pow2Add(4, 4);
    Pow2Add(8, 8);
    Pow2Add(16, 4);
    Pow2Add(16, 8);
    Pow2Add(24, 4);
    Pow2Add(16, 16);
    Pow2Add(32, 4);
  }

  lemma WidePowers()
    ensures Pow2(64) == 0x1_0000_0000_0000_0000
    ensures Pow2(96) == 0x1_0000_0000_0000_0000_0000_0000
    ensures Pow2(112) == 0x1_0000_0000_0000_0000_0000_0000_0000
  {
    SmallPowers();
    Pow2Add(32, 32);
    Pow2Add(64, 32);
    Pow2Add(96, 16);
  }

  /** The powers that occur as prefix lengths of the fixed exclusion list. */
  lemma Pow2Values()
    ensures Pow2(0) == 1 && Pow2(16) == 0x1_0000 && Pow2(20) == 0x10_0000
    ensures Pow2(24) == 0x100_0000 && Pow2(28) == 0x1000_0000 && Pow2(32) == 0x1_0000_0000
    ensures Pow2(36) == 0x10_0000_0000
    ensures Pow2(118) == 0x40_0000_0000_0000_0000_0000_0000_0000
    ensures Pow2(120) == 0x100_0000_0000_0000_0000_0000_0000_0000
    ensures Pow2(121) == 0x200_0000_0000_0000_0000_0000_0000_0000
    ensures Pow2(128) == 0x1_0000_0000_0000_0000_0000_0000_0000_0000
  {
    SmallPowers();
    WidePowers();
    assert Pow2(6) == 4 * Pow2(4);
    Pow2Add(112, 6);
    Pow2Add(112, 8);
    assert Pow2(121) == 2 * Pow2(120);
    Pow2Add(112, 16);
  }

  lemma NumberBound(a: Addr)
    ensures a.Width() > 0 ==> a.Number() < Pow2(a.Width())
  {
    Pow2Values();
  }

  /** Masking a prefix changes neither the addresses it contains nor its length. */
  lemma MaskedContains(p: Cidr, a: Addr)
    ensures Contains(Masked(p), a) == Contains(p, a)
  {
    if p.Prefix? {
      MaskedBlock(p.addr.Number(), p.addr.Width(), p.bits);
    }
  }

  /** Overlap is exactly having an address in common, whether or not the prefixes are masked. */
  lemma OverlapIsSharing(p: Cidr, q: Cidr)
    requires p.Prefix? && q.Prefix?
    ensures Overlaps(p, q) <==> exists a :: Contains(p, a) && Contains(q, a)
  {
    if Overlaps(p, q) {
      OverlapShares(p, q);
    }
    forall a | Contains(p, a) && Contains(q, a)
      ensures Overlaps(p, q)
    {
      SharedMeansOverlap(p, q, a);
    }
  }

  lemma SharedMeansOverlap(p: Cidr, q: Cidr, a: Addr)
    requires Contains(p, a) && Contains(q, a)
    ensures Overlaps(p, q)
  {
    var bits := if p.bits < q.bits then p.bits else q.bits;
    var w := a.Width();
    BlockShorter(a.Number(), p.addr.Number(), w, p.bits, bits);
    BlockShorter(a.Number(), q.addr.Number(), w, q.bits, bits);
    SameMask(p.addr.Number(), q.addr.Number(), w, bits);
  }

  lemma OverlapShares(p: Cidr, q: Cidr)
    requires Overlaps(p, q)
    ensures exists a :: Contains(p, a) && Contains(q, a)
  {
    if p == q {
      assert Contains(p, p.addr);
    } else {
      var bits := if p.bits < q.bits then p.bits else q.bits;
      var w := p.addr.Width();
      if bits == 0 {
        NumberBound(p.addr);
        NumberBound(q.addr);
        BlockZero(p.addr.Number(), w);
        BlockZero(q.addr.Number(), w);
      }
      SameMask(p.addr.Number(), q.addr.Number(), w, bits);
      assert Contains(q, q.addr) && Contains(p, p.addr);
      if p.bits < q.bits {
        assert Contains(p, q.addr);
      } else {
        assert Contains(q, p.addr);
      }
    }
  }
}
