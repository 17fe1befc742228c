/** IP addresses, prefixes and the powers of two behind them (the parts of Go's `net/netip` that
    nordmac uses). An invalid address is a value of its own, as it is in Go. */
module Net {

  datatype Option<+T> = None | Some(value: T)

  type U32 = n: int | 0 <= n < 0x1_0000_0000
  type U128 = n: int | 0 <= n < 0x1_0000_0000_0000_0000_0000_0000_0000_0000

  /** `NoAddr` is the zero `netip.Addr`. */
  datatype Addr = NoAddr | V4(n: U32) | V6(m: U128) {
    predicate IsValid() { !NoAddr? }

    function BitLen(): nat {
      match this
      case NoAddr => 0
      case V4(_) => 32
      case V6(_) => 128
    }

    function Value(): nat {
      match this
      case NoAddr => 0
      case V4(x) => x
      case V6(x) => x
    }

    predicate IsUnspecified() { IsValid() && Value() == 0 }

    predicate IsMulticast() {
      match this
      case NoAddr => false
      case V4(x) => x / 0x1000_0000 == 14
      case V6(x) => x / 0x100_0000_0000_0000_0000_0000_0000_0000 == 255
    }

    /** RFC 1918 for IPv4; `fc00::/7` for IPv6. */
    predicate IsPrivate() {
      match this
      case NoAddr => false
      case V4(x) => x / 0x100_0000 == 10 || x / 0x10_0000 == 172 * 16 + 1 || x / 0x1_0000 == 192 * 256 + 168
      case V6(x) => x / 0x200_0000_0000_0000_0000_0000_0000_0000 == 126
    }

    /** Restricted to IPv4, the only family it is asked about. */
    predicate IsGlobalUnicast4() {
      V4? && n != 0 && n != 0xffff_ffff && n / 0x100_0000 != 127 && !IsMulticast() && n / 0x1_0000 != 169 * 256 + 254
    }
  }

  function Pow2(k: nat): (r: nat)
    ensures r > 0
  {
    if k == 0 then 1 else 2 * Pow2(k - 1)
  }

  /** An address and a number of leading bits; not necessarily canonical. */
  datatype Prefix = Prefix(addr: Addr, bits: int) {
    predicate IsValid() { addr.IsValid() && 0 <= bits <= addr.BitLen() }

    /** How many addresses share the prefix bits. */
    function Block(): (b: nat)
      ensures b > 0
    {
      if IsValid() then Pow2(addr.BitLen() - bits) else 1
    }

    /** The address equals itself with its host bits cleared (`prefix == prefix.Masked()`). */
    predicate IsCanonical() { IsValid() && addr.Value() % Block() == 0 }

    predicate Contains(a: Addr) {
      IsValid() && a.BitLen() == addr.BitLen() && a.Value() / Block() == addr.Value() / Block()
    }
  }

  lemma {:induction false} Pow2Add(a: nat, b: nat)
    ensures Pow2(a + b) == Pow2(a) * Pow2(b)
  {
    if b > 0 {
      Pow2Add(a, b - 1);
      assert Pow2(a + b) == 2 * Pow2(a + (b - 1)) && Pow2(b) == 2 * Pow2(b - 1);
      hide Pow2;
      Doubled(Pow2(a), Pow2(b - 1));
    }
  }

  lemma Doubled(x: int, y: int)
    ensures x * (2 * y) == 2 * (x * y)
  {
  }

  lemma MulMono(x: int, y: int, m: int)
    requires m > 0 && x <= y
    ensures x * m <= y * m
  {
    assert (y - x) * m >= 0;
  }

  lemma DivUnique(x: int, m: int, q: int, s: int)
    requires m > 0 && x == q * m + s && 0 <= s < m
    ensures x / m == q
  {
    var d := x / m;
    assert x == d * m + x % m;
    if d + 1 <= q {
      MulMono(d + 1, q, m);
      assert false;
    }
    if q + 1 <= d {
      MulMono(q + 1, d, m);
      assert false;
    }
  }

  /** Division by a product is repeated division. */
  lemma DivDiv(x: nat, b: nat, c: nat)
    requires b > 0 && c > 0
    ensures b * c > 0 && x / (b * c) == (x / b) / c
  {
    var q, r := x / b, x % b;
    var qq, rr := q / c, q % c;
    var s := rr * b + r;
    MulMono(rr, c - 1, b);
    assert (c - 1) * b == b * c - b;
    assert x == qq * (b * c) + s by { Regroup(x, b, c, q, r, qq, rr); }
    MulMono(1, c, b);
    assert s >= 0 by { MulMono(0, rr, b); }
    DivUnique(x, b * c, qq, s);
  }

  lemma Regroup(x: int, b: int, c: int, q: int, r: int, qq: int, rr: int)
    requires x == q * b + r && q == qq * c + rr
    ensures x == qq * (b * c) + (rr * b + r)
  {
    assert (qq * c + rr) * b == (qq * c) * b + rr * b;
    assert (qq * c) * b == qq * (b * c);
  }

  lemma Pow2Values()
    ensures Pow2(16) == 0x1_0000
    ensures Pow2(31) == 0x8000_0000
    ensures Pow2(127) == 0x8000_0000_0000_0000_0000_0000_0000_0000
  {
    assert Pow2(8) == 0x100 && Pow2(15) == 0x8000;
    hide Pow2;
    Pow2Add(8, 8);
    Pow2Add(16, 15);
    Pow2Add(16, 16);
    assert Pow2(32) == 0x1_0000_0000;
    Pow2Add(32, 31);
    Pow2Add(32, 32);
    assert Pow2(64) == 0x1_0000_0000_0000_0000 && Pow2(63) == 0x8000_0000_0000_0000;
    Pow2Add(64, 63);
  }

  /** Two canonical prefixes of one length that share an address are the same prefix. */
  lemma SamePrefix(p: Prefix, q: Prefix, a: Addr)
    requires p.IsCanonical() && q.IsCanonical() && p.bits == q.bits
    requires p.Contains(a) && q.Contains(a)
    ensures p == q
  {
    var b := p.Block();
    assert p.addr.Value() == (p.addr.Value() / b) * b;
    assert q.addr.Value() == (q.addr.Value() / b) * b;
  }

  /** A host prefix contains exactly its own address. */
  lemma HostPrefix(p: Prefix, a: Addr)
    requires p.IsValid() && p.bits == p.addr.BitLen()
    ensures p.IsCanonical()
    ensures p.Contains(a) <==> a == p.addr
  {
    assert p.Block() == 1;
  }

  /** Every address of a prefix of at least sixteen bits agrees with it on the first sixteen. */
  lemma SameLeading16(p: Prefix, a: Addr)
    requires p.addr.V4? && p.IsValid() && p.bits >= 16 && p.Contains(a)
    ensures a.V4? && a.n / 0x1_0000 == p.addr.n / 0x1_0000
  {
    var b, c := p.Block(), Pow2(p.bits - 16);
    Pow2Add(32 - p.bits, p.bits - 16);
    Pow2Values();
    DivDiv(a.n, b, c);
    DivDiv(p.addr.n, b, c);
  }

  const V4_LOW_HALF: Prefix := Prefix(V4(0), 1)
  const V4_HIGH_HALF: Prefix := Prefix(V4(0x8000_0000), 1)
  const V6_LOW_HALF: Prefix := Prefix(V6(0), 1)
  const V6_HIGH_HALF: Prefix := Prefix(V6(0x8000_0000_0000_0000_0000_0000_0000_0000), 1)
  const V4_DEFAULT: Prefix := Prefix(V4(0), 0)

  lemma DefaultCanonical()
    ensures V4_DEFAULT.IsCanonical()
  {
    hide Pow2, Prefix.Block;
    var b := V4_DEFAULT.Block();
    assert 0 % b == 0;
  }

  /** The two halves of each family are canonical and split it in two. */
  lemma Halves(a: Addr)
    ensures V4_LOW_HALF.IsCanonical() && V4_HIGH_HALF.IsCanonical()
    ensures V6_LOW_HALF.IsCanonical() && V6_HIGH_HALF.IsCanonical()
    ensures a.V4? <==> (V4_LOW_HALF.Contains(a) || V4_HIGH_HALF.Contains(a))
    ensures a.V6? <==> (V6_LOW_HALF.Contains(a) || V6_HIGH_HALF.Contains(a))
    ensures !(V4_LOW_HALF.Contains(a) && V4_HIGH_HALF.Contains(a))
    ensures !(V6_LOW_HALF.Contains(a) && V6_HIGH_HALF.Contains(a))
  {
    Pow2Values();
    hide Pow2;
  }
}
