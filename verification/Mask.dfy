/** Network masks and the prefixes they stand for (internal/darwinnet/route.go).

    A route report gives a prefix length as a number, as a hexadecimal or dotted mask, or not at all. The bits of
    a mask, most significant first, are the common ground on which the three are compared. */
module RouteMask {
  import opened Net
  import opened ByteStrings

  // ---------- bits ----------

  /** The low `w` bits of a number, most significant first. */
  function Bits(x: nat, w: nat): (s: seq<bool>)
    ensures |s| == w
  {
    if w == 0 then [] else Bits(x / 2, w - 1) + [x % 2 == 1]
  }

  /** The number shifted right. */
  function Shift(x: nat, k: nat): (r: nat) {
    DivNat(x, Pow2(k));
    x / Pow2(k)
  }

  lemma DivNat(x: nat, d: nat)
    requires d > 0
    ensures x / d >= 0
  {
    var q := x / d;
    assert x == q * d + x % d;
    if q <= -1 {
      MulMono(q, -1, d);
      assert false;
    }
  }

  predicate BitSet(x: nat, k: nat) { Shift(x, k) % 2 == 1 }

  /** `n` ones, then zeros. */
  predicate IsMask(s: seq<bool>, n: nat) { n <= |s| && forall i :: 0 <= i < |s| ==> (s[i] <==> i < n) }

  lemma OneLength(s: seq<bool>, n: nat, m: nat)
    requires IsMask(s, n) && IsMask(s, m)
    ensures n == m
  {
    assert n < |s| ==> !s[n];
    assert m < |s| ==> !s[m];
  }

  /** The length of a mask, if the bits are one. */
  ghost function MaskLength(s: seq<bool>): (r: Option<nat>)
    ensures forall n: nat :: r == Some(n) <==> IsMask(s, n)
  {
    if exists n: nat :: IsMask(s, n) then
      var n: nat :| IsMask(s, n);
      assert forall m: nat | IsMask(s, m) :: m == n by {
        forall m: nat | IsMask(s, m) ensures m == n {
          OneLength(s, n, m);
        }
      }
      Some(n)
    else None
  }

  lemma {:induction false} BitsAt(x: nat, w: nat, i: nat)
    requires i < w
    ensures Bits(x, w)[i] <==> BitSet(x, w - 1 - i)
  {
    if i < w - 1 {
      BitsAt(x / 2, w - 1, i);
      DivDiv(x, 2, Pow2(w - 2 - i));
    }
  }

  lemma {:induction false} BitsInjective(x: nat, y: nat, w: nat)
    requires x < Pow2(w) && y < Pow2(w) && Bits(x, w) == Bits(y, w)
    ensures x == y
  {
    if w > 0 {
      assert Bits(x, w)[w - 1] == Bits(y, w)[w - 1];
      assert Bits(x, w)[..w - 1] == Bits(x / 2, w - 1) && Bits(y, w)[..w - 1] == Bits(y / 2, w - 1);
      BitsInjective(x / 2, y / 2, w - 1);
    }
  }

  // ---------- the popcount test ----------

  /** `bits.OnesCount32`. */
  function OnesCount(x: nat): nat {
    if x == 0 then 0 else x % 2 + OnesCount(x / 2)
  }

  /** `maskBits`: shift all ones up by the number of zeros and compare. */
  function MaskBits(mask: U32): Option<nat> {
    var ones := OnesCount(mask);
    var canonical := if 0 < ones <= 32 then (0xffff_ffff * Pow2(32 - ones)) % 0x1_0000_0000 else 0;
    if mask != canonical then None else Some(ones)
  }

  function Count(s: seq<bool>): (c: nat)
    ensures c <= |s|
  {
    if s == [] then 0 else Count(s[..|s| - 1]) + if s[|s| - 1] then 1 else 0
  }

  lemma {:induction false} OnesCounted(x: nat, w: nat)
    requires x < Pow2(w)
    ensures OnesCount(x) == Count(Bits(x, w))
  {
    if w > 0 {
      OnesCounted(x / 2, w - 1);
      assert Bits(x, w)[..w - 1] == Bits(x / 2, w - 1);
    }
  }

  lemma {:induction false} MaskCount(s: seq<bool>, n: nat)
    requires IsMask(s, n)
    ensures Count(s) == n
  {
    if s != [] {
      MaskCount(s[..|s| - 1], if n == |s| then n - 1 else n);
    }
  }

  /** The number whose bits are `n` ones and `w - n` zeros. */
  function MaskValue(n: nat, w: nat): (v: nat)
    requires n <= w
    ensures v < Pow2(w)
  {
    Pow2Order(w - n, w);
    Pow2(w) - Pow2(w - n)
  }

  lemma {:induction false} Pow2Order(a: nat, b: nat)
    requires a <= b
    ensures Pow2(a) <= Pow2(b)
  {
    if a < b {
      Pow2Order(a, b - 1);
    }
  }

  lemma HalfMask(n: nat, w: nat)
    requires 0 < w && n <= w
    ensures n == w ==> MaskValue(n, w) == 2 * MaskValue(n - 1, w - 1) + 1
    ensures n < w ==> MaskValue(n, w) == 2 * MaskValue(n, w - 1)
  {
  }

  lemma MaskExtended(s: seq<bool>, n: nat)
    requires n <= |s| + 1 && IsMask(s, if n == |s| + 1 then |s| else n)
    ensures IsMask(s + [n == |s| + 1], n)
  {
  }

  lemma MaskBitsExtended(n: nat, w: nat)
    requires 0 < w && n <= w
    ensures Bits(MaskValue(n, w), w) == Bits(MaskValue(if n == w then n - 1 else n, w - 1), w - 1) + [n == w]
  {
    hide MaskValue, Pow2;
    HalfMask(n, w);
    var v, half := MaskValue(n, w), MaskValue(if n == w then n - 1 else n, w - 1);
    assert v / 2 == half && (v % 2 == 1 <==> n == w);
  }

  lemma {:induction false} BitsOfMask(n: nat, w: nat)
    requires n <= w
    ensures IsMask(Bits(MaskValue(n, w), w), n)
  {
    if w > 0 {
      MaskBitsExtended(n, w);
      hide MaskValue, Pow2, Bits, IsMask;
      var m := if n == w then n - 1 else n;
      BitsOfMask(m, w - 1);
      MaskExtended(Bits(MaskValue(m, w - 1), w - 1), n);
    }
  }

  lemma ShiftedOnes(ones: nat)
    requires 0 < ones <= 32
    ensures (0xffff_ffff * Pow2(32 - ones)) % 0x1_0000_0000 == MaskValue(ones, 32)
  {
    var p := Pow2(32 - ones);
    Pow2Values();
    assert Pow2(32) == 0x1_0000_0000 by { assert Pow2(32) == 2 * Pow2(31); }
    Pow2Order(32 - ones, 31);
    hide Pow2;
    var s := 0x1_0000_0000 - p;
    assert 0xffff_ffff * p == (p - 1) * 0x1_0000_0000 + s;
    DivUnique(0xffff_ffff * p, 0x1_0000_0000, p - 1, s);
  }

  /** The popcount test accepts exactly the masks that are `n` ones and then zeros, and returns `n`. */
  lemma MaskBitsExact(mask: U32)
    ensures MaskBits(mask) == MaskLength(Bits(mask, 32))
  {
    var ones, s := OnesCount(mask), Bits(mask, 32);
    assert Pow2(32) == 0x1_0000_0000 by {
      Pow2Values();
      assert Pow2(32) == 2 * Pow2(31);
    }
    OnesCounted(mask, 32);
    if ones > 0 {
      ShiftedOnes(ones);
    }
    hide Pow2;
    assert MaskBits(mask).Some? <==> mask == MaskValue(ones, 32);
    BitsOfMask(ones, 32);
    if n: nat :| IsMask(s, n) {
      MaskCount(s, n);
      SameBits(s, Bits(MaskValue(ones, 32), 32), n);
      BitsInjective(mask, MaskValue(ones, 32), 32);
    }
  }

  lemma SameBits(s: seq<bool>, t: seq<bool>, n: nat)
    requires |s| == |t| && IsMask(s, n) && IsMask(t, n)
    ensures s == t
  {
  }

  // ---------- the scan of bytes and bits ----------

  /** The bits of a byte string, most significant first. */
  function BitsOf(bytes: Bytes): (s: seq<bool>)
    ensures |s| == 8 * |bytes|
  {
    seq(8 * |bytes|, k requires 0 <= k < 8 * |bytes| => BitSet(bytes[k / 8], 7 - k % 8))
  }

  /** The loop over bytes and bits that stops at a one after a zero. */
  method ScanMask(bytes: Bytes) returns (r: Option<nat>)
    ensures r == MaskLength(BitsOf(bytes))
  {
    ghost var s := BitsOf(bytes);
    var ones, zeroSeen := 0, false;
    for i := 0 to |bytes|
      invariant Scanned(s, 8 * i, ones, zeroSeen)
    {
      var item := bytes[i];
      for bit := 8 downto 0
        invariant Scanned(s, 8 * i + 8 - bit, ones, zeroSeen)
      {
        assert (8 * i + 7 - bit) / 8 == i && (8 * i + 7 - bit) % 8 == 7 - bit;
        var set_ := BitSet(item, bit);
        assert s[8 * i + 7 - bit] == set_;
        if zeroSeen && set_ {
          assert forall n: nat :: !IsMask(s, n) by {
            assert s[8 * i + 7 - bit] && !s[ones];
          }
          return None;
        }
        if set_ {
          ones := ones + 1;
        } else {
          zeroSeen := true;
        }
      }
    }
    assert IsMask(s, ones);
    return Some(ones);
  }

  /** The first `k` bits are `ones` ones and then zeros. */
  ghost predicate Scanned(s: seq<bool>, k: nat, ones: nat, zeroSeen: bool) {
    && ones <= k <= |s| && (zeroSeen <==> ones < k)
    && forall i :: 0 <= i < k ==> (s[i] <==> i < ones)
  }

  /** The big-endian bytes of an address (`As4`, `As16`). */
  function BytesAt(v: nat, count: nat): (bs: Bytes)
    ensures |bs| == count
  {
    seq(count, i requires 0 <= i < count => Shift(v, 8 * (count - 1 - i)) % 256)
  }

  lemma LowBits(q: nat, b: nat)
    requires b < 8
    ensures BitSet(q % 256, b) <==> BitSet(q, b)
  {
    var p, e := Pow2(b), Pow2(7 - b);
    Pow2Add(b, 7 - b);
    assert Pow2(7) == 128;
    hide Pow2;
    var h, l := q / 256, q % 256;
    var d, r := l / p, l % p;
    LowParts(q, h, l, p, e, d, r);
    DivUnique(q, p, 2 * (h * e) + d, r);
    assert (2 * (h * e) + d) % 2 == d % 2;
  }

  lemma LowParts(q: int, h: int, l: int, p: int, e: int, d: int, r: int)
    requires q == 256 * h + l && p * e == 128 && l == d * p + r
    ensures q == (2 * (h * e) + d) * p + r
  {
    assert (h * e) * p == h * (p * e);
    assert (2 * (h * e) + d) * p == 2 * ((h * e) * p) + d * p;
  }

  lemma ShiftShift(v: nat, m: nat, b: nat)
    ensures Shift(Shift(v, m), b) == Shift(v, m + b)
  {
    hide Pow2;
    Pow2Add(m, b);
    DivDiv(v, Pow2(m), Pow2(b));
  }

  lemma ByteBit(v: nat, m: nat, b: nat)
    requires b < 8
    ensures BitSet(Shift(v, m) % 256, b) <==> BitSet(v, m + b)
  {
    hide Pow2, Shift;
    LowBits(Shift(v, m), b);
    ShiftShift(v, m, b);
  }

  /** The bytes hold the number's bits. */
  lemma BytesBits(v: nat, count: nat)
    ensures BitsOf(BytesAt(v, count)) == Bits(v, 8 * count)
  {
    hide BitSet, Pow2, Bits;
    var bs := BytesAt(v, count);
    forall k | 0 <= k < 8 * count ensures BitsOf(bs)[k] == Bits(v, 8 * count)[k] {
      BitsAt(v, 8 * count, k);
      ByteBit(v, 8 * (count - 1 - k / 8), 7 - k % 8);
    }
  }

  /** On IPv4 masks the scan and the popcount test compute the same function. */
  lemma ScanAgrees(mask: U32)
    ensures MaskLength(BitsOf(BytesAt(mask, 4))) == MaskBits(mask)
  {
    BytesBits(mask, 4);
    MaskBitsExact(mask);
  }

  // ---------- route reports ----------

  /** The `mask` field: empty, the word default, a hexadecimal number, an address, or something else. */
  datatype MaskText = NoMask | DefaultMask | Hex(value: U32) | Dotted(addr: Addr) | BadMask

  datatype Destination = DefaultWord | Literal(addr: Addr) | BadDestination

  /** The fields of a `route get` report that name the destination. */
  datatype Report = Report(destination: Destination, host: bool, prefixlen: Option<int>, mask: MaskText)

  /** What a mask field means in an address family. */
  ghost function MaskMeaning(text: MaskText, bitLength: nat): Option<nat> {
    match text
    case DefaultMask => Some(0)
    case Hex(v) => if bitLength == 32 then MaskLength(Bits(v, 32)) else None
    case Dotted(a) => if a.IsValid() && a.BitLen() == bitLength then MaskLength(Bits(a.Value(), bitLength)) else None
    case _ => None
  }

  method ParseMaskBits(text: MaskText, bitLength: nat) returns (r: Option<nat>)
    requires bitLength == 32 || bitLength == 128
    ensures r == MaskMeaning(text, bitLength)
  {
    if text.DefaultMask? {
      return Some(0);
    }
    if bitLength == 32 && text.Hex? {
      MaskBitsExact(text.value);
      return MaskBits(text.value);
    }
    if !text.Dotted? || !text.addr.IsValid() || text.addr.BitLen() != bitLength {
      return None;
    }
    if bitLength == 32 {
      MaskBitsExact(text.addr.Value());
      return MaskBits(text.addr.Value());
    }
    BytesBits(text.addr.Value(), 16);
    r := ScanMask(BytesAt(text.addr.Value(), 16));
  }

  function ClearLow(v: nat, b: nat): (r: nat)
    requires b > 0
    ensures r <= v
  {
    v - v % b
  }

  /** `netip.PrefixFrom(a, bits).Masked()`: clears the host bits. */
  function Masked(a: Addr, bits: int): Option<Prefix> {
    if !Prefix(a, bits).IsValid() then None else
      var b := Prefix(a, bits).Block();
      Some(Prefix(if a.V4? then V4(ClearLow(a.n, b)) else V6(ClearLow(a.m, b)), bits))
  }

  /** The prefix a report stands for. */
  ghost function Reported(r: Report, bitLength: nat): Option<Prefix> {
    if r.destination.DefaultWord? && bitLength == 32 then Some(V4_DEFAULT)
    else if !r.destination.Literal? then None
    else if r.host then Some(Prefix(r.destination.addr, bitLength))
    else if r.prefixlen.Some? && 0 <= r.prefixlen.value <= bitLength then Masked(r.destination.addr, r.prefixlen.value)
    else if MaskMeaning(r.mask, bitLength).None? then None
    else Masked(r.destination.addr, MaskMeaning(r.mask, bitLength).value)
  }

  method ParseRoutePrefix(r: Report, bitLength: nat) returns (p: Option<Prefix>)
    requires bitLength == 32 || bitLength == 128
    ensures p == Reported(r, bitLength)
  {
    if r.destination.DefaultWord? && bitLength == 32 {
      return Some(Prefix(V4(0), 0));
    }
    if !r.destination.Literal? {
      return None;
    }
    if r.host {
      return Some(Prefix(r.destination.addr, bitLength));
    }
    if r.prefixlen.Some? && 0 <= r.prefixlen.value <= bitLength {
      return Masked(r.destination.addr, r.prefixlen.value);
    }
    if r.mask.NoMask? {
      return None;
    }
    var bits := ParseMaskBits(r.mask, bitLength);
    if bits.None? {
      return None;
    }
    p := Masked(r.destination.addr, bits.value);
  }

  /** Clearing the host bits of any address of a canonical prefix gives the prefix back. */
  lemma MaskedIs(p: Prefix, a: Addr)
    requires p.IsCanonical() && p.Contains(a)
    ensures Masked(a, p.bits) == Some(p)
  {
    var b := p.Block();
    assert b == Prefix(a, p.bits).Block();
    assert a.Value() - a.Value() % b == (a.Value() / b) * b;
    assert p.addr.Value() == (p.addr.Value() / b) * b;
  }

  /** However a route's length is reported, the report parses to the route's prefix: `a` is the address the
      report prints, `mask` any mask of the prefix's length. */
  lemma ReportsAgree(p: Prefix, a: Addr, mask: MaskText, ignored: MaskText)
    requires p.IsCanonical() && p.Contains(a) && MaskMeaning(mask, p.addr.BitLen()) == Some(p.bits)
    ensures Reported(Report(Literal(a), false, Some(p.bits), ignored), p.addr.BitLen()) == Some(p)
    ensures Reported(Report(Literal(a), false, None, mask), p.addr.BitLen()) == Some(p)
    ensures p.bits == p.addr.BitLen() ==> Reported(Report(Literal(a), true, None, ignored), p.addr.BitLen()) == Some(p)
  {
    MaskedIs(p, a);
    if p.bits == p.addr.BitLen() {
      HostPrefix(p, a);
    }
  }

  /** Every prefix length has a mask of each kind, and a mask of one length is no other's. */
  lemma MasksOf(n: nat, bitLength: nat)
    requires (bitLength == 32 || bitLength == 128) && n <= bitLength
    ensures bitLength == 32 ==> MaskValue(n, 32) < 0x1_0000_0000 && MaskMeaning(Hex(MaskValue(n, 32)), 32) == Some(n)
    ensures bitLength == 32 ==> MaskMeaning(Dotted(V4(MaskValue(n, 32))), 32) == Some(n)
    ensures bitLength == 128 ==> MaskValue(n, 128) < 0x1_0000_0000_0000_0000_0000_0000_0000_0000
    ensures bitLength == 128 ==> MaskMeaning(Dotted(V6(MaskValue(n, 128))), 128) == Some(n)
  {
    BitsOfMask(n, bitLength);
    assert Pow2(32) == 0x1_0000_0000 && Pow2(128) == 0x1_0000_0000_0000_0000_0000_0000_0000_0000 by {
      Pow2Values();
      assert Pow2(32) == 2 * Pow2(31) && Pow2(128) == 2 * Pow2(127);
    }
    hide Pow2;
  }
}
