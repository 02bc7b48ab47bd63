/**
 Source allowlists (internal/sourcepolicy/policy.go): canonical, distinct, sorted
 IPv4 prefixes, and the meaning of a prefix as agreement on its leading bits.
 */
module SourcePolicy {
  import opened Values

  const MAX_CIDRS := 128

  /** An IPv4 address, most significant byte first. */
  datatype Addr = Addr(a: bv8, b: bv8, c: bv8, d: bv8)

  /** A network prefix: `bits` leading bits of `addr` (section 3.1 of RFC 4632). */
  datatype Prefix = Prefix(addr: Addr, bits: nat)

  /** What decoding one CIDR text yields: an IPv4 prefix, or something Parse refuses. */
  datatype Cidr = IPv4(prefix: Prefix) | Unusable

  type Policy = seq<Prefix>

  // ---- Masks ----

  /** How many of the `bits` leading bits fall into byte `i`. */
  function Covered(bits: nat, i: nat): (k: nat)
    ensures k <= 8
  {
    if bits <= 8 * i then 0 else if 8 * i + 8 <= bits then 8 else bits - 8 * i
  }

  /** The two bytes agree on their `k` leading bits. */
  predicate SameTop(x: bv8, y: bv8, k: nat)
    requires k <= 8
  {
    x >> (8 - k) == y >> (8 - k)
  }

  /** The two addresses agree on their `bits` leading bits. */
  predicate Agree(x: Addr, y: Addr, bits: nat) {
    && SameTop(x.a, y.a, Covered(bits, 0)) && SameTop(x.b, y.b, Covered(bits, 1))
    && SameTop(x.c, y.c, Covered(bits, 2)) && SameTop(x.d, y.d, Covered(bits, 3))
  }

  predicate Contains(p: Prefix, x: Addr) {
    Agree(x, p.addr, p.bits)
  }

  /** The word the code shifts into a netmask: all ones moved left, which is zero for length 0. */
  function NetMask(bits: nat): bv32
    requires bits <= 32
  {
    0xffff_ffff << (32 - bits)
  }

  /** Big-endian bytes of a word. */
  function ByteOf(w: bv32, i: nat): bv8 {
    ((w >> (if i == 0 then 24 else if i == 1 then 16 else if i == 2 then 8 else 0)) & 0xff) as bv8
  }

  function MaskBytes(bits: nat): (m: seq<bv8>)
    requires bits <= 32
    ensures |m| == 4
  {
    var w := NetMask(bits);
    [ByteOf(w, 0), ByteOf(w, 1), ByteOf(w, 2), ByteOf(w, 3)]
  }

  predicate MaskEq(x: bv8, m: bv8, y: bv8) {
    x & m == y
  }

  /** The masked address is the given one, byte by byte. */
  predicate MaskedEquals(x: Addr, m: seq<bv8>, y: Addr)
    requires |m| == 4
  {
    MaskEq(x.a, m[0], y.a) && MaskEq(x.b, m[1], y.b) && MaskEq(x.c, m[2], y.c) && MaskEq(x.d, m[3], y.d)
  }

  predicate Canonical(p: Prefix) {
    p.bits <= 32 && MaskedEquals(p.addr, MaskBytes(p.bits), p.addr)
  }

  function TopMask(k: nat): bv8
    requires k <= 8
  {
    0xff << (8 - k)
  }

  lemma FirstMaskByte(bits: nat)
    requires bits <= 32
    ensures ByteOf(NetMask(bits), 0) == TopMask(Covered(bits, 0))
  {
  }

  lemma SecondMaskByte(bits: nat)
    requires bits <= 32
    ensures ByteOf(NetMask(bits), 1) == TopMask(Covered(bits, 1))
  {
  }

  lemma ThirdMaskByte(bits: nat)
    requires bits <= 32
    ensures ByteOf(NetMask(bits), 2) == TopMask(Covered(bits, 2))
  {
  }

  lemma FourthMaskByte(bits: nat)
    requires bits <= 32
    ensures ByteOf(NetMask(bits), 3) == TopMask(Covered(bits, 3))
  {
  }

  lemma MaskedByte(x: bv8, y: bv8, m: bv8, k: nat)
    requires k <= 8 && m == TopMask(k) && MaskEq(y, m, y)
    ensures MaskEq(x, m, y) <==> SameTop(x, y, k)
  {
  }

  /** Comparing a masked address with a canonical network decides containment, for every length from 0 to 32. */
  lemma MaskDecidesContainment(p: Prefix, x: Addr, m: seq<bv8>)
    requires Canonical(p) && m == MaskBytes(p.bits)
    ensures MaskedEquals(x, m, p.addr) <==> Contains(p, x)
  {
    hide MaskEq, SameTop, TopMask, MaskBytes, Covered;
    MaskByteCases(p.bits, 0);
    MaskByteCases(p.bits, 1);
    MaskByteCases(p.bits, 2);
    MaskByteCases(p.bits, 3);
    MaskedByte(x.a, p.addr.a, m[0], Covered(p.bits, 0));
    MaskedByte(x.b, p.addr.b, m[1], Covered(p.bits, 1));
    MaskedByte(x.c, p.addr.c, m[2], Covered(p.bits, 2));
    MaskedByte(x.d, p.addr.d, m[3], Covered(p.bits, 3));
  }

  lemma MaskByteCases(bits: nat, i: nat)
    requires bits <= 32 && i < 4
    ensures MaskBytes(bits)[i] == TopMask(Covered(bits, i))
  {
    hide ByteOf, NetMask, TopMask, Covered;
    if i == 0 {
      FirstMaskByte(bits);
    } else if i == 1 {
      SecondMaskByte(bits);
    } else if i == 2 {
      ThirdMaskByte(bits);
    } else {
      FourthMaskByte(bits);
    }
  }

  // ---- Parse ----

  function AddrValue(x: Addr): nat {
    ((x.a as nat * 256 + x.b as nat) * 256 + x.c as nat) * 256 + x.d as nat
  }

  predicate PrefixLe(p: Prefix, q: Prefix) {
    AddrValue(p.addr) < AddrValue(q.addr) || (AddrValue(p.addr) == AddrValue(q.addr) && p.bits <= q.bits)
  }

  lemma AddrIsItsValue(x: Addr, y: Addr)
    requires AddrValue(x) == AddrValue(y)
    ensures x == y
  {
    Base256(x.a as nat, x.b as nat, x.c as nat, x.d as nat, y.a as nat, y.b as nat, y.c as nat, y.d as nat);
    ByteIsItsValue(x.a, y.a);
    ByteIsItsValue(x.b, y.b);
    ByteIsItsValue(x.c, y.c);
    ByteIsItsValue(x.d, y.d);
  }

  lemma ByteIsItsValue(x: bv8, y: bv8)
    requires x as nat == y as nat
    ensures x == y
  {
  }

  lemma Base256(a: nat, b: nat, c: nat, d: nat, e: nat, f: nat, g: nat, h: nat)
    requires b < 256 && c < 256 && d < 256 && f < 256 && g < 256 && h < 256
    requires ((a * 256 + b) * 256 + c) * 256 + d == ((e * 256 + f) * 256 + g) * 256 + h
    ensures a == e && b == f && c == g && d == h
  {
  }

  lemma PrefixOrder()
    ensures TotalPreorder(PrefixLe)
    ensures forall p, q :: PrefixLe(p, q) && PrefixLe(q, p) ==> p == q
  {
    forall p: Prefix, q: Prefix ensures PrefixLe(p, q) && PrefixLe(q, p) ==> p == q {
      if PrefixLe(p, q) && PrefixLe(q, p) {
        AddrIsItsValue(p.addr, q.addr);
      }
    }
  }

  predicate Acceptable(cidrs: seq<Cidr>) {
    && |cidrs| <= MAX_CIDRS
    && (forall i :: 0 <= i < |cidrs| ==> cidrs[i].IPv4? && Canonical(cidrs[i].prefix))
    && (forall i, j :: 0 <= i < j < |cidrs| ==> cidrs[i] != cidrs[j])
  }

  function Decoded(cidrs: seq<Cidr>): seq<Prefix>
    requires forall i :: 0 <= i < |cidrs| ==> cidrs[i].IPv4?
  {
    seq(|cidrs|, i requires 0 <= i < |cidrs| => cidrs[i].prefix)
  }

  /** Canonical networks only; an absent list stays absent, an empty list stays empty. */
  method Parse(cidrs: Option<seq<Cidr>>) returns (r: Result<Option<Policy>, ()>)
    ensures cidrs.None? ==> r == Ok(None)
    ensures cidrs.Some? ==> (r.Ok? <==> Acceptable(cidrs.value))
    ensures cidrs.Some? && r.Ok? ==>
      && r.value.Some? && multiset(r.value.value) == multiset(Decoded(cidrs.value)) && SortedBy(PrefixLe, r.value.value)
      && forall p :: p in r.value.value ==> Canonical(p)
  {
    hide Canonical, PrefixLe;
    if cidrs.None? {
      return Ok(None);
    }
    var list := cidrs.value;
    if |list| > MAX_CIDRS {
      return Err(());
    }
    var seen: set<Prefix> := {};
    var prefixes: seq<Prefix> := [];
    for i := 0 to |list|
      invariant forall k :: 0 <= k < i ==> list[k].IPv4? && Canonical(list[k].prefix)
      invariant forall j, k :: 0 <= j < k < i ==> list[j] != list[k]
      invariant |prefixes| == i && forall k :: 0 <= k < i ==> prefixes[k] == list[k].prefix
      invariant seen == SetOf(prefixes)
    {
      if !list[i].IPv4? || !Canonical(list[i].prefix) {
        return Err(());
      }
      if list[i].prefix in seen {
        var k :| 0 <= k < i && prefixes[k] == list[i].prefix;
        assert list[k] == list[i];
        return Err(());
      }
      seen := seen + {list[i].prefix};
      prefixes := prefixes + [list[i].prefix];
    }
    assert prefixes == Decoded(list);
    PrefixOrder();
    SortFacts(PrefixLe, prefixes);
    r := Ok(Some(Sort(PrefixLe, prefixes)));
    SameMultisetSameElements(r.value.value, prefixes);
  }

  /** A policy does not depend on the order its networks were listed in, and keeps all of them. */
  lemma PolicyIdentity(c: seq<Cidr>, d: seq<Cidr>, p: Policy, q: Policy)
    requires Acceptable(c) && Acceptable(d)
    requires multiset(p) == multiset(Decoded(c)) && SortedBy(PrefixLe, p)
    requires multiset(q) == multiset(Decoded(d)) && SortedBy(PrefixLe, q)
    ensures p == q <==> multiset(Decoded(c)) == multiset(Decoded(d))
  {
    PrefixOrder();
    if multiset(p) == multiset(q) {
      SortedIsUnique(PrefixLe, p, q);
    }
  }
}
