/** Network addresses: the segment-wise IPv6 mask and the IPv4 mask of the VIP route
    (crates/omni-tun/src/lib.rs:237-271, 566-602). Bitwise operations are defined on naturals. */
module NetPrefix {
  import opened Common

  function Pow2(k: nat): (r: nat)
    ensures r > 0
  {
    if k == 0 then 1 else 2 * Pow2(k - 1)
  }

  /** Bitwise and. */
  function And(a: nat, b: nat): nat {
    if a == 0 || b == 0 then 0 else 2 * And(a / 2, b / 2) + (a % 2) * (b % 2)
  }

  /** `count_ones` */
  function Ones(a: nat): nat { if a == 0 then 0 else a % 2 + Ones(a / 2) }

  function Bit(a: nat, i: nat): nat { if i == 0 then a % 2 else Bit(a / 2, i - 1) }

  /** The reference definition: a with everything below the first p of w bits cleared. */
  function Net(a: nat, p: nat, w: nat): nat
    requires p <= w
  {
    RoundDown(a, Pow2(w - p))
  }

  /** The largest multiple of d that is at most a. */
  function RoundDown(a: nat, d: nat): nat
    requires d > 0
  {
    ModFits(a, d);
    a - a % d
  }

  lemma ModFits(a: nat, d: nat)
    requires d > 0
    ensures a % d <= a
  {
    if a < d {
      DivMod(a, d, 0, a);
    }
  }

  // ---- powers of two

  lemma {:induction false} PowAdd(i: nat, j: nat)
    ensures Pow2(i + j) == Pow2(i) * Pow2(j)
  {
    if i > 0 {
      PowAdd(i - 1, j);
      assert Pow2(i + j) == 2 * (Pow2(i - 1) * Pow2(j)) == (2 * Pow2(i - 1)) * Pow2(j);
    }
  }

  lemma MulFar(d: int, t: int)
    requires d > 0
    ensures t == 0 || t * d >= d || t * d <= -d
  {
    if t > 0 {
      assert (t - 1) * d >= 0;
    } else if t < 0 {
      assert (-t - 1) * d >= 0;
    }
  }

  lemma MulMono(a: nat, b: nat, d: nat)
    requires a <= b
    ensures a * d <= b * d
  {
  }

  lemma DivMod(a: nat, d: nat, q: nat, r: nat)
    requires d > 0 && a == q * d + r && r < d
    ensures a / d == q && a % d == r
  {
    var q', r' := a / d, a % d;
    assert q' * d + r' == a;
    assert (q' - q) * d == q' * d - q * d == r - r';
    MulFar(d, q' - q);
  }

  lemma Regroup(q: int, k: int, f: int, d: int, e: int)
    ensures (q * k + f) * d + e == q * (d * k) + (f * d + e)
  {
    assert (q * k + f) * d == (q * k) * d + f * d;
    assert (q * k) * d == q * (d * k);
  }

  lemma Below(f: nat, k: nat, d: nat, e: nat)
    requires f < k && e < d
    ensures f * d + e < d * k
  {
    MulMono(f + 1, k, d);
    assert (f + 1) * d == f * d + d;
  }

  lemma DivTwice(a: nat, d: nat, k: nat)
    requires d > 0 && k > 0
    ensures d * k > 0
    ensures a / (d * k) == (a / d) / k
    ensures a % (d * k) == ((a / d) % k) * d + a % d
  {
    var b, e := a / d, a % d;
    var q, f := b / k, b % k;
    assert b == q * k + f;
    assert a == b * d + e;
    Regroup(q, k, f, d, e);
    Below(f, k, d, e);
    DivMod(a, d * k, q, f * d + e);
  }

  lemma {:induction false} PowGrows(i: nat, j: nat)
    requires i <= j
    ensures Pow2(i) <= Pow2(j) && Pow2(16) == 0x1_0000
  {
    if i < j {
      PowGrows(i, j - 1);
    } else {
      Pow16();
    }
  }

  lemma Pow16()
    ensures Pow2(16) == 0x1_0000
  {
    assert Pow2(4) == 16;
    PowAdd(4, 4);
    PowAdd(8, 8);
  }

  // ---- masks

  lemma AndDouble(a: nat, m: nat)
    ensures And(a, 2 * m) == 2 * And(a / 2, m)
    ensures And(a, 2 * m + 1) == 2 * And(a / 2, m) + a % 2
  {
    assert (2 * m) / 2 == m && (2 * m) % 2 == 0;
    assert (2 * m + 1) / 2 == m && (2 * m + 1) % 2 == 1;
  }

  lemma RoundDownDouble(a: nat, d: nat)
    requires d > 0
    ensures RoundDown(a, 2 * d) == 2 * RoundDown(a / 2, d)
  {
    DivTwice(a, 2, d);
  }

  lemma {:induction false} AndMask(a: nat, w: nat, k: nat)
    requires k <= w && a < Pow2(w)
    ensures Pow2(k) <= Pow2(w) && And(a, Pow2(w) - Pow2(k)) == RoundDown(a, Pow2(k))
    decreases w
  {
    if k == 0 {
      MaskAll(a, w);
      DivMod(a, 1, a, 0);
    } else {
      AndMask(a / 2, w - 1, k - 1);
      AndDouble(a, Pow2(w - 1) - Pow2(k - 1));
      RoundDownDouble(a, Pow2(k - 1));
    }
  }

  lemma {:induction false} MaskAll(a: nat, w: nat)
    requires a < Pow2(w)
    ensures And(a, Pow2(w) - 1) == a
    decreases w
  {
    if w > 0 {
      MaskAll(a / 2, w - 1);
      AndDouble(a, Pow2(w - 1) - 1);
    }
  }

  lemma {:induction false} OnesOfMask(w: nat, k: nat)
    requires k <= w
    ensures Pow2(k) <= Pow2(w) && Ones(Pow2(w) - Pow2(k)) == w - k
    decreases w
  {
    if w > 0 {
      var m := Pow2(w) - Pow2(k);
      if k == 0 {
        OnesOfMask(w - 1, 0);
        assert m / 2 == Pow2(w - 1) - 1 && m % 2 == 1;
      } else {
        OnesOfMask(w - 1, k - 1);
        assert m == 2 * (Pow2(w - 1) - Pow2(k - 1));
      }
    }
  }

  lemma {:induction false} AndAll(a: nat, w: nat)
    requires a < Pow2(w)
    ensures And(Pow2(w) - 1, a) == a
    decreases w
  {
    if w > 0 && a > 0 {
      AndAll(a / 2, w - 1);
      assert (Pow2(w) - 1) / 2 == Pow2(w - 1) - 1 && (Pow2(w) - 1) % 2 == 1;
    }
  }

  // ---- IPv6

  /** The 128-bit (in general 16n-bit) value of big-endian segments. */
  function Address(segments: seq<U16>): nat {
    if segments == [] then 0
    else Address(segments[..|segments| - 1]) * 0x1_0000 + segments[|segments| - 1]
  }

  /** `!((1 << (16 - bits)) - 1)` on 16 bits. */
  function SegmentMask(bits: nat): nat
    requires 0 < bits < 16
  {
    PowGrows(16 - bits, 16);
    0xFFFF - (Pow2(16 - bits) - 1)
  }

  /** Segment i of the network address. */
  function MaskedSegment(segments: seq<U16>, p: nat, i: nat): nat
    requires i < |segments|
  {
    if i < p / 16 then segments[i]
    else if i == p / 16 && p % 16 > 0 then And(segments[i], SegmentMask(p % 16))
    else 0
  }

  function Min(a: nat, b: nat): nat { if a < b then a else b }

  method Ipv6NetworkAddress(segments: seq<U16>, prefixLen: nat) returns (network: array<nat>)
    requires |segments| == 8 && prefixLen < 256
    ensures fresh(network) && network.Length == 8
    ensures forall i :: 0 <= i < 8 ==> network[i] < 0x1_0000
    ensures Address(network[..]) == Net(Address(segments), Min(prefixLen, 128), 128)
  {
    network := new nat[8](_ => 0);
    var fullSegments := prefixLen / 16;
    var remainingBits := prefixLen % 16;
    for i := 0 to 8
      invariant forall j :: 0 <= j < i ==> network[j] == MaskedSegment(segments, prefixLen, j)
      invariant forall j :: i <= j < 8 ==> network[j] == 0
    {
      if i < fullSegments {
        network[i] := segments[i];
      } else if i == fullSegments && remainingBits > 0 {
        network[i] := And(segments[i], SegmentMask(remainingBits));
      }
    }
    forall i | 0 <= i < 8 ensures network[i] < 0x1_0000 {
      MaskedSegmentIs(segments, prefixLen, i);
    }
    MaskedIsNet(segments, prefixLen, network[..]);
  }

  lemma SegmentAnd(l: U16, bits: nat)
    requires 0 < bits < 16
    ensures And(l, SegmentMask(bits)) == RoundDown(l, Pow2(16 - bits))
  {
    Pow16();
    AndMask(l, 16, 16 - bits);
  }

  lemma WholeSegment(l: U16)
    ensures RoundDown(l, Pow2(0)) == l && RoundDown(l, Pow2(16)) == 0
  {
    Pow16();
    DivMod(l, 1, l, 0);
    DivMod(l, 0x1_0000, 0, l);
  }

  lemma MaskedSegmentIs(segments: seq<U16>, p: nat, i: nat)
    requires i < |segments|
    ensures var r := if p >= 16 * (i + 1) then 0 else if p >= 16 * i then 16 * (i + 1) - p else 16;
            MaskedSegment(segments, p, i) == RoundDown(segments[i], Pow2(r)) <= segments[i]
  {
    WholeSegment(segments[i]);
    if 16 * i < p < 16 * (i + 1) {
      assert p / 16 == i && p % 16 == p - 16 * i;
      SegmentAnd(segments[i], p % 16);
    }
  }

  // Clearing the low part of h * 65536 + l, where only l, or all of l, is affected.
  lemma NetSplitsLow(h: nat, l: nat, k: nat)
    requires l < 0x1_0000 && k <= 16
    ensures RoundDown(h * 0x1_0000 + l, Pow2(k)) == h * 0x1_0000 + RoundDown(l, Pow2(k))
  {
    Pow16();
    PowAdd(k, 16 - k);
    AddMultiple(h, l, Pow2(k), Pow2(16 - k));
  }

  lemma AddMultiple(h: nat, l: nat, d: nat, m: nat)
    requires d > 0
    ensures RoundDown(h * (d * m) + l, d) == h * (d * m) + RoundDown(l, d)
  {
    var q, r := l / d, l % d;
    assert l == q * d + r;
    assert (h * m + q) * d == (h * m) * d + q * d;
    assert (h * m) * d == h * (d * m);
    DivMod(h * (d * m) + l, d, h * m + q, r);
  }

  lemma NetSplitsHigh(h: nat, l: nat, k: nat)
    requires l < 0x1_0000
    ensures RoundDown(h * 0x1_0000 + l, Pow2(16 + k)) == RoundDown(h, Pow2(k)) * 0x1_0000
  {
    Pow16();
    PowAdd(16, k);
    DivMod(h * 0x1_0000 + l, 0x1_0000, h, l);
    DivTwice(h * 0x1_0000 + l, 0x1_0000, Pow2(k));
  }

  // One more segment l below the address h.
  lemma NetOfLonger(h: nat, l: nat, p: nat, n: nat)
    requires l < 0x1_0000
    ensures var r := if p >= 16 * (n + 1) then 0 else if p >= 16 * n then 16 * (n + 1) - p else 16;
            Net(h * 0x1_0000 + l, Min(p, 16 * (n + 1)), 16 * (n + 1)) ==
            Net(h, Min(p, 16 * n), 16 * n) * 0x1_0000 + RoundDown(l, Pow2(r))
  {
    Pow16();
    if p >= 16 * n {
      NetSplitsLow(h, l, 16 * (n + 1) - Min(p, 16 * (n + 1)));
      DivMod(h, 1, h, 0);
    } else {
      NetSplitsHigh(h, l, 16 * n - p);
      DivMod(l, 0x1_0000, 0, l);
    }
  }

  lemma {:induction false} MaskedIsNet(segments: seq<U16>, p: nat, out: seq<nat>)
    requires |out| == |segments|
    requires forall i :: 0 <= i < |out| ==> out[i] < 0x1_0000 && out[i] == MaskedSegment(segments, p, i)
    ensures Address(out) == Net(Address(segments), Min(p, 16 * |segments|), 16 * |segments|)
    decreases |segments|
  {
    if segments != [] {
      var n := |segments| - 1;
      MaskedIsNet(segments[..n], p, out[..n]);
      MaskedSegmentIs(segments, p, n);
      NetOfLonger(Address(segments[..n]), segments[n], p, n);
    }
  }

  // ---- what a network address is for

  /** Masking twice is masking once with the shorter prefix; in particular it is idempotent. */
  lemma NetComposes(a: nat, p: nat, q: nat, w: nat)
    requires p <= q <= w
    ensures Net(Net(a, q, w), p, w) == Net(a, p, w)
    ensures Net(Net(a, p, w), p, w) == Net(a, p, w)
  {
    NetOfNet(a, p, q, w);
    NetOfNet(a, p, p, w);
  }

  lemma NetOfNet(a: nat, p: nat, q: nat, w: nat)
    requires p <= q <= w
    ensures Net(Net(a, q, w), p, w) == Net(a, p, w)
  {
    var d, k := Pow2(w - q), Pow2(q - p);
    PowAdd(w - q, q - p);
    assert (w - q) + (q - p) == w - p;
    var b := Net(a, q, w);
    assert b == (a / d) * d;
    DivMod(b, d, a / d, 0);
    DivTwice(a, d, k);
    DivTwice(b, d, k);
  }

  ghost predicate SameBits(x: nat, y: nat, from: nat, to: nat) {
    forall i :: from <= i < to ==> Bit(x, i) == Bit(y, i)
  }

  lemma {:induction false} BitsDecide(x: nat, y: nat, n: nat)
    requires x < Pow2(n) && y < Pow2(n) && SameBits(x, y, 0, n)
    ensures x == y
    decreases n
  {
    if n > 0 {
      assert Bit(x, 0) == Bit(y, 0);
      forall i | 0 <= i < n - 1 ensures Bit(x / 2, i) == Bit(y / 2, i) {
        assert Bit(x, i + 1) == Bit(y, i + 1);
      }
      BitsDecide(x / 2, y / 2, n - 1);
    }
  }

  function Shift(x: nat, k: nat): nat { if k == 0 then x else Shift(x / 2, k - 1) }

  lemma {:induction false} ShiftDivides(x: nat, k: nat)
    ensures Shift(x, k) == x / Pow2(k)
    decreases k
  {
    if k > 0 {
      ShiftDivides(x / 2, k - 1);
      DivTwice(x, 2, Pow2(k - 1));
    }
  }

  lemma {:induction false} BitOfShift(x: nat, k: nat, i: nat)
    ensures Bit(x, k + i) == Bit(Shift(x, k), i)
    decreases k
  {
    if k > 0 {
      BitOfShift(x / 2, k - 1, i);
    }
  }

  lemma ShiftBits(a: nat, b: nat, k: nat, p: nat)
    ensures SameBits(a, b, k, k + p) <==> SameBits(Shift(a, k), Shift(b, k), 0, p)
  {
    var x, y := Shift(a, k), Shift(b, k);
    forall i: nat ensures Bit(a, k + i) == Bit(x, i) && Bit(b, k + i) == Bit(y, i) {
      BitOfShift(a, k, i);
      BitOfShift(b, k, i);
    }
    if SameBits(x, y, 0, p) {
      forall i | k <= i < k + p ensures Bit(a, i) == Bit(b, i) {
        assert Bit(x, i - k) == Bit(y, i - k) && k + (i - k) == i;
      }
    }
    if SameBits(a, b, k, k + p) {
      forall i | 0 <= i < p ensures Bit(x, i) == Bit(y, i) {
        assert Bit(a, k + i) == Bit(b, k + i);
      }
    }
  }

  /** Two addresses are in one network exactly when their first p bits agree. */
  lemma SameNetworkIff(a: nat, b: nat, p: nat, w: nat)
    requires p <= w && a < Pow2(w) && b < Pow2(w)
    ensures Net(a, p, w) == Net(b, p, w) <==> SameBits(a, b, w - p, w)
  {
    var k := w - p;
    SameMultiple(a, b, Pow2(k));
    ShiftDivides(a, k);
    ShiftDivides(b, k);
    ShiftBits(a, b, k, p);
    if SameBits(a, b, k, w) {
      PowAdd(k, p);
      Quotient(a, Pow2(k), Pow2(p));
      Quotient(b, Pow2(k), Pow2(p));
      BitsDecide(Shift(a, k), Shift(b, k), p);
    }
  }

  lemma SameMultiple(a: nat, b: nat, d: nat)
    requires d > 0
    ensures RoundDown(a, d) == RoundDown(b, d) <==> a / d == b / d
  {
    var x, y := a / d, b / d;
    assert RoundDown(a, d) == x * d && RoundDown(b, d) == y * d;
    assert (x - y) * d == x * d - y * d;
    MulFar(d, x - y);
  }

  lemma Quotient(a: nat, d: nat, n: nat)
    requires d > 0 && a < d * n
    ensures a / d < n
  {
    var q := a / d;
    assert q * d <= a;
    if q >= n {
      MulMono(n, q, d);
    }
  }

  // ---- IPv4

  /** The VIP route: network address and prefix length. Without a mask it is the enclosing /24. */
  function VipRoute(vip: U32, mask: Option<U32>): (nat, nat) {
    match mask
    case Some(m) => (And(vip, m), Ones(m))
    case None =>
      var o0, o1, o2 := vip / 0x100_0000, vip / 0x1_0000 % 0x100, vip / 0x100 % 0x100;
      (o0 * 0x100_0000 + o1 * 0x1_0000 + o2 * 0x100, 24)
  }

  ghost predicate Contiguous(m: U32) { exists k: nat :: k <= 32 && m + Pow2(k) == Pow2(32) }

  lemma Pow32()
    ensures Pow2(32) == 0x1_0000_0000 && Pow2(8) == 0x100
  {
    Pow16();
    PowAdd(16, 16);
    PowAdd(4, 4);
  }

  ghost predicate IsNetwork(vip: U32, m: U32) {
    var (network, prefix) := VipRoute(vip, Some(m));
    prefix <= 32 && network == Net(vip, prefix, 32)
  }

  /** The route is the network of its own prefix length, for every VIP, exactly when the mask is
      contiguous; the code accepts any mask. */
  lemma RouteIsNetworkIff(m: U32)
    ensures (forall vip: U32 :: IsNetwork(vip, m)) <==> Contiguous(m)
  {
    Pow32();
    if Contiguous(m) {
      var k: nat :| k <= 32 && m + Pow2(k) == Pow2(32);
      OnesOfMask(32, k);
      forall vip: U32 ensures IsNetwork(vip, m) {
        AndMask(vip, 32, k);
      }
    }
    if forall vip: U32 :: IsNetwork(vip, m) {
      assert IsNetwork(0xFFFF_FFFF, m);
      AndAll(m, 32);
      OnesNet(Ones(m));
    }
  }

  // The network of the all-ones address is the contiguous mask.
  lemma OnesNet(p: nat)
    requires p <= 32
    ensures Net(0xFFFF_FFFF, p, 32) + Pow2(32 - p) == Pow2(32)
  {
    Pow32();
    PowAdd(32 - p, p);
    AllButOne(Pow2(32 - p), Pow2(p));
  }

  lemma AllButOne(d: nat, k: nat)
    requires d > 0 && k > 0
    ensures d * k > 0 && RoundDown(d * k - 1, d) + d == d * k
  {
    assert (k - 1) * d + d == d * k;
    DivMod(d * k - 1, d, k - 1, d - 1);
  }

  /** The default path is the route of mask 255.255.255.0. */
  lemma DefaultIsSlash24(vip: U32)
    ensures VipRoute(vip, None) == VipRoute(vip, Some(0xFFFF_FF00)) == (Net(vip, 24, 32), 24)
  {
    Pow32();
    AndMask(vip, 32, 8);
    OnesOfMask(32, 8);
    DivTwice(vip, 0x100, 0x100);
    DivTwice(vip, 0x1_0000, 0x100);
  }

  /** A mask of ones followed by k zeros routes the network of its own length 32 - k. */
  lemma RouteOfMask(vip: U32, m: U32, k: nat)
    requires k <= 32 && m + Pow2(k) == Pow2(32)
    ensures VipRoute(vip, Some(m)) == (Net(vip, 32 - k, 32), 32 - k)
  {
    Pow32();
    OnesOfMask(32, k);
    AndMask(vip, 32, k);
  }
}
