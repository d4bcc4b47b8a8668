/** Prefix masks over 32- and 128-bit addresses, and what masking means for numbers. */
module Prefix {

  /** Two to the power `n`. */
  function Pow2(n: nat): (p: nat)
    ensures p > 0
  {
    if n == 0 then 1 else 2 * Pow2(n - 1)
  }

  /** Bitwise and. */
  function And(a: nat, b: nat): nat {
    if a == 0 || b == 0 then 0
    else 2 * And(a / 2, b / 2) + if a % 2 == 1 && b % 2 == 1 then 1 else 0
  }

  /** `x << k` in a type of `width` bits; a shift by the width or more does not exist. */
  function ShiftLeft(width: nat, x: nat, k: nat): nat
    requires k < width
  {
    (x * Pow2(k)) % Pow2(width)
  }

  /** `u32::MAX` and `u128::MAX`. */
  function Max(width: nat): nat {
    Pow2(width) - 1
  }

  function Min(a: nat, b: nat): nat {
    if a < b then a else b
  }

  /** The widths of `u32` and `u128`. */
  const BITS_V4: nat := 32
  const BITS_V6: nat := 128

  datatype Version = V4 | V6 {
    function Width(): nat {
      if V4? then BITS_V4 else BITS_V6
    }
  }

  datatype RawIp = RawIp(version: Version, bits: nat)

  predicate FitsWidth(ip: RawIp) {
    ip.bits < Pow2(ip.version.Width())
  }

  /** `std::net::IpAddr`. */
  type Ip = ip: RawIp | FitsWidth(ip) witness RawIp(V4, 0)

  /** The mask of `parse_prefix`. */
  function InsertMask(version: Version, prefix: nat): nat {
    match version
    case V4 => if prefix == 0 then 0 else ShiftLeft(BITS_V4, Max(BITS_V4), BITS_V4 - Min(prefix, BITS_V4))
    case V6 => if prefix == 0 then 0 else ShiftLeft(BITS_V6, Max(BITS_V6), BITS_V6 - Min(prefix, BITS_V6))
  }

  /** The mask of `block_list_check`, a 128-bit value for both versions. */
  function CheckMask(version: Version, prefix: nat): nat {
    if prefix == 0 then 0
    else if version == V4 then ShiftLeft(BITS_V4, Max(BITS_V4), BITS_V4 - Min(prefix, BITS_V4))
    else ShiftLeft(BITS_V6, Max(BITS_V6), BITS_V6 - Min(prefix, BITS_V6))
  }

  /** How many low bits a prefix leaves free. */
  function FreeBits(version: Version, prefix: nat): nat {
    version.Width() - Min(prefix, version.Width())
  }

  // ------------------------------------------------------- powers and bits

  lemma {:induction false} PowersGrow(a: nat, b: nat)
    requires a <= b
    ensures Pow2(a) <= Pow2(b)
  {
    if a < b {
      PowersGrow(a, b - 1);
    }
  }

  lemma {:induction false} AndWithOnes(x: nat, width: nat)
    requires x < Pow2(width)
    ensures And(x, Pow2(width) - 1) == x
  {
    if x == 0 {
    } else {
      AndWithOnes(x / 2, width - 1);
      assert (Pow2(width) - 1) / 2 == Pow2(width - 1) - 1;
    }
  }

  lemma MultiplesAreFarApart(d: int, p: int)
    requires p > 0 && d != 0
    ensures d * p >= p || d * p <= -p
  {
    if d > 0 {
      assert d * p == p + (d - 1) * p;
    } else {
      assert d * p == -p - (-d - 1) * p;
    }
  }

  lemma QuotientIsUnique(x: nat, p: nat, q: nat, r: nat)
    requires p > 0 && x == q * p + r && r < p
    ensures x / p == q && x % p == r
  {
    var q', r' := x / p, x % p;
    assert x == p * q' + r' && 0 <= r' < p;
    assert (q - q') * p == q * p - p * q' == r' - r;
    if q != q' {
      MultiplesAreFarApart(q - q', p);
    }
  }

  /** What is left of `x` when it is rounded down to a multiple of `p`. */
  function RoundDown(x: nat, p: nat): (r: nat)
    requires p > 0
    ensures r <= x < r + p
  {
    x - x % p
  }

  lemma RoundDownHalves(x: nat, p: nat)
    requires p > 0
    ensures RoundDown(x, 2 * p) == 2 * RoundDown(x / 2, p)
  {
    var h := x / 2;
    var q, r := h / p, h % p;
    assert h == p * q + r;
    assert x == q * (2 * p) + (2 * r + x % 2);
    QuotientIsUnique(x, 2 * p, q, 2 * r + x % 2);
  }

  lemma AndWithEven(x: nat, n: nat)
    ensures And(x, 2 * n) == 2 * And(x / 2, n)
  {
  }

  /** `x` with its low `k` bits cleared, bit by bit. */
  function Clear(x: nat, k: nat): nat {
    if k == 0 then x else 2 * Clear(x / 2, k - 1)
  }

  lemma {:induction false} ClearIsRoundDown(x: nat, k: nat)
    ensures Clear(x, k) == RoundDown(x, Pow2(k))
  {
    if k == 0 {
      assert x % 1 == 0;
    } else {
      ClearIsRoundDown(x / 2, k - 1);
      RoundDownHalves(x, Pow2(k - 1));
    }
  }

  /** Anding with `width - k` ones followed by `k` zeros clears the low `k` bits. */
  lemma {:induction false} AndClears(x: nat, width: nat, k: nat)
    requires x < Pow2(width) && k <= width
    ensures Pow2(k) <= Pow2(width)
    ensures And(x, Pow2(width) - Pow2(k)) == Clear(x, k)
  {
    if k == 0 {
      AndWithOnes(x, width);
    } else {
      AndClears(x / 2, width - 1, k - 1);
      AndWithEven(x, Pow2(width - 1) - Pow2(k - 1));
    }
  }

  lemma AndClearsLowBits(x: nat, width: nat, k: nat)
    requires x < Pow2(width) && k <= width
    ensures Pow2(k) <= Pow2(width)
    ensures And(x, Pow2(width) - Pow2(k)) == RoundDown(x, Pow2(k))
  {
    AndClears(x, width, k);
    ClearIsRoundDown(x, k);
  }

  /** The same of a mask known by its value. */
  lemma MaskRoundsDown(x: nat, width: nat, k: nat, mask: nat)
    requires x < Pow2(width) && k <= width && mask == Pow2(width) - Pow2(k)
    ensures And(x, mask) == RoundDown(x, Pow2(k))
  {
    AndClearsLowBits(x, width, k);
  }

  lemma OnesTimesPower(w: nat, p: nat)
    requires 0 < p <= w
    ensures ((w - 1) * p) % w == w - p
  {
    assert (w - 1) * p == (p - 1) * w + (w - p);
    if p == w {
      assert (w - 1) * p == (w - 1) * w + 0;
    }
    QuotientIsUnique((w - 1) * p, w, p - 1, w - p);
  }

  lemma ShiftedOnes(width: nat, k: nat)
    requires k < width
    ensures Pow2(k) <= Pow2(width)
    ensures ShiftLeft(width, Max(width), k) == Pow2(width) - Pow2(k)
  {
    PowersGrow(k, width);
    OnesTimesPower(Pow2(width), Pow2(k));
  }

  /** The size of a prefix's block of addresses. */
  function BlockSize(version: Version, prefix: nat): (n: nat)
    ensures n > 0
  {
    Pow2(FreeBits(version, prefix))
  }

  lemma InsertMaskShifts(version: Version, prefix: nat, width: nat)
    requires width == version.Width() && prefix > 0
    ensures InsertMask(version, prefix) == ShiftLeft(width, Max(width), width - Min(prefix, width))
  {
  }

  lemma CheckMaskShifts(version: Version, prefix: nat, width: nat)
    requires width == version.Width() && prefix > 0
    ensures CheckMask(version, prefix) == ShiftLeft(width, Max(width), width - Min(prefix, width))
  {
  }

  /** The value of a mask over `width` bits that keeps `width - free` of them. */
  lemma MaskValue(prefix: nat, width: nat, free: nat, mask: nat)
    requires 0 < width && free == width - Min(prefix, width)
    requires mask == if prefix == 0 then 0 else ShiftLeft(width, Max(width), free)
    ensures Pow2(free) <= Pow2(width) && mask == Pow2(width) - Pow2(free)
  {
    if prefix != 0 {
      ShiftedOnes(width, free);
    }
  }

  /** Both masks are the same number, ones over the prefix and zeros over the free bits, for every
      prefix: zero, within the width, and beyond it. */
  lemma MasksAgree(version: Version, prefix: nat)
    ensures InsertMask(version, prefix) == CheckMask(version, prefix)
    ensures BlockSize(version, prefix) <= Pow2(version.Width())
    ensures CheckMask(version, prefix) == Pow2(version.Width()) - BlockSize(version, prefix)
  {
    var width := version.Width();
    if prefix > 0 {
      InsertMaskShifts(version, prefix, width);
      CheckMaskShifts(version, prefix, width);
    }
    MaskValue(prefix, width, FreeBits(version, prefix), CheckMask(version, prefix));
  }

  /** The first address with the same leading bits. */
  function Floor(ip: Ip, prefix: nat): (lo: nat)
    ensures lo <= ip.bits < lo + BlockSize(ip.version, prefix)
  {
    RoundDown(ip.bits, BlockSize(ip.version, prefix))
  }

  lemma MaskingIsFloor(ip: Ip, prefix: nat)
    ensures And(ip.bits, InsertMask(ip.version, prefix)) == Floor(ip, prefix)
    ensures And(ip.bits, CheckMask(ip.version, prefix)) == Floor(ip, prefix)
  {
    MasksAgree(ip.version, prefix);
    MaskRoundsDown(ip.bits, ip.version.Width(), FreeBits(ip.version, prefix), CheckMask(ip.version, prefix));
  }

  /** `parse_prefix`. */
  function ParsePrefix(network: Ip, prefix: nat): Ip {
    MaskingIsFloor(network, prefix);
    RawIp(network.version, And(network.bits, InsertMask(network.version, prefix)))
  }

  lemma RoundDownAgrees(x: nat, n: nat, p: nat)
    requires p > 0
    ensures RoundDown(x, p) == RoundDown(n, p) <==> RoundDown(n, p) <= x < RoundDown(n, p) + p
    ensures RoundDown(RoundDown(n, p), p) == RoundDown(n, p)
  {
    var lo := RoundDown(n, p);
    assert lo == n / p * p by { assert n == p * (n / p) + n % p; }
    QuotientIsUnique(lo, p, n / p, 0);
    if lo <= x < lo + p {
      QuotientIsUnique(x, p, n / p, x - lo);
    }
  }

  /** Two same-version addresses have equal masked bits exactly when the second lies in the
      interval that starts at the first one's floor and has one place per free bit pattern. */
  lemma MaskedEqualityIsInterval(network: Ip, ip: Ip, prefix: nat)
    requires network.version == ip.version
    ensures And(network.bits, CheckMask(network.version, prefix)) == And(ip.bits, CheckMask(network.version, prefix))
            <==> Floor(network, prefix) <= ip.bits <= Floor(network, prefix) + BlockSize(network.version, prefix) - 1
  {
    MaskingIsFloor(network, prefix);
    MaskingIsFloor(ip, prefix);
    RoundDownAgrees(ip.bits, network.bits, BlockSize(network.version, prefix));
  }

  /** Masking twice with the same prefix is masking once, and nothing was lost by storing the masked network. */
  lemma ParsePrefixIsIdempotent(network: Ip, prefix: nat)
    ensures ParsePrefix(ParsePrefix(network, prefix), prefix) == ParsePrefix(network, prefix)
    ensures Floor(ParsePrefix(network, prefix), prefix) == Floor(network, prefix)
  {
    MaskingIsFloor(network, prefix);
    MaskingIsFloor(ParsePrefix(network, prefix), prefix);
    RoundDownAgrees(network.bits, network.bits, BlockSize(network.version, prefix));
  }

  /** Rounding down to a power of two leaves room for a whole block below a greater power. */
  lemma {:induction false} BlockFits(x: nat, width: nat, k: nat)
    requires x < Pow2(width) && k <= width
    ensures RoundDown(x, Pow2(k)) + Pow2(k) <= Pow2(width)
  {
    if k == 0 {
      assert x % 1 == 0;
    } else {
      BlockFits(x / 2, width - 1, k - 1);
      RoundDownHalves(x, Pow2(k - 1));
    }
  }

  /** The last address of a prefix still fits the width. */
  lemma CeilingFits(network: Ip, prefix: nat)
    ensures Floor(network, prefix) + BlockSize(network.version, prefix) <= Pow2(network.version.Width())
  {
    BlockFits(network.bits, network.version.Width(), FreeBits(network.version, prefix));
  }

  /** The addresses of one version from `lo` on, `n` of them. */
  function Addresses(lo: nat, n: nat): set<nat> {
    if n == 0 then {} else Addresses(lo, n - 1) + {lo + n - 1}
  }

  lemma {:induction false} AddressesAreAnInterval(lo: nat, n: nat)
    ensures |Addresses(lo, n)| == n
    ensures forall x: nat :: x in Addresses(lo, n) <==> lo <= x < lo + n
  {
    if n == 0 {
    } else {
      AddressesAreAnInterval(lo, n - 1);
    }
  }
}
