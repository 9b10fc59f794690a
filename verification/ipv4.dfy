/** IPv4 addresses and prefixes: mask arithmetic and containment.  Addresses are
    32-bit unsigned numbers. */
module IPv4 {

  const WORD := 0x1_0000_0000

  type Address = a: int | 0 <= a < WORD
  type Bits = b: int | 0 <= b <= 32

  /** `bits` is the prefix length. */
  datatype Prefix = Prefix(addr: Address, bits: Bits)

  function Pow2(n: nat): (p: nat)
    ensures p >= 1
  {
    if n == 0 then 1 else 2 * Pow2(n - 1)
  }

  /** `a` shifted to the left by `k` bits. */
  function Up(a: nat, k: nat): nat {
    if k == 0 then a else 2 * Up(a, k - 1)
  }

  /** `a` shifted to the right by `k` bits. */
  function Down(a: nat, k: nat): (r: nat)
    ensures r <= a
  {
    if k == 0 then a else Down(a / 2, k - 1)
  }

  /** The bitwise conjunction. */
  function And(a: nat, b: nat): (r: nat)
    ensures r <= a
  {
    if a == 0 then 0 else 2 * And(a / 2, b / 2) + (if a % 2 == 1 && b % 2 == 1 then 1 else 0)
  }

  /** The mask as the program computes it: all ones shifted to the left within
      32 bits. */
  function Mask(bits: Bits): Address {
    if bits == 0 then 0 else Up(WORD - 1, 32 - bits) % WORD
  }

  function Masked(p: Prefix): Prefix {
    Prefix(And(p.addr, Mask(p.bits)), p.bits)
  }

  predicate IsMasked(p: Prefix) {
    Masked(p) == p
  }

  predicate Contains(p: Prefix, ip: Address) {
    And(ip, Mask(p.bits)) == And(p.addr, Mask(p.bits))
  }

  // ---- Shifts ----

  lemma {:induction false} Pow2Word()
    ensures Pow2(32) == WORD
  {
    assert Pow2(8) == 256;
    assert Pow2(16) == 0x1_0000;
    assert Pow2(24) == 0x100_0000;
  }

  lemma {:induction false} Pow2Bound(n: nat)
    requires n <= 32
    ensures Pow2(n) <= WORD
    decreases 32 - n
  {
    if n == 32 {
      Pow2Word();
    } else {
      Pow2Bound(n + 1);
    }
  }

  lemma {:induction false} UpTimes(a: nat, k: nat)
    ensures Up(a, k) == a * Pow2(k)
  {
    if k > 0 {
      UpTimes(a, k - 1);
      assert 2 * (a * Pow2(k - 1)) == a * (2 * Pow2(k - 1));
    }
  }

  lemma {:induction false} DownUp(a: nat, k: nat)
    ensures Down(Up(a, k), k) == a
  {
    if k > 0 {
      DownUp(a, k - 1);
    }
  }

  lemma {:induction false} DownDown(a: nat, k: nat, j: nat)
    ensures Down(Down(a, k), j) == Down(a, k + j)
  {
    if k > 0 {
      DownDown(a / 2, k - 1, j);
    }
  }

  /** The numbers with the same upper part are an interval. */
  lemma {:induction false} DownInterval(a: nat, top: nat, k: nat)
    ensures Down(a, k) == top <==> Up(top, k) <= a < Up(top, k) + Pow2(k)
  {
    if k > 0 {
      DownInterval(a / 2, top, k - 1);
    }
  }

  // ---- The mask ----

  /** `w - k` ones followed by `k` zeros. */
  function High(w: nat, k: nat): nat
    requires k <= w
  {
    if w == 0 then 0 else if k == 0 then 2 * High(w - 1, 0) + 1 else 2 * High(w - 1, k - 1)
  }

  lemma {:induction false} HighIs(w: nat, k: nat)
    requires k <= w
    ensures High(w, k) == Pow2(w) - Pow2(k)
  {
    if w > 0 {
      HighIs(w - 1, if k == 0 then 0 else k - 1);
    }
  }

  lemma {:induction false} ShiftedOnes(k: nat)
    requires k <= 32
    ensures Up(WORD - 1, k) % WORD == WORD - Pow2(k)
  {
    Pow2Bound(k);
    if k > 0 {
      ShiftedOnes(k - 1);
    }
  }

  lemma {:induction false} MaskIs(bits: Bits)
    ensures Mask(bits) == High(32, 32 - bits) == WORD - Pow2(32 - bits)
  {
    Pow2Word();
    HighIs(32, 32 - bits);
    ShiftedOnes(32 - bits);
  }

  lemma {:induction false} AndHigh(a: nat, w: nat, k: nat)
    requires k <= w && a < Pow2(w)
    ensures And(a, High(w, k)) == Up(Down(a, k), k)
  {
    if w == 0 {
    } else if k == 0 {
      AndHigh(a / 2, w - 1, 0);
    } else {
      AndHigh(a / 2, w - 1, k - 1);
      if a == 0 {
        DownZero(k);
      }
    }
  }

  lemma {:induction false} DownZero(k: nat)
    ensures Down(0, k) == 0 && Up(0, k) == 0
  {
    if k > 0 {
      DownZero(k - 1);
    }
  }

  /** Conjunction with the mask clears the host part and nothing else. */
  lemma {:induction false} MaskClears(a: Address, bits: Bits)
    ensures And(a, Mask(bits)) == Up(Down(a, 32 - bits), 32 - bits)
  {
    Pow2Word();
    MaskIs(bits);
    AndHigh(a, 32, 32 - bits);
  }

  // ---- Prefixes ----

  /** Containment is equality of the network parts. */
  lemma {:induction false} ContainsIff(p: Prefix, ip: Address)
    ensures Contains(p, ip) <==> Down(ip, 32 - p.bits) == Down(p.addr, 32 - p.bits)
  {
    var k := 32 - p.bits;
    MaskClears(ip, p.bits);
    MaskClears(p.addr, p.bits);
    DownUp(Down(ip, k), k);
    DownUp(Down(p.addr, k), k);
  }

  lemma {:induction false} MaskedIsMasked(p: Prefix)
    ensures IsMasked(Masked(p))
  {
    var k := 32 - p.bits;
    MaskClears(p.addr, p.bits);
    MaskClears(Masked(p).addr, p.bits);
    DownUp(Down(p.addr, k), k);
  }

  lemma {:induction false} MaskedContains(p: Prefix, ip: Address)
    ensures Contains(Masked(p), ip) <==> Contains(p, ip)
  {
    MaskedIsMasked(p);
  }

  /** A masked prefix contains exactly the block that starts at its address. */
  lemma {:induction false} ContainsBlock(p: Prefix, ip: Address)
    requires IsMasked(p)
    ensures Contains(p, ip) <==> p.addr <= ip < p.addr + Pow2(32 - p.bits)
  {
    var k := 32 - p.bits;
    ContainsIff(p, ip);
    MaskClears(p.addr, p.bits);
    DownInterval(ip, Down(p.addr, k), k);
  }

  /** Two masked prefixes of one length that share an address are the same. */
  lemma {:induction false} SharedAddress(p: Prefix, q: Prefix, ip: Address)
    requires IsMasked(p) && IsMasked(q) && p.bits == q.bits && Contains(p, ip) && Contains(q, ip)
    ensures p == q
  {
  }

  /** Prefixes are nested or disjoint. */
  lemma {:induction false} Nested(p: Prefix, q: Prefix, ip: Address, x: Address)
    requires p.bits <= q.bits && Contains(p, ip) && Contains(q, ip) && Contains(q, x)
    ensures Contains(p, x)
  {
    var k, j := 32 - q.bits, q.bits - p.bits;
    ContainsIff(p, ip);
    ContainsIff(q, ip);
    ContainsIff(q, x);
    ContainsIff(p, x);
    DownDown(ip, k, j);
    DownDown(x, k, j);
  }
}
