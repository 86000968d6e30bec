// network-guard.js: IPv4 addresses and CIDR blocks in JavaScript's 32-bit arithmetic.
module Cidr {
  import opened Powers

  const WORD: nat := 0x1_0000_0000

  type Octet = b: int | 0 <= b < 256

  // a dotted quad, most significant octet first
  datatype Quad = Quad(a: Octet, b: Octet, c: Octet, d: Octet)

  // ---------------------------------------------------------------- JavaScript's integer operators

  /** x >>> 0 */
  function ToUint32(x: int): (r: nat)
    ensures r < WORD
  {
    x % 0x1_0000_0000
  }

  function ToInt32(x: int): (r: int)
    ensures -0x8000_0000 <= r < 0x8000_0000 && ToUint32(r) == ToUint32(x)
  {
    var u := ToUint32(x);
    if u < 0x8000_0000 then u else u - 0x1_0000_0000
  }

  /** x << n */
  function ShiftLeft(x: int, n: nat): int { ToInt32(ToInt32(x) * Pow2(n % 32)) }

  function Bits(x: nat, y: nat): nat {
    if x == 0 || y == 0 then 0 else 2 * Bits(x / 2, y / 2) + if x % 2 == 1 && y % 2 == 1 then 1 else 0
  }

  /** x & y */
  function And(x: int, y: int): int { ToInt32(Bits(ToUint32(x), ToUint32(y))) }

  // ---------------------------------------------------------------- the functions of the guard

  function Fold(acc: nat, octet: Octet): nat { ToUint32(ShiftLeft(acc, 8) + octet) }

  function Ipv4ToInt(q: Quad): nat { ToUint32(Fold(Fold(Fold(Fold(0, q.a), q.b), q.c), q.d)) }

  function Mask(prefix: nat): nat {
    if prefix == 0 then 0 else ToUint32(ShiftLeft(0xffff_ffff, (32 - prefix) % 32))
  }

  predicate Ipv4InCidr(ip: Quad, base: Quad, prefix: nat) {
    And(Ipv4ToInt(ip), Mask(prefix)) == And(Ipv4ToInt(base), Mask(prefix))
  }

  const BLOCKED_RANGES: seq<(Quad, nat)> := [
    (Quad(0, 0, 0, 0), 8), (Quad(10, 0, 0, 0), 8), (Quad(100, 64, 0, 0), 10), (Quad(127, 0, 0, 0), 8),
    (Quad(169, 254, 0, 0), 16), (Quad(172, 16, 0, 0), 12), (Quad(192, 0, 0, 0), 24), (Quad(192, 0, 2, 0), 24),
    (Quad(192, 168, 0, 0), 16), (Quad(198, 18, 0, 0), 15), (Quad(198, 51, 100, 0), 24), (Quad(203, 0, 113, 0), 24),
    (Quad(224, 0, 0, 0), 4), (Quad(240, 0, 0, 0), 4)]

  const BLOCKED_EXACT: set<Quad> := {Quad(169, 254, 169, 254), Quad(168, 63, 129, 16)}

  /** The check over a way to decide membership in a block. */
  predicate Blocked(ip: Quad, inCidr: (Quad, nat) -> bool) {
    ip in BLOCKED_EXACT || exists r :: r in BLOCKED_RANGES && inCidr(r.0, r.1)
  }

  predicate IsBlockedIpv4(ip: Quad) { Blocked(ip, (base: Quad, prefix: nat) => Ipv4InCidr(ip, base, prefix)) }

  // ---------------------------------------------------------------- the value of an address

  function Value(q: Quad): (r: nat)
    ensures r < WORD
  {
    ((q.a * 256 + q.b) * 256 + q.c) * 256 + q.d
  }

  lemma Pow2Of8()
    ensures Pow2(8) == 256
  {
    assert Pow2(4) == 16 && Pow2(8) == 2 * (2 * (2 * (2 * Pow2(4))));
  }

  /** Read as a signed word, a value is itself or one word less. */
  lemma SignedIsCongruent(x: nat)
    requires x < WORD
    ensures ToInt32(x) == x || ToInt32(x) == x - WORD
  {
  }

  lemma WordsComeBack(x: int, y: nat)
    requires y < WORD && (x == y || x == y - WORD)
    ensures ToUint32(x) == y
  {
  }

  lemma ShiftByEight(acc: nat, shifted: nat)
    requires acc < 0x100_0000 && shifted == acc * 256
    ensures ShiftLeft(acc, 8) == ToInt32(shifted)
  {
    Pow2Of8();
    assert ToInt32(acc) == acc;
  }

  /** Shifting in an octet never loses a bit of the first three. */
  lemma FoldIsBase256(acc: nat, octet: Octet)
    requires acc < 0x100_0000
    ensures Fold(acc, octet) == acc * 256 + octet
  {
    var shifted := acc * 256;
    ShiftByEight(acc, shifted);
    SignedIsCongruent(shifted);
    WordsComeBack(ToInt32(shifted) + octet, shifted + octet);
  }

  /** ipv4ToInt is the base-256 value, also for addresses beyond 2^31. */
  lemma Ipv4ToIntIsValue(q: Quad)
    ensures Ipv4ToInt(q) == Value(q)
  {
    var one: nat := q.a;
    var two: nat := one * 256 + q.b;
    var three: nat := two * 256 + q.c;
    FoldIsBase256(0, q.a);
    FoldIsBase256(one, q.b);
    FoldIsBase256(two, q.c);
    FoldIsBase256(three, q.d);
    WordsComeBack(three * 256 + q.d, three * 256 + q.d);
  }

  // ---------------------------------------------------------------- masks

  lemma Pow2Of32()
    ensures Pow2(32) == WORD
  {
    Pow2Of8();
    Pow2Adds(8, 8);
    Pow2Adds(16, 16);
  }

  lemma {:induction false} AllOnes(n: nat, x: nat)
    requires x < Pow2(n)
    ensures Bits(x, Pow2(n) - 1) == x
  {
    if n > 0 && x > 0 {
      assert (Pow2(n) - 1) / 2 == Pow2(n - 1) - 1 && (Pow2(n) - 1) % 2 == 1;
      AllOnes(n - 1, x / 2);
    }
  }

  lemma HalfRemainder(x: nat, m: nat)
    requires m >= 1
    ensures x % (2 * m) == 2 * (x / 2 % m) + x % 2
  {
    var q, r := x / 2 / m, x / 2 % m;
    assert x / 2 == q * m + r;
    assert x == (2 * m) * q + (2 * r + x % 2);
    DivModIs(x, 2 * m, q, 2 * r + x % 2);
  }

  lemma {:induction false} NextMultiple(m: nat, q: nat, q': nat)
    ensures q < q' ==> m * q + m <= m * q'
    decreases q'
  {
    if q < q' {
      assert m * q' == m * (q' - 1) + m;
      NextMultiple(m, q, q' - 1);
    }
  }

  lemma DivModIs(x: nat, m: nat, q: nat, r: nat)
    requires m >= 1 && r < m && x == m * q + r
    ensures x / m == q && x % m == r
  {
    assert x == m * (x / m) + x % m;
    NextMultiple(m, q, x / m);
    NextMultiple(m, x / m, q);
  }

  lemma EvenMask(x: nat, y: nat)
    ensures Bits(x, 2 * y) == 2 * Bits(x / 2, y)
  {
    if x > 0 && y > 0 {
      assert 2 * y / 2 == y && 2 * y % 2 == 0;
    } else {
      assert Bits(x, 2 * y) == 0;
    }
  }

  lemma HalfStep(x: nat, p: nat, q: nat)
    requires 1 <= q <= p && Bits(x / 2, p - q) == x / 2 - x / 2 % q
    ensures Bits(x, 2 * (p - q)) == x - x % (2 * q)
  {
    EvenMask(x, p - q);
    HalfRemainder(x, q);
    Doubled(x, x / 2, x / 2 % q, Bits(x / 2, p - q));
  }

  lemma Doubled(x: nat, half: nat, low: nat, b: nat)
    requires half == x / 2 && b == half - low
    ensures 2 * b == x - (2 * low + x % 2)
  {
  }

  /** The mask of all ones of p without those of q clears the remainder modulo q. */
  predicate Clears(x: nat, p: nat, q: nat) {
    1 <= q <= p && Bits(x, p - q) == x - x % q
  }

  lemma DoubledClears(x: nat, p: nat, q: nat, p': nat, q': nat)
    requires Clears(x / 2, p, q) && p' == 2 * p && q' == 2 * q
    ensures Clears(x, p', q')
  {
    HalfStep(x, p, q);
    assert p' - q' == 2 * (p - q);
  }

  /** The n-bit mask without its lowest k ones clears the remainder modulo 2^k. */
  lemma {:induction false} MaskClears(n: nat, k: nat, x: nat)
    requires k <= n && x < Pow2(n)
    ensures Clears(x, Pow2(n), Pow2(k))
  {
    if k == 0 {
      AllOnes(n, x);
      assert Pow2(k) == 1 && x % 1 == 0;
    } else {
      MaskClears(n - 1, k - 1, x / 2);
      DoubledClears(x, Pow2(n - 1), Pow2(k - 1), Pow2(n), Pow2(k));
    }
  }

  lemma MinusOneShifted(p: nat)
    requires 1 <= p <= WORD
    ensures ToUint32(ToInt32(-1 * p)) == WORD - p || p == WORD
  {
    if p < WORD {
      WordsComeBack(-1 * p, WORD - p);
    }
  }

  /** (0xffffffff << (32 - prefix)) >>> 0 */
  lemma MaskIs(prefix: nat)
    requires prefix <= 32
    ensures Pow2(32 - prefix) <= WORD && Mask(prefix) == WORD - Pow2(32 - prefix)
  {
    Pow2Of32();
    Pow2Grows(32 - prefix, 32);
    if prefix > 0 {
      HalfOfAWord(32 - prefix);
      assert ToInt32(0xffff_ffff) == -1;
      MinusOneShifted(Pow2(32 - prefix));
      ShiftedMask(prefix);
    }
  }

  /** A mask of at least one bit shifts by less than a word. */
  lemma HalfOfAWord(n: nat)
    requires n < 32
    ensures Pow2(n) < WORD
  {
    Pow2Of32();
    Pow2Grows(n, 31);
  }

  lemma ShiftedMask(prefix: nat)
    requires 0 < prefix <= 32 && ToInt32(0xffff_ffff) == -1
    ensures Mask(prefix) == ToUint32(ToInt32(-1 * Pow2(32 - prefix)))
  {
    assert (32 - prefix) % 32 % 32 == 32 - prefix;
  }

  lemma AndIs(x: nat, mask: nat)
    requires x < WORD && mask < WORD
    ensures And(x, mask) == ToInt32(Bits(x, mask))
  {
    WordsComeBack(x, x);
    WordsComeBack(mask, mask);
  }

  lemma BitsOfMask(x: nat, prefix: nat, size: nat, mask: nat, start: nat)
    requires x < WORD && prefix <= 32 && size == Pow2(32 - prefix) <= WORD && mask == WORD - size
      && start == x - x % size
    ensures Bits(x, mask) == start
  {
    Pow2Of32();
    MaskClears(32, 32 - prefix, x);
  }

  /** Masking clears the remainder: what is left is the start of the block. */
  lemma AndWithMask(x: nat, prefix: nat, size: nat, start: nat)
    requires x < WORD && prefix <= 32 && size == Pow2(32 - prefix) && start == x - x % size
    ensures And(x, Mask(prefix)) == ToInt32(start)
  {
    var mask := Mask(prefix);
    MaskIs(prefix);
    BitsOfMask(x, prefix, size, mask, start);
    AndIs(x, mask);
  }

  lemma ToInt32Separates(x: nat, y: nat)
    requires x < WORD && y < WORD
    ensures ToInt32(x) == ToInt32(y) <==> x == y
  {
  }

  lemma BlockStart(x: nat, m: nat)
    requires m >= 1
    ensures x - x % m == m * (x / m) && 0 <= m * (x / m) <= x
  {
  }

  /**
    * ipv4InCidr: the address lies in the block of 2^(32-prefix) addresses
    * that holds the base (section 3.1 of RFC 4632).
    */
  lemma InCidrIsBlock(ip: Quad, base: Quad, prefix: nat)
    requires prefix <= 32
    ensures Ipv4InCidr(ip, base, prefix) <==> InBlock(Value(ip), Value(base), Pow2(32 - prefix))
  {
    Ipv4ToIntIsValue(ip);
    Ipv4ToIntIsValue(base);
    MaskedAlike(Value(ip), Value(base), prefix);
    SameBlock(Value(ip), Value(base), Pow2(32 - prefix));
  }

  /** x is among the size addresses from the last multiple of size up to y on. */
  predicate InBlock(x: nat, y: nat, size: nat)
    requires size >= 1
  {
    size * (y / size) <= x < size * (y / size) + size
  }

  lemma MaskedAlike(x: nat, y: nat, prefix: nat)
    requires x < WORD && y < WORD && prefix <= 32
    ensures var size := Pow2(32 - prefix);
      And(x, Mask(prefix)) == And(y, Mask(prefix)) <==> x - x % size == y - y % size
  {
    var size := Pow2(32 - prefix);
    BlockStart(x, size);
    BlockStart(y, size);
    var a: nat, b: nat := x - x % size, y - y % size;
    AndWithMask(x, prefix, size, a);
    AndWithMask(y, prefix, size, b);
    ToInt32Separates(a, b);
  }

  lemma SameBlock(x: nat, y: nat, m: nat)
    requires m >= 1
    ensures x - x % m == y - y % m <==> InBlock(x, y, m)
  {
    BlockStart(x, m);
    BlockStart(y, m);
    var q := y / m;
    if m * q <= x < m * q + m {
      DivModIs(x, m, q, x - m * q);
    }
  }

  // ---------------------------------------------------------------- what is blocked

  /** The blocked values as intervals, first and last address included. */
  predicate InUnion(v: nat) {
    || v <= 0x00ff_ffff                      // 0.0.0.0/8
    || 0x0a00_0000 <= v <= 0x0aff_ffff       // 10.0.0.0/8
    || 0x6440_0000 <= v <= 0x647f_ffff       // 100.64.0.0/10
    || 0x7f00_0000 <= v <= 0x7fff_ffff       // 127.0.0.0/8
    || v == 0xa83f_8110                      // 168.63.129.16
    || 0xa9fe_0000 <= v <= 0xa9fe_ffff       // 169.254.0.0/16
    || 0xac10_0000 <= v <= 0xac1f_ffff       // 172.16.0.0/12
    || 0xc000_0000 <= v <= 0xc000_00ff       // 192.0.0.0/24
    || 0xc000_0200 <= v <= 0xc000_02ff       // 192.0.2.0/24
    || 0xc0a8_0000 <= v <= 0xc0a8_ffff       // 192.168.0.0/16
    || 0xc612_0000 <= v <= 0xc613_ffff       // 198.18.0.0/15
    || 0xc633_6400 <= v <= 0xc633_64ff       // 198.51.100.0/24
    || 0xcb00_7100 <= v <= 0xcb00_71ff       // 203.0.113.0/24
    || 0xe000_0000 <= v <= 0xffff_ffff       // 224.0.0.0/4 and 240.0.0.0/4
  }

  lemma Pow2Values()
    ensures Pow2(8) == 0x100 && Pow2(16) == 0x1_0000 && Pow2(17) == 0x2_0000 && Pow2(20) == 0x10_0000
    ensures Pow2(22) == 0x40_0000 && Pow2(24) == 0x100_0000 && Pow2(28) == 0x1000_0000
  {
    Pow2Of8();
    assert Pow2(1) == 2 && Pow2(4) == 16;
    Pow2Adds(8, 8);
    Pow2Adds(1, 16);
    Pow2Adds(4, 16);
    assert Pow2(22) == 2 * (2 * Pow2(20)) && Pow2(24) == 2 * (2 * Pow2(22));
    Pow2Adds(4, 24);
  }

  lemma RangeOf(v: nat, base: nat, size: nat)
    requires size >= 1 && base % size == 0
    ensures InBlock(v, base, size) <==> base <= v <= base + size - 1
  {
    BlockStart(base, size);
  }

  lemma LastDigit(x: nat, y: nat, r: Octet, t: Octet)
    requires x * 256 + r == y * 256 + t
    ensures x == y && r == t
  {
  }

  lemma ValueIsInjective(p: Quad, q: Quad)
    ensures Value(p) == Value(q) <==> p == q
  {
    if Value(p) == Value(q) {
      LastDigit((p.a * 256 + p.b) * 256 + p.c, (q.a * 256 + q.b) * 256 + q.c, p.d, q.d);
      LastDigit(p.a * 256 + p.b, q.a * 256 + q.b, p.c, q.c);
      LastDigit(p.a, q.a, p.b, q.b);
    }
  }

  ghost predicate DecidesBlocks(ip: Quad, inCidr: (Quad, nat) -> bool) {
    forall base: Quad, prefix: nat :: prefix <= 32 ==>
      (inCidr(base, prefix) <==> InBlock(Value(ip), Value(base), Pow2(32 - prefix)))
  }

  predicate WideRangesAre(v: nat, inCidr: (Quad, nat) -> bool) {
    && (inCidr(Quad(0, 0, 0, 0), 8) <==> v <= 0x00ff_ffff)
    && (inCidr(Quad(10, 0, 0, 0), 8) <==> 0x0a00_0000 <= v <= 0x0aff_ffff)
    && (inCidr(Quad(100, 64, 0, 0), 10) <==> 0x6440_0000 <= v <= 0x647f_ffff)
    && (inCidr(Quad(127, 0, 0, 0), 8) <==> 0x7f00_0000 <= v <= 0x7fff_ffff)
    && (inCidr(Quad(172, 16, 0, 0), 12) <==> 0xac10_0000 <= v <= 0xac1f_ffff)
    && (inCidr(Quad(224, 0, 0, 0), 4) <==> 0xe000_0000 <= v <= 0xefff_ffff)
    && (inCidr(Quad(240, 0, 0, 0), 4) <==> 0xf000_0000 <= v <= 0xffff_ffff)
  }

  predicate NarrowRangesAre(v: nat, inCidr: (Quad, nat) -> bool) {
    && (inCidr(Quad(169, 254, 0, 0), 16) <==> 0xa9fe_0000 <= v <= 0xa9fe_ffff)
    && (inCidr(Quad(192, 0, 0, 0), 24) <==> 0xc000_0000 <= v <= 0xc000_00ff)
    && (inCidr(Quad(192, 0, 2, 0), 24) <==> 0xc000_0200 <= v <= 0xc000_02ff)
    && (inCidr(Quad(192, 168, 0, 0), 16) <==> 0xc0a8_0000 <= v <= 0xc0a8_ffff)
    && (inCidr(Quad(198, 18, 0, 0), 15) <==> 0xc612_0000 <= v <= 0xc613_ffff)
    && (inCidr(Quad(198, 51, 100, 0), 24) <==> 0xc633_6400 <= v <= 0xc633_64ff)
    && (inCidr(Quad(203, 0, 113, 0), 24) <==> 0xcb00_7100 <= v <= 0xcb00_71ff)
  }

  lemma WideRanges(ip: Quad, inCidr: (Quad, nat) -> bool)
    requires DecidesBlocks(ip, inCidr)
    ensures WideRangesAre(Value(ip), inCidr)
  {
    Pow2Values();
    RangeOf(Value(ip), 0, 0x100_0000);
    assert inCidr(Quad(0, 0, 0, 0), 8) <==> InBlock(Value(ip), 0, 0x100_0000);
    RangeOf(Value(ip), 0x0a00_0000, 0x100_0000);
    assert inCidr(Quad(10, 0, 0, 0), 8) <==> InBlock(Value(ip), 0x0a00_0000, 0x100_0000);
    RangeOf(Value(ip), 0x6440_0000, 0x40_0000);
    assert inCidr(Quad(100, 64, 0, 0), 10) <==> InBlock(Value(ip), 0x6440_0000, 0x40_0000);
    RangeOf(Value(ip), 0x7f00_0000, 0x100_0000);
    assert inCidr(Quad(127, 0, 0, 0), 8) <==> InBlock(Value(ip), 0x7f00_0000, 0x100_0000);
    RangeOf(Value(ip), 0xac10_0000, 0x10_0000);
    assert inCidr(Quad(172, 16, 0, 0), 12) <==> InBlock(Value(ip), 0xac10_0000, 0x10_0000);
    RangeOf(Value(ip), 0xe000_0000, 0x1000_0000);
    assert inCidr(Quad(224, 0, 0, 0), 4) <==> InBlock(Value(ip), 0xe000_0000, 0x1000_0000);
    RangeOf(Value(ip), 0xf000_0000, 0x1000_0000);
    assert inCidr(Quad(240, 0, 0, 0), 4) <==> InBlock(Value(ip), 0xf000_0000, 0x1000_0000);
  }

  lemma NarrowRanges(ip: Quad, inCidr: (Quad, nat) -> bool)
    requires DecidesBlocks(ip, inCidr)
    ensures NarrowRangesAre(Value(ip), inCidr)
  {
    Pow2Values();
    RangeOf(Value(ip), 0xa9fe_0000, 0x1_0000);
    assert inCidr(Quad(169, 254, 0, 0), 16) <==> InBlock(Value(ip), 0xa9fe_0000, 0x1_0000);
    RangeOf(Value(ip), 0xc000_0000, 0x100);
    assert inCidr(Quad(192, 0, 0, 0), 24) <==> InBlock(Value(ip), 0xc000_0000, 0x100);
    RangeOf(Value(ip), 0xc000_0200, 0x100);
    assert inCidr(Quad(192, 0, 2, 0), 24) <==> InBlock(Value(ip), 0xc000_0200, 0x100);
    RangeOf(Value(ip), 0xc0a8_0000, 0x1_0000);
    assert inCidr(Quad(192, 168, 0, 0), 16) <==> InBlock(Value(ip), 0xc0a8_0000, 0x1_0000);
    RangeOf(Value(ip), 0xc612_0000, 0x2_0000);
    assert inCidr(Quad(198, 18, 0, 0), 15) <==> InBlock(Value(ip), 0xc612_0000, 0x2_0000);
    RangeOf(Value(ip), 0xc633_6400, 0x100);
    assert inCidr(Quad(198, 51, 100, 0), 24) <==> InBlock(Value(ip), 0xc633_6400, 0x100);
    RangeOf(Value(ip), 0xcb00_7100, 0x100);
    assert inCidr(Quad(203, 0, 113, 0), 24) <==> InBlock(Value(ip), 0xcb00_7100, 0x100);
  }

  lemma BlocksAreUnion(ip: Quad, inCidr: (Quad, nat) -> bool)
    requires WideRangesAre(Value(ip), inCidr) && NarrowRangesAre(Value(ip), inCidr)
    ensures Blocked(ip, inCidr) <==> InUnion(Value(ip))
  {
    ValueIsInjective(ip, Quad(168, 63, 129, 16));
    ValueIsInjective(ip, Quad(169, 254, 169, 254));
  }

  lemma UnionIfDecides(ip: Quad, inCidr: (Quad, nat) -> bool)
    requires DecidesBlocks(ip, inCidr)
    ensures Blocked(ip, inCidr) <==> InUnion(Value(ip))
  {
    WideRanges(ip, inCidr);
    NarrowRanges(ip, inCidr);
    BlocksAreUnion(ip, inCidr);
  }

  /** isBlockedIpv4 is membership in a union of intervals and one single address. */
  lemma BlockedIsUnion(ip: Quad)
    ensures IsBlockedIpv4(ip) <==> InUnion(Value(ip))
  {
    var inCidr := (base: Quad, prefix: nat) => Ipv4InCidr(ip, base, prefix);
    forall base: Quad, prefix: nat | prefix <= 32
      ensures inCidr(base, prefix) <==> InBlock(Value(ip), Value(base), Pow2(32 - prefix))
    {
      InCidrIsBlock(ip, base, prefix);
    }
    UnionIfDecides(ip, inCidr);
  }
}
