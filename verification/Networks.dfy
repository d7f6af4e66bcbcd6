/** IP networks as the program's address library sees them: a version, a masked address and a prefix length. */
module Networks {
  datatype Net = Net(v6: bool, addr: nat, prefix: nat)

  function Pow2(n: nat): (p: nat)
    ensures p >= 1
  {
    if n == 0 then 1 else 2 * Pow2(n - 1)
  }

  function Width(v6: bool): nat {
    if v6 then 128 else 32
  }

  // The number of addresses in the network.
  function Size(n: Net): (s: nat)
    ensures s >= 1
  {
    if n.prefix <= Width(n.v6) then Pow2(Width(n.v6) - n.prefix) else 1
  }

  predicate Canonical(n: Net) {
    n.prefix <= Width(n.v6) && n.addr == n.addr / Size(n) * Size(n)
  }

  predicate IsHost(n: Net) {
    n.prefix == Width(n.v6)
  }

  function First(n: Net): nat {
    n.addr
  }

  function Last(n: Net): nat {
    n.addr + Size(n) - 1
  }

  // An address of one version.
  datatype Address = Address(v6: bool, value: nat)

  predicate Covers(n: Net, x: Address) {
    n.v6 == x.v6 && First(n) <= x.value <= Last(n)
  }

  predicate SubnetOf(a: Net, b: Net) {
    a.v6 == b.v6 && First(b) <= First(a) && Last(a) <= Last(b)
  }

  predicate Overlap(a: Net, b: Net) {
    a.v6 == b.v6 && First(a) <= Last(b) && First(b) <= Last(a)
  }

  lemma {:induction false} Pow2Sum(m: nat, n: nat)
    ensures Pow2(m + n) == Pow2(m) * Pow2(n)
  {
    if m > 0 {
      Pow2Sum(m - 1, n);
      assert 2 * (Pow2(m - 1) * Pow2(n)) == (2 * Pow2(m - 1)) * Pow2(n);
    }
  }

  lemma MulMonotone(a: int, b: int, m: nat)
    requires a <= b
    ensures a * m <= b * m
  {
  }

  lemma DivideBounds(x: nat, m: nat)
    requires m > 0
    ensures x / m * m <= x < x / m * m + m
  {
  }

  // On a grid of step m, two cells that meet the same half-open range agree.
  lemma GridCell(c: nat, d: nat, x: nat, m: nat)
    requires m > 0 && c * m <= x < c * m + m && d * m <= x < d * m + m
    ensures c == d
  {
    assert c * m + m == (c + 1) * m && d * m + m == (d + 1) * m;
    if c < d { MulMonotone(c + 1, d, m); }
    if d < c { MulMonotone(d + 1, c, m); }
  }

  // The network of a given size that covers x starts at x with the low bits cleared.
  lemma MaskFinds(x: nat, addr: nat, size: nat)
    requires size > 0 && addr == addr / size * size
    ensures x / size * size == addr <==> addr <= x < addr + size
  {
    DivideBounds(x, size);
    if addr <= x < addr + size { GridCell(x / size, addr / size, x, size); }
  }

  // A cell that overlaps a block of k cells starting at cell q lies inside the block.
  lemma CellInBlock(p: nat, q: nat, k: nat, m: nat)
    requires m > 0 && p * m < (q + k) * m && q * m < (p + 1) * m
    ensures q * m <= p * m && (p + 1) * m <= (q + k) * m
  {
    if p < q { MulMonotone(p + 1, q, m); }
    if q + k < p + 1 { MulMonotone(q + k, p, m); }
    MulMonotone(q, p, m);
    MulMonotone(p + 1, q + k, m);
  }

  // The same for addresses: `x` is cell p, `y` starts a block of k cells aligned to its own length.
  lemma BlocksNest(x: nat, y: nat, p: nat, q: nat, k: nat, m: nat)
    requires m > 0 && x == p * m && y == q * (k * m)
    requires x <= y + k * m - 1 && y <= x + m - 1
    ensures y <= x && x + m <= y + k * m
  {
    assert q * (k * m) == (q * k) * m;
    assert (q * k + k) * m == (q * k) * m + k * m;
    assert (p + 1) * m == p * m + m;
    CellInBlock(p, q * k, k, m);
  }

  /** Networks are nested or disjoint: two that overlap contain one another, the longer prefix inside. */
  lemma Laminar(a: Net, b: Net)
    requires Canonical(a) && Canonical(b) && Overlap(a, b) && a.prefix >= b.prefix
    ensures SubnetOf(a, b)
  {
    var w := Width(a.v6);
    Pow2Sum(a.prefix - b.prefix, w - a.prefix);
    BlocksNest(a.addr, b.addr, a.addr / Size(a), b.addr / Size(b), Pow2(a.prefix - b.prefix), Size(a));
  }

  /** One network is inside another exactly if the other covers all its addresses, and two overlap exactly if they share
      one. */
  lemma CoversMeans(a: Net, b: Net)
    ensures SubnetOf(a, b) <==> forall x :: Covers(a, x) ==> Covers(b, x)
    ensures Overlap(a, b) <==> exists x :: Covers(a, x) && Covers(b, x)
  {
    var first, last := Address(a.v6, First(a)), Address(a.v6, Last(a));
    assert Covers(a, first) && Covers(a, last);
    if Overlap(a, b) {
      var x := Address(a.v6, if First(a) < First(b) then First(b) else First(a));
      assert Covers(a, x) && Covers(b, x);
    }
  }

  /** A host is one address, each bit less of the prefix twice as many. */
  lemma SizesDouble(n: Net)
    requires n.prefix <= Width(n.v6)
    ensures IsHost(n) ==> First(n) == Last(n)
    ensures n.prefix > 0 ==> Size(n.(prefix := n.prefix - 1)) == 2 * Size(n)
  {
  }

  lemma KnownPowers()
    ensures Pow2(8) == 256 && Pow2(16) == 65536 && Pow2(32) == 0x1_0000_0000
  {
    assert Pow2(4) == 16;
    Pow2Sum(4, 4);
    Pow2Sum(8, 8);
    Pow2Sum(16, 16);
  }

  // All of IPv4 has 2^32 addresses, and half of an IPv6 address spans 2^64.
  lemma KnownSizes()
    ensures Size(Net(false, 0, 0)) == 0x1_0000_0000 && Size(Net(false, 0, 24)) == 256
    ensures Size(Net(true, 0, 64)) == 0x1_0000_0000_0000_0000
  {
    KnownPowers();
    Pow2Sum(32, 32);
  }
}
