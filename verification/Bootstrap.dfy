// Address arithmetic: the subnet of a node, its gateway and its underlay address. IPv4
// addresses are numbers below 2^32; Go's conversions and 32-bit sums are written out.
module Bootstrap {
  import opened Api
  import opened Arithmetic

  const INT64: nat := 0x1_0000_0000_0000_0000
  const POD_CIDR := Prefix(0x0AF4_0000, 16)
  const UNDERLAY_CIDR := Prefix(0x0AC8_0000, 24)
  const NODE_PREFIX: nat := 24
  const GATEWAY_HOST: nat := 1
  const FIRST_NODE_HOST: nat := 2

  datatype Prefix = Prefix(address: nat, bits: nat)

  datatype AddressError = NoSubnet | NegativeIndex | DoesNotFit

  function Pow2(n: nat): (p: nat)
    ensures p > 0
  {
    if n == 0 then 1 else 2 * Pow2(n - 1)
  }

  // The number of addresses a prefix length leaves.
  function SizeOf(bits: nat): (size: nat)
    requires bits <= 32
    ensures size > 0
  {
    Pow2(32 - bits)
  }

  predicate IsAddress(a: nat) { a < WORD }

  // An int on a 64-bit machine.
  predicate IsInt(i: int) { -(INT64 / 2) <= i && i < INT64 / 2 }

  function Masked(prefix: Prefix): nat
    requires prefix.bits <= 32
  {
    RoundedDown(prefix.address, SizeOf(prefix.bits))
  }

  predicate Contains(prefix: Prefix, a: nat)
    requires prefix.bits <= 32
  {
    Masked(prefix) <= a < Masked(prefix) + SizeOf(prefix.bits)
  }

  // ---------- powers of two ----------

  lemma {:induction false} Pow2Adds(a: nat, b: nat)
    ensures Pow2(a + b) == Pow2(a) * Pow2(b)
  {
    if a > 0 {
      Pow2Adds(a - 1, b);
    }
  }

  lemma {:induction false} Pow2Grows(a: nat, b: nat)
    requires a < b
    ensures 2 * Pow2(a) <= Pow2(b)
  {
    if a + 1 < b {
      Pow2Grows(a, b - 1);
    }
  }

  lemma Pow2Values()
    ensures Pow2(8) == 256 && Pow2(16) == 0x1_0000 && Pow2(32) == WORD
  {
    assert Pow2(8) == 256;
    Pow2Adds(8, 8);
    Pow2Adds(16, 16);
  }

  lemma SizesDivide(p: nat, bits: nat)
    requires p <= bits <= 32
    ensures SizeOf(p) == Pow2(bits - p) * SizeOf(bits)
  {
    Pow2Adds(bits - p, 32 - bits);
  }

  lemma MaskedIsAligned(prefix: Prefix)
    requires prefix.bits <= 32 && IsAddress(prefix.address)
    ensures Masked(prefix) % SizeOf(prefix.bits) == 0
    ensures Masked(prefix) <= prefix.address < Masked(prefix) + SizeOf(prefix.bits) <= WORD
  {
    hide Pow2;
    Pow2Values();
    Pow2Adds(prefix.bits, 32 - prefix.bits);
    RoundingDown(prefix.address, SizeOf(prefix.bits), Pow2(prefix.bits));
  }

  // ---------- subnets ----------

  // The check compares 64-bit words, the sum is one of 32-bit words.
  function Subnet(prefix: Prefix, bits: nat, index: int): Result<Prefix, AddressError>
    requires prefix.bits <= bits <= 32
  {
    var available := bits - prefix.bits;
    if available < 32 && index % INT64 >= Pow2(available) then Failure(NoSubnet)
    else
      var size := SizeOf(bits) % WORD;
      Success(Prefix((Masked(prefix) + (index % WORD) * size % WORD) % WORD, bits))
  }

  lemma SmallWords(index: int, limit: nat)
    requires IsInt(index) && limit <= WORD
    ensures index % INT64 < limit <==> 0 <= index < limit
    ensures 0 <= index < limit ==> index % WORD == index
  {
    if index < 0 {
      assert index % INT64 == index + INT64 by {
        assert (index + INT64) % INT64 == index + INT64;
      }
    }
  }

  lemma SubnetFits(q: nat, index: nat, count: nat, size: nat)
    requires index < count && 0 < size
    ensures index * size + size <= count * size
    ensures (q * (count * size) + index * size) % size == 0
  {
    ProductsGrow(index + 1, count, size);
    Distributes(index, 1, size);
    ProductsAssociate(q, count, size);
    Distributes(q * count, index, size);
    MultipleHasNoRest(q * count + index, size);
  }

  // A subnet is granted exactly for the indices 0 to 2^(bits - p) - 1. Its 32-bit arithmetic
  // does not wrap, and the result is aligned and lies within the prefix.
  lemma SubnetIsExact(prefix: Prefix, bits: nat, index: int)
    requires prefix.bits <= bits <= 32 && bits - prefix.bits < 32 && IsAddress(prefix.address) && IsInt(index)
    ensures Subnet(prefix, bits, index).Success? <==> 0 <= index < Pow2(bits - prefix.bits)
    ensures Subnet(prefix, bits, index).Success? ==>
      var s := Subnet(prefix, bits, index).value;
      && s.bits == bits && s.address == Masked(prefix) + index * SizeOf(bits)
      && s.address % SizeOf(bits) == 0
      && Masked(prefix) <= s.address && s.address + SizeOf(bits) <= Masked(prefix) + SizeOf(prefix.bits) <= WORD
  {
    hide SizeOf, Pow2;
    var available := bits - prefix.bits;
    PowersAreWords(available);
    SmallWords(index, Pow2(available));
    if 0 <= index < Pow2(available) {
      MaskedIsAligned(prefix);
      SizesDivide(prefix.bits, bits);
      SubnetFits(prefix.address / SizeOf(prefix.bits), index, Pow2(available), SizeOf(bits));
      NoWrap(Masked(prefix), index, SizeOf(bits), bits);
    }
  }

  lemma PowersAreWords(n: nat)
    requires n < 32
    ensures Pow2(n) < WORD
  {
    Pow2Values();
    Pow2Grows(n, 32);
  }

  lemma NoWrap(base: nat, index: nat, size: nat, bits: nat)
    requires bits <= 32 && size == SizeOf(bits) && base + index * size + size <= WORD
    ensures (base + index * (size % WORD) % WORD) % WORD == base + index * size
  {
    hide Pow2;
    Pow2Values();
    if bits > 0 {
      PowersAreWords(32 - bits);
    } else {
      OnlyTheFirst(base, index, size);
    }
  }

  lemma OnlyTheFirst(base: nat, index: nat, size: nat)
    requires size == WORD && base + index * size + size <= WORD
    ensures base == 0 && index * size == 0 && index == 0
  {
  }

  lemma GrantedSubnetsAreAligned(prefix: Prefix, bits: nat, index: int)
    requires prefix.bits <= bits <= 32 && bits - prefix.bits < 32 && IsAddress(prefix.address) && IsInt(index)
    requires Subnet(prefix, bits, index).Success?
    ensures Masked(Subnet(prefix, bits, index).value) == Masked(prefix) + index * SizeOf(bits)
    ensures forall a :: Contains(Subnet(prefix, bits, index).value, a) ==> Contains(prefix, a)
  {
    hide Subnet, Pow2, SizeOf;
    SubnetIsExact(prefix, bits, index);
    MultiplesAreRound(Subnet(prefix, bits, index).value.address, SizeOf(bits));
  }

  // No address lies in the subnets of two indices.
  lemma SubnetsAreDisjoint(prefix: Prefix, bits: nat, i: int, j: int, a: nat)
    requires prefix.bits <= bits <= 32 && bits - prefix.bits < 32 && IsAddress(prefix.address) && IsInt(i) && IsInt(j)
    requires Subnet(prefix, bits, i).Success? && Subnet(prefix, bits, j).Success?
    requires Contains(Subnet(prefix, bits, i).value, a) && Contains(Subnet(prefix, bits, j).value, a)
    ensures i == j
  {
    GrantedSubnetsAreAligned(prefix, bits, i);
    GrantedSubnetsAreAligned(prefix, bits, j);
    SameSlot(i, j, SizeOf(bits), a - Masked(prefix));
  }

  lemma SameSlot(i: int, j: int, m: nat, offset: int)
    requires i * m <= offset < i * m + m && j * m <= offset < j * m + m
    ensures i == j
  {
    assert (i - j) * m == i * m - j * m;
    SmallMultipleIsZero(i - j, m);
  }

  // ---------- nodes ----------

  // netip.Addr.As4 with the last byte replaced.
  function WithHost(network: nat, host: nat): nat { network - network % 256 + host }

  function NodeNetwork(index: int): Result<(Prefix, nat), AddressError>
  {
    match Subnet(POD_CIDR, NODE_PREFIX, index)
    case Failure(e) => Failure(e)
    case Success(podCIDR) => Success((podCIDR, WithHost(podCIDR.address, GATEWAY_HOST)))
  }

  // The sum of host number and index is cut to 32 bits before it is checked.
  function NodeUnderlayAddress(index: int): Result<nat, AddressError>
  {
    if index < 0 then Failure(NegativeIndex)
    else
      var host := (FIRST_NODE_HOST + index) % WORD;
      if host >= SizeOf(UNDERLAY_CIDR.bits) % WORD then Failure(DoesNotFit)
      else Success((UNDERLAY_CIDR.address + host) % WORD)
  }

  lemma Sizes()
    ensures SizeOf(24) == 256 && SizeOf(16) == 0x1_0000 && Pow2(8) == 256
  {
    Pow2Values();
  }

  // There are networks for 256 nodes; each is the /24 numbered by the index, with its gateway
  // at host 1.
  lemma NodeNetworksAreExact(index: int)
    requires IsInt(index)
    ensures NodeNetwork(index).Success? <==> 0 <= index < 256
    ensures NodeNetwork(index).Success? ==>
      && NodeNetwork(index).value.0 == Prefix(POD_CIDR.address + 256 * index, 24)
      && Masked(NodeNetwork(index).value.0) == POD_CIDR.address + 256 * index
      && NodeNetwork(index).value.1 == POD_CIDR.address + 256 * index + 1
      && Contains(NodeNetwork(index).value.0, NodeNetwork(index).value.1)
  {
    Sizes();
    SubnetIsExact(POD_CIDR, NODE_PREFIX, index);
  }

  lemma NodeNetworksAreDisjoint(i: int, j: int, a: nat)
    requires IsInt(i) && IsInt(j) && NodeNetwork(i).Success? && NodeNetwork(j).Success?
    requires Contains(NodeNetwork(i).value.0, a) && Contains(NodeNetwork(j).value.0, a)
    ensures i == j
  {
    SubnetsAreDisjoint(POD_CIDR, NODE_PREFIX, i, j, a);
  }

  // An index has an underlay address exactly when, cut to 32 bits, its host number is below
  // 256; the addresses of two such indices agree exactly when the indices do modulo 2^32.
  // Host 255, the broadcast address of the network, is among them.
  lemma UnderlayAddressesAreExact(i: int, j: int)
    ensures NodeUnderlayAddress(i).Success? <==> i >= 0 && (i + 2) % WORD < 256
    ensures NodeUnderlayAddress(i).Success? ==>
      NodeUnderlayAddress(i).value == UNDERLAY_CIDR.address + (i + 2) % WORD &&
        Contains(UNDERLAY_CIDR, NodeUnderlayAddress(i).value)
    ensures NodeUnderlayAddress(i).Success? && NodeUnderlayAddress(j).Success? ==>
      (NodeUnderlayAddress(i) == NodeUnderlayAddress(j) <==> (i - j) % WORD == 0)
  {
    hide SizeOf;
    Sizes();
    SameRests(i, j);
  }

  lemma SameRests(i: int, j: int)
    ensures (i + 2) % WORD == (j + 2) % WORD <==> (i - j) % WORD == 0
  {
  }

  // Below 2^32 - 2 there is no wrap-around: the first 254 indices have addresses, all distinct.
  lemma SmallIndicesHaveTheirOwnAddress(i: int)
    requires i < WORD - 2
    ensures NodeUnderlayAddress(i).Success? <==> 0 <= i < 254
    ensures NodeUnderlayAddress(i).Success? ==> NodeUnderlayAddress(i).value == UNDERLAY_CIDR.address + 2 + i
  {
    UnderlayAddressesAreExact(i, i);
  }

  // Beyond that an index may get the address of another one, or the network address itself.
  lemma LargeIndicesWrapAround()
    ensures NodeUnderlayAddress(WORD - 2) == Success(UNDERLAY_CIDR.address)
    ensures NodeUnderlayAddress(WORD) == NodeUnderlayAddress(0)
  {
    UnderlayAddressesAreExact(WORD - 2, WORD - 2);
    UnderlayAddressesAreExact(WORD, 0);
  }
}
