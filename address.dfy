/**
 * IP addresses and their split into the IPv4 and IPv6 families
 * (`obtemIpsPeloNome` in both newer orchestrators, the inline loop in the old one).
 */
module Address {

  /** An `InetAddress`: an `Inet4Address` or (every other case) an `Inet6Address`. */
  datatype Addr = V4(bits: int) | V6(bits: int)

  predicate IsV4(a: Addr)
  {
    a.V4?
  }

  /** The addresses of `s` whose family is IPv4 (when `v4`) or IPv6, in their order in `s`. */
  function Family(s: seq<Addr>, v4: bool): (f: seq<Addr>)
    ensures |f| <= |s|
  {
    if s == [] then []
    else
      var rest := Family(s[..|s| - 1], v4);
      if IsV4(s[|s| - 1]) == v4 then rest + [s[|s| - 1]] else rest
  }

  /** The positions in `s` of the addresses of that family, in increasing order. */
  function FamilyPositions(s: seq<Addr>, v4: bool): (p: seq<nat>)
    ensures |p| <= |s|
  {
    if s == [] then []
    else
      var rest := FamilyPositions(s[..|s| - 1], v4);
      if IsV4(s[|s| - 1]) == v4 then rest + [|s| - 1] else rest
  }

  /**
   * The family list is exactly the family's addresses of `s`, taken at strictly
   * increasing positions and missing none: the split preserves relative order.
   */
  lemma {:induction false} FamilyIsOrderedSubsequence(s: seq<Addr>, v4: bool)
    ensures |FamilyPositions(s, v4)| == |Family(s, v4)|
    ensures forall k :: 0 <= k < |FamilyPositions(s, v4)| ==>
              FamilyPositions(s, v4)[k] < |s| && s[FamilyPositions(s, v4)[k]] == Family(s, v4)[k]
    ensures forall k, l :: 0 <= k < l < |FamilyPositions(s, v4)| ==>
              FamilyPositions(s, v4)[k] < FamilyPositions(s, v4)[l]
    ensures forall i :: 0 <= i < |s| && IsV4(s[i]) == v4 ==> i in FamilyPositions(s, v4)
  {
    if s != [] {
      var init := s[..|s| - 1];
      FamilyIsOrderedSubsequence(init, v4);
      forall i | 0 <= i < |init| ensures s[i] == init[i] { }
    }
  }

  /** Every address lands in exactly one of the two lists, and only in the list of its family. */
  lemma {:induction false} FamiliesPartition(s: seq<Addr>)
    ensures multiset(Family(s, true)) + multiset(Family(s, false)) == multiset(s)
    ensures forall a :: a in Family(s, true) ==> IsV4(a)
    ensures forall a :: a in Family(s, false) ==> !IsV4(a)
  {
    if s != [] {
      var init := s[..|s| - 1];
      FamiliesPartition(init);
      assert s == init + [s[|s| - 1]];
    }
  }

  /** A family list only holds addresses of the resolved list. */
  lemma FamilyMembers(s: seq<Addr>, v4: bool, a: Addr)
    requires a in Family(s, v4)
    ensures a in s
  {
    FamiliesPartition(s);
    assert a in multiset(Family(s, v4));
  }

  /**
   * The split loop: each resolved address is appended to the IPv4 list when it
   * is an `Inet4Address` and to the IPv6 list otherwise.
   */
  method SplitByFamily(enderecos: seq<Addr>) returns (ipv4: seq<Addr>, ipv6: seq<Addr>)
    ensures ipv4 == Family(enderecos, true)
    ensures ipv6 == Family(enderecos, false)
  {
    ipv4, ipv6 := [], [];
    var i := 0;
    while i < |enderecos|
      invariant 0 <= i <= |enderecos|
      invariant ipv4 == Family(enderecos[..i], true)
      invariant ipv6 == Family(enderecos[..i], false)
    {
      assert enderecos[..i + 1][..i] == enderecos[..i];
      if IsV4(enderecos[i]) {
        ipv4 := ipv4 + [enderecos[i]];
      } else {
        ipv6 := ipv6 + [enderecos[i]];
      }
      i := i + 1;
    }
    assert enderecos[..i] == enderecos;
  }
}
