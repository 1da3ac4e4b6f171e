/** A value model of the address types of Go's `net` package and of the
    prefix trie (`cidranger`) the policy engine stores its networks in.

    An address is the sequence of its bits, 32 of them for IPv4 and 128 for
    IPv6. A network is a base address and a prefix length. A trie is the set
    of networks inserted into it; it contains an address when one of those
    networks covers the address. */
module Cidr {
  import opened Wrappers

  /** An IP address, most significant bit first. */
  datatype IP = IP(bits: seq<bool>)

  /** A network (`net.IPNet`): every address that agrees with `base` on the
      first `prefixLen` bits and has the same length as `base`. */
  datatype Network = Network(base: seq<bool>, prefixLen: nat)

  /** Errors of `net.ParseCIDR` and of the trie. */
  datatype CidrError =
    | InvalidCidrAddress(text: string)      // net.ParseCIDR rejected this text
    | InvalidNetworkInput(network: Network) // the trie refused to insert this network
    | InvalidIPInput(ip: IP)                // the trie refused to look up this address

  /** The two address lengths the trie keeps a sub-trie for. */
  predicate IsAddressLength(n: nat) {
    n == 32 || n == 128
  }

  /** `n` covers `ip`: same address family and the same leading `prefixLen` bits. */
  predicate Covers(n: Network, ip: IP) {
    |ip.bits| == |n.base| && n.prefixLen <= |n.base| &&
    ip.bits[..n.prefixLen] == n.base[..n.prefixLen]
  }

  /** A network the trie accepts: an IPv4 or IPv6 base and a prefix that fits it. */
  predicate Insertable(n: Network) {
    IsAddressLength(|n.base|) && n.prefixLen <= |n.base|
  }

  /** The prefix trie, as the set of networks that were inserted into it. */
  datatype Trie = Trie(nets: set<Network>) {

    /** Inserts `n`; fails, and leaves nothing to use, on a malformed network. */
    function Insert(n: Network): (r: Result<Trie, CidrError>)
      ensures r.Ok? <==> Insertable(n)
      ensures r.Ok? ==> r.value.nets == nets + {n}
      ensures r.Err? ==> r.error == InvalidNetworkInput(n)
    {
      if Insertable(n) then Ok(Trie(nets + {n})) else Err(InvalidNetworkInput(n))
    }

    /** Whether some inserted network covers `ip`; an address of neither
        family is an error. */
    function Contains(ip: IP): (r: Result<bool, CidrError>)
      ensures r.Err? <==> !IsAddressLength(|ip.bits|)
      ensures r.Ok? ==> (r.value <==> exists n :: n in nets && Covers(n, ip))
    {
      if !IsAddressLength(|ip.bits|) then Err(InvalidIPInput(ip))
      else Ok(exists n :: n in nets && Covers(n, ip))
    }
  }

  /** `cidranger.NewPCTrieRanger()`: a trie that contains no address. */
  function NewTrie(): (t: Trie)
    ensures forall ip :: t.Contains(ip) != Ok(true)
  {
    Trie({})
  }

  /** After inserting `n`, the trie contains exactly what it contained before
      plus the addresses `n` covers. */
  lemma InsertThenContains(t: Trie, n: Network, ip: IP)
    requires Insertable(n) && IsAddressLength(|ip.bits|)
    ensures t.Insert(n).Ok?
    ensures t.Insert(n).value.Contains(ip) == Ok(t.Contains(ip).value || Covers(n, ip))
  {
  }
}
