/** The endpoint list of a server descriptor. */
module Flatten {
  import opened Wire

  function AddressEndpoints(a: IpAddress, n: nat): seq<Endpoint>
    requires n <= |a.protocolAndPorts|
  {
    if n == 0 then []
    else
      var p := a.protocolAndPorts[n - 1];
      AddressEndpoints(a, n - 1) + [Endpoint(a.ip, p.port, p.protocol)]
  }

  // The endpoints of the first n addresses, in order.
  function Prefix(ips: seq<IpAddress>, n: nat): seq<Endpoint>
    requires n <= |ips|
  {
    if n == 0 then [] else Prefix(ips, n - 1) + AddressEndpoints(ips[n - 1], |ips[n - 1].protocolAndPorts|)
  }

  function Endpoints(ips: seq<IpAddress>): seq<Endpoint> {
    Prefix(ips, |ips|)
  }

  // How many endpoints the first n addresses have.
  function Offset(ips: seq<IpAddress>, n: nat): nat
    requires n <= |ips|
  {
    if n == 0 then 0 else Offset(ips, n - 1) + |ips[n - 1].protocolAndPorts|
  }

  /** The nested loops over the addresses and their protocols and ports. */
  method CollectEndpoints(ips: seq<IpAddress>) returns (endpoints: seq<Endpoint>)
    ensures endpoints == Endpoints(ips)
  {
    endpoints := [];
    for i := 0 to |ips|
      invariant endpoints == Prefix(ips, i)
    {
      var a := ips[i];
      for j := 0 to |a.protocolAndPorts|
        invariant endpoints == Prefix(ips, i) + AddressEndpoints(a, j)
      {
        endpoints := endpoints + [Endpoint(a.ip, a.protocolAndPorts[j].port, a.protocolAndPorts[j].protocol)];
      }
    }
  }

  lemma {:induction false} AddressAt(a: IpAddress, n: nat, j: nat)
    requires j < n <= |a.protocolAndPorts|
    ensures |AddressEndpoints(a, n)| == n
    ensures var p := a.protocolAndPorts[j]; AddressEndpoints(a, n)[j] == Endpoint(a.ip, p.port, p.protocol)
  {
    if n > 1 {
      AddressAt(a, n - 1, if j < n - 1 then j else 0);
    }
  }

  lemma {:induction false} PrefixLength(ips: seq<IpAddress>, n: nat)
    requires n <= |ips|
    ensures |Prefix(ips, n)| == Offset(ips, n)
  {
    if n > 0 {
      PrefixLength(ips, n - 1);
      var a := ips[n - 1];
      if |a.protocolAndPorts| > 0 {
        AddressAt(a, |a.protocolAndPorts|, 0);
      }
    }
  }

  lemma {:induction false} PrefixAt(ips: seq<IpAddress>, n: nat, i: nat, j: nat)
    requires i < n <= |ips| && j < |ips[i].protocolAndPorts|
    ensures Offset(ips, i) + j < |Prefix(ips, n)|
    ensures var p := ips[i].protocolAndPorts[j];
      Prefix(ips, n)[Offset(ips, i) + j] == Endpoint(ips[i].ip, p.port, p.protocol)
  {
    PrefixLength(ips, n);
    PrefixLength(ips, n - 1);
    if i == n - 1 {
      AddressAt(ips[i], |ips[i].protocolAndPorts|, j);
    } else {
      PrefixAt(ips, n - 1, i, j);
    }
  }

  /**
   The j-th pair of address i stands at the sum of the pair counts before i, plus
   j, and the list has as many endpoints as there are pairs.
   */
  lemma {:induction false} EndpointAt(ips: seq<IpAddress>, i: nat, j: nat)
    requires i < |ips| && j < |ips[i].protocolAndPorts|
    ensures |Endpoints(ips)| == Offset(ips, |ips|)
    ensures Offset(ips, i) + j < |Endpoints(ips)|
    ensures var p := ips[i].protocolAndPorts[j];
      Endpoints(ips)[Offset(ips, i) + j] == Endpoint(ips[i].ip, p.port, p.protocol)
  {
    PrefixLength(ips, |ips|);
    PrefixAt(ips, |ips|, i, j);
  }
}
