/**
 * The network wrappers: a VLAN network entity viewed as one of four kinds
 * (private, external, public, unmanaged), the checked conversions between the
 * kinds, the dispatch from the entity's type tag, and the IP queries.
 */
module Networks {
  import opened Results
  import opened Transport
  import opened Lists
  import IpPredicates

  /** The type tag the server puts on a VLAN network (`NetworkType`). */
  datatype NetworkType = External | ExternalUnmanaged | Internal | Public | Unmanaged

  /** The enum constant's name, as `toString` renders it. */
  function TypeName(t: NetworkType): string
  {
    match t
    case External => "EXTERNAL"
    case ExternalUnmanaged => "EXTERNAL_UNMANAGED"
    case Internal => "INTERNAL"
    case Public => "PUBLIC"
    case Unmanaged => "UNMANAGED"
  }

  /** The prefix of the invalid-network-type message (`ValidationErrors.INVALID_NETWORK_TYPE`). */
  const InvalidNetworkType: string := "Invalid network type: "

  const ExternalUnmanagedNotSupported: string := "EXTERNAL_UNMANAGED networks not supported yet"

  /** A VLAN network as the server sends it (`VLANNetworkDto`). */
  datatype VlanNetworkDto = VlanNetworkDto(
    id: Option<int>,
    name: Option<string>,
    tag: Option<int>,
    gateway: Option<string>,
    address: Option<string>,
    mask: Option<int>,
    primaryDNS: Option<string>,
    secondaryDNS: Option<string>,
    sufixDNS: Option<string>,
    defaultNetwork: Option<bool>,
    networkType: Option<NetworkType>,
    links: seq<Link>)

  /** The wrapper subclasses: `PrivateNetwork`, `ExternalNetwork`, `PublicNetwork`, `UnmanagedNetwork`. */
  datatype Kind = PrivateKind | ExternalKind | PublicKind | UnmanagedKind

  /** The type tag each wrapper subclass stands for. */
  function TypeOf(k: Kind): (t: NetworkType)
    ensures t != ExternalUnmanaged
  {
    match k
    case PrivateKind => Internal
    case ExternalKind => External
    case PublicKind => Public
    case UnmanagedKind => Unmanaged
  }

  /** Each subclass stands for a type of its own: two kinds with the same type are the same kind. */
  lemma TypeOfInjective(k1: Kind, k2: Kind)
    ensures TypeOf(k1) == TypeOf(k2) <==> k1 == k2
  {
  }

  /** A network wrapper: the subclass it was created as, and the entity it wraps. */
  datatype Network = Network(kind: Kind, target: VlanNetworkDto)
  {
    /**
     * `toPrivateNetwork`, `toExternalNetwork`, `toPublicNetwork` and
     * `toUnmanagedNetwork`: the same entity wrapped as the requested subclass,
     * provided its type tag is the one that subclass stands for; otherwise an
     * invalid-argument error naming the tag. A null tag fails on dereference.
     */
    function To(k: Kind): (r: Result<Network>)
      ensures r.Success? <==> target.networkType == Some(TypeOf(k))
      ensures r.Success? ==> r.value.kind == k && r.value.target == target
      ensures target.networkType.None? ==> r == Failure(NullPointer("type"))
      ensures target.networkType.Some? && target.networkType.value != TypeOf(k) ==>
        r == Failure(IllegalArgument(InvalidNetworkType + TypeName(target.networkType.value)))
    {
      match target.networkType
      case None => Failure(NullPointer("type"))
      case Some(t) =>
        if t == TypeOf(k) then Success(Network(k, target))
        else Failure(IllegalArgument(InvalidNetworkType + TypeName(t)))
    }
  }

  /**
   * `wrapNetwork`: null stays null; otherwise the wrapper subclass is chosen
   * by the type tag, and EXTERNAL_UNMANAGED is not supported. A null tag
   * makes the switch fail on dereference.
   */
  function WrapNetwork(dto: Option<VlanNetworkDto>): (r: Result<Option<Network>>)
    ensures dto.None? ==> r == Success(None)
    ensures dto.Some? && dto.value.networkType.None? ==> r == Failure(NullPointer("type"))
    ensures dto.Some? && dto.value.networkType == Some(ExternalUnmanaged) ==>
      r == Failure(UnsupportedOperation(ExternalUnmanagedNotSupported))
    ensures dto.Some? && dto.value.networkType.Some? && dto.value.networkType != Some(ExternalUnmanaged) ==>
      r.Success? && r.value.Some? && r.value.value.target == dto.value
      && TypeOf(r.value.value.kind) == dto.value.networkType.value
  {
    match dto
    case None => Success(None)
    case Some(d) =>
      match d.networkType
      case None => Failure(NullPointer("type"))
      case Some(External) => Success(Some(Network(ExternalKind, d)))
      case Some(ExternalUnmanaged) => Failure(UnsupportedOperation(ExternalUnmanagedNotSupported))
      case Some(Internal) => Success(Some(Network(PrivateKind, d)))
      case Some(Public) => Success(Some(Network(PublicKind, d)))
      case Some(Unmanaged) => Success(Some(Network(UnmanagedKind, d)))
  }

  /**
   * A wrapped network narrows to its own subclass, unchanged, and to no other:
   * the dispatch and the checked conversions agree.
   */
  lemma WrapThenNarrow(dto: VlanNetworkDto, k: Kind)
    requires WrapNetwork(Some(dto)).Success?
    ensures WrapNetwork(Some(dto)).value.Some?
    ensures var n := WrapNetwork(Some(dto)).value.value;
      n.To(k).Success? <==> k == n.kind
    ensures var n := WrapNetwork(Some(dto)).value.value;
      n.To(n.kind) == Success(n)
  {
    var n := WrapNetwork(Some(dto)).value.value;
    match k
    case PrivateKind =>
    case ExternalKind =>
    case PublicKind =>
    case UnmanagedKind =>
  }

  /**
   * `wrapNetworks`: every entity of the list wrapped in turn, in order; the
   * first one that cannot be wrapped aborts the whole call with its error.
   */
  method WrapNetworks(dtos: Option<seq<Option<VlanNetworkDto>>>) returns (r: Result<seq<Option<Network>>>)
    ensures dtos.None? ==> r == Failure(NullPointer("dtos"))
    ensures dtos.Some? ==>
      (r.Success? <==> forall i :: 0 <= i < |dtos.value| ==> WrapNetwork(dtos.value[i]).Success?)
    ensures r.Success? ==>
      |r.value| == |dtos.value|
      && forall i :: 0 <= i < |r.value| ==> WrapNetwork(dtos.value[i]) == Success(r.value[i])
    ensures dtos.Some? && r.Failure? ==>
      exists k :: 0 <= k < |dtos.value| && WrapNetwork(dtos.value[k]) == Failure(r.error)
        && forall i :: 0 <= i < k ==> WrapNetwork(dtos.value[i]).Success?
  {
    if dtos.None? {
      return Failure(NullPointer("dtos"));
    }
    var list := dtos.value;
    var networks: seq<Option<Network>> := [];
    var i := 0;
    while i < |list|
      invariant 0 <= i <= |list|
      invariant |networks| == i
      invariant forall j :: 0 <= j < i ==> WrapNetwork(list[j]) == Success(networks[j])
    {
      var wrapped := WrapNetwork(list[i]);
      if wrapped.Failure? {
        return Failure(wrapped.error);
      }
      networks := networks + [wrapped.value];
      i := i + 1;
    }
    return Success(networks);
  }

  /**
   * `listIps(filter)`: the network's IPs (the server's answer to the
   * subclass's `listIps()`) that pass the filter, in their original order.
   */
  function ListIps(ips: seq<IpPoolManagementDto>, filter: IpPoolManagementDto -> bool): (r: seq<IpPoolManagementDto>)
    ensures forall ip :: ip in r <==> ip in ips && filter(ip)
    ensures |r| <= |ips|
  {
    FilterMembers(ips, filter);
    Filter(ips, filter)
  }

  /** Listing keeps the relative order of the IPs: it distributes over concatenation. */
  lemma ListIpsKeepsOrder(a: seq<IpPoolManagementDto>, b: seq<IpPoolManagementDto>, filter: IpPoolManagementDto -> bool)
    ensures ListIps(a + b, filter) == ListIps(a, filter) + ListIps(b, filter)
  {
    FilterAppend(a, b, filter);
  }

  /** A filter every IP passes lists them all; one none passes lists none. */
  lemma ListIpsBounds(ips: seq<IpPoolManagementDto>, filter: IpPoolManagementDto -> bool)
    ensures (forall i :: 0 <= i < |ips| ==> filter(ips[i])) ==> ListIps(ips, filter) == ips
    ensures (forall i :: 0 <= i < |ips| ==> !filter(ips[i])) ==> ListIps(ips, filter) == []
  {
    if forall i :: 0 <= i < |ips| ==> filter(ips[i]) {
      FilterKeepsAll(ips, filter);
    }
    if forall i :: 0 <= i < |ips| ==> !filter(ips[i]) {
      FilterDropsAll(ips, filter);
    }
  }

  /**
   * `findIp(filter)`: the first IP that passes the filter, or null when none
   * does.
   */
  function FindIp(ips: seq<IpPoolManagementDto>, filter: IpPoolManagementDto -> bool): (r: Option<IpPoolManagementDto>)
    ensures r.None? <==> forall i :: 0 <= i < |ips| ==> !filter(ips[i])
    ensures r.Some? ==>
      exists k :: 0 <= k < |ips| && ips[k] == r.value && filter(ips[k])
        && forall i :: 0 <= i < k ==> !filter(ips[i])
  {
    FirstOfFilter(ips, filter);
    First(Filter(ips, filter))
  }

  /** `listAvailableIps()`: exactly the available IPs, in their original order. */
  function ListAvailableIps(ips: seq<IpPoolManagementDto>): (r: seq<IpPoolManagementDto>)
    ensures forall ip :: ip in r <==> ip in ips && ip.available
    ensures (forall i :: 0 <= i < |ips| ==> ips[i].available) ==> r == ips
  {
    ListIpsBounds(ips, IpPredicates.Available());
    ListIps(ips, IpPredicates.Available())
  }

  /**
   * `findAvailableIp(filter)`: the first IP that is available and passes the
   * filter, or null when there is none.
   */
  function FindAvailableIp(ips: seq<IpPoolManagementDto>, filter: IpPoolManagementDto -> bool): (r: Option<IpPoolManagementDto>)
    ensures r.None? <==> forall i :: 0 <= i < |ips| ==> !(ips[i].available && filter(ips[i]))
    ensures r.Some? ==>
      exists k :: 0 <= k < |ips| && ips[k] == r.value && ips[k].available && filter(ips[k])
        && forall i :: 0 <= i < k ==> !(ips[i].available && filter(ips[i]))
  {
    var available := IpPredicates.Available();
    FilterFilter(ips, available, filter);
    FirstOfFilter(ips, And(available, filter));
    First(Filter(ListAvailableIps(ips), filter))
  }

  /** The name and address filters built from an empty list accept no IP, so they list none. */
  lemma EmptyFiltersListNothing(ips: seq<IpPoolManagementDto>)
    ensures IpPredicates.Name(Some([])).Success? && ListIps(ips, IpPredicates.Name(Some([])).value) == []
    ensures IpPredicates.Address(Some([])).Success? && ListIps(ips, IpPredicates.Address(Some([])).value) == []
  {
    FilterDropsAll(ips, IpPredicates.Name(Some([])).value);
    FilterDropsAll(ips, IpPredicates.Address(Some([])).value);
  }

  /** The builder fields shared by every network subclass (`NetworkBuilder`); unset fields are null. */
  class NetworkBuilder {
    var name: Option<string>
    var tag: Option<int>
    var gateway: Option<string>
    var address: Option<string>
    var mask: Option<int>
    var primaryDNS: Option<string>
    var secondaryDNS: Option<string>
    var sufixDNS: Option<string>
    var defaultNetwork: Option<bool>

    constructor ()
      ensures name.None? && tag.None? && gateway.None? && address.None? && mask.None?
      ensures primaryDNS.None? && secondaryDNS.None? && sufixDNS.None? && defaultNetwork.None?
    {
      name, tag, gateway, address, mask := None, None, None, None, None;
      primaryDNS, secondaryDNS, sufixDNS, defaultNetwork := None, None, None, None;
    }

    method Name(name: Option<string>)
      modifies this`name
      ensures this.name == name
    {
      this.name := name;
    }

    method Tag(tag: int)
      modifies this`tag
      ensures this.tag == Some(tag)
    {
      this.tag := Some(tag);
    }

    method Gateway(gateway: Option<string>)
      modifies this`gateway
      ensures this.gateway == gateway
    {
      this.gateway := gateway;
    }

    method Address(address: Option<string>)
      modifies this`address
      ensures this.address == address
    {
      this.address := address;
    }

    method Mask(mask: int)
      modifies this`mask
      ensures this.mask == Some(mask)
    {
      this.mask := Some(mask);
    }

    method PrimaryDNS(primaryDNS: Option<string>)
      modifies this`primaryDNS
      ensures this.primaryDNS == primaryDNS
    {
      this.primaryDNS := primaryDNS;
    }

    method SecondaryDNS(secondaryDNS: Option<string>)
      modifies this`secondaryDNS
      ensures this.secondaryDNS == secondaryDNS
    {
      this.secondaryDNS := secondaryDNS;
    }

    method SufixDNS(sufixDNS: Option<string>)
      modifies this`sufixDNS
      ensures this.sufixDNS == sufixDNS
    {
      this.sufixDNS := sufixDNS;
    }

    method DefaultNetwork(defaultNetwork: bool)
      modifies this`defaultNetwork
      ensures this.defaultNetwork == Some(defaultNetwork)
    {
      this.defaultNetwork := Some(defaultNetwork);
    }
  }
}
