/** The filters over the IP addresses of a network pool (`IpPredicates`). */
module IpPredicates {
  import opened Results
  import opened Transport

  /**
   * `name(names…)`: accepts an IP whose name is one of the given names; a
   * null name is matched by a null entry. A null array is rejected at once.
   */
  function Name(names: Option<seq<Option<string>>>): (r: Result<IpPoolManagementDto -> bool>)
    ensures names.None? <==> r.Failure?
    ensures r.Failure? ==> r.error == NullPointer("names must be defined")
    ensures r.Success? ==> forall ip :: r.value(ip) <==> ip.name in names.value
  {
    if names.None? then Failure(NullPointer("names must be defined"))
    else Success((ip: IpPoolManagementDto) => ip.name in names.value)
  }

  /** `address(addresses…)`: accepts an IP whose address is one of the given ones. */
  function Address(addresses: Option<seq<Option<string>>>): (r: Result<IpPoolManagementDto -> bool>)
    ensures addresses.None? <==> r.Failure?
    ensures r.Failure? ==> r.error == NullPointer("addresses must be defined")
    ensures r.Success? ==> forall ip :: r.value(ip) <==> ip.ip in addresses.value
  {
    if addresses.None? then Failure(NullPointer("addresses must be defined"))
    else Success((ip: IpPoolManagementDto) => ip.ip in addresses.value)
  }

  /** `available()`: accepts exactly the IPs the pool reports as available. */
  function Available(): (p: IpPoolManagementDto -> bool)
    ensures forall ip :: p(ip) <==> ip.available
  {
    (ip: IpPoolManagementDto) => ip.available
  }
}
