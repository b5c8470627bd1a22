/**
 * The NIC wrappers over an IP of a network pool: conversion to the subclass
 * of the network the IP belongs to, checked by the entity's links, and the
 * two flags the client may set.
 */
module Nics {
  import opened Results
  import opened Transport

  /** The concrete wrapper subclasses. */
  datatype NicKind = PublicNic | PrivateNic | ExternalNic | UnmanagedNic

  /** The link relations that mark the network an IP belongs to. */
  const PublicNetworkRel: string := "publicnetwork"
  const PrivateNetworkRel: string := "privatenetwork"
  const ExternalNetworkRel: string := "externalnetwork"

  class Nic {
    const kind: NicKind
    var target: IpPoolManagementDto

    constructor (kind: NicKind, target: IpPoolManagementDto)
      ensures this.kind == kind && this.target == target
    {
      this.kind := kind;
      this.target := target;
    }

    /**
     * The conversion shared by the three `to…Nic` methods: the same entity
     * wrapped as the given subclass, if the entity links to that network.
     */
    method Narrow(rel: string, k: NicKind) returns (r: Result<Nic>)
      ensures r.Success? <==> SearchLink(target.links, rel).Some?
      ensures r.Failure? ==> r.error == MissingLink(rel)
      ensures r.Success? ==> fresh(r.value) && r.value.kind == k && r.value.target == target
    {
      if SearchLink(target.links, rel).None? {
        return Failure(MissingLink(rel));
      }
      var nic := new Nic(k, target);
      return Success(nic);
    }

    /** `toPublicNic`: requires a "publicnetwork" link. */
    method ToPublicNic() returns (r: Result<Nic>)
      ensures r.Success? <==> SearchLink(target.links, PublicNetworkRel).Some?
      ensures r.Failure? ==> r.error == MissingLink(PublicNetworkRel)
      ensures r.Success? ==> fresh(r.value) && r.value.kind == PublicNic && r.value.target == target
    {
      r := Narrow(PublicNetworkRel, PublicNic);
    }

    /** `toPrivateNic`: requires a "privatenetwork" link. */
    method ToPrivateNic() returns (r: Result<Nic>)
      ensures r.Success? <==> SearchLink(target.links, PrivateNetworkRel).Some?
      ensures r.Failure? ==> r.error == MissingLink(PrivateNetworkRel)
      ensures r.Success? ==> fresh(r.value) && r.value.kind == PrivateNic && r.value.target == target
    {
      r := Narrow(PrivateNetworkRel, PrivateNic);
    }

    /** `toExternalNic`: requires an "externalnetwork" link. */
    method ToExternalNic() returns (r: Result<Nic>)
      ensures r.Success? <==> SearchLink(target.links, ExternalNetworkRel).Some?
      ensures r.Failure? ==> r.error == MissingLink(ExternalNetworkRel)
      ensures r.Success? ==> fresh(r.value) && r.value.kind == ExternalNic && r.value.target == target
    {
      r := Narrow(ExternalNetworkRel, ExternalNic);
    }

    /** `save`: NICs are not saved through this wrapper; nothing changes. */
    method Save()
      ensures target == old(target)
    {
    }

    /** `setAvailable`: the available flag, and nothing else, takes the new value. */
    method SetAvailable(available: bool)
      modifies this`target
      ensures target == old(target).(available := available)
    {
      target := target.(available := available);
    }

    /** `setQuarantine`: the quarantine flag, and nothing else, takes the new value. */
    method SetQuarantine(quarantine: bool)
      modifies this`target
      ensures target == old(target).(quarantine := quarantine)
    {
      target := target.(quarantine := quarantine);
    }
  }
}
