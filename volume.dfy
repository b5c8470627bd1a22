/**
 * The volume wrapper: the lifecycle of the volume entity it holds, the
 * cached parents (virtual datacenter and storage tier), and its builder.
 */
module Volumes {
  import opened Results
  import opened Transport

  /** `VolumeState.DETACHED.name()`, the state every built volume starts in. */
  const DefaultState: string := "DETACHED"

  /** The relations of the parent links (`ParentLinkName`). */
  const VirtualDatacenterRel: string := "virtualdatacenter"
  const TierRel: string := "tier"

  /** The prefix of the null-resource message (`ValidationErrors.NULL_RESOURCE`). */
  const NullResource: string := "Null resource: "

  /** A volume as the server sends it (`VolumeManagementDto`). */
  datatype VolumeDto = VolumeDto(
    id: Option<int>,
    name: Option<string>,
    description: Option<string>,
    sizeInMb: Option<int>,
    state: Option<string>,
    links: seq<Link>)

  /** The remote calls the wrapper makes, with what each sends. */
  datatype Request =
    | DeleteVolume(volume: VolumeDto)
    | CreateVolume(virtualDatacenter: VirtualDatacenterDto, volume: VolumeDto)
    | UpdateVolume(volume: VolumeDto)
    | FetchVirtualDatacenter(virtualDatacenterId: Option<int>)
    | FetchStorageTier(virtualDatacenter: VirtualDatacenterDto, tierId: Option<int>)

  class Volume {
    var target: Option<VolumeDto>
    var virtualDatacenter: Option<VirtualDatacenterDto>
    var tier: Option<TierDto>
    /** The calls sent to the server so far, oldest first. */
    ghost var requests: seq<Request>

    constructor (target: VolumeDto, virtualDatacenter: Option<VirtualDatacenterDto>, tier: Option<TierDto>)
      ensures this.target == Some(target)
      ensures this.virtualDatacenter == virtualDatacenter && this.tier == tier
      ensures requests == []
    {
      this.target := Some(target);
      this.virtualDatacenter := virtualDatacenter;
      this.tier := tier;
      requests := [];
    }

    /**
     * `delete`: the server deletes the volume and the wrapper lets go of it,
     * so every later call that needs the entity fails.
     */
    method Delete(reply: Outcome) returns (r: Outcome)
      modifies this`target, this`requests
      ensures old(target).None? ==> r == Fail(NullPointer("target")) && target == old(target) && requests == old(requests)
      ensures old(target).Some? ==> requests == old(requests) + [DeleteVolume(old(target).value)]
      ensures old(target).Some? ==> r == reply
      ensures old(target).Some? && reply.Pass? ==> target.None?
      ensures r.Fail? ==> target == old(target)
    {
      if target.None? {
        return Fail(NullPointer("target"));
      }
      requests := requests + [DeleteVolume(target.value)];
      if reply.Fail? {
        return reply;
      }
      target := None;
      return Pass;
    }

    /**
     * `save`: the volume is created in the virtual datacenter it was built
     * for, and the server's copy replaces the local entity.
     */
    method Save(reply: Result<VolumeDto>) returns (r: Outcome)
      modifies this`target, this`requests
      ensures old(virtualDatacenter).None? ==>
        r == Fail(NullPointer("virtualDatacenter")) && target == old(target) && requests == old(requests)
      ensures old(virtualDatacenter).Some? && old(target).None? ==>
        r == Fail(NullPointer("target")) && target == old(target) && requests == old(requests)
      ensures old(virtualDatacenter).Some? && old(target).Some? ==>
        requests == old(requests) + [CreateVolume(old(virtualDatacenter).value, old(target).value)]
      ensures old(virtualDatacenter).Some? && old(target).Some? ==>
        (r.Pass? <==> reply.Success?) && (reply.Failure? ==> r == Fail(reply.error))
      ensures r.Pass? ==> target == Some(reply.value)
      ensures r.Fail? ==> target == old(target)
    {
      if virtualDatacenter.None? {
        return Fail(NullPointer("virtualDatacenter"));
      }
      if target.None? {
        return Fail(NullPointer("target"));
      }
      requests := requests + [CreateVolume(virtualDatacenter.value, target.value)];
      if reply.Failure? {
        return Fail(reply.error);
      }
      target := Some(reply.value);
      return Pass;
    }

    /** `update`: the server's copy of the updated volume replaces the local entity. */
    method Update(reply: Result<VolumeDto>) returns (r: Outcome)
      modifies this`target, this`requests
      ensures old(target).None? ==> r == Fail(NullPointer("target")) && target == old(target) && requests == old(requests)
      ensures old(target).Some? ==> requests == old(requests) + [UpdateVolume(old(target).value)]
      ensures old(target).Some? ==> (r.Pass? <==> reply.Success?) && (reply.Failure? ==> r == Fail(reply.error))
      ensures r.Pass? ==> target == Some(reply.value)
      ensures r.Fail? ==> target == old(target)
    {
      if target.None? {
        return Fail(NullPointer("target"));
      }
      requests := requests + [UpdateVolume(target.value)];
      if reply.Failure? {
        return Fail(reply.error);
      }
      target := Some(reply.value);
      return Pass;
    }

    /**
     * `getVirtualDatacenter`: fetches the parent named by the entity's link,
     * keeps it in the `virtualDatacenter` field and returns it. A parent the
     * server does not find comes back as null, and null is what is kept.
     */
    method GetVirtualDatacenter(reply: Result<Option<VirtualDatacenterDto>>) returns (r: Result<Option<VirtualDatacenterDto>>)
      modifies this`virtualDatacenter, this`requests
      ensures old(target).None? ==>
        r == Failure(NullPointer("target")) && virtualDatacenter == old(virtualDatacenter) && requests == old(requests)
      ensures old(target).Some? ==>
        r == reply
        && requests == old(requests) + [FetchVirtualDatacenter(IdFromLink(old(target).value.links, VirtualDatacenterRel))]
      ensures r.Success? ==> virtualDatacenter == r.value
      ensures r.Failure? ==> virtualDatacenter == old(virtualDatacenter)
    {
      if target.None? {
        return Failure(NullPointer("target"));
      }
      var id := IdFromLink(target.value.links, VirtualDatacenterRel);
      requests := requests + [FetchVirtualDatacenter(id)];
      if reply.Success? {
        virtualDatacenter := reply.value;
      }
      return reply;
    }

    /**
     * `getTier`: fetches the tier named by the entity's link, within the
     * cached virtual datacenter, keeps it in the `tier` field and returns it;
     * a tier the server does not find is kept and returned as null. A cached
     * virtual datacenter that is null fails on dereference before the call.
     */
    method GetTier(reply: Result<Option<TierDto>>) returns (r: Result<Option<TierDto>>)
      modifies this`tier, this`requests
      ensures old(target).None? ==>
        r == Failure(NullPointer("target")) && tier == old(tier) && requests == old(requests)
      ensures old(target).Some? && old(virtualDatacenter).None? ==>
        r == Failure(NullPointer("virtualDatacenter")) && tier == old(tier) && requests == old(requests)
      ensures old(target).Some? && old(virtualDatacenter).Some? ==>
        r == reply
        && requests == old(requests) + [FetchStorageTier(old(virtualDatacenter).value, IdFromLink(old(target).value.links, TierRel))]
      ensures r.Success? ==> tier == r.value
      ensures r.Failure? ==> tier == old(tier)
    {
      if target.None? {
        return Failure(NullPointer("target"));
      }
      var id := IdFromLink(target.value.links, TierRel);
      if virtualDatacenter.None? {
        return Failure(NullPointer("virtualDatacenter"));
      }
      requests := requests + [FetchStorageTier(virtualDatacenter.value, id)];
      if reply.Success? {
        tier := reply.value;
      }
      return reply;
    }
  }

  /** `Volume.Builder`: collects the fields of a new volume. */
  class Builder {
    var name: Option<string>
    var description: Option<string>
    var sizeInMb: Option<int>
    const virtualDatacenter: VirtualDatacenterDto
    const tier: Option<TierDto>

    constructor (virtualDatacenter: VirtualDatacenterDto, tier: Option<TierDto>)
      ensures this.virtualDatacenter == virtualDatacenter && this.tier == tier
      ensures name.None? && description.None? && sizeInMb.None?
    {
      this.virtualDatacenter := virtualDatacenter;
      this.tier := tier;
      name, description, sizeInMb := None, None, None;
    }

    /**
     * The builder's constructor as written: a null virtual datacenter is
     * rejected; the second check tests the virtual datacenter again instead
     * of the tier, and the tier is never stored, so it is always null.
     */
    static method Create(virtualDatacenter: Option<VirtualDatacenterDto>, tier: Option<TierDto>)
      returns (r: Result<Builder>)
      ensures r.Failure? <==> virtualDatacenter.None?
      ensures r.Failure? ==> r.error == NullPointer(NullResource + "VirtualDatacenter")
      ensures r.Success? ==> fresh(r.value)
      ensures r.Success? ==> r.value.virtualDatacenter == virtualDatacenter.value && r.value.tier.None?
      ensures r.Success? ==> r.value.name.None? && r.value.description.None? && r.value.sizeInMb.None?
    {
      if virtualDatacenter.None? {
        return Failure(NullPointer(NullResource + "VirtualDatacenter"));
      }
      // the second check repeats the first one and cannot fail here
      var builder := new Builder(virtualDatacenter.value, None);
      return Success(builder);
    }

    /**
     * The builder's constructor as intended: both parents are checked, the
     * virtual datacenter first, and both are kept.
     */
    static method CreateChecked(virtualDatacenter: Option<VirtualDatacenterDto>, tier: Option<TierDto>)
      returns (r: Result<Builder>)
      ensures r.Success? <==> virtualDatacenter.Some? && tier.Some?
      ensures virtualDatacenter.None? ==> r == Failure(NullPointer(NullResource + "VirtualDatacenter"))
      ensures virtualDatacenter.Some? && tier.None? ==> r == Failure(NullPointer(NullResource + "Tier"))
      ensures r.Success? ==> fresh(r.value)
      ensures r.Success? ==> r.value.virtualDatacenter == virtualDatacenter.value && r.value.tier == tier
      ensures r.Success? ==> r.value.name.None? && r.value.description.None? && r.value.sizeInMb.None?
    {
      if virtualDatacenter.None? {
        return Failure(NullPointer(NullResource + "VirtualDatacenter"));
      }
      if tier.None? {
        return Failure(NullPointer(NullResource + "Tier"));
      }
      var builder := new Builder(virtualDatacenter.value, tier);
      return Success(builder);
    }

    method Name(name: Option<string>)
      modifies this`name
      ensures this.name == name
    {
      this.name := name;
    }

    method Description(description: Option<string>)
      modifies this`description
      ensures this.description == description
    {
      this.description := description;
    }

    method SizeInMb(sizeInMb: int)
      modifies this`sizeInMb
      ensures this.sizeInMb == Some(sizeInMb)
    {
      this.sizeInMb := Some(sizeInMb);
    }

    /**
     * `build`: a new, unsaved volume with the collected name, description and
     * size, in the DETACHED state, holding the builder's parents.
     */
    method Build() returns (v: Volume)
      ensures fresh(v)
      ensures v.target.Some? && v.target.value.id.None? && v.target.value.links == []
      ensures v.target.value.name == name && v.target.value.description == description
      ensures v.target.value.sizeInMb == sizeInMb
      ensures v.target.value.state == Some(DefaultState)
      ensures v.virtualDatacenter == Some(virtualDatacenter) && v.tier == tier
      ensures v.requests == []
    {
      var dto := VolumeDto(None, name, description, sizeInMb, Some(DefaultState), []);
      v := new Volume(dto, Some(virtualDatacenter), tier);
    }
  }

  /**
   * Building through the constructor as written: whatever tier is passed,
   * the volume comes out without one.
   */
  method BuildDropsTier(virtualDatacenter: VirtualDatacenterDto, tier: TierDto) returns (v: Volume)
    ensures v.tier.None?
    ensures v.virtualDatacenter == Some(virtualDatacenter)
  {
    var builder := Builder.Create(Some(virtualDatacenter), Some(tier));
    v := builder.value.Build();
  }

  /** Building through the corrected constructor: the volume keeps the tier it was built for. */
  method BuildKeepsTier(virtualDatacenter: VirtualDatacenterDto, tier: TierDto) returns (v: Volume)
    ensures v.tier == Some(tier)
    ensures v.virtualDatacenter == Some(virtualDatacenter)
  {
    var builder := Builder.CreateChecked(Some(virtualDatacenter), Some(tier));
    v := builder.value.Build();
  }
}
