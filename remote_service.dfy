/**
 * The remote-service wrapper: the URI a datacenter service is reached at,
 * the lifecycle of the entity it holds, its cached datacenter, and its builder.
 */
module RemoteServices {
  import opened Results
  import opened Transport
  import opened Text

  /** A kind of remote service and how it is reached by default (`RemoteServiceType`). */
  datatype RemoteServiceType = RemoteServiceType(
    name: string,
    defaultProtocol: string,
    defaultPort: int,
    serviceMapping: string)

  /** A remote service as the server sends it (`RemoteServiceDto`). */
  datatype RemoteServiceDto = RemoteServiceDto(
    id: Option<int>,
    serviceType: Option<RemoteServiceType>,
    uri: Option<string>,
    status: Option<int>,
    links: seq<Link>)

  const DatacenterRel: string := "datacenter"

  /** The prefix of the null-parent message (`ValidationErrors.NULL_PARENT`). */
  const NullParent: string := "Null parent: "

  /** String concatenation of a nullable `String`: "null" for null. */
  function NullableString(s: Option<string>): string
  {
    match s
    case None => "null"
    case Some(v) => v
  }

  /**
   * `generateUri(ip, port, type)`: protocol, ip, a colon, the port, a slash
   * and the service mapping; a null ip or port is written "null", a null
   * type fails on dereference.
   */
  function GenerateUri(ip: Option<string>, port: Option<int>, serviceType: Option<RemoteServiceType>): (r: Result<string>)
    ensures serviceType.None? <==> r.Failure?
    ensures r.Failure? ==> r.error == NullPointer("type")
    ensures r.Success? ==>
      r.value == serviceType.value.defaultProtocol + NullableString(ip) + ":" + NullableIntToString(port)
        + "/" + serviceType.value.serviceMapping
  {
    match serviceType
    case None => Failure(NullPointer("type"))
    case Some(t) => Success(t.defaultProtocol + NullableString(ip) + ":" + NullableIntToString(port) + "/" + t.serviceMapping)
  }

  /** `generateUri(ip, type)`: the same URI, on the type's default port. */
  function GenerateDefaultUri(ip: Option<string>, serviceType: Option<RemoteServiceType>): (r: Result<string>)
    ensures serviceType.None? ==> r == Failure(NullPointer("type"))
    ensures serviceType.Some? ==> r == GenerateUri(ip, Some(serviceType.value.defaultPort), serviceType)
  {
    match serviceType
    case None => Failure(NullPointer("type"))
    case Some(t) => GenerateUri(ip, Some(t.defaultPort), serviceType)
  }

  /**
   * What a reader of a generated URI gets back: the ip and the port, provided
   * the URI has the type's protocol and service mapping.
   */
  function ParseUri(uri: string, serviceType: RemoteServiceType): Option<(string, int)>
  {
    var protocol := serviceType.defaultProtocol;
    if |uri| < |protocol| || uri[..|protocol|] != protocol then None
    else ParseAddress(uri[|protocol|..], serviceType.serviceMapping)
  }

  /** `ip:port/mapping`, read back as the ip and the port. */
  function ParseAddress(address: string, mapping: string): Option<(string, int)>
  {
    match SplitAt(address, ':')
    case None => None
    case Some((ip, rest)) =>
      match ParsePort(rest, mapping)
      case None => None
      case Some(port) => Some((ip, port))
  }

  /** `port/mapping`, read back as the port. */
  function ParsePort(rest: string, mapping: string): Option<int>
  {
    match SplitAt(rest, '/')
    case None => None
    case Some((port, path)) => if path != mapping then None else ParseInt(port)
  }

  /** The ip and the port of a generated URI can be read back when the ip has no colon. */
  lemma UriRoundTrip(ip: string, port: int, serviceType: RemoteServiceType)
    requires ':' !in ip
    ensures GenerateUri(Some(ip), Some(port), Some(serviceType)).Success?
    ensures ParseUri(GenerateUri(Some(ip), Some(port), Some(serviceType)).value, serviceType) == Some((ip, port))
  {
    var address := ip + ":" + IntToString(port) + "/" + serviceType.serviceMapping;
    UriShape(ip, port, serviceType);
    ReadProtocol(serviceType, address);
    ReadAddress(ip, port, serviceType.serviceMapping);
  }

  /** A generated URI is the protocol followed by `ip:port/mapping`. */
  lemma UriShape(ip: string, port: int, serviceType: RemoteServiceType)
    ensures GenerateUri(Some(ip), Some(port), Some(serviceType)).value
      == serviceType.defaultProtocol + (ip + ":" + IntToString(port) + "/" + serviceType.serviceMapping)
  {
  }

  lemma ReadProtocol(serviceType: RemoteServiceType, address: string)
    ensures ParseUri(serviceType.defaultProtocol + address, serviceType) == ParseAddress(address, serviceType.serviceMapping)
  {
    var p := serviceType.defaultProtocol;
    assert (p + address)[..|p|] == p && (p + address)[|p|..] == address;
  }

  lemma ReadAddress(ip: string, port: int, mapping: string)
    requires ':' !in ip
    ensures ParseAddress(ip + ":" + IntToString(port) + "/" + mapping, mapping) == Some((ip, port))
  {
    var rest := IntToString(port) + "/" + mapping;
    assert ip + ":" + IntToString(port) + "/" + mapping == ip + [':'] + rest;
    SplitAtFirst(ip, ':', rest);
    ReadPort(port, mapping);
  }

  lemma ReadPort(port: int, mapping: string)
    ensures ParsePort(IntToString(port) + "/" + mapping, mapping) == Some(port)
  {
    assert '/' !in IntToString(port);
    assert IntToString(port) + "/" + mapping == IntToString(port) + ['/'] + mapping;
    SplitAtFirst(IntToString(port), '/', mapping);
    ParseIntToString(port);
  }

  /** The remote calls the wrapper makes, with what each sends. */
  datatype Request =
    | DeleteRemoteService(service: RemoteServiceDto)
    | CreateRemoteService(datacenter: DatacenterDto, service: RemoteServiceDto)
    | UpdateRemoteService(service: RemoteServiceDto)
    | FetchDatacenter(datacenterId: Option<int>)

  class RemoteService {
    var target: Option<RemoteServiceDto>
    var datacenter: Option<DatacenterDto>
    /** The calls sent to the server so far, oldest first. */
    ghost var requests: seq<Request>

    constructor (target: RemoteServiceDto, datacenter: Option<DatacenterDto>)
      ensures this.target == Some(target) && this.datacenter == datacenter && requests == []
    {
      this.target := Some(target);
      this.datacenter := datacenter;
      requests := [];
    }

    /** `delete`: the server deletes the service and the wrapper lets go of it. */
    method Delete(reply: Outcome) returns (r: Outcome)
      modifies this`target, this`requests
      ensures old(target).None? ==> r == Fail(NullPointer("target")) && target == old(target) && requests == old(requests)
      ensures old(target).Some? ==> requests == old(requests) + [DeleteRemoteService(old(target).value)]
      ensures old(target).Some? ==> r == reply
      ensures old(target).Some? && reply.Pass? ==> target.None?
      ensures r.Fail? ==> target == old(target)
    {
      if target.None? {
        return Fail(NullPointer("target"));
      }
      requests := requests + [DeleteRemoteService(target.value)];
      if reply.Fail? {
        return reply;
      }
      target := None;
      return Pass;
    }

    /** `save`: the service is created in its datacenter and the server's copy replaces the local one. */
    method Save(reply: Result<RemoteServiceDto>) returns (r: Outcome)
      modifies this`target, this`requests
      ensures old(datacenter).None? ==>
        r == Fail(NullPointer("datacenter")) && target == old(target) && requests == old(requests)
      ensures old(datacenter).Some? && old(target).None? ==>
        r == Fail(NullPointer("target")) && target == old(target) && requests == old(requests)
      ensures old(datacenter).Some? && old(target).Some? ==>
        requests == old(requests) + [CreateRemoteService(old(datacenter).value, old(target).value)]
      ensures old(datacenter).Some? && old(target).Some? ==>
        (r.Pass? <==> reply.Success?) && (reply.Failure? ==> r == Fail(reply.error))
      ensures r.Pass? ==> target == Some(reply.value)
      ensures r.Fail? ==> target == old(target)
    {
      if datacenter.None? {
        return Fail(NullPointer("datacenter"));
      }
      if target.None? {
        return Fail(NullPointer("target"));
      }
      requests := requests + [CreateRemoteService(datacenter.value, target.value)];
      if reply.Failure? {
        return Fail(reply.error);
      }
      target := Some(reply.value);
      return Pass;
    }

    /** `update`: the server's copy of the updated service replaces the local one. */
    method Update(reply: Result<RemoteServiceDto>) returns (r: Outcome)
      modifies this`target, this`requests
      ensures old(target).None? ==> r == Fail(NullPointer("target")) && target == old(target) && requests == old(requests)
      ensures old(target).Some? ==> requests == old(requests) + [UpdateRemoteService(old(target).value)]
      ensures old(target).Some? ==> (r.Pass? <==> reply.Success?) && (reply.Failure? ==> r == Fail(reply.error))
      ensures r.Pass? ==> target == Some(reply.value)
      ensures r.Fail? ==> target == old(target)
    {
      if target.None? {
        return Fail(NullPointer("target"));
      }
      requests := requests + [UpdateRemoteService(target.value)];
      if reply.Failure? {
        return Fail(reply.error);
      }
      target := Some(reply.value);
      return Pass;
    }

    /**
     * `getDatacenter`: fetches the datacenter named by the entity's link and
     * keeps it; a datacenter the server does not find is kept and returned as null.
     */
    method GetDatacenter(reply: Result<Option<DatacenterDto>>) returns (r: Result<Option<DatacenterDto>>)
      modifies this`datacenter, this`requests
      ensures old(target).None? ==>
        r == Failure(NullPointer("target")) && datacenter == old(datacenter) && requests == old(requests)
      ensures old(target).Some? ==>
        r == reply && requests == old(requests) + [FetchDatacenter(IdFromLink(old(target).value.links, DatacenterRel))]
      ensures r.Success? ==> datacenter == r.value
      ensures r.Failure? ==> datacenter == old(datacenter)
    {
      if target.None? {
        return Failure(NullPointer("target"));
      }
      requests := requests + [FetchDatacenter(IdFromLink(target.value.links, DatacenterRel))];
      if reply.Success? {
        datacenter := reply.value;
      }
      return reply;
    }
  }

  /** `RemoteService.Builder`: collects the fields of a new remote service; no setter assigns the id. */
  class Builder {
    var datacenter: DatacenterDto
    var uri: Option<string>
    var serviceType: Option<RemoteServiceType>
    var status: Option<int>

    constructor (datacenter: DatacenterDto)
      ensures this.datacenter == datacenter
      ensures uri.None? && serviceType.None? && status.None?
    {
      this.datacenter := datacenter;
      uri, serviceType, status := None, None, None;
    }

    /** The builder's constructor: a null datacenter is rejected. */
    static method Create(datacenter: Option<DatacenterDto>) returns (r: Result<Builder>)
      ensures r.Failure? <==> datacenter.None?
      ensures r.Failure? ==> r.error == NullPointer(NullParent + "Datacenter")
      ensures r.Success? ==> fresh(r.value)
      ensures r.Success? ==> r.value.datacenter == datacenter.value
      ensures r.Success? ==> r.value.uri.None? && r.value.serviceType.None? && r.value.status.None?
    {
      if datacenter.None? {
        return Failure(NullPointer(NullParent + "Datacenter"));
      }
      var builder := new Builder(datacenter.value);
      return Success(builder);
    }

    /** `datacenter(dc)`: a null datacenter is rejected and leaves the builder as it was. */
    method SetDatacenter(datacenter: Option<DatacenterDto>) returns (r: Outcome)
      modifies this`datacenter
      ensures r.Fail? <==> datacenter.None?
      ensures r.Fail? ==> r.error == NullPointer(NullParent + "Datacenter") && this.datacenter == old(this.datacenter)
      ensures r.Pass? ==> this.datacenter == datacenter.value
    {
      if datacenter.None? {
        return Fail(NullPointer(NullParent + "Datacenter"));
      }
      this.datacenter := datacenter.value;
      return Pass;
    }

    method Status(status: Option<int>)
      modifies this`status
      ensures this.status == status
    {
      this.status := status;
    }

    method Type(serviceType: Option<RemoteServiceType>)
      modifies this`serviceType
      ensures this.serviceType == serviceType
    {
      this.serviceType := serviceType;
    }

    method Uri(uri: Option<string>)
      modifies this`uri
      ensures this.uri == uri
    {
      this.uri := uri;
    }

    /** `build`: a new, unsaved service with the collected fields, in the builder's datacenter. */
    method Build() returns (s: RemoteService)
      ensures fresh(s)
      ensures s.target == Some(RemoteServiceDto(None, serviceType, uri, status, []))
      ensures s.datacenter == Some(datacenter)
      ensures s.requests == []
    {
      s := new RemoteService(RemoteServiceDto(None, serviceType, uri, status, []), Some(datacenter));
    }

    /**
     * `fromRemoteService(in)`: a builder holding the service's datacenter,
     * status, type and uri. It fails without a datacenter, without an entity,
     * and when the status is null, since it is read as a primitive `int`.
     */
    static method FromRemoteService(source: RemoteService) returns (r: Result<Builder>)
      ensures r.Success? <==> source.datacenter.Some? && source.target.Some? && source.target.value.status.Some?
      ensures r.Success? ==> fresh(r.value)
      ensures source.datacenter.None? ==> r == Failure(NullPointer(NullParent + "Datacenter"))
      ensures source.datacenter.Some? && source.target.None? ==> r == Failure(NullPointer("target"))
      ensures source.datacenter.Some? && source.target.Some? && source.target.value.status.None? ==>
        r == Failure(NullPointer("status"))
      ensures r.Success? ==>
        r.value.datacenter == source.datacenter.value
        && r.value.status == source.target.value.status
        && r.value.serviceType == source.target.value.serviceType
        && r.value.uri == source.target.value.uri
    {
      if source.datacenter.None? {
        return Failure(NullPointer(NullParent + "Datacenter"));
      }
      var builder := new Builder(source.datacenter.value);
      if source.target.None? {
        return Failure(NullPointer("target"));
      }
      var entity := source.target.value;
      if entity.status.None? {
        return Failure(NullPointer("status"));
      }
      builder.Status(entity.status);
      builder.Type(entity.serviceType);
      builder.Uri(entity.uri);
      return Success(builder);
    }
  }

  /**
   * Rebuilding a service through `fromRemoteService` and `build` gives a new,
   * unsaved service with the same type, uri, status and datacenter.
   */
  method Rebuild(source: RemoteService) returns (r: Result<RemoteService>)
    ensures r.Success? <==> source.datacenter.Some? && source.target.Some? && source.target.value.status.Some?
    ensures r.Success? ==>
      r.value.target == Some(RemoteServiceDto(None, source.target.value.serviceType, source.target.value.uri,
        source.target.value.status, []))
      && r.value.datacenter == source.datacenter
  {
    var builder := Builder.FromRemoteService(source);
    if builder.Failure? {
      return Failure(builder.error);
    }
    var service := builder.value.Build();
    return Success(service);
  }
}
