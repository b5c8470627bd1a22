/**
 * The transport entities (DTOs) the wrappers hold, as the server sends them:
 * records of nullable fields plus a list of named links to related resources.
 */
module Transport {
  import opened Results
  import opened Text

  /** A hypermedia link: a relation name and the URI it points to. */
  datatype Link = Link(rel: string, href: string)

  /**
   * `searchLink(rel)`: the first link with the given relation, or null when the
   * entity has none.
   */
  function SearchLink(links: seq<Link>, rel: string): Option<Link>
  {
    if links == [] then None
    else if links[0].rel == rel then Some(links[0])
    else SearchLink(links[1..], rel)
  }

  /** The lookup finds a link exactly when one has the relation, and then the first such. */
  lemma {:induction false} SearchLinkFindsFirst(links: seq<Link>, rel: string)
    ensures SearchLink(links, rel).None? <==> forall i :: 0 <= i < |links| ==> links[i].rel != rel
    ensures SearchLink(links, rel).Some? ==>
      exists k :: 0 <= k < |links| && links[k] == SearchLink(links, rel).value && links[k].rel == rel
        && forall i :: 0 <= i < k ==> links[i].rel != rel
  {
    if links != [] && links[0].rel != rel {
      SearchLinkFindsFirst(links[1..], rel);
      assert forall i :: 1 <= i < |links| ==> links[i] == links[1..][i - 1];
      if SearchLink(links[1..], rel).Some? {
        var k :| 0 <= k < |links[1..]| && links[1..][k] == SearchLink(links[1..], rel).value
          && links[1..][k].rel == rel && forall i :: 0 <= i < k ==> links[1..][i].rel != rel;
        assert links[k + 1] == links[1..][k];
      }
    } else if links != [] {
      assert links[0] == SearchLink(links, rel).value;
    }
  }

  /**
   * `getIdFromLink(rel)`: the id at the end of the URI of the first link with
   * the relation, or null when there is no such link or the last path segment
   * is not a number.
   */
  function IdFromLink(links: seq<Link>, rel: string): Option<int>
  {
    match SearchLink(links, rel)
    case None => None
    case Some(link) => ParseInt(AfterLast(link.href, '/'))
  }

  /** The parent entities the wrappers hold references to; only their identity matters here. */
  datatype VirtualApplianceDto = VirtualApplianceDto(id: Option<int>, name: Option<string>, links: seq<Link>)
  datatype VirtualDatacenterDto = VirtualDatacenterDto(id: Option<int>, name: Option<string>, links: seq<Link>)
  datatype TierDto = TierDto(id: Option<int>, name: Option<string>, links: seq<Link>)
  datatype DatacenterDto = DatacenterDto(id: Option<int>, name: Option<string>, links: seq<Link>)

  /** A virtual machine template: its id and the disk size a machine built from it needs. */
  datatype VirtualMachineTemplateDto = VirtualMachineTemplateDto(id: Option<int>, hdRequired: int, links: seq<Link>)

  /** A hard disk attached to a virtual machine (`DiskManagementDto`). */
  datatype DiskManagementDto = DiskManagementDto(id: Option<int>, sizeInMb: int, links: seq<Link>)

  /** An IP address of a network pool, and the NIC that uses it (`IpPoolManagementDto`). */
  datatype IpPoolManagementDto = IpPoolManagementDto(
    id: Option<int>,
    name: Option<string>,
    ip: Option<string>,
    mac: Option<string>,
    networkName: Option<string>,
    available: bool,
    quarantine: bool,
    links: seq<Link>)

  /** The reference to an asynchronous task a state-changing call may return (`AcceptedRequestDto`). */
  datatype TaskRef = TaskRef(statusLink: Link)

  /** A server-side task, as listed for a resource. */
  datatype AsyncTask = AsyncTask(taskId: string, timestamp: int, links: seq<Link>)
}
