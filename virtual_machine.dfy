/**
 * The virtual machine wrapper: the lifecycle of the machine entity it holds,
 * the calls that return an asynchronous task, the list arithmetic behind
 * attaching and detaching volumes and hard disks, the tasks of the machine
 * most recent first, and the builder.
 */
module VirtualMachines {
  import opened Results
  import opened Transport
  import opened Lists
  import opened Volumes
  import opened Networks

  /** The relations of the links the wrapper follows or rewrites (`ParentLinkName`). */
  const VirtualApplianceRel: string := "virtualappliance"
  const VirtualMachineTemplateRel: string := "virtualmachinetemplate"
  const EditRel: string := "edit"

  /** The prefix of the missing-field message (`ValidationErrors.MISSING_REQUIRED_FIELD`). */
  const MissingRequiredField: string := "Missing required field"

  /** A power state of a virtual machine and its numeric id (`VirtualMachineState`). */
  datatype VmState = VmState(name: string, id: int)

  /**
   * A virtual machine as the server sends it (`VirtualMachineDto`); the
   * numeric fields are primitives that start at 0.
   */
  datatype VirtualMachineDto = VirtualMachineDto(
    id: Option<int>,
    name: Option<string>,
    description: Option<string>,
    cpu: int,
    ram: int,
    hdInBytes: int,
    vdrpIP: Option<string>,
    vdrpPort: int,
    idState: int,
    idType: int,
    password: Option<string>,
    uuid: Option<string>,
    state: Option<VmState>,
    links: seq<Link>)

  /** The remote calls the wrapper makes, with what each sends. */
  datatype Request =
    | DeleteVirtualMachine(vm: VirtualMachineDto)
    | CreateVirtualMachine(virtualAppliance: VirtualApplianceDto, vm: VirtualMachineDto)
    | UpdateVirtualMachine(vm: VirtualMachineDto)
    | ChangeVirtualMachineState(vm: VirtualMachineDto, state: Option<VmState>)
    | GetVirtualMachineState(vm: VirtualMachineDto)
    | Get(link: Link)
    | ListTasks(vm: VirtualMachineDto)
    | ListAttachedVolumes(vm: VirtualMachineDto)
    | ListAttachedHardDisks(vm: VirtualMachineDto)
    | ReplaceVolumes(vm: VirtualMachineDto, volumes: seq<VolumeDto>)
    | ReplaceHardDisks(vm: VirtualMachineDto, disks: seq<DiskManagementDto>)
    | DetachAllVolumes(vm: VirtualMachineDto)
    | DetachAllHardDisks(vm: VirtualMachineDto)
    | ReplaceNics(vm: VirtualMachineDto, ips: seq<IpPoolManagementDto>)
    | CreateNic(vm: VirtualMachineDto, ip: IpPoolManagementDto)
    | CreateNicInNetwork(vm: VirtualMachineDto, network: VlanNetworkDto)

  /**
   * The result of a call that may start a task, given the server's answer: a
   * failed call fails the same way, no task reference gives no task, and a
   * reference gives the task it refers to.
   */
  predicate ReturnsTaskOf(r: Result<Option<AsyncTask>>, reply: Result<Option<TaskRef>>, getTask: TaskRef -> AsyncTask)
  {
    match reply
    case Failure(e) => r == Failure(e)
    case Success(None) => r == Success(None)
    case Success(Some(ref)) => r == Success(Some(getTask(ref)))
  }

  /** `taskRef == null ? null : getTask(taskRef)`. */
  function TaskOf(reply: Result<Option<TaskRef>>, getTask: TaskRef -> AsyncTask): Result<Option<AsyncTask>>
  {
    match reply
    case Failure(e) => Failure(e)
    case Success(None) => Success(None)
    case Success(Some(ref)) => Success(Some(getTask(ref)))
  }

  /** `volumeIdIn(volumes)`: accepts a volume whose id is the id of one of the given volumes. */
  function VolumeIdIn(volumes: seq<VolumeDto>): (p: VolumeDto -> bool)
    ensures forall v :: p(v) <==> exists i :: 0 <= i < |volumes| && volumes[i].id == v.id
  {
    (v: VolumeDto) => v.id in VolumeIds(volumes)
  }

  /** `volumeIds(volumes)`: the ids of the volumes, in order. */
  function VolumeIds(volumes: seq<VolumeDto>): (ids: seq<Option<int>>)
    ensures |ids| == |volumes| && forall i :: 0 <= i < |volumes| ==> ids[i] == volumes[i].id
  {
    seq(|volumes|, i requires 0 <= i < |volumes| => volumes[i].id)
  }

  /** `hardDiskIdIn(disks)`: accepts a disk whose id is the id of one of the given disks. */
  function HardDiskIdIn(disks: seq<DiskManagementDto>): (p: DiskManagementDto -> bool)
    ensures forall d :: p(d) <==> exists i :: 0 <= i < |disks| && disks[i].id == d.id
  {
    (d: DiskManagementDto) => d.id in HardDiskIds(disks)
  }

  /** `hardDisksIds(disks)`: the ids of the disks, in order. */
  function HardDiskIds(disks: seq<DiskManagementDto>): (ids: seq<Option<int>>)
    ensures |ids| == |disks| && forall i :: 0 <= i < |disks| ==> ids[i] == disks[i].id
  {
    seq(|disks|, i requires 0 <= i < |disks| => disks[i].id)
  }

  /**
   * Detaching the volumes just attached gives back the volumes attached
   * before, in their order, provided none of those shares an id with the
   * new ones.
   */
  lemma DetachUndoesAttachVolumes(current: seq<VolumeDto>, added: seq<VolumeDto>)
    requires forall i, j :: 0 <= i < |current| && 0 <= j < |added| ==> current[i].id != added[j].id
    ensures Filter(current + added, Not(VolumeIdIn(added))) == current
  {
    var keep := Not(VolumeIdIn(added));
    FilterAppend(current, added, keep);
    FilterKeepsAll(current, keep);
    FilterDropsAll(added, keep);
  }

  /** The same for hard disks. */
  lemma DetachUndoesAttachHardDisks(current: seq<DiskManagementDto>, added: seq<DiskManagementDto>)
    requires forall i, j :: 0 <= i < |current| && 0 <= j < |added| ==> current[i].id != added[j].id
    ensures Filter(current + added, Not(HardDiskIdIn(added))) == current
  {
    var keep := Not(HardDiskIdIn(added));
    FilterAppend(current, added, keep);
    FilterKeepsAll(current, keep);
    FilterDropsAll(added, keep);
  }

  /**
   * `toVolumeDto`, `toHardDiskDto`, `toIpDto`: the entities of the given
   * wrappers, in order, copied into a fresh array; a null array is rejected
   * with the given message.
   */
  method Unwrap<T(0)>(items: Option<seq<T>>, message: string) returns (r: Result<seq<T>>)
    ensures items.None? <==> r.Failure?
    ensures r.Failure? ==> r.error == NullPointer(message)
    ensures r.Success? ==> r.value == items.value
  {
    if items.None? {
      return Failure(NullPointer(message));
    }
    var source := items.value;
    var dtos := new T[|source|];
    for i := 0 to |source|
      invariant dtos[..i] == source[..i]
    {
      dtos[i] := source[i];
    }
    assert dtos[..] == source;
    return Success(dtos[..]);
  }

  /** Timestamps never increase along the list: the most recent task comes first. */
  predicate MostRecentFirstOrder(tasks: seq<AsyncTask>)
  {
    forall i, j :: 0 <= i < j < |tasks| ==> tasks[i].timestamp >= tasks[j].timestamp
  }

  /** Sorts the tasks in place, most recent first, by insertion with adjacent swaps. */
  method SortMostRecentFirst(a: array<AsyncTask>)
    modifies a
    ensures MostRecentFirstOrder(a[..])
    ensures multiset(a[..]) == multiset(old(a[..]))
  {
    for i := 0 to a.Length
      invariant MostRecentFirstOrder(a[..i])
      invariant multiset(a[..]) == multiset(old(a[..]))
    {
      Insert(a, i);
    }
    assert a[..a.Length] == a[..];
  }

  /** Moves `a[i]` left past the older tasks, so that `a[..i + 1]` is in order. */
  method Insert(a: array<AsyncTask>, i: int)
    requires 0 <= i < a.Length
    requires MostRecentFirstOrder(a[..i])
    modifies a
    ensures MostRecentFirstOrder(a[..i + 1])
    ensures multiset(a[..]) == multiset(old(a[..]))
  {
    var j := i;
    while j > 0 && a[j - 1].timestamp < a[j].timestamp
      invariant 0 <= j <= i
      invariant forall k, l :: 0 <= k < l <= i && k != j && l != j ==> a[k].timestamp >= a[l].timestamp
      invariant forall l :: j < l <= i ==> a[j].timestamp > a[l].timestamp
      invariant multiset(a[..]) == multiset(old(a[..]))
    {
      Swap(a, j);
      j := j - 1;
    }
  }

  /** Exchanges `a[j - 1]` and `a[j]`; the array keeps the same tasks. */
  method Swap(a: array<AsyncTask>, j: int)
    requires 0 < j < a.Length
    modifies a
    ensures a[..] == old(a[..])[j - 1 := old(a[j])][j := old(a[j - 1])]
    ensures multiset(a[..]) == multiset(old(a[..]))
  {
    a[j - 1], a[j] := a[j], a[j - 1];
  }

  /**
   * The sort in `listTasks`: the same tasks, each as often as before, most
   * recent first.
   */
  method MostRecentFirst(tasks: seq<AsyncTask>) returns (sorted: seq<AsyncTask>)
    ensures MostRecentFirstOrder(sorted)
    ensures multiset(sorted) == multiset(tasks)
    ensures |sorted| == |tasks|
  {
    var a := new AsyncTask[|tasks|](i requires 0 <= i < |tasks| => tasks[i]);
    assert a[..] == tasks;
    SortMostRecentFirst(a);
    sorted := a[..];
    assert |sorted| == |multiset(sorted)| == |multiset(tasks)| == |tasks|;
  }

  /**
   * The first task `listTasks` returns is the most recent of all the tasks
   * the server sent, and it is one of them.
   */
  lemma FirstIsMostRecent(tasks: seq<AsyncTask>, sorted: seq<AsyncTask>)
    requires MostRecentFirstOrder(sorted) && multiset(sorted) == multiset(tasks)
    requires tasks != []
    ensures sorted != [] && sorted[0] in tasks
    ensures forall t :: t in tasks ==> sorted[0].timestamp >= t.timestamp
  {
    assert tasks[0] in multiset(sorted);
    assert sorted[0] in multiset(tasks);
    forall t | t in tasks
      ensures sorted[0].timestamp >= t.timestamp
    {
      assert t in multiset(sorted);
      var k :| 0 <= k < |sorted| && sorted[k] == t;
      if k > 0 {
        assert sorted[0].timestamp >= sorted[k].timestamp;
      }
    }
  }

  /** The links without the first one of the relation. */
  function RemoveFirstWithRel(links: seq<Link>, rel: string): (r: seq<Link>)
    ensures forall l: Link :: l.rel != rel ==> (l in r <==> l in links)
    ensures |r| <= |links|
  {
    if links == [] then []
    else if links[0].rel == rel then links[1..]
    else [links[0]] + RemoveFirstWithRel(links[1..], rel)
  }

  /**
   * `updateLink`: the first link of the relation gives way to a link of that
   * relation to the given URI, added at the end; every link of another
   * relation stays.
   */
  function UpdateLink(links: seq<Link>, rel: string, href: string): (r: seq<Link>)
    ensures |r| > 0 && r[|r| - 1] == Link(rel, href)
    ensures forall l: Link :: l.rel != rel ==> (l in r <==> l in links)
  {
    RemoveFirstWithRel(links, rel) + [Link(rel, href)]
  }

  class VirtualMachine {
    var target: Option<VirtualMachineDto>
    var virtualAppliance: Option<VirtualApplianceDto>
    var template: Option<VirtualMachineTemplateDto>
    /** The calls sent to the server so far, oldest first. */
    ghost var requests: seq<Request>

    constructor (target: VirtualMachineDto, virtualAppliance: Option<VirtualApplianceDto>, template: Option<VirtualMachineTemplateDto>)
      ensures this.target == Some(target)
      ensures this.virtualAppliance == virtualAppliance && this.template == template
      ensures requests == []
    {
      this.target := Some(target);
      this.virtualAppliance := virtualAppliance;
      this.template := template;
      requests := [];
    }

    /**
     * `delete`: the server deletes the machine and the wrapper lets go of it,
     * so every later call that needs the entity fails.
     */
    method Delete(reply: Outcome) returns (r: Outcome)
      modifies this`target, this`requests
      ensures old(target).None? ==> r == Fail(NullPointer("target")) && target == old(target) && requests == old(requests)
      ensures old(target).Some? ==> requests == old(requests) + [Request.DeleteVirtualMachine(old(target).value)]
      ensures old(target).Some? ==> r == reply
      ensures old(target).Some? && reply.Pass? ==> target.None?
      ensures r.Fail? ==> target == old(target)
    {
      if target.None? {
        return Fail(NullPointer("target"));
      }
      requests := requests + [Request.DeleteVirtualMachine(target.value)];
      if reply.Fail? {
        return reply;
      }
      target := None;
      return Pass;
    }

    /**
     * `save`: the template must be set and have an id, or nothing is sent;
     * the entity's template link is pointed at the template's edit link, the
     * machine is created in its virtual appliance, and the server's copy
     * replaces the local one.
     */
    method Save(reply: Result<VirtualMachineDto>) returns (r: Outcome)
      modifies this`target, this`requests
      ensures old(template).None? ==>
        r == Fail(NullPointer(NullResource + "VirtualMachineTemplate")) && target == old(target) && requests == old(requests)
      ensures old(template).Some? && old(template).value.id.None? ==>
        r == Fail(NullPointer(MissingRequiredField + " id in VirtualMachineTemplate"))
        && target == old(target) && requests == old(requests)
      ensures old(template).Some? && old(template).value.id.Some? && SearchLink(old(template).value.links, EditRel).None? ==>
        r == Fail(MissingLink(EditRel)) && target == old(target) && requests == old(requests)
      ensures (old(template).Some? && old(template).value.id.Some? && SearchLink(old(template).value.links, EditRel).Some?
               && old(target).None?) ==>
        r == Fail(NullPointer("target")) && target == old(target) && requests == old(requests)
      ensures (old(template).Some? && old(template).value.id.Some? && SearchLink(old(template).value.links, EditRel).Some?
               && old(target).Some?) ==>
        var linked := old(target).value.(links := UpdateLink(old(target).value.links, VirtualMachineTemplateRel,
          SearchLink(old(template).value.links, EditRel).value.href));
        if old(virtualAppliance).None? then
          r == Fail(NullPointer("virtualAppliance")) && target == Some(linked) && requests == old(requests)
        else
          requests == old(requests) + [Request.CreateVirtualMachine(old(virtualAppliance).value, linked)]
          && (reply.Success? ==> r == Pass && target == Some(reply.value))
          && (reply.Failure? ==> r == Fail(reply.error) && target == Some(linked))
    {
      if template.None? {
        return Fail(NullPointer(NullResource + "VirtualMachineTemplate"));
      }
      if template.value.id.None? {
        return Fail(NullPointer(MissingRequiredField + " id in VirtualMachineTemplate"));
      }
      var edit := SearchLink(template.value.links, EditRel);
      if edit.None? {
        return Fail(MissingLink(EditRel));
      }
      if target.None? {
        return Fail(NullPointer("target"));
      }
      target := Some(target.value.(links := UpdateLink(target.value.links, VirtualMachineTemplateRel, edit.value.href)));
      if virtualAppliance.None? {
        return Fail(NullPointer("virtualAppliance"));
      }
      requests := requests + [Request.CreateVirtualMachine(virtualAppliance.value, target.value)];
      if reply.Failure? {
        return Fail(reply.error);
      }
      target := Some(reply.value);
      return Pass;
    }

    /** `update`: sends the entity; returns the task the server started, if any. */
    method Update(reply: Result<Option<TaskRef>>, getTask: TaskRef -> AsyncTask) returns (r: Result<Option<AsyncTask>>)
      modifies this`requests
      ensures old(target).None? ==> r == Failure(NullPointer("target")) && requests == old(requests)
      ensures old(target).Some? ==>
        requests == old(requests) + [Request.UpdateVirtualMachine(old(target).value)] && ReturnsTaskOf(r, reply, getTask)
    {
      if target.None? {
        return Failure(NullPointer("target"));
      }
      requests := requests + [Request.UpdateVirtualMachine(target.value)];
      r := TaskOf(reply, getTask);
    }

    /**
     * `changeState(state)`: asks for the new state and returns the task that
     * brings it about; the state is sent as given, null included.
     */
    method ChangeState(state: Option<VmState>, reply: Result<TaskRef>, getTask: TaskRef -> AsyncTask) returns (r: Result<AsyncTask>)
      modifies this`requests
      ensures old(target).None? ==> r == Failure(NullPointer("target")) && requests == old(requests)
      ensures old(target).Some? ==> requests == old(requests) + [Request.ChangeVirtualMachineState(old(target).value, state)]
      ensures old(target).Some? && reply.Failure? ==> r == Failure(reply.error)
      ensures old(target).Some? && reply.Success? ==> r == Success(getTask(reply.value))
    {
      if target.None? {
        return Failure(NullPointer("target"));
      }
      requests := requests + [Request.ChangeVirtualMachineState(target.value, state)];
      if reply.Failure? {
        return Failure(reply.error);
      }
      return Success(getTask(reply.value));
    }

    /**
     * `getState`: fetches the current state and records it, and its numeric
     * id, in the entity. A null state is recorded before its id is read,
     * which then fails.
     */
    method GetState(reply: Result<Option<VmState>>) returns (r: Result<VmState>)
      modifies this`target, this`requests
      ensures old(target).None? ==> r == Failure(NullPointer("target")) && target == old(target) && requests == old(requests)
      ensures old(target).Some? ==> requests == old(requests) + [Request.GetVirtualMachineState(old(target).value)]
      ensures old(target).Some? && reply.Failure? ==> r == Failure(reply.error) && target == old(target)
      ensures old(target).Some? && reply == Success(None) ==>
        r == Failure(NullPointer("state")) && target == Some(old(target).value.(state := None))
      ensures old(target).Some? && reply.Success? && reply.value.Some? ==>
        r == Success(reply.value.value)
        && target == Some(old(target).value.(state := reply.value, idState := reply.value.value.id))
    {
      if target.None? {
        return Failure(NullPointer("target"));
      }
      requests := requests + [Request.GetVirtualMachineState(target.value)];
      if reply.Failure? {
        return Failure(reply.error);
      }
      var state := reply.value;
      target := Some(target.value.(state := state));
      if state.None? {
        return Failure(NullPointer("state"));
      }
      target := Some(target.value.(idState := state.value.id));
      return Success(state.value);
    }

    /**
     * `getVirtualAppliance`: follows the entity's link to its virtual
     * appliance; without such a link nothing is sent.
     */
    method GetVirtualAppliance(reply: Result<VirtualApplianceDto>) returns (r: Result<VirtualApplianceDto>)
      modifies this`requests
      ensures old(target).None? ==> r == Failure(NullPointer("target")) && requests == old(requests)
      ensures old(target).Some? && SearchLink(old(target).value.links, VirtualApplianceRel).None? ==>
        r == Failure(MissingLink(VirtualApplianceRel)) && requests == old(requests)
      ensures old(target).Some? && SearchLink(old(target).value.links, VirtualApplianceRel).Some? ==>
        r == reply && requests == old(requests) + [Request.Get(SearchLink(old(target).value.links, VirtualApplianceRel).value)]
    {
      if target.None? {
        return Failure(NullPointer("target"));
      }
      var link := SearchLink(target.value.links, VirtualApplianceRel);
      if link.None? {
        return Failure(MissingLink(VirtualApplianceRel));
      }
      requests := requests + [Request.Get(link.value)];
      return reply;
    }

    /** `listTasks`: the machine's tasks as the server lists them, most recent first. */
    method ListTasks(reply: Result<seq<AsyncTask>>) returns (r: Result<seq<AsyncTask>>)
      modifies this`requests
      ensures old(target).None? ==> r == Failure(NullPointer("target")) && requests == old(requests)
      ensures old(target).Some? ==> requests == old(requests) + [Request.ListTasks(old(target).value)]
      ensures old(target).Some? ==> (r.Success? <==> reply.Success?)
      ensures old(target).Some? && reply.Failure? ==> r == Failure(reply.error)
      ensures r.Success? ==> MostRecentFirstOrder(r.value) && multiset(r.value) == multiset(reply.value)
    {
      if target.None? {
        return Failure(NullPointer("target"));
      }
      requests := requests + [Request.ListTasks(target.value)];
      if reply.Failure? {
        return Failure(reply.error);
      }
      var sorted := MostRecentFirst(reply.value);
      return Success(sorted);
    }

    /** `listAttachedVolumes`: the volumes the server reports attached. */
    method ListAttachedVolumes(reply: Result<seq<VolumeDto>>) returns (r: Result<seq<VolumeDto>>)
      modifies this`requests
      ensures old(target).None? ==> r == Failure(NullPointer("target")) && requests == old(requests)
      ensures old(target).Some? ==> r == reply && requests == old(requests) + [Request.ListAttachedVolumes(old(target).value)]
    {
      if target.None? {
        return Failure(NullPointer("target"));
      }
      requests := requests + [Request.ListAttachedVolumes(target.value)];
      return reply;
    }

    /** `listAttachedHardDisks`: the hard disks the server reports attached. */
    method ListAttachedHardDisks(reply: Result<seq<DiskManagementDto>>) returns (r: Result<seq<DiskManagementDto>>)
      modifies this`requests
      ensures old(target).None? ==> r == Failure(NullPointer("target")) && requests == old(requests)
      ensures old(target).Some? ==> r == reply && requests == old(requests) + [Request.ListAttachedHardDisks(old(target).value)]
    {
      if target.None? {
        return Failure(NullPointer("target"));
      }
      requests := requests + [Request.ListAttachedHardDisks(target.value)];
      return reply;
    }

    /**
     * `replaceVolumes(volumes)`: sends the full list of volumes the machine
     * should have; the array is checked before the entity.
     */
    method ReplaceVolumes(volumes: Option<seq<VolumeDto>>, reply: Result<Option<TaskRef>>, getTask: TaskRef -> AsyncTask)
      returns (r: Result<Option<AsyncTask>>)
      modifies this`requests
      ensures volumes.None? ==> r == Failure(NullPointer("must provide at least one volume")) && requests == old(requests)
      ensures volumes.Some? && old(target).None? ==> r == Failure(NullPointer("target")) && requests == old(requests)
      ensures volumes.Some? && old(target).Some? ==>
        requests == old(requests) + [Request.ReplaceVolumes(old(target).value, volumes.value)]
        && ReturnsTaskOf(r, reply, getTask)
    {
      var dtos := Unwrap(volumes, "must provide at least one volume");
      if dtos.Failure? {
        return Failure(dtos.error);
      }
      if target.None? {
        return Failure(NullPointer("target"));
      }
      requests := requests + [Request.ReplaceVolumes(target.value, dtos.value)];
      r := TaskOf(reply, getTask);
    }

    /** `replaceHardDisks(disks)`: sends the full list of hard disks the machine should have. */
    method ReplaceHardDisks(disks: Option<seq<DiskManagementDto>>, reply: Result<Option<TaskRef>>, getTask: TaskRef -> AsyncTask)
      returns (r: Result<Option<AsyncTask>>)
      modifies this`requests
      ensures disks.None? ==> r == Failure(NullPointer("must provide at least one hard disk")) && requests == old(requests)
      ensures disks.Some? && old(target).None? ==> r == Failure(NullPointer("target")) && requests == old(requests)
      ensures disks.Some? && old(target).Some? ==>
        requests == old(requests) + [Request.ReplaceHardDisks(old(target).value, disks.value)]
        && ReturnsTaskOf(r, reply, getTask)
    {
      var dtos := Unwrap(disks, "must provide at least one hard disk");
      if dtos.Failure? {
        return Failure(dtos.error);
      }
      if target.None? {
        return Failure(NullPointer("target"));
      }
      requests := requests + [Request.ReplaceHardDisks(target.value, dtos.value)];
      r := TaskOf(reply, getTask);
    }

    /** `replaceNics(ips)`: sends the full list of IPs the machine's NICs should use. */
    method ReplaceNics(ips: Option<seq<IpPoolManagementDto>>, reply: Result<Option<TaskRef>>, getTask: TaskRef -> AsyncTask)
      returns (r: Result<Option<AsyncTask>>)
      modifies this`requests
      ensures ips.None? ==> r == Failure(NullPointer("must provide at least one ip")) && requests == old(requests)
      ensures ips.Some? && old(target).None? ==> r == Failure(NullPointer("target")) && requests == old(requests)
      ensures ips.Some? && old(target).Some? ==>
        requests == old(requests) + [Request.ReplaceNics(old(target).value, ips.value)]
        && ReturnsTaskOf(r, reply, getTask)
    {
      var dtos := Unwrap(ips, "must provide at least one ip");
      if dtos.Failure? {
        return Failure(dtos.error);
      }
      if target.None? {
        return Failure(NullPointer("target"));
      }
      requests := requests + [Request.ReplaceNics(target.value, dtos.value)];
      r := TaskOf(reply, getTask);
    }

    /**
     * `attachVolumes(volumes)`: lists the attached volumes, then sends them
     * followed by the given ones, in that order, as the full replacement.
     */
    method AttachVolumes(volumes: Option<seq<VolumeDto>>, attached: Result<seq<VolumeDto>>,
                         reply: Result<Option<TaskRef>>, getTask: TaskRef -> AsyncTask)
      returns (r: Result<Option<AsyncTask>>)
      modifies this`requests
      ensures old(target).None? ==> r == Failure(NullPointer("target")) && requests == old(requests)
      ensures old(target).Some? && attached.Failure? ==>
        r == Failure(attached.error) && requests == old(requests) + [Request.ListAttachedVolumes(old(target).value)]
      ensures old(target).Some? && attached.Success? && volumes.None? ==>
        r == Failure(NullPointer("volumes")) && requests == old(requests) + [Request.ListAttachedVolumes(old(target).value)]
      ensures old(target).Some? && attached.Success? && volumes.Some? ==>
        requests == old(requests) + [Request.ListAttachedVolumes(old(target).value),
                                     Request.ReplaceVolumes(old(target).value, attached.value + volumes.value)]
        && ReturnsTaskOf(r, reply, getTask)
    {
      var current := ListAttachedVolumes(attached);
      if current.Failure? {
        return Failure(current.error);
      }
      if volumes.None? {
        return Failure(NullPointer("volumes"));
      }
      var expected := current.value + volumes.value;
      r := ReplaceVolumes(Some(expected), reply, getTask);
    }

    /**
     * `detachVolumes(volumes)`: lists the attached volumes, then sends those
     * whose id is not the id of a given volume, in their order.
     */
    method DetachVolumes(volumes: Option<seq<VolumeDto>>, attached: Result<seq<VolumeDto>>,
                         reply: Result<Option<TaskRef>>, getTask: TaskRef -> AsyncTask)
      returns (r: Result<Option<AsyncTask>>)
      modifies this`requests
      ensures old(target).None? ==> r == Failure(NullPointer("target")) && requests == old(requests)
      ensures old(target).Some? && attached.Failure? ==>
        r == Failure(attached.error) && requests == old(requests) + [Request.ListAttachedVolumes(old(target).value)]
      ensures old(target).Some? && attached.Success? && volumes.None? ==>
        r == Failure(NullPointer("volumes")) && requests == old(requests) + [Request.ListAttachedVolumes(old(target).value)]
      ensures old(target).Some? && attached.Success? && volumes.Some? ==>
        requests == old(requests) + [Request.ListAttachedVolumes(old(target).value),
                                     Request.ReplaceVolumes(old(target).value, Filter(attached.value, Not(VolumeIdIn(volumes.value))))]
        && ReturnsTaskOf(r, reply, getTask)
    {
      var current := ListAttachedVolumes(attached);
      if current.Failure? {
        return Failure(current.error);
      }
      if volumes.None? {
        return Failure(NullPointer("volumes"));
      }
      var expected := RemoveIf(current.value, VolumeIdIn(volumes.value));
      r := ReplaceVolumes(Some(expected), reply, getTask);
    }

    /** `detachAllVolumes`: asks the server to detach every volume. */
    method DetachAllVolumes(reply: Result<Option<TaskRef>>, getTask: TaskRef -> AsyncTask) returns (r: Result<Option<AsyncTask>>)
      modifies this`requests
      ensures old(target).None? ==> r == Failure(NullPointer("target")) && requests == old(requests)
      ensures old(target).Some? ==>
        requests == old(requests) + [Request.DetachAllVolumes(old(target).value)] && ReturnsTaskOf(r, reply, getTask)
    {
      if target.None? {
        return Failure(NullPointer("target"));
      }
      requests := requests + [Request.DetachAllVolumes(target.value)];
      r := TaskOf(reply, getTask);
    }

    /**
     * `attachHardDisks(disks)`: lists the attached disks, then sends them
     * followed by the given ones, in that order, as the full replacement.
     */
    method AttachHardDisks(disks: Option<seq<DiskManagementDto>>, attached: Result<seq<DiskManagementDto>>,
                           reply: Result<Option<TaskRef>>, getTask: TaskRef -> AsyncTask)
      returns (r: Result<Option<AsyncTask>>)
      modifies this`requests
      ensures old(target).None? ==> r == Failure(NullPointer("target")) && requests == old(requests)
      ensures old(target).Some? && attached.Failure? ==>
        r == Failure(attached.error) && requests == old(requests) + [Request.ListAttachedHardDisks(old(target).value)]
      ensures old(target).Some? && attached.Success? && disks.None? ==>
        r == Failure(NullPointer("hardDisks")) && requests == old(requests) + [Request.ListAttachedHardDisks(old(target).value)]
      ensures old(target).Some? && attached.Success? && disks.Some? ==>
        requests == old(requests) + [Request.ListAttachedHardDisks(old(target).value),
                                     Request.ReplaceHardDisks(old(target).value, attached.value + disks.value)]
        && ReturnsTaskOf(r, reply, getTask)
    {
      var current := ListAttachedHardDisks(attached);
      if current.Failure? {
        return Failure(current.error);
      }
      if disks.None? {
        return Failure(NullPointer("hardDisks"));
      }
      var expected := current.value + disks.value;
      r := ReplaceHardDisks(Some(expected), reply, getTask);
    }

    /**
     * `detachHardDisks(disks)`: lists the attached disks, then sends those
     * whose id is not the id of a given disk, in their order.
     */
    method DetachHardDisks(disks: Option<seq<DiskManagementDto>>, attached: Result<seq<DiskManagementDto>>,
                           reply: Result<Option<TaskRef>>, getTask: TaskRef -> AsyncTask)
      returns (r: Result<Option<AsyncTask>>)
      modifies this`requests
      ensures old(target).None? ==> r == Failure(NullPointer("target")) && requests == old(requests)
      ensures old(target).Some? && attached.Failure? ==>
        r == Failure(attached.error) && requests == old(requests) + [Request.ListAttachedHardDisks(old(target).value)]
      ensures old(target).Some? && attached.Success? && disks.None? ==>
        r == Failure(NullPointer("hardDisks")) && requests == old(requests) + [Request.ListAttachedHardDisks(old(target).value)]
      ensures old(target).Some? && attached.Success? && disks.Some? ==>
        requests == old(requests) + [Request.ListAttachedHardDisks(old(target).value),
                                     Request.ReplaceHardDisks(old(target).value, Filter(attached.value, Not(HardDiskIdIn(disks.value))))]
        && ReturnsTaskOf(r, reply, getTask)
    {
      var current := ListAttachedHardDisks(attached);
      if current.Failure? {
        return Failure(current.error);
      }
      if disks.None? {
        return Failure(NullPointer("hardDisks"));
      }
      var expected := RemoveIf(current.value, HardDiskIdIn(disks.value));
      r := ReplaceHardDisks(Some(expected), reply, getTask);
    }

    /** `detachAllHardDisks`: asks the server to detach every hard disk. */
    method DetachAllHardDisks(reply: Result<Option<TaskRef>>, getTask: TaskRef -> AsyncTask) returns (r: Result<Option<AsyncTask>>)
      modifies this`requests
      ensures old(target).None? ==> r == Failure(NullPointer("target")) && requests == old(requests)
      ensures old(target).Some? ==>
        requests == old(requests) + [Request.DetachAllHardDisks(old(target).value)] && ReturnsTaskOf(r, reply, getTask)
    {
      if target.None? {
        return Failure(NullPointer("target"));
      }
      requests := requests + [Request.DetachAllHardDisks(target.value)];
      r := TaskOf(reply, getTask);
    }

    /** `attachNic(ip)`: asks for a NIC on the given IP; a null IP fails before the entity is checked. */
    method AttachNic(ip: Option<IpPoolManagementDto>, reply: Result<Option<TaskRef>>, getTask: TaskRef -> AsyncTask)
      returns (r: Result<Option<AsyncTask>>)
      modifies this`requests
      ensures ip.None? ==> r == Failure(NullPointer("ip")) && requests == old(requests)
      ensures ip.Some? && old(target).None? ==> r == Failure(NullPointer("target")) && requests == old(requests)
      ensures ip.Some? && old(target).Some? ==>
        requests == old(requests) + [Request.CreateNic(old(target).value, ip.value)] && ReturnsTaskOf(r, reply, getTask)
    {
      if ip.None? {
        return Failure(NullPointer("ip"));
      }
      if target.None? {
        return Failure(NullPointer("target"));
      }
      requests := requests + [Request.CreateNic(target.value, ip.value)];
      r := TaskOf(reply, getTask);
    }

    /** `attachNicFromUnmanagedNetwork(network)`: asks for a NIC in the given unmanaged network. */
    method AttachNicFromUnmanagedNetwork(network: Option<Network>, reply: Result<Option<TaskRef>>, getTask: TaskRef -> AsyncTask)
      returns (r: Result<Option<AsyncTask>>)
      requires network.Some? ==> network.value.kind == UnmanagedKind
      modifies this`requests
      ensures network.None? ==> r == Failure(NullPointer("network")) && requests == old(requests)
      ensures network.Some? && old(target).None? ==> r == Failure(NullPointer("target")) && requests == old(requests)
      ensures network.Some? && old(target).Some? ==>
        requests == old(requests) + [Request.CreateNicInNetwork(old(target).value, network.value.target)]
        && ReturnsTaskOf(r, reply, getTask)
    {
      if network.None? {
        return Failure(NullPointer("network"));
      }
      if target.None? {
        return Failure(NullPointer("target"));
      }
      requests := requests + [Request.CreateNicInNetwork(target.value, network.value.target)];
      r := TaskOf(reply, getTask);
    }
  }

  /** `VirtualMachine.Builder`: collects the fields of a new virtual machine; unset fields are null. */
  class Builder {
    var virtualAppliance: VirtualApplianceDto
    const template: Option<VirtualMachineTemplateDto>
    var name: Option<string>
    var description: Option<string>
    var ram: Option<int>
    var cpu: Option<int>
    var vncPort: Option<int>
    var vncAddress: Option<string>
    var idState: Option<int>
    var idType: Option<int>
    var password: Option<string>

    constructor (virtualAppliance: VirtualApplianceDto, template: Option<VirtualMachineTemplateDto>)
      ensures this.virtualAppliance == virtualAppliance && this.template == template
      ensures name.None? && description.None? && ram.None? && cpu.None? && vncPort.None?
      ensures vncAddress.None? && idState.None? && idType.None? && password.None?
    {
      this.virtualAppliance := virtualAppliance;
      this.template := template;
      name, description, ram, cpu, vncPort := None, None, None, None, None;
      vncAddress, idState, idType, password := None, None, None, None;
    }

    /** The builder's constructor: a null virtual appliance is rejected; the template is not checked. */
    static method Create(virtualAppliance: Option<VirtualApplianceDto>, template: Option<VirtualMachineTemplateDto>)
      returns (r: Result<Builder>)
      ensures r.Failure? <==> virtualAppliance.None?
      ensures r.Failure? ==> r.error == NullPointer(NullResource + "VirtualAppliance")
      ensures r.Success? ==> r.value.virtualAppliance == virtualAppliance.value && r.value.template == template
      ensures r.Success? ==> fresh(r.value)
      ensures r.Success? ==> r.value.name.None? && r.value.description.None? && r.value.password.None?
      ensures r.Success? ==> r.value.cpu.None? && r.value.ram.None? && r.value.vncPort.None? && r.value.vncAddress.None?
      ensures r.Success? ==> r.value.idState.None? && r.value.idType.None?
    {
      if virtualAppliance.None? {
        return Failure(NullPointer(NullResource + "VirtualAppliance"));
      }
      var builder := new Builder(virtualAppliance.value, template);
      return Success(builder);
    }

    /** `virtualAppliance(va)`: a null virtual appliance is rejected and leaves the builder as it was. */
    method SetVirtualAppliance(virtualAppliance: Option<VirtualApplianceDto>) returns (r: Outcome)
      modifies this`virtualAppliance
      ensures r.Fail? <==> virtualAppliance.None?
      ensures r.Fail? ==>
        r.error == NullPointer(NullResource + "VirtualAppliance") && this.virtualAppliance == old(this.virtualAppliance)
      ensures r.Pass? ==> this.virtualAppliance == virtualAppliance.value
    {
      if virtualAppliance.None? {
        return Fail(NullPointer(NullResource + "VirtualAppliance"));
      }
      this.virtualAppliance := virtualAppliance.value;
      return Pass;
    }

    method Name(name: Option<string>)
      modifies this`name
      ensures this.name == name
    {
      this.name := name;
    }

    method Description(description: Option<string>)
      modifies this`description
      ensures this.description == description
    {
      this.description := description;
    }

    method Ram(ram: int)
      modifies this`ram
      ensures this.ram == Some(ram)
    {
      this.ram := Some(ram);
    }

    method Cpu(cpu: int)
      modifies this`cpu
      ensures this.cpu == Some(cpu)
    {
      this.cpu := Some(cpu);
    }

    method Password(password: Option<string>)
      modifies this`password
      ensures this.password == password
    {
      this.password := password;
    }

    method VncPort(vncPort: int)
      modifies this`vncPort
      ensures this.vncPort == Some(vncPort)
    {
      this.vncPort := Some(vncPort);
    }

    method VncAddress(vncAddress: Option<string>)
      modifies this`vncAddress
      ensures this.vncAddress == vncAddress
    {
      this.vncAddress := vncAddress;
    }

    method IdState(idState: int)
      modifies this`idState
      ensures this.idState == Some(idState)
    {
      this.idState := Some(idState);
    }

    method IdType(idType: int)
      modifies this`idType
      ensures this.idType == Some(idType)
    {
      this.idType := Some(idType);
    }

    /**
     * `build`: a new, unsaved machine. Name, description, password and the
     * console address are copied; cpu, ram, console port, state id and type
     * id only when they were given (0 otherwise); the disk size comes from
     * the template, so a null template fails; the uuid is never set.
     */
    method Build() returns (r: Result<VirtualMachine>)
      ensures r.Failure? <==> template.None?
      ensures r.Success? ==> fresh(r.value)
      ensures r.Failure? ==> r.error == NullPointer("template")
      ensures r.Success? ==>
        r.value.virtualAppliance == Some(virtualAppliance) && r.value.template == template
        && r.value.requests == [] && r.value.target.Some?
      ensures r.Success? ==>
        var dto := r.value.target.value;
        dto.id.None? && dto.name == name && dto.description == description && dto.password == password
        && dto.vdrpIP == vncAddress && dto.hdInBytes == template.value.hdRequired
        && dto.cpu == (if cpu.Some? then cpu.value else 0) && dto.ram == (if ram.Some? then ram.value else 0)
        && dto.vdrpPort == (if vncPort.Some? then vncPort.value else 0)
        && dto.idState == (if idState.Some? then idState.value else 0)
        && dto.idType == (if idType.Some? then idType.value else 0)
        && dto.uuid.None? && dto.state.None? && dto.links == []
    {
      var dto := VirtualMachineDto(None, None, None, 0, 0, 0, None, 0, 0, 0, None, None, None, []);
      dto := dto.(name := name, description := description);
      if template.None? {
        return Failure(NullPointer("template"));
      }
      dto := dto.(hdInBytes := template.value.hdRequired, vdrpIP := vncAddress);
      if cpu.Some? {
        dto := dto.(cpu := cpu.value);
      }
      if ram.Some? {
        dto := dto.(ram := ram.value);
      }
      if vncPort.Some? {
        dto := dto.(vdrpPort := vncPort.value);
      }
      if idState.Some? {
        dto := dto.(idState := idState.value);
      }
      if idType.Some? {
        dto := dto.(idType := idType.value);
      }
      dto := dto.(password := password, uuid := None);
      var vm := new VirtualMachine(dto, Some(virtualAppliance), template);
      return Success(vm);
    }

    /**
     * `fromVirtualMachine(in)`: a builder holding the machine's virtual
     * appliance and template and the values of its entity. It fails without
     * a virtual appliance, and without an entity to read.
     */
    static method FromVirtualMachine(source: VirtualMachine) returns (r: Result<Builder>)
      ensures r.Success? <==> source.virtualAppliance.Some? && source.target.Some?
      ensures r.Success? ==> fresh(r.value)
      ensures source.virtualAppliance.None? ==> r == Failure(NullPointer(NullResource + "VirtualAppliance"))
      ensures source.virtualAppliance.Some? && source.target.None? ==> r == Failure(NullPointer("target"))
      ensures r.Success? ==>
        var dto := source.target.value;
        r.value.virtualAppliance == source.virtualAppliance.value && r.value.template == source.template
        && r.value.name == dto.name && r.value.description == dto.description && r.value.password == dto.password
        && r.value.ram == Some(dto.ram) && r.value.cpu == Some(dto.cpu)
        && r.value.vncAddress == dto.vdrpIP && r.value.vncPort == Some(dto.vdrpPort)
        && r.value.idState == Some(dto.idState) && r.value.idType == Some(dto.idType)
    {
      if source.virtualAppliance.None? {
        return Failure(NullPointer(NullResource + "VirtualAppliance"));
      }
      var builder := new Builder(source.virtualAppliance.value, source.template);
      if source.target.None? {
        return Failure(NullPointer("target"));
      }
      var dto := source.target.value;
      builder.Name(dto.name);
      builder.Description(dto.description);
      builder.Ram(dto.ram);
      builder.Cpu(dto.cpu);
      builder.VncAddress(dto.vdrpIP);
      builder.VncPort(dto.vdrpPort);
      builder.IdState(dto.idState);
      builder.IdType(dto.idType);
      builder.Password(dto.password);
      return Success(builder);
    }
  }

  /**
   * Rebuilding a machine through `fromVirtualMachine` and `build` gives a new,
   * unsaved machine with the same name, description, password, cpu, ram,
   * console address and port, state id and type id, in the same virtual
   * appliance and from the same template, with the template's disk size.
   */
  method Rebuild(source: VirtualMachine) returns (r: Result<VirtualMachine>)
    ensures r.Success? <==> source.virtualAppliance.Some? && source.target.Some? && source.template.Some?
    ensures r.Success? ==>
      r.value.target.Some? && r.value.virtualAppliance == source.virtualAppliance && r.value.template == source.template
    ensures r.Success? && r.value.target.Some? ==>
      var before := source.target.value;
      var after := r.value.target.value;
      after.name == before.name && after.description == before.description && after.password == before.password
      && after.cpu == before.cpu && after.ram == before.ram
      && after.vdrpIP == before.vdrpIP && after.vdrpPort == before.vdrpPort
      && after.idState == before.idState && after.idType == before.idType
      && after.hdInBytes == source.template.value.hdRequired && after.id.None?
  {
    var builder := Builder.FromVirtualMachine(source);
    if builder.Failure? {
      return Failure(builder.error);
    }
    r := builder.value.Build();
  }
}
