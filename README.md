# Abiquo client domain model in Dafny

This project models the client-side core of the jclouds Abiquo provider: the
domain wrappers that hold an entity received from the Abiquo API and act on it
through remote calls. The wrappers are:

- the virtual machine (`VirtualMachine`): its lifecycle, its task list, and its
  attached volumes, hard disks and NICs;
- networks (`Network`) and NICs (`Nic`): narrowing a network to its kind,
  looking up its IPs, and converting a NIC to the kind of its network;
- volumes (`Volume`) and remote services (`RemoteService`) with their builders;
- the IP filter predicates (`IpPredicates`);
- the request filter (`AbiquoAuthentication`) that authenticates every call,
  either with HTTP Basic credentials (section 2 of RFC 2617) or with a token
  cookie.

How the model is built:

- Java `null` is an `Option` value.
- A thrown exception is the `Failure` case of a `Result`, or the `Fail` case of
  an `Outcome`. Its `Error` kind is one of: `NullPointerException` with its
  message, a missing link, an illegal argument, an unsupported operation, or a
  remote error.
- A wrapper whose fields the Java code reassigns is a Dafny `class`. Its
  `target` field is `None` once the entity has been deleted. Its methods state
  the new value of every field they modify.
- A remote call is split into two parts:
  - the server's answer is a parameter of the method (`reply`);
  - what the wrapper sends is appended to a ghost log, `requests`.

  Each method's contract therefore says which call is sent, with which entity,
  and how the answer becomes the result and the new state. It also says which
  checks reject the call before anything is sent.
- Turning a returned task reference into a task is a function parameter,
  `getTask`.

Files:

- `results.dfy`: `Option`, `Result`, `Outcome` and the error kinds.
- `text.dfy`: decimal rendering and parsing of integers, splitting at a
  character, and the text after the last separator.
- `lists.dfy`: order-preserving filtering, the first match, and in-place
  removal.
- `transport.dfy`: links and the transfer objects the wrappers hold.
- `encoding.dfy`: UTF-8 (RFC 3629) and padded Base64 (section 4 of RFC 4648),
  each with its decoder and a round-trip lemma.
- `authentication.dfy`, `ip_predicates.dfy`, `network.dfy`, `nic.dfy`,
  `volume.dfy`, `remote_service.dfy`, `virtual_machine.dfy`: the wrappers
  themselves.

## Model

Source paths are relative to the repository root.

| member | source | states |
|---|---|---|
| VirtualMachines.VirtualMachine.Delete | core/src/main/java/org/jclouds/abiquo/domain/cloud/VirtualMachine.java:94-98 | sends a delete for the held entity and, on success, drops it (`target` becomes null); a failed call leaves it; a deleted VM cannot be deleted again |
| VirtualMachines.VirtualMachine.Save | core/src/main/java/org/jclouds/abiquo/domain/cloud/VirtualMachine.java:100-111 | fails before any call on a null template, a template without id, or one without an edit link; otherwise points the entity's template link at the template's edit link and sends a create in the virtual appliance; on success the server's entity replaces the local one |
| VirtualMachines.VirtualMachine.Update | core/src/main/java/org/jclouds/abiquo/domain/cloud/VirtualMachine.java:113-118 | sends an update of the entity; no task when the server returns no task reference, otherwise the task of that reference |
| VirtualMachines.VirtualMachine.ChangeState | core/src/main/java/org/jclouds/abiquo/domain/cloud/VirtualMachine.java:120-129 | sends the requested state for the entity, null included, and returns the task of the returned reference |
| VirtualMachines.VirtualMachine.GetState | core/src/main/java/org/jclouds/abiquo/domain/cloud/VirtualMachine.java:131-139 | fetches the state, stores it in the entity and returns it; a null state fails on dereference after the call |
| VirtualMachines.VirtualMachine.GetVirtualAppliance | core/src/main/java/org/jclouds/abiquo/domain/cloud/VirtualMachine.java:149-163 | fails with a missing-link error, before any call, when the entity has no virtual appliance link; otherwise returns the fetched appliance |
| VirtualMachines.VirtualMachine.ListTasks | core/src/main/java/org/jclouds/abiquo/domain/cloud/VirtualMachine.java:235-251 | the fetched tasks, each as often as fetched, ordered by non-increasing timestamp (most recent first) |
| VirtualMachines.MostRecentFirst | core/src/main/java/org/jclouds/abiquo/domain/cloud/VirtualMachine.java:240-249 | the sort of `listTasks`: a permutation of its input with non-increasing timestamps |
| VirtualMachines.SortMostRecentFirst | core/src/main/java/org/jclouds/abiquo/domain/cloud/VirtualMachine.java:240-249 | sorting an array in place, most recent first, keeps the same multiset of tasks |
| VirtualMachines.Insert | core/src/main/java/org/jclouds/abiquo/domain/cloud/VirtualMachine.java:240-249 | one insertion step: extends the sorted prefix by one element, as a permutation of the array |
| VirtualMachines.FirstIsMostRecent | core/src/main/java/org/jclouds/abiquo/domain/cloud/VirtualMachine.java:238-250 | the first task of the sorted list is one of the fetched tasks and at least as recent as every fetched task |
| VirtualMachines.VirtualMachine.ListAttachedVolumes | core/src/main/java/org/jclouds/abiquo/domain/cloud/VirtualMachine.java:218-223 | sends the listing for the entity and returns the server's volumes |
| VirtualMachines.VirtualMachine.ListAttachedHardDisks | core/src/main/java/org/jclouds/abiquo/domain/cloud/VirtualMachine.java:201-206 | sends the listing for the entity and returns the server's hard disks |
| VirtualMachines.VirtualMachine.AttachHardDisks | core/src/main/java/org/jclouds/abiquo/domain/cloud/VirtualMachine.java:314-321 | lists the attached disks, then sends them followed by the given ones, in that order, as the replacement set; a null array fails after the listing |
| VirtualMachines.VirtualMachine.DetachAllHardDisks | core/src/main/java/org/jclouds/abiquo/domain/cloud/VirtualMachine.java:323-328 | sends the detach-all call; no task on a null reference, otherwise its task |
| VirtualMachines.VirtualMachine.DetachHardDisks | core/src/main/java/org/jclouds/abiquo/domain/cloud/VirtualMachine.java:330-337 | lists the attached disks, then sends exactly those whose id is not an id of the given ones, in their order |
| VirtualMachines.VirtualMachine.ReplaceHardDisks | core/src/main/java/org/jclouds/abiquo/domain/cloud/VirtualMachine.java:339-344 | sends the given disks as the new set (a null array is rejected first); no task on a null reference, otherwise its task |
| VirtualMachines.VirtualMachine.AttachVolumes | core/src/main/java/org/jclouds/abiquo/domain/cloud/VirtualMachine.java:346-353 | lists the attached volumes, then sends them followed by the given ones, in that order, as the replacement set |
| VirtualMachines.VirtualMachine.DetachAllVolumes | core/src/main/java/org/jclouds/abiquo/domain/cloud/VirtualMachine.java:355-360 | sends the detach-all call; no task on a null reference, otherwise its task |
| VirtualMachines.VirtualMachine.DetachVolumes | core/src/main/java/org/jclouds/abiquo/domain/cloud/VirtualMachine.java:362-369 | lists the attached volumes, then sends exactly those whose id is not an id of the given ones, in their order |
| VirtualMachines.VirtualMachine.ReplaceVolumes | core/src/main/java/org/jclouds/abiquo/domain/cloud/VirtualMachine.java:371-376 | sends the given volumes as the new set (a null array is rejected first); no task on a null reference, otherwise its task |
| VirtualMachines.VirtualMachine.ReplaceNics | core/src/main/java/org/jclouds/abiquo/domain/cloud/VirtualMachine.java:378-383 | sends the given IPs as the new NIC set (a null array is rejected first); no task on a null reference, otherwise its task |
| VirtualMachines.VirtualMachine.AttachNic | core/src/main/java/org/jclouds/abiquo/domain/cloud/VirtualMachine.java:404-409 | a null IP is rejected before any call; otherwise sends a NIC creation for the IP and returns the task, if any |
| VirtualMachines.VirtualMachine.AttachNicFromUnmanagedNetwork | core/src/main/java/org/jclouds/abiquo/domain/cloud/VirtualMachine.java:417-422 | a null network is rejected before any call; otherwise sends a NIC creation in the network and returns the task, if any |
| VirtualMachines.Unwrap | core/src/main/java/org/jclouds/abiquo/domain/cloud/VirtualMachine.java:679-716 | `toVolumeDto`/`toHardDiskDto`/`toIpDto`: the wrapped entities in order, copied into a fresh array; a null array fails with the given message |
| VirtualMachines.VolumeIdIn | core/src/main/java/org/jclouds/abiquo/domain/cloud/VirtualMachine.java:718-730 | accepts a volume exactly when its id is the id of one of the given volumes |
| VirtualMachines.HardDiskIdIn | core/src/main/java/org/jclouds/abiquo/domain/cloud/VirtualMachine.java:732-744 | accepts a disk exactly when its id is the id of one of the given disks |
| VirtualMachines.VolumeIds | core/src/main/java/org/jclouds/abiquo/domain/cloud/VirtualMachine.java:746-756 | the ids of the volumes, one per volume, in order |
| VirtualMachines.HardDiskIds | core/src/main/java/org/jclouds/abiquo/domain/cloud/VirtualMachine.java:758-768 | the ids of the disks, one per disk, in order |
| VirtualMachines.DetachUndoesAttachVolumes | core/src/main/java/org/jclouds/abiquo/domain/cloud/VirtualMachine.java:346-369 | detaching the volumes just attached restores the set sent before, in order, when no id is shared |
| VirtualMachines.DetachUndoesAttachHardDisks | core/src/main/java/org/jclouds/abiquo/domain/cloud/VirtualMachine.java:314-337 | the same for hard disks |
| VirtualMachines.UpdateLink | core/src/main/java/org/jclouds/abiquo/domain/cloud/VirtualMachine.java:107 | after the update the last link is the given relation and URI, and every link of another relation is kept |
| VirtualMachines.RemoveFirstWithRel | core/src/main/java/org/jclouds/abiquo/domain/cloud/VirtualMachine.java:107 | removing the old link of a relation keeps every link of another relation |
| VirtualMachines.Builder.Create | core/src/main/java/org/jclouds/abiquo/domain/cloud/VirtualMachine.java:465-473 | rejects a null virtual appliance; the template is not checked; a new builder in which every optional field starts unset |
| VirtualMachines.Builder.SetVirtualAppliance | core/src/main/java/org/jclouds/abiquo/domain/cloud/VirtualMachine.java:532-537 | rejects a null virtual appliance and leaves the old one; otherwise stores it |
| VirtualMachines.Builder.Name | core/src/main/java/org/jclouds/abiquo/domain/cloud/VirtualMachine.java:475-479 | sets the name only |
| VirtualMachines.Builder.Description | core/src/main/java/org/jclouds/abiquo/domain/cloud/VirtualMachine.java:481-485 | sets the description only |
| VirtualMachines.Builder.Ram | core/src/main/java/org/jclouds/abiquo/domain/cloud/VirtualMachine.java:487-491 | sets the RAM only |
| VirtualMachines.Builder.Cpu | core/src/main/java/org/jclouds/abiquo/domain/cloud/VirtualMachine.java:493-497 | sets the CPU count only |
| VirtualMachines.Builder.Password | core/src/main/java/org/jclouds/abiquo/domain/cloud/VirtualMachine.java:499-503 | sets the password only |
| VirtualMachines.Builder.VncPort | core/src/main/java/org/jclouds/abiquo/domain/cloud/VirtualMachine.java:508-512 | sets the VNC port only |
| VirtualMachines.Builder.VncAddress | core/src/main/java/org/jclouds/abiquo/domain/cloud/VirtualMachine.java:514-518 | sets the VNC address only |
| VirtualMachines.Builder.IdState | core/src/main/java/org/jclouds/abiquo/domain/cloud/VirtualMachine.java:520-524 | sets the state id only |
| VirtualMachines.Builder.IdType | core/src/main/java/org/jclouds/abiquo/domain/cloud/VirtualMachine.java:526-530 | sets the type id only |
| VirtualMachines.Builder.Build | core/src/main/java/org/jclouds/abiquo/domain/cloud/VirtualMachine.java:539-580 | copies name, description, password and VNC address; sets cpu, ram, VNC port, state id and type id only when given (0 otherwise); takes the disk size from the template, so a null template fails; no id and no uuid |
| VirtualMachines.Builder.FromVirtualMachine | core/src/main/java/org/jclouds/abiquo/domain/cloud/VirtualMachine.java:582-588 | a builder for the same appliance and template, carrying every copied field of the entity |
| VirtualMachines.Rebuild | core/src/main/java/org/jclouds/abiquo/domain/cloud/VirtualMachine.java:539-588 | building from `fromVirtualMachine(vm)` gives an unsaved VM with the same fields, appliance and template, and the template's disk size |
| Networks.To | core/src/main/java/org/jclouds/abiquo/domain/network/Network.java:172-206 | narrowing succeeds exactly when the network type matches the kind (INTERNAL private, EXTERNAL, PUBLIC, UNMANAGED) and keeps the same entity; a wrong type is an illegal argument naming it |
| Networks.TypeOf | core/src/main/java/org/jclouds/abiquo/domain/network/Network.java:172-206 | no subclass stands for EXTERNAL_UNMANAGED |
| Networks.TypeOfInjective | core/src/main/java/org/jclouds/abiquo/domain/network/Network.java:172-206 | two subclasses have the same type tag exactly when they are the same subclass |
| Networks.WrapNetwork | core/src/main/java/org/jclouds/abiquo/domain/network/Network.java:325-354 | null gives null; EXTERNAL, INTERNAL, PUBLIC and UNMANAGED give the matching kind over the same entity; EXTERNAL_UNMANAGED is unsupported |
| Networks.WrapThenNarrow | core/src/main/java/org/jclouds/abiquo/domain/network/Network.java:325-354 | a wrapped network narrows back to its own kind, with the same entity |
| Networks.WrapNetworks | core/src/main/java/org/jclouds/abiquo/domain/network/Network.java:356-365 | same length and order, element i is `wrapNetwork` of input i; the first failing element makes the whole call fail |
| Networks.ListIps | core/src/main/java/org/jclouds/abiquo/domain/network/Network.java:58-61 | exactly the IPs the filter accepts, never more than were listed |
| Networks.ListIpsKeepsOrder | core/src/main/java/org/jclouds/abiquo/domain/network/Network.java:58-61 | filtering commutes with concatenation, so the original order is kept |
| Networks.ListIpsBounds | core/src/main/java/org/jclouds/abiquo/domain/network/Network.java:58-61 | an all-accepting filter keeps every IP, an all-rejecting one none |
| Networks.FindIp | core/src/main/java/org/jclouds/abiquo/domain/network/Network.java:63-66 | the first accepted IP, or null when none is accepted |
| Networks.ListAvailableIps | core/src/main/java/org/jclouds/abiquo/domain/network/Network.java:68-71 | exactly the IPs whose available flag is set |
| Networks.FindAvailableIp | core/src/main/java/org/jclouds/abiquo/domain/network/Network.java:73-76 | the first IP that is both available and accepted, or null |
| Networks.EmptyFiltersListNothing | core/src/main/java/org/jclouds/abiquo/predicates/network/IpPredicates.java:38-64 | `name()` and `address()` with no values select no IP |
| Networks.NetworkBuilder.Name | core/src/main/java/org/jclouds/abiquo/domain/network/Network.java:109-114 | sets the name, null included, and nothing else |
| Networks.NetworkBuilder.Tag | core/src/main/java/org/jclouds/abiquo/domain/network/Network.java:116-121 | sets the tag only |
| Networks.NetworkBuilder.Gateway | core/src/main/java/org/jclouds/abiquo/domain/network/Network.java:123-128 | sets the gateway, null included, and nothing else |
| Networks.NetworkBuilder.Address | core/src/main/java/org/jclouds/abiquo/domain/network/Network.java:130-135 | sets the address, null included, and nothing else |
| Networks.NetworkBuilder.Mask | core/src/main/java/org/jclouds/abiquo/domain/network/Network.java:137-142 | sets the mask only |
| Networks.NetworkBuilder.PrimaryDNS | core/src/main/java/org/jclouds/abiquo/domain/network/Network.java:144-149 | sets the primary DNS, null included, and nothing else |
| Networks.NetworkBuilder.SecondaryDNS | core/src/main/java/org/jclouds/abiquo/domain/network/Network.java:151-156 | sets the secondary DNS, null included, and nothing else |
| Networks.NetworkBuilder.SufixDNS | core/src/main/java/org/jclouds/abiquo/domain/network/Network.java:158-163 | sets the DNS suffix, null included, and nothing else |
| Networks.NetworkBuilder.DefaultNetwork | core/src/main/java/org/jclouds/abiquo/domain/network/Network.java:165-170 | sets the default-network flag only |
| Transport.SearchLinkFindsFirst | core/src/main/java/org/jclouds/abiquo/domain/network/Nic.java:59 | the link lookup the checks rely on finds a link exactly when one has the relation, and then the first such link |
| Nics.Nic.ToPublicNic | core/src/main/java/org/jclouds/abiquo/domain/network/Nic.java:57-62 | succeeds exactly when a "publicnetwork" link exists, as a new wrapper of the same entity; otherwise a missing-link error |
| Nics.Nic.ToPrivateNic | core/src/main/java/org/jclouds/abiquo/domain/network/Nic.java:64-69 | succeeds exactly when a "privatenetwork" link exists, as a new wrapper of the same entity |
| Nics.Nic.ToExternalNic | core/src/main/java/org/jclouds/abiquo/domain/network/Nic.java:71-76 | succeeds exactly when an "externalnetwork" link exists, as a new wrapper of the same entity |
| Nics.Nic.Save | core/src/main/java/org/jclouds/abiquo/domain/network/Nic.java:52-55 | changes nothing |
| Nics.Nic.SetAvailable | core/src/main/java/org/jclouds/abiquo/domain/network/Nic.java:115-118 | sets the available flag; every other field of the entity is unchanged |
| Nics.Nic.SetQuarantine | core/src/main/java/org/jclouds/abiquo/domain/network/Nic.java:120-123 | sets the quarantine flag; every other field of the entity is unchanged |
| Volumes.Volume.Delete | core/src/main/java/org/jclouds/abiquo/domain/cloud/Volume.java:67-71 | sends a delete and, on success, drops the entity |
| Volumes.Volume.Save | core/src/main/java/org/jclouds/abiquo/domain/cloud/Volume.java:73-76 | sends a create in the virtual datacenter; on success the server's entity replaces the local one |
| Volumes.Volume.Update | core/src/main/java/org/jclouds/abiquo/domain/cloud/Volume.java:78-81 | sends an update; on success the server's entity replaces the local one |
| Volumes.Volume.GetVirtualDatacenter | core/src/main/java/org/jclouds/abiquo/domain/cloud/Volume.java:90-97 | fetches the parent named by the entity's link, stores the answer in `virtualDatacenter` and returns it; a parent the server does not find is stored and returned as null |
| Volumes.Volume.GetTier | core/src/main/java/org/jclouds/abiquo/domain/cloud/Volume.java:102-109 | fails before any call when the stored virtual datacenter is null; otherwise fetches the tier named by the entity's link within it, stores the answer (null when not found) in `tier` and returns it |
| Volumes.Builder.Create | core/src/main/java/org/jclouds/abiquo/domain/cloud/Volume.java:133-142 | as written: rejects a null virtual datacenter only; a new builder that holds no tier whatever is passed |
| Volumes.Builder.CreateChecked | core/src/main/java/org/jclouds/abiquo/domain/cloud/Volume.java:133-142 | as intended: rejects a null virtual datacenter, then a null tier; a new builder that keeps both |
| Volumes.Builder.Name | core/src/main/java/org/jclouds/abiquo/domain/cloud/Volume.java:144-148 | sets the name, null included, and nothing else |
| Volumes.Builder.Description | core/src/main/java/org/jclouds/abiquo/domain/cloud/Volume.java:150-154 | sets the description, null included, and nothing else |
| Volumes.Builder.SizeInMb | core/src/main/java/org/jclouds/abiquo/domain/cloud/Volume.java:156-160 | sets the size only |
| Volumes.Builder.Build | core/src/main/java/org/jclouds/abiquo/domain/cloud/Volume.java:162-175 | a new, unsaved volume with the collected name, description and size, in the DETACHED state, holding the builder's parents |
| Volumes.BuildDropsTier | core/src/main/java/org/jclouds/abiquo/domain/cloud/Volume.java:137-141 | through the constructor as written, a volume built with a tier has none |
| Volumes.BuildKeepsTier | core/src/main/java/org/jclouds/abiquo/domain/cloud/Volume.java:137-141 | through the corrected constructor, the built volume keeps its tier |
| RemoteServices.GenerateUri | core/src/main/java/org/jclouds/abiquo/domain/infrastructure/RemoteService.java:74-78 | protocol, ip, ":", port, "/" and the service mapping; null ip or port written "null"; a null type fails |
| RemoteServices.GenerateDefaultUri | core/src/main/java/org/jclouds/abiquo/domain/infrastructure/RemoteService.java:80-83 | the same URI on the type's default port |
| RemoteServices.UriRoundTrip | core/src/main/java/org/jclouds/abiquo/domain/infrastructure/RemoteService.java:74-78 | ip and port can be read back from a generated URI when the ip has no colon |
| RemoteServices.ReadProtocol | core/src/main/java/org/jclouds/abiquo/domain/infrastructure/RemoteService.java:74-78 | a URI starting with the type's protocol is read as the address after it |
| RemoteServices.ReadAddress | core/src/main/java/org/jclouds/abiquo/domain/infrastructure/RemoteService.java:74-78 | `ip:port/mapping` is read back as ip and port |
| RemoteServices.ReadPort | core/src/main/java/org/jclouds/abiquo/domain/infrastructure/RemoteService.java:74-78 | `port/mapping` is read back as the port |
| RemoteServices.RemoteService.Delete | core/src/main/java/org/jclouds/abiquo/domain/infrastructure/RemoteService.java:53-58 | sends a delete and, on success, drops the entity |
| RemoteServices.RemoteService.Save | core/src/main/java/org/jclouds/abiquo/domain/infrastructure/RemoteService.java:60-66 | sends a create in the datacenter; on success the server's entity replaces the local one |
| RemoteServices.RemoteService.Update | core/src/main/java/org/jclouds/abiquo/domain/infrastructure/RemoteService.java:68-72 | sends an update; on success the server's entity replaces the local one |
| RemoteServices.RemoteService.GetDatacenter | core/src/main/java/org/jclouds/abiquo/domain/infrastructure/RemoteService.java:87-94 | fetches the datacenter named by the entity's link, stores the answer and returns it; a datacenter the server does not find is stored and returned as null |
| RemoteServices.Builder.Create | core/src/main/java/org/jclouds/abiquo/domain/infrastructure/RemoteService.java:115-121 | rejects a null datacenter; a new builder in which every field starts unset |
| RemoteServices.Builder.SetDatacenter | core/src/main/java/org/jclouds/abiquo/domain/infrastructure/RemoteService.java:123-128 | rejects a null datacenter and keeps the old one; otherwise stores it |
| RemoteServices.Builder.Status | core/src/main/java/org/jclouds/abiquo/domain/infrastructure/RemoteService.java:130-134 | sets the status only |
| RemoteServices.Builder.Type | core/src/main/java/org/jclouds/abiquo/domain/infrastructure/RemoteService.java:136-140 | sets the type only |
| RemoteServices.Builder.Uri | core/src/main/java/org/jclouds/abiquo/domain/infrastructure/RemoteService.java:142-146 | sets the URI only |
| RemoteServices.Builder.Build | core/src/main/java/org/jclouds/abiquo/domain/infrastructure/RemoteService.java:148-158 | a new, unsaved service with the collected type, URI and status, no id, in the builder's datacenter |
| RemoteServices.Builder.FromRemoteService | core/src/main/java/org/jclouds/abiquo/domain/infrastructure/RemoteService.java:160-164 | a new builder with the same datacenter, type, URI and status; a null status fails on unboxing |
| RemoteServices.Rebuild | core/src/main/java/org/jclouds/abiquo/domain/infrastructure/RemoteService.java:148-164 | building from `fromRemoteService(x)` gives the same type, URI, status and datacenter as x, and no id |
| IpPredicates.Name | core/src/main/java/org/jclouds/abiquo/predicates/network/IpPredicates.java:38-50 | a null array is rejected when the predicate is made; otherwise accepts an IP exactly when its name is among the names |
| IpPredicates.Address | core/src/main/java/org/jclouds/abiquo/predicates/network/IpPredicates.java:52-64 | a null array is rejected; otherwise accepts an IP exactly when its address is among the addresses |
| IpPredicates.Available | core/src/main/java/org/jclouds/abiquo/predicates/network/IpPredicates.java:66-76 | accepts an IP exactly when its available flag is set |
| Authentication.AbiquoAuthentication.Create | core/src/main/java/org/jclouds/abiquo/http/filters/AbiquoAuthentication.java:57-64 | Basic mode exactly when a credential is given; the header is the Basic header of `identity:credential` in Basic mode and the token header otherwise; a null identity or token is rejected |
| Authentication.AbiquoAuthentication.Filter | core/src/main/java/org/jclouds/abiquo/http/filters/AbiquoAuthentication.java:66-71 | replaces the Authorization header (Basic mode) or the Cookie header (token mode) with the one precomputed value; every other header and the rest of the request are unchanged |
| Authentication.AbiquoAuthentication.FilterIdempotent | core/src/main/java/org/jclouds/abiquo/http/filters/AbiquoAuthentication.java:69-70 | filtering twice gives the same request as filtering once |
| Authentication.BasicAuth | core/src/main/java/org/jclouds/abiquo/http/filters/AbiquoAuthentication.java:73-79 | exactly "Basic " followed by the Base64 encoding of the UTF-8 bytes of `user:password`, whose rest decodes (Base64, then UTF-8) back to `user:password`; a null user, then a null password, is rejected |
| Authentication.BasicAuthRecoversCredentials | core/src/main/java/org/jclouds/abiquo/http/filters/AbiquoAuthentication.java:73-79 | a server splitting the decoded credentials at the first colon gets the user and password back when the user has no colon |
| Authentication.TokenAuth | core/src/main/java/org/jclouds/abiquo/http/filters/AbiquoAuthentication.java:81-85 | "auth=" followed by exactly the token; a null token is rejected |
| Encoding.Utf8RoundTrip | core/src/main/java/org/jclouds/abiquo/http/filters/AbiquoAuthentication.java:77-78 | decoding the UTF-8 encoding of any string gives it back |
| Encoding.DecodeEncodedChar | core/src/main/java/org/jclouds/abiquo/http/filters/AbiquoAuthentication.java:77-78 | one encoded character decodes to itself and consumes exactly its own bytes |
| Encoding.Base64Encode | core/src/main/java/org/jclouds/abiquo/http/filters/AbiquoAuthentication.java:76-78 | four characters for every started group of three bytes |
| Encoding.Base64RoundTrip | core/src/main/java/org/jclouds/abiquo/http/filters/AbiquoAuthentication.java:76-78 | decoding the Base64 encoding of any bytes gives them back |
| Encoding.RoundTripGroup | core/src/main/java/org/jclouds/abiquo/http/filters/AbiquoAuthentication.java:76-78 | a full group of four digits decodes to its three bytes, in front of whatever follows |
| Encoding.RoundTripTwo | core/src/main/java/org/jclouds/abiquo/http/filters/AbiquoAuthentication.java:76-78 | a final group of two bytes (one pad character) decodes to those bytes |
| Encoding.RoundTripOne | core/src/main/java/org/jclouds/abiquo/http/filters/AbiquoAuthentication.java:76-78 | a final group of one byte (two pad characters) decodes to that byte |
| Text.ParseIntToString | core/src/main/java/org/jclouds/abiquo/domain/infrastructure/RemoteService.java:77 | an integer written in decimal is read back as itself |
| Text.SplitAtFirst | core/src/main/java/org/jclouds/abiquo/domain/infrastructure/RemoteService.java:77 | splitting `a sep b` at the first `sep` gives back `a` and `b` when `a` has no `sep` |
| Lists.RemoveIf | core/src/main/java/org/jclouds/abiquo/domain/cloud/VirtualMachine.java:330-337 | removing the elements a predicate accepts keeps the others, in order |
| Lists.FilterMembers | core/src/main/java/org/jclouds/abiquo/domain/network/Network.java:58-61 | an element is in the filtered list exactly when it is in the list and accepted |
| Lists.FilterFilter | core/src/main/java/org/jclouds/abiquo/domain/network/Network.java:68-76 | filtering twice is filtering once by both predicates |
| Lists.FirstOfFilter | core/src/main/java/org/jclouds/abiquo/domain/network/Network.java:63-66 | the first element of a filtered list is the first accepted element |

## Left out

- HTTP transport, XML (de)serialisation and the jclouds request binding are
  not modelled. Each remote call is a `reply` parameter plus an entry in the
  ghost `requests` log.
- A remote call made with a null entity (after `delete`) is modelled as
  failing with a null-pointer error before anything is sent. The binding code
  that would throw is not part of this model.
- `DomainWrapper` (`wrap`, `unwrap`, `getTask`, `updateLink`,
  `getIdFromLink`) is not part of this model:
  - `getTask` is a function parameter;
  - wrapping a list is the identity on entities;
  - `updateLink` is modelled as "drop the first link of the relation, append
    the new one"; the link it copies from the template is the template's
    "edit" link, and a template without one fails with a missing-link error
    before anything is sent;
  - `getIdFromLink` reads the integer after the last `/` of the first link of
    the relation.
- The message texts of `ValidationErrors` and the relation names of
  `ParentLinkName` are not part of this model. The constants here
  ("Null resource: ", "Null parent: ", "Missing required field", "edit",
  "virtualappliance", …) take their place.
- VirtualMachines.VirtualMachine.ListTasks: does not state that the sort is
  stable. Equal timestamps may come out in another order than
  `Collections.sort` gives, because only order and permutation are promised.
- Nics.Nic: the DTO object shared between a NIC and the NIC it is narrowed to
  is copied as a value. A later change through one of them is not seen
  through the other.
- Null elements inside the arrays given to `attach…`, `detach…` and
  `replace…` (and so to `toVolumeDto`, `toHardDiskDto` and `toIpDto`) are not
  modelled. Each of these arrays is an optional sequence of non-null entities.
- `Network.listIps()` is abstract and remote. The IPs it returns are a
  parameter of `ListIps`, `FindIp`, `ListAvailableIps` and `FindAvailableIp`.
- The other operations of the wrappers are not modelled: VM `deploy`,
  `undeploy`, `getVirtualDatacenter`, `getEnterprise`, `getTemplate`, NIC
  listing, `setGatewayNetwork` and `detachNic`, plus the plain getters and
  setters. They are not among the operations this model covers.
- The `build` methods of the concrete network subclasses (private, external,
  public, unmanaged) are not part of this model. `NetworkBuilder` keeps only
  its setters.
- Volumes.Builder.Build: assumes that `VolumeManagementDto.setSizeInMB`
  accepts a null size, because the DTO is not part of this model. If it takes
  a primitive, `build()` without a size throws on unboxing, and the model does
  not capture that failure.
- RemoteServices.Builder.Build: assumes that `RemoteServiceDto.setStatus`
  accepts a null status, for the same reason. If it takes a primitive,
  `build()` without a status throws, and the model does not capture that.
- A wrapper returned by a fetch is the fetched entity itself. Wrapping a null
  entity gives null, and the not-found answer of `getVirtualDatacenter`,
  `getStorageTier` and `getDatacenter` is modelled that way.
- `CryptoStreams.base64` and `String.getBytes("UTF-8")` are modelled by an
  implementation of RFC 4648 and RFC 3629 of our own, each with a decoder, not
  by the library code. Strings are sequences of Unicode scalar values.
- `long` and `int` fields (timestamps, sizes, ports) are unbounded integers.
  Overflow is not modelled.

## Findings

| source | as written | input that shows it | evidently intended | confidence | as-written member | corrected member |
|---|---|---|---|---|---|---|
| core/src/main/java/org/jclouds/abiquo/domain/cloud/Volume.java:137-141 | the second null check repeats the virtual datacenter check, and the tier argument is never stored in the builder, so `build` always gives a volume without a tier | `new Builder(context, vdc, tier)` with a non-null `vdc` and `tier`, then `build()`: the volume's tier is null | check the tier for null and keep it, so the built volume holds the tier it was built for | not executed | Volumes.Builder.Create, Volumes.BuildDropsTier | Volumes.Builder.CreateChecked, Volumes.BuildKeepsTier |
