# A verified model of the UCloud cluster-api provider

The provider keeps two kinds of objects: a cluster (group, VPC, subnet, NAT gateway, load balancer, bastion,
uk8s registration) and a machine (one host, its backend in the balancer, its uk8s registration). A reconcile
loads a persisted object, makes cloud calls one after the other, and writes the object back on every way out.
Any call may fail, any reply may be lost, and the next reconcile starts again from whatever was persisted.

The project models both reconcilers and the services they call as one protocol over an abstract cloud, and
proves what every run of it keeps.

## How it is laid out

| file | what is in it |
|---|---|
| `CloudModel` | everything alive in the cloud, calls, faults, other actors' moves, the log of mutating calls |
| `ClusterProtocol` | the cluster reconciler: stages, both chains, visits and runs |
| `ClusterService` | the same reconciler as a class whose methods update its fields, each method proved equal to the function in `ClusterProtocol` |
| `MachineProtocol`, `MachineService` | the machine reconciler, in the same two forms |
| `HostLifecycle` | the poll loops of host creation and termination, with their timer, as loops |
| `BackendMembership` | adding and removing backends, many machines at once, one call at a time |
| `Bootstrap`, `ProviderIds`, `Finalizers` | rendering of user data, provider ids, names encoded in finalizers |
| `ClusterUniqueness`, `ClusterDuplicates`, `ClusterOnce`, `ClusterStaleVisit` | at most one create per key, exactly for which specs, and over deletion as well |
| `ClusterEffects`, `MachineEffects` | what each service and step means to its caller; a visit that ends well leaves a complete cluster |
| `ClusterHistory`, `ClusterGuarantees`, `ClusterAddresses`, `ClusterWriteAhead` | what the log and the persisted versions of every run say: ready means complete, user resources survive, leaks stay inside the group, addresses are accounted for, finalizers come first and go last |
| `ClusterIntegrity`, `ClusterOrder` | parents before children, at every point of every run; what is made waits for what it rests on, and what is deleted for what rests on it |
| `Termination`, `CallSequences` | what a termination and a group sweep log: power-off, stop, delete; the calls of the services that make several |
| `ClusterTeardown`, `ClusterStuckDeletion` | interrupted deletion, and deletion that can never end |
| `ClusterFixpoint`, `ClusterRoundTrip`, `ClusterHalfBuilt` | the fixpoint, the round trip, a balancer that stays half built |
| `MachineHistory`, `MachineGuarantees`, `MachineFailure`, `MachineFixpoint`, `MachineRoundTrip` | the same questions for machines |
| `FinalizerBarrier` | deletion waits for machines |

The cloud is one list of resources, an id counter, a script and a log. The script holds one tick per call:
whether the call works, fails cleanly, or takes effect and loses its reply, and what other actors do just before
it (launch a host, make one vanish, change a power state). A theorem about every world is thus a theorem about
every fault, every interleaving of other actors, and every length of run. The log holds each mutating call,
whether it took effect, and everything alive afterwards; a statement about the log is a statement about every
state between two calls. Panics count as failures: the deferred close runs on them too.

## Assumptions

- A create returns an id never issued before; a describe is an exact filter of the present state.
- Return codes 58103, 8039, 63059 and 54002 mean that the target is already gone.
- The group's name is a fixed function of its inputs (a name-based SHA-1 UUID, section 4.3 of RFC 4122). It is not
  assumed to be injective. The create reply echoes it.
- A group search without a limit returns some fixed number of entries (`page`). `SearchCovers` proves which
  numbers are enough; statements that rest on the search say `page >= SEARCH_THRESHOLD`.
- `RemoveFinalizer` returns a new slice. `ShiftingSkips` proves what an in-place removal would do instead.
- A patch is atomic: it takes effect, fails, or takes effect and loses its reply. The spec and a machine's failure
  domain stay fixed during a run. The API server never unsets a deletion timestamp.
- An empty zone in a describe filters nothing.
- The instance id in a provider id is its last path segment; an empty one is an error.
- Timers behave as in Go 1.13: stopping or resetting a timer does not take back a tick already sent.
- Visits of one object follow one another. A visit may start from any persisted version, however old, and its
  closing write may be lost.

## What turned out not to hold, and the exact condition

- Uniqueness of created resources holds for a spec if and only if the spec names no network id and leaves neither
  the gateway's nor the balancer's name empty (`OnceExactlyWhenAdoptable`). An empty name is created under a default
  name that the look-up never matches. And it holds only while no visit overlooks that deletion was asked for
  (`NeverCreatedTwice`, `StaleVisitDuplicates`).
- A balancer left without its address or vserver is adopted and then keeps the cluster from ever becoming ready
  (`AdoptionNeedsBoth`, `HalfBuiltArises`).
- Deletion can end only while the recorded group and uk8s registration are still alive (`DeletionEnds`). One clean
  failure of its last call takes it past that point for good (`RootGoneForGood`, `OneFailureIsEnough`).
- A failed machine may stay a backend for good (`RemovalLeaves`, `FailedForeverServing`).
- A machine visit that reads a version from before its host was recorded creates another host
  (`StaleVisitMakesAnother`).
- Deleting a machine whose host was removed by hand leaves its uk8s registration behind
  (`VanishedHostLeavesRegistration`); with the host there, the registration goes first (`DeletionUnregisters`).
- A fault-free deletion of a machine ends well exactly when its host is gone, or is registered and, for a control
  plane, the vserver is still listed (`CalmDeletionEnds`).
- Repeating a successful machine visit is free of calls exactly when the machine recorded a registration id
  (`RunningFixpoint`), which an empty cluster registration id prevents.
- The second wait of a termination has its own five minutes exactly when the stop was seen before the first
  deadline (`StaleTickCutsShort`).
- Zone of later look-ups and zone of termination differ exactly when the failure domain is set to the empty name
  while a zone is recorded (`TerminationZone`).
- One backend per host holds for every interleaving exactly when no two machines act for one host
  (`OneBackendPerHost`).

## Model

The methods of the two classes are not listed one by one: each is equal to the protocol function of its name, the
loops and the two `Visit` rows close that refinement, and the effect rows say what those functions mean.

| member | source | states |
|---|---|---|
| `ClusterOnce.NeverCreatedTwice` | cloud/services/ugroup.go:38-82 | over every run, deletion included, with faults, lost replies, lost closes and starts from any persisted version, as long as no visit overlooks that deletion was asked for: at most one create per group name, VPC name, subnet name, and gateway and balancer name in a VPC; and persisted versions never disagree on a recorded id, the group's included |
| `ClusterOnce.OnceExactlyWhenAdoptable` | cloud/services/nat.go:44-80 | that uniqueness holds for all such runs of a spec if and only if the spec names no network id and both the gateway's and the balancer's name are non-empty |
| `ClusterStaleVisit.StaleVisitDuplicates` | controllers/ucloudcluster_controller.go:135-141 | whatever the spec, a visit that loads a version from before deletion was asked for, after deletion removed the group, makes a second group of the same name |
| `ClusterDuplicates.CreatedTwice` | cloud/services/ulb.go:50-82 | for every other spec there is a start and a run of two visits that creates twice under one key |
| `ClusterUniqueness.CreatedAtMostOnce` | cloud/services/vpc.go:40-72 | before deletion is asked for, besides: at most one resource alive per key |
| `ClusterUniqueness.VersionsAgree` | cloud/services/vpc.go:25-28 | before deletion is asked for: any two persisted versions agree on every id both record |
| `ClusterEffects.VisitCompletes` | controllers/ucloudcluster_controller.go:156-210 | a provisioning visit that ends well, under any faults and with machines at work, from an object that records nothing or only what is there: group, VPC, subnet, gateway with address, balancer with vserver and address, and registration are recorded, alive and connected, and endpoint, zones and ready are published |
| `ClusterOrder.CreationOrder` | controllers/ucloudcluster_controller.go:156-210 | whatever fails, a provisioning visit makes nothing before what it rests on: every resource it asks for has everything of an earlier rank recorded at the end, and a bastion or registration is only made for a published, ready cluster |
| `ClusterEffects.ReadyDespiteBastion` | controllers/ucloudcluster_controller.go:183-210 | over a recorded network in a known region a visit publishes endpoint, zones and ready whatever becomes of the bastion and the registration, and registers nothing after a bastion that failed |
| `ClusterGuarantees.ReadyIsComplete` | controllers/ucloudcluster_controller.go:158-202 | in every persisted version of every run, ready means: all five ids recorded, the endpoint is the balancer's non-empty address on port 6443, the failure domains are exactly the region's zones |
| `ClusterGuarantees.UserResourcesSurvive` | cloud/services/vpc.go:82-105 | no delete call of any run, the group sweep included, names an id that the spec names, if a user balancer is not tagged into the group |
| `ClusterGuarantees.RunMarked` | cloud/services/uhost.go:60-80 | at every point of every run each host and balancer that was not there at the start carries the group's tag |
| `ClusterGuarantees.SearchLists` | cloud/services/ugroup.go:107-131 | a search that works lists every host and balancer of the group alive when it answered |
| `ClusterGuarantees.SearchIs` | cloud/services/ugroup.go:107-131 | over a calm cloud the reply is the whole group up to ten entries of an unlimited reply, and up to the total of it beyond ten |
| `ClusterGuarantees.SearchCovers` | cloud/services/ugroup.go:107-131 | the two-query search returns groups of every size whole if and only if an unlimited reply holds at least ten entries |
| `ClusterGuarantees.SweepEmpties` | cloud/services/ugroup.go:131-145 | a sweep that ends well leaves no host or balancer of the group alive, other actors moving in between |
| `ClusterGuarantees.LeaksContained` | cloud/services/ugroup.go:107-145 | from any state of the cloud in any history, mid-visit included: after a group clean that ends well, every host or balancer alive was there at the start and is not tagged, so none that the provider ever created leaks |
| `ClusterGuarantees.RunLeaksContained` | controllers/ucloudcluster_controller.go:241-255 | the same after any run, for any persisted version that records the group while the group is there |
| `ClusterAddresses.AddressAccount` | cloud/services/eip.go:26-53 | at the end of any history the addresses alive are those at the start and those allocated, less those released with a deleted holder; each is an orphan or bound to a live gateway or balancer |
| `ClusterAddresses.RunAccount` | cloud/services/nat.go:64-86 | the same account for every run from any opening |
| `ClusterAddresses.VisitStrands` | cloud/services/ulb.go:84-94 | a visit that fails, under any faults, strands at most one address; one that does not fail strands none |
| `ClusterAddresses.AlwaysSeated` | cloud/services/eip.go:69-83 | at every point of the log a bound address has a live gateway or balancer as holder |
| `ClusterWriteAhead.CreatesOnlyWhenRegistered` | controllers/ucloudcluster_controller.go:149-156 | a deletion visit creates nothing; a provisioning visit creates only after a version with the cluster finalizer was persisted, which stays persisted until the close |
| `ClusterWriteAhead.FinalizerRemovedLast` | controllers/ucloudcluster_controller.go:238-276 | over every run, stale versions and lost replies included: nothing of the provider's that a version without the finalizer records is alive at the end |
| `ClusterIntegrity.IntegrityAlways` | controllers/ucloudcluster_controller.go:158-176 | over every run with clean faults and no supplied ids, after every single call: a live subnet's VPC is live, and every live gateway, balancer and tagged host has its VPC and subnet |
| `ClusterIntegrity.AskedSound` | controllers/ucloudcluster_controller.go:241-267 | asking for deletion closes the cluster to new machines and keeps the parent-before-child invariant |
| `ClusterTeardown.ResumedEqualsUninterrupted` | controllers/ucloudcluster_controller.go:238-276 | after any run of failed, lossy, stale or unsaved deletion visits, one that ends well ends in the state an uninterrupted deletion ends in |
| `ClusterTeardown.DeletionEnds` | cloud/services/ugroup.go:85-105 | once calls stop failing, a deletion visit ends well if and only if the recorded group and registration are alive, since their deletes tolerate no missing target |
| `ClusterOrder.DeletionOrder` | controllers/ucloudcluster_controller.go:241-271 | whatever fails and whoever else acts, while bastion, balancer, gateway, subnet, VPC, group or registration is still alive at the end of a deletion visit, that visit has not asked for the deletion of any later one of them |
| `ClusterStuckDeletion.RootGoneForGood` | controllers/ucloudcluster_controller.go:265-271 | once the recorded group or registration is gone, whatever came before and whatever follows, no deletion visit ends well |
| `ClusterStuckDeletion.OneFailureIsEnough` | cloud/services/uk8s.go:48-65 | one clean failure of the very last call of a deletion gets there: the group is gone and still recorded, the finalizer stays |
| `ClusterTeardown.StageSteps` | cloud/services/uhost.go:329-345 | each teardown stage, interrupted anywhere, removes only what an uninterrupted deletion removes, and when it ends well what it is responsible for is gone |
| `ClusterFixpoint.ProvisionFixpoint` | controllers/ucloudcluster_controller.go:144-213 | after a provisioning visit that ended well, another one over the same cloud logs no call and leaves cloud and persisted object as they were |
| `ClusterRoundTrip.ProvisionBuilds` | controllers/ucloudcluster_controller.go:156-210 | a fault-free first visit ends well, adds exactly one of each resource in order, and records each |
| `ClusterRoundTrip.RoundTrip` | controllers/ucloudmachine_controller.go:303-343 | provisioning, any number of machines created and deleted, deletion: every visit ends well and everything alive is what was alive at the start, addresses included |
| `ClusterHalfBuilt.AdoptionNeedsBoth` | cloud/services/ulb.go:142-151 | adopting a balancer ends well if and only if it has a vserver and an address; otherwise its id is recorded and its address is not |
| `ClusterHalfBuilt.StuckForever` | controllers/ucloudcluster_controller.go:178-181 | once that happened, no run of visits that read the newest object makes the cluster ready |
| `ClusterHalfBuilt.HalfBuiltArises` | cloud/services/ulb.go:79-110 | from any state in which the balancer is next, one clean failure of the address call is enough for it |
| `ClusterHalfBuilt.OpeningExists` | cloud/services/ulb.go:28-62 | such a state with group, network, subnet, firewall and addressed gateway recorded and alive |
| `ClusterHistory.StageContinues` | cloud/services/nat.go:25-32 | any stage of either chain keeps the history sound, and a provisioning stage that ends well has recorded its own id |
| `ClusterEffects.GroupEffect` | cloud/services/ugroup.go:33-83 | a success records a living group of the derived name; it is adopted without any mutating call if there is one; the exact condition for success; a failure records nothing |
| `ClusterEffects.VpcEffect` | cloud/services/vpc.go:25-80 | the same for a VPC of the group's tag, of the resolved name or the id the spec names |
| `ClusterEffects.SubnetEffect` | cloud/services/subnet.go:28-94 | the same for a tagged subnet of the recorded VPC; without a recorded VPC it fails before any call |
| `ClusterEffects.NatEffect` | cloud/services/nat.go:25-112 | a success records a living gateway of the recorded VPC with its firewall and a bound address; one that is found is recorded without any mutating call, and is a success exactly when it has an address; without a VPC or a look-up that works nothing is recorded |
| `ClusterEffects.CreateNatEffect` | cloud/services/nat.go:54-100 | a new gateway has an address bound to it; a failure records nothing; nothing else goes |
| `CallSequences.GatewayCalls` | cloud/services/nat.go:54-100 | its mutating calls are an address and then the gateway that takes it, as far as it gets |
| `ClusterEffects.UlbEffect` | cloud/services/ulb.go:28-152 | a success records a living balancer of the recorded VPC with its vserver and its address, both alive and its own; a failure leaves the address unrecorded; one that is found is adopted without any mutating call |
| `ClusterEffects.CreateUlbEffect` | cloud/services/ulb.go:63-140 | of balancer, address, binding and vserver either all four worked and are recorded, or nothing is recorded |
| `CallSequences.BalancerCalls` | cloud/services/ulb.go:63-110 | its mutating calls are balancer, address, binding of the one to the other, and that balancer's vserver, in this order, as far as it gets |
| `ClusterEffects.PublishEffect` | controllers/ucloudcluster_controller.go:178-202 | requeue exactly without an address, and then nothing changes; ready and zones exactly for a known region; the endpoint is set even when the region is unknown; no call is made |
| `ClusterEffects.BastionEffect` | cloud/services/uhost.go:217-327 | no mutating call for a bastion that is unwanted, recorded, found by name or without a usable image; otherwise a success records a living tagged host, and a failure records none |
| `ClusterEffects.RegistrationEffect` | cloud/services/uk8s.go:13-46 | a recorded registration is final; a success records a living one |
| `ClusterEffects.TerminateEffect` | cloud/services/uhost.go:329-345 | the bastion is forgotten exactly on success, and then no host of its id and the group's tag is alive; every delete of it in the log comes after a power-off of the same visit that took effect |
| `ClusterEffects.RefusedBastionStays` | cloud/services/uhost.go:379-388 | a bastion whose power-off was refused, or whose reply was lost, stays recorded, and nothing is deleted |
| `Termination.TerminationOrder` | cloud/services/uhost.go:365-446 | in the log of a termination every delete is the host's and comes after a power-off of the same termination that took effect and was answered well, and after the host was seen stopped |
| `Termination.RefusedPowerOff` | cloud/services/uhost.go:379-388 | a termination whose power-off was refused, or lost its reply, is not ok and deletes nothing |
| `Termination.UnstoppedStays` | cloud/services/uhost.go:396-414 | a host that was not seen stopped is not deleted |
| `Termination.TerminationEnds` | cloud/services/uhost.go:365-446 | the exact condition for a good end: not there at a look that worked; or power-off answered well, seen stopped, deletion answered well, and not there at a last look that worked |
| `CallSequences.TerminationCalls` | cloud/services/uhost.go:379-426 | its mutating calls are none, a power-off, or a power-off and then the deletion |
| `Termination.SweepOrder` | cloud/services/ugroup.go:131-142 | in a sweep, too, no listed host is deleted but after its own power-off |
| `Termination.SweepStops` | cloud/services/ugroup.go:131-142 | a sweep is the sweeps of its items in order and ends with the first that fails: nothing after it is touched |
| `Termination.SweepItem` | cloud/services/ugroup.go:131-142 | a listed balancer is one delete that tolerates a missing target; what is neither balancer nor host costs no call |
| `ClusterEffects.BastionAsked` | cloud/services/uhost.go:239-300 | what is asked for when a bastion is made: its name, the group's tag, the recorded network, the spec's zone |
| `ClusterEffects.DeleteEffect` | cloud/services/ulb.go:154-185 | an unrecorded or user-owned target costs no call; a success means the target is gone; nothing but the target and what it holds is removed; success tolerates a target that was gone |
| `ClusterEffects.StrictDeleteEffect` | cloud/services/uk8s.go:48-65 | success exactly when there was nothing recorded or this call removed a living target |
| `ClusterEffects.PatchEffect` | cloud/scope/cluster.go:160-167 | no version is ever lost; a patch fails without a trace, or its object is the newest version, the API server's deletion mark kept |
| `CloudModel.FirstIsFirst` | cloud/services/vpc.go:48-55 | a search loop stops at the first entry that is wanted |
| `ClusterService.Service.Find` | cloud/services/vpc.go:52-59 | the search loop with its flag finds the first acceptable entry |
| `ClusterService.Service.CleanResourceInGroup` | cloud/services/ugroup.go:107-145 | deletes the listed balancers and hosts in order, up to the first failure |
| `ClusterService.Service.Chain` | controllers/ucloudcluster_controller.go:156-213 | calls in order, up to the first that does not end well |
| `ClusterService.Service.AwaitMachines` | controllers/ucloudcluster_controller.go:219-236 | the loop over the finalizers as they were at the start |
| `ClusterService.Service.Visit` | controllers/ucloudcluster_controller.go:127-141 | one visit with its deferred close, on every way out |
| `FinalizerBarrier.NothingBeforeTheBarrier` | controllers/ucloudcluster_controller.go:219-236 | a deletion that goes on found every machine named by a finalizer gone and has no such finalizer left; one that does not has made no mutating call |
| `FinalizerBarrier.BarrierTakesOffInOrder` | controllers/ucloudcluster_controller.go:219-236 | with looks that work, a finalizer goes exactly when it names a machine that is gone and none before it names one that is there |
| `FinalizerBarrier.DeletionTakesOff` | controllers/ucloudcluster_controller.go:228-274 | a deletion that ends well takes off the machines' finalizers and the cluster's and no other; one that does not keeps the cluster's |
| `FinalizerBarrier.MachineHoldsDeletion` | controllers/ucloudcluster_controller.go:222-232 | a machine with a dot-free name holds deletion back while its object is there |
| `FinalizerBarrier.EnlistedHoldsDeletion` | controllers/ucloudmachine_controller.go:215-220 | once a machine has put its finalizer on the cluster object, no deletion visit that reads the newest object gets past it, and no other finalizer was lost |
| `FinalizerBarrier.DottedMachineIsMissed` | controllers/ucloudcluster_controller.go:225 | a machine with a dot in its name does not |
| `FinalizerBarrier.ShiftingSkips` | controllers/ucloudcluster_controller.go:219-236 | with an in-place removal the machine after a gone one would be skipped |
| `Finalizers.DecodeEncode` | controllers/ucloudmachine_controller.go:216 | decoding an encoded name returns it if and only if it has no dot |
| `Finalizers.Decode` | controllers/ucloudcluster_controller.go:225 | the longest prefix without a dot |
| `BackendMembership.OneBackendPerHost` | cloud/services/ulb.go:187-252 | every interleaving of look-ups, allocations, releases, crashes, lost replies and the balancer's deletion keeps one backend per host if and only if no two workers act for one host |
| `BackendMembership.ReleaseLeavesNone` | cloud/services/ulb.go:220-252 | a release that takes effect leaves no backend of its host and every other resource as it was |
| `BackendMembership.TwoWorkersClash` | cloud/services/ulb.go:196-218 | two workers for one host can both look up, both find nothing and both allocate |
| `BackendMembership.CallsAreEvents` | cloud/services/ulb.go:187-252 | with nobody in between, a service call is its look-up followed by its change |
| `BackendMembership.BackendOf` | cloud/services/ulb.go:199-206 | the backend a look-up finds, or that the host has none |
| `HostLifecycle.Await` | cloud/services/uhost.go:396-414 | the poll loop: it ends with the first describe that settles it or finds the timer fired, and says which |
| `HostLifecycle.TerminateHost` | cloud/services/uhost.go:365-446 | the whole termination: its trace of calls and its ending are the ones specified |
| `HostLifecycle.AwaitRunning` | cloud/services/uhost.go:164-184 | at most 11 describes; success only on an observed Running; a timeout only after five minutes; a vanished host panics |
| `HostLifecycle.TerminatesOnlyStopped` | cloud/services/uhost.go:397-426 | the terminate request follows a power-off that worked and, directly, an observed Stopped |
| `HostLifecycle.SuccessSawItGone` | cloud/services/uhost.go:428-445 | success means the last describe listed no host |
| `HostLifecycle.SucceedsExactly` | cloud/services/uhost.go:365-446 | the exact condition for success: not found at the first look, by code 8039 or an empty list; or both requests worked, the first wait ended on Stopped and the second on a working reply that listed none |
| `HostLifecycle.PanicsIffVanishedEarly` | cloud/services/uhost.go:399-403 | an index out of range if and only if the last describe before any terminate request, a poll for the stop, listed no host |
| `HostLifecycle.WaitIsBounded` | cloud/services/uhost.go:396-414 | the remaining time to the deadline bounds a wait: one describe more than pauses fit |
| `HostLifecycle.WaitIsDetermined` | cloud/services/uhost.go:397-414 | what is seen and the timer alone decide how and when a wait ends |
| `HostLifecycle.TerminationIsBounded` | cloud/services/uhost.go:365-446 | at most 31 describes in each wait |
| `HostLifecycle.BoundIsMet` | cloud/services/uhost.go:408-413 | the bound of 31 is met |
| `HostLifecycle.StaleTickCutsShort` | cloud/services/uhost.go:427-444 | the second wait has its full time if and only if the first ended before its deadline; otherwise it makes one describe |
| `MachineGuarantees.RecordedHostIsGuarded` | controllers/ucloudmachine_controller.go:236-265 | in every run, in every version: what is alive under the recorded id is this cluster's host in the recorded zone, and without the machine's finalizer it is gone |
| `MachineGuarantees.OneRecordedHost` | cloud/services/uhost.go:37-57 | once a host is recorded, no run of visits that read the newest version creates another or records another |
| `MachineEffects.StaleVisitMakesAnother` | cloud/services/uhost.go:37-41 | a visit that works on a version from before a host was recorded creates another one, whatever newer versions record |
| `MachineGuarantees.HostsOnlyWhenRegistered` | controllers/ucloudmachine_controller.go:209-220 | a host is created only after both finalizers were persisted, which stay persisted until the close |
| `MachineGuarantees.TerminationZone` | cloud/scope/machine.go:104-109 | termination is asked for in the recorded zone if and only if no empty failure domain hides it |
| `MachineEffects.StatusOfPursuit` | controllers/ucloudmachine_controller.go:236-294 | a visit never leaves failed and ready together; ready becomes true only when it observed Running; a recorded host that is looked for and not there always means failed |
| `MachineEffects.LostHostFails` | controllers/ucloudmachine_controller.go:241-253 | if a host is recorded, the look-up works and none of its id and tag is in the recorded zone, the object is failed and not ready and otherwise unchanged, no mutating call is made, and the visit is as good as the deletion of the owner |
| `MachineEffects.LookUpFails` | controllers/ucloudmachine_controller.go:236-239 | a look-up that does not work ends the visit with nothing changed |
| `MachineEffects.NothingBeforeTheOwners` | controllers/ucloudmachine_controller.go:209-231 | until infrastructure and bootstrap data are ready a visit persists its two finalizers and does nothing else: no mutating call, no other field, and it ends well exactly when both patches were answered |
| `MachineEffects.HostsOnlyForReadyOwners` | controllers/ucloudmachine_controller.go:222-231 | a host is made only in a visit whose owners are ready |
| `MachineEffects.FoundIsFollowed` | controllers/ucloudmachine_controller.go:236-270 | a recorded host that is listed is followed, never replaced: its zone and state are recorded and no host is made |
| `MachineEffects.CreationEffect` | cloud/services/uhost.go:60-189 | a creation asks for at most one host, in the cluster's group and subnet and in the failure domain, the recorded zone or the drawn one; nothing without usable bootstrap data, image and password; a success is that host, seen running |
| `MachineEffects.RegistrationLast` | controllers/ucloudmachine_controller.go:272-299 | no registration is made before the host's state was followed to a good end, and the exact condition for that end |
| `MachineGuarantees.FailedIsNotReady` | controllers/ucloudmachine_controller.go:285-287 | in every persisted version of every run a failure coexists with not ready |
| `MachineGuarantees.FailureIsFinal` | controllers/ucloudmachine_controller.go:203-207 | after a recorded failure, visits before deletion that read the newest version change neither cloud nor object |
| `MachineFailure.RemovalLeaves` | cloud/services/ulb.go:220-252 | a removal leaves its host a backend if and only if the look-up failed, the vserver was not listed, or the release was refused |
| `MachineFailure.FailedForeverServing` | controllers/ucloudmachine_controller.go:285-293 | one refused look-up in the visit that records the failure, and the host stays a backend whatever visits follow |
| `MachineFixpoint.RunningFixpoint` | controllers/ucloudmachine_controller.go:201-301 | repeating a visit that saw Running and ended well changes nothing if and only if a registration id is recorded, as it is when the cluster has one |
| `MachineFixpoint.PursueServes` | controllers/ucloudmachine_controller.go:275-299 | such a visit has put a control-plane host into the balancer and recorded what the host shows |
| `MachineHistory.RunOk` | controllers/ucloudmachine_controller.go:101-199 | what is proved of the cloud's history holds over every run of machine visits too |
| `MachineRoundTrip.CreatesAll` | cloud/services/uhost.go:60-189 | a fault-free creation adds the host, its backend and its registration, and records the host under its provider id and zone |
| `MachineRoundTrip.PairRestores` | controllers/ucloudmachine_controller.go:303-343 | creation and deletion of a machine restore everything alive |
| `MachineRoundTrip.PairsRestore` | controllers/ucloudmachine_controller.go:303-343 | so do any number of them |
| `MachineProtocol.InstanceIfExists` | cloud/services/uhost.go:37-57 | a host found is alive, tagged, in the recorded zone, and the recorded one |
| `MachineProtocol.CreateInstance` | cloud/services/uhost.go:60-189 | success means a running, tagged host in the creation zone |
| `MachineEffects.LookUpEffect` | cloud/services/uhost.go:42-57 | the look-up finds the recorded host, or none of its id and tag is in the recorded zone |
| `MachineEffects.AddEffect` | cloud/services/ulb.go:187-218 | a success means the host is a backend; the exact condition for success; a host that is listed is not added again, and nothing but one backend is ever added |
| `MachineEffects.DelEffect` | cloud/services/ulb.go:220-252 | given one backend per host: the exact condition for success, a host that is no backend being one; a success means the host is none any more; nothing is called for a host that is none; no other backend, address or network resource goes |
| `MachineEffects.RegistrationEffect` | cloud/services/uk8s.go:67-93 | a recorded registration is final; a success leaves a living one of this host under the cluster's registration |
| `MachineEffects.FollowStateEffect` | controllers/ucloudmachine_controller.go:272-294 | ready on Running and only then, failed and not ready on an unexpected state and only then, requeue on no state; a control-plane host is a backend after the one and none after the other, if the step ends well; the exact condition for that |
| `MachineEffects.FollowEffect` | controllers/ucloudmachine_controller.go:262-299 | however it ends, the host that was followed is the one recorded, with its own zone and state |
| `MachineEffects.TakeDownEffect` | controllers/ucloudmachine_controller.go:319-336 | taken down means out of the balancer, unregistered, and no host of the id and tag in the zone termination was asked for |
| `MachineEffects.UnregisterEffect` | cloud/services/uk8s.go:95-110 | unregistering succeeds exactly when the call works on a registration that is there, and then none is left |
| `MachineEffects.RegistrationHolds` | controllers/ucloudmachine_controller.go:326-334 | as long as the registration is there the host was not deleted and the taking down has failed |
| `MachineEffects.BackendHolds` | controllers/ucloudmachine_controller.go:319-334 | as long as a control plane's host is a backend, it was neither unregistered nor deleted and the taking down has failed |
| `MachineEffects.DeletionUnregisters` | controllers/ucloudmachine_controller.go:303-343 | whatever fails: a deletion visit that found the host and ends well leaves no registration of it; one that leaves it has deleted no host and keeps the finalizer |
| `MachineEffects.CalmDeletionEnds` | controllers/ucloudmachine_controller.go:303-343 | over a calm cloud deletion ends well if and only if no such host is there, or it is registered and, for a control plane, the vserver is listed; being in no balancer is no obstacle |
| `MachineEffects.VanishedHostLeavesRegistration` | controllers/ucloudmachine_controller.go:314-316 | the deletion of a machine whose host is not found ends well, drops the finalizer and makes no call, so a registration of that host is left behind |
| `MachineEffects.DeletionEffect` | controllers/ucloudmachine_controller.go:303-343 | the finalizer goes exactly with a deletion that ends well, and then no host of the recorded id is in the recorded zone, if termination is asked for there or everywhere |
| `MachineService.Reconciler.FindBackend` | cloud/services/ulb.go:199-206 | the search loop over backends |
| `MachineService.Reconciler.GetAddresses` | controllers/ucloudmachine_controller.go:345-363 | one address per interface, in order, of the interface's type |
| `MachineService.Reconciler.Visit` | controllers/ucloudmachine_controller.go:165-199 | one visit with its deferred close, on every way out |
| `ProviderIds.PrintParse` | controllers/ucloudmachine_controller.go:262 | printing then parsing returns the host id if and only if it is non-empty and has no slash |
| `ProviderIds.ZoneComesBefore` | controllers/ucloudmachine_controller.go:262 | before the host comes its zone and before the zone the project |
| `ProviderIds.FormatRecords` | cloud/scope/machine.go:135-154 | the host recorded under a printed provider id is the one printed |
| `Bootstrap.RenderFills` | cloud/services/uhost.go:141-148 | with inert values each placeholder is filled once and in place, inserted text is not touched again, and neither placeholder is left |
| `Bootstrap.SequentialIsSimultaneous` | cloud/services/uhost.go:141-148 | for an inert credential and every text, two replacements in a row are one pass over the text |
| `Bootstrap.FillLeavesNone` | cloud/services/uhost.go:141-148 | that one pass leaves no placeholder, not even across the ends of an inserted value |
| `Bootstrap.EndsMatter` | cloud/services/uhost.go:141-148 | a credential that ends in letters of a placeholder is damaged by the second replacement |

## Left out

- Fields that steer nothing: CIDR blocks, bandwidths, names and addresses copied into status, firewall names, instance addresses beyond their order and type.
- Boot images, disks, passwords, charge types and the other request fields of a host: one flag says whether they are all usable.
- The SDK, HTTP signing, response handlers and `getExpBackoffDelay`: calls are the steps of the model, and their failures are its faults.
- Webhooks, watches, predicates, request mapping, pausing and the loading of owner objects: a visit starts once they are all there.
- Manager start-up and its worker count: serialised visits per object stand for the work queue, other actors for the other workers.
- Merging of concurrent patches: a patch writes the whole object. That several machines edit the cluster's finalizers at once is shown as one edit after the other.
- The machine's deferred write to the cluster object: it holds nothing beyond the finalizer already patched.
- Region, zone, image and EIP-operator tables: abstract values.
- The group's name as a hash: the spec carries it.
- Addresses and disks of hosts: a host is created and released with them in one call.
- Zones of the hosts that a group search lists and of the bastion: taken to be the hosts' own, so that a look-up in that zone finds them.
- Effects that show up only after a delay: a describe sees what has happened, though other actors may act before it.
- ClusterProtocol.Terminate: shows each poll loop as the one observation that ends it, a stopped host or none in time, with everything others do meanwhile before it; `HostLifecycle` proves the loops themselves.
- MachineProtocol.CreateInstance: shows its poll loop the same way.
- IntegrityAlways: clean faults and a page of at least ten entries only; a lost reply can leave a child of a network nobody records, as `OnceExactlyWhenAdoptable` explains for names.
- UserResourcesSurvive: assumes that the user's balancer is not tagged into the group; the sweep makes no other check.
- VisitCompletes: an object that records something no longer there is outside it; recorded ids are not looked up again.
- RoundTrip: machines are created and deleted one after another, without faults; the same pairs under faults are covered by what every run keeps, not by restoring everything.
- Names joined with "-" in the group name may collide: two clusters with one group name are not part of this model.
