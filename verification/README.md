# A verified model of the Huawei ELB controller

The controller gives every Kubernetes Service of type LoadBalancer that it is responsible for a load
balancer (ELB) of the Huawei cloud, with a listener, a pool, a health monitor and members for each
Service port and an IP group for the Service's source ranges, and removes all of it again. Every call
to the cloud or to the API server may fail and the process may die between any two of them. The
project proves what holds nevertheless, and where something fails, exactly when.

`dafny verify dfyconfig.toml` checks everything.

## How it is built

**The cloud and the code that works on it, one ELB at a time.** `CloudModel` is the cloud as a value,
`CloudApi` the calls of `internal/huaweicloud` as methods of a class, each of which may fail without
effect. `Paging`, `Members`, `Stacks`, `PoolSync`, `Acl`, `Teardown`, `Converge` and `Launch` are the
loops of the controller over these calls, and `Trees` what is below one ELB. The class records every
state the cloud goes through, so that claims about runs of calls (`Steps`) can be made; and because any
call may fail, a postcondition that does not ask for success holds at every point where the process may
die. Orders the code leaves open (map iteration, server lists) are arbitrary choices.

**The protocol, all keys at once.** `Protocol` is a state machine: per key the Service, its binding and
the place of its process, each step being one call. Calls of different keys interleave, a process may
stop anywhere (which also covers a call whose effect was felt although it returned an error),
Services appear, change, are deleted or vanish, bindings are deleted by anybody. `Safety` has the
invariant of one key; `Neighbours` why a key has nothing to fear from others, however impolite their
environment is; `Discipline` that the invariant of a key holds in all runs disciplined for that key;
`Promises` what follows, and `Finalizers` what holds with less discipline.
`Continuations` is how a run can go on from a state; over it `Leaks`, `Renames`, `Reuse`, `AclLimits`
and `Collisions` show where the promises end: for each a run into the failure, and the exact states from
which it can happen.

**The controller over the protocol.** `Controller` has the reconcile methods call by call, with an
arbitrary behaviour of everybody else between the calls (`Interference`). Each call has to be a step of
the protocol from where the process stands, so a method that skips, swaps or adds a call does not
verify. `Goals` says what a reconciliation is to reach, relative to the state it found; what the loops
over the cloud achieve is carried through all interference up to `Reconcile`. A failed call that
stops a process counts as a fault; at the places of `Controller.Tolerant` the code goes on without it, and
what "without faults" promises holds all the same.

**Beside these:** `Naming`, `Params`, `Backends`, `Detector` (the network cache), `Webhook` (the
admission webhook with the API server's rule about classes), and `LbcProtocol` with `LbcLimits` (the
legacy LoadBalancerConfig reconciler as a second state machine; `LbcOutcomes` says whom it works for).

## Assumptions

- Nobody but this controller changes the cloud. So a NotFound from inside the teardown means that the ELB
  has gone, as `internal/controller/service_controller.go:814-820` reads it; if somebody else deleted
  a pool or a member meanwhile, that reading would be wrong.
- One reconciliation at a time per key; reads see all earlier writes; identifiers of the cloud are never
  reused; a lookup by name sees every earlier creation; a pool has an endpoint once and an ELB a port once.
- UIDs have at least ten runes, and no two Services ever share the first ten. `Naming.ShortUidsCollide`
  shows why.
- A run disciplined for a key (`Discipline.CalmRun`) keeps the ELB name of this key's live Service (its name
  annotation) as it is, reuses its name only when the old binding has gone and no process works on the key,
  and has no other key that prints its IP group name. Nothing is asked of the other keys.
  `Renames.RenameIsSafeIff`, `Reuse.ReuseStraysIff` and `Collisions.DanglesIffCollides` say exactly what
  goes wrong otherwise. At most one ELB per name needs none of this, and finalizer safety only that the
  old binding has gone.
- Whether the cloud deletes children along with a listener or pool is a parameter: the comments at
  `internal/huaweicloud/listener.go:52` and `internal/controller/service_controller.go:873` disagree.
- Which source ranges parse, what each of the two syncs of an update reads of nodes and subnets, whether a
  bandwidth change is due that the cloud refuses, whether the network was detected and whether a new ELB
  became active in time are inputs. Within one sync the same question gets the same answer.
- Nobody edits or removes the annotation with the ELB ID of a LoadBalancerConfig, and a config is created
  again only while no process works on it.

## Where the code does less than its comments say

- A listener whose pool or monitor could not be created is never completed
  (`internal/controller/service_controller.go:406-408`): convergence holds exactly if no listener is incomplete
  (`Converge.SyncElb`, `Controller.Process.ReconcileUpdate`).
- If the nodes can be read for the port sync and not for the member sync, an update finishes with the
  members as they were (`Converge.WrongPoolStays`).
- A refused bandwidth change ends every update before its access control (`Controller.Process.Prepare`), and
  the update path does not clamp the size (`Params.UpdateMatchesCreate`).
- A group that was enabled but not recorded is not disabled when the source ranges go
  (`AclLimits.GroupStaysEnabled`): access control converges exactly if there are ranges, or a group is
  recorded, or no listener that stays is bound (`Converge.CanSettle`, in `Converge.SyncElb`).
- A recorded IP group that no longer exists fails every update of a Service with source ranges; one that
  exists can always be written (`AclLimits.StuckIffGone`). A failed patch leads there
  (`AclLimits.RecordedGroupDies`).
- An ELB is lost if the process dies between creating and recording it and the Service vanishes before the
  next attempt (`Leaks.UnrecordedElbLeaks`), for the orphan path has no lookup by name; once the Service has
  gone, an ELB is lost for ever exactly if it is not recorded (`Leaks.LeaksIffUnrecorded`).
- Changing the name annotation of a Service that has an ELB can give it a second one, even if the first one
  is recorded: when the binding cannot be read, `internal/controller/service_controller.go:290-294` goes on to
  create (`Renames.RenameIsSafeIff`, `Renames.RecordingDoesNotHelp`).
- A Service that reuses the name of one whose binding is still there takes over the recorded ELB, for UIDs
  are compared only when a binding is ensured; so it does if the process of its predecessor can still record
  one (`Reuse.ReuseStraysIff`).
- Group names of different namespaces can collide (`Naming.AclNamesCollideIff`), and then a cleanup of one
  key deletes the group that guards the other's listeners (`Collisions.DanglesIffCollides`).
- Of a pool with more than 2000 members the sync and the teardown see 2000 (`Members.SyncMembers`,
  `Teardown.DeleteELBStack`).
- Of two Service ports with one number, one for each protocol, the last one gets the listener and the first one
  has its members synced, which agree exactly if the node ports do (`Converge.UnambiguousIff`); and a creation
  never finishes for such a Service, for the second listener is refused (`Launch.CreateAllStacks`).
- Comparing parameters is not equality when values are empty (`Params.ComparesExactly`).
- The LoadBalancerConfig reconciler never reports an ELB as ready (`LbcProtocol.NeverReady`), although
  `internal/controller/loadbalancerconfig_controller.go:14-18` promises it; it loses an ELB exactly if its ID
  is not recorded when the config goes (`LbcLimits.LeaksIffUnrecorded`); and two configs that print one
  name can both create (`LbcLimits.OnePerNameIffApart`).

## Model

| member | source | states |
|---|---|---|
| `Protocol.AtMostOnePerName` | internal/controller/service_controller.go:308-345 | In every state of every run (any number of keys, a stop after any call, renames, edits, reuse of Service names) no two live ELBs carry the same name. |
| `Protocol.CreatesOnlyIfFree` | internal/controller/service_controller.go:316-340 | A process comes to the place where it creates only by a lookup that found no ELB of the Service's name. |
| `Protocol.NamesDiffer` | internal/huaweicloud/params.go:36-45 | Services whose UIDs differ in the first ten runes never ask for the same ELB name, whatever their namespaces, names and annotations. |
| `Protocol.OrderlyMoves` | internal/controller/service_controller.go:299-365 | Every call of every process keeps ELB names unique and every pending creation entitled. |
| `Protocol.SnapshotMoves` | internal/controller/service_controller.go:245-295 | A process works on the Service it has read and on no other, and never changes the Service. |
| `Discipline.CalmRunsKeep` | internal/controller/service_controller.go:245-869 | In every state of every run that is disciplined for key k alone, k's invariant holds, and all other keys know only of what is dead or their own, although their Services may be renamed, their names reused at any time and their group names collide. |
| `Discipline.AnyOwn` | internal/controller/service_controller.go:245-869 | Every call of every process, whatever has befallen its key, touches nothing but ELBs of its own key, with all that is below them, and groups of its own name. |
| `Neighbours.HarmlessOwn` | internal/controller/service_controller.go:245-869 | A process whose place, binding and cleanup snapshot name only what is dead or its own cannot touch anything else with any call, access control loops and teardown included. |
| `Neighbours.HarmlessMoves` | internal/controller/service_controller.go:245-869 | Each of its calls, the lookups by name included, leaves it so. |
| `Neighbours.HarmlessStays` | internal/controller/service_controller.go:245-869 | So does any such call of another key. |
| `Safety.OwnKeeps` | internal/controller/service_controller.go:245-869 | Any single call of a process, wherever it stands in create, update, access control, teardown or cleanup, keeps its key's invariant and touches nothing but ELBs of its own key, with all that is below them, and groups of its own name. |
| `Safety.AgreeKeeps` | internal/controller/service_controller.go:245-869 | A step of one key's process cannot break the invariant of another key. |
| `Discipline.DisturbedKeeps` | internal/controller/service_controller.go:245-295 | Appearance, edit, deletion and disappearance of the Service and deletion of the binding by anybody keep the key's invariant at every place of its process. |
| `Safety.FindKeeps` | internal/controller/service_controller.go:316-340 | After the lookup the process either holds the one ELB with the Service's tag or knows there is none. |
| `Safety.RecordKeeps` | internal/controller/service_controller.go:322-395 | Recording an ELB in the binding, with or without success, keeps the recorded ELB the only one of its Service. |
| `Safety.CreateKeeps` | internal/controller/service_controller.go:337-345 | Creating the ELB keeps every claim about names, bindings and access control. |
| `Safety.AclDropKeeps` | internal/controller/service_controller.go:964-979 | Deleting the group after unbinding leaves no listener of a watched ELB with a group that is gone. |
| `Safety.GroupDropKeeps` | internal/controller/service_controller.go:823-848 | Deleting the group in a cleanup leaves no such listener either, because by then no watched ELB is live. |
| `Safety.TearKeeps` | internal/controller/service_controller.go:874-955 | Every call of a teardown keeps the key's invariant. |
| `Safety.TornKeeps` | internal/controller/service_controller.go:812-821 | A cleanup goes on from the teardown only when neither the Service's nor the recorded ELB is live. |
| `Safety.ReleaseKeeps` | internal/controller/service_controller.go:855-866 | Removing the finalizer keeps that a binding without it records nothing live. |
| `Safety.CleanFindKeeps` | internal/controller/service_controller.go:796-810 | The lookup of a cleanup finds the one ELB of the Service or shows that there is none. |
| `Promises.Recoverable` | internal/controller/service_controller.go:316-336 | While a Service exists, a lookup by name returns every live ELB created for it, so there is at most one; and if the binding records an ELB it is this one. Holds at every crash point, in every run disciplined for this key, whatever befalls the others. |
| `Promises.AtMostOnePerService` | internal/controller/service_controller.go:308-395 | A Service never has two live ELBs, in any run disciplined for its own key. |
| `Promises.RecordedIsLive` | internal/controller/service_controller.go:287-294 | As long as the Service is wanted, the ELB in its binding is live and its own, so the update path never works on a dead one; again only its own key need be disciplined, here and in the rows below. |
| `Finalizers.FinalizerGuards` | internal/controller/service_controller.go:121-150 | In every run in which this Service's name is reused only when the old binding has gone, even if a process still works for the old Service, a binding whose recorded ELB or group is live carries the cleanup finalizer; Services may be renamed, group names may collide, and nothing is asked of other keys. |
| `Finalizers.BindingGoesLast` | internal/controller/service_controller.go:812-866 | In these runs, whoever deletes the binding: it vanishes only when nothing it records is live. |
| `Finalizers.CalmRunIsPatient` | internal/controller/service_controller.go:121-150 | Every run disciplined for the key is one of these. |
| `Promises.CleanupIsComplete` | internal/controller/service_controller.go:785-869 | A cleanup that reaches its end knowing the Service leaves neither an ELB created for it nor a group with its name, recorded or not. |
| `Promises.OrphanCleanup` | internal/controller/service_controller.go:770-869 | Without the Service, a finished cleanup leaves nothing recorded; an ELB of that Service can remain only if none was recorded. |
| `Leaks.LeaksIffUnrecorded` | internal/controller/service_controller.go:770-822 | Once a Service has gone and no process works on its key, a live ELB that was created for it outlives every disciplined continuation, new Services of that name included, if and only if the binding does not record it. |
| `Leaks.UnrecordedElbLeaks` | internal/controller/service_controller.go:340-395 | A run into that: a crash between creation and recording, then the Service vanishes; the ELB is there in every later state. |
| `Renames.RenameIsSafeIff` | internal/controller/service_controller.go:287-345 | After a change of the name annotation there is at most one ELB of the Service in every disciplined continuation if and only if the Service is being deleted already, or has no ELB and no process is at work on it. |
| `Renames.RecordingDoesNotHelp` | internal/controller/service_controller.go:287-294 | In particular it is not enough that the ELB is recorded: a process that cannot read the binding goes on to create under the new name. |
| `Renames.RenamingDoubles` | internal/controller/service_controller.go:316-345 | A concrete run with two live ELBs of one Service. |
| `Reuse.ReuseStraysIff` | internal/controller/service_controller.go:507-519 | Wherever the process of the key stands when a Service of another UID appears: that process can come to maintain an ELB that is not the Service's own, with nobody interfering, if and only if the binding records an ELB or the process can still record one for the predecessor. |
| `Reuse.ReuseStrays` | internal/controller/service_controller.go:290-293 | A run into that: the predecessor vanishes, and the new Service appears before the cleanup has run. |
| `Promises.NoDanglingAcl` | internal/controller/service_controller.go:960-1040 | At every point of every process, a group enabled on a listener of the Service's or the recorded ELB exists and carries the key's group name. |
| `AclLimits.StuckIffGone` | internal/controller/service_controller.go:982-1002 | A Service that keeps its source ranges, with a recorded ELB and group, never gets past writing the group in any disciplined continuation if and only if that group is gone. |
| `AclLimits.RecordedGroupDies` | internal/controller/service_controller.go:601-619 | A disciplined run into that: the ranges are dropped, the group is deleted, recording that fails, the ranges come back. |
| `AclLimits.GroupStaysEnabled` | internal/controller/service_controller.go:964-979 | A disciplined run that ends idle with no source ranges, no recorded group, and a listener still bound to the old one: the case `Converge.CanSettle` excludes. |
| `Collisions.DanglesIffCollides` | internal/controller/service_controller.go:823-848 | Two keys can come to a listener bound to a group that is gone, in a run disciplined otherwise, if and only if they print the same group name. |
| `Collisions.CollisionDangles` | internal/controller/service_controller.go:823-848 | The run: the cleanup of one key deletes the group that guards the ELB of the other. |
| `Promises.NeverMends` | internal/controller/service_controller.go:113-149 | In disciplined runs the branches for another Service's binding and for a missing finalizer are never taken. |
| `Promises.PortStepIsStep` | internal/controller/service_controller.go:661-705 | Every call of the port sync is a step the protocol allows a working process. |
| `Promises.MemberStepIsStep` | internal/huaweicloud/member.go:101-139 | So is every call of the member sync. |
| `Controller.Process.Go` | internal/controller/service_controller.go:245-869 | One call, then anything others may do: the history stays a run disciplined for the key, the process keeps its place and everything of its own. |
| `Interference.ElsewhereSpares` | internal/controller/service_controller.go:245-295 | What others do between two calls, in whatever state their keys are, leaves a process its place, its key's ELBs with all that is below them, and its key's groups with their contents. |
| `Controller.Process.Act` | internal/controller/service_controller.go:553-619 | A call of a process that holds an ELB, then anything others may do: what the call made below the ELB and of the key's groups is still there. |
| `Controller.Process.GetBinding` | internal/controller/service_controller.go:94-104 | Reads the binding or fails; the code goes on where the result says, and the failure counts as a fault only at places where the code stops at it. |
| `Controller.Process.FindELBByName` | internal/huaweicloud/elb.go:124-140 | Returns some ELB of that name, none only if there is none, or fails. |
| `Controller.Process.PatchBinding` | internal/controller/service_controller.go:154-187 | Patches the current binding of the key, fails if there is none, and may fail anyway. |
| `Controller.Process.EnsureBinding` | internal/controller/service_controller.go:108-150 | Follows the protocol through read, stale deletion, creation and mending, and ends at the recording or where the failure leads; only a failed call fails it. |
| `Controller.Process.ReadBinding` | internal/controller/service_controller.go:109-120 | What is read is this Service's binding or none; another Service's is deleted first. |
| `Controller.Process.CompleteBinding` | internal/controller/service_controller.go:121-149 | Creates a missing binding with the finalizer, or puts a missing finalizer back if it can. |
| `Controller.Process.CreateELB` | internal/huaweicloud/elb.go:47-84 | Creates under the Service's name at the place that allows it; the new ELB has no listener; only a fault fails it. |
| `Controller.Process.CreateAndBind` | internal/controller/service_controller.go:338-395 | Creation, wait, binding, and a recording whose failure does not stop the creation; the ELB is new and has no listener, even if it fails later; with the ELB active in time only a fault other than a failed recording stops it, and if nothing fails the ELB is recorded with the finalizer. |
| `Controller.Process.BindNew` | internal/controller/service_controller.go:365-395 | The binding is ensured and the new ELB recorded: a failed recording does not stop the process, a failed creation of the binding does; nothing below the ELB changes; if no call fails the ELB is recorded with the finalizer. |
| `Controller.Process.Restore` | internal/controller/service_controller.go:322-336 | Records a found ELB again and changes nothing in the cloud; no failed call stops it; the ELB is live at the end, and if no call has failed recorded. |
| `Controller.Process.ReconcileCreate` | internal/controller/service_controller.go:299-462 | If it finishes, a new ELB serves the Service's ports with the nodes as members and has its access control settled, the port numbers differ, and no ELB was recorded before; if it asks to be repeated at once, it only recorded the found ELB again; without faults and with usable inputs it does one of the two, and what it made is recorded if no call has failed at all. Wherever it stops, every member below its ELB that was not there before is a node of its reading, in the node's subnet. |
| `Controller.Process.CreateAfresh` | internal/controller/service_controller.go:338-462 | The creating half: everything as asked for, recorded if no call has failed; it may end well although recording failed, as the code does. Wherever it stops, every member of the new ELB is a node in its subnet. |
| `Controller.Process.ReconcileUpdate` | internal/controller/service_controller.go:505-658 | If it finishes, the recorded ELB was brought to what the Service asks for: if both readings of the nodes succeed, ports and members exactly if no listener for a wanted port was incomplete before; if the second fails, the ports, with all members as they were; access control exactly if it can be settled. If none was recorded, a new one serves as asked for. All is recorded unless a fault prevents it. What rests already is not moved, by this call or anybody's during it. Without faults it gets there, unless a pool is too large to read, the group to write is gone, or a bandwidth change is refused. Wherever it stops, every member below the ELB that was not there before is a node of one of the two readings, in the node's subnet. |
| `Controller.Process.CreateStacks` | internal/controller/service_controller.go:409-414 | The port loop of a creation is a step below the new ELB; success leaves every port served and every listener open; with usable inputs only a fault fails it; wherever it stops, every member is a node in its subnet. |
| `Launch.CreateAllStacks` | internal/controller/service_controller.go:409-414 | On an ELB without listeners, success leaves exactly the Service's ports, each served by a complete stack with the nodes as members, all open. Without faults it comes to that if and only if the port numbers differ. Wherever it stops, every new member is a node in its subnet. |
| `Launch.LaunchedServed` | internal/controller/service_controller.go:409-414 | A complete stack for every port, and no other port, is what the syncs of an update come to. |
| `Controller.Process.Equip` | internal/controller/service_controller.go:400-430 | Stacks, then access control of a new ELB: if it says done, ports, members and access control are as the Service asks; if not, every member that came is still a node in its subnet. |
| `Controller.Process.Maintain` | internal/controller/service_controller.go:553-619 | Ports, members, bandwidth, access control of a recorded ELB, in this order: done only if all is as asked for, except exactly where a listener was incomplete, the second reading failed or an unrecorded group was bound; the result is recorded; what rests is not moved; without faults it gets there; wherever it stops, no new member that is not a node in its subnet. |
| `Controller.Process.SyncStacks` | internal/controller/service_controller.go:553-563 | Both syncs with others at work in between, each with its own reading of the nodes: ports and members exactly as the second reading asks for if and only if no listener was incomplete and the ports were right or could be synced; if it fails, only the ports. |
| `Controller.Process.Resize` | internal/controller/service_controller.go:582-590 | A bandwidth change that is refused ends the update; nothing below the ELB or of the key's groups changes. |
| `Controller.Process.Prepare` | internal/controller/service_controller.go:553-590 | Access control is reached only after both syncs and an accepted bandwidth. |
| `Goals.AllProvided` | internal/controller/service_controller.go:553-605 | Ports, members and access control, one after the other, make up what the Service asks for. |
| `Controller.Process.GuardELB` | internal/controller/service_controller.go:982-1009 | With source ranges: put the group, then bind it. On success the group holds exactly the ranges and every listener is bound to it; a guarded ELB is not moved; only a fault or a dead recorded group fails it. |
| `Controller.Process.OpenELB` | internal/controller/service_controller.go:964-979 | Without: unbind everywhere, then delete the recorded group; on success every listener is open. |
| `Controller.Process.DropRecorded` | internal/controller/service_controller.go:972-977 | Deletes the recorded group, one that is not there counting as deleted; nothing below the ELB changes; only a fault fails it. |
| `Controller.Process.Provide` | internal/controller/service_controller.go:284-294 | Update if the binding records an ELB, else, or if it cannot be read, create; either way what is promised of the two is relative to the state at its start, and a failed read does not keep it from getting there. |
| `Controller.Process.SyncListeners` | internal/controller/service_controller.go:661-705 | On success the ports are the Service's, and the listeners are complete and open exactly as they were before, while others were at work; the right ports cost no change; with usable inputs only a fault fails it; wherever it stops, every new member is a node of its reading, in its subnet. |
| `Controller.Process.SyncMembersOfPools` | internal/controller/service_controller.go:708-756 | On success every pool that can be read has exactly the nodes at its port; exact pools cost no change; with readable pools only a fault fails it; wherever it stops, every new member is a node of its reading, in its subnet. |
| `Controller.Process.PutGroup` | internal/controller/service_controller.go:982-1002 | Finds, updates or creates the group in the order the protocol allows; on success it holds exactly the ranges under the key's name; only a fault or a recorded dead group fails it; without a recorded group it takes one that has the name, if there is one. |
| `Controller.Process.WriteGroup` | internal/controller/service_controller.go:993-1002 | Updates the given group or creates one: on success it holds exactly the ranges under the key's name; the key's groups stay as they are if it did so already, or if the call fails. |
| `Controller.Process.BindACL` | internal/controller/service_controller.go:1013-1025 | Enables the group on every listener, one call each, with others at work in between: on success on all of them, else on those done so far, and nothing else below the ELB changes. |
| `Controller.Process.UnbindACL` | internal/controller/service_controller.go:1028-1040 | Likewise disables it on every listener before the group may be deleted. |
| `Controller.Process.SetEach` | internal/controller/service_controller.go:1013-1040 | The loop over the listeners: exactly those done so far are set, in whatever order the list gives them. |
| `Controller.Process.EnsureACL` | internal/controller/service_controller.go:960-1010 | Ends where its result is recorded: a group exactly if there are valid source ranges. Access control is settled exactly if there are ranges, or a group was recorded, or all was open before; what was settled is not moved; only a fault or a recorded dead group fails it. |
| `Controller.Process.RecordACL` | internal/controller/service_controller.go:601-619 | The result of ensureACL is recorded: the ELB is live, the recorded group exists under the key's name, and without faults recording succeeds. |
| `Controller.Process.TearDown` | internal/controller/service_controller.go:874-955 | The calls of deleteELBStack, each a step of the protocol with others at work in between; unless it fails, the ELB is gone; on a cascading cloud only a fault fails it. |
| `Controller.Process.RemovePools` | internal/controller/service_controller.go:879-913 | On success no pool is left on the ELB, whatever others did between the calls. |
| `Controller.Process.RemovePool` | internal/controller/service_controller.go:881-912 | Monitors, members, then the pool: on success exactly this one of the ELB's pools has gone. |
| `Controller.Process.RemoveMembers` | internal/controller/service_controller.go:895-905 | Deletes the members on the listed page; all of them if they fit on it. |
| `Controller.Process.RemoveListeners` | internal/controller/service_controller.go:915-924 | With the pools gone, on success no listener is left. |
| `Controller.Process.FindElb` | internal/controller/service_controller.go:789-810 | The recorded ELB, or the one found by name, or none. |
| `Controller.Process.FindGroup` | internal/controller/service_controller.go:823-839 | The recorded group, or the one found by name, or none. |
| `Controller.Process.CleanupBindingResources` | internal/controller/service_controller.go:785-869 | If it says done, nothing created for a known Service and nothing recorded is left, and the binding is released; on a cascading cloud only a fault prevents that. |
| `Controller.Process.RemoveFinalizer` | internal/controller/service_controller.go:855-868 | The finalizer goes last, and what was gone stays gone. |
| `Controller.Process.ReconcileDelete` | internal/controller/service_controller.go:759-763 | Done means no ELB of the Service and no group of its name. An unreadable binding counts as absent and keeps it from nothing: without further faults it gets there, and if the binding was read it is released. |
| `Controller.Process.ReconcileOrphanedBinding` | internal/controller/service_controller.go:770-781 | Done means that nothing the binding records is live and no finalizer is left on it; without faults it gets there. |
| `Controller.Process.Reconcile` | internal/controller/service_controller.go:245-295 | Finished means, for a wanted Service, what is promised of updates and creations; for a deleted one, that nothing of it is left; for one that has vanished, that nothing its binding recorded is live and the binding is released. What rests is not moved. Without faults it gets there, with the exceptions of updates, even if the reads and records fail that the code goes on without. Wherever it stops, a wanted Service has got no member that is not a node in its subnet. A Service that is none of the controller's business is left alone. |
| `Paging.ListAll` | internal/huaweicloud/listener.go:92-125 | The marker loop returns the whole list in order, each entry once, in at most one call more than there are entries, or fails. |
| `CloudApi.Api.ListListeners` | internal/huaweicloud/listener.go:92-125 | Exactly the listeners of the ELB, each once. |
| `CloudApi.Api.ListPools` | internal/huaweicloud/pool.go:65-103 | Exactly the pools of the ELB, each once. |
| `CloudApi.Api.ListHealthChecks` | internal/huaweicloud/healthcheck.go:73-112 | Exactly the monitors of the whole project, each once. |
| `CloudApi.Api.ListMembers` | internal/huaweicloud/member.go:71-96 | At most one page of the pool's members; all of them if they fit on it. |
| `CloudApi.Api.FindIPGroupByName` | internal/huaweicloud/elb.go:442-459 | A group of that name, none only if there is none. |
| `CloudApi.Api.CreateListener` | internal/huaweicloud/listener.go:21-49 | Adds one open listener under a new identifier, or changes nothing; keeps the cloud intact. |
| `CloudApi.Api.CreatePool` | internal/huaweicloud/pool.go:22-49 | Adds one pool, or changes nothing. |
| `CloudApi.Api.CreateHealthCheck` | internal/huaweicloud/healthcheck.go:30-58 | Adds one monitor, or changes nothing. |
| `CloudApi.Api.AddMember` | internal/huaweicloud/member.go:29-56 | Adds one member; refused if the endpoint is in the pool already. |
| `CloudApi.Api.DeleteMember` | internal/huaweicloud/member.go:59-68 | Removes one member of this pool; NotFound only if it is not there. |
| `CloudApi.Api.DeleteHealthCheck` | internal/huaweicloud/healthcheck.go:61-69 | Removes one monitor; NotFound only if it is not there. |
| `CloudApi.Api.DeletePool` | internal/huaweicloud/pool.go:54-62 | Removes a pool with its children if the cloud cascades, else only a childless one. |
| `CloudApi.Api.DeleteListener` | internal/huaweicloud/listener.go:51-61 | Removes a listener with its children if the cloud cascades, else only a childless one. |
| `CloudApi.Api.DeleteELB` | internal/huaweicloud/elb.go:143-153 | Removes an ELB without listeners; NotFound only if it is not there. |
| `CloudApi.Api.UpdateListenerACL` | internal/huaweicloud/listener.go:66-89 | Enables an existing group on the listener, or none. |
| `CloudApi.Api.CreateIPGroup` | internal/huaweicloud/elb.go:381-406 | Adds one group. |
| `CloudApi.Api.UpdateIPGroup` | internal/huaweicloud/elb.go:409-429 | Replaces name and ranges of an existing group. |
| `CloudApi.Api.DeleteIPGroup` | internal/huaweicloud/elb.go:432-440 | Removes a group, used or not; NotFound only if it is not there. |
| `CloudModel.DropListenerKeepsWF` | internal/huaweicloud/listener.go:51-61 | Deleting a listener with everything below it leaves no orphan and no duplicate. |
| `CloudModel.DropPoolKeepsWF` | internal/huaweicloud/pool.go:54-62 | Deleting a pool with everything below it leaves no orphan. |
| `Members.SyncMembers` | internal/huaweicloud/member.go:101-139 | Wherever it stops, wanted members keep their identifiers and calls made equal distance covered; on success the listed members are exactly the desired ones; of at most 2000 members only a fault can fail it. |
| `Members.MemberRunCloses` | internal/huaweicloud/member.go:120-136 | Any run of its calls, cut anywhere, loses no wanted member, and each call lowers the distance by exactly one. |
| `Members.MemberStepCloses` | internal/huaweicloud/member.go:120-136 | One call keeps the cloud intact and everything outside the pool, and brings the pool nearer by one. |
| `Members.DesiredMap` | internal/huaweicloud/member.go:108-112 | The desired map holds the targets by printed key, the last of equal ones. |
| `Members.CurrentMap` | internal/huaweicloud/member.go:114-118 | The current map finds each listed member by its printed key, overwriting none. |
| `Members.RemoveStale` | internal/huaweicloud/member.go:120-127 | In any order, exactly the listed unwanted members go. |
| `Members.AddMissing` | internal/huaweicloud/member.go:129-136 | In any order, exactly the wanted endpoints not listed come; a clash with an unlisted one fails. |
| `Members.WantedAreDesired` | internal/huaweicloud/member.go:108-112 | The endpoints wanted are exactly those of the targets. |
| `Members.WantedIsLast` | internal/huaweicloud/member.go:108-112 | Of two targets with one endpoint the last one gives the subnet. |
| `Stacks.CreateListenerStack` | internal/controller/service_controller.go:465-501 | On success the cloud has exactly one listener with pool, monitor and members more; it fails only by a fault, a taken port, a missing ELB or an unusable node. Wherever it stops, every member that was not there before is a node, in the subnet its own virsubnet stands for. |
| `Stacks.AddStackServes` | internal/controller/service_controller.go:465-501 | Such a stack serves its port with exactly the targets as members, in a pool named for the port. |
| `Stacks.AddAll` | internal/controller/service_controller.go:485-496 | Adds one member per node in order, each in its own node's subnet; a node of unknown subnet stops it. |
| `Stacks.SyncListenerStacks` | internal/controller/service_controller.go:661-705 | Wherever it stops, no wanted listener is lost, the ports come no further away, and every new member is a node in its subnet; on success the ports are the Service's, missing ones with complete stacks, the others untouched; equal ports or unreadable nodes mean no call. |
| `Stacks.PortRunProgress` | internal/controller/service_controller.go:684-702 | Any run of its calls, cut anywhere, keeps wanted listeners with all that is below them, and every listener created or deleted brings the ports strictly nearer. |
| `Stacks.AddStacks` | internal/controller/service_controller.go:683-692 | In any order, exactly the missing ports get stacks, with every member in its node's subnet. |
| `Stacks.RemoveListeners` | internal/controller/service_controller.go:694-702 | In any order, exactly the listeners of unwanted ports go, and no member comes; without cascade it may be refused. |
| `Stacks.ExistingPorts` | internal/controller/service_controller.go:672-675 | The existing map finds the listener of every port of the ELB. |
| `Stacks.DesiredPorts` | internal/controller/service_controller.go:668-671 | The desired map holds the Service ports by number, the last of equal ones. |
| `Stacks.PortMapLast` | internal/controller/service_controller.go:668-671 | Of two Service ports with one number the last one gets the listener. |
| `PoolSync.SyncAllPoolMembers` | internal/controller/service_controller.go:708-756 | Only members of pools made for Service ports change, never a wanted one; wherever it stops, every new member is a node, in the subnet its own virsubnet stands for; on success these pools have exactly the nodes at their node port; unreadable nodes change nothing. |
| `PoolSync.PoolMatchesItsPort` | internal/controller/service_controller.go:723-730 | A pool made for a port is matched to that port's node port, by injectivity of the printed name. |
| `PoolSync.StrayPoolUnmatched` | internal/controller/service_controller.go:723-734 | A pool made for another port is left alone. |
| `PoolSync.SyncOne` | internal/controller/service_controller.go:722-753 | One pool becomes exact, with every new member in its node's subnet, and no other pool changes; an exact pool costs no change. |
| `PoolSync.BuildTargets` | internal/controller/service_controller.go:736-747 | One target per node in order, at the node's address and the node port, in the node's own subnet; it fails exactly if a subnet is unknown. |
| `PoolSync.KeepsStaffed` | internal/controller/service_controller.go:736-750 | Whatever a member sync with these targets creates, wherever it stops, is a node in its subnet. |
| `PoolSync.MatchPool` | internal/controller/service_controller.go:723-730 | The node port of the first Service port that prints the pool's name, 0 if none does. |
| `Acl.EnsureACL` | internal/controller/service_controller.go:960-1010 | At every point every enabled group exists, and there is no second group of the Service's name if there was none before; success with valid ranges binds every listener to one group holding exactly them, the recorded one or else one that had the name before, if there was one; without ranges, an unrecorded group is ignored and a recorded one unbound and deleted; a recorded dead group fails always, and otherwise only a fault does. |
| `Acl.FilterValidCIDRs` | internal/controller/service_controller.go:1297-1310 | Exactly the valid ranges in order. |
| `Acl.FilterExact` | internal/controller/service_controller.go:1297-1310 | A range survives exactly if it is valid. |
| `Acl.FilterInOrder` | internal/controller/service_controller.go:1297-1310 | The order stays, and no range is doubled. |
| `Acl.BindAll` | internal/controller/service_controller.go:1013-1040 | Enables or disables on every listener of the ELB, or on some of them if it fails; nothing else changes. |
| `Acl.RemoveACL` | internal/controller/service_controller.go:964-979 | Unbinds first, then deletes; NotFound counts as deleted; no listener ever points to a deleted group. |
| `Acl.PutGroup` | internal/controller/service_controller.go:982-1002 | The recorded group, else one that has the name already, else a new one holds exactly the ranges; a second group of the name never comes about; nothing changes on failure. |
| `Teardown.DeleteELBStack` | internal/controller/service_controller.go:874-955 | On success exactly the ELB and all below it is gone; wherever it stops, nothing else was touched and what remains has shrunk by one per call; NotFound means the ELB was gone; with or without cascade. |
| `Teardown.TearRunShrinks` | internal/controller/service_controller.go:874-955 | From any prefix of its calls the number of remaining resources bounds the calls still needed: restarts come to an end. |
| `Teardown.TearStepShrinks` | internal/controller/service_controller.go:881-924 | One call removes one resource without children and leaves the rest of the cloud as it was. |
| `Teardown.ClearPool` | internal/controller/service_controller.go:881-913 | Monitors, listed members, then the pool. |
| `Teardown.ClearListeners` | internal/controller/service_controller.go:915-924 | Every listener goes, with no pool left on it. |
| `Converge.SyncElb` | internal/controller/service_controller.go:553-605 | One success makes ports and members exactly what the Service asks for, as the second reading of the nodes has it, if and only if no listener for a wanted port was incomplete before and the ports were right or the first reading succeeded; if the second reading fails, the ports alone, with all members as they were. Access control is settled if and only if there are source ranges, or a group is recorded, or no listener that stays was bound. Where there is nothing to do nothing changes; without faults it is reached; throughout, every enabled group exists, every new member is a node of one of the two readings, in its subnet, and no second group of the Service's name comes about. If two Service ports have one number, all this is under the condition that their node ports agree. |
| `Converge.SyncedStacked` | internal/controller/service_controller.go:684-692 | The port sync completes no half-built stack: listeners are complete after it exactly if they were before. |
| `Converge.SyncedOpen` | internal/controller/service_controller.go:684-702 | After the port sync all is open exactly if no listener that stays was bound to a group. |
| `Converge.SyncedPrimed` | internal/controller/service_controller.go:684-702 | The port sync leaves pools that can be read or are as the second reading wants them. |
| `Converge.SyncedPortsOnly` | internal/controller/service_controller.go:677-705 | Of existing pools it changes no member, and new pools have exactly the nodes of its own reading. |
| `Converge.WrongPoolStays` | internal/controller/service_controller.go:714-719 | If the nodes cannot be read again, a pool with wrong members stays wrong although the update goes on to its end. |
| `Converge.UnambiguousIff` | internal/controller/service_controller.go:668-730 | For Service ports with one number, one for each protocol, port sync and member sync want the same members if and only if the first and the last of them have one node port. |
| `Converge.DistinctUnambiguous` | internal/controller/service_controller.go:668-730 | In particular if the numbers differ. |
| `Converge.ServedRests` | internal/controller/service_controller.go:553-563 | Where everything is served neither sync finds anything to do. |
| `Converge.OneAfterOther` | internal/controller/service_controller.go:553-563 | Port sync and member sync make up one: served as the second reading asks exactly if no listener was incomplete and the ports are right, and if it fails, ports only. |
| `Converge.PrimedServed` | internal/controller/service_controller.go:708-756 | From there the member sync makes every port served exactly if the ports are right and the listeners complete. |
| `Converge.SyncBelow` | internal/controller/service_controller.go:553-563 | Listeners, then members, each with its own reading of the nodes: what both have done, nothing where there is nothing to do, and wherever it stops no new member that is not a node of one of the readings, in its subnet. |
| `Converge.SyncMembersBelow` | internal/controller/service_controller.go:708-756 | What the member sync means for the whole: served exactly if the ports were right and the listeners complete, or all as before if the nodes cannot be read; with every new member a node of its reading, in its subnet. |
| `Converge.SyncPortsBelow` | internal/controller/service_controller.go:661-705 | What the port sync means for the member sync after it: the ports are right, no listener has become complete or incomplete, and what pools there are can be read or are as wanted; with every new member a node of its reading, in its subnet. |
| `Naming.ELBNameBounded` | internal/huaweicloud/params.go:36-45 | At most 64 runes, ending in a dash and the UID's prefix, for all inputs. |
| `Naming.ELBNameShows` | internal/huaweicloud/params.go:36-45 | Before that the first eight runes of namespace and of name, in this order, or the annotation, cut exactly as far as 64 less the bytes of the UID's prefix requires. |
| `Naming.BytesOfRunes` | internal/huaweicloud/params.go:42-42 | The length in bytes is that in runes exactly for ASCII. |
| `Naming.ELBNamesShareUid` | internal/huaweicloud/params.go:36-45 | Equal names, default or custom, come from equal ten-rune UID prefixes. |
| `Naming.ShortUidsCollide` | internal/huaweicloud/params.go:36-45 | For shorter UIDs that fails, by example. |
| `Naming.MemberKeyInjective` | internal/huaweicloud/member.go:141-143 | Address and port can be read back from the printed key, colons in addresses included. |
| `Naming.PoolNameInjective` | internal/controller/service_controller.go:475-476 | Within a Service the pool name determines the port. |
| `Naming.NamesByExample` | internal/controller/service_controller.go:475-476 | Pool, member and group names of one Service, by example. |
| `Naming.AclNameInjectiveInNamespace` | internal/controller/service_controller.go:984-984 | Group names are injective within a namespace. |
| `Naming.AclNamesCollideIff` | internal/controller/service_controller.go:984-984 | Two namespaces have names that print one group name if and only if one namespace with a dash after it is a prefix of the other with a dash after it. |
| `Naming.AclNamesCollide` | internal/controller/service_controller.go:984-984 | Across namespaces they are not, by example. |
| `Naming.Truncate` | internal/huaweicloud/params.go:90-105 | A prefix of at most that many runes, the whole string if it fits. |
| `Detector.NetworkDetector.Detect` | internal/huaweicloud/detector.go:42-119 | A live cache answers, at once, without any call and whatever the API would say; otherwise all is asked for anew, and if the API answers it succeeds and the cache holds the answer, with the subnets of all nodes. Every answer was given by the API less than one TTL, plus the time its detection took, ago; failures leave the cache as it was. |
| `Detector.NetworkDetector.GetNeutronSubnet` | internal/huaweicloud/detector.go:124-145 | A virsubnet in a live cache is answered from it without any call; any other is asked for, and if the API answers it is in the map afterwards, which is otherwise as it was. Every answer is fresh or was given during or after the last successful detection, less than one TTL after its end; what is written into an expired cache is never read. |
| `Detector.NetworkDetector.Gather` | internal/huaweicloud/detector.go:50-109 | A detection returns what the API said during it: all zones, the subnets of all nodes, and subnet and VPC of the first one; it succeeds if the API answers and the nodes are labelled. |
| `Detector.AnswerMeans` | internal/huaweicloud/detector.go:57-109 | An answer holds exactly the zones of all nodes listed, and subnet and VPC of the first. |
| `Detector.NetworkDetector.AskAll` | internal/huaweicloud/detector.go:69-76 | In any order, the subnet of every virsubnet as the API answered it. |
| `Detector.Labels` | internal/huaweicloud/detector.go:60-94 | The virsubnets and zones on the node labels. |
| `Backends.GetNodeBackends` | internal/controller/service_controller.go:1059-1110 | Fails exactly if nodes, or under Local endpoints, cannot be read; else all ready nodes, or exactly those whose address belongs last to a node hosting an endpoint, each as often as the ready nodes have it. |
| `Backends.LocalEndpointNodeSet` | internal/controller/service_controller.go:1115-1137 | Exactly the named nodes of ready and not-ready endpoints. |
| `Backends.AllExact` | internal/controller/service_controller.go:1064-1080 | Exactly the nodes whose first condition of type Ready is true and that have an internal address, each under its first one. |
| `Backends.AllInOrder` | internal/controller/service_controller.go:1064-1080 | In the order of the nodes, and each node at most once. |
| `Backends.OwnersAreLast` | internal/controller/service_controller.go:1064-1080 | Of ready nodes with one address the last one owns it. |
| `Backends.IsNodeReady` | internal/controller/service_controller.go:1139-1146 | True exactly if there is a condition of type Ready, and the first one is true, wherever it stands among conditions of other types. |
| `Backends.FindInternal` | internal/controller/service_controller.go:1069-1079 | The first internal address, and none exactly if there is no internal one. |
| `Backends.MembersAreTheNodes` | internal/controller/service_controller.go:708-756 | After a successful sync a matched pool's members are exactly the first internal addresses of the nodes whose first Ready condition is true, under Local of those hosting an endpoint; of nodes with one address the last one has to. |
| `Params.ResolveBandwidthSize` | internal/huaweicloud/params.go:67-80 | Always between 1 and 2000, what was asked for if that is in range, and 10 without the annotation. |
| `Params.ResolvesPrinted` | internal/huaweicloud/params.go:67-80 | For any number asked for: below 1, or out of 32 bits, 10; up to 2000 itself; above that 2000. |
| `Params.UpdateMatchesCreate` | internal/controller/service_controller.go:1269-1283 | An update sends what creation would have chosen exactly if the size is at most 2000 or wraps around to the default. |
| `Params.ChargeModeFollows` | internal/controller/service_controller.go:1278-1280 | After an update the charge mode is the one asked for, exactly unless the annotation was taken away. |
| `Params.EqualSendNothing` | internal/controller/service_controller.go:580-583 | An unchanged size is not sent, and parameters that compare equal would send nothing: skipping the call misses no change. |
| `Params.ToInt32` | internal/controller/service_controller.go:1274-1274 | The conversion wraps around. |
| `Params.ParsesBack` | internal/huaweicloud/params.go:72-75 | A printed number parses to itself if it is in the range of the type, else to nothing. |
| `Params.CompareParams` | internal/controller/service_controller.go:1257-1267 | The loop decides the comparison, in any order. |
| `Params.ComparesExactly` | internal/controller/service_controller.go:1257-1267 | The comparison is equality of maps exactly if the first one has no empty values. |
| `Params.GetLBCParams` | internal/controller/service_utils.go:48-62 | Exactly the annotations under the controller's prefix, without its snapshot, with their values. |
| `Params.BuildCompositeParams` | internal/controller/service_controller.go:1285-1294 | The parameters with the source ranges added. |
| `Params.SnapshotRoundTrip` | internal/controller/service_controller.go:564-581 | A snapshot without the source ranges is the parameters it was taken of, so an unchanged Service causes no bandwidth call. |
| `Webhook.Request.Handle` | internal/webhook/service_mutator.go:52-116 | Only the class changes: set on new unmanaged LoadBalancer Services without one, restored on updates that lost ours. |
| `Webhook.KeepsClass` | internal/webhook/service_mutator.go:71-111 | A Service admitted with our class keeps it through every run of updates that keep the type. |
| `Webhook.LeavesOthersAlone` | internal/webhook/service_mutator.go:71-111 | A Service with another class, with annotations of the cloud's own controller, or of another type is stored, through its creation and every run of updates that do not name our class, as if there were no webhook. |
| `Webhook.RefusedOnlyForAnother` | internal/webhook/service_mutator.go:88-111 | In such a run an update is refused exactly if it names another class. |
| `Webhook.Idempotent` | internal/webhook/service_mutator.go:52-116 | Handling twice is handling once. |
| `Webhook.LostWithTheType` | internal/webhook/service_mutator.go:100-108 | After the type has changed and back, an update does not bring the class back. |
| `LbcProtocol.AtMostOnePerName` | internal/controller/loadbalancerconfig_controller.go:277-301 | In every run at most one live ELB carries a name that only one config prints. |
| `LbcProtocol.CreatesUnderFinalizer` | internal/controller/loadbalancerconfig_controller.go:248-259 | An ELB is created only while the config carries the finalizer. |
| `LbcProtocol.FinalizerGuards` | internal/controller/loadbalancerconfig_controller.go:371-406 | The finalizer stays until the recorded ELB is gone. |
| `LbcProtocol.ReleaseIsClean` | internal/controller/loadbalancerconfig_controller.go:371-406 | When the finalizer is about to go and an ELB was recorded, none of the config's name is live, if no other config prints that name. |
| `LbcProtocol.NeverReady` | internal/controller/loadbalancerconfig_controller.go:159-161 | No config ever becomes ready: the recorded ID is itself an annotation that makes a config look like a parameter template, so the verifying branch is never reached. |
| `LbcOutcomes.AliensAreLeftAlone` | internal/controller/loadbalancerconfig_controller.go:157-196 | In every run, a config that is a parameter template, or to be skipped and without network parameters, whenever it exists, never gets the finalizer or an ELB ID, its process never leaves its rest, and no ELB of its name is ever live, if nobody else prints that name. |
| `LbcOutcomes.OthersAreProvided` | internal/controller/loadbalancerconfig_controller.go:166-301 | Any other config that is not deleted comes by calls of its own process alone to the finalizer and a recorded live ELB of its name: one that is there is recorded, else one is created. |
| `LbcOutcomes.DeletedOnesGo` | internal/controller/loadbalancerconfig_controller.go:371-406 | A config being deleted goes by such calls, and of all ELBs exactly the recorded one with it, once that has no listeners. |
| `LbcLimits.LeaksIffUnrecorded` | internal/controller/loadbalancerconfig_controller.go:371-406 | While a config is deleted and after it has gone, a live ELB of its name outlives every continuation in which the config is not ordered again if and only if its ID is not recorded. |
| `LbcLimits.UnrecordedElbLeaks` | internal/controller/loadbalancerconfig_controller.go:277-301 | A run into that: the process dies between creation and recording, and the config is deleted. |
| `LbcProtocol.OwnKeeps` | internal/controller/loadbalancerconfig_controller.go:137-406 | Every call keeps the config's invariant and touches only ELBs of its name. |
| `LbcProtocol.ElbNamesCollideIff` | internal/controller/loadbalancerconfig_controller.go:452-459 | Configs of two namespaces can print one ELB name if and only if what their names start with, cut at 64 characters, is a prefix of one another. |
| `LbcProtocol.NameByExample` | internal/controller/loadbalancerconfig_controller.go:452-459 | Such a name, by example. |
| `LbcLimits.OnePerNameIffApart` | internal/controller/loadbalancerconfig_controller.go:277-301 | Two configs never get two live ELBs of one name if and only if they print different names. |
| `LbcLimits.CollisionDoubles` | internal/controller/loadbalancerconfig_controller.go:277-301 | The run: both look before either creates. |
| `LbcProtocol.ElbIdKeyIsPrefixed` | internal/controller/loadbalancerconfig_controller.go:493-504 | The key of the ELB ID is itself under the prefix that marks templates. |

## Left out

- Public IPs (EIPs): the code itself loses them if showing the ELB fails or the process stops after deleting it.
- The adoption of legacy annotations and everything read from them: it weakens the name invariant and is a migration path.
- What a bandwidth update changes in the cloud, and Service status writes: no modelled resource; whether an update is due is decided in `Params`, and that it may be refused is an input of the update.
- Reuse of a Service name while its old binding lives: what goes on after `Reuse.ReuseStraysIff`; the promises about one Service do not hold there.
- When reconciliation is triggered: the event filters also drop events of nodes and endpoints, so progress is stated for calls of `Reconcile`, not for events.
- Conflict retries of patches: a patch is atomic and may fail.
- The order in which availability zones are returned (they are sorted): `Detector` keeps them as a set.
- The text of CIDRs, JSON encoding, HTTP, credentials, tags, logging: no property of the protocol depends on them.
- Decoding errors of admission requests: `Webhook` starts from decoded Services.
- LoadBalancerConfig reconciliation as methods: modelled as steps of `LbcProtocol` only, one step per call; the metadata written beside the ELB ID is reduced to its presence.
- Controller.Process.CreateStacks: the calls of one port loop count as one step below the ELB in the method, as do those of Controller.Process.SyncListeners and Controller.Process.SyncMembersOfPools; that each single call is such a step is `Promises.PortStepIsStep` and `Promises.MemberStepIsStep`.
- CloudApi.Api.CreateListener: a call whose effect is felt although it reports an error is not among its outcomes; it leaves the cloud and the method as a success does that is followed by a failing call, which is, and the protocol covers it as a step followed by a stop.
