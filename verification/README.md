# Verified model of the RDMA shared device plugin

The plugin advertises RDMA devices to the kubelet. It runs one resource server for each configured resource; each
server listens on a Unix socket whose pathname it may have to share with the servers of other plugin processes (the
old and the new pod of a rolling update). This project models the code that makes that work and proves what it is
supposed to guarantee. `dafny verify dfyconfig.toml` checks everything.

There are four parts.

**Sharing a socket path between processes.** `SocketOwnership` is a state machine over any number of instances: path,
listeners, the flock on the directory, and for each instance its program counter, `socketOwner`, `socketIno`, server
and listener. Its actions are the single steps of `startLocked`, `stopAndRemoveOwnedSocketLocked` and `Restart` that
another instance can observe, the kubelet deleting the path, a listener closed from outside, and crashes; they
interleave freely, and the table of sockets may list more than the live listeners. `SocketCleanup` proves the converse
duty, that the last instance leaves nothing behind. `SocketRuns` builds the concrete runs that show where these
guarantees end. `SocketServer` is the server itself, a class whose methods update its fields. Between any two of its
steps the others may act, and how the system serves its calls is a parameter; the contract of each method is the exact
list of machine actions it performs itself, so the theorems about all interleavings apply to it.
`ProcNetUnix` is the reader of `/proc/net/unix` on which ownership is decided, proved against a renderer of the table.

**Goroutines, locks and channels.** `Lifecycle` has any number of processes, each with a main goroutine, a periodic
goroutine and any number of servers with their watchers, meeting on `lifecycleMu`, `stopWatcher`, `stopChan` and the
flock. `DeadlockFreedom` and `Shutdown` prove that nobody is stuck and that a shutdown ends; `ServerLoops` proves what
has been done by then, and that restarts, updates and watchers reach every server.

**Telling the kubelet about changes.** `UpdateNotification` is the one-slot channel between `UpdateDevices` and any
number of `ListAndWatch` streams, with every interleaving; it proves when no update is lost and that notifications come
to rest.

**The inventory.** `Configuration`, `ResourceManager`, `DeviceSelectors`, `RdmaDevices`, `ResourceInventory`,
`ProperListing` and `InventoryServer` follow a device from the configuration and the discovery to what a container is
given. The loops of the source are loops here, and its objects are classes. `InventoryServer.ResourceServer` carries a
ghost history that is a run of the `UpdateNotification` machine, in which other streams and the updater act between any
two steps of its methods. `FilePaths` and `Text` hold the library functions these parts depend on.

Results where the code does less than one may expect:

- A stop with `socketOwnerNone` removes the path without looking. A server is left in that state by a failed `Listen`
  and by a failed registration, and its later stop unlinks the live socket of a replacement although every lock was
  taken (`UnownedStopUnlinksReplacement`, `StopAfterFailedRegistrationUnlinksReplacement`). `StopTakesAnothersIff` has the
  exact condition: a stop that finds the path naming another instance's live listener goes on to unlink it if and only
  if it is a Stop after such a failure. `UnlockedStopUnlinksReplacement` shows that the lock is needed.
- One token serves all streams. Among any number of streams, those whose update sends succeed never lose an update if
  and only if there is at most one of them (`NoUpdateLostIff`); with two, one can starve the other (`StarvingRun`).
- The reader of `/proc/net/unix` collapses white space, so a path is found exactly if its only white space is single
  interior spaces (`OwnRowFoundIffRegular`), and a path with two spaces is taken for one with a single space
  (`CollapsedPathnameIsConfused`). `RoundTripIff` has the exact condition.
- `devicesChanged` compares lengths and asks whether the new host paths are old ones. An update is served exactly if it
  is not masked by fewer paths in a list of the same length (`UpdateIsFreshIff`, `LastTickIsServedIff`). That all RDMA
  devices share the path of `rdma_cm` does no harm: as long as no discovery lists an RDMA device twice, every change is
  seen (`ProperIsExact`, `LastTickIsServed`). Were one listed for two PCI devices, a change could go unnoticed
  (`ListedTwiceIsMasked`); the source looks RDMA devices up by PCI address, and nothing in it rules that out or shows it.
- `ValidateConfigs` accepts its own result again if and only if no resource uses the deprecated `devices` list
  (`AcceptedAgainIff`, `DevicesAreRefusedAgain`).

## Model

| member | source | states |
|---|---|---|
| SocketOwnership.StopSparesOthers | pkg/resources/server.go:326-344 | In every run in which the locks are taken, whatever the interleaving, kubelet deletions, crashes and foreign closes: a stop that is about to unlink while the path names another instance's live listener decided so on owner None, and that is exactly a Stop after a failed Listen or registration |
| SocketOwnership.StopTakesAnothersIff | pkg/resources/server.go:326-344 | Exactly when it does harm: a stop that comes to close its listener while the path names another instance's live one goes on to unlink the path if and only if it is a Stop after a failed Listen or registration |
| SocketOwnership.UnknownOwnerNeverUnlinks | pkg/resources/server.go:610-631 | No unlink of a stop was ever decided with an unknown owner |
| SocketOwnership.WhoTakesALivePath | pkg/resources/server.go:240-256 | A path naming a live listener goes away only by the kubelet, by the reclaim of a start, by the unlink of its own instance, or by one whose last start failed |
| SocketOwnership.ReclaimAndBindAreAtomic | pkg/resources/server.go:240-256 | At most one instance is inside the lock; after a successful reclaim the path is absent when Listen runs; at the release it names the new listener unless the kubelet deleted it; a known owner's inode is that listener's and no other live one's |
| SocketOwnership.NoOtherActsOnPathUnderLock | pkg/resources/server.go:346-380 | While an instance is inside the lock no step of another changes the path or opens a listener |
| SocketOwnership.ServerOutlivesRestarts | pkg/resources/server.go:240-316 | Whenever lifecycleMu is free: there is a server exactly from the first start to the stop, also after a failed restart, and it has owner None exactly if the last start failed at Listen or at the registration |
| SocketOwnership.StepKeepsInv | pkg/resources/server.go:326-344 | Every action of any instance and of the environment keeps the invariant of all instances, the lock being taken when asked for |
| SocketOwnership.RunKeepsInv | pkg/resources/server.go:240-256 | So it holds in every state of every run |
| SocketCleanup.PathImpliesListener | pkg/resources/server.go:326-344 | If the table lists exactly the live listeners, every owner is known and no instance crashes: whenever the flock is free, a path bound in the run means a live listener or an instance inside Restart between close and reclaim |
| SocketCleanup.LastOneOutCleansUp | pkg/resources/server.go:326-344 | So once all instances have stopped, in any order and any number of times, no listener is open and the path is absent, unless it is the one from before the run and no start of the run has reclaimed it |
| SocketCleanup.ReclaimedForGood | pkg/resources/server.go:240-256 | What the path named before the run never comes back after a reclaim |
| SocketCleanup.StepKeepsCleanInv | pkg/resources/server.go:382-396 | Every orderly action keeps the invariant behind this |
| SocketCleanup.OrderlyRunKeepsCleanInv | pkg/resources/server.go:326-344 | And it holds throughout every orderly run |
| SocketCleanup.DecisionIsSpared | pkg/resources/server.go:610-631 | A decision not to remove is harmless: the path is gone already, or another live listener or a restarting instance answers for it |
| SocketCleanup.OthersKeepSpared | pkg/resources/server.go:326-344 | And stays harmless under every step of the others until the stop is over |
| SocketRuns.StartAlone | pkg/resources/server.go:240-282 | An undisturbed start takes the path from whoever had it, live or not, and ends serving with a known owner: last starter wins |
| SocketRuns.StopAlone | pkg/resources/server.go:290-316 | An undisturbed stop of the only listener leaves the path absent and no server |
| SocketRuns.FailedRegistrationLeavesNoOwner | pkg/resources/server.go:274-279 | After a failed registration the path is absent and the server is still there with owner None |
| SocketRuns.UnownedStopUnlinksReplacement | pkg/resources/server.go:251-254 | A run, all locks taken, in which the stop after a failed Listen is about to unlink another instance's live socket |
| SocketRuns.StopAfterFailedRegistrationUnlinksReplacement | pkg/resources/server.go:274-279 | The same after a failed registration |
| SocketRuns.UnlockedStopUnlinksReplacement | pkg/resources/server.go:358-372 | Without the flock the same happens to a known owner |
| SocketServer.StepsExtendRun | pkg/resources/server.go:240-316 | A run of the machine goes on with the actions of a trace |
| SocketServer.Directory.LogIsRun | pkg/resources/server.go:240-316 | What has been logged of the servers and the others is a run of the machine that ends in the present fields, so what is proved of runs holds of the methods |
| SocketServer.OthersKeepMe | pkg/resources/server.go:346-380 | No steps of the others change an instance's own record or whether it holds the lock: the interference that the methods are proved against is all there can be |
| SocketServer.StepsKeepHolder | pkg/resources/server.go:346-357 | Whoever holds the directory lock has not crashed, so that waiting for it can end |
| SocketServer.TableListsListeners | pkg/resources/server.go:635-649 | The machine's assumption on the table, that it lists at least the live listeners, holds of its text when each has a row and the path has single interior spaces as its only white space |
| SocketServer.Endpoint.LockSocketPath | pkg/resources/server.go:362-380 | Takes the lock, for which it waits, exactly if the directory can be opened and locked; else goes on without it; that is its one action |
| SocketServer.Endpoint.Unlock | pkg/resources/server.go:362-380 | Gives the lock up if it was taken; a start that did not listen and a cleanup after a failed registration end here, with their outcome noted |
| SocketServer.Endpoint.ClearSocketOwnershipLocked | pkg/resources/server.go:603-606 | Owner None and inode 0 |
| SocketServer.Endpoint.RecordSocketIdLocked | pkg/resources/server.go:566-601 | Owner known with the listener's inode exactly if it can be read, else unknown |
| SocketServer.Endpoint.ShouldRemoveSocketPathLocked | pkg/resources/server.go:610-631 | Yes exactly without an owner, or with a known one whose path is there and can be looked at and whose inode is the only one that the table's text, read later, lists for the path |
| SocketServer.Endpoint.CleanupLocked | pkg/resources/server.go:705-716 | Before a bind: removes the path exactly if the system lets it, and says so |
| SocketServer.Endpoint.Listen | pkg/resources/server.go:249-254 | Binds the path to a new listener of this instance exactly if the path is absent and can be bound; else changes nothing |
| SocketServer.Endpoint.StopAndRemoveOwnedSocketLocked | pkg/resources/server.go:326-344 | Whatever the others do meanwhile, performs exactly lock, check, clear, close, conditional unlink, unlock, as this system and what it met make it; an error exactly if the unlink fails |
| SocketServer.Endpoint.StartLocked | pkg/resources/server.go:240-282 | Whatever the others do meanwhile, performs exactly the actions of the path through startLocked that this system and what it met select, with the matching error, owner and outcome |
| SocketServer.Endpoint.Start | pkg/resources/server.go:234-238 | startLocked under lifecycleMu |
| SocketServer.Endpoint.StartAndWatch | pkg/resources/resources_manager.go:261-273 | One server's share of StartAllServers: its watcher runs exactly if the start succeeds outside watch mode |
| SocketServer.Endpoint.Stop | pkg/resources/server.go:290-316 | Nothing without a server; else, outside watch mode, the watcher is sent away before lifecycleMu is taken, then exactly the removal and the deletion of the server, which is gone even if the unlink fails |
| SocketServer.Endpoint.Restart | pkg/resources/server.go:383-396 | Fails without a server; else closes and drops the old server outside the flock and starts; a failed restart leaves a server |
| SocketServer.Endpoint.Watch | pkg/resources/server.go:399-422 | Until it is told to stop, performs exactly one restart in each round in which Lstat does not find the path, and nothing in the others; no restart loses the server, so none is refused |
| SocketServer.Endpoint.WatchOnce | pkg/resources/server.go:408-418 | One round: found exactly if the path is there and can be looked at; a restart exactly if it is not found and there is a server |
| SocketServer.Endpoint.LookForPath | pkg/resources/server.go:409-410 | Found exactly if the path is there and can be looked at |
| SocketServer.SectionIsBalanced | pkg/resources/server.go:346-380 | A section between lock and unlock neither nests nor leaves the lock held, whether or not the lock was taken |
| SocketServer.RemoveIsBalanced | pkg/resources/server.go:326-344 | Every path through the removal enters one such section and leaves it once |
| SocketServer.StartIsBalanced | pkg/resources/server.go:240-282 | Every path through startLocked, with the removal after a failed registration, leaves each section it enters before it enters another |
| SocketServer.StopAndRestartAreBalanced | pkg/resources/server.go:290-396 | So does every path through Stop and Restart |
| ProcNetUnix.UnixSocketInodesForPath | pkg/resources/server.go:650-681 | The loop returns the inodes of the lines after the first whose path column, white space collapsed, is the path and whose inode is a uint64 |
| ProcNetUnix.SocketPathOwnedSolelyBy | pkg/resources/server.go:683-690 | Yes exactly if the table can be read and lists the path once, with this inode |
| ProcNetUnix.ReadRendered | pkg/resources/server.go:650-681 | Reading any rendered table, with pathless and malformed rows and padded inodes, gives in order the inodes of the rows whose path collapses to the target |
| ProcNetUnix.RoundTripIff | pkg/resources/server.go:660-679 | It gives exactly the rows bound to the target if and only if collapsing changes no listed path into or away from it |
| ProcNetUnix.RoundTrip | pkg/resources/server.go:660-679 | So always when the paths have single interior spaces as their only white space |
| ProcNetUnix.OwnRowFoundIffRegular | pkg/resources/server.go:665-671 | A socket finds its own row exactly if its path has only such white space |
| ProcNetUnix.ListedIsRead | pkg/resources/server.go:650-681 | Whoever is listed for such a path is read, whatever else the table has; for any other path nobody ever is, so its owner would never remove it |
| ProcNetUnix.CollapsedPathnameIsConfused | pkg/resources/server.go:665-671 | A path with two spaces in a row is reported as the one with a single space |
| Lifecycle.StepKeepsInv | pkg/resources/server.go:290-396 | Every move of any goroutine keeps: holders of lifecycleMu and of the flock are where they should be, and only who holds lifecycleMu asks for the flock |
| Lifecycle.RunKeepsInv | pkg/resources/server.go:290-422 | So it holds in every state of every run |
| DeadlockFreedom.WaitsDown | pkg/resources/server.go:284-304 | Whoever a goroutine waits for is alive and waits, if at all, for something later in the order channel, lifecycleMu, flock |
| DeadlockFreedom.NoWaitCycle | pkg/resources/server.go:284-304 | Over any number of processes and servers no goroutines wait for each other in a cycle |
| DeadlockFreedom.Root | pkg/resources/server.go:290-304 | Following who waits for whom ends at a living goroutine that waits for nobody |
| DeadlockFreedom.UnblockedCanMove | pkg/resources/server.go:399-422 | A living goroutine that waits for nobody has an enabled move |
| DeadlockFreedom.DeadlockFree | pkg/resources/server.go:284-304 | In every reachable state every living goroutine can move or waits in the end for one that can |
| DeadlockFreedom.StopAgainstWatch | pkg/resources/server.go:284-304 | Stop and Watch never wait for each other, and once Stop sends, the watcher calls Restart at most once more before it receives |
| DeadlockFreedom.ServerRunsUntilStopped | pkg/resources/server.go:383-422 | While its watcher runs a server counts as running, whatever became of its restarts |
| Shutdown.StepProgress | pkg/resources/resources_manager.go:276-289 | During a shutdown each step of who it waits for brings the end nearer, a step that overtakes sets it back by a bounded amount, and no other step of any process delays it |
| Shutdown.ShutdownTerminates | pkg/resources/resources_manager.go:276-289 | Over any stretch of a run, the helpful steps and the distance left are at most the distance at first plus a bounded amount for each time it was overtaken |
| Shutdown.DistanceIsBounded | pkg/resources/resources_manager.go:431-438 | The distance is at most linear in the number of servers |
| Shutdown.SomeStepHelps | pkg/resources/resources_manager.go:406-439 | Until the process has ended, some helpful step is always enabled |
| ServerLoops.ShutdownStopsAll | pkg/resources/resources_manager.go:276-289 | When a process ends, and was not killed and no operation of main failed, every server has been stopped, without watch mode every watcher has returned, and the periodic goroutine has ended |
| ServerLoops.EarlierServersAreStopped | pkg/resources/resources_manager.go:283-287 | All through a shutdown the servers before the one at hand are stopped |
| ServerLoops.CutShortEnds | cmd/k8s-rdma-shared-dp/main.go:125-134 | A failed start, restart or stop of main ends the process |
| ServerLoops.HupRestartsAll | pkg/resources/resources_manager.go:292-305 | After a SIGHUP main serves again only when it has restarted every server |
| ServerLoops.ServingMeansStarted | pkg/resources/resources_manager.go:261-273 | Main serves only when every server has been started and, without watch mode, every watcher runs |
| ServerLoops.TickUpdatesAll | pkg/resources/resources_manager.go:414-425 | After a successful discovery the periodic goroutine waits for the next tick only when it has updated every server |
| ServerLoops.FailedDiscoveryUpdatesNone | pkg/resources/resources_manager.go:416-419 | After a failed one it goes on waiting, with no update |
| ServerLoops.WatcherRevivesIffMissing | pkg/resources/server.go:408-418 | A watcher comes to restart its server exactly when it has looked and not found the path |
| UpdateNotification.NoLostUpdate | pkg/resources/server.go:443-484 | With one stream whose sends succeed and any number that fail, in every reachable state the live stream has sent the present inventory or has yet to send its first, or a token is pending, or an updater is about to notify, or a stream holds a token it has neither honoured nor put back |
| UpdateNotification.PendingLasts | pkg/resources/server.go:787-794 | A notification on its way stays on its way until an update has been sent on some stream |
| UpdateNotification.StepKeepsInv | pkg/resources/server.go:470-482 | Every step of any stream or updater keeps the invariant |
| UpdateNotification.SomeStreamGetsEveryUpdate | pkg/resources/server.go:787-794 | Without any hypothesis on the sends: the present inventory has been sent on some stream or a notification is on its way |
| UpdateNotification.StepDecreases | pkg/resources/server.go:470-482 | Every step but an update decreases a measure of failing streams, tokens and owed notifications |
| UpdateNotification.Converges | pkg/resources/server.go:443-484 | After the last update only so many steps are left as the measure says, and when notifications rest the live stream has sent the present inventory |
| UpdateNotification.NoUpdateLostIff | pkg/resources/server.go:470-482 | Among n streams those whose update sends succeed are never starved, in any run, if and only if there is at most one of them |
| UpdateNotification.StarvedByAnother | pkg/resources/server.go:443-484 | Whatever the sends do: an open stream without the present inventory and with nothing on its way has been starved by another, which has sent that inventory, and an update in this run |
| UpdateNotification.StarvingRun | pkg/resources/server.go:470-482 | For any two of any number of streams, a run in which the second takes the token and sends the update and the first is left with nothing |
| RdmaDevices.Get | pkg/resources/rdma_device_spec.go:41-52 | One spec a character device, in order, at the same path on both sides, with permissions rwm |
| RdmaDevices.ContainsRdmaDev | pkg/resources/rdma_device_spec.go:64-73 | Found exactly if some spec's base name contains the wanted kind |
| RdmaDevices.HasSubstringIff | pkg/resources/rdma_device_spec.go:66-69 | Containment means that the wanted kind occurs in the base name at some index |
| RdmaDevices.VerifyRdmaSpec | pkg/resources/rdma_device_spec.go:54-62 | No error exactly if every required kind is provided; otherwise the first that is not |
| RdmaDevices.CompleteIsNonEmpty | pkg/resources/rdma_device_spec.go:54-62 | What passes the verification is not empty |
| RdmaDevices.DiscoverHostDevices | pkg/resources/resources_manager.go:327-357 | The network devices among those found, in order |
| RdmaDevices.NetworksMember | pkg/resources/resources_manager.go:330-341 | A device is on the list exactly if it was found and is a network device |
| RdmaDevices.NetworksInOrder | pkg/resources/resources_manager.go:327-357 | The network devices keep their order and their number |
| RdmaDevices.GetRdmaDevices | pkg/utils/utils.go:59-68 | The character devices of all RDMA devices of a PCI device, in order |
| RdmaDevices.CharDevicesInOrder | pkg/utils/utils.go:59-68 | Nothing is lost, added or moved by the flattening |
| RdmaDevices.NewPciNetDevice | pkg/resources/pci_net_device.go:42-86 | A device exactly if it is accepted, and then the one that describes it |
| RdmaDevices.AcceptedIffUsable | pkg/resources/pci_net_device.go:59-75 | Accepted exactly if its driver can be read, netlink knows its interface if it has one, and it has character devices of the kinds rdma_cm, umad and uverbs |
| ResourceManager.DeviceIsAsFound | pkg/resources/pci_net_device.go:77-85 | The description has each attribute as it was found, and passes the selectors exactly if what was found does |
| RdmaDevices.GetDevices | pkg/resources/resources_manager.go:359-369 | The accepted devices in order |
| RdmaDevices.AcceptedDevicesInOrder | pkg/resources/resources_manager.go:359-369 | The accepted devices keep their order and their number |
| RdmaDevices.AcceptedDevicesHaveSpecs | pkg/resources/pci_net_device.go:72-75 | Every accepted device comes from an accepted listed one and has specs, all as Get makes them |
| DeviceSelectors.DeviceSelector.Filter | pkg/resources/device_selectors.go:32-119 | The five loops keep, in order, the devices whose attribute is listed |
| DeviceSelectors.Contains | pkg/resources/device_selectors.go:122-129 | The early-return loop finds the needle exactly if it is in the list |
| DeviceSelectors.GetFilteredDevices | pkg/resources/resources_manager.go:371-404 | What matches the selectors, OR within a list and AND between them, in order |
| DeviceSelectors.PipelineIsSelection | pkg/resources/resources_manager.go:371-404 | The five stages, empty ones skipped, are that one selection |
| DeviceSelectors.StagesAreOneSelection | pkg/resources/resources_manager.go:371-404 | Any list of stages is one order-preserving selection by all of them |
| DeviceSelectors.StageOrderIsIrrelevant | pkg/resources/resources_manager.go:375-398 | The stages may be reordered and repeated |
| DeviceSelectors.FilteringIsIdempotent | pkg/resources/resources_manager.go:371-404 | Filtering again changes nothing |
| ResourceInventory.GetDevicesSpec | pkg/resources/server.go:822-833 | The specs of all devices, in order |
| ResourceInventory.AllSpecsInOrder | pkg/resources/server.go:822-833 | Nothing is lost, added or moved by the flattening |
| ResourceInventory.AllSpecsMember | pkg/resources/server.go:822-833 | A spec is listed exactly if some device has it |
| ResourceInventory.DevicesChanged | pkg/resources/server.go:802-819 | Changed exactly if the lengths differ or some new host path is not an old one |
| ResourceInventory.ChangedIgnoresOrder | pkg/resources/server.go:802-819 | The answer does not depend on the order of either list |
| ResourceInventory.SameCountIsNotMasked | pkg/resources/server.go:802-819 | By pigeonhole, unchanged means equal host paths if lists of equal length have equally many distinct ones |
| ResourceInventory.DistinctPathsCount | pkg/resources/server.go:802-819 | As lists without repetition have |
| ResourceInventory.AlwaysConsistent | pkg/resources/server.go:740-785 | After any construction and updates: as many units as rdmaHcaMax if there are specs, none otherwise, the n-th with the number n as its ID |
| ResourceInventory.AlwaysHealthy | pkg/resources/server.go:773-784 | After any construction and updates all units are healthy |
| ResourceInventory.UnitsAreDistinct | pkg/resources/server.go:188-197 | Their IDs are pairwise distinct |
| ResourceInventory.MarksAreKept | pkg/resources/server.go:766-784 | While there are specs the units and their health marks are unchanged through any updates |
| ResourceInventory.CanonicalSpecSets | pkg/resources/rdma_device_spec.go:41-52 | For specs made by Get, equal host paths mean equal specs |
| ResourceInventory.UpdateIsFreshIff | pkg/resources/server.go:740-785 | An update leaves exactly the given specs if and only if it is not masked |
| ResourceInventory.FreshThroughoutIff | pkg/resources/server.go:740-785 | Over a whole run each update's specs are served, even where it was skipped, if and only if none is masked by what was served before |
| ResourceInventory.LastUpdateIsServed | pkg/resources/server.go:515-544 | In particular when compared lists of equal length have equally many distinct paths |
| ProperListing.ProperIsExact | pkg/resources/server.go:802-819 | Between lists in which the common path is repeated once for each verbs path and no other path is repeated, devicesChanged says exactly whether the host paths differ |
| ProperListing.UnsharedIsProper | pkg/utils/utils.go:59-68 | RDMA devices none of which is listed twice make such a list |
| ProperListing.AcceptedAreProper | pkg/resources/resources_manager.go:359-369 | So do, each for itself and all together, the devices accepted from a discovery that lists no RDMA device twice |
| ProperListing.SelectionIsProper | pkg/resources/resources_manager.go:371-404 | And any selection of them |
| ProperListing.ProperDevicesList | pkg/resources/server.go:822-833 | Flattened they make one such list |
| ProperListing.ListedTwiceIsMasked | pkg/resources/server.go:802-819 | The hypothesis is needed: when one RDMA device gives way to a second listing of another with as many character devices, the update is skipped |
| InventoryServer.MakeDevices | pkg/resources/server.go:188-197 | The loop makes that many healthy units, numbered from 0 |
| InventoryServer.ResourceServer.constructor | pkg/resources/server.go:186-223 | The inventory built from the devices, no token, names and socket path from the configuration |
| InventoryServer.NewResourceServer | pkg/resources/server.go:165-223 | Fails exactly on a negative maximum or an empty prefix, in that order |
| InventoryServer.OthersKeepMine | pkg/resources/server.go:499-512 | No step of the other goroutines changes a stream's own state, or the inventory while it is sending: the interference that the methods are proved against is all there can be |
| InventoryServer.ResourceServer.UpdateDevices | pkg/resources/server.go:740-785 | While streams go on all the time: the new inventory is the update of the old one; exactly if the devices changed, its steps are the update and then a notification, and a token is there at the end |
| InventoryServer.ResourceServer.NotifyUpdate | pkg/resources/server.go:787-794 | There is a token afterwards, whether or not there was one |
| InventoryServer.ResourceServer.SendDevices | pkg/resources/server.go:499-512 | Sends the units that it finds under the read lock, which stay those of the moment until they are sent, exactly if the stream takes them |
| InventoryServer.ResourceServer.UpdateCDISpec | pkg/resources/server.go:486-497 | Fails exactly with CDI when the spec cannot be written |
| InventoryServer.ResourceServer.SendFirst | pkg/resources/server.go:447-459 | What precedes the loop: exactly open, lock, send and the CDI spec after a success; a failed send or CDI spec closes the stream |
| InventoryServer.ResourceServer.HandleNotification | pkg/resources/server.go:470-482 | Performs exactly: take the token, lock, send, and the CDI spec after a success or the token back after a failure; what the stream has sent last is what it found |
| InventoryServer.ResourceServer.Meet | pkg/resources/server.go:461-483 | One round of the loop, after the others have acted: nothing happens only if there is no token and the stream is not done; a token is taken and the units found under the read lock are sent, or the send fails and the token is back; its steps are exactly those |
| InventoryServer.ResourceServer.ListAndWatch | pkg/resources/server.go:444-484 | Whatever the other streams and the updater do between its steps: its steps, its end and the number of lists sent are exactly what the rounds and the tokens they found make them, one list for each token; while it watches, the last list it sent is that of the present units, or a notification is on its way, or another stream has sent an update; a failed update send leaves a token |
| InventoryServer.ResourceServer.Allocate | pkg/resources/server.go:515-544 | Without CDI every container gets exactly the present specs; with CDI its annotation, and an error exactly if one cannot be made |
| FilePaths.BaseOfJoin | pkg/resources/server.go:203-210 | Joined to any directory, empty, relative or with dots, an entry's path ends in its own name |
| FilePaths.JoinInjective | pkg/resources/server.go:203-210 | Different entries of a directory have different paths |
| FilePaths.JoinAppends | pkg/resources/server.go:203-210 | Joined to a clean absolute directory, an entry is appended after a slash |
| FilePaths.DotIsDropped | pkg/resources/server.go:203-210 | Cleaning drops a dot |
| FilePaths.ParentUndoesEntry | pkg/resources/server.go:203-210 | And lets a double dot undo the entry before it |
| Configuration.NoFaultIff | pkg/resources/resources_manager.go:162-197 | The loop finds a fault exactly if some configuration has one |
| Configuration.AcceptedIff | pkg/resources/resources_manager.go:151-200 | Validation succeeds exactly for a non-negative interval and a non-empty list of sound configurations with distinct names |
| Configuration.WordChars | pkg/resources/resources_manager.go:307-311 | The characters of a valid name are the ASCII letters, digits and the underscore |
| Configuration.EmptySelectorIff | pkg/utils/utils.go:70-81 | A selector is empty exactly if it lets every device through |
| Configuration.FaultIs | pkg/resources/resources_manager.go:162-192 | Which fault is reported of a configuration that has several |
| Configuration.CompletedSelects | pkg/resources/resources_manager.go:191-194 | A resource given by devices selects exactly the interfaces of these names; any other keeps its own selectors |
| Configuration.CompletedKeeps | pkg/resources/resources_manager.go:174-177 | A given prefix is kept, the default stands in for one left out, and nothing else changes |
| Configuration.FailedValidationKeeps | pkg/resources/resources_manager.go:162-197 | A failed validation leaves alone all configurations after the faulty one, and of that fills in the prefix at most |
| Configuration.AcceptedAgainIff | pkg/resources/resources_manager.go:186-194 | What was accepted is accepted again, as validation left it, exactly if no resource is given by devices |
| Configuration.DevicesAreRefusedAgain | pkg/resources/resources_manager.go:186-194 | One resource given by one device is accepted, and what validation makes of it is refused as selected twice |
| ResourceManager.ResourceManager.ValidateConfigs | pkg/resources/resources_manager.go:151-200 | The error is that of the first fault in the source's order, and every configuration, before, at and after it, is in the state the source leaves it in |
| ResourceManager.ResourceManager.ValidateConfig | pkg/resources/resources_manager.go:163-196 | One round of its loop |
| ResourceManager.FaultIsVerdict | pkg/resources/resources_manager.go:162-197 | The first fault found is the verdict on the whole list |
| ResourceManager.ResourceManager.DiscoverDevices | pkg/resources/resources_manager.go:313-357 | A failed discovery keeps the old list, a successful one replaces it |
| ResourceManager.ResourceManager.InitServer | pkg/resources/resources_manager.go:222-255 | The server of one resource, or what kept it from being made |
| ResourceManager.ResourceManager.InitServers | pkg/resources/resources_manager.go:221-258 | Appends a server for each configuration in order, with the devices that its selectors let through, up to the first that fails |
| ResourceManager.SocketNameIsEntry | pkg/resources/resources_manager.go:307-311 | A valid name with the suffix is a plain directory entry |
| ResourceManager.SocketPathsInjective | pkg/resources/server.go:203-210 | Valid names with the same socket path are equal |
| ResourceManager.CompletedIsServable | pkg/resources/resources_manager.go:175-181 | A validated configuration is what newResourceServer asks for, if the default prefix is not empty |
| ResourceManager.ResourceManager.Prepare | cmd/k8s-rdma-shared-dp/main.go:90-113 | From validation to servers: with a non-empty default prefix nothing but the CDI cleanup can keep a server from being made; then server n has the name, the socket path and the maximum that configuration n, as it was given, asks for, advertises that maximum exactly if some usable network device found is one it was configured for, and all socket paths differ |
| ResourceManager.WantedAsGiven | pkg/resources/resources_manager.go:186-194 | What validation fills in makes no difference to the devices a resource is configured for |
| ResourceManager.ResourceManager.SocketDirectory | pkg/resources/server.go:172-179 | Without watch mode the sockets are in /var/lib/kubelet/device-plugins, with it in plugins_registry below a clean kubelet root |
| ResourceManager.DevicesForMember | pkg/resources/resources_manager.go:371-404 | A resource gets exactly the descriptions of the accepted listed devices that, as found, pass its selectors |
| ResourceManager.SpecsIffSomeDevice | pkg/resources/rdma_device_spec.go:54-73 | A resource has specs exactly if some usable device on the list, as found, passes its selectors |
| ResourceManager.UpdateAdvertises | pkg/resources/server.go:740-785 | Whatever was advertised before, an update advertises the maximum if there is such a device and nothing otherwise |
| ResourceManager.DeviceForNetworks | pkg/resources/resources_manager.go:327-357 | Looking for a device in the list or among the network devices found is the same |
| ResourceManager.ResourceManager.RefreshServer | pkg/resources/resources_manager.go:421-425 | One server's share of a tick |
| ResourceManager.ResourceManager.PeriodicUpdateTick | pkg/resources/resources_manager.go:414-425 | A failed discovery changes nothing; after a successful one every server has its own update, from what the host says of the devices at its turn, and advertises its maximum exactly if some network device found passes its selectors |
| ResourceManager.ResourceManager.PeriodicUpdate | pkg/resources/resources_manager.go:406-439 | With a positive interval, up to the first request to stop and past failed discoveries, each server's inventory is what the successful discoveries, filtered by its own selectors, make of it; otherwise nothing happens |
| ResourceManager.AfterOneMore | pkg/resources/resources_manager.go:414-425 | One more tick is one more update of each server, or none when the discovery fails |
| ResourceManager.UpdatesAreCanonical | pkg/resources/rdma_device_spec.go:41-52 | All specs a tick passes on are as Get makes them |
| ResourceManager.LastTickIsServedIff | pkg/resources/resources_manager.go:414-425 | After any ticks exactly the specs of the last discovery are served, even where the update was skipped, if and only if what was served before does not mask them |
| ResourceManager.SpecsFromAreProper | pkg/resources/resources_manager.go:414-425 | What a discovery that lists no RDMA device twice passes on to a server is a list that devicesChanged compares exactly |
| ResourceManager.LastTickIsServed | pkg/resources/resources_manager.go:414-425 | So if no discovery lists an RDMA device twice, after any ticks exactly the specs of the last discovery are served |
| ResourceManager.UpdateThenAllocate | pkg/resources/server.go:515-544 | And every container response without CDI carries exactly those specs |
| Text.ParseUintOfItoa | pkg/resources/server.go:674-677 | Reading back a printed number gives it if it is a uint64, and is refused otherwise |
| Text.FieldsOfJoin | pkg/resources/server.go:663-670 | Splitting on white space undoes joining with single spaces |
| Text.SpaceCodes | pkg/resources/server.go:663 | The characters that separate fields, by code point |
| Text.NormalIffRegular | pkg/resources/server.go:665-671 | Splitting and joining leaves a text unchanged exactly if its only white space is single interior spaces |

## Left out

- gRPC, the registration calls, `Serve` and client connections: steps that succeed or fail; their contents are not modelled.
- The file system, `/proc`, `flock` and `Fstat` appear as the path, the table, the lock and the inode of the machine. Sockfs inodes are not reused in a run.
- A lock that cannot be taken: the methods go on unlocked, as in the source; the safety theorems assume that it is taken, and `UnlockedStopUnlinksReplacement` shows why they must.
- SocketCleanup.LastOneOutCleansUp: assumes that the table lists exactly the listeners, that every identity is captured, that removals succeed, that nobody crashes and that no listener is closed from outside, because after any of these a path can stay behind; in particular a table with further rows for the path, whatever they are, makes the stop leave it.
- SocketServer.Endpoint.Watch: nobody else operates on the same server while it waits between rounds; that is left to the `Lifecycle` machine.
- InventoryServer.ResourceServer.ListAndWatch: does not have the health branch; nothing writes to that channel.
- InventoryServer.ResourceServer.UpdateDevices: is called by one goroutine at a time, as in the program.
- UpdateNotification.NoLostUpdate: assumes one stream whose update sends succeed; `NoUpdateLostIff` shows that it must.
- Shutdown.ShutdownTerminates: assumes that sends and system calls return, and counts how often others overtake, since neither the flock nor Go's select promises fairness. The stop of a server whose removal fails ends the process, as `StopAllServers` returns; the CDI cleanup before it is taken to succeed.
- Lifecycle.RunKeepsInv: has one main goroutine, which is the only caller of Stop, as in the program.
- ResourceInventory.FreshThroughoutIff: is about the mode without CDI; with CDI the list of PCI devices is fixed when the server is made and never updated.
- ResourceManager.LastTickIsServed: assumes that no discovery lists an RDMA device twice and that each has one verbs device; `ListedTwiceIsMasked` shows what happens otherwise.
- The lines of `/proc/net/unix` are characters, not bytes, and are read without the 64 KiB limit of the scanner.
- `rdmaHcaMax` is an unbounded integer, like the length of lists; the width of Go's integers plays no part.
- PCI discovery, netlink, sysfs, bringing links up, the CDI spec files, JSON, flags, signals, logging and sleeps: inputs or nothing.
- The check of the RDMA network namespace mode, `GetInfo`, `GetDevicePluginOptions`, `PreStartContainer`, `GetPreferredAllocation`: constant answers or a single test.
