# A model of the k3s-on-KVM node lifecycle

The application deploys k3s nodes as libvirt guests from one process. It keeps no database: what it
knows of a node is a metadata record in the guest's own domain definition, two volumes in a storage
pool, the guest's power state, and what the guest says of itself. Every one of these can be out of
date, and every call that changes one can fail before its effect, fail after it, or be the last thing
the process does. The project models the parts of the code that have to be right in spite of this and
proves what they keep over whole runs.

`dafny verify dfyconfig.toml` verifies everything.

## How it is modelled

**Node lifecycle** (`Lifecycle`, `Hypervisor`, `Deletion`, `Saga`, `Runs`, `History`).
`Lifecycle.Host` is what libvirt knows: domains with their records, disks and power, and the volumes
of the pool. The class `Hypervisor.Libvirt` holds it and answers one call at a time from a script of
events: guests may power themselves off before any call, and the call is done, fails before or after
its effect, or ends the process before or after its effect. The calls whose success a deletion checks
for itself (the intent, the stop, the volumes) may also only seem done. The operations are methods on
that class, each one critical section, as `NodeManager.lock` makes them. No call can be made once the
process has ended, so the post-condition of each method speaks of every point at which it can die. The
class keeps what became of every call, which guests were told to start and which volumes were to go.
`History.Run` takes any series of operations by requests, the observer and launch recovery, each on
an arbitrary (hence possibly stale) view of the nodes, each with a script of its own, while other users
of the host change their own domains in between and libvirt renders the nodes' disks anew.

The model remembers three things no code reads: which UUIDs this deployment ever defined, which guests
stopped by themselves, and the identity of the k3s cluster each node was told to start or join. A
bootstrap gets a fresh identity and a joiner that of the server it was given. "No split brain" is a
statement about these identities: since all nodes that coexist share one, whichever of them holds an
address a joiner was told is of the joiner's cluster, even if the address changed hands.

**Durable record and disks** (`Meta`, `Names`, `Xml`, `Paths`, `Disks`, `Built`, `Pool`). Records are parsed
and built as element trees. The scan of other domains' disks and the walk of a backing chain follow
`pool.py`; what `domxml.py` builds is shown to pass them, however libvirt renders it in either definition:
with aliases, addresses and other children that name no image, pinned source attributes, further driver
attributes, and an explicit end to a raw chain.

**Leased connection** (`Lease`). The class runs each stretch of held lock on the manager's five fields;
`Lease.World` lets any number of threads interleave the stretches, split at each `wait`.

**Observer** (`Rotation`, `Agents`, `Evidence`, `Observer`, `GuestExec`). `Agents.World` has the clock,
the status commands alive in the guests, and everything the agents answered, in order: submissions with
the pid if the reply came, and polls with what they brought. What an observation does, and what
evidence is worth, is stated of these answers (`Evidence.ProbeAt`, `Observer.Concluded`). The observer's
fields are those of the class; beside them it notes only which generation each answer belongs to.

**Guest** (`Seed`, `Guest`, `Status`, `Report`, `Recognized`). `Guest.Machine` has the files the script writes, with
the names changed since the last sync. Any command may fail, be killed with its effect done or not
done or with a torn temporary file, or lose power, which leaves anything at all in every name not synced.
`Recognized` goes the whole way from the guest's disk through the printed text to the host's record.

**Kubeconfig export** (`Export`). The sections that hold the lock, in any order, with refreshes that
are under way while others run.

## What turned out otherwise than one might expect

- A status that looks for the identity before preparation installs it and for `prepared` after the
  commit prints success without an identity, and the host refuses it (`Report.StatusRacesTheCommit`).
  `Report.StatusAmid` says exactly when a status is understood; with nothing running meanwhile it
  always is.
- `started` implies `prepared` under kills, but a power loss can keep the first marker and drop the
  second: a preparation killed between marker and sync exits well when repeated, without syncing.
  `Guest.LoseTheOrder` is such a run, and
  `Guest.LossKeepsOrderExactly` says exactly when the order survives. The installed files are durable
  in either case.
- `update_state` keeps the lifecycle invariant for the calls the observer makes, not for every caller;
  `Saga.UpdateKeepsExactly` says for which, and `History.ForgedDeletion` makes one that breaks it.
- The epoch is not checked again after the wait for leases to drain: two threads that wait for the
  same stale epoch each replace the connection (`Lease.EpochReplacedTwice`). And a thread that waits
  for a reconnect is not asked again whether the manager was closed (`Lease.LeasedAfterClose`).
  `Lease.StaleReplacementExactly` and `Lease.LeaseAfterCloseExactly` say exactly when either happens;
  without the wait it cannot (`Lease.EntryReplacesItsEpoch`), and `Lease.NeverClosedUnderALease` holds
  of these runs too.

## Model

| member | source | states |
|---|---|---|
| Lease.ConnectionManager.TakeLease | src/k3s_kvm_demo/conn.py:104-115 | a lease is on the connection everyone uses, under the epoch by which to ask for its replacement, and counts once; without one nothing changes; none is granted during a reconnect, nor to a caller who enters after close |
| Lease.ConnectionManager.Reconnect | src/k3s_kvm_demo/conn.py:123-159 | who enters when the manager is closed or of another epoch than the one that was lost is sent away and changes nothing; who may go on waits while leases are out; a replacement raises the epoch by one and abandons the old connection exactly if leases are out; otherwise connection and epoch stay; waiters are released whenever it ends |
| Lease.ConnectionManager.Close | src/k3s_kvm_demo/conn.py:75-94 | the caller is handed the connection exactly if no lease is out, and then nobody else can find it; otherwise it stays; closed either way |
| Lease.StepKeeps | src/k3s_kvm_demo/conn.py:69-157 | every stretch of every thread keeps the protocol's invariant |
| Lease.RunKeeps | src/k3s_kvm_demo/conn.py:46-157 | so it holds in every state of every interleaving |
| Lease.NeverClosedUnderALease | src/k3s_kvm_demo/conn.py:75-157 | in every interleaving no connection is closed or about to be closed while leased, none is closed twice, an abandoned one never, and the reference count is the number of leases over all connections |
| Lease.NoConnectionIsForgotten | src/k3s_kvm_demo/conn.py:75-159 | in every interleaving each connection ever opened is in service, was abandoned while leased, was closed, or is about to be by the one thread that took it out |
| Lease.RetryUsesAnotherConnection | src/k3s_kvm_demo/conn.py:161-175 | the retry of a read never runs on the connection that was lost |
| Lease.WaitersAreSetFree | src/k3s_kvm_demo/conn.py:109-148 | while threads wait for a reconnect there is one that drains and whose timeout sets them free |
| Lease.StaleReplacementExactly | src/k3s_kvm_demo/conn.py:127-142 | in every run, a thread that resumes from its wait replaces an epoch other than the one it came for exactly if another thread replaced since it entered |
| Lease.EntryReplacesItsEpoch | src/k3s_kvm_demo/conn.py:127-131 | in every run, a thread that replaces as it enters finds the manager open and the very epoch it came for, and holds no lease |
| Lease.LeaseAfterCloseExactly | src/k3s_kvm_demo/conn.py:104-115 | in every run, a lease is granted after close exactly to a thread that already waited for one when close took the lock |
| Lease.EpochReplacedTwice | src/k3s_kvm_demo/conn.py:127-142 | a run of five steps in which two threads replace the connection for the same stale epoch |
| Lease.LeasedAfterClose | src/k3s_kvm_demo/conn.py:104-115 | a run of six steps in which a lease is granted after close |
| Names.UuidRoundTrip | src/k3s_kvm_demo/seed.py:32-37 | the text of a UUID (section 4 of RFC 9562) reads back as that UUID and is canonical |
| Names.NodeNameIsLabel | src/k3s_kvm_demo/names.py:31-57 | a node name is a host name label (section 2.1 of RFC 1123), of at most 63 octets exactly if the prefix is accepted |
| Names.ClaimsMatchPattern | src/k3s_kvm_demo/names.py:51-65 | both volume names of a node match the scope's pattern |
| Names.PatternIsExact | src/k3s_kvm_demo/names.py:51-65 | and the pattern matches nothing else |
| Names.ClaimDeterminesNode | src/k3s_kvm_demo/names.py:56-65 | a volume name determines the scope, the node and the kind of volume |
| Names.ClaimsDisjoint | src/k3s_kvm_demo/names.py:56-65 | different nodes, of whatever scope, never share a volume name |
| Meta.ClipIsIdempotent | src/k3s_kvm_demo/meta.py:104-110 | a clipped error is at most 512 characters, normal in its white space, and clips to itself |
| Meta.ClipIsExact | src/k3s_kvm_demo/meta.py:104-110 | up to 512 characters nothing but white space is lost, and a normal text is kept as it is; beyond, the first 511 characters stay |
| Meta.Parse | src/k3s_kvm_demo/meta.py:149-225 | the field-by-field loop computes the record the tree means, or refuses it |
| Meta.ParsedIsValid | src/k3s_kvm_demo/meta.py:149-225 | whatever is accepted is a valid record |
| Meta.AcceptsExactly | src/k3s_kvm_demo/meta.py:149-225 | accepted exactly if it is a node element, bare or in the namespace, whose children are the ten fields and perhaps an error, each once, in any order and in the same namespace, with texts that mean a valid record; and then it is that record |
| Meta.RoundTrip | src/k3s_kvm_demo/meta.py:117-225 | parsing what was built, bare or namespaced, gives the record back exactly if it is valid |
| Hypervisor.StoredValid | src/k3s_kvm_demo/meta.py:228-285 | a valid record is read back as it was written, so the check of the deletion intent succeeds whenever the write landed |
| Xml.FlattenFindsEveryDepth | src/k3s_kvm_demo/pool.py:185-188 | a search with .// finds every descendant |
| Xml.FlattenFindsOnlyDescendants | src/k3s_kvm_demo/pool.py:185-188 | and nothing else |
| Paths.NormalizeJoin | src/k3s_kvm_demo/domxml.py:68-70 | a plain name joined to the pool's directory normalises to that name below the normalised directory |
| Disks.EveryDepthIsReferred | src/k3s_kvm_demo/pool.py:185-188 | the references of a readable disk hold every source at every depth |
| Disks.RefersExactly | src/k3s_kvm_demo/pool.py:133-155 | a disk refers to a path exactly if at some depth a source names it, as a file, a device or a volume of a pool, with nothing but an index and a policy beside it, or a backing store has it as its path |
| Disks.ExaminedExactly | src/k3s_kvm_demo/pool.py:179-184 | what a guest will start by and what it runs by are both read |
| Disks.WalkChain | src/k3s_kvm_demo/pool.py:193-214 | the loop with its moving layer ends and accepts exactly the complete chains |
| Disks.CompleteMeansLaidOut | src/k3s_kvm_demo/pool.py:193-214 | the recursive meaning of a complete chain is, for every tree, a finite explicit list of layers with known formats that ends in a terminator or raw |
| Disks.ReferencedDiskPaths | src/k3s_kvm_demo/pool.py:158-215 | returns exactly if every domain but the excluded one is readable and every strictly checked one complete, and then exactly the paths their definitions refer to |
| Pool.Inspect | src/k3s_kvm_demo/pool.py:60-74 | every volume is the marker, named as this scope names volumes, or unknown |
| Pool.RequireOwned | src/k3s_kvm_demo/pool.py:77-92 | passes exactly if the marker is there and nothing is unknown |
| Pool.MarkerIsNoClaim | src/k3s_kvm_demo/names.py:51-65 | the marker is never a volume of a node |
| Pool.PoolStaysOwned | src/k3s_kvm_demo/libvirtctl.py:432-648 | whatever a creation or deletion does, the marker and every unknown volume stay as they were |
| Pool.UnclaimedVolumes | src/k3s_kvm_demo/pool.py:218-231 | reports exactly the overlays that no node claims and no definition refers to |
| Pool.NoNodeIsReported | src/k3s_kvm_demo/pool.py:218-231 | while the lifecycle invariant holds the report never names a node's volume, whatever claims it is given |
| Built.BuiltDisksPass | src/k3s_kvm_demo/libvirtctl.py:580-594 | whatever libvirt makes of the built disks in either definition matches the two claims, passes the strict walk, and refers to the claims and the base image only |
| Built.BuiltRenders | src/k3s_kvm_demo/domxml.py:144-158 | the disks as build_domain_xml writes them are one such rendition |
| Built.ClaimPathsAreExclusive | src/k3s_kvm_demo/names.py:56-65 | the claims of different nodes never meet, and with the base image outside the pool none is the base image |
| Built.PeersNeverBlock | src/k3s_kvm_demo/libvirtctl.py:573-600 | for any set of nodes with distinct UUIDs, each running or not and each definition rendered as libvirt pleases, the deletion checks of each pass whatever its peers are |
| Built.PeerPasses | src/k3s_kvm_demo/libvirtctl.py:595-600 | a node, running or not and however libvirt renders it, refers to no volume of another |
| Lifecycle.LocalChange | src/k3s_kvm_demo/libvirtctl.py:401-512 | a change confined to one node keeps the invariant of all if that node stays sound and in its cluster |
| Lifecycle.LocalHistory | src/k3s_kvm_demo/libvirtctl.py:340-366 | and adds to the host's history only a permitted step of that node's record |
| Deletion.CheckCompatible | src/k3s_kvm_demo/libvirtctl.py:275-277 | exactly one call; refuses exactly if it came back and some domain carries a record of another version |
| Deletion.Examine | src/k3s_kvm_demo/libvirtctl.py:565-611 | changes nothing, and passes only if the record, both definitions of the guest, the base image and every other domain permit the deletion; of what runs this is said as it is then |
| Deletion.CheckReferences | src/k3s_kvm_demo/libvirtctl.py:595-600 | passes only if every other domain is readable and refers to no claimed volume |
| Deletion.ConfirmIntent | src/k3s_kvm_demo/libvirtctl.py:613-622 | returns only if the intent is stored, even if the write only seemed done |
| Deletion.StopGuest | src/k3s_kvm_demo/libvirtctl.py:623-626 | returns only if the guest is off, even if the stop only seemed done |
| Deletion.DropVolumes | src/k3s_kvm_demo/libvirtctl.py:634-639 | asks for the overlay first and the seed second and touches nothing else; with no fault removes both |
| Deletion.ConfirmGone | src/k3s_kvm_demo/libvirtctl.py:640-647 | returns only if neither volume is there, even if a removal only seemed done |
| Deletion.UndefineDomain | src/k3s_kvm_demo/libvirtctl.py:650-658 | the domain goes only once both volumes are gone; plain undefine is tried exactly if the driver rejects the flags, and it returns exactly if the one that counts was done |
| Deletion.Delete | src/k3s_kvm_demo/libvirtctl.py:559-648 | exact footprint however it ends; nothing at all happens unless every check passes, of the running definition too; no call follows one that failed; if it returns the domain is gone; with no fault and no outsider in the way both volumes are gone too; repeating a finished deletion does nothing |
| Deletion.DeleteIfCurrent | src/k3s_kvm_demo/libvirtctl.py:537-557 | a deletion is attempted exactly if every record could be read and the view is current; otherwise nothing changes |
| Deletion.FootprintKeeps | src/k3s_kvm_demo/libvirtctl.py:559-648 | however a deletion ends the lifecycle invariant holds and the history moved forward |
| Deletion.ClearScan | src/k3s_kvm_demo/libvirtctl.py:595-600 | if only outsiders could be in the way and none is, the scan passes |
| Deletion.TowardKeeps | src/k3s_kvm_demo/libvirtctl.py:559-648 | such a turn leaves the node interrupted and deletable, or gone, with the intent, the guest, the volumes and the domain each no further from gone |
| Deletion.FootprintKeepsDoom | src/k3s_kvm_demo/libvirtctl.py:559-648 | an attempt on any node, whatever becomes of it, is such a turn for every interrupted node |
| Deletion.ElsewhereToward | src/k3s_kvm_demo/libvirtctl.py:192-671 | so is any change to another node alone |
| Deletion.DeletionConverges | src/k3s_kvm_demo/observer.py:220-227 | over any series of turns that lead an interrupted node nowhere but towards its end, the remainder never grows, and after one untroubled deletion the node is gone for good |
| Saga.Elect | src/k3s_kvm_demo/libvirtctl.py:401-425 | a bootstrap exactly for a server in an empty scope, a join exactly if a usable server exists, and then the oldest |
| Saga.UpdateState | src/k3s_kvm_demo/libvirtctl.py:323-366 | writes exactly if the guard admits the call, and otherwise changes nothing |
| Saga.UpdateKeepsExactly | src/k3s_kvm_demo/libvirtctl.py:340-366 | an admitted write keeps the invariant exactly if it forges no deletion and finds both volumes when it leaves creating; every call of the observer does |
| Saga.StartIfCurrent | src/k3s_kvm_demo/libvirtctl.py:370-397 | changes power only; starts only a current and startable node whose names are its own; with no fault does start it, and a fault says nothing of others |
| Saga.DefineNode | src/k3s_kvm_demo/libvirtctl.py:490-492 | leaves nothing, or a sound node in creating; which of them is decided by whether the call landed |
| Saga.AddVolume | src/k3s_kvm_demo/libvirtctl.py:493-500 | adds at most that volume, claimed by the defined domain, exactly if the call landed |
| Saga.CommitBooting | src/k3s_kvm_demo/libvirtctl.py:502-504 | with both volumes there the record becomes booting exactly if the write landed, and stays creating otherwise |
| Saga.Provision | src/k3s_kvm_demo/libvirtctl.py:490-504 | wherever it stops, nothing or a sound node is left; booting exactly if four calls were done and the commit landed |
| Saga.Launch | src/k3s_kvm_demo/libvirtctl.py:490-512 | the node is in booting with both volumes exactly if the commit landed, however the start and the operation end; it runs exactly if the start landed; one fault before that is compensated |
| Saga.Prepare | src/k3s_kvm_demo/libvirtctl.py:432-489 | two calls; refuses before anything is made if the host is incompatible, full or not owned, no server can be joined, or a name is taken |
| Saga.Create | src/k3s_kvm_demo/libvirtctl.py:432-516 | only the new node and its volumes may differ however it ends; invariant, node limit and cluster identity are kept; bootstraps only in an empty scope, and otherwise the node is told the oldest usable server; once its checks have passed, what is left is decided by which calls landed, and a node whose commit landed is never compensated; never leaves a half-built node after one fault; succeeds if nothing fails |
| Saga.BuildKeeps | src/k3s_kvm_demo/libvirtctl.py:490-512 | whatever is left of a creation fits the cluster it found |
| Runs.Reset | src/k3s_kvm_demo/libvirtctl.py:660-671 | touches nodes only; returns with the number removed and no node left; with no fault nothing of them is left |
| Runs.CleanUp | src/k3s_kvm_demo/app.py:95-102 | tries every interrupted node although others fail, touches no other, and with no fault each is gone that nothing but a fault could hold up; a record of another version ends it |
| Runs.Sweep | src/k3s_kvm_demo/app.py:94-102 | without a list of the nodes nothing is done; otherwise the interrupted ones are cleaned up and nothing is started |
| Runs.LaunchOrder | src/k3s_kvm_demo/app.py:106-108 | each node once, no agent before a server and no other server before the bootstrap one |
| Runs.StartOne | src/k3s_kvm_demo/app.py:112-138 | a start that raised is resolved by reading the power, so a lost reply is no failure and a node is given up only if it is off or could not be read |
| Runs.StartAll | src/k3s_kvm_demo/app.py:109-138 | power only; each node is counted exactly once and told to start once at most, in the given order; one fault costs one node at most, a lost reply none; with no fault every startable node runs and none is counted as failed |
| Runs.StartNodes | src/k3s_kvm_demo/app.py:104-139 | changes power only, starts startable nodes only, in launch order; one fault costs one node at most, and with no fault all of them run |
| Runs.RecoverNodes | src/k3s_kvm_demo/app.py:94-139 | only interrupted nodes lose anything; starts keep the launch order; with no fault each that can be deleted is gone whatever becomes of the others, the rest is as before and every startable node runs |
| Runs.PeerStaysClear | src/k3s_kvm_demo/libvirtctl.py:559-648 | deleting one node puts nothing in the way of deleting another |
| History.Perform | src/k3s_kvm_demo/libvirtctl.py:192-671 | any one operation, on any view and cut short anywhere, keeps invariant, history and node limit, leads every interrupted node nowhere but towards its end, and if untroubled creates, writes, starts or deletes what it was to |
| History.Run | src/k3s_kvm_demo/libvirtctl.py:192-671 | so does any series of them among the changes of others; records only move forward, configured only gives way to deleting, deleting only to undefine, the generation rises once, no UUID comes back; and every node interrupted at the start is gone if a single untroubled operation was to delete it |
| History.InterruptedWorkConverges | src/k3s_kvm_demo/app.py:95-102 | over any run of creations, kills, resets, recoveries, starts and observer writes with faults anywhere, what remains to be done of an interrupted node never grows, and one untroubled kill, reset or recovery ends it for good |
| History.NoNodesIsSound | src/k3s_kvm_demo/libvirtctl.py:192-202 | a run may begin on any host without nodes |
| History.ForgedDeletion | src/k3s_kvm_demo/libvirtctl.py:340-366 | from an empty host: a creation, and then an admitted update_state call that no caller makes and that breaks the invariant |
| History.NodesAreWhole | src/k3s_kvm_demo/libvirtctl.py:490-512 | a node in booting, configuring, configured or failed has both volumes, and a running one both and is not in creating |
| History.NewVolumesAreClaimed | src/k3s_kvm_demo/libvirtctl.py:491-501 | every volume a run added and left is claimed by a defined domain |
| History.NoSplitBrain | src/k3s_kvm_demo/libvirtctl.py:401-442 | all nodes that coexist are of one cluster and at most one is a bootstrap |
| History.StaleViewNeverMatches | src/k3s_kvm_demo/libvirtctl.py:537-557 | once a record left creating, or carries the intent, a view from before never matches again |
| Rotation.ScanIsBounded | src/k3s_kvm_demo/observer.py:214-233 | a pass observes at most eight nodes and none twice |
| Rotation.PassObservesOrNears | src/k3s_kvm_demo/observer.py:214-233 | a pass observes an eligible node or brings it exactly eight places nearer |
| Rotation.EveryEligibleNodeIsObserved | src/k3s_kvm_demo/observer.py:214-233 | with E eligible nodes each is observed within any ceil(E / 8) consecutive passes |
| Observer.Observer.Launch | src/k3s_kvm_demo/observer.py:245-258 | one submission; the entry it leaves accounts for the command whether or not its reply came |
| Observer.Observer.Await | src/k3s_kvm_demo/observer.py:259-262 | an entry without a pid goes exactly when nothing it stands for can still run |
| Observer.Observer.Reap | src/k3s_kvm_demo/observer.py:263-274 | one poll; the entry goes only with a result or an AgentError, and a result of its own generation backs the status it means |
| Observer.Observer.Judge | src/k3s_kvm_demo/observer.py:277-283 | only a fresh, successful result that names this node or none has a status |
| Observer.Observer.Record | src/k3s_kvm_demo/observer.py:284-295 | the status becomes the evidence, dated from the launch |
| Observer.Observer.Advise | src/k3s_kvm_demo/observer.py:296-309 | asks for exactly the durable change a fresh status with an identity calls for, and for nothing else |
| Observer.Observer.Observe | src/k3s_kvm_demo/observer.py:241-309 | sends the node exactly what its entry calls for; by the answer alone it is fixed what becomes of entry and evidence, what raises, and what the manager is asked |
| Observer.Observer.TryObserve | src/k3s_kvm_demo/observer.py:230-239 | the same, and whatever is raised costs the node its evidence |
| Observer.StatusIsTheResult | src/k3s_kvm_demo/observer.py:263-295 | after a poll that raised, or brought a result of the node's generation, the node has a status only if that very result means it |
| Observer.Observer.Forget | src/k3s_kvm_demo/observer.py:205-212 | what is no longer listed is forgotten, and nothing else |
| Observer.Observer.Skip | src/k3s_kvm_demo/observer.py:218-226 | a node that is off or interrupted loses its evidence, and an interrupted one is to be deleted as it was seen |
| Observer.Observer.Visit | src/k3s_kvm_demo/observer.py:214-239 | observes exactly the eligible nodes among the first eight, sending each what its entry calls for, and moves the cursor for these alone |
| Observer.Observer.Reconcile | src/k3s_kvm_demo/observer.py:200-239 | visits every node unless it is stopped, and then does no more; the agents are sent exactly what the entries of the rotation's choice call for, in order; every interrupted node visited is to be deleted; otherwise only writes that the lifecycle invariant admits are asked for |
| Observer.Repeat | src/k3s_kvm_demo/observer.py:200-239 | over repeated passes on an unchanged list, with ceil(E / 8) of them every eligible node is served: its agent is called in one, or its entry waits for a reply that was lost; no pass calls more than eight |
| Observer.OneCommandAtMost | src/k3s_kvm_demo/observer.py:241-274 | while a node stays listed at most one status command of this observer is alive in it |
| Observer.JoinEvidenceIsSound | src/k3s_kvm_demo/observer.py:149-173 | join_ready implies that among the agents' answers is a successful and ready result of a command of this node and generation, submitted less than stale_after_s ago, and that nothing this agent answered since speaks against it |
| Observer.ReadyUntilStale | src/k3s_kvm_demo/observer.py:149-173 | after an observation that recorded a status the node is ready exactly while that status is ready and not stale |
| Evidence.NamesNode | src/k3s_kvm_demo/observer.py:279-283 | a result that means a status names this node or none |
| Evidence.StatusDecides | src/k3s_kvm_demo/observer.py:284-305 | state, error and progress as exact conditions on the fields of a status |
| GuestExec.Run | src/k3s_kvm_demo/guestexec.py:173-204 | one launch at most, a result only if it was in hand before the deadline, at most ceil(timeout / interval) polls; every call follows a check that said no, none comes after the deadline, and every sleep lasts the interval or to the deadline |
| GuestExec.RoundsSuffice | src/k3s_kvm_demo/guestexec.py:192-204 | that number of sleeps uses up the timeout and no smaller one does |
| Status.ParseGuestStatus | src/k3s_kvm_demo/observer.py:50-83 | the loop over the lines computes the status the text means, or refuses it |
| Status.AcceptsExactly | src/k3s_kvm_demo/observer.py:50-83 | accepted exactly if the text is short, ASCII and spells the seven fields, each once and in any order, with values that are the names of what that status says |
| Status.PrintedIsParsed | image/k3s-demo-guest:172-173 | a printed status decodes to the printed fields exactly if it claims no success without an identity |
| Seed.CanonicalIsShape | image/k3s-demo-guest:29-31 | the host's canonical UUIDs are the guest's regular expression |
| Seed.HostAndGuestAgree | src/k3s_kvm_demo/seed.py:28-54 | the host builds a payload exactly from what the guest accepts, and the guest reads the same values |
| Guest.StepKeeps | image/k3s-demo-guest:17-27 | done, failed, killed or without power, every permitted step keeps the invariant of the disk |
| Guest.LossKeeps | image/k3s-demo-guest:132-137 | so does a power loss that leaves anything in the names not synced |
| Guest.Machine.Replace | image/k3s-demo-guest:17-27 | a file is replaced as a whole or not at all |
| Guest.Machine.Install | image/k3s-demo-guest:124-131 | all six files are the seed's before anything is committed |
| Guest.Machine.Mount | image/k3s-demo-guest:113-121 | at most thirty attempts, changing nothing |
| Guest.Machine.Commit | image/k3s-demo-guest:132-137 | if it works the marker and the installation are valid and nothing is unsynced |
| Guest.Machine.Prepare | image/k3s-demo-guest:94-138 | a marked guest is never rewritten; success means prepared from this seed; a rerun without a marker or k3s data commits whatever earlier runs left |
| Guest.Machine.Run | image/k3s-demo-guest:139-144 | k3s is executed only when prepared, with the seed's role and configuration, and leaves its data |
| Guest.Machine.MarkStarted | image/k3s-demo-guest:145-151 | started is marked only when prepared |
| Guest.Live | image/k3s-demo-guest:93-151 | any series of commands, reruns, kills and power losses keeps the invariant |
| Guest.CommitIsDurable | image/k3s-demo-guest:132-137 | a valid prepared marker implies all installed files are valid, now and after any power loss |
| Guest.StartedMeansPrepared | image/k3s-demo-guest:139-151 | under kills alone started, and any trace of k3s, implies prepared |
| Guest.LossKeepsOrderExactly | image/k3s-demo-guest:101-104 | a power loss keeps that order exactly if the prepared marker was synced or the node never started |
| Guest.LoseTheOrder | image/k3s-demo-guest:94-151 | a run of the script's own commands in which it does not survive: prepare killed before its last sync, prepare again, mark-started killed before its sync, power loss |
| Report.ReportedExactly | image/k3s-demo-guest:153-171 | on whatever disk: an identity is printed only if a line of the file is a UUID, and each error exactly under its condition |
| Report.QuietStatusIsUnderstood | image/k3s-demo-guest:152-174 | with nothing running meanwhile it always does, and success carries the node's own identity |
| Report.StatusAmid | image/k3s-demo-guest:152-174 | with a host-built seed, and any commands, reruns and kills between its reads, the host understands a status exactly if the identity was there at the first read or neither flag was up when status came to it; a guest already committed is never misread |
| Report.StatusRacesTheCommit | image/k3s-demo-guest:153-161 | a fresh guest, a preparation that succeeds between two reads, and a status that the host refuses |
| Recognized.ReadyExactly | src/k3s_kvm_demo/observer.py:162-173 | for a guest with a host-built seed at rest, the host finds the node ready exactly if the guest is prepared, marked started, and both its units are active |
| Recognized.RecordFollowsGuest | src/k3s_kvm_demo/observer.py:281-309 | what becomes of the record, by the guest's marks and units alone: configured stays, failed only with the preparation, an error exactly while a unit has failed |
| Recognized.DamageIsReported | image/k3s-demo-guest:162-171 | a marker without a whole installation is reported as a failed preparation |
| Export.KubeconfigExporter.Start | src/k3s_kvm_demo/kubeconfig_export.py:29-37 | starts exactly if the file of an earlier process is gone; none starts twice or after a stop |
| Export.KubeconfigExporter.Shutdown | src/k3s_kvm_demo/kubeconfig_export.py:39-47 | afterwards it is stopped, and a file is left only if it was not this exporter's or would not go |
| Export.KubeconfigExporter.Publish | src/k3s_kvm_demo/kubeconfig_export.py:67-71 | after a stop nothing changes; otherwise the file becomes this text and no other, and without an exception it does |
| Export.KubeconfigExporter.Withdraw | src/k3s_kvm_demo/kubeconfig_export.py:78-84 | after a stop nothing changes; otherwise the reason is kept and the file is gone if it will go, and never another |
| Export.KubeconfigExporter.Refresh | src/k3s_kvm_demo/kubeconfig_export.py:56-84 | among any doings of other threads a failed refresh leaves no file if its unlink works |
| Export.AbsentOrComplete | src/k3s_kvm_demo/kubeconfig_export.py:56-104 | once started the file is absent or exactly one complete export |
| Export.NoLatePublication | src/k3s_kvm_demo/kubeconfig_export.py:39-104 | after the locked part of the shutdown of a started exporter, its unlink working, the file is absent in every later state |

## Left out

- HTTP routes, templates, CLI, configuration loading, cluster.py, stats.enrich and decide: no property here needs them. That the base image lies outside the pool is an assumption (`Lifecycle.ConfigOk`).
- libvirt, qemu-img, xorriso, the guest agent's transport and XML as text: element trees, one call and one effect at a time. The upload of a seed is one step that may fail.
- meta.read over both definitions, foreign namespaces and duplicate records: `Lifecycle.Record` has the outcome only (none, incompatible, or a record).
- Administrators who attach disks to other domains in the middle of a deletion, edit the pool, or use foreign images with hidden backing files: the source assumes that they do not. Between operations other domains may change freely.
- A node someone gave another disk, or on which a block job runs: its definitions are no renditions of what was built, and the source refuses to delete it.
- Volumes are named, with paths from the pool's directory; a volume whose own path differs from that is not modelled (libvirtctl.py:607-610), nor a power state other than on and off.
- Deletion.Delete: what libvirt says of defining, creating, starting and undefining is taken as true, as in the source.
- Runs of read-only calls are one call that may fail; a deletion therefore fails at fewer places than in the source, with the same effects.
- names.allocate's re-roll: that the name is free and the UUID was never used is a premise of a creation.
- list_nodes' order and equal ranks in launch recovery: any order among them.
- int() with signs or underscores, UUID() with braces, urn: or misplaced hyphens other than being dropped, and dates in other forms than now() writes: refused or ignored by the model's parsers.
- Agents.World: times are reals and do not jump back; a status command ends within four seconds of its launch, and an AgentError from a poll means that it is gone. The instants between two calls of one observation attempt are not observed by join_ready.
- Guest.Machine: directories, ownership, symbolic links and NUL bytes in metadata files; a second mark-started at the same time. The hostname hostnamectl writes is the seed's. A marker damaged by a power loss is never repaired, as in the source.
- Guest.Machine.Prepare: the exit code 75 of a held lock is any failure.
- Observer: decorate, which shows the same recent evidence, and starting and joining its thread.
- Export: that the worker thread ends within the grace period, and the mode of the file.
- GuestExec.Run: cancellation and timeout are one outcome; an exception of the agent is a failure without its text.
