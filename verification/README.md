# nas-csi: a verified model of the host, cluster, controller and node reconcilers

nas-csi turns a storage host into a small Kubernetes cluster of libvirt guests whose datasets reach pods through
virtiofs. Its safety rests on four cooperating state machines and on a handful of printers and parsers between them.
This project models them in Dafny and proves what each of them keeps, over whole runs and under failures.

## How the model is laid out

- **Host agent.** `Paths`, `HostModel` (configuration, steps, operations, observed state), `HostPlanner` (flattening
  and reconciling), `HostWorld` (file system, systemd, libvirt, disk images and the inspection as a function),
  `HostInspection` (the inspection loops), `HostExecutor` (guard, staged rollback, execution of a plan),
  `HostCycle` (inspect, plan, execute). The results are in `HostGuard`, `HostFrame`, `HostRollback`,
  `HostDomainRollback`, `HostDisks`, `HostDiskFate`, `HostDatasetFate`, `HostServices`, `HostPlanned`,
  `HostSettled`, `HostUpkeep` and `HostConvergence`; `HostGoals` names what each planned step is for. `HostScene` is a small host, and `HostWitnesses`
  shows on it what happens where a condition of the results fails.
- **Cluster.** `Cluster` (planner, state and step effects), `ClusterProofs`, `ClusterRun`, `ClusterOrder`.
- **CSI controller.** `Controller` (locked sections and the handlers), `ControllerInterleaving`, `ControllerRaces`,
  `ControllerProofs`.
- **Node plugin.** `NodePlugin` (plans, mount table, service), `NodePluginProofs`, `MountInfo` (printer and parsers).
- **Texts.** `DomainXml` (the hash marker), `ShellWords` (printed commands), `ContentHashing` (64-bit FNV-1a),
  `Decimals`, `Text`, `StringOrder`.
- **Materialization.** `Materialize`, `MaterializeProofs`, and `MaterializedHost`, which connects the made
  configuration to the preconditions of the host results.

A path is a sequence of components, as `std::path::Path` compares it. Commands carry their fixed words as an
enumeration. A failure is a `Fault` of one primitive: it strikes before the effect or after it, and every run takes a
schedule of faults as a parameter, so statements "under any faults" quantify over all schedules.

## What the proofs found in the code

- The guard and the planner disagree on some configurations. A root disk given as a bare file name is planned with the
  empty parent directory and guarded with "."; a node named ".." puts its artifacts behind a parent traversal; a node
  named "systemd" has its documents taken for unit files; equal `virsh` and `systemctl` programs turn domain commands
  into unclassified ones; a unit directory equal to a rendered directory turns documents into units.
  `HostGuard.GuardComplete` shows that these are all the cases, for distinct domains, and
  `HostWitnesses.GuardRefusesOwnPlan` shows one of them.
- A virtiofsd unit that is active but not enabled gets `enable --now` when its file changes, which does not restart it.
  `HostServices.CommittedFresh` shows this is exactly when a successful cycle leaves a stale service;
  `HostWitnesses.StaleService` is such a cycle.
- A domain whose name contains the marker text of its own desired hash can never be read back, so it is never current
  (`DomainXml.DesiredHashRoundTrip`), and a root disk of 2^34 GiB or more is never current either, because the desired
  size saturates (`HostConvergence.Converges`; `HostWitnesses.TooLargeDisk` creates one).
- The guard allows seed images and artifacts to be written over an existing disk. `HostDiskFate.DiskFate` says exactly
  which committed cycles destroy a disk, `HostDiskFate.DisksFate` says it of whole runs, and
  `HostWitnesses.SeedDestroysDisk` is such a cycle.
- The dataset check looks at the targets of a plan, not at the backups made beside them.
  `HostDatasetFate.DatasetFate` says exactly when a committed cycle that passes the check changes a dataset: when the
  dataset's root is a file and the plan backs a unit file or a domain up onto it, and then that file is gone.
  `HostWitnesses.BackupDestroysDataset` is such a cycle. Of cycles that are rolled back or fail to commit,
  `HostDatasetFate.DatasetKept` gives the one direction: otherwise nothing changes, whatever fails.
- A stage whose read-only remount fails leaves a writable mount of a read-only export, and the retry reports it as
  already staged (`NodePluginProofs.RetryAcceptsWritable`). So does a publish not asked to be read-only whose staging
  path is the guest's own writable mount (`NodePluginProofs.PublishFromGuestMount`). `NodePluginProofs.RunKeepsReadOnly`
  shows that there is no other way, over whole runs.
- Two concurrent CreateVolume requests can register one dataset twice (`ControllerProofs.RaceSharesDataset`).
  `ControllerRaces.RaceExactly` says which step opens the way to that, and `ControllerRaces.RaceStrandsVolume` shows
  the harm: deleting the one volume with its dataset strands the other.
- Assignment keys collide exactly when an id holds a NUL (`ControllerProofs.AssignmentKeyCollides`).
- A joining node without a server URL keeps a cluster plan from ever being current, although the state check accepts
  the cluster (`ClusterProofs.CurrentIffInstalled`).
- A node with two taints of one key and effect keeps its cluster from ever being accepted, and so do two manifests of
  one name and different contents: the planner asks for both, and only one can be held. `ClusterRun.PlanConverges` shows that, for distinct
  node names, these and '=' in a label key are the only ways; `ClusterRun.ClashingTaintsNeverInstalled` is such a node.
- The cluster order check compares texts: it rejects a correct plan when the running first server's own name contains
  the words it looks for (`ClusterOrder.PlansPassOrderCheck`; `ClusterOrder.RunningServerRejected` is such a cluster).
- The two octal decoders differ on three-digit escapes above 377 and on a few shorter forms
  (`MountInfo.DecodersAgree` gives the exact condition).

## Model

| member | source | states |
|---|---|---|
| `HostPlanner.ProgramRendersDomains` | crates/vm-manager/src/lib.rs:36-43 | A library with the program's own domain renderer meets what convergence supposes of renderers, whatever its other parts. |
| `HostPlanner.PlanHostApply` | crates/vm-manager/src/lib.rs:632-788 | The imperative flattening returns the apply plan, or an error when a node names an export the configuration lacks; `HostGoals.PlanServesGoals` says what that plan is. |
| `HostPlanner.PlanArtifacts` | crates/vm-manager/src/lib.rs:640-649 | The loop over rendered files yields one write below the artifact directory per file, in order. |
| `HostPlanner.PlanDisks` | crates/vm-manager/src/lib.rs:651-696 | The loop over nodes yields directory, image creation, seed removal and seed write for each node. |
| `HostPlanner.PlanServices` | crates/vm-manager/src/lib.rs:698-744 | All unit files are written, then one reload if there is any unit, then each unit is enabled. |
| `HostPlanner.PlanDomains` | crates/vm-manager/src/lib.rs:746-785 | Each node's domain is defined, then set to autostart and started where configured. |
| `HostGoals.PlanServesGoals` | crates/vm-manager/src/lib.rs:632-788 | Every apply step serves exactly one goal of the configuration, in a fixed order of goals. |
| `HostGoals.RenderedFirst` | crates/vm-manager/src/lib.rs:640-649 | All rendered artifacts precede every other step. |
| `HostGoals.ServiceOrder` | crates/vm-manager/src/lib.rs:698-744 | Unit files are installed before the daemon reload, and units are enabled after it. |
| `HostGoals.SeedsAreBinaries` | crates/vm-manager/src/lib.rs:802-811 | Every node's seed is among the binary writes the planner looks up, so its removal step is never applied. |
| `HostPlanner.PlanHostReconcile` | crates/vm-manager/src/lib.rs:793-910 | The loop that grows the set of changed units decides each step against the state and the changes before it. |
| `HostServices.ChangedUnits` | crates/vm-manager/src/lib.rs:830-850 | A unit counts as changed at a step exactly when its file does not match the desired hash and its install came before. |
| `HostPlanned.PlannedOperation` | crates/vm-manager/src/lib.rs:1593-1709 | In every state of the host, an applied step is the one typed operation its goal names: never a raw command, and a domain's XML path leads back to its own domain. |
| `HostPlanned.WritesApart` | crates/vm-manager/src/lib.rs:632-788 | The operation planned for one goal writes no file another goal is about, backups included. |
| `HostSettled.SkipsExactly` | crates/vm-manager/src/lib.rs:912-1465 | With its tool present, a step is skipped if and only if the host has the step's goal and no earlier change asks for it. |
| `HostSettled.MissingToolRefused` | crates/vm-manager/src/lib.rs:942-950 | A step whose program is not found is refused. |
| `HostSettled.NothingToDo` | crates/host-agent/src/main.rs:1037-1048 | The idempotence check passes on a host if and only if the host has every goal of the configuration. |
| `HostInspection.InspectPaths` | crates/host-agent/src/main.rs:4768-4799 | The first loops record every path of the steps, every base image, every service name and every program. |
| `HostInspection.InspectImages` | crates/host-agent/src/main.rs:4806-4850 | Exactly the existing disk images and base images whose tool is found are recorded. |
| `HostInspection.InspectUnits` | crates/host-agent/src/main.rs:4852-4885 | Enabled and active are recorded for every service, and unknown when `systemctl` is missing. |
| `HostInspection.InspectDomains` | crates/host-agent/src/main.rs:4886-4897 | Every configured domain is recorded. |
| `HostInspection.InspectActualState` | crates/host-agent/src/main.rs:4758-4899 | The whole inspection returns the specified observation of the world. |
| `HostCycle.InspectsPath` | crates/host-agent/src/main.rs:4768-4799 | The planner's lookup of any step's path finds what is on the host. |
| `HostCycle.InspectsImage` | crates/host-agent/src/main.rs:4806-4829 | The planner's lookup of a creation target finds its image exactly when there is one. |
| `HostCycle.InspectsUnit` | crates/host-agent/src/main.rs:4852-4885 | The planner's lookup of any installed service finds its state. |
| `HostCycle.InspectsDomain` | crates/host-agent/src/main.rs:4886-4897 | The planner's lookup of any configured domain finds its state. |
| `HostCycle.RefusedCycle` | crates/host-agent/src/main.rs:4654-4661 | A plan with any refusal changes nothing. |
| `HostExecutor.BuildSafety` | crates/host-agent/src/main.rs:5783-5837 | The loops that fill the guard's sets yield exactly the guard of the configuration, and one bad path refuses it. |
| `HostExecutor.ExecutionRollback.StageFileChange` | crates/host-agent/src/main.rs:6077-6109 | Staging backs up changed contents, notes created files, and leaves paths already staged and equal contents alone; a failure pushes nothing. |
| `HostExecutor.ExecutionRollback.StageDomainRedefine` | crates/host-agent/src/main.rs:6111-6146 | Staging writes the previous XML beside the new one and notes the command that puts it back; without previous XML it fails. |
| `HostExecutor.ExecutionRollback.RestoreAll` | crates/host-agent/src/main.rs:6148-6193 | Actions are undone last first, stopping at the first error. |
| `HostExecutor.ExecutionRollback.CommitAll` | crates/host-agent/src/main.rs:6195-6215 | Backups are removed in order, stopping at the first error. |
| `HostExecutor.ExecuteReconcileOperation` | crates/host-agent/src/main.rs:4685-4756 | One operation is validated, staged and carried out; world, staged actions and result are the specified ones. |
| `HostExecutor.ExecuteReconcilePlan` | crates/host-agent/src/main.rs:4649-4683 | A refused plan runs nothing; the first failing step starts the rollback; a plan that ends is committed. World and outcome are the specified ones. |
| `HostGuard.GuardComplete` | crates/host-agent/src/main.rs:5839-5924 | For a configuration with distinct domains, the guard accepts every operation the planner can emit in any observed state if and only if names, image parents, tools and directories meet a condition checkable beforehand. |
| `HostGuard.FriendlyAccepted` | crates/host-agent/src/main.rs:5839-5924 | Under that condition every unit, socket, disk, seed, domain and XML path of a plan is among those the guard computed independently. |
| `HostGuard.AcceptedFriendly` | crates/vm-manager/src/lib.rs:2105-2110 | Each way the condition can fail is shown by a host on which nothing exists but the tools. |
| `HostWitnesses.GuardRefusesOwnPlan` | crates/host-agent/src/main.rs:5839-5924 | With a node named "systemd" the guard can be built and refuses operations of the planner's own, whatever the renderers. |
| `HostFrame.FootprintFrame` | crates/host-agent/src/main.rs:5839-5981 | For any plan at all and any faults, every node outside the guard's artifact directory, units, disks, seeds and their backups is kept, and no file appears there. |
| `HostFrame.DatasetsUntouched` | crates/host-agent/src/main.rs:836-893 | For any plan at all that passes the dataset check and any faults, if no backup of an accepted operation falls at or below an exported dataset's root (or only on the root itself, and that is a directory), nothing at or below the root changes, counting created ancestors. The exact condition for planned cycles is `HostDatasetFate.DatasetFate`. |
| `HostFrame.SlashFreeSpares` | crates/host-agent/src/main.rs:6218-6225 | With domain names without slashes, no backup of a plan that passes the check falls on a dataset whose root is a directory. |
| `HostPlanned.CycleKeepsDatasets` | crates/host-agent/src/main.rs:836-893 | The same for a whole cycle of any configuration, under the same condition on its backups. |
| `HostPlanned.WellFormedSpares` | crates/host-agent/src/main.rs:6218-6225 | A well-formed configuration meets that condition for every dataset whose root is a directory, or whose root's name does not end like a backup's. |
| `HostDatasetFate.DatasetKept` | crates/host-agent/src/main.rs:836-893 | In a planned cycle of a well-formed configuration that passes the dataset check, whatever fails, nothing at or below a dataset's root is changed, lost or new, if the root is a directory or the plan backs nothing up onto it. |
| `HostDatasetFate.DatasetFate` | crates/host-agent/src/main.rs:836-893 | If that cycle commits, nothing at or below the root is changed, lost or new if and only if it is not the case that the root is a file and the plan backs a unit file that exists, or a domain, up onto it; in that case the root is gone. |
| `HostWitnesses.BackupDestroysDataset` | crates/host-agent/src/main.rs:836-893 | A dataset whose root is the file where a unit's backup goes: the plan passes the dataset check, the cycle commits without a fault, and the file is gone. |
| `HostPlanned.DirectoriesIsolate` | crates/host-agent/src/main.rs:5941-5955 | Unit and artifact directories that do not nest, with no disk or seed among the units, keep unit files and backups apart from all other guarded files. |
| `HostRollback.RollbackRestoresUnits` | crates/host-agent/src/main.rs:6076-6193 | For any plan and any faults, once a rollback is through, every managed unit file has the contents or absence it had before execution, however often the plan names it. |
| `HostRollback.CommitLeavesNoBackups` | crates/host-agent/src/main.rs:6195-6215 | A committed run leaves none of the backups it staged, and leaves the unit files as its last step left them. |
| `HostRollback.DomainBackupEnds` | crates/host-agent/src/main.rs:6218-6225 | A domain backup's name always ends in its suffix, even when the domain's name holds slashes, so it is never a unit file or a unit backup. |
| `HostDomainRollback.PlannedDefinition` | crates/vm-manager/src/lib.rs:1291-1390 | The planner redefines a domain only with the definition it saw as the previous XML, and plainly defines one only where it saw none. |
| `HostDomainRollback.RollbackRestoresDomains` | crates/host-agent/src/main.rs:6111-6193 | After a planned run that was rolled back, every domain that existed has its definition from before the run. |
| `HostDisks.PlannedGrows` | crates/vm-manager/src/lib.rs:1167-1289 | No planned step recreates a disk that existed at inspection, and every resize is to at least its size. |
| `HostDisks.DisksSurviveCycles` | crates/vm-manager/src/lib.rs:1073-1289 | Over any sequence of cycles, with configurations, options and faults changing arbitrarily, a disk keeps its format and backing file and its virtual size never decreases, if no plan of the run writes an artifact, seed image, unit file or backup at its path. |
| `HostDisks.ApartSpares` | crates/host-agent/src/main.rs:5783-5837 | A configuration plans no such write at a path that is not one of its artifacts, seeds, unit files or backups. |
| `HostDiskFate.DiskFate` | crates/host-agent/src/main.rs:5839-5924 | In a committed cycle of a well-formed configuration, a disk at any path is kept or grown if and only if the plan writes no artifact, seed image, unit file or backup there; otherwise it is a disk no more. |
| `HostDiskFate.ManagedPathFate` | crates/vm-manager/src/lib.rs:830-867 | A disk at the path of a rendered artifact or a seed image survives a committed cycle if and only if its bytes pass for the wanted contents. |
| `HostDiskFate.DisksFate` | crates/host-agent/src/main.rs:4649-4683 | Over any sequence of cycles that commit, are refused, or write nothing else at the path, with configurations and options changing arbitrarily, a disk is there and has not shrunk behind every cycle if and only if none of them committed a plan that writes another file over it. |
| `HostWitnesses.SeedDestroysDisk` | crates/host-agent/src/main.rs:5869-5872 | A well-formed configuration whose seed path is an existing disk: the cycle commits without a fault and the disk is gone. |
| `HostDisks.MismatchFreezes` | crates/vm-manager/src/lib.rs:1167-1289 | A path that exists and is not the wanted disk (no image, wrong format or base, too large) refuses the whole cycle: nothing changes. |
| `HostServices.CommittedUnit` | crates/vm-manager/src/lib.rs:1001-1071 | After a cycle that ran all its steps, a unit's file and its enabled, active and running state are exactly the specified ones. |
| `HostServices.RolledBackUnit` | crates/host-agent/src/main.rs:6148-6193 | After a rolled-back cycle, a unit's file is as before, and systemd holds the unit as before or as settled. |
| `HostServices.CommittedFresh` | crates/vm-manager/src/lib.rs:1001-1071 | From a unit that is not stale, a cycle that ran all its steps leaves it stale if and only if its file changed while it was active, not enabled, and running something else. |
| `HostWitnesses.StaleService` | crates/vm-manager/src/lib.rs:1001-1071 | A running unit that is not enabled and whose file changes: the cycle commits without a fault, and the unit still runs the old file. |
| `HostServices.CycleFresh` | crates/host-agent/src/main.rs:4649-4683 | Freshness, and "active only if enabled", survive every cycle that commits, is refused, or is rolled back. |
| `HostServices.NoStaleService` | crates/vm-manager/src/lib.rs:830-850 | With the configuration fixed, over any run of cycles whose rollbacks complete, a unit that is active and whose file matches the desired hash runs that file. |
| `HostUpkeep.OperationKeepsAspect` | crates/host-agent/src/main.rs:4685-4756 | The operation of one goal leaves the files, disks and domains every other goal depends on. |
| `HostUpkeep.RunKeepsGoal` | crates/host-agent/src/main.rs:4649-4683 | At every point of a run without failure, each goal the host had is kept, and each one passed has been made. |
| `HostConvergence.Converges` | crates/host-agent/src/main.rs:1037-1048 | After a cycle of a well-formed configuration that ran all its steps, inspecting and planning again gives only skips, if and only if every disk it created or grew fits in 64 bits of bytes and no domain it defined bears the marker in its name. |
| `HostWitnesses.TooLargeDisk` | crates/vm-manager/src/lib.rs:1167-1289 | A disk of 2^34 GiB or more is created by a cycle that commits without a fault, and the next plan is not empty. |
| `MaterializeProofs.FromIntentDiscoverySelections` | crates/types/src/lib.rs:417-559 | A configuration is made if and only if the inputs validate, bridge and exports resolve, given overrides are not blank and no read-only policy looks like a development one; otherwise the reported problems are exact. |
| `Materialize.ValidateIntent` | crates/types/src/lib.rs:24-58 | The loop over policies reports exactly the problems of the intent, duplicates included. |
| `Materialize.Validate` | crates/types/src/lib.rs:561-648 | The loop with its three sets and two counters reports exactly the problems of the configuration. |
| `Materialize.MakeConfig` | crates/types/src/lib.rs:450-552 | The loops over policies, servers and agents build the specified configuration. |
| `MaterializeProofs.NodesDistinct` | crates/types/src/lib.rs:1059-1131 | Names, domains and MAC addresses of the made nodes are pairwise distinct, up to 65535 nodes. |
| `MaterializeProofs.OneClusterInit` | crates/types/src/lib.rs:1059-1085 | Exactly the first server initialises the cluster; every other node is given the API endpoint. |
| `MaterializedHost.UnitNamesDistinct` | crates/vm-manager/src/lib.rs:1871-1877 | When sanitised policy names differ, unit names are pairwise distinct although they join their parts with hyphens. |
| `MaterializedHost.MadeReadable` | crates/vm-manager/src/lib.rs:45-59 | No made domain name contains the hash marker or a slash. |
| `MaterializedHost.MaterializedIsWellFormed` | crates/types/src/lib.rs:417-559 | Every made configuration meets the preconditions of the host results, among them that its exports resolve, the guard can be built and its files are isolated, supposing only that the agent's directories and the disk directory do not nest or hold "..", that its tools differ, and that sanitised policy names differ. |
| `DomainXml.DesiredHashRoundTrip` | crates/vm-manager/src/lib.rs:36-121 | The hash read back from rendered domain XML is the desired hash if and only if the domain's name does not contain the marker; otherwise nothing is read. |
| `DomainXml.FnvRoundTrip` | crates/vm-manager/src/lib.rs:36-59 | The same for the program's own hash, whose printout is always 16 lower-case hexadecimal digits. |
| `DomainXml.RenderedIsManaged` | crates/vm-manager/src/lib.rs:61-65 | Rendered domain XML is always recognised as managed. |
| `DomainXml.ContainsThroughEscape` | crates/vm-manager/src/lib.rs:2190-2197 | Escaping for XML neither creates nor hides a plain marker text. |
| `ContentHashing.HashBytes` | crates/vm-manager/src/lib.rs:2123-2130 | The loop over the bytes computes the specified 64-bit hash, with wrap-around. |
| `ShellWords.DisplayRoundTrip` | crates/vm-manager/src/lib.rs:332-340 | Splitting a printed command by the POSIX shell rules gives back the program and every argument, for all strings. |
| `ShellWords.DisplayInjective` | crates/vm-manager/src/lib.rs:2186-2188 | Two commands print alike only if they are the same command. |
| `ShellWords.Print` | crates/cluster-manager/src/lib.rs:232-240 | The printing loop writes the specified line. |
| `MountInfo.EscapeRoundTrip` | crates/vm-manager/src/lib.rs:2167-2178 | What the host writes into a guest's fstab, both decoders read back unchanged, for every string. |
| `MountInfo.DecodersAgree` | crates/host-agent/src/main.rs:5469-5495 | The node plugin's and the host agent's decoders agree on a text if and only if its escapes are clean. |
| `MountInfo.UnescapeMountField` | crates/node-plugin/src/lib.rs:143-171 | The node plugin's decoding loop computes the specified text. |
| `MountInfo.MountinfoUnescape` | crates/host-agent/src/main.rs:5469-5495 | The host agent's decoding loop computes the specified text. |
| `MountInfo.ParsePrinted` | crates/node-plugin/src/lib.rs:82-135 | The parser inverts a printer for the mountinfo line format of the kernel's proc documentation, section 3.5. |
| `MountInfo.ParsePrintedTable` | crates/node-plugin/src/lib.rs:74-80 | The same for whole tables. |
| `NodePlugin.NodeService.NodeStageVolume` | crates/node-plugin/src/lib.rs:541-599 | The service changes the mount table and answers as one step of the specified machine. |
| `NodePlugin.NodeService.NodePublishVolume` | crates/node-plugin/src/lib.rs:649-708 | The same for publishing. |
| `NodePlugin.NodeService.NodeUnpublishVolume` | crates/node-plugin/src/lib.rs:710-755 | The same for unpublishing. |
| `NodePlugin.NodeService.NodeUnstageVolume` | crates/node-plugin/src/lib.rs:601-647 | The same for unstaging. |
| `NodePlugin.NodeService.RunMount` | crates/node-plugin/src/lib.rs:391-402 | A bind appends a mount with the source's root; a read-only request remounts it, and a failing remount leaves it writable. |
| `NodePluginProofs.StepKeepsTable` | crates/node-plugin/src/lib.rs:201-353 | One request appends at most one mount, on a free path: a stage a virtiofs copy of the volume's own export with that export's tag, a publish a copy of what is mounted at its staging path, read-only if that was wanted and the answer is a success. Mounts elsewhere stay, and mount points stay distinct. |
| `NodePluginProofs.RunKeeps` | crates/node-plugin/src/lib.rs:541-755 | Over every run, mount points stay distinct, every mount was there at the start or has that provenance at the call that added it, and mounts no request names stay. |
| `NodePluginProofs.StepKeepsReadOnly` | crates/node-plugin/src/lib.rs:201-316 | A step keeps read-only exports read-only if and only if it is not a bind from a writable guest mount of one with a failing remount, or a publish from that guest mount not asked to be read-only. |
| `NodePluginProofs.RunKeepsReadOnly` | crates/node-plugin/src/lib.rs:541-755 | Over every run, whatever fails, a read-only export is at no point mounted writable for a pod if and only if no call of the run is such a step. |
| `NodePluginProofs.PublishFromGuestMount` | crates/node-plugin/src/lib.rs:272-316 | A publish whose staging path is the guest's writable mount of a read-only export succeeds without a fault and leaves a writable mount at the target. |
| `NodePluginProofs.RetryAcceptsWritable` | crates/node-plugin/src/lib.rs:201-270 | After the failing remount, a retried stage succeeds and leaves the writable mount. |
| `NodePluginProofs.RepeatIsNoChange` | crates/node-plugin/src/lib.rs:201-353 | A request that succeeded, sent again, succeeds and changes nothing. |
| `NodePluginProofs.UndoRestores` | crates/node-plugin/src/lib.rs:318-353 | Unpublish and unstage exactly undo the mount they follow. |
| `Controller.ControllerService.HandleCreateVolume` | crates/csi-driver/src/lib.rs:707-792 | The handler's two locked sections and the backend call between them do exactly one specified creation. |
| `Controller.ControllerService.HandleDeleteVolume` | crates/csi-driver/src/lib.rs:824-845 | Deletion removes the volume and its assignments, and asks the backend only for volumes flagged for deletion. |
| `Controller.ControllerService.HandlePublish` | crates/csi-driver/src/lib.rs:1003-1083 | Publishing inserts one assignment, or answers the specified error and changes nothing. |
| `Controller.ControllerService.HandleUnpublish` | crates/csi-driver/src/lib.rs:1085-1120 | Unpublishing removes one assignment. |
| `Controller.ControllerService.HandleCreateSnapshot` | crates/csi-driver/src/lib.rs:1234-1298 | A snapshot is found by source and name, or created once. |
| `Controller.ControllerService.HandleDeleteSnapshot` | crates/csi-driver/src/lib.rs:1300-1339 | Snapshot deletion as specified, error answers included. |
| `ControllerInterleaving.RunKeepsInvariant` | crates/csi-driver/src/lib.rs:707-845 | In every interleaving at lock granularity, failures included: keys are ids, every assignment sits under the key of its own volume and node and names an existing volume, and a source and name have at most one snapshot. |
| `ControllerInterleaving.RunConserves` | crates/csi-driver/src/lib.rs:707-845 | In every interleaving, for each dataset, deletions issued, volumes flagged for deletion and creations in flight never exceed successful creations. |
| `ControllerInterleaving.ForeignDatasetsSurvive` | crates/csi-driver/src/lib.rs:824-845 | Hence a dataset the controller did not create is never deleted. |
| `ControllerProofs.CreateInserts` | crates/csi-driver/src/lib.rs:686-822 | A creation inserts nothing, or one volume named after the request whose name, id and dataset no volume had. |
| `ControllerProofs.SequentialDatasetsUnique` | crates/csi-driver/src/lib.rs:686-822 | One request at a time, no two volumes ever share a dataset. |
| `ControllerProofs.ReplayReturnsSameVolume` | crates/csi-driver/src/lib.rs:686-700 | A request that inserted a volume, whatever it was then answered, replayed after any requests that do not delete that volume, changes nothing and returns that volume, or the same capability error. |
| `ControllerProofs.RaceSharesDataset` | crates/csi-driver/src/lib.rs:720-791 | Interleaved, any two registrations of one dataset under two names both succeed: uniqueness does not survive. |
| `ControllerRaces.OrderlyKeepsUnique` | crates/csi-driver/src/lib.rs:707-792 | In every interleaving in which no CreateVolume starts for a dataset that another one, under another name, is on its way to, and lookups answer for the dataset asked about, no two volumes ever share a dataset. |
| `ControllerRaces.OrderlyFromIdle` | crates/csi-driver/src/lib.rs:707-792 | In particular in every such interleaving of a controller that starts without volumes. |
| `ControllerRaces.RaceExactly` | crates/csi-driver/src/lib.rs:707-792 | From a state whose stored and pending volumes are one per dataset, an orderly continuation can end with two volumes on one dataset if and only if the step taken is a CreateVolume of that kind. |
| `ControllerRaces.RaceStrandsVolume` | crates/csi-driver/src/lib.rs:720-845 | From any state in which both requests pass their first section: a dynamic creation meets a registration of its dataset, and deleting the one volume with its dataset leaves the other one on it. |
| `ControllerProofs.AssignmentKeyInjective` | crates/csi-driver/src/lib.rs:1692-1694 | Assignment keys tell pairs apart when volume ids hold no NUL. |
| `ControllerProofs.AssignmentKeyCollides` | crates/csi-driver/src/lib.rs:1692-1694 | Another pair has the same assignment key if and only if the volume id or the node id holds a NUL. |
| `ControllerProofs.PublishRefines` | crates/csi-driver/src/lib.rs:1019-1054 | On the relation of volumes and nodes, publishing changes exactly one pair. |
| `ControllerProofs.UnpublishRefines` | crates/csi-driver/src/lib.rs:1099-1105 | Unpublishing removes exactly one pair. |
| `ControllerProofs.DeleteRefines` | crates/csi-driver/src/lib.rs:829-844 | Deleting a volume unpublishes it everywhere and nothing else. |
| `Cluster.PlanClusterReconcile` | crates/cluster-manager/src/lib.rs:270-483 | The planning loops yield the specified plan. |
| `ClusterProofs.CurrentIffInstalled` | crates/host-agent/src/main.rs:3047-3128 | A plan is all skips if and only if the independent state check accepts the state and every joining node has a server URL. |
| `ClusterRun.PlanIsOrdered` | crates/cluster-manager/src/lib.rs:270-549 | Run from the state it was made for, for any nodes with a first server: no join before the first server is up, no kubectl before token, kubeconfig and API, nodes Ready before labels and taints, and manifests only after every node has joined and is Ready. |
| `ClusterRun.ReconciledBeforeManifests` | crates/cluster-manager/src/lib.rs:270-549 | With distinct node names, every node has its labels and taints before a manifest is applied if no label key holds '=' and taints that kubectl reads as one key and effect are read as one value; and, from a state kubectl can have left and with a manifest to apply, only if. |
| `ClusterRun.PlanConverges` | crates/host-agent/src/main.rs:3649-3735 | With distinct node names, after every operation has taken effect, the state check accepts if the labels and taints of each node and the manifests do not contradict each other; from a state kubectl can have left, if and only if. The new plan is current if and only if the check accepts and every joining node has a server URL. |
| `ClusterRun.ClashingTaintsNeverInstalled` | crates/cluster-manager/src/lib.rs:270-483 | A server with two taints of one key and effect: whatever has been run, the state check does not accept after its plan. |
| `ClusterOrder.VerifyClusterPlanOrder` | crates/host-agent/src/main.rs:2989-3045 | The loop of the order check decides the specified predicate. |
| `ClusterOrder.PlansPassOrderCheck` | crates/host-agent/src/main.rs:2989-3045 | The check accepts the planner's plans except exactly where the running first server's name contains the join text of another node. |
| `ClusterOrder.RunningServerRejected` | crates/host-agent/src/main.rs:2989-3045 | A running server named "k3s join node b" beside an agent "b": the planner's plan is rejected. |
| `ClusterOrder.SpacelessNamesPass` | crates/host-agent/src/main.rs:2989-3045 | With names without spaces every plan is accepted. |

## Left out

- `Converges`: supposes that the library's content hash prints 16 hexadecimal digits and its domain renderer is the program's, that an XML file already there with the wanted hash, of a domain still to be defined, has the wanted contents, that `define` changes the XML the inspection reads, and that no one else changes the host in between.
- `NoStaleService`: says nothing behind a cycle whose rollback itself failed; the code leaves the host as it is there.
- `DiskFate`: the exact condition is for committed cycles; a cycle that is rolled back may leave a seed or artifact it wrote, because the code does not undo those.
- `RollbackRestoresDomains`: covers definitions; the code does not undo autostart, a start, or a domain newly defined.
- `FootprintFrame`: is lexical, by path components; symbolic links are not modelled.
- `GuardComplete`: the words of a command are enumerated and paths compare by components, so different spellings of one path count as one.
- `DatasetFate`: the exact condition is for committed cycles; of other cycles `DatasetKept` gives the one direction.
- `PlanConverges`: asks for distinct node names, which configuration validation provides, and for observed taints that `kubectl` would read back from their texts; label keys are distinct because labels are a map.
- `RaceExactly`: supposes that the backend answers a lookup for the dataset it was asked about.
- Failures inside one primitive (parents created but the file not yet renamed) appear only as failures before or after it.
- Message texts are enumerations; the order and repetition of reported configuration problems are not modelled.
- Rendered templates (cloud-init, k3s configuration, unit text, seed images) are functions of a library left open; only the domain XML is modelled to the character, and `HostPlanner.RendersDomains` says that the library renders domains that way.
- Real `qemu-img`, `virsh`, `systemctl` and `kubectl` are idealised effects of the operations that name them.
- Controller state persistence, restart and the capability tables are not modelled; gRPC, logging, discovery, the TrueNAS client and the command line are left out.
- `inspect_status_state` is left out: it records no rendered paths and promises no convergence.
- Reading the string parameters of a CreateVolume request into its fields is left out; requests are given with them read.
- The retention, tags and share metadata of volumes, and the CSI smoke and workload checks, are left out as they would add only easy members.
- Kill between two steps and concurrent outside edits between inspection and execution are left out: the code promises nothing there.
