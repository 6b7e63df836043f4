# Verified models of lunar-evolution

Lunar-evolution is a local controller for long agent runs: it launches detached solvers, writes
candidate files into private trees, prepares evaluators, scores candidates, delivers results to a
parent run and keeps crash-safe records of all of it. This project models the parts of it that
hold a protocol, a recovery rule or a bounded loop, and proves what they promise.

| file | what it models |
|---|---|
| `LaunchProtocol.dfy` | launchers, detached workers and foreground solvers sharing one lock, the registrations of a parent and its child run and a gate pipe, with crashes and cancellation at any step |
| `LaunchProgress.dfy` | what that protocol never gets stuck on, and two runs that show it at work |
| `InventorySnapshots.dfy` | a filesystem over time, and what the log of a two-pass inventory says about one instant of it |
| `CampaignInventory.dfy` | the walker of that inventory while the directory changes, its validator and its audit |
| `PrivateTree.dfy` | the inode heap, private trees, their check and their removal by recorded identity |
| `CandidateWorkspace.dfy` | the path-collision rule, and materialization of a bundle on top of a private tree |
| `ParentDelivery.dfy` | delivery to the parent by any number of calls cut off anywhere |
| `PreparationLog.dfy` | the evaluator-preparation log: writer, strict reader, admission |
| `RetainedTrees.dfy` | retained trees seen by path: writing one, and checking it one directory listing at a time |
| `EvaluationRecord.dfy` | the evaluation record: writer and inspector |
| `BundleDelivery.dfy` | the delivery manifest, its encoding and size bound, publication and inspection |
| `AgentLoop.dfy` | the bounded agent loop, its transcript check and the diagnostic that a run leaves |
| `CandidateReceipt.dfy` | that diagnostic on its way through the runtime adapter and the candidate generator to a receipt |
| `SearchPolicy.dfy` | the evaluator ensemble and the allocation of algorithm families |
| `PathText.dfy` | slash-separated paths and UTF-8 lengths |

Conventions of the models. Digests, JSON, Unicode tables, clocks and process execution are
parameters, with the hypothesis each theorem needs written in its `requires` (a parser that undoes its encoder,
a folding at least as coarse as the filesystem's, a digest without a collision where one would
matter). An I/O error, a cancellation or a crash is a nondeterministic choice; where a class has a
field `faulty` or `quiet`, its contracts say what holds with and without such choices. Scores and
times are exact reals.

## What the code does and its descriptions do not say

- The inventory (`src/lunar_evolution/campaign_inventory.py:209-265`) compares the stat of every
  entry at both listings of its directory, but nothing compares the root directory's own stat. If
  only changes to bytes and entries give fresh stamps, a file directly in the root can be swapped for
  another one during the read and swapped back: every comparison of both walks passes and the record
  carries bytes that the name never led to at a listing (`InventorySnapshots.RootSwap`). The set of
  paths and every record below a subdirectory are right without exception. For given listings every
  log, in whatever order the entries were taken, is a snapshot's if and only if between the two root
  listings no listed name of the root ever leads to a readable content that differs from the listed
  file's (`InventorySnapshots.SnapshotDecides`), and over a root with one file the same holds of all runs
  of the walker itself (`InventorySnapshots.OneFileDecides`); a caller who finds the root's own stat the same at the two
  root listings knows that (`InventorySnapshots.ConsistentSnapshot`).
- The status reader of the preparation log accepts a start with wall budgets only if it repeats the
  one recorded policy of the parent (`src/lunar_evolution/automatic_solve_bundle.py:99-125`). A
  failure written after any other start is not read back, and no further attempt is admitted;
  `PreparationLog.ReadsBack` gives the exact condition.
- A private tree whose `stat` or `fstat` fails right after a successful creation holds a node that it
  never recorded (`src/lunar_evolution/_candidate_workspace_io.py:137-138` and `159-162`). That is the
  only way to one (`PrivateTrees.PrivateTree.Write`), and a cleanup without further faults succeeds if
  and only if there is none (`PrivateTrees.PrivateTree.Cleanup`, `PrivateTrees.LostCreation`): it
  reports failure, and never success with the stray left behind.
- A private tree records a directory under whatever its name leads to after the creation
  (`src/lunar_evolution/_candidate_workspace_io.py:85-95` and `137-138`). If others put an empty
  directory of their own there in between, that one is recorded, and cleanup may remove it
  (`PrivateTrees.SwapTaken`). As long as no inode number is reused, cleanup is confined to nodes that the
  tree created if and only if no name led to a node of others when its directory was recorded
  (`PrivateTrees.SwapDecides`); files are recorded through the descriptor that created them and need no
  further condition.
- A process that runs the child run directly registers there without taking the parent's lock
  (`src/lunar_evolution/cli.py:5310-5320`). Recovery is reached with no registration on the child run,
  but one made after that moment is not kept out (`LaunchProtocol.RecoveryReached`).
- A publication cut off between making the directory of its journal and writing the journal
  (`src/lunar_evolution/output_publication.py:532-545`) can never be finished: every later call finds the
  directory, fails to read the journal and stops. Without faults a delivery within its budget completes
  if and only if it is not in that state (`ParentDelivery.Parent.Finish`, `ParentDelivery.Parent.Calls`).
- The reader of wall timeouts in the preparation log never looks at the stage text of the record itself
  (`src/lunar_evolution/automatic_solve_bundle.py:226-227` and `128-136`): an unknown one is taken for the
  preparation, and the record still admits another attempt. Apart from that text no record admits one
  that the writer could not have written (`PreparationLog.AdmissionDecided`).
- The receipt of a failed candidate generation states the limit that a model profile left, while that
  of a returned answer states the candidate's whole authority (`CandidateReceipts.FailureCounts`,
  `CandidateReceipts.ResultCounts`, `CandidateReceipts.NarrowedLimit`). A failure that leaves the same
  diagnostic as the runtime's previous one loses its counts (`src/lunar_evolution/agents.py:659-662`); it
  needs a budget id used twice, so never happens under the generator's own ids
  (`CandidateReceipts.CandidateGenerator.Call`).

## Model

| member | source | states |
|---|---|---|
| LaunchProtocol.InvKept | src/lunar_evolution/automatic_solve_worker.py:97-253 | every step of every process, and every crash and outside cancellation, keeps the protocol invariant: who may hold the lock description, which registrations and gate ends may exist at each program point |
| LaunchProtocol.PidsKept | src/lunar_evolution/automatic_solve_worker.py:137-171 | no two living processes share a pid, although pids are reused after death |
| LaunchProtocol.OneProcessWorks | src/lunar_evolution/automatic_solve_lifecycle.py:236-284 | in every run of any number of launchers, workers and foreground solvers with crashes at any step, at most one process does solve work at a time |
| LaunchProtocol.WorkFollowsRegistrationAndGate | src/lunar_evolution/automatic_solve_worker.py:118-253 | a detached worker works only after its pid was registered, its launcher saw the parent run once more and then wrote the gate byte, and the worker read it and saw the parent run itself, in that order; at each of the three looks the run was neither finished nor waiting for input, and at the last the registration was still the worker's |
| LaunchProtocol.LockNeverFree | src/lunar_evolution/automatic_solve_worker.py:97-171 | from the launcher's acquisition to the last sharer's close the workspace lock is held by that description, never free and never another's |
| LaunchProtocol.AdoptKept | src/lunar_evolution/automatic_solve_lifecycle.py:236-284 | a worker that adopts the inherited descriptor never has to take the lock: its description holds it already |
| LaunchProtocol.HoldersRelated | src/lunar_evolution/automatic_solve_lifecycle.py:236-284 | two processes inside the lock are one process or a launcher and its own worker, never two workers |
| LaunchProtocol.SettleKept | src/lunar_evolution/automatic_solve_lifecycle.py:236-284 | closing one descriptor of the lock, and dropping the lock with the last one, keeps the invariant for every other process |
| LaunchProtocol.CutOffStays | src/lunar_evolution/automatic_solve_worker.py:137-171 | a launch that failed or died before the gate write can never write the gate byte later |
| LaunchProtocol.CutLaunchNeverWorks | src/lunar_evolution/automatic_solve_worker.py:137-171 | a launch cut off or failing anywhere before the gate write leaves a child that never works |
| LaunchProtocol.ClearsOnlyOwnOrGone | src/lunar_evolution/store.py:906-945 | a registration disappears only by its own process or after that process is gone; no launcher, recovery or late finalizer clears a living process's registration |
| LaunchProtocol.KillsOnlyItsIdleChild | src/lunar_evolution/automatic_solve_worker.py:155-171 | a failing launcher kills no process but its own child, which has never worked |
| LaunchProtocol.RecoveryReached | src/lunar_evolution/automatic_solve_worker.py:42-94 | a continuation reaches recovery only when neither the parent run nor its linked child run carries local work or a registration except the caller's own for the parent |
| LaunchProtocol.RecoveryIsClean | src/lunar_evolution/automatic_solve_worker.py:42-94 | while a continuation stands at recovery there is no registered local work of the parent or the child run, no registration of the parent run but its own, nobody working, and none of the child run unless somebody outside the lock made one since |
| LaunchProtocol.SweepSparesReplacement | src/lunar_evolution/automatic_solve_worker.py:184-201 | recovery and the exit cleanup stop registered work only while no other process works, so a late finalizer never disturbs a replacement worker |
| LaunchProtocol.WorkerReached | src/lunar_evolution/automatic_solve_worker.py:97-253 | there is a run in which a detached worker works, although its launcher died right after the gate write, so that the theorems about workers speak of something |
| LaunchProtocol.WorkIsOwned | src/lunar_evolution/automatic_solve_worker.py:184-253 | all registered local work belongs to the one process that works |
| LaunchProtocol.NothingLeft | src/lunar_evolution/automatic_solve_worker.py:184-253 | a worker that passed the gate and came to its end leaves no registration of its own, then or later |
| LaunchProgress.CanEnd | src/lunar_evolution/automatic_solve_worker.py:97-253 | wherever a run has taken it, every living process can come to its end by steps of its own, whatever the others hold |
| LaunchProgress.NothingOpen | src/lunar_evolution/automatic_solve_worker.py:137-171 | a process at its end, or dead, has neither the lock nor an end of a gate open |
| LaunchProgress.CutOffWorkerLeaves | src/lunar_evolution/automatic_solve_worker.py:204-230 | once the launcher has closed the gate without writing, or died, the worker that waits there sees the end and can leave |
| LaunchProgress.LeavesWhenCutOff | src/lunar_evolution/automatic_solve_worker.py:204-230 | a worker takes the gate for closed only when its launcher never writes to it later |
| LaunchProgress.WritesToReader | src/lunar_evolution/automatic_solve_worker.py:137-154 | the gate byte is written only while the launcher's own worker is alive to read it |
| LaunchProgress.NeverRefused | src/lunar_evolution/automatic_solve_lifecycle.py:236-284 | no worker is ever refused the lock whose description it inherited |
| LaunchProgress.RefusedWhileHeld | src/lunar_evolution/automatic_solve_lifecycle.py:236-284 | any other process is refused only while some living process shares the lock |
| LaunchProgress.ProbesUnregistered | src/lunar_evolution/automatic_solve_worker.py:42-94 | recovery begins only where no other living process is registered for the parent run or its linked child |
| LaunchProgress.ChildClearsOnlyGone | src/lunar_evolution/automatic_solve_worker.py:42-94 | the steps of the protocol take the child run's registration away only after that process is gone |
| LaunchProgress.ExitsUnderOwnPid | src/lunar_evolution/automatic_solve_worker.py:184-201 | a worker cleans up at its exit only while the parent run is still registered under its pid |
| LaunchProgress.TakeoverReached | src/lunar_evolution/automatic_solve_worker.py:42-94 | there is a run in which a foreground solver, under the pid of the dead launcher, stops what a dead worker left, clears its registration and works |
| PathText.SplitJoin | src/lunar_evolution/campaign_inventory.py:72-84 | splitting a joined path gives back its names, so two different paths never share a joined form |
| PathText.BeforeMeans | src/lunar_evolution/campaign_inventory.py:105-294 | the order of paths is that of texts: one comes first if it is a proper beginning of the other or has the smaller character where they first differ |
| PathText.NormalMeans | src/lunar_evolution/campaign_inventory.py:72-84 | a path is already in its lexically resolved form exactly if none of its parts is empty, a dot or two dots |
| InventorySnapshots.RelativeMeans | src/lunar_evolution/campaign_inventory.py:72-84 | an inventory may hold exactly the texts in that form of at most 1024 UTF-8 bytes without NUL |
| InventorySnapshots.Pinned | src/lunar_evolution/campaign_inventory.py:205-206 | equal metadata stamps at two instants pin an inode's bytes and entries at every instant between |
| InventorySnapshots.EntryPinned | src/lunar_evolution/campaign_inventory.py:232-233 | an entry seen with the same stat at both listings of its directory did not change between them |
| InventorySnapshots.DirPinned | src/lunar_evolution/campaign_inventory.py:217-222 | every listed directory held its snapshot from its first listing to the second root listing; the root needs its own stamp |
| InventorySnapshots.ResolveVisited | src/lunar_evolution/campaign_inventory.py:209-265 | whatever path the tree holds at the second root listing was listed or read under that very path |
| InventorySnapshots.FetchRight | src/lunar_evolution/campaign_inventory.py:139-179 | what was read for a record is what its path holds at the second root listing |
| InventorySnapshots.PathsExact | src/lunar_evolution/campaign_inventory.py:209-265 | the recorded paths are exactly the regular files of the tree at the second root listing, once each, under any concurrent change |
| InventorySnapshots.RecordsRight | src/lunar_evolution/campaign_inventory.py:209-265 | every record below a subdirectory has the size and digest of that instant; one directly in the root does if the root kept its stamp |
| InventorySnapshots.ConsistentSnapshot | src/lunar_evolution/campaign_inventory.py:268-298 | with the root's stamp equal at the two root listings, the records are exactly the regular files, sizes and digests of the tree at one instant |
| InventorySnapshots.RootSwap | src/lunar_evolution/campaign_inventory.py:209-265 | a concrete history and a run of both walks over it in which every comparison passes and a root file's record is wrong |
| InventorySnapshots.OneFileLogged | src/lunar_evolution/campaign_inventory.py:139-265 | a run of both walks over a root with one file, every system call at its instant and every comparison passed, leaves a log that the snapshot theorem applies to |
| InventorySnapshots.SnapshotDecides | src/lunar_evolution/campaign_inventory.py:209-265 | for given listings all logs of the two walks, in any order of the entries, are a snapshot's, whatever was read between, if and only if between the two root listings no listed name of the root leads to a readable content that differs from the listed file's at the second one |
| InventorySnapshots.OneFileDecides | src/lunar_evolution/campaign_inventory.py:139-265 | over a root with one file, with given root listings, every run of both walks, whatever the instants of its other system calls, records the listed file's size and digest if and only if the name never leads to another readable content between |
| CampaignInventory.Checked | src/lunar_evolution/campaign_inventory.py:182-202 | a directory scan succeeds exactly when the entries fit the remaining allowance and are all plainly named files or directories |
| CampaignInventory.Walker.ReadFile | src/lunar_evolution/campaign_inventory.py:139-179 | a successful read, however it interleaves with writes, returns the length and digest of the whole file at the first stat, under the given name |
| CampaignInventory.Walker.Gather | src/lunar_evolution/campaign_inventory.py:209-265 | the first pass leaves every directory under its prefix listed, followed and recorded, touches nothing else, and ends on an unchanged listing; on a tree that no longer changes it returns exactly when the tree can be walked and its entries, files and bytes fit what is left, and spends exactly those |
| CampaignInventory.Walker.Review | src/lunar_evolution/campaign_inventory.py:209-265 | the second pass finds every listing under its prefix again, no earlier than its own first listing; on a tree that no longer changes it returns whenever the tree can be walked and its entries fit |
| CampaignInventory.TakeInventory | src/lunar_evolution/campaign_inventory.py:268-307 | a returned inventory passes its own validator and describes the tree at one instant inside the call; on a tree that no longer changes it returns exactly when the root is well named and the tree is within every limit |
| CampaignInventory.Validate | src/lunar_evolution/campaign_inventory.py:87-136 | the accumulating validator accepts exactly the well-formed inventories: strictly increasing paths, bounded sizes, exact counts, totals and digest |
| CampaignInventory.Audit | src/lunar_evolution/campaign_inventory.py:310-323 | an audit verifies if and only if the retained record is valid, names this root and its own inventory returns with the same file entries; on a tree that no longer changes, against a record that described an earlier instant, if and only if the tree is within limits and holds exactly the files of then |
| CampaignInventory.SumPick | src/lunar_evolution/campaign_inventory.py:209-265 | what a directory costs does not depend on the order in which its entries are taken |
| CampaignInventory.EntrySettled | src/lunar_evolution/campaign_inventory.py:224-263 | in an unchanging tree one entry's step either keeps spent plus left equal to the whole, or shows that the directory cannot be walked within the limits |
| CampaignInventory.QuietAuditDecides | src/lunar_evolution/campaign_inventory.py:310-323 | an inventory taken on a tree that no longer changes has the entries of an earlier one exactly when no file was added, removed or changed between |
| CampaignInventory.AuditDecides | src/lunar_evolution/campaign_inventory.py:310-323 | two descriptions of whole trees have the same entries if and only if the trees hold the same files with the same bytes |
| PrivateTrees.PrivateTree.Begin | src/lunar_evolution/_candidate_workspace_io.py:78-120 | a new private root recorded under the inode that its name and its descriptor agree on, or the filesystem as before, or an explicit cleanup failure; with a rollback that meets no faults the failure comes exactly when the new root could not be recorded |
| PrivateTrees.PrivateTree.EnterDirectory | src/lunar_evolution/_candidate_workspace_io.py:129-154 | opening a recorded directory succeeds exactly when every name on the way leads to the recorded identity |
| PrivateTrees.PrivateTree.PutFile | src/lunar_evolution/_candidate_workspace_io.py:156-176 | a file put into a recorded directory has exactly these bytes; whatever others did, the name at the end leads to the recorded file, singly linked and of this size |
| PrivateTrees.PrivateTree.Write | src/lunar_evolution/_candidate_workspace_io.py:156-176 | a write extends the recorded tree by one file with exactly these bytes, private mode and one link, and only the directories above it; without faults it succeeds whenever nothing in the tree folds onto its names; something unrecorded is left exactly when the stat or fstat after a creation failed |
| PrivateTrees.PrivateTree.RecordDirectory | src/lunar_evolution/_candidate_workspace_io.py:138 | whatever the name leads to at the stat after mkdir is recorded, and it is told apart whether that is a node of the tree's own making |
| PrivateTrees.RepAdd | src/lunar_evolution/_candidate_workspace_io.py:129-176 | creating a node under a tree directory keeps the filesystem equal to its former self plus exactly the tree |
| PrivateTrees.RepRemove | src/lunar_evolution/_candidate_workspace_io.py:205-225 | removing a leaf keeps the filesystem equal to its former self plus exactly the remaining tree |
| PrivateTrees.RepUnroot | src/lunar_evolution/_candidate_workspace_io.py:220-225 | removing an empty root gives back the filesystem as it was |
| PrivateTrees.LevelsMirror | src/lunar_evolution/_candidate_workspace_io.py:178-201 | if every recorded directory passes on its own listing, the whole real subtree is the recorded one at every depth |
| PrivateTrees.MirrorLevel | src/lunar_evolution/_candidate_workspace_io.py:178-201 | in a subtree that is the recorded one, every recorded directory is reached and passes |
| PrivateTrees.TidyMirrors | src/lunar_evolution/_candidate_workspace_io.py:178-203 | after any sequence of successful writes the subtree is its own record |
| PrivateTrees.PrivateTree.CheckLevel | src/lunar_evolution/_candidate_workspace_io.py:181-201 | one listing loop accepts exactly the directories whose entries are the recorded children with their identities, kinds, modes and links |
| PrivateTrees.PrivateTree.SyncAndCheck | src/lunar_evolution/_candidate_workspace_io.py:178-203 | the check, which lists recorded directories one by one, succeeds if and only if the whole real subtree equals the recorded one; whatever others did, after a success the tree's name leads to its recorded root |
| PrivateTrees.PrivateTree.RemoveChecked | src/lunar_evolution/_candidate_workspace_io.py:207-219 | one removal takes away only a name whose inode has the wanted identity and kind, and a directory only when it is empty |
| PrivateTrees.PrivateTree.Cleanup | src/lunar_evolution/_candidate_workspace_io.py:205-225 | a successful cleanup without interference restores the whole filesystem; without faults of its own it succeeds if and only if everything in the tree was recorded, whatever faults the writes met; whatever others do, and as long as inode numbers are not reused, it removes only nodes that the tree created unless a name led to a node of others when its directory was recorded |
| PrivateTrees.SwapDecides | src/lunar_evolution/_candidate_workspace_io.py:205-225 | whatever the others make of the filesystem without reusing inode numbers, the removals of recorded directories take only nodes that the tree created, if and only if no name led to a node of others when its directory was recorded |
| PrivateTrees.SwapTaken | src/lunar_evolution/_candidate_workspace_io.py:85-95 | a concrete swap of the new root before its stat: the directory of others is recorded, and the removal takes it and leaves the tree's own |
| PrivateTrees.LostCreation | src/lunar_evolution/_candidate_workspace_io.py:137-138 | a creation that is not recorded leaves the filesystem with exactly one more node than the records know |
| PathCollisions.CheckPathCollisions | src/lunar_evolution/candidate_bundle.py:136-149 | the one-pass loop accepts exactly the lists in which no two files share a folded prefix unless both spell it alike as a directory |
| PathCollisions.OrderIrrelevant | src/lunar_evolution/candidate_bundle.py:136-149 | the verdict does not depend on the order of the files |
| CandidateWorkspaces.AcceptedRoom | src/lunar_evolution/candidate_bundle.py:136-149 | after any part of an accepted bundle, no name on the way of the next file is taken, even where the filesystem identifies folded names |
| CandidateWorkspaces.AllHeld | src/lunar_evolution/candidate_workspace.py:63-66 | a checked tree holds exactly the bundle's files with their bytes and the directories above them |
| CandidateWorkspaces.Materialize | src/lunar_evolution/candidate_workspace.py:47-79 | exactly the bundle's tree beside an otherwise untouched filesystem, or the filesystem as it was, or an explicit cleanup failure; with a rollback that meets no faults the failure comes exactly when a creation could not be recorded; without faults an accepted bundle with readable sources and a free name always succeeds; after a success the name leads to the recorded root, others or not |
| ParentDelivery.Parent.constructor | src/lunar_evolution/bundle_parent_delivery.py:333-347 | a parent without delivery events starts in order, whatever other rows it has |
| ParentDelivery.Parent.Append | src/lunar_evolution/bundle_parent_delivery.py:71-79 | an event is inserted at most once, and a matching event with another payload stops the call |
| ParentDelivery.Parent.RegisterFiles | src/lunar_evolution/bundle_parent_delivery.py:257-276 | every file of the pinned copy ends with exactly one row, with its size, digest, owner and the kind that its name calls for, and the budget demand does not move |
| ParentDelivery.Parent.PublishOutputs | src/lunar_evolution/output_publication.py:466-590 | one atomic batch: without faults a first publication commits, with exactly one row for every output, of its size and digest, and one that an earlier call left unfinished is rolled back with none; a batch cut off before its journal can be settled by no later call |
| ParentDelivery.Parent.InspectTerminal | src/lunar_evolution/bundle_parent_delivery.py:294-310 | the terminal record returned is the one that the pinned copy and the state of the batch call for |
| ParentDelivery.Parent.Finish | src/lunar_evolution/bundle_parent_delivery.py:325-392 | wherever the call stops: at most one PREPARED and one TERMINAL event, the pinned copy kept and nothing changed after TERMINAL; a payload names the pinned copy and says delivered, with all outputs, when every file and output has its row, and failed, with none, when the batch was rolled back; the ledger then holds exactly the bytes that the budget check had demanded; without faults and within the budget a call completes if and only if no publication was cut off before its journal and no row clashes with an output, and says failed if and only if an earlier call left the batch unfinished or rolled back |
| ParentDelivery.Parent.Calls | src/lunar_evolution/bundle_parent_delivery.py:325-392 | over any number of cut-off calls all results that are returned are the same payload, and none is returned after a publication was cut off before its journal |
| ParentDelivery.RowAdded | src/lunar_evolution/bundle_parent_delivery.py:181-195 | registering one file moves its bytes from the pending side to the ledger and leaves the budget demand where it was |
| ParentDelivery.CommitKeepsTotal | src/lunar_evolution/store.py:1892-1960 | committing the missing outputs leaves ledger bytes plus pending output bytes unchanged |
| ParentDelivery.CopyCostAppend | src/lunar_evolution/bundle_parent_delivery.py:181-195 | a new row of the pinned copy lowers the pending bytes by exactly the size of that file |
| ParentDelivery.CopyPinned | src/lunar_evolution/bundle_parent_delivery.py:354-365 | pinning a fresh copy changes neither the ledger nor the budget demand |
| ParentDelivery.ExactRow | src/lunar_evolution/bundle_parent_delivery.py:265-276 | a registered file always passes the exactly-one-matching-row check |
| PreparationLog.ReadsBack | src/lunar_evolution/automatic_solve_bundle.py:214-327 | every failure the writer can record right after its start is read back with the same stage, category, recoverability and details if and only if the reader accepts the start, for all four schema versions |
| PreparationLog.StartAccepted | src/lunar_evolution/automatic_solve_bundle.py:99-125 | a start is accepted when it has no budgets, or budgets in range that repeat the one recorded policy |
| PreparationLog.AdmittedAfterFailure | src/lunar_evolution/automatic_solve_bundle.py:592-636 | after a failure another attempt is admitted if and only if the failure is a recoverable one and its start is accepted |
| PreparationLog.FirstAdmitted | src/lunar_evolution/automatic_solve_bundle.py:592-636 | on an empty log an attempt is admitted exactly if the parent is active and the files are valid |
| PreparationLog.AdmittedAfterInterruption | src/lunar_evolution/automatic_solve_bundle.py:592-636 | after one interrupted start another attempt is admitted exactly if the parent is active, the files are valid and that start is accepted |
| PreparationLog.AdmissionDecided | src/lunar_evolution/automatic_solve_bundle.py:99-636 | over any log at all, however it came about, an attempt is admitted if and only if the parent is active, the files are valid, nothing was prepared, and the log is empty, is one accepted start, or ends with the record of a recoverable failure as the writer writes it, with the one accepted start of that attempt in place; no malformed or edited record is a retry |
| PreparationLog.StatusMeans | src/lunar_evolution/automatic_solve_bundle.py:214-327 | what the reader says when a cancelled parent, invalid files, a prepared profile or an interrupted start decide it |
| PreparationLog.EndedReadsBack | src/lunar_evolution/automatic_solve_bundle.py:797-842 | a failure under a parent that was cancelled or ended in the meantime is recorded as that, never as recoverable, and read back so |
| PreparationLog.AttemptFits | src/lunar_evolution/automatic_solve_bundle.py:592-636 | an admitted attempt, with any outcome or none, keeps the log in S?(SF)*(S\|SP)? |
| PreparationLog.LanguageMeans | src/lunar_evolution/automatic_solve_bundle.py:592-714 | in that language P occurs at most once and last, and only the first and the last attempt can lack an outcome |
| PreparationLog.Preparation.Prepare | src/lunar_evolution/automatic_solve_bundle.py:639-869 | a call appends a start exactly when the log admits one, on an empty log always under an active parent with valid files, then the failure it was raised with, its success or, cut off, nothing; the log stays in the language |
| PreparationLog.Preparation.Attempts | src/lunar_evolution/automatic_solve_bundle.py:592-869 | over any number of calls in any contexts the log only grows and stays in the language; after a success, or an interruption of any attempt but the first, it never changes again |
| RetainedTrees.LevelsExact | src/lunar_evolution/bundle_delivery.py:192-211 | the listings of the expected directories are right, one by one, if and only if the whole tree holds the expected files and the directories above them and nothing else at any depth |
| RetainedTrees.TreeNames | src/lunar_evolution/candidate_evaluation.py:335-361 | the loop over the expected directories accepts exactly the trees that hold the expected names and nothing else |
| RetainedTrees.Inventory | src/lunar_evolution/bundle_delivery.py:192-211 | the loop with one set of all names seen accepts exactly the trees that hold the expected names and nothing else |
| RetainedTrees.WriteTree | src/lunar_evolution/_candidate_workspace_io.py:156-176 | writing files one by one into a new tree meets an existing name exactly when two paths are equal or one lies below the other; otherwise the tree holds exactly those files |
| EvaluationRecord.DeclaredFit | src/lunar_evolution/candidate_evaluation.py:396-414 | a valid request never declares more than the inspection's 100 files: 64 inputs, 32 outputs, 4 fixed ones |
| EvaluationRecord.RequestMeans | src/lunar_evolution/candidate_evaluation.py:253-303 | a request is valid exactly if its tables are bounded and match the contract, every output lies below output/, every size is within its bound and no name continues another one after a slash |
| EvaluationRecord.PlacesApart | src/lunar_evolution/candidate_execution.py:189-204 | the declared names of a valid request lead to different places, none below another |
| EvaluationRecord.FaithfulParsers | src/lunar_evolution/candidate_evaluation.py:364-480 | parsers that undo the encoders on what the writer produces exist exactly when no two documents written for one reader are written alike |
| EvaluationRecord.WrittenAccepted | src/lunar_evolution/candidate_evaluation.py:597-692 | a record put together by the writer is accepted with the same request and manifest, with and without its pin |
| EvaluationRecord.ObservedMeans | src/lunar_evolution/candidate_evaluation.py:572-596 | the writer goes on exactly if harness and inputs have the admitted sizes and digests, none missing or added, and no output is outside the contract |
| EvaluationRecord.ReportMeans | src/lunar_evolution/candidate_evaluation.py:624-654 | one missing required or malformed output forces the report for invalid outputs; else invalid sources force theirs; else the report is what the evaluator printed |
| EvaluationRecord.Evaluate | src/lunar_evolution/candidate_evaluation.py:483-692 | a record is completed exactly when inputs and harness are the admitted ones, the request is valid and every document fits; for every combination of output and source validity it is then accepted, bound to its job, and carries the evaluator's report or the forced one, invalid output first |
| EvaluationRecord.FilesMean | src/lunar_evolution/candidate_evaluation.py:402-475 | the file part of a record passes exactly if all six kinds of files lie under their names, each within its limit, of the admitted size and digest and as the manifest describes it, with the record's root and binding, and no other name is in the tree or the manifest |
| EvaluationRecord.PathsMean | src/lunar_evolution/candidate_evaluation.py:406-414 | the names expected in a record are its four fixed files, the source evidence under a contract with source checks, the inputs below inputs/ and the present outputs |
| EvaluationRecord.Inspect | src/lunar_evolution/candidate_evaluation.py:364-480 | the inspection accepts exactly the trees whose files, directories, bindings, flags and report agree, and returns their binding and report |
| EvaluationRecord.PinnedExact | src/lunar_evolution/candidate_evaluation.py:331-361 | pinned by an accepted record's digest, that very tree is accepted, and another only if one of its files collides under the digest: no declared name missing, added or changed |
| BundleDelivery.PathsMean | src/lunar_evolution/bundle_delivery.py:85-109 | the paths of a delivery are valid exactly if there are 3 to 166 of them (165 without source checks), free of collisions, with the two required names and a source, each under source/, output/, inputs/ or one of six fixed names and its rest a source path |
| BundleDelivery.SourcePathMeans | src/lunar_evolution/candidate_bundle.py:52-69 | a source path is a normal text of at most 1024 bytes, of permitted characters and proper names none of which folds to .git; the check of its character count never decides |
| BundleDelivery.PathFits | src/lunar_evolution/bundle_delivery.py:85-109 | an escaped path takes at most two bytes per checked byte and fourteen for both stripped prefixes |
| BundleDelivery.ManifestFits | src/lunar_evolution/bundle_delivery.py:278-296 | the encoded manifest of every material set with valid paths fits its size limit, at all three file caps |
| BundleDelivery.EncodingApart | src/lunar_evolution/bundle_delivery.py:289-296 | two manifests that the encoder is ever given are never written alike |
| BundleDelivery.ProtocolWritten | src/lunar_evolution/bundle_delivery.py:288-296 | every manifest ends with the protocol that says whether it carries source checks, and the schema version |
| BundleDelivery.FaithfulParser | src/lunar_evolution/bundle_delivery.py:228-236 | a parser that undoes the encoder on all of them exists, whatever the other parameters are |
| BundleDelivery.Publish | src/lunar_evolution/bundle_delivery.py:278-323 | publication succeeds exactly for valid materials: the manifest's own limit never refuses them, no write finds its place taken, and the copy passes its own inspection |
| BundleDelivery.ReadFiles | src/lunar_evolution/bundle_delivery.py:246-258 | the reading loop accepts exactly the files of the listed sizes and digests within the total |
| BundleDelivery.Inspect | src/lunar_evolution/bundle_delivery.py:214-275 | an inspection accepts exactly the intact copies, with no file or directory missing or extra, and returns their manifest |
| BundleDelivery.PublishedIntact | src/lunar_evolution/bundle_delivery.py:318-320 | a copy that holds what was published is accepted, with and without its pin, with the same manifest |
| BundleDelivery.PinnedExact | src/lunar_evolution/bundle_delivery.py:192-204 | pinned by the published digest, the published copy is accepted, and another only if one of its files collides with the published one under the digest |
| BundleDelivery.PinnedCopies | src/lunar_evolution/bundle_delivery.py:192-275 | two copies that are accepted under one published pin are the same tree, or one of them has a file that collides with the published one |
| AgentLoops.ScanIsBlocks | src/lunar_evolution/agent_loop.py:690-722 | checking message by message with a set of pending calls is the same as splitting into blocks |
| AgentLoops.TranscriptComplete | src/lunar_evolution/agent_loop.py:690-722 | the check accepts exactly the transcripts whose tail matches and that split into plain messages and assistant messages followed at once by one result for each of their distinct calls, in any order |
| AgentLoops.AddCalls | src/lunar_evolution/agent_loop.py:712-721 | the inner loop accepts exactly distinct, non-empty call ids |
| AgentLoops.BatchPairs | src/lunar_evolution/agent_loop.py:470-534 | after a call message and n results a paired transcript is paired again exactly when the ids are distinct and n is all of them, so never mid-batch |
| AgentLoops.AgentLoop.RunBatch | src/lunar_evolution/agent_loop.py:472-546 | a batch appends the results of a prefix of its calls, all of them unless it stops, never passes the step limit, and reports what stopped it |
| AgentLoops.AgentLoop.CheckBoundary | src/lunar_evolution/agent_loop.py:345-354 | a stage ends only on a paired transcript |
| AgentLoops.AgentLoop.Begin | src/lunar_evolution/agent_loop.py:824-844 | however history and prompt meet, the loop starts with a matching tail and with history as paired as it was |
| AgentLoops.AgentLoop.Run | src/lunar_evolution/agent_loop.py:255-546 | under a candidate budget narrowed only by a profile, from offset k the loop ends after at most n-k tools and n-k+1 model requests and starts no batch that would overrun; an answer, the step limit, a timeout and a failed request, tool or answer leave a diagnostic with the reason, phase, steps used, calls attempted and a remainder that adds up, and a stage boundary, a pause for input, a continuation refused between them and a usage failure leave the one that says running; an answer is a turn of text without calls, an empty one has neither, and the attempted calls of a limit are those of the last turn; undisturbed, it goes exactly to the first turn without calls, or to the first whose calls would pass the limit |
| CandidateReceipts.FilterMeans | src/lunar_evolution/agents.py:651-677 | whatever a runtime reports, the filter lets through exactly the finished diagnostics of this budget whose counts add up within the authority |
| CandidateReceipts.ResultMeans | src/lunar_evolution/agent_evolution.py:429-471 | whatever the metadata of a result say, the receipt adds up to the authority or there is none |
| CandidateReceipts.DiagnosticSurvives | src/lunar_evolution/agents.py:651-677 | the diagnostic that a run leaves passes the adapter's filter, unchanged, exactly when the run itself said how it ended and the call ends the same way, completed or not |
| CandidateReceipts.FailureCounts | src/lunar_evolution/agents.py:565-599 | the receipt of a failed call has the run's counts, over the limit that the run kept to, exactly when the run said how it failed and that differs from what the runtime said before; otherwise it has none, states the authority and the exception's own reason |
| CandidateReceipts.ResultCounts | src/lunar_evolution/agent_evolution.py:429-471 | the receipt of a final answer, whether or not it parses, has the tools really started and what is left of the original authority, and says completed only for a parsed draft |
| CandidateReceipts.NarrowedLimit | tests/test_agent_evolution.py:301-330 | an authority of twelve under a profile of two and three calls in the first turn: the receipt states two, nothing used, three attempted; the same failure again under the same id states twelve and no counts |
| CandidateReceipts.CandidateGenerator.RunAdapter | src/lunar_evolution/agents.py:499-639 | a failed invocation emits one receipt, from the run's own diagnostic or blank, and a returned one emits none and carries the run's diagnostic |
| CandidateReceipts.CandidateGenerator.Call | src/lunar_evolution/agent_evolution.py:305-381 | a generation leaves at most one receipt, and exactly one for a draft, for an answer that is no draft and for a failed invocation; which receipts have counts, over which limit, with which reason and attempted calls, is as above, a step limit's attempted calls always exceed its remainder, and under the generator's own ids every run that says how it failed is counted; undisturbed, the run takes its course and ends as a draft, as an answer that is none, or as the failure that the run came to |
| EvaluatorEnsemble.Evaluate | src/lunar_evolution/agent_evolution.py:1084-1141 | an ensemble of two or more accepts exactly when every member succeeds and reports valid, and then combines by medians the scores, the qualities and the first eight shared metrics of one direction; it rejects exactly when every member reports invalid |
| EvaluatorEnsemble.MedianMeans | src/lunar_evolution/agent_evolution.py:1115-1117 | the median is the mean of the two values that have fewer than half of all below or above them and at least half not beyond them; for odd sizes the two are one |
| EvaluatorEnsemble.MedianHalves | src/lunar_evolution/agent_evolution.py:1115-1117 | there always are two such values among the given ones, with no other strictly between them |
| EvaluatorEnsemble.FirstNamesCount | src/lunar_evolution/agent_evolution.py:1122 | the cut keeps eight names, or all of fewer |
| EvaluatorEnsemble.KeptComeFirst | src/lunar_evolution/agent_evolution.py:1122 | every name that is kept comes before every name that is not |
| EvaluatorEnsemble.MedianInMajority | src/lunar_evolution/agent_evolution.py:1115-1117 | the median lies in every interval that holds a strict majority of the values, for odd and even sizes |
| EvaluatorEnsemble.CombinedOrderFree | src/lunar_evolution/agent_evolution.py:1115-1141 | score, quality and every metric do not depend on the order of the members |
| EvaluatorEnsemble.CombinedInMajority | src/lunar_evolution/agent_evolution.py:1115-1141 | the score and every emitted metric lie in each interval holding a strict majority of the members' values |
| FamilyAllocation.CountTags | src/lunar_evolution/agent_evolution.py:1482-1507 | the nested tallies hold exactly the declared tags, and for each outcome the number of archived candidates that declare the tag and came out so |
| FamilyAllocation.ExperimentMemory | src/lunar_evolution/agent_evolution.py:1482-1524 | of the tags that occur, the retained ones survive the cut to 32 summaries, and of the others exactly the last in order that there is room for, all with exact tallies |
| FamilyAllocation.LastTagsCount | src/lunar_evolution/agent_evolution.py:1509-1516 | the last n of a set of tags in order are n, or all of fewer |
| FamilyAllocation.ModeMeans | src/lunar_evolution/agent_evolution.py:1201-1224 | an invalid parent is repaired and a valid one refined or recombined; without a parent an invalid latest candidate is repaired, and otherwise the search diversifies or begins |
| FamilyAllocation.AllotFamily | src/lunar_evolution/agent_evolution.py:1369-1371 | an explore or diversify generation is given the least tried family, the first of them in the repertoire |
| FamilyAllocation.NextFamily | src/lunar_evolution/agent_evolution.py:1369-1371 | in a balanced archive the allotted family is the next in the repertoire, and the archive stays balanced |
| FamilyAllocation.Generations | src/lunar_evolution/agent_evolution.py:1327-1411 | parentless generations visit the families in repertoire order over and over, and no two families' counts ever differ by more than one |

## Left out

- LaunchProtocol: the concurrent protocol is a state machine on values, so the descriptors and fields that one Python process reassigns are program points of its process, not fields of an object.
- LaunchProtocol: the lock file is not replaced while locked, a launcher does no solve work, liveness probe and release of a stale registration are one step, interrupts between a system call and the next assignment are not modelled, and the in-process set of active owners and the cancellation deadline object are left out; only the holder of the lock starts registered work, for the parent run and for its child.
- InventorySnapshots.SnapshotDecides: the only-if half is about logs in any order of the entries, not about runs of the sorted walk; over runs it is stated for a root with one file.
- CampaignInventory.Walker.Gather and Review: one source function with a flag; the order of a directory's entries is arbitrary here, which covers the sorted one; each listing with its stats is one step; names that are not UTF-8 are not modelled.
- CampaignInventory.TakeInventory: when it must return is stated for trees that change no more from its start on; the descriptor chain to the root, and its check at the end, are one possible failure each.
- PrivateTrees.PrivateTree.Cleanup and SwapDecides: inode numbers are not reused while the tree lives (the code compares device and inode and holds no descriptor on what it made, so a node of others that got such a number under the recorded name would pass for the tree's own).
- PrivateTrees: an identity check and its removal are one step under interference; closing a descriptor never fails; listed names are already in NFC; keyboard interrupts are not modelled.
- CandidateWorkspaces: parsing and verification of the bundle and the source-root checks before the first write.
- ParentDelivery.Parent.PublishOutputs: output and staged files on disk, the output batch's own events, and the contents of its journal, which fits its limit.
- ParentDelivery: the links, contract and input checks that every call repeats are one possible stop; half-written copies are not modelled; output paths never lie inside a published copy.
- PreparationLog: field-by-field validation of diagnostics and request observations (a normalized observation stays as it is when normalized again), the frozen evaluator files, and wall timeouts raised without wall budgets.
- EvaluationRecord: descriptor chains and repeated observations of held files (without interference they see the same bytes), the process runner, and the admission and attempt records that a job comes from; tables sorted by path are maps, and the writer's check of its own tree is the one of private trees.
- BundleDelivery: the materials and the files of a manifest are dictionaries, given as their items in path order; what the source evidence demands is a parameter; the tree is written by path, as a private tree is.
- AgentLoops: session history is on and the transcript file is neither compacted nor unwritable during a run; timeouts, providers, usage ledgers and artifacts are choices without content.
- CandidateReceipts: an observer is attached and the worker is the repository's own loop, which emits no such event itself; keyboard interrupts, elapsed times, candidate and source identities in a receipt, and the generation of whole bundles.
- EvaluatorEnsemble: error texts of invalid reports.
- FamilyAllocation: families of repair, refine and recombine generations.
- The acceptance, benchmark and budget files, which are field-by-field validators and records; model providers, HTTP, prompts and the command line.
