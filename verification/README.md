# ZFS-Live: a verified model of the volume graph, the changed-block pipeline and the daemon registry

The driver stores each VDI as a zvol. It runs ZFS and QEMU commands that may each fail, and it commits
rows to a metabase at the end of an operation. This project models ZFS and QEMU as small transition
systems with their refusals, writes the driver's step sequences over them, and proves what those
sequences keep.

| file | content |
|---|---|
| `Wrappers.dfy` | `Option` and `Result` |
| `ZfsPool.dfy` | pool state, the ZFS primitives and their refusals, the origin forest |
| `Promotion.dfy` | the promotion loop of `Volume.destroy` |
| `SnapshotNames.dfy` | the pool with full snapshot names, and why the uuid after `@` is enough |
| `Metabase.dfy` | rows, agreement of rows and pool, crash histories |
| `VolumeSpec.dfy` | the effect each operation is to have, and what it means |
| `VolumeLaws.dfy` | the same byte by byte and number by number: sizes, contents, reservations, who may write |
| `VolumeDriver.dfy` | class `Host`: create, import, snapshot, clone, resize, destroy, copies, orphan cleanup |
| `VolumeCopy.dfy` | `Volume.copy` within a pool and across pools |
| `Runs.dfy` | runs of operations on one pool and on two, each failing anywhere |
| `RunLaws.dfy` | thick provisioning over runs; when exactly sizes stay right, snapshots stay in their SR and resizing keeps all bytes |
| `ZvolRuns.dfy` | what a run may do to one zvol or snapshot: thick stays thick, a snapshot VDI keeps its bytes, what can go |
| `Witnesses.dfy` | runs from an empty pool that break a promise the driver does not keep |
| `RecursiveDestroy.dfy` | the recursive destroy behind `SR.destroy` |
| `OrphanTiming.dfy` | orphan cleanup racing with operations, as a timed state machine |
| `ChangedBlocks.dfy` | the packed bit array of `list_changed_blocks` |
| `NbdWire.dfy`, `NbdClient.dfy`, `NbdServer.dfy` | wire format, the client over a fragmenting socket, a conforming server |
| `Tracking.dfy`, `QemuNode.dfy` | dirty bitmaps, the capture at a snapshot with the guest writing, deactivate and activate |
| `EndToEnd.dfy` | guest writes to reported bits, through bitmap, NBD stream and packing |
| `ReferenceServer.dfy` | a server for any bitmap, and the round trip from bitmap to extents |
| `DaemonRegistry.dfy` | the registry of qemu-storage-daemons and its lazy sweep |

`dafny verify dfyconfig.toml` checks everything.

## How to read it

A crash can happen after any step. Class `Host` therefore keeps a ghost `history` of every state that
became durable, and `Safe()` says that each of them is sound: the pool is well formed, and every row has
its zvol or snapshot unless a requested destruction had taken something from it (`doomed`). Acyclicity of origins under
promotion rests on age: a clone's origin is older than every snapshot the clone holds.

Three more things hold until an operation ends them, and the ghost field `promises` keeps track of them:
clones are in the SR of their origin (`oneSr`), snapshots are below the SR of their VDI (`inSr`), recorded
sizes are right (`sized`). `promises` only ever says less, each operation's contract says when, and
`Runs.Drive` puts the conditions together over a run. An operation that is accepted has exactly the effect
`VolumeSpec.dfy` gives it; `Runs.Trace` is a run of such effects and of failures that leave no more than
`Runs.Remains` allows. A run on two pools with copies between them is two such traces, in which a copy is
an operation of its own on either side (`Runs.View`); so the laws in `RunLaws.dfy` hold for both.

What goes wrong without being the driver's fault is logged where it happens, in the ghost field `mishaps`:
ZFS still busy after all retries of a command, a commit that fails, a stream that breaks. An operation may
report such a failure only if the log has got it; what is possible and meets with no mishap is done
(`Runs.Excused`, `Runs.LuckyRun`). The walk of `SR.destroy` keeps a log of what it asked for and was told.

In `QemuNode.dfy` the guest has a turn between any two commands, and a script gives what it writes in each.
A life of the node is told stage by stage (`QemuNode.Life`), a session of the registry scene by scene
(`DaemonRegistry.Session`).

Assumptions:

- A metabase transaction commits entirely or not at all when its context is left.
- New UUIDs have never been seen before. Distinct device paths have distinct keys.
- The snapshots of one zvol are listed in creation order. A recursive listing is sorted by name, each
  zvol followed by its snapshots. Numbers stand for names, in the order of the names.
- No SR's dataset lies below another SR's, so that a snapshot below an SR is held by a zvol of that SR.
- `zfs set volsize` rounds up to whole blocks.
- `block-dirty-bitmap-add` creates a bitmap that records. The device of a node keeps its size.
- Whether a device is busy, a commit works or a QEMU command works is left open: the proofs cover every
  outcome. Which objects look in use, how old they are, what the guest writes, and which daemons outlive a
  kill, do not start or cannot be saved are inputs.
- What an NBD server sends is given as one stream, because the client's requests depend only on what it
  has received. Reads may return any non-empty part of what is left.
- Names are Python 2 byte strings, so no decoding can fail.
- `copies` inherited from a dataset is constant, and a thick zvol first gets its volsize as reservation.

Where the code does not keep a natural promise, the model follows the code and states when it does:

- Destroying a snapshot VDI works only while its own clone holds no snapshot. After its parent has been
  destroyed that is often no longer so (`RunLaws.OrphanedSnapshotStuck`, `Witnesses.SnapshotStuck`).
- Recorded sizes go wrong when a snapshot VDI whose parent has grown is snapshotted, and when `destroy`
  makes a clone for a snapshot older than a resize (`RunLaws.SizesOverRunIff`, `Witnesses.HeirMiscounted`).
- `resize` compares with the recorded size. Where that is below the size of the zvol it can cut off the end
  of the disk (`RunLaws.ResizeKeepsBytesIff`, `Witnesses.ResizeTruncates`).
- A copy to another SR on the same pool can pull a snapshot VDI out of its SR when volumes are destroyed
  later (`RunLaws.HomesOverRunIff`, `Witnesses.SnapshotLostToOtherSr`).
- Cleaning up the orphans of one SR can destroy the snapshot of another SR's VDI that has come there, if
  nothing that stays is cloned from it. Snapshot VDIs with a clone of their own are safe; those of older
  driver revisions have none (`RunLaws.CleanupKeepsIff`, `Witnesses.OldSnapshotSwept`).
- A thick volume asked for in a broken number of blocks is reserved too little (`RunLaws.ThickCreateExactIff`).
- A failed cross-pool copy whose transient snapshots resist never removes the destination, although the
  comment at `src/volume/volume.py:799-806` says it does (`VolumeCopy.DropTransients`).
- `SR.destroy` fails if a clone sorts before the zvol it came from, although the docstring at
  `src/volume/zfs_operations.py:339-343` calls the order dependency-correct (`RecursiveDestroy.OrderedIff`,
  `Witnesses.SrStuck`).
- The grace period must exceed the two delays by a full second (`OrphanTiming.SafeIffLongEnough`).
- The frozen bitmap also has writes made after the snapshot, contrary to `src/volume/volume.py:1071-1073`.
  The next delta misses what was written between the ZFS snapshot and the re-enabling of `cbt-active`,
  unless it is written again in time (`QemuNode.FirstLife`, `QemuNode.UnsoundLife`).
- Deactivating and activating on the same qemu leaves tracking off (`QemuNode.Node.Bounce`), although
  `src/datapath/qemudisk_raw.py:913-923` expects it to go on.
- The NBD walk trusts that each reply covers its request; whatever no reply covers counts as clean
  (`NbdServer.ExactIff`, `ReferenceServer.ShortReplyLosesByte`).
- Of the NBD chunk types with bit 15 set, which all report errors, the client knows only 0x8001. After any
  other it takes what was asked about for clean (`EndToEnd.FetchOkIff`, `ReferenceServer.OtherErrorsMissed`).

## Model

| member | source | states |
|---|---|---|
| ZfsPool.PromoteKeepsValid | src/volume/zfs_operations.py:828-830 | promotion, which re-parents both sides, keeps holders existing, snapshot ages of a zvol distinct and every origin existing and older than its clone's snapshots |
| ZfsPool.PromoteAccepted | src/volume/zfs_operations.py:828-830 | in a well-formed pool promotion is accepted if and only if the zvol exists and is a clone |
| ZfsPool.OriginsFormForest | src/volume/volume.py:279-283 | no chain of origins in a well-formed pool returns to a zvol it has passed, and every chain runs over existing zvols |
| ZfsPool.ForestOverEveryRun | src/volume/volume.py:254-283 | the origin relation is a forest after any sequence of ZFS primitives, cut off anywhere |
| ZfsPool.SnapshotsImmutable | src/volume/zfs_operations.py:838-860 | over any run that does not destroy it, a snapshot survives with unchanged bytes, size and age |
| Promotion.OldestMovesAlone | src/volume/volume.py:261-281 | promoting the dependent of the oldest snapshot moves that snapshot and no other |
| Promotion.PromotionLoop | src/volume/volume.py:279-281 | for any number of snapshots and any choice of dependents, every promotion is accepted, each snapshot ends on the dependent chosen for it, all others stay, and the zvol holds nothing |
| Promotion.DestroyVolumeAccepted | src/volume/volume.py:254-283 | after the loop the destruction is accepted; every other zvol and every snapshot survives with its bytes |
| Promotion.DestroyAcceptedIffNoSnapshots | src/volume/zfs_operations.py:806-825 | without the loop ZFS accepts the destruction if and only if the zvol holds no snapshot |
| Promotion.PromoteAllKeepsData | src/volume/volume.py:279-281 | the loop changes nothing but origins and holders |
| SnapshotNames.IdsStayUnique | src/volume/zfs_operations.py:202-209 | over any run of commands on full names, promotion included, with a new uuid for each new snapshot, no two snapshots share the part after the at sign, and the pool is the one keyed by it |
| SnapshotNames.FoundByUuid | src/volume/zfs_operations.py:202-209 | going through all names below an SR for a uuid finds exactly the snapshot that goes by it |
| Metabase.HarmlessKeepsSound | src/volume/volume.py:193-285 | every primitive that takes nothing from a living row keeps all promises it does not break itself; in particular a clone in another SR breaks only the one that clones stay in the SR of their origin |
| Metabase.StepKeepsBacked | src/volume/zfs_operations.py:828-860 | every primitive keeps each snapshot VDI below its own SR, whatever SR clones are in, unless it promotes a clone in another SR |
| Metabase.PromoteKeepsSameSr | src/volume/zfs_operations.py:828-830 | promotion keeps clones and their origins within one SR |
| VolumeDriver.Host.Commit | src/volume/volume.py:102-121 | a commit makes the whole transaction durable or none of it, and is safe if every row in it is backed |
| VolumeDriver.Host.ListZvolSnapshots | src/volume/zfs_operations.py:212-214 | exactly the snapshots of the zvol, oldest first |
| VolumeDriver.Host.FindSnapshotClones | src/volume/zfs_operations.py:217-231 | exactly the zvols with that origin, the first by name in front |
| VolumeDriver.Host.FindSnapshotByUuid | src/volume/zfs_operations.py:202-209 | the unique current name of a snapshot below the SR, or none |
| VolumeDriver.Host.PickDependents | src/volume/volume.py:259-277 | for every snapshot its first clone by name, or a new one exactly where there was none; only a busy device stops it |
| VolumeDriver.Host.PromoteDependents | src/volume/volume.py:279-281 | the result is that of the promotion loop; stopping anywhere has lost no data |
| VolumeSpec.FreedMeans | src/volume/volume.py:254-282 | a zvol freed by the promotion loop holds no snapshot; each one it had sits on its first clone by name, or on one made for it, as large as it and thin, if it had none; all others stay, no data is lost and no clone is made without need |
| VolumeSpec.VolumeGoneMeans | src/volume/volume.py:254-283 | the same with the zvol destroyed: every other zvol and every snapshot is there with its bytes |
| VolumeDriver.Host.FreeOfSnapshots | src/volume/volume.py:254-282 | success is the freed pool just described, and a stop anywhere has lost nothing |
| VolumeDriver.Host.DestroyVolume | src/volume/volume.py:254-285 | of an existing zvol only a busy device or a failed commit stops it; unless only the commit failed, no zvol and no snapshot is lost, and in no case another VDI's; each clone made becomes a row of the parent's size; snapshots stay in their SRs if the first clones lie there, sizes stay right if no clone-less snapshot has another size |
| VolumeDriver.Host.DestroySnapshotVdi | src/volume/volume.py:204-253 | apart from busy devices and failed commits it goes through if and only if the snapshot is found, has no clone but its own, and that clone holds no snapshot; refused for another reason it changes nothing, and the VDI is not doomed |
| VolumeDriver.Host.RecoverVsize | src/volume/zfs_operations.py:1217-1229 | an unknown row size is read back from the zvol and put into the row |
| VolumeDriver.Host.Destroy | src/volume/volume.py:193-285 | the row goes only on success, all other rows stay, thick zvols stay exactly reserved; the VDI is doomed exactly if something of it has been destroyed |
| VolumeLaws.DestroyedRows | src/volume/volume.py:268-285 | no other VDI loses its row; each clone made becomes a VDI of its own with the size known for the one destroyed |
| VolumeSpec.RoundUpOfMultiple | src/volume/lzc.py:613-662 | the size is rounded up by less than a block, and not at all if and only if it is a multiple |
| VolumeDriver.Host.Create | src/volume/volume.py:54-136 | one new empty zvol with its row; thick reserves the requested size times copies; a thick request that does not fit is refused with nothing changed, any other stopped only by a busy device or a failed commit, logged as such |
| VolumeDriver.Host.MakeZvol | src/volume/zfs_operations.py:706-803 | the zvol with exactly the reservation asked for, or no data lost |
| VolumeDriver.Host.ImportExisting | src/volume/volume.py:138-191 | registers an existing, unregistered zvol at its actual size, and nothing else |
| VolumeLaws.CreatedMeans | src/volume/volume.py:54-136 | zeros in the fewest whole blocks that hold the size asked for, writable, with the size asked for times copies reserved, or nothing if thin |
| VolumeDriver.Host.Snapshot | src/volume/volume.py:410-490 | one new snapshot with the current bytes of the VDI, or of the parent of a snapshot VDI, one thin clone of it to which nothing can be written, and one row in the same SR with the size known for the VDI; nothing else changes; sizes stay right if that size is the one of the zvol snapshotted; of an existing zvol only a busy device or a failed commit, logged as such, stops it |
| VolumeLaws.SnapshotMeans | src/volume/volume.py:410-490 | the new VDI and its snapshot have the bytes and the size of the volume, or of the parent of a snapshot VDI; nothing can be written to it, nothing is reserved for it, and the snapshot is the youngest |
| VolumeDriver.Host.Clone | src/volume/volume.py:492-563 | in the same SR, a clone of the snapshot itself for a snapshot VDI, else of a snapshot taken on the spot, thick if the source is, and its row; nothing else changes; every crash state is sound; of an existing source only a busy device or a failed commit, logged as such, stops it |
| VolumeLaws.CloneMeans | src/volume/volume.py:492-563 | the clone has the bytes and size of the snapshot, or of the volume as it is, and can be written to; its volsize times copies is reserved exactly if the zvol it comes from is thick |
| VolumeDriver.Host.SyncThick | src/volume/zfs_operations.py:1014-1041 | the reservation becomes volsize times copies exactly if there was one, and is none otherwise; nothing else changes |
| VolumeDriver.Host.Resize | src/volume/volume.py:328-361 | in every state a crash can leave, the row size is unknown or right and the zvol as it was or set to the size asked for in whole blocks, thick if it was; it is refused as shrinking exactly for a size below the known one, and of an existing zvol otherwise stopped only by a busy device or a failed commit, logged as such; no claim that no byte is lost, which `RunLaws.ResizeKeepsBytesIff` settles |
| VolumeLaws.ResizeMeans | src/volume/volume.py:328-361 | an accepted resize gives the fewest whole blocks that hold the size asked for, bytes as they were or new and zero; the reservation is positive exactly if it was before and volsize times copies is, and then equals that product |
| VolumeDriver.Host.SetCopies | src/volume/volume.py:867-945 | values other than 1, 2, 3 are refused; setting and unsetting copies touch nothing but copies and reservation of the one zvol, and leave it exactly reserved if it is thick; only a busy device, logged as such, stops it |
| VolumeLaws.CopiesMeans | src/volume/volume.py:867-945 | the bytes stay; the reservation is positive exactly if it was before and volsize times copies is, and then equals that product |
| VolumeDriver.Host.DestroyOrphanZvols | src/volume/zfs_operations.py:1452-1501 | of the zvols listed exactly those stay that hold a snapshot, that ZFS answered busy for, or that under a grace period are younger than it or of unknown age |
| VolumeDriver.Host.DestroyOrphanSnapshots | src/volume/zfs_operations.py:1397-1449 | of the snapshots listed exactly those stay that have a clone, that ZFS answered busy for, or that under a grace period are younger than it or of unknown age |
| VolumeDriver.Host.FindOrphanZvols | src/volume/zfs_operations.py:1277-1324 | exactly the zvols of the SR without a row that are not in use |
| VolumeDriver.Host.FindOrphanSnapshots | src/volume/zfs_operations.py:1327-1394 | exactly the snapshots below the SR without a row whose zvol is not in use |
| VolumeDriver.Host.CleanUpOrphans | src/volume/sr.py:563-605 | only if enabled, and then only zvols and snapshots of this SR go that have no row, are not in use, hold no snapshot or have no clone, and under a grace period are known to be at least as old; and all of these go except those ZFS answered busy for; every crash state stays sound |
| VolumeLaws.CleanupMeans | src/volume/zfs_operations.py:1277-1501 | nothing of another SR, with a row, in use, with snapshots or clones that stay, or in its grace period, is lost to a cleanup; nothing at all if it is disabled |
| VolumeLaws.CleanupReaches | src/volume/zfs_operations.py:1397-1501 | whatever else is of this SR, without a row and not in use is gone afterwards, unless ZFS was busy for it |
| VolumeCopy.DropTransients | src/volume/volume.py:799-837 | both transient snapshots go, or the destination zvol stays whatever the rollback tries; one that stays has been busy in the second attempt too |
| VolumeCopy.AbandonReplica | src/volume/volume.py:782-797 | the destination goes if it holds no received snapshot and is not busy, the source snapshot unless busy; each is tried |
| VolumeCopy.CopyAcross | src/volume/volume.py:683-865 | success: the destination has the source's bytes at the transient snapshot and is reserved exactly if the source is thick, the source is unchanged and no transient snapshot is left in either pool; after failed replication both pools are as before if and only if both cleanup steps worked; however it ends, everything that was in either pool is there unchanged |
| VolumeCopy.CopyWithin | src/volume/volume.py:683-865 | to any SR of the pool; success: one snapshot, one clone of it, thick if the source is, and one row are added; replication fails only for a busy device, and is undone if and only if both cleanup steps worked; nothing that was there changes; every crash state is well formed and has every row backed in its own SR if that was promised before |
| VolumeCopy.UnforkTransient | src/volume/volume.py:782-797 | cleanup after a failed copy within a pool tries both: the clone stays only if ZFS was busy for it, and the snapshot only then or if busy itself |
| VolumeLaws.CopyWithinMeans | src/volume/volume.py:766-781 | the copy has the bytes and size of the source, can be written to, and has volsize times copies reserved exactly if the source is thick |
| VolumeLaws.CopyAcrossMeans | src/volume/volume.py:766-865 | the same on another pool, with no snapshot left there |
| Runs.Perform | src/volume/volume.py:51-960 | one operation goes through if and only if what it works on is there and what it asks for is allowed, mishaps apart; each failure of something possible has a mishap to show, and one reported as a busy device or a failed commit just that; its exact effect if accepted; if it fails, no row has come or gone, no other VDI has lost anything, and of its own VDI no more than one of its commands takes; which promises it can end |
| Runs.Drive | src/volume/volume.py:51-960 | over any run of operations, copies to other SRs included and each failing anywhere, told operation by operation with the mishaps met: between the operations every pool is well formed and every row has its zvol or snapshot unless a failed destruction has torn it; in every crash state, unless its destruction was begun; snapshots are found below their own SR as long as all copies stay in their SR or each destruction finds the first clones at home; recorded sizes are right as long as the sizes recorded fit |
| Runs.LuckyRun | src/volume/volume.py:51-960 | in a run that meets with no mishap exactly the possible operations are accepted |
| Runs.UndoneMeans | src/volume/volume.py:193-285 | a destruction tears a volume only if all it failed at was the commit, and a snapshot VDI only if it failed after its clone was gone |
| Runs.DriveBoth | src/volume/volume.py:683-865 | over any run of operations on two pools and copies between them, each failing anywhere: each pool goes through a trace of its own operations, in which a copy sends out a zvol on one side and takes in that zvol on the other with the same outcome; all that holds for the runs of one pool holds for both; without a mishap all that is possible is accepted |
| Runs.SameSrKeepsHome | src/volume/volume.py:261-281 | while clones stay in the SR of their origin, no destruction can take a snapshot elsewhere |
| RunLaws.ResizeKeepsBytesIff | src/volume/volume.py:328-361 | all sizes the driver accepts for a zvol keep its bytes if and only if the recorded size is unknown or, in whole blocks, not below the size of the zvol |
| RunLaws.ResizeRun | src/volume/volume.py:328-361 | over any sequence of resizes failing anywhere, the size recorded in every crash state is right or unknown and recovered rightly; if the recorded size covered the zvol at the start, no crash state has a smaller zvol or lacks a byte |
| Witnesses.ResizeTruncates | src/volume/volume.py:328-361 | a run of accepted operations in which a clone of a snapshot of a snapshot VDI is resized to a smaller size and loses the end of its data |
| RunLaws.OrphanedSnapshotStuck | src/volume/volume.py:249-253 | a snapshot VDI whose only clone is its own cannot be destroyed once its parent has been |
| Witnesses.SnapshotStuck | src/volume/volume.py:249-253 | create, snapshot, destroy: a run after which the snapshot VDI cannot be destroyed |
| RunLaws.SizesRightIff | src/volume/volume.py:410-563 | an accepted operation leaves all recorded sizes right if and only if the sizes it records fit: for a snapshot that of the zvol snapshotted, for a clone or copy that of its source, for a destruction that of every clone-less snapshot |
| RunLaws.DestroyedSizesIff | src/volume/volume.py:268-276 | the recorded sizes are right after a destruction if and only if no clone-less snapshot is of another size than the VDI |
| RunLaws.AcrossFitsIff | src/volume/volume.py:839-865 | a copy from another pool is recorded with the right size if and only if the size known for its source is right |
| RunLaws.AllDone | src/volume/volume.py:51-960 | a run driven without a failure is an accepted run through well-formed pools, which the results over runs are about |
| RunLaws.SizesOverRunIff | src/volume/volume.py:51-960 | over an accepted run recorded sizes are right throughout if and only if every operation records sizes that fit |
| Witnesses.HeirMiscounted | src/volume/volume.py:268-276 | clone, destroy the clone, resize, destroy: a run after which a VDI is recorded larger than its zvol |
| RunLaws.ThickOverRun | src/volume/zfs_operations.py:1014-1041 | after any run, whatever failed, every zvol has nothing reserved or exactly volsize times copies, except those in `Loose` |
| RunLaws.LooseMeans | src/volume/zfs_operations.py:1014-1041 | a zvol is in `Loose` only if its reservation did not fit at the start, or it was made thick of a broken number of blocks, arrived unfit, or an operation on it was stopped by ZFS |
| ZvolRuns.ThickStaysThick | src/volume/zfs_operations.py:1014-1041 | over any run, failures included, a thin zvol never becomes thick; as long as it has bytes and copies to reserve for, a zvol is thick at the end if and only if it was at the start |
| ZvolRuns.ZvolAfter | src/volume/volume.py:51-960 | over any operation, accepted or failed: the bytes of a zvol change only by a resize of it or a guest that may write; size, copies and reservation only by resizing it or setting its copies; a reservation only if there is one, to volsize times copies |
| ZvolRuns.SnapshotVdiStays | src/volume/volume.py:444-456 | once a snapshot VDI is made, over any further run with guest writes to it, its zvol has the bytes the volume had at the snapshot, and nothing can be written to it, until it goes or a resize of it is asked for |
| ZvolRuns.SnapshotStays | src/volume/zfs_operations.py:838-860 | over any run, failures included, a snapshot that is still there has its bytes, size and age |
| ZvolRuns.GoneOnlyBy | src/volume/volume.py:193-285 | whatever is done, accepted or failed: a zvol goes only by destroying it or as an orphan, a snapshot only with its snapshot VDI or as an orphan, a row only when its VDI has been destroyed |
| RunLaws.NeverLoose | src/volume/zfs_operations.py:1014-1041 | if everything asked for fits and nothing is stopped by ZFS, every zvol has nothing reserved or exactly volsize times copies |
| RunLaws.ThickCreateExactIff | src/volume/zfs_operations.py:795-803 | the size asked for times copies is the volsize times copies if and only if the size asked for is a multiple of the block size |
| RunLaws.HomeIff | src/volume/volume.py:261-281 | an accepted operation leaves every VDI backed in its own SR if and only if it is no destruction of a volume holding the snapshot of a VDI whose first clone by name lies in another SR |
| RunLaws.HomesOverRunIff | src/volume/volume.py:261-281 | over an accepted run every VDI is backed in its own SR throughout if and only if there is no such destruction |
| RunLaws.CleanupKeepsIff | src/volume/zfs_operations.py:1327-1449 | whatever a cleanup of an SR destroys of what it may, every VDI keeps its zvol or snapshot if and only if no snapshot VDI of another SR has its snapshot there with no clone that stays |
| RunLaws.RarelyExposed | src/volume/volume.py:444-456 | no cleanup endangers a snapshot VDI that has a clone of its own or is backed in its own SR |
| Witnesses.OldSnapshotSwept | src/volume/zfs_operations.py:1397-1449 | a run from a snapshot VDI without a clone of its own after which a cleanup of another SR has destroyed its snapshot |
| Witnesses.SnapshotLostToOtherSr | src/volume/volume.py:774-780 | a run of accepted operations with a same-pool copy to another SR after which a snapshot VDI cannot be found in its own SR |
| RecursiveDestroy.Walk.DestroyWithRetry | src/volume/lzc.py:426-451 | it returns the last answer, all before it were busy; busy is returned only after all attempts, each of them in the log |
| RecursiveDestroy.Walk.Destroy | src/volume/zfs_operations.py:332-392 | success removes exactly the listed nodes, passing over those already gone; after a failure the survivors are a prefix of the listing, ending with the node failed at; it fails only on a node that answered busy ten times in a row, on a root that could not be unmounted when its turn came, or because some node is not listed before all that block it |
| RecursiveDestroy.OrderedIff | src/volume/zfs_operations.py:339-343 | the listing of an SR is in order if and only if no clone hangs off it from outside and every clone sorts behind the zvol it came from |
| RecursiveDestroy.DestroySr | src/volume/sr.py:414-440 | success removes exactly the SR's nodes and is possible only under that condition; under it, it fails only on a node that answered busy ten times in a row, or on unmounting when only the file system of the SR is left |
| Witnesses.SrStuck | src/volume/zfs_operations.py:339-343 | create and snapshot: a run after which the listing of the SR is not in order |
| OrphanTiming.RunKeepsInv | src/volume/sr.py:558-605 | over any interleaving of listings and operations, a destroyed object has no row and is too old to get one, if the grace period is long enough |
| OrphanTiming.SafeIffLongEnough | src/volume/zfs_operations.py:1452-1501 | no interleaving destroys an object that backs or will back a VDI if and only if the grace period is positive and exceeds the commit delay plus the scan time by a full second |
| OrphanTiming.DriverWaits | src/volume/zfs_operations.py:1473-1490 | the cleanup of the driver destroys a zvol only if the state machine lets it |
| ChangedBlocks.SpanIsRoundedOutward | src/volume/volume.py:1165-1180 | the span contains the requested bytes and nothing a whole block away |
| ChangedBlocks.SetBits | src/volume/volume.py:1195-1199 | sets the bits from first to last, most significant first, and no other |
| ChangedBlocks.PackExtents | src/volume/volume.py:1165-1201 | a bit is set if and only if its block overlaps an extent, padding is clear, the length is the ceiling of blocks over eight |
| ChangedBlocks.TouchedIffByteDirty | src/volume/volume.py:1182-1199 | a block is touched if and only if one of its bytes is dirty |
| ChangedBlocks.DirtyByteHasBit | src/volume/volume.py:1165-1201 | every dirty byte of the requested range has its bit where a reader looks for it |
| ChangedBlocks.PackedIsFunctionOfUnion | src/volume/volume.py:664-676 | splitting, reordering or overlapping extents changes nothing |
| ChangedBlocks.WindowsAgree | src/volume/volume.py:1165-1180 | two requested windows agree on every block both cover |
| ChangedBlocks.CoarseIffSomeFine | src/volume/volume.py:1131-1162 | at a multiple of the granularity a block is set if and only if one of its parts would be |
| ChangedBlocks.ExtractDirtyExtents | src/datapath/cbt_consumer.py:75-114 | exactly the bitmaps whose fetch works are reported, each with its own extents |
| ChangedBlocks.ResolveGranularity | src/volume/volume.py:1131-1162 | the largest granularity recorded, or the default if none is |
| ChangedBlocks.EmptyResult | src/volume/volume.py:1115-1128 | the packed form of no extents |
| ChangedBlocks.ListChangedBlocks | src/volume/volume.py:576-681 | the packed form of the union of everything fetched; all clear at the default granularity if the state cannot be read |
| NbdWire.OptionReplyRoundTrip | src/datapath/nbd_client.py:122-129 | an option reply followed by anything reads back, with the rest untouched |
| NbdWire.ChunkRoundTrip | src/datapath/nbd_client.py:227-243 | a structured chunk followed by anything reads back, with the rest untouched |
| NbdWire.DescriptorsRoundTrip | src/datapath/nbd_client.py:277-285 | a list of extent descriptors reads back |
| NbdWire.RequestRoundTrip | src/datapath/nbd_client.py:220-224 | a server reads back the request the client meant |
| NbdWire.BigEndian | src/datapath/nbd_client.py:102-129 | the first byte of a number counts most |
| NbdWire.OptionReplyExact | src/datapath/nbd_client.py:122-129 | whatever is read as an option reply is one, followed by the rest |
| NbdWire.ChunkExact | src/datapath/nbd_client.py:227-243 | whatever is read as a chunk is one with the handle expected, followed by the rest |
| NbdWire.DescriptorsExact | src/datapath/nbd_client.py:277-285 | whole descriptors are read, one for every eight bytes, and write back to the same bytes |
| NbdClient.Socket.RecvExact | src/datapath/nbd_client.py:83-92 | exactly the next n bytes however fragmented, an error if and only if fewer are left |
| NbdClient.Socket.Handshake | src/datapath/nbd_client.py:102-112 | agrees with the stream function; the client flags are sent only after both magics |
| NbdClient.Socket.OptSetMetaContext | src/datapath/nbd_client.py:143-177 | agrees with the stream function, error for error, for any fragmentation; sends exactly the option, of which `NbdServer.SetMetaContextRoundTrip` says how it is understood |
| NbdClient.Socket.OptGo | src/datapath/nbd_client.py:180-212 | agrees with the stream function, error for error, for any fragmentation; sends exactly the option, of which `NbdServer.GoRoundTrip` says how it is understood |
| NbdClient.Socket.RecvReply | src/datapath/nbd_client.py:227-285 | the descriptors of all chunks up to DONE, placed end to end from the request's offset; the error of the first chunk that is not acceptable |
| NbdClient.Socket.WalkBlockStatus | src/datapath/nbd_client.py:253-288 | agrees with the stream function for any size and chunk size, terminates, and sends the planned requests in order |
| NbdClient.Socket.FetchDirtyExtents | src/datapath/nbd_client.py:294-343 | agrees with the stream function of the whole conversation and sends exactly the negotiation and the requests |
| NbdServer.HelloDecodes | src/datapath/nbd_client.py:102-112 | a handshake reads back, with the rest untouched |
| NbdServer.MetaContextDecodes | src/datapath/nbd_client.py:159-177 | after any interim replies and the ACK the last context id announced is taken, or its absence reported |
| NbdServer.GoDecodes | src/datapath/nbd_client.py:196-212 | after any interim replies and the ACK the last export size announced is taken, or its absence reported |
| NbdServer.LastIdMeans | src/datapath/nbd_client.py:165-174 | the id taken is the one in the last reply that announces one |
| NbdServer.LastSizeMeans | src/datapath/nbd_client.py:199-207 | the size taken is the one in the last INFO reply of type EXPORT with at least 12 bytes |
| NbdServer.MetaContextExact | src/datapath/nbd_client.py:159-177 | an id is taken only after replies to this option, none an error, one announcing it, and the ACK |
| NbdServer.GoExact | src/datapath/nbd_client.py:196-212 | a size is taken only after replies to this option, none an error, one telling it, and the ACK |
| NbdServer.SetMetaContextRoundTrip | src/datapath/nbd_client.py:152-157 | a server that reads the option gets back the export and exactly the one context |
| NbdServer.GoRoundTrip | src/datapath/nbd_client.py:189-194 | a server that reads the option gets back the export |
| NbdServer.NegotiatingRoundTrip | src/datapath/nbd_client.py:326-332 | a server that reads all the client says gets the options in the order demanded, the context of that export, and the export |
| NbdServer.ReplyDecodes | src/datapath/nbd_client.py:227-243 | a reply is read to its DONE chunk and no further, and yields its descriptors in order |
| NbdServer.NoneEndsReply | src/datapath/nbd_client.py:227-243 | a last chunk of type 0 marked DONE ends a reply and adds nothing |
| NbdServer.DescriptorsWritten | src/datapath/nbd_client.py:264-285 | the descriptors taken are those written in the BLOCK_STATUS chunks for the context, in order, and no others |
| NbdServer.ReplyExact | src/datapath/nbd_client.py:227-243 | only chunks with the handle of the request, all acceptable, the last one and no other marked DONE, are taken for a reply |
| NbdServer.WalkDecodes | src/datapath/nbd_client.py:253-288 | a walk over a conforming server's replies consumes exactly their bytes and places each reply at its request |
| NbdServer.WalkOkIff | src/datapath/nbd_client.py:253-288 | with every request answered, the walk goes through if and only if every chunk is acceptable: not of type 0x8001, and in BLOCK_STATUS chunks an id and, for the context, whole descriptors |
| NbdServer.RequestsTile | src/datapath/nbd_client.py:261-288 | the requests tile the export without gap or overlap, with consecutive handles |
| NbdServer.ExactIff | src/datapath/nbd_client.py:287-288 | with accurate replies the result is exact if and only if no dirty byte is left uncovered by all of them |
| NbdServer.CoveringReachesAll | src/datapath/nbd_client.py:261-288 | replies that each cover their request together reach every byte |
| Tracking.DeltaSoundIff | src/volume/volume.py:576-681 | a delta is sound for all contents and all data written if and only if its blocks include every block written in between |
| Tracking.HearingConserves | src/datapath/qemudisk_raw.py:594-610 | a write is added to the union of the driver's bitmaps if and only if one of them records |
| Tracking.ClearingConservesIff | src/datapath/qemudisk_raw.py:564-577 | clearing a bitmap loses no bit of the union if and only if the others have them all |
| QemuNode.Node.Guest | src/datapath/qemudisk_raw.py:594-610 | in a turn of the guest its writes are missed only while no driver-owned bitmap records, and `cbt-active` holds them exactly if it records |
| QemuNode.Node.MergeAndClear | src/volume/volume.py:1077-1078 | the clear drops no bit not already merged, with the guest writing in between; the new bitmap has exactly what `cbt-active` had and what was written meanwhile |
| QemuNode.Node.Swap | src/volume/volume.py:1075-1082 | the frozen bitmap gets exactly what `cbt-active` had and what is written from its creation on; only writes between steps 1 and 2 can be missed |
| QemuNode.Node.Export | src/datapath/qemudisk_raw.py:848-903 | the bitmap is stopped and keeps its bits; the guest goes on writing to the others |
| QemuNode.Node.Capture | src/volume/volume.py:991-1098 | frozen bitmaps and `cbt-active` together stay exactly the writes heard; failing at any step loses no bit already held; if it goes through, the frozen bitmap has exactly the blocks `cbt-active` had at the ZFS snapshot and those written before it was stopped or from the creation of the new bitmap until that was stopped |
| QemuNode.Node.Snapshot | src/volume/volume.py:449-475 | the record has the content of the ZFS snapshot, the writes since the one before, and exactly the writes the persisted bitmap has heard of; afterwards `cbt-active` has exactly what was written after it was switched on again; if all commands work the bitmap is persisted |
| QemuNode.Node.Deactivate | src/datapath/datapath.py:996-1084 | a saved `cbt-active` has been stopped, with its bits; with working commands an existing one is saved |
| QemuNode.Node.Activate | src/datapath/qemudisk_raw.py:905-982 | tracking runs afterwards if and only if it did before, or the bitmap was missing or of another granularity; it goes through if a bitmap of the saved granularity is there or commands work |
| QemuNode.Node.Bounce | src/datapath/datapath.py:996-1178 | deactivating and activating on the same qemu leaves tracking off whenever the deactivation saves something, which it does with working commands |
| QemuNode.Live | src/volume/volume.py:1075-1098 | over any life of the node, enabling included and told operation by operation: every persisted bitmap can be read at the end, and its delta is sound, whatever the data, if and only if it heard of every block written in between; steady tracking guarantees that |
| QemuNode.NextRecord | src/volume/volume.py:1075-1098 | in any life, for two captured snapshots with only guest writes between them: exactly what the second bitmap has heard of, turn by turn |
| QemuNode.ToldIffLateAgain | src/volume/volume.py:1075-1098 | it has heard of every block written in between if and only if each block written in the five turns from the first ZFS snapshot to the restart of `cbt-active` was written again before the second snapshot or in time for its bitmap |
| QemuNode.FirstLife | src/datapath/qemudisk_raw.py:522-528 | enable, write, snapshot, write, snapshot, with working commands: both bitmaps are persisted, the blocks of the second are told exactly, and its delta is sound for all data if and only if the blocks written late at the first snapshot were written again in time |
| QemuNode.UnsoundLife | src/volume/volume.py:1071-1073 | such a life in which the guest writes one byte right after the first snapshot: the snapshots differ and the persisted bitmap is empty |
| QemuNode.DeltaOfRecords | src/volume/volume.py:576-681 | the delta between consecutive snapshots, read at any later time, is sound for all data if and only if the persisted bitmap heard of every block written in between |
| EndToEnd.ConversationDecodes | src/datapath/nbd_client.py:322-338 | a conforming conversation is read to its last byte and not beyond, and yields the placed statuses of value 1 |
| EndToEnd.AcceptedIff | src/datapath/nbd_client.py:294-343 | for any bytes received: the client gets a result if and only if they begin with a conforming conversation |
| EndToEnd.FetchOkIff | src/datapath/nbd_client.py:253-288 | with the negotiation done and every request answered, it gets one if and only if every chunk is acceptable |
| EndToEnd.ErrorChunkReported | src/datapath/nbd_client.py:268-272 | a chunk of type 0x8001 in any answer makes the whole fetch fail, whatever the other chunks are |
| EndToEnd.RequestsUnderstood | src/datapath/nbd_client.py:220-224 | every request of a walk over an export of any size fits the wire and is read back by the server |
| EndToEnd.FetchBitmap | src/datapath/nbd_client.py:294-343 | however the socket fragments, exactly the dirty bytes of the bitmap |
| ReferenceServer.EveryBitmapServed | src/datapath/nbd_client.py:294-343 | for every bitmap and export size there is a conforming conversation that serves it in full |
| ReferenceServer.BitmapRoundTrip | src/datapath/nbd_client.py:294-343 | bitmap to bytes to extents and back: the client recovers exactly the bitmap served |
| ReferenceServer.ShortReplyLosesByte | src/datapath/nbd_client.py:287-288 | a truthful server whose reply ends early: the client takes a dirty byte for clean |
| ReferenceServer.OtherErrorsMissed | src/datapath/nbd_client.py:266-276 | a single chunk of any error type but 0x8001 is taken for a clean export, although all of it is dirty |
| EndToEnd.SoundDeltaIsReported | src/volume/volume.py:664-681 | the report of a sound delta has the bit of every byte that differs, and within the export no bit without an overlapping dirty block |
| EndToEnd.ChangedBetween | src/volume/volume.py:576-681 | through bitmap, stream and packing, every byte of the window that differs between two consecutive snapshots has its bit |
| DaemonRegistry.Registry.AtMostOneDaemon | src/datapath/datapath.py:677-724 | each device has at most one live daemon, those apart that outlive a kill or could not be saved, and it is registered |
| DaemonRegistry.Registry.Reap | src/datapath/qemudisk_raw.py:1027-1076 | the entry goes, and its daemon exactly if it does not outlive the kill |
| DaemonRegistry.Registry.CollectOrphans | src/datapath/datapath.py:585-674 | exactly the entries of other devices with a dead daemon or a vanished device go; no daemon in use and not that of the current device is reaped |
| DaemonRegistry.Registry.EnsureDaemon | src/datapath/datapath.py:677-724 | a live daemon of the device is reused; else a new one is registered, exactly if it starts and can be saved; of the other entries exactly those in use are left |
| DaemonRegistry.Registry.AttachDevice | src/datapath/datapath.py:201-294 | for a device that exists, its live daemon or exactly if that can be started and saved a new one; nothing touched for one that does not exist |
| DaemonRegistry.Registry.ImportActivateDevice | src/datapath/datapath.py:487-582 | for a device that exists, its live daemon or exactly if that can be started and saved a new one; daemons in use by others stay |
| DaemonRegistry.Registry.Release | src/datapath/datapath.py:394-432 | no daemon of the device is left unless it outlives a kill or was never saved; daemons in use by others stay |
| DaemonRegistry.Serve | src/datapath/datapath.py:201-582 | over any run of lifecycle calls, with daemons dying and devices coming and going, told call by call: of the daemons that heed a kill and can be saved, every running one is registered and no device has two; only the others can leak |
| DaemonRegistry.AttachMeans | src/datapath/datapath.py:585-724 | in any such run, after attaching a device that exists exactly those entries of other devices are left whose daemon is alive and whose device exists; the device has the daemon it had if that was alive, else a new one exactly if that starts and can be saved |
| DaemonRegistry.StaysInUse | src/datapath/datapath.py:585-724 | in any such run a daemon in use stays the one daemon of its device until it is released or dies or the device vanishes |

## Left out

- Runs.Drive: snapshot VDIs of older driver revisions, which have no clone of their own, are covered only while all copies stay within their SR, because otherwise the claim is false (`Witnesses.OldSnapshotSwept`); `RunLaws.CleanupKeepsIff` says when exactly a cleanup is safe.
- VolumeDriver.Host.Resize: does not promise that no byte is lost, because the code does not; `RunLaws.ResizeKeepsBytesIff` says when.
- VolumeDriver.Host.CleanUpOrphans: which objects look in use and how old they are is given; `OrphanTiming` models the race of a scan with operations.
- SnapshotNames.IdsStayUnique: writes and property changes, which touch no name, are not among its commands.
- QemuNode.Node.Activate: with a saved granularity other than the node's the old bitmap is dropped, and conservation is claimed only for the same granularity.
- EndToEnd.ChangedBetween: one persisted bitmap per snapshot, as the capture writes it; a fetch that fails is reported as no change, as in the source.
- DaemonRegistry.Serve: the proxy process of `import_activate` is only whether it runs; corrupt metadata entries are not modelled.
- RecursiveDestroy.DestroySr: datasets below the SR's own and the `zfs destroy -r` fallback are not modelled.
- Persisted bitmap payloads hold the address of a live export, not extents; nothing is claimed once the qemu is gone.
- The metadata files themselves: pickling, renaming on migration, removal when a VDI is destroyed.
- The volume-tree callback of the metabase library, custom keys, names and descriptions of VDIs.
- The size recovery of all rows in `SR.ls`, and the adoption loop of `SR.create`, which repeat `RecoverVsize` and `ImportExisting` row by row.
- Refusal of destinations that are no SR of this driver, and the cross-host copy behind SSH.
- Socket timeouts: they end the stream like a closed connection.
- Bytes written by a guest are kept by whole-content replacement in the pool model; single writes are in `Tracking`.
- Base64, JSON, hashing, process spawning, library loading, cgroups, mirror commands and logging.
- SR probing, capability summaries, ZFS feature detection and property whitelists other than `copies`.
