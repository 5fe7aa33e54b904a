# Zerith: deployments, the object store, and what a crash leaves

A Dafny 4.11 model of two linked parts of Zerith: the life of a deployment on an installed host (install, stage,
promote, rollback, gc, under the deploy lock) and the content-addressed object store it rests on (the published
pack and its index, the gate that checks them, the missing set, coalesced range requests, landing, holders, the
sweep). Verify it with

    dafny verify dfyconfig.toml

## How it is modelled

**The disk** (`Filesystem.dfy`) has three role links and their temporaries, the ESP's UKIs, its loader and their
temporaries, the deployment directories (`root.cfs` and its seal, the holder, the UKI, the loader), and the shared
store: names, inodes, link counts, seals. Link counts are kept by the operations, as a kernel keeps them; that a
count is one plus the number of holders is a theorem.

**Nineteen atomic operations** change it: mkdir, write a temporary, rename into the store, seal, link, copy, rmtree,
unlink, the steps of a symlink switch, the steps of an ESP copy. A **plan** is the sequence of operations a
function of the source issues from a given disk, with whether it returns or dies (`Objects`, `Transfer`,
`Lifecycle`). A crash, a kill, a full disk or a failing tool is a prefix of a plan, so "after every operation" and
"stopped anywhere" are the same quantifier: every `k` up to the plan's length.

**The imperative form** (`Host.dfy`) is a class whose methods follow the source statement by statement, with its
loops, counters and early exits, change the disk one operation at a time and journal each one. Every method is
proved to carry out exactly its plan, with the same outcome, from every disk. What is proved of plans is therefore
proved of the methods, at their end and at every point on the way. The other loops of the source are methods too:
`CoalesceRanges`, `ParseIndex`, `LoadIndex`, `Verify`, `AwkIndex`, `MissingObjects`. Every lemma carries
`{:induction false}`, so that each proof is the one written down.

**What a command is for** is said twice: by its plan, and, in `Outcomes.dfy`, of the disk alone: exactly when it returns,
what it leaves when it does, and what when it dies. Plan and method are proved to keep to that from every disk that
satisfies the invariant below. `Landings.dfy` does the same for the landing of objects, `Progress.dfy` for the lock: that
whoever waits gets it, and that every serial order of the commands is one that happens.

**Three facts the code relies on and nowhere states** carry the proofs.

- `Inv`: inodes are not shared by two names; every holder entry is a link to the object of that name; link count is one
  plus holders; every digest-named entry measures to its name; and the UKI is a commit marker: a directory that has
  one is finished. `Permits` is the discipline, operation by operation, that keeps it, and under which no link is made
  over another and nothing is renamed or unlinked that is not there; every command keeps the discipline, so `Inv` holds
  after every operation of every interrupted history.
- `EspSafe`: each UKI on the ESP names a deployment that is complete and held by some role. Boot reads the ESP, gc
  reads the roles, objects live by link counts; this is what keeps the three in step.
- `Consistent`: between commands, the ESP's current and fallback are the current and fallback roles, and differ.

## What was found

The central promises hold as stated in the table below. Six things one might expect do not hold; the code was
modelled as it is, each has a concrete run in `Counterexamples.dfy` and an exact condition elsewhere.

1. *A crash inside a promotion is safe to boot from, and to gc after, but not to deploy after.* `promote` takes the
   old id from the role (`zerith/lifecycle.py:138`) and the old image from the ESP (`zerith/lifecycle.py:150`). If it
   stops after `current.efi` has been renamed and before the `current` role has been (`Stranded.WindowIsExact`), only
   `staging` names what the current entry names, and the next deploy, of a third image, takes that mark for its own
   (`zerith/lifecycle.py:129`). From its mark on a gc removes the deployment the *current* entry names; two operations
   further both entries name it, and after a gc nothing boots until the third image is on the ESP. It takes no second
   crash: a deploy of a wedged image (finding 4) marks it and dies. A deploy that finishes leaves a fallback
   entry whose directory its own gc has removed; the deploy after that puts it right. Nothing is lost before the mark, or
   when the deploy is of the image on the ESP, or as long as the fallback role happens to name that image. A deploy of the
   image the role names finds it up to date, whatever the ESP names (`Outcomes.DeployNames`).
   `Recovery.NextDeployStopped`, `Recovery.NextDeployStoppedThenGc`, `Wedge.DyingDeployStrands` for a deploy that stops
   or dies; `Stranded.ThirdDeployExactly`, `Stranded.SecondDeployHeals` for one that finishes;
   `Recovery.RollbackAfterPromotion` for a rollback instead.
2. *A rollback stopped between its two role flips* leaves the demoted image held by no role; the next gc removes it
   while the fallback entry still names it. The current entry is never at risk. `Rollbacks.RollbackSafeExactly`. A
   deploy, instead of a gc, makes such a stop good once it has replaced the fallback entry, and strands that entry after
   an earlier stop, from when it moves the fallback role: `Recovery.NextDeployAfterRollback`,
   `Stranded.DeployAfterRollbackExactly`.
3. *An object is renamed into the store before it is sealed* (`zerith/objects.py:53-54`). A stop in between leaves one
   unsealed object. Nothing holds it yet, so what boots still mounts, and one gc removes it. Without a gc, the next
   deploy, of the same image or another, skips the object, and the new current deployment can be mounted if and
   only if its image does not need it.
   `Sealing.SealedExactly`, `Sealing.CrashedDeployMounts`, `Sealing.GcHealsSeals`, `Unsealed.RedeployExactly`.
4. *`stage` reuses a deployment that has a `root.cfs`; `promote` wants the UKI.* A build that stops (or dies on a
   digest mismatch) in between wedges the id: every retry marks it `staging` and dies, and gc keeps what is marked.
   A gc before the first retry helps, and so does a deploy of another image. `Wedge.WedgedExactly`,
   `Wedge.StuckForGood`, `Wedge.GcFirstExactly`, `Wedge.OtherDeployFrees`.
5. *The order in which fetches complete is irrelevant only to a landing that returns.* Whether it returns does not
   depend on the order either. But when every fetch succeeds and an object in one of them is bad, `place_object` dies
   in the middle of the loop (`zerith/objects.py:50-51`), and what has been placed by then depends on the order, if and
   only if there are two ranges or more and some response begins with a good object. `Transfer.LandRangesReturn`,
   `Transfer.CompletionOrderIrrelevant`, `Completion.OrderMattersExactly`.

6. *An installation that stopped is in its own way.* It refuses an id whose directory exists
   (`zerith/installer.py:41-42`), so from its first operation on every further try dies, until a gc removes the
   directory, which it does if and only if no role names it. If it stopped between its ESP write and its role link,
   nothing holds what the current entry names, and that gc takes it. `Reinstall.SecondInstallDies`,
   `Reinstall.StoppedInstallExactly`, `Reinstall.GcAfterStoppedInstall`.

Where documentation and code differ, the model follows the code: `docs/deployment.md:53-54` calls staging an image
already on disk a no-op reuse, which finding 4 qualifies; `docs/deployment.md:57-59` calls the ESP order crash-safe, which
finding 1 qualifies; `zerith/config.py:59` says a gap of 0 disables coalescing, yet with gap 0 adjacent and overlapping
entries are still merged: nothing is merged if and only if each entry starts more than the gap after the end of each
earlier one (`Coalesce.NothingMergedExactly`, for every gap). The gate's count check does not mean full coverage: an
accepted index names the whole store if and only if it repeats no digest (`Pack.CoverageExactly`, and in the contract of
`Pack.Verify`; `Pack.RepeatedDigestFoolsCount` is such an index). That a first install is one whole-pack range
(`zerith/installer.py:44-45`) holds where its image refers to all that is published (`Transfer.FreshInstallIsOneRange`).

## Assumptions

- The operations listed are atomic; in particular removing a deployment directory and copying a single file are.
- The fs-verity measure, the references and inlined objects of a `root.cfs`, and directory listings are arbitrary
  functions (`Tools`); a listing lists what is there, a directory's each name once, and a reference set has no repetitions
  (`ToolsOk`).
- A UKI names its own deployment id and digest (`scripts/ci/build-uki-in-container.sh:43`), an id is a plain name, and every
  reference that is not inlined is in the source's index or tree (`SourceOk`).
- Published objects have 64-digit hexadecimal names, non-empty contents, and measure to their names (`Published`); the gap
  is any natural number (`zerith/config.py:60`).
- A range response is any byte string; where exactness matters it is the slice of the pack with inclusive ends, as in
  section 14.1.2 of RFC 9110.
- What an entry of the boot menu must fulfil is what `init:47-79` demands: `Safety.Boots` is all of it but the seals of
  the objects, `Sealing.Mounts` is all of it.

## Model

| member | source | states |
|---|---|---|
| IndexText.ParseIndex | zerith/objects.py:135-143 | the pass that fills the dict computes the last entry for each digest of the text, and dies on exactly the texts with a malformed line |
| IndexText.LoadIndex | scripts/ci/verify-pack.py:27-36 | the gate's pass gives all entries in order, skipping blank lines, and dies on exactly the texts with a malformed line |
| IndexText.PrintedIndexRoundTrips | scripts/ci/pack-objects.sh:29-30 | the text of every index, with decimal numbers of any size, is read back entry for entry by both parsers |
| IndexText.ParsersDifferOnlyOnBlankLines | scripts/ci/verify-pack.py:31-33 | where line breaks are newlines, the host parser is the gate's, except that it dies when there is a line of white space |
| Pack.LayoutLocates | scripts/ci/pack-objects.sh:28-30 | every indexed object lies at its offset in the pack, byte for byte |
| Pack.PassesIffRebuilds | scripts/ci/verify-pack.py:46-68 | the pass plus the size check accepts a pack if and only if it is the concatenation of the store's contents in index order with prefix-sum offsets: no earlier read was short |
| Pack.Verify | scripts/ci/verify-pack.py:39-80 | the exit code is 0 if and only if the pack is that concatenation and the index is as long as the store; for distinct digests that means it names exactly the store, and an accepted index does so only then |
| Pack.AcceptedCoversStore | scripts/ci/verify-pack.py:69-72 | with distinct digests that are all stored, equal counts mean full coverage, both ways |
| Pack.CoverageExactly | scripts/ci/verify-pack.py:69-72 | an index of stored digests that passes the count check names the whole store if and only if it repeats none |
| Pack.RepeatedDigestFoolsCount | scripts/ci/verify-pack.py:69-72 | and there is one that does not: an accepted index with a repeated digest that misses an object |
| Pack.AwkIndex | scripts/ci/pack-objects.sh:29-30 | the awk pass prints each line's digest, running offset and size |
| Pack.LineOrderIsDigestOrder | scripts/ci/pack-objects.sh:20-21 | sorting the listed lines by bytes is sorting by digest |
| Pack.SortedLines | scripts/ci/pack-objects.sh:27 | the sorted listing is the listing of the sorted digests |
| Pack.ProducerIsCanonical | scripts/ci/pack-objects.sh:21-23 | pack and index depend on the object set alone, not on the order in which find meets it |
| Pack.ProducerPasses | scripts/ci/pack-objects.sh:24-30 | in every enumeration order the two outputs are the concatenation and the prefix-sum layout of the sorted digests, both parsers read the layout back, and the gate's condition holds |
| Coalesce.CoalesceRanges | zerith/objects.py:146-169 | the loop gives the ranges of the specification; on a sorted list they flatten back to it and are more than the gap apart |
| Coalesce.CoalesceLossless | zerith/objects.py:146-169 | flattening the ranges, start plus relative offset, gives back the list in order, for every list |
| Coalesce.CoalescePartitions | zerith/objects.py:146-169 | every object lies inside its range even where entries overlap or nest, both ends of a range are wanted, no unwanted run longer than the gap is bridged, neighbours are more than the gap apart |
| Coalesce.CoalescedServes | zerith/objects.py:146-169 | the output covers all wanted bytes and bridges no unwanted run longer than the gap |
| Coalesce.CoalescingIsOptimal | zerith/objects.py:148-153 | any family of intervals that does so has at least as many members |
| Coalesce.FetchedBytesBounded | zerith/objects.py:286-287 | the bytes fetched are at least the distinct wanted bytes and at most the wanted lengths plus the gap for each merge |
| Coalesce.NeverMoreThanThePack | zerith/objects.py:286-287 | and at most the pack's size, when the index stays inside the pack, with empty objects in it or without |
| Coalesce.NothingMergedExactly | zerith/objects.py:161-166 | as many ranges as entries if and only if each entry starts more than the gap after the end of each earlier one, for every gap, 0 included |
| Coalesce.AllBytesIsOneRange | zerith/objects.py:150-152 | a want list whose bytes are those of a whole pack becomes one range for the whole pack |
| Coalesce.WholePackIsOneRange | zerith/objects.py:150-152 | entries that follow one another without a hole, empty ones or not, become one range from the first byte to the last |
| Filesystem.ApplyKeeps | zerith/lifecycle.py:212-215 | every permitted operation keeps link counts at one plus holders, names measured, holders linked, and the UKI a commit marker |
| Filesystem.LegalKeeps | zerith/lifecycle.py:212-215 | so does every disciplined sequence of operations |
| Objects.LandPieceEffect | zerith/objects.py:212-219 | one round adds its object, sealed, if its name is new and its bytes measure to it; it dies if they do not, changing no object; when the name is there it changes nothing at all |
| Objects.StoreOpsExtend | zerith/objects.py:41-55 | landing operations, however many, leave every object its inode, bytes and seal, and touch nothing outside the store |
| Objects.LandPiecesEffect | zerith/objects.py:206-220 | a landing loop that returns leaves the old store plus the first piece for each new name; it returns if every piece measures |
| Objects.LinkRefsEffect | zerith/objects.py:64-86 | the holder gains exactly the referenced objects the store has, and only link counts change besides |
| Objects.LinkCount | zerith/objects.py:64-86 | as many links are made as the holder grows by |
| Objects.SweepEffect | zerith/objects.py:340-359 | a sweep by link count removes exactly the listed names no holder has, leaves the rest as it was, and counts what it removes |
| Transfer.MissingObjects | zerith/objects.py:223-246 | the pass and the sort give the want list; wanted, inlined and present add up to the references, and present and inlined are the sizes of the sets they name |
| Transfer.WantMembers | zerith/objects.py:223-246 | the want list is sorted by offset and has exactly one entry for each reference that the store lacks and the index has |
| Transfer.LandingIsSafe | zerith/objects.py:41-55 | whatever the responses or the tree contain and wherever the landing stops, every entry measures to its name, no existing entry has changed, nothing outside the store has |
| Landings.PlaceObjectEnds | zerith/objects.py:41-55 | it returns if and only if the object is there or the temporary measures to the name; in the first case, and when it dies, nothing has changed; otherwise the temporary has become the object, sealed |
| Landings.LandPieceTemps | zerith/objects.py:101-110 | a round uses up its temporary; one that dies leaves it; one that finds the object writes none |
| Landings.LandPiecesExactly | zerith/objects.py:206-220 | a landing loop over any pieces returns if and only if each measures to its name or has its name placed by then, and leaves no temporary that was not there |
| Landings.LandPiecesDie | zerith/objects.py:206-220 | one that dies does so on the first other piece, having placed exactly those before it, with at most that piece's temporary left |
| Landings.LandingLeaves | zerith/lifecycle.py:93-100 | from a tree or a pack: a landing that returns leaves no temporary that was not there, one that dies at most one |
| Landings.LandingReturns | zerith/lifecycle.py:93-100 | a landing returns if and only if its tree's files land, or its index parses, every range over what is missing comes back full and all that is cut out of it lands; without a source it dies and changes nothing |
| Landings.LandingBrings | zerith/lifecycle.py:93-100 | when it returns the store has, by name, what it had and what the tree has, or what of the pack the image refers to, and nothing else |
| Transfer.LandRangesReturn | zerith/objects.py:304-316 | in every completion order a landing returns if and only if all responses are full and every object cut out of them is stored already or measures to its name |
| Transfer.CompletionOrderIrrelevant | zerith/objects.py:304-316 | a landing that returns in one completion order returns in every other, and leaves the same store |
| Completion.OrderMattersExactly | zerith/objects.py:304-316 | for missing objects, two completion orders can leave different stores if and only if there are two ranges or more, something that arrives is bad, and some full response begins with a good object |
| HostCommands.TallyForgetsOrder | zerith/objects.py:312-317 | where the landing returns, the number of newly placed objects is the same in every completion order |
| Transfer.IndexLocates | scripts/ci/pack-objects.sh:28-30 | the parsed index maps exactly the published objects, each to where its bytes are in the pack |
| Transfer.ExactPieces | zerith/objects.py:206-217 | exact responses have the requested size, and slicing them gives the objects back |
| Transfer.LandingProvides | zerith/lifecycle.py:93-100 | a landing that returns has put every referenced object its supply has into the store |
| Transfer.PackRoundTrips | zerith/objects.py:249-317 | pack, index, parse, missing set, coalesce, fetch, slice, place: the landing returns and the store is its old content plus every referenced published object, byte for byte, for every gap and completion order |
| Transfer.FreshInstallIsOneRange | zerith/installer.py:44-45 | a host with none of the published objects, and an image that refers to all of them: the parsed index, the missing set and any gap give the one range from byte 0 to the last of the pack |
| Transfer.AcceptedBoundsFetch | zerith/objects.py:286-287 | with any index the gate accepts, no host, whatever it has and wants, fetches more bytes than the pack holds |
| Transfer.TallyIsExact | zerith/objects.py:313-317 | present plus newly placed is the number of references that the store or the pack has |
| Transfer.PackEqualsTree | zerith/objects.py:93-111 | landing the same objects from a directory, in any order, gives the same store |
| Lifecycle.SetRoleEffect | zerith/layout.py:43-54 | set_role points the role at the id and consumes its temporary, whatever temporaries a crash left |
| Lifecycle.PlaceCfsEffect | zerith/lifecycle.py:103-114 | the copied root.cfs is the artifact's, sealed |
| Lifecycle.MaterializeEffect | zerith/lifecycle.py:46-90 | every step is disciplined, and a build that returns has the UKI, the root.cfs of the signed digest, and a link to every object it needs |
| Lifecycle.MaterializeCopiesLoader | zerith/lifecycle.py:83-86 | and the loader, if the artifact brings one |
| Lifecycle.CommandLegal | zerith/cli.py:139-155 | every command keeps the discipline from every disk satisfying the invariant: none of its operations on links, roles and ESP files finds something missing or in the way, wherever the last command was interrupted |
| Lifecycle.HistoryKeeps | zerith/cli.py:139-155 | the invariant holds after every history of commands each stopped anywhere |
| Lifecycle.UkiIsCommitMarker | zerith/lifecycle.py:46-90 | over every such history from a blank disk, a directory with a UKI has a sealed root.cfs of the UKI's digest and a link to every needed object, each of which measures to its name: promote never installs a half-built deployment |
| Safety.SafeBoots | init:72-78 | when each ESP image is complete and held, each boots but for the objects' own seals, which Sealing.SafeMounts adds: sealed root.cfs of the pinned digest, every needed object present with its content |
| Safety.StaleMembers | zerith/lifecycle.py:194-206 | the stale list is exactly the deployments, by plain name, that no role targets |
| Safety.StaleOrdered | zerith/lifecycle.py:194-206 | and each of them once, in order of name |
| Safety.StaleGo | zerith/lifecycle.py:209-236 | a gc removes as many deployments as the list has |
| Safety.GcQuiet | zerith/lifecycle.py:209-236 | gc removes no held deployment and writes neither roles nor the ESP |
| Safety.GcIsReachability | zerith/lifecycle.py:209-236 | link-count gc is reachability gc: exactly the held deployments stay, exactly the stored objects a held holder contains stay, with bytes and seals, and every temporary is gone |
| Safety.AlwaysGc | zerith/lifecycle.py:209-236 | a gc stopped anywhere keeps a safe ESP safe |
| Safety.CopyEspEffect | zerith/layout.py:142-152 | atomic_copy puts the image under its name and leaves no temporary |
| Safety.ClearRoleEffect | zerith/layout.py:57-64 | clear_role removes the role if it is there, and nothing else |
| Safety.AlwaysPromote | zerith/lifecycle.py:132-164 | after every operation of a promotion from a consistent staged state, each UKI on the ESP names a complete deployment held by some role |
| Safety.PromoteEffect | zerith/lifecycle.py:148-162 | after a finished promotion the new image is current, the image that was current on the ESP is the fallback, and the roles have moved, from any disk |
| Safety.PromoteRefreshesLoader | zerith/lifecycle.py:153-156 | and the loader on the ESP is the deployment's, if it has one |
| Safety.PromoteConsistent | zerith/lifecycle.py:132-164 | a finished promotion of the staged image leaves the host consistent |
| Rollbacks.SetRolePrefix | zerith/layout.py:50-53 | a role link switches at the last operation of set_role and at no other |
| Rollbacks.RollbackSteps | zerith/lifecycle.py:167-191 | the roles and the ESP after each number of operations of a rollback |
| Rollbacks.RollbackKeepsCurrent | zerith/lifecycle.py:167-191 | after every operation current.efi exists and names a held complete deployment, and both images survive among the two entries and the swap temporary |
| Rollbacks.RollbackSafeExactly | zerith/lifecycle.py:187-190 | both entries are safe after k operations if and only if k is outside the window between the role flips, or staging names the demoted image |
| Rollbacks.GcAfterHalfRollback | zerith/lifecycle.py:187-190 | a gc inside that window keeps the current entry bootable and removes the fallback entry's deployment unless staging names it |
| Rollbacks.RollbackSwaps | zerith/lifecycle.py:167-191 | a finished rollback has exchanged roles and entries and changed no deployment and no object |
| Rollbacks.RollbackConsistent | zerith/lifecycle.py:167-191 | a finished rollback leaves the host consistent |
| Rollbacks.RollbackTwice | zerith/lifecycle.py:167-191 | two rollbacks restore roles, entries, deployments and store |
| Runs.StageMarks | zerith/lifecycle.py:117-129 | a stage that returns has marked the image |
| Runs.DeploySteps | zerith/lifecycle.py:266-280 | a deploy that returns, of another image than the current one, has staged it and promoted it |
| Runs.DeployConsistent | zerith/lifecycle.py:266-280 | a deploy, returning or dying, leaves a consistent host consistent |
| Runs.InstallConsistent | zerith/installer.py:35-61 | so does an install |
| Runs.CleanRunsBoot | zerith/lifecycle.py:117-236 | over every run of installs, deploys, rollbacks and gcs from a blank disk in which commands finish, die, or stop before their first ESP write: entries and roles agree, the two differ, both deployments are held, verified and have every needed object |
| Runs.AlwaysDeploy | zerith/lifecycle.py:266-280 | after every operation of a deploy from a consistent host each ESP image is complete and held |
| Runs.CrashedDeployBoots | zerith/lifecycle.py:132-164 | a deploy stopped anywhere, followed by one gc stopped anywhere, leaves the entries that were there, each complete and held, and bootable but for the objects' own seals, which Sealing.CrashedDeployMounts adds |
| Runs.PromoteLeavesTwo | zerith/lifecycle.py:158-162 | after a promotion over an existing current the deployments are exactly the new and the old current, and the store is exactly what one of their holders contains: what goes is what the old fallback alone held |
| Promotions.PromoteSteps | zerith/lifecycle.py:148-160 | the two entries and the role links after each number of operations of a promotion, from any disk with a current deployment |
| Stranded.WindowIsExact | zerith/lifecycle.py:148-160 | a promotion stopped after k operations: what the current entry and the current role name, and that they disagree exactly inside the window |
| Stranded.NextDeployExactly | zerith/lifecycle.py:138-151 | a deploy that returns (Recovery.StoppedDeployExactly is about one that does not), from any disk whose current entry is complete, half rolled back or stranded as it may be, restores consistency if and only if entry and role were in step |
| Stranded.SecondDeployHeals | zerith/lifecycle.py:138-162 | from any such disk, the second of two finished deploys leaves the host consistent |
| Stranded.DeployAfterRollbackExactly | zerith/lifecycle.py:179-190 | a rollback stopped after k operations and then a finished deploy of a third image: the host is consistent if and only if the stop was before the swap of the entries or after the first role flip |
| Stranded.ThirdDeployExactly | zerith/lifecycle.py:138-162 | a promotion stopped after k operations and then a deploy of a third image that returns (Recovery.NextDeployStopped is about one that does not): the fallback entry's deployment exists, and the host is consistent, if and only if k is outside the window |
| Recovery.StageSteps | zerith/lifecycle.py:117-129 | after each number of operations of a stage the ESP and what it names are as they were, and so are the roles, but for the staging mark at the last operation of one that returns |
| Recovery.StoppedDeployExactly | zerith/lifecycle.py:266-280 | a deploy of any image, from any disk whose current entry is good and whose fallback entry's deployment is there, stopped or dying after j operations: both entries are complete and held if and only if a role still names the old current entry's image and, while it is there, the old fallback entry's |
| Recovery.AlwaysNextDeploy | zerith/lifecycle.py:266-280 | with entry and role in step and the fallback entry named by a boot role, every operation of a deploy leaves both entries complete and held, whatever crash came before |
| Recovery.StartsAfterStoppedDeploy | zerith/lifecycle.py:148-162 | after such a stop and a gc some entry boots if and only if a role still names the old current image, or the new one is on the ESP, or the old fallback entry is there and its image named |
| Recovery.GcAfterStoppedDeploy | zerith/lifecycle.py:129 | when no role names the old current entry's image any more, a gc removes its deployment, and which entries then name it |
| Recovery.NextDeployStopped | zerith/lifecycle.py:129-160 | a promotion stopped after k operations, then a deploy of any image stopped or dying after j: both entries are complete and held, unless k is in the window, the image is another, the deploy has set its mark, and the fallback role does not or no longer name the promoted image; and only then not |
| Recovery.NextDeployStoppedThenGc | zerith/lifecycle.py:129-162 | in that case a gc removes the promoted image's deployment, the current entry names it until it is renamed and the fallback entry from when it is copied; no entry boots if and only if the deploy stopped in between |
| Recovery.NextDeployAfterRollback | zerith/lifecycle.py:167-191 | a rollback stopped after k operations, then a deploy of any image stopped or dying after j: exactly when both entries are complete and held |
| Recovery.RollbackAfterPromotion | zerith/lifecycle.py:167-191 | a promotion stopped after k operations, then a rollback: it returns if and only if there was a fallback role or the promotion had set it; both entries are then good; exactly when entry and role are in step and when the host is consistent |
| Reinstall.SecondInstallDies | zerith/installer.py:41-42 | an installation stopped after any operation, or finished, makes every further one die |
| Reinstall.CleanInstall | zerith/installer.py:41-55 | without a directory in the way it returns if and only if the artifact has its UKI, its objects land and its root.cfs measures |
| Reinstall.StoppedInstallExactly | zerith/installer.py:46-55 | stopped after k operations, it leaves each entry complete and held if and only if k is not between the ESP write and the role link, or some role named the id before |
| Reinstall.GcAfterStoppedInstall | zerith/lifecycle.py:209-236 | a gc then removes the directory in the way if and only if no role names it, and the current entry, if it has been written, names what is gone |
| Sealing.CommandPaired | zerith/objects.py:53-54 | every command follows each rename into the store at once by its seal, and seals nothing else |
| Sealing.SealedExactly | zerith/objects.py:53-54 | a command stopped after k operations leaves everything sealed if and only if the k-th is not such a rename, and otherwise exactly one object unsealed |
| Sealing.GcHealsSeals | zerith/lifecycle.py:209-236 | one gc after any stop leaves everything sealed |
| Sealing.SafeMounts | init:72-79 | when each ESP image is complete and every held object is sealed, each entry mounts, seals included |
| Sealing.StopsHeldSealed | zerith/objects.py:53-54 | a command stopped anywhere leaves every held object sealed |
| Sealing.CrashedDeployMounts | init:72-79 | a deploy stopped anywhere, followed by one gc stopped anywhere, leaves the entries that were there, and all mount, seals included |
| Sealing.CrashedRollbackMounts | zerith/lifecycle.py:167-191 | after every operation of a rollback the current entry is there and mounts |
| Sealing.CrashAfterCleanRunMounts | init:72-79 | after any clean run without a stop between a rename and its seal (finding 3), a deploy stopped anywhere and then a gc stopped anywhere leave entries that mount |
| Sealing.CleanRunsMount | init:72-79 | after a clean run without a stop between a rename and its seal both entries mount, seals included |
| Unsealed.StageHolds | zerith/lifecycle.py:72-77 | a build that returns holds exactly the referenced objects of the store and leaves the other deployments alone |
| Unsealed.MidSealIsEarly | zerith/lifecycle.py:67-70 | a stop between rename and seal finds the deployment without root.cfs and the roles unmoved |
| Unsealed.DeployOverUnsealed | zerith/objects.py:45-47 | the same from any disk on which one unheld object lacks its seal |
| Unsealed.RedeployExactly | zerith/objects.py:45-47 | after a deploy stopped there, a finished deploy of the same or any other new image, without a gc: everything is sealed if and only if that image does not refer to the object, and what is now current can be mounted if and only if it does not need it |
| Wedge.WedgedExactly | zerith/lifecycle.py:117-129 | a stage that builds, stopped or dying after k operations, leaves a reusable deployment without UKI if and only if k lies between the copy of root.cfs and the copy of the UKI |
| Wedge.RetryDies | zerith/lifecycle.py:144-146 | deploying such an id again marks it staging and dies |
| Wedge.GcKeepsStuck | zerith/lifecycle.py:194-206 | and gc, stopped anywhere, keeps it, because it is marked |
| Wedge.StuckForGood | zerith/lifecycle.py:117-146 | so no sequence of retries and gcs, each stopped anywhere, gets it out |
| Wedge.GcFirstExactly | zerith/lifecycle.py:194-206 | a gc before the retry removes it if and only if no role names it |
| Wedge.OtherDeployFrees | zerith/lifecycle.py:158-162 | a finished deploy of another image frees the id, unless it is the fallback of a host without a current deployment, and only then not |
| Wedge.CleanRetry | zerith/lifecycle.py:117-129 | without a root.cfs in the way, a deploy returns if and only if the artifact has its UKI, its objects land and its root.cfs measures to the signed digest |
| Wedge.DyingDeployStrands | zerith/lifecycle.py:129-146 | a promotion stopped in the window and then a deploy of a wedged image: it dies by itself and leaves a current entry whose deployment the next gc removes |
| Outcomes.MaterializeOutcome | zerith/lifecycle.py:46-90 | it returns if and only if the artifact has its UKI, its objects land and its root.cfs measures; without a UKI nothing has changed; what it leaves after a landing that died, after a wrong root.cfs, and when it returns: root.cfs, seal, UKI, loader and a holder of exactly the stored references, nothing else touched |
| Outcomes.StageOutcome | zerith/lifecycle.py:117-129 | it returns if and only if there is a root.cfs already or the deployment can be built; a reused deployment is left as it is; the mark is set then and only then |
| Outcomes.PromoteOutcome | zerith/lifecycle.py:132-164 | it returns if and only if the image is current or has its UKI; current: only the mark goes; no UKI: nothing changes; else entries, roles and loader have moved, and exactly what the new roles hold is left |
| Outcomes.RollbackOutcome | zerith/lifecycle.py:167-191 | it returns if and only if there is a fallback role and both entries; then entries and roles have changed places, with or without a current role; else nothing has changed |
| Outcomes.InstallOutcome | zerith/installer.py:35-61 | it returns if and only if the id is new and the deployment can be built; then role and entry name it, nothing else is touched and no temporary is left; a known id or a missing UKI changes nothing |
| Outcomes.DeployOutcome | zerith/lifecycle.py:266-280 | it returns if and only if the image is current, or is there with its UKI, or can be built; current: nothing changes; else entries, roles, deployments and store after it; when it dies, ESP and boot roles are as they were |
| Outcomes.GcOutcome | zerith/lifecycle.py:209-236 | exactly the role-held deployments and the objects their holders have are left, as they were; roles, ESP and loader too; the stale list has as many members as deployments went |
| Outcomes.CommandOutcome | zerith/cli.py:139-155 | each command name stands for that: when it returns and what it leaves |
| Outcomes.FinishedEvent | zerith/cli.py:139-155 | a command that is not interrupted leaves that at the end of any history |
| Outcomes.DeployNames | zerith/lifecycle.py:271-274 | after a deploy that returned the current role names the image, and the current entry does, unless role and entry had disagreed about it before and nothing was done |
| Outcomes.InstallNames | zerith/installer.py:48-55 | after an installation that returned role and entry name it |
| Counterexamples.StrandedFallback | zerith/lifecycle.py:138-151 | a run from a blank disk: deploy a, stage b, promotion stopped after four operations, deploy c; the fallback entry names b, which is gone |
| Counterexamples.LostCurrent | zerith/lifecycle.py:129-151 | a run from a blank disk: deploy a, stage b, promotion stopped after four operations, deploy of c stopped at its mark and then a gc: the current entry names b, which is gone; stopped a little later and then a gc: nothing boots |
| Counterexamples.HalfInstall | zerith/installer.py:41-55 | an installation on a blank disk stopped after its ESP write cannot be run again, and after a gc its entry names what is gone |
| Counterexamples.HalfRollback | zerith/lifecycle.py:187-190 | a run from a blank disk: deploy a, deploy b, rollback stopped between the flips, gc; the fallback entry names a deployment that is gone |
| Counterexamples.UnsealedCurrent | zerith/objects.py:53-54 | a run from a blank disk: deploy stopped after its third operation and run again; what is current cannot be mounted |
| Counterexamples.WedgedDeploy | zerith/lifecycle.py:117-146 | a run from a blank disk: stage stopped after the copy of root.cfs; every later retry dies, whatever retries and gcs, stopped anywhere, come before it |
| Counterexamples.OrderShows | zerith/objects.py:50-51 | two ranges, two full responses, one bad object: the landing dies in both completion orders, and the good object is in the store after one and not after the other |
| HostCommands.PlacedIsGrowth | zerith/objects.py:93-111 | the counter of a landing loop is the growth of the store, however the loop ends |
| HostCommands.FetchedIsGrowth | zerith/objects.py:288-317 | so is the tally of the fetch loop |
| HostCommands.SweptCount | zerith/objects.py:340-359 | the sweep's counter is what the store has lost |
| HostCommands.Host.SetRole | zerith/layout.py:43-54 | carries out exactly its plan; the role points at the id |
| HostCommands.Host.ClearRole | zerith/layout.py:57-64 | carries out exactly its plan; the role is gone |
| HostCommands.Host.AtomicCopy | zerith/layout.py:142-152 | carries out exactly its plan; the image is under its name, no temporary is left |
| HostCommands.Host.PlaceObject | zerith/objects.py:41-55 | carries out exactly its plan; dies on a digest mismatch; says whether the object was new; what becomes of the temporary |
| HostCommands.Host.LandFromDir | zerith/objects.py:93-111 | the loop over the tree carries out exactly its plan, returns if and only if it gets past each file, leaves a temporary only of the file it died on, and counts the growth of the store |
| HostCommands.Host.PlaceFromBuffer | zerith/objects.py:200-220 | the loop over a buffer likewise, with the same count and the same temporaries |
| HostCommands.Host.LandPackByRange | zerith/objects.py:281-325 | the loop over completed fetches likewise, dying on a response of the wrong size; it counts the growth of the store and leaves at most one temporary, and none when it returns |
| HostCommands.Host.LandFromPack | zerith/objects.py:249-278 | parse, missing set, coalesce, fetch: exactly its plan; the tallies are the references present and the growth of the store |
| HostCommands.Host.LandObjects | zerith/lifecycle.py:93-100 | dispatches to the right landing, or dies; it returns if and only if that lands |
| HostCommands.Host.LinkHolder | zerith/objects.py:64-86 | the loop carries out exactly its plan and counts the growth of the holder |
| HostCommands.Host.SweepOrphans | zerith/objects.py:340-359 | the loop carries out exactly its plan and counts what the store loses |
| HostCommands.Host.CollectStale | zerith/lifecycle.py:194-206 | gives the stale list: exactly the deployments no role targets, each once, in order |
| HostCommands.Host.CollectGarbage | zerith/lifecycle.py:209-236 | carries out exactly its plan; exactly what the roles hold is left, and both counts are what has gone |
| HostCommands.Host.PlaceRootCfs | zerith/lifecycle.py:103-114 | copies and seals the root.cfs, leaves the directory with it, and returns if and only if it measures to the signed digest |
| HostCommands.Host.Materialize | zerith/lifecycle.py:46-90 | carries out exactly its plan, with its outcome, from every disk; returns if and only if the deployment can be built, and leaves the built deployment or the stage it got to |
| HostCommands.Host.Stage | zerith/lifecycle.py:117-129 | carries out exactly its plan, with its outcome, which is that of Outcomes.StageOutcome |
| HostCommands.Host.Promote | zerith/lifecycle.py:132-164 | carries out exactly its plan, with its outcome; from a consistent staged host each operation leaves the ESP safe, and the last the host consistent; from any disk the outcome is that of Outcomes.PromoteOutcome |
| HostCommands.Host.Rollback | zerith/lifecycle.py:167-191 | carries out exactly its plan; returns if and only if there is something to roll back to, with entries and roles exchanged, and else leaves the disk as it was |
| HostCommands.Host.InstallDeploy | zerith/installer.py:35-61 | carries out exactly its plan, with its outcome, which is that of Outcomes.InstallOutcome |
| HostCommands.Host.DoDeploy | zerith/lifecycle.py:266-280 | carries out exactly its plan; an image that is current already: it returns and has done nothing; otherwise the outcome is that of Outcomes.DeployOutcome |
| HostCommands.Host.Execute | zerith/cli.py:139-155 | any command carries out exactly its plan, returns when and leaves what its name stands for (gc: what the roles hold; rollback: entries and roles exchanged; deploy, install: the image current), keeps the invariant, and leaves a consistent host consistent |
| Lock.NextKeeps | zerith/lifecycle.py:26-43 | every step of any process, each of whose operations is decided by the disk it finds then, keeps: only the holder is in the middle of a command, and the disk is the serial history plus the holder's share of its plan |
| Lock.Serializable | zerith/lifecycle.py:26-43 | after any interleaving of commands that take the lock, at most one process is in the middle of its command and finds the disk as it left it, and whenever the lock is free the disk is the one reached by the commands that have ended, each once, one after the other, each up to where it stopped |
| Lock.SoundThroughout | zerith/cli.py:139-155 | at every moment of every interleaving of commands that take the lock, kills included, the invariant holds |
| Lock.SafeThroughout | zerith/cli.py:139-155 | for deploys, rollbacks and gcs without kills: whenever the lock is free the host is consistent; at every moment, in the middle of whatever anybody is doing, the current entry is there, complete and held; and where nobody rolls back both entries are |
| Progress.WaitingRuns | zerith/lifecycle.py:34-43 | a process that waits while the lock is free takes it, runs its command to the end and lets go: it has ended, the lock is free, the disk is what the command makes of the one it found, the other processes are as they were |
| Progress.TurnByTurn | zerith/lifecycle.py:26-43 | from any system with a free lock, any waiting processes can end in any order and anywhere, with the disk of that history |
| Progress.EverySerialOrder | zerith/cli.py:139-155 | the converse of Lock.Serializable: for every order of the commands and every stop of each some interleaving ends with that history's disk, without kills if none is interrupted |
| Progress.HolderFinishes | zerith/lifecycle.py:41-43 | at any moment the holder of the lock can finish and let go, unharmed, touching no other process |
| Progress.NeverStuck | zerith/lifecycle.py:26-43 | no deadlock: from every reachable moment there is a way on without kills in which everybody who holds the lock or waits for it finishes |

## Left out

- Network and external tools (oras, cosign, curl, fsverity, composefs-info, btrfs, efibootmgr): their results are parameters or arbitrary functions; signatures, tokens, Secure Boot and keys are not modelled.
- Partitioning, the bootloader configuration, progress bars, argument parsing, logging, `status`, dry-run and verbose modes, the bash install script.
- `deployment.json`, `source.conf`, timestamps and versions: nothing proved here depends on them. The sigstore check of a pulled artifact happens before the plans begin.
- Interrupted removals: a directory tree goes in one operation, and so does a single-file copy; a half-removed tree, which would keep its `root.cfs` and UKI with a thinned holder, is not modelled.
- The two-level fan-out of object directories (creation and pruning of `ab/`), and files of a local tree that do not follow it: an object is its digest.
- Threads in the fetch pool: only the completion order is kept, and it is arbitrary. A fetch that fails is a stop of the plan.
- Promotions and rollbacks resumed after a crash inside them: the code does not resume them. Findings 1 and 2 say what the next gc, the next deploy (finished or stopped anywhere) and, after a promotion, the next rollback make of it; a third interruption in a row is not followed up, but for the gc after it.
- An install stopped between its ESP write and its role link: clean runs exclude it, and the other crash claims are about deploys, rollbacks and gcs; finding 6 says what it leaves.
- Safety.SafeBoots: the objects' own seals, which a verity mount demands too; Sealing.SafeMounts has them.
- Runs.CrashedDeployBoots: likewise; Sealing.CrashedDeployMounts has the seals.
- awk's floating-point sums above 2^53 and Python integer syntax beyond plain decimal digits (signs, underscores, surrounding space): index numbers are decimal digits of any length.
- Deployment ids that collide with a role's name, and non-symlink files in the place of role links.
- An install beside a host command: `install` runs on a target of its own and takes no lock; the interleavings are of deploys, rollbacks and gcs.
- Lock.SafeThroughout: the fallback entry during a rollback, whose window is finding 2, and processes that are killed, whose crashes findings 1 to 4 describe.
- Fairness: that a process waiting for the lock can always get it is proved, not that the kernel, with others arriving for ever, gives it.
