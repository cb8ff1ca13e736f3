# certctl, verified core

A Dafny model of the parts of certctl whose correctness rests on more than one
function: the deploy package (many files swapped in together, with rollback),
the channel-binding attribute of a certificate request, the API-key parser and
key store, and the versioned ciphertext reader.

## How the deploy package is modelled

Files are a map from paths to bytes, mode, owner and group (`FileSystem.dfy`).
A path is an ordinary file, or a temp or backup made for a destination; each
has its name as a string (`Names.dfy`). System calls take names, and a
destination can be called like a temp or backup of another. `Naming.dfy` lets a
call work on names and shows that its runs are those on paths unless that
happens; `Aliases.dfy` has the runs that go wrong when it does. Every system call and every hook may fail whenever it likes:
`Permitted` says which replies are possible, `Effect` what each one does to the
files. A theorem over all permitted replies therefore covers every pattern of
failures. The directory listing of the janitor is by name, as in the source: it
finds every file whose name has the destination's backup prefix, whoever made
it, and pruning removes all but the last names.

`Protocol.dfy` gives `Apply` and `AtomicWriteFile` as one state machine: where
a call stands, which system call it issues there, where the reply takes it.
`AtomicWriteFile` is the job with `solo` set. One inductive invariant
(`Invariant.dfy`, proved step by step in `Carry`, `Control`, `Steps` and
`Safety`) holds in every state of every run. `Events.dfy`, `Records.dfy` and
`Durability.dfy` read off a run's events why it failed, what its stats found, how
it made its backups and what it did with a temp before renaming it;
`Diligence.dfy` shows that one failure does not keep a loop from its rest. The promises of the package
are in `Guarantees`, `Campaigns` and `Refinement`. `Scenes.dfy` builds runs of
any plan step by step, and `Limits.dfy` uses them to show where a promise stops.

`Host.dfy`, `Phases.dfy` and `Deploy.dfy` hold the same operations as programs:
a class with a file system and an arbitrary oracle for replies, and methods with
the source's loops. Each call to the host must be one the state machine allows
at that point, so a method that returns has made a run of the machine, and the
promises hold of it.

`Locks.dfy`, `Interleaving.dfy` and `Liveness.dfy` put any number of such calls
next to each other, each taking its locks in sorted order before its first file
operation. `NamedPlays.dfy` does the same on names, and `Clashes.dfy` has an
interleaving that no serial order explains.

Hypotheses, each stated in the lemmas that need it and in no others:

- the first stat of a destination fails only if the file is absent
  (`HonestStats`, in `Ran`; later stats may fail);
- SHA-256 is injective (`Injective`);
- removing one's own temp works (`TempsRemovable`), the janitor can list and
  remove (`JanitorWorks`), the clock has moved on since the backups there were
  (`ClockMoved`);
- no destination has a name the plan gives to a temp or, with backups on, to a
  backup (`Proper`, in `Arrived` and so in `Ran`; across calls in `Spread`,
  `Apart` and `Clear`; the few results stated on `Reaches` speak of runs on paths,
  which are the runs of the code for such plans);
- names, only where pruning matters: no destination's name has another's backup
  prefix (`Unlisted`, in `Orderly`); for results on backups and on concurrent
  calls also no destination is called like another with `.certctl-bak` appended
  (`Spaced`, `Apart`; `Spread` across calls), and no foreign file has the prefix
  (`Lone`).

One-file plans always keep `Proper`, `Unlisted` and `Spaced`
(`Safety.OneFileIsProper`, `Safety.OneFileIsSpaced`), and `Lone` is kept by every
run (`Events.StaysLone`). What goes wrong without a hypothesis is in the next
section.

## Where the code and its own documentation differ

The model follows the code.

- `internal/deploy/doc.go:29-31` promises all-or-nothing. With retention -1 the
  rollback removes destinations that existed and still reports success. The
  old bytes are back if and only if backups are on or rollback had no existing
  file to restore: `Guarantees.EveryReturn`, with the losing run, for every plan
  with a reload, in `Limits.RollbackWithoutBackupsLosesAll`. With a positive
  retention the janitor of a successful call can also remove a destination whose
  name has another's backup prefix; success means "all new" if and only if there
  is none: `Limits.DeployedIsNewExactly`.
- `internal/deploy/apply.go:110-111` takes every stat error for a missing file.
  If the first stat of an existing file fails there is no backup of it, and a
  rollback removes it and reports success: `Limits.FailedStatLosesTheFile`.
- `internal/deploy/types.go:239-248` takes the names with the two suffixes to be
  the package's own. If a destination is called like a temp or backup of another,
  a call writes over it. An aborted call leaves every destination untouched if
  and only if there is no such name in the plan: `Aliases.AbortsCleanExactly`.
  With the destinations `x.certctl-tmp.<n>` and `x` a call can succeed with the
  first file gone and its bytes in the second: `Aliases.TempNameLosesBytes`.
- `internal/deploy/apply.go:301-302` and `internal/deploy/types.go:26-31` say
  that rollback restores the original ownership and leaves a no-op. Restore puts
  on the ownership the plan resolved to. The whole old files are back in every
  rollback if and only if that fits each of them:
  `Limits.RollbackWholeExactly`; file by file `Guarantees.RollbackOwnership` and
  `Guarantees.RollbackKeepsPlanMode`.
- `internal/deploy/doc.go:42-49` promises that mode and owner of an existing
  file are preserved. A chown that fails is forgiven when not root, so the owner
  is kept in every run if and only if the process is root or owns the file:
  `Limits.OwnershipKeptExactly`.
- `internal/deploy/atomic.go:243-245` and `internal/deploy/types.go:239-242`
  take the backup prefix to identify a file's backups. Pruning `d` removes any
  old enough file whose name has the prefix, among them the temps and backups of
  a destination called `d.certctl-bak` whose lock it does not hold:
  `Names.ListedExactly`, `Names.AtRiskExactly` and the losing run
  `Limits.ForeignFileLost` with its input `Limits.ForeignFileInput`.
- `internal/deploy/doc.go:69-71` calls every function safe for concurrent
  callers. A call on `d` can remove the temp that a call on `d.certctl-bak` is
  writing, so that no order of the two explains what they did:
  `Clashes.NearNamesClash`.
- `internal/deploy/doc.go:58` says that retention 0 disables backups. It keeps
  three: `Campaigns.ZeroRetentionKeepsThree`.
- `internal/deploy/types.go:13-15` says that every error wraps exactly one
  sentinel. It wraps none exactly when the call failed though no hook and no
  step of a restore did: `Events.ErrorSaysWhy`, with a cancelled context
  (`Limits.CancelledWrapsNone`) and a failed rename that was rolled back
  (`Limits.RolledBackRenameWrapsNone`).
- `internal/cms/channelbinding.go:157-160` calls a malformed binding always
  fatal. Without a live exporter an optional profile accepts it:
  `ChannelBinding.MalformedIsFatalExactly`.

## Model

| member | source | states |
|---|---|---|
| Guarantees.EveryReturn | internal/deploy/apply.go:124-213 | For every plan whose destinations have none of its temp and backup names, and every failure pattern: success means that every destination has its new bytes, if nothing is pruned or no destination's name has another's backup prefix; abort and rejected validation leave every destination untouched in bytes, mode and owner; a completed rollback leaves the old bytes, absent files absent again, if and only if backups were on or no renamed destination existed before |
| Limits.DeployedIsNewExactly | internal/deploy/apply.go:217-226 | For every plan whose lookups work and whose destinations have none of its temp and backup names: success means that every new file is in place, in every directory and every run, if and only if nothing is pruned or no destination's name has another's backup prefix |
| Limits.ListedDestinationLost | internal/deploy/apply.go:217-226 | If one destination's name has another's prefix, some successful run has pruned the destination it just deployed |
| Guarantees.AllOrNothing | internal/deploy/doc.go:29-31 | With backups on and no report of a failed rollback, all destinations are new or all have their old bytes, and the whole old files are back if the resolved ownership fits each of them. Destinations have none of the plan's temp and backup names |
| Guarantees.RollbackOwnership | internal/deploy/apply.go:301-309 | After either kind of rollback an undone destination is the whole old file if the resolved ownership fits it, and only then unless the answer to a non-root chown decides; destinations not yet renamed are untouched |
| Guarantees.RollbackKeepsPlanMode | internal/deploy/apply.go:301-309 | A mode in the plan stays on every existing file that was rolled back |
| Guarantees.PlainFits | internal/deploy/ownership.go:46-106 | For a file without overrides the resolved ownership fits exactly when the mode is permission bits only and the process is root or owns the file |
| Guarantees.ResolutionMeans | internal/deploy/ownership.go:46-106 | In terms of the plan, the user and group tables and the file there was: when the lookup fails, which mode is set (the plan's, else the old permission bits, else the default, else none) and which pair (the names in the plan, else the old pair, else the defaults, else none) |
| Guarantees.DeployedOwnership | internal/deploy/ownership.go:46-155 | Every deployed file has the plan's bytes, that mode and that pair; as root always, and else that pair or the process's own |
| Guarantees.FailedLookupAborts | internal/deploy/apply.go:112-115 | If a name that counts is not in the tables, every finished call has skipped or aborted, with every destination untouched |
| Limits.RollbackWholeExactly | internal/deploy/apply.go:269-319 | For every plan with a reload and backups, and every directory: every rollback gives all the whole old files back if and only if the resolved ownership fits each of them |
| Limits.RollbackWithoutBackupsLosesAll | internal/deploy/apply.go:272-279 | With retention -1, for every plan with a reload, there is a run that reports a successful rollback and has removed every destination |
| Limits.FailedStatLosesTheFile | internal/deploy/apply.go:108-122 | For every plan with a reload, whatever its retention: if the first stat of an existing destination fails, some run reports a successful rollback and has removed it |
| Guarantees.RolledBackExactly | internal/deploy/apply.go:269-319 | After a restore without errors the destinations have their old bytes if and only if backups were on or none of the undone ones existed |
| Guarantees.TornFree | internal/deploy/apply.go:153-213 | In every intermediate state each destination is untouched, or whole (all new or all old bytes) with its resolved ownership already on; the only exception is a file removed by a rollback without backups. Destinations have none of the plan's temp and backup names |
| Guarantees.PreCommitSees | internal/deploy/apply.go:144-174 | When PreCommit runs no hook has run before, every destination is untouched, and it is given exactly the destinations, each with a temp that has its plan bytes and resolved ownership |
| Guarantees.HookCounts | internal/deploy/apply.go:167-215 | By the run's events: PreCommit runs once or not at all, by outcome; PostCommit runs twice exactly when it failed and the restore had no failure, once exactly when it succeeded or failed with a restore that failed too |
| Events.ErrorSaysWhy | internal/deploy/types.go:13-47 | The returned error is determined by the run's events: each sentinel exactly for its hook or restore failures, and none exactly when the call failed without any of those |
| Limits.CancelledWrapsNone | internal/deploy/apply.go:75-77 | The one-event run of a cancelled context ends with an error that wraps no sentinel |
| Limits.RolledBackRenameWrapsNone | internal/deploy/apply.go:181-190 | For every plan and every n there is a run in which n renames are made, the next fails, they are undone and the error wraps no sentinel |
| Guarantees.BackupHolds | internal/deploy/atomic.go:218-241 | In every state until the janitor starts, unless the call is aborting, a backup the call names holds the bytes its destination had, honest stats or not |
| Guarantees.AlwaysRecoverable | internal/deploy/apply.go:124-213 | With backups on, in every state of every run before the janitor starts, crashes included, the old bytes of every existing destination are in place or in the backup the call took of it |
| Guarantees.Recoverable | internal/deploy/types.go:33-39 | When the call reports a failed rollback, every existing destination has a backup and it still holds the old bytes |
| Guarantees.NoTempLeft | internal/deploy/apply.go:146-151 | However a call returns, every temp on disk was there before it, temps made during restore included |
| Diligence.LeftTempFailed | internal/deploy/apply.go:146-151 | A temp that a finished call leaves behind is one whose own removal failed, whatever became of the others |
| Diligence.RestoreGoesOn | internal/deploy/apply.go:269-319 | After every rollback, one that reports failure included, each renamed destination has its old bytes again unless a step of its own restore failed: one failure does not stop the rest |
| Diligence.JanitorTriesAll | internal/deploy/atomic.go:271-279 | A successful call with retention has listed the backups of every destination and tried to remove each file beyond retention in every listing that worked, whatever became of the others |
| Guarantees.BystandersUntouched | internal/deploy/apply.go:44-230 | In every state of every run, a file that is neither a destination nor a sibling of one is unchanged, unless its name has a destination's backup prefix and the janitor has started; then it is unchanged or gone |
| Guarantees.OnlyOldBackupsGo | internal/deploy/atomic.go:246-279 | An earlier backup that the call did not write over is unchanged however the call ends, except that a successful call with retention prunes it when enough newer ones stay and no foreign file has the prefix |
| Events.EarlierBackupsStay | internal/deploy/atomic.go:218-241 | Until a call prunes, and so on every return but success, aborted calls included, every backup from before it that it did not write over is unchanged |
| Records.RunRecords | internal/deploy/atomic.go:218-241 | By the run's events: what the call remembers of a destination is what its first stat said; every backup it names was written by it with the bytes and permission bits of the file there was, and then asked to be given that file's owner and group |
| Records.FailedBackupLeavesNothing | internal/deploy/apply.go:124-142 | An Apply that aborts before its first temp leaves no backup that was not there before and no ordinary file changed, if backups are written whole or not at all and can be removed |
| Durability.SyncedBeforeRename | internal/deploy/atomic.go:172-213 | By the run's events: whenever a call renames a temp, deploying or restoring, it has opened, written, synced and closed it before, in this order and each with success, and the temp holds what was written |
| Guarantees.PrunesByName | internal/deploy/atomic.go:246-271 | In every reachable state in which the janitor lists a directory, the paths it goes on to remove are exactly those whose names the code's filter, sort and cut select |
| Events.NamesStayUnique | internal/deploy/atomic.go:179-183 | Along every run each name stays the name of one path |
| Events.StaysLone | internal/deploy/atomic.go:252-266 | Along every run of a plan with no destination near d, no file but d's backups gets d's backup prefix |
| Limits.ForeignFileLost | internal/deploy/atomic.go:252-278 | For every plan and every directory: a file with a destination's prefix and `keep` or more matching names after it is removed by some successful run |
| Limits.ForeignFileInput | internal/deploy/atomic.go:252-278 | With retention 1 the file `d.certctl-bak.0` next to `d.certctl-bak.1` is such a file, for every d |
| Safety.StepKeepsInvariant | internal/deploy/apply.go:44-230 | Every system call with every reply keeps the invariant on destinations, preps, backups, temps, hook counts and bystanders |
| Runs.RunKeepsInvariant | internal/deploy/apply.go:44-230 | Every state of every run satisfies the invariant |
| Runs.RunBooks | internal/deploy/apply.go:167-226 | The hook counters are the number of hook events of the run; removable temps are never stuck, a working janitor has no error, and honest first stats mean that no existing destination was taken for a missing one |
| Progress.StepOnward | internal/deploy/apply.go:44-230 | However a system call is answered, the call gets strictly further in its phases (or removes one more old file) and its next step stays well defined |
| Campaigns.CallKeepsOwnership | internal/deploy/ownership.go:46-106 | A call whose files set no mode and no owner pair leaves the permission bits and owner pair of an existing file, at any point of the call, if the process is root or owns the file and the janitor does not take it for a backup |
| Campaigns.OwnershipNeverChanges | internal/deploy/doc.go:42-49 | The same over any sequence of calls that succeed, fail, roll back or stop half way |
| Limits.OwnershipKeptExactly | internal/deploy/ownership.go:126-155 | For every plan without overrides and every existing destination the janitor does not take for a backup: mode bits and owner pair are kept in every state of every run if and only if the process is root or owns the file |
| Campaigns.HistoryStep | internal/deploy/apply.go:124-142 | For every retention and every outcome but abort: the call adds the bytes it found to the list of backup contents, unless it skipped or takes no backups, and keeps the last `keep` if it succeeded |
| Campaigns.ZeroRetentionKeepsThree | internal/deploy/apply.go:217-226 | With retention 0 a successful call keeps the last three |
| Campaigns.AbortedHistory | internal/deploy/atomic.go:218-241 | An aborted call only appends to the list of backup contents |
| Campaigns.BackupHistory | internal/deploy/doc.go:54-57 | After any sequence of calls on any destinations, each ending any way, the newest `keep` backups of d are the last `keep` of the earlier ones followed by what the calls added: the content found, for every call that got past its backups |
| Campaigns.BackupsAreTheLast | internal/deploy/doc.go:54-57 | If the last of them deployed d, its backups are exactly those |
| Retention.TopIsLast | internal/deploy/atomic.go:267-271 | Keeping every backup with fewer than `keep` newer ones keeps exactly the last `keep` in time order |
| Retention.RankSurvives | internal/deploy/atomic.go:269-271 | The i-th backup in time order is kept exactly when fewer than `keep` follow it |
| Refinement.SkipsExactly | internal/deploy/apply.go:83-103 | Without errors, a call skips if and only if skipping is allowed and every destination matches; then it has changed nothing and called no hook |
| Refinement.SmoothCallSucceeds | internal/deploy/apply.go:44-230 | If every user and group that counts is known and no system call or hook fails, a finished call, Apply or AtomicWriteFile, has skipped or deployed |
| Refinement.ReapplyDoesNothing | internal/deploy/doc.go:37-41 | Applying a plan again after it succeeded skips, changes nothing and calls no hook |
| Refinement.AtomicWriteRefinesApply | internal/deploy/atomic.go:64-160 | A successful AtomicWriteFile and a successful one-file Apply with the same options leave the same bytes and the same ownership wherever it is fixed; given a moving clock, and a working janitor where there is something to prune, the same backup contents for every retention, though they back up and stage in opposite orders |
| Refinement.AtomicWriteSkipsAlike | internal/deploy/atomic.go:83-93 | The two take the same decision to skip |
| Host.Host.constructor | internal/deploy/apply.go:44-45 | A host starts with the given files, an empty run and the call at its start |
| Host.Host.Call | internal/deploy/apply.go:44-230 | One system call: it must be allowed where the call stands, its reply is a possible one, and the run grows by exactly that event |
| Host.WriteTempFile | internal/deploy/atomic.go:179-213 | Creates, writes, syncs and closes the temp, in that order, or leaves the call where a failed temp leads, with the temp removed or recorded as stuck |
| Host.ApplyOwnership | internal/deploy/ownership.go:126-155 | Chmod then chown; a failed chown counts only for root; on success the call goes on, otherwise the temp has to go |
| Phases.AllMatch | internal/deploy/apply.go:83-103 | The idempotency loop ends the call as skipped or leads to the stats |
| Phases.Prepare | internal/deploy/apply.go:105-122 | Stats and resolves every file in order; a failed lookup ends the call with nothing changed |
| Phases.BackupFile | internal/deploy/atomic.go:218-241 | Reads, stats, writes and chowns the backup; the stamp is recorded or the call goes to its failure path |
| Phases.TakeBackups | internal/deploy/apply.go:124-142 | Backs up every existing destination, names each backup (or none) in the result map, or removes those taken and aborts |
| Phases.CleanupBackups | internal/deploy/apply.go:324-330 | Removes the partial set of backups and ends the call as aborted |
| Phases.CleanupTemps | internal/deploy/apply.go:146-152 | Removes every recorded temp and ends the call with the given outcome |
| Phases.StageAll | internal/deploy/apply.go:153-165 | Every temp written and owned, or every temp removed and the call aborted |
| Phases.Validate | internal/deploy/apply.go:167-174 | PreCommit gets the temp of every destination; refusal removes the temps and ends as rejected |
| Phases.RenameAll | internal/deploy/apply.go:181-192 | Renames in order and says how many were made |
| Phases.RestoreFromBackups | internal/deploy/apply.go:269-319 | Restores or removes each of the first n destinations, goes on after an error and says whether there was one |
| Phases.PruneBackups | internal/deploy/atomic.go:246-279 | Lists by name and removes what lies beyond retention, errors ignored |
| Phases.Janitor | internal/deploy/apply.go:217-226 | One pruning pass over every destination |
| Deploy.ValidatePlan | internal/deploy/apply.go:233-252 | Accepts exactly the plans with a file, no empty path and no repeated destination |
| Deploy.Apply | internal/deploy/apply.go:44-230 | An invalid plan is refused exactly and before any I/O; otherwise error and flags say how the run ended; with backups on, every result but a skip lists exactly the destinations, each with no backup exactly if its first stat did not find it, and else with the backup the run wrote of the file there was; otherwise it lists none; and, if no destination is called like a temp or backup of the plan, with backups on the destinations are all new, or all old in bytes and, where ownership fits, in full, or the result names the backups that hold the old bytes |
| Deploy.AtomicWriteFile | internal/deploy/atomic.go:64-160 | An empty path is refused before any I/O; success means that the new bytes are in place, failure that the file is untouched in bytes, mode and owner; the file counts as replaced exactly if the first stat found it, and the result names a backup exactly if it was replaced and backups are on: the one the run wrote of the file there was |
| Deploy.Recovers | internal/deploy/types.go:33-39 | When rollback failed, the result's backup paths name, for every destination that existed, a file with its old bytes |
| Commuting.Commute | internal/deploy/atomic.go:19-27 | Two system calls that look at and change different files can be made in either order, with the same replies and the same files |
| Commuting.AllowsAt | internal/deploy/apply.go:44-230 | A call touches only its destinations, their siblings and what pruning takes for their backups |
| Commuting.ZonesApart | internal/deploy/atomic.go:252-266 | Plans without a common destination, none near another's or called like its temps or backups, touch different files |
| Commuting.ShiftRun | internal/deploy/apply.go:51-73 | A system call on files outside a call's reach made after a whole run of it could have been made before it |
| Locks.OrderCovers | internal/deploy/apply.go:62-63 | The sorted lock list is strictly ascending and holds exactly the plan's destinations |
| Locks.HoldersApart | internal/deploy/atomic.go:29-38 | Two calls that hold all their locks have no path in common |
| Liveness.RepeatedPathBlocksForever | internal/deploy/apply.go:247-249 | A call whose lock list repeats a path waits for itself, and in no play from there does it ever move again, which is why repeated destinations are rejected |
| Interleaving.PlayKeeps | internal/deploy/apply.go:51-77 | Every interleaving keeps the lock table exact, running calls apart and, with names apart, the serial order |
| Interleaving.Serializable | internal/deploy/doc.go:50-53 | However any number of calls interleave, if no destination is near another or called like its temps or backups, the files are those of running the calls one after the other in the order they got their locks |
| NamedPlays.PlaysByName | internal/deploy/doc.go:50-53 | If no destination of any call is called like a temp or backup of another, every interleaving on names is the same interleaving on paths, with the same states |
| NamedPlays.SpreadFits | internal/deploy/types.go:239-248 | Calls whose names are spread out are such calls |
| Clashes.NearNamesClash | internal/deploy/atomic.go:252-278 | For every one-file plan on d that prunes and every one on `d.certctl-bak` there is an interleaving whose replies no order of the two calls gives |
| Liveness.EveryCallKept | internal/deploy/apply.go:51-77 | In that serial order every finished call with backups on that does not report a failed rollback is all or nothing from its place to the next |
| Interleaving.MutualExclusion | internal/deploy/atomic.go:29-38 | No path is ever held by two calls |
| Interleaving.NoDeadlock | internal/deploy/apply.go:51-73 | In every reachable state, if a call is unfinished some call can move |
| Liveness.ActFalls | internal/deploy/apply.go:51-77 | Every step of every call, locking and unlocking included, leaves strictly less to do |
| Liveness.NoInfinitePlay | internal/deploy/apply.go:51-77 | No interleaving goes on forever |
| Liveness.StoppedIsDone | internal/deploy/apply.go:51-77 | An interleaving that cannot go on has finished every call |
| Liveness.CanFinish | internal/deploy/apply.go:51-77 | Every interleaving can be continued until every call is finished |
| Order.SortAscends | internal/deploy/apply.go:63 | Sorting distinct strings makes them strictly ascending |
| Order.SortContains | internal/deploy/apply.go:63 | Sorting keeps every string with its count |
| Names.NanosOrder | internal/deploy/atomic.go:295-301 | For all nonnegative int64 values the encoding has 19 digits, its string order is the numeric order, and it is injective |
| Names.NanosStrIsPad | internal/deploy/atomic.go:295-301 | Zero-padding the decimal is the digit-by-digit fixed-width encoding |
| Names.NameFormat | internal/deploy/types.go:239-248 | A temp or backup is called like its destination with `.certctl-tmp.` or `.certctl-bak.` and 19 digits |
| Names.RenderInjective | internal/deploy/types.go:239-248 | Different paths in canonical form have different names |
| Names.EveryNameHasAPath | internal/deploy/types.go:239-248 | Every string is the name of a path in canonical form |
| Naming.RunsByName | internal/deploy/atomic.go:179-190 | For every plan whose destinations have none of its temp and backup names: the runs of a call on names are exactly its runs on paths, with the same states |
| Aliases.AbortsCleanExactly | internal/deploy/apply.go:124-165 | For every plan of Apply whose lookups work: an aborted call leaves every destination untouched, in every directory and every run on names, if and only if no destination has a name the plan gives to a temp or, with backups on, to a backup |
| Aliases.TempNameLosesBytes | internal/deploy/apply.go:153-192 | With the destinations `x.certctl-tmp.<n>` and `x`, in that order, some run succeeds with the first destination gone and its bytes in the second |
| Names.ListedExactly | internal/deploy/atomic.go:252-266 | The prefix test for `d` finds exactly: d's backups, the temps and backups of every destination called `d.certctl-bak` or with d's backup prefix, and every other file with the prefix; never d's own temps |
| Names.AtRiskExactly | internal/deploy/atomic.go:252-278 | A file can be lost to a pruning of d, in some directory, if and only if its name has d's backup prefix |
| Names.ListingsApart | internal/deploy/atomic.go:252-266 | Prunings of destinations that are not near each other never find the same file |
| Names.NamesToPrune | internal/deploy/atomic.go:246-271 | The collecting loop, which skips directories, and the sort give the names beyond the last `keep` in string order |
| Names.PruneIsDoomed | internal/deploy/atomic.go:267-271 | In every directory a listed file's name is removed if and only if `keep` or more listed names come after it |
| Names.LonePruneIsByAge | internal/deploy/atomic.go:243-271 | If only d's backups have the prefix, what goes is exactly the backups with `keep` or more newer ones |
| Der.TlvPrefix | internal/cms/channelbinding.go:230-236 | Bytes after an element do not change how the element is read |
| Der.TlvRoundTrip | internal/cms/channelbinding.go:347-352 | Reading an encoded element of any class, tag and length gives the element and what follows it |
| Der.TlvExactly | internal/cms/channelbinding.go:230-236 | An element is read if and only if the bytes start with its one encoding: minimal tag, minimal definite length, within the size limits |
| Der.OidRoundTrip | internal/cms/channelbinding.go:356-359 | Reading an encoded object identifier gives its arcs back |
| Der.OidExactly | internal/cms/channelbinding.go:241-246 | An object identifier is read if and only if the bytes start with its one encoding |
| ChannelBinding.WalkLoop | internal/cms/channelbinding.go:229-273 | The attribute loop ends on every input with the result of the recursive walk |
| ChannelBinding.WalkCSR | internal/cms/channelbinding.go:187-274 | The whole walker ends on every input with the result of its specification: outer sequence, three fields skipped, attributes walked |
| ChannelBinding.FoundMeans | internal/cms/channelbinding.go:229-273 | A value is returned if and only if the first attribute with either identifier, by its arcs, has next a SET whose first element is that value as a 32-byte OCTET STRING |
| ChannelBinding.MisshapenMeans | internal/cms/channelbinding.go:249-270 | The error that wraps "missing" is returned if and only if the first attribute with either identifier holds no such value |
| ChannelBinding.FailedMeans | internal/cms/channelbinding.go:230-234 | The other error is returned if and only if the attributes cannot be read on before any with an identifier |
| ChannelBinding.WrittenDecides | internal/cms/channelbinding.go:249-272 | However an attribute with either identifier is written, whatever classes, tags, lengths and trailing bytes, after any well-formed ones without: its value is returned if it is a 32-byte OCTET STRING in a SET, and else the walk is an error |
| ChannelBinding.AbsentMeans | internal/cms/channelbinding.go:229-273 | The answer is "absent" if and only if the attributes are well formed to the end and none has a binding identifier |
| ChannelBinding.RequestFoundMeans | internal/cms/channelbinding.go:187-274 | On any byte string: a value is returned if and only if it is a sequence of three elements and an attributes field whose first attribute with an identifier holds that value |
| ChannelBinding.RequestMisshapenMeans | internal/cms/channelbinding.go:187-274 | On any byte string: the error that wraps "missing" if and only if that attribute is there and holds no value |
| ChannelBinding.RequestFailedMeans | internal/cms/channelbinding.go:187-274 | On any byte string: the other error if and only if it is no sequence of at least three elements or its attributes break off before one with an identifier |
| ChannelBinding.RequestAbsentMeans | internal/cms/channelbinding.go:187-274 | On any byte string: the answer is "absent" if and only if it is a sequence of three elements followed by no readable attributes field, a truncated one included, or by well-formed attributes without an identifier |
| ChannelBinding.FirstMarkedDecides | internal/cms/channelbinding.go:245-272 | The first attribute with an identifier alone decides: the value it holds, or an error, never "absent" |
| ChannelBinding.Embed | internal/cms/channelbinding.go:337-346 | Succeeds exactly on 32-byte exporters |
| ChannelBinding.EmbeddedElement | internal/cms/channelbinding.go:347-372 | The embedded bytes read as one attribute of the exporter identifier that holds the exporter |
| ChannelBinding.WalkUndoesEmbed | internal/cms/channelbinding.go:330-372 | After any well-formed attributes without a binding identifier, and before anything at all, the embedded exporter is what the walker returns |
| ChannelBinding.RequestUndoesEmbed | internal/cms/channelbinding.go:187-274 | The same inside any well-formed request, whatever its fields and lengths |
| ChannelBinding.AcceptedExactly | internal/cms/channelbinding.go:291-328 | On every connection state and request: accepted if and only if the handshake is complete, TLS 1.3 or later and exports 32 bytes that are the request's binding; or the profile is optional and the request has none; or the profile is optional, nothing is exported and no binding can be read |
| ChannelBinding.RefusedExactly | internal/cms/channelbinding.go:84-110 | Each refusal (missing, too old, export failed, malformed, misshapen binding, mismatch) has its exact condition on state and request |
| ChannelBinding.MalformedIsFatalExactly | internal/cms/channelbinding.go:291-308 | A request that is malformed or binds a misshapen value is refused if and only if the binding is required or there is a live exporter |
| ChannelBinding.EmbeddedExporterVerifies | internal/cms/channelbinding.go:291-372 | A request with an embedded exporter is accepted on a connection with that exporter and a mismatch on any other |
| Text.SplitComma | internal/config/config.go:1633-1644 | The index loop gives the specification's pieces |
| Text.JoinUndoesSplit | internal/config/config.go:1633-1644 | Joining the pieces gives the input back and no piece contains the separator |
| Text.SplitUndoesJoin | internal/config/config.go:1633-1644 | Splitting joined pieces without separators gives the pieces back |
| Text.TrimSpace | internal/config/config.go:1647-1656 | The two loops give the specification's trimmed text |
| Text.TrimMeans | internal/config/config.go:1647-1656 | The trimmed text is the one text that neither begins nor ends with a space or tab and is the input with only spaces and tabs removed around it |
| ApiKeys.IsValidKeyName | internal/config/auth.go:607-617 | True exactly of nonempty names of letters, digits, hyphens and underscores |
| ApiKeys.NameCharExactly | internal/config/auth.go:611-615 | The characters of a name, by code point: ASCII letters and digits, hyphen and underscore |
| ApiKeys.EntryMeans | internal/config/auth.go:525-560 | An entry reads as a key if and only if, trimmed, it is two or three fields joined by colons that trim to a valid name, a nonempty key and, for an admin and only then, `admin`; it is passed over if and only if it is blank |
| ApiKeys.FaultMeans | internal/config/auth.go:525-588 | Each error is returned for an entry, after the keys before it, exactly under its condition, in the order of the tests: format, admin flag, name, key, repeated pair, admin mismatch |
| ApiKeys.ParseNamedAPIKeys | internal/config/auth.go:506-604 | The loop with its tables computes the specification's result, error kind included |
| ApiKeys.ParsesExactly | internal/config/auth.go:480-506 | The input is accepted with a list of keys if and only if it is parts joined by commas that, blank ones aside, denote those keys in order, with valid names, nonempty keys, no repeated pair and one admin flag per name |
| ApiKeys.RejectsExactly | internal/config/auth.go:506-604 | It is rejected with an error if and only if that is what is wrong with the first part that is wrong after those before it |
| ApiKeys.PairKeyInjective | internal/config/auth.go:561-567 | For valid names the joined pair key is the same exactly for the same name and key |
| ApiKeys.ParseUndoesPrint | internal/config/auth.go:506-604 | Every list that keeps the contract and whose keys can be written in the format is read back from its printed form |
| KeyStore.MutableKeyStore.constructor | internal/auth/keystore.go:104-116 | The store starts with one hashed entry per key, in order |
| KeyStore.MutableKeyStore.LookupByHash | internal/auth/keystore.go:119-129 | Lookup agrees with the map the entries stand for, repeated hashes included |
| KeyStore.MutableKeyStore.AddHashed | internal/auth/keystore.go:142-153 | The map gains exactly this binding and keeps every other |
| KeyStore.MutableKeyStore.Add | internal/auth/keystore.go:135-137 | The same for a key that still has to be hashed |
| KeyStore.FirstCounts | internal/auth/keystore.go:119-129 | The map gives a hash the identity of its first entry, and has no hash without an entry |
| KeyStore.AddMeans | internal/auth/keystore.go:142-153 | Replacing the first match or appending is a map update, even with repeated hashes |
| KeyStore.AddsCommute | internal/auth/keystore.go:142-153 | Additions of different hashes commute |
| KeyStore.SeededKeyResolves | internal/auth/keystore.go:104-129 | A configured key whose secret no earlier entry uses resolves to its own name and flag |
| KeyStore.RotationOverlap | internal/config/auth.go:579-583 | During a rotation both secrets of a name resolve to the same identity |
| Ciphertext.WriteThenRead | internal/crypto/encryption.go:274-296 | The writer's output is a version 3 blob of plaintext length plus 45, not legacy, and is read back to the plaintext |
| Ciphertext.ReadsExactly | internal/crypto/encryption.go:322-365 | On every blob: no passphrase and no bytes are refused as such; a plaintext is returned if and only if the cipher gives it on one of the three layouts, byte for byte, with its salt and rounds, the headerless one only if no header opens; what opens on none is refused |
| Ciphertext.WritesExactly | internal/crypto/encryption.go:274-296 | Without a passphrase the writer refuses, and else makes 3, the salt, the nonce and what is sealed under 600000 rounds |
| Ciphertext.LegacyExactly | internal/crypto/encryption.go:248-254 | A blob is called legacy exactly when it is not empty and cannot begin a version 2 or 3 blob |
| Ciphertext.ReadsV2 | internal/crypto/encryption.go:322-365 | Every version 2 blob is read back to its plaintext |
| Ciphertext.ReadsV1Exactly | internal/crypto/encryption.go:322-365 | A version 1 blob is read back if and only if the cipher rejects the misaligned reading (or that gives the same plaintext), and always when its nonce does not start with 2 or 3 |

## Left out

- Commands, HTTP handlers, the user interface, the agent loop, connectors and the domain records: wiring, or properties settled by reading one branch.
- Power loss: that a sync comes before every rename is in Durability.SyncedBeforeRename, what it does to the disk is not modelled.
- Path normalisation, symbolic links and several directories: a file is its absolute path, a plan is given with absolute paths, and a listing is that of one directory.
- Plans with a destination called like a temp or backup of another: each of them breaks a promise (Aliases.AbortsCleanExactly), and nothing weaker is promised of them.
- Writes to the destinations by hooks or by other programs while a call runs.
- A chmod or chown that clears set-uid bits, and ownership on Windows: chown changes the pair and nothing else, and a stat always knows the pair.
- SHA-256, AES-GCM, PBKDF2 and the TLS exporter are functions with stated properties; user and group lookup is a table.
- The content of temps that were on disk before a call is not tracked.
- A backup that fails half way may leave a torn backup file: Records.FailedBackupLeavesNothing excludes that, and Campaigns.AbortedHistory promises nothing about what an aborted call appends.
- Negative clock values; every stamp is a nonnegative int64.
- `Duration`, logging, constant-time comparison and panics inside hooks.
- The read-write mutex of the key store: its methods are modelled one at a time; `StaticKeyStore` would repeat the lookup.
- encoding/asn1 is not part of this model's source: its reader is modelled from sections 8.1 and 10.1 of ITU-T X.690 with that library's size limits, and encoded bodies are at most 2^31 - 1 bytes.
- Phases.PruneBackups: works on the set of matching paths and removes in any order; the names, the directories and the string sort are in Names.NamesToPrune, and Guarantees.PrunesByName connects the two.
- The lock steps of a call are in Locks and Interleaving, not in the method Apply; relative paths that cannot be made absolute are not modelled.
