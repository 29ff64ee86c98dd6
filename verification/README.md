# Verified models of subflux

These Dafny modules model the parts of subflux whose behaviour is hardest to see from one function, and prove what
the code promises of them. Every main statement is for all inputs, all runs or all reachable states.

## What is modelled

**The ownership and coverage store** (`internal/statedb`). `Tables` holds every table of the core namespace the claim
rules read or write as one value, `Db`, with the invariant of a committed store: records and owned instances name each
other, paths are unique, a listed record names a stored sighting that claims its key at the instance's path, a key some
sighting claims with no video is recorded, sightings and stamps go together under stored roots, a pending write is for a
stored instance that still lists what the write names, and the stored coverage of every listed key is what judging it
now would store.

- `Claims`, `Settlement`, `Passes`, `Activations`, `Intents`, `Inventory` and `Judging` say what each write does, branch
  for branch, as functions on `Db`. `Observations`, `KeyLoss`, `Coverages`, `Endings` and `Stores` are the writes
  themselves: an open transaction (`Transactions.Tx`) whose tables are changed row by row, in the loops the code has,
  and rolled back on a refusal. Each method's contract ties the new tables to those functions.
- `ClaimsKeep`, `ObserveKeeps`, `SettlementKeeps`, `PassesKeep`, `ActivationsKeep` and `IntentsKeep` carry the weaker
  invariant through a suspended write (a broken record is released, an empty instance is remembered, stale coverage is
  touched) and show that settling makes it whole. `Runs` puts every call together over any run, with reopens.
- What each operation leaves is then said of its tables alone: `BareRecords`, `Sightings`, `Heirs` and `Reclaims` for
  reports, `Retirement` for complete passes, `Removals` and `Returns` for sources that go and come back, `Verdicts` for
  coverage and locks, `Landings` for files, `StandingLocks` for what locks outlive, `Refusals` and `ReportRefusals`
  for every refusal.
- `Pins` and `Protocol` follow pending writes over whole runs; `ItemSteps`, `Renumbering` and `RenumberingLost` follow
  which instances and files a report keeps, renumbered items among any others; `StrayLocks` and `StrayLocked` follow
  which calls can lock a key with no record (`PlainRuns` is what the two runs written out share); `Feed`,
  `WrittenRoots`, `ChangeLog` and `Publishing` follow what commits publish and what a stale reader is told.
- `KeyText`, `KeyBytes`, `Bytes`, `RefKeys`, `Paging`, `Reads` and `KeysKeep` cover key codecs, cursors and listings;
  `WorkQueue` the generation-stamped queue.

**Independent cores.** `Alignment` and `AlignmentSearch` (`internal/subsync`): the weighted overlap of two subtitles and
both searches for its best shift, over real numbers. `Mapping` and `Paths` (`internal/mediasource`): longest-prefix path
mapping and its configuration check. `JobStates`, `JobRuns` and `JobEnds` (`internal/status`): terminal records under
failing and ambiguous writes. `SettingsService`, `Documents` and `Merging` (`internal/settings`): the save slot, and the
masked document filled back. `LineDiff` (`cmd/release-patterns`): the trimmed longest-common-subsequence diff.

## Findings

Where the code falls short of what its comments or tests promise, with the input and the exact condition.

- A renumbering report can lose a file (`RenumberingLost.RenumberingLoses`). When a source was removed and came back, a
  key can still be recorded under an ownerless instance for a sighting that now has another key. An item of the same
  report that comes after that sighting and takes the key at its own unchanged path is taken for a second path of the
  key (`internal/statedb/observe.go:357-370`) and stored with none; its instance, now empty, is deleted with its files
  (`internal/statedb/observe.go:282-296`). `Renumbering.Blocked` is when that happens to an item, and
  `Renumbering.Survives` exactly when an instance stays all the same; both read only the tables before the report.
- The dense alignment search always answers one millisecond less than the first best shift, which is never a best one:
  its answer is best if and only if the dense array was not used (`AlignmentSearch.AlignConstantOffset`). On two equal
  one-millisecond spans it moves one from overlapping whole to not at all (`AlignmentSearch.DenseMisses`); the comment
  at `internal/subsync/align_merge.go:37-41` speaks of up to one.
- A key may be read from other bytes than its own (`internal/statedb/keys.go:108-119`), if and only if a length in them
  is spelt with a needless last byte (`KeyBytes.RootRefSpelling`, `KeyBytes.ItemRefSpelling`,
  `KeyBytes.FileKeySpelling`, `KeyBytes.LockKeySpelling`); `KeyBytes.OverlongLength` gives one.
- A finished job can stay unsaved until a restart (`internal/status/persist.go:137-182`): it can still be saved if and
  only if its record is stored or its attempt under way has landed (`JobRuns.SavableExactly`). A write that lands and
  reports failure, and a sweep, get there from an empty store (`JobRuns.LostForGood`).
- A view is refused when saved unedited if and only if a quoted key of the file, written bare, would be a merge key
  (`internal/settings/shape.go:72-129`, `Merging.ViewWhole`), as a quoted `<<` is (`Merging.QuotedMergeKey`).
- Acknowledging one read of the work queue twice (`internal/statedb/work.go:51-120`) removes a later enqueue if and only
  if the instance was queued since as often as it had been at the read (`WorkQueue.AckAgain`); `WorkQueue.AckTwice` is
  the case of once.
- A lock can be set on a key that has no record, by an End that lands a locked delivery of a key its ownerless instance
  still lists (`internal/statedb/intents.go:255-279`), and by no other call (`StrayLocks.StepStray`,
  `StrayLocks.UnrecordedOwnerless`); a run from an empty store does it (`StrayLocked.DeliveryStrays`).

## Model

| member | source | states |
|---|---|---|
| Runs.StepKeeps | internal/statedb/observe.go:30-53 | Any call (report, pass, activation, begin or end of a write, probe, listing, lock, attempt log, reopen) under any arguments keeps the whole invariant of a committed store: ownership links both ways, unique non-empty paths, every record naming a sighting that claims its key, the key-loss rule, stamps, sources, overlaps, pending writes, and coverage equal to recomputation |
| Runs.ReachableSound | internal/statedb/schema.go:119-180 | Every state any run of a new store reaches keeps that invariant, whatever the calls, their order, the clock, and how a reopened program grades the same digest |
| Runs.ObserveItemsKeeps | internal/statedb/observe.go:30-53 | A report commits the invariant; its only refusals are a malformed report, an inactive source, an unknown pass or a pinned instance, so the final settling never meets a row that is gone |
| Runs.BeginPassKeeps | internal/statedb/pass.go:31-55 | Opening a pass, abandoning any open one, keeps the invariant and gives the next pass number |
| Runs.FinishPassKeeps | internal/statedb/pass.go:90-131 | Closing a pass, complete or not, keeps the invariant |
| KeysKeep.ReachableReadable | internal/statedb/observe.go:87-96 | Every reachable state records only keys Choose builds, which is what the list reads rely on |
| KeysKeep.StepValid | internal/statedb/observe.go:164-196 | No call of any kind records a key Choose would not build |
| Refusals.StepRefused | internal/statedb/pass.go:31-131 | Why any call under any arguments is refused, error by error, but for a pending write: a bad scope, report or list of kept roots (33 or more, of a batch, of an incomplete pass), an inactive source, a pass no longer open, a source named twice, an unknown instance, a write already pending or wrong of its kind, an unlockable pair; no call meets a row that is gone. Opening a pass replaces only its source's, an incomplete close only ends it |
| Refusals.PassRefused | internal/statedb/pass.go:163-210 | A pass is closed unless its arguments are wrong or, closed as complete, a sighting it did not see holds a key that its instance lists while a write is pending there |
| ReportRefusals.ReportRefused | internal/statedb/observe.go:130-196 | A well-formed report of an open pass, of distinct keys, is refused if and only if an item of it meets a pending write, by the tables before the report: it leaves the key or path at which an instance a write waits on holds its key, no item before it having attached that key, or it attaches at such an instance's path, unless it is held there already, or takes its key from one |
| ReportRefusals.ItemRefused | internal/statedb/observe.go:259-277 | The same for one item, by the tables as it finds them |
| StandingLocks.LocksStand | internal/statedb/coverage.go:175-192 | Through a report, a complete pass or an activation a lock on a recorded key stands, with its date, if and only if its key is still recorded and, unless its instance has no owner, its item still wants the pair; none is set |
| Observations.Observation.DetachKey | internal/statedb/observe.go:259-277 | Detaching is exactly: nothing when the key is not listed, a refusal when the instance is pinned, else the key leaves the list and is remembered as emptied |
| Observations.Observation.ReleaseClaim | internal/statedb/observe.go:232-256 | Giving up a claim drops the overlap row and, only when the record still names this sighting, detaches the key, clears its instance and records it released and touched |
| Observations.Observation.UnlinkRecords | internal/statedb/observe.go:454-473 | The loop over an instance's keys clears exactly the records that name it, releasing and touching those keys and no other |
| Observations.Observation.ExpireOne | internal/statedb/observe.go:481-492 | An expired instance goes with everything stored for it, its roots are marked written and the keys it held are released |
| Observations.Observation.RecordNoVideo | internal/statedb/observe.go:304-327 | The no-video rule, written out: the record becomes this sighting's unless it is another's held by an instance, by another source or by a sighting this pass has stamped (`BareRecords` says it of whole reports) |
| Observations.Observation.OverlapOwner | internal/statedb/observe.go:393-405 | The rival is the other live owner of the path, else of the instance holding the key elsewhere |
| Observations.Observation.Attach | internal/statedb/observe.go:420-450 | A key joins an instance this source owns, claims an ownerless one (keeping only that key), replaces an expired one, or makes a new one; a pinned instance is neither claimed nor given a key |
| Observations.Observation.AttachFor | internal/statedb/observe.go:373-388 | The claim is recorded and the key taken from the instance that held it elsewhere |
| Observations.Observation.AttachOrNote | internal/statedb/observe.go:332-364 | The three outcomes of a key at a path: overlap, stored with no key on a second path in one pass, or attached |
| Observations.Observation.Observed | internal/statedb/observe.go:164-196 | One item in place does what the specification of an item does, branch for branch, or stops with its refusal |
| Observations.Observation.ObserveItems | internal/statedb/observe.go:130-155 | The loop over a report's items carries the weak invariant of a suspended write: broken records are released, empty instances emptied, stale coverage touched |
| Observations.Observation.Report | internal/statedb/observe.go:130-159 | Root record, its stamp, the first scene name a path, then the items, ending in the weak invariant |
| Observations.Observation.DropEmptiedRows | internal/statedb/observe.go:282-299 | Exactly the emptied instances nothing refilled are deleted with their cascade, in any order of the map |
| Observations.Observation.CollectUnheld | internal/statedb/observe.go:530-563 | The lost keys are exactly the released ones whose record names no instance and no sighting still reporting them bare |
| Observations.Observation.Finish | internal/statedb/observe.go:504-526 | Settling in place is its specification: drop, hand on, recompute the other touched keys |
| Observations.Observation.ScanStale | internal/statedb/pass.go:163-181 | A prefix scan lists the unstamped rows of a source or root in key order |
| Observations.Observation.CollectStale | internal/statedb/pass.go:163-181 | A pass over roots lists each root's unstamped rows in turn, a whole pass the source's |
| Observations.Observation.RetireRow | internal/statedb/pass.go:190-210 | A retired row goes with its root record, or with its sighting and the claim it held |
| Observations.Observation.Retire | internal/statedb/pass.go:163-188 | Retiring stops at the first pinned instance, else retires every listed row |
| Observations.Observation.ExpireOrphans | internal/statedb/pass.go:214-231 | Expiring orphans one by one equals expiring them together: an instance goes if and only if it is ownerless, unpinned and was orphaned more than thirty days ago (`Retirement` says it of whole passes) |
| ClaimsKeep.ReleaseKeeps | internal/statedb/observe.go:232-256 | Giving up a claim keeps the weak invariant of a suspended write |
| ClaimsKeep.AttachLinks | internal/statedb/observe.go:332-388 | Attaching keeps ownership links both ways, the names records carry and the key-loss rule |
| ObserveKeeps.ObserveItemKeeps | internal/statedb/observe.go:164-196 | One item keeps the weak invariant and stamps its sighting, whatever it claims |
| ObserveKeeps.ReportKeeps | internal/statedb/observe.go:130-155 | A whole report, in any order of its items, ends in the weak invariant |
| ObserveKeeps.ObserveAllRefusal | internal/statedb/observe.go:259-277 | A report that passes its checks is only ever refused for an instance that a write is pending on |
| BareRecords.OtherSourceKeeps | internal/statedb/observe.go:301-328 | A report never moves another source's bare record: the key keeps it or, reported at a free path, joins an instance of the reporting source |
| BareRecords.OwnSourceMoves | internal/statedb/observe.go:301-328 | Within a source the first item to report the key bare takes the record of a sighting its pass has not seen; one it has seen keeps it |
| BareRecords.ReportUnheld | internal/statedb/observe.go:301-364 | What any report leaves of any key no instance held, from the tables before it: it joins the first item at a free path, else keeps the record offered, else passes to the first sighting still reporting it bare or is forgotten |
| Sightings.ReportOverlaps | internal/statedb/observe.go:332-405 | A report leaves an overlap row of exactly those of its items whose path another live source owns or, failing that, whose key one holds, naming it; no other row changes |
| Sightings.ItemStored | internal/statedb/observe.go:164-196 | An item's sighting is stored whole, without its key exactly when it is a second path for one in the pass |
| Sightings.ReportMarks | internal/statedb/observe.go:185-230 | A report sets the unidentified mark exactly when some unidentified sighting appeared, changed or went |
| Sightings.PassMarks | internal/statedb/pass.go:190-210 | So does closing a pass |
| Sightings.ReportScene | internal/statedb/observe.go:130-155 | The instance an item attaches at ends with the scene of the first item reported at its path |
| Sightings.MovieKeyed | internal/statedb/observe.go:85-96 | A movie is keyed by its TMDB id, else its IMDb id, its own before its root's, and by none out of range |
| Sightings.EpisodeKeyed | internal/statedb/observe.go:85-96 | An episode is keyed by its show's id of the scheme it is numbered by, with two-byte numbers, or not at all |
| Heirs.SettledRecord | internal/statedb/observe.go:530-563 | Settling hands on exactly the keys held nowhere whose record's sighting no longer reports them bare: to the first sighting in key order that does, or to none; every other record stays |
| Reclaims.ReportReclaims | internal/statedb/observe.go:416-450 | An item that attaches at an ownerless instance's path claims it with its files when it was orphaned at most thirty days ago; past that the instance and its files go and the key joins a new one |
| SettlementKeeps.SettleKeeps | internal/statedb/observe.go:504-526 | From the weak invariant settling always succeeds and restores the whole invariant, though it recomputes only touched keys |
| SettlementKeeps.HandOnKeeps | internal/statedb/activate.go:229-253 | Handing on always succeeds, makes the handed keys current and leaves ownership, names and the key-loss rule whole |
| SettlementKeeps.BequeathKept | internal/statedb/activate.go:229-285 | Key-loss rule: after any hand-on, every key some stored sighting claims with no video still has its record |
| KeyLoss.NoVideoSightings | internal/statedb/activate.go:258-274 | One scan in key order answers, for each lost key, the first stored sighting claiming it with no video, and none exactly when there is none |
| KeyLoss.HandOnKeys | internal/statedb/activate.go:229-285 | The loop over lost keys, each put and recomputed or deleted with its coverage and locks, equals the rule applied to all at once |
| KeyLoss.HandOnSucceeds | internal/statedb/activate.go:229-253 | No record a hand-on writes can be broken, so its recompute never fails |
| Renumbering.ReportKeepsFiles | internal/statedb/observe.go:130-155 | For any report of distinct keys, whatever else its items are: an instance its source owns stays, with its id, path, owner and every file record, if and only if an item attaches at its path or a key it holds is neither attached by the report nor of a sighting in it; otherwise it goes with all its file records |
| Renumbering.RenumberingKeepsFiles | internal/statedb/observe.go:164-196 | Among any other items and in any order, an item that keeps its path and takes a key no other live source holds keeps its file's instance and file records, and the instance lists the new key, unless the item is blocked |
| Renumbering.RenumbersAttaches | internal/statedb/observe.go:332-364 | A renumbered item attaches exactly when it is not blocked: when its new key is not still held, as the items before it leave the tables, for another sighting of this source seen in the pass |
| Renumbering.BlockedOwnerless | internal/statedb/observe.go:345-364 | An item is blocked only when its new key is still recorded under an ownerless instance, or for a sighting an earlier report of the pass has seen |
| Renumbering.ReportTracked | internal/statedb/observe.go:130-155 | After any number of items, where every key is held, which instances stand and which sightings are stamped is what the tables before the report foretell |
| Renumbering.NextAttaches | internal/statedb/observe.go:332-364 | Whether an item attaches once the items before it are in is decided by the tables before the report |
| ItemSteps.ItemMoves | internal/statedb/observe.go:232-256 | An item takes another key from its instance only by giving it up or by taking over the ownerless instance that holds it |
| ItemSteps.ItemStands | internal/statedb/observe.go:332-450 | An item moves no owned instance, its path, owner or files; an ownerless one changes only at the item's path, and only if the item attaches, which puts its key there |
| ItemSteps.ItemLeaves | internal/statedb/observe.go:304-364 | An item that attaches nothing leaves its key where it was held, unless for itself at an owned instance: then nothing holds it |
| RenumberingLost.RenumberingLoses | internal/statedb/observe.go:357-370 | After ten calls on a new store, a report that keeps a video at its path, with a free new key, commits, and the video's instance and its subtitle record are gone |
| Transactions.Tx.IsPinned | internal/statedb/intents.go:441-459 | The scan under an instance finds an intent exactly when one pins it |
| Transactions.Tx.FindInstance | internal/statedb/observe.go:407-414 | The path lookup answers the one instance at a path |
| Transactions.Tx.DeleteInstance | internal/statedb/instances.go:12-24 | Deletion takes files, baselines, listing and probe with the instance and answers the roots it touched |
| RefKeys.Sorted | internal/statedb/keys.go:41-43 | A scan's order of sightings holds exactly the scanned rows |
| PassesKeep.CompletePassKeeps | internal/statedb/pass.go:133-159 | A complete pass commits the invariant, and every sighting of the source left in its scope was stamped by it or lies under a kept root |
| PassesKeep.RetiredStamped | internal/statedb/pass.go:163-210 | Retiring keeps sightings and stamps together and each sighting under a stored root with its own stamp |
| PassesKeep.StaleRefsIs | internal/statedb/pass.go:163-181 | The retired rows are exactly the source's rows in scope, unstamped by the pass and outside the kept roots |
| Retirement.PassLeaves | internal/statedb/pass.go:133-231 | Everything a complete pass leaves: the sightings outside its unseen rows, each instance with its list less the keys given up unless overdue or emptied, each record, each file row, and the mark |
| Retirement.OrphansExpire | internal/statedb/pass.go:212-231 | Every ownerless instance a complete pass leaves was ownerless before and is pinned or was orphaned at most thirty days ago |
| Retirement.OrphansStay | internal/statedb/pass.go:212-231 | One orphaned no longer than that, none of whose keys rests on a retired sighting, stays with its path, items and every file row |
| ActivationsKeep.ActivateKeeps | internal/statedb/activate.go:45-85 | Activation always succeeds and commits the invariant under the new policy, recomputing every key only when the policy or codecs changed or it is the first since opening |
| ActivationsKeep.RemoveSourcesKeeps | internal/statedb/activate.go:130-222 | Removing sources keeps every invariant though their instances turn ownerless and their keys are handed on or lost |
| Removals.ActivateRemoves | internal/statedb/activate.go:130-222 | Table by table, what an activation removes: exactly the rows of the sources no longer named; their instances stay, ownerless from now; their bare records pass to the first sighting still reporting the key bare |
| Returns.RemovedReturns | internal/statedb/activate.go:189-207 | A source is removed, any run of calls clear of an instance it owned follows, and it reports the path again under one of its keys: within thirty days of the removal the key is back in the same instance, owned again, with every file row as it was; past that it is in a new one and the old and its files are gone |
| Returns.StepParked | internal/statedb/observe.go:416-450 | Within the thirty days no call clear of an ownerless instance disturbs its path, items or files |
| Stores.Store.Observe | internal/statedb/observe.go:30-53 | The public report commits exactly what its specification says, or is refused and changes nothing, and keeps the invariant |
| Stores.Store.Begin | internal/statedb/pass.go:31-55 | The public pass opening, with its refusals |
| Stores.Store.Finish | internal/statedb/pass.go:90-131 | The public pass closing commits its specification or changes nothing, and answers the owners the source's overlaps name |
| Stores.Store.Activate | internal/statedb/activate.go:45-73 | The public activation commits its specification and puts the new activation in force, or refuses a repeated source and keeps the old |
| Stores.Store.Remove | internal/statedb/activate.go:130-160 | Removal range by range, instance by instance and key by key equals its specification |
| Stores.Store.PurgeFacts | internal/statedb/activate.go:131-151 | Deleting each removed source's ranges in turn removes exactly those sources' rows |
| Stores.Store.OrphanInstances | internal/statedb/activate.go:189-207 | Exactly the instances of removed sources become ownerless, dated now |
| Stores.Store.Strand | internal/statedb/activate.go:211-222 | The released keys are exactly the bare records naming a removed source |
| Coverages.JudgePair | internal/statedb/coverage.go:35-52 | A pass over the evidence: covered if and only if something of the variant grades exact, missing if and only if nothing grades exact or substitute, servable if and only if something is related |
| Coverages.CollectEvidence | internal/statedb/coverage.go:72-97 | Evidence is exactly the managed files, the listed files and the tagged embedded tracks of unignored codecs; complete means probed and listed |
| Coverages.JudgeLocks | internal/statedb/coverage.go:175-192 | Exactly the key's locks outside the configured pairs go, and with a complete inventory those nothing serves |
| Coverages.RecomputeKey | internal/statedb/coverage.go:120-171 | One key's recompute in place is its specification: nothing for no record or an ownerless instance, a refusal for a row that is gone |
| Coverages.RecomputeKeys | internal/statedb/coverage.go:196-210 | Recomputing keys one after another, in any order, equals recomputing the set |
| Coverages.RecomputeJoin | internal/statedb/coverage.go:196-210 | Recomputing in two parts is recomputing all at once |
| Coverages.RecomputeInstance | internal/statedb/coverage.go:100-111 | Every item an instance lists is recomputed |
| Judging.RecomputedCurrent | internal/statedb/coverage.go:113-151 | Recomputing some keys makes exactly their coverage current and leaves every other key's as current as it was |
| Verdicts.CoverageSays | internal/statedb/coverage.go:35-52 | In every committed state a live key has one verdict for each pair its item wants, in order: covered if and only if some managed, listed or tagged embedded subtitle of the variant grades exact, missing if and only if none grades even as a substitute |
| Verdicts.MoreNeverLowers | internal/statedb/coverage.go:35-52 | Between committed states that see a key by one sighting, more evidence never lowers a verdict |
| Verdicts.PairsJoin | internal/statedb/coverage.go:55-70 | The pairs of a list of targets are each target's in turn |
| Verdicts.PairsOfOne | internal/statedb/coverage.go:55-70 | One target's pairs are its tag with each of its variants |
| IntentsKeep.BeginKeeps | internal/statedb/intents.go:143-170 | Staging a write keeps the invariant: a pending write is for a stored instance and its first attempt names only items the instance lists |
| IntentsKeep.EndKeeps | internal/statedb/intents.go:205-225 | An End is refused only for another operation or landed before the first activation, never for a row that is gone, and keeps the invariant |
| IntentsKeep.PutEmbeddedKeeps | internal/statedb/embedded.go:36-87 | Storing a probe keeps the invariant, coverage included |
| IntentsKeep.PutExternalKeeps | internal/statedb/external.go:26-43 | Storing a listing keeps the invariant, coverage included |
| IntentsKeep.SetLockKeeps | internal/statedb/locks.go:60-141 | Setting or clearing locks keeps them on configured pairs |
| Verdicts.UserLocks | internal/statedb/locks.go:60-141 | A user's lock is refused exactly when the instance has no owner, no item of it wants the pair or, setting one, nothing there is related; else it is set or cleared on exactly the items that want the pair, a held one keeping its date |
| Verdicts.ListingLocks | internal/statedb/coverage.go:175-192 | Storing a listing drops exactly the locks of the instance's live items that nothing related serves any more, once it is probed |
| Verdicts.ProbeLocks | internal/statedb/embedded.go:36-87 | Storing a probe drops no lock |
| Pins.CompletePassHeld | internal/statedb/pass.go:133-231 | A complete pass, with all it retires and expires, changes no pinned instance's path or items and no intent |
| Pins.ObserveItemsHeld | internal/statedb/observe.go:259-276 | A report changes no pinned instance's path or items, and no intent or log row |
| Pins.ActivateHeld | internal/statedb/activate.go:189-207 | An activation changes no pinned instance's path or items |
| Protocol.StepPins | internal/statedb/intents.go:440-459 | Any call but an End of it that commits, a refused End included, leaves a pending write pending and its instance stored with the same path and items |
| Protocol.RunPins | internal/statedb/intents.go:143-170 | Over any run up to the End that commits, through refused Ends and reopens, the items a delivery was checked against are still listed |
| Protocol.EndLog | internal/statedb/intents.go:205-253 | An End appends exactly what its write staged, in order and marked undelivered when it did not land; a repeated End appends nothing |
| Protocol.StepAccounts | internal/statedb/intents.go:229-253 | Logged plus staged attempts grow by exactly what a call hands over |
| Protocol.LogOnce | internal/statedb/downloads.go:78-89 | Over any run of a new store the log holds each attempt handed over exactly once, but for those of writes still pending |
| Protocol.LandedGeneration | internal/statedb/intents.go:255-311 | A landed delivery or retime leaves its record one generation above the stored one, even when it names itself for removal; a landed removal leaves none |
| Landings.LandedFiles | internal/statedb/intents.go:255-342 | What a landed End leaves of every file, baseline and listing: its own record as staged one generation on; every superseded or removed name gone, from the listing when unmanaged, with the instance's roots marked; every other row as it was; the staged attempts logged |
| Landings.EndLocks | internal/statedb/intents.go:255-379 | Which locks a landed End leaves and since when: those there were and those its delivery or adoption sets, less those of its instance's live items on no wanted pair or that lapse |
| Protocol.UnlandedMovesNothing | internal/statedb/intents.go:245-253 | An End that did not land changes only its intent and the log |
| StrayLocks.StepStray | internal/statedb/intents.go:255-279 | Of all calls under any arguments, exactly the End that lands a locked delivery of a key with no record sets a lock on such a key; every other leaves the locks on unrecorded keys as they were or fewer |
| StrayLocks.LandedLocks | internal/statedb/intents.go:255-279 | Which locks on unrecorded keys a landed End leaves: those there were, and a locked delivery's own |
| StrayLocks.UnrecordedOwnerless | internal/statedb/downloads.go:153-168 | Such a delivery is for an ownerless instance that still lists the key |
| StrayLocks.LocksRecorded | internal/statedb/locks.go:60-122 | Over any run of a new store in which no such End lands, every lock is of a recorded key |
| StrayLocked.DeliveryStrays | internal/statedb/intents.go:255-279 | Ten calls on a new store, the last of which is such an End |
| Endings.Ending.Remove | internal/statedb/intents.go:316-342 | A managed name loses record and baseline; an unmanaged one leaves the listing and marks the instance's roots written |
| Endings.Ending.LandDelivery | internal/statedb/intents.go:255-279 | A landed delivery in place is its specification, leaving its record and baseline and none of the files it supersedes (`Landings.LandedFiles` says it of End) |
| Endings.Ending.LockAdopted | internal/statedb/intents.go:347-379 | An adoption locks, on every item of an owned instance, exactly the configured pairs the file alone makes servable |
| Endings.Ending.LandRetiming | internal/statedb/intents.go:281-289 | A landed retime in place is its specification |
| Endings.Ending.Settle | internal/statedb/intents.go:205-253 | Taking the intent, landing or not, and recomputing is the specification of End |
| Stores.Store.BeginWrite | internal/statedb/intents.go:143-170 | Each operation's checks of the stored rows, then only the intent is stored |
| Stores.Store.CheckAttempts | internal/statedb/downloads.go:153-168 | Staged attempts pass exactly when each names items and this instance and the first names only items it holds |
| Stores.Store.EndWrite | internal/statedb/intents.go:205-225 | The public End commits its specification or changes nothing |
| Stores.Store.Lock | internal/statedb/locks.go:60-122 | Locks are set or cleared on exactly the items configuring the pair, refused when none does or nothing serves it |
| Stores.Store.CollectConfiguring | internal/statedb/locks.go:125-141 | The items whose sighting configures a pair |
| Stores.Store.StoreProbe | internal/statedb/embedded.go:36-87 | A probe is stored and its coverage recomputed in one write |
| Stores.Store.StoreListing | internal/statedb/external.go:26-43 | A listing is stored by name, refused for an empty or repeated one |
| Inventory.ListingByName | internal/statedb/external.go:26-43 | A listing is stored whole, its names in byte order |
| Stores.Store.LogAttempts | internal/statedb/downloads.go:56-74 | Only undelivered attempts naming items are logged |
| Feed.FeedComplete | internal/statedb/feed.go:203-297 | Every root whose listed view (items, coverage, locks, files, root facts, history) a commit changes is among the roots its changed rows name as stored after the write |
| ChangeLog.Subjects.Map | internal/statedb/feed.go:203-297 | A touched row adds exactly the subjects it stands for, each once; a files subject brings its rows subject |
| ChangeLog.BeforeCommit | internal/statedb/feed.go:172-199 | A commit records exactly its touched rows' subjects, without repeats, with the history mark for a logged download; none for a change of configuration |
| ChangeLog.NamedRecorded | internal/statedb/feed.go:203-237 | Every root a commit names has its rows subject recorded, when every changed row was touched |
| ChangeLog.Log.Collect | internal/statedb/feed.go:86-107 | Reading the log page by page gives what reading it at once gives, or Full past its retention |
| ChangeLog.Log.Since | internal/statedb/feed.go:56-82 | Full exactly for another epoch, revision 0, one before the last change of configuration or one no longer retained; else every later change folded once |
| ChangeLog.PagesJoin | internal/statedb/feed.go:86-107 | Folding pages one after another is folding their concatenation |
| ChangeLog.CollectedHolds | internal/statedb/feed.go:115-139 | An answer names exactly the roots and written roots of its changes, each once |
| ChangeLog.CatchUp | internal/statedb/feed.go:49-82 | A reader at any revision that re-reads only the roots Since answers then sees every root as it now is |
| ChangeLog.StepJournal | internal/statedb/feed.go:168-183 | Each commit of any run extends the journal of revisions that theorem speaks of |
| ChangeLog.WrittenListed | internal/statedb/feed.go:187-199 | Every written root an answer names is also among its roots |
| Publishing.Published.Call | internal/statedb/feed.go:168-199 | A call that touches a row or sets a mark allocates one revision whose change tells what it did, and one that does neither allocates none and shows readers nothing new: the feed stays a journal of the run |
| Publishing.Published.CatchUp | internal/statedb/feed.go:49-82 | At any point of any run, a reader back from any revision is told to re-read everything exactly for revision 0, one before the last change of configuration or one no longer retained; otherwise every root it is not told of is as it was |
| Publishing.ShownViews | internal/statedb/feed.go:168-183 | A write that publishes nothing changes no root as listed |
| ChangeLog.StepLogGrows | internal/statedb/downloads.go:76-89 | No call rewrites the download log |
| WrittenRoots.FilesNamed | internal/statedb/feed.go:26-34 | A listed item that keeps its instance while its managed files change has its root marked written |
| WrittenRoots.ReportWritten | internal/statedb/observe.go:279-299 | A report that deletes an owned instance marks written the root of every item it listed before, whichever item emptied it |
| WrittenRoots.PassWritten | internal/statedb/pass.go:133-159 | So does a complete pass |
| KeyText.KeyRoundTrip | internal/media/key.go:66-102 | Every key's and root's text, within 64 bytes, parses back to it |
| KeyText.KeySpelt | internal/media/key.go:29-75 | Every key's text written out: prefix, id padded to seven digits for IMDb, season and episode to two |
| KeyText.NumberSpelt | internal/media/key.go:178-205 | A number is spelt with as many digits as its width asks and no other zeros before them |
| KeyText.ParsedKey | internal/media/key.go:86-102 | Only a key's own text parses as a key |
| KeyText.ParsedRootKey | internal/media/key.go:104-114 | Only a root's own text parses as a root |
| KeyText.RootOrEpisode | internal/media/key.go:77-114 | No text is both a series' and an episode's |
| KeyText.PrefixesApart | internal/media/key.go:29-41 | No kind's prefix starts another's text, so the first that matches decides |
| KeyText.RootRoundTrip | internal/media/key.go:148-162 | A root's text is cut off whole from whatever non-digit follows it |
| KeyText.NumberRoundTrip | internal/media/key.go:180-189 | A season or episode number is cut off whole |
| KeyText.CutDigits | internal/media/key.go:191-197 | The digit scan cuts at the first character that is no digit |
| Media.Choose | internal/media/choose.go:8-26 | Choose builds only valid keys, of the kind asked |
| KeyBytes.KeyBytesBack | internal/media/key.go:57-63 | Every key's fourteen bytes decode to it |
| KeyBytes.KeyFromBytesBack | internal/media/key.go:129-144 | Only a key's own bytes decode |
| KeyBytes.RootFromBytesBack | internal/media/key.go:116-127 | Only a root's own bytes decode |
| KeyBytes.RootPrefix | internal/media/key.go:48-55 | A root's bytes start exactly its own keys' bytes |
| KeyBytes.KeysInOrder | internal/media/key.go:48-63 | Byte order of one root's keys is by season, then episode |
| KeyBytes.BigEndianOrder | internal/statedb/keys.go:18-22 | Big-endian byte order is numeric order |
| KeyBytes.KeyReader.Varint | internal/statedb/keys.go:108-119 | The byte loop reads the length the format defines, refusing one cut short or past 64 bits |
| KeyBytes.ParseItemRef | internal/statedb/codecs.go:46-54 | The reader's sticky failure makes a parse succeed exactly when every component reads and no byte is left |
| KeyBytes.ParseLockKey | internal/statedb/codecs.go:142-155 | The same for a lock key, whose media key, tag and variant are each judged |
| KeyBytes.ItemRefRoundTrip | internal/statedb/codecs.go:101-128 | A root or item reference parses back from its bytes |
| KeyBytes.FileKeyRoundTrip | internal/statedb/codecs.go:130-140 | A file key parses back from its bytes |
| KeyBytes.LockKeyRoundTrip | internal/statedb/codecs.go:142-155 | A lock key parses back from its bytes |
| KeyBytes.OverlongLength | internal/statedb/keys.go:108-119 | The other way fails: two different byte strings read as one file key |
| KeyBytes.TextSpelling | internal/statedb/keys.go:108-119 | A text is read from other bytes than its own exactly when its length was spelt with a needless last byte |
| KeyBytes.RootRefSpelling | internal/statedb/codecs.go:101-114 | A root reference is read from other bytes than its own exactly when its source's or its root's length was |
| KeyBytes.ItemRefSpelling | internal/statedb/codecs.go:116-128 | An item reference exactly when one of its three lengths was |
| KeyBytes.FileKeySpelling | internal/statedb/codecs.go:130-140 | A file key exactly when its name's length was |
| KeyBytes.LockKeySpelling | internal/statedb/codecs.go:142-155 | A lock key exactly when its tag's length was |
| KeyBytes.InstPrefix | internal/statedb/codecs.go:130-140 | An instance's bytes start exactly its files' keys |
| KeyBytes.KeyPrefix | internal/statedb/coverage.go:175-182 | A media key's bytes start exactly its locks' keys |
| RefKeys.SourceScope | internal/statedb/keys.go:14-17 | A source's prefix starts exactly its rows' keys |
| RefKeys.RootScope | internal/statedb/keys.go:14-17 | A root's prefix starts exactly its rows' keys, so s1 never reaches s10 |
| Bytes.TextSplit | internal/statedb/keys.go:34-37 | A length-prefixed text never runs into what follows it |
| Paging.ResumesPast | internal/statedb/cursor.go:64-71 | The key plus a zero byte starts exactly the keys past it, stored or not |
| Paging.PagesJoin | internal/statedb/cursor.go:73-99 | Pages read from cursor to cursor join into the whole list: no row repeated or skipped |
| Paging.FollowedWhole | internal/statedb/cursor.go:43-99 | Whoever follows the cursors pages answer, from any position to the last page, reads the rest of the list, each row once |
| Paging.CursorBack | internal/statedb/cursor.go:43-62 | A cursor names its last key in its own list and scope and is refused by every other |
| Reads.NothingGone | internal/statedb/reads.go:157-188 | No record's instance, listed record's sighting or root, or sighting's root is ever gone from a committed store |
| Reads.ReadFacts | internal/statedb/reads.go:271-299 | An item's facts are answered for exactly the listed keys, and no branch for a row that is gone is taken |
| Reads.Items | internal/statedb/reads.go:194-222 | A page of items is its part of the ordered list after the cursor, with the next cursor exactly when a row remains |
| Reads.Roots | internal/statedb/reads.go:84-155 | A page of roots, each once though found through its items, its facts from its lowest listed item, with the same cursor rule |
| Reads.Unidentified | internal/statedb/reads.go:305-344 | A page of unidentified sightings in index order |
| Reads.ItemsWhole | internal/statedb/reads.go:194-222 | Pages of a root's items read through join into every listed item, once, in key order |
| Reads.RootsWhole | internal/statedb/reads.go:84-155 | Pages of roots read through join into every root with a listed item, once, in key order |
| Reads.UnidentifiedWhole | internal/statedb/reads.go:305-344 | Pages of unidentified sightings read through join into all of them, once, in index order |
| Reads.PastsRoot | internal/statedb/reads.go:113-121 | A scan from past a root reaches exactly the keys of later roots |
| Reads.FirstListed | internal/statedb/reads.go:140-172 | The first listed key of a scan, or none when there is none |
| WorkQueue.AckExactly | internal/statedb/work.go:100-143 | For a drainer acknowledging a row once before reading again: the row goes exactly when nothing queued it since, and a later enqueue is neither removed nor put off |
| WorkQueue.AckTwice | internal/statedb/work.go:51-70 | Acknowledging one read twice can remove a later enqueue, since a fresh row starts at generation 1 again |
| WorkQueue.AckAgain | internal/statedb/work.go:51-120 | A second acknowledgement of one read removes a later enqueue if and only if the instance was queued since as often as it had been at the read |
| WorkQueue.GenerationCounts | internal/statedb/work.go:51-70 | A queued row's generation counts the enqueues since, and it keeps its position |
| WorkQueue.IndexOrder | internal/statedb/schema.go:262-267 | Byte order of the index is cause, Item first, then enqueue order |
| WorkQueue.Store.NextWork | internal/statedb/work.go:74-98 | Up to limit due rows in that order, none left out before one given; a limit outside 1 to 1000 is refused |
| WorkQueue.Store.EnqueueWork | internal/statedb/work.go:27-70 | Each known instance is queued and the drainer woken exactly when one was |
| WorkQueue.Store.DeferWork | internal/statedb/work.go:122-143 | A row still as read is put off and keeps its first deferral |
| Alignment.RampIsOverlap | internal/subsync/align.go:154-171 | Four signed breakpoints a pair, integrated twice, give the sum over span pairs of score times overlap length |
| Alignment.Tent | internal/subsync/align.go:161-168 | One pair's overlap length as four ramps |
| Alignment.ScoreCovers | internal/subsync/align.go:99-108 | A pair's score is the share of the longer span that the best shift covers |
| Alignment.ScoreAtMostOne | internal/subsync/align.go:99-108 | At most 1, and 1 exactly for equal lengths; symmetric |
| Alignment.ScoreFalls | internal/subsync/align.go:99-108 | It falls as the lengths move apart |
| Alignment.WeighsAtMost | internal/subsync/align.go:99-108 | No pair weighs more than it overlaps |
| Alignment.OverlapCounts | internal/subsync/align.go:154-171 | The overlap is the number of instants one span shares with the other shifted |
| Alignment.WeightedSums | internal/subsync/align.go:154-171 | A rating is the sum of its parts', down to one pair's |
| AlignmentSearch.TwiceIntegrated | internal/subsync/align.go:131-142 | The array integrated twice to index i is the weighted overlap one millisecond past that index's offset |
| AlignmentSearch.AccumulateDeltas | internal/subsync/align.go:152-178 | The array holds, at each offset in range, the sum of every pair's breakpoints there |
| AlignmentSearch.SweepDeltas | internal/subsync/align.go:131-142 | The running derivative and rating are those sums, and the best is the first index where the rating is greatest |
| AlignmentSearch.BuildEvents | internal/subsync/align_merge.go:64-88 | Below the cap every scored pair's breakpoints, in order |
| AlignmentSearch.SortEvents | internal/subsync/align_merge.go:28-30 | The events by offset, none lost |
| AlignmentSearch.SweepEvents | internal/subsync/align_merge.go:32-54 | The running rating at each event is the rating there, and the best is the first event where it is greatest |
| AlignmentSearch.RampPermuted | internal/subsync/align_merge.go:28-30 | Sorting does not change the rating |
| AlignmentSearch.EverywhereBest | internal/subsync/align_merge.go:21-59 | What is best at the events is best at every integer offset |
| AlignmentSearch.AlignMergeSort | internal/subsync/align_merge.go:21-59 | With a positive pair and no event cut, the first offset of greatest weighted overlap over all the integers |
| AlignmentSearch.AlignBucketSort | internal/subsync/align.go:115-147 | With spans in range, one millisecond before that offset; past the array cap, that offset |
| AlignmentSearch.AlignConstantOffset | internal/subsync/align.go:56-97 | The chosen search over the first ten thousand spans answers the first best offset, or exactly one less when the array is used; so its answer is an offset of greatest overlap, weighed by the scores above, if and only if the array was not used |
| AlignmentSearch.DenseMisses | internal/subsync/align.go:131-146 | Two equal one-millisecond spans, moved from overlapping whole to not at all |
| Mapping.ToLocalInjective | internal/mediasource/mapping.go:28-72 | On mappings the check accepts, two reported paths mapped to one local path are the same path: mapped, nested or passed through |
| Mapping.Injective | internal/mediasource/mapping.go:63-88 | The check answers the first mapping that clashes with an earlier one, and -1 exactly when none does |
| Mapping.ClashCollides | internal/mediasource/mapping.go:59-72 | A clash is real: it sends two different reported paths to one local path unless longer mappings take them elsewhere |
| Mapping.ByLengthMatch | internal/mediasource/mapping.go:11-19 | The first match in the mapper's order is the longest, the earlier configured among equals |
| Mapping.LongestComponents | internal/mediasource/mapping.go:11-26 | The longest by text is the one with the most components of the path |
| Mapping.Mapper.constructor | internal/mediasource/mapping.go:15-19 | The stable sort by length |
| Mapping.Mapper.Local | internal/mediasource/mapping.go:28-47 | The two loops answer what the mapping specifies, with its two refusals |
| Mapping.LocalAnswers | internal/mediasource/mapping.go:28-47 | The mapper's order decides what the configuration promises: the longest mapping that contains the path, the earlier among equals, else the path itself when no mapping leads to it |
| Mapping.LocalComponents | internal/mediasource/mapping.go:33-40 | A mapped path is the to's components with the rest of the reported one's |
| Paths.TextComponents | internal/mediasource/mapping.go:49-57 | A clean path's text is determined by its components |
| Paths.ComponentsText | internal/mediasource/mapping.go:49-57 | Plain components make a clean path with those components |
| JobRuns.RunKeeps | internal/status/persist.go:137-182 | Any interleaving of inserts, updates, saves that fail, land unseen or land late, evictions, sweeps and restarts keeps the job store's invariant |
| JobRuns.SaveAbove | internal/status/persist.go:137-156 | Each attempt carries a revision above every one attempted or stored before |
| JobRuns.NeverStale | internal/statedb/jobs.go:114-132 | So while its record is stored, the write under way is never refused as stale |
| JobRuns.UnsavedExactly | internal/status/persist.go:118-182 | What is left to store is exactly the live ended jobs that are not durable, and retention drops none of them |
| JobRuns.GetAfterEnd | internal/status/jobs.go:182-195 | A Get that starts after a job ended never answers it as not ended, whatever happens between its two looks |
| JobEnds.EndStays | internal/status/jobs.go:203-241 | Over any run without a restart, every copy of an ended job, live, stored or on its way to be, tells of one end: outcome, time and facts never differ |
| JobEnds.StoredEndStays | internal/status/persist.go:48-76 | Once an end is stored, no later event changes it, restarts included: the record tells of that end or is gone |
| JobEnds.RestartEnds | internal/status/persist.go:48-76 | A restart ends as interrupted, not cancellable and one revision on, exactly the stored jobs that had not ended; only those are live, with nothing left to save |
| JobRuns.NeverSaved | internal/status/persist.go:137-182 | Once an unsaved job's record is gone, no later attempt stores it until a restart |
| JobRuns.SavableExactly | internal/status/persist.go:137-182 | An unsaved job can still be saved, by some run without a restart, if and only if its record is stored or its attempt under way has landed |
| JobRuns.NextLands | internal/status/persist.go:137-182 | The next attempt of an unsaved job is stored exactly when its record is |
| JobRuns.LostForGood | internal/status/persist.go:137-182 | From an empty store: seven steps after which no run without a restart saves the job |
| JobRuns.SweptUnsaved | internal/statedb/jobs.go:94-132 | The steps that lead there: a write lands and reports failure, then the record is swept |
| JobStates.Store.Update | internal/status/jobs.go:203-241 | An update takes the caller's state and facts and keeps the rest: an end keeps its outcome, or is failed without one, a job not ended has none; an end is final, unsaved and without a stop handle |
| JobStates.Store.StartSave | internal/status/persist.go:140-157 | The first half of a save |
| JobStates.Store.EndSave | internal/status/persist.go:163-178 | The second half, by what the persister reported |
| JobStates.Store.Evict | internal/status/retention.go:24-50 | Exactly the ended durable jobs of fifteen minutes or more, or with more than fifty ended no earlier, leave; at most fifty stay, the latest ended |
| JobStates.LeavesPrefix | internal/status/retention.go:34-48 | Stopping at the first that stays loses nothing |
| JobStates.Store.SortEnded | internal/status/retention.go:29-40 | Every ended durable job, first to end first |
| SettingsService.RunKeeps | internal/settings/service.go:131-184 | Any interleaving of Saves, Shutdowns and edits by others keeps the slot exclusive and the files agreeing |
| SettingsService.OneSave | internal/settings/service.go:164-184 | At most one Save is past the slot |
| SettingsService.ShutForGood | internal/settings/service.go:131-162 | Once a Shutdown answered nil no Save holds the slot, none can take it, and no step of one changes anything |
| SettingsService.NoWriteAfter | internal/settings/service.go:131-162 | Over any later run the file, the live settings and the baseline stay as they were |
| SettingsService.AgreedAtRelease | internal/settings/service.go:164-184 | At every release, at a Save's end or on finding the service closing, unless diverged, the file last read or written is the live settings' file, through failed writes, activations and restores |
| SettingsService.CommitAgrees | internal/settings/save.go:111-117 | A committed Save leaves its own file live and written and clears divergence |
| SettingsService.Service.Commit | internal/settings/save.go:96-138 | Every outcome of one commit: live only when written and activated, restored or diverged otherwise |
| Documents.ViewMasks | internal/settings/document.go:35-79 | Two files have one view when they differ only in scalars the view hides, and, no scalar being tagged as the view tags one, only then: what a hidden scalar holds shows nowhere, and all else does |
| Documents.ReferenceNamed | internal/settings/document.go:10-20 | Which values are references shown as they are: one whole ${NAME} |
| Merging.RoundTrip | internal/settings/merge.go:156-206 | Merging the unedited view gives the stored tree back, up to key tags, collection tags and the ~ spelling |
| Merging.ViewWhole | internal/settings/shape.go:72-129 | An unedited view is accepted exactly when no quoted key of the file would, written bare, be a merge key |
| Merging.QuotedMergeKey | internal/settings/shape.go:72-129 | A file of one quoted << key, whose view is shown and refused unedited |
| Merging.MergedScalar | internal/settings/merge.go:156-275 | In any body the merge accepts, each unchanged scalar takes the stored scalar at the same keys and ids, and every other is the body's own |
| Merging.MergeAccepts | internal/settings/merge.go:156-275 | The merge accepts a body if and only if each unchanged scalar has a stored plain counterpart, reached by keys and by ids each held once, and no list entry that holds one lacks its namesake |
| Merging.NothingMasked | internal/settings/merge.go:189-206 | An entry with nothing masked needs nothing stored |
| Merging.ViewElement | internal/settings/merge.go:238-270 | A masked entry is matched to the stored entry it was shown from |
| Merging.HoldingOnce | internal/settings/merge.go:221-236 | A key of a shaped mapping is held once, at its own place |
| LineDiff.Diff | cmd/release-patterns/watch_text.go:70-84 | The marked lines are, in order, what is left of both texts around one common subsequence; when what trimming the common start and end leaves fits the cell bound, no longer one exists for the whole texts, else what it leaves is removed and added whole; no line is marked exactly when the texts are equal |
| LineDiff.TrimmedOnce | cmd/release-patterns/watch_text.go:71-79 | What trimming leaves is determined by the texts: between their longest common start and, after it, their longest common end |
| LineDiff.LcsTable | cmd/release-patterns/watch_text.go:106-123 | Filled backwards, each cell is the longest common subsequence length of the two rests |
| LineDiff.WalkDiff | cmd/release-patterns/watch_text.go:86-104 | The walk keeps that many lines and puts removals before additions between kept lines |
| LineDiff.LcsBounds | cmd/release-patterns/watch_text.go:106-123 | No common subsequence is longer than the table says |
| LineDiff.LcsReached | cmd/release-patterns/watch_text.go:106-123 | Some common subsequence is as long |
| LineDiff.LcsStart | cmd/release-patterns/watch_text.go:74-76 | Trimming a common start loses nothing |
| LineDiff.LcsFinish | cmd/release-patterns/watch_text.go:77-79 | Trimming a common end loses nothing |
| LineDiff.DiffRegion | cmd/release-patterns/watch_text.go:80-83 | Past the cell bound the region is removed and added whole |

## Left out

- The storage engine: tables are maps, a write is all or nothing, ids are fresh and increasing, a cascade is one step, and a key's order is its bytes' order. The store's handle keeps its tables as one value that every row change replaces, rather than as one field a table.
- `Policy.Grade` and `Policy.TargetsFor`: two functions of a policy left open, with the policy's digest naming it; the language tables behind them are not part of this model.
- The clock is an argument; evidence, cursors, ordinals, no-result rows, baselines' contents, timings and provenance are opaque or absent, so the refusals of a bad timing or of a baseline with no cues are not modelled.
- A source id's grammar and a tag's canonical spelling: two open predicates of the key reader.
- Queuing import and scan work from a report or a pass: the work queue is modelled on its own.
- `RootTargets`, `Files`, `Instance`, `PendingWrites` and the history lists: reads that only gather rows; what keeps their rows from being gone is `Reads.NothingGone`.
- Base64 of a list cursor: a cursor is its list byte and last key.
- Reads.Items: assumes the recorded keys are valid, which `KeysKeep.ReachableReadable` proves of every reachable state.
- ChangeLog.NamedRecorded: takes as given that the storage engine reports every row a write changed; that files subjects are complete is shown apart, for listed items and owned instances (`WrittenRoots`).
- Publishing.Published.Call: takes the same as given, and that a commit is marked config exactly when it stores another configuration.
- ChangeLog.CatchUp: speaks of a journal of sound states, one change a revision, which `Publishing.Published` shows every run to keep.
- Reads.ItemsWhole: reads one unchanged store page by page, as do `Reads.RootsWhole` and `Reads.UnidentifiedWhole`, which also takes stored sightings to have ids of their grammar; what a page shows of a store that changed meanwhile is `Reads.Items`.
- Renumbering.ReportKeepsFiles: assumes the report commits, which `ReportRefusals.ReportRefused` decides, and that its identified items have distinct keys.
- Returns.RemovedReturns: speaks of the source's first report after its removal, with no End of a write on the instance and no other source's report of its path or keys between; what those do is `Landings.LandedFiles` and `Reclaims.ReportReclaims`.
- StandingLocks.LocksStand: speaks of locks on recorded keys; of others, `StrayLocks.StepStray`.
- ReportRefusals.ReportRefused: assumes the report's identified items have distinct keys.
- AlignmentSearch.AlignConstantOffset: sums real numbers, so the rounding of floating point is not modelled, nor is cancellation while accumulating.
- Mapping.ToLocalInjective: works on paths that are absolute and clean in their slash-separated text; which runes one line may hold is an open predicate, and characters stand for bytes in the length limit.
- JobRuns.RunKeeps: a keyed resend, the capacity bounds of `InsertJob` and the kinds of jobs are absent; a record leaving the persister at its bound or by age is one sweep step, and opening the store is one restart step.
- SettingsService.RunKeeps: parsing, the save-time check and merging are one step that passes or refuses; signals to observers are absent.
- Merging.RoundTrip: the writer's own choices (comments, quoting, and rewriting a flow collection whose scalar would read back as another type) are outside the tree, so `settleTags` and `encode` are not modelled.
- WorkQueue.AckExactly: speaks of one drainer; waking it is one flag.
- Providers, HTTP, audio and subtitle heuristics, release parsing, ranking and start-up code: plumbing or heuristics with no specification beyond their own text.
