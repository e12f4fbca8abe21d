# avairy: the sync protocol and its companions, modelled and proved

avairy runs a fleet of coding agents on many machines against one shared project. Its core keeps one
canonical copy of every file and a version counter per path; every node edits its own working tree
and syncs it with the core, with optimistic concurrency, in-place conflict markers, holds that wait
for the operator, and a full resync. Around that core stand the pieces that keep a fleet in order: a
loop detector, a wake budget, an approvals broker, a session supervisor, a task board rebuilt from a
journal, and enrolment of nodes. This project models those parts in Dafny and proves what they
guarantee over whole runs.

`dafny verify dfyconfig.toml` checks everything.

## How the model is built

**Paths are independent.** Everything a sync client does, it does to each path separately. So
`PathSync.dfy` describes one path of one client (a `Cell`: the file on disk, the base version, the
last-synced stamp, the lock, the hold, a push under way) and what each operation makes of it, given
that path's history at the hub. `Hub.dfy`, `NodeClient.dfy` and `NodeView.dfy` are classes over maps
updated in place by loops; each method is proved to do to every path exactly what the per-path
function says, in whatever order the maps are walked. `Protocol.dfy` runs any number of clients, remote
and in-process, against one hub as a state machine in which other clients and agents get in between a
scan, each single push, and the handling of the answers, and in which core queues unlocks for the
clients whose agents resolve paths. `CellInvariant.dfy` holds the invariants that tie disk, stamps,
base, locks and history together: one that nobody can break, and one per client and path that rests on
the bargain below. `SyncTheorems.dfy`, `Recovery.dfy` and `Provenance.dfy` hold the theorems;
`Exposure.dfy` and `StaleUnlock.dfy` say exactly when work is lost.

**What the environment owes.** Histories, frozen paths, markers at the hub, resync, quiescence and the
provenance of pushes need no bargain. That no work is lost at a path, and that a conflict keeps the local
text readable, asks of users and operators, at this client and this path only, that

- a local edit moves the file's size or modification time when it changes its content;
- the file is not removed while the push of its resolved conflict is under way;
- an unlock finds the hub ahead of the client's base;
- the verdict "resolve" finds the held file on disk, or locked, or with nothing at stake;
- a scan comes between the last edit and the pull. A tick pulls twice, and the pull that applies unlocks
  comes before the scan, so an edit younger than the last scan is not covered in a tick that unlocks some
  path.

Convergence asks it of all clients, and besides that no agent resolves a conflict at an ignored path (no
client ever puts one on the hub).

Each breach of the first four loses work in a way that `Exposure.dfy` states exactly, for every file,
edit and later history, in terms the client has at hand: its own stamp and the file
(`EditLostExactly`, `RemovalLostExactly`, `UnlockLostExactly`, `VerdictLostExactly`). For the pull
without a scan it gives the exact condition (`PullReplacesExactly`) and a run (`UnlockPullLosesWork`).
The third is not always in the users' hands: an unlock is sound as long as the path stays frozen
(`UnlockIsFreshWhileFrozen`), but the system itself can make it stale (`StaleUnlockLosesWork`).

**Conflict markers.** `Markers.dfy` treats the line diff as any valid script of ordered, line-aligned
edits that turns local into hub; `Reader.dfy` reads the printed file back and proves when that recovers
both sides.

**The stateful pieces.** Each is a state machine over its critical sections and channel operations
plus a class that carries out those steps, or a class proved against a definition that remembers
everything: `Facilitator.dfy`, `Waker.dfy`, `Approvals.dfy`, `Supervisor.dfy`, `Board.dfy`,
`Enrollment.dfy`.

## Where the code does less than its comments say

The model follows the code. These claims are false of it; each has a lemma with a concrete run, and
where a condition decides, an if-and-only-if.

- A pull looks for no unpushed edits (`PullReplacesExactly`, `PullWithoutScanLosesWork`), and a tick's
  unlock pull comes before its scan: unlocking one path overwrites unscanned edits of all others that
  are behind the hub (`UnlockPullLosesWork`).
- A held file that vanishes before the verdict "resolve", or a file removed while the push of its
  resolved conflict is under way, leaves a stamp that later passes unsynced text for synced
  (`VerdictLostExactly`, `RemovalLostExactly`, with concrete runs in `VanishedHeldFileIsLost` and
  `RemovedInFlightIsLost`).
- The comment at internal/control/node.go:160 says an unlocked path is always behind the hub. Where it
  is not (`StaleExactly`), its local text is left unlocked and taken for synced (`UnlockLostExactly`,
  `UnlockWithoutNewsLosesWork`), and `StaleUnlockLosesWork` is a run of the system that gets there.
- ResumeFromHub is said to make an unchanged file push idempotently and an edited one push a real edit.
  A file that is neither, merely behind the hub, reverts the newer version
  (`ResumedPushRevertsExactly`).
- "Locked" does not mean "marked": on equal texts the merged file is the local text unmarked
  (`MergedIsMarked` gives the exact condition).
- "Nothing is lost" in a conflict file: a reader gets both sides back exactly when no line stands where
  it takes it for a marker (`BothSidesRecovered`, `MarkerLineIsMisread`).
- A conflict file with CR LF line ends is not recognised as one (`SlipsThroughExactly`,
  `CrlfMarkersSlipThrough`).
- The two clients' conflict marking is said to mirror each other. They part exactly on an ignored,
  already marked file at a known path that the hub has moved past (`ViewSimulatesNode`).
- LF normalisation is not idempotent on CR CR LF, and re-pushing such text bumps the version
  (`NormalizeIdempotentExactly`, `RepushBumpsExactly`).
- The two clients' ResumeFromHub are said to mirror each other. The in-process one does not pass over
  tombstones, so a file left over at a deleted path comes back to life there and is held at a remote
  node (`ResumesAlikeExactly`, `ResumedTombstone`).
- An approval's Resolve reports success although the waiting Ask may already have timed out
  (`ResolveMayComeTooLate`; `ResolveBindsExactly` says when it does bind).
- A live model or effort change clears an earlier deferred one (`LiveChangeDropsDeferredOne`,
  `UpToDateExactly`).
- The board journals after unlocking, so overlapping calls can be journaled in the other order
  (`OverlapRestoresStale`, `AppendExactly`).

## Model

| member | source | states |
|---|---|---|
| `SyncTheorems.NoWorkIsLost` | internal/control/node.go:150-427 | in every run from an empty hub, once a client (remote or in-process) has scanned and the file at a path is left alone (other files may be edited), any pull it then makes, a tick's unlock pull included, replaces or deletes the file only if the path itself was unlocked or the hub has held that content there, as it is or LF-normalised; the bargain is asked of this client at this path alone, everybody else may do anything |
| `SyncTheorems.StaysQuietAt` | internal/control/node.go:219-427 | once scanned, a file that is left alone stays accounted for (frozen, on its way, or the last-synced revision) over any run |
| `Recovery.ScannedTextIsKept` | internal/workspace/conflict.go:10-13 | in every run, from a scan of a file without opening or middle marker lines on, over hub texts without closing ones: while the user leaves the file alone and nothing is discarded or unlocked there, its text is in the file, or a reader of the conflict written over it gets it back, or the hub has held it; the bargain is asked of this client at this path alone |
| `Recovery.AbsorbKeepsText` | internal/control/node.go:269-314 | handling a refused push, and writing the conflict, keeps a text without opening or middle marker lines readable, against a version without a closing one |
| `Recovery.ViewAbsorbKeepsText` | internal/workspace/fsutil.go:425-443 | so does the in-process client's marking |
| `Recovery.VerdictKeepsText` | internal/control/node.go:203-213 | so does the verdict "resolve" on a path not locked already |
| `Recovery.StepKeepsText` | internal/control/node.go:150-427 | any step of anybody does, short of an edit, discard, restart, unlock or second conflict at that path |
| `Exposure.PullReplacesExactly` | internal/control/node.go:407-416 | a pull replaces content the hub never held if and only if the path is behind, not frozen, and the file is one a scan would report (or scans ignore) |
| `Exposure.LostExactly` | internal/control/node.go:222-258 | a file with such content is left alone by the next scan and replaced by the pull after it if and only if the scan takes it for synced |
| `Exposure.EditLostExactly` | internal/workspace/fsutil.go:304-307 | a local edit is lost in this way if and only if it hides behind an unchanged size and time |
| `Exposure.UnlockLostExactly` | internal/control/node.go:150-161 | unlocking a path the hub has not moved past loses its file to whatever the hub stores next if and only if the file is the revision the client last stamped |
| `Exposure.VerdictLostExactly` | internal/control/node.go:203-213 | after "resolve" on a hold whose file is gone, a file put back is lost if and only if the client's old stamp carries its content |
| `Exposure.RemovalLostExactly` | internal/control/node.go:279-303 | after a file was removed while its push was under way and refused, a file put back is lost if and only if the client's old stamp carries its content |
| `Exposure.UnlockPullLosesWork` | cmd/avairy/node.go:285-304 | counterexample, from any state in which p is synced and for any texts: with an edit of p unscanned and p moved on by a peer, the unlock of another path that its agent resolved overwrites the edit, although the bargain is kept at p |
| `Exposure.UnlockIsFreshWhileFrozen` | internal/control/core.go:135-146 | an unlock queued for a locked or held path stays queued and names a path ahead of the client's base, whatever else happens, until a step of the client itself releases the path |
| `Exposure.StaleExactly` | internal/control/node.go:160-160 | a queued unlock is stale if and only if the client's base is the hub's current version |
| `StaleUnlock.StaleUnlockLosesWork` | internal/control/node.go:236-293 | counterexample, a run of the system from its start: an agent edits its locked file free of markers and also resolves the conflict at the hub; the push is refused and marked at the resolved version, the unlock arrives then, and the agent's text is overwritten without the hub ever having held it |
| `StaleUnlock.SoloRunIsRun` | internal/control/node.go:219-427 | a run of one client at one path, computed on values, is a run of the protocol |
| `Provenance.PushesReplaceKnownVersions` | internal/workspace/hub.go:85-94 | over every run, a version that a client's push replaces was on the client's disk before, up to line ends, or shown to it in a conflict, except where its base was merely adopted (after a restart, or over a conflict file already standing there) |
| `Provenance.ResumedPushRevertsExactly` | internal/control/node.go:316-341 | a resumed client's first sync changes a live path if and only if its normalised text is not the hub's; so a file merely behind reverts the newer version |
| `Provenance.InformedStep` | internal/control/node.go:150-427 | every step keeps the client's base a version it has seen, or marks it as adopted |
| `CellInvariant.DownLosesNothing` | internal/control/node.go:407-425 | the per-path core of it: a pull that changes a scanned, unedited file replaces content found in the hub's history |
| `SyncTheorems.FrozenPathIsUntouched` | internal/control/node.go:228-289 | from the moment a path is locked or held until a releasing step, over any run: it stays frozen (held stays held) at the same base, its bytes are exactly what the user's own edits make of them, and no version of it is pushed by this client |
| `SyncTheorems.FrozenStep` | internal/control/node.go:228-257 | one step of that: any step of anybody that is not a release keeps the freeze, the bytes and the absence of pushes |
| `SyncTheorems.OnePullEachSettles` | internal/control/node.go:393-427 | for any number of clients with nothing pending, one pull each, in any order, settles every one of them and changes no history (while no ignored path is on the hub) |
| `SyncTheorems.DownSettles` | internal/control/node.go:393-427 | one pull at one path with nothing pending leaves base, stamp and file level with the hub (an ignored path being unknown to it) |
| `SyncTheorems.SettledIsAtRest` | internal/control/node.go:219-295 | settled clients satisfy the at-rest condition from which ticks do nothing (while no ignored path is on the hub) |
| `SyncTheorems.TicksChangeNothing` | cmd/avairy/node.go:274-309 | from rest, any sequence of scans, pushes, answers and plain pulls of any clients (ticks without a directive or an unlock), interleaved in any way, changes no history at the hub and no file |
| `SyncTheorems.PullsConverge` | cmd/avairy/node.go:274-309 | convergence in one: from any reachable state with nothing pending, after one pull each in any order and any further ticks, every scanned file of every client agrees with the hub, and since the pulls no history and no file has changed |
| `SyncTheorems.SyncUpLeavesNothingPending` | internal/control/node.go:219-295 | a whole SyncUp, whatever others do in between, leaves a client whose record is in order with nothing pending when nothing was refused and nothing is frozen |
| `SyncTheorems.OthersLeaveNothingPending` | internal/control/node.go:254-258 | ... and nothing becomes pending through any run of the others |
| `SyncTheorems.StepKeepsUnignored` | internal/control/node.go:222-258 | no client step puts an ignored path on the hub; only an agent's resolve can |
| `SyncTheorems.RunKeepsUnignored` | internal/control/node.go:222-258 | so no run without such a resolve does |
| `SyncTheorems.TombstonesAreRepushed` | internal/control/node.go:254-258 | at a path the hub has deleted, every scan of a settled client pushes the deletion again, and the hub stores nothing |
| `SyncTheorems.ResyncAdoptsTheHub` | internal/control/node.go:347-390 | after a resync, whatever others did between the manifest and the final pull, every path is unlocked with no conflict left to resolve, has the hub's version as base and the hub's bytes on disk as of that pull; left over are only ignored files the hub never held |
| `SyncTheorems.ResyncAdopts` | internal/control/node.go:347-427 | the same at one path, for any history that extends the one the manifest was taken from |
| `SyncTheorems.ResyncKeepsMatchingFiles` | internal/control/node.go:369-376 | a file that is the hub's already is left untouched, time and all, and its version adopted |
| `SyncTheorems.MarkersNeverPushed` | internal/control/node.go:236-245 | in every run, what a client pushed carries markers at the hub if and only if the pushed text has an opening marker and a middle marker line that ends in CR LF wherever it stands |
| `SyncTheorems.HistoryOnlyGrows` | internal/workspace/hub.go:71-126 | over any run of any clients and agents, a path's history is only appended to |
| `SyncTheorems.ReachableInv` | internal/control/node.go:219-427 | the invariant that needs no bargain holds after every run from an initial world |
| `SyncTheorems.ReachableBacked` | internal/control/node.go:219-427 | a client's record of a path is in order after every run in which the bargain is kept at that client and path, whatever happens elsewhere |
| `Protocol.InitialInv` | internal/control/node.go:316-324 | clients that have only their files, and an empty hub, satisfy the invariant |
| `Protocol.NextKeepsInv` | internal/control/node.go:150-427 | every step (edit, scan, single push, answers, pull, unlock, resync, verdict, restart, resume, agent resolve) of every client, remote or in-process, keeps the invariant at every client and path, whether or not anybody keeps the bargain |
| `Protocol.StepsAreOpen` | cmd/avairy/node.go:266-312 | nothing but program order keeps a client from a step |
| `Protocol.KindsDifferExactly` | internal/workspace/fsutil.go:343-470 | the in-process client differs from the remote one in how it handles answers and how it resumes, and in nothing else |
| `Protocol.FirstBatchExactly` | internal/control/node.go:259-260 | a batch is the client's first if and only if no scan came before it since the start or a restart, which also gives up what was under way |
| `Protocol.UnlocksQueuedExactly` | internal/control/core.go:135-146 | a path is in a client's unlock queue if and only if its remote client's agent has resolved it since the client last took it |
| `Protocol.RunKeepsInv` | internal/control/node.go:150-427 | so does every run |
| `Protocol.NextKeepsBacked` | internal/control/node.go:150-427 | a step that keeps the bargain with one client at one path keeps that record in order: the last-synced stamp is backed by the hub's history |
| `Protocol.RunKeepsBacked` | internal/control/node.go:150-427 | so does every run |
| `Protocol.HistoryKept` | internal/workspace/hub.go:71-126 | every step keeps each history well formed and free of pushed markers, and only extends it |
| `Protocol.OwnCellKept` | internal/control/node.go:150-427 | a client's own step keeps the shape of its own record of each path |
| `CellInvariant.PlanKeepsOk` | internal/control/node.go:222-258 | a scan keeps the record, and after it every scanned file is frozen, on its way, or exactly the last-synced revision |
| `CellInvariant.SendKeepsOk` | internal/control/core.go:403-434 | a push keeps the record backed by the (possibly longer) history and the history well formed |
| `CellInvariant.AbsorbKeepsOk` | internal/control/node.go:270-293 | acting on an accepted or rejected push keeps the record backed by the history |
| `CellInvariant.AbsorbKeepsQuiet` | internal/control/node.go:270-293 | ... and leaves no scanned file unaccounted for |
| `CellInvariant.ViewAbsorbKeepsOk` | internal/workspace/fsutil.go:371-391 | so does the in-process client's handling of answers |
| `CellInvariant.ViewAbsorbKeepsQuiet` | internal/workspace/fsutil.go:425-443 | ... with the same account of every scanned file |
| `CellInvariant.DownKeepsOk` | internal/control/node.go:407-425 | a pull keeps both |
| `CellInvariant.UnlockDownKeepsOk` | internal/control/node.go:150-161 | releasing a path and pulling keeps the invariant if and only if the hub is ahead of the base or the stamp is backed at the base; in particular when the file was never stamped |
| `CellInvariant.VerdictKeepsOk` | internal/control/node.go:203-213 | the verdict "resolve" keeps the invariant if and only if the held file is there, or locked anyway, or its stamp is backed or absent; in particular when the file is there or was never stamped |
| `CellInvariant.VerdictExactly` | internal/control/node.go:203-213 | the verdict "resolve" ends the hold, and exactly a held conflict whose file is there becomes a marked file locked at the hub's version |
| `CellInvariant.RestartForgetsExactly` | internal/control/node.go:316-324 | a restart forgets everything but the file |
| `CellInvariant.EditKeepsOk` | internal/control/node.go:240-277 | a local edit keeps the invariant if and only if size or time move with the content and a file being pushed is not removed over an unbacked stamp; in particular when the file stays or was never stamped |
| `CellInvariant.DiscardKeepsOk` | internal/control/node.go:347-390 | the local half of a resync keeps the record backed |
| `CellInvariant.ResumeKeepsOk` | internal/control/node.go:324-341 | adopting versions before the first scan keeps the record backed |
| `CellInvariant.PullWithoutScanLosesWork` | internal/control/node.go:407-416 | counterexample: a file synced at version 1, edited, and pulled over by version 2 with no scan in between |
| `CellInvariant.VanishedHeldFileIsLost` | internal/control/node.go:203-213 | counterexample: "resolve" on a held path whose file is missing leaves a stale stamp; the same text put back is taken for synced and then overwritten |
| `CellInvariant.UnlockWithoutNewsLosesWork` | internal/control/node.go:150-161 | counterexample: unlocking a path the hub has not moved past leaves local text unlocked and taken for synced |
| `CellInvariant.RemovedInFlightIsLost` | internal/control/node.go:279-303 | counterexample: removing a file while its resolved conflict is being pushed leaves the marked text's stamp behind if the push is rejected |
| `PathSync.PlanAssembled` | internal/control/node.go:219-258 | edited files, touched files and unseen known paths, handled in turn, make up the per-path scan |
| `PathSync.UpAssembled` | internal/control/node.go:259-295 | scan, round-trip and answers make up the per-path SyncUp |
| `PathSync.ResetAssembled` | internal/control/node.go:354-387 | adopting matches and deleting the unlisted make up the per-path resync |
| `NodeClient.Node.SyncUp` | internal/control/node.go:219-295 | at every path, in whatever order the maps are walked: new disk, base, stamp, locks, hold and hub history are the automaton's; exactly the rejected paths are returned with the hub's side |
| `NodeClient.Node.ScanAndPlan` | internal/control/node.go:222-258 | exactly the changed unmarked files and the unseen unfrozen known paths go on the wire, with their base |
| `NodeClient.Node.PlanEdits` | internal/control/node.go:226-246 | each changed file is kept back while held or marked, and pushed from its base otherwise |
| `NodeClient.Node.PlanDeletions` | internal/control/node.go:254-258 | exactly the known paths not seen and not frozen are pushed as deletions |
| `NodeClient.Node.AbsorbResults` | internal/control/node.go:269-294 | each answer advances the base, holds the path or marks the file, and touches no other path |
| `NodeClient.Node.PushPlanned` | internal/control/node.go:259-295 | an empty wire makes no round-trip; otherwise every planned change is pushed and answered |
| `NodeClient.Node.MarkConflict` | internal/control/node.go:299-314 | the file becomes the merged text, the path is locked at the hub's version; a vanished file is left alone |
| `NodeClient.Node.SyncDown` | internal/control/node.go:393-427 | exactly the unfrozen paths the hub holds at another version take its state |
| `NodeClient.Node.ApplyUnlocks` | internal/control/node.go:150-161 | the named paths are released and then everything pulled; with no names nothing happens |
| `NodeClient.Node.Resync` | internal/control/node.go:347-390 | every path is reset against the manifest and then pulled |
| `NodeClient.Node.DiscardLocal` | internal/control/node.go:349-387 | files matching the manifest are adopted, unlisted scanned files deleted, all locks dropped |
| `NodeClient.Node.ApplyDirective` | internal/control/node.go:195-215 | "resync" discards, "resolve" marks exactly the held conflicts; both release every hold |
| `NodeClient.Node.ResumeFromHub` | internal/control/node.go:324-341 | exactly the live hub files present on disk have their version adopted; no file changes |
| `NodeClient.Node.ConflictPaths` | internal/control/node.go:165-181 | exactly the locked and the held paths, as a set |
| `NodeClient.HandlePush` | internal/control/core.go:403-437 | each change is answered, and changes the hub, as if it were pushed alone: pushes to distinct paths commute |
| `NodeView.NodeView.SeedSyncUp` | cmd/avairy/main.go:597-616 | push, then mark: the effect on disk, maps and hub is, at every path that is not marked twice, exactly that of the remote client's SyncUp after its first sync, and is stated for the others |
| `NodeView.ViewSimulatesNode` | internal/workspace/fsutil.go:343-443 | the two clients agree at a path with nothing held if and only if the node does not mark an already marked file again (an ignored one, known, not locked, with the hub at another version), given that a write moves a file's time |
| `NodeView.ViewSyncIsItsSteps` | cmd/avairy/main.go:597-616 | the in-process client's steps in the protocol, with nothing in between, are push, report and mark |
| `NodeView.ViewPartsOnIgnoredMarkers` | internal/workspace/fsutil.go:431-440 | where they part: the view leaves the marked file as it is, the node writes markers around it once more |
| `NodeView.ResolvedConflictLands` | internal/control/node.go:236-245 | with either client, a marked file edited free of markers is landed by the next sync against the version it was marked from: the hub holds its text, as the next version unless it was there already, and the path is unlocked |
| `NodeView.ViewMarksExactly` | internal/workspace/fsutil.go:425-443 | what the in-process marking leaves of a marked and of an unmarked file |
| `NodeView.ViewAssembled` | internal/workspace/fsutil.go:343-393 | pushing edits one by one and then deletions makes up the per-path effect |
| `NodeView.NodeView.SyncUp` | internal/workspace/fsutil.go:343-393 | at every path: what was pushed, stored and remembered, and exactly the rejected paths reported |
| `NodeView.NodeView.MarkConflict` | internal/workspace/fsutil.go:425-443 | marks an unmarked file, locks the path at the hub's version |
| `NodeView.NodeView.SyncDown` | internal/workspace/fsutil.go:397-415 | exactly the unlocked paths the hub holds at another version take its state |
| `NodeView.NodeView.ResumeFromHub` | internal/workspace/fsutil.go:463-470 | every listed path with a local file adopts the hub's version, tombstones included |
| `NodeView.ResumesAlikeExactly` | internal/control/node.go:331-339 | the two clients resume alike if and only if no local file stands at a deleted path |
| `NodeView.ResumedTombstone` | internal/workspace/fsutil.go:463-470 | where they part: the view's first sync brings the deleted file back as the next version, the node's is refused and held |
| `Scan.ScanChanges` | internal/workspace/fsutil.go:270-326 | exactly the unignored files are seen, exactly the files failing the size-and-time gate are read and stamped, exactly those with another fingerprint are reported |
| `Scan.FoundExactly` | internal/workspace/fsutil.go:294-324 | for each path, exactly when it is seen, read, stamped and reported: read unless size and time are both the stamp's, reported if the fingerprint is not |
| `Scan.ScanIsExact` | internal/workspace/fsutil.go:263-326 | the scan reports what a full comparison of contents would, if and only if no scanned file hides an edit behind equal size and time |
| `Scan.RescanIsSilent` | internal/workspace/fsutil.go:304-307 | with the stamps of all read files refreshed, a second scan reads and reports nothing |
| `PathSync.RescanAfterSyncUpExactly` | internal/control/node.go:219-295 | what SyncUp leaves behind is silent to the next scan, except exactly where a first sync had an edited file refused |
| `FileHub.Hub.Push` | internal/workspace/hub.go:71-95 | the answer and every path's history afterwards |
| `FileHub.Hub.Resolve` | internal/workspace/hub.go:99-107 | the merged text, normalised, becomes the next version whatever the base |
| `FileHub.Hub.Pull` | internal/workspace/hub.go:155-165 | exactly the paths whose version differs from the given base, with their current state |
| `FileHub.Hub.Manifest` | internal/workspace/hub.go:140-151 | exactly the live paths, with fingerprint and version |
| `FileHub.Hub.List` | internal/workspace/hub.go:178-186 | every path, tombstones included |
| `FileHub.PushAcceptedExactly` | internal/workspace/hub.go:71-95 | a push is accepted if and only if its base is the number of versions so far; then the hub holds its normalised content at the answered version; a rejected one changes nothing and reports the current state |
| `FileHub.RepushBumpsExactly` | internal/workspace/hub.go:91-93 | re-pushing the hub's own text at its own version stores a new one if and only if the text still holds CR LF, that is, was pushed with CR CR LF |
| `FileHub.BytesWithNulAreKept` | internal/workspace/hub.go:71-107 | accepted content with a NUL byte, pushed or resolved, is held byte for byte |
| `FileHub.TextIsLfOnly` | internal/workspace/hub.go:71-107 | no version stored from NUL-free content without CR CR LF holds a CR LF pair |
| `FileHub.ResolveStoresExactly` | internal/workspace/hub.go:99-107 | a resolve appends one live version: the normalised text, the next number, its agent |
| `FileHub.VersionsCountWrites` | internal/workspace/hub.go:71-126 | over any run of pushes and resolves a version never drops and grows by exactly one per stored write; equal versions mean equal states |
| `FileHub.VersionProvenance` | internal/workspace/hub.go:85-94 | version n + 1 was stored by a resolve or by a push whose base was n |
| `FileHub.HistoryGrows` | internal/workspace/hub.go:110-126 | a path's history after more operations extends the earlier one by exactly the stored writes |
| `FileHub.HistoryWellFormed` | internal/workspace/hub.go:71-126 | version numbers count 1, 2, 3, ... in every reachable history |
| `FileHub.PushKeepsHistory` | internal/workspace/hub.go:71-95 | a push keeps a history well formed and only appends |
| `FileHub.ResolveKeepsHistory` | internal/workspace/hub.go:99-107 | so does a resolve |
| `Text.CrlfSurvivesExactly` | internal/workspace/fsutil.go:135-140 | replacing CR LF by LF leaves a CR LF pair if and only if the input holds CR CR LF |
| `Text.NormalizeIdempotentExactly` | internal/workspace/fsutil.go:135-140 | normalisation is idempotent at a content if and only if it is binary or free of CR CR LF |
| `Text.NormalizeFixesExactly` | internal/workspace/fsutil.go:135-140 | a content is unchanged by normalisation if and only if it is binary or free of CR LF |
| `Text.NulDecides` | internal/workspace/fsutil.go:134-140 | content with a NUL byte is left byte for byte; content without one is left exactly when it holds no CR LF, and keeps a CR LF exactly when it holds CR CR LF |
| `Text.FirstPairGoes` | internal/workspace/fsutil.go:139-139 | what becomes of text, in full: the first CR LF becomes an LF, what is before it stays, what is behind it is treated alike |
| `Text.LineOccurs` | internal/workspace/fsutil.go:135-140 | a whole line stands in the normalised text if and only if it stands in the text ended by LF or by CR LF |
| `Text.PlainOccurs` | internal/workspace/fsutil.go:135-140 | a pattern without line ends occurs in the normalised text if and only if it occurs in the text |
| `Markers.MergeMarkers` | internal/workspace/conflict.go:30-49 | the buffer loop writes exactly the recursive printer's text |
| `Markers.WriteSide` | internal/workspace/conflict.go:53-61 | appends the side, ended by a newline unless empty |
| `Reader.BothSidesRecovered` | internal/workspace/conflict.go:10-13 | when nothing is lost, exactly: for every valid line-aligned script, a reader of the merged file recovers local and hub, each up to one final newline whose presence is stated exactly, if and only if no agreed line is an opening marker, no line of a hunk's local side a middle one, and no line of a hunk's hub side starts a closing one |
| `Reader.HubVersionRecovered` | internal/workspace/conflict.go:44-44 | with both sides the reader recovers the hub's version, once for each hunk |
| `Markers.MarkersAreGitStyle` | internal/workspace/conflict.go:15-19 | the three markers: seven of the same sign each, and whose side it is |
| `Reader.Tally` | internal/workspace/conflict.go:36-48 | the reader takes every marker-looking line for a marker or keeps it, counted by kind and side |
| `Reader.Balance` | internal/workspace/conflict.go:36-48 | the marker-looking lines of the merged file against those of its two sides, differing by the hunks and the misplaced lines |
| `Reader.ReadsBackIfFree` | internal/workspace/conflict.go:36-48 | without misplaced marker lines the reader's lines are the lines of the two sides |
| `Reader.LinesOfMerged` | internal/workspace/conflict.go:36-48 | the merged file's lines: agreed stretches, and for each hunk its three markers around the two sides |
| `Reader.PlainTextsReadBack` | internal/workspace/conflict.go:36-48 | enough for it: no opening or middle marker line in the local text, no closing one in the hub's |
| `Reader.OursIsLocal` | internal/workspace/conflict.go:39-47 | the recovered first side is the local text, up to the stated newline |
| `Reader.TheirsIsHub` | internal/workspace/conflict.go:39-47 | the recovered second side is what the script makes of local, up to the stated newline |
| `Markers.MergedIsMarked` | internal/workspace/conflict.go:22-49 | the merged file is recognised as conflicted if and only if the sides differ or local was marked already |
| `Reader.MarkerLineIsMisread` | internal/workspace/conflict.go:15-19 | counterexample: a local file of one row of seven equals signs comes back empty, against any other hub text without a closing marker line |
| `Markers.CrlfMarkersSlipThrough` | internal/workspace/conflict.go:22-24 | counterexample: a concrete conflict file with CR LF line ends is not recognised, though normalising it gives one that is |
| `Markers.SlipsThroughExactly` | internal/workspace/conflict.go:22-24 | a text passes for unmarked and is marked after normalisation if and only if it is no binary, has an opening marker and a middle marker line ending in CR LF, and none ending in LF |
| `Waker.Waker.Wake` | internal/bus/bus.go:117-138 | interrupts, the human and the facilitator always wake and cost nothing; from anybody else, messages to a role, to all or to the facilitator never wake, and messages to one agent or the team are refused if and only if six grants lie in the preceding thirty seconds |
| `Waker.Waker.Filter` | internal/bus/bus.go:125-132 | the in-place compaction keeps exactly the later times, in order |
| `Waker.Waker.Spend` | internal/bus/bus.go:125-137 | one budgeted message decided on the filtered window |
| `Waker.NoWindowExceedsBudget` | internal/bus/bus.go:110-112 | over any run with a monotone clock every half-open thirty-second window, wherever it ends, holds at most six grants |
| `Waker.WakeStep` | internal/bus/bus.go:125-137 | the kept times decide as all grants ever made would |
| `Facilitator.Facilitator.TrackLoop` | internal/facilitator/facilitator.go:208-247 | the twelve-action window decides exactly as a detector that remembers everything since the last trigger |
| `Facilitator.Facilitator.FindPeriod` | internal/facilitator/facilitator.go:229-234 | the shortest block of one to four actions that the history ends in three times |
| `Facilitator.IsCycle` | internal/facilitator/facilitator.go:274-281 | every action equals the one a period earlier |
| `Facilitator.Facilitator.Observe` | internal/facilitator/facilitator.go:130-141 | a record nudges if and only if it is a trigger whose agent was not nudged for it within the cooldown; progress forgets a blocked nudge |
| `Facilitator.LoopFiresExactly` | internal/facilitator/facilitator.go:227-234 | a cycle trigger fires if and only if the recorded history ends in a block repeated three times, and names the shortest one |
| `Facilitator.TrackExactly` | internal/facilitator/facilitator.go:208-247 | everything an action does: repeated mutations are progress and not recorded, new actions are progress, the sixth in a row that is neither circles, a trigger wipes the slate |
| `Facilitator.EndsInTripleExactly` | internal/facilitator/facilitator.go:229-234 | a tripled suffix spelled out: each of the last 2p actions is the one p before it, for p up to four |
| `Facilitator.MindInTurn` | internal/facilitator/facilitator.go:208-247 | over a run the detector takes the actions in turn |
| `Facilitator.NoLoopGoesUnseen` | internal/facilitator/facilitator.go:202-251 | over every run: no block of one to four actions stands three times in a row anywhere since the last trigger; the stale counter is below six and counts actions that brought nothing new |
| `Facilitator.CirclingIsSixStale` | internal/facilitator/facilitator.go:236-245 | a circling trigger means six actions in a row that each recur within the twelve before them |
| `Facilitator.CyclicIsTripled` | internal/facilitator/facilitator.go:274-281 | the period test on the tail is the test for three equal blocks |
| `Facilitator.NudgesAreSpaced` | internal/facilitator/facilitator.go:307-325 | two nudges of one agent for one kind of trigger are at least forty-five seconds apart, or progress was reported in between |
| `Facilitator.NudgesExactly` | internal/facilitator/facilitator.go:130-141 | over any run with a monotone clock, a detected trigger nudges if and only if no nudge of the same agent for the same kind is less than forty-five seconds old and not taken back by reported progress |
| `Facilitator.DetectExactly` | internal/facilitator/facilitator.go:163-197 | which reports and actions are triggers, and which reports are progress |
| `Facilitator.SilenceHasAReason` | internal/facilitator/facilitator.go:308-319 | whatever is on file as the last nudge was a nudge really given |
| `Facilitator.NudgeKeyInjective` | internal/facilitator/facilitator.go:305-305 | keys never collide, whatever the agent ids contain |
| `Approvals.FailsClosed` | internal/control/approvals.go:67-94 | under every interleaving, an Ask that registered returns something other than deny only if a Resolve carried that verdict to its own id |
| `Approvals.VerdictGetsThrough` | internal/control/approvals.go:67-133 | from any state of any run a pending request that is still waited for can be given any verdict and returns it, and one nobody resolves in time returns deny |
| `Approvals.TakeRulesExactly` | internal/control/approvals.go:137-149 | a Resolve takes exactly a pending request, with its verdict, and files a grant exactly with a blanket one |
| `Approvals.AskRegistersExactly` | internal/control/approvals.go:98-110 | an Ask registers one new unruled request, or none where a grant covers it |
| `Approvals.DeliversExactly` | internal/control/approvals.go:67-94 | what sending, receiving, giving up and returning leave |
| `Approvals.WavedThroughExactly` | internal/control/approvals.go:98-103 | at any moment of any run an Ask is waved through if and only if an earlier verdict was a blanket grant for the same agent and kind (agent ids without NUL) |
| `Approvals.ResolveBindsExactly` | internal/control/approvals.go:80-94 | over every run, a request that was taken and has returned returned the verdict it was taken with if and only if that verdict is deny or its timer and context never won |
| `Approvals.TakenAtMostOnce` | internal/control/approvals.go:137-149 | each request is taken by at most one Resolve of any run, and by none once it is gone |
| `Approvals.SendNeverBlocks` | internal/control/approvals.go:126-133 | the send of a Resolve that took a request always finds the one-slot channel empty |
| `Approvals.ResolveMayComeTooLate` | internal/control/approvals.go:80-88 | counterexample: Resolve reports success and the Ask still returns deny |
| `Approvals.NextKeepsInv` | internal/control/approvals.go:67-155 | every step of asks, resolves, timeouts and cancellations keeps the broker's invariant, request identities and verdicts |
| `Approvals.SessionKeyInjective` | internal/control/approvals.go:63-63 | for ids without NUL, a grant's key determines agent and kind |
| `Approvals.KeysCollideExactly` | internal/control/approvals.go:63-63 | two requests share a key if and only if agent and kind are the same, or one agent id is the other followed by a NUL and a text and the other's kind is that text, a NUL, and the first's kind |
| `Approvals.NulKeysCollide` | internal/control/approvals.go:63-63 | two such requests |
| `Approvals.Approvals.Register` | internal/control/approvals.go:98-110 | a fresh id is filed, unless a blanket grant covers the request |
| `Approvals.Approvals.Take` | internal/control/approvals.go:137-149 | a pending request, and only that one, is removed and returned; a blanket verdict files the grant |
| `Approvals.Approvals.Remove` | internal/control/approvals.go:151-155 | the request is no longer pending |
| `Supervision.AtMostOneStream` | internal/supervisor/supervisor.go:93-187 | in every run at most one spawned session has an open stream, and none once the loop has returned |
| `Supervision.CrashIsItsOwn` | internal/supervisor/supervisor.go:250-258 | a session is given up as crashed only when its own stream has ended |
| `Supervision.SessionIsCurrent` | internal/supervisor/supervisor.go:189-224 | with no respawn pending the session carries the latest requested model and effort, over every run in which no live change drops a deferred one |
| `Supervision.UpToDateExactly` | internal/supervisor/supervisor.go:206-224 | one step leaves the session up to date if and only if it is not a live change landing on a deferred one that set a field it does not name |
| `Supervision.LiveChangeDropsDeferredOne` | internal/supervisor/supervisor.go:216-219 | counterexample: a live change of model clears the pending respawn for effort, and the session keeps the old effort |
| `Supervision.DeferredChangeLands` | internal/supervisor/supervisor.go:189-203 | handling the turn-done signal at rest leaves nothing pending on a running session, which carries the requested model and effort |
| `Supervision.NextMessageWakes` | internal/supervisor/supervisor.go:288-306 | in every run, after a crash or a sleep the next wake-worthy message whose spawn succeeds leaves the agent in a turn with exactly one open stream, of a session with the settings last asked for |
| `Supervision.MessageWakes` | internal/supervisor/supervisor.go:288-306 | a wake-worthy message: asleep, a session with the wanted settings is spawned and a turn begins, or, if the spawn fails, nothing changes; awake, only a turn begins |
| `Supervision.OtherMessagesDoNotWake` | internal/supervisor/supervisor.go:274-290 | context and honoured interrupts change nothing; a refused interrupt puts the agent to sleep |
| `Supervision.TickSleepsExactly` | internal/supervisor/supervisor.go:259-262 | an agent falls asleep on a tick if and only if it is awake, quiet and not in mid-turn |
| `Supervision.CrashIsNoticed` | internal/supervisor/supervisor.go:250-258 | a current session whose stream has ended and is drained is given up |
| `Supervision.CrashIsGivenUp` | internal/supervisor/supervisor.go:250-258 | a dead channel is no longer listened to; the current session's is given up with it |
| `Supervision.TurnEndApplies` | internal/supervisor/supervisor.go:189-203 | at the end of a turn a deferred change restarts the session exactly when there is one and no turn is under way |
| `Supervision.ReconfigLands` | internal/supervisor/supervisor.go:206-224 | named fields become the wanted ones; live, the session carries them; else the change waits for the next session or the turn's end, or the session restarts at once |
| `Supervision.StartSpawns` | internal/supervisor/supervisor.go:226-226 | the loop begins with a session if one can be spawned |
| `Supervision.EventsMakeTurns` | internal/supervisor/supervisor.go:127-140 | an event starts or ends a turn, and the end is signalled |
| `Supervision.ReturningEndsStreams` | internal/supervisor/supervisor.go:242-249 | when the loop returns no stream is open |
| `Supervision.WantedIsLatest` | internal/supervisor/supervisor.go:206-214 | over every run the wanted settings are the ones last asked for |
| `Supervision.NextKeepsInv` | internal/supervisor/supervisor.go:93-307 | every step of the loop, the sessions and their drains keeps one session, its own dead channel, and a turn-done signal on the way for every change deferred on an idle session |
| `Supervision.RunKeepsInv` | internal/supervisor/supervisor.go:93-307 | so does every run |
| `Supervision.Supervisor.Handle` | internal/supervisor/supervisor.go:240-307 | each turn of the select loop does exactly one step of the machine |
| `Supervision.Supervisor.WakeUpNow` | internal/supervisor/supervisor.go:102-152 | a session is spawned with the wanted model and effort if there is none and the spawn succeeds |
| `Supervision.Supervisor.SleepNow` | internal/supervisor/supervisor.go:157-170 | the session is closed and forgotten; its dead channel stays |
| `Supervision.Supervisor.RespawnNow` | internal/supervisor/supervisor.go:174-186 | the old session is closed and a new one spawned |
| `Supervision.Supervisor.MaybeRespawnNow` | internal/supervisor/supervisor.go:189-203 | a pending change is applied unless mid-turn, or dropped when asleep |
| `Supervision.Supervisor.ApplyReconfigNow` | internal/supervisor/supervisor.go:206-224 | named fields are recorded; the change lands live or is deferred |
| `TaskBoard.AnyPrefixRestores` | internal/board/board.go:77-94 | the journal of any sequential run, cut anywhere, restores exactly the tasks and counter as they stood after some prefix of the calls |
| `TaskBoard.RestoredIdsAreFresh` | internal/board/board.go:97-119 | whatever the calls' overlaps, once nothing is in flight the restored board knows every task and the counter, and the next id is new |
| `TaskBoard.InOrderRestores` | internal/board/board.go:77-94 | for overlapping calls whose records do not overtake each other, journal and in-flight records together always tell the whole board |
| `TaskBoard.AppendExactly` | internal/board/board.go:116-118 | appending one in-flight record keeps the journal's story if and only if it does not overtake the last other in-flight record of its task with another content |
| `TaskBoard.OverlapRestoresStale` | internal/board/board.go:149-162 | counterexample, from the empty board: one post, then two overlapping state changes journaled in the other order restore the stale one |
| `TaskBoard.LastWriteWins` | internal/board/board.go:74-94 | replay leaves each task as the last record about it says |
| `TaskBoard.NextKeepsNumbered` | internal/board/board.go:103-119 | ids are t1, t2, ... up to the counter, and a posted id is new |
| `TaskBoard.ClaimExactly` | internal/board/board.go:123-146 | a claim succeeds if and only if the task is there, open, and every required capability has its value; then only state and claimant change; a failed one changes nothing and says why |
| `TaskBoard.OneClaimantAtATime` | internal/board/board.go:123-146 | over every run, between two successful claims of one task some SetState put it back to open; until then it is the first claimant's and not claimable |
| `TaskBoard.PostExactly` | internal/board/board.go:103-120 | a post adds one open, unclaimed task under the next id and touches no other |
| `TaskBoard.SetStateExactly` | internal/board/board.go:149-162 | a change of state needs only the task and changes nothing else |
| `TaskBoard.JournaledExactly` | internal/board/board.go:116-145 | a successful call journals the task it answers, a claim as a handover; a failed one nothing |
| `TaskBoard.RestoredExactly` | internal/board/board.go:80-93 | a task or handover record restores its task and raises the counter; any other record nothing |
| `TaskBoard.CallsInTurn` | internal/board/board.go:103-162 | a sequential run is its calls in turn, each with its append |
| `TaskBoard.FirstId` | internal/board/board.go:97-108 | ids and numbers as they are written |
| `TaskBoard.RecordTellsAll` | internal/board/board.go:103-162 | replaying an operation's own record does exactly what the operation did |
| `TaskBoard.CallKeepsSettled` | internal/board/board.go:103-162 | a call that finishes before the next begins keeps board and journal in agreement |
| `TaskBoard.TaskSeqOfId` | internal/board/board.go:97-100 | an id's number is read back exactly, up to 2^64 - 1 |
| `TaskBoard.Board.AddTask` | internal/board/board.go:103-120 | the new open task, its id, the counter and the record |
| `TaskBoard.Board.ClaimTask` | internal/board/board.go:123-146 | an open task whose requirements are met is claimed; the three errors in order |
| `TaskBoard.Board.MoveTask` | internal/board/board.go:149-162 | the state changes and nothing else |
| `TaskBoard.Board.Restore` | internal/board/board.go:77-94 | the loop over the records is the replay |
| `Decimal.ParseOfPrint` | internal/board/board.go:97-108 | parsing a printed number gives it back, up to 2^64 - 1 |
| `Decimal.PrintInjective` | internal/control/approvals.go:104-105 | different numbers print differently |
| `Decimal.PrintTen` | internal/board/board.go:107-108 | the digits are the usual ones, the highest first |
| `Enrollment.AdmittedExactly` | internal/control/core.go:261-304 | at any moment of any run a request is admitted if and only if its certificate names it, or tokens are allowed and it bears the current token or one that admitted this node before |
| `Enrollment.CurrentTokenStays` | internal/control/core.go:157-166 | over every run without a rotation and without an admission by it, the token once shown is still the current one and admits any node with an id that bears it |
| `Enrollment.ReadingKeepsTheToken` | internal/control/core.go:159-166 | reading the token mints one only when there is none |
| `Enrollment.RefusedInOrder` | internal/control/core.go:266-316 | which refusal a request gets |
| `Enrollment.AdmissionLeaves` | internal/control/core.go:286-324 | what an admission leaves of sessions, roster, bindings and the current token, and when it is a rejoin |
| `Enrollment.ForgettingLeaves` | internal/control/core.go:556-566 | a forgotten node loses nothing but its place in the roster |
| `Enrollment.TokenAdmitsOneNode` | internal/control/core.go:287-296 | in every run all admissions by one token are of one node |
| `Enrollment.RotatedAwayAdmitsNobody` | internal/control/core.go:168-175 | a token rotated away before its first use admits nobody in any later run |
| `Enrollment.RotationRetires` | internal/control/core.go:170-175 | rotation puts the unused current token in that state |
| `Enrollment.RejoinsForGood` | internal/control/core.go:293-295 | a node once admitted by a token may rejoin with it at any later moment |
| `Enrollment.EverySessionWasAdmitted` | internal/control/core.go:298-304 | every session belongs to an admission and names the admitted node |
| `Enrollment.SessionsAreCertified` | internal/control/core.go:270-282 | with client certificates required, every session's node is the one a verified certificate named |
| `Enrollment.NextKeepsInv` | internal/control/core.go:159-175 | every step keeps tokens, bindings and sessions consistent and forgets no binding or session |
| `Enrollment.Core.HandleEnroll` | internal/control/core.go:261-324 | reply and new state of one request |
| `Enrollment.Core.Current` | internal/control/core.go:159-166 | the current token, minted when there is none |
| `Enrollment.Core.Rotate` | internal/control/core.go:170-175 | a fresh token replaces the current one |
| `Enrollment.Core.ForgetNode` | internal/control/core.go:546-568 | the node's slot is freed; its bound token and its sessions stay |

## Left out

- File modes, symlinks, directories, the stored-at time, temporary files and renames: a working tree is a map from path to content and modification time.
- Failing file operations and failing posts: every read, write and request succeeds.
- The atomicity of a scan and of a pull: an edit between a pull's request and its writes, or during a scan's walk, is not modelled; pushes of a batch are separate steps and do interleave.
- Hash collisions: a content fingerprint is injective.
- Ignore files: one fixed predicate on paths, shared by all clients.
- The line diff's algorithm: any valid, ordered, line-aligned script.
- The wrap-around of 64-bit version counters; the task counter's wrap-around is modelled, and the board theorems speak of fewer than 2^64 posts.
- The hub's snapshot file and restarts of the core from an older one.
- Transport: HTTP, TLS, JSON, certificates and the event stream; a verified certificate is the node id it carries.
- Conflict notifications: newConflict, raiseStartupConflict, the operator's conflict list, and the heartbeat's mailboxes except the queue of unlocks; an unlock lost between heartbeat and pull is one that is never taken out, and directives arrive as arguments.
- The list of held startup conflicts is a map keyed by path; its order is not modelled.
- Modification times: all files written by one operation get that operation's time.
- The remote client is driven by one goroutine: its operations do not overlap each other, only edits, a restart, other clients and agents interleave with them.
- NodeClient.HandlePush: does not model the request's order of changes, because pushes to distinct paths are proved to commute, nor whom a conflict is routed to.
- Bus publishing, its duplicate suppression and address matching; who is subscribed to what.
- The facilitator's wording, the choice of whom to nudge, the fresh look, and how a tool call becomes an action key.
- The approvals broker's observers, timestamps, the sorted pending list and the length of the timeout: a timeout may happen at any moment.
- The supervisor's journal records, list of models and texts sent to sessions; the idle period is a flag of the tick, the wake budget a flag of the message.
- Supervision.Supervisor.ApplyReconfigNow: does not model a refused live change with a partial effect; a live change is taken to be all or nothing: a session that refuses it is left as it was.
- Aliasing of the maps and lists inside a posted task; the actor written beside each journal record.
- NodeClient.Node.ConflictPaths: does not model the sorted order of the list.
- Enrollment.Core.ForgetNode: does not model the liveness test that triggers it, nor the mailboxes it clears.
- Liveness flags and last-seen times of nodes; forgetting an ephemeral node may happen at any moment.
- Agent adapters, git, blackboard, dispatch, cost sums, gating and consoles: other components.
