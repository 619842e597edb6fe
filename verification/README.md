# Verification model of the agent's job engine

A model, in Dafny 4.11, of the parts of the agent that have to hold when nobody is watching: the lease, commit and effect
protocol; the delivery of a pull request with its one correction; what is owed to the tracker and read back; and the
algorithms the deliveries rest on. `dafny verify dfyconfig.toml` checks all of it.

## How it is laid out

| part | modules |
|---|---|
| Store and protocol | `Store` (rows, leases, keys; the store's methods as a class), `Decision` (what commits are made of), `Runner` (runner, worker, armer), `Protocol` (any number of holders as interleaved atomic steps), `ProtocolSafety` (what every run keeps), `ProtocolCounts` (what a row's counts say), `SoloRun` (one holder's steps are the runner's method) |
| Rounds and what is owed | `Decimal`, `Round`, `Owed`, `OwedRuns` |
| Delivery | `Git` (commits and a compare-and-swap ref), `Correcting`, `Work` (gate, watch, read-back), `Delivery` (each transition as a list of writes, a move and an effect; runs with a kill after any write), `DeliveryOutcomes` (what each transition comes to, outcome by outcome), `DeliveryJob` (the transitions as they run, proved to make those writes in that order and to come to those outcomes), `DeliverySafety`, `DeliveryVetted` (what every push and label was found to be), `DeliveryKills` and `DeliveryForgets` (a kill inside the failure of a correction), `GateBound`, `GateClaims`, `GateUnbounded` (how often the gate is checked), `DeliveryEnds` (that a delivery ends) |
| Revision | `Revise`, `ReviseOutcomes`, `ReviseJob`, `ReviseSafety`, `ReviseDrops`, `Replay` |
| Algorithms | `Order`, `Tokens`, `TokenRuns`, `Glob`, `SubAgents`, `Candidates`, `Text`, `Description`, `DescriptionSettles`, `DescriptionAppends`, `Reply`, `ReplyReadBack`, `Review`, `Amended` |

Code that changes things step by step is modelled by classes and loops proved against specification functions; the
theorems about runs are lemmas about those functions.

## What is assumed

- Holder names are unique among the processes working at one time, the armer's included; the clock never goes back.
- The keys of one result are distinct, and every key and marker belongs to one job. `Decision.TodoRepeatsWhatWasAsked`
  says exactly what the first of these protects.
- A post to the tracker is atomic, no request reaches it after its deadline, and nobody deletes comments.
- The state directory is not lost, and a transition's writes to it end inside its lease.
- The session may leave the workspace at any commit and on any branch; CI, the review job, the tracker and other people
  answer in any way at any time.
- What git says is given by what it promises: an ancestor, a merge base, the commits of a range with parents first, a
  three-way merge as a function of its commits. Two commits with the same parents, tree and message are one.

## Where the code does less than is said of it

- The gate's bound of A*(2F+3) checks is not one for each delivery. A session that fails transiently having left the
  work's branch has the workspace and its progress begun afresh before the first push, and nothing counts that. Unkilled,
  the bound holds once for each claim and once for each such stray (`GateClaims.ChecksAreBoundedByClaimsAndStrays`), so for
  one claim without a stray it is kept (`GateClaims.OneDeliveryIsBounded`). A single stray loses it
  (`GateUnbounded.AStrayUnbounds`), and with nobody killed or deferred there is a delivery of any number of checks, whatever
  the bounds (`GateUnbounded.ChecksAreUnbounded`).
- A failed correction is said to leave the branch at the reviewed head and be over. Killed after the workspace was put back
  and before the failure is saved, the push that meets it again does not fail it: unless the reviewed head may not be
  pushed, it sends that head with the correction still running (`DeliveryKills.ThePushSendsTheReviewedHead`), and the job
  goes back to a session that is asked for the work anew, the correction having been given once already
  (`DeliveryForgets.AFailureMayBeForgotten`, from the claim on).
- A revision says it does not push over anyone else's work. What it checks is the head the operator read: the push it was
  replayed onto is kept if no session has run since (`ReviseSafety.ReplayedPushesKeepTheLease`), and otherwise may be
  dropped under a lease pinned to it (`ReviseDrops.TheAgentMayDropThem`).
- A token's `Acquire` and the registry together exclude deadlock: with a name declared twice, which the registry refuses,
  only a wait that runs out would end it (`TokenRuns.DeclaredTwiceDeadlocks`).

## Model

| member | source | states |
|---|---|---|
| `ProtocolSafety.EffectsArePerformedAtMostOnce` | internal/transition/runner.go:203-305 | In every interleaving of any number of holders, with leases lapsing and kills anywhere, each key is performed at most once, and only after the commit that first reserved it. |
| `ProtocolSafety.MarkersAreSaidAtMostOnce` | internal/owed/owed.go:516-529 | In every such interleaving each marker is posted at most once, across all rounds, timeouts and kills. |
| `ProtocolSafety.EffectsRunUnderTheirLease` | internal/transition/runner.go:106-124 | While an effect is in flight before its deadline its holder has the job's lease, the lease outlives the deadline, nobody else can take the job, and no other effect of that job is in flight. |
| `ProtocolSafety.CommitsReplaceWhatWasRead` | internal/store/sqlite.go:240-303 | Whatever a holder commits next - a move, a failure or an arming once it is ready, a park or a deferral straight from the job it took - an accepted commit is of a row it still holds and replaces exactly the work it read, and a refused one changes nothing. |
| `ProtocolSafety.WhatIsHeldIsKnown` | internal/store/sqlite.go:187-238 | Wherever a holder is in its work, as long as the row records it, the row's state, attempts, stays and schedule are what it last read or committed. |
| `ProtocolSafety.StepKeepsInv` | internal/transition/runner.go:203-305 | Every step of every holder, kills and lease expiry included, keeps the protocol's invariant. |
| `ProtocolSafety.LocalIsStable` | internal/store/sqlite.go:187-238 | What one holder relies on survives every step of every other holder that keeps the store's guarantees. |
| `ProtocolSafety.CommitGrants` | internal/store/sqlite.go:273-303 | A commit of a still held row grants its unreserved keys to that holder alone. |
| `ProtocolSafety.GrantIsUnique` | internal/store/sqlite.go:281-290 | A key is granted by one commit, the one that first reserved it, so to one holder and for one job. |
| `ProtocolCounts.CountsAreWhatHappened` | internal/transition/runner.go:245-275 | Over every run of any number of holders, a job's attempts are exactly the failures committed of it since it last moved or was armed, and its stays the stays: counted by what each holder set out to commit, not by what commits hold. |
| `SoloRun.SoloRunMatches` | internal/transition/runner.go:203-320 | Run by one holder alone, the machine's steps leave the database and the performed effects the runner's method leaves. |
| `Store.CommitWritesOnlyItsHoldersRow` | internal/store/sqlite.go:240-303 | A commit is accepted exactly for the recorded holder; it writes that row and its new keys and nothing else, and never re-assigns a key. |
| `Store.DueIsExclusive` | internal/store/sqlite.go:189-238 | What one asker was just given by the queue, no other can lease before it lapses. |
| `Store.DueIsDetermined` | internal/store/sqlite.go:213-238 | The queue's order names at most one longest-waiting job. |
| `Store.SqliteStore.Ensure` | internal/store/sqlite.go:125-147 | Creates a row at rest or due in its first state, and never changes one that is there. |
| `Store.SqliteStore.Acquire` | internal/store/sqlite.go:185-211 | Leases the row exactly when it is free, lapsed or the asker's own; a missing row is an error and a held one is no error. |
| `Store.SqliteStore.Due` | internal/store/sqlite.go:213-238 | Leases the longest-waiting job among those due and leasable, or reports that there is none. |
| `Store.SqliteStore.Commit` | internal/store/sqlite.go:240-303 | The row and all of its keys in one step, or an error and no change. |
| `Store.SqliteStore.Reserved` | internal/store/sqlite.go:305-315 | Whether any commit has reserved the key. |
| `Store.SqliteStore.Release` | internal/store/sqlite.go:317-325 | Frees the lease only if the releaser is the recorded holder. |
| `Decision.TodoKeepsUnreserved` | internal/transition/runner.go:228-243 | The filter keeps exactly the effects whose key is unreserved, and every effect is either kept or reported as skipped. |
| `Decision.TodoInOrder` | internal/transition/runner.go:228-243 | What is performed is in the decision's order: of two lists of effects, what is left of the first comes first. |
| `Decision.TodoRepeatsWhatWasAsked` | internal/transition/runner.go:228-243 | What is performed repeats a key exactly if the decision itself asked for an unreserved key twice: the filter alone does not protect against that. |
| `Runner.Runner.Run` | internal/transition/runner.go:181-201 | Takes the lease and applies the transition to the row it got; no such job is an error, a job a live holder has is left alone; otherwise the row is counted as the run ended, and its lease free. |
| `Runner.Runner.Apply` | internal/transition/runner.go:203-305 | The row, column by column: as it was for a job not the transition's; one more attempt, stays kept, for a decision that errs or is malformed; attempts kept, one more stay, for one that keeps the state; both counts at none for one that moves. The keys are exactly the decision's besides, and every other row is as it was. |
| `Runner.RanLeaves` | internal/transition/runner.go:203-305 | The same of the function the run is proved against, whatever it is given and whatever becomes of its effects. |
| `Runner.Runner.Perform` | internal/transition/runner.go:294-305 | Effects are performed in order, and none after the first that errs. |
| `Runner.Runner.Fail` | internal/transition/runner.go:339-375 | A failed run leaves the row with its kind and state, one more attempt, the stays it had, the retry's time and no lease; keys, performed effects and every other row as they were; and nothing changed at all if the row is no longer its holder's. |
| `Runner.Worker.Work` | internal/dispatch/dispatch.go:189-214 | One pass takes the longest-waiting job it may take, and leaves of it a run's row if it started one, and otherwise the row as it was but for when it is next due. |
| `Runner.Worker.Dispatch` | internal/dispatch/dispatch.go:227-316 | A deferral, a park, a permit that never came and a run each leave the stated database. |
| `Runner.Worker.Reschedule` | internal/dispatch/dispatch.go:458-475 | Moves only when the job is next due, and only while the holder still has it. |
| `Runner.SetAsideCostsNothing` | internal/dispatch/dispatch.go:227-260 | A job taken and not run keeps its state, attempts and stays, performs nothing, reserves nothing and frees its lease. |
| `Runner.Armer.Restart` | internal/transition/armer.go:31-45 | A job at rest starts over with both counts cleared and its key reserved by that commit; a queued or held one is untouched. |
| `Runner.Armer.Ask` | internal/transition/armer.go:47-58 | Only a job at rest in its start state is made due, or one that did not exist. |
| `Runner.Armer.Arm` | internal/transition/armer.go:60-98 | The check is made again under the lease, and a job no longer armable is let go unchanged. |
| `Round.Round` | internal/transition/round.go:31-45 | The first unreserved round of the allowance, or that all of it is spent and where the next allowance starts. |
| `Round.Next` | internal/transition/round.go:51-60 | The first round no commit has reserved, found because the reserved keys are finite. |
| `Round.RoundKeysAreDistinct` | internal/transition/round.go:31-45 | No two rounds share a key, of one stem or of two. |
| `Round.ReservingARoundKeepsSegments` | internal/transition/round.go:31-58 | Reserving the round a caller was given keeps each stem's reserved rounds an initial segment, moves that stem's end by one and no other's. |
| `Round.FreeInSegment` | internal/transition/round.go:31-45 | In an initial segment the free round is its end exactly if the allowance reaches it, and a spent allowance ends inside the segment. |
| `Owed.Book.Owe` | internal/owed/owed.go:399-424 | The record is saved with each allowance at the first free round, and its items become effects under those rounds' keys; a malformed item or no next state saves nothing. |
| `Owed.Book.Effects` | internal/owed/owed.go:473-496 | Every item's effect under its next round, or an error with exactly the spent allowances moved on in the saved record. |
| `Owed.Book.Settle` | internal/owed/owed.go:435-458 | On to the next state once all items show; the missing ones made again; the spent ones moved on and reported; a lost record sent where the kind says. |
| `Owed.SpentOfIsExact` | internal/owed/owed.go:473-490 | An allowance is moved exactly when its rounds are all reserved, and then past all of them. |
| `OwedRuns.MadeAtMost` | internal/owed/owed.go:323-330 | Over every run with kills, each item's rounds stay an initial segment and it is made at most R*L times, and R times more for each kill between the record's save and the failure's commit. |
| `OwedRuns.TheBoundIsMet` | internal/owed/owed.go:323-330 | The bound is exact for every number of kills k: an item that never shows is made R*(L+k) times before its job parks. |
| `OwedRuns.StepKeepsInv` | internal/owed/owed.go:473-496 | Each attempt, loss, failure, cut and error keeps the account of rounds against attempts and cuts. |
| `Correcting.APushBackHasRounds` | internal/correction/correction.go:94-102 | A failed correction's push back always has rounds of its own, which counting from the start would not give it. |
| `Work.Workspace.Check` | internal/work/gate.go:71-127 | Each answer exactly when: a switched branch, nothing new, passed only if committed and passing, failing below the bound, exhausted at it; an attempt counted for the last two alone, and the failure cleared by a pass. |
| `Work.Workspace.Watch` | internal/work/ci.go:107-185 | Each answer exactly when: green only of the last push, with a run, every run finished and passing, and one for every required check; moved, pending, late, approval, red and spent likewise; the fix counted once for a head, and the attempts begun again by a red alone. |
| `Work.Workspace.Absent` | internal/work/ci.go:240-252 | Exactly the required checks that have no run. |
| `Work.Workspace.ReadBack` | internal/work/push.go:85-109 | Landed exactly where the branch is at the last push, which then is the lease, its time set only by the first look; not landed exactly at the old lease; otherwise someone else's, and nothing but a landing changes anything. |
| `Work.ALandingIsSeenOnce` | internal/work/push.go:85-109 | A push seen landed is seen so again at any later time, with nothing counted anew, and CI is watched for that very head. |
| `Work.RedIsCountedOnce` | internal/work/ci.go:167-177 | A red head met again after a lost commit is not counted twice, and is not spent by it. |
| `DeliveryJob.Job.Gate` | internal/delivery/machine.go:136-200 | Work goes to its push exactly if it is there, on its branch and the correction's own, new, committed and passing; back to its session below the bound; a failed correction past the gate; and anything else stops it. The writes in order, which the kill theorems cut short. |
| `DeliveryJob.Job.Fail` | internal/implement/correct.go:92-107 | A correction that fails restores the workspace first, then saves, then moves, with the writes traced in that order; a lost workspace is a lost delivery. |
| `DeliveryJob.Job.RunSession` | internal/implement/work.go:121-265 | Put off, lost, gone on in or begun afresh, each exactly when; to the gate only by a session that finished, which has been given its cut or its correction. The writes in order: the old work dropped before the fresh, the workspace before the progress that tells of it. |
| `DeliveryJob.Job.PushWork` | internal/implement/push.go:26-173 | A push is owed exactly if the work is in hand, not being cut, no failed correction already back at its head, the running correction's own, not denied, not to be cut, and has rounds left; and every other way on exactly when. The writes in order. |
| `DeliveryJob.Job.Open` | internal/implement/push.go:182-260 | What follows a push, each exactly when: someone else's, made again, watched, described, opened, or kept as a branch for its size or its spent rounds; the progress saved before the workspace is dropped. |
| `DeliveryJob.Job.WatchCI` | internal/implement/ci.go:18-60 | Where each of the watch's answers sends the job, and that a head is seen green exactly by a watch that found it so. The writes and what it saw in order. |
| `DeliveryJob.Job.AwaitReview` | internal/implement/handoff.go:24-60 | A correction begun exactly of a correctable review of the last push with none before it; one met again sent back, pushed back or handed off; and each other way on exactly when. The writes and what it saw in order. |
| `DeliveryJob.Job.HandOff` | internal/implement/handoff.go:65-91 | The label is owed exactly if the pull request is open, does not show it, and has rounds left; done once it shows, handed back when rounds run out. |
| `DeliverySafety.TheLabelIsEarned` | internal/implement/handoff.go:24-91 | Over every run, killed anywhere, the label is in flight only with CI seen green on the last push, its review seen (or that of the head the correction was made of), and the branch last read there. |
| `DeliveryVetted.TheLabelWasEarned` | internal/implement/handoff.go:24-91 | And traced to what was met: under the label the last push is a head the gate passed, that a watch found the branch at with runs, all finished and passing, and one for every required check; and whose review was found there, or that of the head its correction was made of. |
| `DeliveryVetted.EveryPushIsVetted` | internal/implement/push.go:62-72 | Over every run, killed anywhere, a commit on its way to the branch was found not denied by the very transition that decided its push, and the gate had passed it with everything committed. |
| `DeliveryVetted.StepIsVetted` | internal/implement/push.go:26-130 | Every transition, cut short after any of its writes, keeps what that rests on: all the progress names was passed by the gate. |
| `DeliverySafety.CorrectsOnce` | internal/correction/correction.go:115-165 | One progress begins at most one correction; at the hand-off a failed one has the branch at exactly the reviewed head and any other at a strict descendant. |
| `DeliverySafety.AKillResumesTheCorrection` | internal/delivery/machine.go:238-285 | A kill between a correction's save and its move is met by the same state, which sends it where it was going: session, push back of exactly the reviewed head, or review. |
| `DeliveryKills.AKillWithinAFailure` | internal/implement/correct.go:92-107 | Over every run, a kill after a failing correction has put the workspace back and before it is saved as failed is met in the same state: the gate fails it again whatever is asked, the watch goes on as if nothing had been touched and fails it again exactly if CI still hands it back, and the push sends the reviewed head unless that is denied or its rounds have run out. |
| `DeliveryKills.OnlyAFailurePutsBack` | internal/implement/correct.go:92-107 | Only the gate, the push and the watch put a workspace back, and only to fail the correction under way. |
| `DeliveryKills.ThePushSendsTheReviewedHead` | internal/implement/push.go:38-62 | After such a kill the push fails the correction again exactly if the reviewed head is denied or its rounds have run out, and otherwise pushes that head with the correction still running. |
| `DeliveryKills.AKilledFailureMayStartAgain` | internal/delivery/machine.go:248-266 | From there the failure may be forgotten: the reviewed head is pushed, seen green, and the job goes back to its session with the correction still running. |
| `DeliveryForgets.AFailureMayBeForgotten` | internal/implement/work.go:182-193 | Whatever the bounds, there is such a delivery from a job nobody has claimed, with one kill, nothing lost and nobody else pushing: the correction, given to a session once, is still running at the next, which is not given it again. |
| `DeliverySafety.APushReplacesOnlyTheAgentsOwn` | internal/work/push.go:26-52 | Against any foreign pushes and deletes, a push moves the branch only from nothing or from a commit the agent itself decided to push; a failed correction sends the reviewed head, a running one a descendant of it. |
| `DeliverySafety.UntouchedTheBranchIsHandedOffWhereItWasLeft` | internal/handoff/handoff.go:163-198 | With nobody else pushing, the branch under the label is the agent's last push, and green. |
| `DeliverySafety.StepKeepsInv` | internal/delivery/machine.go:136-285 | Every transition, cut short after any of its writes, and every effect made or lost, keeps the delivery's invariant. |
| `GateBound.GateChecksAreBounded` | internal/work/gate.go:122-126 | Unkilled, a delivery checks its gate at most A*(2F+3) times for each workspace it begins: first convergence, cut, fixes, correction, its fixes. |
| `GateClaims.ChecksAreBoundedByClaimsAndStrays` | internal/implement/work.go:390-425 | Unkilled, at most A*(2F+3) checks for each claim of the job and for each session that, before the first push, failed transiently off the work's branch. |
| `GateClaims.OneDeliveryIsBounded` | internal/work/gate.go:122-126 | One claim with no such stray keeps to A*(2F+3) checks. |
| `GateClaims.DecisionAccounts` | internal/implement/work.go:121-265 | No transition begins or makes due more workspaces than the claim or the stray it is. |
| `DeliveryEnds.DeliveriesEnd` | internal/work/gate.go:122-126 | Unkilled, a job makes at most 10*((2F+3)*(A+1)+A)+9 moves for each claim and each stray, and one more for each push to be made again; everything else is a wait. |
| `DeliveryEnds.OneDeliveryEnds` | internal/work/gate.go:122-126 | One claim with no stray, no push lost and nobody else at the branch: no run makes more moves than that. |
| `DeliveryEnds.DecisionDescends` | internal/implement/correct.go:18-26 | Each move lowers the lexicographic measure - convergences left, attempts left, states left - and nothing but a claim or a stray sets it up anew. |
| `DeliveryEnds.NothingIsPushedAgain` | internal/implement/push.go:182-200 | Unkilled, a push is made again only if it was lost, or someone else changed the branch. |
| `GateBound.DecisionPays` | internal/implement/correct.go:18-26 | Each transition spends no more checks than it takes from those left. |
| `GateUnbounded.ChecksAreUnbounded` | internal/implement/work.go:393-425 | Whatever the bounds, and for every n, a delivery from its claim with no kill and no deferral that checks n times: through a failing gate where two attempts are allowed, or through the cut in any case. |
| `GateUnbounded.AStrayBeginsAfresh` | internal/implement/work.go:390-425 | Every stray costs one workspace: whatever the next session is, it begins one afresh. |
| `GateUnbounded.AStrayUnbounds` | internal/implement/work.go:393-425 | From any stray, in whatever delivery, it may go on to check any number of times more. |
| `ReviseJob.Job.PushWork` | internal/revise/revise_push.go:23-106 | A push is owed exactly if the work is in hand, on top of the head it must stay on top of, not denied, has rounds left, and is no failed correction already back; and every other way on exactly when. The writes in order. |
| `ReviseJob.Job.ReadBack` | internal/revise/revise_push.go:111-186 | The push read back, each exactly when: landed and described, pushed again, replayed onto someone else's unless a correction is involved, or handed back. The writes in order. |
| `ReviseJob.Job.Replay` | internal/revise/revise_push.go:252-326 | A landed push recorded, a rewritten branch or a spent bound handed back, and else the lease moved, counted and saved before the workspace changes, each exactly when. |
| `ReviseSafety.WhatWasReadIsKept` | internal/revise/revise_push.go:44-53 | Whatever others push and wherever it is killed, the head the operator read is an ancestor of every head pushed and of every lease, and the push moves the branch only from its lease. |
| `ReviseSafety.ReplaysAreCounted` | internal/revise/revise_push.go:295-319 | Every lease descends from the head that was read, each replay moves it strictly on, and the count of replays is exact through kills and never over its bound. |
| `ReviseSafety.ReplayedPushesKeepTheLease` | internal/revise/revise_push.go:310-325 | A push decided with no session run since the replay has the lease in its history. |
| `ReviseSafety.StepKeepsInv` | internal/revise/revise_push.go:23-326 | Every transition, cut short after any of its writes, keeps the revision's invariant. |
| `ReviseOutcomes.NoPushIsDenied` | internal/revise/revise_push.go:75-80 | Over every run of a revision, a commit on its way to the branch was found not denied by the transition that decided its push. |
| `ReviseOutcomes.GateOutcome` | internal/delivery/machine.go:136-200 | The gate of a revision: passed, back to its session, past it, or stopped, each exactly when. |
| `ReviseOutcomes.SessionOutcome` | internal/revise/revise_run.go:99-220 | Its session: handed back for a branch that lost the head that was read, gone on in, or begun there. |
| `ReviseDrops.TheAgentMayDropThem` | internal/revise/revise_push.go:49-53 | Whatever the bounds, there is a delivery from its start in which someone pushes while the revision runs, the work is replayed onto their push, and the agent alone leaves the branch without it. |
| `ReviseDrops.WorkIsReplayed` | internal/revise/revise_push.go:252-326 | From a job nobody has claimed, through a push that lost to someone else's, to work just replayed onto theirs. |
| `ReviseDrops.TheirsMayBeDropped` | internal/revise/revise_push.go:49-53 | From every work just replayed, a gate that fails once is enough for the agent alone to reach a branch at any rewriting of the work on top of the read head, without their commits. |
| `ReviseDrops.TheirsMayBeDroppedLater` | internal/revise/revise_push.go:49-53 | And where the gate may not fail, so is the work pushed on top of theirs and found red. |
| `Replay.Checkout.Replay` | internal/work/replay.go:59-105 | All or nothing: the workspace's branch moves only to a complete replay, and a workspace already on top is left as it is. |
| `Replay.ReplayedCopies` | internal/work/replay.go:80-100 | Success is a line of copies of every commit, in order and once each, from the new head, each the stated merge. |
| `Replay.CopiesAreTheReplay` | internal/work/replay.go:80-100 | And any such line of copies is what the replay makes. |
| `Replay.ReplayIsOnTop` | internal/work/replay.go:54-58 | Everything the new head has is in the history of what the replay makes. |
| `Replay.ListIsTheWorksOwn` | internal/work/replay.go:72-79 | What is replayed is exactly the commits of the work that the new head does not have. |
| `Replay.ListIsALine` | internal/work/replay.go:75-89 | Without merges and roots, the listed commits are one line from the merge base to the tip. |
| `Replay.MergesStopIt` | internal/work/replay.go:86-89 | A merge or a root among them stops every replay. |
| `Replay.ASecondReplayChangesNothing` | internal/work/replay.go:68-74 | A replay asked again for its own result finds the new head is the merge base, and is the identity. |
| `Tokens.Pool.New` | internal/transition/tokens.go:32-44 | A pool exactly for capacities that all have a name and a permit. |
| `Tokens.Pool.Acquire` | internal/transition/tokens.go:56-85 | Either a permit of every name is taken, in order, or none is; an unknown name always fails; names that fit and are waited for are always got. |
| `Tokens.Pool.GiveBack` | internal/transition/tokens.go:65-69 | Giving back restores the pool as it was before the taking. |
| `Tokens.SortIsOrdered` | internal/transition/tokens.go:61-62 | The names are taken in order, each as often as it is asked for. |
| `TokenRuns.NoDeadlock` | internal/transition/tokens.go:49-52 | In every state any number of workers reach, if one is not idle then some worker can go on. |
| `TokenRuns.PermitsAreHeld` | internal/transition/tokens.go:70-84 | Each token's taken permits are exactly its holders, and never more than its capacity. |
| `TokenRuns.DeclaredTwiceDeadlocks` | internal/transition/transition.go:161-170 | Why a name declared twice is refused: without that check, for every token and as many workers as it has permits, they reach from the start a state in which nothing can happen but a wait running out. |
| `Glob.MatchSegments` | internal/glob/glob.go:41-63 | The loop and its recursion decide exactly whether the name can be cut into one stretch for each segment of the pattern. |
| `Glob.AnyTwiceIsAny` | internal/glob/glob.go:5-8 | Two adjacent `**` anywhere in a pattern mean one. |
| `Glob.Matching` | internal/glob/glob.go:19-35 | Exactly the non-empty paths some pattern matches, once each, where they are first named. |
| `Glob.SegmentsJoin` | internal/glob/glob.go:37-39 | A path's segments are what stands between its slashes, and make it up. |
| `SubAgents.Reply.SubAgents` | internal/opencode/opencode.go:304-329 | The worklist ends on every session graph, counts exactly the sessions reached through readable ones, the unread among them, and each readable one's tokens once. |
| `SubAgents.Named` | internal/opencode/opencode.go:321-327 | Every task's session in every message, in order. |
| `SubAgents.ClosedHasReached` | internal/opencode/opencode.go:307-328 | What the finished worklist has met is everything reached. |
| `SubAgents.SpentOneMore` | internal/opencode/opencode.go:319-320 | The tokens do not depend on the order sessions are read in. |
| `Candidates.Resolve` | internal/model/resolve.go:91-164 | Exactly the enrolled models that qualify, in the human's order; else why not, with missing capabilities claimed only of catalogued models, and an unknown tier told before a limited budget. |
| `Candidates.Rejects` | internal/model/resolve.go:170-218 | A model is rejected exactly for a missing capability, too little context, or a ceiling it breaches or has no price for. |
| `Candidates.RunOne` | internal/work/session.go:78-107 | One candidate's session, run afresh when it is too long or gone: how often the model runs, and that it has a reply exactly if the last run answered, waits exactly if that failed transiently with nobody left to try, stays exactly if somebody is left, and else errs. |
| `Candidates.FailuresMoveOnInOrder` | internal/model/choose.go:33-78 | Over every visit the transient failures fall on candidates 0, 1, 2, ... once each, other errors move nothing on, and the job waits exactly when as many have failed as may be tried. |
| `Candidates.FailuresAreCounted` | internal/model/resolve.go:236-248 | Without an answer, exactly as many candidates have failed as runs ended so, up to the limit. |
| `Candidates.TheFirstAnswerIsTheReply` | internal/model/choose.go:33-78 | A visit leaves with a reply at its first answer, unless as many had failed before it as may be tried, and then the job was waiting already. |
| `Candidates.AVisitIsItsRuns` | internal/work/session.go:78-107 | What a visit makes of a run is what that run, as RunOne has it, came to. |
| `Candidates.ChoiceIs` | internal/model/choose.go:33-57 | The candidate its stays pick, a limited budget's reset, or the tier's wait, each exactly when. |
| `DescriptionSettles.DescribedSettles` | internal/work/description.go:109-137 | What bringing a description up to date makes is already right, listed, counted or with the footer given way. |
| `DescriptionSettles.OnlyTheLineAndTheFooterChange` | internal/work/description.go:33-40 | An edit changes only the sensitive line and the footer, stays within the limit, and has the asked or the old footer and exactly the asked line. |
| `DescriptionSettles.OpeningIsWritten` | internal/implement/description.go:158-176 | A description opened around whatever the session wrote has the shape the edit needs. |
| `DescriptionSettles.WhatIsHeldIsAFooter` | internal/spend/spend.go:131-160 | What stands between the hidden lines, or nothing, is a footer the edit finds again. |
| `DescriptionSettles.GivesWay` | internal/work/description.go:129-132 | Where the footer gives way it gives way again, and the rest is right. |
| `DescriptionAppends.OneEditRestoresTheFooter` | internal/spend/spend.go:216-229 | A description with no footer to bring up to date - exactly when one is appended, hidden lines the wrong way round included - gets its footer at the end in one edit, with the shape the agent writes and the rest as it was, and the second edit says it is already right. |
| `DescriptionAppends.ItSettlesWithoutOne` | internal/work/description.go:129-132 | Where the appended footer is over the limit, or there is nothing to report, the edit is of the sensitive line alone, and settles as long as no sensitive line has a hidden line in it. |
| `DescriptionAppends.TheLineAloneSettles` | internal/work/description.go:109-137 | With the footer left alone, an edit settles on every description, with the reminder or without it, whatever is left of the footer. |
| `DescriptionAppends.EitherFirstAppended` | internal/spend/spend.go:216-229 | Where the footer is appended, it and the line are still brought up to date in either order. |
| `Description.LastLineStays` | internal/sensitive/sensitive.go:162-178 | A sensitive line replaces the one before it. |
| `Description.WithLineApart` | internal/sensitive/sensitive.go:162-178 | The line is put ahead of the reminder, which stays the first, with everything from it on as it was. |
| `Description.TheLineStands` | internal/sensitive/sensitive.go:162-178 | The line asked for is the one sensitive line ahead of the reminder, or there is none if none is asked for; the other lines and everything from the reminder on are as they were. |
| `Description.EitherFirst` | internal/spend/spend.go:216-229 | The footer and the line are brought up to date in either order, and a footer again is no change. |
| `Description.FooterIsThere` | internal/spend/spend.go:211-224 | A footer just brought up to date is found again where it was put, whatever stands before it. |
| `ReplyReadBack.TheReplyReadsBack` | internal/revise/revise_reply.go:92-106 | Whatever the session wrote, the reply reads back as exactly the commands it was printed from, each kind in order, and as the read head exactly if that is a whole commit name. |
| `ReplyReadBack.SaidIsQuiet` | internal/revise/revise_reply.go:95-105 | Nothing after the markers starts a revision marker. |
| `ReplyReadBack.MarkersReadBack` | internal/revise/revise_run.go:313-325 | The printed markers are read as the commands they name, and what follows is read as it would be alone. |
| `ReplyReadBack.NameReadsBack` | internal/owed/owed.go:196-207 | A read marker is read exactly if it names a commit by 40 or 64 lower-case hex digits. |
| `Reply.Sections` | internal/revise/revise_reply.go:119-153 | The output is exactly the sections that say anything, trimmed, under their headings and in the prompt's order, each of them its lines - those whose last heading outside a fence names it - in order and once each. |
| `Reply.LinesUnderAre` | internal/revise/revise_reply.go:124-143 | The lines of a section are exactly those that are no heading and whose last heading outside a fence names it, ascending. |
| `Reply.CommentGoes` | internal/revise/revise_reply.go:120 | The first closed hidden comment goes, to the first closer after its opener, and what is ahead of it stays. |
| `Reply.NothingHidden` | internal/revise/revise_reply.go:120 | Text that opens no comment is shown as it is. |
| `Reply.SectionsArePlain` | internal/revise/revise_reply.go:111-120 | Whatever the session wrote, its part of the reply has no hidden-comment opener. |
| `Reply.EscapedIsPlain` | internal/revise/revise_reply.go:120 | Escaping leaves no opener, also where removing a comment made a new one. |
| `Review.ParseReview` | internal/correction/correction.go:222-289 | The one pass over the lines finds the specified blocks. |
| `Review.BlocksAreTheFindings` | internal/correction/correction.go:205-289 | The blocks are exactly the numbered lines outside fences, in order and apart, under the last heading, each to the first line outside a fence that stops it - a heading, an edge, another number, or one that closes more folds than were opened since it began - but for trailing blank lines; fences, folds and headings being read off the lines alone. |
| `Review.NumberedIs` | internal/correction/correction.go:211-213 | A line of a number, a dot and a space, bold or not, numbers a finding, with the number no larger than its type holds. |
| `Review.NumbersIfSome` | internal/correction/correction.go:211-213 | And no other line does. |
| `Review.DeeperIs` | internal/correction/correction.go:274-284 | A line that opens a fold and does not close it counts one deeper, a closing tag alone one less, and no other line counts. |
| `Review.QuestionIs` | internal/correction/correction.go:214-215 | A bold or plain Q, a number and no more of a word edges a finding. |
| `Review.AsksIfQuestion` | internal/correction/correction.go:214-215 | And no other line asks. |
| `Review.FenceIsARun` | internal/correction/correction.go:291-302 | A fence is a run of three backticks or tildes or more, and all of the run. |
| `Amended.Amend` | internal/correction/correction.go:374-403 | Every line of the review stays, in order; each edited finding stands whole with exactly what is said of it around it; nothing else is put in; and it is linked exactly if the correction did not fail and a commit names one of its findings. |
| `Amended.WhatIsSaid` | internal/correction/correction.go:386-400 | A failed correction says so of every finding; otherwise a finding a commit names is folded under its link, and any other left as advice. |
| `Amended.EditsOne` | internal/correction/correction.go:382-402 | One finding put out keeps all before it. |

## Left out

- HTTP, GraphQL, JSON, SQL text and schema, tokens and processes: their effect is modelled as atomic steps on maps, a commit graph and a compare-and-swap ref.
- Command line, parameters, prompts, templates, notification text, episodes of an exhausted tier: plumbing that decides nothing modelled here.
- Budget admission, waivers, size counting, catalogue decoding and dollar costs: one-pass folds and floating point; admission is an input of `Runner.Worker.Work`.
- Intake polling and arming by two intake processes: they rest on the tracker's timing, and their key is checked outside any lease.
- The claim of a job, and the kinds' own owed items: a claim is `Owed.Book.Owe` with other items.
- Delivery of a review job: only the answer it gives a delivery is modelled.
- Revise's watch, reply, review and hand-off: one state, `Delivered`, that may send the revision back in each of their ways; the same shape as implement's.
- Session ids, the reset of a workspace no session finished in, the session's files and the text of the pull request: the session may leave the workspace anywhere, and nothing proved reads them.
- The first piece's rest, its issue and its dependency: one more thing still to be made before the pull request opens.
- Runner.Runner.Apply: the decision is an input; cancelled contexts and the moment the lease is renewed are in Protocol only.
- Runner.Armer.Arm: made by one holder alone; its commit being refused after the lease lapsed is in Protocol only.
- Tokens.Pool.Acquire: waiting for a permit is whether it was waited for; the interleaving of waiters is in TokenRuns.
- Replay.Checkout.Replay: a commit's author and dates are not told apart from its message, so two replays made at different times are equal here; conflicts name no paths.
- Description.LastLineStays: a character is a Unicode code point, and control characters in file names are taken to be quoted already.
- DescriptionSettles.DescribedSettles: for descriptions whose carriage returns all end lines and whose footer is after the reminder, as the agent writes them.
- DescriptionSettles.OnlyTheLineAndTheFooterChange: for those too; DescriptionAppends says it where there is no footer, and what is left uncovered is a footer that stands ahead of the reminder.
- DescriptionAppends.ItSettlesWithoutOne: no sensitive line, old or new, has a hidden line of the footer in it.
- ReplyReadBack.TheReplyReadsBack: names of commits and of the repository have no space or angle bracket, and the spend footer's lines open no comment.
- Reply.Sections: case is folded and space trimmed by ASCII and two Latin-1 rules only.
- Amended.Amend: the edit of the summary line and the added marker and sentence are not modelled.
- Review.ParseReview: a number too large for its type is the largest the type holds.
- Candidates.Resolve: the reasons for a rejection are not worded, and prices are real numbers.
- Glob.MatchSegments: how one segment matches, as path.Match has it, is a parameter.
- Loss of the state directory, and requests that reach the remote after their deadline: not steps of any run.
