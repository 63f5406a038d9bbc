# The crash-safe agent launcher, modelled and proved

aicrew's agent launcher drives a member's work between two services (aicrewd,
which holds the team, and aimem, which holds the tasks), a code forge and its own
home directory. Any call's reply may be lost, any write may fail, the process may
stop at any line, and others change the same tasks, branches and pull requests
meanwhile. What it promises are invariants over whole runs. This project models
its protocols and its text cores, and proves what they keep.

`dafny verify dfyconfig.toml` checks everything.

| file | what it models |
|---|---|
| `StepContent.dfy`, `StepProtocol.dfy`, `StepTheorems.dfy`, `StepDriver.dfy` | one reservation step: the body it composes, the protocol of begin, send and settle as a state machine with other writers, its theorems, and the driver's own code over that machine |
| `StepOverlap.dfy`, `StepOrphans.dfy` | a Run and a recovery at one record, each with its own copy: exactly when records may go back, exactly when a step may be orphaned, and what holds either way |
| `Changes.dfy`, `ChangeTheorems.dfy` | what one observation of a pull request changes, and what the changes add up to over every run of the points |
| `Points.dfy`, `PointTheorems.dfy` | the extension points: the points file, the edges in flight and the watch list, over observations, completions, scripts' changes and restarts |
| `PointRuns.dfy` | the runs that break a promise, from a launcher with nothing |
| `BaseUpdate.dfy` | update_base's merge, push and note with a record written ahead |
| `Reruns.dfy` | rerun's claims, which live in the points, and the forge asked |
| `Engine.dfy` | the session engine: proofs, keys, refreshes and resumes against a clock, and the leave |
| `Join.dfy` | invitation redemption over any number of runs with one code |
| `TurnLoop.dfy`, `TurnTheorems.dfy` | when a member is due a turn, and what a turn does to an attempt's counters |
| `Splitter.dfy`, `ShellRoundTrip.dfy`, `ShellText.dfy`, `ShellEnds.dfy`, `ShellLines.dfy`, `Judging.dfy` | the guard's command lexer, the shell quoting it undoes, command lines however they are written and what the lexer makes of them, and how the commands it finds are judged |
| `Containment.dfy` | the guard's test that a path is inside a directory |
| `TextLines.dfy`, `SessionText.dfy`, `SessionArchive.dfy`, `PushFit.dfy`, `Brief.dfy` | the session doc: reading, writing, archiving, fitting to a bound; and the brief's bounds |

Protocols are worlds and events with what each event may do (`Allowed`) and what it
leaves (`After`), and theorems are about every run of them. The launcher's own code
is written beside them as methods on classes, statement by statement, each proved to
take only steps the protocol allows or to leave the state the specification says.
A call that reaches a service ends as that service likes: answered, refused, lost.

## What turned out otherwise

Some promises hold only under a condition, which is proved to be needed.

* A step's report of `refused/stale_revision` after a crash may be false: the step's
  own commit moved the revision (`StepTheorems.StaleReportMayBeFalse`). Only
  `committed` is always true. The refusal of a repeated begin must not drop the
  record (`StepTheorems.SecondRefusalMustNotDrop`).
* A script's submit runs the driver outside the step server's lock, so a recovery may
  read a record whose Run is still going on. Two promises then have conditions of
  their own. No record goes back, or comes back after it was dropped, as long as no
  recovery reads an unsent record another drive has (`StepOverlap.ApartNeverGoBack`),
  and every run in which one then reads the record of a Run that may still save it
  can go on to one that does (`StepOverlap.ApartOrGoesBack`). No step is orphaned as
  long as no recovery reads the record of a Run before aicrewd made its step, which a
  lock held over the begin would give (`StepOrphans.TimelyNoOrphanedStep`), and every
  run in which one then does can go on to an orphaned step, whether the Run's begin
  is not sent, on its way or refused (`StepOrphans.TooEarlyOrphans`). One effect per
  begin, no lost update and true commit reports hold either way
  (`StepOverlap.BesideEachOther`).
* A merged pull request leaves the watch list before its entry says it is merged. When
  the launcher stops between the two writes, after-merge is lost
  (`PointTheorems.UnwatchedBeforeNoticed`); from the second write on it stays owed.
* Once after-merge is recorded nothing keeps the entry of the unwatched pull request.
  The next write for another drops it, and the merge observed again runs after-merge a
  second time (`PointTheorems.MergedMayRunTwice`). An edge fires once as long as its
  entry is kept, and `PointTheorems.DroppedExactlyWhen` says when it is not.
* A run dispatched for one attempt and recorded after its pull request went to
  another records its edge there, and the point does not run for the new attempt at
  that head (`PointTheorems.RecordedForAnother`).
* rerun asks the forge again at a head where jobs were re-run, or may have been, once
  the entry that held the claim was dropped or begun again for another attempt, and
  never otherwise (`Reruns.AskedOnce`, `Reruns.ForgottenIsAskedAgain`).
* Reported changes add up only while the entry is kept and its observations are
  written. A failed write is reported all the same, so its labels are counted wrongly
  exactly when they changed (`ChangeTheorems.LostWriteAddsUpExactlyWhen`) and its
  comments are named again (`ChangeTheorems.LostWriteNamesAgain`). With every write
  done, a run that ends after its pull request was dropped puts an older entry back,
  and comments are named twice too (`ChangeTheorems.RestoredEntryNamesAgain`).
  `PointRuns` has the failing runs of the points from a launcher with nothing.
* update_base's delta note is posted at least once, not at most once
  (`BaseUpdate.NoteMayBeRepeated`). A push that replaces a head somebody moved the
  branch to keeps the identity of the fetched head only.
* Idle turns that leave the attempt waiting on its pull request's gates reset the
  stall counters, and turns whose last write is lost are not counted: the bound of
  three is for rows of others, and of these any number may run
  (`TurnLoop.UncountedRow`).
* A section archived under a one-line id that is blank up to the cut is lost when the
  doc is read again (`SessionArchive.ArchivedComesBack` says exactly when).
* From the directory `/` a relative path is never taken to be inside any root, and
  the root `/` holds itself strictly (`Containment.NothingRelativeIsInsideFromTop`,
  `Containment.TopIsInsideItself`).
* A brief whose last part and notice alone exceed the bound exceeds it
  (`Brief.BoundBrief`).

## Model

| member | source | states |
|---|---|---|
| StepContent.CheckEvidence | internal/agent/steps.go:84-98 | typed evidence is accepted exactly when there is none or its references are the terminal evidence, in order |
| StepContent.WithRef | internal/agent/steps.go:654-668 | a result reference is among the task's afterwards, appended only when absent, the earlier ones a prefix; a list that cannot be extended is an error |
| StepContent.DeliveryRefs | internal/agent/steps.go:612-643 | one reference per delivery entry, in order, typed as the response types it, without the attempt's own closing mark |
| StepContent.ResultIsTyped | internal/agent/steps.go:643-650 | a result's reference is a url exactly when it starts as one |
| StepContent.DeliveryIsTyped | internal/agent/steps.go:625-641 | a delivery's reference has its evidence's type only when the response gives one and it is a url, and the note says it |
| StepContent.DeliveredEntries | internal/agent/steps.go:615-625 | the entries are the typed evidence, or else the terminal one, in order, without an attempt's own mark at the end |
| StepContent.OwnContent | internal/agent/steps.go:560-596 | the content written differs from the content read only in what aicrew owns of the step; it fails exactly when candidate references cannot be extended |
| StepContent.OwnedStateIs | internal/agent/steps.go:560-596 | an owned change writes the step's state, READY for an offer never accepted, and its blocker, and leaves every field that is not its own |
| StepContent.OwnedResultIs | internal/agent/steps.go:579-585 | it names the result among the candidates, the earlier ones first and as they were, one that is there with its note not again |
| StepContent.OwnedEvidenceIs | internal/agent/steps.go:586-594 | a finalize gives the task the delivery's references exactly when the task names none, and changes none it names |
| StepContent.NamesIs | internal/agent/steps.go:661-665 | a reference is there already when one has its text and its note |
| StepContent.ListsAre | internal/agent/steps.go:654-660 | references can be appended to none, to null, and to a list of objects and nulls, and to nothing else |
| StepContent.ComposeBody | internal/agent/steps.go:538-597 | the body carries the response's values and proof, and, for an update, release or finalize, only an owned change of the task read, at its revision; exactly when it is an error |
| StepTheorems.NoOrphanedStep | internal/agent/steps.go:307-418 | with one driver at the records, at every moment of every run a begin key under which aicrewd holds an unsettled step, or may still begin one, has its record |
| StepTheorems.PhasesNeverGoBack | internal/agent/steps.go:342-403 | with one driver at the records, a record's phase never goes back, its request never changes, and a dropped key is never recorded again |
| StepTheorems.RecordsAreComplete | internal/agent/steps.go:342-403 | a begun record has the step aicrewd holds under its key, a sent one its report |
| StepTheorems.CommittedReportsAreTrue | internal/agent/steps.go:405-506 | a settled `committed` report is of a key aimem committed, under the begin it belongs to |
| StepTheorems.OneKeyPerBegin | internal/agent/steps.go:426-485 | every command sent for a begin carries the one request key aicrewd bound to it |
| StepTheorems.OneEffectPerBegin | internal/agent/steps.go:342-485 | aimem applies at most one mutation per begin key, so no more than the keys drawn |
| StepTheorems.NoLostUpdate | internal/agent/steps.go:426-455 | whatever other writers do between the read and the send, a commit is an owned change of the revision the step expected |
| StepTheorems.StaleReportMayBeFalse | internal/agent/steps.go:440-452 | a run in which a refusal for a stale revision is settled although aimem committed the key |
| StepTheorems.SecondRefusalMustNotDrop | internal/agent/steps.go:352-378 | a run in which a repeated begin is refused while aicrewd holds the unsettled step |
| StepOverlap.ApartNeverGoBack | internal/agent/steps.go:342-403 | no record goes back, or comes back after it was dropped, as long as no recovery reads an unsent record that another drive has a copy of |
| StepOverlap.ApartOrGoesBack | internal/agent/automation.go:805-818 | every run in which a recovery then does read the unsent record of a Run in progress can go on so that the record goes back, or comes back |
| StepOrphans.TimelyNoOrphanedStep | internal/agent/steps.go:307-378 | whatever drives overlap, no step is orphaned as long as no recovery reads the record of a Run before aicrewd made its step |
| StepOrphans.TooEarlyOrphans | internal/agent/steps.go:354-362 | every run in which a recovery then can read one too early, whatever stage its Run is at, can go on so that aicrewd holds an unsettled step without a record |
| StepOverlap.BesideEachOther | internal/agent/steps.go:342-506 | whatever drives overlap: one request key and one mutation per begin, an owned change of the expected revision, and a commit told is one aimem made |
| StepDriver.Driver.Run | internal/agent/steps.go:307-317 | a new begin key; nobody else's record changes; a driven outcome's report was told and rests on what aimem answered: committed as it said, refused with its code, for a task read at another revision, or for a receipt read while the key was not committed, and else unknown; the record goes only after a settle or the refusal of the only begin |
| StepDriver.Driver.Recover | internal/agent/steps.go:319-339 | the only driver at the records, it draws no key, drives each recorded step, and drops only records of settled steps |
| StepDriver.Driver.Drive | internal/agent/steps.go:342-403 | from any phase: what is left of the record, and that the report settled is the recorded one, or unknown for a step settled meanwhile, or rests on this drive's answers |
| StepDriver.Driver.BeginAgain | internal/agent/steps.go:346-391 | the begin or its replay, by its answer: a step recorded before anything is sent, one that settled meanwhile, another key refused, and the record dropped on a final refusal of the first begin and on no other |
| StepDriver.Driver.Settle | internal/agent/steps.go:405-418 | the report told; the record goes exactly when the step settled |
| StepDriver.Driver.RunSend | internal/agent/steps.go:456-485 | the same command under the same key each time, at most retries more, a lost reply looked up once |
| StepDriver.Driver.Reconcile | internal/agent/steps.go:487-506 | a lost reply is reported committed exactly when its receipt says so, not committed only while aimem does not hold the key, and unknown exactly when the receipt is unresolved or could not be read |
| StepDriver.ConcludedIsGrounded | internal/agent/steps.go:456-505 | every report a send's answers conclude is right for what was seen of aimem when it was seen; a retryable exit is reported unknown only after all its retries, a lost reply only after a receipt that tells nothing |
| Changes.PullRecord.Change | internal/agent/dispatch.go:272-337 | what is kept after an observation, and the change it reports, as the loops compute them |
| Changes.BoundComments | internal/agent/dispatch.go:344-362 | the two passes keep exactly the comments the bound's rule keeps |
| Changes.BoundedIsSelection | internal/agent/dispatch.go:339-362 | the bounded comments are an order-preserving selection of min(cap, total), and drop a notice only when no plain comment is kept |
| Changes.MissingIsDifference | internal/agent/dispatch.go:364-373 | the names one list has and the other lacks, each once |
| ChangeTheorems.LabelsAddUp | internal/agent/dispatch.go:272-284 | over every run of the points, while the entry is kept and its observations are written, the reported additions and removals fold to the label set kept |
| ChangeTheorems.NoCommentTwice | internal/agent/dispatch.go:303-316 | comments named by two observations between which the entry is kept and written are different: each is later than every comment read before |
| ChangeTheorems.EveryLaterCommentIsNamed | internal/agent/dispatch.go:303-316 | under that condition a content read names every comment later than all read before, once the comments were known |
| ChangeTheorems.LostWriteAddsUpExactlyWhen | internal/agent/dispatch.go:477-484 | after an observation whose write fails the reported labels add up exactly when they did not change |
| ChangeTheorems.LostWriteNamesAgain | internal/agent/dispatch.go:477-484 | and its comments are named again by the next content read that holds them |
| ChangeTheorems.RestoredEntryNamesAgain | internal/agent/dispatch.go:560-565 | a run that ends after its pull request was dropped puts back an entry older than what was reported, and a comment is named twice though every write was done |
| Changes.SeenOnce | internal/agent/dispatch.go:259-276 | the first observation and a replay report nothing, a replay changes nothing, and the same observation again reports nothing and changes nothing |
| Changes.ReportedExactlyWhen | internal/agent/dispatch.go:272-337 | a change is reported exactly when the pull request was observed before and its head, state, checks, labels or comments differ, or its checks settled |
| Changes.ReportedSays | internal/agent/dispatch.go:276-300 | the head moved, the new state and checks, the labels added and removed, the comments and the settling, each as they differ |
| Changes.KeptSays | internal/agent/dispatch.go:280-322 | what is kept of each, a new head forgetting that a check ran |
| Changes.FailuresSay | internal/agent/dispatch.go:323-334 | the external reviewer's failures: the last thirty-two heads are kept, and a change that carries one says how often its head failed |
| Changes.CarriedIs | internal/agent/dispatch.go:339-362 | a comment is carried with its text within 4 KiB, whole when it fits |
| Points.StepServer.NoticePull | internal/agent/dispatch.go:461-499 | the points file, the edges in flight and the runs started, against the protocol's step |
| Points.StepServer.Edges | internal/agent/dispatch.go:398-443 | the points that fire, in the points' order, and the entry's new facts |
| Points.StepServer.WritePoints | internal/agent/dispatch.go:222-239 | the entries that are watched, the one written for, and those after-merge is owed to, and no others |
| Points.StepServer.FinishPoint | internal/agent/dispatch.go:538-582 | a cut or unprepared run leaves the file as it was; a run records its edge once, and after-push its failed check |
| Points.StepServer.FireBeforeSubmit | internal/agent/dispatch.go:1135-1161 | the point starts for the attempt's pull request observed last, if its head has not fired |
| Points.StepServer.ReplayPoints | internal/agent/dispatch.go:508-517 | only replayed observations are made, and every after-merge owed at the start is in flight at the end |
| Points.StepServer.SetWatched | internal/agent/forgewatch.go:360-374 | the list without the pull request, or with it last, the oldest going first |
| Points.StepServer.ObservePull | internal/agent/forgewatch.go:382-410 | the watch list is written first, the points file only for an observation taken for an attempt |
| PointTheorems.SingleFlight | internal/agent/dispatch.go:461-478 | over every run, two runs of one point of a pull request are never in flight together |
| PointTheorems.StartsWhatFires | internal/agent/dispatch.go:412-443 | an observation starts a run of a point exactly when it is due, its edge is unrecorded and none is in flight |
| PointTheorems.AfterPushStarts | internal/agent/dispatch.go:419-420 | after-push starts exactly at an open pull request's known head whose edge is unrecorded and not in flight |
| PointTheorems.AfterCIStarts | internal/agent/dispatch.go:421-423 | after-ci exactly when its checks also concluded, either way, once for each |
| PointTheorems.CIFailedStarts | internal/agent/dispatch.go:424-426 | ci-failed exactly when they failed |
| PointTheorems.GatesGreenStarts | internal/agent/dispatch.go:432-435 | gates-green exactly when they succeeded, no review is under way and both reviewers found the head ready without a blocker |
| PointTheorems.AfterMergeStarts | internal/agent/dispatch.go:437-439 | after-merge exactly when it is merged, unrecorded and not in flight |
| PointTheorems.BeforeSubmitStarts | internal/agent/dispatch.go:1135-1161 | before-submit exactly for the attempt's pull request observed last, at a known head it did not run for |
| PointTheorems.StartedEdges | internal/agent/dispatch.go:445-457 | no other edges are started, and before-submit by no observation |
| PointTheorems.NeverBothGates | internal/agent/dispatch.go:424-435 | no observation of any run starts both ci-failed and gates-green |
| PointTheorems.TakesIn | internal/agent/dispatch.go:399-411 | the entry's facts after an observation, the head it replaced kept |
| PointTheorems.RunLeaves | internal/agent/dispatch.go:560-582 | a recorded run leaves its edge once, and after-push the identities and the failed check, or none |
| PointTheorems.OwedIs | internal/agent/dispatch.go:145-150 | after-merge is owed exactly to a merged pull request whose merge is not recorded |
| PointTheorems.RecordedNeverRunsAgain | internal/agent/dispatch.go:519-582 | while the pull request's entry is kept and its attempt unchanged, an edge recorded as fired never runs again, after-merge and restarts included |
| PointTheorems.DroppedExactlyWhen | internal/agent/dispatch.go:222-239 | an entry leaves the file exactly at a write for another pull request when it is neither watched nor owed after-merge |
| PointTheorems.KeptWhileWatched | internal/agent/dispatch.go:222-239 | watched, or owed after-merge, at every moment is enough to be kept |
| PointTheorems.MergedMayRunTwice | internal/agent/dispatch.go:224-239 | once after-merge is recorded the entry of an unwatched pull request goes at the next write for another, and the merge observed again starts after-merge again |
| PointTheorems.RecordedByItsRun | internal/agent/dispatch.go:445-571 | every recorded edge is one that a run of that point of that pull request was started for, and that the end of such a run, made and written, recorded |
| PointTheorems.AfterMergeStaysOwed | internal/agent/dispatch.go:147-150 | once the points file records a pull request as merged, its entry survives every later write, watched or not, until the merged edge is recorded |
| PointTheorems.OwedAfterRestart | internal/agent/dispatch.go:504-517 | after a restart the replay starts the run for the pull request's own attempt, and it stays owed |
| PointTheorems.KeyComesBack | internal/agent/dispatch.go:152-162 | a key gives back its host and repository exactly when the host has no slash and the repository no number sign |
| PointTheorems.ReplayReachesItsPull | internal/agent/dispatch.go:152-192 | in a run of such names every entry's own observation names its key |
| PointTheorems.UnwatchedBeforeNoticed | internal/agent/forgewatch.go:398-408 | when the launcher stops between unwatching a merged pull request and noticing it, the next write drops the entry and after-merge never ran |
| PointTheorems.RecordedForAnother | internal/agent/dispatch.go:560-571 | a run that completes after its pull request went to another attempt records its edge there, and the point does not run for it |
| PointTheorems.ScriptRecordsStay | internal/agent/dispatch.go:84-98 | while the entry is kept and its attempt unchanged, base updates and re-run heads change only by the scripts' own writes |
| PointRuns.MergedRunsTwice | internal/agent/dispatch.go:224-239 | from a launcher with nothing, a run that starts after-merge of one merged pull request twice |
| PointRuns.UnwatchedRun | internal/agent/forgewatch.go:398-408 | and one in which after-merge is lost between the two writes of an observation |
| PointRuns.RecordedForAnotherRun | internal/agent/dispatch.go:560-571 | and one in which a push's run is recorded for an attempt it was not made for |
| PointRuns.RestoredRun | internal/agent/dispatch.go:560-565 | and one in which every write is done and a comment is named twice |
| PointTheorems.WatchListBounded | internal/agent/forgewatch.go:358-374 | over every run the watch list has each pull request once and at most the bound |
| PointTheorems.ListedInOrder | internal/agent/forgewatch.go:358-374 | the pull request watched comes last, the others stay in order, and only the oldest go |
| BaseUpdate.Updater.HostUpdateBase | internal/agent/automation.go:939-1034 | the call between others' steps, for every outcome: at most one push, which has its note or its record unless its entry was dropped; a refused push leaves the record, and the origin at the new head when it arrived; an update reported as noted has its note and no record; a changed identity, a missing one and a failed write are what was found; nothing is pushed when up to date, in conflict or of changed identity |
| BaseUpdate.CallLeaves | internal/agent/automation.go:969-1064 | in every run, wherever a call stops: what it pushed is noted or recorded, or was dropped |
| BaseUpdate.AncestorIsPath | internal/agent/automation.go:982-984 | what is merged already is what a path of parents leads to |
| BaseUpdate.ClearedOnlyAfterNote | internal/agent/automation.go:1036-1064 | the record goes only after its note was posted, unless it is stale or its entry was dropped |
| BaseUpdate.PushFastForwards | internal/agent/automation.go:982-1031 | whoever moved the branch, what a push carries has the fetched head and base in its history and the fetched head's patch identity, and the origin goes forward to it |
| BaseUpdate.PushKeepsIdentity | internal/agent/automation.go:985-1031 | while nobody else moves the branch, a push brings the base in and keeps the patch identity of the head it replaces |
| BaseUpdate.PushedIsNotedOrOwed | internal/agent/automation.go:1016-1064 | every update pushed has its note, or is the recorded one and the origin is still at its new head |
| BaseUpdate.NoSecondPush | internal/agent/automation.go:969-981 | once the origin is at the recorded new head, no call merges or pushes again while the record is kept, whatever the base does |
| BaseUpdate.NoPushUntilBaseMoves | internal/agent/automation.go:969-984 | nor afterwards, the record cleared or lost or not, until the base moves on |
| BaseUpdate.PushedOnce | internal/agent/automation.go:969-1031 | from the first call on, undisturbed: after a push that arrived another merge or push comes only once its record was cleared, and only if the base has moved on |
| BaseUpdate.KnownNoteIsNotRepeated | internal/agent/automation.go:1047-1056 | a note the record says was posted is not posted again |
| BaseUpdate.NoteMayBeRepeated | internal/agent/automation.go:1047-1056 | a run that posts the note twice, the first reply being lost |
| Reruns.Rerunner.HostRerun | internal/agent/automation.go:840-901 | between others' steps, stops and failed writes: the forge is asked only after this call's own claim was written, at most once, and not at a head the entry holds; a head is given back only after the forge had no re-run |
| Reruns.AskedOnce | internal/agent/automation.go:832-839 | over every run of the points, the forge is asked again at a head only when it had no re-run there, or when the entry that held the claim was dropped or begun again between the two claims |
| Reruns.ForgottenIsAskedAgain | internal/agent/automation.go:832-839 | from a launcher with nothing, either way of forgetting the entry has the forge asked, and re-running, at the head twice |
| SessionEngine.WakesInTime | internal/agent/engine.go:290-301 | the wake-up is 90 s before the handle's end and 10 min before the token's, or earlier, and no earlier than one of the rules asks |
| SessionEngine.Engine.EnterUnder | internal/agent/engine.go:192-229 | requests that share a key are identical; each follows the one before for the reason its answer gives: the same again after an unknown or retryable one and its wait, a new proof under a new key after a refused one, at most its renewals; a new challenge only when this one is invalid or over, and a refusal is the end only when nothing else is due |
| SessionEngine.Engine.Enter | internal/agent/engine.go:182-232 | at most entryRounds challenges and entryRounds*(1+proofRenewals) proofs; on success the engine's times and handle are those of the latest grant, lost answers' grants included |
| SessionEngine.Engine.Bind | internal/agent/engine.go:257-282 | on success aimem holds the entry's handle and the session is recorded |
| SessionEngine.Engine.Start | internal/agent/engine.go:151-174 | another session than the recorded one is entered only after that one was reported over |
| SessionEngine.Engine.Refresh | internal/agent/engine.go:345-370 | a new key each time; on success aimem holds the latest grant's handle, though earlier refreshes were granted and their answers lost; it resumes only when the token stopped working or the handle is over, and fails only as refused for good; the loop ends with the handle's life |
| SessionEngine.Engine.Run | internal/agent/engine.go:303-327 | whenever it sleeps aimem holds the handle of the latest grant, answered or not, handleEnd is that grant's, and it wakes in time; at the token's lead it refreshes nothing and enters again under a new proof, whose entry gives the token's end, and before it it refreshes first |
| SessionEngine.Engine.Leave | internal/agent/engine.go:407-460 | the record goes only after this leave had the session reported over and its binding closed; refused work keeps it; at most leaveAttempts+1 requests and one resume |
| SessionEngine.Engine.LeaveRecorded | internal/agent/engine.go:372-405 | the same for the recorded session; no other is ever recorded |
| Join.Joiner.SendBegin | internal/agent/join.go:518-528 | a begin is sent only with its key on disk for its code |
| Join.Joiner.SendComplete | internal/agent/join.go:556-569 | a completion is sent only with its key and challenge on disk |
| Join.Joiner.Begin | internal/agent/join.go:513-541 | one key per begin, saved first, sent again only while it may pass and up to its retries; the challenge it was answered saved with a new completion key; blocked only with the last answer |
| Join.Joiner.Complete | internal/agent/join.go:555-581 | at most 1+maxProofs+maxRetries requests, all under one key; each but the last may pass or had its proof refused, and a refusal is the end only when its tries are used up |
| Join.Joiner.Redeem | internal/agent/join.go:504-553 | every key of every run is the one on disk until its challenge was answered invalid, completions under one key are of one challenge; a run sends at most maxBegins begin keys; it links only when accepted |
| TurnLoop.Loop.DoTick | internal/agent/serve.go:177-250 | when a turn starts, when the member is held, and what the file holds after, against the loop's step; who is blocked |
| TurnLoop.Loop.EndTurn | internal/agent/serve.go:382-455 | the hold, the counters, the stall and what is due after a turn |
| TurnTheorems.TurnStartsExactlyWhen | internal/agent/serve.go:177-250 | over every run a turn starts exactly when one is owed, the totals were read and neither the day's budget nor the attempt's is spent; it is a continuation exactly when no message waits |
| TurnTheorems.UnaffordableHolds | internal/agent/serve.go:227-245 | one that is owed and cannot be afforded holds the member for a minute, until tomorrow or for an hour, and when none is owed nothing changes |
| TurnTheorems.NoTurnBeforeHold | internal/agent/serve.go:186-188 | while ticks are in time's order no turn starts before a hold is over, restarts included |
| TurnTheorems.HoldAfter | internal/agent/serve.go:456-480 | the hold each outcome leaves: none, until the provider's reset, or a backoff |
| TurnTheorems.OutsideDoubles | internal/agent/serve.go:469-471 | the backoff of a login, a limit or a missing model doubles from an hour up to eight |
| TurnTheorems.CountersAfter | internal/agent/serve.go:400-427 | what a recorded turn does to each of its attempt's counters, and to no other's |
| TurnTheorems.BlocksExactlyWhen | internal/agent/serve.go:428-450 | an attempt is blocked exactly when it stays in work with three turns without a move or two that left its section untouched; the attempt in work is due unless it is blocked |
| TurnTheorems.SectionGuarantee | internal/agent/serve.go:441-446 | without a message at most two turns in a row finish without a step and leave the section untouched |
| TurnLoop.ContinuationsStartFree | internal/agent/serve.go:204-224 | every continuation turn starts not stalled, both counters below their limits, fewer continuations than the limit, not held and after the gap |
| TurnLoop.StallGuarantee | internal/agent/serve.go:400-450 | without a message at most stallTurns finished turns without progress are recorded in a row, whatever stops and whichever writes fail |
| TurnLoop.RowBlocksUntilAnswered | internal/agent/serve.go:432-450 | the turn that completes such a row blocks the attempt, and it gets no continuation turn until a message |
| TurnLoop.UncountedRow | internal/agent/serve.go:424-454 | of turns that leave the attempt waiting on its gates, or whose last write is lost, any number may run in a row up to the limit |
| TurnLoop.ContinuationsBounded | internal/agent/serve.go:206-209 | of one attempt's continuation turns at most the limit are recorded, ever, crashes and failed writes included |
| TurnLoop.FailuresDouble | internal/agent/serve.go:474-487 | over every run, the n-th recorded failure in a row holds the member from its end for a minute doubled n - 1 times, up to half an hour, and no turn starts before; stops and lost writes between change nothing |
| Splitter.SplitSegments | internal/agent/guard.go:309-431 | the lexer's loop computes the reading of the line, nested texts shorter each time |
| Splitter.ClosingParen | internal/agent/guard.go:435-458 | the parenthesis that closes, past quotes and escapes, or the line's end |
| Splitter.ClosingTick | internal/agent/guard.go:462-470 | the backquote that closes, or the line's end |
| ShellRoundTrip.PrintThenSplit | internal/agent/clone.go:193-193 | what splitting a printed list of commands gives, for every list |
| ShellRoundTrip.PrintedCommandsComeBack | internal/agent/guard.go:270-431 | printing and splitting give the same commands exactly when each has a word and none is a lone brace |
| ShellRoundTrip.PrintIsInjective | internal/agent/clone.go:193-193 | different commands print to different lines |
| ShellLines.LineMeans | internal/agent/guard.go:285-431 | for every line, however it is written, in every shell: splitting its text gives what it means, its commands cut at each separator and nowhere else, words as quotes and escapes have them, comments and continued lines gone, substitutions before the command they are in, subshells and groups on their own, nested however deep |
| ShellLines.WrittenCommandsComeBack | internal/agent/guard.go:285-431 | commands without nested ones come back whatever separators and blanks are between them and however their words are quoted or escaped, exactly when each has a word and none is a lone brace |
| ShellLines.EndReads | internal/agent/guard.go:412-413 | each separator ends the command, and so do a parenthesis that closes nothing and, in cmd, any |
| ShellLines.CarriageReads | internal/agent/guard.go:376-379 | before CR LF a backslash continues the line only where the shell says so |
| ShellLines.UnclosedReads | internal/agent/guard.go:433-458 | a substitution or a quote that is never closed goes to the line's end |
| ShellLines.CommentReads | internal/agent/guard.go:417-423 | a bash comment is nothing, whatever is in it, and its newline ends the command |
| ShellLines.BracesCut | internal/agent/guard.go:349-365 | a lone brace ends a command and begins another |
| ShellEnds.TextNeutral | internal/agent/guard.go:433-458 | a parenthesis closes where it was written to, past nested lines, quotes and escapes |
| ShellEnds.TextSkips | internal/agent/guard.go:460-472 | and so does a backquote, or a double quote around substitutions |
| Judging.JudgeSegments | internal/agent/guard.go:232-252 | the recursive loop judges the line's commands in order, each in its directory, up to the first refusal, what one leaves noted kept for the next |
| Judging.SubshellKeepsDirectory | internal/agent/guard.go:232-242 | a subshell's cd stays inside it: the commands after it are judged as if it were not there |
| Judging.NothingIsPassedOver | internal/agent/guard.go:236-252 | every command of the line that changes no directory is judged, nested ones included, once and in order |
| Judging.AllowedExactlyWhenEachIs | internal/agent/guard.go:236-252 | a line is let through exactly when each of its commands is |
| Containment.Inside | internal/agent/guard.go:883-919 | the guard's test on strings, as its loops compute it |
| Containment.InsideIsContained | internal/agent/guard.go:879-919 | the test holds exactly when the target's segments, resolved as a stack, go on from the root's, with no .git among the rest and no glob in the first |
| Containment.InsideMeansTaken | internal/agent/guard.go:861-919 | the same without the condition on the current directory, for the place the guard takes the target to be |
| Containment.GitIs | internal/agent/guard.go:913-917 | the part the guard looks for is .git, in any case, and no other |
| Containment.GlobIs | internal/agent/guard.go:909-912 | a glob has one of three characters |
| Containment.NothingRelativeIsInsideFromTop | internal/agent/guard.go:889-895 | from `/` a relative target is inside no such root |
| SessionText.ParseHandoff | internal/agent/handoff.go:90-115 | each line goes to the part the last heading opened |
| SessionText.ParseIsNormal | internal/agent/handoff.go:90-128 | every doc read has plain parts without headings, trimmed, and whole entries |
| SessionText.RenderThenParse | internal/agent/handoff.go:130-146 | reading a written doc gives it back, entry by entry |
| SessionText.RenderParseIdempotent | internal/agent/handoff.go:90-146 | for every text, reading and writing again changes nothing |
| SessionArchive.HandoffDoc.Archive | internal/agent/handoff.go:172-187 | the doc after archiving, the section's mark found and taken out |
| SessionArchive.HandoffDoc.TrimArchive | internal/agent/handoff.go:189-206 | the archive after trimming |
| SessionArchive.ArchiveBounds | internal/agent/handoff.go:189-206 | at most 10 entries within 16 KiB, the newest, as many as fit; only an entry over the bound alone is cut |
| SessionArchive.NewIsEntry | internal/agent/handoff.go:172-184 | a section archived under a one-line id is one entry, whatever it holds |
| SessionArchive.ArchivedComesBack | internal/agent/handoff.go:168-206 | exactly one new entry first, the older ones after it; the doc written and read again is that doc exactly when the entry fits its bound or its title shows before the cut |
| SessionArchive.CutTextFits | internal/agent/brief.go:537-548 | a cut text is within its bound |
| SessionArchive.CutTextIs | internal/agent/brief.go:537-548 | a text that fits is not cut; another keeps as many characters as fit beside the ellipsis, without the blanks they end with |
| SessionArchive.MarkIsTakenOut | internal/agent/handoff.go:74-76 | of a section the first line that names its attempt is taken out, to its end, and nothing else |
| SessionArchive.DemoteReplaces | internal/agent/handoff.go:181-181 | each heading of the third level goes one level down, and the text between stays |
| SessionArchive.SpaceIs | internal/agent/handoff.go:172-176 | white space is what Unicode has as such |
| SessionArchive.NothingToArchive | internal/agent/handoff.go:172-176 | a section of nothing but white space is not archived |
| PushFit.FitPush | internal/agent/handoff.go:370-399 | what is pushed always fits both bounds; unchanged when it fits; else the most of the newest entries; else the longest cut |
| PushFit.LongestFit | internal/agent/handoff.go:387-398 | the bisection finds the largest length that fits |
| PushFit.FitsCutMonotone | internal/agent/handoff.go:373-396 | what fits at a length fits at every shorter one, escapes counted |
| PushFit.LongestKeepsMost | internal/agent/handoff.go:385-399 | no cut that fits keeps more |
| PushFit.FitsIs | internal/agent/handoff.go:373-384 | what fits is within 32 KiB as it is and 60 KiB as the JSON string it is written as |
| Brief.FrozenTexts | internal/agent/brief.go:281-291 | the texts share the bound and fit it; something is cut exactly when they do not fit |
| Brief.SharedFits | internal/agent/brief.go:283-291 | texts under a shared bound fit it, and are whole exactly when they all fit |
| Brief.BriefMemory | internal/agent/brief.go:454-502 | the ledger's oldest lines go first, the section is cut only without any; it fits when its headings do |
| Brief.BoundBrief | internal/agent/brief.go:188-203 | the part naming where to fetch more stays whole; the brief fits exactly when it did uncut or that part and the notice do |

## Left out

- SessionEngine.Engine.GetChallenge: does not model an endless row of retryable answers; the code has no bound there, and the model takes as many as it gets.
- SessionEngine.Engine.AskEnter: an abandoned request takes effect, if at all, before the next one is sent, and so does a refresh.
- SessionEngine.Engine.Run: does not model another process of the same home rebinding the session; one engine drives it.
- SessionEngine.Engine.Bind: aimem's status, open and refresh are one step that gives it the handle or not, and the path of its session file is not kept.
- StepDriver.Driver.Recover: its contract, and those of the Driver's other methods, are of the only driver at the records; StepOverlap has two.
- Points.StepServer.FinishPoint: the runs of one dispatch have a snapshot each, where the code's share one, so that a run which puts its entry back does not add its edge to the others' snapshot.
- Points.StepServer.FinishPoint: what a run of a point does is its ending, chosen freely; the log of unprepared points and the failed check's own report to aicrewd are not kept.
- PointTheorems.AfterMergeStaysOwed: reads of the points file succeed. In the code one that cannot be read is taken as empty, and the next write then drops every entry, after-merge owed or not (internal/agent/dispatch.go:209-219).
- Points.StepServer.NoticePull: the run of the automations declared for a change (forge.changed) is not modelled; the change itself is in Changes.
- Points.Due: reviews are those of the last content read, given with an observation; how they are read from comments is not modelled.
- BaseUpdate.Updater.HostUpdateBase: the merge is any head that has the old head and the base in its history, or a conflict; worktrees and the attempt's own fast-forward are not modelled. A record's heads are commits with their history, not hashes.
- Reruns.Rerunner.HostRerun: which jobs failed at the head is given; calls follow each other, as the points' run lock has them do.
- Join.Joiner.Redeem: the code stands for its digest; waits between retries take no time.
- TurnLoop.Loop.DoTick: the costs and budgets are read with the tick, and what the hold reports to aicrewd is not modelled; of the state written while a turn runs only the attempt's entry is kept.
- SessionArchive.CutText: texts are characters encoded in UTF-8; bytes that are no UTF-8 are not modelled.
- PushFit.FitPush: redaction before the fit is not modelled.
- Containment.Inside: the Windows branches of the path functions.
- Splitter.SplitSegments: PowerShell's and cmd's own rules beyond how they split.
- Judging.JudgeSegments: which commands change the directory, and the rules a command is judged by (git, find, deletes, the branch switched to, shells within shells), are parameters; they are one branch each.
- The session doc's preparation before a turn, the ledger's file, and the fingerprints of what was pushed.
- wantsContent, markSeen and addContent: whether a poll reads a pull request's content; one comparison each.
- fitReport and fitObservation: no absolute bound holds of them, since conflict hunks and labels are never cut.
- Redaction, digests, HTTP, processes, git and forge calls, the file system below an atomic write, prompts and command-line front ends.
- aicrewd's and aimem's own code: their contracts are what the events of each world allow.
