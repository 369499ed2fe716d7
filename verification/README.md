# Shell picker: a verified model

The shell picker shows directories in fzf and lets the user navigate, filter, create directories and accept paths. fzf
is driven from outside: every key that matters calls back into the session, the session answers with an effect, the
effect becomes a list of fzf actions, and some of those actions call back again for the candidate list. Meanwhile the
slow zoxide source may still deliver its rows, which are merged into the first listing if nothing has happened to it.

This project models that protocol and the data it rests on, and proves what holds in every run.

| module | what it models |
|---|---|
| `Actor`, `ActorRuns`, `ActorDecisions`, `ActorLoop` | the session actor: the step relation of its select loop, theorems over all executions, which command is held or refused and why, and the loop as the object it is |
| `Gate`, `Coordinator`, `InputStream` | the initial-enrichment coordinator's critical sections, as functions and as an object; fzf's input stream |
| `Composition`, `CompositionInv`, `CompositionRuns` | actor, coordinator, stream, event handlers, load handlers and the zoxide commit interleaved; the inductive invariant; theorems over all runs |
| `CompositionStart`, `CompositionRelease`, `CompositionOff`, `CompositionEnds` | how those runs start, a run that publishes, that every outstanding event can be released, what can no longer happen once publication is off, and how events are answered and sessions end |
| `Events`, `EventOutcomes`, `Render`, `SessionRuns`, `HandleRuns` | the modal reducer, what each event does, the effect renderer with what its actions do to fzf, whole sessions without enrichment, and concurrent events without a coordinator |
| `FileTree`, `AddTransaction` | directory trees on disk, and the Add operation as a transaction through reducer, actor and filesystem |
| `Base64`, `Codec`, `Display` | record codec and framing, display escaping |
| `FirstOccurrence`, `Merge`, `Selection` | deduplicating merge, full-record index, validation of a multi-selection |
| `Grammar`, `ZoxideLimits`, `Zoxide`, `Child` | callback commands, bounded streaming and parsing of zoxide's output, the child-process lifecycle |

Conventions. Source code that updates fields becomes a class whose methods are proved to compute a function on a value
(`View()`); the theorems over runs are about those functions. Contexts are names, and which of them are cancelled is a
set that only grows. Time, scheduling, system-call results and the outcome of builds are arbitrary. Functions of the Go
library that the code only relies on (`filepath.Clean`, `Dir`, `Base`, `Rel`, `bytes.EqualFold`, `unicode.IsGraphic`,
the display form of a zoxide path, `pathutil.Relative`) are parameters; the one assumption made about any of them is
that no control character is graphic. `strconv.ParseUint` is taken as "the value, unless it exceeds 64 bits". The codec
is proved for every way of cutting three bytes into four base64 codes and back (`Base64.Cut`), of which the standard's
is one (`Base64.Standard`); reducer and selection take the parser of candidate lines as a parameter, which in the source
is `Codec.ParseRecord`.

The directory picker puts a coordinator before the actor; the copy picker does not (internal/app/run.go:157,
internal/app/backend.go:33-38). `SessionRuns` takes the copy picker's events one after another, which is what fzf does
while it waits for a callback and nothing in the backend enforces; `HandleRuns` makes no such assumption.

Findings worth knowing:

- At `/` the entries `.` and `..` have the same cleaned target. Merging then drops one of them, so the bytes already
  fed to fzf and the framing of the enriched snapshot differ. `Merge.AppendedFramesAgree` says exactly when they agree
  and `Merge.SharedRootDisagrees` is the failing case, for any listing whose
  first two entries clean alike.
- The actor's optimistic check compares generations, and a change of mode does not make a new one, so the actor alone
  lets two handlers that read the same snapshot both succeed (`CompositionRuns.ActorAloneLosesUpdates`). A step does
  this exactly when it takes a state-only command that overwrites (`ActorRuns.SilentChangeIff`), and a snapshot read
  earlier is still current exactly when its generation is and nothing different was written so since
  (`ActorRuns.ReadStillCurrentIff`). For the directory picker the coordinator's reservations rule it out
  (`CompositionRuns.EventsAreSerial`). The copy picker has no coordinator: there two overlapping events can lose an
  update. States stay sound and effects renderable all the same (`HandleRuns.ConcurrentHandlesSober`), and
  `HandleRuns.OvertakenIff` says exactly when fzf is left in step with the session by the effect it performs last. If
  that is a navigation or a change of mode, when the session has the mode and Add error of that effect. If it is an
  action within a mode, when fzf showed the session's mode and Add error before; for the empty list of an invalid path
  both must be in Insert mode besides, and for the prompt of an Add error it is enough that fzf showed Add mode and the
  session is in Add mode with the error.
- `Stop` without a cause while an event is being handled lets that event be acknowledged although it holds no
  reservation any more; this happens exactly when the coordinator is terminal (`Gate.AcknowledgedIffReserved`,
  `Gate.StoppedEventStillAcknowledged`).
- zoxide output may end in two newlines and is still accepted (`Zoxide.ParsedIff`).
- The repository's README says that `change` is armed by `result-final`; the code arms it directly after the empty
  reload (internal/fzf/action.go:301-326). The model follows the code.

## Model

| member | source | states |
|---|---|---|
| CompositionRuns.PublicationWindow | internal/app/enrichment_commit.go:12-113 | From a successful beginCommit until publication or discard, in every run: no event in flight, no pending or replacement transition, actor generation equals the base generation; so Enrich can fail only by cancellation, shutdown or the generation limit, never as stale or pending |
| CompositionRuns.PublishedIffAppended | internal/fzf/input.go:69-88 | In every run, whenever the stream lock is free, the admitted frames have been appended if and only if an enriched generation was published, and that generation holds the merged records, under every interleaving with Close and Stop; when zoxide has nothing new, nothing is ever enriched or appended |
| CompositionRuns.StreamAgreesWithSnapshot | internal/app/enrichment_commit.go:34-75 | Until the first navigation, the bytes ever fed to fzf are the framing of the current records if and only if nothing was enriched or the base targets are pairwise distinct |
| CompositionRuns.ReservationAccounting | internal/app/enrichment_event.go:13-125 | In every run inFlight is the number of events being handled plus reservations held and at most one, is zero while committing, event IDs never go back or wrap, and a reservation waiting for a load turns publication off for good and names the actor's current generation |
| CompositionRuns.ValidatedLoadNeverStale | internal/app/enrichment_callback.go:130-165 | A load that was let through and whose reservation stands finds exactly the generation it asked for |
| CompositionRuns.ServedLoadIsCurrent | internal/app/backend.go:79-98 | Whenever a load is served, its bytes are the framing of the current generation's records, and that generation is the one it asked for |
| CompositionRuns.OneLoadPerEvent | internal/app/enrichment_callback.go:115-196 | No event ID is ever served two loads in any run, whatever finalizations are repeated or replayed |
| CompositionRuns.EventsAreSerial | internal/app/enrichment_callback.go:16-56 | Every change of the snapshot in any run is an enrichment, or exactly what the reducer made of the event being served and of the very snapshot it replaces |
| CompositionRuns.MoveSerial | internal/session/actor.go:68-110 | The same for one step from any state satisfying the invariant |
| CompositionRuns.ActorAloneLosesUpdates | internal/session/actor.go:78-85 | Counterexample without reservations: two state-only transitions from one snapshot both succeed, the second overwriting a state that would have refused it; ActorRuns.SilentChangeIff and ReadStillCurrentIff give the exact conditions |
| CompositionRuns.SessionStaysWellFormed | internal/session/events.go:54-215 | In every run with enrichment: prompt is the mode's, an Add error implies Add mode, picker and home are constant, and every effect returned to a callback renders, that of an event acknowledged after Stop included |
| CompositionRuns.BindingsFollowMode | internal/app/enrichment_callback.go:58-77 | Whenever no event is outstanding in a live session, fzf's active keys and search switch are a function of the mode alone, its prompt is the session's, its header names the session's place, no reload is in progress, `change` is armed exactly while the empty invalid-path list is shown, that list implies Insert mode, a list fzf loaded is the one of the actor's current generation, and zoxide can publish only while fzf still shows the initial stream, so restores are not suppressed afterwards |
| CompositionRelease.ReservationsCanBeReleased | internal/app/enrichment_callback.go:81-196 | Every run that ends with a live actor has a continuation, without giving up, stopping or cancelling and whatever a pending build comes to, in which no event is outstanding |
| CompositionRelease.Released | internal/app/enrichment_event.go:13-125 | The same from any world satisfying the invariant, by a distance every chosen move shortens |
| CompositionRuns.RunOnward | internal/app/enrichment_lifecycle.go:186-197 | Over any part of a run: the coordinator, once inactive, stays inactive, and once terminal, terminal; event IDs, the log of served loads and the lifecycle error only grow |
| CompositionOff.PublicationOff | internal/app/enrichment_commit.go:46-56 | Over any part of a run that starts with the coordinator inactive, nothing enriched and no commit already let through, nothing is ever enriched and nothing is fed to fzf, however Stop, navigations and the commit interleave |
| CompositionOff.CommitTurnsOff | internal/app/enrichment_commit.go:115-140 | Whenever the commit is over, whether it published, was abandoned or never began, publication is off |
| CompositionOff.ClosedForGood | internal/fzf/input.go:69-88 | Once the stream is closed and nobody holds it, no enrichment is ever published and nothing is appended |
| CompositionEnds.OverForGood | internal/app/enrichment_event.go:80-112 | Once an accepting or aborting effect has been handed out, its event is the last: none is ever reserved again, and snapshot, served loads, enrichment, stream and effects stay as they are for the rest of the run |
| CompositionEnds.EndsByEvent | internal/fzf/action.go:306-314 | In every run, fzf ends accepted only because an Enter outside Add mode was handled, answered and performed, and aborted only because of an Escape in Normal mode |
| CompositionEnds.ListIsCurrentRecords | internal/app/backend.go:67-98 | Whenever no event is outstanding in a live session and fzf shows a loaded list, that list was served to the very event that asked for it and is the framing of the session's current records |
| CompositionEnds.AnswerIsDelivered | internal/app/enrichment_callback.go:16-79 | In a live session an event the actor accepted can be collected, screened and resolved; its effect, screened by whether publication is still on, is handed out, reserved, and is what fzf performs |
| CompositionOff.CloseIsFinal | internal/fzf/input.go:98-108 | After the stream was closed it stays closed, nothing is fed to fzf and no enrichment is published any more |
| CompositionOff.ActivatedOnce | internal/app/enrichment_lifecycle.go:96-122 | No run activates the coordinator twice |
| CompositionOff.NeverActivated | internal/app/enrichment_lifecycle.go:96-122 | A coordinator whose parent went, or that was stopped, before its activation never takes an event and never publishes |
| CompositionEnds.FailureIsQuiet | internal/app/enrichment_event.go:67-79 | An event that fails, with the reducer's error, by giving up or by the actor's refusal, hands nothing out, leaves snapshot and view alone, and its reservation ends |
| CompositionEnds.LoadDecides | internal/app/backend.go:67-98 | A load reads the current records exactly when its generation is current, and what was read is served exactly when its event waits for it; either way the load is done with |
| CompositionEnds.NothingSentAfterFailure | internal/app/enrichment_event.go:67-79 | After the coordinator has ended with an error no effect is handed out any more |
| CompositionEnds.BaseFollows | internal/app/enrichment_callback.go:38-44 | Before the first navigation the base generation is the current one except between a publication and the end of its commit, and the update owed after a navigation makes it current again unless a later event was reserved meanwhile |
| CompositionOff.CausesReported | internal/app/enrichment_lifecycle.go:143-197 | The cause of a Stop and the parent's are in the lifecycle error from then on unless it was reported already; what Wait reports includes the parent's cause; what was reported with publication off never changes; only the first cause of the parent sticks |
| CompositionInv.GoodKept | internal/app/enrichment.go:44-90 | Every step of every component keeps the composition's invariant |
| CompositionInv.ReachableGood | internal/app/run.go:167-212 | The invariant holds in every state of every run that starts as the wiring does |
| CompositionInv.CompletedGood | internal/session/actor.go:220-251 | A build's completion keeps the composition's invariant, whichever way it ends |
| CompositionInv.EnrichedGood | internal/app/enrichment_commit.go:46-56 | Publishing the merge between the check of the active flag and the write keeps the invariant, even if Stop came in between |
| CompositionInv.CheckedResolveGood | internal/app/enrichment_event.go:60-125 | Resolving a successful event keeps the invariant |
| CompositionInv.EventFinalizationGood | internal/app/enrichment_callback.go:81-113 | Acknowledging an event's actions, first time or repeated, keeps the invariant |
| CompositionInv.ServedGood | internal/app/enrichment_callback.go:115-128 | Marking a load's reservation and serving bytes faithful to its generation keeps the invariant: no event served twice, every served load marked |
| CompositionStart.WiringReachesInit | internal/app/run.go:150-191 | For every picker, home and location, a new actor given the first transition, whose build delivers the listing, together with a fresh coordinator and the listing's framing on the stream, is a start of the composition's runs |
| CompositionStart.EnrichmentPublishes | internal/app/enrichment_commit.go:12-75 | From every start with new zoxide rows and nothing cancelled there is a run that publishes the merge and feeds the admitted frames to fzf |
| Actor.InvKept | internal/session/actor.go:112-277 | Every iteration of the actor's loop keeps control invariant, conservation and publication history |
| Actor.ReachableInv | internal/session/actor.go:53-280 | They hold in every state of every execution |
| Actor.CompleteShape | internal/session/actor.go:220-251 | In a reachable state the arriving completion is the pending one and carries the newest ID |
| ActorRuns.Conservation | internal/session/actor.go:61-64 | In every execution each accepted command is pending, or the replacement, or replied exactly once; its tree is cleaned up exactly once if the reply is an error and never otherwise; after exit every command is replied and no build is outstanding |
| ActorRuns.PublicationSafety | internal/session/actor.go:68-110 | Over any part of any execution generations never go back, a generation's records never change, and once shutdown has begun the snapshot is frozen |
| ActorRuns.FreshGeneration | internal/session/actor.go:68-74 | A step that changes generation or records is an enrichment or a completion and takes a generation above every one published, at most 2^64-1 |
| ActorRuns.ReceiveHonest | internal/session/actor.go:133-157 | A received command is held or answered once; a success reply carries the new current snapshot, the command's own state and effect, and its base was current; an error reply leaves the snapshot alone |
| ActorRuns.CompleteHonest | internal/session/actor.go:220-245 | The same for the command a completion settles when nothing waits to replace it, with the build's generation stamped into the effect |
| ActorRuns.CompleteSuperseded | internal/session/actor.go:220-251 | With a replacement waiting: the superseded command is refused with the error it was retired with, the replacement is pending or answered once and honestly against the unchanged generation and records |
| ActorDecisions.ReceiveDecides | internal/session/actor.go:133-157 | A fresh command becomes the replacement if and only if shutdown has not begun, its caller lives, its base is current and a build is pending that is not retiring with nothing waiting, and the build's command is then marked superseded; it becomes pending if and only if nothing is, and a build can begin; every refusal carries its own error, in the loop's order |
| ActorDecisions.CompleteDecides | internal/session/actor.go:220-245 | A completion answers a retired command with the error it was retired with, whatever the build brings, and any other with its caller's cause, the session's cause, the build failure or the new snapshot, in that order |
| ActorDecisions.ReplacementDecides | internal/session/actor.go:246-250 | The waiting command is left waiting after shutdown, refused if its caller has gone, and otherwise begun from the unchanged snapshot |
| ActorDecisions.DrainDecides | internal/session/actor.go:112-123 | A command still waiting at the end is answered with the reason for the shutdown |
| ActorDecisions.EnrichDecides | internal/session/actor.go:158-183 | An enrichment is published if and only if nothing speaks against it, under the next generation with the state as it was; otherwise nothing changes and the first objection is its error |
| ActorDecisions.RetiredBy | internal/session/actor.go:252-277 | A transition in progress is retired exactly by a superseding command, Close, its caller's end or the session's, each leaving its own error |
| ActorDecisions.ShutdownDecides | internal/session/actor.go:252-277 | Only Close and the session's end set the reason every later command is refused with, and only draining leaves the loop |
| ActorDecisions.RetirementIsFinal | internal/session/actor.go:220-230 | Over every execution, a retired command is held or answered with exactly the error it was retired with, whatever comes later |
| ActorDecisions.SupersededIsRefused | internal/session/actor.go:150-157 | Over every execution, from the step that makes a command the replacement on, the command it displaced is pending or was answered ErrSuperseded |
| ActorRuns.SilentChangeIff | internal/session/actor.go:75-85 | A step changes the snapshot under an unchanged generation if and only if it takes a live, state-only command with the current base and another state, received while nothing is pending or waiting as replacement; then exactly that state is written |
| ActorRuns.CurrentIsLastWritten | internal/session/actor.go:75-85 | Over any part of any execution with the same generation at both ends, the snapshot is the earlier one but for the state last written silently |
| ActorRuns.ReadStillCurrentIff | internal/session/actor.go:133-157 | A snapshot read at i is current at j if and only if its generation is and the state last written silently since, if any, is its own; no silent step in between suffices |
| ActorRuns.OptimisticChecksRedundant | internal/session/actor.go:80-83 | In reachable states the loop behaves as if the stale checks in start and at completion and the unmatched-completion branch were not there |
| ActorRuns.ShutdownDrains | internal/session/actor.go:112-123 | After shutdown begins one completion, whatever it carries, suffices for exit, with every command replied and the snapshot unchanged |
| ActorLoop.Loop.OnApply | internal/session/actor.go:133-157 | The apply arm computes the model's step: shutdown, cancelled caller, stale base, start, pending, or supersession, in that order, as ActorDecisions.ReceiveDecides states outright |
| ActorLoop.Loop.OnEnrich | internal/session/actor.go:158-183 | The enrich arm publishes exactly when none of its six refusals applies, and reports the first that does |
| ActorLoop.Loop.OnSnapshot | internal/session/actor.go:200-209 | A snapshot is returned exactly when its generation is current, the caller lives and shutdown has not begun |
| ActorLoop.Loop.OnCompletion | internal/session/actor.go:220-251 | The completion arm, with the start of the replacement |
| ActorLoop.Loop.TryExit | internal/session/actor.go:112-123 | The loop leaves exactly when nothing is pending and shutdown has begun, refusing a waiting replacement on the way |
| Gate.InFlightCounts | internal/app/enrichment.go:44-90 | inFlight counts events being handled plus reservations, is at most one, and committing excludes both |
| Gate.ResolveAccounted | internal/app/enrichment_event.go:60-125 | resolveEvent keeps the accounting if and only if a restore the event still carries, in a live coordinator, finds publication off or turns it off; failures, unknown events and a terminal coordinator never break it |
| Gate.FinalizeEventAccounted | internal/app/enrichment_callback.go:81-113 | FinalizeEvent keeps the accounting, duplicates included |
| Gate.LoadAccounted | internal/app/enrichment_callback.go:115-196 | BeginLoad and FinalizeLoad keep the accounting, duplicates and replays included |
| Gate.StopAccounted | internal/app/enrichment_lifecycle.go:143-168 | Stop keeps the accounting: reservations are dropped, events still being handled stay counted |
| Gate.ReserveAccounted | internal/app/enrichment_event.go:28-48 | A reservation keeps the accounting and its ID is new |
| Gate.ResolveSummary | internal/app/enrichment_event.go:80-112 | What a successful event leaves behind: the reservation it holds; the coordinator terminal exactly if it was or the effect accepts or aborts; publication off exactly if it was or the event ends the session, navigates, restores or empties the list |
| Gate.ReservationMeans | internal/app/enrichment_event.go:80-93 | The callback is told to close the initial stream exactly when the effect replaces its list for good; the event waits for a load exactly when a generation was asked for, and that load waits until the acknowledgement and is let through after it |
| Gate.LoadDecided | internal/app/enrichment_callback.go:115-196 | A load that waits is let through by its event's acknowledgement, one let through is refused the second time, and a refused one stays refused |
| Gate.NavigationSetsBase | internal/app/enrichment_event.go:101-109 | A navigation that turns publication off leaves its generation as the base |
| Gate.DecrementGuardsRedundant | internal/app/enrichment_callback.go:98-103 | Wherever the source guards a decrement with inFlight > 0 the guard holds |
| Gate.AcknowledgedIffReserved | internal/app/enrichment_event.go:67-79 | An acknowledged event holds a reservation if and only if the coordinator was not terminal |
| Gate.StoppedEventStillAcknowledged | internal/app/enrichment_lifecycle.go:143-168 | The failing case: Stop without a cause during an event of an activated coordinator |
| Coordinator.InitialEnrichment.TryReserve | internal/app/enrichment_event.go:18-49 | One pass of reserveEvent reserves exactly when not terminal, not committing, nothing in flight and an ID is left |
| Coordinator.InitialEnrichment.ResolveEvent | internal/app/enrichment_event.go:60-125 | resolveEvent computes the model's section, about which Gate.ResolveSummary and CompositionEnds.OverForGood speak, and acknowledges as the model says |
| Coordinator.InitialEnrichment.FinalizeEvent | internal/app/enrichment_callback.go:81-113 | FinalizeEvent computes the model's section, says when the initial stream must be closed and when the callback failed |
| Coordinator.InitialEnrichment.FinalizeLoad | internal/app/enrichment_callback.go:167-196 | FinalizeLoad releases exactly a served reservation, and fails the callback for an applied one reported unapplied |
| Coordinator.InitialEnrichment.Stop | internal/app/enrichment_lifecycle.go:143-197 | Stop ends the coordinator, joins its cause and the parent's into the lifecycle error, drops reservations, keeps the events still being handled counted |
| Coordinator.InitialEnrichment.Activate | internal/app/enrichment_lifecycle.go:96-122 | Activation succeeds once, while active, with a nonzero generation and a live parent context |
| Coordinator.InitialEnrichment.TryBeginCommit | internal/app/enrichment_commit.go:77-95 | One pass of beginCommit opens the window exactly when active, not terminal and nothing in flight |
| InputStream.InputStream.Read | internal/fzf/input.go:32-50 | Reads return exactly the appended bytes, in order, and the end only of a closed, drained stream |
| InputStream.InputStream.AppendAfter | internal/fzf/input.go:69-88 | The bytes become visible exactly when the stream is open and the publication succeeded: the lock, write and unlock steps the composition takes one by one |
| InputStream.InputStream.Append | internal/fzf/input.go:52-67 | Appends exactly when open |
| InputStream.InputStream.CloseWithError | internal/fzf/input.go:98-108 | Only the first close sets the cause; nothing appended is lost |
| AddTransaction.AddIsTransaction | internal/session/events.go:20-52 | In every run of Handle against the actor with no other writer: a failed call (creation, cancelled caller, failed enqueue, superseded, stale, build error, shutdown) leaves the filesystem as it was; a success after a creation published a snapshot at the created target with exactly the missing directories added |
| AddTransaction.ReachableTransaction | internal/session/actor_api.go:11-21 | The invariant behind it: at every moment the disk is the original, or the original plus the tree the call or the actor still owns |
| AddTransaction.StepTracked | internal/session/actor.go:61-64 | Wherever the actor holds a command's identity it holds that command, and a success reply to it published its own state, through supersession and replacement |
| ActorRuns.StepFinal | internal/session/actor.go:133-277 | Replies are final and only an apply step accepts a command |
| AddTransaction.DiskKept | internal/session/types.go:319-327 | The actor's cleanup restores the disk exactly when it refuses the command, and never otherwise |
| FileTree.FileSystem.CreateDirectoryTree | internal/pathutil/add_unix.go:14-59 | Succeeds exactly when the base is a chain of real directories and every component is a directory or can be made; then exactly the missing directories were added and recorded; otherwise the filesystem is as it was |
| FileTree.FileSystem.MakeAll | internal/pathutil/add_unix.go:29-58 | The component loop, with its rollback on a symlink, a file, a failed inspection or a failed mkdir |
| FileTree.FileSystem.CheckAncestry | internal/pathutil/add_unix.go:61-86 | Accepts exactly absolute paths whose every ancestor is an inspectable real directory |
| FileTree.FileSystem.Rollback | internal/pathutil/location.go:61-73 | Removes the recorded directories innermost first, leaving nonempty and missing ones alone |
| FileTree.RollbackRestores | internal/pathutil/location.go:59-80 | Rolling back undoes creating, on every filesystem |
| FileTree.RollbackSpares | internal/pathutil/location.go:59-73 | Rolling back takes nothing but recorded directories, and none that holds anything else |
| FileTree.RealDirectoriesIff | internal/pathutil/add_unix.go:61-86 | Ancestry is sound if and only if every prefix of the path is a directory that can be inspected |
| FileTree.PassableIff | internal/pathutil/add_unix.go:29-58 | The components can be walked if and only if each but "." leads to an inspectable directory or to a free place where one can be made |
| FileTree.CleanStep | internal/pathutil/add_unix.go:20-36 | Cleaning goes down one component at a time, "." stays and ".." goes up, never above the root |
| FileTree.PlaceOfBytes | internal/pathutil/add_unix.go:29-58 | The location of a created tree, written as bytes and cleaned, is the path that was created |
| FileTree.CleanOfBytes | internal/pathutil/add_unix.go:20-36 | Cleaning undoes writing on every path of proper components |
| FileTree.MissingExactly | internal/pathutil/add_unix.go:32-54 | The recorded directories are exactly the paths on the way that did not exist |
| Events.SubmittedWellFormed | internal/session/events.go:54-260 | Every proposal any event leads to from any snapshot is a navigation, a change of mode or an action within the mode, with matching prompt, unchanged picker and home, a safe header, and the right base |
| Events.EventsLand | internal/session/events.go:54-260 | Whatever the event, the session goes only to its parent, home, the root, a listed record the picker may enter or whose name was typed, or a directory it created; header and build request then name that place, and otherwise neither location nor header moves; which event leads where is in the rows of EventOutcomes |
| EventOutcomes.ModeKeysDo | internal/session/events.go:61-70 | The mode keys switch mode from Normal mode only, Add with an empty query; elsewhere they and unknown events are invalid; restore asks for the current generation |
| EventOutcomes.EscapeDoes | internal/session/events.go:137-146 | Escape leads from Insert and Add to Normal mode, from Add clearing the query, and aborts in Normal mode |
| EventOutcomes.ParentDoes | internal/session/events.go:90-95 | Parent goes to the directory above, to the root from Drives, and is ignored in Add mode |
| EventOutcomes.HomeDoes | internal/session/events.go:119-126 | Home goes home from an empty query, is text in Add mode and after text in Insert mode, and is ignored after text in Normal mode |
| EventOutcomes.SlashDoes | internal/session/events.go:96-118 | Slash is text in Add mode, goes to the root from an empty query and up from "..", and is ignored after other text in Normal mode |
| EventOutcomes.SlashEnters | internal/session/events.go:217-234 | After other text in Insert mode slash enters the first listed child the text names, whenever there is one |
| EventOutcomes.SlashMisses | internal/session/events.go:104-109 | If no listed child is named, the slash is put after the text and the list emptied |
| EventOutcomes.ForwardDoes | internal/session/events.go:73-89 | Forward goes to the target of the first record with the item's line if the picker may enter it and its target fits its kind, is refused otherwise, and is ignored in Add mode |
| EventOutcomes.ForwardRefuses | internal/session/events.go:262-283 | Forward on an empty, malformed or unlisted item is refused as an invalid navigation |
| EventOutcomes.EnterAdds | internal/session/events.go:148-155 | Enter in Add mode goes to the created directory if the query is a usable relative path and the creation succeeds; otherwise the Add error is shown and nothing else changes |
| EventOutcomes.EnterChooses | internal/session/events.go:156-171 | Enter outside Add mode opens a virtual record that targets Drives, refuses one that does not, and accepts everything else listed, or no item at all |
| EventOutcomes.EnterRefuses | internal/session/events.go:156-160 | Enter on a malformed or unlisted item is refused as an unknown record |
| EventOutcomes.OnlyEnterAccepts | internal/session/events.go:127-171 | Only Enter outside Add mode accepts, with the session as it was, and exactly Escape in Normal mode aborts |
| EventOutcomes.HeaderNames | internal/pathutil/location_unix.go:36-61 | The header, its escapes read back, is the place as it reads from home, with exactly one slash at its end |
| Events.HeaderSafe | internal/session/events.go:249-260 | A header is never empty and holds no control byte, whatever bytes the path has |
| Render.RenderEffect | internal/fzf/action.go:259-342 | Rendering succeeds exactly on effects meeting its six conditions (the rejection of unknown modes is ruled out by type), and performing the actions leads any view to the one the effect asks for (an unended view ends aborted exactly if the effect aborts and accepted exactly if it accepts without aborting; the query is what it was, unless cleared, followed by the text put; a reloaded list carries the event's ID): keys, list, preview, search, prompt, header, query, marks and ending; no reload is left in progress, and `change` is armed only once the empty reload has finished |
| Render.EventShows | internal/fzf/action.go:259-342 | A navigation shows the new generation, loaded under the event's own ID, with an empty query and no marks; anything else keeps the marks and, unless it clears it, the query, and shows the session's list again after a change of mode unless restores are suppressed |
| Render.RenderBack | internal/fzf/action.go:290-341 | The second half of the renderer: edits before the empty list, waits before preview and binding changes, text last |
| Render.RenderKeys | internal/fzf/action.go:63-87 | The actions for a mode make exactly that mode's changes to the bound keys |
| Render.EffectsRender | internal/fzf/action.go:208-239 | Every effect of a well-formed proposal, stamped and screened, is accepted by the renderer |
| Render.EventKeepsStep | internal/fzf/action.go:301-326 | One event keeps bindings, search, prompt, armed `change`, list and header in step with the new snapshot, a loaded list being that of its generation, provided an empty list is never shown while restores are suppressed |
| Render.ModeBindings | internal/fzf/action.go:63-91 | After a change to any mode from any mode the bound keys are the new mode's |
| Render.StartInStep | internal/fzf/action.go:89-91 | The start event leaves fzf in step with Insert mode |
| Render.PickerGroupsSeparate | internal/fzf/action.go:13-20 | The picker's key groups overlap in no way the theorems exclude |
| SessionRuns.EverySession | internal/session/events.go:54-260 | After any sequence of events taken one at a time without enrichment: Add error, picker and home are as promised, bindings, search, `change` and list are as the mode requires, a list fzf loaded is that of the current generation, and fzf's prompt and header show the session's mode and location |
| SessionRuns.EveryEffectRenders | internal/session/actor.go:237-243 | Every effect emitted in such a session, stamped by the actor, is accepted by the renderer |
| HandleRuns.ConcurrentHandlesSober | internal/app/backend.go:33-38 | In every execution of the actor with any number of concurrent Handle calls, proposals made from any earlier snapshot: prompt and Add error match the mode, picker and home are constant, and every effect a caller is answered with renders |
| HandleRuns.LastEffectDecides | internal/fzf/action.go:63-91 | A navigation or change of mode brings fzf in step with its own state from whatever state it showed |
| HandleRuns.OvertakenIff | internal/session/events.go:184-215 | Whatever effect fzf performed last, it is in step with the session if and only if: after a navigation or change of mode, the session's mode and Add error are the effect's; after another action, they are those fzf showed before, and Insert mode for an invalid path; after an Add error, fzf showed Add mode and the session is in Add mode with the error |
| Codec.ParsePrint | internal/protocol/codec.go:91-120 | Parsing undoes printing on every record with a valid kind, clean display and encoded nonempty path, for every cut of bytes into codes |
| Codec.PrintParse | internal/protocol/codec.go:91-120 | Every accepted line is the printing of what it parses to, and that is canonical |
| Codec.AcceptedIffPrinted | internal/protocol/codec.go:22-42 | A line is accepted if and only if it prints some canonical record |
| Codec.ColumnsDetermineLine | internal/protocol/codec.go:91-120 | Accepted lines with equal kind, display and decoded path are byte-identical |
| Codec.CanonicalTestIsNewlineTest | internal/protocol/codec.go:32-42 | The re-encoding test adds to strict decoding exactly the rejection of CR and LF |
| Codec.FrameRecords | internal/protocol/codec.go:122-153 | The framing loop computes the concatenation of NUL-terminated lines |
| Codec.FrameConcat | internal/protocol/codec.go:140-153 | Framing distributes over concatenation, so appended frames extend the stream correctly |
| Codec.UnframeFrame | internal/fzf/output.go:76-89 | Unframing undoes framing on every list of NUL-free lines |
| Codec.FrameUnframe | internal/fzf/output.go:76-89 | Whatever unframes is the framing of its result |
| Codec.UnframeOutput | internal/fzf/output.go:76-89 | nulFrames succeeds exactly on empty or NUL-terminated output and its frames reassemble to it |
| Codec.FrameInjective | internal/protocol/codec.go:122-134 | Equal framed bytes come from equal lists |
| Base64.RoundTrip | internal/protocol/codec.go:28-30 | Decoding undoes encoding on every byte string (sections 3.5 and 4 of RFC 4648), for every cut of bytes into codes |
| Base64.Standard | internal/protocol/codec.go:28-30 | The cut of RFC 4648 is one the codec theorems are about: codes and bytes are back after either round, and the codes of a shortened last group hold no stray bits |
| Base64.CanonicalIffNoNewline | internal/protocol/codec.go:32-42 | Text that decodes strictly re-encodes to itself if and only if it holds no CR or LF |
| Display.UnescapeEscape | internal/protocol/codec.go:44-89 | Escaping has an explicit left inverse on all byte strings, invalid UTF-8 included |
| Display.UnescapeHead | internal/protocol/codec.go:49-86 | Unescaping what one turn of the loop wrote, followed by anything, gives back exactly the bytes that turn consumed and then the rest, whichever of the four cases applied |
| Display.EscapeInjective | internal/protocol/codec.go:44-89 | Different paths have different displays |
| Display.UnescapeThen | internal/protocol/codec.go:44-89 | Whatever follows a display is read back after it |
| Display.PlainIffUnchanged | internal/protocol/codec.go:49-86 | A path is displayed unchanged if and only if it is well-formed UTF-8 of graphic code points without short escapes; every other display is longer |
| Display.TwoBytes | internal/protocol/codec.go:66-72 | Two bytes are decoded to the eleven payload bits, unless one byte would do (section 3 of RFC 3629) |
| Display.ThreeBytes | internal/protocol/codec.go:66-72 | Three bytes are decoded to sixteen payload bits, unless two would do or it is a surrogate |
| Display.FourBytes | internal/protocol/codec.go:66-72 | Four bytes are decoded to the code point, within U+10000 to U+10FFFF |
| Display.EscapeOneLine | internal/protocol/codec.go:44-89 | A display holds no byte below 32, hence no tab, CR, LF or NUL, for any graphic predicate that rejects controls |
| Display.EscapeDisplay | internal/protocol/codec.go:44-89 | The loop over runes computes the specified escaping |
| Merge.MergeNewRecords | internal/candidate/builder.go:306-347 | The two-table loop computes Dedup(base) + admitted, and admitted |
| Merge.Admit | internal/candidate/builder.go:316-333 | A record is new exactly when its identity is in neither table, and its identity is then recorded |
| Merge.MergeIsUnion | internal/candidate/builder.go:310-347 | Identities of the merge are pairwise distinct and the union of both inputs'; merging the same additions again admits and changes nothing |
| Merge.AdmittedIff | internal/candidate/builder.go:310-347 | A record of any kind is admitted if and only if neither the base nor an earlier addition holds the same candidate: the same cleaned path for places on disk, else the same target and line |
| Merge.AppendedFramesAgree | internal/protocol/codec.go:140-153 | Framed base plus framed admitted is the framed merge if and only if base identities are pairwise distinct |
| Merge.RootRecordsCollide | internal/candidate/local.go:246-252 | A listing's two root entries are distinct candidates if and only if path and parent clean differently |
| Merge.SharedRootDisagrees | internal/candidate/local.go:246-252 | Whenever path and parent clean alike and whatever else is listed, the framed base plus admitted is not the framed merge |
| Merge.FilesystemRootDisagrees | internal/candidate/merge_key_unix.go:7-9 | At `/`, whatever the directory holds, the framed base plus admitted is never the framed merge |
| FirstOccurrence.KeptAreFirst | internal/candidate/builder.go:334-346 | An element is kept exactly when it stands where its key is new |
| FirstOccurrence.KeepKeys | internal/candidate/builder.go:310-347 | Keeping drops exactly the keys seen and keeps none twice |
| FirstOccurrence.KeepIdentity | internal/candidate/builder.go:310-347 | Nothing is dropped if and only if the keys are distinct and unseen |
| Merge.BuildIndex | internal/session/record_set.go:21-35 | The index maps exactly the printed forms present, each to its first position |
| Merge.Lookup | internal/session/types.go:182-191 | Lookup succeeds exactly on printed forms present and returns the first record of that form |
| Selection.ValidateCP | internal/session/selection.go:34-65 | For any parser of lines, the counting loops compute the specified outcome, error cases and their order included |
| Selection.AcceptedIff | internal/session/selection.go:34-65 | A selection succeeds if and only if base and selection are nonempty, every line parses, the selection is included in the snapshot with multiplicity, and no record it picks is off disk; then one path per accepted line, in snapshot order |
| Selection.UnknownIff | internal/session/selection.go:60-63 | "Unknown selection" is reported if and only if everything is well formed and on disk but not all in the snapshot |
| Selection.InvalidIff | internal/session/selection.go:34-56 | An empty base is reported before everything else; then, and before an unknown selection, one that is empty, malformed or picks a record not on disk |
| Selection.OrderFree | internal/session/selection.go:41-48 | The outcome depends only on the multiset of accepted lines |
| Selection.PathsInOrder | internal/session/selection.go:49-60 | The paths of an accepted selection come from strictly increasing positions of the snapshot, each among the first of its columns |
| Selection.PickedIsIntersection | internal/session/selection.go:49-60 | As a multiset, the picked records are the intersection of snapshot and selection |
| Grammar.ParsePrinted | internal/callback/grammar.go:65-97 | For all numbers, parsing the printed load argument gives back exactly the pair when the generation is 1 to 2^64-1 and the event at most 2^64-1, and is refused otherwise |
| Grammar.PrintParsed | internal/fzf/action.go:197-206 | Whatever parses as a load is the one canonical printing of its result |
| Grammar.ParsePositiveCanonical | internal/callback/grammar.go:70-79 | A number is accepted exactly when it is digits without leading zero within 64 bits |
| ZoxideLimits.LimitWriter.Write | internal/candidate/zoxide_limits.go:42-115 | However the output is cut into writes, a sink that takes what it is given holds the longest prefix within the byte, row and row-length limits, a failing or short-writing sink at most that; the error is sticky, the count returned is what was forwarded, and the source is cancelled exactly when the limits are exceeded |
| ZoxideLimits.LimitWriter.Scan | internal/candidate/zoxide_limits.go:46-61 | The byte loop stops exactly at the first byte that breaks a limit |
| ZoxideLimits.LimitWriter.Finalize | internal/candidate/zoxide_limits.go:74-86 | Finalizing changes no verdict: it never rejects what Write accepted, and counts a last row without newline |
| ZoxideLimits.Stream | internal/candidate/zoxide.go:169-182 | For every list of chunks and a sink that does not fail, forwarded bytes and verdict depend only on their concatenation |
| ZoxideLimits.ValidateBounds | internal/candidate/zoxide.go:250-256 | The one-shot check accepts exactly the outputs within the limits |
| ZoxideLimits.LongestIsLongest | internal/candidate/zoxide_limits.go:42-61 | A prefix is within the limits if and only if it is no longer than the longest |
| ZoxideLimits.WithinStep | internal/candidate/zoxide_limits.go:47-59 | The writer's test for one byte decides exactly whether the declarative limits still hold |
| ZoxideLimits.ForwardedIsWithin | internal/candidate/zoxide.go:212-215 | The recheck never refuses what a stream forwarded |
| Zoxide.ParseZoxideRecords | internal/candidate/zoxide.go:212-248 | Over-limit, malformed, or one record per row, as specified |
| Zoxide.ParsedIff | internal/candidate/zoxide.go:216-247 | Output is accepted with given rows if and only if the rows are legal and the output is them joined by newlines followed by at most two newlines, or is empty with no rows |
| Zoxide.RecordOfRow | internal/candidate/zoxide.go:226-246 | A row's record targets the row, and its line parses back to the record with the row as its path |
| Zoxide.ScanRows | internal/candidate/zoxide.go:226-246 | The row loop computes the recursive specification |
| Child.OneKillNeverLate | internal/process/process_unix.go:155-171 | In every interleaving at most one signal is sent, and none after the PID was collected |
| Child.WaitReportsCancelIff | internal/process/process_unix.go:173-243 | Wait reports the cancellation cause if and only if the watcher recorded it before exit was observed; a wait-delay timeout only wraps it |
| Child.CancellationKills | internal/process/process_unix.go:226-243 | In every run, once a cancellation was recorded, the exit could not be observed or the pumps were cut off, exactly one signal has been sent |
| Child.WaitReportsExit | internal/process/process_unix.go:173-206 | A Wait without a recorded cancellation reports the exit status collected, else the pumps' error, else the observer's, and is marked delayed exactly when the pumps were cut off |
| Child.NothingAfterWait | internal/process/process_unix.go:173-206 | Once Wait has returned no step of any party changes anything |
| Child.StepKept | internal/process/process_unix.go:208-243 | Every critical section and system call keeps the lifecycle invariant |
| Child.ChildProcess.KillTree | internal/process/process_unix.go:155-171 | Signals exactly when the target is valid and no signal was issued, and reports what the one signal came to |
| Child.ChildProcess.ReapLocked | internal/process/process_unix.go:213-220 | The reaper's section: exit observed, and on an observer error one kill and the target invalidated |
| Child.ChildProcess.WatchLocked | internal/process/process_unix.go:234-241 | The watcher's section: nothing after exit, else the cause recorded and the tree killed |

## Left out

- HTTP server and client, tokens, JSON and the callback process: only the backend calls appear, as steps.
- fzf itself: only what rebind, unbind, reload and the preview switch do; a view changes when its event is acknowledged.
- Texts of fzf actions: key escaping and delimiters (internal/fzf/action.go:93-168) and header width trimming.
- Modes, kinds and pickers are datatypes, so rejections of unknown ones are ruled out by type.
- Render.RenderEffect: the cursor shape is set outside fzf and not modelled; put inserts at the end of the query; an arming lost to a reload in progress stands for every way it can fire early.
- Coordinator.InitialEnrichment.Stop: lifecycle errors are sets of causes, so the order and nesting of joined errors is not modelled; trace, metrics and source-result fields are absent.
- FileTree.FileSystem.CreateDirectoryTree: paths are component lists and nobody else writes; races with other writers are outside the source's promise too.
- AddTransaction.AddIsTransaction: only one call creates directories; errors of the rollback itself are not modelled.
- SessionRuns.EverySession: events one at a time; overlapping events of the copy picker are in HandleRuns.
- Child.WaitReportsCancelIff: pumps, streams, the foreground terminal, RetainTree handles and the error a second Wait gets are not modelled.
- ValidateCD, ParseOutput's exit-code table, MergeRecords' callers and the builder's scheduling of the two sources: they would add only easy members.
- Directory enumeration, sorting, symlink classification, previews, archives, caches, configuration, the sidecar, Windows code, release tooling.
- Fairness (that what can happen does happen), and memory aliasing between clones of snapshots.
