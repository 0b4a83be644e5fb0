# Browser start-up and shutdown protocols

Dafny models of the small protocols and rewriters inside the browser's start-up and shutdown
code, with proofs that hold for every interleaving, every input, or every sequence of sessions.
`dafny verify dfyconfig.toml` checks the whole project.

How the models are built: a `datatype` holds the whole state, a total function `Step` is one
atomic step (a step that is not possible leaves the state unchanged), and `Run` folds `Step`
over an arbitrary list of events, so a statement about `Run` is a statement about every run.
Where other threads can act between two statements, those are two steps.
The code that changes state in place is a class whose methods are proved equal to those steps,
with any steps of other threads in between;
code that loops or reassigns locals is a method with invariants.

| file | models |
|---|---|
| `AfterStartupTasks.dfy` | the gate that holds tasks until start-up is complete, with posts from any thread, also during the flush |
| `StartupObserver.dfy` | the self-deleting observer that opens the gate, its failsafe timer, and its choice of page |
| `RundownBarrier.dfy` | the counted rundown tasks on sequenced runners, and `EndSession` under interference |
| `WebUiUrls.dfy` | forward rewriting of WebUI URLs and the reverse handler |
| `ShutdownSessions.dfy` | shutdown triple, time file and restart request across sessions one after another, crashes and late preference writes |
| `OverlappingSessions.dfy` | the same for any number of processes at once on one user data directory |
| `ProcessSingletonGate.dfy` | forwarded command lines behind the dialog lock, the start-up lock and shutdown |
| `ClearSiteData.dfy` | overlapping removals, each with an observer that counts to two and deletes itself |
| `ApplicationLocale.dfy` | the UI thread's locale and the IO thread's copy |
| `LazyServices.dfy` | flag-guarded lazy services, nested getters and tear-down |
| `CertificateGroups.dfy` | grouping of certificates by organisation |
| `JoinedSwitches.dfy` | switches whose value is a delimiter-joined list |
| `Wrappers.dfy` | the shared option type |

## Assumptions

- The UI message loop and sequenced runners are FIFO, and a sequenced runner runs one item at
  a time. `CommitPendingWrite` enqueues its write on the store's runner.
- `BrowsingDataRemover` replies exactly once to the observer it was given.
- A URL is scheme, host, path, query and reference. With a host, a path starts with "/"
  (section 3.3 of RFC 3986) and an empty path becomes "/" (section 6.2.3 of RFC 3986). Host
  names are distinct parameters, because url_constants is not part of this model.
  `FixupURL` is assumed to be idempotent and to leave canonical URLs on the browser's own hosts
  alone; `GoodEnvExists` shows that these assumptions can be met.
- The commit requested when the session shuts down has reached the disk when the threads are
  gone. Before that, preferences may reach the disk at any time or, in a crash, never.
- `ShutdownSessions` follows sessions that do not overlap. `OverlappingSessions` makes no such
  assumption: any number of processes share the disk, as a second invocation does until it has
  found the first one. `SessionsAreProcesses` proves that the former is the case of one process
  at a time.
- While `ProcessSingletonStartupLock::Unlock` replays what it saved
  (browser/process_singleton_startup_lock.cc:29-37), its callback runs no nested message loop
  that would deliver a further notification or begin shutdown.
- A process that receives a joined switch splits its value at every separator; that code is not
  part of this model.

## Where the code does less than it seems to promise

- `ProcessSingletonStartupLock::Unlock` replays each distinct message once
  (browser/process_singleton_startup_lock.cc:29-37), so two identical invocations during
  start-up become one, although the class comment of `ChromeProcessSingleton` speaks of
  queueing and passing on. `AllAcceptedIff` gives the exact condition under which nothing is
  lost, `RepeatedInvocationIsLost` the smallest loss.
- A session can die after its triple reached the disk but before its FILE thread deleted the
  previous session's time file. The next session then reports the time of one session with the
  triple of another. `ReportsPaired` excludes every other way for this to happen,
  `UnpairedCrashMisreports` shows that each such crash beside a non-zero time does cause it,
  and `UnpairedIsReachable` shows that it can happen.
- With sessions one after another, a report is about the session just before, unless a session crashed
  while a measured triple and a non-zero time were both there (`ReportsAreAboutPredecessor`);
  after any such crash the next session reports an older time
  (`OtherCrashesReportOlderTimes`).
- A restart request can be answered twice. A second invocation loads the preferences before
  it looks for a running browser, and relaunches for a request it found even if it only
  notified that browser (browser/chrome_browser_main.cc:1031, 1534, 2022-2030, 2063).
  `OverlappingSessions.OneRelaunchPerRequest` holds exactly as long as no process loads a
  request that another one holds: any other load can lead to two relaunches
  (`SharedRequestAnsweredTwice`, reached by `SharedRequestIsReachable`).
- `SetTryingToQuit(false)` withdraws a restart request in memory only. A process that loads the
  request from disk before the withdrawal is written answers it, after a crash
  (`CrashRevivesWithdrawn`, `WithdrawnOnDiskIsReachable`) or beside the process that withdrew
  it (`WithdrawnCanBeAnswered`); otherwise withdrawn requests are never answered
  (`WithdrawnNeverRelaunched` in both modules).
- With overlapping processes a session can be reported twice, because its triple is loaded
  again before the first reader's preferences are written, and a time can be reported twice,
  because two FILE threads read it before either deletes it. `TripleReportedOnce` and
  `TimeReportedOnce` give the conditions, `TripleReportedTwice` and `TimeReportedTwice` their
  converses.
- `TimedWait` can report a timeout although every rundown task has decremented the count,
  between the last decrement and its signal (`TimeoutAfterLastDecrement`).
- The handler chain is not idempotent when the new-tab policy names a location that some
  handler rewrites, or when a guest is sent to an overridden new tab page
  (`ForwardIdempotentIff`, with witnesses `OverrideCanBreakIdempotence` and
  `GuestCanBreakIdempotence`). Which locations are rewritten can be read off the handlers'
  guards (`FixedIffSettled`).
- The loop in `StartupObserver::Start` falls back to the last browser's contents even when they
  are not visible (`SelectedIsFirstShowingOrLast`).
- A task can be overtaken by a later one exactly when they are not both posted on the UI
  thread (`CanBeOvertakenIff`): a hop can be overtaken by any later post, and a queued task by
  another thread's post during the flush. Tasks of the UI thread keep their order in every run
  (`UiPostsKeepOrder`). Scheduled tasks get random delays, so the model speaks of the order of
  posting to the runners, never of execution.
- The queue is cleared only after the flush, so a set flag alone does not mean an empty queue
  (browser/after_startup_task_utils.cc:106-110); outside the flush it does (`GateSafety`).
- The first branch of `HandleWebUI` does not look at the scheme
  (browser/chrome_content_browser_client.cc:623-631); the idempotence results cover every
  scheme, the display results chrome-scheme URLs.
- A service guarded by its pointer alone can be built more than once: exactly when its
  factory may yield nothing or tear-down resets it (`BuiltOnceIff`). Of the modelled ones,
  the metrics services and the network time tracker are built again when asked for after
  tear-down, the background-mode manager is not (`RebuiltAfterTearDownIff`).

## Model

The main results come first, then the lemmas they rest on and the witnesses, then the code in
place.

| member | source | states |
|---|---|---|
| `AfterStartupTasks.GateSafety` | browser/after_startup_task_utils.cc:66-115 | in every interleaving, other threads' steps during the flush included: the posted tasks are, as a multiset, exactly those in flight or waiting in the queue plus those handed over; nothing is handed over before the flag is set; outside the flush a set flag means an empty queue; every task goes to its own runner |
| `AfterStartupTasks.ExactlyOnce` | browser/after_startup_task_utils.cc:221-233 | no task is handed over more often than it was posted, and all are once the flag is set and no post, hop or flush is under way |
| `AfterStartupTasks.Drains` | browser/after_startup_task_utils.cc:85-110 | from any reachable state with the flag set, even in the middle of the flush, finishing the flush and the posts under way hands over every task that was on its way, each once |
| `AfterStartupTasks.UiPostsKeepOrder` | browser/after_startup_task_utils.cc:77-110 | in every run, whatever other threads post meanwhile, any choice of tasks posted on the UI thread leaves the gate in posting order |
| `AfterStartupTasks.HopsKeepOrder` | browser/after_startup_task_utils.cc:77-92 | in every run, tasks of other threads that hop and are not also posted directly leave the gate in the order of their hops, through the UI loop and the queue |
| `AfterStartupTasks.CanBeOvertakenIff` | browser/after_startup_task_utils.cc:77-110 | some run hands over a later task first if and only if the two are not both posted on the UI thread |
| `StartupObserver.ObserverSignalsOnce` | browser/after_startup_task_utils.cc:119-191 | in every order of loads, failures, destructions and timeouts each start makes one observer that signals exactly once and dies when the flush it began is over; until it signals its timer is pending; it never dies before the flag is set |
| `StartupObserver.CompletesStartup` | browser/after_startup_task_utils.cc:127-149 | in every run, outside a flush: a main frame that loads or fails, or the contents going away, with a live observer watching, or the timer of a live observer, sets the flag and makes that observer signal for the first time; nothing else an observer sees does |
| `StartupObserver.TimersSuffice` | browser/after_startup_task_utils.cc:187-190 | once the pending timers have fired, every observer has signalled, none outlives the flush, and start-up is complete |
| `StartupObserver.ComposedGateIsSafe` | browser/after_startup_task_utils.cc:119-133 | conservation, nothing before the flag, the empty queue, the right runner and the order of UI posts hold with any number of observers |
| `RundownBarrier.FlushBarrier` | browser/browser_process_impl.cc:438-461 | if the wait succeeded, all work given to a runner before one of its rundown tasks is done, for any number of runners, shared or not, and any schedule |
| `RundownBarrier.RunnersCatchUp` | browser/browser_process_impl.cc:438-461 | from any reachable state some steps of the runners alone finish every item they have, and an owner that waits then finds the event signalled |
| `RundownBarrier.WaitCanSucceed` | browser/browser_process_impl.cc:456-461 | whatever work was posted before it, the wait succeeds if the runners are given the time |
| `RundownBarrier.EndingSession.EndSession` | browser/browser_process_impl.cc:465-521 | if the wait succeeds, the commit of every profile with preferences and of the local state has been carried out |
| `RundownBarrier.CounterInvariant` | browser/browser_process_impl.cc:404-454 | the count is the number of tasks that have not decremented it, plus the excess one until the wait drops it, plus one between an increment and its post; it is not zero when a task is posted; the signals made and due are one exactly when the count is zero |
| `RundownBarrier.SignalledIff` | browser/browser_process_impl.cc:451-461 | the event is signalled exactly when the excess count is dropped, every rundown task has decremented and nobody has still to signal |
| `RundownBarrier.CounterOutlivesItsUsers` | browser/browser_process_impl.cc:404-454 | whoever has still to decrement, to signal or to return finds the counter alive, even after the wait ended and EndSession dropped its reference; it dies with the last of them |
| `WebUiUrls.DisplayRoundTripIff` | browser/chrome_content_browser_client.cc:666-680 | for every canonical chrome-scheme URL, every combination of switches, with and without override and guest session, rewriting and reversing gives back the URL exactly in the listed cases |
| `WebUiUrls.EmbeddedPagesShownAsTyped` | browser/browser_about_handler.cc:72-131 | with the material-design pages and the settings window off, every URL under settings, help, history and extensions is displayed as typed, except the deprecated settings page, which comes back as the extensions host |
| `WebUiUrls.AboutFollowsTable` | browser/browser_about_handler.cc:45-142 | where each chrome-scheme page goes, with exact path, query and reference: about, cache and sync to their real pages, the embedded pages into the uber page, settings and help to the settings frame under the settings window, history to the history frame on Android, all others nowhere; and which are claimed |
| `WebUiUrls.WebUiDecides` | browser/chrome_content_browser_client.cc:622-664 | which URLs the WebUI handler claims, and that it moves only help pages, to the settings help page, and a guest's bookmarks and history with their subdomains, to the plain new tab page |
| `WebUiUrls.ReverseDecides` | browser/chrome_content_browser_client.cc:572-601 | which URLs the reverse handler claims, and how it takes a page out of the uber page |
| `WebUiUrls.ForwardIdempotentIff` | browser/browser_about_handler.cc:45-142 | two applications of the forward handlers equal one, under every switch, if and only if no override leads to a location that a handler's guard matches and no guest is sent to an overridden new tab page |
| `WebUiUrls.FixedIffSettled` | browser/chrome_content_browser_client.cc:603-664 | a URL is a fixed point of the chain if and only if the guards of no rewriting handler match it |
| `WebUiUrls.ForwardIdempotent` | browser/chrome_content_browser_client.cc:622-664 | without override and guest session the chain is idempotent on every URL and keeps scheme, query and reference |
| `WebUiUrls.RemoveAfterAdd` | browser/chrome_content_browser_client.cc:559-601 | removing the uber host undoes adding it, for every canonical URL with a host |
| `WebUiUrls.AddAfterRemove` | browser/chrome_content_browser_client.cc:559-601 | adding after removing restores the URL if and only if the segment is a canonical host and the path has a second "/"; without one it gains a trailing slash |
| `WebUiUrls.RemoveSucceedsIff` | browser/chrome_content_browser_client.cc:569-594 | removal succeeds exactly on the uber host with a non-empty first segment, and otherwise changes nothing |
| `ShutdownSessions.ReportsAreSound` | browser/browser_shutdown.cc:284-347 | over any sessions one after another, with crashes and late writes: each triple and each measured time is reported at most once, by a later session, with a positive process count of which the slow ones are part |
| `ShutdownSessions.ReportsPaired` | browser/browser_shutdown.cc:188-197 | a report joins triple and time of the same session, unless a session crashed with its triple on disk beside an older non-zero time |
| `ShutdownSessions.UnpairedCrashMisreports` | browser/browser_shutdown.cc:289-297 | after any such crash the next session does report a wrong pair |
| `ShutdownSessions.ReportsAreAboutPredecessor` | browser/browser_shutdown.cc:284-347 | with sessions one after another, every report is about the session just before, unless a session crashed with a measured triple on disk and a non-zero time |
| `ShutdownSessions.OtherCrashesReportOlderTimes` | browser/browser_shutdown.cc:289-297 | after any such crash the next session reports a time from before its predecessor |
| `ShutdownSessions.OneRelaunchPerRequest` | browser/browser_shutdown.cc:199-207 | with sessions one after another, each restart request causes at most one relaunch, whatever crashes |
| `ShutdownSessions.WithdrawnNeverRelaunched` | browser/browser_shutdown.cc:349-369 | with sessions one after another, a withdrawn request is never answered, unless a session crashed with it still on disk |
| `ShutdownSessions.CrashRevivesWithdrawn` | browser/browser_shutdown.cc:355-364 | after any such crash the next orderly shutdown relaunches |
| `ShutdownSessions.FirstShutdownWins` | browser/browser_shutdown.cc:113-144 | later calls of OnShutdownStarting never change the session's triple |
| `ShutdownSessions.ShutdownIsRecorded` | browser/browser_shutdown.cc:113-144 | the first start of a shutdown records type, number of renderer processes, and the number of those that could not exit fast |
| `ShutdownSessions.SessionIsReported` | browser/browser_shutdown.cc:188-347 | whatever came before, a session with renderers that shuts down in order is reported by the next one, with its own type, counts and time |
| `ShutdownSessions.RequestIsAnswered` | browser/chrome_browser_main.cc:2057-2080 | from any running session a restart request leads to one relaunch, in the background exactly if that was wished for |
| `ShutdownSessions.CancelledQuitForgets` | browser/browser_shutdown.cc:349-369 | a cancelled quit leaves no request to answer; one that goes on changes nothing |
| `ShutdownSessions.CancelledQuitLeavesBackground` | browser/browser_shutdown.cc:349-369 | a cancelled quit takes back the wish for the background: a later request relaunches in the foreground |
| `OverlappingSessions.OneRelaunchPerRequest` | browser/browser_shutdown.cc:188-207 | with any number of overlapping processes, crashes and late writes: if no process loads a request that another one holds, each request causes at most one relaunch |
| `OverlappingSessions.SharedRequestAnsweredTwice` | browser/chrome_browser_main.cc:2022-2080 | any other load can lead to two relaunches, without a crash |
| `OverlappingSessions.WithdrawnNeverRelaunched` | browser/browser_shutdown.cc:349-369 | if moreover no process loads a withdrawn request, none is ever answered |
| `OverlappingSessions.WithdrawnCanBeAnswered` | browser/browser_shutdown.cc:349-369 | any other load can lead to the relaunch of a withdrawn request, without a crash |
| `OverlappingSessions.ReportsAreSound` | browser/browser_shutdown.cc:284-347 | with any number of overlapping processes every report has a positive process count of which the slow ones are part, a non-zero time, and the triple of an earlier session |
| `OverlappingSessions.TripleReportedOnce` | browser/browser_shutdown.cc:330-347 | the triple of a session is reported at most once if no process loads a measured triple that was reported or that another one has still to report |
| `OverlappingSessions.TripleReportedTwice` | browser/browser_shutdown.cc:330-347 | any other load can lead to two reports of the session |
| `OverlappingSessions.TimeReportedOnce` | browser/browser_shutdown.cc:284-293 | a measured time is reported at most once if no FILE thread reads it for a report after another one did and will report it |
| `OverlappingSessions.TimeReportedTwice` | browser/browser_shutdown.cc:291-293 | any other read can lead to two reports of the time |
| `OverlappingSessions.SessionsAreProcesses` | browser/chrome_browser_main.cc:2057-2080 | every run of sessions one after another is a run of processes one at a time, with the split steps in order |
| `ProcessSingletonGate.DeliveredExactly` | browser/chrome_process_singleton.h:18-28 | nothing is delivered before the first Unlock; then one copy of each message that arrived under the lock, in order of first arrival, and all later ones; messages during a dialog are gone; further Unlocks change nothing |
| `ProcessSingletonGate.AllAcceptedIff` | browser/process_singleton_startup_lock.cc:23-39 | delivered followed by queued is everything accepted, in order, if and only if the lock is still held or no message was repeated under it |
| `ProcessSingletonGate.ProcessedExactly` | browser/chrome_browser_main.cc:535-570 | what is processed is exactly what had been delivered when the first Unpin or StartTearDown happened, or everything delivered if none has |
| `ProcessSingletonGate.NothingProcessedAfterShutdown` | browser/chrome_browser_main.cc:535-540 | once shutdown has begun no command line is processed, whatever arrives or is unlocked |
| `ClearSiteData.CallbackOnceAfterBothHalves` | browser/chrome_content_browser_client.cc:2757-2823 | for overlapping calls, all data types and every completion order: each callback runs at most once, exactly when both halves are over; no observer is used after it deleted itself; the remover is asked for the chosen types only; nothing outstanding means the callback has run |
| `ClearSiteData.AskedByType` | browser/chrome_content_browser_client.cc:2777-2822 | the remover is asked for cookies, channel ids and plugin data exactly if cookies were chosen, for storage and for the cache exactly if each was |
| `ClearSiteData.RepliesFinish` | browser/chrome_content_browser_client.cc:934-941 | once both halves are issued, the outstanding replies in either order run the callback and end the observer |
| `ApplicationLocale.LocalesAgree` | browser/chrome_content_browser_client.cc:995-1011 | the IO copy followed by the pending posts is the end of the UI history; with none pending both threads agree |
| `ApplicationLocale.IoReadsInOrder` | browser/chrome_content_browser_client.cc:1958-1962 | what the IO thread reads is an in-order selection from the UI history |
| `ApplicationLocale.CopyChangesOnItsThread` | browser/chrome_content_browser_client.cc:995-1011 | before the IO thread exists a change reaches its copy at once; afterwards only tasks on the IO thread change the copy |
| `ApplicationLocale.IoCatchesUp` | browser/chrome_content_browser_client.cc:752-755 | once the pending tasks have run the two copies agree on the UI thread's value |
| `LazyServices.BuiltOnceIff` | browser/browser_process_impl.cc:523-659 | over all runs a service is built at most once if and only if it has a flag, or its factory yields an object that tear-down does not reset |
| `LazyServices.FlaggedBuiltOnce` | browser/browser_process_impl.cc:556-659 | over any getter calls and shutdown phases a flagged service's factory runs at most once, even if it yielded nothing or was torn down, and whatever exists was built after its prerequisite |
| `LazyServices.RebuiltAfterTearDownIff` | browser/browser_process_impl.cc:292-376 | after tear-down the getter of an unflagged service that existed runs its factory again if and only if tear-down reset it, which spares only the background-mode manager |
| `LazyServices.BuiltInOrder` | browser/browser_process_impl.cc:1018-1031 | in every run the local state is built after the policy connector, the ruleset, metrics and time services after the local state, the background-mode manager after the profile manager |
| `LazyServices.RulesetServiceIff` | browser/browser_process_impl.cc:1205-1232 | once asked for, the ruleset service has been built exactly if its feature is on |
| `LazyServices.ShutdownResets` | browser/browser_process_impl.cc:292-395 | what the start of tear-down and the end of the threads reset, and that tear-down makes the local state if nobody did |
| `CertificateGroups.CertificateManagerModel.FilterAndBuildOrgGroupingMap` | browser/certificate_manager_model.cc:149-171 | each organisation's group gains exactly its selected certificates, in list order, extension certificates last and only for user certificates; no other entry appears or changes; all groups together grow by the number of selected certificates |
| `CertificateGroups.GroupHoldsItsOwn` | browser/certificate_manager_model.cc:160-161 | a group holds a certificate as often as it was selected if the organisation is its own, and not at all otherwise |
| `CertificateGroups.GroupedByFirstName` | browser/certificate_manager_model.cc:58-66 | a certificate is in the group of its first organisation name, or of its display name when that is missing or empty, and in no other new group |
| `CertificateGroups.SelectedExactly` | browser/certificate_manager_model.cc:152-162 | selected are the platform certificates of the wanted type, and for user certificates all of the extensions', each as often as listed |
| `CertificateGroups.SelectedInOrder` | browser/certificate_manager_model.cc:152-162 | they are selected in list order, the extensions' last |
| `JoinedSwitches.JoinIsLosslessIff` | browser/chrome_browser_main.cc:860-865 | splitting the joined value gives back the items if and only if none contains the separator |
| `JoinedSwitches.OriginTrialsArriveIff` | browser/chrome_browser_main.cc:849-886 | splitting the disabled features, and the disabled tokens, at the separator gives them back in order exactly when none of them contains it; unless the command line decided otherwise |
| `JoinedSwitches.BlinkSettingsArriveIff` | browser/chrome_content_browser_client.cc:1590-1654 | there is one setting for each parameter of the trials, key, "=" and value, in order; splitting the joined settings at the commas gives them back exactly when no key and no value contains a comma |
| `JoinedSwitches.OriginTrialsKeepSwitches` | browser/chrome_browser_main.cc:838-887 | no existing switch is touched, and setting up again changes nothing that was set |
| `JoinedSwitches.OriginTrialsAdd` | browser/chrome_browser_main.cc:838-887 | the public key is set as it is in the preferences, each list as soon as it has a string, nothing else is added |
| `JoinedSwitches.StringsKeepExactly` | browser/chrome_browser_main.cc:855-858 | a string item keeps its place among the strings; any other item leaves no trace |
| `AfterStartupTasks.StepConserves` | browser/after_startup_task_utils.cc:77-92 | each atomic step adds to queue, flights and handovers exactly the task it posts |
| `AfterStartupTasks.StepKeepsInv` | browser/after_startup_task_utils.cc:85-115 | the flag is checked again on the UI thread, so nothing enters the queue after it is set, and the queue is cleared when the flush ends |
| `AfterStartupTasks.CompleteIffSignalled` | browser/after_startup_task_utils.cc:94-107 | the flag is set exactly in the runs with a completion signal, repeated or not |
| `AfterStartupTasks.FlushHandsOverQueue` | browser/after_startup_task_utils.cc:106-114 | with other threads running all through it, the flush schedules the queue in queue order and leaves it empty |
| `AfterStartupTasks.StepExtendsLine` | browser/after_startup_task_utils.cc:85-110 | handovers followed by the waiting queue only grow at the end, except by another thread's direct post of its own task |
| `StartupObserver.SelectedIsFirstShowingOrLast` | browser/after_startup_task_utils.cc:164-172 | the first visible active page is watched, else the last browser's contents |
| `StartupObserver.GateRunOf` | browser/after_startup_task_utils.cc:127-131 | observers touch the gate only by completing it, so every run of the whole is a run of the gate with the same posts |
| `StartupObserver.SignalFlushesAndDeletes` | browser/after_startup_task_utils.cc:127-131 | from an observer's signal to its deletion there is exactly one whole flush |
| `RundownBarrier.StepKeepsInv` | browser/browser_process_impl.cc:438-461 | every step, with the increment and the post, and the decrement and the signal, as separate steps, keeps count, signals, references and runner order in line |
| `RundownBarrier.TimeoutAfterLastDecrement` | browser/browser_process_impl.cc:451-461 | a run in which the wait times out with count zero and nothing signalled |
| `RundownBarrier.ReleaseBeforeLastTaskReturns` | browser/browser_process_impl.cc:451-461 | a run in which the wait succeeds and the owner lets go while the last task is still inside the signal |
| `RundownBarrier.CommittersCount` | browser/browser_process_impl.cc:466-477 | one commit for each profile with preferences, on that profile's runner, and for no other |
| `RundownBarrier.ReturnedItemsAreDone` | browser/browser_process_impl.cc:443-448 | an item that returns is done and nothing else changes on the runners |
| `WebUiUrls.OverrideCanBreakIdempotence` | browser/chrome_content_browser_client.cc:603-619 | an override that breaks idempotence |
| `WebUiUrls.AboutSettles` | browser/browser_about_handler.cc:49-141 | the about handler moves a URL at most once |
| `WebUiUrls.GuestCanBreakIdempotence` | browser/chrome_content_browser_client.cc:622-664 | a guest's bookmarks page breaks idempotence when the new tab page is overridden |
| `ShutdownSessions.UnpairedIsReachable` | browser/browser_shutdown.cc:343-346 | such a state can be reached |
| `ShutdownSessions.WithdrawnOnDiskIsReachable` | browser/browser_shutdown.cc:349-364 | such a state can be reached |
| `OverlappingSessions.SharedRequestIsReachable` | browser/chrome_browser_main.cc:1031-1032 | a held, or withdrawn, request on disk is reached by an ordinary run |
| `OverlappingSessions.SharedTripleIsReachable` | browser/chrome_browser_main.cc:1477-1477 | so is a triple on disk that a process has still to report |
| `OverlappingSessions.StepKeepsRequestInv` | browser/browser_shutdown.cc:188-207 | every step keeps each request with one holder at most, and answered ones with none |
| `OverlappingSessions.OneAtATimeLoadsAlone` | browser/chrome_browser_main.cc:1534-1534 | processes one at a time load every request alone |
| `ProcessSingletonGate.RepeatedInvocationIsLost` | browser/process_singleton_startup_lock.cc:29-37 | two equal messages under the lock are delivered once |
| `ProcessSingletonGate.FirstOccurrencesIsIdentityIff` | browser/process_singleton_startup_lock.cc:33-36 | the replay drops nothing exactly when nothing repeats |
| `ClearSiteData.StepKeepsInv` | browser/chrome_content_browser_client.cc:922-947 | every step keeps each observer's count in line with its call |
| `ClearSiteData.CallsAreIndependent` | browser/chrome_content_browser_client.cc:2767-2770 | a step of one call leaves the others alone |
| `LazyServices.GetKeepsInv` | browser/browser_process_impl.cc:1018-1031 | nested getters end by rank and never come back to a service under construction |
| `CertificateGroups.SelectedIsGrouped` | browser/certificate_manager_model.cc:152-162 | no selected certificate is left out |
| `CertificateGroups.NoEmptyGroup` | browser/certificate_manager_model.cc:161-161 | a new group is not empty |
| `CertificateGroups.ExistingGroupsKept` | browser/certificate_manager_model.cc:149-171 | groups that were there keep what they had |
| `CertificateGroups.PushAllGrowsTotal` | browser/certificate_manager_model.cc:149-171 | grouping neither loses nor adds a certificate, whatever the map held |
| `AfterStartupTasks.AfterStartupTaskUtils.QueueTask` | browser/after_startup_task_utils.cc:77-92 | off the UI thread the task hops; on it, it is scheduled if the flag was set meanwhile and queued otherwise |
| `AfterStartupTasks.AfterStartupTaskUtils.SetBrowserStartupIsComplete` | browser/after_startup_task_utils.cc:94-115 | sets the flag, schedules the queue task by task and then clears it, with arbitrary steps of other threads between any two of these |
| `AfterStartupTasks.AfterStartupTaskUtils.PostTaskOnUi` | browser/after_startup_task_utils.cc:221-233 | posting on the UI thread is one step |
| `AfterStartupTasks.AfterStartupTaskUtils.PostTaskActs` | browser/after_startup_task_utils.cc:225-232 | off the UI thread a poster acts on the flag it read earlier, whatever happened since: a direct post, or a hop at the end of the UI loop |
| `StartupObserver.StartupMonitor.SelectContents` | browser/after_startup_task_utils.cc:164-172 | the selection loop computes that choice |
| `StartupObserver.StartupMonitor.StartMonitoringStartup` | browser/after_startup_task_utils.cc:158-191 | one more live observer, watching the selected contents, with a pending timer of three minutes if there are any and three seconds if not |
| `StartupObserver.StartupMonitor.OnStartupComplete` | browser/after_startup_task_utils.cc:127-131 | runs the whole flush, with other threads meanwhile, and only then deletes the observer |
| `StartupObserver.StartupMonitor.DidFinishOrFailLoad` | browser/after_startup_task_utils.cc:136-149 | the load or failure of a main frame completes start-up, flushes the queue and deletes the observer after its one signal; other frames do nothing |
| `StartupObserver.StartupMonitor.WebContentsDestroyed` | browser/after_startup_task_utils.cc:151-151 | the destruction of the watched contents completes start-up likewise |
| `StartupObserver.StartupMonitor.OnFailsafeTimeout` | browser/after_startup_task_utils.cc:133-133 | the timeout completes start-up while the observer lives, and does nothing afterwards |
| `RundownBarrier.EndingSession.Post` | browser/browser_process_impl.cc:438-449 | increments, and then posts a referenced rundown task behind everything the runner has by then, with other threads in between |
| `RundownBarrier.EndingSession.Decrement` | browser/browser_process_impl.cc:451-454 | decrements, and then signals if that made the count zero, with other threads in between |
| `RundownBarrier.EndingSession.TimedWait` | browser/browser_process_impl.cc:456-461 | with arbitrary steps of the rest of the process inside the decrement and during the wait, succeeds exactly if every rundown task has decremented and none has still to signal; the state is what those steps make it |
| `RundownBarrier.EndingSession.CommitProfiles` | browser/browser_process_impl.cc:466-477 | for every profile with preferences a commit with a rundown task behind it on the same runner, whatever runs in between |
| `WebUiUrls.WillHandleBrowserAboutURL` | browser/browser_about_handler.cc:45-142 | the branch chain computes the about rewriting |
| `WebUiUrls.HandleNewTabPageLocationOverride` | browser/chrome_content_browser_client.cc:604-619 | replaces exactly the chrome new tab page, and only when the policy names a location |
| `WebUiUrls.RemoveUberHost` | browser/chrome_content_browser_client.cc:572-601 | computes the removal |
| `WebUiUrls.HandleWebUI` | browser/chrome_content_browser_client.cc:622-664 | computes the WebUI rewriting, guest redirect included |
| `WebUiUrls.HandleWebUIReverse` | browser/chrome_content_browser_client.cc:668-680 | computes the reverse rewriting |
| `WebUiUrls.ChooseHostAndPath` | browser/browser_about_handler.cc:58-131 | host and path after the branch chain, and its early returns |
| `ShutdownSessions.BrowserShutdown.OnShutdownStarting` | browser/browser_shutdown.cc:113-144 | the loop over renderer hosts counts all and those that could not exit fast, once a session |
| `ShutdownSessions.BrowserShutdown.RecordShutdownInfoPrefs` | browser/browser_shutdown.cc:188-207 | records a measured triple and consumes the restart preference |
| `ShutdownSessions.BrowserShutdown.ReadLastShutdownInfo` | browser/browser_shutdown.cc:330-347 | clears the preferences it read and hands them to the FILE thread |
| `ShutdownSessions.BrowserShutdown.ReadLastShutdownFile` | browser/browser_shutdown.cc:284-328 | deletes the file and reports if type, time and count allow |
| `ShutdownSessions.BrowserShutdown.SetTryingToQuit` | browser/browser_shutdown.cc:349-369 | a cancelled quit withdraws the request and the background wish |
| `ShutdownSessions.BrowserShutdown.RestartFlags` | browser/chrome_browser_main.cc:2063-2073 | the background bit is set only with the restart bit |
| `ShutdownSessions.BrowserShutdown.PostDestroyThreads` | browser/chrome_browser_main.cc:2057-2080 | flags, relaunch and time file as one step of a session that no other process overlaps |
| `ShutdownSessions.BrowserShutdown.ShutdownPostThreadsStop` | browser/browser_shutdown.cc:209-276 | one relaunch if asked for, and the time file if there was something to measure |
| `ProcessSingletonGate.BrowserProcess.Notify` | browser/chrome_browser_main.cc:535-570 | refuses exactly when shutting down |
| `ProcessSingletonGate.ChromeProcessSingleton.Notify` | browser/process_singleton_modal_dialog_lock.cc:57-66 | discards during a dialog, else passes to the start-up lock; refuses only when unlocked and shutting down |
| `ProcessSingletonGate.ChromeProcessSingleton.ReplaySavedMessages` | browser/process_singleton_startup_lock.cc:29-37 | the loop with its set of replayed messages delivers first occurrences in order |
| `ProcessSingletonGate.ChromeProcessSingleton.Unlock` | browser/process_singleton_startup_lock.cc:23-39 | unlocks, replays and forgets what was saved |
| `ClearSiteData.BrowserClient.OnBrowsingDataRemoverDone` | browser/chrome_content_browser_client.cc:934-941 | counts down, and at zero runs the callback and deletes itself |
| `ClearSiteData.BrowserClient.RunHalf` | browser/chrome_content_browser_client.cc:2777-2822 | a half with nothing to remove completes at once, the other asks the remover; completions, and callbacks that start further calls, may happen meanwhile |
| `ClearSiteData.BrowserClient.ClearSiteData` | browser/chrome_content_browser_client.cc:2757-2823 | on return the callback has run exactly if nothing of the call is outstanding, whatever completed or was started meanwhile |
| `ApplicationLocale.Browser.SetApplicationLocale` | browser/browser_process_impl.cc:737-745 | posts to the IO thread, or sets its copy when there is none |
| `LazyServices.BrowserProcessImpl.GetLocalState` | browser/browser_process_impl.cc:571-576 | sets its flag, gets the policy connector, then builds |
| `LazyServices.BrowserProcessImpl.GetSubresourceFilterRulesetService` | browser/browser_process_impl.cc:1205-1232 | builds after the local state, or never without the feature |
| `LazyServices.BrowserProcessImpl.StartTearDown` | browser/browser_process_impl.cc:292-376 | resets services but no flag |
| `JoinedSwitches.SwitchSetup.AppendJoined` | browser/chrome_browser_main.cc:849-867 | the loop joins the string items of a list |
| `JoinedSwitches.SwitchSetup.SetupOriginTrialsCommandLine` | browser/chrome_browser_main.cc:838-887 | the three switches in order |
| `JoinedSwitches.SwitchSetup.MaybeAppendBlinkSettings` | browser/chrome_content_browser_client.cc:1590-1654 | collects the parameters of every trial, and appends them only if neither command line decided |

## Left out

- Deferred exit on POSIX signals (browser/chrome_browser_main_posix.cc): counting arguments over independent handlers that would only add easy members.
- The relaunch command line and `RestartBackgroundInstance`: copying and filtering of switches; the filters themselves are not in the repository.
- `GuestPermissionRequestHelper` and `FileSystemAccessed`: fan-out over frames without further state.
- Random delays of scheduled tasks, wall-clock time and timeouts: only "timer pending", "timer fired" and "the wait ended" are kept.
- Platforms where `EndSession` does not wait, and ChromeOS, which does not commit the local state there: the excess count is then never dropped and nothing is promised.
- `PostNonNestableTask` against nested message loops: a runner runs one item at a time.
- Corrupt preference values (a shutdown type outside its enumeration) and a failing delete of the time file.
- The stop of the IO thread at shutdown: pending locale posts are then dropped, and nobody reads the IO copy any more.
- The remaining lazy services, whose getters have the same two shapes, and the order of destruction.
- `search::HandleNewTabURLRewrite`, which sits between the modelled handlers, is not part of this model; neither are extra handlers registered by parts.
- Aliasing through in/out pointers (`GURL*`, the caller's grouping map) and through self-deleting heap objects: the pointed-to value is a field, a value or a result, and "alive" is part of the state.
- `OverlappingSessions` has no class of its own: it is about the same code as the class `BrowserShutdown`, run by several processes, and is modelled on values.
- Invalid URLs after host replacement, user names and ports.
- UnsafeResetForTesting, histograms other than as "a report was made", tracing and crash keys.
