# Verified models of imauth

imauth logs users in through a shared pool of Chrome browsers and keeps the cookies of each login. This project models
the parts of it where the order of events decides what is true, and proves what those parts promise, for every order.
Every file is a Dafny 4.11 module; `dafny verify dfyconfig.toml` checks them all.

**The login protocol.** Any number of logins, cancels (a row delete), cookie updates and writes that land late run
against one session table and one cookie table. `LoginProtocol` is the step relation, with a clock and with writes that
stay in flight after their caller stopped waiting. `LoginSafety` and `LoginTheorems` hold the invariant, `LoginPromises`
what a report to the client means, `LoginDecisions` which step decides a login and that the report is that decision,
`LoginStages` what the row says meanwhile, `LoginCauses` that timers run their time and that what is read was so,
`LoginTiming` the worst-case duration, `LoginLateCommit` when exactly a reported failure can still be wrong, and
`LoginRace` a run on which it is. `LoginUseCases` is the same login as the imperative code writes it, with its poll
loop, error counter and recheck loop; after every call it has consumed a prefix of a script of awaits and is where the
moves in it lead. `LoginRefinement` gives every login of every protocol run its script and shows that the code, run on
it, ends with that login's session and cookies.

**The two tables.** `Tables` and `SessionRepository` are the rows and statements, `CookieRepository` the encrypted
cookie table that refines a plain map, with its lazy migration of old plaintext, `CookieRoundTrip` says that what is
saved is what is read. `Domain`, `Classification` and `Validation` say what makes a login, and tie the classification of
cookies to what is still valid after storage.

**The browser engine** (the patched chromiumoxide). `FrameTree`, `FrameEvents` and `FrameManagement` are the frame map,
its recursive deletion and the queue of navigations; `FrameLoading` shows that a loaded tree is exactly the tree given,
`FrameReloads` what a reported new document means, `FrameResults` what every result of a navigation means, `FrameFacts`
that what is known of a frame is what was said of it last. `HandlerEvents`, `HandlerSafety` and `HandlerManagement` are
the handler that joins the two halves of a navigation and owns every reply sender; `HandlerAnswers` says which
navigations are answered, `HandlerReplies`, `HandlerCommands`, `HandlerPages` and `HandlerNavigations` what every sender
is told. `NetworkEvents` and `NetworkManagement` join intercepted requests, keep redirect chains and switch
interception; `NetworkReports` and `NetworkMessages` say what is known and what is queued, exactly. `TargetInit` and
`TargetManagement` drive a new target through its command chains, `TargetPolls` says what a poll hands out and how long
it waits. `Listeners` are the event subscriptions; `Passes` is the vector pass they share with the handler.

**The browser pool.** `SlotAcquisition` is the slot loop with its time bound and the preparation budget built on it.
`SlotPermits`, `PermitSafety` and `PermitTheorems` follow each slot's permit and each login tab through callers,
sessions and detached cleanups, any of which may be dropped at any await. `SlotScans` shows that a scan leaves no slot
out, `BrowserSessions` are the session's own calls.

**The desktop supervisor.** `LifecycleEvents` and `LifecycleManagement` are the leases, the idle monitor, the start
cooldown and the desktop process; `DesktopState` says when a desktop is up and whose it is; `OwnedProcesses` is the walk
over a process table.

Most parts come in two layers. A value layer says what one event does and proves what every sequence of events keeps. A
class with the source's own fields changes in place, and each method is proved to do to its abstract value exactly what
that layer says, so the theorems hold of the object. Histories (what was sent, answered, stopped) are part of the
abstract value only: no decision depends on them.

Where a promise fails, the code is kept and the exact condition is proved: `FrameEvents.TreeOnEveryRun` (the panic after
a detached main frame), `NetworkEvents.OrderMattersExactlyWhen`, `NetworkEvents.CacheCommandRightExactlyWhen`,
`NetworkEvents.ClearedExactlyWhen`, `LoginLateCommit.LateCommitExactlyWhen`, `HandlerSafety.PanicsExactlyWhen`,
`Validation.ValidExactlyWhenOneSurvives`, `CookieRepository.LegacyTableReadsBackExactlyWhen`,
`PermitTheorems.UnknownExactlyWhen`, `SlotAcquisition.BudgetFiresFirstExactlyWhen`,
`HandlerAnswers.AnsweredExactlyWhen`, `DesktopState.RunningAgreesExactlyWhen`, `DesktopState.UpAfterCloseExactlyWhen` (a
close does not keep the desktop down), `DesktopState.HolderKeepsDesktopExactlyWhen`,
`OwnedProcesses.NeverEndsExactlyWhen`.

Two remarks in the source do not match its code. `_start_shared` in `scripts/chrome-runtime.py:61-69` waits while
another start runs, but the lock is held all through a start, so that wait is never reached
(`LifecycleEvents.LeasesCounted`). The comment at `crates/imauth-core/src/application/login.rs:203-206` says that the
recheck keeps the failed update from racing a commit; it makes that unlikely, not impossible
(`LoginRace.FailedButCommitted`).

## Model

| member | source | states |
|---|---|---|
| LoginTheorems.StepKeepsInv | crates/imauth-core/src/application/login.rs:62-265 | every step of any login, of the database or of a caller keeps what is known of each login and its row |
| LoginTheorems.InvOnEveryRun | crates/imauth-core/src/application/login.rs:62-265 | that invariant holds in every state of every interleaving of logins, cancels, cookie updates and late writes |
| LoginPromises.OnlySaveLoginConnects | crates/imauth-core/src/adapters/sqlite/cookie_repo.rs:125-167 | a row becomes `connected` only by the login transaction of that very login, on a non-terminal row of its platform, together with its cookies |
| LoginPromises.SaveLoginAllOrNothing | crates/imauth-core/src/adapters/sqlite/cookie_repo.rs:125-167 | when the transaction lands, it switches the row and stores the cookies if the row is there, of the platform and not terminal; otherwise neither table moves, and it never will |
| LoginPromises.FinalConnectedWasCommitted | crates/imauth-core/src/application/login.rs:189-239 | a final "connected" with some cookies implies one earlier step that committed the row and exactly those cookies |
| LoginPromises.FinalStays | crates/imauth-core/src/application/login.rs:110-134 | a final report is never revised |
| LoginPromises.ReportIsExact | crates/imauth-core/src/application/login.rs:189-239 | without a persistence timeout, "connected" is reported if and only if the login was committed, now or at any later time |
| LoginPromises.ConnectionLasts | crates/imauth-core/src/adapters/sqlite/session_repo.rs:77-106 | after a reported connection the row stays `connected` until it is deleted |
| LoginPromises.DeletedNeverReappears | crates/imauth-core/src/adapters/sqlite/session_repo.rs:77-106 | a deleted row never comes back, whatever was in flight |
| LoginPromises.CancelBeforeCommitWins | crates/imauth-core/src/application/login/control.rs:44-53 | a row deleted before the commit means that the login never commits |
| LoginPromises.CancelRemoves | crates/imauth-core/src/adapters/sqlite/session_repo.rs:100-106 | a cancel takes the row of that session away and nothing else |
| LoginPromises.PushStoresOwn | crates/imauth-core/src/application/cookies.rs:42-45 | an update of cookies stores those of the platform and touches nothing else: a cookie of another site is never stored |
| LoginDecisions.DecidedExactlyWhen | crates/imauth-core/src/application/login.rs:62-265 | on every run a login is being ended if and only if one of its steps has decided it, and it carries that decision, in the words of the message, to the end |
| LoginDecisions.ReportsTheDecision | crates/imauth-core/src/application/login.rs:102-134 | a final report is a decision taken before: cookies with "connected", or the reason with "failed" and no cookies |
| LoginDecisions.TimedOutSaveExactly | crates/imauth-core/src/application/login.rs:202-239 | a login whose save timed out is reported connected if and only if a recheck was answered with the committed row |
| LoginDecisions.ReportedCookiesWereRead | crates/imauth-core/src/application/login.rs:176-190 | the cookies of a "connected" report were read from the browser at an earlier step and made a login of that platform |
| LoginDecisions.DeliveredExactlyWhen | crates/imauth-core/src/application/login.rs:129-134 | a login is over with its final message delivered if and only if a step sent the message to a client that listened |
| LoginStages.RowSaysTheStage | crates/imauth-core/src/application/login.rs:143-168 | while the page is opened the row says `loading`, while the user is awaited `waiting_for_user` with its input and text, if the row is still there |
| LoginCauses.BiasedRace | crates/imauth-core/src/application/login/control.rs:31-42 | an operation under control ends only while the client listens and before its deadline; the deadline only once it has passed; the deleted row only if it is gone |
| LoginCauses.ReadingsAreTrue | crates/imauth-core/src/application/login.rs:176-220 | whatever a login reads of its row, or of its absence, was so at an earlier moment |
| LoginCauses.TimerWasSet | crates/imauth-core/src/application/login.rs:102-237 | every pause and every limit of 5 s counts from the moment the login got to the point where it waits |
| LoginCauses.NoEarlyTimer | crates/imauth-core/src/application/login.rs:62-237 | and is used only when it is up |
| LoginCauses.PreparationCounts | crates/imauth-core/src/application/login.rs:62-63 | the preparation deadline counts from the beginning of the login |
| LoginCauses.PageCounts | crates/imauth-core/src/application/login.rs:143-147 | page creation has its own limit from the moment the browser is there, within that of preparation |
| LoginCauses.LoginCounts | crates/imauth-core/src/application/login.rs:169-173 | the user has the login time from the moment he was told |
| LoginLateCommit.LateCommitExactlyWhen | crates/imauth-core/src/application/login.rs:189-239 | a login that reports "failed" can turn out committed, on some continuation, if and only if at that moment its transaction has landed, or is still in flight and the row is there, of its platform and not terminal |
| LoginRace.FailedButCommitted | crates/imauth-core/src/application/login.rs:202-237 | such a report is reached: a run in which the save times out, the recheck cannot read the row and the transaction lands late; the cookies are stored and the row ends as `failed` |
| LoginTiming.ExecuteIsBounded | crates/imauth-core/src/application/login.rs:62-134 | in every reachable timed state a running login is at most max(5 s, preparation) + login limit + 46 s old |
| LoginTiming.TimerAlwaysFires | crates/imauth-core/src/application/login.rs:189-265 | a login whose timer is up always has a move, so the bound is not met by stopping the clock |
| LoginUseCases.LoginUseCase.constructor | crates/imauth-core/src/application/login.rs:62-64 | the code starts at the start of the protocol |
| LoginUseCases.LoginUseCase.Run | crates/imauth-core/src/application/login/control.rs:31-42 | takes the next turn of the script and makes its move; interrupted by cancellation or deadline if and only if the turn says so, with the failure of that stage |
| LoginUseCases.LoginUseCase.Recheck | crates/imauth-core/src/application/login.rs:202-237 | success, with the cookies of the login, if and only if one of its looks showed the row connected; failure only after five looks or one that showed no row; at most ten turns of the script, none lost |
| LoginUseCases.LoginUseCase.LookAgain | crates/imauth-core/src/application/login.rs:207-237 | one look: success if and only if it showed the row connected, failure if and only if it showed no row, failed or took too long, and otherwise another look |
| LoginUseCases.LoginUseCase.RecheckOnce | crates/imauth-core/src/application/login.rs:207-237 | one look and, unless it settles the matter, the pause after it |
| LoginUseCases.LoginUseCase.Persist | crates/imauth-core/src/application/login.rs:189-239 | consumes a prefix of the script and is then where the moves in it lead; the result is that of the save, or of the rechecks after a timeout; none only if the script ended before it was known |
| LoginUseCases.LoginUseCase.ReadCookies | crates/imauth-core/src/application/login.rs:176-252 | consumes a prefix of the script and is then where the moves in it lead; one poll: errors are counted, a good read clears the counter, three errors ask for a reconnect, and a login is stored |
| LoginUseCases.LoginUseCase.PollForLogin | crates/imauth-core/src/application/login.rs:169-265 | consumes a prefix of the script and is then where the moves in it lead; the poll loop with its error counter and reconnects ends with the result of the login, or with the script |
| LoginUseCases.LoginUseCase.CreatePage | crates/imauth-core/src/application/login.rs:143-153 | consumes a prefix of the script and is then where the moves in it lead; page creation under its own limit and the loading update |
| LoginUseCases.LoginUseCase.Navigate | crates/imauth-core/src/application/login.rs:154-161 | consumes a prefix of the script and is then where the moves in it lead; navigation and the waiting update |
| LoginUseCases.LoginUseCase.LoginInBrowser | crates/imauth-core/src/application/login.rs:136-265 | consumes a prefix of the script and is then where the moves in it lead; its result is the outcome with which the browser is about to be closed |
| LoginUseCases.LoginUseCase.CloseAndRecord | crates/imauth-core/src/application/login.rs:102-127 | consumes a prefix of the script and is then where the moves in it lead; the browser is closed whatever the result, and a failure is recorded in session and row before the final message |
| LoginUseCases.LoginUseCase.Execute | crates/imauth-core/src/application/login.rs:62-134 | for every script: session and cookies told are those of the point where the whole script leads, and the call is over if and only if that point is final |
| LoginRefinement.EveryLoginHasAScript | crates/imauth-core/src/application/login.rs:62-265 | every login of every protocol run, from the moment it began, is a script: its own moves in order, which lead where it is |
| LoginRefinement.Replay | crates/imauth-core/src/application/login.rs:62-134 | the code run on the script of a login of a protocol run ends if and only if that login has ended, with its session, and tells the client exactly its cookies |
| Tables.SessionRoundTrip | crates/imauth-core/src/adapters/sqlite/session_repo.rs:21-75 | an inserted session is read back with its instants cut to whole seconds |
| Tables.SaveCookiesRows | crates/imauth-core/src/adapters/sqlite/cookie_repo.rs:69-106 | last write wins for each (platform, name, domain); other rows stay |
| SessionRepository.SqliteSessionRepository.Create | crates/imauth-core/src/adapters/sqlite/session_repo.rs:21-39 | insert, refused when the id is there |
| SessionRepository.SqliteSessionRepository.Get | crates/imauth-core/src/adapters/sqlite/session_repo.rs:41-75 | reads a row, nothing, or an error for an unknown status |
| SessionRepository.SqliteSessionRepository.Update | crates/imauth-core/src/adapters/sqlite/session_repo.rs:77-98 | unguarded update of an existing row |
| SessionRepository.SqliteSessionRepository.Delete | crates/imauth-core/src/adapters/sqlite/session_repo.rs:100-106 | removes the row |
| SessionRepository.UpdateKeepsOwner | crates/imauth-core/src/adapters/sqlite/session_repo.rs:77-98 | an update adds no row, leaves platform, creation time and every other row alone, and is what is read afterwards |
| CookieRepository.SaveRefinesPlainMap | crates/imauth-core/src/adapters/sqlite/cookie_repo.rs:69-106 | saving encrypted cookies is saving into a plain map |
| CookieRepository.MigrationIsInvisible | crates/imauth-core/src/adapters/sqlite/cookie_repo.rs:44-67 | lazy migration never changes what is read, even if a newer value landed in between |
| CookieRepository.LegacyTableReadsBackExactlyWhen | crates/imauth-core/src/adapters/sqlite/cookie_repo.rs:22-67 | a whole table from before encryption keeps its meaning if and only if no value in it begins with the marker |
| CookieRepository.SqliteCookieRepository.SaveCookiesInTransaction | crates/imauth-core/src/adapters/sqlite/cookie_repo.rs:69-106 | the upsert loop yields the saved view, writes sealed values only and touches no other row; it gives up if and only if a value cannot be encrypted or a statement is refused |
| CookieRepository.SqliteCookieRepository.Save | crates/imauth-core/src/adapters/sqlite/cookie_repo.rs:113-123 | all cookies are saved, or, if and only if a statement or the transaction fails, the table is as before |
| CookieRepository.SqliteCookieRepository.SaveLogin | crates/imauth-core/src/adapters/sqlite/cookie_repo.rs:125-167 | cookies and row change together as in the plain tables, or not at all; refused if and only if the session is not a plain connected one, its row does not accept it, or a statement or the transaction fails |
| CookieRepository.SqliteCookieRepository.MigratePlaintext | crates/imauth-core/src/adapters/sqlite/cookie_repo.rs:44-67 | the guarded rewrite keeps the view and leaves no row with the plaintext read, unless its encryption or statement fails |
| CookieRepository.SqliteCookieRepository.CookieFromRow | crates/imauth-core/src/adapters/sqlite/cookie_repo.rs:22-42 | a row is decoded to the cookie it stands for, migrating as it goes; an error if and only if it cannot be decrypted or its migration fails |
| CookieRepository.SqliteCookieRepository.Get | crates/imauth-core/src/adapters/sqlite/cookie_repo.rs:169-201 | returns the selected rows of the moment of the query, each once, whatever lands meanwhile; an error if and only if the query fails or one of them is unreadable |
| CookieRepository.SqliteCookieRepository.SaveOne | crates/imauth-core/src/adapters/sqlite/cookie_repo.rs:76-103 | one upsert: the value is sealed and reads back, no other row is touched |
| CookieRoundTrip.SavedReadsBack | crates/imauth-core/src/adapters/sqlite/cookie_repo.rs:69-106 | whatever was there, the last cookie of a name and domain reads back field by field as it was given, its expiry cut to whole seconds |
| CookieRoundTrip.SaveThenGet | crates/imauth-core/src/adapters/sqlite/cookie_repo.rs:113-201 | after a save every such cookie is returned by the next read, once, with the same name, value, domain, path and flags |
| CookieRoundTrip.LoginThenGet | crates/imauth-core/src/adapters/sqlite/cookie_repo.rs:125-201 | the same for the cookies of a login |
| Domain.FilterKeepsSessionCookie | crates/imauth-core/src/domain/platform.rs:81-110 | filtering never changes which session cookie is found |
| Domain.FilterExact | crates/imauth-core/src/domain/platform.rs:81-86 | the filter keeps exactly the matching cookies and is idempotent |
| Domain.ActiveCookieFound | crates/imauth-core/src/domain/platform.rs:116-122 | an active cookie is found if and only if there is one, and what is found is active |
| Domain.DomainMatchIsLabelSuffix | crates/imauth-core/src/domain/platform.rs:73-79 | the textual domain test is the label-suffix rule of section 5.1.3 of RFC 6265 for host names |
| Domain.CookieMatchesByLabels | crates/imauth-core/src/domain/platform.rs:73-79 | a cookie belongs to a platform if and only if one of its domains ends the labels of the cookie domain |
| Classification.SessionCookieExactly | crates/imauth-core/src/domain/platform.rs:88-114 | a session cookie is found if and only if the cookies the platform needs are living in the list, for Novelpia both keys and the lasting cookie or the marker, and it is the first of its name |
| Classification.ClassifiedExactly | crates/imauth-core/src/domain/auth.rs:11-17 | cookies make a login if and only if that holds, and the login carries exactly the cookies of the platform, in their order |
| Classification.CanonicalExactly | crates/imauth-core/src/domain/platform.rs:73-79 | domains are compared without regard to case and leading dots, and otherwise as they are |
| Classification.CookieIsOwnExactly | crates/imauth-core/src/domain/platform.rs:50-79 | a cookie is a platform's if and only if one of these names ends its domain, label by label |
| Classification.StatusExactly | crates/imauth-core/src/domain/session.rs:34-46 | a stored status stands for a state if and only if it is its word |
| Validation.ValidatesExactly | crates/imauth-core/src/application/cookies.rs:71-81 | validation tells whether the stored cookies make a login, and the second at which the first living cookie that stands for it expires |
| Validation.ValidExactlyWhenOneSurvives | crates/imauth-core/src/application/cookies.rs:71-81 | for single-cookie platforms, validation succeeds from every earlier store if and only if a session cookie survives storage |
| Validation.ConnectedThenValid | crates/imauth-core/src/domain/auth.rs:11-17 | distinct whole-second cookies classified as a login validate at the same instant after being saved into any store |
| Validation.FilterKeepsDistinct | crates/imauth-core/src/domain/platform.rs:81-86 | filtering keeps (name, domain) pairs distinct |
| Validation.LastHalfSecondIsLost | crates/imauth-core/src/application/cookies.rs:71-81 | a cookie in its last half second is a login that fails validation: why whole seconds are needed |
| FrameTree.Acyclic | patches/chromiumoxide/src/handler/frame.rs:67-81 | in a tree no frame is below itself |
| FrameTree.ChildSubtreeShrinks | patches/chromiumoxide/src/handler/frame.rs:260-269 | a child has strictly fewer frames below it: the recursions end |
| FrameTree.RemovalKeepsTree | patches/chromiumoxide/src/handler/frame.rs:517-531 | cutting a subtree leaves a tree, or nothing when the root is cut |
| FrameEvents.LifecycleCoversSubtree | patches/chromiumoxide/src/handler/frame.rs:260-269 | the recursive check holds if and only if every frame of the subtree has settled |
| FrameEvents.TreeOnEveryRun | patches/chromiumoxide/src/handler/frame.rs:359-418 | after every event sequence the map is a tree rooted at the main frame unless the main frame was detached; the `expect` fails exactly when a top navigation follows such a detachment |
| FrameLoading.SubtreeLoaded | patches/chromiumoxide/src/handler/frame.rs:359-370 | loading a subtree below a known frame adds exactly its frames with their parents |
| FrameLoading.LoadsExactlyTheTree | patches/chromiumoxide/src/handler/frame.rs:359-370 | whatever was known before, loading a frame tree leaves exactly its frames, each below the parent the tree gives it |
| FrameEvents.StepFromTree | patches/chromiumoxide/src/handler/frame.rs:359-418 | one event on a tree gives a tree, or detaches the main frame |
| FrameEvents.StepFromDetached | patches/chromiumoxide/src/handler/frame.rs:388-418 | what one event does once the main frame is detached, the panic included |
| FrameEvents.NavigationsInOrder | patches/chromiumoxide/src/handler/frame.rs:300-352 | navigations run one at a time, first come first served, with at most one result after each request, and that of the same navigation |
| FrameReloads.WatchersOnEveryRun | patches/chromiumoxide/src/handler/frame.rs:300-352 | on every run each watcher, waiting or in use, is the one queued by the navigation of its place in the order of acceptance, with the loader its frame had at that moment |
| FrameReloads.LoaderChangesBecause | patches/chromiumoxide/src/handler/frame.rs:388-418 | if a frame has another loader than at an earlier moment, then since that moment it got it from its own `init` event or as the new main frame, or, having none, it was removed |
| FrameReloads.NewDocumentMeansReloaded | patches/chromiumoxide/src/handler/frame.rs:271-328 | on every run a new-document result means: the navigation of that place was queued for a frame, whose loader has changed since then for one of those reasons, and every frame below it has settled |
| FrameResults.ResultsExactly | patches/chromiumoxide/src/handler/frame.rs:271-337 | on every run the poll of a running navigation reports a timeout, a missing frame, a stay in the document, a new document or nothing, each if and only if its condition on time, tree, events and loader holds |
| FrameResults.SentWasAsked | patches/chromiumoxide/src/handler/frame.rs:328-352 | what is sent to the browser is what was asked for at that place in the order, for the frame that is watched |
| FrameFacts.KnownExactlyWhen | patches/chromiumoxide/src/handler/frame.rs:388-440 | on every run loader, url, name, load events and request of a frame are so if and only if an event said so and nothing has outdated it or removed the frame since; a `load` that counts is younger than the last start of loading |
| FrameManagement.FrameManager.RemoveFramesRecursively | patches/chromiumoxide/src/handler/frame.rs:517-531 | terminates and removes exactly the subtree of its argument |
| FrameManagement.FrameManager.RemoveChildren | patches/chromiumoxide/src/handler/frame.rs:517-531 | the shared child loop removes exactly the subtrees of the children |
| FrameManagement.FrameManager.OnFrameTree | patches/chromiumoxide/src/handler/frame.rs:359-370 | loads a tree of frames, parent before child, or panics as its events do |
| FrameManagement.FrameManager.OnFrameAttached | patches/chromiumoxide/src/handler/frame.rs:372-382 | links a new frame below its known parent; an id already there, or an unknown parent, changes nothing |
| FrameManagement.FrameManager.OnFrameDetached | patches/chromiumoxide/src/handler/frame.rs:384-386 | the frame and all below it leave the map, and the tree stays a tree |
| FrameManagement.FrameManager.OnFrameNavigated | patches/chromiumoxide/src/handler/frame.rs:388-418 | a child keeps its place without its old children, a main frame is renamed and stands alone; panics exactly when the model does |
| FrameManagement.FrameManager.OnFrameNavigatedWithinDocument | patches/chromiumoxide/src/handler/frame.rs:420-427 | only the url of that frame and the mark of a watcher on it change |
| FrameManagement.FrameManager.OnFrameStoppedLoading | patches/chromiumoxide/src/handler/frame.rs:429-433 | only that frame gets the two load events |
| FrameManagement.FrameManager.OnFrameStartedLoading | patches/chromiumoxide/src/handler/frame.rs:436-440 | that frame alone forgets its load events and its request |
| FrameManagement.FrameManager.OnPageLifecycleEvent | patches/chromiumoxide/src/handler/frame.rs:506-515 | records an event of that frame; `init` sets its loader and forgets the earlier events |
| FrameManagement.FrameManager.OnHttpRequestFinished | patches/chromiumoxide/src/handler/frame.rs:292-298 | only the frame of the request remembers it |
| FrameManagement.FrameManager.GotoPage | patches/chromiumoxide/src/handler/frame.rs:339-343 | queues a navigation of the main frame, or drops it when there is none |
| FrameManagement.FrameManager.NavigateTo | patches/chromiumoxide/src/handler/frame.rs:346-352 | queues a navigation with the loader of that moment |
| FrameManagement.FrameManager.PollNavigation | patches/chromiumoxide/src/handler/frame.rs:300-337 | takes the poll step: timeout, frame gone, completion, or the next queued navigation |
| FrameManagement.FrameManager.CheckLifecycleComplete | patches/chromiumoxide/src/handler/frame.rs:271-290 | reports what the completion rule says |
| HandlerSafety.StepKeeps | patches/chromiumoxide/src/handler/mod.rs:148-396 | every event, in every order, keeps each reply sender in one place, ids fresh, and both halves of a navigation accounted for |
| HandlerSafety.InvOnEveryRun | patches/chromiumoxide/src/handler/mod.rs:148-396 | that holds in every state of every run |
| HandlerSafety.AnsweredAtMostOnce | patches/chromiumoxide/src/handler/mod.rs:148-336 | each sender is answered at most once, and an answered one waits nowhere |
| HandlerSafety.SuccessNeedsBoth | patches/chromiumoxide/src/handler/mod.rs:148-193 | a navigation told "ok" got that very response to its own call and its own lifecycle completion, both earlier |
| HandlerSafety.EvictionExact | patches/chromiumoxide/src/handler/mod.rs:482-517 | after an eviction exactly the commands within the timeout are pending, unchanged |
| HandlerSafety.KnownExactlyWhen | patches/chromiumoxide/src/handler/mod.rs:424-477 | on every run a target is known if and only if it was announced, by its event or a target list, and not destroyed after that |
| HandlerSafety.PanicsExactlyWhen | patches/chromiumoxide/src/handler/mod.rs:196-212 | on every run the one panic is the reply to a page creation that names a target never announced, or destroyed after it was announced last |
| HandlerSafety.PanicIsReached | patches/chromiumoxide/src/handler/mod.rs:196-212 | a run of three events after which the reply panics: the page is closed before the reply to its creation is read |
| HandlerAnswers.AnsweredExactlyWhen | patches/chromiumoxide/src/handler/mod.rs:148-193 | on every run the sender of a navigation has its answer if and only if since it asked the navigation failed, a call of it was evicted, or its response and its lifecycle completion have both come; so which navigations wait for ever |
| HandlerReplies.StepTells | patches/chromiumoxide/src/handler/mod.rs:148-517 | one event tells exactly the senders it should, and each the right answer |
| HandlerCommands.CommandToldExactly | patches/chromiumoxide/src/handler/mod.rs:196-257 | on every run the sender of a command is told an answer if and only if it is what the reply to its own pending call means, a timeout of that call, or what the page it waits for hands out |
| HandlerCommands.ExternalCommandTold | patches/chromiumoxide/src/handler/mod.rs:243-245 | the sender of an ordinary command is told a reply if and only if that reply came in for its own pending call, and a timeout if and only if the call was evicted |
| HandlerCommands.PendingExactlyWhen | patches/chromiumoxide/src/handler/mod.rs:482-517 | a call is pending as long as no reply to it came in and no eviction found it too old |
| HandlerPages.WaitsExactlyWhen | patches/chromiumoxide/src/handler/mod.rs:196-212 | whoever asked for a page waits at a target if and only if the reply to its call named it and nothing has displaced it there since |
| HandlerPages.PageToldExactly | patches/chromiumoxide/src/handler/mod.rs:583-600 | a page is handed to whoever asked for it if and only if its target answers while it still waits there |
| HandlerPages.RefusedPageTold | patches/chromiumoxide/src/handler/mod.rs:371-396 | a page with a bad url is refused, and its sender is told nothing else |
| HandlerPages.ClosingExactlyWhen | patches/chromiumoxide/src/handler/mod.rs:246-257 | the handler is closing if and only if the reply to a close has come in |
| HandlerNavigations.NavigationToldExactly | patches/chromiumoxide/src/handler/mod.rs:148-193 | on every run the sender of a navigation is told an answer if and only if it is its failure, the timeout of its call, or the last response to its call once the page has finished, whichever comes first |
| HandlerManagement.PathKeeps | patches/chromiumoxide/src/handler/mod.rs:424-445 | the invariant holds all along the steps of a polling pass |
| HandlerManagement.Handler.constructor | patches/chromiumoxide/src/handler/mod.rs:91-126 | a new handler is good |
| HandlerManagement.Handler.NextCallId | patches/chromiumoxide/src/conn.rs:59-63 | hands out the next call id |
| HandlerManagement.Handler.Submit | patches/chromiumoxide/src/conn.rs:67-82 | a submitted call is pending under its fresh id |
| HandlerManagement.Handler.SubmitExternalCommand | patches/chromiumoxide/src/handler/mod.rs:260-273 | the sender moves from the caller to one new pending call |
| HandlerManagement.Handler.SubmitInternalCommand | patches/chromiumoxide/src/handler/mod.rs:275-291 | one new pending call that owns no sender |
| HandlerManagement.Handler.SubmitFetchTargets | patches/chromiumoxide/src/handler/mod.rs:293-303 | the sender moves to one new pending call |
| HandlerManagement.Handler.SubmitNavigation | patches/chromiumoxide/src/handler/mod.rs:307-319 | one new pending call that points at its navigation; the sender stays there |
| HandlerManagement.Handler.SubmitClose | patches/chromiumoxide/src/handler/mod.rs:321-336 | the sender moves to one new pending call |
| HandlerManagement.Handler.StartNavigation | patches/chromiumoxide/src/handler/mod.rs:339-360 | a page navigation waits for both answers under a fresh id |
| HandlerManagement.Handler.CreatePage | patches/chromiumoxide/src/handler/mod.rs:371-396 | submits the creation, or refuses a bad url at once |
| HandlerManagement.Handler.OnNavigationResponse | patches/chromiumoxide/src/handler/mod.rs:148-162 | the response half of a navigation |
| HandlerManagement.Handler.OnNavigationLifecycleCompleted | patches/chromiumoxide/src/handler/mod.rs:165-193 | the lifecycle half of a navigation, good or bad |
| HandlerManagement.Handler.OnResponse | patches/chromiumoxide/src/handler/mod.rs:196-257 | dispatches a reply by what its call was for, or panics |
| HandlerManagement.Handler.OnTargetCreated | patches/chromiumoxide/src/handler/mod.rs:424-445 | the target is known and listed; a sender waiting at a target of that id is dropped |
| HandlerManagement.Handler.OnTargetDestroyed | patches/chromiumoxide/src/handler/mod.rs:469-477 | the target is unknown and the sender waiting for its page is dropped |
| HandlerManagement.Handler.FetchTargets | patches/chromiumoxide/src/handler/mod.rs:216-233 | announces every listed target, in order |
| HandlerManagement.Handler.Overdue | patches/chromiumoxide/src/handler/mod.rs:482-489 | collects exactly the overdue calls, each once, in any order |
| HandlerManagement.Handler.EvictTimedOutCommands | patches/chromiumoxide/src/handler/mod.rs:482-517 | takes the eviction step |
| HandlerManagement.Handler.OnTargetEvent | patches/chromiumoxide/src/handler/mod.rs:583-600 | handles one event of a polled target as one step |
| HandlerManagement.Handler.PollTargets | patches/chromiumoxide/src/handler/mod.rs:579-611 | one pass is the path of the events of every listed live target, last to first, each listed position once, and leaves exactly the live ones listed |
| Passes.TurnOfPass | patches/chromiumoxide/src/handler/mod.rs:579-611 | one `swap_remove`, visit and `push` moves one element from the unvisited to the visited part |
| Passes.PassKeepsSurvivors | patches/chromiumoxide/src/listeners.rs:81-94 | a whole pass leaves exactly the multiset of survivors |
| Listeners.PollListener | patches/chromiumoxide/src/listeners.rs:141-161 | moves events from the queue to the channel, oldest first; fails exactly when the receiver is found gone |
| Listeners.PassCounts | patches/chromiumoxide/src/listeners.rs:81-94 | after a pass an id is listed as often as before if its listener stays, and not at all if it is gone |
| Listeners.ConnectedHearsEverything | patches/chromiumoxide/src/listeners.rs:23-45 | on every run, a listener not found gone is listed exactly once, and channel and queue hold exactly what was sent since it registered, in order |
| Listeners.CustomSentExactly | patches/chromiumoxide/src/listeners.rs:49-77 | a raw value is sent, once and to the custom listeners of its method, if and only if there are any and the converter of the first accepts it |
| Listeners.InvOnEveryRun | patches/chromiumoxide/src/listeners.rs:23-94 | that invariant holds in every state of every run |
| Listeners.EventListeners.AddListener | patches/chromiumoxide/src/listeners.rs:23-35 | a new listener, empty, at the end of its method |
| Listeners.EventListeners.QueueAtAll | patches/chromiumoxide/src/listeners.rs:38-45 | queues an event at exactly the listeners it is for |
| Listeners.EventListeners.StartSend | patches/chromiumoxide/src/listeners.rs:38-45 | the event is queued once at every listener of its method, and nowhere else |
| Listeners.EventListeners.TrySendCustom | patches/chromiumoxide/src/listeners.rs:49-77 | converts with the first custom listener's converter; a refused value reaches nobody and is an error |
| Listeners.EventListeners.PollSubscriptions | patches/chromiumoxide/src/listeners.rs:81-94 | the pass over the listeners of one method |
| Listeners.EventListeners.Poll | patches/chromiumoxide/src/listeners.rs:81-94 | every queue is drained as far as its channel takes it, and exactly the listeners found gone are forgotten |
| NetworkEvents.OrderMattersExactlyWhen | patches/chromiumoxide/src/handler/network.rs:135-149 | the two notices of a request give the same state and events in either order, except for a `data:` url while interception is on for credentials only |
| NetworkEvents.BothNoticesJoin | patches/chromiumoxide/src/handler/network.rs:193-208 | either order leaves the request tracked with its interception id and nothing waiting |
| NetworkEvents.InvOnEveryRun | patches/chromiumoxide/src/handler/network.rs:95-280 | flags, switches, join maps, redirect chains of exact length and cache commands are consistent in every state of every run |
| NetworkEvents.SwitchesAlternate | patches/chromiumoxide/src/handler/network.rs:116-133 | the protocol flag is "user enabled or credentials"; enable and disable strictly alternate and the last one matches the flag |
| NetworkEvents.ChainsListTheHops | patches/chromiumoxide/src/handler/network.rs:247-280 | a request is tracked if and only if it is under way; its chain has exactly one entry per redirect that led to it, in order, each with the answer that redirected it and no chain of its own |
| NetworkEvents.JoinMapsNeverShare | patches/chromiumoxide/src/handler/network.rs:135-208 | no request waits in both join maps |
| NetworkEvents.CacheCommandRightExactlyWhen | patches/chromiumoxide/src/handler/network.rs:100-133 | the last cache command says what the flags say if and only if the user disabled the cache or no switch followed it |
| NetworkEvents.StaleCacheCommand | patches/chromiumoxide/src/handler/network.rs:116-133 | the shortest run on which it is wrong |
| NetworkEvents.ClearedExactlyWhen | patches/chromiumoxide/src/handler/network.rs:216-280 | an attempt to authenticate is forgotten if and only if its tracked request finishes loading, fails to load or is redirected; a response alone does not end it |
| NetworkEvents.SecondChallengeCancelled | patches/chromiumoxide/src/handler/network.rs:151-171 | credentials are offered once: a second challenge is cancelled unless in between the request finished loading, failed to load or was redirected |
| NetworkReports.KnownExactlyWhen | patches/chromiumoxide/src/handler/network.rs:89-280 | on every run settings are those of the last call, a notice waits if and only if its other half has not come, a request came from the cache if and only if that was said of its last hop, and an attempt lasts until its request ends or is redirected |
| NetworkMessages.QueuedExactlyWhen | patches/chromiumoxide/src/handler/network.rs:81-280 | on every run an event was queued if and only if an input came whose event it is: the ends of requests with what was said of them, released requests, answers to challenges, settings |
| NetworkManagement.NetworkManager.constructor | patches/chromiumoxide/src/handler/network.rs:41-57 | a new manager |
| NetworkManagement.NetworkManager.Poll | patches/chromiumoxide/src/handler/network.rs:81-83 | the oldest event leaves the queue |
| NetworkManagement.NetworkManager.SetExtraHeaders | patches/chromiumoxide/src/handler/network.rs:89-93 | remembers the headers and sends them |
| NetworkManagement.NetworkManager.SetRequestInterception | patches/chromiumoxide/src/handler/network.rs:95-98 | the wish of the user, and a switch only if the wanted state changes |
| NetworkManagement.NetworkManager.SetCacheEnabled | patches/chromiumoxide/src/handler/network.rs:100-103 | the wish of the user, and one cache command that takes interception into account |
| NetworkManagement.NetworkManager.UpdateProtocolCacheDisabled | patches/chromiumoxide/src/handler/network.rs:105-109 | one cache command from the flags of that moment |
| NetworkManagement.NetworkManager.Authenticate | patches/chromiumoxide/src/handler/network.rs:111-114 | credentials alone switch interception on |
| NetworkManagement.NetworkManager.UpdateProtocolRequestInterception | patches/chromiumoxide/src/handler/network.rs:116-133 | switches when the wanted state differs, cache command first |
| NetworkManagement.NetworkManager.OnFetchRequestPaused | patches/chromiumoxide/src/handler/network.rs:135-149 | joins a waiting notice or waits itself; lets the request go on when only credentials asked for interception |
| NetworkManagement.NetworkManager.OnFetchAuthRequired | patches/chromiumoxide/src/handler/network.rs:151-171 | offers credentials once, cancels the second time, else the default |
| NetworkManagement.NetworkManager.SetOfflineMode | patches/chromiumoxide/src/handler/network.rs:173-190 | a command only when the mode changes |
| NetworkManagement.NetworkManager.OnRequestWillBeSent | patches/chromiumoxide/src/handler/network.rs:193-208 | joins a waiting interception or waits itself; tracks at once without interception or for `data:` |
| NetworkManagement.NetworkManager.OnRequestServedFromCache | patches/chromiumoxide/src/handler/network.rs:210-214 | marks the tracked request only |
| NetworkManagement.NetworkManager.OnResponseReceived | patches/chromiumoxide/src/handler/network.rs:216-222 | the request is finished with that response and tracked no more |
| NetworkManagement.NetworkManager.OnNetworkLoadingFinished | patches/chromiumoxide/src/handler/network.rs:224-233 | the request is finished, and its authentication attempt is over |
| NetworkManagement.NetworkManager.OnNetworkLoadingFailed | patches/chromiumoxide/src/handler/network.rs:235-245 | the request has failed with that text, and its authentication attempt is over |
| NetworkManagement.NetworkManager.OnRequest | patches/chromiumoxide/src/handler/network.rs:247-271 | starts tracking a request, with the chain of its redirects |
| NetworkManagement.NetworkManager.HandleRequestRedirect | patches/chromiumoxide/src/handler/network.rs:273-280 | answers the hop before and ends its authentication attempt |
| TargetInit.InitializedAfterEverything | patches/chromiumoxide/src/handler/target.rs:322-418 | an initialised target has sent exactly the frame, isolated-world, network, page and emulation commands, in order, each after the answer to the one before; the worlds are left out only if the browser announced that world |
| TargetInit.PollKeepsOrder | patches/chromiumoxide/src/handler/target.rs:322-418 | the recursive poll keeps what was sent plus what is left equal to the plan |
| TargetInit.PollKeepsTurns | patches/chromiumoxide/src/cmd.rs:138-156 | nothing is sent before the command before was answered |
| TargetInit.InvOnEveryRun | patches/chromiumoxide/src/handler/target.rs:208-418 | both hold in every state of every run |
| TargetInit.GivesUpExactlyWhen | patches/chromiumoxide/src/handler/target.rs:308-320 | a poll ends in closing if and only if the awaited answer is overdue, and in the first stage only while there is a session |
| TargetInit.ClosingIsFinal | patches/chromiumoxide/src/handler/target.rs:308-320 | closing is never left, nothing more is sent and nobody is answered |
| TargetInit.AnswersExactlyWhen | patches/chromiumoxide/src/handler/target.rs:308-416 | whoever asked for the page gets it exactly when the target is initialised, loaded and has a page, and the timeout exactly when it gives up |
| TargetPolls.PollHandsOut | patches/chromiumoxide/src/handler/target.rs:322-418 | a poll hands out a command if and only if it records it as sent, closes if and only if it gives up, attaches at the start only and drains an initialised target only |
| TargetPolls.DrivenExactly | patches/chromiumoxide/src/handler/target.rs:322-345 | a target that is no page does nothing, and a page sends nothing of its first stage before it has a session |
| TargetPolls.SentExactly | patches/chromiumoxide/src/handler/target.rs:322-418 | an initialised target has sent exactly these commands by name, in this order |
| TargetPolls.WaitsExactly | patches/chromiumoxide/src/cmd.rs:138-156 | on every run a target waits exactly for the answer to the command it sent last, until its timeout after the poll that sent it |
| TargetPolls.GivesUpOnRun | patches/chromiumoxide/src/handler/target.rs:308-320 | a poll gives up if and only if more than the timeout has passed since a command was sent without its answer, and in the first stage only while there is a session |
| TargetPolls.PageExactlyWhen | patches/chromiumoxide/src/handler/target.rs:162-176 | a target has a page if and only if one was made, for which it needed a session |
| TargetManagement.CommandChain.constructor | patches/chromiumoxide/src/cmd.rs:109-118 | a chain of commands in order |
| TargetManagement.CommandChain.PushBack | patches/chromiumoxide/src/cmd.rs:121-123 | appends a command |
| TargetManagement.CommandChain.ReceivedResponse | patches/chromiumoxide/src/cmd.rs:127-134 | ends the wait if and only if the method matches |
| TargetManagement.CommandChain.Poll | patches/chromiumoxide/src/cmd.rs:138-156 | next command, wait, expired, or done |
| TargetManagement.Target.constructor | patches/chromiumoxide/src/handler/target.rs:100-124 | a new target |
| TargetManagement.Target.SetSessionId | patches/chromiumoxide/src/handler/target.rs:126-128 | a session is attached, without which the first stage sends nothing |
| TargetManagement.Target.TakeSessionId | patches/chromiumoxide/src/handler/target.rs:138-140 | the session is gone |
| TargetManagement.Target.SetInitiator | patches/chromiumoxide/src/handler/target.rs:567-569 | whoever asked for the page waits here |
| TargetManagement.Target.GetOrCreatePage | patches/chromiumoxide/src/handler/target.rs:162-176 | a page exists once there was a session |
| TargetManagement.Target.OnResponse | patches/chromiumoxide/src/handler/target.rs:208-226 | ends the wait of the stage in progress if the method matches, and nothing else |
| TargetManagement.Target.OnInitializationFailed | patches/chromiumoxide/src/handler/target.rs:308-320 | tells the initiator and closes |
| TargetManagement.Target.Advance | patches/chromiumoxide/src/handler/target.rs:345-392 | starts the chain of the next stage |
| TargetManagement.Target.HandOver | patches/chromiumoxide/src/handler/target.rs:398-416 | the page goes to its initiator, once |
| TargetManagement.Target.PollOnce | patches/chromiumoxide/src/handler/target.rs:322-393 | one poll within a stage |
| TargetManagement.Target.Poll | patches/chromiumoxide/src/handler/target.rs:322-418 | the recursive poll terminates and is the poll of the model |
| TargetManagement.Target.EnsureIsolatedWorld | patches/chromiumoxide/src/handler/frame.rs:533-558 | asks for the isolated world unless it is known |
| TargetManagement.Target.OnExecutionContextCreated | patches/chromiumoxide/src/handler/frame.rs:446-484 | an announced isolated world is known from then on |
| SlotAcquisition.AcquireBound | crates/imauth-core/src/adapters/chromiumoxide/browser_factory.rs:261-298 | for any number and mix of slots, acquisition takes at most the waiting limit plus one connection limit per slot |
| SlotAcquisition.BoundIsTight | crates/imauth-core/src/adapters/chromiumoxide/browser_factory.rs:261-298 | the bound is reached for every number of slots |
| SlotAcquisition.Connect | crates/imauth-core/src/adapters/chromiumoxide/browser_factory.rs:198-210 | a connection attempt under its limit |
| SlotAcquisition.Acquire | crates/imauth-core/src/adapters/chromiumoxide/browser_factory.rs:261-298 | takes the first usable slot, else the first released one; each error exactly in its case; only a session keeps a permit; elapsed time as computed |
| SlotAcquisition.BudgetFiresFirstExactlyWhen | crates/imauth-core/src/application/container.rs:59-75 | with instantaneous writes the preparation deadline cuts preparation short, page creation included, if and only if the page limit is zero and acquisition takes the longest possible time |
| SlotAcquisition.BudgetCoversDelays | crates/imauth-core/src/application/login.rs:143-156 | with delays it cuts preparation short, page creation included, only if they use up what the parts left over |
| SlotAcquisition.PreparedExactly | crates/imauth-core/src/application/login.rs:143-168 | preparation is ready if and only if each part ends in its own limit and all of it before the deadline; every other outcome exactly in its case |
| PermitSafety.StepKeepsLinear | crates/imauth-core/src/adapters/chromiumoxide/browser_factory.rs:212-298 | every step of any caller, session or cleanup keeps each permit in exactly one place |
| PermitSafety.StepKeepsGoods | crates/imauth-core/src/adapters/chromiumoxide/browser_factory.rs:359-503 | every step keeps tabs and creations with the holder of their slot's permit |
| PermitTheorems.InvOnEveryRun | crates/imauth-core/src/adapters/chromiumoxide/browser_factory.rs:212-503 | both hold on every run, wherever futures are dropped |
| PermitTheorems.PermitInOnePlace | crates/imauth-core/src/adapters/chromiumoxide/browser_factory.rs:212-298 | a slot is free or has exactly one holder |
| PermitTheorems.NoTwoSessionsShareASlot | crates/imauth-core/src/adapters/chromiumoxide/browser_factory.rs:240-298 | no two sessions share a slot |
| PermitTheorems.PermitMeansClean | crates/imauth-core/src/adapters/chromiumoxide/browser_factory.rs:377-446 | the holder of a slot owns every tab of it that is still to be closed; a free slot has none |
| PermitTheorems.OneLiveTabPerSlot | crates/imauth-core/src/adapters/chromiumoxide/browser_factory.rs:450-477 | a session owns at most one tab, made or being made |
| PermitTheorems.NewSessionFindsNoLiveTab | crates/imauth-core/src/adapters/chromiumoxide/browser_factory.rs:240-298 | a new session finds no tab that an earlier one still means to close |
| SlotScans.ScanIsComplete | crates/imauth-core/src/adapters/chromiumoxide/browser_factory.rs:261-298 | on every run a scan that ends without a session has left no slot out: those it waits for were busy, the others were tried in vain |
| PermitTheorems.SessionKeepsItsTab | crates/imauth-core/src/adapters/chromiumoxide/browser_factory.rs:479-503 | reconnecting and losing the connection keep the tab; only closing or dropping hands it to the cleanup |
| PermitTheorems.PermitComesBackClean | crates/imauth-core/src/adapters/chromiumoxide/browser_factory.rs:377-446 | a permit comes back only after closing the tab was tried or no connection could be had |
| PermitTheorems.SessionGoesClean | crates/imauth-core/src/adapters/chromiumoxide/browser_factory.rs:543-579 | a session that goes away hands everything it owned to one cleanup; only one without connection, tab and creation lets its permit go by itself |
| PermitTheorems.AbandonedExactlyWhen | crates/imauth-core/src/adapters/chromiumoxide/browser_factory.rs:385-402 | a page creation is abandoned if and only if the session or cleanup waiting for it was told that it failed, or stopped waiting, at an earlier step |
| PermitTheorems.UnknownExactlyWhen | crates/imauth-core/src/adapters/chromiumoxide/browser_factory.rs:385-402 | nobody knows a tab if and only if the very creation that made it was lost at an earlier step of whoever waited for it |
| PermitTheorems.TabLeaks | crates/imauth-core/src/adapters/chromiumoxide/browser_factory.rs:385-402 | a run that reaches such a tab, in a slot that is free again |
| BrowserSessions.ChromiumOxideBrowserSession.constructor | crates/imauth-core/src/adapters/chromiumoxide/browser_factory.rs:240-257 | a session with a permit and no tab |
| BrowserSessions.ChromiumOxideBrowserSession.NewPage | crates/imauth-core/src/adapters/chromiumoxide/browser_factory.rs:450-477 | what the session owns after the call, wherever it is cut short; a second tab is refused |
| BrowserSessions.ChromiumOxideBrowserSession.Reconnect | crates/imauth-core/src/adapters/chromiumoxide/browser_factory.rs:479-503 | the tab and the permit stay, the connection is there exactly on success |
| BrowserSessions.ChromiumOxideBrowserSession.Shutdown | crates/imauth-core/src/adapters/chromiumoxide/browser_factory.rs:359-374 | everything is handed to the cleanup |
| BrowserSessions.ChromiumOxideBrowserSession.Drop | crates/imauth-core/src/adapters/chromiumoxide/browser_factory.rs:543-579 | the same on drop; with nothing to clean up the permit is let go |
| BrowserSessions.CleanupSession | crates/imauth-core/src/adapters/chromiumoxide/browser_factory.rs:377-446 | does the stated actions in that order, the permit last; before it the close was tried or no connection could be had; all within two close limits and one connection limit |
| BrowserSessions.CleanupTakesSteps | crates/imauth-core/src/adapters/chromiumoxide/browser_factory.rs:377-446 | what a cleanup does is a path of its steps in the pool, which report exactly its log: at the end the permit is free, the tab has the fate the log tells, and a creation without a tab is given up |
| LifecycleEvents.InvOnEveryRun | scripts/chrome-runtime.py:50-114 | leases, idle time, stops, starts and wake-ups are consistent in every state of every run |
| LifecycleEvents.LeasesCounted | scripts/chrome-runtime.py:50-89 | leases are successful acquires less releases, and no caller ever waits in front of a start |
| LifecycleEvents.StopsOnlyWhenIdle | scripts/chrome-runtime.py:101-114 | the monitor stops the desktop only without leases and at least the idle timeout after the last release |
| LifecycleEvents.CooldownKept | scripts/chrome-runtime.py:61-82 | after a failed start none follows within the cooldown |
| LifecycleEvents.StartsOneAtATime | scripts/chrome-runtime.py:61-82 | starts never overlap |
| LifecycleEvents.IdleDesktopIsStopped | scripts/chrome-runtime.py:84-114 | no wake-up is lost: once idle long enough the monitor is due, and after its turn the desktop is neither up nor counted as running |
| LifecycleEvents.TurnStopsExactlyWhen | scripts/chrome-runtime.py:101-114 | a turn of the monitor stops a running desktop if and only if it is idle long enough and not closing |
| LifecycleEvents.ClosingReachesTheMonitor | scripts/chrome-runtime.py:91-99 | once closing begins, the monitor can go on to its end |
| DesktopState.RunningAgreesExactlyWhen | scripts/chrome-runtime.py:50-114 | on every run a desktop that is up counts as running; the flag is wrong the other way if and only if the desktop died by itself and nothing was started or stopped since |
| DesktopState.UpExactlyWhen | scripts/chrome-runtime.py:50-114 | on every run a desktop is up if and only if some start succeeded and no start, stop or death came after it |
| DesktopState.HolderKeepsDesktopExactlyWhen | scripts/chrome-runtime.py:203-231 | while leases are out, a caller has the very desktop its start found if and only if since then no caller got no answer from it, it did not die, and no close stopped it |
| DesktopState.UpAfterCloseExactlyWhen | scripts/chrome-runtime.py:50-99 | after a close a desktop is up if and only if a start after it succeeded and no start, stop or death came after that: `acquire` does not look whether the lifecycle is closing |
| DesktopState.StartedAfterClose | scripts/chrome-runtime.py:50-99 | a run that reaches it: after the close a caller starts the desktop and gives its lease back; the desktop is up, unused, and no monitor is left to stop it |
| LifecycleEvents.RunningAfterAcquire | scripts/chrome-runtime.py:50-82 | after an acquire the flag says exactly whether that call got its lease; a call refused in the cooldown starts nothing |
| LifecycleManagement.DesktopProcess.Start | scripts/chrome-runtime.py:203-231 | a start keeps or adopts a desktop that answers, or launches another; it succeeds if and only if the desktop is up afterwards, and a start that fails leaves none |
| LifecycleManagement.BrowserLifecycle.constructor | scripts/chrome-runtime.py:31-48 | a new lifecycle |
| LifecycleManagement.BrowserLifecycle.StartShared | scripts/chrome-runtime.py:61-82 | runs the start unless it is cooling down |
| LifecycleManagement.BrowserLifecycle.Acquire | scripts/chrome-runtime.py:50-59 | counts a lease if and only if the start succeeded and no cooldown refused it; the running flag says the same |
| LifecycleManagement.BrowserLifecycle.Release | scripts/chrome-runtime.py:84-89 | the last lease given back starts the idle time and wakes the monitor |
| LifecycleManagement.BrowserLifecycle.MonitorIdle | scripts/chrome-runtime.py:101-114 | the monitor loop from waking to waiting |
| LifecycleManagement.BrowserLifecycle.BeginClosing | scripts/chrome-runtime.py:91-94 | marks the end and wakes the monitor |
| LifecycleManagement.BrowserLifecycle.FinishClosing | scripts/chrome-runtime.py:96-99 | stops a running desktop |
| OwnedProcesses.AcyclicTableSuffices | scripts/chrome-runtime.py:350-363 | on an acyclic table every walk ends |
| OwnedProcesses.NeverEndsExactlyWhen | scripts/chrome-runtime.py:352-361 | the walk from a process never ends if and only if its chain comes back to a process already passed, with no root before that, within as many steps as the snapshot has processes |
| OwnedProcesses.TwoCycleNeverEnds | scripts/chrome-runtime.py:352-361 | two processes that are each other's parent: the walk never ends |
| OwnedProcesses.HasRootIsChain | scripts/chrome-runtime.py:350-363 | a process belongs to the desktop if and only if living parents, each above process 1, lead from it to a root |
| OwnedProcesses.Roots | scripts/chrome-runtime.py:326-331 | the recorded processes that still are the ones recorded, and the running child |
| OwnedProcesses.Walk | scripts/chrome-runtime.py:352-361 | finds whether a root is on the chain before the walk reaches pid 1 |
| OwnedProcesses.OwnedPids | scripts/chrome-runtime.py:321-363 | exactly the live processes with a root on their chain, each once |

## Left out

- LoginUseCases.LoginUseCase.Execute: the texts of repository and browser errors are parameters or fixed words, because nothing depends on them.
- LoginTiming.ExecuteIsBounded: assumes that a timer that is up is served before time goes on; scheduling delays come on top.
- Domain.DomainMatchIsLabelSuffix: host names only; the rule for IP addresses in RFC 6265 has no counterpart in the code.
- Validation.ConnectedThenValid: not for Novelpia, whose rule reads several cookies and takes the first match in row order.
- CookieRepository.SqliteCookieRepository.MigratePlaintext: a row is migrated only if its value does not begin with `enc:v1:` (`CookieRepository.LegacyTableReadsBackExactlyWhen` says what that costs); AES-GCM and base64 are an abstract pair that decrypts what it encrypted.
- CookieRepository.SqliteCookieRepository.Get: the Netscape export, a printer without a parser, is not modelled.
- FrameLoading.LoadsExactlyTheTree: for a tree whose children name their parent and whose ids differ; what other trees do is only what their events do.
- FrameEvents.NavigationsInOrder: not every navigation is answered: `goto` drops a request when there is no main frame, and a destroyed target drops its queue, so that its lifecycle half never comes (`HandlerAnswers.AnsweredExactlyWhen`); frames and handler are not joined into one model.
- FrameEvents.TreeOnEveryRun: execution contexts and worlds of a frame are not part of the frame model; a main-frame id change leaves stale context entries in the source.
- HandlerManagement.Handler.PollTargets: the events a target has to report are a parameter; the listeners it polls on the way are in `Listeners`.
- HandlerSafety.PanicsExactlyWhen: the order of a target's events and of the reply to its creation is up to the browser.
- HandlerSafety.AnsweredAtMostOnce: call and navigation ids are unbounded; the wrap-around of `usize` ids is not modelled. Sessions of the websocket, its flushing and JSON are left out.
- Listeners.ConnectedHearsEverything: an unbounded channel fails only when its receiver is gone; a channel that is merely full is not modelled.
- Listeners.EventListeners.Poll: listeners are values owned by their vector, as in the source, so there is no aliasing to model.
- TargetInit.InitializedAfterEverything: the parameters of the commands (user agent, viewport sizes, script texts) are left out; a response is matched by method name, as the code does, so a stray response of the same method counts.
- TargetManagement.Target.Poll: the event loop of an initialised target, which drains queues of the other managers, is left out: it moves events and decides nothing.
- SlotAcquisition.Acquire: what a browser answers and when slots come free are parameters; durations are unbounded, so the saturating multiplication of the budget and its 32-bit slot count never bite.
- SlotAcquisition.BudgetFiresFirstExactlyWhen: ends with navigation; the last status update and message before the user's turn are not part of the bound.
- PermitTheorems.PermitComesBackClean: a tab whose creation failed or was given up after its limit is nobody's and may stay open (`PermitTheorems.UnknownExactlyWhen`).
- BrowserSessions.CleanupSession: the time bound leaves out the wait for an aborted creation task and the shutdown of the connection, which have no limit in the source.
- BrowserSessions.ChromiumOxideBrowserSession.Drop: dropping a session outside a Tokio runtime is left out.
- LifecycleManagement.BrowserLifecycle.Acquire: the start command fails only with `OSError`; any other exception would leave its lease counted. A stop ends the desktop: a process that left the owned set is not followed. A lease is given back only by someone who has one.
- OwnedProcesses.OwnedPids: asks that every live chain of the snapshot ends; otherwise the source loops for ever (`OwnedProcesses.NeverEndsExactlyWhen`, `OwnedProcesses.TwoCycleNeverEnds`).
- LoginProtocol: a step relation over values, because logins, database and callers interleave; the imperative form is `LoginUseCases`. Sessions and cookies are values that are copied, as in the source. Session ids are fresh, SQLite transactions atomic.
- The 250 ms period of the cancellation poll: a deleted row may be noticed at any time, or not before the deadline.
- Credentials, the status call, gRPC, SDKs, CLIs, configuration parsing, the provider recorder, nginx and Docker: wrappers and I/O.
- `page.rs`, `element.rs`, `layout.rs`, the page scripts and the noVNC or Kasm viewer: browser I/O.
- The relay and the process control of `scripts/chrome-runtime.py` beyond leases and ownership: sockets and signals.
