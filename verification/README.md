# App components, modelled and proved

This project models the protocols and projections inside the application's user interface and proves
what they promise. It holds no rendering: each module takes the state that a component keeps, the events
that can reach it, and the functions it runs on them.

`dafny verify dfyconfig.toml` checks everything.

## How the modules are built

A component that changes its variables step by step is modelled three times over, tied together by proof:

- a `State` value with a total `Step` for one atomic event, where an event whose control is disabled or
  whose timer is not due changes nothing, and `Run`, the state after any history of events;
- an invariant of every reachable state, and from it the results under "Main results", which quantify
  over every history;
- a class with the component's own variables, whose methods are the component's own functions and are
  proved to do exactly what the step functions say; where there are many, a method `Handle` performs
  any enabled event and is proved to be one `Step`.

The environment (requests sent, replies, aborted controllers, stopped streams, revoked URLs, commands
dispatched) is part of the state as a log, so the results can speak about it. Computations without state
are functions with a loop method beside them where the program loops.

| module | what it is about |
|---|---|
| `PagingProtocol`, `CollectionPanel` | asynchronous paging of the collection browser |
| `ClearHistory` | the two-click clear of a run history, composed with the panel |
| `ConnectionProfiles` | saved connections and tokens across windows |
| `AudioRecorder` | the life of a microphone stream and of a clip |
| `AudioTransport` | newest load wins, object URLs, playback window by window |
| `PreviewAnnouncer` | throttled announcements of a preview |
| `AppViewFlow`, `AppViewOrder` | from a stored layout to what is shown, and in what order |
| `AppViewGestures` | moving and resizing on the grid |
| `AppLayoutGrid`, `AppLayoutResolve` | rectangles, overlaps and their resolution |
| `RemoteOptions` | options of remote choice rows |
| `ContextMenu` | the cascading menu |
| `CurveEditor` | curve points |
| `SubsetOrder` | reordering one group's tabs |
| `PackageIcons` | the ICO and ICNS writers |

## What the environment may do

- Timers never fire early. `late` bounds how long after its due time a timer may still fire; the results
  hold for every bound.
- Replies, failures, aborts and late callbacks come in any order, at any time, or never.
- A media recorder delivers nothing after it has fired `stop`.
- A bridge call takes effect between being sent and being answered, or not at all; a failed answer says
  nothing about which.
- Profile ids are fresh; they are numbered as they are written. A client's authority only grows.
- Reading and writing the stored list of profiles are separate steps of a window. Whether another window
  may come in between is one of the settings that the results quantify over.
- The host's list of sources does not change while a panel is mounted.
- Floating-point seconds, positions and coordinates are reals; integers are unbounded, except where the
  program itself checks for safe integers.
- A menu descriptor and a file entry carry a number that stands for their object identity.
- The keys of exposed parameters and previews are taken as they are; the program builds them injectively.

## What does not hold, and when it does

- A panel whose source the host does not list keeps loading for ever once something is typed
  (`CollectionPanel.LoadingHasCauseIff`).
- The comment on the connection list says the lock is what keeps a token from outliving its profile. The
  lock alone does not when a window closes in the middle of a mutation. The bridge's refusal of retired
  ids covers that, but not two windows that read and write the list at the same time, which the lock
  covers. Neither helps when reading the stored list fails and yields an empty one
  (`ConnectionProfiles.TokensAreListedIff`, `ConnectionProfiles.RemovalIsFinalIff`).
- The audio element may point at a revoked object URL while the audio that replaced its media loads, and
  only then (`AudioTransport.SrcRevokedIff`).
- `applySubsetOrder` given a repeated id can show one tab twice and lose another
  (`SubsetOrder.PermutationIff`, `SubsetOrder.RepeatedIdLosesATab`). This is about the function: the order
  that a drag hands to it repeats no id (`SubsetOrder.DraggingLosesNoTab`).
- The curve editor's selection may lie outside its draft, and the delete button then removes nothing, when
  a point of a longer computed curve was picked while the input followed an envelope
  (`CurveEditor.SelectionIsAPoint`, `CurveEditor.DeleteRemovesIff`).
- A stored curve may have values outside 0..1 (packages/widgets/src/kinds.ts:260), and a draft of it keeps
  them until they are dragged (`CurveEditor.UnitValuesIff`); pressing such a point moves it
  (`CurveEditor.PressingAPointKeepsItIff`).
- The curve editor's delete button reads a missing draft when the editor was opened on an input that
  followed an envelope, a computed point is selected and the link is then cut
  (`CurveEditor.DeleteButtonSafeIff`).
- The default rectangle for a placed item may cover a hidden placement while the view is not being
  arranged; the view does not offer placing then (`AppViewOrder.PlacingIsSafeIff`).

## Model

| member | source | states |
|---|---|---|
| `CollectionPanel.RowsArePagesOfOneQuery` | `packages/app/src/CollectionPanel.tsx:282-397` | In every interleaving of typing, switching source, folder or filter, refreshing, loading more, debounce firing and late replies or failures, the rows are the concatenation of a chain of pages of one key, the first asked for without a cursor and each later one with its predecessor's; when nothing is loading that key has the source, the filters, the query without the white space at its ends, and the folder, where the source has folders, that the controls show, or the first page failed and there are no rows |
| `CollectionPanel.RowsCameFromReplies` | `packages/app/src/CollectionPanel.tsx:328-346` | Every page in that chain is exactly what the reply to its own request delivered |
| `CollectionPanel.OneThingPending` | `packages/app/src/CollectionPanel.tsx:300-403` | Until unmount `loading` holds exactly when a debounce timer or a request of the current generation is pending, never both; at most one request is live, and none after unmount |
| `CollectionPanel.OwnerIsOnScreen` | `packages/app/src/CollectionPanel.tsx:300-345` | A defined page owner is the owner of the last page on screen, that page was asked for with what the controls show, and no first page is on its way |
| `CollectionPanel.RequestAsksForTheControls` | `packages/app/src/CollectionPanel.tsx:310-322` | The request on its way asks for the source, query, filters and folder that the controls show |
| `CollectionPanel.ControlsShowTheLastInput` | `packages/app/src/CollectionPanel.tsx:138-146` | The controls show the last query typed, the last listed source picked, the last folder entered in it, and every filter at the value it was last set to |
| `CollectionPanel.EventsAsk` | `packages/app/src/CollectionPanel.tsx:310-397` | From every reachable panel a change of source, folder or filter, a refresh, a retry and the due timer send one first-page request at once, and the button for more sends one from the cursor on, each for what the controls show; the rows stay meanwhile |
| `CollectionPanel.TypingWaits` | `packages/app/src/CollectionPanel.tsx:300-393` | A changed query aborts what is on its way, drops cursor and owner, keeps the rows and waits for the timer; inputs that change nothing do nothing |
| `CollectionPanel.RepliesAreShown` | `packages/app/src/CollectionPanel.tsx:329-370` | A reply of the newest generation is shown, after the rows there are exactly when it was asked for more; a failure keeps the rows exactly then; any other changes nothing on screen |
| `CollectionPanel.UnresolvedSourceLoadsForever` | `packages/app/src/CollectionPanel.tsx:310-312` | A counterexample: with a source that the host does not list, typing one letter and letting the debounce fire leaves the panel loading with nothing pending |
| `CollectionPanel.LoadingHasCauseIff` | `packages/app/src/CollectionPanel.tsx:300-395` | Loading always has a pending cause, over all histories, exactly when the panel's source is listed by the host |
| `PagingProtocol.TrimmedOfSpaceOnly` | `packages/app/src/CollectionPanel.tsx:318` | The query sent is the typed one without the white space at its ends, and nothing else is removed |
| `PagingProtocol.StepKeepsInv` | `packages/app/src/CollectionPanel.tsx:282-403` | Every single event, whatever the state, keeps the paging invariant behind the results above |
| `CollectionPanel.CollectionBrowser.constructor` | `packages/app/src/CollectionPanel.tsx:286-397` | A mounted panel has run its first-page effect once and satisfies the invariant |
| `CollectionPanel.CollectionBrowser.Supersede` | `packages/app/src/CollectionPanel.tsx:300-308` | Orphans and aborts what is in flight, clears error, cursor and owner, and starts loading |
| `CollectionPanel.CollectionBrowser.RunPage` | `packages/app/src/CollectionPanel.tsx:310-328` | Starts the next generation for the current key, with the cursor only when appending; does nothing without a source |
| `CollectionPanel.CollectionBrowser.FirstPageEffect` | `packages/app/src/CollectionPanel.tsx:373-397` | Supersedes and debounces after typing, requests at once otherwise |
| `CollectionPanel.CollectionBrowser.TypeQuery` | `packages/app/src/CollectionPanel.tsx:377-397` | Typing a changed query is one protocol step; an unchanged one is none |
| `CollectionPanel.CollectionBrowser.SwitchSource` | `packages/app/src/CollectionPanel.tsx:405-412` | Switching the source also leaves the folder, in one step |
| `CollectionPanel.CollectionBrowser.NavigateFolder` | `packages/app/src/CollectionPanel.tsx:414-419` | Entering a folder is one protocol step |
| `CollectionPanel.CollectionBrowser.SetFilter` | `packages/app/src/CollectionPanel.tsx:377-397` | Setting a filter reruns the first-page effect even for an equal value |
| `CollectionPanel.CollectionBrowser.Refresh` | `packages/app/src/CollectionPanel.tsx:382-396` | A refresh tick reruns the first-page effect without debouncing |
| `CollectionPanel.CollectionBrowser.DebounceFires` | `packages/app/src/CollectionPanel.tsx:393` | The debounced first page is requested when the timer fires |
| `CollectionPanel.CollectionBrowser.LoadMore` | `packages/app/src/CollectionPanel.tsx:898-907` | Under the button's own guard (a cursor, not loading) a page is requested with that cursor |
| `CollectionPanel.CollectionBrowser.Retry` | `packages/app/src/CollectionPanel.tsx:727` | Retrying requests a first page of the current key |
| `CollectionPanel.CollectionBrowser.PageArrives` | `packages/app/src/CollectionPanel.tsx:329-346` | A reply of the current generation commits its page, any other changes nothing on screen |
| `CollectionPanel.CollectionBrowser.PageFails` | `packages/app/src/CollectionPanel.tsx:361-370` | A failure of the current generation drops the rows only if it was a first page |
| `CollectionPanel.CollectionBrowser.CleanUp` | `packages/app/src/CollectionPanel.tsx:398-403` | Unmounting orphans and aborts what is in flight and stops the timer |
| `CollectionPanel.CollectionBrowser.Handle` | `packages/app/src/CollectionPanel.tsx:282-403` | Any enabled event performs exactly one protocol step and keeps the invariant |
| `ClearHistory.EveryClearIsConfirmed` | `packages/app/src/App.tsx:649-665` | Composed with the panel: every cleared history of an owner follows two enabled clicks within 4000 ms plus the timer's lateness, at both of which that owner had the last committed page and nothing was loading, with no click for any owner between; no click serves two clears |
| `ClearHistory.PunctualWindow` | `packages/app/src/App.tsx:655-660` | With a punctual timer the two clicks are at most 4000 ms apart |
| `ClearHistory.SecondClickClears` | `packages/app/src/App.tsx:655-664` | And a second click inside the window, for the same owner, does clear that owner's history |
| `ClearHistory.ClearButton.LibrarySourceAction` | `packages/app/src/App.tsx:652-665` | Ignores other actions and unknown owners; arms, re-arms for another owner, or confirms |
| `ClearHistory.ClearButton.ArmTimerFires` | `packages/app/src/App.tsx:659` | The timer disarms the button |
| `ConnectionProfiles.SafeByRefusal` | `packages/app/src/ConnectionProfiles.tsx:74-199` | Any number of windows, bodies interleaved at their awaits, calls that fail or apply late, windows closed midway: if the bridge refuses retired ids, the stored list is changed by one window at a time and its reads do not fail, every stored token belongs to a listed profile |
| `ConnectionProfiles.SafeByLock` | `packages/app/src/ConnectionProfiles.tsx:65-199` | The same with the cross-window lock and without the bridge's refusal, even if windows read and write the list at any moment, as long as no window closes in the middle of a mutation and list reads do not fail |
| `ConnectionProfiles.RaceOrphansToken` | `packages/app/src/ConnectionProfiles.tsx:65-71` | A counterexample without the bridge's refusal whenever the lock is missing or windows may close midway: a save racing a removal stores a token whose profile is gone |
| `ConnectionProfiles.LostListOrphansToken` | `packages/app/src/connection-profiles.ts:50-68` | A counterexample: one failed read of the stored list makes the next save of a profile drop a profile that has a token |
| `ConnectionProfiles.LostUpdateOrphansToken` | `packages/app/src/connection-profiles.ts:50-129` | A counterexample: two windows that read the list before either writes it back lose a profile that has a token, whatever the bridge refuses |
| `ConnectionProfiles.TokensAreListedIff` | `packages/app/src/ConnectionProfiles.tsx:65-199` | Every stored token belongs to a listed profile, over all runs, exactly when list reads do not fail and either the lock is in force and windows do not close midway, or the bridge refuses retired ids and the list is changed by one window at a time |
| `ConnectionProfiles.StaleListRestoresProfile` | `packages/app/src/connection-profiles.ts:50-129` | A counterexample: a window that read the list before a removal writes the removed profile back |
| `ConnectionProfiles.ProfileStaysRemovedIff` | `packages/app/src/connection-profiles.ts:50-129` | A removed profile stays off the list, over all runs, exactly when the list is changed by one window at a time |
| `ConnectionProfiles.RemovalIsFinalIff` | `packages/app/src/ConnectionProfiles.tsx:120-149` | A removed profile and its token both stay away, whatever the windows do later, exactly under the protections that keep every token listed |
| `ConnectionProfiles.EnteringSends` | `packages/app/src/ConnectionProfiles.tsx:120-187` | Entering a removal, a clearing or the saving of a listed profile's token puts exactly that request on the bridge and waits for it; an addition first reads the list |
| `ConnectionProfiles.ServingApplies` | `packages/app/src/ConnectionProfiles.tsx:92-187` | Serving a call does exactly what it asks for and settles it; only the saving of a retired id's token may be refused |
| `ConnectionProfiles.OperationsWork` | `packages/app/src/ConnectionProfiles.tsx:74-199` | From every reachable state a mutation that nothing interrupts does what it is for: it lists the new profile with its token, stores or drops exactly that token, or removes exactly that profile with its token |
| `ConnectionProfiles.SuccessIsTrue` | `packages/app/src/ConnectionProfiles.tsx:92-187` | An answer of success means that the mutation's own call took effect: a token that it saved is there unless a later call dropped it, and one that it cleared or retired is gone unless a later call stored it |
| `ConnectionProfiles.TokenNeedsASave` | `packages/app/src/ConnectionProfiles.tsx:92-187` | Over every run a token appears only when a call that asks for it takes effect |
| `ConnectionProfiles.TokenStaysUntilDropped` | `packages/app/src/ConnectionProfiles.tsx:125-160` | And disappears only when a call that clears or retires it takes effect |
| `ConnectionProfiles.Windows.Start` | `packages/app/src/ConnectionProfiles.tsx:74-77` | A click raises the busy flag before anything is awaited |
| `ConnectionProfiles.Windows.Enter` | `packages/app/src/connection-profiles.ts:125-129` | A body starts when the lock is free, and runs up to its first await, with the request that `ConnectionProfiles.EnteringSends` names |
| `ConnectionProfiles.Windows.ReadList` | `packages/app/src/connection-profiles.ts:50-68` | A change of the list starts from the list as it is read, empty when the read fails |
| `ConnectionProfiles.Windows.WriteList` | `packages/app/src/ConnectionProfiles.tsx:79-101` | The list is written back with the change, and a token is sent only for a profile that was durably written |
| `ConnectionProfiles.Windows.SaveTokenBody` | `packages/app/src/ConnectionProfiles.tsx:176-195` | A token is sent only if the profile is still listed |
| `ConnectionProfiles.Windows.SendCall` | `packages/app/src/ConnectionProfiles.tsx:92-187` | A bridge call is pending from here on |
| `ConnectionProfiles.Windows.ServeCall` | `packages/app/src/ConnectionProfiles.tsx:125-144` | A token is stored only because its save was asked for and never for an id the bridge refuses, and dropped only because its clearing or retirement was asked for |
| `ConnectionProfiles.Windows.DropCall` | `packages/app/src/ConnectionProfiles.tsx:187-191` | A call may also be lost |
| `ConnectionProfiles.Windows.Answer` | `packages/app/src/ConnectionProfiles.tsx:131-144` | A profile is deleted only after its retirement was answered with success |
| `ConnectionProfiles.Windows.Settle` | `packages/app/src/ConnectionProfiles.tsx:103-105` | The lock and the busy flag go together |
| `ConnectionProfiles.Windows.Close` | `packages/app/src/ConnectionProfiles.tsx:103-105` | A closed window releases the lock |
| `ConnectionProfiles.Windows.Handle` | `packages/app/src/ConnectionProfiles.tsx:65-199` | Any enabled event performs exactly one protocol step |
| `AudioRecorder.OpenMicrophoneIsRecording` | `packages/app/src/AudioRecorder.tsx:36-117` | Over every run, an opened microphone stream that is not stopped is the current one of a mounted component in the recording state, and has been open no longer than the chosen limit plus the timer's lateness |
| `AudioRecorder.SavedClipIsOneRecording` | `packages/app/src/AudioRecorder.tsx:75-116` | Every clip handed to `onSave` is all the data of one ended recording, in order, non-empty and at most 32 MiB |
| `AudioRecorder.DiscardClosesEverything` | `packages/app/src/AudioRecorder.tsx:48-53` | After discarding or unmounting, at any moment, no microphone is open and no clip is held |
| `AudioRecorder.UnmountedStaysClosed` | `packages/app/src/AudioRecorder.tsx:117` | After unmounting this stays so, whatever permission replies, data and timers still come |
| `AudioRecorder.RecordAsksForPermission` | `packages/app/src/AudioRecorder.tsx:64-68` | From idle, recording asks for permission for at most 30 s and forgets the clip before |
| `AudioRecorder.PermissionStartsRecording` | `packages/app/src/AudioRecorder.tsx:69-98` | The permission that is waited for starts a recording with an open microphone, nothing delivered yet and the chosen limit, or returns to idle when recording cannot start |
| `AudioRecorder.LatePermissionIsStopped` | `packages/app/src/AudioRecorder.tsx:69-104` | A permission that nobody waits for any more only has its stream stopped, at once |
| `AudioRecorder.PermissionMayBeRefused` | `packages/app/src/AudioRecorder.tsx:68-104` | A refusal and 30 s without an answer return to idle |
| `AudioRecorder.StoppingClosesTheMicrophone` | `packages/app/src/AudioRecorder.tsx:63-98` | Stopping, by the button or by the limit, closes the microphone and stops the recorder but gives nothing up |
| `AudioRecorder.RecordingIsKept` | `packages/app/src/AudioRecorder.tsx:63-98` | Whatever happens besides a discard, a failure, an unmount and more than 32 MiB, the recording goes on until its recorder ends |
| `AudioRecorder.RecordingBecomesTheClip` | `packages/app/src/AudioRecorder.tsx:86-110` | Then everything that its recorder delivered, in order, is ready as the clip, and saving hands over exactly that; an empty recording returns to idle |
| `AudioRecorder.FailureDiscards` | `packages/app/src/AudioRecorder.tsx:78-85` | A failing recorder and one that delivers more than 32 MiB close everything and leave no clip, if it is the current one; others change nothing on screen |
| `AudioRecorder.LimitAndTime` | `packages/app/src/AudioRecorder.tsx:133` | The limit field sets the limit, and nothing else |
| `AudioRecorder.SavingKeepsTheClip` | `packages/app/src/AudioRecorder.tsx:106-116` | A clip is given up only once it was saved: a failed save keeps it ready |
| `AudioRecorder.MicrophoneRecorder.Release` | `packages/app/src/AudioRecorder.tsx:43-47` | Stops the stream and clears the timer |
| `AudioRecorder.MicrophoneRecorder.StopRecorder` | `packages/app/src/AudioRecorder.tsx:50-63` | Stops a running recorder |
| `AudioRecorder.MicrophoneRecorder.Cancel` | `packages/app/src/AudioRecorder.tsx:48-53` | Starts a new generation and closes everything |
| `AudioRecorder.MicrophoneRecorder.Stop` | `packages/app/src/AudioRecorder.tsx:63` | Stops the recorder and releases the stream, and keeps the generation, so that the recorder's end is still heard |
| `AudioRecorder.MicrophoneRecorder.Record` | `packages/app/src/AudioRecorder.tsx:64-70` | Starts a generation that waits for permission, with its 30 s timer |
| `AudioRecorder.MicrophoneRecorder.PermissionGranted` | `packages/app/src/AudioRecorder.tsx:70-98` | A late stream is stopped at once; the current one is recorded, or released if recording cannot start |
| `AudioRecorder.MicrophoneRecorder.PermissionDenied` | `packages/app/src/AudioRecorder.tsx:99-104` | A denial returns to idle, if it is still current |
| `AudioRecorder.MicrophoneRecorder.TimerFires` | `packages/app/src/AudioRecorder.tsx:68-98` | The one timer ends the permission wait or the recording |
| `AudioRecorder.MicrophoneRecorder.DataAvailable` | `packages/app/src/AudioRecorder.tsx:78-84` | Data of the current recorder is kept; beyond 32 MiB everything is dropped |
| `AudioRecorder.MicrophoneRecorder.RecorderFails` | `packages/app/src/AudioRecorder.tsx:85` | A recorder error drops everything |
| `AudioRecorder.MicrophoneRecorder.RecorderEnds` | `packages/app/src/AudioRecorder.tsx:86-95` | The recorder's end makes its data the clip, or returns to idle when there is none |
| `AudioRecorder.MicrophoneRecorder.Save` | `packages/app/src/AudioRecorder.tsx:106-110` | Hands the clip over and waits |
| `AudioRecorder.MicrophoneRecorder.SaveAnswers` | `packages/app/src/AudioRecorder.tsx:111-115` | The clip goes on success and stays on failure |
| `AudioRecorder.MicrophoneRecorder.SetLimit` | `packages/app/src/AudioRecorder.tsx:133` | The limit is always 1 to 300 seconds: the value asked for when it is in that range, the nearest one otherwise, 60 for zero |
| `AudioRecorder.MicrophoneRecorder.CleanUp` | `packages/app/src/AudioRecorder.tsx:117` | Marks the component dead and cancels |
| `AudioRecorder.MicrophoneRecorder.Handle` | `packages/app/src/AudioRecorder.tsx:36-133` | Any enabled event performs exactly one protocol step and keeps the invariant behind the results above |
| `AudioTransport.OnlyTheNewestLoadWrites` | `packages/app/src/AudioTransport.tsx:50-88` | In every interleaving of scrubs, batch and media changes, deadlines and replies, only the newest, un-aborted load for the media and batch on show writes start, span, source or waveform |
| `AudioTransport.BusyHasOneLiveRequest` | `packages/app/src/AudioTransport.tsx:50-88` | The transport is busy exactly while one un-aborted request is on its way |
| `AudioTransport.UrlsAreConserved` | `packages/app/src/AudioTransport.tsx:43-48` | Object URLs made are those revoked plus those held, never both; at most two are held, none after unmount |
| `AudioTransport.ShownUrlsAreHeld` | `packages/app/src/AudioTransport.tsx:43-98` | The waveform on show is always a held URL; so is the audio source when no load is on its way, and while one is, unless other audio revoked it and nothing has renewed it since |
| `AudioTransport.SrcRevokedIff` | `packages/app/src/AudioTransport.tsx:50-115` | Over every history the audio on show is a revoked URL exactly when other audio arrived while an object URL was the source, and since then no load has been answered, failed or timed out, no plain source has come and the player is mounted |
| `AudioTransport.RevokedByIff` | `packages/app/src/AudioTransport.tsx:89-98` | Of all events exactly the arrival of other audio revokes the source on show |
| `AudioTransport.RenewedByIff` | `packages/app/src/AudioTransport.tsx:65-115` | Exactly a live reply or failure, a deadline, a plain source and unmounting end that |
| `AudioTransport.BusySrcMayBeRevoked` | `packages/app/src/AudioTransport.tsx:89-98` | An instance: after a change of media the element keeps a revoked URL while the new load runs |
| `AudioTransport.ButtonsAsk` | `packages/app/src/AudioTransport.tsx:123-150` | From every reachable state scrubbing asks for the position scrubbed to, but not the last 0.01 s, picking a batch makes it current and asks for its start, and playing again asks for the start, each with one new request, the only live one |
| `AudioTransport.MountedStartsOver` | `packages/app/src/AudioTransport.tsx:36-98` | At first a plain source is linked, or the first window of the audio is asked for, and nothing else is shown |
| `AudioTransport.OtherMediaStartOver` | `packages/app/src/AudioTransport.tsx:89-98` | Other media reset the window, the position, the batch and playing; other audio is asked for from its start with its own first batch, a plain source is linked and nothing is on its way |
| `AudioTransport.EndAsksForTheRest` | `packages/app/src/AudioTransport.tsx:103-110` | The end of a window asks for what follows it, when that is more than 0.01 s, else from 0 when looping, else for nothing |
| `AudioTransport.OthersAskForNothing` | `packages/app/src/AudioTransport.tsx:36-150` | No other event asks for a window |
| `AudioTransport.RepliesAreShown` | `packages/app/src/AudioTransport.tsx:73-88` | A live reply is shown, each part under a new URL, with the URLs before revoked; a late one changes nothing |
| `AudioTransport.FailuresAreShown` | `packages/app/src/AudioTransport.tsx:65-88` | A live failure and the deadline clear the source and end the waiting |
| `AudioTransport.ReportsAreKept` | `packages/app/src/AudioTransport.tsx:129-141` | The loop switch and what the element reports set exactly what they stand for |
| `AudioTransport.CycleAdvances` | `packages/app/src/AudioTransport.tsx:103-108` | With looping off, the end of one window asks for the next at exactly where the window ended, or stops within 0.01 s of the end |
| `AudioTransport.PlayedAdvances` | `packages/app/src/AudioTransport.tsx:103-110` | Over any number of windows the requests are contiguous and their positions grow by at least the shortest window |
| `AudioTransport.AutoAdvanceFinishes` | `packages/app/src/AudioTransport.tsx:50-110` | So with windows of at least a fixed positive length playback stops by itself after a bounded number of windows, within 0.01 s of the end |
| `AudioTransport.PositionsIncrease` | `packages/app/src/AudioTransport.tsx:103-108` | Positions asked for are strictly increasing |
| `AudioTransport.Player.constructor` | `packages/app/src/AudioTransport.tsx:50-98` | A mounted player has run its identity effect once and satisfies the invariant |
| `AudioTransport.Player.AbortLoad` | `packages/app/src/AudioTransport.tsx:56` | Aborts the load in flight |
| `AudioTransport.Player.Release` | `packages/app/src/AudioTransport.tsx:43` | Revokes every held URL and holds none |
| `AudioTransport.Player.Load` | `packages/app/src/AudioTransport.tsx:50-72` | Aborts the load before, asks for a window; without an audio value only seeks |
| `AudioTransport.Player.Reply` | `packages/app/src/AudioTransport.tsx:74-86` | An aborted reply changes nothing |
| `AudioTransport.Player.Present` | `packages/app/src/AudioTransport.tsx:76-81` | One URL is made for each part that the reply has |
| `AudioTransport.Player.LoadFails` | `packages/app/src/AudioTransport.tsx:82-87` | A failure clears the source unless it was aborted |
| `AudioTransport.Player.DeadlineFires` | `packages/app/src/AudioTransport.tsx:65-71` | The deadline aborts the load and stops waiting |
| `AudioTransport.Player.Reset` | `packages/app/src/AudioTransport.tsx:91-95` | A change of media starts from nothing |
| `AudioTransport.Player.IdentityChanges` | `packages/app/src/AudioTransport.tsx:89-98` | Loads the first window of an audio value, or links the plain source |
| `AudioTransport.Player.ChangeMedia` | `packages/app/src/AudioTransport.tsx:89-98` | Media of the same identity changes nothing but itself |
| `AudioTransport.Player.Scrub` | `packages/app/src/AudioTransport.tsx:50-63` | Scrubbing asks for a window no later than 0.01 s before the end, and resumes playing if it was |
| `AudioTransport.Player.PlaybackEnds` | `packages/app/src/AudioTransport.tsx:103-110` | Advances, loops or stops |
| `AudioTransport.Player.CleanUp` | `packages/app/src/AudioTransport.tsx:111-115` | Aborts and releases |
| `AudioTransport.Player.Handle` | `packages/app/src/AudioTransport.tsx:36-115` | Any enabled event performs exactly one protocol step and keeps the invariant |
| `PreviewAnnouncer.AnnouncementsAreSpaced` | `packages/app/src/AppPreviewSurface.tsx:35-67` | Live-frame announcements are never less than 2000 ms apart, consecutive announcements differ in key, and revisions count them |
| `PreviewAnnouncer.ReadyPreviewIsAnnouncedInTime` | `packages/app/src/AppPreviewSurface.tsx:43-67` | A preview that is ready and stays current is announced, a live frame within 2000 ms plus the timer's lateness |
| `PreviewAnnouncer.PendingExactlyWithTimer` | `packages/app/src/AppPreviewSurface.tsx:59-66` | While mounted, a key is pending exactly while the timer is set |
| `PreviewAnnouncer.OnlyCurrentIsAnnounced` | `packages/app/src/AppPreviewSurface.tsx:43-66` | Whatever is announced is current and ready at that moment |
| `PreviewAnnouncer.SurfaceIsAnnounced` | `packages/app/src/AppPreviewSurface.tsx:43-67` | What there is to announce is announced when it comes, but a live frame less than 2000 ms after the last one becomes pending until those are over |
| `PreviewAnnouncer.TimerAnnounces` | `packages/app/src/AppPreviewSurface.tsx:61-66` | The due timer announces the pending frame exactly if it is still shown and ready, and leaves nothing pending |
| `PreviewAnnouncer.SilentOnceUnmounted` | `packages/app/src/AppPreviewSurface.tsx:68` | Nothing is announced after unmounting |
| `PreviewAnnouncer.Announcer.constructor` | `packages/app/src/AppPreviewSurface.tsx:17-23` | Nothing is pending or announced at first |
| `PreviewAnnouncer.Announcer.ClearFrameTimer` | `packages/app/src/AppPreviewSurface.tsx:26-30` | Clears the timer |
| `PreviewAnnouncer.Announcer.Announce` | `packages/app/src/AppPreviewSurface.tsx:35-41` | Records the key and, for a live frame, the time |
| `PreviewAnnouncer.Announcer.Effect` | `packages/app/src/AppPreviewSurface.tsx:43-67` | Announces at once, defers, or does nothing |
| `PreviewAnnouncer.Announcer.TimerFires` | `packages/app/src/AppPreviewSurface.tsx:61-66` | Announces the pending frame if it is still current and ready |
| `PreviewAnnouncer.Announcer.Handle` | `packages/app/src/AppPreviewSurface.tsx:26-70` | Any enabled event performs exactly one protocol step and keeps the invariant |
| `PackageIcons.WriteIco` | `branding/sources/package_icons.py:14-26` | The accumulating writer gives a file exactly when every length and offset fits 32 bits, and a reader of that file gets back every size and every image |
| `PackageIcons.IcoRoundTrip` | `branding/sources/package_icons.py:16-26` | Reading an ICO file of any PNG contents, 0 standing for 256, returns the same sizes and bytes |
| `PackageIcons.IcoEntryReads` | `branding/sources/package_icons.py:18-24` | Each directory entry holds the size, length and offset of its image and the fixed fields |
| `PackageIcons.IcoSlices` | `branding/sources/package_icons.py:17-26` | The (length, offset) slices are exactly the images, disjoint, without gaps, and end with the file |
| `PackageIcons.WriteIcns` | `branding/sources/package_icons.py:27-46` | The ICNS writer succeeds exactly when every chunk and the file fit a 32-bit length; the header length is the file length and a reader recovers the chunks |
| `PackageIcons.ChunksReadBack` | `branding/sources/package_icons.py:41-46` | Walking the chunk lengths recovers the list of kinds and data |
| `PackageIcons.Package` | `branding/sources/package_icons.py:11-46` | Both files for the program's own sizes and chunk kinds, or a stop where struct packing would fail |
| `SubsetOrder.ApplySubsetOrder` | `packages/app/src/App.tsx:156-165` | The loop with its moving counter computes the reordered list, and never runs past the queue |
| `SubsetOrder.GroupTakesGivenOrder` | `packages/app/src/App.tsx:150-165` | For unique ids and a duplicate-free subset the result is a permutation, non-members keep their positions and members appear in the subset's order |
| `SubsetOrder.PermutationIff` | `packages/app/src/App.tsx:156-165` | For any subset, the result is a permutation exactly when the queued ids that are used are distinct |
| `SubsetOrder.RepeatedIdLosesATab` | `packages/app/src/App.tsx:156-165` | A counterexample for a repeated id: tabs a and b asked for as a, a, b become a, a |
| `SubsetOrder.DraggingMovesOneTab` | `packages/app/src/tab-reorder.ts:78-92` | The order at the pointer is a permutation of the strip's order, in which the other tabs keep their order |
| `SubsetOrder.DraggedLandsAtThePointer` | `packages/app/src/tab-reorder.ts:78-92` | In a strip of tabs from left to right the dragged one lands right of exactly those whose centre the pointer has reached |
| `SubsetOrder.DraggingLosesNoTab` | `packages/app/src/App.tsx:992-1070` | So the order that a drag within its strip asks for is always a rearrangement of all tabs |
| `SubsetOrder.UnchangedIff` | `packages/app/src/App.tsx:156-165` | The list is unchanged exactly when the group is asked for in the order it has |
| `SubsetOrder.LastOrderWins` | `packages/app/src/App.tsx:156-165` | Of two orders for the same members the last one wins |
| `ContextMenu.OpenPathIsInTheMenu` | `packages/app/src/ContextMenu.tsx:134-322` | After any sequence of keys, hovering, clicks and root replacements, every open submenu is an enabled row with children in the panel before it, in the menu as it is now |
| `ContextMenu.OnlyShownActionsAreInvoked` | `packages/app/src/ContextMenu.tsx:291-294` | Every item handed to the host is an enabled action row of a panel that was open |
| `ContextMenu.ReplacementKeepsLongest` | `packages/app/src/ContextMenu.tsx:146-160` | Replacing the rows keeps exactly the longest prefix of ids that still leads through first rows with that id that are enabled submenus |
| `ContextMenu.SameMenuKeepsPathIff` | `packages/app/src/ContextMenu.tsx:146-160` | Showing the same menu again keeps the open path exactly when no earlier sibling shares an id with a row on it |
| `ContextMenu.RelabellingKeepsEverySubmenu` | `packages/app/src/ContextMenu.tsx:144-160` | Rows that differ only in labels, as after a change of locale, keep every submenu open |
| `ContextMenu.FollowPath` | `packages/app/src/ContextMenu.tsx:146-155` | The effect's loop computes that kept path |
| `ContextMenu.MenuStep` | `packages/app/src/ContextMenu.tsx:53-58` | The index loop computes the next enabled row |
| `ContextMenu.StepIsNearest` | `packages/app/src/ContextMenu.tsx:53-58` | A step lands on the nearest enabled row in its direction, or stays when there is none |
| `ContextMenu.OppositeStepReturns` | `packages/app/src/ContextMenu.tsx:53-58` | After a step that moved, the opposite step returns exactly when the starting row is enabled |
| `ContextMenu.EnabledRow` | `packages/app/src/ContextMenu.tsx:66-69` | The first enabled row, with none enabled before it |
| `ContextMenu.EndFindsLast` | `packages/app/src/ContextMenu.tsx:307-311` | The End key, searching the reversed rows, finds the last enabled row |
| `ContextMenu.VerticalKeysHighlight` | `packages/app/src/ContextMenu.tsx:303-311` | Up, down, Home and End change nothing but the highlight of the panel they act on: to the nearest, the first or the last enabled row |
| `ContextMenu.PointingAndPressing` | `packages/app/src/ContextMenu.tsx:410-417` | Pointing at a row shows its children and nothing deeper without entering; pressing enters them, or invokes the row, and never both |
| `ContextMenu.RightThenLeft` | `packages/app/src/ContextMenu.tsx:312-317` | Entering a submenu with the right arrow and leaving it with the left one closes it again; the exact state in which this is a round trip |
| `ContextMenu.PanelsStartHighlighted` | `packages/app/src/ContextMenu.tsx:134-224` | A new menu and a newly shown submenu highlight their first enabled row; a submenu already shown keeps its highlight |
| `ContextMenu.KeysActOnTheHighlight` | `packages/app/src/ContextMenu.tsx:296-302` | Keys act on the active panel, or the last one shown, and on its highlighted row, or its last one |
| `ContextMenu.EnterAndRightAct` | `packages/app/src/ContextMenu.tsx:312-322` | Enter does what pressing the highlighted row does; the right arrow does the same but invokes nothing |
| `ContextMenu.LeftLeavesThePanel` | `packages/app/src/ContextMenu.tsx:315-318` | The left arrow closes the active panel and those after it and makes the one before it active |
| `ContextMenu.ReplacingKeepsThePath` | `packages/app/src/ContextMenu.tsx:146-160` | Replacing the rows keeps the longest part of the open path that leads through the new ones, and changes nothing else |
| `ContextMenu.MenuCascade.constructor` | `packages/app/src/ContextMenu.tsx:134-137` | Starts with the first enabled root row |
| `ContextMenu.MenuCascade.SetIndex` | `packages/app/src/ContextMenu.tsx:198-204` | Highlights one row of one panel |
| `ContextMenu.MenuCascade.CloseAfter` | `packages/app/src/ContextMenu.tsx:206-209` | Closes the deeper panels |
| `ContextMenu.MenuCascade.OpenChildren` | `packages/app/src/ContextMenu.tsx:211-224` | Highlights the row and opens its children, or closes the deeper panels |
| `ContextMenu.MenuCascade.InvokeOrOpen` | `packages/app/src/ContextMenu.tsx:291-294` | Opens children, else invokes an enabled action |
| `ContextMenu.MenuCascade.OnMenuKeyDown` | `packages/app/src/ContextMenu.tsx:296-322` | What each key does |
| `ContextMenu.MenuCascade.OnMouseEnter` | `packages/app/src/ContextMenu.tsx:414-417` | Hovering activates the panel and opens children without entering |
| `ContextMenu.MenuCascade.ReplaceRoot` | `packages/app/src/ContextMenu.tsx:146-160` | Replaced rows take the kept path |
| `ContextMenu.MenuCascade.Handle` | `packages/app/src/ContextMenu.tsx:134-322` | Any event on what is shown performs exactly one protocol step and keeps the invariant |
| `CurveEditor.PointerInvertsDrawingIff` | `packages/app/src/CurveEditor.tsx:12-231` | Over the reals, reading the pointer where a point is drawn gives that point back exactly when it lies within the axes |
| `CurveEditor.DrawnSomewhere` | `packages/app/src/CurveEditor.tsx:17-18` | Every point is drawn somewhere on every surface of positive size, so the statement above is about every point |
| `CurveEditor.PointFromEvent` | `packages/app/src/CurveEditor.tsx:222-231` | Whatever the pointer does, the point read lies within the axes |
| `CurveEditor.DraftStaysACurve` | `packages/app/src/CurveEditor.tsx:233-362` | Any mix of adds, drags and deletes keeps 1 to 4096 points at strictly increasing positions |
| `CurveEditor.DraftStaysWithin` | `packages/app/src/CurveEditor.tsx:222-362` | Positions and values stay within the span of 0..1 and the opened curve, for every stored curve, also one with values outside 0..1 |
| `CurveEditor.UnitValuesIff` | `packages/app/src/CurveEditor.tsx:222-362` | A draft's values are in 0..1 over all edits exactly when those of the opened curve are, if there is a draft at all |
| `CurveEditor.SelectionIsAPoint` | `packages/app/src/CurveEditor.tsx:127-411` | Over every history the selection is a point of the draft, exactly unless a point of a longer computed curve was picked past the draft's last one and since then no point of the draft was picked and the selection not given up |
| `CurveEditor.StraysIff` | `packages/app/src/CurveEditor.tsx:127-411` | Of all events exactly such a pick takes the selection outside the draft |
| `CurveEditor.ReselectsIff` | `packages/app/src/CurveEditor.tsx:233-411` | And exactly picking, adding or dragging a point of the draft, or deleting, brings it back |
| `CurveEditor.SelectionMayStray` | `packages/app/src/CurveEditor.tsx:127-411` | A run that does it: following an envelope, picking the last point of its longer curve, then cutting the link |
| `CurveEditor.DeleteRemovesIff` | `packages/app/src/CurveEditor.tsx:350-362` | The delete button removes exactly the selected point, and nothing exactly when the selection is outside the draft |
| `CurveEditor.DeleteButtonSafeIff` | `packages/app/src/CurveEditor.tsx:350-351` | The delete button never reads a missing draft, over all runs, exactly when the editor was opened on an input with its own curve |
| `CurveEditor.CutLinkFails` | `packages/app/src/CurveEditor.tsx:50-61` | The run that breaks it otherwise: opened while following, a computed point is selected, then the link is cut |
| `CurveEditor.AddRefusedIff` | `packages/app/src/CurveEditor.tsx:233-242` | A double click changes nothing exactly without an editable draft, at 4096 points, or at a taken position |
| `CurveEditor.SortingInOnePoint` | `packages/app/src/CurveEditor.tsx:238-241` | Sorting one new point in puts it at its place; it collides exactly when its position is taken |
| `CurveEditor.DeleteUndoesAdd` | `packages/app/src/CurveEditor.tsx:233-362` | An added point is the selected one, and deleting it restores the curve |
| `CurveEditor.DragFollowsPointerIff` | `packages/app/src/CurveEditor.tsx:244-265` | A dragged point goes where the pointer is exactly when that is strictly between its neighbours; its value always follows and no other point changes |
| `CurveEditor.PressingAPointKeepsItIff` | `packages/app/src/CurveEditor.tsx:244-278` | Pressing a point exactly where it is drawn leaves the curve as it was exactly when its value is in 0..1 and its position is not negative or is held by a neighbour at or before 0 |
| `CurveEditor.DraggingBeginsAndEnds` | `packages/app/src/CurveEditor.tsx:267-291` | A press drags only if the pointer is captured, only that pointer's release ends the drag, and moves after it change nothing |
| `CurveEditor.TargetDecidesWhatIsShown` | `packages/app/src/CurveEditor.tsx:127-176` | A change of the target shows the draft, or the envelope's curve once that is computed, and leaves the draft alone |
| `CurveEditor.CurvePanel.constructor` | `packages/app/src/CurveEditor.tsx:50-61` | A draft exists, and can be edited, exactly for an input opened with its own curve; nothing is selected or dragged |
| `CurveEditor.CurvePanel.AddPoint` | `packages/app/src/CurveEditor.tsx:233-242` | Adds, sorts and selects, or refuses |
| `CurveEditor.CurvePanel.MovePoint` | `packages/app/src/CurveEditor.tsx:244-265` | Moves only the dragged point, which keeps its position where it would reach a neighbour |
| `CurveEditor.CurvePanel.StartDrag` | `packages/app/src/CurveEditor.tsx:267-278` | Starts a drag unless the pointer cannot be captured |
| `CurveEditor.CurvePanel.FinishDrag` | `packages/app/src/CurveEditor.tsx:280-291` | Ends the drag of that pointer only |
| `CurveEditor.CurvePanel.DeleteSelected` | `packages/app/src/CurveEditor.tsx:350-362` | The filtering loop removes the selected index, if the draft has it |
| `CurveEditor.CurvePanel.Handle` | `packages/app/src/CurveEditor.tsx:50-362` | Any enabled event performs exactly one protocol step and keeps the draft a curve |
| `AppViewFlow.FlowItems` | `packages/app/src/AppView.tsx:516-572` | The projection, filling its sets as it goes, computes the flow that the rows below describe |
| `AppViewFlow.PlaceGroup` | `packages/app/src/AppView.tsx:529-558` | A group's rows, with the sets of rendered children and placed references exact afterwards |
| `AppViewFlow.AutomaticItems` | `packages/app/src/AppView.tsx:565-571` | Exactly the parameters and previews that are not placed, in registry order |
| `AppViewFlow.EveryPlacementOnce` | `packages/app/src/AppView.tsx:516-572` | For unique layout ids every placement is shown exactly once, and nothing else carries its id |
| `AppViewFlow.PlacementsShowAsTheyAre` | `packages/app/src/AppView.tsx:470-515` | Each item shows its placement for what it is: the parameter or preview it refers to, or that this is missing, or its text, button or group, with its rectangle at the top level only |
| `AppViewFlow.FlowIsInOrder` | `packages/app/src/AppView.tsx:516-572` | Placements that no group takes come in the order of the layout, then unplaced parameters in registry order, then unplaced previews in theirs |
| `AppViewFlow.ChildrenComeAsListed` | `packages/app/src/AppView.tsx:529-557` | A group's children come in the order in which it first lists them |
| `AppViewFlow.ChildrenSitUnderTheirFirstGroup` | `packages/app/src/AppView.tsx:523-557` | Groups are always at the top level, and hold exactly the children that they are the first group to list |
| `AppViewFlow.ShownOneWay` | `packages/app/src/AppView.tsx:520-571` | Every exposed parameter and preview is shown, by itself exactly when no placement shows it |
| `AppViewFlow.AllKeysDiffer` | `packages/app/src/AppView.tsx:502-508` | All flow keys, children's included, are distinct |
| `AppViewOrder.SplitKeepsAll` | `packages/app/src/AppView.tsx:579-586` | The grid and the fallback flow together hold every visible item exactly once |
| `AppViewOrder.GridIsInReadingOrder` | `packages/app/src/AppView.tsx:579-584` | Grid items come in reading order, ties in flow order |
| `AppViewOrder.FallbackKeepsFlowOrder` | `packages/app/src/AppView.tsx:585-586` | What flows below the grid has no rectangle and keeps the order of the flow |
| `AppViewOrder.VisibleItemsAre` | `packages/app/src/AppView.tsx:579-586` | While arranging every item is visible, otherwise all but those whose entry is gone |
| `AppViewOrder.OrderForMobile` | `packages/app/src/AppView.tsx:594-613` | The loop with its seen set computes the phone's order |
| `AppViewOrder.MobileKeepsAll` | `packages/app/src/AppView.tsx:593-613` | Whatever the customized order, the phone shows a permutation of grid items followed by fallback items |
| `AppViewOrder.NamedComeInOrder` | `packages/app/src/AppView.tsx:602-608` | Customized items come first, in order of their first mention |
| `AppViewOrder.OthersKeepOrder` | `packages/app/src/AppView.tsx:609-612` | All others keep their automatic relative order |
| `AppViewOrder.PhoneShowsTheVisibleItems` | `packages/app/src/AppView.tsx:516-613` | End to end: for every layout with unique ids, a phone shows exactly the visible items of the flow |
| `AppViewOrder.DefaultGridFor` | `packages/app/src/AppView.tsx:757-763` | The rectangle for a newly placed item is a valid cell of the size for its sort, starts at the lowest end of a placed item or at 0, and overlaps nothing on the grid |
| `AppViewOrder.PlacingIsSafeIff` | `packages/app/src/AppView.tsx:757-773` | It avoids every placed item of every view, hidden ones included, exactly while arranging, which is when the view offers it |
| `AppViewGestures.PendingIsACell` | `packages/app/src/AppView.tsx:817-936` | For every interleaving of pointer and keyboard gestures the pending rectangle keeps x and y at least 0, w and h at least 1 and x + w at most 12 |
| `AppViewGestures.OneCommandPerGesture` | `packages/app/src/AppView.tsx:810-949` | Each gesture sends at most one `setGrid`, only a changed valid cell, and a given-up gesture sends none |
| `AppViewGestures.EscapeIsFinal` | `packages/app/src/AppView.tsx:881-909` | After an Escape that is heard, none of the gestures there were is ever sent, whatever follows |
| `AppViewGestures.CancellingIsFinal` | `packages/app/src/AppView.tsx:875-880` | The same for a cancelled pointer, and for leaving the tab, the arranging mode or the breakpoint |
| `AppViewGestures.PendingIsNearest` | `packages/app/src/AppView.tsx:846-866` | The pending rectangle is the one cell, of those the handle can make, nearest to what the drag asks for |
| `AppViewGestures.DragSendsTheCell` | `packages/app/src/AppView.tsx:817-874` | A drag shows the cell under the pointer and on release sends exactly it, if it is another cell than before |
| `AppViewGestures.ReleasingSendsWhatIsShown` | `packages/app/src/AppView.tsx:868-949` | Releasing the pointer or the key of the gesture on show sends its pending cell exactly if that changed, and ends the gesture |
| `AppViewGestures.OthersAreIgnored` | `packages/app/src/AppView.tsx:846-949` | Other pointers, keys released elsewhere, arrows across a side handle and an Escape that nothing hears change nothing |
| `AppViewGestures.ArrowsMoveByOne` | `packages/app/src/AppView.tsx:916-935` | An arrow moves a placement by one cell where there is room, and with Shift sizes it by one |
| `AppViewGestures.ArrowsCountOn` | `packages/app/src/AppView.tsx:916-936` | The first arrow on a target starts from its cell, further ones count on, and nothing is sent before release |
| `AppViewGestures.ArrowIsOneStepOfThePointer` | `packages/app/src/AppView.tsx:916-935` | An arrow key does what the pointer does over one column or row |
| `AppViewGestures.PointerMovesDoNotAddUp` | `packages/app/src/AppView.tsx:846-867` | Only the last pointer position counts |
| `AppViewGestures.DragBackSendsNothing` | `packages/app/src/AppView.tsx:810-874` | A drag that ends where it began sends nothing |
| `AppViewGestures.RightThenLeftSendsNothingIff` | `packages/app/src/AppView.tsx:916-949` | Right then left on a placement sends nothing exactly when the step right had room, or neither step had |
| `AppViewGestures.GridGestures.CommitGridGesture` | `packages/app/src/AppView.tsx:810-815` | Sends the pending cell only if it differs from the start |
| `AppViewGestures.GridGestures.BeginGridPointer` | `packages/app/src/AppView.tsx:817-893` | Replaces the listeners and the gesture |
| `AppViewGestures.GridGestures.MovePointer` | `packages/app/src/AppView.tsx:846-867` | Shows the clamped cell counted from the start |
| `AppViewGestures.GridGestures.FinishPointer` | `packages/app/src/AppView.tsx:868-874` | Sends the gesture of this pointer, if it is the one on show |
| `AppViewGestures.GridGestures.CancelPointer` | `packages/app/src/AppView.tsx:875-880` | Drops the listeners and the gesture |
| `AppViewGestures.GridGestures.Escape` | `packages/app/src/AppView.tsx:881-909` | The focused placement first, then the window |
| `AppViewGestures.GridGestures.GridKeyDown` | `packages/app/src/AppView.tsx:910-936` | Continues the gesture of the same target or starts one |
| `AppViewGestures.GridGestures.GridKeyUp` | `packages/app/src/AppView.tsx:938-949` | Sends the gesture of this target |
| `AppViewGestures.GridGestures.ResetInteraction` | `packages/app/src/AppView.tsx:1156-1167` | Drops everything when the tab, arranging or breakpoint changes |
| `AppViewGestures.GridGestures.Handle` | `packages/app/src/AppView.tsx:810-949` | Any enabled event performs exactly one protocol step and keeps the invariant |
| `RemoteOptions.ShownOptionsAreGenuine` | `packages/app/src/AppView.tsx:988-1038` | Options shown for a row were the successful reply to a request of that row from its present client, route and authority |
| `RemoteOptions.ShownLoadingIsAlive` | `packages/app/src/AppView.tsx:988-1031` | A row that shows loading has a request of its present source that is neither settled nor aborted |
| `RemoteOptions.OldRepliesChangeNothing` | `packages/app/src/AppView.tsx:1019-1030` | A reply or failure of any but a row's newest request changes nothing |
| `RemoteOptions.RefreshNeverLosesOptions` | `packages/app/src/AppView.tsx:1000-1030` | Asking again keeps the options on show while loading and after a failure, and shows the new ones after a success |
| `RemoteOptions.OneLiveRequestPerRow` | `packages/app/src/AppView.tsx:1004-1010` | Of two requests of a row at least one is aborted |
| `RemoteOptions.UnmountingAbortsAll` | `packages/app/src/AppView.tsx:970-973` | Once the view is gone every request is aborted |
| `RemoteOptions.FocusAsksIff` | `packages/app/src/AppView.tsx:1000-1018` | Looking at a row asks once more, from its present client, route and authority and aborting its older requests, exactly when it does not show loading |
| `RemoteOptions.FirstOptionsAreShown` | `packages/app/src/AppView.tsx:1000-1030` | A row without options shows the first that arrive, and is unavailable when they fail to |
| `RemoteOptions.RemoteChoices.constructor` | `packages/app/src/AppView.tsx:966-969` | Nothing is loaded at first |
| `RemoteOptions.RemoteChoices.LoadRemoteOptions` | `packages/app/src/AppView.tsx:1000-1018` | Unless the row shows loading, aborts its request, starts the next and keeps options that still apply |
| `RemoteOptions.RemoteChoices.OnOptions` | `packages/app/src/AppView.tsx:1019-1023` | A heard reply under an unmoved authority is shown |
| `RemoteOptions.RemoteChoices.OnError` | `packages/app/src/AppView.tsx:1024-1030` | A heard failure leaves the options stale, or the row unavailable |
| `RemoteOptions.RemoteChoices.CleanUp` | `packages/app/src/AppView.tsx:970-973` | Unmounting aborts every request |
| `RemoteOptions.RemoteChoices.Handle` | `packages/app/src/AppView.tsx:966-1038` | Any enabled event performs exactly one protocol step and keeps the invariant |
| `AppLayoutGrid.OverlapIsSharing` | `packages/core/src/format/app-layout.ts:302-303` | Two rectangles overlap exactly when they share a unit square |
| `AppLayoutGrid.SortedIs` | `packages/core/src/format/app-layout.ts:306-325` | Sorting by rank, row, column and index orders all slots and loses none |
| `AppLayoutResolve.Resolve` | `packages/core/src/format/app-layout.ts:310-372` | A layout without overlaps is returned as it is. Otherwise nothing overlaps, only rows changed and the edited placement does not move; every placement lies where it was settled, on its own row or the first one with room beside those settled before it, except that those neither pushed nor edited have risen until something is in the way in every row above; there is no result exactly when some placement has no row within the safe integers, and a stack of all placements within them suffices for one |
| `AppLayoutResolve.ResolveGrids` | `packages/core/src/format/app-layout.ts:318-362` | Settling and compacting together give such a resolution |
| `AppLayoutResolve.PushedDown` | `packages/core/src/format/app-layout.ts:329-340` | A rectangle is pushed to the first row with room at or below its own, and given up exactly when no row that keeps it within the safe integers has room |
| `AppLayoutResolve.Settle` | `packages/core/src/format/app-layout.ts:326-343` | Each rectangle in turn lands on its first row with room beside those before it, and there is no result exactly when one has none; then no two overlap, the first did not move, and the pushed ones are exactly those that moved |
| `AppLayoutResolve.SettlingFits` | `packages/core/src/format/app-layout.ts:326-343` | Settling always succeeds when a stack of all rectangles below the lowest row ends within the safe integers |
| `AppLayoutResolve.SettlesIff` | `packages/core/src/format/app-layout.ts:319-343` | Settling gives exactly the places where each placement lies on its first row with room beside those that precede it: the edited one, then from the top, the left and the start of the list |
| `AppLayoutResolve.MovedUp` | `packages/core/src/format/app-layout.ts:347-361` | A rectangle moves up to the topmost row with room |
| `AppLayoutResolve.SomeCandidateIsFree` | `packages/core/src/format/app-layout.ts:348-354` | Trying only the first row and the rows just below others misses no higher place |
| `AppLayoutResolve.Compact` | `packages/core/src/format/app-layout.ts:345-362` | Each rectangle in turn that was neither pushed nor edited goes to its topmost row with room beside all others; everything stays apart and nothing moves down |
| `AppLayoutResolve.RaisingFreesNothingAbove` | `packages/core/src/format/app-layout.ts:345-362` | Raising a later placement makes no room above an earlier one, so one pass suffices |
| `AppLayoutResolve.EditedIsFirst` | `packages/core/src/format/app-layout.ts:319-325` | The edited placement is settled first |

## Left out

- Rendering, focus, ARIA text, styles, pixel measurement, tooltips and localisation.
- Tab, panel and split gestures of `App.tsx`: they would add only easy members here.
- `BoundaryPanel.tsx`, `CollabPanel.tsx`, `AssetFileLocation.tsx`, `CanvasSemanticNavigator.tsx`, `CompositorEditor.tsx`, `ExecutedImageViewer.tsx`: easy members, or smaller copies of what is proved for the panel.
- The image drawing, tracing and comparison scripts under `branding/`.
- Selection, keyboard roving and expansion of rows in the collection panel: they do not influence paging.
- Device discovery of the recorder, and the format name of a clip.
- The playhead that the audio transport publishes, and failures of `play()`.
- Writing a curve back to the document, its interpolation mode, and the histogram.
- Network, storage and the desktop bridge themselves: they are replies and effects in the models.
- The `exposedKey` strings: parameters and previews are compared by key only.
- The parsing of a stored layout, and the commands that write one: the models start from parsed items with unique ids, as the parser leaves them.
- The choice between adding and moving that `placeInGrid` makes once it has a rectangle.
- Safe-integer overflow of a default rectangle's lower edge.
- The pixel pitch of the grid: a pointer move is any whole number of columns and rows.
- AppViewGestures.GridGestures.Escape: the focused placement and the window hear one Escape in one step, as the browser delivers it.
- In-place change of the menu's, the curve's and the panel's arrays: the program replaces whole arrays in signals, and so does the model.
