# Capturr outbox, modelled in Dafny

Capturr is an iOS app that captures short notes and to-dos, by typing, by voice
or through the share sheet, and appends them as blocks to a Roam Research graph.
A capture never goes straight to the network. It is stored first as an outbox
record (`OutboxItem`). A sync worker later sends it through Roam's append-blocks
endpoint, at once or in a later pass.

This project models that path: the outbox record, the profile that configures it,
the sync worker's per-record state machine, the request the API client builds,
and the classification of its answer. It also models the screens and helpers
that put records into the outbox: the capture entry points, the to-do list
screen, the share extension, and the voice transcript clean-up. Finally it
models the profile get-or-create and the settings view model.

Modules, one per source file:

| module | file | models |
|---|---|---|
| `OutboxItems` | `outbox_item.dfy` | `SyncStatus`, `OutboxItemType`, `OutboxItem` and its initializer |
| `UserProfiles` | `user_profile.dfy` | `UserProfile` (a class: settings screens write through a reference) and `Appearance` |
| `Stores` | `store.dfy` | the SwiftData model context: records by id, profiles in insertion order, and the worker's static in-flight set |
| `Roam` | `roam_api.dfy` | `RoamLocation`, the request of `sendNoteBlock` / `sendTodoBlock` as a JSON tree, `RoamAPIError` and the response classification |
| `SyncWorkers` | `sync_worker.dfy` | `configuredContext`, `resolveLocation`, `decoratedContent`, `backoffDelay`, `syncPendingItems`, both `sync` methods |
| `SyncManagers` | `sync_manager.dfy` | `capture`, `captureNote`, `captureTodo` |
| `ProfileManagers` | `profile_manager.dfy` | `deviceUUID`, `getCurrentProfile` |
| `ProfileViewModels` | `profile_view_model.dfy` | `updateViewModel(with:)`, `saveChanges(context:)` |
| `TranscriptSanitizers` | `transcript_sanitizer.dfy` | `TranscriptSanitizer.clean` |
| `ShareViewControllers` | `share_view_controller.dfy` | `clamp`, `formatURLText`, the extraction and post guards, the loads and the post |
| `CaptureTodos` | `capture_todo.dfy` | `onSubmit`, `onChange` and `submit()` of the to-do screen |
| `Text`, `Clock`, `Options` | `text.dfy`, `clock.dfy`, `options.dfy` | trimming, joining, decimal numerals; seconds to local date and time, `HH:mm` and `MM-dd-yyyy`; `Option` |

The private `sync(_:using:profile:location:)` sends asynchronously. The model
splits it in two sequential steps:

- `SyncWorker.Dispatch` is the synchronous part. It claims the record, marks it
  in progress, counts the attempt and returns the call it makes.
- `SyncWorker.Complete` is the completion block that runs on the main queue. It
  takes the outcome as a `SendResult` and writes it to the record.

Anything may happen between the two steps. Time is whole seconds, passed in as
`now`. The backoff's random jitter is a parameter of 0 or 1 seconds.

## Model

| member | source | states |
|---|---|---|
| OutboxItems.StatusFromRaw | Capturr/Models/OutboxItem.swift:11-15 | a raw value names a status exactly when it is 0, 1, 2 or 3, and that status has that raw value |
| OutboxItems.StatusRawRoundTrip | Capturr/Models/OutboxItem.swift:11-15 | every status survives raw value and back, so the four raw values are distinct |
| OutboxItems.DescriptionsDistinct | Capturr/Models/OutboxItem.swift:17-24 | distinct statuses have distinct labels |
| OutboxItems.ItemTypeFromRaw | Capturr/Models/OutboxItem.swift:27-30 | a raw value names an item type exactly when it is 0 or 1, and that type has that raw value |
| OutboxItems.NewItem | Capturr/Models/OutboxItem.swift:44-58 | a new record keeps its content and type, is pending with no attempts, no sent time and no error; stamp, last attempt, retry time and hard error start absent; it is not latched |
| OutboxItems.NewNote | Capturr/Models/OutboxItem.swift:49 | the type defaults to note |
| UserProfiles.AppearanceFromRaw | Capturr/Models/UserProfile.swift:39-42 | a raw string names an appearance exactly when it is "light", "dark" or "system", and that case has that raw value |
| UserProfiles.Appearance.Id | Capturr/Models/UserProfile.swift:44 | the id of an appearance reads back as that appearance |
| UserProfiles.UserProfile.constructor | Capturr/Models/UserProfile.swift:15-35 | a new profile keeps the given id and appearance, the appearance defaulting to dark; every other setting has its declared default |
| UserProfiles.UserProfile.AppAppearance | Capturr/Models/UserProfile.swift:16-17 | the getter returns the case of the stored raw string, or system when no case carries it |
| UserProfiles.UserProfile.SetAppAppearance | Capturr/Models/UserProfile.swift:16-18 | the setter stores the raw value, and the getter then returns the value set |
| Stores.ClaimKeepsValid | Capturr/Helpers/SyncWorker.swift:117-124 | claiming a stored record and marking it in progress keeps the store invariant: records sit under their own ids and are never latched and sent at once, and only in-progress records are in flight |
| Stores.ReleaseKeepsValid | Capturr/Helpers/SyncWorker.swift:136-157 | writing back a consistent record and releasing its claim keeps the store invariant |
| Stores.Store.InsertItem | Capturr/Helpers/SyncManager.swift:22 | inserting a record under a fresh id adds exactly that record and keeps the store invariant |
| Stores.Store.InsertProfile | Capturr/Helpers/ProfileManager.swift:52 | inserting a profile appends it after the stored ones |
| Clock.ToLocal | Capturr/Helpers/SyncWorker.swift:42-46 | the local date and time of an instant has a valid month, day of month, hour and minute; the Gregorian date counts back to the instant's local day since 1970-01-01, and the hour and minute name the minute of that day the instant falls in |
| Clock.FormatHourMinute | Capturr/Helpers/SyncWorker.swift:42-46 | `HH:mm` is five characters, two digits reading as the hour, a colon and two digits reading as the minute |
| Clock.DateKeyRoundTrip | Capturr/Helpers/RoamAPI.swift:41-45 | the `MM-dd-yyyy` key reads back to its month, day and year of era, and is ten characters long for four-digit years |
| Text.TrimShape | Capturr/Helpers/TranscriptSanitizer.swift:17 | trimming yields the part of the string left after dropping whitespace and newlines at both ends, and what is left starts and ends with a non-whitespace character |
| Text.TrimIdempotent | Capturr/Helpers/TranscriptSanitizer.swift:17 | trimming a trimmed string changes nothing |
| Text.TrimEmptyIff | Capturr/Helpers/TranscriptSanitizer.swift:17-18 | trimming leaves nothing exactly when the string is whitespace only |
| Text.Join | Capturr/Helpers/SyncWorker.swift:54 | joining one part gives the part, and joining two gives them around the separator |
| Text.IntToString | Capturr/Helpers/RoamAPI.swift:103-105 | the rendering of an integer is its decimal numeral, with no leading zero, after a minus sign when negative |
| Roam.PayloadReadsBack | Capturr/Helpers/RoamAPI.swift:38-70 | the body names the location's page (the daily-note key or the title unchanged) and has one block holding the content exactly; it has a nest-under block exactly when the trimmed `nestUnder` is non-empty, and then holds the trimmed text |
| Roam.NoteRequest | Capturr/Helpers/RoamAPI.swift:31-76 | the request POSTs the payload of the content and location to the graph's append-blocks URL with the bearer token and a JSON content type |
| Roam.TodoIsMarkedNote | Capturr/Helpers/RoamAPI.swift:114-117 | a to-do request equals the note request in URL, method, headers, page and nesting, and its one block is the TODO marker followed by the content |
| Roam.StatusCodeOf | Capturr/Helpers/SyncWorker.swift:146-147 | an error that is not a `RoamAPIError` carries no status code |
| Roam.ServerMessage | Capturr/Helpers/RoamAPI.swift:92-100 | the server's explanation is the JSON body's `message` when that is a non-empty string, else the body's UTF-8 text when that is non-empty, else there is none; it is never empty |
| Roam.ErrorMessage | Capturr/Helpers/RoamAPI.swift:101-106 | the message is `HTTP <code> - <server message>`, or `HTTP <code>` when there is no server message |
| Roam.Classify | Capturr/Helpers/RoamAPI.swift:78-108 | a send succeeds exactly on an HTTP 200; any other HTTP status fails with a `RoamAPIError` carrying that code and the `HTTP <code>[ - <server message>]` message; a transport error fails with its own description, and a non-HTTP response with the `NoHTTPResponse` error; neither carries a code |
| Roam.ErrorMessageNamesStatus | Capturr/Helpers/RoamAPI.swift:101-107 | the message of a rejected request starts with `HTTP `, then the status code, then the end of the message or a space |
| SyncWorkers.ConfiguredContext | Capturr/Helpers/SyncWorker.swift:19-27 | there is a context exactly when the first profile has a non-empty graph name and a non-empty token; the client carries those two values and the profile is the first one |
| SyncWorkers.ResolveLocation | Capturr/Helpers/SyncWorker.swift:29-36 | with daily notes on, the daily note; otherwise the page of the trimmed custom location when that is non-empty, else the daily note; a page title is never empty and never starts or ends with whitespace |
| SyncWorkers.TagOf | Capturr/Helpers/SyncWorker.swift:49-51 | there is a tag exactly when the trimmed default tag is non-empty, and it is the trimmed tag |
| SyncWorkers.StampText | Capturr/Helpers/SyncWorker.swift:41-46 | the timestamp suffix is five characters with a colon in the middle |
| SyncWorkers.StampShowsTime | Capturr/Helpers/SyncWorker.swift:41-46 | the suffix's two fields read as the local hour and minute of the record's stamp instant, or of now when it has none |
| SyncWorkers.DecoratedContentCases | Capturr/Helpers/SyncWorker.swift:38-55 | the sent text is the content alone when there is neither a timestamp nor a tag; otherwise the content, a space, and the `HH:mm` then the tag, separated by single spaces |
| SyncWorkers.DecorationExample | Capturr/Helpers/SyncWorker.swift:38-55 | "Buy milk", first attempted at 09:05 UTC, with timestamps on and tag "#capture", is sent as "Buy milk 09:05 #capture" |
| SyncWorkers.DecorationReadsContentAndStamp | Capturr/Helpers/SyncWorker.swift:38-55 | of the record, the decoration depends only on its content and its stamp |
| SyncWorkers.BackoffBase | Capturr/Helpers/SyncWorker.swift:61-62 | the exponential base lies between 1 and 64 |
| SyncWorkers.BackoffDelay | Capturr/Helpers/SyncWorker.swift:57-65 | 60 for a 401 or 403; otherwise between 2^min(attempt, 6) and one more; never above 65 |
| SyncWorkers.BackoffBaseMonotone | Capturr/Helpers/SyncWorker.swift:61-62 | the base never shrinks as attempts grow, and is 64 from the sixth attempt on |
| SyncWorkers.SelectedIff | Capturr/Helpers/SyncWorker.swift:73-95 | a pass picks a record exactly when it is pending, not latched, not in flight, and has no retry time or one already reached |
| SyncWorkers.SelectedIds | Capturr/Helpers/SyncWorker.swift:73-95 | a pass picks only stored records |
| SyncWorkers.StartAttempt | Capturr/Helpers/SyncWorker.swift:120-131 | a start marks the record in progress at this instant and counts exactly one attempt; it takes the stamp only when timestamps are on and none is set, and never overwrites one; nothing else changes and the record stays consistent |
| SyncWorkers.FinishAttempt | Capturr/Helpers/SyncWorker.swift:136-156 | success: sent now, "OK", no retry, not latched. 401/403: pending, latched, no retry. Any other failure: pending, error recorded, latch unchanged, retry after the backoff for the attempt count (at once if the worker is gone). Success sets the latch to false. The id, content, type, creation time, last attempt time, attempt count and stamp are kept, and the record stays consistent |
| SyncWorkers.RequestOfReadsBack | Capturr/Helpers/SyncWorker.swift:127-134 | the request for a call posts to the graph's endpoint one block of the text (behind the TODO marker for a to-do), at the call's location, never nested under a block |
| SyncWorkers.StartAll | Capturr/Helpers/SyncWorker.swift:96-98 | a pass keeps the set of stored records |
| SyncWorkers.LatchedNeverSelected | Capturr/Helpers/SyncWorker.swift:89-90 | after a 401/403, no later pass picks the record |
| SyncWorkers.SoftFailureRetriedWhenDue | Capturr/Helpers/SyncWorker.swift:87-95 | after another failure, an unlatched record out of flight is picked again exactly once its retry time has come |
| SyncWorkers.InProgressNeverSelected | Capturr/Helpers/SyncWorker.swift:73-91 | a record left in progress is never picked by a pass |
| SyncWorkers.SecondPassStartsNothing | Capturr/Helpers/SyncWorker.swift:87-98 | a second pass at the same instant, before any completion, starts nothing |
| SyncWorkers.AttemptCountedOnce | Capturr/Helpers/SyncWorker.swift:131 | over a whole send the attempt count rises by exactly one |
| SyncWorkers.StampStableAcrossRetries | Capturr/Helpers/SyncWorker.swift:122-124 | with timestamps on, a retry sends the same text as the first attempt, whatever the outcome in between |
| SyncWorkers.SyncWorker.Dispatch | Capturr/Helpers/SyncWorker.swift:113-134 | a record in flight is left alone; otherwise it is claimed and started, and the call carries its decorated content to the location; the store invariant holds |
| SyncWorkers.SyncWorker.Complete | Capturr/Helpers/SyncWorker.swift:134-159 | the outcome is written to the record if it is still stored, the claim is released, and the store invariant holds |
| SyncWorkers.SyncWorker.SyncPendingItems | Capturr/Helpers/SyncWorker.swift:67-99 | without a configured profile nothing changes; otherwise exactly the picked records are started and put in flight, each with its call, and no other record changes |
| SyncWorkers.SyncWorker.StartEach | Capturr/Helpers/SyncWorker.swift:96-98 | each record of the set is started once and put in flight, with its call; no other record changes |
| SyncWorkers.SyncWorker.Sync | Capturr/Helpers/SyncWorker.swift:101-111 | without a configured profile, or for a sent, in-progress or in-flight record, nothing changes; otherwise the record is started and put in flight, with its call |
| SyncManagers.SyncManager.Capture | Capturr/Helpers/SyncManager.swift:20-24 | exactly one record is added under the fresh id with the content and type; no other record changes; with a configured profile it is started at once, otherwise it stays a new pending record |
| SyncManagers.SyncManager.CaptureNote | Capturr/Helpers/SyncManager.swift:26-28 | a capture of type note; it is sent exactly when a profile is configured |
| SyncManagers.SyncManager.CaptureTodo | Capturr/Helpers/SyncManager.swift:30-32 | a capture of type to-do; it is sent exactly when a profile is configured |
| ProfileManagers.FirstWithId | Capturr/Helpers/ProfileManager.swift:33-39 | a found position holds a profile with the id |
| ProfileManagers.FirstWithIdIsFirst | Capturr/Helpers/ProfileManager.swift:33-43 | the fetch finds the earliest profile with the id, and finds nothing exactly when no profile has it |
| ProfileManagers.FirstWithIdAfterAppend | Capturr/Helpers/ProfileManager.swift:48-52 | appending a profile does not move the first one with an id; if none had the id, the appended one is found |
| ProfileManagers.ProfileManager.DeviceUuid | Capturr/Helpers/ProfileManager.swift:16-24 | the stored id is returned if there is one; otherwise the fresh one is stored and returned; afterwards the returned id is stored |
| ProfileManagers.ProfileManager.GetCurrentProfile | Capturr/Helpers/ProfileManager.swift:31-56 | an existing profile under the device id is returned and nothing is inserted; otherwise exactly one new dark profile under that id is appended; either way it is then the first profile under the stored id, so a second call returns it again |
| ProfileManagers.ProfileManager.FetchOrCreate | Capturr/Helpers/ProfileManager.swift:40-55 | the fetch-or-insert half of `getCurrentProfile` once the device id is stored |
| ProfileViewModels.LoadThenSave | Capturr/Helpers/ProfileViewModel.swift:31-59 | loading and saving without edits gives back every stored setting exactly when the stored appearance is a known one; an unknown one becomes "system" |
| ProfileViewModels.SaveThenLoad | Capturr/Helpers/ProfileViewModel.swift:31-59 | saving and then loading shows the edited settings unchanged |
| ProfileViewModels.ProfileViewModel.constructor | Capturr/Helpers/ProfileViewModel.swift:14-22 | before loading: appearance system, not ready, no timestamp, daily notes on, every optional setting absent |
| ProfileViewModels.ProfileViewModel.UpdateViewModel | Capturr/Helpers/ProfileViewModel.swift:31-42 | the profile is remembered, its eight settings are shown, and the screen is ready |
| ProfileViewModels.ProfileViewModel.SaveChanges | Capturr/Helpers/ProfileViewModel.swift:45-62 | with no loaded profile nothing changes; otherwise the profile's eight settings become the screen's, and its id and share-format preference are kept |
| TranscriptSanitizers.Clean | Capturr/Helpers/TranscriptSanitizer.swift:16-24 | the result is empty or the trimmed transcript |
| TranscriptSanitizers.BlankCleansToEmpty | Capturr/Helpers/TranscriptSanitizer.swift:17-18 | a blank transcript cleans to nothing |
| TranscriptSanitizers.CleanEmptyIff | Capturr/Helpers/TranscriptSanitizer.swift:17-23 | a transcript cleans to nothing exactly when it is all whitespace and listed punctuation; otherwise it cleans to its trimming |
| TranscriptSanitizers.FillerSurvivesTrim | Capturr/Helpers/TranscriptSanitizer.swift:17-20 | the trimmed transcript is all filler exactly when the transcript is |
| TranscriptSanitizers.CleanIdempotent | Capturr/Helpers/TranscriptSanitizer.swift:16-24 | cleaning twice is cleaning once |
| ShareViewControllers.Clamp | Sharing/ShareViewController.swift:94-98 | the result is a prefix of the text no longer than the limit; the text itself when it fits, else exactly `limit` characters |
| ShareViewControllers.FormatUrlText | Sharing/ShareViewController.swift:71-91 | the result is the formatted text when it has at most 50,000 characters, else its first 50,000 characters |
| ShareViewControllers.UrlText | Sharing/ShareViewController.swift:74-90 | the formatted text before clamping: `[visible](url)` with links, visible being the trimmed title or the url when that is blank; without links, `title - url` when the trimmed title is non-empty and differs from the url, else the url |
| ShareViewControllers.FitsUnclamped | Sharing/ShareViewController.swift:79-90 | a url and title short enough to fit are formatted without being cut |
| ShareViewControllers.TitleOf | Sharing/ShareViewController.swift:73 | the cleaned title is no longer than the given one |
| ShareViewControllers.LinkFormat | Sharing/ShareViewController.swift:79-83 | a link text ends with the url in full followed by `)` |
| ShareViewControllers.PlainFormat | Sharing/ShareViewController.swift:86-90 | a plain text ends with the url in full |
| ShareViewControllers.PlainTextOf | Sharing/ShareViewController.swift:106-113 | a plain-text load yields text exactly for a string or for data that decodes as UTF-8, and that text is the string or the decoding |
| ShareViewControllers.UrlOf | Sharing/ShareViewController.swift:124-135 | an error or an unknown item yields no URL; a URL object yields its absolute string; a string or data yields the absolute string of the URL it parses as, and nothing (so the extension closes) when it does not parse |
| ShareViewControllers.ShareViewController.constructor | Sharing/ShareViewController.swift:28-31 | nothing extracted, nothing saved, no text, not closed |
| ShareViewControllers.ShareViewController.ViewDidAppear | Sharing/ShareViewController.swift:33-67 | extraction runs once; plain text is loaded before a URL; a URL load gets the trimmed page title; with no attachment or neither type the extension closes |
| ShareViewControllers.ShareViewController.PlainTextLoaded | Sharing/ShareViewController.swift:101-116 | delivered text, clamped, becomes the editor's text; otherwise the extension closes |
| ShareViewControllers.ShareViewController.UrlLoaded | Sharing/ShareViewController.swift:119-138 | a delivered URL becomes the editor's text, formatted by the first profile's preference; otherwise the extension closes |
| ShareViewControllers.ShareViewController.OnPost | Sharing/ShareViewController.swift:144-159 | the post acts once; whitespace-only text inserts nothing; other text is inserted, trimmed, as one new note; the extension closes |
| CaptureTodos.DropEmpty | Capturr/Views/Capture/CaptureTodo.swift:67 | the kept entries are non-empty and no more than the given ones |
| CaptureTodos.DropEmptyAppend | Capturr/Views/Capture/CaptureTodo.swift:67 | the filter keeps the order of a list made of two parts |
| CaptureTodos.NonEmptyTodosAppend | Capturr/Views/Capture/CaptureTodo.swift:65-67 | the entries of a list made of two parts are those of the first part, then those of the second |
| CaptureTodos.TrimAllAppend | Capturr/Views/Capture/CaptureTodo.swift:66 | trimming every entry of two parts is trimming each part |
| CaptureTodos.NonEmptyTodosSingle | Capturr/Views/Capture/CaptureTodo.swift:65-67 | one entry yields its trimming, unless that is empty |
| CaptureTodos.DropEmptyEmptyIff | Capturr/Views/Capture/CaptureTodo.swift:67 | the filter keeps nothing exactly when every entry is empty |
| CaptureTodos.NonEmptyTodosEmptyIff | Capturr/Views/Capture/CaptureTodo.swift:65-69 | nothing is left to submit exactly when every entry is whitespace only |
| CaptureTodos.WithTodosAdds | Capturr/Views/Capture/CaptureTodo.swift:71-74 | inserting the to-dos under distinct fresh ids adds exactly those records, each a new to-do with its entry, and keeps every other record |
| CaptureTodos.CaptureTodoScreen.constructor | Capturr/Views/Capture/CaptureTodo.swift:13-14 | the screen opens with one empty entry and nothing focused |
| CaptureTodos.CaptureTodoScreen.OnSubmit | Capturr/Views/Capture/CaptureTodo.swift:27-34 | before the last entry, focus moves to the next one and the list is unchanged; from the last entry, one empty entry is appended and focused |
| CaptureTodos.CaptureTodoScreen.OnChange | Capturr/Views/Capture/CaptureTodo.swift:35-39 | a non-empty last entry gets exactly one empty entry appended; the entries already there stay |
| CaptureTodos.CaptureTodoScreen.Submit | Capturr/Views/Capture/CaptureTodo.swift:64-77 | with no non-blank entry nothing is inserted and the screen stays; otherwise one new to-do per non-blank entry is inserted, trimmed, under fresh ids taken in list order, and the screen is dismissed |

## Left out

- Voice capture, the SwiftUI screens other than the to-do list, and app wiring (`CapturrApp`, `SharedModelContainer`). These are presentation, framework glue or audio.
- The network transport. The request is a JSON tree, not the bytes `JSONSerialization` makes. A response enters as a value that already holds its parsed JSON and its UTF-8 decoding. An invalid graph URL (`URL(string:)` returning nil) is not modelled.
- Persistence. `modelContext.save()` is a no-op, its errors are dropped, and every change is visible at once. A throwing `fetch` in `getCurrentProfile` is not modelled. A failing fetch in `configuredContext`, `syncPendingItems` or the share extension is treated as an empty store.
- Fetch order. "The first profile" is the first in insertion order. The records a pass starts are a set, so the order in which they are sent is not modelled.
- Concurrency. A send is the two steps `Dispatch` and `Complete`. The `Task` and the main-queue hops are not modelled. Nor are the share extension's weak `self` in the load completions: the controller is assumed alive.
- Identifiers, `Date()` and the UTC offset are parameters. A capture uses the same `now` for its creation time and its first attempt. The time zone is one fixed offset from UTC, with no daylight-saving changes.
- SyncWorkers.BackoffDelay: the jitter is a whole second (0 or 1), not a real number drawn from [0, 1]. So the retry time is whole seconds too.
- The worker's weak `self` becomes the parameter `workerAlive` of `Complete`. When it is false the delay is 0, as `?? 0` gives.
- Integers are unbounded: a 64-bit overflow of `attemptCount` or of a time is not modelled.
- Strings are sequences of Unicode scalars. `clamp` counts and cuts by scalar, whereas Swift counts grapheme clusters. `clean` checks scalars, as the source does.
- The `DateFormatter` calendar: the daily-note key is built from the local date of the day the request is made, which `RequestOf` takes as a parameter; dates are proleptic Gregorian, and the year is printed as the year of era.
- `RoamAPI.sendNoteBlock`'s `nestUnder` is modelled in the payload, but the worker never passes one, as in the code.
- Behaviour the code does not have: re-selection of records stuck in progress, a cap on sends per pass, reachability gating, periodic passes, `customBlock` as the block to nest under, and any assignment of status `failed`. The model follows the code.
- `ProfileManager.updateProfile` only saves, and saving is not modelled.
- CaptureTodos.CaptureTodoScreen.Submit: the to-dos of one submit share one creation time `now`, whereas each `OutboxItem()` in the source reads its own `Date()`. The history screen's order by `createdAt` among them is therefore not modelled.
- Deleting a record from the history screen is not modelled. The store invariant `Stores.ValidState` assumes every in-flight id is stored, which such a deletion during a send would break; `Complete` still handles a record that is gone.
- Failed `UserProfile` fetches in the share extension (`try?`) read as "no profile", so plain formatting is used.
