# GLPI new-ticket monitor: background worker model

This project models the background service worker of a browser extension
that polls a GLPI helpdesk for tickets with status "new" (background.js).
On every alarm tick the worker reads its stored configuration, opens a
session, fetches one page of new tickets, and sorts that page itself,
descending on the ticket id. It then compares the newest id with the stored
watermark `lastTicketId`. When the id is larger, it plays an alert sound
through an offscreen document, stores the new watermark and shows a red `!`
badge. The worker also registers the `checkTicketsAlarm` alarm, re-registers
it when the stored interval changes, and clears the badge when the icon is
clicked.

Layout:

- `wrappers.dfy` (module `Wrappers`): `Option`, used for absent stored keys and absent response fields.
- `tickets.dfy` (module `Tickets`): search rows, the reference maximum `MaxId`, and the in-place descending insertion sort on an `array<Row>` with its proofs.
- `background.dfy` (module `Background`): three parts.
  - The abstract browser state `Snapshot`: stored keys, badge, offscreen documents, `play` messages and the alarm registry.
  - One spec function per handler (`Classify`, `Tick`, `PlaySound`, `RegisterAlarm`, `AlarmRang`, `StorageChanged`, `SavedOptions`, `IconClicked`), with lemmas about them.
  - Class `Extension`. It holds the same state in fields, and each of its methods is proved to move the state exactly as the matching spec function does.

The two GLPI requests are not performed. Their outcome is an input of the
tick (`GlpiResponse`): authentication failed, search failed, a body that is
not JSON, or a search body whose `data` field may be absent.

Notes on the code's behaviour:

- The search requests only the id column (`forcedisplay[0]=2`). background.js never reads a ticket title.
- The extension has no `showNotifications` key, no system notification and no click-through. `getStoredConfig` reads five keys.
- On detection, background.js requests the sound before it writes the watermark. The model treats the tick as one atomic step, so this order is not visible.
- `storage.onChanged` re-registers the alarm whenever `checkInterval` is among the changed keys. It does not compare the old and new values itself.
- The options page (options.js:2-13) is the only writer of the URL, the tokens and the interval. Its save is modelled as an event, so the stored configuration can change while the worker runs.

## Model

| member | source | states |
|---|---|---|
| `Tickets.MaxId` | background.js:69-72 | the id the sorted page starts with: some row carries it and no row has a larger one |
| `Tickets.MaxIdOfPermutation` | background.js:69-72 | reordering the fetched rows does not change the largest id |
| `Tickets.SortedHeadIsMax` | background.js:69-72 | a descending-ordered permutation of the page has the page's largest id at index 0 |
| `Tickets.SortDescending` | background.js:69 | the in-place sort leaves the array ordered non-increasing on the id column and a permutation of the fetched rows |
| `Tickets.InsertDescending` | background.js:69 | one insertion step of the sort: the ordered prefix grows by one row, the rows after it are untouched, and the array stays a permutation of the fetched rows |
| `Tickets.LatestTicket` | background.js:66-72 | `tickets[0]` after the sort is one of the fetched rows, and no fetched row has a larger id |
| `Background.Watermark` | background.js:36 | `lastTicketId \|\| 0`: an absent key reads as watermark 0, and any stored number reads as itself |
| `Background.Classify` | background.js:29-86 | the tick returns early exactly when the URL or a token is absent or empty; it reports a caught error exactly on a failed request; it finds no ticket exactly when `data` is absent or empty; a detection is the page's largest id and is above the watermark; otherwise the largest id is at most the watermark |
| `Background.AlarmPeriod` | background.js:97 | `checkInterval \|\| 0.5`: the stored interval when it is set and non-zero, otherwise half a minute |
| `Background.UnconfiguredTickChangesNothing` | background.js:29-32 | with the URL or a token absent or empty, the tick returns before any request and changes nothing |
| `Background.FailedRequestChangesNothing` | background.js:38-89 | a failed session, a failed search or an unreadable body is caught and leaves the whole state unchanged |
| `Background.EmptyPageChangesNothing` | background.js:66-86 | an absent `data` field behaves as an empty page, and an empty page changes nothing |
| `Background.TickEffects` | background.js:75-83 | a detection requests exactly one sound, sets the watermark to the page's largest id, sets badge `!` on `#FF0000`, and changes nothing else; without a detection the state is unchanged |
| `Background.TickNeverLowersWatermark` | background.js:75-78 | the watermark never decreases; it changes only to the page's largest id, and only when that id exceeds the old watermark |
| `Background.TickIdempotent` | background.js:36-78 | a second tick over the same server answer changes nothing |
| `Background.TickIgnoresRowOrder` | background.js:66-75 | two pages holding the same rows in different orders lead to the same new state |
| `Background.UnsortedPageDetectsLargest` | background.js:69-78 | over watermark 100, the page [101, 105, 50] is detected as ticket 105 and 105 is stored |
| `Background.RegisterAlarmLeavesOne` | background.js:95-105 | from any registry holding at most `checkTicketsAlarm`, including one whose alarm still runs at an interval since overwritten: afterwards exactly one alarm exists, `checkTicketsAlarm`, with delay 1 minute and period equal to the stored interval or 0.5; the full invariant holds again |
| `Background.RegisterAlarmIdempotent` | background.js:101-104 | registering under the same name replaces the alarm: a second registration changes nothing, and the registry grows only when the name was absent |
| `Background.OtherAlarmsIgnored` | background.js:107-111 | an alarm under any other name does not start a tick |
| `Background.StorageChangeRearmsOnlyOnInterval` | background.js:113-118 | a change without `checkInterval` (such as the tick's own watermark write) leaves the state unchanged; a change with it replaces `checkTicketsAlarm` with delay 1 and the stored period, and changes nothing else |
| `Background.ClickKeepsWatermark` | background.js:130-132 | clicking the icon empties the badge text and leaves the stored keys, including `lastTicketId`, untouched |
| `Background.SavedInterval` | options.js:12 | the interval the options page stores is the parsed value when that value is at least 0.5, and exactly 0.5 otherwise (NaN included) |
| `Background.SavedIntervalPeriod` | options.js:12 | with an interval saved by the options page, the alarm period is that interval and is at least half a minute |
| `Background.SaveOptionsMovesAlarm` | options.js:8-13 | saving stores the URL, both tokens and the clamped interval, and leaves `lastTicketId` alone; the tick is configured afterwards exactly when all three strings are non-empty; a changed interval re-arms the alarm at the saved interval; an unchanged one leaves the alarm as it was; nothing else changes |
| `Background.PlaySoundTimesAtMostOneDocument` | background.js:8-23 | after any number of sound requests at most one offscreen document exists, exactly one after the first request, and every request sends one `play` |
| `Background.RunKeepsInvariantAndWatermark` | background.js:107-132 | over any sequence of handled events, options saves included: at most one offscreen document; no alarm except `checkTicketsAlarm`, which has delay 1 and runs at the interval currently stored; the watermark never decreases |
| `Background.Extension.PlayNotificationSound` | background.js:8-23 | creates the offscreen document only when none exists, then sends one `play`; afterwards exactly one document exists |
| `Background.Extension.CheckNewTickets` | background.js:25-90 | the tick, with its in-place sort, returns the branch `Classify` decides and moves the state exactly as `Tick` |
| `Background.Extension.CreateOrUpdateAlarm` | background.js:95-105 | the registry afterwards holds only `checkTicketsAlarm`, as `RegisterAlarm` describes |
| `Background.Extension.OnAlarm` | background.js:107-111 | runs the tick only for `checkTicketsAlarm` |
| `Background.Extension.OnStorageChanged` | background.js:113-118 | re-registers the alarm exactly when `checkInterval` is among the changed keys, which brings the alarm back in line with a newly stored interval |
| `Background.Extension.SaveOptions` | options.js:8-13 | writes the four keys of the options form, then runs the change listener on the keys whose value changed; the state moves as `SavedOptions` says |
| `Background.Extension.OnInstalled` | background.js:120-123 | registers the alarm on install |
| `Background.Extension.OnStartup` | background.js:125-128 | registers the alarm on browser start |
| `Background.Extension.OnActionClicked` | background.js:130-132 | clears the badge text and nothing else |
| `Background.Extension.Handle` | background.js:107-132 | dispatches an event to its listener; the state moves as `Step` says, and the invariant is kept |

## Left out

- HTTP is not modelled: `fetch`, headers, `URLSearchParams`, the session token and JSON parsing (background.js:39-65) are I/O. Their outcome enters the tick as a `GlpiResponse`.
- The search query is not modelled: status "new", `is_deleted=0` and `range=0-24` are decided by the server. The page may therefore have any length, and a newest ticket that falls outside the first 25 rows is not detected.
- The `chrome.*` APIs are foreign calls. They are replaced by the fields of `Snapshot`; `badgeColor` is `None` while the browser's default colour shows.
- Console logging is left out. The branch it reports is returned as `TickReport` instead.
- offscreen.js plays an audio element when `play` arrives. Only the sending of `play` is modelled, as a count.
- options.js also reads form fields, restores them on load and runs a status timer; this is DOM I/O. Only its save is modelled: the write of four keys with the clamped interval (`SavedOptions`). Real numbers stand in for JavaScript floats, and NaN is `None`.
- The `changes` object of `storage.onChanged` is modelled as holding the keys whose stored value differs (`ChangedKeys`). When a save rewrites an unchanged interval, the alarm stays as it was. If the browser also reported that key, the alarm would be re-created with the same delay and period. Only its firing time would change, and alarm timing is not modelled.
- Rows always carry an integer id. A row without column 2, whose comparator result would be NaN, is not modelled.
- Async interleaving is not modelled: the un-awaited calls on background.js:77-78 and overlapping alarm ticks. Each handler runs as one atomic step. A storage or offscreen call that rejects is also not modelled.
- The session opened by each tick is never closed. The model has no session state.
