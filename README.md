# MeetingBar reminder scheduling, modelled in Dafny

This project models the reminder policy of MeetingBar's `Notifications.swift`. From a
calendar event's start and end, the current time and the user's settings, the app
decides which pending reminder requests to place in the platform notification
centre. It also decides what each request carries: fire delay, title, body template key,
category and event id. It snoozes the start reminder and cancels one reminder slot by
identifier. Finally, it chooses between a push notification and a modal alert.

Two modules:

- `NotificationModel` (`notification_model.dfy`) holds the pure parts:
  - the settings, enums, events and requests as datatypes;
  - the body-key `switch`es, the title rule and the interval arithmetic;
  - the channel predicate and the registered categories, as data;
  - each store operation as a function on the pending map `map<string, Request>`:
    `Added`, `Removed`, `Scheduled` and `Snoozed`;
  - the lemmas that state the scheduling rules.
- `Notifications` (`notifications.dfy`) holds the class `NotificationCenter`. Its field
  `pending` is the platform's pending-request store. Its methods follow the Swift
  functions statement by statement: remove the start slot, build the content, `add`,
  and leave early with `return`. Each method's postcondition equates the new store with
  the `NotificationModel` function applied to the old one. Each method also keeps the
  invariant `Valid()` (`Add` keeps it for a request under a slot identifier, which is
  every request the app adds): every pending request sits under one of the two slot identifiers,
  and that identifier is its own.

Modelling conventions:

- Times are integer milliseconds. The Swift code works in `Double` seconds, so its
  `timeInterval < 0.5` guard becomes `< 500`.
- Three functions of enum cases are defined in files that are not part of this model:
  the `rawValue` of the two lead-time enums and `NotificationEventTimeAction.durationInSeconds`.
  The model takes them as a parameter (`EnumValues`): arbitrary functions from the enum
  case to a non-negative number of seconds. It assumes nothing about their values.
- `notificationIDs.event_starts` and `notificationIDs.event_ends` are also defined
  elsewhere. They are the constants `"event_starts"` and `"event_ends"` here; only their
  being distinct matters.
- Localised strings are their localisation keys (`"general_meeting"`,
  `"notifications_event_start_five_minutes_body"`, ...).
- The end reminder sets no category. It carries the platform default, the empty string.
- The clock (`Date()`) and the `Defaults` store are parameters: `now`, `defaults`.

The code returns from the whole of `scheduleEventNotification` when the start reminder is
less than 0.5 s away (lines 141-143). A start reminder that is too late therefore also
prevents the end reminder, even when that one is enabled and still ahead. The model
follows the code. It does not skip the two slots independently. One consequence: once the
start reminder's time has passed, a later change to the event's end time no longer reaches
the pending end reminder, which keeps its old delay.
`LateStartAbortsScheduling` states this behaviour.

## Model

| member | source | states |
|---|---|---|
| NotificationModel.StartBodyKey | MeetingBar/Notifications.swift:159-168 | each start lead time gets its own body key, which decodes back to that lead time and is neither an end-reminder key nor the snooze key |
| NotificationModel.EndBodyKey | MeetingBar/Notifications.swift:204-213 | each end lead time gets its own body key, which decodes back to that lead time and is neither a start-reminder key nor the snooze key |
| NotificationModel.StartBodyKeyDecodes | MeetingBar/Notifications.swift:159-168 | a key is the start body of lead time t exactly when it decodes to t (both directions) |
| NotificationModel.EndBodyKeyDecodes | MeetingBar/Notifications.swift:204-213 | a key is the end body of lead time t exactly when it decodes to t (both directions) |
| NotificationModel.Title | MeetingBar/Notifications.swift:150-154 | the title is the key "general_meeting" when the meeting title is hidden, and the event's title otherwise; the same rule is used at lines 195-199 and 238-242 |
| NotificationModel.StartInterval | MeetingBar/Notifications.swift:138-139 | the start delay plus the lead time, counted from now, lands exactly on the event's start |
| NotificationModel.EndInterval | MeetingBar/Notifications.swift:185-186 | the end delay plus the lead time, counted from now, lands exactly on the event's end |
| NotificationModel.StartRequest | MeetingBar/Notifications.swift:149-175 | the start request sits under event_starts, fires the lead time before the start, once, in "EVENT", with the event's id and the body of the configured lead time |
| NotificationModel.EndRequest | MeetingBar/Notifications.swift:194-220 | the end request sits under event_ends, fires the lead time before the end, once, with no category, the event's id and the body of the configured end lead time |
| NotificationModel.SnoozeRequest | MeetingBar/Notifications.swift:235-258 | the snooze request sits under event_starts, once, in "SNOOZE_EVENT", with the "event started" body (no lead-time body) and the event's id; snoozing until start fires at the event's start |
| NotificationModel.Scheduled | MeetingBar/Notifications.swift:127-227 | scheduling never drops a pending entry, and every entry it adds or changes is under a slot id and carries that id |
| NotificationModel.Snoozed | MeetingBar/Notifications.swift:229-266 | snoozing keeps every pending identifier, adds event_starts if absent, and the start-slot entry carries its slot id |
| NotificationModel.SnoozeInterval | MeetingBar/Notifications.swift:235-246 | the snooze delay is the action's duration, except that "until start" makes now + delay equal the event start |
| NotificationModel.Added | MeetingBar/Notifications.swift:175-180 | adding a request makes it the only entry under its identifier and leaves every other identifier's entry as it was |
| NotificationModel.Removed | MeetingBar/Notifications.swift:268-272 | removing by identifier deletes that entry and leaves every other entry as it was |
| NotificationModel.BothRemindersOffIsNoOp | MeetingBar/Notifications.swift:127-130 | with both reminders switched off, scheduling leaves the store unchanged |
| NotificationModel.LateStartAbortsScheduling | MeetingBar/Notifications.swift:137-143 | an enabled start reminder less than 500 ms ahead aborts the whole call, so neither slot changes, the end slot included |
| NotificationModel.StartSlotScheduled | MeetingBar/Notifications.swift:137-180 | a start reminder that is due places one entry under event_starts. It fires at start minus lead time, once, with category "EVENT", the event's id, the title rule, and the body of the configured lead time |
| NotificationModel.EndSlotScheduled | MeetingBar/Notifications.swift:184-225 | a due end reminder (start not aborted) is the one entry under event_ends. It fires at end minus lead time, once, with no category, the event's id, the title rule, and the body of the configured end lead time |
| NotificationModel.EndSlotUntouchedUnlessScheduled | MeetingBar/Notifications.swift:136-190 | when no end reminder is placed, the end-slot entry is exactly as before, whatever happens to the start slot |
| NotificationModel.StartSlotUntouchedUnlessScheduled | MeetingBar/Notifications.swift:137-181 | with the start reminder switched off, the start-slot entry is exactly as before |
| NotificationModel.ScheduledTouchesOnlySlots | MeetingBar/Notifications.swift:127-227 | scheduling changes no entry other than the two slots |
| NotificationModel.ScheduledKeepsSlotDiscipline | MeetingBar/Notifications.swift:145-220 | scheduling keeps every pending request under one of the two slot ids, each under its own id |
| NotificationModel.ScheduledIdempotent | MeetingBar/Notifications.swift:145-220 | scheduling again with the same inputs leaves the store as the first call left it |
| NotificationModel.ScheduledTimesIsScheduledOnce | MeetingBar/Notifications.swift:127-227 | any number N >= 1 of identical scheduling calls leaves the same store as one call |
| NotificationModel.SlotDisciplineBoundsSize | MeetingBar/Notifications.swift:175-258 | a store that keeps the slot discipline holds at most two pending requests, one per slot |
| NotificationModel.SnoozeUntilStartFiresAtStart | MeetingBar/Notifications.swift:244-246 | snoozing until start places a start-slot request that fires exactly at the event's start, whatever now is |
| NotificationModel.SnoozeFixedDelay | MeetingBar/Notifications.swift:235 | any other snooze fires its action's duration after now, independent of the event's times |
| NotificationModel.SnoozeReplacesStartSlotOnly | MeetingBar/Notifications.swift:229-258 | snooze always places a start-slot request, with no 0.5 s guard. It is non-repeating, in "SNOOZE_EVENT", with the "event started" body, the event's id and the title rule. Every other entry, the end slot included, is unchanged |
| NotificationModel.SnoozedKeepsSlotDiscipline | MeetingBar/Notifications.swift:229-258 | snoozing keeps every pending request under one of the two slot ids, each under its own id |
| NotificationModel.CancelLeavesOtherSlot | MeetingBar/Notifications.swift:268-272 | cancelling one slot removes it and never the other slot's reminder |
| NotificationModel.NotificationsEnabled | MeetingBar/Notifications.swift:81-97 | push is usable exactly when the alert style is banner or alert (not none) and authorization is not denied |
| NotificationModel.SendNotification | MeetingBar/Notifications.swift:102-112 | the title and text reach exactly one channel unchanged; the push path is taken exactly when notifications are enabled, and the modal alert otherwise |
| NotificationModel.DeniedFallsBackToAlert | MeetingBar/Notifications.swift:105-111 | with authorization denied, every alert style leads to the modal alert with the same title and text |
| NotificationModel.RegisterNotificationCategories | MeetingBar/Notifications.swift:19-46 | two categories, "EVENT" with four distinct actions and "SNOOZE_EVENT" with the same actions in order minus snooze-until-start |
| NotificationModel.PendingCategoriesAreRegistered | MeetingBar/Notifications.swift:36-50 | whenever scheduling places a start reminder (the slot empty or already occupied), and after every snooze, the start-slot entry's category is one of the registered categories |
| Notifications.NotificationCenter.Add | MeetingBar/Notifications.swift:175-176 | the store after `add` is the old store with the request under its identifier |
| Notifications.NotificationCenter.RemovePendingNotificationRequests | MeetingBar/Notifications.swift:268-272 | the store loses exactly the entry for the given id, and the slot invariant is kept |
| Notifications.NotificationCenter.ScheduleEventNotification | MeetingBar/Notifications.swift:127-227 | the sequence of removes, adds and early returns leaves the store equal to `Scheduled` of the old store, and keeps the slot invariant |
| Notifications.NotificationCenter.SnoozeEventNotification | MeetingBar/Notifications.swift:229-266 | the remove-then-add leaves the store equal to `Snoozed` of the old store, and keeps the slot invariant |

## Left out

- The calls into UserNotifications and AppKit are foreign platform APIs and are not modelled: `requestAuthorization` (lines 13-17), `setNotificationCategories` and `getNotificationCategories` (lines 48-52), `getNotificationSettings`, and `NSAlert.runModal` in `displayAlert` (lines 117-125). Only their effect on the pending store is modelled, or the channel they lead to.
- The blocking `DispatchGroup` wait in `notificationsEnabled` and the `DispatchQueue.main.async` hop in `sendNotification` are concurrency and thread marshalling. The model keeps only the Boolean decision and the channel chosen.
- `sendUserNotification` (lines 55-74) is not modelled. It posts an immediate request under a fresh UUID, which involves randomness and a foreign call, and it has no slot semantics.
- `removeDeliveredNotifications` (lines 274-277) is not modelled. It clears the platform's list of delivered notifications, which the model does not track.
- The following are presentation details and are not modelled: sound, `interruptionLevel` with its `#available` check, `threadIdentifier`, the `.foreground` action options, and the category options and placeholders.
- `NSLog` on an `add` error is not modelled. The store is modelled as accepting every request.
- SnoozeUntilStartFiresAtStart: the platform requires a time-interval trigger's interval to be greater than zero; `UNTimeIntervalNotificationTrigger`'s initializer (line 257) raises an exception otherwise rather than reporting an error to `add`. The model has no such failure: a snooze "until start" requested at or after the start is recorded with its non-positive delay (lines 244-246). So the lemma's "whatever now is" holds in the app only while now is before the start, which is not the usual case once an at-start reminder has fired.
- Dates are integer milliseconds, not floating-point seconds, so precision below a millisecond is not represented.
- `Defaults` storage and `.loco()` localisation are not modelled. Settings come in as a parameter, and strings are their localisation keys.
- RegisterNotificationCategories: the title of the five-minute snooze action takes `durationInMins` as an argument (line 33). The model keeps only the key `"notifications_snooze_for"`.
- NotificationEventTimeAction: only the two cases used in this file are modelled, `untilStart` and `fiveMinuteLater`. The enum is declared in a file that is not part of this model.
- RegisterNotificationCategories: the action identifiers `"JOIN_ACTION"`, `"DISMISS_ACTION"` and the `rawValue` strings of `NotificationEventTimeAction` (lines 20, 24, 28, 32) are constructors of `ActionIdentifier`, so the four actions of "EVENT" are distinct by construction; the model does not check that those strings differ.
