/** The reminder policy of MeetingBar's Notifications.swift, as values.

    Times are integer milliseconds (the app works on `Date` and `Double` seconds).
    The pending-request store of the platform's notification centre is a
    `map<string, Request>` keyed by request identifier; this module defines what each
    operation of the app does to such a map, and proves the scheduling rules about it.
    The class in module Notifications runs the same operations step by step. */
module NotificationModel {

  datatype Option<T> = None | Some(value: T)

  // ---------------------------------------------------------------------------
  // Constants

  /** `notificationIDs.event_starts` and `notificationIDs.event_ends`: the two slot
      identifiers under which reminders are pending. Only their distinctness matters. */
  const EventStarts: string := "event_starts"
  const EventEnds: string := "event_ends"

  /** A reminder whose interval is below 0.5 s is not scheduled. */
  const ThresholdMs: int := 500

  /** Category identifiers registered with the platform. */
  const EventCategory: string := "EVENT"
  const SnoozeEventCategory: string := "SNOOZE_EVENT"
  /** The platform's default category identifier: a request without interactive actions. */
  const NoCategory: string := ""

  const MeetingTitleKey: string := "general_meeting"
  const SnoozeBodyKey: string := "notifications_event_started_body"

  predicate IsSlot(id: string) {
    id == EventStarts || id == EventEnds
  }

  // ---------------------------------------------------------------------------
  // Data model

  /** The lead time of the start reminder (`Defaults[.joinEventNotificationTime]`). */
  datatype JoinEventNotificationTime = AtStart | MinuteBefore | ThreeMinuteBefore | FiveMinuteBefore

  /** The lead time of the end reminder (`Defaults[.endOfEventNotificationTime]`). */
  datatype EndOfEventNotificationTime = AtEnd | MinuteBefore | ThreeMinuteBefore | FiveMinuteBefore

  /** The snooze choices offered on a delivered start reminder. */
  datatype NotificationEventTimeAction = UntilStart | FiveMinuteLater

  /** The settings the scheduler reads from `Defaults`. */
  datatype Defaults = Defaults(
    joinEventNotification: bool,
    joinEventNotificationTime: JoinEventNotificationTime,
    endOfEventNotification: bool,
    endOfEventNotificationTime: EndOfEventNotificationTime,
    hideMeetingTitle: bool)

  /** The integer values behind the enums, in seconds: `rawValue` of the two lead-time
      enums and `durationInSeconds` of the snooze action. They are defined outside
      Notifications.swift, so the model takes them as arbitrary non-negative functions. */
  datatype EnumValues = EnumValues(
    joinRawValue: JoinEventNotificationTime -> nat,
    endRawValue: EndOfEventNotificationTime -> nat,
    durationInSeconds: NotificationEventTimeAction -> nat)

  /** The calendar event a reminder is about; start and end are absolute times in ms. */
  datatype MBEvent = MBEvent(id: string, title: string, startMs: int, endMs: int)

  /** What a reminder shows: title, localisation key of its body, category, and the
      `eventID` entry of its `userInfo`. */
  datatype Content = Content(title: string, body: string, categoryIdentifier: string, eventID: string)

  /** `UNTimeIntervalNotificationTrigger`: fires `intervalMs` after it is added. */
  datatype Trigger = TimeInterval(intervalMs: int, repeats: bool)

  datatype Request = Request(identifier: string, content: Content, trigger: Trigger)

  // ---------------------------------------------------------------------------
  // Message content

  /** The title rule shared by both slots and by snooze. */
  function Title(event: MBEvent, hideMeetingTitle: bool): (title: string)
    ensures hideMeetingTitle ==> title == MeetingTitleKey
    ensures !hideMeetingTitle ==> title == event.title
  {
    if hideMeetingTitle then MeetingTitleKey else event.title
  }

  /** Inverse of StartBodyKey: which lead time a start-reminder body key stands for. */
  function JoinTimeOfBodyKey(key: string): Option<JoinEventNotificationTime> {
    if key == "notifications_event_start_soon_body" then Some(AtStart)
    else if key == "notifications_event_start_one_minute_body" then Some(JoinEventNotificationTime.MinuteBefore)
    else if key == "notifications_event_start_three_minutes_body" then Some(JoinEventNotificationTime.ThreeMinuteBefore)
    else if key == "notifications_event_start_five_minutes_body" then Some(JoinEventNotificationTime.FiveMinuteBefore)
    else None
  }

  /** Inverse of EndBodyKey. */
  function EndTimeOfBodyKey(key: string): Option<EndOfEventNotificationTime> {
    if key == "notifications_event_ends_soon_body" then Some(AtEnd)
    else if key == "notifications_event_ends_one_minute_body" then Some(EndOfEventNotificationTime.MinuteBefore)
    else if key == "notifications_event_ends_three_minutes_body" then Some(EndOfEventNotificationTime.ThreeMinuteBefore)
    else if key == "notifications_event_ends_five_minutes_body" then Some(EndOfEventNotificationTime.FiveMinuteBefore)
    else None
  }

  /** The body template of a start reminder, one per lead time. The key names its lead
      time unambiguously, and is never an end-reminder or snooze key. */
  function StartBodyKey(t: JoinEventNotificationTime): (key: string)
    ensures JoinTimeOfBodyKey(key) == Some(t)
    ensures EndTimeOfBodyKey(key) == None
    ensures key != SnoozeBodyKey
  {
    match t
    case AtStart => "notifications_event_start_soon_body"
    case MinuteBefore => "notifications_event_start_one_minute_body"
    case ThreeMinuteBefore => "notifications_event_start_three_minutes_body"
    case FiveMinuteBefore => "notifications_event_start_five_minutes_body"
  }

  /** The body template of an end reminder, one per lead time. */
  function EndBodyKey(t: EndOfEventNotificationTime): (key: string)
    ensures EndTimeOfBodyKey(key) == Some(t)
    ensures JoinTimeOfBodyKey(key) == None
    ensures key != SnoozeBodyKey
  {
    match t
    case AtEnd => "notifications_event_ends_soon_body"
    case MinuteBefore => "notifications_event_ends_one_minute_body"
    case ThreeMinuteBefore => "notifications_event_ends_three_minutes_body"
    case FiveMinuteBefore => "notifications_event_ends_five_minutes_body"
  }

  /** A body key is produced by StartBodyKey for exactly the lead time it decodes to. */
  lemma StartBodyKeyDecodes(key: string, t: JoinEventNotificationTime)
    ensures StartBodyKey(t) == key <==> JoinTimeOfBodyKey(key) == Some(t)
  {
  }

  lemma EndBodyKeyDecodes(key: string, t: EndOfEventNotificationTime)
    ensures EndBodyKey(t) == key <==> EndTimeOfBodyKey(key) == Some(t)
  {
  }

  // ---------------------------------------------------------------------------
  // Intervals

  /** `startDate.timeIntervalSince(now) - rawValue`, in ms. */
  function StartInterval(event: MBEvent, defaults: Defaults, values: EnumValues, now: int): (ms: int)
    ensures now + ms + values.joinRawValue(defaults.joinEventNotificationTime) * 1000 == event.startMs
  {
    event.startMs - now - values.joinRawValue(defaults.joinEventNotificationTime) * 1000
  }

  /** `endDate.timeIntervalSince(now) - rawValue`, in ms. */
  function EndInterval(event: MBEvent, defaults: Defaults, values: EnumValues, now: int): (ms: int)
    ensures now + ms + values.endRawValue(defaults.endOfEventNotificationTime) * 1000 == event.endMs
  {
    event.endMs - now - values.endRawValue(defaults.endOfEventNotificationTime) * 1000
  }

  /** The snooze delay: the action's duration, except that "until start" waits until the
      event's start, wherever `now` is. */
  function SnoozeInterval(event: MBEvent, interval: NotificationEventTimeAction, values: EnumValues, now: int): (ms: int)
    ensures interval == UntilStart ==> now + ms == event.startMs
    ensures interval != UntilStart ==> ms == values.durationInSeconds(interval) * 1000
  {
    var ms := values.durationInSeconds(interval) * 1000;
    if interval == UntilStart then event.startMs - now else ms
  }

  // ---------------------------------------------------------------------------
  // The requests the app builds

  /** The start reminder: under the start slot, firing the lead time before the start,
      once, with the interactive "EVENT" category and the body of its lead time. */
  function StartRequest(event: MBEvent, defaults: Defaults, values: EnumValues, now: int): (r: Request)
    ensures r.identifier == EventStarts
    ensures now + r.trigger.intervalMs
            == event.startMs - values.joinRawValue(defaults.joinEventNotificationTime) * 1000
    ensures !r.trigger.repeats
    ensures r.content.categoryIdentifier == EventCategory
    ensures r.content.eventID == event.id
    ensures JoinTimeOfBodyKey(r.content.body) == Some(defaults.joinEventNotificationTime)
  {
    Request(EventStarts,
            Content(Title(event, defaults.hideMeetingTitle),
                    StartBodyKey(defaults.joinEventNotificationTime),
                    EventCategory,
                    event.id),
            TimeInterval(StartInterval(event, defaults, values, now), false))
  }

  /** The end reminder: under the end slot, firing the lead time before the end, once,
      with no interactive category and the body of its lead time. */
  function EndRequest(event: MBEvent, defaults: Defaults, values: EnumValues, now: int): (r: Request)
    ensures r.identifier == EventEnds
    ensures now + r.trigger.intervalMs
            == event.endMs - values.endRawValue(defaults.endOfEventNotificationTime) * 1000
    ensures !r.trigger.repeats
    ensures r.content.categoryIdentifier == NoCategory
    ensures r.content.eventID == event.id
    ensures EndTimeOfBodyKey(r.content.body) == Some(defaults.endOfEventNotificationTime)
  {
    Request(EventEnds,
            Content(Title(event, defaults.hideMeetingTitle),
                    EndBodyKey(defaults.endOfEventNotificationTime),
                    NoCategory,
                    event.id),
            TimeInterval(EndInterval(event, defaults, values, now), false))
  }

  /** The snoozed reminder: under the start slot, once, in the snooze category, with the
      "event started" body whichever lead time is configured. */
  function SnoozeRequest(event: MBEvent, interval: NotificationEventTimeAction, defaults: Defaults,
                         values: EnumValues, now: int): (r: Request)
    ensures r.identifier == EventStarts
    ensures interval == UntilStart ==> now + r.trigger.intervalMs == event.startMs
    ensures !r.trigger.repeats
    ensures r.content.categoryIdentifier == SnoozeEventCategory
    ensures r.content.body == SnoozeBodyKey
    ensures JoinTimeOfBodyKey(r.content.body) == None
    ensures r.content.eventID == event.id
  {
    Request(EventStarts,
            Content(Title(event, defaults.hideMeetingTitle), SnoozeBodyKey, SnoozeEventCategory, event.id),
            TimeInterval(SnoozeInterval(event, interval, values, now), false))
  }

  // ---------------------------------------------------------------------------
  // The pending-request store

  type Store = map<string, Request>

  /** The store holds reminders only under the two slot identifiers, each under its own
      identifier: at most one pending request per slot. */
  ghost predicate SlotDiscipline(pending: Store) {
    forall id :: id in pending ==> IsSlot(id) && pending[id].identifier == id
  }

  /** `center.add(request)`: replaces any request pending under the same identifier. */
  function Added(pending: Store, request: Request): (r: Store)
    ensures request.identifier in r && r[request.identifier] == request
    ensures forall id :: id != request.identifier ==> (id in r <==> id in pending)
    ensures forall id :: id != request.identifier && id in pending ==> r[id] == pending[id]
  {
    pending[request.identifier := request]
  }

  /** `removePendingNotificationRequests(withIdentifiers: [id])`: deletes that entry only. */
  function Removed(pending: Store, id: string): (r: Store)
    ensures id !in r
    ensures forall other :: other != id ==> (other in r <==> other in pending)
    ensures forall other :: other != id && other in pending ==> r[other] == pending[other]
  {
    pending - {id}
  }

  /** The store after `scheduleEventNotification(event)` at time `now`. The `return` on a
      too-late start reminder leaves the whole function, so it also skips the end slot. */
  function Scheduled(pending: Store, event: MBEvent, defaults: Defaults, values: EnumValues, now: int): (r: Store)
    ensures forall id :: id in pending ==> id in r
    ensures forall id :: id in r && (id !in pending || r[id] != pending[id]) ==> IsSlot(id) && r[id].identifier == id
  {
    if !defaults.joinEventNotification && !defaults.endOfEventNotification then pending
    else if defaults.joinEventNotification && StartInterval(event, defaults, values, now) < ThresholdMs then pending
    else
      var afterStart :=
        if defaults.joinEventNotification
        then Added(Removed(pending, EventStarts), StartRequest(event, defaults, values, now))
        else pending;
      if defaults.endOfEventNotification && EndInterval(event, defaults, values, now) >= ThresholdMs
      then Added(afterStart, EndRequest(event, defaults, values, now))
      else afterStart
  }

  /** The store after `snoozeEventNotification(event, interval)` at time `now`. */
  function Snoozed(pending: Store, event: MBEvent, interval: NotificationEventTimeAction, defaults: Defaults,
                   values: EnumValues, now: int): (r: Store)
    ensures r.Keys == pending.Keys + {EventStarts}
    ensures r[EventStarts].identifier == EventStarts
  {
    Added(Removed(pending, EventStarts), SnoozeRequest(event, interval, defaults, values, now))
  }

  /** `scheduleEventNotification` called `n` times in a row with the same inputs. */
  function ScheduledTimes(pending: Store, event: MBEvent, defaults: Defaults, values: EnumValues, now: int, n: nat): Store {
    if n == 0 then pending
    else Scheduled(ScheduledTimes(pending, event, defaults, values, now, n - 1), event, defaults, values, now)
  }

  // ---------------------------------------------------------------------------
  // Scheduling rules

  /** With both reminders switched off, scheduling leaves the store as it was. */
  lemma BothRemindersOffIsNoOp(pending: Store, event: MBEvent, defaults: Defaults, values: EnumValues, now: int)
    requires !defaults.joinEventNotification && !defaults.endOfEventNotification
    ensures Scheduled(pending, event, defaults, values, now) == pending
  {
  }

  /** A start reminder due in under 0.5 s aborts the whole call: neither slot changes,
      even when the end reminder is enabled and far enough away. */
  lemma LateStartAbortsScheduling(pending: Store, event: MBEvent, defaults: Defaults, values: EnumValues, now: int)
    requires defaults.joinEventNotification
    requires StartInterval(event, defaults, values, now) < ThresholdMs
    ensures Scheduled(pending, event, defaults, values, now) == pending
  {
  }

  /** When the start reminder is placed, it is the only start-slot entry and fires
      `start - now - lead` after now, once, with the "EVENT" category, the event's id, the
      title rule and the body for the configured lead time. */
  lemma StartSlotScheduled(pending: Store, event: MBEvent, defaults: Defaults, values: EnumValues, now: int)
    requires defaults.joinEventNotification
    requires StartInterval(event, defaults, values, now) >= ThresholdMs
    ensures var r := Scheduled(pending, event, defaults, values, now);
      && EventStarts in r
      && r[EventStarts].identifier == EventStarts
      && now + r[EventStarts].trigger.intervalMs
         == event.startMs - values.joinRawValue(defaults.joinEventNotificationTime) * 1000
      && r[EventStarts].trigger.intervalMs >= ThresholdMs
      && !r[EventStarts].trigger.repeats
      && r[EventStarts].content.categoryIdentifier == EventCategory
      && r[EventStarts].content.eventID == event.id
      && r[EventStarts].content.title == (if defaults.hideMeetingTitle then MeetingTitleKey else event.title)
      && JoinTimeOfBodyKey(r[EventStarts].content.body) == Some(defaults.joinEventNotificationTime)
  {
  }

  /** When the end reminder is placed, it fires `end - now - lead` after now, once, with no
      interactive category, and it is the only end-slot entry although nothing removed the
      previous one first: the add replaces it. */
  lemma EndSlotScheduled(pending: Store, event: MBEvent, defaults: Defaults, values: EnumValues, now: int)
    requires defaults.endOfEventNotification
    requires defaults.joinEventNotification ==> StartInterval(event, defaults, values, now) >= ThresholdMs
    requires EndInterval(event, defaults, values, now) >= ThresholdMs
    ensures var r := Scheduled(pending, event, defaults, values, now);
      && EventEnds in r
      && r[EventEnds].identifier == EventEnds
      && now + r[EventEnds].trigger.intervalMs
         == event.endMs - values.endRawValue(defaults.endOfEventNotificationTime) * 1000
      && !r[EventEnds].trigger.repeats
      && r[EventEnds].content.categoryIdentifier == NoCategory
      && r[EventEnds].content.eventID == event.id
      && r[EventEnds].content.title == (if defaults.hideMeetingTitle then MeetingTitleKey else event.title)
      && EndTimeOfBodyKey(r[EventEnds].content.body) == Some(defaults.endOfEventNotificationTime)
  {
  }

  /** Placing the start reminder never touches the end slot; the end slot changes only
      when the end reminder itself is placed. */
  lemma EndSlotUntouchedUnlessScheduled(pending: Store, event: MBEvent, defaults: Defaults, values: EnumValues, now: int)
    requires !defaults.endOfEventNotification || EndInterval(event, defaults, values, now) < ThresholdMs
    ensures var r := Scheduled(pending, event, defaults, values, now);
      && (EventEnds in r <==> EventEnds in pending)
      && (EventEnds in pending ==> r[EventEnds] == pending[EventEnds])
  {
  }

  /** The start slot changes only when the start reminder is placed. */
  lemma StartSlotUntouchedUnlessScheduled(pending: Store, event: MBEvent, defaults: Defaults, values: EnumValues, now: int)
    requires !defaults.joinEventNotification
    ensures var r := Scheduled(pending, event, defaults, values, now);
      && (EventStarts in r <==> EventStarts in pending)
      && (EventStarts in pending ==> r[EventStarts] == pending[EventStarts])
  {
  }

  /** Scheduling writes only the two slots. */
  lemma ScheduledTouchesOnlySlots(pending: Store, event: MBEvent, defaults: Defaults, values: EnumValues, now: int, id: string)
    requires !IsSlot(id)
    ensures var r := Scheduled(pending, event, defaults, values, now);
      (id in r <==> id in pending) && (id in pending ==> r[id] == pending[id])
  {
  }

  /** Scheduling keeps at most one pending request per slot, each under its own id. */
  lemma ScheduledKeepsSlotDiscipline(pending: Store, event: MBEvent, defaults: Defaults, values: EnumValues, now: int)
    requires SlotDiscipline(pending)
    ensures SlotDiscipline(Scheduled(pending, event, defaults, values, now))
  {
  }

  /** Re-running the scheduler with the same inputs changes nothing more: the pending
      state after a second call equals the state after the first. */
  lemma ScheduledIdempotent(pending: Store, event: MBEvent, defaults: Defaults, values: EnumValues, now: int)
    ensures var once := Scheduled(pending, event, defaults, values, now);
      Scheduled(once, event, defaults, values, now) == once
  {
  }

  /** Any number N >= 1 of identical calls leaves the same store as one call. */
  lemma {:induction false} ScheduledTimesIsScheduledOnce(pending: Store, event: MBEvent, defaults: Defaults,
                                                         values: EnumValues, now: int, n: nat)
    requires n >= 1
    ensures ScheduledTimes(pending, event, defaults, values, now, n) == Scheduled(pending, event, defaults, values, now)
  {
    if n > 1 {
      ScheduledTimesIsScheduledOnce(pending, event, defaults, values, now, n - 1);
      ScheduledIdempotent(pending, event, defaults, values, now);
    }
  }

  /** A store that keeps the slot discipline holds at most two pending requests. */
  lemma SlotDisciplineBoundsSize(pending: Store)
    requires SlotDiscipline(pending)
    ensures |pending| <= 2
  {
    var slots := {EventStarts, EventEnds};
    assert pending.Keys <= slots;
    SubsetCardinality(pending.Keys, slots);
  }

  lemma {:induction false} SubsetCardinality<T>(a: set<T>, b: set<T>)
    requires a <= b
    ensures |a| <= |b|
  {
    if a != {} {
      var x :| x in a;
      SubsetCardinality(a - {x}, b - {x});
    }
  }

  // ---------------------------------------------------------------------------
  // Snooze rules

  /** Snoozing "until start" fires exactly at the event's start, whatever `now` is. */
  lemma SnoozeUntilStartFiresAtStart(pending: Store, event: MBEvent, defaults: Defaults, values: EnumValues, now: int)
    ensures var r := Snoozed(pending, event, UntilStart, defaults, values, now);
      EventStarts in r && now + r[EventStarts].trigger.intervalMs == event.startMs
  {
  }

  /** Any other snooze fires its duration after now, independent of the event's times. */
  lemma SnoozeFixedDelay(pending: Store, event: MBEvent, interval: NotificationEventTimeAction, defaults: Defaults,
                         values: EnumValues, now: int)
    requires interval != UntilStart
    ensures var r := Snoozed(pending, event, interval, defaults, values, now);
      EventStarts in r && r[EventStarts].trigger.intervalMs == values.durationInSeconds(interval) * 1000
  {
  }

  /** Snooze always places a start-slot request, with no 0.5 s guard, in the snooze
      category with the "event started" body, and leaves every other entry as it was. */
  lemma SnoozeReplacesStartSlotOnly(pending: Store, event: MBEvent, interval: NotificationEventTimeAction,
                                    defaults: Defaults, values: EnumValues, now: int)
    ensures var r := Snoozed(pending, event, interval, defaults, values, now);
      && EventStarts in r
      && r[EventStarts].identifier == EventStarts
      && r[EventStarts].content.categoryIdentifier == SnoozeEventCategory
      && r[EventStarts].content.body == SnoozeBodyKey
      && r[EventStarts].content.eventID == event.id
      && r[EventStarts].content.title == (if defaults.hideMeetingTitle then MeetingTitleKey else event.title)
      && !r[EventStarts].trigger.repeats
      && (forall id :: id != EventStarts ==> (id in r <==> id in pending))
      && (forall id :: id != EventStarts && id in pending ==> r[id] == pending[id])
  {
  }

  lemma SnoozedKeepsSlotDiscipline(pending: Store, event: MBEvent, interval: NotificationEventTimeAction,
                                   defaults: Defaults, values: EnumValues, now: int)
    requires SlotDiscipline(pending)
    ensures SlotDiscipline(Snoozed(pending, event, interval, defaults, values, now))
  {
  }

  // ---------------------------------------------------------------------------
  // Cancellation

  /** Cancelling one slot never removes the other slot's reminder. */
  lemma CancelLeavesOtherSlot(pending: Store, id: string, other: string)
    requires IsSlot(id) && IsSlot(other) && id != other
    ensures var r := Removed(pending, id);
      id !in r && (other in r <==> other in pending) && (other in pending ==> r[other] == pending[other])
  {
  }

  // ---------------------------------------------------------------------------
  // Delivery channel

  /** `UNAlertStyle`: `.none`, `.banner`, `.alert`. */
  datatype AlertStyle = NoStyle | Banner | Alert

  /** `UNAuthorizationStatus` as macOS reports it. */
  datatype AuthorizationStatus = NotDetermined | Denied | Authorized | Provisional

  /** How `sendNotification` shows a message: a user notification, or a modal alert. */
  datatype Delivery = UserNotification(title: string, text: string) | AlertDialog(title: string, text: string)

  /** `notificationsEnabled()`: push notifications are usable when they have a visible
      style and permission has not been denied. */
  function NotificationsEnabled(alertStyle: AlertStyle, authorizationStatus: AuthorizationStatus): (enabled: bool)
    ensures enabled <==> alertStyle != NoStyle && authorizationStatus != Denied
  {
    var correctAlertStyle := alertStyle == Alert || alertStyle == Banner;
    var notificationsEnabled := authorizationStatus != Denied;
    correctAlertStyle && notificationsEnabled
  }

  /** `sendNotification(title, text)`: the same title and text go to exactly one channel,
      the push path precisely when notifications are enabled. */
  function SendNotification(title: string, text: string, alertStyle: AlertStyle,
                            authorizationStatus: AuthorizationStatus): (d: Delivery)
    ensures d.title == title && d.text == text
    ensures d.UserNotification? <==> NotificationsEnabled(alertStyle, authorizationStatus)
  {
    if NotificationsEnabled(alertStyle, authorizationStatus) then UserNotification(title, text)
    else AlertDialog(title, text)
  }

  /** With permission denied the modal alert is used, whatever the style. */
  lemma DeniedFallsBackToAlert(title: string, text: string, alertStyle: AlertStyle)
    ensures SendNotification(title, text, alertStyle, Denied) == AlertDialog(title, text)
  {
  }

  // ---------------------------------------------------------------------------
  // Interactive categories

  datatype ActionIdentifier = JoinAction | DismissAction | SnoozeAction(NotificationEventTimeAction)

  /** A button on a delivered reminder, with the localisation key of its title. */
  datatype NotificationAction = NotificationAction(identifier: ActionIdentifier, titleKey: string)

  datatype NotificationCategory = NotificationCategory(identifier: string, actions: seq<NotificationAction>)

  /** The actions of `actions` other than the one identified by `id`, in order. */
  function WithoutAction(actions: seq<NotificationAction>, id: ActionIdentifier): seq<NotificationAction> {
    if actions == [] then []
    else if actions[0].identifier == id then WithoutAction(actions[1..], id)
    else [actions[0]] + WithoutAction(actions[1..], id)
  }

  /** The categories `registerNotificationCategories` installs. A start reminder offers
      join, dismiss and both snoozes; a snoozed reminder offers the same except snoozing
      until start again. */
  function RegisterNotificationCategories(): (categories: seq<NotificationCategory>)
    ensures |categories| == 2
    ensures categories[0].identifier == EventCategory && categories[1].identifier == SnoozeEventCategory
    ensures |categories[0].actions| == 4
    ensures forall i, j :: 0 <= i < j < 4 ==>
              categories[0].actions[i].identifier != categories[0].actions[j].identifier
    ensures categories[1].actions == WithoutAction(categories[0].actions, SnoozeAction(UntilStart))
  {
    var acceptAction := NotificationAction(JoinAction, "notifications_meetingbar_join_event_action");
    var dismissAction := NotificationAction(DismissAction, "notifications_meetingbar_dismiss_event_action");
    var snoozeUntilStartTime := NotificationAction(SnoozeAction(UntilStart), "notifications_snooze_until_start");
    var snooze5Min := NotificationAction(SnoozeAction(FiveMinuteLater), "notifications_snooze_for");
    var eventActions := [acceptAction, dismissAction, snoozeUntilStartTime, snooze5Min];
    var untilStart := SnoozeAction(UntilStart);
    assert WithoutAction(eventActions, untilStart) == [acceptAction, dismissAction, snooze5Min] by {
      assert [snooze5Min][1..] == [];
      assert WithoutAction([snooze5Min], untilStart) == [snooze5Min];
      assert [snoozeUntilStartTime, snooze5Min][1..] == [snooze5Min];
      assert WithoutAction([snoozeUntilStartTime, snooze5Min], untilStart) == [snooze5Min];
      assert eventActions[1..] == [dismissAction, snoozeUntilStartTime, snooze5Min];
      assert eventActions[1..][1..] == [snoozeUntilStartTime, snooze5Min];
    }
    [NotificationCategory(EventCategory, eventActions),
     NotificationCategory(SnoozeEventCategory, [acceptAction, dismissAction, snooze5Min])]
  }

  predicate IsRegisteredCategory(id: string) {
    exists c :: c in RegisterNotificationCategories() && c.identifier == id
  }

  /** The category of the start-slot entry that scheduling or snooze places is registered. */
  lemma PendingCategoriesAreRegistered(pending: Store, event: MBEvent, interval: NotificationEventTimeAction,
                                       defaults: Defaults, values: EnumValues, now: int)
    ensures var r := Scheduled(pending, event, defaults, values, now);
      defaults.joinEventNotification && StartInterval(event, defaults, values, now) >= ThresholdMs ==>
        EventStarts in r && IsRegisteredCategory(r[EventStarts].content.categoryIdentifier)
    ensures var r := Snoozed(pending, event, interval, defaults, values, now);
      IsRegisteredCategory(r[EventStarts].content.categoryIdentifier)
  {
    var categories := RegisterNotificationCategories();
    assert categories[0] in categories && categories[1] in categories;
  }
}
