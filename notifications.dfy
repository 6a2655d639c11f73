/** The imperative side of Notifications.swift: the platform's pending-request store as an
    object, and the app's scheduling, snoozing and cancelling as methods that change it
    one call at a time. Each method's new state is the corresponding store transition of
    NotificationModel, where the scheduling rules are proved. */
module Notifications {
  import opened NotificationModel

  /** The pending requests of `UNUserNotificationCenter.current()`, by identifier. */
  class NotificationCenter {
    var pending: map<string, Request>

    /** The app only ever leaves reminders under the two slot identifiers. */
    ghost predicate Valid()
      reads this
    {
      SlotDiscipline(pending)
    }

    constructor ()
      ensures Valid() && pending == map[]
    {
      pending := map[];
    }

    /** `center.add(request)`: the platform replaces a request with the same identifier. */
    method Add(request: Request)
      modifies this
      ensures pending == Added(old(pending), request)
      ensures old(Valid()) && IsSlot(request.identifier) ==> Valid()
    {
      pending := pending[request.identifier := request];
    }

    /** `removePendingNotificationRequests(withID:)`: removes the entry for `withID` only,
        never every pending request. */
    method RemovePendingNotificationRequests(withID: string)
      modifies this
      ensures pending == Removed(old(pending), withID)
      ensures old(Valid()) ==> Valid()
    {
      pending := pending - {withID};
    }

    /** `scheduleEventNotification(event)` at time `now`: places the start and end
        reminders that are enabled and still at least 0.5 s away. */
    method ScheduleEventNotification(event: MBEvent, defaults: Defaults, values: EnumValues, now: int)
      modifies this
      ensures pending == Scheduled(old(pending), event, defaults, values, now)
      ensures old(Valid()) ==> Valid()
    {
      if Valid() {
        ScheduledKeepsSlotDiscipline(pending, event, defaults, values, now);
      }
      if !defaults.joinEventNotification && !defaults.endOfEventNotification {
        return;
      }

      if defaults.joinEventNotification {
        var timeInterval := StartInterval(event, defaults, values, now);
        if timeInterval < ThresholdMs {
          return;
        }
        RemovePendingNotificationRequests(EventStarts);
        var content := Content(Title(event, defaults.hideMeetingTitle),
                               StartBodyKey(defaults.joinEventNotificationTime),
                               EventCategory,
                               event.id);
        Add(Request(EventStarts, content, TimeInterval(timeInterval, false)));
      }

      if defaults.endOfEventNotification {
        var timeInterval := EndInterval(event, defaults, values, now);
        if timeInterval < ThresholdMs {
          return;
        }
        var content := Content(Title(event, defaults.hideMeetingTitle),
                               EndBodyKey(defaults.endOfEventNotificationTime),
                               NoCategory,
                               event.id);
        Add(Request(EventEnds, content, TimeInterval(timeInterval, false)));
      }
    }

    /** `snoozeEventNotification(event, interval)` at time `now`: replaces the start-slot
        reminder by one in the snooze category, with no lower bound on its delay. */
    method SnoozeEventNotification(event: MBEvent, interval: NotificationEventTimeAction, defaults: Defaults,
                                   values: EnumValues, now: int)
      modifies this
      ensures pending == Snoozed(old(pending), event, interval, defaults, values, now)
      ensures old(Valid()) ==> Valid()
    {
      RemovePendingNotificationRequests(EventStarts);
      var timeInterval := values.durationInSeconds(interval) * 1000;
      var title := Title(event, defaults.hideMeetingTitle);
      if interval == UntilStart {
        timeInterval := event.startMs - now;
      }
      var content := Content(title, SnoozeBodyKey, SnoozeEventCategory, event.id);
      Add(Request(EventStarts, content, TimeInterval(timeInterval, false)));
    }
  }
}
