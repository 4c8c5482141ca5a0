/** The notification producer: user notifications and system-wide alerts handed to the hub. */
module Notifications {
  import opened Wrappers
  import opened Gateway

  const NotificationEventName := "notification"
  const SystemAlertEventName := "systemAlert"
  const UrgentType := "URGENT"

  datatype LogLevel = Info | Warn

  datatype LogEntry = LogEntry(level: LogLevel, text: string)

  /** The event `sendNotification` emits; `now` is the clock reading taken at the call. */
  function NotificationEvent(userId: string, kind: string, message: string, data: Attachment, now: int): (e: Event)
    ensures e.name == NotificationEventName
    ensures e.payload == NotificationPayload(userId, kind, message, data, now)
  {
    Event(NotificationEventName, NotificationPayload(userId, kind, message, data, now))
  }

  /** The event `broadcastAlert` emits. */
  function SystemAlert(kind: string, message: string, data: Attachment, now: int): (e: Event)
    ensures e.name == SystemAlertEventName
    ensures e.payload == SystemAlertPayload(kind, message, data, now)
  {
    Event(SystemAlertEventName, SystemAlertPayload(kind, message, data, now))
  }

  /** The log lines `sendNotification` writes: one info line, and a warning only for the urgent type. */
  function NotificationLog(userId: string, kind: string, message: string): (r: seq<LogEntry>)
    ensures |r| == (if kind == UrgentType then 2 else 1)
    ensures r[0].level == Info
    ensures kind == UrgentType ==> r[1].level == Warn
  {
    var sending := LogEntry(Info, "Sending " + kind + " notification to user " + userId + ": " + message);
    if kind == UrgentType then
      [sending, LogEntry(Warn, "Pushing URGENT alert to external channels for user " + userId)]
    else [sending]
  }

  /**
   * A notification addressed to one user reaches every connected client: as soon as one
   * client is not associated with that user, what the hub does differs from scoped delivery.
   */
  lemma NotificationIsNotScoped(inboxes: seq<seq<Event>>, owners: seq<Option<string>>, userId: string,
                                kind: string, message: string, data: Attachment, now: int, other: nat)
    requires |owners| == |inboxes| && other < |inboxes| && owners[other] != Some(userId)
    ensures var e := NotificationEvent(userId, kind, message, data, now);
      Delivered(inboxes, e)[other] == inboxes[other] + [e] &&
      Delivered(inboxes, e) != DeliveredTo(inboxes, owners, userId, e)
  {
    var e := NotificationEvent(userId, kind, message, data, now);
    assert |Delivered(inboxes, e)[other]| != |DeliveredTo(inboxes, owners, userId, e)[other]|;
  }

  class NotificationsService {
    const gateway: Hub
    var log: seq<LogEntry>

    constructor (gateway: Hub)
      ensures this.gateway == gateway && log == []
    {
      this.gateway := gateway;
      log := [];
    }

    /** `sendNotification`: log, emit one `notification` event to every client, warn if urgent. */
    method SendNotification(userId: string, kind: string, message: string, data: Attachment, now: int)
      requires gateway.Valid()
      modifies this, gateway
      ensures gateway.Valid()
      ensures gateway.inboxes == Delivered(old(gateway.inboxes), NotificationEvent(userId, kind, message, data, now))
      ensures log == old(log) + NotificationLog(userId, kind, message)
    {
      log := log + [LogEntry(Info, "Sending " + kind + " notification to user " + userId + ": " + message)];
      gateway.Emit(NotificationEventName, NotificationPayload(userId, kind, message, data, now));
      if kind == UrgentType {
        log := log + [LogEntry(Warn, "Pushing URGENT alert to external channels for user " + userId)];
      }
    }

    /** `broadcastAlert`: log, and emit one `systemAlert` event to every client. */
    method BroadcastAlert(kind: string, message: string, data: Attachment, now: int)
      requires gateway.Valid()
      modifies this, gateway
      ensures gateway.Valid()
      ensures gateway.inboxes == Delivered(old(gateway.inboxes), SystemAlert(kind, message, data, now))
      ensures log == old(log) + [LogEntry(Info, "Broadcasting system-wide alert: " + message)]
    {
      log := log + [LogEntry(Info, "Broadcasting system-wide alert: " + message)];
      gateway.Emit(SystemAlertEventName, SystemAlertPayload(kind, message, data, now));
    }
  }
}
