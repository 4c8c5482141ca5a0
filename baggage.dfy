/** Baggage tracking: ask the AI service for a prediction and notify the owner of the first anomaly. */
module Baggage {
  import opened Wrappers
  import opened AiPayloads
  import opened Gateway
  import opened Notifications
  import opened AiService
  import AiRules

  const AnomalyPrefix := "Anomaly detected for your baggage "

  /** The urgent notification a prediction triggers, if any: only when it lists an anomaly. */
  function AnomalyNotice(tag: string, userId: string, p: BaggagePrediction, now: int): (n: Option<Event>)
    ensures n.Some? <==> |p.anomalies| > 0
    ensures n.Some? ==> (
              n.value.payload.NotificationPayload? && n.value.payload.kind == UrgentType &&
              n.value.payload.userId == userId && n.value.payload.data == BaggageAttachment(p) &&
              n.value.payload.message == AnomalyPrefix + tag + ": " + p.anomalies[0].message)
  {
    if |p.anomalies| > 0 then
      Some(NotificationEvent(userId, UrgentType, AnomalyPrefix + tag + ": " + p.anomalies[0].message,
                             BaggageAttachment(p), now))
    else None
  }

  /** The events a tracking call adds to each inbox. */
  function TrackingEvents(tag: string, userId: string, outcome: Result<BaggagePrediction, CallFailure>, now: int)
    : (es: seq<Event>)
    ensures |es| <= 1
    ensures outcome.Err? ==> es == []
    ensures |es| == 1 <==> outcome.Ok? && |outcome.value.anomalies| > 0
    ensures |es| == 1 ==> AnomalyNotice(tag, userId, outcome.value, now) == Some(es[0])
  {
    if outcome.Err? then []
    else match AnomalyNotice(tag, userId, outcome.value, now)
      case Some(e) => [e]
      case None => []
  }

  /**
   * With the prediction service's own rule, a bag is reported exactly when its delay draw
   * exceeds 8, and the owner then reads the misrouting message naming the same tag twice.
   */
  lemma MisroutedBagNotice(tag: string, userId: string, delay: int, now: int)
    ensures AnomalyNotice(tag, userId, AiRules.PredictBaggage(Some(tag), delay), now).Some? <==> delay > 8
    ensures delay > 8 ==>
      AnomalyNotice(tag, userId, AiRules.PredictBaggage(Some(tag), delay), now).value.payload.message ==
      AnomalyPrefix + tag + ": Baggage " + tag + " detected in wrong loading zone."
  {
    if delay > 8 {
      var p := AiRules.PredictBaggage(Some(tag), delay);
      assert p.anomalies[0].message == "Baggage " + tag + " detected in wrong loading zone.";
    }
  }

  class BaggageService {
    const aiService: AIService
    const notifications: NotificationsService

    constructor (aiService: AIService, notifications: NotificationsService)
      ensures this.aiService == aiService && this.notifications == notifications
    {
      this.aiService := aiService;
      this.notifications := notifications;
    }

    /**
     * `trackBaggage`: the prediction is returned unchanged (a failed call is rethrown, and
     * nothing is sent); when it lists anomalies the owner is notified urgently first.
     */
    method TrackBaggage(tag: string, userId: string, response: Result<BaggagePrediction, CallFailure>, now: int)
      returns (r: Result<BaggagePrediction, CallFailure>)
      requires notifications.gateway.Valid()
      modifies notifications, notifications.gateway
      ensures notifications.gateway.Valid()
      ensures r == response
      ensures notifications.gateway.inboxes == DeliveredAll(old(notifications.gateway.inboxes), TrackingEvents(tag, userId, response, now))
      ensures response.Ok? && |response.value.anomalies| > 0 ==>
        notifications.log == old(notifications.log) +
          NotificationLog(userId, UrgentType, AnomalyPrefix + tag + ": " + response.value.anomalies[0].message)
      ensures !(response.Ok? && |response.value.anomalies| > 0) ==> notifications.log == old(notifications.log)
    {
      var _, prediction := aiService.Forward(BaggagePredict, response);
      if prediction.Err? {
        return prediction;
      }
      var p := prediction.value;
      if |p.anomalies| > 0 {
        notifications.SendNotification(userId, UrgentType, AnomalyPrefix + tag + ": " + p.anomalies[0].message,
                                       BaggageAttachment(p), now);
      }
      r := prediction;
    }
  }
}
