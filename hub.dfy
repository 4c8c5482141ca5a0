/**
 * The server's event hub: one inbox per connected client. Emitting an event appends
 * it to every inbox; nothing is filtered, acknowledged or stored elsewhere.
 */
module Gateway {
  import opened Wrappers
  import opened AiPayloads

  /** The `data` a producer attaches to a notification or alert. */
  datatype Attachment = NoAttachment | BaggageAttachment(prediction: BaggagePrediction) | OtherAttachment(json: string)

  datatype Payload =
    | NotificationPayload(userId: string, kind: string, message: string, data: Attachment, timestamp: int)
    | SystemAlertPayload(kind: string, message: string, data: Attachment, timestamp: int)
    | SecurityPayload(analysis: SecurityAnalysis)

  /** A named event as it travels to clients. */
  datatype Event = Event(name: string, payload: Payload)

  const SecurityAlertEventName := "securityAlert"

  /** Every inbox with `e` appended at its end. */
  function Delivered(inboxes: seq<seq<Event>>, e: Event): (r: seq<seq<Event>>)
    ensures |r| == |inboxes|
    ensures forall i :: 0 <= i < |r| ==> r[i] == inboxes[i] + [e]
  {
    seq(|inboxes|, i requires 0 <= i < |inboxes| => inboxes[i] + [e])
  }

  /** Emitting several events in turn. */
  function DeliveredAll(inboxes: seq<seq<Event>>, es: seq<Event>): seq<seq<Event>>
    decreases |es|
  {
    if es == [] then inboxes else DeliveredAll(Delivered(inboxes, es[0]), es[1..])
  }

  /** Every client receives every emitted event, in emission order, after what it already had. */
  lemma {:induction false} DeliveredAllInOrder(inboxes: seq<seq<Event>>, es: seq<Event>)
    ensures |DeliveredAll(inboxes, es)| == |inboxes|
    ensures forall i :: 0 <= i < |inboxes| ==> DeliveredAll(inboxes, es)[i] == inboxes[i] + es
    decreases |es|
  {
    if es != [] {
      var next := Delivered(inboxes, es[0]);
      DeliveredAllInOrder(next, es[1..]);
      forall i | 0 <= i < |inboxes| ensures DeliveredAll(inboxes, es)[i] == inboxes[i] + es {
        assert next[i] == inboxes[i] + [es[0]];
        assert inboxes[i] + [es[0]] + es[1..] == inboxes[i] + es;
      }
    }
  }

  /** Delivery restricted to the clients associated with one user: the scoped policy the hub does not apply. */
  function DeliveredTo(inboxes: seq<seq<Event>>, owners: seq<Option<string>>, userId: string, e: Event)
    : (r: seq<seq<Event>>)
    requires |owners| == |inboxes|
    ensures |r| == |inboxes|
    ensures forall i :: 0 <= i < |r| ==> r[i] == if owners[i] == Some(userId) then inboxes[i] + [e] else inboxes[i]
  {
    seq(|inboxes|, i requires 0 <= i < |inboxes| => if owners[i] == Some(userId) then inboxes[i] + [e] else inboxes[i])
  }

  /** The hub object: the inboxes of the connected clients and the user each is known to belong to, if any. */
  class Hub {
    var inboxes: seq<seq<Event>>
    const owners: seq<Option<string>>

    ghost predicate Valid()
      reads this
    {
      |inboxes| == |owners|
    }

    /** A hub with the given clients connected and nothing delivered yet. */
    constructor (owners: seq<Option<string>>)
      ensures Valid() && this.owners == owners
      ensures |inboxes| == |owners| && forall i :: 0 <= i < |inboxes| ==> inboxes[i] == []
    {
      this.owners := owners;
      inboxes := seq(|owners|, _ => []);
    }

    /** `server.emit(name, payload)`: every connected client receives the event. */
    method Emit(name: string, payload: Payload)
      requires Valid()
      modifies this
      ensures Valid()
      ensures inboxes == Delivered(old(inboxes), Event(name, payload))
    {
      inboxes := Delivered(inboxes, Event(name, payload));
    }

    /** Relaying a security analysis to the browsers as a `securityAlert` event. */
    method SendSecurityAlert(analysis: SecurityAnalysis)
      requires Valid()
      modifies this
      ensures Valid()
      ensures inboxes == Delivered(old(inboxes), Event(SecurityAlertEventName, SecurityPayload(analysis)))
    {
      Emit(SecurityAlertEventName, SecurityPayload(analysis));
    }
  }
}
