/**
 * The chat panel's state: the message list, the loading flag and the last error.
 * Sending is split at its `await`: `Submitted` is what happens before the reply is
 * awaited, `Answered` what happens when it arrives or fails.
 */
module Chatbot {
  import opened Wrappers
  import opened Entities
  import opened Text
  import Api

  datatype Role = UserRole | BotRole

  datatype ChatMessage = ChatMessage(role: Role, text: string, sentiment: Option<string>, timestamp: Option<string>)

  const GreetingText := "Hello! I am your AI Travel Assistant. How can I help you today?"
  const Greeting := ChatMessage(BotRole, GreetingText, None, None)
  const TroublePrefix := "I'm having trouble connecting to the AI service. "

  datatype ChatState = ChatState(messages: seq<ChatMessage>, isLoading: bool, error: Option<string>)

  /** The hook's first render: one greeting, not loading, no error. */
  function InitialChat(): (s: ChatState)
    ensures s.messages == [Greeting] && !s.isLoading && s.error == None
  {
    ChatState([Greeting], false, None)
  }

  /** Before the await: a blank query changes nothing; otherwise the user's text is appended and loading starts. */
  function Submitted(s: ChatState, query: string): (t: ChatState)
    ensures IsBlank(query) ==> t == s
    ensures !IsBlank(query) ==>
      t.messages == s.messages + [ChatMessage(UserRole, query, None, None)] && t.isLoading && t.error == None
  {
    if IsBlank(query) then s else ChatState(s.messages + [ChatMessage(UserRole, query, None, None)], true, None)
  }

  /** The bot message a settled call produces: the reply, or an apology carrying the error's message. */
  function BotMessage(reply: Result<ChatbotResponse, Api.Thrown>): (m: ChatMessage)
    ensures m.role == BotRole
    ensures reply.Ok? ==> m.text == reply.value.response && m.sentiment == reply.value.sentiment
    ensures reply.Err? ==> m.text == TroublePrefix + Api.GetErrorMessage(reply.error) && m.sentiment == None
    ensures m.timestamp == (if reply.Ok? then reply.value.timestamp else None)
  {
    match reply
    case Ok(r) => ChatMessage(BotRole, r.response, r.sentiment, r.timestamp)
    case Err(e) => ChatMessage(BotRole, TroublePrefix + Api.GetErrorMessage(e), None, None)
  }

  /** After the await: one bot message is appended, loading ends, and a failure records its message. */
  function Answered(s: ChatState, reply: Result<ChatbotResponse, Api.Thrown>): (t: ChatState)
    ensures t.messages == s.messages + [BotMessage(reply)] && !t.isLoading
    ensures reply.Ok? ==> t.error == s.error
    ensures reply.Err? ==> t.error == Some(Api.GetErrorMessage(reply.error))
  {
    match reply
    case Ok(_) => s.(messages := s.messages + [BotMessage(reply)], isLoading := false)
    case Err(e) => ChatState(s.messages + [BotMessage(reply)], false, Some(Api.GetErrorMessage(e)))
  }

  /** A whole `sendMessage` call that is not overlapped by another. */
  function Sent(s: ChatState, query: string, reply: Result<ChatbotResponse, Api.Thrown>): ChatState {
    if IsBlank(query) then s else Answered(Submitted(s, query), reply)
  }

  /** `clearMessages`: back to the single greeting with no error; the loading flag is left alone. */
  function ClearedChat(s: ChatState): (t: ChatState)
    ensures t.messages == [Greeting] && t.error == None && t.isLoading == s.isLoading
  {
    s.(messages := [Greeting], error := None)
  }

  /** A non-blank send adds exactly the user's message and then one bot message, and ends not loading. */
  lemma SendAddsExchange(s: ChatState, query: string, reply: Result<ChatbotResponse, Api.Thrown>)
    requires !IsBlank(query)
    ensures var t := Sent(s, query, reply);
      |t.messages| == |s.messages| + 2 && t.messages[..|s.messages|] == s.messages &&
      t.messages[|s.messages|] == ChatMessage(UserRole, query, None, None) &&
      t.messages[|s.messages| + 1].role == BotRole && !t.isLoading &&
      (reply.Ok? <==> t.error == None)
  {
    var t := Sent(s, query, reply);
    assert t.messages == s.messages + [ChatMessage(UserRole, query, None, None)] + [BotMessage(reply)];
  }

  /** The shape sequential use keeps: greeting first, then user and bot messages alternating. */
  predicate Alternating(ms: seq<ChatMessage>) {
    |ms| % 2 == 1 && ms[0] == Greeting &&
    forall i :: 0 < i < |ms| ==> (ms[i].role == UserRole <==> i % 2 == 1)
  }

  /** One step of the panel when calls do not overlap: a send or a clear. */
  datatype Action = Send(query: string, reply: Result<ChatbotResponse, Api.Thrown>) | Clear

  function Step(s: ChatState, a: Action): ChatState {
    match a
    case Send(q, r) => Sent(s, q, r)
    case Clear => ClearedChat(s)
  }

  function Run(s: ChatState, actions: seq<Action>): ChatState
    decreases |actions|
  {
    if actions == [] then s else Run(Step(s, actions[0]), actions[1..])
  }

  lemma StepKeepsAlternating(s: ChatState, a: Action)
    requires Alternating(s.messages)
    ensures Alternating(Step(s, a).messages)
  {
    if a.Send? && !IsBlank(a.query) {
      var t := Step(s, a);
      assert t.messages == s.messages + [ChatMessage(UserRole, a.query, None, None)] + [BotMessage(a.reply)];
    }
  }

  /** Any run of non-overlapping sends and clears from the first render keeps the conversation alternating. */
  lemma {:induction false} RunKeepsAlternating(s: ChatState, actions: seq<Action>)
    requires Alternating(s.messages)
    ensures Alternating(Run(s, actions).messages)
    decreases |actions|
  {
    if actions != [] {
      StepKeepsAlternating(s, actions[0]);
      RunKeepsAlternating(Step(s, actions[0]), actions[1..]);
    }
  }

  class Chat {
    var messages: seq<ChatMessage>
    var isLoading: bool
    var error: Option<string>

    function State(): ChatState
      reads this
    {
      ChatState(messages, isLoading, error)
    }

    constructor ()
      ensures State() == InitialChat()
    {
      messages, isLoading, error := [Greeting], false, None;
    }

    /** `sendMessage` up to its await; `accepted` is false when the query was blank. */
    method Submit(query: string) returns (accepted: bool)
      modifies this
      ensures accepted == !IsBlank(query)
      ensures State() == Submitted(old(State()), query)
    {
      if IsBlank(query) {
        return false;
      }
      messages := messages + [ChatMessage(UserRole, query, None, None)];
      isLoading := true;
      error := None;
      accepted := true;
    }

    /** `sendMessage` after its await: the try, catch and finally branches. */
    method Settle(reply: Result<ChatbotResponse, Api.Thrown>)
      modifies this
      ensures State() == Answered(old(State()), reply)
    {
      match reply {
        case Ok(r) =>
          messages := messages + [ChatMessage(BotRole, r.response, r.sentiment, r.timestamp)];
        case Err(e) =>
          var errorMsg := Api.GetErrorMessage(e);
          error := Some(errorMsg);
          messages := messages + [ChatMessage(BotRole, TroublePrefix + errorMsg, None, None)];
      }
      isLoading := false;
    }

    /** A complete `sendMessage` call whose reply arrives before any other call starts. */
    method SendMessage(query: string, reply: Result<ChatbotResponse, Api.Thrown>)
      modifies this
      ensures State() == Sent(old(State()), query, reply)
    {
      var accepted := Submit(query);
      if accepted {
        Settle(reply);
      }
    }

    method ClearMessages()
      modifies this
      ensures State() == ClearedChat(old(State()))
    {
      messages := [Greeting];
      error := None;
    }
  }
}
