/**
 * The chat window: the input line, the loading flag and the service it
 * sends to, over the chat history kept in the shared state. A send first
 * records the user's entry and sets the loading flag. Once the service
 * answers, it records the reply (or an apology when the service throws)
 * and clears the flag.
 */
module ChatModal {
  import opened Wrappers
  import opened Text
  import opened Entities
  import opened AppContext
  import RuleEngine
  import LlmEngine
  import ChatService

  /** How the awaited `processMessage` call ended. */
  datatype SendOutcome =
    | Resolved(reply: ChatReply)
    | Threw

  const ApologyText := "Sorry, I encountered an error processing your request. Please try again."

  /** A send goes ahead only for a non-blank input while no request is loading. */
  predicate CanSend(message: string, isLoading: bool) {
    Trim(message) != "" && !isLoading
  }

  /** The user's entry: the trimmed input, marked as the user's, with no suggestions. */
  function UserEntry(message: string, timestamp: string): (m: ChatMessage)
    ensures m.isUser && m.message == Trim(message) && m.suggestedColors.None?
  {
    ChatMessage(true, Trim(message), None, timestamp)
  }

  /** The entry recorded once the service call ends: its reply, or the apology without suggestions. */
  function AnswerEntry(outcome: SendOutcome, timestamp: string): (m: ChatMessage)
    ensures !m.isUser
    ensures outcome.Resolved? ==>
      m.message == outcome.reply.message && m.suggestedColors == Some(outcome.reply.suggestedColors)
    ensures outcome.Threw? ==> m.message == ApologyText && m.suggestedColors.None?
  {
    match outcome
    case Resolved(reply) => ChatMessage(false, reply.message, Some(reply.suggestedColors), timestamp)
    case Threw => ChatMessage(false, ApologyText, None, timestamp)
  }

  /** `prev => ({ chatHistory: [...prev.chatHistory, entry] })`: the entry goes at the end and nothing else changes. */
  lemma AppendEntryUpdate(s: AppState, entry: ChatMessage)
    ensures Apply(s, FromPrevious((prev: AppState) => Empty.(chatHistory := Some(prev.chatHistory + [entry]))))
      == s.(chatHistory := s.chatHistory + [entry])
  {
  }

  class Chat {
    const store: Store
    var message: string
    var isLoading: bool
    var service: ChatService.Service

    /** The window opens with an empty input, nothing loading and a service for the current settings. */
    constructor(store: Store)
      ensures this.store == store && message == "" && !isLoading
      ensures service == ChatService.CreateChatService(store.state.useLLM, store.state.llmConfig)
    {
      this.store := store;
      message := "";
      isLoading := false;
      service := ChatService.CreateChatService(store.state.useLLM, store.state.llmConfig);
    }

    /** The effect on `[useLLM, llmConfig]`: the service follows the settings. */
    method SettingsChanged()
      modifies this
      ensures service == ChatService.CreateChatService(store.state.useLLM, store.state.llmConfig)
      ensures message == old(message) && isLoading == old(isLoading)
    {
      service := ChatService.CreateChatService(store.state.useLLM, store.state.llmConfig);
    }

    /** The input's `onChange`. */
    method SetMessage(text: string)
      modifies this
      ensures message == text && isLoading == old(isLoading) && service == old(service)
    {
      message := text;
    }

    /**
     * The part of `handleSendMessage` before the `await`. When a send is
     * allowed, the user's entry is appended, the input cleared and loading
     * set, and the trimmed text to pass to the service is returned;
     * otherwise nothing changes.
     */
    method BeginSend(timestamp: string) returns (request: Option<string>)
      modifies this, store
      ensures service == old(service)
      ensures CanSend(old(message), old(isLoading)) ==>
        request == Some(Trim(old(message))) &&
        store.state == old(store.state).(chatHistory := old(store.state).chatHistory + [UserEntry(old(message), timestamp)]) &&
        message == "" && isLoading
      ensures !CanSend(old(message), old(isLoading)) ==>
        request == None && store.state == old(store.state) && message == old(message) && isLoading == old(isLoading)
    {
      if Trim(message) == "" || isLoading {
        return None;
      }
      var userMessage := UserEntry(message, timestamp);
      AppendEntryUpdate(store.state, userMessage);
      store.SetState(FromPrevious((prev: AppState) => Empty.(chatHistory := Some(prev.chatHistory + [userMessage]))));
      message := "";
      isLoading := true;
      request := Some(userMessage.message);
    }

    /** The part after the `await`: the reply or the apology is appended and loading ends, whatever the outcome. */
    method CompleteSend(outcome: SendOutcome, timestamp: string)
      modifies this, store
      ensures store.state == old(store.state).(chatHistory := old(store.state).chatHistory + [AnswerEntry(outcome, timestamp)])
      ensures !isLoading && message == old(message) && service == old(service)
    {
      var entry := AnswerEntry(outcome, timestamp);
      AppendEntryUpdate(store.state, entry);
      store.SetState(FromPrevious((prev: AppState) => Empty.(chatHistory := Some(prev.chatHistory + [entry]))));
      isLoading := false;
    }

    /**
     * `chatService.current.processMessage(request, colors)`: what the current
     * service answers. `rand`, `llmOutcome` and `nameOf` are what the rule
     * service draws, how an LLM request ends and the colour namer. Neither
     * service of this model throws, so the call always resolves.
     */
    method Ask(request: string, colors: seq<string>, rand: RuleEngine.RandomSource,
               llmOutcome: LlmEngine.LlmOutcome, nameOf: ColorNamer)
      returns (outcome: SendOutcome)
      requires RuleEngine.ValidSource(rand)
      ensures outcome == Resolved(ChatService.Reply(service, request, colors, rand, llmOutcome, nameOf))
    {
      var reply := ChatService.ProcessMessage(service, request, colors, rand, llmOutcome, nameOf);
      outcome := Resolved(reply);
    }

    /**
     * `handleSendMessage` from end to end, with nothing else happening while
     * the call is awaited: `outcome` is how the awaited call ends, and
     * `sentAt` and `answeredAt` are the two clock readings. A send that goes
     * ahead returns the trimmed text passed to the service and appends
     * exactly two entries, the user's and then the answer's; either way
     * loading is off afterwards.
     */
    method HandleSendMessage(sentAt: string, outcome: SendOutcome, answeredAt: string)
      returns (request: Option<string>)
      modifies this, store
      ensures service == old(service)
      ensures request.Some? <==> CanSend(old(message), old(isLoading))
      ensures request.Some? ==>
        request.value == Trim(old(message)) &&
        store.state == old(store.state).(chatHistory := old(store.state).chatHistory +
          [UserEntry(old(message), sentAt), AnswerEntry(outcome, answeredAt)]) &&
        message == "" && !isLoading
      ensures request.None? ==>
        store.state == old(store.state) && message == old(message) && isLoading == old(isLoading)
    {
      ghost var before := store.state;
      ghost var user := UserEntry(message, sentAt);
      request := BeginSend(sentAt);
      if request.Some? {
        CompleteSend(outcome, answeredAt);
        assert before.chatHistory + [user] + [AnswerEntry(outcome, answeredAt)]
          == before.chatHistory + [user, AnswerEntry(outcome, answeredAt)];
      }
    }

    /** `handleKeyDown`: Enter without Shift starts a send; any other key does nothing. */
    method HandleKeyDown(key: string, shiftKey: bool, timestamp: string) returns (request: Option<string>)
      modifies this, store
      ensures service == old(service)
      ensures key == "Enter" && !shiftKey && CanSend(old(message), old(isLoading)) ==>
        request == Some(Trim(old(message))) &&
        store.state == old(store.state).(chatHistory := old(store.state).chatHistory + [UserEntry(old(message), timestamp)]) &&
        message == "" && isLoading
      ensures !(key == "Enter" && !shiftKey && CanSend(old(message), old(isLoading))) ==>
        request == None && store.state == old(store.state) && message == old(message) && isLoading == old(isLoading)
    {
      if key == "Enter" && !shiftKey {
        request := BeginSend(timestamp);
      } else {
        request := None;
      }
    }

    /** `handleAddColor(color)`: the suggestion's hex is appended to the palette and nothing else changes. */
    method HandleAddColor(color: NamedColor)
      modifies store
      ensures store.state == old(store.state).(colors := old(store.state).colors + [color.hex])
    {
      store.SetState(FromPrevious((prev: AppState) => Empty.(colors := Some(prev.colors + [color.hex]))));
    }
  }
}
