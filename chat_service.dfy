/**
 * `createChatService` and the two implementations behind the `ChatService`
 * interface: the rule-based service, which holds nothing, and the LLM
 * service, which holds an endpoint and a key.
 */
module ChatService {
  import opened Entities
  import RuleEngine
  import LlmEngine

  datatype Service =
    | RuleService
    | LlmService(endpoint: string, apiKey: string)

  /**
   * `new LLMChatService(config)`. Both fields are read with `|| ''`, which
   * leaves a string unchanged, since the only falsy string is `''` itself.
   */
  function NewLlmService(config: LlmConfig): (s: Service)
    ensures s.LlmService? && s.endpoint == config.endpoint && s.apiKey == config.apiKey
  {
    LlmService(config.endpoint, config.apiKey)
  }

  /** `createChatService(useLLM, config)`. */
  function CreateChatService(useLLM: bool, config: LlmConfig): (s: Service)
    ensures s.LlmService? <==> useLLM
    ensures s.LlmService? ==> s == NewLlmService(config)
  {
    if useLLM then NewLlmService(config) else RuleService
  }

  /** What `service.processMessage(message, colors)` resolves to. */
  function Reply(service: Service, message: string, colors: seq<string>, rand: RuleEngine.RandomSource,
                 outcome: LlmEngine.LlmOutcome, nameOf: ColorNamer): (r: ChatReply)
    requires RuleEngine.ValidSource(rand)
    ensures service.RuleService? ==> |r.suggestedColors| <= 5
    ensures service.LlmService? && !LlmEngine.Configured(service.endpoint, service.apiKey) ==>
      r == ChatReply(LlmEngine.NotConfiguredText, [])
    ensures service.LlmService? && !outcome.Answered? ==> r.suggestedColors == []
  {
    match service
    case RuleService => RuleEngine.RuleReply(message, colors, rand, nameOf)
    case LlmService(endpoint, apiKey) => LlmEngine.LlmReply(endpoint, apiKey, outcome, nameOf)
  }

  /**
   * The dispatch to the service's own `processMessage`. The rule service
   * reads the random draws, the LLM service the request's outcome; each
   * ignores the other.
   */
  method ProcessMessage(service: Service, message: string, colors: seq<string>, rand: RuleEngine.RandomSource,
                        outcome: LlmEngine.LlmOutcome, nameOf: ColorNamer)
    returns (reply: ChatReply)
    requires RuleEngine.ValidSource(rand)
    ensures reply == Reply(service, message, colors, rand, outcome, nameOf)
  {
    match service
    case RuleService =>
      reply := RuleEngine.ProcessMessage(message, colors, rand, nameOf);
    case LlmService(endpoint, apiKey) =>
      reply := LlmEngine.ProcessMessage(endpoint, apiKey, message, colors, outcome, nameOf);
  }

  /** The default configuration, an empty endpoint and key, makes an LLM service that never calls out. */
  lemma DefaultConfigNeverCalls(message: string, colors: seq<string>, rand: RuleEngine.RandomSource,
                                outcome: LlmEngine.LlmOutcome, nameOf: ColorNamer)
    requires RuleEngine.ValidSource(rand)
    ensures Reply(CreateChatService(true, LlmConfig("", "")), message, colors, rand, outcome, nameOf)
      == ChatReply(LlmEngine.NotConfiguredText, [])
  {
    LlmEngine.NotConfiguredReply("", "", outcome, outcome, nameOf);
  }

  /** The rule service's reply never depends on how an LLM request would have turned out. */
  lemma RuleServiceIgnoresOutcome(message: string, colors: seq<string>, rand: RuleEngine.RandomSource,
                                  outcome: LlmEngine.LlmOutcome, other: LlmEngine.LlmOutcome, nameOf: ColorNamer)
    requires RuleEngine.ValidSource(rand)
    ensures Reply(CreateChatService(false, LlmConfig("", "")), message, colors, rand, outcome, nameOf)
      == Reply(RuleService, message, colors, rand, other, nameOf)
  {
  }
}
