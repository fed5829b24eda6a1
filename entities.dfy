/** The values the components and the chat service pass to each other. */
module Entities {
  import opened Wrappers

  /** A suggested colour: `{ hex, name }`. */
  datatype NamedColor = NamedColor(hex: string, name: string)

  /** What `processMessage` resolves to: `{ message, suggestedColors }`. */
  datatype ChatReply = ChatReply(message: string, suggestedColors: seq<NamedColor>)

  /** `llmConfig`: where the external model is and the key to call it with. */
  datatype LlmConfig = LlmConfig(endpoint: string, apiKey: string)

  /** A saved palette: `{ colors, id, name }`. */
  datatype Palette = Palette(colors: seq<string>, id: string, name: string)

  /**
   * One chat history entry. User entries and the error entry carry no
   * `suggestedColors` field at all, which is `None` here.
   */
  datatype ChatMessage = ChatMessage(
    isUser: bool,
    message: string,
    suggestedColors: Option<seq<NamedColor>>,
    timestamp: string)

  /** `hex => ntc.name(hex)[1]`, the colour-name lookup, which is not part of this model. */
  type ColorNamer = string -> string
}
