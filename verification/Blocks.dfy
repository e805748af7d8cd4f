/** The blocks of a context, as crates/ai/src/request.rs declares them. Provider bytes are opaque strings here. */
module Blocks {
  import opened Options

  datatype Protocol = AnthropicMessages | OpenaiChat | OpenaiResponses

  datatype ReplayKind = AnthropicSignature | AnthropicRedacted | ResponsesEncrypted | OpenrouterDetails
  {
    /** The protocol whose providers know this kind of state. */
    function Protocol(): Protocol {
      match this
      case AnthropicSignature => AnthropicMessages
      case AnthropicRedacted => AnthropicMessages
      case ResponsesEncrypted => OpenaiResponses
      case OpenrouterDetails => OpenaiChat
    }
  }

  /** The model and the host that answered. */
  datatype Origin = Origin(model: string, baseUrl: string)

  /** What a provider wants back, tagged with the one origin that may see it. */
  datatype ReplayState = ReplayState(origin: Origin, kind: ReplayKind, data: string)

  /** An attachment. Its digest names its bytes. */
  datatype Media = Media(digest: string, mime: string, filename: string)

  datatype ToolCall = ToolCall(callId: string, name: string, arguments: string)

  datatype ToolResult =
    ToolResult(callId: string, content: string, isError: bool, media: seq<Media>, loaded: seq<string>)

  datatype Role = User | Assistant

  datatype Block =
    | UserText(text: string)
    | Attachment(media: Media)
    | Result(result: ToolResult)
    | AssistantText(answer: string)
    | Reasoning(thought: string, replay: Option<ReplayState>)
    | Call(call: ToolCall)
  {
    /** The role that the kind fixes. */
    function Role(): Role {
      if UserText? || Attachment? || Result? then User else Assistant
    }
  }

  /** An answer to a call that reports an error. */
  function ErrorResult(callId: string, content: string): ToolResult {
    ToolResult(callId, content, true, [], [])
  }
}
