/** The chunks of an upstream chat completion stream (internal/openai/types.go). */
module Upstream {
  import opened Wrappers
  import opened ToolLog

  datatype Delta = Delta(content: Option<string>, reasoning: Option<string>, refusal: Option<string>,
                         toolCalls: seq<ToolCallDelta>)

  datatype Choice = Choice(delta: Option<Delta>, finishReason: Option<string>)

  datatype UpstreamError = UpstreamError(message: string, code: Option<int>)

  datatype Chunk = Chunk(readError: bool, done: bool, error: Option<UpstreamError>, choices: seq<Choice>)

  predicate Presence(s: Option<string>)
  {
    s.Some? && s.value != ""
  }

  /** No chunk after this one is read. */
  predicate Over(c: Chunk)
  {
    c.readError || c.done || c.error.Some?
  }
}
