/** Spans as the bridge sends them and the trace view shows them; payloads stay uninterpreted text. */
module Spans {
  import opened Wrappers

  type SpanId = string

  datatype SpanStatus = Unset | Good | Error

  datatype Span = Span(
    id: SpanId, parent: Option<SpanId>, kind: string, status: SpanStatus,
    input: string, output: Option<string>, error: Option<string>)
}
