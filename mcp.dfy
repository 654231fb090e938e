/** The parts of the model-context-protocol library the handler touches: the
    arguments of a tool call and the text result it builds. */
module Mcp {
  import opened Base

  /** An argument value as decoded from the call's JSON: a string, a list of
      strings, or anything else. */
  datatype Value = Str(s: string) | StrList(items: seq<string>) | OtherValue

  datatype CallToolRequest = CallToolRequest(arguments: map<string, Value>)

  /** The result of a tool call holding one text item. A Go `string` is a byte
      sequence, so the text is kept as the bytes it was built from. */
  datatype CallToolResult = TextResult(text: seq<byte>)

  /** `GetString(key, default)`: the argument if it is present and a string,
      otherwise the default. */
  function GetString(request: CallToolRequest, key: string, default: string): string
  {
    if key in request.arguments && request.arguments[key].Str? then request.arguments[key].s
    else default
  }

  /** `GetStringSlice(key, default)`: the argument if it is present and a list of
      strings, otherwise the default. */
  function GetStringSlice(request: CallToolRequest, key: string, default: seq<string>): seq<string>
  {
    if key in request.arguments && request.arguments[key].StrList? then request.arguments[key].items
    else default
  }

  /** `NewToolResultText`: wraps the text as the call's only content. */
  function NewToolResultText(text: seq<byte>): CallToolResult
  {
    TextResult(text)
  }
}
