# Channel listing handler of slack-mcp-server, in Dafny

This project models the `channels_list` tool of the Slack MCP server:
`ChannelsHandler.ChannelsHandler` in `pkg/handler/channels.go`. A tool call arrives
with optional `sort` and `channel_types` arguments. The handler does five things in order:

1. It resolves both arguments against their defaults (`"popularity"` and `["public_channel"]`).
2. It obtains a Slack client from the API provider.
3. It pages through `conversations.list` (100 per page, archived channels
   excluded), passing each returned cursor on to the next call.
4. It flattens every channel into an `id, name, topic, purpose, memberCount` row,
   prefixing the name with `#`.
5. It sorts the rows by member count, most members first, when the policy is
   `"popularity"`, and leaves them in listing order for any other policy. It then
   CSV-encodes the rows into the tool's text result.

Files and modules:

- `base.dfy`, module `Base`: Go's `error`, `(value, error)` results as `Result`, and bytes.
- `mcp.dfy`, module `Mcp`: the tool request's argument map, `GetString`,
  `GetStringSlice` and `NewToolResultText`.
- `slack.dfy`, module `Slack`: the fields of `slack.Channel` that the handler reads,
  `GetConversationsParameters`, and a client whose listing endpoint answers from a
  fixed script of pages. Page `k` is the answer to the k-th call and carries
  channels, a next cursor and an error.
- `channels.dfy`, module `Handler`: the handler. Its steps are:
  - `FetchAll` is the pagination loop.
  - `Normalize` is the row-building loop.
  - `SortByPopularity` is the in-place sort.
  - `ChannelsHandler` composes these steps.
  - The functions `StopIndex`, `Listed`, `RequestAt`, `Normalized`, `ByPopularity`
    and `Ordered` specify the steps.
- `channels_properties.dfy`, module `HandlerProperties`: lemmas over those
  specifications, such as error-independence of the listing, the dropped final
  page, and uniqueness of the popularity order's member-count column.

External calls are inputs to the model:

- `Provide()` is the parameter `provided`: either a client or an error.
- The listing endpoint is the client's page script.
- `gocsv.MarshalBytes` is the parameter `marshal`. It is any function from rows to
  bytes or an error.

### Behaviour of the code that a caller may not expect

The model follows the code in each of these places.

- **The last page is dropped.** The loop breaks on an empty cursor *before* it
  appends that call's channels. So the channels of the stopping call are never
  listed (`HandlerProperties.FinalPageDropped`). A listing that fits in a single
  page yields no rows at all (`HandlerProperties.SinglePageListsNothing`). With
  pages of 3 and 2 channels, only the first 3 are kept (`HandlerProperties.TwoPages`).
  The code itself treats the break as the end of a complete fetch: it logs
  "channels fetch complete" there (pkg/handler/channels.go:61). The page that
  carries the empty cursor still carries channels, and they are lost.
- **Upstream errors are ignored.** The error of a listing call is assigned at
  pkg/handler/channels.go:58 and never read; the encoder's result overwrites it at
  line 90. The errors of `Provide` (lines 39-42) and of the encoder (lines 90-93)
  are both checked, so this one call is the exception. Scripts that differ only in
  their errors make the same calls and list the same channels
  (`HandlerProperties.UpstreamErrorsIgnored`).
- **There is no page cap.** The loop ends only when a call returns the empty
  cursor. The model therefore requires that the script contains such a call
  (`EndsListing`), and termination rests on that. No cap is modelled.
- **The sort is not stable.** `sort.Slice` is used, so equally popular rows may
  come out in any order. The model promises only a non-increasing member-count
  order of the same rows. Even so, the member-count column is fully determined
  (`HandlerProperties.PopularityColumnDetermined`).

## Model

| member | source | states |
|---|---|---|
| `Handler.SortType` | pkg/handler/channels.go:36 | the policy is the `sort` argument when it is a string; when it is absent or not a string, the policy is `"popularity"` |
| `Handler.ChannelTypes` | pkg/handler/channels.go:37 | the kinds are the `channel_types` argument when it is a list of strings; otherwise the kinds are `PubChanType`, i.e. `["public_channel"]` |
| `Handler.StopIndex` | pkg/handler/channels.go:52-63 | the loop stops at the first call whose returned cursor is empty: that call's cursor is `""` and every earlier cursor is non-empty |
| `Handler.FetchAll` | pkg/handler/channels.go:44-68 | one call more than the stopping index is made. Call k uses the resolved kinds, limit 100, archived excluded, the cursor `""` for k = 0 and otherwise the cursor returned by call k-1. The accumulated channels are, in order, those of every call before the stopping one. The error left behind is the stopping call's, uninspected |
| `Handler.Normalized` | pkg/handler/channels.go:70-79 | one row per channel, in order. Row i has the channel's ID, `"#"` followed by its name, the topic value, the purpose value, and `NumMembers` as member count |
| `Handler.Normalize` | pkg/handler/channels.go:70-79 | the `append` loop builds exactly the rows `Normalized` specifies |
| `Handler.SortByPopularity` | pkg/handler/channels.go:81-85 | the array afterwards is a permutation of its old contents, and member counts never increase along it |
| `Handler.ChannelsHandler` | pkg/handler/channels.go:35-96 | if `Provide` fails, the result is that error and no listing call is made. Otherwise the listing calls are those `FetchAll` states. The encoder is then given rows that satisfy `Ordered`: a permutation of the normalised listed channels, ordered by member count under `"popularity"`, and exactly in normalisation order under any other policy. An encoder error is returned as the failure; the encoder's bytes are wrapped as the text result. No upstream error reaches the result |
| `HandlerProperties.UpstreamErrorsIgnored` | pkg/handler/channels.go:58-67 | listing scripts that agree on channels and cursors but differ in errors produce the same calls, the same stopping call and the same accumulated channels |
| `HandlerProperties.FinalPageDropped` | pkg/handler/channels.go:60-67 | the accumulated channels followed by the stopping call's channels are all pages up to and including the stopping one, so exactly the stopping page is missing |
| `HandlerProperties.SinglePageListsNothing` | pkg/handler/channels.go:52-67 | when the first call already returns the empty cursor, the loop stops at call 0 and accumulates nothing |
| `HandlerProperties.TwoPages` | pkg/handler/channels.go:46-67 | with pages (3 channels, cursor `"abc"`) and (2 channels, cursor `""`), the loop stops at the second call, which uses cursor `"abc"`. The accumulated list is the 3 channels of the first page |
| `HandlerProperties.PopularityColumnDetermined` | pkg/handler/channels.go:81-85 | any two popularity orderings of the same rows have the same member-count column, although ties may be broken differently |

## Left out

- `Handler.SortByPopularity`: it is insertion sort by adjacent swaps. Go's `sort.Slice` (Go 1.19 and later) runs exactly this on slices of at most 12 elements and pattern-defeating quicksort on longer slices. The contract promises only what `sort.Slice` promises (a permutation, ordered by the less function), not Go's particular order among equal member counts.
- `Handler.ChannelsHandler`: its precondition requires that the page script contains an empty-cursor call. The source loops forever against an upstream that never returns one; that behaviour has no counterpart in the model.
- The provider's internals and `NewChannelsHandler`: the `apiProvider` field is represented only by the outcome of its `Provide` call, because `pkg/provider` is not part of this model.
- The Slack client's HTTP calls and the request context with its cancellation: these are network I/O. The client is a fixed script of pages, and the parameters of each call are recorded rather than sent.
- The encoder's behaviour: `gocsv.MarshalBytes` is not part of this model. Header names, quoting and the encoding of an empty or nil slice are therefore not stated. The encoder is an arbitrary function that may fail.
- The arguments' JSON decoding: `mcp-go` is not part of this model. `GetString` and `GetStringSlice` are map lookups that return the value when it has the expected shape and otherwise the default. A JSON array of mixed values is not distinguished from any other non-list value.
- Logging and the unused counters `total` and `i`: they have no effect on the result.
- `AllChanTypes`: it is declared as a constant. The handler does not read it, and it does not restrict `channel_types`.
- `cmd/slack-mcp-server/main.go`: flag parsing, the stdio and HTTP transports, CORS and logging middleware, and reading host and port from the environment. These are process and I/O plumbing.
- The asynchronous provider bootstrap and the demo-credential shortcut in `main.go`: these are a goroutine and environment reads.
