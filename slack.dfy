/** The upstream Slack client as the handler sees it: the raw channel record, the
    parameters of a conversations listing call, and a client whose listing
    endpoint answers call by call from a fixed script of pages. */
module Slack {
  import opened Base

  datatype Topic = Topic(value: string)
  datatype Purpose = Purpose(value: string)

  /** The fields of `slack.Channel` that the handler reads. */
  datatype Channel = Channel(id: string, name: string, topic: Topic, purpose: Purpose, numMembers: int)

  /** `slack.GetConversationsParameters` as the handler fills it in. */
  datatype GetConversationsParameters = GetConversationsParameters(
    types: seq<string>, limit: int, excludeArchived: bool, cursor: string)

  /** What one listing call returns: the channels, the next cursor (`""` when the
      upstream reports no further page) and the call's error, `None` for nil. */
  datatype Page = Page(channels: seq<Channel>, nextCursor: string, err: Option<Error>)

  /** An authenticated client; `pages[k]` is the answer to its k-th listing call
      (counting from 0), whatever the parameters of that call. */
  datatype Client = Client(pages: seq<Page>)

  /** `GetConversationsContext`, answering the `call`-th call. */
  function GetConversationsContext(client: Client, call: nat, params: GetConversationsParameters): Page
    requires call < |client.pages|
  {
    client.pages[call]
  }
}
