/** The `channels_list` tool handler: resolve the call's parameters, drain the
    upstream conversations listing page by page, flatten every channel into a
    `Channel` row, order the rows by popularity when asked to, and hand them to
    the CSV encoder. */
module Handler {
  import opened Base
  import Mcp
  import Slack

  /** Every conversation kind the upstream knows. */
  const AllChanTypes: seq<string> := ["mpim", "im", "public_channel", "private_channel"]
  /** The kinds listed when the call names none. */
  const PubChanType: seq<string> := ["public_channel"]

  /** The page size asked of every listing call. */
  const PageLimit := 100

  /** One row of the tool's output. */
  datatype Channel = Channel(id: string, name: string, topic: string, purpose: string, memberCount: int)

  /** `gocsv.MarshalBytes` over the rows; its output format is not part of this model. */
  type Encoder = seq<Channel> -> Result<seq<byte>>

  // ---------------------------------------------------------------------------
  // Parameters

  /** The ordering policy of the call. */
  function SortType(request: Mcp.CallToolRequest): (policy: string)
    ensures "sort" !in request.arguments ==> policy == "popularity"
    ensures "sort" in request.arguments && !request.arguments["sort"].Str? ==> policy == "popularity"
    ensures "sort" in request.arguments && request.arguments["sort"].Str? ==> policy == request.arguments["sort"].s
  {
    Mcp.GetString(request, "sort", "popularity")
  }

  /** The conversation kinds the call lists. */
  function ChannelTypes(request: Mcp.CallToolRequest): (types: seq<string>)
    ensures "channel_types" !in request.arguments ==> types == ["public_channel"]
    ensures "channel_types" in request.arguments && !request.arguments["channel_types"].StrList? ==> types == ["public_channel"]
    ensures "channel_types" in request.arguments && request.arguments["channel_types"].StrList? ==>
              types == request.arguments["channel_types"].items
  {
    Mcp.GetStringSlice(request, "channel_types", PubChanType)
  }

  // ---------------------------------------------------------------------------
  // Pagination: what the listing loop is specified to do

  /** Some call of the script returns the empty cursor, so the loop ends. */
  predicate EndsListing(pages: seq<Slack.Page>)
  {
    exists k :: 0 <= k < |pages| && pages[k].nextCursor == ""
  }

  /** The number of the call at which the loop stops: the first whose cursor is empty. */
  function StopIndex(pages: seq<Slack.Page>): (k: nat)
    requires EndsListing(pages)
    ensures k < |pages| && pages[k].nextCursor == ""
    ensures forall j :: 0 <= j < k ==> pages[j].nextCursor != ""
    decreases |pages|
  {
    if pages[0].nextCursor == "" then 0
    else
      assert EndsListing(pages[1..]) by {
        var k :| 0 <= k < |pages| && pages[k].nextCursor == "";
        assert pages[1..][k - 1] == pages[k];
      }
      1 + StopIndex(pages[1..])
  }

  /** The channels of the given pages, page after page. */
  function Flatten(pages: seq<Slack.Page>): seq<Slack.Channel>
  {
    if pages == [] then [] else Flatten(pages[..|pages| - 1]) + pages[|pages| - 1].channels
  }

  /** The channels the loop accumulates: those of every call before the stopping
      one. The stopping call's own channels are not among them. */
  function Listed(pages: seq<Slack.Page>): seq<Slack.Channel>
    requires EndsListing(pages)
  {
    Flatten(pages[..StopIndex(pages)])
  }

  /** The parameters of the k-th listing call: the requested kinds, a page of at
      most 100, archived channels excluded, the empty cursor first and then the
      cursor the previous call returned. */
  function RequestAt(types: seq<string>, pages: seq<Slack.Page>, k: nat): Slack.GetConversationsParameters
    requires k <= |pages|
  {
    Slack.GetConversationsParameters(
      types := types, limit := PageLimit, excludeArchived := true,
      cursor := if k == 0 then "" else pages[k - 1].nextCursor)
  }

  // ---------------------------------------------------------------------------
  // Normalisation

  /** The row one upstream channel becomes. */
  function ToRow(c: Slack.Channel): Channel
  {
    Channel(id := c.id, name := "#" + c.name, topic := c.topic.value,
            purpose := c.purpose.value, memberCount := c.numMembers)
  }

  /** The rows of a channel list, one per channel and in the same order. */
  function Normalized(channels: seq<Slack.Channel>): (rows: seq<Channel>)
    ensures |rows| == |channels|
    ensures forall i :: 0 <= i < |rows| ==>
              && rows[i].id == channels[i].id
              && rows[i].name == "#" + channels[i].name
              && rows[i].topic == channels[i].topic.value
              && rows[i].purpose == channels[i].purpose.value
              && rows[i].memberCount == channels[i].numMembers
  {
    if channels == [] then []
    else Normalized(channels[..|channels| - 1]) + [ToRow(channels[|channels| - 1])]
  }

  // ---------------------------------------------------------------------------
  // Ordering

  /** Member counts never increase along the rows. */
  predicate ByPopularity(rows: seq<Channel>)
  {
    forall i, j :: 0 <= i < j < |rows| ==> rows[i].memberCount >= rows[j].memberCount
  }

  /** The member-count column of the rows. */
  function MemberCounts(rows: seq<Channel>): seq<int>
  {
    seq(|rows|, i requires 0 <= i < |rows| => rows[i].memberCount)
  }

  // ---------------------------------------------------------------------------
  // The handler's steps

  /** The listing loop. `err` is what the last call left in the handler's error
      variable: the stopping call's error, which the handler never inspects. */
  method FetchAll(client: Slack.Client, types: seq<string>)
    returns (channels: seq<Slack.Channel>, err: Option<Error>, ghost requests: seq<Slack.GetConversationsParameters>)
    requires EndsListing(client.pages)
    ensures channels == Listed(client.pages)
    ensures err == client.pages[StopIndex(client.pages)].err
    ensures |requests| == StopIndex(client.pages) + 1
    ensures forall k :: 0 <= k < |requests| ==> requests[k] == RequestAt(types, client.pages, k)
  {
    ghost var pages := client.pages;
    ghost var stop := StopIndex(pages);
    var params := Slack.GetConversationsParameters(
      types := types, limit := PageLimit, excludeArchived := true, cursor := "");
    channels := [];
    requests := [];
    var call := 0;
    while true
      invariant call <= stop
      invariant params == RequestAt(types, pages, call)
      invariant channels == Flatten(pages[..call])
      invariant |requests| == call
      invariant forall k :: 0 <= k < call ==> requests[k] == RequestAt(types, pages, k)
      decreases stop - call
    {
      requests := requests + [params];
      var page := Slack.GetConversationsContext(client, call, params);
      var chans, nextcur := page.channels, page.nextCursor;
      err := page.err;
      if nextcur == "" {
        break;
      }
      params := params.(cursor := nextcur);
      assert pages[..call + 1][..call] == pages[..call];
      channels := channels + chans;
      call := call + 1;
    }
  }

  /** The normalisation loop: one row per accumulated channel, in order. */
  method Normalize(channels: seq<Slack.Channel>) returns (channelList: seq<Channel>)
    ensures channelList == Normalized(channels)
  {
    channelList := [];
    for n := 0 to |channels|
      invariant channelList == Normalized(channels[..n])
    {
      assert channels[..n + 1][..n] == channels[..n];
      channelList := channelList + [ToRow(channels[n])];
    }
    assert channels[..|channels|] == channels;
  }

  /** Exchanges two rows. */
  method Swap(a: array<Channel>, i: nat, j: nat)
    requires i < a.Length && j < a.Length
    modifies a
    ensures a[i] == old(a[j]) && a[j] == old(a[i])
    ensures forall k :: 0 <= k < a.Length && k != i && k != j ==> a[k] == old(a[k])
    ensures multiset(a[..]) == multiset(old(a[..]))
  {
    a[i], a[j] := a[j], a[i];
  }

  /** `sort.Slice` with "more members first" as its less function, in place. For
      short slices Go's sort is this insertion sort; only the permutation and the
      order are promised, not which of two equally popular rows comes first. */
  method SortByPopularity(a: array<Channel>)
    modifies a
    ensures ByPopularity(a[..])
    ensures multiset(a[..]) == multiset(old(a[..]))
  {
    var i := 1;
    while i < a.Length
      invariant a.Length == 0 || 1 <= i <= a.Length
      invariant ByPopularity(a[..if a.Length == 0 then 0 else i])
      invariant multiset(a[..]) == multiset(old(a[..]))
    {
      var j := i;
      while j > 0 && a[j].memberCount > a[j - 1].memberCount
        invariant 0 <= j <= i
        invariant forall p, q :: 0 <= p < q <= i && q != j ==> a[p].memberCount >= a[q].memberCount
        invariant 0 < j < i ==> a[j - 1].memberCount >= a[j + 1].memberCount
        invariant multiset(a[..]) == multiset(old(a[..]))
      {
        Swap(a, j, j - 1);
        j := j - 1;
      }
      i := i + 1;
    }
  }

  /** The rows handed to the encoder, given the policy and the normalised listing:
      the same rows, by popularity under `"popularity"`, untouched otherwise. */
  predicate Ordered(policy: string, normalized: seq<Channel>, rows: seq<Channel>)
  {
    && multiset(rows) == multiset(normalized)
    && (policy == "popularity" ==> ByPopularity(rows))
    && (policy != "popularity" ==> rows == normalized)
  }

  /** `ChannelsHandler`: `provided` is the outcome of `Provide()`, `marshal` the
      encoder, `requests` the listing calls made, in order. */
  method ChannelsHandler(request: Mcp.CallToolRequest, provided: Result<Slack.Client>, marshal: Encoder)
    returns (result: Result<Mcp.CallToolResult>, ghost requests: seq<Slack.GetConversationsParameters>)
    requires provided.Success? ==> EndsListing(provided.value.pages)
    ensures provided.Failure? ==> result == Failure(provided.error) && requests == []
    ensures provided.Success? ==> |requests| == StopIndex(provided.value.pages) + 1
    ensures provided.Success? ==> forall k :: 0 <= k < |requests| ==>
              requests[k] == RequestAt(ChannelTypes(request), provided.value.pages, k)
    ensures provided.Success? ==>
              exists rows :: && Ordered(SortType(request), Normalized(Listed(provided.value.pages)), rows)
                             && (marshal(rows).Failure? ==> result == Failure(marshal(rows).error))
                             && (marshal(rows).Success? ==> result == Success(Mcp.NewToolResultText(marshal(rows).value)))
  {
    var sortType := Mcp.GetString(request, "sort", "popularity");
    var channelTypes := Mcp.GetStringSlice(request, "channel_types", PubChanType);
    assert sortType == SortType(request) && channelTypes == ChannelTypes(request);

    if provided.Failure? {
      requests := [];
      return Failure(provided.error), requests;
    }
    var api := provided.value;

    var channels, err;
    channels, err, requests := FetchAll(api, channelTypes);
    ghost var expected := Normalized(Listed(api.pages));

    var channelList := Normalize(channels);
    assert channelList == expected;
    var sorted := new Channel[|channelList|](i requires 0 <= i < |channelList| => channelList[i]);
    assert sorted[..] == expected;
    if sortType == "popularity" {
      SortByPopularity(sorted);
    }
    ghost var rows := sorted[..];
    assert Ordered(sortType, expected, rows);

    var csv := marshal(sorted[..]);
    if csv.Failure? {
      return Failure(csv.error), requests;
    }
    result := Success(Mcp.NewToolResultText(csv.value));
  }
}
