/** Properties of the channels handler's pagination and ordering that relate
    several listings or several orderings. */
module HandlerProperties {
  import opened Base
  import Slack
  import opened Handler

  // ---------------------------------------------------------------------------
  // Pagination

  /** Two scripts that return the same channels and cursors call after call and
      differ at most in their errors. */
  predicate SameListing(p: seq<Slack.Page>, q: seq<Slack.Page>)
  {
    && |p| == |q|
    && forall k :: 0 <= k < |p| ==> p[k].channels == q[k].channels && p[k].nextCursor == q[k].nextCursor
  }

  lemma {:induction false} FlattenSameListing(p: seq<Slack.Page>, q: seq<Slack.Page>)
    requires SameListing(p, q)
    ensures Flatten(p) == Flatten(q)
    decreases |p|
  {
    if p != [] {
      FlattenSameListing(p[..|p| - 1], q[..|q| - 1]);
    }
  }

  /** The errors of the listing calls change nothing: the same calls are made,
      the loop stops at the same call and accumulates the same channels. */
  lemma {:induction false} UpstreamErrorsIgnored(types: seq<string>, p: seq<Slack.Page>, q: seq<Slack.Page>)
    requires SameListing(p, q)
    requires EndsListing(p)
    ensures EndsListing(q)
    ensures StopIndex(p) == StopIndex(q)
    ensures Listed(p) == Listed(q)
    ensures forall k :: 0 <= k <= StopIndex(p) ==> RequestAt(types, p, k) == RequestAt(types, q, k)
  {
    var s := StopIndex(p);
    assert q[s].nextCursor == "";
    assert EndsListing(q);
    StopIndexSameListing(p, q);
    FlattenSameListing(p[..s], q[..s]);
  }

  lemma {:induction false} StopIndexSameListing(p: seq<Slack.Page>, q: seq<Slack.Page>)
    requires SameListing(p, q)
    requires EndsListing(p) && EndsListing(q)
    ensures StopIndex(p) == StopIndex(q)
    decreases |p|
  {
    if p[0].nextCursor != "" {
      StopIndexSameListing(p[1..], q[1..]);
    }
  }

  /** What the loop drops: appending the stopping call's channels to what it
      accumulated gives every page up to and including the stopping one. */
  lemma FinalPageDropped(pages: seq<Slack.Page>)
    requires EndsListing(pages)
    ensures Listed(pages) + pages[StopIndex(pages)].channels == Flatten(pages[..StopIndex(pages) + 1])
  {
    var s := StopIndex(pages);
    assert pages[..s + 1][..s] == pages[..s];
  }

  /** A listing that fits in one page (its first call already returns the empty
      cursor) yields no channel at all. */
  lemma SinglePageListsNothing(pages: seq<Slack.Page>)
    requires |pages| > 0 && pages[0].nextCursor == ""
    ensures EndsListing(pages)
    ensures StopIndex(pages) == 0 && Listed(pages) == []
  {
    assert EndsListing(pages);
  }

  /** Two pages, three channels behind cursor "abc" and then two more with the
      empty cursor: two calls are made and only the first three channels are kept. */
  lemma TwoPages(a: seq<Slack.Channel>, b: seq<Slack.Channel>, e1: Option<Error>, e2: Option<Error>)
    requires |a| == 3 && |b| == 2
    ensures var pages := [Slack.Page(a, "abc", e1), Slack.Page(b, "", e2)];
            && EndsListing(pages)
            && StopIndex(pages) == 1
            && RequestAt(PubChanType, pages, 1).cursor == "abc"
            && Listed(pages) == a
  {
    var pages := [Slack.Page(a, "abc", e1), Slack.Page(b, "", e2)];
    assert pages[1].nextCursor == "";
    assert pages[1..][0].nextCursor == "";
    assert pages[..1] == [pages[0]];
    assert pages[..1][..0] == [];
    assert StopIndex(pages) == 1;
    assert Flatten(pages[..1]) == Flatten(pages[..1][..0]) + pages[0].channels;
  }

  // ---------------------------------------------------------------------------
  // Ordering

  predicate NonIncreasing(xs: seq<int>)
  {
    forall i, j :: 0 <= i < j < |xs| ==> xs[i] >= xs[j]
  }

  lemma MemberCountsAppend(s: seq<Channel>, t: seq<Channel>)
    ensures MemberCounts(s + t) == MemberCounts(s) + MemberCounts(t)
  {
    assert forall i :: 0 <= i < |s + t| ==> MemberCounts(s + t)[i] == (MemberCounts(s) + MemberCounts(t))[i];
  }

  /** Rows that are permutations of each other have member-count columns that are
      permutations of each other. */
  lemma {:induction false} MemberCountsPermutation(a: seq<Channel>, b: seq<Channel>)
    requires multiset(a) == multiset(b)
    ensures multiset(MemberCounts(a)) == multiset(MemberCounts(b))
    decreases |a|
  {
    if a != [] {
      var n := |a| - 1;
      var x := a[n];
      assert a == a[..n] + [x];
      assert x in multiset(b);
      var j :| 0 <= j < |b| && b[j] == x;
      assert b == b[..j] + [x] + b[j + 1..];
      var b' := b[..j] + b[j + 1..];
      assert multiset(b') == multiset(b) - multiset{x};
      assert multiset(a[..n]) == multiset(a) - multiset{x};
      MemberCountsPermutation(a[..n], b');
      MemberCountsAppend(a[..n], [x]);
      MemberCountsAppend(b[..j], [x]);
      MemberCountsAppend(b[..j] + [x], b[j + 1..]);
      MemberCountsAppend(b[..j], b[j + 1..]);
    }
  }

  /** The head of a non-increasing sequence is at least each of its elements. */
  lemma HeadIsGreatest(x: seq<int>, v: int)
    requires NonIncreasing(x) && v in multiset(x)
    ensures |x| > 0 && v <= x[0]
  {
    var i :| 0 <= i < |x| && x[i] == v;
  }

  /** Dropping the head keeps the rest ordered and removes one occurrence of it. */
  lemma Tail(x: seq<int>)
    requires |x| > 0 && NonIncreasing(x)
    ensures NonIncreasing(x[1..])
    ensures multiset(x[1..]) == multiset(x) - multiset{x[0]}
  {
    assert x == [x[0]] + x[1..];
  }

  /** Non-increasing permutations of each other start with the same number. */
  lemma SameHead(x: seq<int>, y: seq<int>)
    requires multiset(x) == multiset(y)
    requires NonIncreasing(x) && NonIncreasing(y)
    requires |x| > 0
    ensures |y| > 0 && x[0] == y[0]
  {
    assert x[0] in multiset(x);
    HeadIsGreatest(y, x[0]);
    assert y[0] in multiset(y);
    HeadIsGreatest(x, y[0]);
  }

  /** Two non-increasing permutations of the same numbers are the same sequence. */
  lemma {:induction false} NonIncreasingUnique(x: seq<int>, y: seq<int>)
    requires multiset(x) == multiset(y)
    requires NonIncreasing(x) && NonIncreasing(y)
    ensures x == y
    decreases |x|
  {
    if |x| == 0 {
      assert |y| == |multiset(y)| == |multiset(x)| == 0;
    } else {
      SameHead(x, y);
      Tail(x);
      Tail(y);
      NonIncreasingUnique(x[1..], y[1..]);
      assert x == [x[0]] + x[1..];
      assert y == [y[0]] + y[1..];
    }
  }

  /** The popularity sort gives no guarantee for rows with equal member counts,
      yet the member-count column of its result is fully determined: any two
      popularity orderings of the same rows agree on it. */
  lemma PopularityColumnDetermined(a: seq<Channel>, b: seq<Channel>)
    requires multiset(a) == multiset(b)
    requires ByPopularity(a) && ByPopularity(b)
    ensures MemberCounts(a) == MemberCounts(b)
  {
    MemberCountsPermutation(a, b);
    NonIncreasingUnique(MemberCounts(a), MemberCounts(b));
  }
}
