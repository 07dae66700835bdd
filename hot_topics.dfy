/** The hot-topic list: heat ranks, the in-place ordering by heat, and the badges of a card. */
module HotTopics {
  import opened Wrappers
  import opened Seqs

  datatype Topic = Topic(
    title: string, heat: string, description: string,
    keywords: seq<string>, trend: string, creativeValue: string)

  /** `getTopicByHeat`: the position of the heat in ['高', '中', '低'], -1 when absent. */
  function Rank(heat: string): (r: int)
    ensures -1 <= r <= 2
    ensures r == -1 <==> heat != "高" && heat != "中" && heat != "低"
    ensures heat == "高" ==> r == 0
    ensures heat == "中" ==> r == 1
    ensures heat == "低" ==> r == 2
  {
    if heat == "高" then 0 else if heat == "中" then 1 else if heat == "低" then 2 else -1
  }

  function Key(t: Topic): int
  {
    Rank(t.heat)
  }

  /** Non-decreasing heat rank: unknown heats first, then '高', '中', '低'. */
  predicate SortedByHeat(s: seq<Topic>)
  {
    forall p, q :: 0 <= p < q < |s| ==> Key(s[p]) <= Key(s[q])
  }

  /** A list in heat order has every unknown heat before every known one, and every '高' before
    * every '低'. */
  lemma SortedGroupsHeats(s: seq<Topic>, p: nat, q: nat)
    requires SortedByHeat(s) && p < |s| && q < |s|
    ensures Rank(s[p].heat) == -1 && Rank(s[q].heat) != -1 ==> p < q
    ensures s[p].heat == "高" && s[q].heat == "低" ==> p < q
  {
    if p >= q && Rank(s[q].heat) < Rank(s[p].heat) {
      assert p != q;
      assert Key(s[q]) <= Key(s[p]);
    }
  }

  /** `topics.sort((a, b) => getTopicByHeat(a.heat) - getTopicByHeat(b.heat))`: the topics array
    * is reordered in place, by insertion. */
  method SortByHeat(a: array<Topic>)
    modifies a
    ensures SortedByHeat(a[..])
    ensures multiset(a[..]) == multiset(old(a[..]))
  {
    var i := 0;
    while i < a.Length
      invariant 0 <= i <= a.Length
      invariant forall p, q :: 0 <= p < q < i ==> Key(a[p]) <= Key(a[q])
      invariant multiset(a[..]) == multiset(old(a[..]))
    {
      Insert(a, i);
      i := i + 1;
    }
  }

  /** Moves `a[i]` left past every element of higher rank, so that `a[..i + 1]` is in order. */
  method Insert(a: array<Topic>, i: nat)
    requires i < a.Length
    requires forall p, q :: 0 <= p < q < i ==> Key(a[p]) <= Key(a[q])
    modifies a
    ensures forall p, q :: 0 <= p < q <= i ==> Key(a[p]) <= Key(a[q])
    ensures multiset(a[..]) == multiset(old(a[..]))
  {
    var j := i;
    while j > 0 && Key(a[j - 1]) > Key(a[j])
      invariant 0 <= j <= i
      invariant OrderedExcept(a[..], i, j)
      invariant 0 < j < i ==> Key(a[j - 1]) <= Key(a[j + 1])
      invariant multiset(a[..]) == multiset(old(a[..]))
    {
      ghost var before := a[..];
      Swap(a, j);
      assert a[..] == before[j - 1 := before[j]][j := before[j - 1]];
      SwapRestores(before, i, j);
      j := j - 1;
    }
    OrderedAtRest(a[..], i, j);
  }

  /** `s[..i + 1]` in order except possibly between `s[j]` and what precedes it. */
  predicate OrderedExcept(s: seq<Topic>, i: nat, j: nat)
  {
    i < |s| && forall p, q :: 0 <= p < q <= i && q != j ==> Key(s[p]) <= Key(s[q])
  }

  /** Swapping an out-of-order `s[j]` with its left neighbour moves the one gap left. */
  lemma SwapRestores(s: seq<Topic>, i: nat, j: nat)
    requires 0 < j <= i && OrderedExcept(s, i, j) && Key(s[j - 1]) > Key(s[j])
    requires j < i ==> Key(s[j - 1]) <= Key(s[j + 1])
    ensures OrderedExcept(s[j - 1 := s[j]][j := s[j - 1]], i, j - 1)
    ensures 0 < j - 1 ==> Key(s[j - 2]) <= Key(s[j - 1])
  {
    var t := s[j - 1 := s[j]][j := s[j - 1]];
    forall p, q | 0 <= p < q <= i && q != j - 1
      ensures Key(t[p]) <= Key(t[q])
    {
      if q == j {
        if p < j - 1 {
          assert Key(s[p]) <= Key(s[j - 1]);
        }
      } else if p == j - 1 {
        assert Key(s[j]) < Key(s[j - 1]) <= Key(s[q]);
      } else if p == j {
        assert Key(s[j - 1]) <= Key(s[q]);
      }
    }
    if 0 < j - 1 {
      assert Key(s[j - 2]) <= Key(s[j - 1]);
    }
  }

  /** Once `s[j]` is not below its left neighbour, `s[..i + 1]` is in order. */
  lemma OrderedAtRest(s: seq<Topic>, i: nat, j: nat)
    requires j <= i && OrderedExcept(s, i, j)
    requires j > 0 ==> Key(s[j - 1]) <= Key(s[j])
    ensures forall p, q :: 0 <= p < q <= i ==> Key(s[p]) <= Key(s[q])
  {
    forall p, q | 0 <= p < q <= i
      ensures Key(s[p]) <= Key(s[q])
    {
      if q == j && p < j - 1 {
        assert Key(s[p]) <= Key(s[j - 1]);
      }
    }
  }

  /** Exchanges `a[j - 1]` and `a[j]`. */
  method Swap(a: array<Topic>, j: nat)
    requires 0 < j < a.Length
    modifies a
    ensures a[j - 1] == old(a[j]) && a[j] == old(a[j - 1])
    ensures forall k :: 0 <= k < a.Length && k != j - 1 && k != j ==> a[k] == old(a[k])
    ensures multiset(a[..]) == multiset(old(a[..]))
  {
    a[j - 1], a[j] := a[j], a[j - 1];
  }

  const MediumHeatColor := "text-yellow-600 bg-yellow-50"

  /** The heat badge colour; an unknown heat takes the colour of '中'. */
  function HeatColor(heat: string): (r: string)
    ensures Rank(heat) == -1 || heat == "中" ==> r == MediumHeatColor
    ensures Rank(heat) != -1 && heat != "中" ==> r != MediumHeatColor
  {
    if heat == "高" then "text-red-600 bg-red-50"
    else if heat == "低" then "text-green-600 bg-green-50"
    else MediumHeatColor
  }

  const Trends: seq<string> := ["上升", "下降", "稳定", "热门", "新兴"]

  /** The trend icon; an unknown trend shows '•'. */
  function TrendIcon(trend: string): (r: string)
    ensures trend !in Trends <==> r == "•"
    ensures trend == "上升" ==> r == "📈"
    ensures trend == "下降" ==> r == "📉"
    ensures trend == "稳定" ==> r == "➡️"
    ensures trend == "热门" ==> r == "🔥"
    ensures trend == "新兴" ==> r == "✨"
  {
    if trend == "上升" then "📈"
    else if trend == "下降" then "📉"
    else if trend == "稳定" then "➡️"
    else if trend == "热门" then "🔥"
    else if trend == "新兴" then "✨"
    else "•"
  }

  /** Keyword badges: the first five keywords and a "+k" badge for the rest. */
  function KeywordBadges(t: Topic): (b: BadgeRow<string>)
    ensures |b.shown| <= 5 && |b.shown| <= |t.keywords| && b.shown == t.keywords[..|b.shown|]
    ensures b.more.Some? <==> |t.keywords| > 5
    ensures b.more.Some? ==> b.more.value == |t.keywords| - 5
  {
    Badges(t.keywords, 5)
  }

  datatype TopicsRequest = TopicsRequest(category: Option<string>, limit: int)

  /** The request of `fetchHotTopics`: the category 'all' is left undefined; twenty topics. */
  function RequestFor(category: string): (r: TopicsRequest)
    ensures r.limit == 20
    ensures r.category.None? <==> category == "all"
    ensures r.category.Some? ==> r.category.value == category
  {
    TopicsRequest(if category != "all" then Some(category) else None, 20)
  }

  datatype TopicsReply = TopicsReply(success: bool, topics: Option<seq<Topic>>)

  class View {
    var category: string
    var topics: seq<Topic>
    var lastUpdated: string

    constructor ()
      ensures category == "social" && topics == [] && lastUpdated == ""
    {
      category := "social";
      topics := [];
      lastUpdated := "";
    }

    /** `fetchHotTopics`; `now` is the clock rendered by `toLocaleString`. Topics and the update
      * time change only on a successful reply (`None` for a thrown request). */
    method Fetch(reply: Option<TopicsReply>, now: string) returns (sent: TopicsRequest)
      modifies this
      ensures sent == RequestFor(old(category))
      ensures reply.Some? && reply.value.success ==> topics == reply.value.topics.GetOr([]) && lastUpdated == now
      ensures !(reply.Some? && reply.value.success) ==> topics == old(topics) && lastUpdated == old(lastUpdated)
      ensures category == old(category)
    {
      sent := RequestFor(category);
      if reply.Some? && reply.value.success {
        topics := reply.value.topics.GetOr([]);
        lastUpdated := now;
      }
    }

    /** The render: the state array is sorted in place, so the stored topics themselves end up in
      * heat order, as the same elements. */
    method Render() returns (shown: array<Topic>)
      modifies this
      ensures fresh(shown)
      ensures topics == shown[..] && SortedByHeat(topics)
      ensures multiset(topics) == multiset(old(topics))
      ensures category == old(category) && lastUpdated == old(lastUpdated)
    {
      shown := new Topic[|topics|](i requires 0 <= i < |topics| reads this => topics[i]);
      assert shown[..] == topics;
      SortByHeat(shown);
      topics := shown[..];
    }
  }
}
