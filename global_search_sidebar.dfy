/** The global search side sheet: its recent-search list (`recentSearches`), the search guard
  * and the field fallbacks of quick-search results. */
module GlobalSearchSidebar {
  import opened Wrappers
  import opened Text
  import opened Seqs
  import opened Artifacts
  import opened Json

  /** The earlier recent searches other than `query`. */
  function Others(recent: seq<string>, query: string): seq<string>
  {
    Filter(recent, s => s != query)
  }

  /** `[query, ...recentSearches.filter(s => s !== query)].slice(0, 10)`. */
  function RecentAfter(query: string, recent: seq<string>): seq<string>
  {
    Take([query] + Others(recent, query), 10)
  }

  /** The query leads and occurs exactly once; the list holds at most ten entries; the other
    * entries are the earlier ones without the query, in their order, cut to nine. */
  lemma RecentAfterShape(query: string, recent: seq<string>)
    ensures var r := RecentAfter(query, recent);
      1 <= |r| <= 10 && r[0] == query &&
      (forall i :: 1 <= i < |r| ==> r[i] != query) &&
      r[1..] == Take(Others(recent, query), 9) &&
      IsSubsequence(Others(recent, query), recent)
  {
    var o := Others(recent, query);
    var r := RecentAfter(query, recent);
    assert r[1..] == Take(o, 9);
    assert forall i :: 0 <= i < |o| ==> o[i] != query;
    FilterIsSubsequence(recent, s => s != query);
  }

  /** A duplicate-free list stays duplicate-free. */
  lemma RecentAfterNoDuplicates(query: string, recent: seq<string>)
    requires NoDuplicates(recent)
    ensures NoDuplicates(RecentAfter(query, recent))
  {
    var o := Others(recent, query);
    FilterNoDuplicates(recent, s => s != query);
    assert forall i :: 0 <= i < |o| ==> o[i] != query;
    var full := [query] + o;
    assert NoDuplicates(full) by {
      forall i, j | 0 <= i < j < |full| ensures full[i] != full[j] {
        if i > 0 {
          assert full[i] == o[i - 1] && full[j] == o[j - 1];
        }
      }
    }
  }

  /** Saving the same query twice in a row gives the list saving it once gives. */
  lemma RecentAfterIdempotent(query: string, recent: seq<string>)
    ensures RecentAfter(query, RecentAfter(query, recent)) == RecentAfter(query, recent)
  {
    var r := RecentAfter(query, recent);
    RecentAfterShape(query, recent);
    var rest := r[1..];
    assert r == [query] + rest;
    FilterKeepsAll(rest, s => s != query);
    FilterConcat([query], rest, s => s != query);
    assert Filter([query], s => s != query) == [];
    assert Others(r, query) == rest;
  }

  /** The recent searches are listed only while the query box is empty. */
  predicate ShowRecent(recent: seq<string>, searchQuery: string)
  {
    |recent| > 0 && searchQuery == ""
  }

  /** An item of a hot-topic or inspiration response; each member may be missing. */
  datatype QuickItem = QuickItem(title: Option<string>, description: Option<string>, content: Option<string>)

  datatype QuickResult = QuickResult(title: string, description: string, content: string, kind: string)

  /** `a || b` on optional strings: a missing or empty first operand yields the second. */
  function OrText(a: Option<string>, b: string): (r: string)
    ensures a.Some? && a.value != "" ==> r == a.value
    ensures !(a.Some? && a.value != "") ==> r == b
  {
    if a.Some? && a.value != "" then a.value else b
  }

  /** The mapping of quick-search items to results. */
  function QuickResultOf(item: QuickItem, kind: string): (r: QuickResult)
    ensures r.kind == kind
    ensures OrText(item.title, "") != "" ==> r.title == item.title.value
    ensures OrText(item.title, "") == "" && item.description.Some? && Before(item.description.value, ".") != "" ==>
              r.title == Before(item.description.value, ".") && !Contains(r.title, ".")
    ensures OrText(item.title, "") == "" && (item.description.None? || Before(item.description.value, ".") == "") ==>
              r.title == "搜索结果"
    ensures r.description == OrText(item.description, OrText(item.content, "暂无描述"))
    ensures r.content == OrText(item.content, OrText(item.description, ""))
  {
    var firstSentence := if item.description.Some? then Some(Before(item.description.value, ".")) else None;
    QuickResult(
      OrText(item.title, OrText(firstSentence, "搜索结果")),
      OrText(item.description, OrText(item.content, "暂无描述")),
      OrText(item.content, OrText(item.description, "")),
      kind)
  }

  /** Without a title, the title is the description's first sentence. */
  lemma TitleIsFirstSentence(sentence: string, rest: string, content: Option<string>, kind: string)
    requires sentence != "" && forall j :: 0 <= j < |sentence| ==> sentence[j] != '.'
    ensures QuickResultOf(QuickItem(None, Some(sentence + "." + rest), content), kind).title == sentence
  {
    BeforeChar(sentence, '.', rest);
  }

  /** The body posted to `/api/search/enhanced-search`. */
  datatype SidebarRequest = SidebarRequest(query: string, searchType: string, limit: int)

  datatype SidebarReply = SidebarReply(success: bool, results: Option<seq<SearchResult>>)

  /** The request a search sends with the query captured by the handler: none for a blank one. */
  function RequestFor(query: string, kind: string): (r: Option<SidebarRequest>)
    ensures IsBlank(query) <==> r.None?
    ensures r.Some? ==> r.value == SidebarRequest(Trim(query), kind, 10)
  {
    if IsBlank(query) then None else Some(SidebarRequest(Trim(query), kind, 10))
  }

  /** Where the recent list is on screen the box is empty, so a search with that captured query
    * sends nothing. */
  lemma ShownRecentMeansBlankQuery(recent: seq<string>, searchQuery: string, kind: string)
    requires ShowRecent(recent, searchQuery)
    ensures RequestFor(searchQuery, kind).None?
  {
    BlankIffAllSpace(searchQuery);
  }

  class Sidebar {
    var searchQuery: string
    var searchType: string
    var results: seq<SearchResult>
    var recent: seq<string>
    /** A parsed value, not a list, that a load installed in place of the recent searches. */
    var foreign: Option<Json>
    const storage: StorageKey<string>

    constructor (storage: StorageKey<string>)
      ensures this.storage == storage && searchQuery == "" && searchType == "general"
      ensures results == [] && recent == [] && foreign == None
    {
      this.storage := storage;
      searchQuery := "";
      searchType := "general";
      results := [];
      recent := [];
      foreign := None;
    }

    /** `loadRecentSearches`: a stored list replaces the recent searches, a parsed value that
      * is not a list is installed in their place, and a missing, blank or unparsable value
      * leaves them as they were. */
    method Load()
      modifies this
      ensures recent == ListAfterLoad(storage.value, old(recent))
      ensures foreign == ForeignAfterLoad(storage.value, old(foreign))
      ensures searchQuery == old(searchQuery) && searchType == old(searchType) && results == old(results)
    {
      match storage.value
      case Some(Entries(items)) =>
        recent := items;
        foreign := None;
      case Some(Parsed(j)) =>
        foreign := Some(j);
      case _ =>
    }

    /** `saveRecentSearch`; with a non-list value installed, `recentSearches.filter` throws
      * inside the `try` and nothing is saved. */
    method SaveRecent(query: string)
      modifies this, storage
      ensures old(foreign).Some? ==> unchanged(this, storage)
      ensures old(foreign).None? ==> recent == RecentAfter(query, old(recent)) && storage.value == Some(Entries(recent))
      ensures searchQuery == old(searchQuery) && searchType == old(searchType) && results == old(results)
      ensures foreign == old(foreign)
    {
      if foreign.None? {
        recent := RecentAfter(query, recent);
        storage.value := Some(Entries(recent));
      }
    }

    /** `performSearch` as run by a handler that captured `query`: nothing for a blank query;
      * a successful reply sets the results and records the trimmed query. */
    method Search(query: string, reply: Option<SidebarReply>) returns (sent: Option<SidebarRequest>)
      modifies this, storage
      ensures sent == RequestFor(query, old(searchType))
      ensures sent.Some? && reply.Some? && reply.value.success ==>
        results == reply.value.results.GetOr([])
      ensures sent.Some? && reply.Some? && reply.value.success && old(foreign).None? ==>
        recent == RecentAfter(Trim(query), old(recent)) && storage.value == Some(Entries(recent))
      ensures !(sent.Some? && reply.Some? && reply.value.success) ==> results == old(results)
      ensures !(sent.Some? && reply.Some? && reply.value.success && old(foreign).None?) ==>
        recent == old(recent) && storage.value == old(storage.value)
      ensures searchQuery == old(searchQuery) && searchType == old(searchType) && foreign == old(foreign)
    {
      sent := RequestFor(query, searchType);
      if sent.Some? && reply.Some? && reply.value.success {
        results := reply.value.results.GetOr([]);
        SaveRecent(Trim(query));
      }
    }

    /** The recent-search button as written: it sets the box to the clicked query but calls
      * `performSearch` from the same render, which still sees the previous, empty box. The
      * buttons exist only while a list of recent searches is on screen. */
    method ClickRecentAsWritten(clicked: string, reply: Option<SidebarReply>) returns (sent: Option<SidebarRequest>)
      requires foreign.None? && ShowRecent(recent, searchQuery)
      modifies this, storage
      ensures sent.None?
      ensures searchQuery == clicked && recent == old(recent) && results == old(results)
      ensures storage.value == old(storage.value)
    {
      var captured := searchQuery;
      searchQuery := clicked;
      ShownRecentMeansBlankQuery(recent, captured, searchType);
      sent := Search(captured, reply);
    }

    /** The recent-search button as intended: search for the clicked query. */
    method ClickRecent(clicked: string, reply: Option<SidebarReply>) returns (sent: Option<SidebarRequest>)
      modifies this, storage
      ensures sent == RequestFor(clicked, old(searchType))
      ensures searchQuery == clicked
      ensures sent.Some? && reply.Some? && reply.value.success && old(foreign).None? ==>
        recent == RecentAfter(Trim(clicked), old(recent)) && recent[0] == Trim(clicked)
      ensures old(foreign).Some? ==> recent == old(recent) && storage.value == old(storage.value)
    {
      searchQuery := clicked;
      sent := Search(clicked, reply);
      if sent.Some? && reply.Some? && reply.value.success && old(foreign).None? {
        RecentAfterShape(Trim(clicked), old(recent));
      }
    }
  }
}
