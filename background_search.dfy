/** The background-material search form: the query guard, the request it sends, and the
  * history entry it prepends to the shared `searchHistory` key. */
module BackgroundSearch {
  import opened Wrappers
  import opened Text
  import opened Seqs
  import opened Artifacts
  import SearchHistory

  /** `[newEntry, ...history.slice(0, 49)]`. */
  function Prepended(entry: HistoryEntry, history: seq<HistoryEntry>): (r: seq<HistoryEntry>)
    ensures 1 <= |r| <= 50
    ensures r[0] == entry
    ensures r[1..] == Take(history, 49)
  {
    [entry] + Take(history, 49)
  }

  /** The new entry leads; the earlier entries follow in their order, the oldest dropping off
    * once there were 50 or more; a short history loses nothing. */
  lemma PrependedKeepsOrder(entry: HistoryEntry, history: seq<HistoryEntry>)
    ensures |history| >= 50 ==>
      |Prepended(entry, history)| == 50 && Prepended(entry, history)[1..] == history[..49]
    ensures |history| < 50 ==> Prepended(entry, history) == [entry] + history
    ensures forall i :: 1 <= i < |Prepended(entry, history)| ==> Prepended(entry, history)[i] == history[i - 1]
  {
  }

  /** The key's value after `saveSearchToHistory`: unchanged when it cannot be read. */
  function AfterSave(v: Option<Stored<HistoryEntry>>, entry: HistoryEntry): Option<Stored<HistoryEntry>>
  {
    match ReadOrEmpty(v)
    case None => v
    case Some(history) => Some(Entries(Prepended(entry, history)))
  }

  /** The body of `storyApi.enhancedSearch`. */
  datatype SearchRequest = SearchRequest(query: string, context: Option<string>, searchType: string, limit: int)

  /** What the call resolves to; a rejected call is `None` in the method parameters. */
  datatype SearchReply = SearchReply(
    success: bool,
    results: Option<seq<SearchResult>>,
    relatedTopics: Option<seq<string>>,
    summary: Option<string>)

  /** The request `performSearch` sends: none for a blank query, otherwise the trimmed query,
    * the trimmed context (omitted when blank), the type and a limit of 15. */
  function RequestFor(query: string, context: string, kind: string): (r: Option<SearchRequest>)
    ensures IsBlank(query) <==> r.None?
    ensures r.Some? ==> r.value.query == Trim(query) && Trimmed(r.value.query) && r.value.query != ""
    ensures r.Some? ==> r.value.context == (if IsBlank(context) then None else Some(Trim(context)))
    ensures r.Some? ==> r.value.searchType == kind && r.value.limit == 15
  {
    TrimResultTrimmed(query);
    if IsBlank(query) then None
    else
      var ctx := Trim(context);
      Some(SearchRequest(Trim(query), if ctx == "" then None else Some(ctx), kind, 15))
  }

  /** The request was sent and the reply reports success. */
  predicate Succeeded(sent: Option<SearchRequest>, reply: Option<SearchReply>)
  {
    sent.Some? && reply.Some? && reply.value.success
  }

  class Searcher {
    var searchQuery: string
    var searchType: string
    var context: string
    var results: seq<SearchResult>
    var relatedTopics: seq<string>
    var summary: string
    const storage: StorageKey<HistoryEntry>

    constructor (storage: StorageKey<HistoryEntry>)
      ensures this.storage == storage && searchQuery == "" && searchType == "general" && context == ""
      ensures results == [] && relatedTopics == [] && summary == ""
    {
      this.storage := storage;
      searchQuery := "";
      searchType := "general";
      context := "";
      results := [];
      relatedTopics := [];
      summary := "";
    }

    /** `saveSearchToHistory`: read the stored history (missing counts as empty), write the
      * new entry followed by the first 49 earlier ones, then announce the update. When the
      * stored value cannot be read nothing is written and nothing is announced. */
    method SaveToHistory(query: string, kind: string, found: seq<SearchResult>, id: string, createdAt: string)
      returns (notified: bool)
      modifies storage
      ensures notified <==> ReadOrEmpty(old(storage.value)).Some?
      ensures storage.value == AfterSave(old(storage.value), HistoryEntry(id, query, kind, found, createdAt))
    {
      var history := ReadOrEmpty(storage.value);
      if history.None? {
        return false;
      }
      var entry := HistoryEntry(id, query, kind, found, createdAt);
      storage.value := Some(Entries(Prepended(entry, history.value)));
      notified := true;
    }

    /** `performSearch`: refused for a blank query; the request carries the trimmed query and
      * the trimmed context (omitted when blank). A successful reply fills the results and is
      * saved to the history under the query as typed, untrimmed. */
    method PerformSearch(reply: Option<SearchReply>, id: string, createdAt: string)
      returns (sent: Option<SearchRequest>, notified: bool)
      modifies this, storage
      ensures sent == RequestFor(searchQuery, context, searchType)
      ensures Succeeded(sent, reply) ==> results == reply.value.results.GetOr([])
      ensures Succeeded(sent, reply) ==> relatedTopics == reply.value.relatedTopics.GetOr([])
      ensures Succeeded(sent, reply) ==> summary == reply.value.summary.GetOr("")
      ensures !Succeeded(sent, reply) ==>
        results == old(results) && relatedTopics == old(relatedTopics) && summary == old(summary)
      ensures notified <==> Succeeded(sent, reply) && ReadOrEmpty(old(storage.value)).Some?
      ensures storage.value == if Succeeded(sent, reply)
        then AfterSave(old(storage.value), HistoryEntry(id, searchQuery, searchType, results, createdAt))
        else old(storage.value)
      ensures searchQuery == old(searchQuery) && searchType == old(searchType) && context == old(context)
    {
      notified := false;
      ghost var query, kind, ctx := searchQuery, searchType, context;
      sent := RequestFor(searchQuery, context, searchType);
      if Succeeded(sent, reply) {
        // The three state updates and the save are independent; the save goes first here.
        var found := reply.value.results.GetOr([]);
        notified := SaveToHistory(searchQuery, searchType, found, id, createdAt);
        results := found;
        relatedTopics := reply.value.relatedTopics.GetOr([]);
        summary := reply.value.summary.GetOr("");
      }
      assert searchQuery == query && searchType == kind && context == ctx;
    }

    /** `clearSearch`. */
    method ClearSearch()
      modifies this
      ensures searchQuery == "" && context == "" && results == [] && relatedTopics == [] && summary == ""
      ensures searchType == old(searchType)
    {
      searchQuery := "";
      context := "";
      results := [];
      relatedTopics := [];
      summary := "";
    }
  }

  /** A search followed by the event it announces: a history page listening on the same key
    * then shows exactly what was stored. A page that has gone down removed its listener. */
  method SearchAndNotify(searcher: Searcher, view: SearchHistory.HistoryView, reply: Option<SearchReply>,
                         id: string, createdAt: string)
    returns (notified: bool)
    requires searcher.storage == view.storage && view.listening && !view.down
    modifies searcher, searcher.storage, view
    ensures notified ==> view.storage.value.Some? && view.storage.value.value.Entries? &&
                         view.history == view.storage.value.value.items
    ensures !notified ==> view.history == old(view.history) && view.storage.value == old(view.storage.value)
  {
    var sent;
    sent, notified := searcher.PerformSearch(reply, id, createdAt);
    if notified {
      view.OnHistoryUpdated();
    }
  }
}
