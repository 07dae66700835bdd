/**
 * The search API routes: the enhanced-search reply, the hot-topic query table with its limit
 * clamp and chat fallback, and the inspiration reply with its fence stripping and default
 * entry. Search and chat responses are inputs.
 */
module SearchRoutes {
  import opened Wrappers
  import opened Text
  import opened Seqs
  import opened Json
  import opened Fences
  import opened Replies

  // ---------------------------------------------------------------- POST /enhanced-search

  datatype SearchItem = SearchItem(title: string, url: string, description: string, source: string)

  datatype EnhancedReply = EnhancedReply(results: seq<SearchItem>, summary: string, relatedTopics: seq<string>)

  const SummaryLength := 500
  const NothingFound := "搜索未找到相关结果"

  /** What `POST /enhanced-search` answers for the web-search response: one result carrying the
    * content with a 500-character summary when the response has choices, else the empty reply. */
  function EnhancedSearchFor(query: string, searchResult: map<string, Json>): (r: Outcome<EnhancedReply>)
    ensures "choices" !in searchResult ==> r == Answered(EnhancedReply([], NothingFound, []))
    ensures r.Failed? <==> ("choices" in searchResult &&
      !(StrictContent(searchResult).Some? && StrictContent(searchResult).value.JStr?))
    ensures r.Answered? && "choices" in searchResult ==>
      StrictContent(searchResult).Some? && StrictContent(searchResult).value.JStr? &&
      r.body.results == [SearchItem(query, "", StrictContent(searchResult).value.s, "web_search")]
  {
    if "choices" !in searchResult then Answered(EnhancedReply([], NothingFound, []))
    else
      match StrictContent(searchResult)
      case Some(JStr(content)) =>
        Answered(EnhancedReply([SearchItem(query, "", content, "web_search")], Take(content, SummaryLength), [query]))
      case _ => Failed
  }

  /** A successful search: one result titled with the query from source "web_search", the
    * content as its description, a summary that is the content's first 500 characters (all of
    * it when shorter), and the query as the only related topic. */
  lemma EnhancedSearchShape(query: string, searchResult: map<string, Json>, content: string)
    requires StrictContent(searchResult) == Some(JStr(content))
    ensures var r := EnhancedSearchFor(query, searchResult);
      r.Answered? &&
      r.body.results == [SearchItem(query, "", content, "web_search")] &&
      r.body.relatedTopics == [query] &&
      StartsWith(content, r.body.summary) &&
      |r.body.summary| == (if |content| <= SummaryLength then |content| else SummaryLength)
  {
  }

  // ---------------------------------------------------------------- POST /hot-topics

  const CategoryQueries := map[
    "social" := "最新社会热点话题",
    "technology" := "科技前沿热点趋势",
    "culture" := "文化热点流行趋势",
    "entertainment" := "娱乐热点影视音乐",
    "business" := "商业热点经济趋势",
    "global" := "国际热点全球大事"
  ]
  const FallbackQuery := "最新热点话题"

  /** `category_queries.get(category or "social", "最新热点话题")`. */
  function HotTopicQuery(category: Option<string>): string
  {
    var key := TextOrDefault(category, "social");
    if key in CategoryQueries then CategoryQueries[key] else FallbackQuery
  }

  /** No category means the social query; a known one its own query; any other the fallback. */
  lemma HotTopicQueryCases(category: string)
    ensures HotTopicQuery(None) == "最新社会热点话题"
    ensures HotTopicQuery(Some("")) == "最新社会热点话题"
    ensures category in CategoryQueries ==> HotTopicQuery(Some(category)) == CategoryQueries[category]
    ensures category != "" && category !in CategoryQueries ==> HotTopicQuery(Some(category)) == FallbackQuery
  {
  }

  /** `min(limit, 10)`. */
  function MaxResults(limit: int): (r: int)
    ensures r <= 10 && r <= limit
    ensures r == limit || r == 10
  {
    if limit < 10 then limit else 10
  }

  /** The one topic built from a search answer. */
  function SearchTopic(category: Option<string>, query: string, content: Json): map<string, Json>
  {
    map[
      "title" := JStr(TextOrDefault(category, "社会") + "领域热点"),
      "heat" := JStr("高热度"),
      "description" := content,
      "keywords" := JArr([JStr(query)]),
      "trend" := JStr("📈 上升"),
      "creative_value" := JStr("基于实时搜索的热点话题"),
      "full_content" := content
    ]
  }

  /** The topics of the chat fallback: the parsed list, a parsed single value wrapped in a list,
    * `[]` when parsing fails or the content is not text; `Failed` where a topic is not a dict. */
  function FallbackTopics(content: Json, parse: Parser): (r: Outcome<seq<map<string, Json>>>)
    ensures !content.JStr? ==> r == Answered([])
    ensures content.JStr? && parse(content.s).None? ==> r == Answered([])
  {
    if !content.JStr? || parse(content.s).None? then Answered([])
    else
      match Objects(JArr(AsList(parse(content.s).value)))
      case Some(topics) => Answered(topics)
      case None => Failed
  }

  /** A parsed object becomes the only topic; a parsed list of objects is kept. */
  lemma FallbackTopicsWrap(s: string, parse: Parser, m: map<string, Json>, topics: seq<map<string, Json>>)
    ensures parse(s) == Some(JObj(m)) ==> FallbackTopics(JStr(s), parse) == Answered([m])
    ensures parse(s) == Some(ObjectList(topics)) ==> FallbackTopics(JStr(s), parse) == Answered(topics)
  {
    ObjectsOfOne(m);
    ObjectsOfObjectList(topics);
  }

  /** What `POST /hot-topics` answers: the search is asked for `HotTopicQuery(category)` with
    * `MaxResults(limit)` results; without choices the chat fallback is read instead. */
  function HotTopicsFor(category: Option<string>, searchResult: map<string, Json>,
                        fallback: map<string, Json>, parse: Parser): (r: Outcome<seq<map<string, Json>>>)
    ensures "choices" in searchResult && StrictContent(searchResult).Some? ==>
      r == Answered([SearchTopic(category, HotTopicQuery(category), StrictContent(searchResult).value)])
    ensures "choices" !in searchResult && StrictContent(fallback).Some? ==>
      r == FallbackTopics(StrictContent(fallback).value, parse)
    ensures r.Failed? ==> StrictContent(searchResult).None? || "choices" !in searchResult
    ensures "choices" in searchResult && StrictContent(searchResult).None? ==> r.Failed?
    ensures "choices" !in searchResult && StrictContent(fallback).None? ==> r.Failed?
  {
    if "choices" in searchResult then
      match StrictContent(searchResult)
      case Some(content) => Answered([SearchTopic(category, HotTopicQuery(category), content)])
      case None => Failed
    else
      match StrictContent(fallback)
      case Some(content) => FallbackTopics(content, parse)
      case None => Failed
  }

  /** The search topic is titled after the category, or "社会" without one, and lists the query
    * it came from as its keyword. */
  lemma SearchTopicFields(category: Option<string>, content: Json)
    ensures var t := SearchTopic(category, HotTopicQuery(category), content);
      t["title"] == JStr(TextOrDefault(category, "社会") + "领域热点") &&
      t["keywords"] == JArr([JStr(HotTopicQuery(category))]) &&
      t["description"] == content && t["full_content"] == content
  {
  }

  // ---------------------------------------------------------------- POST /inspiration

  const DefaultInspirationText := "请尝试修改搜索条件"

  /** The single entry returned when the cleaned text does not parse. */
  function DefaultInspiration(cleaned: string): (m: map<string, Json>)
    ensures "description" in m && "title" in m && m["title"] == JStr("创作灵感")
    ensures cleaned == "" ==> m["description"] == JStr(DefaultInspirationText)
    ensures cleaned != "" ==> m["description"] == JStr(Take(cleaned, SummaryLength))
  {
    map[
      "title" := JStr("创作灵感"),
      "description" := JStr(if cleaned != "" then Take(cleaned, SummaryLength) else DefaultInspirationText),
      "scenarios" := JArr([JStr("小说创作")]),
      "applications" := JArr([JStr("直接应用")]),
      "resources" := JArr([]),
      "techniques" := JArr([])
    ]
  }

  /** The inspirations for already cleaned text. */
  function InspirationsOf(cleaned: string, parse: Parser): (r: Outcome<seq<map<string, Json>>>)
    ensures parse(cleaned).None? ==> r == Answered([DefaultInspiration(cleaned)])
    ensures r.Failed? <==> parse(cleaned).Some? && Objects(JArr(AsList(parse(cleaned).value))).None?
  {
    match parse(cleaned)
    case None =>
      ObjectsOfOne(DefaultInspiration(cleaned));
      Answered([DefaultInspiration(cleaned)])
    case Some(v) =>
      match Objects(JArr(AsList(v)))
      case Some(items) => Answered(items)
      case None => Failed
  }

  /** A parsed list of objects is kept as it is, and a parsed object becomes the only entry. */
  lemma InspirationsKept(cleaned: string, parse: Parser, m: map<string, Json>, items: seq<map<string, Json>>)
    ensures parse(cleaned) == Some(ObjectList(items)) ==> InspirationsOf(cleaned, parse) == Answered(items)
    ensures parse(cleaned) == Some(JObj(m)) ==> InspirationsOf(cleaned, parse) == Answered([m])
  {
    ObjectsOfObjectList(items);
    ObjectsOfOne(m);
  }

  /** What `POST /inspiration` answers for the chat response. */
  function InspirationsFor(response: map<string, Json>, parse: Parser): Outcome<seq<map<string, Json>>>
  {
    match StrictContent(response)
    case Some(JStr(text)) => InspirationsOf(CodeFenceStripped(text), parse)
    case _ => Failed
  }

  /** The route body after the chat call: read the text, strip fences step by step, parse. */
  method GetInspiration(response: map<string, Json>, parse: Parser) returns (r: Outcome<seq<map<string, Json>>>)
    ensures r == InspirationsFor(response, parse)
  {
    var content := StrictContent(response);
    if !(content.Some? && content.value.JStr?) {
      return Failed;
    }
    var cleaned := StripCodeFence(content.value.s);
    r := InspirationsOf(cleaned, parse);
  }

  /** A fenced inspiration object comes back as the only inspiration. */
  lemma FencedInspirationWrapped(x: string, m: map<string, Json>, parse: Parser)
    requires Trimmed(x) && parse(x) == Some(JObj(m))
    ensures InspirationsOf(CodeFenceStripped("```json\n" + x + "\n```"), parse) == Answered([m])
  {
    JsonFenceRoundTrip(x);
    ObjectsOfOne(m);
    assert AsList(JObj(m)) == [JObj(m)];
    assert InspirationsOf(x, parse) == Answered([m]);
  }

  /** An unparsable reply yields one default entry whose description is a prefix of the cleaned
    * text of at most 500 characters, or the fixed hint when nothing is left after cleaning. */
  lemma UnparsableInspiration(cleaned: string, parse: Parser)
    requires parse(cleaned).None?
    ensures var r := InspirationsOf(cleaned, parse);
      r.Answered? && |r.body| == 1 && "description" in r.body[0] &&
      (cleaned != "" ==>
         r.body[0]["description"].JStr? &&
         StartsWith(cleaned, r.body[0]["description"].s) && |r.body[0]["description"].s| <= SummaryLength)
  {
  }

  /** `', '.join(keywords) if keywords else '无'`. */
  function KeywordsText(keywords: Option<seq<string>>): string
  {
    if keywords.Some? && keywords.value != [] then Join(keywords.value, ", ") else "无"
  }

  /** Missing or empty keywords read "无"; otherwise the text starts with the first keyword and
    * ends with the last, and a single keyword stands alone. */
  lemma KeywordsTextCases(keywords: seq<string>)
    ensures KeywordsText(None) == "无" && KeywordsText(Some([])) == "无"
    ensures |keywords| == 1 ==> KeywordsText(Some(keywords)) == keywords[0]
    ensures keywords != [] ==>
      StartsWith(KeywordsText(Some(keywords)), keywords[0]) &&
      EndsWith(KeywordsText(Some(keywords)), keywords[|keywords| - 1])
  {
    if keywords != [] {
      JoinStartsWithFirst(keywords, ", ");
      JoinEndsWithLast(keywords, ", ");
    }
  }

  /** The other prompt fields read "不限" when missing or empty. */
  function PromptField(x: Option<string>): string
  {
    TextOrDefault(x, "不限")
  }
}
