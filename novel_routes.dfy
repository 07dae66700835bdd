/**
 * The novel API routes: the empty-content reply of `/generate`, the outline reply with its
 * parse fallback, the continuation and rewrite replies, and the long-text context shortener.
 */
module NovelRoutes {
  import opened Wrappers
  import opened Text
  import opened Json
  import opened Fences
  import opened Replies

  // ---------------------------------------------------------------- POST /generate

  const EmptyNovelText := "生成失败：返回内容为空"

  /** `content if content else "生成失败：返回内容为空"`: the reply never carries empty content. */
  function NovelContent(content: Option<string>): (r: string)
    ensures r != ""
    ensures content.Some? && content.value != "" ==> r == content.value
    ensures content.None? || content.value == "" ==> r == EmptyNovelText
  {
    TextOrDefault(content, EmptyNovelText)
  }

  // ---------------------------------------------------------------- POST /outline

  /** The outline for already cleaned text: the parsed object, `None` for a parsed `null`
    * (the response field is optional), `{"raw_content": cleaned}` when parsing fails, and
    * `Failed` for any other parsed value, which the response model refuses as not a dict. */
  function OutlineOf(cleaned: string, parse: Parser): (r: Outcome<Option<map<string, Json>>>)
    ensures parse(cleaned).None? ==> r == Answered(Some(map["raw_content" := JStr(cleaned)]))
    ensures parse(cleaned).Some? && parse(cleaned).value.JObj? ==>
      r == Answered(Some(parse(cleaned).value.fields))
    ensures r.Failed? <==> parse(cleaned).Some? && !parse(cleaned).value.JObj? && !parse(cleaned).value.JNull?
  {
    match parse(cleaned)
    case None => Answered(Some(map["raw_content" := JStr(cleaned)]))
    case Some(JObj(m)) => Answered(Some(m))
    case Some(JNull) => Answered(None)
    case Some(_) => Failed
  }

  /** What `POST /outline` answers for the chat response; a text that is not a string fails at
    * `.strip()`. */
  function OutlineFor(response: map<string, Json>, parse: Parser): Outcome<Option<map<string, Json>>>
  {
    match ResponseText(response)
    case None => Failed
    case Some(text) => OutlineOf(CodeFenceStripped(text), parse)
  }

  /** The route body after the chat call: read the text, strip fences step by step, parse. */
  method GenerateOutline(response: map<string, Json>, parse: Parser) returns (r: Outcome<Option<map<string, Json>>>)
    ensures r == OutlineFor(response, parse)
  {
    var text := ResponseText(response);
    if text.None? {
      return Failed;
    }
    var cleaned := StripCodeFence(text.value);
    r := OutlineOf(cleaned, parse);
  }

  /** The chat response whose only choice carries `content` as its message text. */
  function ReplyWith(content: string): map<string, Json>
  {
    map["choices" := JArr([JObj(map["message" := JObj(map["content" := JStr(content)])])])]
  }

  lemma ReplyWithText(content: string)
    requires content != ""
    ensures ResponseText(ReplyWith(content)) == Some(content)
  {
    StrictAgreesWithLenient(content);
  }

  /** An outline object in a "```json" fence is returned as that object. */
  lemma FencedOutlineObject(x: string, m: map<string, Json>, parse: Parser)
    requires Trimmed(x) && parse(x) == Some(JObj(m))
    ensures OutlineFor(ReplyWith("```json\n" + x + "\n```"), parse) == Answered(Some(m))
  {
    ReplyWithText("```json\n" + x + "\n```");
    JsonFenceRoundTrip(x);
  }

  /** Unparsable model text is kept whole, fence-stripped, under "raw_content". */
  lemma UnparsableOutlineKept(text: string, parse: Parser)
    requires text != "" && parse(CodeFenceStripped(text)).None?
    ensures OutlineFor(ReplyWith(text), parse) ==
      Answered(Some(map["raw_content" := JStr(CodeFenceStripped(text))]))
  {
    ReplyWithText(text);
  }

  /** A list is not an outline: the route answers 500. */
  lemma OutlineListRefused(text: string, parse: Parser, items: seq<Json>)
    requires text != "" && parse(CodeFenceStripped(text)) == Some(JArr(items))
    ensures OutlineFor(ReplyWith(text), parse) == Failed
  {
    ReplyWithText(text);
    var cleaned := CodeFenceStripped(text);
    assert OutlineFor(ReplyWith(text), parse) == OutlineOf(cleaned, parse);
    assert OutlineOf(cleaned, parse) == Failed;
  }

  // ---------------------------------------------------------------- POST /continue, /rewrite

  /** The continued or rewritten text: the model text when it is a string, `None` when it is
    * `null`; any other value is refused by the response model. */
  function TextReplyFor(response: map<string, Json>): (r: Outcome<Option<string>>)
    ensures r.Answered? && r.body.Some? ==>
      MessageOf(response).Some? && ModelText(MessageOf(response).value) == JStr(r.body.value)
    ensures MessageOf(response).Some? && ModelText(MessageOf(response).value).JStr? ==>
      r == Answered(Some(ModelText(MessageOf(response).value).s))
    ensures MessageOf(response).Some? && ModelText(MessageOf(response).value).JNull? ==>
      r == Answered(None)
    ensures r.Failed? <==> (MessageOf(response).None? ||
      !(ModelText(MessageOf(response).value).JStr? || ModelText(MessageOf(response).value).JNull?))
  {
    match MessageOf(response)
    case None => Failed
    case Some(message) =>
      match ModelText(message)
      case JStr(s) => Answered(Some(s))
      case JNull => Answered(None)
      case _ => Failed
  }

  /** An empty `content` falls back to `reasoning_content`. */
  lemma ContinuationUsesReasoning(reasoning: string)
    ensures var r := map["choices" := JArr([JObj(map["message" :=
              JObj(map["content" := JStr(""), "reasoning_content" := JStr(reasoning)])])])];
      TextReplyFor(r) == Answered(Some(reasoning))
  {
    var m := map["content" := JStr(""), "reasoning_content" := JStr(reasoning)];
    var c := map["message" := JObj(m)];
    var r := map["choices" := JArr([JObj(c)])];
    assert "choices" in r && r["choices"] == JArr([JObj(c)]);
    assert "message" in c && c["message"] == JObj(m);
    assert MessageOf(r) == Some(m);
    assert "content" in m && m["content"] == JStr("");
    assert "reasoning_content" in m && m["reasoning_content"] == JStr(reasoning);
  }

  // ---------------------------------------------------------------- enhance_long_text_context

  const LongTextLimit := 2000
  const ContextPart := 500
  const OmissionMarker := "\n\n[前文概要：此处省略中间内容，主要情节发展...]\n\n"

  /** Text longer than 2000 characters is cut to its first 500 and last 500 characters around
    * the omission marker; shorter text is passed on unchanged. */
  function EnhanceLongText(content: string): (r: string)
    ensures |content| <= LongTextLimit ==> r == content
    ensures |content| > LongTextLimit ==>
      |r| == 2 * ContextPart + |OmissionMarker| &&
      StartsWith(r, content[..ContextPart]) &&
      EndsWith(r, content[|content| - ContextPart..]) &&
      r[ContextPart..|r| - ContextPart] == OmissionMarker
  {
    if |content| > LongTextLimit then
      var r := content[..ContextPart] + OmissionMarker + content[|content| - ContextPart..];
      assert r[..ContextPart] == content[..ContextPart];
      assert r[|r| - ContextPart..] == content[|content| - ContextPart..];
      assert r[ContextPart..|r| - ContextPart] == OmissionMarker;
      r
    else content
  }

  /** The shortened text is itself short enough to pass unchanged: shortening is idempotent. */
  lemma EnhanceIdempotent(content: string)
    ensures EnhanceLongText(EnhanceLongText(content)) == EnhanceLongText(content)
    ensures |EnhanceLongText(content)| <= LongTextLimit
  {
  }
}
