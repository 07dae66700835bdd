/**
 * How the backend routes read a chat-completion response: the lenient `.get` chain with its
 * `content` / `reasoning_content` fallback, the strict indexing chain, and Python's `x or d`
 * on optional request fields.
 */
module Replies {
  import opened Wrappers
  import opened Json

  /** A route's answer: the body it returns, or `Failed` where a Python exception inside the
    * handler becomes an HTTP 500 answer (its message is not modelled). */
  datatype Outcome<T> = Answered(body: T) | Failed

  /** `response.get("choices", [{}])[0].get("message", {})`; `None` where indexing or `.get`
    * raises (choices not a non-empty list, or its first element or the message not a dict). */
  function MessageOf(response: map<string, Json>): (r: Option<map<string, Json>>)
    ensures "choices" !in response ==> r == Some(map[])
  {
    match FieldOr(response, "choices", JArr([JObj(map[])]))
    case JArr(items) =>
      if |items| > 0 && items[0].JObj? then
        match FieldOr(items[0].fields, "message", JObj(map[]))
        case JObj(m) => Some(m)
        case _ => None
      else None
    case _ => None
  }

  /** `message.get("content", "") or message.get("reasoning_content", "")`. */
  function ModelText(message: map<string, Json>): (r: Json)
    ensures "content" in message && PyTruthy(message["content"]) ==> r == message["content"]
    ensures !("content" in message && PyTruthy(message["content"])) ==>
      r == FieldOr(message, "reasoning_content", JStr(""))
  {
    PyOr(FieldOr(message, "content", JStr("")), FieldOr(message, "reasoning_content", JStr("")))
  }

  /** The model text when it is a string, as the routes that go on to `.strip()` it need;
    * `None` where reading it raised or it is not a string. */
  function ResponseText(response: map<string, Json>): (r: Option<string>)
    ensures r.Some? ==> MessageOf(response).Some? && ModelText(MessageOf(response).value) == JStr(r.value)
    ensures r.None? ==> MessageOf(response).None? || !ModelText(MessageOf(response).value).JStr?
  {
    match MessageOf(response)
    case None => None
    case Some(message) =>
      match ModelText(message)
      case JStr(s) => Some(s)
      case _ => None
  }

  /** The text used after the reply to a chat completion: `content`, or `reasoning_content`
    * when `content` is missing, empty or null; a response without choices yields "". */
  lemma ContentWithReasoningFallback(response: map<string, Json>, content: string, reasoning: string)
    ensures var m := map["content" := JStr(content), "reasoning_content" := JStr(reasoning)];
      ModelText(m) == JStr(if content != "" then content else reasoning)
    ensures ModelText(map["content" := JNull, "reasoning_content" := JStr(reasoning)]) == JStr(reasoning)
    ensures "choices" !in response ==> ModelText(MessageOf(response).value) == JStr("")
  {
    var m := map["content" := JStr(content), "reasoning_content" := JStr(reasoning)];
    assert "content" in m && m["content"] == JStr(content);
    var n := map["content" := JNull, "reasoning_content" := JStr(reasoning)];
    assert "reasoning_content" in n && n["reasoning_content"] == JStr(reasoning);
  }

  /** `response["choices"][0]["message"]["content"]`; `None` where a lookup raises. */
  function StrictContent(response: map<string, Json>): (r: Option<Json>)
    ensures r.Some? ==> "choices" in response
  {
    if "choices" !in response then None
    else match response["choices"]
      case JArr(items) =>
        if |items| > 0 && items[0].JObj? && "message" in items[0].fields then
          match items[0].fields["message"]
          case JObj(m) => if "content" in m then Some(m["content"]) else None
          case _ => None
        else None
      case _ => None
  }

  /** A well-formed reply is read the same way by both chains when its content is non-empty. */
  lemma StrictAgreesWithLenient(content: string)
    requires content != ""
    ensures var r := map["choices" := JArr([JObj(map["message" := JObj(map["content" := JStr(content)])])])];
      StrictContent(r) == Some(JStr(content)) && ModelText(MessageOf(r).value) == JStr(content)
  {
    var m := map["content" := JStr(content)];
    var c := map["message" := JObj(m)];
    var r := map["choices" := JArr([JObj(c)])];
    assert "choices" in r && r["choices"] == JArr([JObj(c)]);
    assert "message" in c && c["message"] == JObj(m);
    assert MessageOf(r) == Some(m);
    assert "content" in m && m["content"] == JStr(content);
  }

  /** Python `x or default` for an optional request string. */
  function TextOrDefault(x: Option<string>, default: string): (r: string)
    ensures x.Some? && x.value != "" ==> r == x.value
    ensures (x.None? || x.value == "") ==> r == default
  {
    if x.Some? && x.value != "" then x.value else default
  }
}
