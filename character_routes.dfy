/**
 * The character API routes: the character reply with its parse fallback, and the portrait
 * prompt built part by part with the style mapping.
 */
module CharacterRoutes {
  import opened Wrappers
  import opened Text
  import opened Json
  import opened Fences
  import opened Replies

  // ---------------------------------------------------------------- POST /generate

  const UnnamedCharacter := "未命名角色"

  /** The record returned when the cleaned text does not parse: the raw text, the requested
    * name (or "未命名角色") and three sections pointing at the raw text. */
  function CharacterPlaceholder(cleaned: string, name: Option<string>): (m: map<string, Json>)
    ensures "raw_content" in m && m["raw_content"] == JStr(cleaned)
    ensures "basic_info" in m && m["basic_info"] == JObj(map["name" := JStr(TextOrDefault(name, UnnamedCharacter))])
    ensures forall k :: k in m <==> k in {"raw_content", "basic_info", "appearance", "personality", "background"}
  {
    map[
      "raw_content" := JStr(cleaned),
      "basic_info" := JObj(map["name" := JStr(TextOrDefault(name, UnnamedCharacter))]),
      "appearance" := JObj(map["description" := JStr("详细外貌见原文内容")]),
      "personality" := JObj(map["description" := JStr("详细性格见原文内容")]),
      "background" := JObj(map["description" := JStr("详细背景见原文内容")])
    ]
  }

  /** The character for already cleaned text: the parsed object, `None` for a parsed `null`,
    * the placeholder when parsing fails, and `Failed` for a value the response model refuses. */
  function CharacterOf(cleaned: string, name: Option<string>, parse: Parser): (r: Outcome<Option<map<string, Json>>>)
    ensures parse(cleaned).None? ==> r == Answered(Some(CharacterPlaceholder(cleaned, name)))
    ensures parse(cleaned).Some? && parse(cleaned).value.JObj? ==>
      r == Answered(Some(parse(cleaned).value.fields))
    ensures r.Failed? <==> parse(cleaned).Some? && !parse(cleaned).value.JObj? && !parse(cleaned).value.JNull?
  {
    match parse(cleaned)
    case None => Answered(Some(CharacterPlaceholder(cleaned, name)))
    case Some(JObj(m)) => Answered(Some(m))
    case Some(JNull) => Answered(None)
    case Some(_) => Failed
  }

  /** What `POST /generate` answers for the chat response and the requested name. */
  function CharacterFor(response: map<string, Json>, name: Option<string>, parse: Parser): Outcome<Option<map<string, Json>>>
  {
    match ResponseText(response)
    case None => Failed
    case Some(text) => CharacterOf(CodeFenceStripped(text), name, parse)
  }

  /** The route body after the chat call: read the text, strip fences step by step, parse. */
  method GenerateCharacter(response: map<string, Json>, name: Option<string>, parse: Parser)
    returns (r: Outcome<Option<map<string, Json>>>)
    ensures r == CharacterFor(response, name, parse)
  {
    var text := ResponseText(response);
    if text.None? {
      return Failed;
    }
    var cleaned := StripCodeFence(text.value);
    r := CharacterOf(cleaned, name, parse);
  }

  /** Unparsable text keeps the requested name, or "未命名角色" when none or an empty one was
    * given, together with the cleaned text. */
  lemma UnparsableCharacterKeepsName(cleaned: string, name: Option<string>, parse: Parser)
    requires parse(cleaned).None?
    ensures var c := CharacterOf(cleaned, name, parse).body.value;
      c["raw_content"] == JStr(cleaned) &&
      c["basic_info"] == JObj(map["name" := JStr(if name.Some? && name.value != "" then name.value else UnnamedCharacter)])
  {
  }

  // ---------------------------------------------------------------- POST /image

  const StyleMapping := map[
    "anime" := "日式动漫风格",
    "realistic" := "写实风格",
    "chinese" := "古风风格",
    "fantasy" := "奇幻风格",
    "scifi" := "科幻风格",
    "game" := "游戏角色风格"
  ]
  const DefaultStyle := "动漫风格"
  const Descriptors := ["高质量立绘", "完整的角色形象", "清晰的细节", "适合作为角色设定图"]

  /** `style_mapping.get(style, "动漫风格")`. */
  function StyleDescription(style: string): (r: string)
    ensures style in StyleMapping ==> r == StyleMapping[style]
    ensures style !in StyleMapping ==> r == DefaultStyle
  {
    if style in StyleMapping then StyleMapping[style] else DefaultStyle
  }

  /** The six known styles and what they map to; anything else gets the default. */
  lemma StyleMappingKeys(style: string)
    ensures style in StyleMapping <==> style in {"anime", "realistic", "chinese", "fantasy", "scifi", "game"}
    ensures StyleDescription("anime") == "日式动漫风格"
    ensures style !in {"anime", "realistic", "chinese", "fantasy", "scifi", "game"} ==> StyleDescription(style) == DefaultStyle
  {
  }

  /** The name part, the appearance part, the pose part when a pose is given, the style part
    * and the four fixed descriptors. */
  function PromptParts(name: string, appearance: string, style: string, pose: Option<string>): seq<string>
  {
    ["角色立绘：" + name, "外貌特征：" + appearance] +
    (if pose.Some? && pose.value != "" then ["姿势：" + pose.value] else []) +
    ["艺术风格：" + StyleDescription(style)] + Descriptors
  }

  /** `prompt_parts` built by `append` and `extend`, then joined with ", ". */
  method ImagePrompt(name: string, appearance: string, style: string, pose: Option<string>) returns (prompt: string)
    ensures prompt == Join(PromptParts(name, appearance, style, pose), ", ")
  {
    var parts := ["角色立绘：" + name, "外貌特征：" + appearance];
    if pose.Some? && pose.value != "" {
      parts := parts + ["姿势：" + pose.value];
    }
    var styleDesc := StyleDescription(style);
    parts := parts + ["艺术风格：" + styleDesc];
    parts := parts + Descriptors;
    assert parts == PromptParts(name, appearance, style, pose);
    prompt := Join(parts, ", ");
  }

  /** The parts in order: name, appearance, the pose exactly when one is given, the style, the
    * four descriptors; the joined prompt starts with the name part. */
  lemma PromptLayout(name: string, appearance: string, style: string, pose: Option<string>)
    ensures var p := PromptParts(name, appearance, style, pose);
      var posed := pose.Some? && pose.value != "";
      |p| == (if posed then 8 else 7) &&
      p[0] == "角色立绘：" + name && p[1] == "外貌特征：" + appearance &&
      (posed ==> p[2] == "姿势：" + pose.value) &&
      p[|p| - 5] == "艺术风格：" + StyleDescription(style) &&
      p[|p| - 4..] == Descriptors
    ensures StartsWith(Join(PromptParts(name, appearance, style, pose), ", "), "角色立绘：" + name)
    ensures EndsWith(Join(PromptParts(name, appearance, style, pose), ", "), "适合作为角色设定图")
  {
    var p := PromptParts(name, appearance, style, pose);
    JoinStartsWithFirst(p, ", ");
    JoinEndsWithLast(p, ", ");
  }

  /** Without a pose no part starts with the pose label. */
  lemma NoPosePart(name: string, appearance: string, style: string)
    ensures forall i :: 0 <= i < |PromptParts(name, appearance, style, None)| ==>
      !StartsWith(PromptParts(name, appearance, style, None)[i], "姿势：")
  {
    var p := PromptParts(name, appearance, style, None);
    forall i | 0 <= i < |p|
      ensures !StartsWith(p[i], "姿势：")
    {
      assert |p[i]| > 0 && p[i][0] != '姿';
    }
  }
}
