/** The novel outline form: its keyword editor, the generation guard and the way a returned
  * outline is laid out. */
module OutlineGenerator {
  import opened Wrappers
  import opened Json
  import opened Keywords

  /** The English key of each outline section and the Chinese key used when it is absent or falsy,
    * in display order: summary, characters, world setting, structure, chapters, conflicts, theme. */
  const SectionKeys: seq<(string, string)> := [
    ("story_summary", "故事梗概"),
    ("characters", "主要人物设定"),
    ("world_setting", "世界观设定"),
    ("story_structure", "故事结构"),
    ("chapter_outline", "章节大纲"),
    ("main_conflicts", "主要冲突和转折点"),
    ("theme_and_symbols", "主题思想和象征元素")
  ]

  /** An outline shown raw, or as its seven sections (a missing section is `None`). */
  datatype OutlineView = Raw(text: Json) | Sections(values: seq<Option<Json>>)

  function Section(data: Json, keys: (string, string)): Option<Json>
  {
    Or(Get(Some(data), keys.0), Get(Some(data), keys.1))
  }

  function SectionsOf(data: Json, keys: seq<(string, string)>): (r: seq<Option<Json>>)
    ensures |r| == |keys|
    ensures forall i :: 0 <= i < |keys| ==> r[i] == Section(data, keys[i])
  {
    if keys == [] then [] else [Section(data, keys[0])] + SectionsOf(data, keys[1..])
  }

  /** `renderOutlineData`'s choice of what to show. */
  function RenderOutline(data: Json): OutlineView
  {
    var raw := Get(Some(data), "raw_content");
    if Truthy(raw) then Raw(raw.value) else Sections(SectionsOf(data, SectionKeys))
  }

  /** A truthy `raw_content` is shown as it is; otherwise every section takes its English member
    * when that is truthy and its Chinese member otherwise. */
  lemma RenderOutlinePrefersEnglish(data: Json)
    ensures Truthy(Get(Some(data), "raw_content")) ==>
      RenderOutline(data) == Raw(data.fields["raw_content"])
    ensures !Truthy(Get(Some(data), "raw_content")) ==>
      RenderOutline(data).Sections? && |RenderOutline(data).values| == 7 &&
      forall i :: 0 <= i < 7 ==>
        var (en, zh) := SectionKeys[i];
        var v := RenderOutline(data).values[i];
        (Truthy(Get(Some(data), en)) ==> v == Some(data.fields[en])) &&
        (!Truthy(Get(Some(data), en)) ==> v == Get(Some(data), zh))
  {
  }

  /** The body posted to the outline endpoint. */
  datatype OutlineRequest = OutlineRequest(genre: string, style: string, keywords: seq<string>, targetLength: string)

  /** `generateOutline`'s guard: genre, style and at least one keyword. */
  function RequestFor(genre: string, style: string, keywords: seq<string>, targetLength: string): (r: Option<OutlineRequest>)
    ensures r.Some? <==> genre != "" && style != "" && |keywords| > 0
    ensures r.Some? ==> r.value == OutlineRequest(genre, style, keywords, targetLength)
  {
    if genre == "" || style == "" || |keywords| == 0 then None
    else Some(OutlineRequest(genre, style, keywords, targetLength))
  }

  /** The outline stored from a successful response: its `outline` member when truthy, else an
    * object whose `raw_content` is the response as printed by `JSON.stringify` (never empty for an
    * object), which is then shown raw. */
  function OutlineOf(response: Json, stringified: string): (r: Json)
    ensures Truthy(Get(Some(response), "outline")) ==> r == response.fields["outline"]
    ensures !Truthy(Get(Some(response), "outline")) ==> r == JObj(map["raw_content" := JStr(stringified)])
    ensures !Truthy(Get(Some(response), "outline")) && stringified != "" ==>
      RenderOutline(r) == Raw(JStr(stringified))
  {
    var fallback := JObj(map["raw_content" := JStr(stringified)]);
    var r := Or(Get(Some(response), "outline"), Some(fallback)).value;
    assert !Truthy(Get(Some(response), "outline")) ==> Get(Some(r), "raw_content") == Some(JStr(stringified));
    r
  }

  class Form {
    var genre: string
    var style: string
    var keywords: seq<string>
    var currentKeyword: string
    var targetLength: string
    var outline: Option<Json>
    var materials: Json

    constructor ()
      ensures genre == "" && style == "" && keywords == [] && currentKeyword == ""
      ensures targetLength == "medium" && outline == None && materials == JArr([])
      ensures WellFormed(keywords)
    {
      genre := "";
      style := "";
      keywords := [];
      currentKeyword := "";
      targetLength := "medium";
      outline := None;
      materials := JArr([]);
    }

    /** `addKeyword`: the input box is cleared only when its keyword was taken. */
    method AddKeyword()
      modifies this
      ensures keywords == Added(old(keywords), old(currentKeyword))
      ensures currentKeyword == if Accepts(old(keywords), old(currentKeyword)) then "" else old(currentKeyword)
      ensures genre == old(genre) && style == old(style) && outline == old(outline)
    {
      if Accepts(keywords, currentKeyword) {
        keywords := keywords + [Text.Trim(currentKeyword)];
        currentKeyword := "";
      }
    }

    method RemoveKeyword(k: string)
      modifies this
      ensures keywords == Removed(old(keywords), k)
      ensures currentKeyword == old(currentKeyword) && genre == old(genre) && style == old(style)
      ensures outline == old(outline)
    {
      keywords := Removed(keywords, k);
    }

    /** `handleKeywordKeyPress`: Enter adds the keyword, every other key does nothing. */
    method KeyPress(key: string)
      modifies this
      ensures key == "Enter" ==> keywords == Added(old(keywords), old(currentKeyword))
      ensures key != "Enter" ==> keywords == old(keywords) && currentKeyword == old(currentKeyword)
      ensures genre == old(genre) && style == old(style) && outline == old(outline)
    {
      if key == "Enter" {
        AddKeyword();
      }
    }

    /** `generateOutline` with the server's reply (`None` for a thrown request): a successful
      * reply sets the outline and the background materials; every other outcome keeps them. */
    method Generate(reply: Option<Json>, stringified: string) returns (sent: Option<OutlineRequest>)
      modifies this
      ensures sent == RequestFor(old(genre), old(style), old(keywords), old(targetLength))
      ensures sent.Some? && reply.Some? && Truthy(Get(reply, "success")) ==>
        outline == Some(OutlineOf(reply.value, stringified)) &&
        materials == Or(Get(reply, "background_materials"), Some(JArr([]))).value
      ensures !(sent.Some? && reply.Some? && Truthy(Get(reply, "success"))) ==>
        outline == old(outline) && materials == old(materials)
      ensures genre == old(genre) && style == old(style) && keywords == old(keywords)
    {
      sent := RequestFor(genre, style, keywords, targetLength);
      if sent.Some? && reply.Some? && Truthy(Get(reply, "success")) {
        outline := Some(OutlineOf(reply.value, stringified));
        materials := Or(Get(reply, "background_materials"), Some(JArr([]))).value;
      }
    }
  }

  /** Every sequence of keyword edits keeps the list free of empty and repeated keywords. */
  method KeywordEditsKeepWellFormed(form: Form, k: string, key: string)
    requires WellFormed(form.keywords)
    modifies form
    ensures WellFormed(form.keywords)
  {
    AddedExact(form.keywords, form.currentKeyword);
    form.AddKeyword();
    RemovedExact(form.keywords, k);
    form.RemoveKeyword(k);
    AddedExact(form.keywords, form.currentKeyword);
    form.KeyPress(key);
  }
}
