/** The inspiration form: keyword editor, request shaping, the copied text of an inspiration
  * and the list caps of its card. */
module Inspiration {
  import opened Wrappers
  import opened Text
  import opened Seqs
  import opened Keywords

  datatype Inspiration = Inspiration(
    title: string,
    description: string,
    scenarios: seq<string>,
    applications: seq<string>,
    resources: seq<string>,
    techniques: seq<string>)

  datatype InspirationRequest = InspirationRequest(
    genre: Option<string>, theme: Option<string>, style: Option<string>, keywords: Option<seq<string>>)

  /** The body of `getInspirations`: empty fields and an empty keyword list are left undefined. */
  function RequestFor(genre: string, theme: string, style: string, keywords: seq<string>): (r: InspirationRequest)
    ensures r.genre.None? <==> genre == ""
    ensures r.theme.None? <==> theme == ""
    ensures r.style.None? <==> style == ""
    ensures r.keywords.None? <==> keywords == []
    ensures r.genre.GetOr("") == genre && r.theme.GetOr("") == theme && r.style.GetOr("") == style
    ensures r.keywords.GetOr([]) == keywords
  {
    InspirationRequest(Optional(genre), Optional(theme), Optional(style),
      if |keywords| > 0 then Some(keywords) else None)
  }

  function Bullet(item: string): string
  {
    "• " + item
  }

  /** A list rendered as "• item" lines. */
  function Bullets(items: seq<string>): string
  {
    Join(Map(items, Bullet), "\n")
  }

  /** The opening of `copyFullInspiration`: the title line and the description label. */
  function TitleLine(i: Inspiration): string
  {
    "灵感标题：" + i.title + "\n\n描述："
  }

  /** The description and the first three lists with their headers. */
  function CopyBody(i: Inspiration): string
  {
    i.description +
    "\n\n适用场景：\n" + Bullets(i.scenarios) +
    "\n\n应用建议：\n" + Bullets(i.applications) +
    "\n\n相关资源：\n" + Bullets(i.resources)
  }

  /** The text of `copyFullInspiration` up to the last section header. */
  function CopyHead(i: Inspiration): string
  {
    TitleLine(i) + (CopyBody(i) + "\n\n创作技巧：")
  }

  /** The technique lines and the template's closing line break and indentation. */
  function CopyTail(i: Inspiration): string
  {
    "\n" + Bullets(i.techniques) + "\n    "
  }

  /** `copyFullInspiration`: the template, which opens with a line break, trimmed as a whole. */
  function CopyText(i: Inspiration): string
  {
    Trim("\n" + (CopyHead(i) + CopyTail(i)))
  }

  /** The trim only removes the template's opening line break and the white space after the last
    * non-space character of the technique lines: the text begins with the title line and keeps
    * every section up to the technique header unchanged. */
  lemma CopyTextLayout(i: Inspiration)
    ensures CopyText(i) == CopyHead(i) + TrimEnd(CopyTail(i))
    ensures StartsWith(CopyText(i), TitleLine(i))
  {
    var head := CopyHead(i);
    var tail := CopyTail(i);
    var body := CopyBody(i) + "\n\n创作技巧：";
    assert head[0] == TitleLine(i)[0] == '灵';
    assert head[|head| - 1] == body[|body| - 1] == '：';
    TrimStartSkipsSpaces("\n", head + tail);
    TrimEndAfter(head, tail);
    assert (head + TrimEnd(tail))[..|TitleLine(i)|] == TitleLine(i);
  }

  /** The lists the card shows: three scenarios and applications, two resources and techniques. */
  datatype Card = Card(scenarios: seq<string>, applications: seq<string>, resources: seq<string>, techniques: seq<string>)

  function CardOf(i: Inspiration): (c: Card)
    ensures |c.scenarios| <= 3 && |c.applications| <= 3 && |c.resources| <= 2 && |c.techniques| <= 2
    ensures |c.scenarios| <= |i.scenarios| && |c.applications| <= |i.applications|
    ensures |c.resources| <= |i.resources| && |c.techniques| <= |i.techniques|
    ensures c.scenarios == i.scenarios[..|c.scenarios|] && c.applications == i.applications[..|c.applications|]
    ensures c.resources == i.resources[..|c.resources|] && c.techniques == i.techniques[..|c.techniques|]
    ensures |i.scenarios| <= 3 ==> c.scenarios == i.scenarios
    ensures |i.applications| <= 3 ==> c.applications == i.applications
    ensures |i.resources| <= 2 ==> c.resources == i.resources
    ensures |i.techniques| <= 2 ==> c.techniques == i.techniques
  {
    Card(Take(i.scenarios, 3), Take(i.applications, 3), Take(i.resources, 2), Take(i.techniques, 2))
  }

  datatype InspirationReply = InspirationReply(success: bool, inspirations: Option<seq<Inspiration>>)

  class Form {
    var genre: string
    var theme: string
    var style: string
    var keywords: seq<string>
    var currentKeyword: string
    var inspirations: seq<Inspiration>

    constructor ()
      ensures genre == "" && theme == "" && style == "" && keywords == [] && currentKeyword == ""
      ensures inspirations == []
    {
      genre := "";
      theme := "";
      style := "";
      keywords := [];
      currentKeyword := "";
      inspirations := [];
    }

    /** `addKeyword`: the input box is cleared only when its keyword was taken. */
    method AddKeyword()
      modifies this
      ensures keywords == Added(old(keywords), old(currentKeyword))
      ensures currentKeyword == if Accepts(old(keywords), old(currentKeyword)) then "" else old(currentKeyword)
      ensures genre == old(genre) && theme == old(theme) && style == old(style)
      ensures inspirations == old(inspirations)
    {
      if Accepts(keywords, currentKeyword) {
        keywords := keywords + [Trim(currentKeyword)];
        currentKeyword := "";
      }
    }

    method RemoveKeyword(k: string)
      modifies this
      ensures keywords == Removed(old(keywords), k)
      ensures currentKeyword == old(currentKeyword) && genre == old(genre) && theme == old(theme)
      ensures style == old(style) && inspirations == old(inspirations)
    {
      keywords := Removed(keywords, k);
    }

    /** `getInspirations`: the list changes only on a successful reply (`None` for a thrown
      * request). */
    method Fetch(reply: Option<InspirationReply>) returns (sent: InspirationRequest)
      modifies this
      ensures sent == RequestFor(old(genre), old(theme), old(style), old(keywords))
      ensures reply.Some? && reply.value.success ==> inspirations == reply.value.inspirations.GetOr([])
      ensures !(reply.Some? && reply.value.success) ==> inspirations == old(inspirations)
      ensures genre == old(genre) && theme == old(theme) && style == old(style) && keywords == old(keywords)
    {
      sent := RequestFor(genre, theme, style, keywords);
      if reply.Some? && reply.value.success {
        inspirations := reply.value.inspirations.GetOr([]);
      }
    }

    /** `clearForm`: the selections, keywords and results are reset; the keyword input box is not. */
    method ClearForm()
      modifies this
      ensures genre == "" && theme == "" && style == "" && keywords == [] && inspirations == []
      ensures currentKeyword == old(currentKeyword)
    {
      genre := "";
      theme := "";
      style := "";
      keywords := [];
      inspirations := [];
    }
  }
}
