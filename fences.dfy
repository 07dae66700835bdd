/**
 * Markdown code-fence removal applied to model output before `json.loads`, written out the
 * same way in the storyboard, novel, character and search routes.
 */
module Fences {
  import opened Text

  /** What the five statements compute, as one expression. */
  function CodeFenceStripped(content: string): string
  {
    Trim(DropSuffix(DropPrefix(DropPrefix(Trim(content), "```json"), "```"), "```"))
  }

  /** `s[len(p):] if s.startswith(p) else s` */
  function DropPrefix(s: string, p: string): (r: string)
  {
    if StartsWith(s, p) then s[|p|..] else s
  }

  /** `s[:-len(p)] if s.endswith(p) else s` */
  function DropSuffix(s: string, p: string): (r: string)
  {
    if EndsWith(s, p) then s[..|s| - |p|] else s
  }

  /** The reassignment sequence of the routes: strip, drop "```json", drop "```", drop a
    * trailing "```", strip again. */
  method StripCodeFence(content: string) returns (cleaned: string)
    ensures cleaned == CodeFenceStripped(content)
  {
    cleaned := Trim(content);
    if StartsWith(cleaned, "```json") {
      cleaned := cleaned[7..];
    }
    if StartsWith(cleaned, "```") {
      cleaned := cleaned[3..];
    }
    if EndsWith(cleaned, "```") {
      cleaned := cleaned[..|cleaned| - 3];
    }
    cleaned := Trim(cleaned);
  }

  /** The result has no surrounding white space and is never longer than the input. */
  lemma StrippedIsTrimmed(content: string)
    ensures Trimmed(CodeFenceStripped(content))
    ensures |CodeFenceStripped(content)| <= |content|
  {
    TrimResultTrimmed(DropSuffix(DropPrefix(DropPrefix(Trim(content), "```json"), "```"), "```"));
  }

  lemma TrimAroundNewlines(x: string)
    requires Trimmed(x)
    ensures Trim("\n" + x + "\n") == x
  {
    var s := "\n" + x + "\n";
    if x == [] {
      assert s == "\n\n";
      assert TrimStart(s) == TrimStart(s[1..]);
      assert s[1..][1..] == [];
    } else {
      assert s[1..] == x + "\n";
      assert TrimStart(s) == x + "\n";
      assert (x + "\n")[..|x|] == x;
    }
  }

  /** A JSON body wrapped in a "```json" fence comes back exactly. */
  lemma JsonFenceRoundTrip(x: string)
    requires Trimmed(x)
    ensures CodeFenceStripped("```json\n" + x + "\n```") == x
  {
    var s := "```json\n" + x + "\n```";
    TrimOfTrimmed(s);
    assert s[..7] == "```json";
    var b := s[7..];
    assert DropPrefix(s, "```json") == b == "\n" + x + "\n```";
    assert b[0] == '\n';
    assert DropPrefix(b, "```") == b;
    assert b[|b| - 3..] == "```";
    assert DropSuffix(b, "```") == "\n" + x + "\n";
    TrimAroundNewlines(x);
  }

  /** So does a body wrapped in a bare "```" fence. */
  lemma PlainFenceRoundTrip(x: string)
    requires Trimmed(x)
    ensures CodeFenceStripped("```\n" + x + "\n```") == x
  {
    var s := "```\n" + x + "\n```";
    TrimOfTrimmed(s);
    assert s[3] == '\n';
    assert DropPrefix(s, "```json") == s;
    var c := s[3..];
    assert s[..3] == "```";
    assert DropPrefix(s, "```") == c == "\n" + x + "\n```";
    assert c[|c| - 3..] == "```";
    assert DropSuffix(c, "```") == "\n" + x + "\n";
    TrimAroundNewlines(x);
  }

  /** Text without fences at either end is only trimmed. */
  lemma UnfencedIsTrimmed(content: string)
    requires !StartsWith(Trim(content), "```") && !EndsWith(Trim(content), "```")
    ensures CodeFenceStripped(content) == Trim(content)
  {
    var a := Trim(content);
    assert DropPrefix(a, "```json") == a;
    assert DropPrefix(a, "```") == a;
    assert DropSuffix(a, "```") == a;
    TrimResultTrimmed(content);
    TrimOfTrimmed(a);
  }

  /** Stripping twice is the same as stripping once for text with no fence left inside. */
  lemma StripIdempotentOnUnfenced(content: string)
    requires !StartsWith(CodeFenceStripped(content), "```")
    requires !EndsWith(CodeFenceStripped(content), "```")
    ensures CodeFenceStripped(CodeFenceStripped(content)) == CodeFenceStripped(content)
  {
    var a := CodeFenceStripped(content);
    StrippedIsTrimmed(content);
    TrimOfTrimmed(a);
    UnfencedIsTrimmed(a);
  }
}
