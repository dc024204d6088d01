/**
 * Removing a markdown code fence from a model reply before it is decoded as
 * JSON (`_clean_json_response` in the debate generator; the outlined
 * generator performs the same steps inline on its outline reply).
 */
module Fences {
  import opened Text

  const JsonFence: string := "```json"
  const Fence: string := "```"

  /** The text after a leading "```json", or else after a leading "```". */
  function DropOpeningFence(text: string): string
  {
    if StartsWith(text, JsonFence) then text[|JsonFence|..]
    else if StartsWith(text, Fence) then text[|Fence|..]
    else text
  }

  /** The text before a trailing "```". */
  function DropClosingFence(text: string): string
  {
    if EndsWith(text, Fence) then text[..|text| - |Fence|] else text
  }

  /** Drop a leading "```json", or else a leading "```"; then drop a trailing
      "```"; then strip whitespace. */
  function CleanJsonResponse(text: string): (r: string)
    ensures |r| <= |text|
    ensures Stripped(r)
    ensures !StartsWith(text, Fence) && !EndsWith(text, Fence) ==> r == Strip(text)
  {
    JsonFenceIsFence(text);
    Strip(DropClosingFence(DropOpeningFence(text)))
  }

  /** Whatever begins with "```json" also begins with "```". */
  lemma JsonFenceIsFence(text: string)
    ensures StartsWith(text, JsonFence) ==> StartsWith(text, Fence)
  {
    if StartsWith(text, JsonFence) {
      assert text[..|Fence|] == text[..|JsonFence|][..|Fence|];
    }
  }

  /** A fence followed by s begins with "```json" only when s begins with "json". */
  lemma FenceThenJson(s: string)
    requires !StartsWith(s, "json")
    ensures !StartsWith(Fence + s + Fence, JsonFence)
  {
    var text := Fence + s + Fence;
    if |text| >= |JsonFence| {
      var tag := text[|Fence|..|JsonFence|];
      assert text[..|JsonFence|][|Fence|..] == tag;
      if |s| >= 4 {
        assert tag == s[..4];
      } else {
        assert tag[|s|] == '`';
      }
    }
  }

  /** A reply wrapped as "```json" + s + "```" decodes from strip(s). */
  lemma CleanJsonFenced(s: string)
    ensures CleanJsonResponse(JsonFence + s + Fence) == Strip(s)
  {
    var text := JsonFence + s + Fence;
    assert text[..|JsonFence|] == JsonFence;
    var rest := text[|JsonFence|..];
    assert rest == s + Fence;
    assert rest[|rest| - |Fence|..] == Fence;
    assert rest[..|rest| - |Fence|] == s;
  }

  /** A reply wrapped in a bare "```" fence decodes from strip(s), unless s
      itself begins with "json", in which case that word is taken for the
      language tag. */
  lemma CleanBareFenced(s: string)
    requires !StartsWith(s, "json")
    ensures CleanJsonResponse(Fence + s + Fence) == Strip(s)
  {
    var text := Fence + s + Fence;
    FenceThenJson(s);
    assert text[..|Fence|] == Fence;
    var rest := text[|Fence|..];
    assert rest == s + Fence;
    assert rest[|rest| - |Fence|..] == Fence;
    assert rest[..|rest| - |Fence|] == s;
  }

  /** An opening "```json" with no closing fence is dropped on its own. */
  lemma CleanOpeningOnly(s: string)
    requires !EndsWith(s, Fence)
    ensures CleanJsonResponse(JsonFence + s) == Strip(s)
  {
    var text := JsonFence + s;
    assert text[..|JsonFence|] == JsonFence;
    assert text[|JsonFence|..] == s;
  }

  /** A closing "```" with no opening fence is dropped on its own. */
  lemma CleanClosingOnly(s: string)
    requires !StartsWith(s + Fence, Fence)
    ensures CleanJsonResponse(s + Fence) == Strip(s)
  {
    var text := s + Fence;
    JsonFenceIsFence(text);
    assert text[|text| - |Fence|..] == Fence;
    assert text[..|text| - |Fence|] == s;
  }

  /** The outlined generator strips the reply before removing the fence, so
      whitespace around the fenced block is tolerated too. */
  lemma CleanPaddedJsonFence(p: string, s: string, q: string)
    requires AllSpace(p) && AllSpace(q)
    ensures CleanJsonResponse(Strip(p + (JsonFence + s + Fence) + q)) == Strip(s)
  {
    var m := JsonFence + s + Fence;
    assert m[0] == '`' && m[|m| - 1] == '`';
    StripOfPadded(p, m, q);
    CleanJsonFenced(s);
  }
}
