/**
 * Normalisation of AI model output before it is parsed as JSON: the removal
 * of Markdown code fences. The service and the panels each do this in their
 * own way, and the variants disagree on inputs that are not fenced on both
 * sides.
 */
module Normalizer {
  import opened JsString

  /** The opening fence of a JSON code block. */
  const JsonFence: string := "```json"

  /** A bare Markdown code fence. */
  const Fence: string := "```"

  lemma JsonFenceStartsWithFence(s: string)
    ensures StartsWith(s, JsonFence) ==> StartsWith(s, Fence)
  {
    if StartsWith(s, JsonFence) {
      assert s[..3] == s[..7][..3];
    }
  }

  /**
   * The service's `cleanJson`: "{}" for the empty reply; otherwise trim, drop
   * one leading "```json", then one leading "```", then one trailing "```",
   * and trim again.
   */
  function CleanJson(text: string): (r: string)
    ensures text == "" ==> r == "{}"
    ensures text != "" ==> IsTrimmed(r) && |r| <= |text|
  {
    if text == "" then "{}"
    else
      var unfenced := StripPrefix(StripPrefix(Trim(text), JsonFence), Fence);
      Trim(StripSuffix(unfenced, Fence))
  }

  /** A reply with no fence at either end is only trimmed. */
  lemma {:induction false} CleanJsonUnfenced(text: string)
    requires text != ""
    requires !StartsWith(Trim(text), Fence) && !EndsWith(Trim(text), Fence)
    ensures CleanJson(text) == Trim(text)
  {
    JsonFenceStartsWithFence(Trim(text));
    TrimIdempotent(text);
  }

  /** A non-empty, already trimmed reply with no fence at either end comes back unchanged. */
  lemma CleanJsonIdentity(text: string)
    requires text != "" && IsTrimmed(text)
    requires !StartsWith(text, Fence) && !EndsWith(text, Fence)
    ensures CleanJson(text) == text
  {
    TrimOfTrimmed(text);
    CleanJsonUnfenced(text);
  }

  /** Text that does not open with a backtick has no fence to strip at the front. */
  lemma NoOpeningFence(text: string)
    requires text != "" && text[0] != '`'
    ensures !StartsWith(text, Fence) && StripPrefix(text, Fence) == text
    ensures !StartsWith(text, JsonFence) && StripPrefix(text, JsonFence) == text
  {
    DiffersAt(text, Fence, 0);
    DiffersAt(text, JsonFence, 0);
  }

  /** On trimmed text without an opening fence, the service only strips the closing one. */
  lemma CleanJsonOfUnopened(text: string)
    requires text != "" && IsTrimmed(text) && text[0] != '`'
    ensures CleanJson(text) == Trim(StripSuffix(text, Fence))
  {
    TrimOfTrimmed(text);
    NoOpeningFence(text);
  }

  lemma JsonOpening(a: string)
    requires a != "" && !IsWhitespace(a[|a| - 1])
    ensures IsTrimmed(JsonFence + a) && Trim(JsonFence + a) == JsonFence + a
    ensures StartsWith(JsonFence + a, JsonFence) && StripPrefix(JsonFence + a, JsonFence) == a
  {
    var text := JsonFence + a;
    assert text[0] == JsonFence[0];
    assert text[|text| - 1] == a[|a| - 1];
    TrimOfTrimmed(text);
    StripPrefixOfConcat(JsonFence, a);
  }

  /** Behind a "```json" opening, the service strips one closing fence and trims. */
  lemma CleanJsonOfJsonOpening(a: string)
    requires a != "" && a[0] != '`' && !IsWhitespace(a[|a| - 1])
    ensures CleanJson(JsonFence + a) == Trim(StripSuffix(a, Fence))
  {
    JsonOpening(a);
    NoOpeningFence(a);
  }

  /** Behind a "```json" opening, the panels' normaliser strips one closing fence and trims. */
  lemma CleanJsonStringOfJsonOpening(a: string)
    requires a != "" && !IsWhitespace(a[|a| - 1])
    ensures CleanJsonString(JsonFence + a) == Trim(StripSuffix(a, Fence))
  {
    JsonOpening(a);
  }

  /** The JSON-mode failure text passes through unchanged. */
  lemma CleanJsonOfEmptyObject()
    ensures CleanJson("{}") == "{}"
  {
    var t := "{}";
    assert IsTrimmed(t);
    assert t[0] == '{' && t[1] == '}';
    assert !EndsWith(t, Fence) by {
      assert t[|t| - 1] != Fence[2];
    }
    CleanJsonIdentity(t);
  }

  /** A JSON code block with whitespace around its trimmed body yields exactly the body, under both normalisers. */
  lemma UnwrapJsonBlock(pre: string, body: string, post: string)
    requires AllWhitespace(pre) && AllWhitespace(post) && IsTrimmed(body)
    requires |pre| > 0
    ensures CleanJson(JsonFence + pre + body + post + Fence) == body
    ensures CleanJsonString(JsonFence + pre + body + post + Fence) == body
  {
    var inner := pre + body + post;
    var a := inner + Fence;
    assert JsonFence + pre + body + post + Fence == JsonFence + a;
    assert a[0] == pre[0];
    assert a[|a| - 1] == Fence[2];
    CleanJsonOfJsonOpening(a);
    CleanJsonStringOfJsonOpening(a);
    StripSuffixOfConcat(inner, Fence);
    TrimPadding(pre, body, post);
  }

  /** The worked example: a block holding `{"a":1}` on its own line. */
  lemma CleanJsonExample()
    ensures CleanJson("```json\n{\"a\":1}\n```") == "{\"a\":1}"
  {
    assert "```json\n{\"a\":1}\n```" == JsonFence + "\n" + "{\"a\":1}" + "\n" + Fence;
    assert AllWhitespace("\n");
    UnwrapJsonBlock("\n", "{\"a\":1}", "\n");
  }

  /**
   * The panels' `cleanJsonString`: trim, then strip the trailing fence only
   * when the text opened with "```json" (which is removed) or "```" (which is
   * removed), then trim.
   */
  function CleanJsonString(str: string): (r: string)
    ensures IsTrimmed(r)
    ensures !StartsWith(Trim(str), Fence) ==> r == Trim(str)
  {
    var cleaned := Trim(str);
    JsonFenceStartsWithFence(cleaned);
    if StartsWith(cleaned, JsonFence) then Trim(StripSuffix(StripPrefix(cleaned, JsonFence), Fence))
    else if StartsWith(cleaned, Fence) then Trim(StripSuffix(StripPrefix(cleaned, Fence), Fence))
    else cleaned
  }

  lemma CleanJsonStringOfEmpty()
    ensures CleanJsonString("") == ""
  {
    assert Trim("") == "";
  }

  /** Trimmed text that does not open with a backtick is left alone by the panels' normaliser. */
  lemma CleanJsonStringOfUnopened(text: string)
    requires text != "" && IsTrimmed(text) && text[0] != '`'
    ensures CleanJsonString(text) == text
  {
    TrimOfTrimmed(text);
    NoOpeningFence(text);
  }

  /**
   * The two normalisers disagree on text that ends with a fence but does not
   * open with one: the service drops the closing fence, the panels keep it.
   */
  lemma ClosingFenceOnly(body: string)
    requires body != "" && IsTrimmed(body) && body[0] != '`'
    ensures CleanJson(body + Fence) == body
    ensures CleanJsonString(body + Fence) == body + Fence
  {
    var text := body + Fence;
    assert text[0] == body[0];
    assert text[|text| - 1] == Fence[2];
    CleanJsonOfUnopened(text);
    CleanJsonStringOfUnopened(text);
    StripSuffixOfConcat(body, Fence);
    TrimOfTrimmed(body);
  }

  lemma ClosingFenceExample()
    ensures CleanJson("abc```") == "abc"
    ensures CleanJsonString("abc```") == "abc```"
  {
    assert "abc```" == "abc" + Fence;
    ClosingFenceOnly("abc");
  }

  /**
   * The Sigma handler's inline clean-up: drop "```json" at index 0 and "```"
   * at the very end of the untrimmed text, then trim. A bare "```" opening is
   * not removed.
   */
  function SigmaClean(s: string): (r: string)
    ensures IsTrimmed(r) && |r| <= |s|
  {
    Trim(StripSuffix(StripPrefix(s, JsonFence), Fence))
  }

  /** A block opened by a bare fence keeps that fence under the Sigma clean-up. */
  lemma SigmaKeepsBareFence(body: string)
    requires IsTrimmed(body) && |body| > 0 && body[0] != 'j'
    ensures SigmaClean(Fence + body + Fence) == Fence + body
  {
    var k := Fence + body;
    var text := k + Fence;
    assert text[3] == body[0];
    DiffersAt(text, JsonFence, 3);
    StripSuffixOfConcat(k, Fence);
    assert IsTrimmed(k) by {
      assert k[0] == Fence[0];
      assert k[|k| - 1] == body[|body| - 1];
    }
    TrimOfTrimmed(k);
  }

  lemma BareOpening(body: string, text: string)
    requires text == Fence + body + Fence
    requires IsTrimmed(body) && |body| > 0 && body[0] != 'j'
    ensures IsTrimmed(text) && !StartsWith(text, JsonFence)
    ensures StripSuffix(StripPrefix(text, Fence), Fence) == body
  {
    assert text[0] == Fence[0];
    assert text[|text| - 1] == Fence[2];
    assert text[3] == body[0];
    DiffersAt(text, JsonFence, 3);
    assert text == Fence + (body + Fence);
    StripPrefixOfConcat(Fence, body + Fence);
    StripSuffixOfConcat(body, Fence);
  }

  lemma CleanJsonSteps(text: string, b: string)
    requires text != "" && IsTrimmed(text) && !StartsWith(text, JsonFence)
    requires StripSuffix(StripPrefix(text, Fence), Fence) == b && IsTrimmed(b)
    ensures CleanJson(text) == b
  {
    TrimOfTrimmed(text);
    TrimOfTrimmed(b);
  }

  /** The service removes a bare opening fence that the Sigma clean-up keeps. */
  lemma CleanJsonOfBareBlock(body: string)
    requires IsTrimmed(body) && |body| > 0 && body[0] != 'j'
    ensures CleanJson(Fence + body + Fence) == body
  {
    var text := Fence + body + Fence;
    BareOpening(body, text);
    CleanJsonSteps(text, body);
  }

  lemma SigmaExample()
    ensures SigmaClean("```{\"a\":1}```") == "```{\"a\":1}"
    ensures CleanJson("```{\"a\":1}```") == "{\"a\":1}"
  {
    var body := "{\"a\":1}";
    assert "```{\"a\":1}```" == Fence + body + Fence;
    assert "```{\"a\":1}" == Fence + body;
    assert IsTrimmed(body);
    SigmaKeepsBareFence(body);
    CleanJsonOfBareBlock(body);
  }

  /** Leading whitespace hides the JSON fence from the Sigma clean-up. */
  lemma SigmaUntrimmedExample()
    ensures SigmaClean(" ```json{}```") == "```json{}"
  {
    var t := " ```json{}```";
    var u := " ```json{}";
    DiffersAt(t, JsonFence, 0);
    assert t == u + Fence;
    StripSuffixOfConcat(u, Fence);
    assert u == " " + "```json{}" + "";
    TrimPadding(" ", "```json{}", "");
  }
}
