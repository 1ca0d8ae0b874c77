/**
 * The envelope around the remote model calls of the AI service: how a
 * request is assembled, which fixed text replaces a failed call, how an
 * image reply becomes a `data:` URL (RFC 2397, section 3) and how such a URL
 * is split apart again, which persona the strategy simulation selects, and
 * how the dynamic-data call falls back when the reply is not JSON.
 *
 * The remote calls themselves are inputs: a `Transport` value says what the
 * call returned or that it threw.
 */
module AiService {
  import opened Wrappers
  import opened JsString
  import opened JsValues
  import opened Normalizer

  /** The outcome of one remote generation call: a response whose `text` may be missing, or a thrown error. */
  datatype Transport = Replied(text: Option<string>) | Failed

  /** A request part: inline binary data (either field may be `undefined`) or a text prompt. */
  datatype Part = InlineData(data: Option<string>, mimeType: Option<string>) | TextPart(text: string)

  /** An attachment handed to `generateContent`. */
  datatype Attachment = Attachment(data: string, mimeType: string)

  /** The request `generateContent` sends. */
  datatype Request = Request(parts: seq<Part>, systemInstruction: string, responseMimeType: string)

  const JsonMimeType: string := "application/json"
  const TextMimeType: string := "text/plain"

  /** The text `generateContent` returns when a plain-text call fails. */
  const ConnectionFailedNotice: string := "System Notice: AI Service Connection Failed."

  function InlinePart(a: Attachment): Part {
    InlineData(Some(a.data), Some(a.mimeType))
  }

  /** The parts and configuration of a `generateContent` request: image, then audio, then the prompt. */
  function BuildRequest(prompt: string, systemInstruction: string, jsonMode: bool,
                        image: Option<Attachment>, audio: Option<Attachment>): (r: Request)
    ensures |r.parts| == 1 + (if image.Some? then 1 else 0) + (if audio.Some? then 1 else 0)
    ensures r.parts[|r.parts| - 1] == TextPart(prompt)
    ensures image.Some? ==> r.parts[0] == InlinePart(image.value)
    ensures audio.Some? ==> r.parts[|r.parts| - 2] == InlinePart(audio.value)
    ensures forall i :: 0 <= i < |r.parts| - 1 ==> r.parts[i].InlineData?
    ensures r.systemInstruction == systemInstruction
    ensures r.responseMimeType == JsonMimeType <==> jsonMode
  {
    var imageParts := if image.Some? then [InlinePart(image.value)] else [];
    var audioParts := if audio.Some? then [InlinePart(audio.value)] else [];
    Request(imageParts + audioParts + [TextPart(prompt)], systemInstruction,
            if jsonMode then JsonMimeType else TextMimeType)
  }

  /** The text that replaces a failed call. */
  function FailureText(jsonMode: bool): (r: string)
    ensures jsonMode ==> r == "{}"
    ensures !jsonMode ==> r == ConnectionFailedNotice
  {
    if jsonMode then "{}" else ConnectionFailedNotice
  }

  /** `generateContent`: the response text (`""` when absent), or the failure text; it never throws. */
  function GenerateContent(jsonMode: bool, reply: Transport): (r: string)
    ensures reply.Failed? ==> r == FailureText(jsonMode)
    ensures reply.Replied? && reply.text.Some? ==> r == reply.text.value
    ensures reply.Replied? && reply.text.None? ==> r == ""
  {
    match reply
    case Failed => FailureText(jsonMode)
    case Replied(text) => text.GetOr("")
  }

  /** A JSON-mode call always hands the caller something that is not blank when it fails, and the two failure texts differ. */
  lemma FailureTextsDistinct()
    ensures FailureText(true) != FailureText(false)
    ensures !IsBlank(FailureText(true)) && !IsBlank(FailureText(false))
  {
    var json := FailureText(true);
    var notice := FailureText(false);
    assert json[0] == '{' && notice[0] == 'S';
    NotBlankAt(json, 0);
    NotBlankAt(notice, 0);
  }

  /**
   * `getAIContextInsight`: a text-mode call over the data. It never throws, so
   * a failed call reaches the panel as the connection notice, not as an error.
   */
  function ContextInsight(reply: Transport): (r: string)
    ensures reply.Failed? ==> r == ConnectionFailedNotice
    ensures reply.Replied? ==> r == reply.text.GetOr("")
  {
    FailureTextsDistinct();
    GenerateContent(false, reply)
  }

  /** `generateSpeech` asks for the 'Fenrir' voice only when exactly that name is passed, and 'Kore' otherwise. */
  function SpeechVoiceName(voice: string): (r: string)
    ensures r == "Fenrir" || r == "Kore"
    ensures r == "Fenrir" <==> voice == "Fenrir"
  {
    if voice == "Fenrir" then "Fenrir" else "Kore"
  }

  // ---------------------------------------------------------------- data: URLs

  const DataScheme: string := "data:"
  const Base64Marker: string := ";base64,"

  /** The URL `generateTacticalImage` builds: `data:<mime>;base64,<data>`. */
  function FormatDataUrl(mimeType: string, data: string): (r: string)
    ensures StartsWith(r, DataScheme)
    ensures EndsWith(r, data)
  {
    var r := DataScheme + mimeType + Base64Marker + data;
    assert r[..|DataScheme|] == DataScheme;
    assert r[|r| - |data|..] == data;
    r
  }

  /** `url.split(',')[1]`: the payload, as the chat and the field-report calls read it. */
  function UrlData(url: string): (r: Option<string>)
    ensures r.Some? ==> ',' !in r.value
  {
    Field(url, ',', 1)
  }

  /** `url.split(';')[0].split(':')[1]`: the media type, as the chat call reads it. */
  function UrlMimeType(url: string): (r: Option<string>)
    ensures r.Some? ==> ':' !in r.value
  {
    var head := Split(url, ';')[0];
    Field(head, ':', 1)
  }

  lemma DataUrlLayout(mimeType: string, data: string)
    requires ':' !in mimeType && ';' !in mimeType && ',' !in mimeType
    ensures FormatDataUrl(mimeType, data) == (DataScheme + mimeType + ";base64") + [','] + data
    ensures FormatDataUrl(mimeType, data) == (DataScheme + mimeType) + [';'] + ("base64," + data)
    ensures ',' !in DataScheme + mimeType + ";base64"
    ensures ';' !in DataScheme + mimeType
    ensures DataScheme + mimeType == "data" + [':'] + mimeType
  {
    var m := DataScheme + mimeType + ";base64";
    forall i | 0 <= i < |m| ensures m[i] != ',' {
      if i < 5 {
        assert m[i] == DataScheme[i];
      } else if i < 5 + |mimeType| {
        assert m[i] == mimeType[i - 5];
      } else {
        assert m[i] == ";base64"[i - 5 - |mimeType|];
      }
    }
    var h := DataScheme + mimeType;
    forall i | 0 <= i < |h| ensures h[i] != ';' {
      if i < 5 {
        assert h[i] == DataScheme[i];
      } else {
        assert h[i] == mimeType[i - 5];
      }
    }
  }

  /**
   * Reading back a URL built by `FormatDataUrl` recovers the media type and
   * the payload, whenever the media type holds none of ':' ';' ',' and the
   * payload holds no ','.
   */
  lemma {:induction false} DataUrlRoundTrip(mimeType: string, data: string)
    requires ':' !in mimeType && ';' !in mimeType && ',' !in mimeType
    requires ',' !in data
    ensures UrlData(FormatDataUrl(mimeType, data)) == Some(data)
    ensures UrlMimeType(FormatDataUrl(mimeType, data)) == Some(mimeType)
  {
    var url := FormatDataUrl(mimeType, data);
    DataUrlLayout(mimeType, data);
    SplitAtFirst(DataScheme + mimeType + ";base64", ',', data);
    SplitNoSeparator(data, ',');
    SplitAtFirst(DataScheme + mimeType, ';', "base64," + data);
    assert ':' !in "data";
    SplitAtFirst("data", ':', mimeType);
    SplitNoSeparator(mimeType, ':');
  }

  /** A ',' inside the payload cuts it short: only the text before it is read. */
  lemma {:induction false} DataUrlCommaTruncates(mimeType: string, d1: string, d2: string)
    requires ':' !in mimeType && ';' !in mimeType && ',' !in mimeType
    requires ',' !in d1
    ensures UrlData(FormatDataUrl(mimeType, d1 + [','] + d2)) == Some(d1)
  {
    var data := d1 + [','] + d2;
    DataUrlLayout(mimeType, data);
    SplitAtFirst(DataScheme + mimeType + ";base64", ',', data);
    SplitAtFirst(d1, ',', d2);
  }

  /** The base64 alphabet of RFC 4648, section 4, with its padding character. */
  predicate IsBase64Char(c: char) {
    ('A' <= c <= 'Z') || ('a' <= c <= 'z') || ('0' <= c <= '9') || c == '+' || c == '/' || c == '='
  }

  /** Base64 text never contains ',', so an encoded payload always comes back whole. */
  lemma Base64RoundTrip(mimeType: string, data: string)
    requires ':' !in mimeType && ';' !in mimeType && ',' !in mimeType
    requires forall i :: 0 <= i < |data| ==> IsBase64Char(data[i])
    ensures UrlData(FormatDataUrl(mimeType, data)) == Some(data)
    ensures UrlMimeType(FormatDataUrl(mimeType, data)) == Some(mimeType)
  {
    assert ',' !in data by {
      forall i | 0 <= i < |data| ensures data[i] != ',' {
        assert IsBase64Char(data[i]);
      }
    }
    DataUrlRoundTrip(mimeType, data);
  }

  /** One part of an image response: it may carry inline data. */
  datatype ResponsePart = ResponsePart(inlineData: Option<Attachment>)

  /** The first part that carries inline data, if any. */
  function FirstInline(parts: seq<ResponsePart>): (r: Option<Attachment>)
    ensures r.None? <==> forall i :: 0 <= i < |parts| ==> parts[i].inlineData.None?
    ensures r.Some? ==> exists i :: 0 <= i < |parts| && parts[i].inlineData == r
                                 && forall j :: 0 <= j < i ==> parts[j].inlineData.None?
  {
    if |parts| == 0 then None
    else if parts[0].inlineData.Some? then
      parts[0].inlineData
    else
      var r := FirstInline(parts[1..]);
      assert forall i :: 1 <= i < |parts| ==> parts[i] == parts[1..][i - 1];
      if r.Some? then
        var k :| 0 <= k < |parts[1..]| && parts[1..][k].inlineData == r
                 && forall j :: 0 <= j < k ==> parts[1..][j].inlineData.None?;
        assert parts[k + 1].inlineData == r;
        r
      else r
  }

  /** `generateTacticalImage`: the first inline part as a `data:` URL, `null` when there is none or the call throws. */
  function GenerateTacticalImage(reply: Option<seq<ResponsePart>>): (r: Option<string>)
    ensures reply.None? ==> r.None?
    ensures r.Some? ==> StartsWith(r.value, DataScheme)
    ensures reply.Some? ==>
      (r.Some? <==> exists i :: 0 <= i < |reply.value| && reply.value[i].inlineData.Some?)
    ensures r.Some? ==>
      && reply.Some? && FirstInline(reply.value).Some?
      && r.value == FormatDataUrl(FirstInline(reply.value).value.mimeType, FirstInline(reply.value).value.data)
  {
    match reply
    case None => None
    case Some(parts) =>
      match FirstInline(parts)
      case None => None
      case Some(a) => Some(FormatDataUrl(a.mimeType, a.data))
  }

  /** The parts of a chat message: the prompt, then the attached image read from its `data:` URL when one is given. */
  function SlasParts(prompt: string, image: Option<string>): (r: seq<Part>)
    ensures |r| == if image.Some? && image.value != "" then 2 else 1
    ensures r[0] == TextPart(prompt)
    ensures |r| == 2 ==> r[1] == InlineData(UrlData(image.value), UrlMimeType(image.value))
  {
    if image.Some? && image.value != "" then
      [TextPart(prompt), InlineData(UrlData(image.value), UrlMimeType(image.value))]
    else [TextPart(prompt)]
  }

  /** An image produced by `generateTacticalImage` and attached to a chat message reaches the model intact. */
  lemma GeneratedImageReachesChat(prompt: string, parts: seq<ResponsePart>)
    requires FirstInline(parts).Some?
    requires var a := FirstInline(parts).value;
      ':' !in a.mimeType && ';' !in a.mimeType && ',' !in a.mimeType && ',' !in a.data
    ensures var a := FirstInline(parts).value;
      SlasParts(prompt, GenerateTacticalImage(Some(parts)))[1] == InlinePart(a)
  {
    var a := FirstInline(parts).value;
    DataUrlRoundTrip(a.mimeType, a.data);
  }

  /** The notice the chat stream yields when it is interrupted. */
  const UplinkInterrupted: string := ":: SYSTEM NOTICE :: Uplink Interrupted."

  /** The chunks a stream yields: the non-empty chunk texts, in order. */
  function YieldedChunks(chunks: seq<Option<string>>): (r: seq<string>)
    ensures |r| <= |chunks|
    ensures forall k :: 0 <= k < |r| ==> r[k] != "" && Some(r[k]) in chunks
  {
    if |chunks| == 0 then []
    else
      var rest := YieldedChunks(chunks[1..]);
      assert forall k :: 0 <= k < |rest| ==> Some(rest[k]) in chunks by {
        forall k | 0 <= k < |rest| ensures Some(rest[k]) in chunks {
          var i :| 0 <= i < |chunks[1..]| && chunks[1..][i] == Some(rest[k]);
          assert chunks[i + 1] == Some(rest[k]);
        }
      }
      if chunks[0].Some? && chunks[0].value != "" then [chunks[0].value] + rest else rest
  }

  /** Yielding is chunk by chunk: the output for two stretches of the stream is the concatenation of their outputs. */
  lemma {:induction false} YieldedChunksConcat(a: seq<Option<string>>, b: seq<Option<string>>)
    ensures YieldedChunks(a + b) == YieldedChunks(a) + YieldedChunks(b)
  {
    if |a| == 0 {
      assert a + b == b;
    } else {
      assert (a + b)[0] == a[0];
      assert (a + b)[1..] == a[1..] + b;
      YieldedChunksConcat(a[1..], b);
    }
  }

  /**
   * `streamSLASResponse`: what the chat receives from a stream that delivered
   * `chunks` and then either ended or threw.
   */
  function SlasStream(chunks: seq<Option<string>>, interrupted: bool): (r: seq<string>)
    ensures interrupted ==> |r| >= 1 && r[|r| - 1] == UplinkInterrupted
    ensures !interrupted ==> r == YieldedChunks(chunks)
    ensures interrupted ==> r[..|r| - 1] == YieldedChunks(chunks)
  {
    YieldedChunks(chunks) + (if interrupted then [UplinkInterrupted] else [])
  }

  /** `analyzeFieldInsight`: a recording, when one is given, is sent as its payload with the type 'audio/webm'. */
  function FieldInsightAudio(audioBase64: Option<string>): (r: Option<Part>)
    ensures r.Some? <==> audioBase64.Some? && audioBase64.value != ""
    ensures r.Some? ==> r.value == InlineData(UrlData(audioBase64.value), Some("audio/webm"))
  {
    if audioBase64.Some? && audioBase64.value != "" then
      Some(InlineData(UrlData(audioBase64.value), Some("audio/webm")))
    else None
  }

  /** A recorder's `data:` URL sends exactly its payload, whatever media type it declared. */
  lemma FieldInsightSendsPayload(mimeType: string, data: string)
    requires ':' !in mimeType && ';' !in mimeType && ',' !in mimeType && ',' !in data
    ensures FieldInsightAudio(Some(FormatDataUrl(mimeType, data))) == Some(InlineData(Some(data), Some("audio/webm")))
  {
    DataUrlRoundTrip(mimeType, data);
  }

  // ---------------------------------------------------------------- strategy simulation

  /** The system personas of `runStrategySimulation`. */
  datatype Persona = AlphaPrime | SigmaHuman | SigmaAi | Theta | GenericStrategist

  /** The system instruction for any mode outside the four archetypes. */
  const GenericInstruction: string := "You are a strategic AI. Output JSON."

  /** The persona a mode selects. */
  function PersonaFor(mode: string): (p: Persona)
    ensures p == AlphaPrime <==> mode == "alpha_prime"
    ensures p == SigmaHuman <==> mode == "sigma_human"
    ensures p == SigmaAi <==> mode == "sigma_ai"
    ensures p == Theta <==> mode == "theta"
  {
    if mode == "alpha_prime" then AlphaPrime
    else if mode == "sigma_human" then SigmaHuman
    else if mode == "sigma_ai" then SigmaAi
    else if mode == "theta" then Theta
    else GenericStrategist
  }

  /** Every mode other than the four archetype names falls to the generic persona. */
  lemma GenericPersonaOtherwise(mode: string)
    ensures PersonaFor(mode) == GenericStrategist <==>
      mode != "alpha_prime" && mode != "sigma_human" && mode != "sigma_ai" && mode != "theta"
  {
  }

  /** The wargaming panel's 'alpha' and 'sigma' modes and the Sigma red-team call get the generic persona. */
  lemma PanelModesAreGeneric()
    ensures PersonaFor("alpha") == GenericStrategist
    ensures PersonaFor("sigma") == GenericStrategist
  {
    GenericPersonaOtherwise("alpha");
    GenericPersonaOtherwise("sigma");
  }

  /** The outcome of `runStrategySimulation`: the persona it used and the text it returned. */
  datatype StrategyCall = StrategyCall(persona: Persona, output: string)

  /** `runStrategySimulation`: a JSON-mode call under the mode's persona, its reply passed through `cleanJson`. */
  function RunStrategySimulation(mode: string, reply: Transport): (r: StrategyCall)
    ensures r.persona == PersonaFor(mode)
    ensures r.output == CleanJson(GenerateContent(true, reply))
    ensures IsTrimmed(r.output)
    ensures reply.Failed? ==> r.output == "{}"
  {
    CleanJsonOfEmptyObject();
    StrategyCall(PersonaFor(mode), CleanJson(GenerateContent(true, reply)))
  }

  /** What the panels' own normaliser makes of a strategy result that carries no fence: nothing changes. */
  lemma StrategyOutputStable(mode: string, reply: Transport)
    requires !StartsWith(RunStrategySimulation(mode, reply).output, Fence)
    ensures CleanJsonString(RunStrategySimulation(mode, reply).output) == RunStrategySimulation(mode, reply).output
  {
    var out := RunStrategySimulation(mode, reply).output;
    TrimOfTrimmed(out);
  }

  /**
   * `generateDynamicData`: the parsed, cleaned reply of a JSON-mode call, or
   * the empty array when it does not parse. `parse` stands for `JSON.parse`.
   */
  function GenerateDynamicData(reply: Transport, parse: string -> Option<JsValue>): (r: JsValue)
    ensures var cleaned := CleanJson(GenerateContent(true, reply));
      (parse(cleaned).None? ==> r == Arr([])) && (parse(cleaned).Some? ==> r == parse(cleaned).value)
  {
    match parse(CleanJson(GenerateContent(true, reply)))
    case None => Arr([])
    case Some(v) => v
  }

  /**
   * A failed call is not the parse failure: its "{}" parses, so the caller
   * receives an empty object rather than the empty array.
   */
  lemma DynamicDataOnFailure(parse: string -> Option<JsValue>)
    requires parse("{}") == Some(Obj(map[]))
    ensures GenerateDynamicData(Failed, parse) == Obj(map[])
  {
    CleanJsonOfEmptyObject();
  }

  /**
   * `analyzePersonnelRisk`: a JSON-mode call whose cleaned reply is parsed
   * with no fallback, so an unparsable reply is an exception (`None`).
   */
  function AnalyzePersonnelRisk(reply: Transport, parse: string -> Option<JsValue>): (r: Option<JsValue>)
    ensures r == parse(CleanJson(GenerateContent(true, reply)))
    ensures reply.Failed? ==> r == parse("{}")
  {
    CleanJsonOfEmptyObject();
    parse(CleanJson(GenerateContent(true, reply)))
  }

  /** `searchIntelligence`: the summary text (a default when empty), or the offline notice when the call throws. */
  function SearchIntelligenceText(reply: Transport): (r: string)
    ensures reply.Failed? ==> r == "Intelligence gathering failed. Systems offline."
    ensures reply.Replied? && reply.text.Some? && reply.text.value != "" ==> r == reply.text.value
    ensures reply.Replied? && (reply.text.None? || reply.text.value == "") ==> r == "No intelligence found."
    ensures r != ""
  {
    match reply
    case Failed => "Intelligence gathering failed. Systems offline."
    case Replied(text) =>
      if text.Some? && text.value != "" then text.value else "No intelligence found."
  }

  // ---------------------------------------------------------------- base64 payload bytes

  /** An unsigned 8-bit array element. */
  newtype Byte = b: int | 0 <= b < 256

  /** The `Uint8Array` conversion of a stored number: reduction modulo 256. */
  function ToUint8(n: int): (r: Byte)
    ensures 0 <= n < 256 ==> r as int == n
    ensures (r as int - n) % 256 == 0
  {
    (n % 256) as Byte
  }

  /**
   * The copy loop of `decode`: the character codes of the binary string that
   * `atob` produced, stored into a fresh byte array.
   */
  method DecodeBinaryString(binary: string) returns (bytes: array<Byte>)
    ensures bytes.Length == |binary|
    ensures forall i :: 0 <= i < |binary| ==> bytes[i] == ToUint8(binary[i] as int)
    ensures (forall i :: 0 <= i < |binary| ==> binary[i] as int < 256) ==>
      forall i :: 0 <= i < |binary| ==> bytes[i] as int == binary[i] as int
  {
    bytes := new Byte[|binary|];
    var i := 0;
    while i < |binary|
      invariant 0 <= i <= |binary|
      invariant forall k :: 0 <= k < i ==> bytes[k] == ToUint8(binary[k] as int)
    {
      bytes[i] := ToUint8(binary[i] as int);
      i := i + 1;
    }
  }
}
