/**
 * The pure parts of the generative-AI service: the language name put into the
 * prompt, the feature-request lines, the merge of the specification reply with
 * the target device, and the extraction of the first inline image into a
 * `data:` URL. The two remote calls are not modelled; their replies are inputs.
 */
module Gemini {
  import opened Base
  import opened Text
  import opened Types

  /** Why a service call fails; a failure is handed to the caller unchanged. */
  datatype Error =
    | RequestFailed(message: string)   // the SDK call itself threw
    | NoSpecsText                      // the specification reply had no text
    | Unparseable                      // the reply text was not JSON
    | NoImageData                      // no inline image data in the first candidate

  datatype Result<+T> = Ok(value: T) | Fail(error: Error)

  // ---------------------------------------------------------------- prompt text

  /** The language-code table of the prompt builder. */
  const LangTable: map<string, string> := map[
    "en" := "English",
    "zh" := "Simplified Chinese (简体中文)",
    "ja" := "Japanese",
    "ko" := "Korean",
    "es" := "Spanish",
    "de" := "German",
    "fr" := "French"
  ]

  /** The full language name for a code, English when the code is unknown. */
  function LangName(code: string): (r: string)
    ensures code in LangTable ==> r == LangTable[code]
    ensures code !in LangTable ==> r == "English"
  {
    if code in LangTable && LangTable[code] != "" then LangTable[code] else "English"
  }

  /** Only "en" and unknown codes yield "English"; every known code has its own name. */
  lemma LangNameEnglish(code: string)
    ensures LangName(code) == "English" <==> code == "en" || code !in LangTable
    ensures code == "zh" ==> LangName(code) == "Simplified Chinese (简体中文)"
  {}

  /** Distinct known codes give distinct names. */
  lemma LangNameInjective(c1: string, c2: string)
    requires c1 in LangTable && c2 in LangTable && c1 != c2
    ensures LangName(c1) != LangName(c2)
  {}

  // The long literals are written in pieces so that the verifier can index into them.
  const FeaturesPrefix := "MANDATORY FEATURES " + "(Must be visible in design): "
  const FeaturesFallback := "Features: " + "Select suitable complications based on the style."
  const RequiredFallback := "None specified, " + "decide based on style"

  /** The feature line of the system instruction. */
  function FeaturesRequest(selected: seq<string>): (r: string)
    ensures |selected| == 0 <==> r == FeaturesFallback
  {
    if |selected| > 0 then
      var r := FeaturesPrefix + Join(selected, ", ") + ".";
      assert r[0] != FeaturesFallback[0];
      r
    else FeaturesFallback
  }

  /** The "Required Complications" line of the user prompt. */
  function RequiredComplications(selected: seq<string>): string {
    if |selected| > 0 then Join(selected, ", ") else RequiredFallback
  }

  /** Reads the selection back out of a feature line; None for the fallback sentence. */
  function ParseFeatures(line: string): Option<seq<string>> {
    if |line| > |FeaturesPrefix| && line[..|FeaturesPrefix|] == FeaturesPrefix && line[|line| - 1] == '.'
    then Some(SplitList(line[|FeaturesPrefix|..|line| - 1]))
    else None
  }

  /** The feature line names exactly the selection, in order, or is the fallback when nothing is selected. */
  lemma {:induction false} FeaturesRoundTrip(selected: seq<string>)
    requires ValidSelection(selected)
    ensures ParseFeatures(FeaturesRequest(selected)) == if |selected| == 0 then None else Some(selected)
  {
    if |selected| > 0 {
      ComplicationKeysShape();
      var line := FeaturesRequest(selected);
      var body := Join(selected, ", ");
      assert line[..|FeaturesPrefix|] == FeaturesPrefix;
      assert line[|FeaturesPrefix|..|line| - 1] == body;
      SplitJoin(selected);
    } else {
      assert FeaturesFallback[..|FeaturesPrefix|][0] != FeaturesPrefix[0];
    }
  }

  /** The required-complications line is the fallback sentence exactly when nothing is selected. */
  lemma RequiredComplicationsSplit(selected: seq<string>)
    requires ValidSelection(selected)
    ensures RequiredComplications(selected) == RequiredFallback <==> |selected| == 0
    ensures |selected| > 0 ==> SplitList(RequiredComplications(selected)) == selected
  {
    if |selected| > 0 {
      ComplicationKeysShape();
      JoinHead(selected, ", ");
      assert RequiredComplications(selected)[0] != RequiredFallback[0];
      SplitJoin(selected);
    }
  }

  /** What the specification call is asked for; the prompt prose around it is not modelled. */
  datatype SpecsRequest = SpecsRequest(
    userPrompt: string,
    styleHint: string,
    targetDevice: string,
    languageName: string,
    shape: Shape,
    featuresLine: string,
    requiredLine: string)

  /** The request assembled from the handler's arguments. */
  function BuildSpecsRequest(
    userPrompt: string, styleHint: string, targetDevice: string,
    language: string, shape: Shape, selected: seq<string>): SpecsRequest
  {
    SpecsRequest(userPrompt, styleHint, targetDevice, LangName(language), shape,
                 FeaturesRequest(selected), RequiredComplications(selected))
  }

  // ---------------------------------------------------------------- specification reply

  /** The JSON object the model returned; it may carry a `targetDevice` of its own. */
  datatype ParsedSpecs = ParsedSpecs(
    name: string,
    description: string,
    style: string,
    colorPalette: seq<string>,
    complications: seq<string>,
    visualPrompt: string,
    targetDevice: Option<string>)

  /** The reply of the specification call: a thrown error, or a text and what parsing it gave. */
  datatype SpecsReply =
    | SpecsCallFailed(message: string)
    | SpecsResponse(text: Option<string>, parsed: Option<ParsedSpecs>)

  /** A design without the fields the application adds (id, createdAt, imageUrl, language, originalPrompt). */
  datatype Specs = Specs(
    name: string,
    description: string,
    style: string,
    targetDevice: string,
    colorPalette: seq<string>,
    complications: seq<string>,
    visualPrompt: string)

  /** A reply with a non-empty text that parsed. */
  predicate SpecsAnswered(reply: SpecsReply) {
    reply.SpecsResponse? && reply.text.Some? && reply.text.value != "" && reply.parsed.Some?
  }

  /**
   * The specification step: an absent or empty text is an error, otherwise the
   * parsed fields are returned with `targetDevice` set to the argument.
   */
  function GenerateSpecs(reply: SpecsReply, targetDevice: string): (r: Result<Specs>)
    ensures reply.SpecsCallFailed? ==> r == Fail(RequestFailed(reply.message))
    ensures reply.SpecsResponse? && (reply.text == None || reply.text == Some("")) ==> r == Fail(NoSpecsText)
    ensures r.Ok? <==> SpecsAnswered(reply)
    ensures r.Ok? ==> r.value.targetDevice == targetDevice
    ensures r.Ok? ==> var p := reply.parsed.value;
      && r.value.name == p.name && r.value.description == p.description && r.value.style == p.style
      && r.value.colorPalette == p.colorPalette && r.value.complications == p.complications
      && r.value.visualPrompt == p.visualPrompt
  {
    match reply
    case SpecsCallFailed(m) => Fail(RequestFailed(m))
    case SpecsResponse(text, parsed) =>
      if text.None? || text.value == "" then Fail(NoSpecsText)
      else if parsed.None? then Fail(Unparseable)
      else
        var p := parsed.value;
        Ok(Specs(p.name, p.description, p.style, targetDevice, p.colorPalette, p.complications, p.visualPrompt))
  }

  /** Whatever `targetDevice` the model put in its JSON, the argument wins. */
  lemma TargetDeviceOverrides(text: string, p: ParsedSpecs, targetDevice: string)
    requires text != "" && p.targetDevice.Some? && p.targetDevice.value != targetDevice
    ensures GenerateSpecs(SpecsResponse(Some(text), Some(p)), targetDevice).value.targetDevice == targetDevice
  {}

  // ---------------------------------------------------------------- image reply

  datatype InlineData = InlineData(data: Option<string>)
  datatype Part = Part(text: Option<string>, inlineData: Option<InlineData>)
  datatype Content = Content(parts: Option<seq<Part>>)
  datatype Candidate = Candidate(content: Option<Content>)

  /** The reply of the image call: a thrown error or a response with optional candidates. */
  datatype ImageReply =
    | ImageCallFailed(message: string)
    | ImageResponse(candidates: Option<seq<Candidate>>)

  const DataUrlPrefix := "data:image/png;base64,"

  /** `response.candidates?.[0]?.content?.parts || []`. */
  function FirstCandidateParts(candidates: Option<seq<Candidate>>): seq<Part> {
    if candidates.None? || |candidates.value| == 0 then []
    else
      var c := candidates.value[0];
      if c.content.None? || c.content.value.parts.None? then [] else c.content.value.parts.value
  }

  /** Index of the first part that carries inline data, or -1. */
  function FirstInline(parts: seq<Part>): (r: int)
    ensures -1 <= r < |parts|
    ensures r >= 0 ==> parts[r].inlineData.Some?
    ensures forall k | 0 <= k < |parts| && (r == -1 || k < r) :: parts[k].inlineData.None?
  {
    if parts == [] then -1
    else if parts[0].inlineData.Some? then 0
    else
      var k := FirstInline(parts[1..]);
      if k == -1 then -1 else k + 1
  }

  /** The data string of the first inline part, "" when there is none or its data is absent. */
  function FirstInlineData(parts: seq<Part>): string {
    var k := FirstInline(parts);
    if k == -1 then "" else parts[k].inlineData.value.data.GetOr("")
  }

  /**
   * The image step: scan the first candidate's parts, stop at the first part
   * with inline data, fail when that data is empty, else build a PNG data URL.
   */
  function GenerateImage(reply: ImageReply): (r: Result<string>)
    ensures reply.ImageCallFailed? ==> r == Fail(RequestFailed(reply.message))
    ensures reply.ImageResponse? ==>
      var parts := FirstCandidateParts(reply.candidates);
      var k := FirstInline(parts);
      && (r.Ok? <==> k >= 0 && parts[k].inlineData.value.data.Some? && parts[k].inlineData.value.data.value != "")
      && (r.Fail? ==> r.error == NoImageData)
    ensures r.Ok? ==> |r.value| > |DataUrlPrefix| && r.value[..|DataUrlPrefix|] == DataUrlPrefix
  {
    match reply
    case ImageCallFailed(m) => Fail(RequestFailed(m))
    case ImageResponse(candidates) =>
      var data := FirstInlineData(FirstCandidateParts(candidates));
      if data == "" then Fail(NoImageData) else Ok(DataUrlPrefix + data)
  }

  /** The base64 payload of a PNG data URL. */
  function DataUrlPayload(url: string): Option<string> {
    if |url| >= |DataUrlPrefix| && url[..|DataUrlPrefix|] == DataUrlPrefix
    then Some(url[|DataUrlPrefix|..]) else None
  }

  /** A successful image URL carries exactly the first inline part's data. */
  lemma ImagePayloadRoundTrip(reply: ImageReply)
    requires GenerateImage(reply).Ok?
    ensures reply.ImageResponse?
    ensures DataUrlPayload(GenerateImage(reply).value) == Some(FirstInlineData(FirstCandidateParts(reply.candidates)))
  {
    var data := FirstInlineData(FirstCandidateParts(reply.candidates));
    assert (DataUrlPrefix + data)[|DataUrlPrefix|..] == data;
  }

  /** Data in a later part does not rescue a first inline part whose data is empty. */
  lemma FirstInlinePartDecides(parts: seq<Part>, k: int, later: int)
    requires 0 <= k < later < |parts|
    requires forall j | 0 <= j < k :: parts[j].inlineData.None?
    requires parts[k].inlineData == Some(InlineData(Some("")))
    requires parts[later].inlineData.Some? && parts[later].inlineData.value.data.Some?
    ensures GenerateImage(ImageResponse(Some([Candidate(Some(Content(Some(parts))))]))) == Fail(NoImageData)
  {
    assert FirstInline(parts) == k;
  }
}
