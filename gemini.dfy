/** The enrichment service: asks a generative-text model for a kid-friendly
    description of a recognised landmark, and falls back to a fixed record on
    any failure, so that no error ever leaves it. The SDK call and the JSON
    parsing of its output are foreign code and are passed in as functions. */
module Gemini {
  import opened Wrappers
  import opened Types

  const ModelId := "gemini-3-flash-preview"
  const ResponseMimeType := "application/json"

  /** The types a response-schema property may have here. */
  datatype FieldType = StringType | StringArrayType

  /** An object response schema: its properties and the required ones. */
  datatype Schema = Schema(properties: map<string, FieldType>, required: seq<string>)

  /** The schema sent with every request: one property per field of
      `LandmarkData`, all of them required. */
  const ResponseSchema := Schema(
    map["name" := StringType, "history" := StringType, "funFacts" := StringArrayType,
        "architecture" := StringType, "visitInfo" := StringType],
    ["name", "history", "funFacts", "architecture", "visitInfo"])

  /** A `generateContent` request. The prompt it carries as `contents` is
      determined by the landmark's label (see `Contents`), so the request
      records the label it was built for. */
  datatype Request = Request(model: string, landmarkName: string, responseMimeType: string, responseSchema: Schema)

  /** What `generateContent` yields: it throws, or it answers with a `text`
      that may be absent. */
  datatype Reply = Threw | Answered(text: Option<string>)

  const PromptOpening :=
    "\n      You are an enthusiastic, fun, and educational tour guide for a 10-year-old kid.\n"
    + "      The user is looking at a landmark identified as \""
  const PromptMiddle :=
    "\".\n      \n"
    + "      Please provide details about this landmark in a way that is easy to read, engaging, and perfect for a 4th grader.\n"
    + "      Avoid complex jargon. Use emojis occasionally to make it fun.\n      \n"
    + "      Return a JSON object with the following fields:\n"
    + "      - name: The proper name of the landmark (fix capitalization or formatting if needed from the raw input \""
  const PromptClosing :=
    "\").\n"
    + "      - history: A short, interesting story about how/when it was built. Max 3 sentences.\n"
    + "      - funFacts: An array of 3 super cool, surprising facts.\n"
    + "      - architecture: Describe what it looks like and its style in simple terms (e.g., \"It's shaped like a giant triangle!\").\n"
    + "      - visitInfo: Practical tips for visiting (e.g., \"Best time to go\", \"Look for the secret door\", etc.).\n    "

  /** `s` occurs in `text` starting at index `i`. */
  ghost predicate OccursAt(text: string, s: string, i: int)
  {
    0 <= i <= |text| - |s| && text[i..i + |s|] == s
  }

  /** `s` occurs in `text` as a contiguous piece. */
  ghost predicate Mentions(text: string, s: string)
  {
    exists i :: OccursAt(text, s, i)
  }

  /** A piece placed between two others occurs in the whole. */
  lemma MentionedBetween(before: string, s: string, after: string)
    ensures Mentions(before + s + after, s)
  {
    var text := before + s + after;
    assert text[|before|..|before| + |s|] == s;
    assert OccursAt(text, s, |before|);
  }

  /** The instruction sent to the model; it names the landmark (twice). */
  function Prompt(landmarkName: string): (p: string)
    ensures Mentions(p, landmarkName)
  {
    var p := PromptOpening + landmarkName + (PromptMiddle + landmarkName + PromptClosing);
    MentionedBetween(PromptOpening, landmarkName, PromptMiddle + landmarkName + PromptClosing);
    p
  }

  /** The `contents` of a request: the prompt for its landmark. */
  function Contents(r: Request): string
  {
    Prompt(r.landmarkName)
  }

  /** The request for one landmark: fixed model, JSON output, fixed schema. */
  function BuildRequest(landmarkName: string): (r: Request)
    ensures r.model == ModelId && r.responseMimeType == ResponseMimeType
    ensures r.responseSchema == ResponseSchema
    ensures r.landmarkName == landmarkName
  {
    Request(ModelId, landmarkName, ResponseMimeType, ResponseSchema)
  }

  /** The prompt sent for a landmark names that landmark. */
  lemma RequestMentionsLandmark(landmarkName: string)
    ensures Mentions(Contents(BuildRequest(landmarkName)), landmarkName)
  {
  }

  /** The five fields of `LandmarkData`, in declaration order. */
  const LandmarkFields := ["name", "history", "funFacts", "architecture", "visitInfo"]

  /** The schema describes exactly the fields of `LandmarkData`, requires
      every property it describes, each once, and gives `funFacts` the
      array type. */
  lemma SchemaRequiresExactlyLandmarkFields()
    ensures ResponseSchema.properties.Keys == set f | f in LandmarkFields
    ensures (set f | f in ResponseSchema.required) == ResponseSchema.properties.Keys
    ensures forall i, j :: 0 <= i < j < |ResponseSchema.required| ==>
      ResponseSchema.required[i] != ResponseSchema.required[j]
    ensures forall f | f in ResponseSchema.properties ::
      ResponseSchema.properties[f] == (if f == "funFacts" then StringArrayType else StringType)
  {
  }

  const FallbackHistory := "We couldn't load the history right now, but it looks amazing!"
  const FallbackFunFacts := ["It's a mystery!", "Try again later to learn more.", "Ask a grown-up!"]
  const FallbackArchitecture := "It looks very cool!"
  const FallbackVisitInfo := "Check local maps for info."

  /** The record returned when anything goes wrong: the label echoed back
      as the name, and fixed placeholder text everywhere else. */
  function Fallback(landmarkName: string): (r: LandmarkData)
    ensures r.name == landmarkName
    ensures |r.funFacts| == 3 && forall f | f in r.funFacts :: f != ""
    ensures r.history != "" && r.architecture != "" && r.visitInfo != ""
  {
    LandmarkData(landmarkName, FallbackHistory, FallbackFunFacts, FallbackArchitecture, FallbackVisitInfo)
  }

  /** A JavaScript string is truthy when it is present and non-empty. */
  predicate HasText(text: Option<string>)
  {
    text.Some? && text.value != ""
  }

  /** `fetchLandmarkDetails`: sends the request, and returns the parsed
      answer when the call returned non-empty text that parses; any other
      outcome (the call throws, the text is missing or empty, the parse
      throws) yields the fallback record. It is total: it never fails. */
  function FetchLandmarkDetails(
    landmarkName: string,
    generate: Request -> Reply,
    parse: string -> Option<LandmarkData>): (r: LandmarkData)
    ensures var reply := generate(BuildRequest(landmarkName));
      !(reply.Answered? && HasText(reply.text)) ==> r == Fallback(landmarkName)
    ensures var reply := generate(BuildRequest(landmarkName));
      reply.Answered? && HasText(reply.text) ==>
        r == (match parse(reply.text.value) case Some(d) => d case None => Fallback(landmarkName))
  {
    var reply := generate(BuildRequest(landmarkName));
    if reply.Threw? || !HasText(reply.text) then Fallback(landmarkName)
    else match parse(reply.text.value)
      case Some(data) => data
      case None => Fallback(landmarkName)
  }

  /** The only way the result's name differs from the label is a successful
      parse of a non-empty answer that gave that record. */
  lemma ForeignNameComesFromParsedAnswer(
    landmarkName: string,
    generate: Request -> Reply,
    parse: string -> Option<LandmarkData>)
    requires FetchLandmarkDetails(landmarkName, generate, parse).name != landmarkName
    ensures var reply := generate(BuildRequest(landmarkName));
      reply.Answered? && HasText(reply.text)
      && parse(reply.text.value) == Some(FetchLandmarkDetails(landmarkName, generate, parse))
  {
  }
}
