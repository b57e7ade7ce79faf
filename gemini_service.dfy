/** `generateUiLayout` and `generateImage` (services/geminiService.ts) around their model
    calls: the choice of generation instructions, the trimming, parsing and structural
    check of the layout text, the collapse of every failure into one message, and the
    data URL of the first generated image. The model calls and `JSON.parse` are inputs. */
module GeminiService {
  import opened Wrappers
  import opened Types
  import opened Strings

  /** A parsed JSON value. */
  datatype Json =
    | JNull
    | JBool(b: bool)
    | JNumber(n: real)
    | JString(s: string)
    | JArray(items: seq<Json>)
    | JObject(fields: map<string, Json>)

  /** JavaScript truthiness of a property read, `None` being `undefined`. */
  predicate Truthy(v: Option<Json>) {
    match v
    case None => false
    case Some(JNull) => false
    case Some(JBool(b)) => b
    case Some(JNumber(n)) => n != 0.0
    case Some(JString(s)) => s != ""
    case Some(JArray(_)) => true
    case Some(JObject(_)) => true
  }

  /** `value[key]` on a parsed value: only an object has the three layout properties. */
  function Property(value: Json, key: string): Option<Json> {
    if value.JObject? && key in value.fields then Some(value.fields[key]) else None
  }

  /** The check after parsing: `blurb` and `imagePrompt` truthy, `uiComponents` an array.
      (Reading a property of `null` throws, which ends in the same failure.) */
  predicate IsValidLayout(layout: Json) {
    && Truthy(Property(layout, "blurb"))
    && Truthy(Property(layout, "imagePrompt"))
    && Property(layout, "uiComponents").Some? && Property(layout, "uiComponents").value.JArray?
  }

  // ---------------------------------------------------------------------------
  // Instructions

  /** The two variants of the generation instructions. */
  datatype InstructionMode = UserDriven(request: string) | Automatic

  /** `userPrompt.trim()` decides: a prompt with any non-whitespace character asks for
      exactly the requested components and quotes the prompt as given; a blank one asks
      for an automatic layout. */
  function Instructions(userPrompt: string): (mode: InstructionMode)
    ensures mode.Automatic? <==> AllWhitespace(userPrompt)
    ensures mode.UserDriven? ==> mode.request == userPrompt
  {
    if Trim(userPrompt) != "" then UserDriven(userPrompt) else Automatic
  }

  /** What the layout call depends on: the records, the unit system and the instructions
      (the prompt's wording itself is not modelled). */
  datatype LayoutRequest = LayoutRequest(records: seq<WeatherData>, unit: Unit, mode: InstructionMode)

  const LayoutErrorMessage := "Failed to generate UI layout from AI. The model may have returned an unexpected format."

  // ---------------------------------------------------------------------------
  // Layout

  /** `generateUiLayout`: `generate` is the model call (its text or its error) and `parse`
      is `JSON.parse` (`None` when it throws). The layout is returned exactly as parsed
      when it passes the check; any failure becomes the one fixed error. */
  function GenerateUiLayout(records: seq<WeatherData>, userPrompt: string, unit: Unit,
                            generate: LayoutRequest -> Result<string, string>,
                            parse: string -> Option<Json>): (r: Result<Json, string>)
    ensures var response := generate(LayoutRequest(records, unit, Instructions(userPrompt)));
            && (r.Success? <==>
                  response.Success? && parse(Trim(response.value)).Some? && IsValidLayout(parse(Trim(response.value)).value))
            && (r.Success? ==> r.value == parse(Trim(response.value)).value)
    ensures r.Failure? ==> r.error == LayoutErrorMessage
  {
    match generate(LayoutRequest(records, unit, Instructions(userPrompt)))
    case Failure(_) => Failure(LayoutErrorMessage)
    case Success(text) =>
      match parse(Trim(text))
      case None => Failure(LayoutErrorMessage)
      case Some(layout) =>
        if !IsValidLayout(layout) then Failure(LayoutErrorMessage) else Success(layout)
  }

  /** Whitespace around the model's text makes no difference: it is trimmed before parsing. */
  lemma PaddingIgnored(records: seq<WeatherData>, userPrompt: string, unit: Unit,
                       generate: LayoutRequest -> Result<string, string>, parse: string -> Option<Json>,
                       pre: string, text: string, post: string)
    requires AllWhitespace(pre) && AllWhitespace(post)
    requires text == [] || (!IsWhitespace(text[0]) && !IsWhitespace(text[|text| - 1]))
    requires generate(LayoutRequest(records, unit, Instructions(userPrompt))) == Success(pre + text + post)
    ensures GenerateUiLayout(records, userPrompt, unit, generate, parse) ==
              if parse(text).Some? && IsValidLayout(parse(text).value) then Success(parse(text).value)
              else Failure(LayoutErrorMessage)
  {
    TrimPadded(pre, text, post);
  }

  /** `{"blurb":"x","imagePrompt":"y","uiComponents":[]}` passes the check and
      `{"blurb":"x"}` does not; nor does an empty blurb or a non-array component list. */
  lemma LayoutExamples()
    ensures IsValidLayout(JObject(map["blurb" := JString("x"), "imagePrompt" := JString("y"), "uiComponents" := JArray([])]))
    ensures !IsValidLayout(JObject(map["blurb" := JString("x")]))
    ensures !IsValidLayout(JObject(map["blurb" := JString(""), "imagePrompt" := JString("y"), "uiComponents" := JArray([])]))
    ensures !IsValidLayout(JObject(map["blurb" := JString("x"), "imagePrompt" := JString("y"), "uiComponents" := JObject(map[])]))
    ensures !IsValidLayout(JArray([]))
  {
  }

  // ---------------------------------------------------------------------------
  // The layout as JSON

  function StringArray(xs: seq<string>): (j: Json)
    ensures j.JArray? && |j.items| == |xs|
  {
    JArray(seq(|xs|, i requires 0 <= i < |xs| => JString(xs[i])))
  }

  /** A component as the response schema describes it: `type`, `title` and the `props`
      its tag uses. */
  function ComponentJson(c: UiComponentConfig): Json {
    match c
    case TableComponent(title, cities, dataKeys) =>
      JObject(map["type" := JString("TABLE"), "title" := JString(title),
                  "props" := JObject(map["cities" := StringArray(cities), "dataKeys" := StringArray(dataKeys)])])
    case CardComponent(title, cities) =>
      JObject(map["type" := JString("CARD"), "title" := JString(title),
                  "props" := JObject(map["cities" := StringArray(cities)])])
    case BarChartComponent(title, dataKeys) =>
      JObject(map["type" := JString("BAR_CHART"), "title" := JString(title),
                  "props" := JObject(map["dataKeys" := StringArray(dataKeys)])])
    case LineChartComponent(title, x, y, cities, limitDays) =>
      var props := map["xAxisKey" := JString(x), "yAxisKey" := JString(y), "cities" := StringArray(cities)];
      JObject(map["type" := JString("LINE_CHART"), "title" := JString(title),
                  "props" := JObject(if limitDays.Some? then props["limitDays" := JNumber(limitDays.value as real)] else props)])
    case ScatterChartComponent(title, x, y, z) =>
      JObject(map["type" := JString("SCATTER_CHART"), "title" := JString(title),
                  "props" := JObject(map["xAxisKey" := JString(x), "yAxisKey" := JString(y), "zAxisKey" := JString(z)])])
  }

  /** A layout as the response schema describes it. */
  function LayoutJson(layout: GeneratedLayout): Json {
    JObject(map[
      "blurb" := JString(layout.blurb),
      "imagePrompt" := JString(layout.imagePrompt),
      "uiComponents" := JArray(seq(|layout.uiComponents|, i requires 0 <= i < |layout.uiComponents| =>
                                   ComponentJson(layout.uiComponents[i])))])
  }

  /** A layout written out as the schema describes passes the check iff its blurb and its
      image prompt are non-empty: the check looks at nothing else, not even the components. */
  lemma SchemaLayoutAccepted(layout: GeneratedLayout)
    ensures IsValidLayout(LayoutJson(layout)) <==> layout.blurb != "" && layout.imagePrompt != ""
  {
  }

  /** The check does not look inside the components: any array is accepted. */
  lemma ComponentsNotInspected(blurb: string, imagePrompt: string, items: seq<Json>)
    requires blurb != "" && imagePrompt != ""
    ensures IsValidLayout(JObject(map["blurb" := JString(blurb), "imagePrompt" := JString(imagePrompt),
                                      "uiComponents" := JArray(items)]))
  {
  }

  // ---------------------------------------------------------------------------
  // Image

  const ImageUrlPrefix := "data:image/jpeg;base64,"
  const ImageErrorMessage := "Failed to generate the weather visualization image."

  /** `generateImage`: `generate` is the image call, giving the base64 bytes of each
      generated image (none when the list is missing) or an error. */
  function GenerateImage(prompt: string, generate: string -> Result<seq<string>, string>): (r: Result<string, string>)
    ensures r.Success? <==> generate(prompt).Success? && |generate(prompt).value| > 0
    ensures r.Success? ==> r.value == ImageUrlPrefix + generate(prompt).value[0]
    ensures r.Failure? ==> r.error == ImageErrorMessage
  {
    match generate(prompt)
    case Failure(_) => Failure(ImageErrorMessage)
    case Success(images) =>
      if |images| > 0 then Success(ImageUrlPrefix + images[0]) else Failure(ImageErrorMessage)
  }

  /** The URL starts with the JPEG data-URL prefix and the first image's bytes can be
      read back from it, so different first images give different URLs. */
  lemma ImageUrlPayload(prompt: string, generate: string -> Result<seq<string>, string>)
    requires GenerateImage(prompt, generate).Success?
    ensures var url := GenerateImage(prompt, generate).value;
            && |url| >= |ImageUrlPrefix| && url[..|ImageUrlPrefix|] == ImageUrlPrefix
            && url[|ImageUrlPrefix|..] == generate(prompt).value[0]
  {
  }
}
