/** The AI utility functions of project.py: input validation, request building and the
    translation of provider failures. The provider itself is an oracle (External.Provider). */
module Gateway {
  import opened Exceptions
  import opened External

  /** The `sizes` table of generate_img: image size name to DALL-E resolution. */
  const ImageSizes: map<string, string> := map["sm" := "256x256", "md" := "512x512", "lg" := "1024x1024"]

  /** The response formats generate_img accepts. */
  const ImageFormats: set<string> := {"url", "b64_json"}

  /** The summary sizes summarize_lyrics accepts. */
  const SummarySizes: set<string> := {"sm", "lg"}

  /** The completion model and token budgets of the two text requests. */
  const CompletionModel := "text-davinci-003"
  const SummaryMaxTokens: nat := 64
  const SceneMaxTokens: nat := 60

  const SummaryLead := "Summarize the themes in this song lyric"
  const SmallSummarySuffix := " in five words or less"
  const SceneLead := "Describe in detail, a visual scene based on the themes of "

  /** The instruction that precedes the lyrics in a summary prompt. */
  function SummaryHeader(size: string): (r: string)
    ensures |r| >= |SummaryLead| + 3 && r[..|SummaryLead|] == SummaryLead && r[|r| - 3..] == ":\n\n"
    ensures size == "sm" <==> |r| == |SummaryLead| + |SmallSummarySuffix| + 3
  {
    SummaryLead + (if size == "sm" then SmallSummarySuffix else "") + ":\n\n"
  }

  /** The summary prompt of summarize_lyrics. */
  function SummaryPrompt(lyrics: string, size: string): (r: string)
    ensures |r| == |SummaryHeader(size)| + |lyrics|
    ensures r[|SummaryHeader(size)|..] == lyrics
  {
    SummaryHeader(size) + lyrics
  }

  /** The visual-scene prompt of create_visual_descriptor. */
  function ScenePrompt(themes: string): (r: string)
    ensures |r| == |SceneLead| + |themes| && r[..|SceneLead|] == SceneLead && r[|SceneLead|..] == themes
  {
    SceneLead + themes
  }

  /** The summary request: one completion of at most 64 tokens from text-davinci-003. */
  function SummaryRequest(lyrics: string, size: string): (r: CompletionRequest)
    ensures r.model == CompletionModel && r.maxTokens == SummaryMaxTokens && r.n == 1
    ensures r.prompt == SummaryPrompt(lyrics, size)
  {
    CompletionRequest(CompletionModel, SummaryPrompt(lyrics, size), SummaryMaxTokens, 1)
  }

  /** The scene request: one completion of at most 60 tokens from text-davinci-003. */
  function SceneRequest(themes: string): (r: CompletionRequest)
    ensures r.model == CompletionModel && r.maxTokens == SceneMaxTokens && r.n == 1
    ensures r.prompt == ScenePrompt(themes)
  {
    CompletionRequest(CompletionModel, ScenePrompt(themes), SceneMaxTokens, 1)
  }

  /** The summary prompt sends the lyrics verbatim at its end, behind a header that asks for
      five words or less exactly for the small size. */
  lemma SummaryPromptShape(lyrics: string, size: string)
    ensures var p := SummaryPrompt(lyrics, size);
      && p[..|SummaryLead|] == SummaryLead
      && p[|p| - |lyrics|..] == lyrics
      && (size == "sm" ==> p[|SummaryLead|..|SummaryLead| + |SmallSummarySuffix|] == SmallSummarySuffix)
      && (size != "sm" ==> p[|SummaryLead|..|SummaryLead| + 3] == ":\n\n")
  {
    var p := SummaryPrompt(lyrics, size);
    assert p == SummaryLead + ((if size == "sm" then SmallSummarySuffix else "") + ":\n\n" + lyrics);
  }

  /** The summary prompt determines both the lyrics and whether "sm" was asked for. */
  lemma SummaryPromptInjective(a: string, s: string, b: string, t: string)
    requires SummaryPrompt(a, s) == SummaryPrompt(b, t)
    ensures a == b
    ensures s == "sm" <==> t == "sm"
  {
    var p := SummaryPrompt(a, s);
    var k := |SummaryLead|;
    assert p[k] == (if s == "sm" then ' ' else ':') by { SummaryPromptShape(a, s); }
    assert p[k] == (if t == "sm" then ' ' else ':') by { SummaryPromptShape(b, t); }
    assert SummaryHeader(s) == SummaryHeader(t);
    assert a == p[|SummaryHeader(s)|..];
  }

  /** The scene prompt is the lead sentence followed by the themes, which it determines. */
  lemma ScenePromptInjective(a: string, b: string)
    ensures ScenePrompt(a)[|SceneLead|..] == a
    ensures ScenePrompt(a) == ScenePrompt(b) ==> a == b
  {
    assert ScenePrompt(a)[|SceneLead|..] == a;
    assert ScenePrompt(b)[|SceneLead|..] == b;
  }

  /** A summary request and a scene request are never the same request. */
  lemma SummaryAndSceneRequestsDiffer(lyrics: string, size: string, themes: string)
    ensures SummaryRequest(lyrics, size) != SceneRequest(themes)
  {
  }

  /** The validated request generate_img sends: prompt, then size, then format are checked,
      each failure raising ValueError. */
  function ImageRequestFor(p: string, s: string, f: string): (r: Result<ImageRequest>)
    ensures r.Ok? <==> p != "" && s in ImageSizes && f in ImageFormats
    ensures r.Err? ==> r.error == ValueError
    ensures r.Ok? ==> r.value.prompt == p && r.value.n == 1 && r.value.responseFormat == f
    ensures r.Ok? ==> r.value.size == ImageSizes[s]
  {
    if p == "" then Err(ValueError)
    else if s !in ImageSizes then Err(ValueError)
    else if f !in ImageFormats then Err(ValueError)
    else Ok(ImageRequest(p, 1, ImageSizes[s], f))
  }

  /** The resolutions requested for the three sizes, which are distinct square sizes. */
  lemma ImageResolutions(p: string, f: string)
    requires p != "" && f in ImageFormats
    ensures ImageRequestFor(p, "sm", f).value.size == "256x256"
    ensures ImageRequestFor(p, "md", f).value.size == "512x512"
    ensures ImageRequestFor(p, "lg", f).value.size == "1024x1024"
    ensures ImageSizes.Keys == {"sm", "md", "lg"}
  {
  }

  /** generate_img: a rejected argument raises ValueError before any request; otherwise
      exactly one image request is sent and a provider error becomes RuntimeError. */
  function GenerateImg(p: string, s: string, f: string,
                       createImage: ImageRequest -> Reply<ImageBody>): (r: Call<ImageBody>)
    ensures r.effects == [] <==> ImageRequestFor(p, s, f).Err?
    ensures r.effects == [] ==> r.result == Err(ValueError)
    ensures r.effects != [] ==> r.effects == [CreateImage(ImageRequestFor(p, s, f).value)]
    ensures r.effects != [] ==>
      match createImage(r.effects[0].image)
      case OpenAIError => r.result == Err(RuntimeError)
      case Response(body) => r.result == Ok(body)
  {
    match ImageRequestFor(p, s, f)
    case Err(e) => Call(Err(e), [])
    case Ok(req) =>
      var res := match createImage(req)
        case OpenAIError => Err(RuntimeError)
        case Response(body) => Ok(body);
      Call(res, [CreateImage(req)])
  }

  /** summarize_lyrics: a size other than "sm" or "lg" raises ValueError with no request;
      otherwise one completion request carrying the summary prompt is sent. */
  function SummarizeLyrics(lyrics: string, size: string,
                           complete: CompletionRequest -> Reply<CompletionBody>): (r: Call<CompletionBody>)
    ensures size !in SummarySizes ==> r == Call(Err(ValueError), [])
    ensures size in SummarySizes ==> r.effects == [Complete(SummaryRequest(lyrics, size))]
    ensures size in SummarySizes ==>
      match complete(SummaryRequest(lyrics, size))
      case OpenAIError => r.result == Err(RuntimeError)
      case Response(body) => r.result == Ok(body)
  {
    if size !in SummarySizes then Call(Err(ValueError), [])
    else
      var req := SummaryRequest(lyrics, size);
      var res := match complete(req)
        case OpenAIError => Err(RuntimeError)
        case Response(body) => Ok(body);
      Call(res, [Complete(req)])
  }

  /** create_visual_descriptor: no validation of its own; one completion request carrying
      the scene prompt is sent. */
  function CreateVisualDescriptor(themes: string,
                                  complete: CompletionRequest -> Reply<CompletionBody>): (r: Call<CompletionBody>)
    ensures r.effects == [Complete(SceneRequest(themes))]
    ensures r.result.Err? <==> complete(SceneRequest(themes)).OpenAIError?
    ensures r.result.Err? ==> r.result.error == RuntimeError
    ensures r.result.Ok? ==> r.result.value == complete(SceneRequest(themes)).body
  {
    var req := SceneRequest(themes);
    var res := match complete(req)
      case OpenAIError => Err(RuntimeError)
      case Response(body) => Ok(body);
    Call(res, [Complete(req)])
  }

  /** The cases exercised by test_project.py: each raises ValueError. */
  lemma RejectedImageArguments(createImage: ImageRequest -> Reply<ImageBody>,
                               complete: CompletionRequest -> Reply<CompletionBody>)
    ensures GenerateImg("", "sm", "url", createImage) == Call(Err(ValueError), [])
    ensures GenerateImg("A cat in a hat", "big", "url", createImage) == Call(Err(ValueError), [])
    ensures GenerateImg("A cat in a hat", "sm", "web", createImage) == Call(Err(ValueError), [])
    ensures SummarizeLyrics("These are the lyrics", "big", complete) == Call(Err(ValueError), [])
  {
  }
}
