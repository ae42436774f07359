/** The Song entity of project.py: a mutable record with validated setters, a cached lyric
    summary, and the orchestration that turns lyrics into artwork through the provider. */
module SongModel {
  import opened Exceptions
  import opened External
  import opened Text
  import opened Gateway

  /** The sizes and formats the Song's setters accept. */
  const SongSizes: set<string> := {"sm", "md", "lg"}
  const SongFormats: set<string> := {"url", "b64_json"}

  /** The default arguments of `Song(lyric_file, name)`, get_lyric_summary and
      generate_song_art. */
  const DefaultName := "My Song"
  const DefaultSummarySize := "sm"
  const DefaultArtSize := "sm"
  const DefaultArtFormat := "url"
  const LyricSuffix := ".txt"
  /** The fixed file save_art asks PIL to save. */
  const ArtFile := "song_art.png"

  /** The cached `lyric_summary` record. */
  datatype LyricSummary = LyricSummary(size: string, themes: string)

  /** The abstract value of a Song: its fields, with `lyric_summary`, `art_url` and `_art_bin`
      absent until first assigned. */
  datatype SongState = SongState(
    name: string,
    lyrics: string,
    size: string,
    imgFormat: string,
    lyricSummary: Option<LyricSummary>,
    artUrl: Option<string>,
    artBin: Option<Bytes>)

  /** The invariants the setters and methods maintain. */
  predicate ValidState(st: SongState)
  {
    && st.lyrics != ""
    && st.size in SongSizes
    && st.imgFormat in SongFormats
    && (st.lyricSummary.Some? ==> st.lyricSummary.value.size in SummarySizes)
  }

  /** The new state, the outcome and the effects of one Song operation. */
  datatype Step<+T> = Step(state: SongState, result: Result<T>, effects: seq<Effect>)

  /** The part of add_lyrics before the lyrics setter: the suffix check, then the read. */
  function ReadLyricFile(path: string, files: Files): (r: Result<string>)
    ensures !EndsWith(path, LyricSuffix) ==> r == Err(ValueError)
    ensures EndsWith(path, LyricSuffix) && path !in files ==> r == Err(OSError)
    ensures EndsWith(path, LyricSuffix) && path in files ==> r == Ok(files[path])
  {
    if !EndsWith(path, LyricSuffix) then Err(ValueError)
    else if path !in files then Err(OSError)
    else Ok(files[path])
  }

  /** The summary get_lyric_summary would store: the size is checked first, then one
      summary request is sent, and a falsy response raises ValueError. */
  function LyricSummaryOf(lyrics: string, size: string,
                          complete: CompletionRequest -> Reply<CompletionBody>): (r: Call<LyricSummary>)
    ensures r.effects == [] <==> size !in SummarySizes
    ensures r.effects != [] ==> r.effects == [Complete(SummaryRequest(lyrics, size))]
    ensures r.result.Ok? <==>
      size in SummarySizes && complete(SummaryRequest(lyrics, size)).Response?
      && complete(SummaryRequest(lyrics, size)).body.Choice?
    ensures r.result.Ok? ==>
      r.result.value == LyricSummary(size, complete(SummaryRequest(lyrics, size)).body.text)
    ensures r.result.Err? ==>
      r.result.error == (if size in SummarySizes && complete(SummaryRequest(lyrics, size)).OpenAIError?
                         then RuntimeError else ValueError)
  {
    if size !in SummarySizes then Call(Err(ValueError), [])
    else
      var c := SummarizeLyrics(lyrics, size, complete);
      match c.result
      case Err(e) => Call(Err(e), c.effects)
      case Ok(NoCompletion) => Call(Err(ValueError), c.effects)
      case Ok(Choice(themes)) => Call(Ok(LyricSummary(size, themes)), c.effects)
  }

  /** The state after get_lyric_summary: a successful summary replaces the cache outright,
      a failure leaves the state untouched. */
  function Cached(st: SongState, summary: Result<LyricSummary>): (r: SongState)
    ensures r.(lyricSummary := st.lyricSummary) == st
    ensures summary.Ok? ==> r.lyricSummary == Some(summary.value)
    ensures summary.Err? ==> r == st
  {
    if summary.Ok? then st.(lyricSummary := Some(summary.value)) else st
  }

  /** True when generate_song_art can reuse the cached summary. */
  predicate HasSmallSummary(st: SongState)
  {
    st.lyricSummary.Some? && st.lyricSummary.value.size == "sm"
  }

  /** The summary generate_song_art works from: the cache when it is tagged "sm", otherwise a
      freshly computed "sm" summary, which is committed to the cache when it succeeds. */
  function SmallSummaryStep(st: SongState, complete: CompletionRequest -> Reply<CompletionBody>): (r: Step<LyricSummary>)
    ensures HasSmallSummary(st) ==> r == Step(st, Ok(st.lyricSummary.value), [])
    ensures !HasSmallSummary(st) ==> r.effects == [Complete(SummaryRequest(st.lyrics, "sm"))]
    ensures r.result.Ok? ==> r.result.value.size == "sm" && r.state == st.(lyricSummary := Some(r.result.value))
    ensures r.result.Err? ==> r.state == st
  {
    if HasSmallSummary(st) then Step(st, Ok(st.lyricSummary.value), [])
    else
      var c := LyricSummaryOf(st.lyrics, "sm", complete);
      Step(Cached(st, c.result), c.result, c.effects)
  }

  /** The prompt generate_song_art hands to generate_img: the caller's, or the visual scene
      described from the "sm" summary's themes with leading newlines stripped. */
  function ArtPromptStep(st: SongState, prompt: string,
                         complete: CompletionRequest -> Reply<CompletionBody>): (r: Step<string>)
    ensures prompt != "" ==> r == Step(st, Ok(prompt), [])
    ensures r.state.(lyricSummary := st.lyricSummary) == st
    ensures r.state.lyricSummary != st.lyricSummary ==>
      prompt == "" && !HasSmallSummary(st) && r.state.lyricSummary.Some? && r.state.lyricSummary.value.size == "sm"
  {
    if prompt != "" then Step(st, Ok(prompt), [])
    else
      var s := SmallSummaryStep(st, complete);
      match s.result
      case Err(e) => Step(s.state, Err(e), s.effects)
      case Ok(summary) =>
        var d := Song.GetVisualDescription(LStrip(summary.themes, '\n'), complete);
        Step(s.state, d.result, s.effects + d.effects)
  }

  /** The dispatch on the image response: a url wins over b64_json, b64_json is decoded and
      then saved, anything else raises ValueError. */
  function StoreArt(st: SongState, body: ImageBody, lib: Libraries): (r: Step<()>)
    ensures r.state == st.(artUrl := r.state.artUrl, artBin := r.state.artBin)
    ensures r.state.artUrl != st.artUrl ==> r.result.Ok? && body.ImageData? && r.state.artUrl == body.url
    ensures r.effects == [] || (r.state.artBin.Some? && r.effects == [SavePng(ArtFile, r.state.artBin.value)])
    ensures r.result.Ok? ==> body.ImageData? && (body.url.Some? || r.effects != [])
  {
    match body
    case NoImage => Step(st, Err(ValueError), [])
    case ImageData(url, b64) =>
      if url.Some? then Step(st.(artUrl := url), Ok(()), [])
      else if b64.None? then Step(st, Err(ValueError), [])
      else match lib.b64decode(b64.value)
        case None => Step(st, Err(ValueError), [])
        case Some(bin) =>
          var saved := Song.SaveArt(bin, lib);
          Step(st.(artBin := Some(bin)), saved.result, saved.effects)
  }

  /** The image stage of generate_song_art: generate_img with the settled prompt, then the
      dispatch on its response. */
  function ImageStep(st: SongState, scene: string, size: string, imgFormat: string,
                     ai: Provider, lib: Libraries): (r: Step<()>)
    ensures r.state == st.(artUrl := r.state.artUrl, artBin := r.state.artBin)
    ensures ImageRequestFor(scene, size, imgFormat).Err? ==> r == Step(st, Err(ValueError), [])
    ensures ImageRequestFor(scene, size, imgFormat).Ok? ==>
      |r.effects| > 0 && r.effects[0] == CreateImage(ImageRequestFor(scene, size, imgFormat).value)
    ensures NoCompletions(r.effects)
  {
    var img := GenerateImg(scene, size, imgFormat, ai.createImage);
    match img.result
    case Err(e) => Step(st, Err(e), img.effects)
    case Ok(body) =>
      var stored := StoreArt(st, body, lib);
      Step(stored.state, stored.result, img.effects + stored.effects)
  }

  /** generate_song_art on a song in state `st`: the prompt stage, then the image stage. */
  function GenerateSongArtStep(st: SongState, prompt: string, size: string, imgFormat: string,
                               ai: Provider, lib: Libraries): (r: Step<()>)
    ensures r.state == st.(lyricSummary := r.state.lyricSummary, artUrl := r.state.artUrl, artBin := r.state.artBin)
    ensures var p := ArtPromptStep(st, prompt, ai.complete);
      p.result.Err? ==> r == Step(p.state, Err(p.result.error), p.effects)
  {
    var p := ArtPromptStep(st, prompt, ai.complete);
    match p.result
    case Err(e) => Step(p.state, Err(e), p.effects)
    case Ok(scene) =>
      var i := ImageStep(p.state, scene, size, imgFormat, ai, lib);
      Step(i.state, i.result, p.effects + i.effects)
  }

  class Song {
    var name: string
    var lyrics: string
    var size: string
    var imgFormat: string
    var lyricSummary: Option<LyricSummary>
    var artUrl: Option<string>
    var artBin: Option<Bytes>

    function State(): SongState
      reads this
    {
      SongState(name, lyrics, size, imgFormat, lyricSummary, artUrl, artBin)
    }

    predicate Valid()
      reads this
    {
      ValidState(State())
    }

    /** The object `__init__` produces once its lyrics are loaded. */
    constructor Loaded(name: string, lyrics: string)
      requires lyrics != ""
      ensures Valid()
      ensures State() == SongState(name, lyrics, "sm", "url", None, None, None)
    {
      this.name := name;
      this.lyrics := lyrics;
      this.size := "sm";
      this.imgFormat := "url";
      this.lyricSummary := None;
      this.artUrl := None;
      this.artBin := None;
    }

    /** `Song(lyric_file, name)`: the name is assigned, the lyrics file loaded (which may
        raise), and size and format default to "sm" and "url". */
    static method Create(lyricFile: string, files: Files, name: string := DefaultName) returns (r: Result<Song>)
      ensures r.Ok? <==> EndsWith(lyricFile, LyricSuffix) && lyricFile in files && files[lyricFile] != ""
      ensures r.Err? ==> r.error == (if EndsWith(lyricFile, LyricSuffix) && lyricFile !in files then OSError else ValueError)
      ensures r.Ok? ==> fresh(r.value) && r.value.Valid()
      ensures r.Ok? ==> r.value.State() == SongState(name, files[lyricFile], "sm", "url", None, None, None)
    {
      var contents := ReadLyricFile(lyricFile, files);
      if contents.Err? {
        return Err(contents.error);
      }
      if contents.value == "" {
        return Err(ValueError);
      }
      var s := new Song.Loaded(name, contents.value);
      return Ok(s);
    }

    /** The `name` setter: every string is accepted, the empty one included. */
    method SetName(newName: string)
      requires Valid()
      modifies this
      ensures Valid()
      ensures State() == old(State()).(name := newName)
    {
      name := newName;
    }

    /** The `lyrics` setter: empty lyrics raise ValueError and the old lyrics stay. */
    method SetLyrics(newLyrics: string) returns (r: Result<()>)
      requires Valid()
      modifies this
      ensures Valid()
      ensures r.Ok? <==> newLyrics != ""
      ensures r.Err? ==> r.error == ValueError
      ensures State() == if r.Ok? then old(State()).(lyrics := newLyrics) else old(State())
    {
      if newLyrics == "" {
        return Err(ValueError);
      }
      lyrics := newLyrics;
      return Ok(());
    }

    /** The `size` setter: exactly "sm", "md" and "lg" are accepted; anything else raises
        ValueError and the old size stays. */
    method SetSize(newSize: string) returns (r: Result<()>)
      requires Valid()
      modifies this
      ensures Valid()
      ensures r.Ok? <==> newSize in SongSizes
      ensures r.Err? ==> r.error == ValueError
      ensures State() == if r.Ok? then old(State()).(size := newSize) else old(State())
    {
      if newSize !in SongSizes {
        return Err(ValueError);
      }
      size := newSize;
      return Ok(());
    }

    /** The `img_format` setter: exactly "url" and "b64_json" are accepted; anything else
        raises ValueError and the old format stays. */
    method SetImgFormat(newFormat: string) returns (r: Result<()>)
      requires Valid()
      modifies this
      ensures Valid()
      ensures r.Ok? <==> newFormat in SongFormats
      ensures r.Err? ==> r.error == ValueError
      ensures State() == if r.Ok? then old(State()).(imgFormat := newFormat) else old(State())
    {
      if newFormat !in SongFormats {
        return Err(ValueError);
      }
      imgFormat := newFormat;
      return Ok(());
    }

    /** add_lyrics: a path not ending in ".txt" raises ValueError before any read; otherwise
        the text the file reads as becomes the lyrics, through the lyrics setter. */
    method AddLyrics(path: string, files: Files) returns (r: Result<()>)
      requires Valid()
      modifies this
      ensures Valid()
      ensures r.Ok? <==> EndsWith(path, LyricSuffix) && path in files && files[path] != ""
      ensures r.Err? ==> r.error == (if EndsWith(path, LyricSuffix) && path !in files then OSError else ValueError)
      ensures State() == if r.Ok? then old(State()).(lyrics := files[path]) else old(State())
    {
      var contents := ReadLyricFile(path, files);
      if contents.Err? {
        return Err(contents.error);
      }
      r := SetLyrics(contents.value);
    }

    /** get_lyric_summary: the size is checked before any request, and only a successful
        summary is stored, replacing whatever was cached. */
    method GetLyricSummary(ai: Provider, summarySize: string := DefaultSummarySize) returns (r: Result<()>, effects: seq<Effect>)
      requires Valid()
      modifies this
      ensures Valid()
      ensures var c := LyricSummaryOf(old(lyrics), summarySize, ai.complete);
        && r == c.result.Void()
        && effects == c.effects
        && State() == Cached(old(State()), c.result)
    {
      var c := LyricSummaryOf(lyrics, summarySize, ai.complete);
      effects := c.effects;
      if c.result.Err? {
        return Err(c.result.error), effects;
      }
      lyricSummary := Some(c.result.value);
      r := Ok(());
    }

    /** get_visual_description: empty themes raise ValueError before any request; otherwise
        the scene request is sent and a falsy response raises ValueError. */
    static function GetVisualDescription(themes: string,
                                         complete: CompletionRequest -> Reply<CompletionBody>): (r: Call<string>)
      ensures r.effects == [] <==> themes == ""
      ensures r.effects != [] ==> r.effects == [Complete(SceneRequest(themes))]
      ensures r.result.Ok? <==>
        themes != "" && complete(SceneRequest(themes)).Response? && complete(SceneRequest(themes)).body.Choice?
      ensures r.result.Ok? ==> r.result.value == complete(SceneRequest(themes)).body.text
      ensures r.result.Err? ==>
        r.result.error == (if themes != "" && complete(SceneRequest(themes)).OpenAIError? then RuntimeError else ValueError)
    {
      if themes == "" then Call(Err(ValueError), [])
      else
        var c := CreateVisualDescriptor(themes, complete);
        match c.result
        case Err(e) => Call(Err(e), c.effects)
        case Ok(NoCompletion) => Call(Err(ValueError), c.effects)
        case Ok(Choice(text)) => Call(Ok(text), c.effects)
    }

    /** save_art on the decoded bytes: empty bytes raise ValueError; otherwise one save attempt
        of the fixed file through PIL is logged, and its failure raises OSError. */
    static function SaveArt(bin: Bytes, lib: Libraries): (r: Call<()>)
      ensures r.effects == [] <==> bin == []
      ensures r.effects != [] ==> r.effects == [SavePng(ArtFile, bin)]
      ensures r.result.Ok? <==> bin != [] && lib.savePng(bin)
      ensures r.result.Err? ==> r.result.error == (if bin == [] then ValueError else OSError)
    {
      if bin == [] then Call(Err(ValueError), [])
      else Call(if lib.savePng(bin) then Ok(()) else Err(OSError), [SavePng(ArtFile, bin)])
    }

    /** The first half of generate_song_art: with no prompt given, make sure a "sm" summary is
        cached and describe a scene from its themes. */
    method SettleArtPrompt(prompt: string, ai: Provider) returns (r: Result<string>, effects: seq<Effect>)
      requires Valid()
      modifies this
      ensures Valid()
      ensures var p := ArtPromptStep(old(State()), prompt, ai.complete);
        State() == p.state && r == p.result && effects == p.effects
    {
      if prompt != "" {
        return Ok(prompt), [];
      }
      effects := [];
      if lyricSummary.None? || lyricSummary.value.size != "sm" {
        var summarized, sent := GetLyricSummary(ai);
        effects := sent;
        if summarized.Err? {
          return Err(summarized.error), effects;
        }
      }
      var themes := LStrip(lyricSummary.value.themes, '\n');
      var described := GetVisualDescription(themes, ai.complete);
      effects := effects + described.effects;
      r := described.result;
    }

    /** The second half of generate_song_art: store the image response, url first. */
    method StoreImage(body: ImageBody, lib: Libraries) returns (r: Result<()>, effects: seq<Effect>)
      requires Valid()
      modifies this
      ensures Valid()
      ensures var s := StoreArt(old(State()), body, lib);
        State() == s.state && r == s.result && effects == s.effects
    {
      effects := [];
      match body {
        case NoImage =>
          r := Err(ValueError);
        case ImageData(url, b64) =>
          if url.Some? {
            artUrl := url;
            r := Ok(());
          } else if b64.Some? {
            var bin := lib.b64decode(b64.value);
            if bin.None? {
              r := Err(ValueError);
            } else {
              artBin := bin;
              var saved := SaveArt(bin.value, lib);
              effects := saved.effects;
              r := saved.result;
            }
          } else {
            r := Err(ValueError);
          }
      }
    }

    /** generate_song_art: settle the prompt, request the image and store the result. */
    method GenerateSongArt(ai: Provider, lib: Libraries, prompt: string := "",
                           artSize: string := DefaultArtSize, artFormat: string := DefaultArtFormat)
      returns (r: Result<()>, effects: seq<Effect>)
      requires Valid()
      modifies this
      ensures Valid()
      ensures var step := GenerateSongArtStep(old(State()), prompt, artSize, artFormat, ai, lib);
        State() == step.state && r == step.result && effects == step.effects
    {
      var scene;
      scene, effects := SettleArtPrompt(prompt, ai);
      if scene.Err? {
        return Err(scene.error), effects;
      }
      var img := GenerateImg(scene.value, artSize, artFormat, ai.createImage);
      effects := effects + img.effects;
      if img.result.Err? {
        return Err(img.result.error), effects;
      }
      var stored, saved := StoreImage(img.result.value, lib);
      effects := effects + saved;
      r := stored;
    }

    /** open_art: fails with ValueError unless a non-empty url is stored; otherwise gives the
        url handed to the browser. */
    method OpenArt() returns (r: Result<string>)
      requires Valid()
      ensures r.Ok? <==> artUrl.Some? && artUrl.value != ""
      ensures r.Ok? ==> r.value == artUrl.value
      ensures r.Err? ==> r.error == ValueError
    {
      if artUrl.None? || artUrl.value == "" {
        return Err(ValueError);
      }
      return Ok(artUrl.value);
    }
  }
}
