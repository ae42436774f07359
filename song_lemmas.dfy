/** Properties of generate_song_art and the summary cache, proved about the step functions
    that the Song methods are verified against. */
module SongLemmas {
  import opened Exceptions
  import opened External
  import opened Text
  import opened Gateway
  import opened SongModel

  /** generate_song_art keeps every invariant of the Song. */
  lemma GenerateSongArtKeepsValid(st: SongState, prompt: string, size: string, fmt: string,
                                  ai: Provider, lib: Libraries)
    requires ValidState(st)
    ensures ValidState(GenerateSongArtStep(st, prompt, size, fmt, ai, lib).state)
  {
    var p := ArtPromptStep(st, prompt, ai.complete);
    assert ValidState(p.state) by {
      if prompt == "" {
        var s := SmallSummaryStep(st, ai.complete);
        assert ValidState(s.state);
      }
    }
    if p.result.Ok? {
      var img := GenerateImg(p.result.value, size, fmt, ai.createImage);
      if img.result.Ok? {
        assert ValidState(StoreArt(p.state, img.result.value, lib).state);
      }
    }
  }

  /** generate_song_art changes nothing but the summary cache, art_url and _art_bin; the
      summary changes only to a fresh "sm" summary, and only when none was cached. A corollary
      of the frame clauses of GenerateSongArtStep and ArtPromptStep, stated as one fact. */
  lemma GenerateSongArtFrame(st: SongState, prompt: string, size: string, fmt: string,
                             ai: Provider, lib: Libraries)
    ensures var after := GenerateSongArtStep(st, prompt, size, fmt, ai, lib).state;
      && after == st.(lyricSummary := after.lyricSummary, artUrl := after.artUrl, artBin := after.artBin)
      && (after.lyricSummary != st.lyricSummary ==>
            prompt == "" && !HasSmallSummary(st) && after.lyricSummary.Some? && after.lyricSummary.value.size == "sm")
  {
  }

  /** With an empty prompt, a summary request is the first thing sent exactly when no
      summary tagged "sm" is cached. */
  lemma SummaryRecomputedIffNoSmallCache(st: SongState, size: string, fmt: string,
                                         ai: Provider, lib: Libraries)
    ensures var effects := GenerateSongArtStep(st, "", size, fmt, ai, lib).effects;
      (|effects| > 0 && effects[0] == Complete(SummaryRequest(st.lyrics, "sm"))) <==> !HasSmallSummary(st)
  {
    var effects := GenerateSongArtStep(st, "", size, fmt, ai, lib).effects;
    if HasSmallSummary(st) && |effects| > 0 {
      assert effects[0] == Complete(SceneRequest(LStrip(st.lyricSummary.value.themes, '\n')));
      SummaryAndSceneRequestsDiffer(st.lyrics, "sm", LStrip(st.lyricSummary.value.themes, '\n'));
    }
  }

  /** The image stage sends no completion request; it starts with the image request when the
      arguments pass and does nothing otherwise. A corollary of ImageStep's contract, in the
      form ArtEffectsAfterPrompt uses. */
  lemma ImageStageSendsNoCompletion(st: SongState, scene: string, size: string, fmt: string,
                                    ai: Provider, lib: Libraries)
    ensures var tail := ImageStep(st, scene, size, fmt, ai, lib).effects;
      && NoCompletions(tail)
      && (ImageRequestFor(scene, size, fmt).Ok? ==> |tail| > 0 && tail[0] == CreateImage(ImageRequestFor(scene, size, fmt).value))
      && (ImageRequestFor(scene, size, fmt).Err? ==> tail == [])
  {
  }

  /** After the prompt is settled, generate_song_art sends no completion request: its effects
      are those of the prompt stage followed by image and save effects only. */
  lemma ArtEffectsAfterPrompt(st: SongState, prompt: string, size: string, fmt: string,
                              ai: Provider, lib: Libraries)
    ensures var p := ArtPromptStep(st, prompt, ai.complete);
      var effects := GenerateSongArtStep(st, prompt, size, fmt, ai, lib).effects;
      && |p.effects| <= |effects|
      && effects[..|p.effects|] == p.effects
      && NoCompletions(effects[|p.effects|..])
      && (p.result.Ok? && ImageRequestFor(p.result.value, size, fmt).Ok? ==>
            |effects| > |p.effects| && effects[|p.effects|] == CreateImage(ImageRequestFor(p.result.value, size, fmt).value))
      && (p.result.Err? || ImageRequestFor(p.result.value, size, fmt).Err? ==> effects == p.effects)
  {
    var p := ArtPromptStep(st, prompt, ai.complete);
    var effects := GenerateSongArtStep(st, prompt, size, fmt, ai, lib).effects;
    if p.result.Ok? {
      var tail := ImageStep(p.state, p.result.value, size, fmt, ai, lib).effects;
      ImageStageSendsNoCompletion(p.state, p.result.value, size, fmt, ai, lib);
      assert effects == p.effects + tail;
      assert effects[|p.effects|..] == tail;
    }
  }

  /** The prompt stage with a cached "sm" summary: the cache is kept and the only request is
      the scene request for its stripped themes, which is skipped when they are empty. */
  lemma CachedSummaryPrompt(st: SongState, complete: CompletionRequest -> Reply<CompletionBody>)
    requires HasSmallSummary(st)
    ensures var p := ArtPromptStep(st, "", complete);
      var themes := LStrip(st.lyricSummary.value.themes, '\n');
      && p.state == st
      && p.effects == (if themes == "" then [] else [Complete(SceneRequest(themes))])
      && (themes == "" ==> p.result.Err?)
  {
    var d := Song.GetVisualDescription(LStrip(st.lyricSummary.value.themes, '\n'), complete);
    assert SmallSummaryStep(st, complete) == Step(st, Ok(st.lyricSummary.value), []);
    assert ArtPromptStep(st, "", complete) == Step(st, d.result, [] + d.effects);
  }

  /** Two logs of completion requests only append to one. */
  lemma OnlyCompletionsAppend(a: seq<Effect>, b: seq<Effect>)
    requires OnlyCompletions(a) && OnlyCompletions(b)
    ensures OnlyCompletions(a + b)
  {
    forall i | 0 <= i < |a + b|
      ensures (a + b)[i].Complete?
    {
      if i >= |a| {
        assert (a + b)[i] == b[i - |a|];
      }
    }
  }

  /** The effects of the prompt stage for an empty prompt: the summary stage's, then, when it
      succeeds, those of the scene description. */
  lemma PromptStageEffects(st: SongState, complete: CompletionRequest -> Reply<CompletionBody>)
    ensures var s := SmallSummaryStep(st, complete);
      ArtPromptStep(st, "", complete).effects
        == if s.result.Err? then s.effects
           else s.effects + Song.GetVisualDescription(LStrip(s.result.value.themes, '\n'), complete).effects
  {
  }

  /** The prompt stage sends completion requests only, and at most two of them: the summary
      request when one is needed, then the scene request. */
  lemma PromptStageSendsOnlyCompletions(st: SongState, prompt: string,
                                        complete: CompletionRequest -> Reply<CompletionBody>)
    ensures var p := ArtPromptStep(st, prompt, complete);
      OnlyCompletions(p.effects) && |p.effects| <= 2
  {
    if prompt == "" {
      var s := SmallSummaryStep(st, complete);
      PromptStageEffects(st, complete);
      SummaryStageSendsOneCompletion(st, complete);
      if s.result.Ok? {
        var themes := LStrip(s.result.value.themes, '\n');
        SceneStageSendsOneCompletion(themes, complete);
        OnlyCompletionsAppend(s.effects, Song.GetVisualDescription(themes, complete).effects);
      }
    }
  }

  /** The summary stage sends at most one request, a completion request. */
  lemma SummaryStageSendsOneCompletion(st: SongState, complete: CompletionRequest -> Reply<CompletionBody>)
    ensures var e := SmallSummaryStep(st, complete).effects;
      OnlyCompletions(e) && |e| <= 1
  {
  }

  /** get_visual_description sends at most one request, a completion request. */
  lemma SceneStageSendsOneCompletion(themes: string, complete: CompletionRequest -> Reply<CompletionBody>)
    ensures var e := Song.GetVisualDescription(themes, complete).effects;
      OnlyCompletions(e) && |e| <= 1
  {
  }

  /** A cached "sm" summary is reused: its themes, stripped of leading newlines, give the one
      and only completion request, and the cache is left as it was. */
  lemma SmallSummaryReused(st: SongState, size: string, fmt: string, ai: Provider, lib: Libraries)
    requires HasSmallSummary(st)
    ensures var step := GenerateSongArtStep(st, "", size, fmt, ai, lib);
      var themes := LStrip(st.lyricSummary.value.themes, '\n');
      && step.state.lyricSummary == st.lyricSummary
      && (step.effects == [] <==> themes == "")
      && (step.effects != [] ==> step.effects[0] == Complete(SceneRequest(themes)) && NoCompletions(step.effects[1..]))
  {
    var effects := GenerateSongArtStep(st, "", size, fmt, ai, lib).effects;
    var p := ArtPromptStep(st, "", ai.complete);
    CachedSummaryPrompt(st, ai.complete);
    ArtEffectsAfterPrompt(st, "", size, fmt, ai, lib);
    if p.effects != [] {
      assert effects[..1] == p.effects;
    }
  }

  /** The prompt stage with no usable cache and usable answers: one summary request, then one
      scene request; the "sm" summary is cached and the scene becomes the prompt. */
  lemma RecomputedSummaryPrompt(st: SongState, complete: CompletionRequest -> Reply<CompletionBody>,
                                themes: string, scene: string)
    requires !HasSmallSummary(st)
    requires complete(SummaryRequest(st.lyrics, "sm")) == Response(Choice(themes))
    requires LStrip(themes, '\n') != ""
    requires complete(SceneRequest(LStrip(themes, '\n'))) == Response(Choice(scene))
    ensures var p := ArtPromptStep(st, "", complete);
      && p.effects == [Complete(SummaryRequest(st.lyrics, "sm")), Complete(SceneRequest(LStrip(themes, '\n')))]
      && p.state == st.(lyricSummary := Some(LyricSummary("sm", themes)))
      && p.result == Ok(scene)
  {
    var s := SmallSummaryStep(st, complete);
    assert s.result == Ok(LyricSummary("sm", themes));
    assert s.effects == [Complete(SummaryRequest(st.lyrics, "sm"))];
    assert s.state == st.(lyricSummary := Some(LyricSummary("sm", themes)));
    var d := Song.GetVisualDescription(LStrip(themes, '\n'), complete);
    assert d == Call(Ok(scene), [Complete(SceneRequest(LStrip(themes, '\n')))]);
    assert ArtPromptStep(st, "", complete) == Step(s.state, d.result, s.effects + d.effects);
  }

  /** Art from the lyrics with no usable cache, when every provider answer is usable: exactly
      one summary request, then one scene request, then one image request, and the "sm"
      summary is cached. */
  lemma ArtFromLyricsCallOrder(st: SongState, size: string, fmt: string, ai: Provider, lib: Libraries,
                               themes: string, scene: string)
    requires !HasSmallSummary(st)
    requires ai.complete(SummaryRequest(st.lyrics, "sm")) == Response(Choice(themes))
    requires LStrip(themes, '\n') != ""
    requires ai.complete(SceneRequest(LStrip(themes, '\n'))) == Response(Choice(scene))
    requires scene != "" && size in ImageSizes && fmt in ImageFormats
    ensures var step := GenerateSongArtStep(st, "", size, fmt, ai, lib);
      && |step.effects| >= 3
      && step.effects[0] == Complete(SummaryRequest(st.lyrics, "sm"))
      && step.effects[1] == Complete(SceneRequest(LStrip(themes, '\n')))
      && step.effects[2] == CreateImage(ImageRequest(scene, 1, ImageSizes[size], fmt))
      && NoCompletions(step.effects[3..])
      && step.state.lyricSummary == Some(LyricSummary("sm", themes))
  {
    var p := ArtPromptStep(st, "", ai.complete);
    RecomputedSummaryPrompt(st, ai.complete, themes, scene);
    ArtEffectsAfterPrompt(st, "", size, fmt, ai, lib);
    var step := GenerateSongArtStep(st, "", size, fmt, ai, lib);
    assert step.effects[..2] == p.effects;
    assert step.effects[3..] == step.effects[2..][1..];
    assert step.state.lyricSummary == p.state.lyricSummary by {
      GenerateSongArtFrame(st, "", size, fmt, ai, lib);
      var i := ImageStep(p.state, scene, size, fmt, ai, lib);
      assert step.state == i.state;
    }
  }

  /** With a prompt of the caller's, no completion request is made and the summary cache is
      untouched; the first request sent, if any, is the image request for that prompt. */
  lemma GivenPromptSkipsText(st: SongState, prompt: string, size: string, fmt: string,
                             ai: Provider, lib: Libraries)
    requires prompt != ""
    ensures var step := GenerateSongArtStep(st, prompt, size, fmt, ai, lib);
      && NoCompletions(step.effects)
      && step.state.lyricSummary == st.lyricSummary
      && (step.effects == [] <==> ImageRequestFor(prompt, size, fmt).Err?)
      && (step.effects != [] ==> step.effects[0] == CreateImage(ImageRequestFor(prompt, size, fmt).value))
  {
    var step := GenerateSongArtStep(st, prompt, size, fmt, ai, lib);
    var img := GenerateImg(prompt, size, fmt, ai.createImage);
    if img.result.Ok? {
      var stored := StoreArt(st, img.result.value, lib);
      assert step.effects == img.effects + stored.effects;
    }
  }

  /** A url in the image data is stored, whether or not b64_json is present too, for the
      caller's prompt and for the one built from the lyrics alike. */
  lemma UrlTakesPrecedence(st: SongState, prompt: string, size: string, fmt: string,
                           ai: Provider, lib: Libraries, url: string, b64: Option<string>)
    requires var p := ArtPromptStep(st, prompt, ai.complete);
      && p.result.Ok? && ImageRequestFor(p.result.value, size, fmt).Ok?
      && ai.createImage(ImageRequestFor(p.result.value, size, fmt).value) == Response(ImageData(Some(url), b64))
    ensures var p := ArtPromptStep(st, prompt, ai.complete);
      GenerateSongArtStep(st, prompt, size, fmt, ai, lib)
        == Step(p.state.(artUrl := Some(url)), Ok(()),
                p.effects + [CreateImage(ImageRequestFor(p.result.value, size, fmt).value)])
  {
  }

  /** A b64_json payload that does not decode raises ValueError before anything is saved,
      and the image stage changes nothing, whatever the prompt. */
  lemma UndecodableArtRejected(st: SongState, prompt: string, size: string, fmt: string,
                               ai: Provider, lib: Libraries, b64: string)
    requires var p := ArtPromptStep(st, prompt, ai.complete);
      && p.result.Ok? && ImageRequestFor(p.result.value, size, fmt).Ok?
      && ai.createImage(ImageRequestFor(p.result.value, size, fmt).value) == Response(ImageData(None, Some(b64)))
    requires lib.b64decode(b64).None?
    ensures var p := ArtPromptStep(st, prompt, ai.complete);
      GenerateSongArtStep(st, prompt, size, fmt, ai, lib)
        == Step(p.state, Err(ValueError), p.effects + [CreateImage(ImageRequestFor(p.result.value, size, fmt).value)])
  {
  }

  /** A decoded payload is kept in _art_bin and handed to the save step; art_url stays. The
      bytes stay in _art_bin even when the save raises. */
  lemma DecodedArtSaved(st: SongState, prompt: string, size: string, fmt: string,
                        ai: Provider, lib: Libraries, b64: string, bin: Bytes)
    requires var p := ArtPromptStep(st, prompt, ai.complete);
      && p.result.Ok? && ImageRequestFor(p.result.value, size, fmt).Ok?
      && ai.createImage(ImageRequestFor(p.result.value, size, fmt).value) == Response(ImageData(None, Some(b64)))
    requires lib.b64decode(b64) == Some(bin)
    ensures var p := ArtPromptStep(st, prompt, ai.complete);
      var req := ImageRequestFor(p.result.value, size, fmt).value;
      var step := GenerateSongArtStep(st, prompt, size, fmt, ai, lib);
      && step.state == p.state.(artBin := Some(bin))
      && step.effects == p.effects + [CreateImage(req)] + (if bin == [] then [] else [SavePng(ArtFile, bin)])
      && (step.result.Ok? <==> bin != [] && lib.savePng(bin))
      && (step.result.Err? ==> step.result.error == (if bin == [] then ValueError else OSError))
  {
    var p := ArtPromptStep(st, prompt, ai.complete);
    var req := ImageRequestFor(p.result.value, size, fmt).value;
    var saved := Song.SaveArt(bin, lib);
    var i := ImageStep(p.state, p.result.value, size, fmt, ai, lib);
    assert StoreArt(p.state, ImageData(None, Some(b64)), lib) == Step(p.state.(artBin := Some(bin)), saved.result, saved.effects);
    assert i == Step(p.state.(artBin := Some(bin)), saved.result, [CreateImage(req)] + saved.effects);
  }

  /** A falsy image response, or data with neither key, raises ValueError and the image stage
      changes nothing, whatever the prompt. */
  lemma MissingArtRejected(st: SongState, prompt: string, size: string, fmt: string,
                           ai: Provider, lib: Libraries)
    requires var p := ArtPromptStep(st, prompt, ai.complete);
      && p.result.Ok? && ImageRequestFor(p.result.value, size, fmt).Ok?
      && ai.createImage(ImageRequestFor(p.result.value, size, fmt).value) in {Response(NoImage), Response(ImageData(None, None))}
    ensures var p := ArtPromptStep(st, prompt, ai.complete);
      GenerateSongArtStep(st, prompt, size, fmt, ai, lib)
        == Step(p.state, Err(ValueError), p.effects + [CreateImage(ImageRequestFor(p.result.value, size, fmt).value)])
  {
  }

  /** A summary recomputed on the way to the art is cached for good once the summary request
      is answered, whatever happens in the scene and image steps that follow. */
  lemma RecomputedSummarySurvivesLaterFailure(st: SongState, size: string, fmt: string,
                                              ai: Provider, lib: Libraries, themes: string)
    requires !HasSmallSummary(st)
    requires ai.complete(SummaryRequest(st.lyrics, "sm")) == Response(Choice(themes))
    ensures GenerateSongArtStep(st, "", size, fmt, ai, lib).state.lyricSummary == Some(LyricSummary("sm", themes))
  {
    var p := ArtPromptStep(st, "", ai.complete);
    assert p.state.lyricSummary == Some(LyricSummary("sm", themes)) by {
      var s := SmallSummaryStep(st, ai.complete);
      assert s.result == Ok(LyricSummary("sm", themes));
    }
  }

  /** art_url changes only on a successful call, and then to the url the provider returned. */
  lemma ArtUrlChangesOnlyOnSuccess(st: SongState, prompt: string, size: string, fmt: string,
                                   ai: Provider, lib: Libraries)
    ensures var step := GenerateSongArtStep(st, prompt, size, fmt, ai, lib);
      step.result.Err? ==> step.state.artUrl == st.artUrl
    ensures var step := GenerateSongArtStep(st, prompt, size, fmt, ai, lib);
      step.state.artUrl != st.artUrl ==>
        step.result.Ok? &&
        exists i :: 0 <= i < |step.effects| && step.effects[i].CreateImage?
                    && ai.createImage(step.effects[i].image).Response?
                    && ai.createImage(step.effects[i].image).body.ImageData?
                    && ai.createImage(step.effects[i].image).body.url == step.state.artUrl
  {
    var step := GenerateSongArtStep(st, prompt, size, fmt, ai, lib);
    if step.state.artUrl != st.artUrl {
      var p := ArtPromptStep(st, prompt, ai.complete);
      var img := GenerateImg(p.result.value, size, fmt, ai.createImage);
      var i := |p.effects|;
      assert step.effects[i] == img.effects[0];
    }
  }

  /** A successful get_lyric_summary replaces the cache outright: the earlier summary, of
      whatever size, leaves no trace. */
  lemma SummaryReplacesCache(st: SongState, size: string, complete: CompletionRequest -> Reply<CompletionBody>,
                             themes: string)
    requires size in SummarySizes
    requires complete(SummaryRequest(st.lyrics, size)) == Response(Choice(themes))
    ensures Cached(st, LyricSummaryOf(st.lyrics, size, complete).result)
      == st.(lyricSummary := Some(LyricSummary(size, themes)))
  {
  }

  /** A failed get_lyric_summary leaves the cached summary as it was: the failure clause of
      Cached, instantiated at LyricSummaryOf. */
  lemma FailedSummaryKeepsCache(st: SongState, size: string, complete: CompletionRequest -> Reply<CompletionBody>)
    requires LyricSummaryOf(st.lyrics, size, complete).result.Err?
    ensures Cached(st, LyricSummaryOf(st.lyrics, size, complete).result) == st
  {
  }

  /** The size and format a valid Song holds always pass generate_img's checks, so with the
      Song's own settings only an empty prompt is rejected. */
  lemma SongSettingsPassImageChecks(st: SongState, prompt: string)
    requires ValidState(st)
    ensures ImageRequestFor(prompt, st.size, st.imgFormat).Ok? <==> prompt != ""
  {
    assert SongSizes == ImageSizes.Keys;
  }
}
