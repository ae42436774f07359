# Musician's AI toolkit: the Song entity, verified

This project models the core of the musician's AI toolkit: the `Song` record that holds a
song's name, lyrics, preferred image size and image format, a cached lyric summary and the
artwork the AI provider returned, together with the AI utility functions it calls to build
and validate provider requests (`generate_img`, `summarize_lyrics`, `create_visual_descriptor`).

- `exceptions.dfy` (module `Exceptions`): the Python exceptions raised (`ValueError`,
  `RuntimeError`, `OSError`) and the `Result`/`Option` values that carry them.
- `external.dfy` (module `External`): the world outside the core. The provider is a pair of
  oracles, one per request kind, that either raise `OpenAIError` or return a response body;
  `b64decode` and PIL's open-and-save are oracles too; files are a map from path to the text `open(path, "r").read()` returns, already decoded and
  with its line endings translated.
  Every operation returns the log of effects it performed (completion requests, image
  requests, PNG save attempts), so "no request is sent" and "the summary request comes first" can
  be stated.
- `text.dfy` (module `Text`): `str.endswith` and `str.lstrip` as used by the core.
- `gateway.dfy` (module `Gateway`): the size table, the argument checks of `generate_img`,
  the exact summary and scene prompts, and the three request functions.
- `song.dfy` (module `SongModel`): class `Song` with fields updated in place and a `Valid()`
  invariant (lyrics non-empty, size in sm/md/lg, format in url/b64_json, a cached summary tagged
  sm or lg). Its setters, `add_lyrics` and `get_lyric_summary` either commit or raise and leave the object
  untouched; `generate_song_art` may raise after leaving a recomputed summary or decoded bytes
  behind (below).
  `GenerateSongArt` is the step-by-step method, in two halves as in the code (`SettleArtPrompt`
  then `StoreImage`); it is proved equal to the pure step function `GenerateSongArtStep`,
  built from `SmallSummaryStep` (reuse the cache if tagged "sm", else compute and cache one),
  `ArtPromptStep` (strip leading newlines from the themes and describe a scene), and
  `ImageStep` (`generate_img`, then `StoreArt`: the url / b64_json / error dispatch).
- `song_lemmas.dfy` (module `SongLemmas`): the cache policy, call order and result dispatch,
  proved about `GenerateSongArtStep`.

Behaviour of the code that the model keeps and the lemmas state:

- A failed art generation does not leave the Song untouched. A summary recomputed on the way
  is cached as soon as the summary request is answered, and stays cached when the scene or
  image step fails (`RecomputedSummarySurvivesLaterFailure`); decoded bytes are assigned to
  `_art_bin` before `save_art` runs, and stay there when it raises (`DecodedArtSaved`).
- The `name` setter accepts every string, the empty one included.
- A payload that does not decode and an `open_art` with no url stored both raise
  `ValueError` (a url never set raises `AttributeError`, see below).
- `generate_song_art` takes the size and format as arguments, defaulting to "sm" and "url";
  the interactive shell passes the Song's own fields. `SongSettingsPassImageChecks` shows the
  Song's fields always pass `generate_img`'s checks.
- The default arguments (`name="My Song"`, `get_lyric_summary(size="sm")`,
  `generate_song_art(prompt="", size="sm", img_format="url")`) are Dafny default parameters.

## Model

| member | source | states |
|---|---|---|
| Text.EndsWithIffStem | project.py:353 | the ".txt" check holds exactly when the path is some stem followed by the suffix |
| Text.LStrip | project.py:394 | the stripped themes are a suffix of the cached themes, do not start with a newline, and everything removed was a newline |
| Text.LStripIdempotent | project.py:394 | stripping twice equals stripping once; text without a leading newline is unchanged |
| Text.LStripPrefix | project.py:394 | any number of leading newlines in the cached themes yields the same scene themes |
| Gateway.SummaryPromptShape | project.py:548-565 | the summary prompt starts with the fixed instruction, carries " in five words or less" exactly for "sm", and ends with the lyrics verbatim |
| Gateway.SummaryPromptInjective | project.py:563-565 | the summary prompt determines the lyrics and whether the small size was asked for |
| Gateway.ScenePromptInjective | project.py:585 | the scene prompt is the fixed lead sentence followed by the themes, which it determines |
| Gateway.SummaryAndSceneRequestsDiffer | project.py:567-575 | a summary request (64 tokens) and a scene request (60 tokens) are never the same request |
| Gateway.ImageRequestFor | project.py:513-529 | generate_img accepts exactly a non-empty prompt, a size in sm/md/lg and a format in url/b64_json, raising ValueError otherwise; it requests n=1 at the size's resolution |
| Gateway.ImageResolutions | project.py:513-517 | sm, md and lg map to 256x256, 512x512 and 1024x1024, and to nothing else |
| Gateway.GenerateImg | project.py:506-532 | a rejected argument sends nothing; otherwise exactly one image request is sent, and a provider error becomes RuntimeError |
| Gateway.SummarizeLyrics | project.py:535-578 | a size other than sm/lg raises ValueError with nothing sent; otherwise one completion request carrying the summary prompt, and a provider error becomes RuntimeError |
| Gateway.CreateVisualDescriptor | project.py:581-598 | always one completion request carrying the scene prompt; a provider error becomes RuntimeError, any response is passed on |
| Gateway.RejectedImageArguments | test_project.py:51-67 | the rejected calls of the test suite raise ValueError and send nothing |
| SongModel.ReadLyricFile | project.py:350-357 | a path not ending in ".txt" raises ValueError whatever the files are; a missing file raises OSError; otherwise the text the file reads as |
| SongModel.LyricSummaryOf | project.py:454-469 | the size is checked before any request; success stores exactly the size asked for and the response text; a falsy response raises ValueError, a provider error RuntimeError |
| SongModel.Song.Loaded | project.py:295-299 | a Song whose lyrics are loaded starts with size "sm", format "url", and no summary or art |
| SongModel.Song.Create | project.py:295-299 | construction succeeds exactly when the ".txt" file exists and is non-empty; the Song then holds the given name (default "My Song"), the text the file reads as, "sm" and "url" |
| SongModel.Song.SetName | project.py:311-315 | every name is accepted, the empty one included, and nothing else changes |
| SongModel.Song.SetLyrics | project.py:321-326 | empty lyrics raise ValueError and keep the previous lyrics; other lyrics are stored |
| SongModel.Song.SetSize | project.py:332-336 | exactly sm/md/lg are accepted; anything else raises ValueError and leaves the Song unchanged |
| SongModel.Song.SetImgFormat | project.py:342-346 | exactly url/b64_json are accepted; anything else raises ValueError and leaves the Song unchanged |
| SongModel.Song.AddLyrics | project.py:350-357 | the suffix is checked before the read; on success the lyrics become the text the file reads as, on any failure the Song is unchanged |
| SongModel.Song.GetLyricSummary | project.py:454-469 | only a successful summary is committed, replacing the cache outright; the effects are those of LyricSummaryOf |
| SongModel.Song.GetVisualDescription | project.py:475-484 | empty themes raise ValueError with nothing sent; otherwise one scene request, a falsy response raising ValueError |
| SongModel.Song.SaveArt | project.py:438-452 | empty bytes raise ValueError and no save is attempted; otherwise one save attempt of song_art.png, raising OSError when PIL fails |
| SongModel.Song.SettleArtPrompt | project.py:382-399 | the new state, the prompt and the effects are those of ArtPromptStep: the cache is reused when tagged "sm", else recomputed through GetLyricSummary |
| SongModel.Song.StoreImage | project.py:403-427 | the new state, outcome and effects are those of StoreArt: url, else decoded b64_json then save, else ValueError |
| SongModel.Song.GenerateSongArt | project.py:372-427 | the method's new state, outcome and effects are those of GenerateSongArtStep, and the invariant is kept |
| SongModel.Song.OpenArt | project.py:429-436 | succeeds exactly when a non-empty url is stored, handing that url to the browser; otherwise ValueError |
| Gateway.SummaryHeader | project.py:548-565 | the instruction starts with the fixed lead sentence and ends with ":\n\n", and is longer by the five-words suffix exactly for "sm" |
| Gateway.SummaryPrompt | project.py:563-565 | the lyrics follow the instruction verbatim, so they can be read back from the prompt |
| Gateway.ScenePrompt | project.py:585 | the scene prompt is the lead sentence followed by the themes verbatim |
| Gateway.SummaryRequest | project.py:567-575 | the summary request asks text-davinci-003 for one completion of at most 64 tokens, carrying the summary prompt |
| Gateway.SceneRequest | project.py:587-595 | the scene request asks text-davinci-003 for one completion of at most 60 tokens, carrying the scene prompt |
| SongModel.Cached | project.py:461-469 | get_lyric_summary's new state: only the cache can change; a success stores the new summary, a failure changes nothing |
| SongModel.HasSmallSummary | project.py:385-388 | the cache is reused exactly when a summary is stored and its size is "sm" |
| SongModel.SmallSummaryStep | project.py:384-392 | a cached "sm" summary is reused with nothing sent; otherwise exactly the "sm" summary request is sent; a success is tagged "sm" and cached, a failure changes nothing |
| SongModel.ArtPromptStep | project.py:382-399 | a caller's prompt is used as is with nothing sent; only the cache can change, and only to an "sm" summary when none was cached |
| SongModel.StoreArt | project.py:403-427 | only art_url and _art_bin can change; art_url changes only on success, to the url of the data; the only effect is a save of song_art.png; a success needs image data with a url or a save |
| SongModel.ImageStep | project.py:401-427 | only art_url and _art_bin can change; a rejected argument raises ValueError with nothing sent; otherwise the image request comes first, and no completion request is sent |
| SongModel.GenerateSongArtStep | project.py:372-427 | only the cache, art_url and _art_bin can change; a failure of the prompt stage is the outcome, with nothing more sent |
| SongLemmas.GenerateSongArtKeepsValid | project.py:372-427 | art generation keeps every Song invariant |
| SongLemmas.GenerateSongArtFrame | project.py:382-427 | only the summary cache, art_url and _art_bin change; the cache changes only to a new "sm" summary when none tagged "sm" was cached |
| SongLemmas.SummaryRecomputedIffNoSmallCache | project.py:382-392 | with an empty prompt, a summary request is sent first exactly when no "sm" summary is cached |
| SongLemmas.ImageStageSendsNoCompletion | project.py:403-427 | the image stage sends no completion request, starts with the image request when the arguments pass, and does nothing otherwise |
| SongLemmas.ArtEffectsAfterPrompt | project.py:401-427 | after the prompt is settled only image and save effects follow, the first being the image request when the arguments pass |
| SongLemmas.PromptStageSendsOnlyCompletions | project.py:382-399 | for any prompt, the prompt stage sends completion requests only, at most two: the summary request when needed, then the scene request |
| SongLemmas.CachedSummaryPrompt | project.py:385-398 | with a cached "sm" summary the prompt stage keeps the state and sends only the scene request for the stripped themes, none when they are empty |
| SongLemmas.SmallSummaryReused | project.py:382-399 | a cached "sm" summary is reused: the cache stays and the only completion request is the scene request for its stripped themes |
| SongLemmas.RecomputedSummaryPrompt | project.py:382-399 | with no usable cache and usable answers the prompt stage sends the summary request then the scene request, caches the "sm" summary and yields the scene |
| SongLemmas.ArtFromLyricsCallOrder | project.py:382-403 | with no usable cache and usable answers: exactly one summary request, one scene request, then the image request, and the "sm" summary is cached |
| SongLemmas.GivenPromptSkipsText | project.py:382-403 | a caller's prompt sends no completion request and leaves the cache; the image request for that prompt comes first |
| SongLemmas.UrlTakesPrecedence | project.py:382-408 | for the caller's prompt or the one built from the lyrics, a url in the data is stored and succeeds whether or not b64_json is present; the image request follows the prompt stage's requests |
| SongLemmas.UndecodableArtRejected | project.py:382-417 | for any prompt, an undecodable b64_json raises ValueError before any save, and the image stage changes nothing |
| SongLemmas.DecodedArtSaved | project.py:382-419 | for any prompt, decoded bytes are kept in _art_bin and handed to the save step, which raises ValueError on empty bytes and OSError when the save attempt fails; art_url stays |
| SongLemmas.MissingArtRejected | project.py:382-427 | for any prompt, a falsy response or data with neither key raises ValueError and the image stage changes nothing |
| SongLemmas.RecomputedSummarySurvivesLaterFailure | project.py:382-392 | once the recomputed summary request is answered, the "sm" summary stays cached whatever the scene and image steps do |
| SongLemmas.ArtUrlChangesOnlyOnSuccess | project.py:403-408 | art_url is unchanged by a failed call, and changes only to the url of the image response |
| SongLemmas.SummaryReplacesCache | project.py:461-469 | a successful summary replaces the cache with exactly its size and text, whatever was cached before |
| SongLemmas.FailedSummaryKeepsCache | project.py:459-462 | a failed summary leaves any earlier cache intact |
| SongLemmas.SongSettingsPassImageChecks | project.py:332-346 | a valid Song's size and format always pass generate_img's checks, so only an empty prompt is rejected |

## Left out

- The provider calls themselves (`openai.Model.list`, `openai.Completion.create`,
  `openai.Image.create`): the provider is an oracle per request, which may raise; the model
  states what the Song does for every answer. `get_models_list` and `configure_api`
  (a reachability probe used only by the shell) are not modelled.
- A real provider may answer the same request differently on different calls; the oracle is
  fixed for the length of one operation only.
- The `temperature` and `top_p` request parameters: floating point, not modelled.
- Responses whose `choices` or `data` list is empty (an IndexError in the code): not modelled;
  the response bodies stand for the first element.
- `b64decode` and PIL `Image.open`/`save`: oracles, without modelling base64 or PNG.
- `webbrowser.open`, `load_dotenv`, environment variables, `time.sleep`: I/O; `OpenArt`
  returns the url the browser would be given.
- Reading a file that is not valid text (a decoding error): not modelled; a file either
  exists with its text or is missing.
- The newline translation of text-mode `open(lyric_file, "r")` ("\r\n" and "\r" read as
  "\n"): `Files` holds the text after translation, so a CRLF file is not stored byte for byte.
- The `print` calls of generate_song_art, save_art, get_visual_description and the error
  paths: console output, not part of the effect log.
- The `isinstance` checks of the setters: enforced by Dafny's types.
- The interactive shell (`main`, `prompt_user_action`, the menu actions, `parse_arguments`,
  `wait`, `hr`), `print_lyrics`, `__str__` and the empty stub `generate_lyric_suggestion`:
  console glue with no state of the Song's own.
- SongModel.Song.OpenArt: a url never set raises AttributeError in the code and an empty url
  raises ValueError; both are the single ValueError outcome here.
- SongModel.Song.Create: the half-built object that the code discards when loading fails is
  not modelled; a failed construction gives no Song.
