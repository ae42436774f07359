/** What the core sees of the world around it: the AI provider, the libraries it calls,
    the file system, and the log of outward effects each operation performs. */
module External {
  import opened Exceptions

  type Bytes = seq<bv8>

  /** Path to the text `open(path, "r").read()` returns, decoded and with its line endings
      translated; a path that is absent cannot be opened (FileNotFoundError). */
  type Files = map<string, string>

  /** An `openai.Completion.create` request (temperature and top_p are not modelled). */
  datatype CompletionRequest = CompletionRequest(model: string, prompt: string, maxTokens: nat, n: nat)

  /** An `openai.Image.create` request. */
  datatype ImageRequest = ImageRequest(prompt: string, n: nat, size: string, responseFormat: string)

  /** A completion response: falsy, or one whose `choices[0]["text"]` is `text`. */
  datatype CompletionBody = NoCompletion | Choice(text: string)

  /** An image response: falsy, or one whose `data[0]` holds the keys present. */
  datatype ImageBody = NoImage | ImageData(url: Option<string>, b64Json: Option<string>)

  /** What a provider call gives back: it raises OpenAIError or returns a response. */
  datatype Reply<+T> = OpenAIError | Response(body: T)

  /** The provider's answer to every request it could be sent during one operation. */
  datatype Provider = Provider(
    complete: CompletionRequest -> Reply<CompletionBody>,
    createImage: ImageRequest -> Reply<ImageBody>)

  /** Library calls: `b64decode` (None when it raises binascii.Error), and whether PIL can
      open the bytes as an image and save them as a PNG file (false when it raises OSError). */
  datatype Libraries = Libraries(
    b64decode: string -> Option<Bytes>,
    savePng: Bytes -> bool)

  /** One outward interaction, in the order the core performs them. */
  datatype Effect =
    | Complete(completion: CompletionRequest)
    | CreateImage(image: ImageRequest)
    | SavePng(file: string, data: Bytes)

  /** The result of an operation together with the effects it performed. */
  datatype Call<+T> = Call(result: Result<T>, effects: seq<Effect>)

  /** True when no effect of the log sends a completion request. */
  predicate NoCompletions(effects: seq<Effect>)
  {
    forall i :: 0 <= i < |effects| ==> !effects[i].Complete?
  }

  /** True when every effect of the log is a completion request. */
  predicate OnlyCompletions(effects: seq<Effect>)
  {
    forall i :: 0 <= i < |effects| ==> effects[i].Complete?
  }
}
