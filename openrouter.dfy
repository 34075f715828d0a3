/** The OpenRouter client (src/api/openrouter_client.py) without its HTTP
    transport: how the API key is chosen, the request headers, the MIME
    tables and the route a transcription takes, the request payloads, the
    classification of a response and the connection-test verdict. Every
    network call is replaced by the response it returns, passed in as an
    input; base64 encoding is an opaque string the caller supplies. */
module OpenRouter {
  import opened Wrappers
  import opened Strings
  import opened Files
  import opened Helpers
  import Config
  import PyText

  /** A parsed JSON body has the shape of a parsed settings value. */
  type Json = Config.Value

  const BaseUrl: string := "https://openrouter.ai/api/v1"

  // ---------------------------------------------------------------------
  // API key and headers

  /** `api_key or config.get("openrouter.api_key")`, and the constructor's
      refusal when neither is truthy; the key is used as `str()` renders
      it. */
  function ChooseApiKey(argument: Option<string>, config: Json): (r: Result<string>)
    ensures argument.Some? && argument.value != "" ==> r == Ok(argument.value)
    ensures !(argument.Some? && argument.value != "") ==>
      var v := Config.Get(config, "openrouter.api_key", Config.Null);
      (!Config.Truthy(v) ==> r == Failure(MissingKey))
      && (Config.Truthy(v) && PyText.Render(v).Some? ==> r == Ok(PyText.Render(v).value))
      && (r.Failure? <==> !Config.Truthy(v) || PyText.HasWideMapping(v))
  {
    if argument.Some? && argument.value != "" then Ok(argument.value)
    else
      var v := Config.Get(config, "openrouter.api_key", Config.Null);
      PyText.RenderDefined(v);
      if !Config.Truthy(v) then Failure(MissingKey)
      else match PyText.Render(v)
        case Some(s) => Ok(s)
        case None => Failure("unordered mapping as API key")
  }

  const MissingKey: string := "API key do OpenRouter não configurada"

  /** A truthy key from the settings is used whatever its type: a string
      as it is, a number or a list as Python prints it. */
  lemma ChooseApiKeyRenders(config: Json)
    requires Config.Get(config, "openrouter.api_key", Config.Null) == Config.List([Config.Str("key")])
    ensures ChooseApiKey(None, config) == Ok("['key']")
  {
    PyText.RenderList();
  }

  /** The bearer credential, per section 2.1 of RFC 6750. */
  function Bearer(apiKey: string): string {
    "Bearer " + apiKey
  }

  /** Reads the key back out of an Authorization value. */
  function BearerKey(authorization: string): Option<string> {
    if StartsWith(authorization, "Bearer ") then Some(authorization[7..]) else None
  }

  lemma BearerRoundTrip(apiKey: string)
    ensures BearerKey(Bearer(apiKey)) == Some(apiKey)
  {
    assert Bearer(apiKey)[..7] == "Bearer ";
  }

  /** `_get_headers` */
  function Headers(apiKey: string): (h: map<string, string>)
    ensures "Authorization" in h && BearerKey(h["Authorization"]) == Some(apiKey)
    ensures h.Keys == {"Authorization", "Content-Type", "HTTP-Referer", "X-Title"}
    ensures h["Content-Type"] == "application/json"
  {
    BearerRoundTrip(apiKey);
    map[
      "Authorization" := Bearer(apiKey),
      "Content-Type" := "application/json",
      "HTTP-Referer" := "https://github.com/voice-screen-assistant",
      "X-Title" := "Voice Screen Assistant"
    ]
  }

  // ---------------------------------------------------------------------
  // Responses

  /** An HTTP response: its status, its body parsed as JSON (`None` when it
      is not JSON) and its raw text. */
  datatype Response = Response(status: int, body: Option<Json>, text: string)

  /** What an `OpenRouterError` reports besides the status code. */
  datatype ErrorDetail =
    | InvalidJson(text: string)   // "Resposta inválida da API: <text>"
    | ErrorMessage(message: Json) // "Erro na API: <error.message>"
    | WholeBody(body: Json)       // "Erro na API: <str(body)>"

  /** The outcome of a call: the parsed body; an `OpenRouterError` with its
      status code; or another exception (the body or its `error` entry is
      not a mapping, or the reply lacks the expected fields). */
  datatype Reply = Data(body: Json) | ApiError(status: int, detail: ErrorDetail) | OtherError

  /** `_handle_response` */
  function HandleResponse(r: Response): (reply: Reply)
    ensures reply.Data? <==> r.body.Some? && r.status == 200
    ensures reply.Data? ==> reply.body == r.body.value
    ensures reply.ApiError? ==> reply.status == r.status && (r.status != 200 || r.body.None?)
    ensures r.body.None? ==> reply == ApiError(r.status, InvalidJson(r.text))
  {
    match r.body
    case None => ApiError(r.status, InvalidJson(r.text))
    case Some(data) =>
      if r.status == 200 then Data(data)
      else if !data.Dict? then OtherError
      else if "error" !in data.entries then ApiError(r.status, WholeBody(data))
      else
        var err := data.entries["error"];
        if !err.Dict? then OtherError
        else if "message" in err.entries then ApiError(r.status, ErrorMessage(err.entries["message"]))
        else ApiError(r.status, WholeBody(data))
  }

  /** A failing status with a mapping body is an `OpenRouterError` carrying
      that status: it quotes `error.message` when the body has one and the
      whole body otherwise. */
  lemma HandleResponseErrorText(r: Response)
    requires r.status != 200 && r.body.Some? && r.body.value.Dict?
    requires "error" !in r.body.value.entries || r.body.value.entries["error"].Dict?
    ensures HandleResponse(r).ApiError? && HandleResponse(r).status == r.status
    ensures var b := r.body.value.entries;
      HandleResponse(r).detail ==
        if "error" in b && "message" in b["error"].entries then ErrorMessage(b["error"].entries["message"])
        else WholeBody(r.body.value)
  {
  }

  /** `result["choices"][0]["message"]["content"]` */
  function ChoiceContent(body: Json): Option<string> {
    if body.Dict? && "choices" in body.entries && body.entries["choices"].List?
       && |body.entries["choices"].items| > 0
    then
      var first := body.entries["choices"].items[0];
      if first.Dict? && "message" in first.entries && first.entries["message"].Dict?
         && "content" in first.entries["message"].entries
         && first.entries["message"].entries["content"].Str?
      then Some(first.entries["message"].entries["content"].s)
      else None
    else None
  }

  /** A chat reply's text, or the error the call raises. */
  function ChatText(r: Response): Result<string> {
    match HandleResponse(r)
    case Data(body) =>
      (match ChoiceContent(body) case Some(t) => Ok(t) case None => Failure("malformed reply"))
    case ApiError(_, _) => Failure("OpenRouterError")
    case OtherError => Failure("malformed error body")
  }

  // ---------------------------------------------------------------------
  // Audio transcription

  const AudioMimes: map<string, string> := map[
    ".mp3" := "audio/mpeg", ".wav" := "audio/wav", ".m4a" := "audio/mp4",
    ".ogg" := "audio/ogg", ".webm" := "audio/webm"
  ]

  /** The audio MIME type of a file name: by lower-cased suffix, defaulting
      to audio/mpeg. */
  function AudioMime(fileName: string): string {
    var suffix := Lower(NameSuffix(fileName));
    if suffix in AudioMimes then AudioMimes[suffix] else "audio/mpeg"
  }

  /** `mime_type.split("/")[1]` */
  function Subtype(mime: string): string {
    var parts := Split(mime, '/');
    if |parts| > 1 then parts[1] else ""
  }

  /** The subtype of "type/sub" is "sub". */
  lemma SubtypeOf(t: string, sub: string)
    requires '/' !in t && '/' !in sub
    ensures Subtype(t + "/" + sub) == sub
  {
    JoinSplit([t, sub], '/');
    assert Join([t, sub], "/") == t + "/" + sub by {
      assert [t, sub][1..] == [sub];
    }
  }

  /** Every audio MIME type is "audio/" followed by the format the chat
      route sends. */
  lemma AudioFormat(fileName: string)
    ensures AudioMime(fileName) == "audio/" + Subtype(AudioMime(fileName))
  {
    var m := AudioMime(fileName);
    var sub := m[6..];
    assert m == "audio/mpeg" || m == "audio/wav" || m == "audio/mp4" || m == "audio/ogg" || m == "audio/webm";
    assert m == "audio" + "/" + sub;
    assert '/' !in "audio";
    SubtypeOf("audio", sub);
  }

  /** The request a transcription sends. */
  datatype AudioRequest =
    | WhisperForm(url: string, fileName: string, mime: string, model: string, language: string, authorization: string)
    | AudioChat(url: string, payload: Payload)

  /** `model or default` */
  function ChooseModel(argument: Option<string>, default: string): string {
    if argument.Some? && argument.value != "" then argument.value else default
  }

  /** The instruction sent with audio on the chat route. */
  function TranscribeInstruction(language: string): string {
    "Transcreva este áudio em " + language + ". Retorne apenas a transcrição, sem comentários."
  }

  /** `transcribe_audio`'s routing: the Whisper form upload exactly when
      the lower-cased model name contains "whisper", the chat route with
      the audio inline otherwise. */
  function TranscribeRequest(apiKey: string, fileName: string, audioData: string, model: string, language: string): (req: AudioRequest)
    ensures req.WhisperForm? <==> Contains(Lower(model), "whisper")
    ensures req.WhisperForm? ==> req.mime == AudioMime(fileName) && BearerKey(req.authorization) == Some(apiKey)
    ensures req.AudioChat? ==> req.payload.maxTokens == None && |req.payload.messages| == 1
  {
    var mime := AudioMime(fileName);
    BearerRoundTrip(apiKey);
    if Contains(Lower(model), "whisper") then
      WhisperForm(BaseUrl + "/audio/transcriptions", fileName, mime, model, language, Bearer(apiKey))
    else
      AudioChat(BaseUrl + "/chat/completions",
        Payload(model, [Message("user", Parts([AudioPart(audioData, Subtype(mime)), TextPart(TranscribeInstruction(language))]))], None))
  }

  /** On the chat route the audio part's format and the MIME type agree. */
  lemma TranscribeChatFormat(apiKey: string, fileName: string, audioData: string, model: string, language: string)
    requires !Contains(Lower(model), "whisper")
    ensures var req := TranscribeRequest(apiKey, fileName, audioData, model, language);
      req.AudioChat? && req.payload.messages[0].content.Parts?
      && req.payload.messages[0].content.parts[0] == AudioPart(audioData, Subtype(AudioMime(fileName)))
      && "audio/" + req.payload.messages[0].content.parts[0].format == AudioMime(fileName)
  {
    AudioFormat(fileName);
  }

  /** `result.get("text", "")` on a Whisper reply. */
  function WhisperText(r: Response): Result<string> {
    match HandleResponse(r)
    case Data(body) =>
      if !body.Dict? then Failure("malformed reply")
      else if "text" !in body.entries then Ok("")
      else if body.entries["text"].Str? then Ok(body.entries["text"].s)
      else Failure("malformed reply")
    case ApiError(_, _) => Failure("OpenRouterError")
    case OtherError => Failure("malformed error body")
  }

  /** `transcribe_audio` given whether the file exists and the response the
      request draws. */
  function TranscribeAudio(apiKey: string, fileName: string, found: bool, audioData: string,
                           model: string, language: string, response: Response): (r: Result<string>)
    ensures !found ==> r.Failure?
    ensures found && r.Ok? ==> HandleResponse(response).Data?
    ensures found && HandleResponse(response).Data? && response.body.value.Dict? && Contains(Lower(model), "whisper") ==>
      var m := response.body.value.entries;
      ("text" !in m ==> r == Ok(""))
      && ("text" in m && m["text"].Str? ==> r == Ok(m["text"].s))
    ensures found && HandleResponse(response).Data? && !Contains(Lower(model), "whisper") ==>
      (r.Ok? <==> ChoiceContent(response.body.value).Some?)
      && (r.Ok? ==> r.value == ChoiceContent(response.body.value).value)
  {
    if !found then Failure("Arquivo de áudio não encontrado: " + fileName)
    else match TranscribeRequest(apiKey, fileName, audioData, model, language)
      case WhisperForm(_, _, _, _, _, _) => WhisperText(response)
      case AudioChat(_, _) => ChatText(response)
  }

  // ---------------------------------------------------------------------
  // Payloads

  datatype Part = AudioPart(data: string, format: string) | ImagePart(url: string) | TextPart(text: string)
  datatype Content = Plain(text: string) | Parts(parts: seq<Part>)
  datatype Message = Message(role: string, content: Content)
  /** A chat-completions request body. */
  datatype Payload = Payload(model: string, messages: seq<Message>, maxTokens: Option<nat>)

  const ImageMimes: map<string, string> := map[
    ".jpg" := "image/jpeg", ".jpeg" := "image/jpeg", ".png" := "image/png",
    ".gif" := "image/gif", ".webp" := "image/webp"
  ]

  function ImageMime(fileName: string): string {
    var suffix := Lower(NameSuffix(fileName));
    if suffix in ImageMimes then ImageMimes[suffix] else "image/jpeg"
  }

  /** A data URL, per section 3 of RFC 2397. */
  function DataUrl(mime: string, data: string): string {
    "data:" + mime + ";base64," + data
  }

  /** Reads a data URL back into its MIME type and payload. */
  function ParseDataUrl(url: string): Option<(string, string)> {
    if !StartsWith(url, "data:") then None
    else
      var fields := Split(url[5..], ';');
      if |fields| == 2 && StartsWith(fields[1], "base64,") then Some((fields[0], fields[1][7..])) else None
  }

  /** The data URL gives back the MIME type and the payload it was made
      from (base64 text never contains ';'). */
  lemma DataUrlRoundTrip(mime: string, data: string)
    requires ';' !in mime && ';' !in data
    ensures ParseDataUrl(DataUrl(mime, data)) == Some((mime, data))
  {
    var url := DataUrl(mime, data);
    assert url[..5] == "data:";
    var rest := "base64," + data;
    assert url[5..] == mime + [';'] + rest;
    assert ';' !in rest by {
      forall k | 0 <= k < |rest| ensures rest[k] != ';' {
        if k >= 7 { assert rest[k] == data[k - 7]; }
      }
    }
    SplitFirst(mime, ';', rest);
    SplitNone(rest, ';');
    assert rest[..7] == "base64,";
  }

  /** `analyze_image`'s request body: the image inline, then the prompt,
      with at most 500 tokens in the reply. */
  function ImagePayload(fileName: string, imageData: string, prompt: string, model: string): (p: Payload)
    ensures p.maxTokens == Some(500) && |p.messages| == 1 && p.messages[0].role == "user"
    ensures p.messages[0].content == Parts([ImagePart(DataUrl(ImageMime(fileName), imageData)), TextPart(prompt)])
  {
    Payload(model, [Message("user", Parts([ImagePart(DataUrl(ImageMime(fileName), imageData)), TextPart(prompt)]))], Some(500))
  }

  /** The image MIME type is one of the table's, JPEG when unknown. */
  lemma ImageMimeDefault(fileName: string)
    ensures Lower(NameSuffix(fileName)) !in ImageMimes ==> ImageMime(fileName) == "image/jpeg"
    ensures ';' !in ImageMime(fileName)
  {
  }

  /** `generate_text`'s messages: a system message only for a non-empty
      system prompt, then exactly one user message. */
  function TextMessages(prompt: string, systemPrompt: Option<string>): (ms: seq<Message>)
    ensures 1 <= |ms| <= 2 && ms[|ms| - 1] == Message("user", Plain(prompt))
    ensures |ms| == 2 <==> systemPrompt.Some? && systemPrompt.value != ""
    ensures |ms| == 2 ==> ms[0] == Message("system", Plain(systemPrompt.value))
  {
    (if systemPrompt.Some? && systemPrompt.value != "" then [Message("system", Plain(systemPrompt.value))] else [])
    + [Message("user", Plain(prompt))]
  }

  function TextPayload(prompt: string, systemPrompt: Option<string>, model: string, maxTokens: nat): Payload {
    Payload(model, TextMessages(prompt, systemPrompt), Some(maxTokens))
  }

  /** The separator `generate_summary` puts between its prompt and the
      day's content. */
  const SummarySeparator: string := "\n\n---\nCONTEÚDO DO DIA:\n---\n\n"

  /** `generate_summary`'s full prompt. */
  function SummaryPrompt(prompt: string, content: string): string {
    prompt + SummarySeparator + content + "\n"
  }

  /** The content can be cut back out of the full prompt, knowing the
      prompt. */
  lemma SummaryPromptRoundTrip(prompt: string, content: string)
    ensures var full := SummaryPrompt(prompt, content);
      |full| == |prompt| + |SummarySeparator| + |content| + 1
      && full[..|prompt|] == prompt
      && full[|prompt| + |SummarySeparator|..|full| - 1] == content
      && full[|full| - 1] == '\n'
  {
    var full := SummaryPrompt(prompt, content);
    assert full == prompt + (SummarySeparator + content + "\n");
  }

  /** `custom_prompt is None`: only a missing prompt falls back to the
      configured one; an empty string is used as given. */
  function ChoosePrompt(custom: Option<string>, configured: string): string {
    match custom
    case Some(p) => p
    case None => configured
  }

  /** `generate_summary`'s request body: no system message, one user
      message with the full prompt, at most 3000 tokens. */
  function SummaryPayload(content: string, custom: Option<string>, configured: string, model: string): (p: Payload)
    ensures p.maxTokens == Some(3000)
    ensures p.messages == [Message("user", Plain(SummaryPrompt(ChoosePrompt(custom, configured), content)))]
  {
    TextPayload(SummaryPrompt(ChoosePrompt(custom, configured), content), None, model, 3000)
  }

  // ---------------------------------------------------------------------
  // test_connection

  /** `test_connection`: the reply to "Responda apenas: OK" passes when its
      upper-cased text contains "OK"; a call that raises fails. */
  function TestConnection(reply: Outcome): bool {
    match reply
    case Done(text) => Contains(Upper(text), "OK")
    case Raised(_) => false
  }

  /** The verdict holds exactly when "OK" occurs, case-insensitively, at
      some offset of the reply. */
  lemma TestConnectionIff(reply: Outcome)
    ensures TestConnection(reply) <==> reply.Done? && exists i :: OccursAt(Upper(reply.text), "OK", i)
  {
    if reply.Done? {
      ContainsAt(Upper(reply.text), "OK");
    }
  }

  /** The prompt `test_connection` sends and its token limit. */
  function TestPayload(model: string): Payload {
    TextPayload("Responda apenas: OK", None, model, 10)
  }
}
