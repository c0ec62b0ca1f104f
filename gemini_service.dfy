/** services/geminiService.ts: the lazily created API client, the encoding of
    the reference image as a request part, the composed prompt, the ordered
    request parts and the scan of the response for the first inline image.
    The network call itself is not modelled: its reply (a response or a
    transport failure) is a parameter. */
module GeminiService {
  import opened Types
  import Text
  import Constants

  /** The SDK client handle; all that matters about it is the key it was built with. */
  datatype Client = Client(apiKey: string)

  datatype InlineData = InlineData(mimeType: string, data: string)

  /** One part of a response candidate's content. */
  datatype ResponsePart = ResponsePart(text: Option<string>, inlineData: Option<InlineData>)

  datatype Content = Content(parts: Option<seq<ResponsePart>>)

  datatype Candidate = Candidate(content: Option<Content>)

  datatype Response = Response(candidates: Option<seq<Candidate>>)

  /** One content part of a request. An image part's `data` is None when the
      encoder's `split(',')[1]` found no second field (JavaScript `undefined`). */
  datatype RequestPart = ImagePart(data: Option<string>, mimeType: string) | TextPart(text: string)

  datatype Request = Request(model: string, parts: seq<RequestPart>)

  /** The errors generateStyledImage throws, by cause. */
  datatype ServiceError =
    | MissingApiKey       // getAiClient: no key in the environment
    | ReadFailed          // FileReader rejected
    | RemoteFailed(cause: string)  // generateContent rejected
    | NoCandidates
    | MalformedResponse   // candidates[0].content or its parts missing (a TypeError in the source)
    | NoImageData

  // ---------------------------------------------------------------------------
  // The lazy client handle

  /** `process.env.API_KEY` is truthy: present and not the empty string. */
  predicate KeyPresent(apiKey: Option<string>) {
    apiKey.Some? && apiKey.value != ""
  }

  /** What getAiClient returns for the handle it finds and the environment's key. */
  function ClientFor(handle: Option<Client>, apiKey: Option<string>): Result<Client, ServiceError> {
    if handle.Some? then Success(handle.value)
    else if !KeyPresent(apiKey) then Failure(MissingApiKey)
    else Success(Client(apiKey.value))
  }

  /** The handle getAiClient leaves behind. */
  function ClientAfter(handle: Option<Client>, apiKey: Option<string>): Option<Client> {
    if handle.None? && KeyPresent(apiKey) then Some(Client(apiKey.value)) else handle
  }

  /** getAiClient fails while the key is absent and leaves the handle unset;
      once the handle is set it is returned as it is, whatever the key is now. */
  lemma ClientLifecycle(handle: Option<Client>, apiKey: Option<string>, laterKey: Option<string>)
    ensures handle.None? && !KeyPresent(apiKey) ==>
      ClientFor(handle, apiKey) == Failure(MissingApiKey) && ClientAfter(handle, apiKey) == None
    ensures handle.None? && KeyPresent(apiKey) ==>
      ClientFor(handle, apiKey) == Success(Client(apiKey.value))
    ensures ClientFor(handle, apiKey).Success? <==> ClientAfter(handle, apiKey).Some?
    ensures ClientFor(handle, apiKey).Success? ==>
      ClientAfter(handle, apiKey) == Some(ClientFor(handle, apiKey).value)
    ensures ClientAfter(handle, apiKey).Some? ==>
      ClientAfter(ClientAfter(handle, apiKey), laterKey) == ClientAfter(handle, apiKey) &&
      ClientFor(ClientAfter(handle, apiKey), laterKey) == ClientFor(handle, apiKey)
  {
  }

  /** The handle after a series of getAiClient calls, one key reading each. */
  function ClientAfterAll(handle: Option<Client>, keys: seq<Option<string>>): Option<Client>
    decreases |keys|
  {
    if |keys| == 0 then handle else ClientAfterAll(ClientAfter(handle, keys[0]), keys[1..])
  }

  /** The handle is written at most once: after the first call that finds a
      key, every later call keeps it. */
  lemma {:induction false} ClientWrittenOnce(handle: Option<Client>, keys: seq<Option<string>>)
    requires handle.Some?
    ensures ClientAfterAll(handle, keys) == handle
    decreases |keys|
  {
    if |keys| > 0 {
      ClientWrittenOnce(ClientAfter(handle, keys[0]), keys[1..]);
    }
  }

  // ---------------------------------------------------------------------------
  // Encoding the reference image

  /** `base64String.split(',')[1]`: the second comma-separated field, or None
      (`undefined`) when there is no comma. */
  function PayloadOf(dataUrl: string): (r: Option<string>)
    ensures r.Some? ==> ',' !in r.value
    ensures r.None? <==> ',' !in dataUrl
  {
    Text.JoinSplit(dataUrl, ',');
    var fields := Text.Split(dataUrl, ',');
    if |fields| > 1 then Some(fields[1]) else None
  }

  /** For a data URL `prefix,payload` without further commas the payload is what follows the comma. */
  lemma PayloadOfDataUrl(prefix: string, payload: string)
    requires ',' !in prefix && ',' !in payload
    ensures PayloadOf(prefix + "," + payload) == Some(payload)
  {
    Text.SplitJoin([prefix, payload], ',');
    assert Text.Join([prefix, payload], ',') == prefix + "," + payload by {
      assert Text.Join([prefix, payload][1..], ',') == payload;
    }
  }

  /** fileToGenerativePart: the image part of a file, or the reader's failure. */
  function FileToGenerativePart(file: File): (r: Result<RequestPart, ServiceError>)
    ensures r.Failure? <==> file.contents.None?
    ensures r.Failure? ==> r.error == ReadFailed
    ensures r.Success? ==>
      r.value.ImagePart? && r.value.mimeType == file.mimeType && r.value.data == PayloadOf(file.contents.value)
  {
    match file.contents
    case None => Failure(ReadFailed)
    case Some(url) => Success(ImagePart(PayloadOf(url), file.mimeType))
  }

  // ---------------------------------------------------------------------------
  // The composed prompt

  const TASK_LEAD: string := "\n    Task: "
  const EDIT_TASK: string := "Edit the provided image"
  const GENERATE_TASK: string := "Generate an image"
  const PROMPT_LEAD: string := " based on the User Prompt and the Style Guide below.\n    \n    User Prompt: "
  const GUIDE_LEAD: string := "\n    \n    "
  const REQUIREMENTS: string :=
    "\n    \n    Requirements:\n"
    + "    - Strictly adhere to the visual language, color palette, and mood described in the Style Guide.\n"
    + "    - High quality, professional design output.\n"
    + "    - If editing: Maintain the subject matter but completely transform the style.\n  "

  /** The wording of the `Task:` line, chosen by whether a reference image is supplied. */
  function TaskPhrase(hasImage: bool): string {
    if hasImage then EDIT_TASK else GENERATE_TASK
  }

  /** Where the user prompt starts in the composed text. */
  function PromptOffset(hasImage: bool): nat {
    |TASK_LEAD + TaskPhrase(hasImage) + PROMPT_LEAD|
  }

  /** The `fullPrompt` template literal. */
  function FullPrompt(prompt: string, styleInstruction: string, hasImage: bool): string {
    TASK_LEAD + TaskPhrase(hasImage) + PROMPT_LEAD + prompt + GUIDE_LEAD + styleInstruction + REQUIREMENTS
  }

  /** The `Task:` line asks for an edit exactly when there is a reference image
      and for a fresh image otherwise; the user prompt and the style
      instruction appear verbatim, one after the other, at fixed offsets. */
  lemma FullPromptMeaning(prompt: string, styleInstruction: string, hasImage: bool)
    ensures var r := FullPrompt(prompt, styleInstruction, hasImage);
      && (hasImage <==> Text.StartsWith(r, TASK_LEAD + EDIT_TASK))
      && (!hasImage <==> Text.StartsWith(r, TASK_LEAD + GENERATE_TASK))
      && Text.OccursAt(r, prompt, PromptOffset(hasImage))
      && Text.OccursAt(r, styleInstruction, PromptOffset(hasImage) + |prompt| + |GUIDE_LEAD|)
  {
    var r := FullPrompt(prompt, styleInstruction, hasImage);
    var phrase := TaskPhrase(hasImage);
    Text.TemplatePieces(TASK_LEAD, phrase, PROMPT_LEAD, prompt, GUIDE_LEAD, styleInstruction, REQUIREMENTS);
    assert r[|TASK_LEAD|] == (TASK_LEAD + phrase)[|TASK_LEAD|] == phrase[0];
    assert (TASK_LEAD + EDIT_TASK)[|TASK_LEAD|] == 'E';
    assert (TASK_LEAD + GENERATE_TASK)[|TASK_LEAD|] == 'G';
  }

  /** The composed prompt contains the user prompt and the style instruction. */
  lemma FullPromptContains(prompt: string, styleInstruction: string, hasImage: bool)
    ensures Text.Contains(FullPrompt(prompt, styleInstruction, hasImage), prompt)
    ensures Text.Contains(FullPrompt(prompt, styleInstruction, hasImage), styleInstruction)
  {
    var r := FullPrompt(prompt, styleInstruction, hasImage);
    FullPromptMeaning(prompt, styleInstruction, hasImage);
    Text.ContainsAt(r, prompt, PromptOffset(hasImage));
    Text.ContainsAt(r, styleInstruction, PromptOffset(hasImage) + |prompt| + |GUIDE_LEAD|);
  }

  // ---------------------------------------------------------------------------
  // The request parts

  /** The parts list: the image part when there is one, then the text part. */
  function RequestParts(image: Option<RequestPart>, fullPrompt: string): (r: seq<RequestPart>)
    ensures |r| == if image.Some? then 2 else 1
    ensures r[|r| - 1] == TextPart(fullPrompt)
    ensures image.Some? ==> r[0] == image.value
  {
    (if image.Some? then [image.value] else []) + [TextPart(fullPrompt)]
  }

  // ---------------------------------------------------------------------------
  // Reading the response

  /** `data:<mime>;base64,<payload>`. */
  function DataUri(mimeType: string, data: string): (r: string)
    ensures Text.StartsWith(r, "data:")
  {
    "data:" + mimeType + ";base64," + data
  }

  /** The payload of a data URI built here is recovered by the image encoder's
      comma split, when neither the type nor the payload holds a comma. */
  lemma DataUriPayloadRoundTrip(mimeType: string, data: string)
    requires ',' !in mimeType && ',' !in data
    ensures PayloadOf(DataUri(mimeType, data)) == Some(data)
  {
    var prefix := "data:" + mimeType + ";base64";
    assert ',' !in prefix by {
      forall k | 0 <= k < |prefix| ensures prefix[k] != ',' {
        if k < 5 {
          assert prefix[k] == "data:"[k];
        } else if k < 5 + |mimeType| {
          assert prefix[k] == mimeType[k - 5];
        } else {
          assert prefix[k] == ";base64"[k - 5 - |mimeType|];
        }
      }
    }
    assert DataUri(mimeType, data) == prefix + "," + data;
    PayloadOfDataUrl(prefix, data);
  }

  /** Part `k` is the first part carrying inline data. */
  predicate IsFirstInline(parts: seq<ResponsePart>, k: int) {
    0 <= k < |parts| && parts[k].inlineData.Some?
    && forall j :: 0 <= j < k ==> parts[j].inlineData.None?
  }

  /** The inline data of the first part that has some. */
  function FirstInline(parts: seq<ResponsePart>): (r: Option<InlineData>)
    ensures r.None? <==> forall j :: 0 <= j < |parts| ==> parts[j].inlineData.None?
    ensures r.Some? ==> exists k :: IsFirstInline(parts, k) && r.value == parts[k].inlineData.value
  {
    if |parts| == 0 then None
    else if parts[0].inlineData.Some? then
      assert IsFirstInline(parts, 0);
      parts[0].inlineData
    else
      var r := FirstInline(parts[1..]);
      if r.Some? then
        var k :| IsFirstInline(parts[1..], k) && r.value == parts[1..][k].inlineData.value;
        assert IsFirstInline(parts, k + 1);
        r
      else
        assert forall j :: 1 <= j < |parts| ==> parts[j] == parts[1..][j - 1];
        r
  }

  /** The image reference generateStyledImage returns for a response, or the error it throws. */
  function ParseResponse(response: Response): Result<string, ServiceError> {
    if response.candidates.None? || |response.candidates.value| == 0 then Failure(NoCandidates)
    else
      var content := response.candidates.value[0].content;
      if content.None? || content.value.parts.None? then Failure(MalformedResponse)
      else
        match FirstInline(content.value.parts.value)
        case Some(d) => Success(DataUri(d.mimeType, d.data))
        case None => Failure(NoImageData)
  }

  /** The content parts of the first candidate, when the response has them. */
  function FirstCandidateParts(response: Response): Option<seq<ResponsePart>> {
    if response.candidates.None? || |response.candidates.value| == 0 then None
    else
      var content := response.candidates.value[0].content;
      if content.None? || content.value.parts.None? then None else content.value.parts
  }

  /** What the response scan promises: a missing or empty candidate list is an
      error; otherwise the result is the data URI of the first inline-data part
      of the first candidate, and no such part is an error. */
  lemma ParseResponseMeaning(response: Response)
    ensures (response.candidates.None? || |response.candidates.value| == 0) ==>
      ParseResponse(response) == Failure(NoCandidates)
    ensures ParseResponse(response).Success? ==>
      var parts := FirstCandidateParts(response).value;
      exists k :: IsFirstInline(parts, k) &&
        ParseResponse(response).value ==
          DataUri(parts[k].inlineData.value.mimeType, parts[k].inlineData.value.data)
    ensures FirstCandidateParts(response).Some? ==>
      (ParseResponse(response) == Failure(NoImageData) <==>
        forall j :: 0 <= j < |FirstCandidateParts(response).value| ==>
          FirstCandidateParts(response).value[j].inlineData.None?)
    ensures ParseResponse(response).Success? ==> Text.StartsWith(ParseResponse(response).value, "data:")
  {
    if FirstCandidateParts(response).Some? {
      var parts := FirstCandidateParts(response).value;
      var d := FirstInline(parts);
      if d.Some? {
        var k :| IsFirstInline(parts, k) && d.value == parts[k].inlineData.value;
        assert ParseResponse(response).value
          == DataUri(parts[k].inlineData.value.mimeType, parts[k].inlineData.value.data);
      }
    }
  }

  /** Candidates after the first play no part. */
  lemma ParseResponseIgnoresLaterCandidates(first: Candidate, later: seq<Candidate>)
    ensures ParseResponse(Response(Some([first] + later))) == ParseResponse(Response(Some([first])))
  {
  }

  /** Parts after the first inline-data part play no part. */
  lemma {:induction false} FirstInlineIgnoresLaterParts(parts: seq<ResponsePart>, later: seq<ResponsePart>)
    requires FirstInline(parts).Some?
    ensures FirstInline(parts + later) == FirstInline(parts)
  {
    if parts[0].inlineData.None? {
      assert (parts + later)[1..] == parts[1..] + later;
      FirstInlineIgnoresLaterParts(parts[1..], later);
    }
  }

  /** The `for (const part of responseParts)` scan with its early return. */
  method ExtractImage(response: Response) returns (r: Result<string, ServiceError>)
    ensures r == ParseResponse(response)
  {
    if response.candidates.None? || |response.candidates.value| == 0 {
      return Failure(NoCandidates);
    }
    var content := response.candidates.value[0].content;
    if content.None? || content.value.parts.None? {
      return Failure(MalformedResponse);
    }
    var parts := content.value.parts.value;
    var i := 0;
    while i < |parts|
      invariant 0 <= i <= |parts|
      invariant FirstInline(parts[i..]) == FirstInline(parts)
    {
      if parts[i].inlineData.Some? {
        var d := parts[i].inlineData.value;
        return Success(DataUri(d.mimeType, d.data));
      }
      assert parts[i..][1..] == parts[i + 1..];
      i := i + 1;
    }
    return Failure(NoImageData);
  }

  // ---------------------------------------------------------------------------
  // One generation call

  /** Everything one generateStyledImage call produces: its result, the request
      it sent (None when it failed before sending) and the client handle afterwards. */
  datatype CallOutcome = CallOutcome(result: Result<string, ServiceError>, sent: Option<Request>, client: Option<Client>)

  /** generateStyledImage as a function of the handle it finds, the
      environment's key, its arguments and the API's reply to its request. */
  function ServiceCall(handle: Option<Client>, apiKey: Option<string>, prompt: string,
                       styleInstruction: string, baseImage: Option<File>,
                       remote: Result<Response, string>): CallOutcome
  {
    var after := ClientAfter(handle, apiKey);
    if ClientFor(handle, apiKey).Failure? then CallOutcome(Failure(MissingApiKey), None, after)
    else if baseImage.Some? && FileToGenerativePart(baseImage.value).Failure? then
      CallOutcome(Failure(ReadFailed), None, after)
    else
      var image := if baseImage.Some? then Some(FileToGenerativePart(baseImage.value).value) else None;
      var request := Request(Constants.MODEL_NAME,
        RequestParts(image, FullPrompt(prompt, styleInstruction, baseImage.Some?)));
      match remote
      case Failure(cause) => CallOutcome(Failure(RemoteFailed(cause)), Some(request), after)
      case Success(response) => CallOutcome(ParseResponse(response), Some(request), after)
  }

  /** What a generation call sends: one request to MODEL_NAME whose last part is
      the composed prompt, preceded by the encoded reference image exactly when
      one is supplied. A result is only ever the parsed reply to that request;
      a missing key, and then an unreadable image, fail before anything is
      sent; a transport failure comes back as `RemoteFailed` with its cause. */
  lemma ServiceCallMeaning(handle: Option<Client>, apiKey: Option<string>, prompt: string,
                           styleInstruction: string, baseImage: Option<File>,
                           remote: Result<Response, string>)
    ensures var o := ServiceCall(handle, apiKey, prompt, styleInstruction, baseImage, remote);
      && o.client == ClientAfter(handle, apiKey)
      && (handle.None? && !KeyPresent(apiKey) ==> o.result == Failure(MissingApiKey) && o.sent.None?)
      && (o.sent.Some? ==>
            && o.sent.value.model == Constants.MODEL_NAME
            && |o.sent.value.parts| == (if baseImage.Some? then 2 else 1)
            && o.sent.value.parts[|o.sent.value.parts| - 1]
                 == TextPart(FullPrompt(prompt, styleInstruction, baseImage.Some?))
            && (baseImage.Some? ==>
                  o.sent.value.parts[0]
                    == ImagePart(PayloadOf(baseImage.value.contents.value), baseImage.value.mimeType)))
      && (o.result.Success? ==>
            o.sent.Some? && remote.Success? && o.result == ParseResponse(remote.value))
      && ((ClientFor(handle, apiKey).Success? && (baseImage.Some? ==> baseImage.value.contents.Some?))
            ==> o.sent.Some?)
      && (ClientFor(handle, apiKey).Success? && baseImage.Some? && baseImage.value.contents.None? ==>
            o.result == Failure(ReadFailed) && o.sent.None?)
      && (o.sent.Some? && remote.Failure? ==> o.result == Failure(RemoteFailed(remote.error)))
  {
  }

  /** The module-level `aiClient` variable and the calls that use it. */
  class ServiceState {
    var aiClient: Option<Client>

    constructor ()
      ensures aiClient == None
    {
      aiClient := None;
    }

    /** getAiClient. */
    method GetAiClient(apiKey: Option<string>) returns (r: Result<Client, ServiceError>)
      modifies this
      ensures r == ClientFor(old(aiClient), apiKey)
      ensures aiClient == ClientAfter(old(aiClient), apiKey)
    {
      if aiClient.None? {
        if !KeyPresent(apiKey) {
          return Failure(MissingApiKey);
        }
        aiClient := Some(Client(apiKey.value));
      }
      return Success(aiClient.value);
    }

    /** generateStyledImage; `remote` is the API's reply to the request it sends. */
    method GenerateStyledImage(prompt: string, styleInstruction: string, baseImage: Option<File>,
                               apiKey: Option<string>, remote: Result<Response, string>)
      returns (r: Result<string, ServiceError>, sent: Option<Request>)
      modifies this
      ensures CallOutcome(r, sent, aiClient)
        == ServiceCall(old(aiClient), apiKey, prompt, styleInstruction, baseImage, remote)
    {
      var ai := GetAiClient(apiKey);
      if ai.Failure? {
        return Failure(ai.error), None;
      }
      var fullPrompt := FullPrompt(prompt, styleInstruction, baseImage.Some?);
      var parts: seq<RequestPart> := [];
      if baseImage.Some? {
        var imagePart := FileToGenerativePart(baseImage.value);
        if imagePart.Failure? {
          return Failure(imagePart.error), None;
        }
        parts := parts + [imagePart.value];
      }
      parts := parts + [TextPart(fullPrompt)];
      assert parts == RequestParts(if baseImage.Some? then Some(FileToGenerativePart(baseImage.value).value) else None, fullPrompt);
      sent := Some(Request(Constants.MODEL_NAME, parts));
      if remote.Failure? {
        return Failure(RemoteFailed(remote.error)), sent;
      }
      r := ExtractImage(remote.value);
    }
  }
}
