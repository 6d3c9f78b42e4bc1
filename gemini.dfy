/**
  The generation pipeline: the missing-key check, the ordered part list sent to
  the provider, the scan of the provider's reply for the first inline image, the
  data-URI result, the re-wrapping of every failure, and the data-URL splitting
  that turns a read file into inline image data. The provider itself is an
  opaque total function from the call it receives to its reply.
*/
module Gemini {

  import opened Wrappers
  import opened Types
  import opened JsString

  const MissingKeyMessage := "API Key is missing. Please configure it in the Admin Panel."
  const DefaultPrompt := "Enhance this image"
  const NoImageMessage := "No image generated in the response."
  const FallbackMessage := "Failed to generate image"
  const DataUriPrefix := "data:image/png;base64,"
  const NotTextMessage := "Failed to convert file to base64"
  /** The engine's messages for reading a property of `undefined` (as V8 words them). */
  const NoCandidateMessage := "Cannot read properties of undefined (reading 'content')"
  const NoContentMessage := "Cannot read properties of undefined (reading 'parts')"

  /** Inline binary data: base64 text and its MIME type (an absent `data` is the empty string). */
  datatype Blob = Blob(data: string, mimeType: string)

  /** A part of the request: the instruction text, or an inline source image. */
  datatype Part = TextPart(text: string) | InlinePart(inlineData: Blob)

  /** The reply's shape, each level possibly missing. */
  datatype ResponsePart = ResponsePart(text: Option<string>, inlineData: Option<Blob>)
  datatype Content = Content(parts: Option<seq<ResponsePart>>)
  datatype Candidate = Candidate(content: Option<Content>)
  datatype Response = Response(candidates: Option<seq<Candidate>>)

  /** What the provider receives: the model it is addressed to, the key, the parts, and the image configuration. */
  datatype ProviderCall = ProviderCall(model: string, apiKey: string, parts: seq<Part>, aspectRatio: string)

  /** What the provider does: answer, or throw an error with a (possibly empty) message. */
  datatype ProviderReply = Replied(response: Response) | Threw(message: string)

  /** JavaScript truthiness of an optional string. */
  predicate Truthy(s: Option<string>)
  {
    s.Some? && s.value != ""
  }

  /** `part.inlineData && part.inlineData.data`. */
  predicate CarriesImage(p: ResponsePart)
  {
    p.inlineData.Some? && p.inlineData.value.data != ""
  }

  /**
    The part list sent for a request: a text part first (the prompt, or the
    stock instruction when the prompt is empty), then the source image only when
    both its data and its MIME type are non-empty.
  */
  function RequestParts(request: GenerationRequest): (ps: seq<Part>)
    ensures 1 <= |ps| <= 2
    ensures ps[0] == TextPart(if request.prompt == "" then DefaultPrompt else request.prompt)
    ensures |ps| == 2 <==> Truthy(request.sourceImageBase64) && Truthy(request.sourceImageMimeType)
    ensures |ps| == 2 ==> ps[1] == InlinePart(Blob(request.sourceImageBase64.value, request.sourceImageMimeType.value))
  {
    var text := TextPart(if request.prompt == "" then DefaultPrompt else request.prompt);
    if Truthy(request.sourceImageBase64) && Truthy(request.sourceImageMimeType) then
      [text, InlinePart(Blob(request.sourceImageBase64.value, request.sourceImageMimeType.value))]
    else
      [text]
  }

  /** The single provider call for a request: addressed by model name, with the ratio in the image configuration. */
  function ProviderCallFor(request: GenerationRequest): (c: ProviderCall)
    ensures c.model == request.model.name && c.apiKey == request.model.apiKey
    ensures c.aspectRatio == request.aspectRatio.Value()
    ensures c.parts == RequestParts(request)
  {
    ProviderCall(request.model.name, request.model.apiKey, RequestParts(request), request.aspectRatio.Value())
  }

  /** The data of the first part carrying an image; later parts are ignored. */
  function FirstImageData(parts: seq<ResponsePart>): (r: Option<string>)
    ensures r.None? <==> forall j :: 0 <= j < |parts| ==> !CarriesImage(parts[j])
    ensures r.Some? ==> exists k :: 0 <= k < |parts| && CarriesImage(parts[k]) && r.value == parts[k].inlineData.value.data
                                    && forall j :: 0 <= j < k ==> !CarriesImage(parts[j])
  {
    if parts == [] then None
    else if CarriesImage(parts[0]) then Some(parts[0].inlineData.value.data)
    else
      var r := FirstImageData(parts[1..]);
      assert r.Some? ==> exists k :: 0 <= k < |parts| && CarriesImage(parts[k]) && r.value == parts[k].inlineData.value.data
                                     && forall j :: 0 <= j < k ==> !CarriesImage(parts[j]) by {
        if r.Some? {
          var k :| 0 <= k < |parts| - 1 && CarriesImage(parts[1..][k]) && r.value == parts[1..][k].inlineData.value.data
                   && forall j :: 0 <= j < k ==> !CarriesImage(parts[1..][j]);
          assert forall j :: 0 <= j < k + 1 ==> !CarriesImage(parts[j]) by {
            forall j | 0 <= j < k + 1 ensures !CarriesImage(parts[j]) {
              if j > 0 { assert parts[j] == parts[1..][j - 1]; }
            }
          }
        }
      }
      assert r.None? ==> forall j :: 0 <= j < |parts| ==> !CarriesImage(parts[j]) by {
        if r.None? {
          forall j | 0 <= j < |parts| ensures !CarriesImage(parts[j]) {
            if j > 0 { assert parts[j] == parts[1..][j - 1]; }
          }
        }
      }
      r
  }

  /** The scan of the reply's parts, in order, stopping at the first part carrying an image. */
  method ScanForImage(parts: seq<ResponsePart>) returns (found: Option<string>)
    ensures found == FirstImageData(parts)
  {
    var i := 0;
    while i < |parts|
      invariant 0 <= i <= |parts|
      invariant FirstImageData(parts[i..]) == FirstImageData(parts)
    {
      assert parts[i..][1..] == parts[i + 1..];
      if CarriesImage(parts[i]) {
        return Some(parts[i].inlineData.value.data);
      }
      i := i + 1;
    }
    return None;
  }

  /**
    `response.candidates && response.candidates[0].content.parts`: no list when
    there are no candidates or no parts, and the engine's error when the first
    candidate or its content is missing.
  */
  function ReplyParts(response: Response): (r: Result<Option<seq<ResponsePart>>>)
    ensures response.candidates.None? ==> r == Ok(None)
    ensures response.candidates == Some([]) ==> r == Err(NoCandidateMessage)
    ensures response.candidates.Some? && response.candidates.value != [] ==>
      var first := response.candidates.value[0];
      && (first.content.None? ==> r == Err(NoContentMessage))
      && (first.content.Some? ==> r == Ok(first.content.value.parts))
  {
    match response.candidates
    case None => Ok(None)
    case Some(cs) =>
      if cs == [] then Err(NoCandidateMessage)
      else if cs[0].content.None? then Err(NoContentMessage)
      else Ok(cs[0].content.value.parts)
  }

  /** What the body after the call yields: the data URI of the first image, or the error it throws. */
  function ImageFromResponse(response: Response): (r: Result<string>)
    ensures r.Err? ==> r.message != ""
    ensures ReplyParts(response).Err? ==> r == Err(ReplyParts(response).message)
    ensures var rp := ReplyParts(response);
      r.Ok? <==> rp.Ok? && rp.value.Some? && exists k :: 0 <= k < |rp.value.value| && CarriesImage(rp.value.value[k])
    ensures r.Ok? ==> var ps := ReplyParts(response).value.value;
      exists k :: 0 <= k < |ps| && CarriesImage(ps[k]) && (forall j :: 0 <= j < k ==> !CarriesImage(ps[j]))
        && r.value == DataUriPrefix + ps[k].inlineData.value.data
    ensures r.Err? && ReplyParts(response).Ok? ==> r.message == NoImageMessage
  {
    match ReplyParts(response)
    case Err(m) => Err(m)
    case Ok(None) => Err(NoImageMessage)
    case Ok(Some(ps)) =>
      match FirstImageData(ps)
      case Some(d) => Ok(DataUriPrefix + d)
      case None => Err(NoImageMessage)
  }

  /** `new Error(error.message || "Failed to generate image")`. */
  function Rewrap(message: string): (m: string)
    ensures m != ""
    ensures message != "" ==> m == message
    ensures message == "" ==> m == FallbackMessage
  {
    if message == "" then FallbackMessage else message
  }

  /**
    The outcome of one generation: the missing-key failure before any call;
    otherwise one provider call, whose failure or unusable reply is re-raised
    with its message, and whose first inline image becomes a PNG data URI.
  */
  function Generation(request: GenerationRequest, provider: ProviderCall -> ProviderReply): (r: Result<string>)
    ensures request.model.apiKey == "" ==> r == Err(MissingKeyMessage)
    ensures r.Err? ==> r.message != ""
    ensures r.Ok? ==> StartsWith(r.value, DataUriPrefix) && |r.value| > |DataUriPrefix|
  {
    if request.model.apiKey == "" then Err(MissingKeyMessage)
    else
      match provider(ProviderCallFor(request))
      case Threw(m) => Err(Rewrap(m))
      case Replied(response) =>
        match ImageFromResponse(response)
        case Ok(uri) => Ok(uri)
        case Err(m) => Err(Rewrap(m))
  }

  /**
    `generateImage`: checks the key, builds the part list by pushing, makes the
    one call (returned as `call`; `None` means the provider was never called),
    and scans the reply.
  */
  method GenerateImage(request: GenerationRequest, provider: ProviderCall -> ProviderReply)
    returns (call: Option<ProviderCall>, result: Result<string>)
    ensures call.None? <==> request.model.apiKey == ""
    ensures call.Some? ==> call.value == ProviderCallFor(request)
    ensures result == Generation(request, provider)
  {
    if request.model.apiKey == "" {
      return None, Err(MissingKeyMessage);
    }
    var promptText := if request.prompt == "" then DefaultPrompt else request.prompt;
    var parts := [TextPart(promptText)];
    if Truthy(request.sourceImageBase64) && Truthy(request.sourceImageMimeType) {
      parts := parts + [InlinePart(Blob(request.sourceImageBase64.value, request.sourceImageMimeType.value))];
    }
    var c := ProviderCall(request.model.name, request.model.apiKey, parts, request.aspectRatio.Value());
    call := Some(c);
    match provider(c)
    case Threw(m) =>
      result := Err(Rewrap(m));
    case Replied(response) =>
      match ReplyParts(response)
      case Err(m) =>
        result := Err(Rewrap(m));
      case Ok(None) =>
        result := Err(NoImageMessage);
      case Ok(Some(ps)) =>
        var found := ScanForImage(ps);
        match found
        case Some(d) =>
          result := Ok(DataUriPrefix + d);
        case None =>
          result := Err(NoImageMessage);
  }

  /**
    A successful generation is the PNG data-URI prefix followed by the data of
    the first image part of the first candidate, and the provider answered.
  */
  lemma SuccessIsFirstImage(request: GenerationRequest, provider: ProviderCall -> ProviderReply)
    requires Generation(request, provider).Ok?
    ensures request.model.apiKey != ""
    ensures provider(ProviderCallFor(request)).Replied?
    ensures var response := provider(ProviderCallFor(request)).response;
      && response.candidates.Some? && response.candidates.value != []
      && response.candidates.value[0].content.Some?
      && response.candidates.value[0].content.value.parts.Some?
      && var ps := response.candidates.value[0].content.value.parts.value;
         exists k :: 0 <= k < |ps| && CarriesImage(ps[k]) && (forall j :: 0 <= j < k ==> !CarriesImage(ps[j]))
           && Generation(request, provider).value == DataUriPrefix + ps[k].inlineData.value.data
  {
  }

  /** Stripping the prefix from a successful result gives back exactly the image data. */
  lemma DataUriStrips(data: string)
    ensures StartsWith(DataUriPrefix + data, DataUriPrefix)
    ensures (DataUriPrefix + data)[|DataUriPrefix|..] == data
  {
  }

  /**
    The converse of `SuccessIsFirstImage`: when the first candidate's parts hold
    an image part, however many candidates follow, the generation succeeds with
    the first image part's data.
  */
  lemma ImageInReply(request: GenerationRequest, provider: ProviderCall -> ProviderReply, ps: seq<ResponsePart>, k: nat)
    requires request.model.apiKey != ""
    requires provider(ProviderCallFor(request)).Replied?
    requires var cs := provider(ProviderCallFor(request)).response.candidates;
      cs.Some? && cs.value != [] && cs.value[0].content == Some(Content(Some(ps)))
    requires k < |ps| && CarriesImage(ps[k])
    ensures FirstImageData(ps).Some?
    ensures Generation(request, provider) == Ok(DataUriPrefix + FirstImageData(ps).value)
  {
  }

  /**
    A reply with no candidate list, with a first candidate without parts, or whose
    parts carry no image fails with the no-image message.
  */
  lemma NoImageInReply(request: GenerationRequest, provider: ProviderCall -> ProviderReply, response: Response)
    requires request.model.apiKey != ""
    requires provider(ProviderCallFor(request)) == Replied(response)
    requires var rp := ReplyParts(response);
      || rp == Ok(None)
      || (rp.Ok? && rp.value.Some? && forall j :: 0 <= j < |rp.value.value| ==> !CarriesImage(rp.value.value[j]))
    ensures Generation(request, provider) == Err(NoImageMessage)
  {
  }

  /** A reply without a first candidate, or whose first candidate has no content, fails with the engine's message. */
  lemma MalformedReply(request: GenerationRequest, provider: ProviderCall -> ProviderReply, response: Response)
    requires request.model.apiKey != ""
    requires provider(ProviderCallFor(request)) == Replied(response)
    requires response.candidates.Some?
    requires response.candidates.value == [] || response.candidates.value[0].content.None?
    ensures response.candidates.value == [] ==> Generation(request, provider) == Err(NoCandidateMessage)
    ensures response.candidates.value != [] ==> Generation(request, provider) == Err(NoContentMessage)
  {
  }

  /** A provider failure is re-raised with its own message, or the generic one when it has none. */
  lemma ProviderFailure(request: GenerationRequest, provider: ProviderCall -> ProviderReply, m: string)
    requires request.model.apiKey != ""
    requires provider(ProviderCallFor(request)) == Threw(m)
    ensures Generation(request, provider) == Err(if m == "" then FallbackMessage else m)
  {
  }

  /** The outcome of a file read: a data-URL string, some other result, or a read error. */
  datatype ReadOutcome = LoadedText(dataUrl: string) | LoadedOther | ReadFailed

  /** A settled promise: resolved with a possibly-undefined string, or rejected with a possibly-missing message. */
  datatype Settled = Resolved(value: Option<string>) | Rejected(message: Option<string>)

  /**
    `fileToBase64`: the field between the first and the next comma of the data
    URL (undefined when it has no comma); a non-string result is rejected with a
    message, a read error without one.
  */
  function FileToBase64(read: ReadOutcome): (r: Settled)
    ensures r.Resolved? <==> read.LoadedText?
    ensures read.LoadedText? ==> (r.value.None? <==> ',' !in read.dataUrl)
    ensures r.Resolved? && r.value.Some? ==> ',' !in r.value.value
    ensures read.LoadedOther? ==> r == Rejected(Some(NotTextMessage))
    ensures read.ReadFailed? ==> r == Rejected(None)
  {
    match read
    case LoadedText(s) => Resolved(SecondField(s))
    case LoadedOther => Rejected(Some(NotTextMessage))
    case ReadFailed => Rejected(None)
  }

  /** The base64 payload of a data URL `data:<mime>;base64,<payload>` is recovered exactly. */
  lemma FileToBase64OfDataUrl(mime: string, payload: string)
    requires ',' !in mime && ',' !in payload
    ensures FileToBase64(LoadedText("data:" + mime + ";base64," + payload)) == Resolved(Some(payload))
  {
    var head := "data:" + mime + ";base64";
    assert ',' !in head;
    assert "data:" + mime + ";base64," + payload == head + [','] + payload + [];
    SecondFieldOfJoin(head, payload, []);
  }
}
