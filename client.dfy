/** The client of v1.go: its configuration, the header map and the status
    classification of `CreateMessages` (the older, context-free variant), and
    `parseBodyJSON`, which resolves each message's serialised content in place. */
module Client {
  import opened Wrappers
  import opened Text
  import opened Request

  const DefaultBaseURL := "https://api.anthropic.com/"
  const DefaultEndpoint := "v1/messages"
  const DefaultVersion := "2023-06-01"
  const ContentType := "application/json"

  const ApiKeyHeader := "X-Api-Key"
  const VersionHeader := "Anthropic-Version"
  const ContentTypeHeader := "Content-Type"

  /** `ClientConfig` without its `HTTPClient`. */
  datatype Config = Config(apiKey: string, version: string, beta: string, baseURL: string, endpoint: string)

  /** `defaultConfig`: the key as given, every other field at its default. */
  function DefaultConfig(apiKey: string): (c: Config)
    ensures c.apiKey == apiKey && c.version == DefaultVersion && c.beta == ""
    ensures c.baseURL == DefaultBaseURL && c.endpoint == DefaultEndpoint
  {
    Config(apiKey, DefaultVersion, "", DefaultBaseURL, DefaultEndpoint)
  }

  /** The request URL: the base URL immediately followed by the endpoint. */
  function RequestURL(c: Config): (url: string)
    ensures |url| == |c.baseURL| + |c.endpoint|
    ensures url[..|c.baseURL|] == c.baseURL && url[|c.baseURL|..] == c.endpoint
  {
    c.baseURL + c.endpoint
  }

  /** With the defaults the request goes to the messages endpoint of the
      public service. */
  lemma DefaultURL(apiKey: string)
    ensures RequestURL(DefaultConfig(apiKey)) == "https://api.anthropic.com/v1/messages"
  {
  }

  /** The header map shared by every request builder: the key, the version
      and the content type always, and the beta flag under `betaKey` exactly
      when a beta is configured. */
  function Headers(c: Config, betaKey: string): (h: map<string, string>)
    requires betaKey !in {ApiKeyHeader, VersionHeader, ContentTypeHeader}
    ensures h.Keys == {ApiKeyHeader, VersionHeader, ContentTypeHeader} + (if c.beta != "" then {betaKey} else {})
    ensures h[ApiKeyHeader] == c.apiKey && h[VersionHeader] == c.version && h[ContentTypeHeader] == ContentType
    ensures betaKey in h <==> c.beta != ""
    ensures betaKey in h ==> h[betaKey] == c.beta
  {
    var h := map[ApiKeyHeader := c.apiKey, VersionHeader := c.version, ContentTypeHeader := ContentType];
    if c.beta != "" then h[betaKey := c.beta] else h
  }

  /** The header map of this variant, whose beta key is lower-case. */
  function V1Headers(c: Config): (h: map<string, string>)
    ensures "anthropic-beta" in h <==> c.beta != ""
    ensures |h| == if c.beta != "" then 4 else 3
  {
    Headers(c, "anthropic-beta")
  }

  /** `Client`: a holder of one configuration. */
  class Client {
    var config: Config

    /** `NewClient`. */
    constructor (apiKey: string)
      ensures config == DefaultConfig(apiKey)
    {
      config := DefaultConfig(apiKey);
    }

    /** `NewClientWithConfig`. */
    constructor WithConfig(config: Config)
      ensures this.config == config
    {
      this.config := config;
    }

    /** `SetVersion`: only the version changes. */
    method SetVersion(version: string)
      modifies this
      ensures config == old(config).(version := version)
    {
      config := config.(version := version);
    }
  }

  /** What decoding a response body into each of the two result records
      gives: the value, or the decoder's error text. */
  datatype Decoded = Decoded(asMessage: Result<ResponseMessage>, asError: Result<ResponseError>)

  /** An HTTP response as the two `CreateMessages` variants see it: the
      status code and status line, and the body as each variant decodes it.
      v1.go runs a streaming `json.Decoder` over the body (`streamed`): it
      reads the first JSON value only and reports "EOF" on an empty body.
      messages.go first reads the whole body, which may fail
      (`readAllError`), and then `json.Unmarshal`s all of it (`whole`): it
      rejects trailing data and reports an empty body differently. The
      decoders themselves are outside the model. */
  datatype HttpResponse = HttpResponse(
    statusCode: int,
    status: string,
    streamed: Decoded,
    readAllError: Option<string>,
    whole: Decoded)

  /** What `CreateMessages` returns: the decoded response, or an error. */
  datatype Outcome = Success(response: ResponseMessage) | Failure(error: string)

  const StatusOK := 200

  /** The statuses this variant decodes as an API error. */
  predicate ApiErrorStatusV1(code: int) {
    400 <= code < 500
  }

  /** The error for any other status. */
  function UnexpectedError(code: int): (e: string)
    ensures |e| > 18 && e[..18] == "unexpected error: " && e[18..] == IntToDecimal(code)
  {
    "unexpected error: " + IntToDecimal(code)
  }

  /** The status can be read back from the unexpected-status error. */
  lemma UnexpectedErrorNamesStatus(a: int, b: int)
    ensures UnexpectedError(a) == UnexpectedError(b) <==> a == b
  {
    if UnexpectedError(a) == UnexpectedError(b) {
      assert UnexpectedError(a)[18..] == UnexpectedError(b)[18..];
      IntToDecimalInjective(a, b);
    }
  }

  /** The status handling of `CreateMessages` in v1.go. */
  function ClassifyV1(r: HttpResponse): (o: Outcome)
    ensures o.Success? <==> r.statusCode == StatusOK && r.streamed.asMessage.Ok?
    ensures o.Success? ==> o.response == r.streamed.asMessage.value
    ensures r.statusCode == StatusOK && r.streamed.asMessage.Err? ==> o == Failure(r.streamed.asMessage.error)
    ensures ApiErrorStatusV1(r.statusCode) && r.streamed.asError.Ok? ==> o == Failure(r.streamed.asError.value.message)
    ensures ApiErrorStatusV1(r.statusCode) && r.streamed.asError.Err? ==> o == Failure(r.streamed.asError.error)
    ensures r.statusCode != StatusOK && !ApiErrorStatusV1(r.statusCode) ==> o == Failure(UnexpectedError(r.statusCode))
  {
    if r.statusCode == StatusOK then
      match r.streamed.asMessage
      case Ok(m) => Success(m)
      case Err(e) => Failure(e)
    else if ApiErrorStatusV1(r.statusCode) then
      match r.streamed.asError
      case Ok(e) => Failure(e.message)
      case Err(e) => Failure(e)
    else
      Failure(UnexpectedError(r.statusCode))
  }

  /** The `ContentRaw` that `parseBodyJSON` leaves on a message whose item
      lists hold `texts` and `images`: a non-empty image list wins, then a
      non-empty text list, then a non-empty plain string; when all three are
      empty the caller's `ContentRaw` stays. */
  function ResolvedContent(m: Message, texts: seq<TextItem>, images: seq<ImageItem>): (raw: ContentRaw)
    ensures |images| > 0 ==> raw == Images(StampImages(images))
    ensures |images| == 0 && |texts| > 0 ==> raw == Texts(StampTexts(texts))
    ensures |images| == 0 && |texts| == 0 && m.content != "" ==> raw == Plain(m.content)
    ensures |images| == 0 && |texts| == 0 && m.content == "" ==> raw == m.contentRaw
  {
    if |images| > 0 then Images(StampImages(images))
    else if |texts| > 0 then Texts(StampTexts(texts))
    else if m.content != "" then Plain(m.content)
    else m.contentRaw
  }

  /** An empty plain string never replaces what the caller put in
      `ContentRaw`, and a plain string never wins over an item list. */
  lemma PlainNeverOverridesItems(m: Message, texts: seq<TextItem>, images: seq<ImageItem>)
    ensures ResolvedContent(m, texts, images).Plain? && ResolvedContent(m, texts, images) != m.contentRaw
      ==> m.content != "" && |texts| == 0 && |images| == 0
  {
  }

  /** Resolving a second time, with the items already stamped, gives the
      same content: building the payload twice yields the same document. */
  lemma ResolveIdempotent(m: Message, texts: seq<TextItem>, images: seq<ImageItem>)
    ensures ResolvedContent(m.(contentRaw := ResolvedContent(m, texts, images)), StampTexts(texts), StampImages(images))
      == ResolvedContent(m, texts, images)
  {
    StampTextsIdempotent(texts);
    StampImagesIdempotent(images);
  }

  /** Tags every text item "text", in place. */
  method StampTextsInPlace(a: array<TextItem>)
    modifies a
    ensures a[..] == StampTexts(old(a[..]))
  {
    for j := 0 to a.Length
      invariant a[..j] == StampTexts(old(a[..j]))
      invariant a[j..] == old(a[j..])
    {
      a[j] := a[j].(kind := TextType);
      assert a[..j + 1] == a[..j] + [a[j]];
    }
  }

  /** Tags every image item "image", in place. */
  method StampImagesInPlace(a: array<ImageItem>)
    modifies a
    ensures a[..] == StampImages(old(a[..]))
  {
    for j := 0 to a.Length
      invariant a[..j] == StampImages(old(a[..j]))
      invariant a[j..] == old(a[j..])
    {
      a[j] := a[j].(kind := ImageType);
      assert a[..j + 1] == a[..j] + [a[j]];
    }
  }

  /** A message is as before except for its serialised content. */
  predicate SameButContent(now: Message, before: Message) {
    now == before.(contentRaw := now.contentRaw)
  }

  /** A message as `parseBodyJSON` leaves it, given the message and the
      contents of its item lists before the call: only the serialised
      content changed, and it is the resolved one; both item lists are
      stamped. */
  predicate ResolvedFrom(m: Message, m0: Message, t0: seq<TextItem>, i0: seq<ImageItem>)
    reads m.texts, m.images
  {
    && SameButContent(m, m0)
    && m.contentRaw == ResolvedContent(m0, t0, i0)
    && m.texts[..] == StampTexts(t0)
    && m.images[..] == StampImages(i0)
  }

  /** Where `parseBodyJSON` stands with one message, given the message and
      the contents of its item lists before the call: once it is done, the
      content is resolved and both lists are stamped; before, the content is
      untouched and each list is either untouched or already stamped (through
      another message that shares it). */
  ghost predicate MessageProgress(m: Message, done: bool, m0: Message, t0: seq<TextItem>, i0: seq<ImageItem>)
    reads m.texts, m.images
  {
    && (done ==> ResolvedFrom(m, m0, t0, i0))
    && (!done ==> SameButContent(m, m0)
                  && m.contentRaw == m0.contentRaw
                  && (m.texts[..] == t0 || m.texts[..] == StampTexts(t0))
                  && (m.images[..] == i0 || m.images[..] == StampImages(i0)))
  }

  /** The loop invariant of `parseBodyJSON` after `i` messages. */
  ghost predicate Progress(msgs: array<Message>, i: int, m0: seq<Message>, t0: seq<seq<TextItem>>, i0: seq<seq<ImageItem>>)
    reads msgs
    reads set k | 0 <= k < msgs.Length :: msgs[k].texts
    reads set k | 0 <= k < msgs.Length :: msgs[k].images
  {
    && 0 <= i <= msgs.Length
    && |m0| == |t0| == |i0| == msgs.Length
    && forall k :: 0 <= k < msgs.Length ==> MessageProgress(msgs[k], k < i, m0[k], t0[k], i0[k])
  }

  /** One iteration of `parseBodyJSON`'s loop: message `i` gets its resolved
      content and its item lists are stamped. Item lists shared with other
      messages are stamped for them too. */
  method ResolveMessage(msgs: array<Message>, i: nat,
                        ghost m0: seq<Message>, ghost t0: seq<seq<TextItem>>, ghost i0: seq<seq<ImageItem>>)
    requires i < msgs.Length && Progress(msgs, i, m0, t0, i0)
    modifies msgs, msgs[i].texts, msgs[i].images
    ensures Progress(msgs, i + 1, m0, t0, i0)
  {
    var m := msgs[i];
    if m.content != "" {
      msgs[i] := msgs[i].(contentRaw := Plain(m.content));
    }
    if m.texts.Length > 0 {
      StampTextsInPlace(m.texts);
      msgs[i] := msgs[i].(contentRaw := Texts(m.texts[..]));
    }
    if m.images.Length > 0 {
      StampImagesInPlace(m.images);
      msgs[i] := msgs[i].(contentRaw := Images(m.images[..]));
    }
    assert m.texts[..] == StampTexts(old(m.texts[..]));
    assert m.images[..] == StampImages(old(m.images[..]));
    StampTextsIdempotent(t0[i]);
    StampImagesIdempotent(i0[i]);
    assert MessageProgress(msgs[i], true, m0[i], t0[i], i0[i]);
    forall k | 0 <= k < msgs.Length && k != i
      ensures MessageProgress(msgs[k], k < i + 1, m0[k], t0[k], i0[k])
    {
      var mk := msgs[k];
      assert mk == old(msgs[k]);
      assert old(MessageProgress(msgs[k], k < i, m0[k], t0[k], i0[k]));
      StampTextsIdempotent(t0[k]);
      StampImagesIdempotent(i0[k]);
      if mk.texts == m.texts {
        assert mk.texts[..] == StampTexts(old(mk.texts[..]));
      } else {
        assert mk.texts[..] == old(mk.texts[..]);
      }
      if mk.images == m.images {
        assert mk.images[..] == StampImages(old(mk.images[..]));
      } else {
        assert mk.images[..] == old(mk.images[..]);
      }
    }
  }

  /** The serialisable view of the request after content resolution. */
  function PayloadOf(req: RequestBody): (p: Payload)
    reads req.messages
    ensures |p.messages| == req.messages.Length
    ensures forall k :: 0 <= k < |p.messages| ==>
      p.messages[k] == WireMessage(req.messages[k].role, req.messages[k].contentRaw)
    ensures p.system == req.systemRaw
  {
    Payload(
      req.model,
      seq(req.messages.Length, k requires 0 <= k < req.messages.Length reads req.messages =>
        WireMessage(req.messages[k].role, req.messages[k].contentRaw)),
      req.systemRaw,
      req.maxTokens,
      req.thinking,
      req.stopSequences,
      req.stream)
  }

  /** `parseBodyJSON`: every message of the caller's slice gets its resolved
      content, in place, in order, role untouched; every item list is
      stamped in place; the result is what the JSON encoder is then given.
      The plain and structured system prompts are not consulted: the
      serialised system prompt is `SystemRaw` as the caller set it. */
  method ParseBodyJSON(req: RequestBody) returns (payload: Payload)
    modifies req.messages
    modifies set k | 0 <= k < req.messages.Length :: req.messages[k].texts
    modifies set k | 0 <= k < req.messages.Length :: req.messages[k].images
    ensures forall k :: 0 <= k < req.messages.Length ==>
      ResolvedFrom(req.messages[k], old(req.messages[k]), old(req.messages[k].texts[..]), old(req.messages[k].images[..]))
    ensures payload == PayloadOf(req)
  {
    var msgs := req.messages;
    ghost var m0 := msgs[..];
    ghost var t0 := seq(msgs.Length, k requires 0 <= k < msgs.Length reads msgs, set j | 0 <= j < msgs.Length :: msgs[j].texts => msgs[k].texts[..]);
    ghost var i0 := seq(msgs.Length, k requires 0 <= k < msgs.Length reads msgs, set j | 0 <= j < msgs.Length :: msgs[j].images => msgs[k].images[..]);
    for i := 0 to msgs.Length
      invariant Progress(msgs, i, m0, t0, i0)
    {
      ResolveMessage(msgs, i, m0, t0, i0);
    }
    payload := PayloadOf(req);
  }
}
