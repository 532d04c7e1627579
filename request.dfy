/** The request and response records of the client. They carry no behaviour
    of their own; the one operation here is the stamping of an item's `Type`
    tag, which the payload builder performs before serialising a message.

    The Go field `Type` is called `kind` throughout, because `type` is a
    reserved word in Dafny. */
module Request {
  import opened Wrappers

  const TextType := "text"
  const ImageType := "image"
  const RoleUser := "user"
  const RoleAssistant := "assistant"

  /** `RequestCacheControl`; a nil pointer is `None`. */
  datatype CacheControl = CacheControl(kind: string)

  /** `RequestBodySystemTypeText`: one segment of a structured system prompt. */
  datatype SystemText = SystemText(kind: string, text: string, cacheControl: Option<CacheControl>)

  /** `RequestBodyMessagesMessagesContentTypeText`. */
  datatype TextItem = TextItem(kind: string, text: string, cacheControl: Option<CacheControl>)

  /** `RequestBodyMessagesMessagesContentTypeImageSource`. */
  datatype ImageSource = ImageSource(kind: string, mediaType: string, data: string, url: string)

  /** `RequestBodyMessagesMessagesContentTypeImage`. */
  datatype ImageItem = ImageItem(kind: string, source: ImageSource, cacheControl: Option<CacheControl>)

  /** The value held by the `interface{}` field `ContentRaw`, the only content
      field that is serialised: nothing, a bare string, or the serialised item
      list of one of the two structured representations. */
  datatype ContentRaw = Unset | Plain(s: string) | Texts(texts: seq<TextItem>) | Images(images: seq<ImageItem>)

  /** `RequestBodyMessagesMessages`. The two item lists are Go slices: a copy
      of the message shares them with the caller, so they are arrays here. */
  datatype Message = Message(
    role: string,
    contentRaw: ContentRaw,
    content: string,
    texts: array<TextItem>,
    images: array<ImageItem>)

  /** The value held by the `interface{}` field `SystemRaw`. */
  datatype SystemRaw = NoSystem | SystemPlain(s: string) | SystemTexts(segments: seq<SystemText>)

  /** `RequestBodyMessagesThinking`. */
  datatype Thinking = Thinking(kind: string, budgetTokens: int)

  /** `RequestBodyMessages`. `System` and `SystemTypeText` are kept out of
      the JSON document; only `SystemRaw` is serialised. */
  datatype RequestBody = RequestBody(
    model: string,
    messages: array<Message>,
    system: string,
    systemTexts: seq<SystemText>,
    systemRaw: SystemRaw,
    maxTokens: int,
    thinking: Option<Thinking>,
    stopSequences: seq<string>,
    stream: bool)

  /** A message as the JSON encoder sees it: its `role` and `content` keys. */
  datatype WireMessage = WireMessage(role: string, content: ContentRaw)

  /** The request as the JSON encoder sees it, every `json:"-"` field dropped. */
  datatype Payload = Payload(
    model: string,
    messages: seq<WireMessage>,
    system: SystemRaw,
    maxTokens: int,
    thinking: Option<Thinking>,
    stopSequences: seq<string>,
    stream: bool)

  /** `ResponseBodyMessagesContent`. */
  datatype ResponseContent = ResponseContent(kind: string, text: string)

  datatype ResponseUsage = ResponseUsage(inputTokens: int, outputTokens: int)

  /** `ResponseBodyMessages`: the decoded body of a successful call. */
  datatype ResponseMessage = ResponseMessage(
    id: string,
    kind: string,
    role: string,
    content: seq<ResponseContent>,
    model: string,
    stopReason: string,
    stopSequence: string,
    usage: ResponseUsage)

  /** `ResponseError`: the body `{"error": {"message": ...}}`. */
  datatype ResponseError = ResponseError(message: string)

  /** Every text item tagged `"text"`; text and cache annotation untouched. */
  function StampTexts(items: seq<TextItem>): (r: seq<TextItem>)
    ensures |r| == |items|
    ensures forall i :: 0 <= i < |r| ==>
      r[i].kind == TextType && r[i].text == items[i].text && r[i].cacheControl == items[i].cacheControl
  {
    seq(|items|, i requires 0 <= i < |items| => items[i].(kind := TextType))
  }

  /** Every image item tagged `"image"`; source and cache annotation untouched. */
  function StampImages(items: seq<ImageItem>): (r: seq<ImageItem>)
    ensures |r| == |items|
    ensures forall i :: 0 <= i < |r| ==>
      r[i].kind == ImageType && r[i].source == items[i].source && r[i].cacheControl == items[i].cacheControl
  {
    seq(|items|, i requires 0 <= i < |items| => items[i].(kind := ImageType))
  }

  /** Stamping a second time changes nothing. */
  lemma StampTextsIdempotent(items: seq<TextItem>)
    ensures StampTexts(StampTexts(items)) == StampTexts(items)
  {
  }

  lemma StampImagesIdempotent(items: seq<ImageItem>)
    ensures StampImages(StampImages(items)) == StampImages(items)
  {
  }

  /** Both idempotence facts, for every list at once. */
  lemma StampingIdempotent()
    ensures forall items :: StampTexts(StampTexts(items)) == StampTexts(items)
    ensures forall items :: StampImages(StampImages(items)) == StampImages(items)
  {
    forall items: seq<TextItem> ensures StampTexts(StampTexts(items)) == StampTexts(items) {
      StampTextsIdempotent(items);
    }
    forall items: seq<ImageItem> ensures StampImages(StampImages(items)) == StampImages(items) {
      StampImagesIdempotent(items);
    }
  }
}
