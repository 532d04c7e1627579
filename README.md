# A Dafny model of claude-sdk-go

This project models the deterministic core of `claude-sdk-go`. That is a small
Go client for the Messages HTTP API. The network, JSON and file-system layers
are taken as given. The model covers:

- **Streaming accumulator** (`stream.go`). `CreateMessagesStream.Recv` folds
  one decoded server-sent event into the accumulated
  `ResponseBodyMessagesStream`. It returns a snapshot and a signal: nil,
  `io.EOF` or an error. This is `Stream.MessagesStream.Recv`, a method on a
  class whose field is the accumulated message. It is proved equal to a pure
  step function, `Stream.Step`. `Stream.Run` folds `Step` over a sequence of
  events, and the lemmas about whole streams are stated over `Run`. The
  module also covers the event-type filter in the SSE subscription callback
  and `defaultHeaders`.
- **Client configuration and `CreateMessages`, older variant** (`v1.go`):
  - `defaultConfig`, `NewClient`, `NewClientWithConfig` and `SetVersion`;
  - the request URL and the header map;
  - the status classification;
  - `parseBodyJSON`. It resolves each message's serialised `ContentRaw` and
    tags every content item with its `Type`. It does both in place, on the
    caller's slices.
- **`CreateMessages`, context variant** (`messages.go`). Its header map has a
  capitalised beta key, and its status classification is wider. It has its
  own copy of `parseBodyJSON`.
- **Image sources** (`image.go`):
  - the base64 and URL constructors;
  - `TypeImageSourceLoadFile`, with the file read and the encoder as
    parameters;
  - `filepath.Ext` and the mapping from extension to media type.
- **Cache-control constructors** (`cache.go`).

The records of `request.go` and `response.go` are datatypes in module
`Request`. Go's `Type` field is called `kind` there, because `type` is a
reserved word. Go slices that `parseBodyJSON` writes through are `array`s:
the messages, and each message's text and image item lists. Everything else
is a value.

The header maps keep the spelling of the source: v1.go builds "anthropic-beta"
and messages.go "Anthropic-Beta". `req.Header.Set` canonicalises header
names, so on the wire both become "Anthropic-Beta"; the distinction the
model states lives in the Go map only.

Go's `len` on a string counts UTF-8 bytes. It is modelled as `Text.Utf8Len`
over Unicode scalar values. `%d` is modelled as `Text.IntToDecimal`, and that
numeral is proved to read back to the number.

The model follows the code where it departs from how the streaming API is documented to behave:

- Every `content_block_delta` appends a new block typed `"text"`. The text is
  not concatenated into the block at the delta's index, and the delta's own
  type is ignored. So "Hello" then ", world!" gives three blocks (`""`,
  `"Hello"`, `", world!"`), not one.
- Output tokens are counted twice. Each delta adds the byte length of its
  text, and each `message_delta` adds the usage the server reports.
- `parseBodyJSON` receives the request by value, but the `Type` stamping goes
  through to the caller's item slices.
- message_stop and error events are not terminal. `Recv` records nothing
  for them (stream.go:191-200), and a later event is folded in as usual, so
  the stream is not exhausted after the end signal; `Stream.Step` and
  `Stream.Run` behave the same way.
- The system-prompt fields `System` and `SystemTypeText` are never copied
  into `SystemRaw`. The serialised system prompt is whatever the caller put
  in `SystemRaw`.

## Model

| member | source | states |
|---|---|---|
| Stream.Deliver | stream.go:114-121 | the events that reach `Recv` are exactly the forwarded ones, in the order they arrived, and no more than were sent |
| Stream.DeliverAppend | stream.go:114-121 | filtering commutes with concatenation, so the filter never reorders events |
| Stream.FilteredEventsAreIgnorable | stream.go:114-121 | every event type that `Recv` acts on passes the filter; a dropped event is one `Recv` would have ignored |
| Stream.DefaultHeaders | stream.go:209-219 | X-Api-Key, Anthropic-Version and Content-Type "application/json" are always present, with the configured values; Anthropic-Beta is present, holding the beta, exactly when the beta is non-empty |
| Stream.Step | stream.go:147-206 | one `Recv` as a function: only message_start, content deltas and message_delta change the accumulator; the call fails exactly on a connection error, an error event or a decode failure, and then keeps the accumulator; it signals EOF exactly on message_stop; when it does not fail the snapshot is the new accumulator |
| Stream.Run | stream.go:147-206 | successive `Recv` calls over a sequence of events; its properties are stated by `Stream.RunAppend`, `Stream.DeltasAppendBlocks`, `Stream.StartThenDeltas`, `Stream.NoStartKeepsIdentityAndBlocks` and `Stream.OutputTokensNeverDecrease` |
| Stream.MessagesStream.constructor | stream.go:130-136 | a new stream starts with the zero message |
| Stream.MessagesStream.Recv | stream.go:147-206 | for an event the connection can deliver (`Event.Valid`): the new accumulator, snapshot and signal are `Step` of the old accumulator. message_start: the embedded message with exactly one empty "text" block. A delta appends one "text" block with the delta's text and adds its byte length to output tokens; nothing else changes. message_delta overwrites both stop fields (even with empty values), adds the reported tokens and leaves content alone. message_stop returns the unchanged message with EOF. An error event returns it with the decoded message. An unknown type returns it with no error. A decode failure or connection error returns the zero message and the error, and the accumulator is left alone |
| Stream.DeltasAppendBlocks | stream.go:166-179 | any run of deltas after any accumulator appends one "text" block per delta, in order, keeps the earlier blocks, adds the byte length of all fragments joined to output tokens, and changes nothing else |
| Stream.DeltaStep | stream.go:173-178 | one delta is the same as appending one fragment |
| Stream.AppendFragmentsCons | stream.go:173-178 | appending the first fragment and then the rest equals appending all of them |
| Stream.StartThenDeltas | stream.go:151-179 | message_start then n deltas gives n + 1 blocks: the first is empty, the others are the deltas in order. Their texts joined equal the deltas joined. Output tokens are the start value plus the byte length of all fragments. Identity, stop fields and input tokens come from the start message |
| Stream.NoStartKeepsIdentityAndBlocks | stream.go:166-205 | with no message_start, id, type, role, model and input tokens never change, and the earlier blocks stay a prefix of the content |
| Stream.OutputTokensNeverDecrease | stream.go:173-190 | with no message_start and no negative reported usage, output tokens never decrease |
| Stream.TerminalInputsKeepAccumulator | stream.go:191-205 | message_stop, error events, decode failures, unknown types and connection errors leave the accumulator unchanged. The signal is nil only for an unknown type, and EOF only for message_stop |
| Stream.OutputTokensCountedTwice | stream.go:173-190 | a delta followed by a message_delta adds both the fragment's byte length and the reported usage |
| Stream.RunAppend | stream.go:147-206 | feeding two runs of events one after the other is feeding their concatenation |
| Stream.StartTwoDeltasMessageDelta | stream.go:151-190 | start, two deltas and a message_delta give three blocks and the delta's stop reason. Output tokens are the start value plus both byte lengths plus the reported usage |
| Stream.HelloWorldStream | stream.go:151-192 | "Hello" and ", world!" give three blocks (not one) and 13 + 5 extra output tokens; a following message_stop returns the same message with EOF |
| Stream.ThinkingThenTextStream | stream.go:173-176 | a delta of type "thinking_delta" and a text delta give two separate blocks, both typed "text"; the delta's type and index are not consulted. The decoded record has only a `text` key (stream.go:66-69), so "abc" stands for whatever that key decoded to; a fragment sent under another key decodes to "" |
| Client.DefaultConfig | v1.go:34-45 | the key as given, version "2023-06-01", empty beta, base URL "https://api.anthropic.com/", endpoint "v1/messages" |
| Client.Client.constructor | v1.go:47-51 | `NewClient` holds the default configuration for the key |
| Client.Client.WithConfig | v1.go:53-57 | `NewClientWithConfig` holds exactly the given configuration |
| Client.Client.SetVersion | v1.go:59-61 | only the version field of the configuration changes |
| Client.RequestURL | v1.go:64 | the URL is the base URL immediately followed by the endpoint |
| Client.DefaultURL | v1.go:64 | with the defaults the URL is "https://api.anthropic.com/v1/messages" |
| Client.Headers | v1.go:65-72 | the three fixed keys with their configured values, plus the beta key holding the beta exactly when the beta is non-empty |
| Client.V1Headers | v1.go:65-72 | this variant's beta key is lower-case "anthropic-beta"; there are four headers with a beta and three without |
| Client.UnexpectedError | v1.go:110 | the error is "unexpected error: " followed by the decimal status |
| Client.UnexpectedErrorNamesStatus | v1.go:110 | two unexpected-status errors are equal exactly when their statuses are |
| Client.ClassifyV1 | v1.go:94-110 | with the body as v1.go's streaming decoder reads it: success exactly when the status is 200 and the body decodes; a 200 body that does not decode gives the decoder's error; 400-499 gives the decoded `error.message`, or the decoder's error; any other status gives "unexpected error: <status>" |
| Client.ResolvedContent | v1.go:114-139 | a non-empty image list wins, then a non-empty text list, then a non-empty plain string; when all three are empty the caller's `ContentRaw` stays |
| Client.PlainNeverOverridesItems | v1.go:115-117 | a plain string replaces `ContentRaw` only when it is non-empty and both item lists are empty |
| Client.ResolveIdempotent | v1.go:114-139 | resolving an already resolved message with its stamped lists gives the same content |
| Client.StampTextsInPlace | v1.go:119-122 | every text item of the slice is tagged "text", in place; text and cache annotation are kept |
| Client.StampImagesInPlace | v1.go:130-133 | every image item of the slice is tagged "image", in place; source and cache annotation are kept |
| Client.ResolveMessage | v1.go:114-139 | one iteration of the loop: message i gets its resolved content and its lists are stamped; a list it shares with another message is stamped for that message too; nothing else changes |
| Client.PayloadOf | v1.go:141 | the document handed to the JSON encoder has one entry per message, in order, with the message's role and `ContentRaw`, and `SystemRaw` as the system prompt |
| Client.ParseBodyJSON | v1.go:113-142 | the message count, order and roles are kept; each message's `ContentRaw` is the resolved content of what it held before the call; each of its item lists is stamped, in the caller's own arrays; the result is the document built from the updated request |
| Request.StampTexts | v1.go:119-122 | every text item is tagged "text", with its text and cache annotation kept |
| Request.StampImages | v1.go:130-133 | every image item is tagged "image", with its source and cache annotation kept |
| Request.StampingIdempotent | v1.go:119-133 | stamping a stamped list changes nothing, so a list shared by two messages ends up the same whichever message stamps it first |
| Messages.RequestHeaders | messages.go:15-22 | this variant's beta key is capitalised "Anthropic-Beta" and the lower-case key never appears; there are four headers with a beta and three without |
| Messages.ApiErrorStatusWidensV1 | messages.go:60 | the API-error statuses are those of v1.go plus exactly 500 and 529 |
| Messages.DecodeError | messages.go:65 | "json decode error: ", then the decoder's error, then ", status code: " and the decimal status |
| Messages.ApiError | messages.go:69 | the status line, ": " and the service's message |
| Messages.Classify | messages.go:47-74 | with the body read whole and unmarshalled: a body that cannot be read gives the read error whatever the status. Otherwise success exactly when the status is 200 and the body decodes. For 400-500 or 529, a decodable body gives "<status>: <message>" and an undecodable one the decode error with the status. Any other status (3xx, 501-528, ...) gives "unexpected error: <status>" |
| Messages.VariantsCompared | messages.go:52-74 | for a body that reads: on a status that is neither 200 nor an API error of this variant, both variants give the same unexpected-status error; at 200 they agree when both decoders give the same result; on 500 and 529 v1.go reports an unexpected status, and when the body does not decode the two errors differ |
| Messages.TrailingDataSplitsVariants | messages.go:52-58 | any readable 200 body that the streaming decoder accepts and `json.Unmarshal` rejects (trailing data after the JSON value, for one) succeeds in v1.go with the decoded message and fails in this variant with the decoder's error |
| Messages.ParseBodyJSON | messages.go:77-106 | the same contract as v1.go's `parseBodyJSON` |
| Image.LoadBase64 | image.go:9-15 | type is the base64 constant, media type and data as given, no URL |
| Image.LoadUrl | image.go:17-22 | type "url", the URL as given, no media type and no data |
| Image.Ext | image.go:43 | `filepath.Ext` with '/' as separator; its contract is stated by `Image.ExtIsLastDotSuffix` and the lemmas after it |
| Image.ExtIsLastDotSuffix | image.go:43 | the characterisation of `Image.Ext`: the extension is a suffix of the path that starts with '.' and has no other '.' or '/'; it is empty only when every '.' in the path is followed later by a '/' |
| Image.ExtAppendPlain | image.go:43 | appending characters other than '.' and '/' extends a found extension and keeps a missing one missing |
| Image.ExtOfNameWithDot | image.go:43 | the extension of "<p>.<s>", where s has no '.' or '/', is ".<s>" whatever p is |
| Image.ExtOfPlainLastElement | image.go:43 | a last path element without a '.' has no extension, even when a directory name has one |
| Image.ExtOfDoubleExtension | image.go:43 | "a.tar.png" has extension ".png" |
| Image.MediaTypeOf | image.go:44-56 | ".jpg" and ".jpeg" map to image/jpeg, ".png" to image/png, ".gif" to image/gif, ".webp" to image/webp (each in both directions), and every other extension to "" |
| Image.LoadFile | image.go:24-62 | an open or stat failure gives the empty source and that error. Otherwise there is no error, the source has the base64 type, and its data is the encoded bytes. Its media type comes from the path's extension |
| Image.PngFileIsImagePng | image.go:43-50 | a file read from "photo.png" is declared image/png |
| Image.UnknownExtensionIsSoft | image.go:43-61 | "photo.PNG" (the comparison is exact) and "dir.d/photo" give an empty media type and still no error |
| Cache.UseNoCache | cache.go:3-5 | no annotation |
| Cache.UseCacheEphemeral | cache.go:7-12 | an annotation of type "ephemeral" |
| Cache.UseSystemNoCache | cache.go:14-20 | a system segment of type "text" with the given text and no annotation |
| Cache.UseSystemCacheEphemeral | cache.go:22-28 | a system segment of type "text" with the given text and the ephemeral annotation |
| Cache.SystemConstructorsDifferOnlyInCache | cache.go:14-28 | the two system constructors agree on type and text and differ only in the annotation |
| Text.Utf8Len | stream.go:178 | Go's `len` on a string: at least one byte and at most four per character |
| Text.Utf8LenAppend | stream.go:178 | the byte length of a concatenation is the sum of the byte lengths |
| Text.Utf8LenIsLengthIffAscii | stream.go:178 | the byte length equals the character count exactly when the text is ASCII |
| Text.IntToDecimal | v1.go:110 | `%d`: a non-empty numeral that starts with '-' exactly when the number is negative |
| Text.IntDecimalRoundTrip | v1.go:110 | the number can be read back from its numeral |
| Text.IntToDecimalInjective | v1.go:110 | distinct numbers have distinct numerals |

## Left out

- The SSE connection, the goroutine, the two channels, `Unsubscribe` and `Close` (stream.go:103-144). These are concurrency and I/O. `Recv` takes what arrives on either channel as a parameter.
- JSON encoding and decoding. Events and response bodies arrive already decoded, and a body that does not decode arrives as its decoder's error text. The two variants decode differently, so `Client.HttpResponse` carries one result per decoder: v1.go's streaming `json.Decoder` (which ignores data after the first value and reports "EOF" on an empty body) and messages.go's `json.Unmarshal` of the whole body (which rejects trailing data). How each decoder reaches its result is not modelled. Nor is the error `json.Marshal(req)` returns at the end of `parseBodyJSON` (v1.go:141, messages.go:105), for example for a NaN or infinite `Temperature`, `TopP` or `TopK`: `Client.ParseBodyJSON` always returns a payload. The serialisation of the resolved request is not modelled; the model ends at the document handed to the encoder (`Client.PayloadOf`).
- `json.Marshal` failing inside `parseBodyJSON` (v1.go:123-126, 134-137): the model's content values always serialise, so those error returns are not modelled.
- HTTP request construction, `HTTPClient.Do`, contexts and `log.Printf` (v1.go:79-92, messages.go:29-50, 64, 68, 73). These are network and logging side effects. `ClientConfig.HTTPClient` is not part of `Client.Config`.
- The body `CreateMessagesStream` sends (stream.go:86-92). It sets `Stream` and marshals the request without calling `parseBodyJSON`, so a streaming request never resolves message content: a message given only through `Content`, `ContentTypeText` or `ContentTypeImage` (all kept out of the JSON document, request.go:27-29) is sent with a null `content`, and its items are not stamped. The model does not cover this request path.
- Opening, sizing and reading the file, and `base64.StdEncoding` (image.go:25-41). The outcome is the `Image.FileRead` parameter and the encoder is the `encode` parameter. A short read (the ignored result of `file.Read`) is not modelled.
- Image.SourceTypeBase64: its definition is not part of this model, so its value is left open.
- Image.Ext: only '/' is treated as a path separator, as on Unix; the Windows behaviour of `filepath.Ext` is not modelled.
- Stream.MessagesStream.Recv: `OutputTokens` is an `int64` in Go, but the model adds unbounded integers and does not model wrap-around. Reaching 2^63 tokens is outside any real stream.
- Stream.Step: the same unbounded-integer simplification as `Recv`.
- Stream.MessagesStream.Recv: calling it after `Close` (a closed channel yields a zero event) is not modelled.
- Stream.MessagesStream.Recv: the snapshot Go returns shares its `Content` backing array with the accumulator, so a caller that writes into a snapshot's blocks, or appends to an older snapshot, can change the accumulator. The model returns the snapshot as an independent value and does not capture this aliasing.
- Client.ClassifyV1: `fmt.Errorf(result.Error.Message)` uses the service's message as a format string. The model returns it verbatim, so a message containing a '%' verb would differ.
- Client.ParseBodyJSON: `ContentRaw` is an `interface{}`. A caller-set value is limited to the four `Request.ContentRaw` variants.
- Cache.UseCacheEphemeral: each call in Go returns a fresh pointer; pointer identity is not modelled, only the pointed-to value.
- `MetaData`, `Temperature`, `TopP` and `TopK` (request.go:11, 14-16): these pass-through fields are not read by the modelled code; only the encoder sees them (see the JSON line above).
- The example programs and `example_test.go`. Their outputs depend on the live service, and they use functions this revision does not define.
