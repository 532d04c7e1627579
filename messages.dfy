/** The context-taking variant of `CreateMessages` in messages.go: its header
    map, its status classification (wider than v1.go's), and its
    `parseBodyJSON`, whose text is the same as v1.go's. */
module Messages {
  import opened Wrappers
  import opened Text
  import opened Request
  import Client

  /** The header map of this variant: the beta key is capitalised. */
  function RequestHeaders(c: Client.Config): (h: map<string, string>)
    ensures "Anthropic-Beta" in h <==> c.beta != ""
    ensures "anthropic-beta" !in h
    ensures |h| == if c.beta != "" then 4 else 3
  {
    Client.Headers(c, "Anthropic-Beta")
  }

  /** The statuses decoded as an API error: 400 to 500 inclusive, and 529
      (the service is overloaded). */
  predicate ApiErrorStatus(code: int) {
    (400 <= code && code <= 500) || code == 529
  }

  /** This variant treats exactly 500 and 529 as API errors in addition to
      the statuses v1.go does. */
  lemma ApiErrorStatusWidensV1(code: int)
    ensures ApiErrorStatus(code) <==> Client.ApiErrorStatusV1(code) || code == 500 || code == 529
  {
  }

  /** The error for an API-error status whose body does not decode. */
  function DecodeError(decodeError: string, code: int): (e: string)
    ensures |e| == 19 + |decodeError| + 15 + |IntToDecimal(code)|
    ensures e[..19] == "json decode error: "
    ensures e[19..19 + |decodeError|] == decodeError
    ensures e[19 + |decodeError|..19 + |decodeError| + 15] == ", status code: "
    ensures e[|e| - |IntToDecimal(code)|..] == IntToDecimal(code)
  {
    "json decode error: " + decodeError + ", status code: " + IntToDecimal(code)
  }

  /** The error for an API-error status whose body decodes: the status line,
      a colon, and the service's message. */
  function ApiError(status: string, message: string): (e: string)
    ensures |e| == |status| + 2 + |message|
    ensures e[..|status|] == status && e[|status|..|status| + 2] == ": " && e[|status| + 2..] == message
  {
    status + ": " + message
  }

  /** The status handling of `CreateMessages` in messages.go. A body that
      cannot be read fails the call whatever the status. */
  function Classify(r: Client.HttpResponse): (o: Client.Outcome)
    ensures r.readAllError.Some? ==> o == Client.Failure(r.readAllError.value)
    ensures o.Success? <==> r.readAllError.None? && r.statusCode == Client.StatusOK && r.whole.asMessage.Ok?
    ensures o.Success? ==> o.response == r.whole.asMessage.value
    ensures r.readAllError.None? && r.statusCode == Client.StatusOK && r.whole.asMessage.Err? ==>
      o == Client.Failure(r.whole.asMessage.error)
    ensures r.readAllError.None? && ApiErrorStatus(r.statusCode) && r.whole.asError.Ok? ==>
      o == Client.Failure(ApiError(r.status, r.whole.asError.value.message))
    ensures r.readAllError.None? && ApiErrorStatus(r.statusCode) && r.whole.asError.Err? ==>
      o == Client.Failure(DecodeError(r.whole.asError.error, r.statusCode))
    ensures r.readAllError.None? && r.statusCode != Client.StatusOK && !ApiErrorStatus(r.statusCode) ==>
      o == Client.Failure(Client.UnexpectedError(r.statusCode))
  {
    if r.readAllError.Some? then
      Client.Failure(r.readAllError.value)
    else if r.statusCode == Client.StatusOK then
      match r.whole.asMessage
      case Ok(m) => Client.Success(m)
      case Err(e) => Client.Failure(e)
    else if ApiErrorStatus(r.statusCode) then
      match r.whole.asError
      case Ok(e) => Client.Failure(ApiError(r.status, e.message))
      case Err(e) => Client.Failure(DecodeError(e, r.statusCode))
    else
      Client.Failure(Client.UnexpectedError(r.statusCode))
  }

  /** How the two variants compare on a body that reads: outside both
      API-error ranges and 200 they give the same unexpected-status error;
      at 200 they agree when both decoders give the same result; on 500 and
      529 v1.go reports an unexpected status where this variant decodes the
      body, and when that body does not decode the two errors differ. */
  lemma VariantsCompared(r: Client.HttpResponse)
    requires r.readAllError.None?
    ensures r.statusCode != Client.StatusOK && !ApiErrorStatus(r.statusCode) ==>
      Classify(r) == Client.ClassifyV1(r) == Client.Failure(Client.UnexpectedError(r.statusCode))
    ensures r.statusCode == Client.StatusOK && r.whole.asMessage == r.streamed.asMessage ==>
      Classify(r) == Client.ClassifyV1(r)
    ensures (r.statusCode == 500 || r.statusCode == 529) ==>
      Client.ClassifyV1(r) == Client.Failure(Client.UnexpectedError(r.statusCode))
    ensures (r.statusCode == 500 || r.statusCode == 529) && r.whole.asError.Err? ==>
      Classify(r) != Client.ClassifyV1(r)
  {
    if (r.statusCode == 500 || r.statusCode == 529) && r.whole.asError.Err? {
      var d := DecodeError(r.whole.asError.error, r.statusCode);
      var u := Client.UnexpectedError(r.statusCode);
      assert d[0] == 'j' && u[0] == 'u';
    }
  }

  /** A 200 body that the streaming decoder of v1.go accepts but the
      whole-body decoder of this variant rejects (trailing data after the
      JSON value, for one) succeeds in v1.go and fails here with the
      decoder's error. */
  lemma TrailingDataSplitsVariants(r: Client.HttpResponse)
    requires r.statusCode == Client.StatusOK && r.readAllError.None?
    requires r.streamed.asMessage.Ok? && r.whole.asMessage.Err?
    ensures Client.ClassifyV1(r) == Client.Success(r.streamed.asMessage.value)
    ensures Classify(r) == Client.Failure(r.whole.asMessage.error)
  {
  }

  /** `parseBodyJSON` of messages.go, identical to v1.go's. */
  method ParseBodyJSON(req: RequestBody) returns (payload: Payload)
    modifies req.messages
    modifies set k | 0 <= k < req.messages.Length :: req.messages[k].texts
    modifies set k | 0 <= k < req.messages.Length :: req.messages[k].images
    ensures forall k :: 0 <= k < req.messages.Length ==>
      Client.ResolvedFrom(req.messages[k], old(req.messages[k]), old(req.messages[k].texts[..]), old(req.messages[k].images[..]))
    ensures payload == Client.PayloadOf(req)
  {
    payload := Client.ParseBodyJSON(req);
  }
}
