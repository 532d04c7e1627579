/** The streaming side of the client (stream.go): the filter that keeps
    framing noise away from the accumulator, the header map, and `Recv`, the
    step that folds one decoded server-sent event into the accumulated
    message and returns a snapshot together with a signal.

    JSON decoding is outside the model: an event arrives already decoded,
    and an event whose data did not decode arrives as `DecodeFailure`. */
module Stream {
  import opened Text
  import Client

  const MessageStartTag := "message_start"
  const ContentBlockStartTag := "content_block_start"
  const PingTag := "ping"
  const ContentBlockDeltaTag := "content_block_delta"
  const ContentBlockStopTag := "content_block_stop"
  const MessageDeltaTag := "message_delta"
  const MessageStopTag := "message_stop"
  const ErrorTag := "error"

  const TextType := "text"

  /** `ResponseBodyMessagesContentStream`. */
  datatype Block = Block(kind: string, text: string)

  datatype Usage = Usage(inputTokens: int, outputTokens: int)

  /** `ResponseBodyMessagesStream`: the accumulated message. */
  datatype StreamMessage = StreamMessage(
    id: string,
    kind: string,
    role: string,
    content: seq<Block>,
    model: string,
    stopReason: string,
    stopSequence: string,
    usage: Usage)

  /** The zero value of the accumulated message. */
  const EmptyMessage := StreamMessage("", "", "", [], "", "", "", Usage(0, 0))

  /** A server-sent event after decoding its data for its type. */
  datatype Event =
    | MessageStart(message: StreamMessage)
    | BlockDelta(index: int, deltaKind: string, text: string)
    | MessageDelta(stopReason: string, stopSequence: string, outputTokens: int)
    | MessageStop
    | Error(errorMessage: string)
    | DecodeFailure(tag: string, decodeError: string)
    | Other(tag: string)
  {
    /** The SSE event type the event arrived with. */
    function Tag(): string {
      match this
      case MessageStart(_) => MessageStartTag
      case BlockDelta(_, _, _) => ContentBlockDeltaTag
      case MessageDelta(_, _, _) => MessageDeltaTag
      case MessageStop => MessageStopTag
      case Error(_) => ErrorTag
      case DecodeFailure(tag, _) => tag
      case Other(tag) => tag
    }

    /** A decode failure can only come from a type whose data is decoded,
        and `Other` stands for a type `Recv` has no case for. */
    predicate Valid() {
      match this
      case DecodeFailure(tag, _) => tag in {MessageStartTag, ContentBlockDeltaTag, MessageDeltaTag, ErrorTag}
      case Other(tag) => tag !in {MessageStartTag, ContentBlockDeltaTag, MessageDeltaTag, MessageStopTag, ErrorTag}
      case _ => true
    }
  }

  /** The subscription callback's test: ping, content_block_start and
      content_block_stop are dropped, every other type is passed on. */
  predicate Forwarded(tag: string) {
    tag != PingTag && tag != ContentBlockStartTag && tag != ContentBlockStopTag
  }

  /** The events that reach `Recv`, in the order the connection saw them. */
  function Deliver(events: seq<Event>): (d: seq<Event>)
    ensures |d| <= |events|
    ensures forall e :: e in d ==> e in events && Forwarded(e.Tag())
    ensures forall e :: e in events && Forwarded(e.Tag()) ==> e in d
  {
    if events == [] then []
    else (if Forwarded(events[0].Tag()) then [events[0]] else []) + Deliver(events[1..])
  }

  /** Filtering commutes with concatenation, so it never reorders events. */
  lemma {:induction false} DeliverAppend(a: seq<Event>, b: seq<Event>)
    ensures Deliver(a + b) == Deliver(a) + Deliver(b)
  {
    if a == [] {
      assert a + b == b;
    } else {
      assert (a + b)[0] == a[0] && (a + b)[1..] == a[1..] + b;
      DeliverAppend(a[1..], b);
    }
  }

  /** Every event type `Recv` acts on passes the filter; what the filter
      drops would have been ignored anyway. */
  lemma FilteredEventsAreIgnorable(e: Event)
    requires e.Valid()
    ensures !Forwarded(e.Tag()) ==> e.Other?
  {
  }

  /** `defaultHeaders`: the key, the version and the content type always,
      and Anthropic-Beta exactly when a beta is configured. */
  function DefaultHeaders(c: Client.Config): (h: map<string, string>)
    ensures h.Keys == {"X-Api-Key", "Anthropic-Version", "Content-Type"} + (if c.beta != "" then {"Anthropic-Beta"} else {})
    ensures h["X-Api-Key"] == c.apiKey && h["Anthropic-Version"] == c.version && h["Content-Type"] == "application/json"
    ensures "Anthropic-Beta" in h ==> h["Anthropic-Beta"] == c.beta
  {
    Client.Headers(c, "Anthropic-Beta")
  }

  /** What `Recv` takes from its two channels: a decoded event, or a
      connection error. */
  datatype Incoming = Received(event: Event) | ConnectionError(error: string)

  /** The error `Recv` returns beside the snapshot: nil, io.EOF, or an error
      with the given text. */
  datatype Signal = NoError | EndOfStream | Failed(error: string)

  /** The accumulator after one `Recv`, and what the call returns. */
  datatype Transition = Transition(state: StreamMessage, snapshot: StreamMessage, signal: Signal)

  /** The block `Recv` appends for a content delta: always typed "text". */
  function TextBlock(text: string): Block {
    Block(TextType, text)
  }

  /** The effect of one `Recv`, as a function of the accumulator before it.
      Only message_start, content deltas and message_delta change the
      accumulator; the call fails exactly on a connection error, an error
      event or a payload that does not decode, and then the accumulator is
      kept; it ends the stream exactly on message_stop; whenever it does not
      fail, the snapshot is the new accumulator. `Step` is total, but only
      events that satisfy `Event.Valid` stand for something the connection
      can deliver: an `Other` or `DecodeFailure` carrying a type that `Recv`
      handles differently is outside the model. */
  function Step(acc: StreamMessage, inc: Incoming): (t: Transition)
    ensures t.state != acc ==>
      inc.Received? && (inc.event.MessageStart? || inc.event.BlockDelta? || inc.event.MessageDelta?)
    ensures t.signal.Failed? <==> inc.ConnectionError? || inc.event.Error? || inc.event.DecodeFailure?
    ensures t.signal.Failed? ==> t.state == acc
    ensures t.signal == EndOfStream <==> inc == Received(MessageStop)
    ensures !t.signal.Failed? ==> t.snapshot == t.state
  {
    match inc
    case ConnectionError(err) => Transition(acc, EmptyMessage, Failed(err))
    case Received(e) =>
      match e
      case MessageStart(m) =>
        var s := m.(content := [TextBlock("")]);
        Transition(s, s, NoError)
      case BlockDelta(_, _, text) =>
        var s := acc.(content := acc.content + [TextBlock(text)],
                      usage := acc.usage.(outputTokens := acc.usage.outputTokens + Utf8Len(text)));
        Transition(s, s, NoError)
      case MessageDelta(reason, sequence, tokens) =>
        var s := acc.(stopReason := reason, stopSequence := sequence,
                      usage := acc.usage.(outputTokens := acc.usage.outputTokens + tokens));
        Transition(s, s, NoError)
      case MessageStop => Transition(acc, acc, EndOfStream)
      case Error(message) => Transition(acc, acc, Failed(message))
      case DecodeFailure(_, err) => Transition(acc, EmptyMessage, Failed(err))
      case Other(_) => Transition(acc, acc, NoError)
  }

  /** The accumulator after `Recv` has taken `events` in order. */
  function Run(acc: StreamMessage, events: seq<Event>): StreamMessage
    decreases |events|
  {
    if events == [] then acc else Run(Step(acc, Received(events[0])).state, events[1..])
  }

  /** `CreateMessagesStream` as far as `Recv` is concerned: the accumulated
      message it owns. */
  class MessagesStream {
    var message: StreamMessage

    /** A new stream starts from the zero message. */
    constructor ()
      ensures message == EmptyMessage
    {
      message := EmptyMessage;
    }

    /** `Recv`: takes one event or connection error and updates the
        accumulated message in place. */
    method Recv(inc: Incoming) returns (snapshot: StreamMessage, signal: Signal)
      requires inc.Received? ==> inc.event.Valid()
      modifies this
      ensures Transition(message, snapshot, signal) == Step(old(message), inc)
      // message_start: the embedded message, with one empty text block.
      ensures inc.Received? && inc.event.MessageStart? ==>
        message == inc.event.message.(content := [TextBlock("")]) && snapshot == message && signal == NoError
      // content_block_delta: one new text block; output tokens grow by the
      // delta's byte length; nothing else changes.
      ensures inc.Received? && inc.event.BlockDelta? ==>
        && message.content == old(message.content) + [TextBlock(inc.event.text)]
        && message.usage.outputTokens == old(message.usage.outputTokens) + Utf8Len(inc.event.text)
        && message == old(message).(content := message.content, usage := message.usage)
        && message.usage.inputTokens == old(message.usage.inputTokens)
        && snapshot == message && signal == NoError
      // message_delta: stop fields overwritten, output tokens increased,
      // content untouched.
      ensures inc.Received? && inc.event.MessageDelta? ==>
        && message.stopReason == inc.event.stopReason && message.stopSequence == inc.event.stopSequence
        && message.usage.outputTokens == old(message.usage.outputTokens) + inc.event.outputTokens
        && message == old(message).(stopReason := message.stopReason, stopSequence := message.stopSequence,
                                    usage := message.usage)
        && message.usage.inputTokens == old(message.usage.inputTokens)
        && snapshot == message && signal == NoError
      // Every other input leaves the accumulator as it was.
      ensures inc.ConnectionError? || !(inc.event.MessageStart? || inc.event.BlockDelta? || inc.event.MessageDelta?) ==>
        message == old(message)
      ensures inc.Received? && inc.event.MessageStop? ==> snapshot == message && signal == EndOfStream
      ensures inc.Received? && inc.event.Error? ==> snapshot == message && signal == Failed(inc.event.errorMessage)
      ensures inc.Received? && inc.event.Other? ==> snapshot == message && signal == NoError
      // A payload that does not decode, or a connection error: the zero
      // message and the error.
      ensures inc.Received? && inc.event.DecodeFailure? ==>
        snapshot == EmptyMessage && signal == Failed(inc.event.decodeError)
      ensures inc.ConnectionError? ==> snapshot == EmptyMessage && signal == Failed(inc.error)
    {
      match inc {
        case ConnectionError(err) =>
          return EmptyMessage, Failed(err);
        case Received(e) =>
          match e {
            case MessageStart(m) =>
              message := m;
              message := message.(content := [TextBlock("")]);
              return message, NoError;
            case BlockDelta(_, _, text) =>
              message := message.(content := message.content + [TextBlock(text)]);
              message := message.(usage := message.usage.(outputTokens := message.usage.outputTokens + Utf8Len(text)));
              return message, NoError;
            case MessageDelta(reason, sequence, tokens) =>
              message := message.(stopReason := reason);
              message := message.(stopSequence := sequence);
              message := message.(usage := message.usage.(outputTokens := message.usage.outputTokens + tokens));
              return message, NoError;
            case MessageStop =>
              return message, EndOfStream;
            case Error(text) =>
              return message, Failed(text);
            case DecodeFailure(_, err) =>
              return EmptyMessage, Failed(err);
            case Other(_) =>
          }
      }
      return message, NoError;
    }
  }

  /** A run of content deltas and nothing else. */
  predicate AllDeltas(events: seq<Event>) {
    forall i :: 0 <= i < |events| ==> events[i].BlockDelta?
  }

  /** The text fragments a run of content deltas carries. */
  function DeltaTexts(events: seq<Event>): (ts: seq<string>)
    requires AllDeltas(events)
    ensures |ts| == |events| && forall i :: 0 <= i < |ts| ==> ts[i] == events[i].text
  {
    seq(|events|, i requires 0 <= i < |events| && events[i].BlockDelta? => events[i].text)
  }

  /** One text block per fragment. */
  function TextBlocks(ts: seq<string>): (bs: seq<Block>)
    ensures |bs| == |ts| && forall i :: 0 <= i < |bs| ==> bs[i] == TextBlock(ts[i])
  {
    seq(|ts|, i requires 0 <= i < |ts| => TextBlock(ts[i]))
  }

  /** The texts of a list of blocks, in order. */
  function BlockTexts(bs: seq<Block>): (ts: seq<string>)
    ensures |ts| == |bs| && forall i :: 0 <= i < |ts| ==> ts[i] == bs[i].text
  {
    seq(|bs|, i requires 0 <= i < |bs| => bs[i].text)
  }

  /** The fragments joined in order. */
  function Concat(ts: seq<string>): string {
    if ts == [] then "" else ts[0] + Concat(ts[1..])
  }

  /** The accumulator with `ts` appended as text blocks and their byte
      length added to the output tokens. */
  function AppendFragments(acc: StreamMessage, ts: seq<string>): StreamMessage {
    acc.(content := acc.content + TextBlocks(ts),
         usage := acc.usage.(outputTokens := acc.usage.outputTokens + Utf8Len(Concat(ts))))
  }

  /** Content deltas after any accumulator: one text block per delta, in
      order, the existing blocks untouched, output tokens grown by the byte
      length of all fragments together, every other field unchanged. */
  lemma {:induction false} DeltasAppendBlocks(acc: StreamMessage, ds: seq<Event>)
    requires AllDeltas(ds)
    decreases |ds|
    ensures Run(acc, ds) == acc.(
      content := acc.content + TextBlocks(DeltaTexts(ds)),
      usage := acc.usage.(outputTokens := acc.usage.outputTokens + Utf8Len(Concat(DeltaTexts(ds)))))
  {
    if ds == [] {
      assert acc.content + TextBlocks([]) == acc.content;
    } else {
      var ts := DeltaTexts(ds);
      var acc1 := AppendFragments(acc, [ts[0]]);
      DeltaStep(acc, ds);
      DeltaTextsTail(ds);
      DeltasAppendBlocks(acc1, ds[1..]);
      AppendFragmentsCons(acc, ts);
    }
  }

  /** One content delta is one appended fragment. */
  lemma DeltaStep(acc: StreamMessage, ds: seq<Event>)
    requires ds != [] && AllDeltas(ds)
    ensures Run(acc, ds) == Run(AppendFragments(acc, [ds[0].text]), ds[1..])
  {
    var t := ds[0].text;
    assert ds[0].BlockDelta?;
    SingleFragment(t);
    assert Step(acc, Received(ds[0])).state == AppendFragments(acc, [t]);
  }

  /** A single fragment is one block and its own concatenation. */
  lemma SingleFragment(t: string)
    ensures TextBlocks([t]) == [TextBlock(t)] && Concat([t]) == t
  {
    assert [t][1..] == [];
    assert t + "" == t;
  }

  /** The rest of a run of deltas is a run of deltas, with the rest of the texts. */
  lemma DeltaTextsTail(ds: seq<Event>)
    requires ds != [] && AllDeltas(ds)
    ensures AllDeltas(ds[1..]) && DeltaTexts(ds[1..]) == DeltaTexts(ds)[1..]
  {
    forall i | 0 <= i < |ds| - 1 ensures ds[1..][i].BlockDelta? {
      assert ds[1..][i] == ds[i + 1];
    }
  }

  /** Appending the first fragment and then the rest is appending them all. */
  lemma AppendFragmentsCons(acc: StreamMessage, ts: seq<string>)
    requires ts != []
    ensures AppendFragments(AppendFragments(acc, [ts[0]]), ts[1..]) == AppendFragments(acc, ts)
  {
    SingleFragment(ts[0]);
    assert TextBlocks(ts) == [TextBlock(ts[0])] + TextBlocks(ts[1..]);
    assert acc.content + [TextBlock(ts[0])] + TextBlocks(ts[1..]) == acc.content + TextBlocks(ts);
    Utf8LenAppend(ts[0], Concat(ts[1..]));
    assert Concat(ts) == ts[0] + Concat(ts[1..]);
  }

  /** The texts of the blocks built from fragments are those fragments. */
  lemma BlockTextsOfTextBlocks(ts: seq<string>)
    ensures BlockTexts([TextBlock("")] + TextBlocks(ts)) == [""] + ts
  {
  }

  /** message_start followed by n content deltas: n + 1 text blocks, the
      first empty and then one per delta, whose texts joined give the
      deltas joined; output tokens are the start value plus the byte length
      of all fragments; identity, stop fields and input tokens come from
      the start message. */
  lemma StartThenDeltas(acc: StreamMessage, m: StreamMessage, ds: seq<Event>)
    requires AllDeltas(ds)
    ensures var s := Run(acc, [MessageStart(m)] + ds);
      && |s.content| == |ds| + 1
      && s.content[0] == TextBlock("")
      && (forall i :: 1 <= i <= |ds| ==> s.content[i] == TextBlock(ds[i - 1].text))
      && Concat(BlockTexts(s.content)) == Concat(DeltaTexts(ds))
      && s.usage.outputTokens == m.usage.outputTokens + Utf8Len(Concat(DeltaTexts(ds)))
      && s == m.(content := s.content, usage := s.usage)
      && s.usage.inputTokens == m.usage.inputTokens
  {
    var events := [MessageStart(m)] + ds;
    var start := m.(content := [TextBlock("")]);
    assert events[0] == MessageStart(m) && events[1..] == ds;
    assert Run(acc, events) == Run(start, ds);
    DeltasAppendBlocks(start, ds);
    BlockTextsOfTextBlocks(DeltaTexts(ds));
    assert Concat([""] + DeltaTexts(ds)) == "" + Concat(DeltaTexts(ds));
  }

  /** Fields that only message_start sets. */
  predicate SameIdentity(a: StreamMessage, b: StreamMessage) {
    a.id == b.id && a.kind == b.kind && a.role == b.role && a.model == b.model
    && a.usage.inputTokens == b.usage.inputTokens
  }

  predicate NoStart(events: seq<Event>) {
    forall i :: 0 <= i < |events| ==> !events[i].MessageStart?
  }

  /** Without a message_start, `Recv` never changes the message's identity
      or input tokens and never drops or rewrites a block: the old content
      is a prefix of the new. */
  lemma {:induction false} NoStartKeepsIdentityAndBlocks(acc: StreamMessage, events: seq<Event>)
    requires NoStart(events)
    ensures SameIdentity(Run(acc, events), acc)
    ensures |acc.content| <= |Run(acc, events).content|
    ensures Run(acc, events).content[..|acc.content|] == acc.content
    decreases |events|
  {
    if events != [] {
      var acc1 := Step(acc, Received(events[0])).state;
      assert NoStart(events[1..]) by {
        forall i | 0 <= i < |events| - 1 ensures !events[1..][i].MessageStart? {
          assert events[1..][i] == events[i + 1];
        }
      }
      NoStartKeepsIdentityAndBlocks(acc1, events[1..]);
      assert acc1.content[..|acc.content|] == acc.content;
    }
  }

  /** Without a message_start and with no negative usage delta, output
      tokens never decrease. */
  lemma {:induction false} OutputTokensNeverDecrease(acc: StreamMessage, events: seq<Event>)
    requires NoStart(events)
    requires forall i :: 0 <= i < |events| && events[i].MessageDelta? ==> events[i].outputTokens >= 0
    ensures Run(acc, events).usage.outputTokens >= acc.usage.outputTokens
    decreases |events|
  {
    if events != [] {
      var acc1 := Step(acc, Received(events[0])).state;
      var rest := events[1..];
      assert forall i :: 0 <= i < |rest| ==> rest[i] == events[i + 1];
      OutputTokensNeverDecrease(acc1, rest);
    }
  }

  /** Terminal and ignored inputs leave the accumulator alone; message_stop
      and error return it, a decode failure returns the zero message. */
  lemma TerminalInputsKeepAccumulator(acc: StreamMessage, inc: Incoming)
    requires inc.ConnectionError? || !(inc.event.MessageStart? || inc.event.BlockDelta? || inc.event.MessageDelta?)
    ensures Step(acc, inc).state == acc
    ensures Step(acc, inc).signal.NoError? <==> inc.Received? && inc.event.Other?
    ensures Step(acc, inc).signal == EndOfStream <==> inc.Received? && inc.event.MessageStop?
  {
  }

  /** Whatever the accumulator, a content delta followed by a message delta
      counts output tokens twice over: once as the fragment's byte length
      and once as the reported usage. */
  lemma OutputTokensCountedTwice(acc: StreamMessage, text: string, tokens: int)
    ensures Run(acc, [BlockDelta(0, "text_delta", text), MessageDelta("end_turn", "", tokens)]).usage.outputTokens
      == acc.usage.outputTokens + Utf8Len(text) + tokens
  {
    var events := [BlockDelta(0, "text_delta", text), MessageDelta("end_turn", "", tokens)];
    var acc1 := Step(acc, Received(events[0])).state;
    var acc2 := Step(acc1, Received(events[1])).state;
    assert events[1..] == [events[1]] && events[1..][1..] == [];
    assert Run(acc, events) == Run(acc1, [events[1]]) == Run(acc2, []) == acc2;
  }

  /** Feeding two runs of events one after the other. */
  lemma {:induction false} RunAppend(acc: StreamMessage, a: seq<Event>, b: seq<Event>)
    decreases |a|
    ensures Run(acc, a + b) == Run(Run(acc, a), b)
  {
    if a == [] {
      assert a + b == b;
    } else {
      assert (a + b)[0] == a[0] && (a + b)[1..] == a[1..] + b;
      RunAppend(Step(acc, Received(a[0])).state, a[1..], b);
    }
  }

  /** Start, two content deltas and a message delta: three text blocks, the
      stop reason of the delta, and output tokens counted as the start value
      plus the byte lengths of both fragments plus the reported usage. */
  lemma StartTwoDeltasMessageDelta(m: StreamMessage, t1: string, t2: string, reason: string, n: int)
    ensures var s := Run(EmptyMessage, [MessageStart(m), BlockDelta(0, "text_delta", t1),
                                        BlockDelta(0, "text_delta", t2), MessageDelta(reason, "", n)]);
      && s.content == [TextBlock(""), TextBlock(t1), TextBlock(t2)]
      && s.stopReason == reason && s.id == m.id && s.model == m.model
      && s.usage.outputTokens == m.usage.outputTokens + Utf8Len(t1) + Utf8Len(t2) + n
  {
    var events := [MessageStart(m), BlockDelta(0, "text_delta", t1),
                   BlockDelta(0, "text_delta", t2), MessageDelta(reason, "", n)];
    var s1 := Step(EmptyMessage, Received(events[0])).state;
    var s2 := Step(s1, Received(events[1])).state;
    var s3 := Step(s2, Received(events[2])).state;
    var s4 := Step(s3, Received(events[3])).state;
    assert events[1..][1..][1..][1..] == [];
    assert Run(EmptyMessage, events) == Run(s1, events[1..]);
    assert Run(s1, events[1..]) == Run(s2, events[1..][1..]);
    assert Run(s2, events[1..][1..]) == Run(s3, events[1..][1..][1..]);
    assert Run(s3, events[1..][1..][1..]) == s4;
    assert s3.content == [TextBlock(""), TextBlock(t1), TextBlock(t2)];
  }

  /** The stream start, "Hello", ", world!", a message delta reporting 5
      output tokens ends in three text blocks ("", "Hello", ", world!"), not
      one, with 13 + 5 output tokens added to the start value; a following
      message_stop returns that message once more with the end signal. */
  lemma HelloWorldStream(m: StreamMessage)
    ensures var s := Run(EmptyMessage, [MessageStart(m), BlockDelta(0, "text_delta", "Hello"),
                                        BlockDelta(0, "text_delta", ", world!"), MessageDelta("end_turn", "", 5)]);
      && s.content == [TextBlock(""), TextBlock("Hello"), TextBlock(", world!")]
      && s.usage.outputTokens == m.usage.outputTokens + 18
      && Step(s, Received(MessageStop)) == Transition(s, s, EndOfStream)
  {
    StartTwoDeltasMessageDelta(m, "Hello", ", world!", "end_turn", 5);
    Utf8LenIsLengthIffAscii("Hello");
    Utf8LenIsLengthIffAscii(", world!");
  }

  /** A thinking delta and a text delta give two separate blocks after the
      initial empty one, all three typed "text": the delta's type is not
      consulted and nothing is merged. */
  lemma ThinkingThenTextStream(m: StreamMessage)
    ensures Run(EmptyMessage, [MessageStart(m), BlockDelta(0, "thinking_delta", "abc"), BlockDelta(1, "text_delta", "def")]).content
      == [TextBlock(""), TextBlock("abc"), TextBlock("def")]
  {
    var ds := [BlockDelta(0, "thinking_delta", "abc"), BlockDelta(1, "text_delta", "def")];
    assert [MessageStart(m), ds[0], ds[1]] == [MessageStart(m)] + ds;
    StartThenDeltas(EmptyMessage, m, ds);
  }
}
