/**
 * The provider payload of src/agent/turn.ts: the transcript without operational messages, converted
 * message by message, or a frozen prefix of what was sent before followed by the converted tail.
 */
module WirePayload {
  import opened Wrappers
  import opened Seqs

  datatype Block =
    | Text(text: string)
    | ToolUse(id: string, name: string, input: string)
    | Reasoning(reasoningId: string, encryptedContent: string, rawContent: string, signature: string, summary: string)
    | Image(source: string)
    | ToolResult(toolUseId: string, content: string, isError: bool, image: string, durationMs: int)

  /** What goes over the wire: the duration of a tool result stays at home. */
  datatype ChatBlock =
    | ChatText(text: string)
    | ChatToolUse(id: string, name: string, input: string)
    | ChatReasoning(reasoningId: string, encryptedContent: string, rawContent: string, signature: string,
                    summary: string)
    | ChatImage(source: string)
    | ChatToolResult(toolUseId: string, content: string, isError: bool, image: string)

  datatype Content<B> = Plain(text: string) | Blocks(blocks: seq<B>)

  datatype OperationalEvent = OperationalEvent(kind: string, id: string, code: string)

  datatype Message = Message(role: string, content: Content<Block>, timestamp: int,
                             operationalEvent: Option<OperationalEvent>)

  datatype ChatMessage = ChatMessage(role: string, content: Content<ChatBlock>)

  predicate IsFrameworkOperational(m: Message) {
    && m.role == "assistant" && m.operationalEvent.Some?
    && var event := m.operationalEvent.value;
       && event.kind == "framework_terminal_failure" && event.id != ""
       && (event.code == "provider_failure" || event.code == "context_capacity")
  }

  predicate IsConversation(m: Message) { !IsFrameworkOperational(m) }

  predicate AnyOperational(messages: seq<Message>) {
    exists i :: 0 <= i < |messages| && IsFrameworkOperational(messages[i])
  }

  /** Without operational messages the list itself, not a copy. */
  function ModelConversation(messages: seq<Message>): seq<Message> {
    if AnyOperational(messages) then Filter(IsConversation, messages) else messages
  }

  function ToChatBlock(b: Block): ChatBlock {
    match b
    case Text(text) => ChatText(text)
    case ToolUse(id, name, input) => ChatToolUse(id, name, input)
    case Reasoning(id, encrypted, raw, signature, summary) => ChatReasoning(id, encrypted, raw, signature, summary)
    case Image(source) => ChatImage(source)
    case ToolResult(id, content, isError, image, _) => ChatToolResult(id, content, isError, image)
  }

  function ToChat(m: Message): ChatMessage {
    match m.content
    case Plain(text) => ChatMessage(m.role, Plain(text))
    case Blocks(blocks) => ChatMessage(m.role, Blocks(Map(ToChatBlock, blocks)))
  }

  function MessagesToChat(messages: seq<Message>): seq<ChatMessage> {
    Map(ToChat, ModelConversation(messages))
  }

  datatype WirePrefix = WirePrefix(sourceCount: int, messages: seq<ChatMessage>)

  /** Three characters of JSON to a token, rounded up; `jsonLength` measures one message. */
  function ApproxTokens(jsonLength: ChatMessage -> nat, payload: seq<ChatMessage>): int {
    (Sum(m => jsonLength(m), payload) + 2) / 3
  }

  predicate OverValve(jsonLength: ChatMessage -> nat, contextWindow: int, payload: seq<ChatMessage>) {
    0 < contextWindow && 98 * contextWindow < 100 * ApproxTokens(jsonLength, payload)
  }

  predicate Usable(messages: seq<Message>, prefix: Option<WirePrefix>) {
    && prefix.Some?
    && 0 < prefix.value.sourceCount <= |messages|
    && !AnyOperational(messages[..prefix.value.sourceCount])
    && prefix.value.messages != []
  }

  datatype Assembled = Assembled(chatMessages: seq<ChatMessage>, usedWirePrefix: bool)

  function Assemble(jsonLength: ChatMessage -> nat, messages: seq<Message>, prefix: Option<WirePrefix>,
                    contextWindow: int): Assembled
  {
    if !Usable(messages, prefix) then Assembled(MessagesToChat(messages), false)
    else
      var assembled := prefix.value.messages + MessagesToChat(messages[prefix.value.sourceCount..]);
      if OverValve(jsonLength, contextWindow, assembled) then Assembled(MessagesToChat(messages), false)
      else Assembled(assembled, true)
  }

  /** What the caller keeps of a payload for the next call. */
  function Capture(messages: seq<Message>, payload: seq<ChatMessage>): Option<WirePrefix> {
    Some(WirePrefix(|messages|, payload))
  }

  // ---------------------------------------------------------------- conversion

  lemma {:induction false} ConversationIsFilter(messages: seq<Message>)
    ensures ModelConversation(messages) == Filter(IsConversation, messages)
  {
    if !AnyOperational(messages) {
      FilterAll(IsConversation, messages);
    }
  }

  lemma MapAppend<T, U>(f: T -> U, xs: seq<T>, ys: seq<T>)
    ensures Map(f, xs + ys) == Map(f, xs) + Map(f, ys)
  {
  }

  /** Conversion goes message by message: a transcript that only grows converts to a payload that only grows. */
  lemma ConversionAppends(a: seq<Message>, b: seq<Message>)
    ensures MessagesToChat(a + b) == MessagesToChat(a) + MessagesToChat(b)
  {
    ConversationIsFilter(a);
    ConversationIsFilter(b);
    ConversationIsFilter(a + b);
    FilterAppend(IsConversation, a, b);
    MapAppend(ToChat, ModelConversation(a), ModelConversation(b));
  }

  lemma ConversionOfPrefix(a: seq<Message>, b: seq<Message>)
    requires a <= b
    ensures MessagesToChat(b) == MessagesToChat(a) + MessagesToChat(b[|a|..])
    ensures MessagesToChat(a) <= MessagesToChat(b)
  {
    assert a + b[|a|..] == b;
    ConversionAppends(a, b[|a|..]);
  }

  // ---------------------------------------------------------------- what the payload says

  /** What the model is to hear of a message. */
  datatype Spoken = Spoken(role: string, content: Content<Block>)

  function Said(m: Message): Spoken { Spoken(m.role, m.content) }

  /** A failure notice of the framework in the assistant's name, with an identifier and a known code. */
  predicate IsNotice(m: Message) {
    match m.operationalEvent
    case None => false
    case Some(OperationalEvent(kind, id, code)) =>
      && m.role == "assistant"
      && kind == "framework_terminal_failure"
      && |id| > 0
      && code in ["provider_failure", "context_capacity"]
  }

  predicate IsHeard(m: Message) { !IsNotice(m) }

  /** The transcript without the notices. */
  function Heard(messages: seq<Message>): seq<Message> { Filter(IsHeard, messages) }

  /** The durations of the tool results, in order. */
  function BlockTimes(blocks: seq<Block>): seq<int> {
    if blocks == [] then []
    else (match blocks[0] case ToolResult(_, _, _, _, ms) => [ms] case _ => []) + BlockTimes(blocks[1..])
  }

  function Times(messages: seq<Message>): seq<int> {
    if messages == [] then []
    else
      (match messages[0].content case Plain(_) => [] case Blocks(blocks) => BlockTimes(blocks))
      + Times(messages[1..])
  }

  function RestoreBlock(b: ChatBlock, durationMs: int): Block {
    match b
    case ChatText(text) => Text(text)
    case ChatToolUse(id, name, input) => ToolUse(id, name, input)
    case ChatReasoning(reasoningId, encryptedContent, rawContent, signature, summary) =>
      Reasoning(reasoningId, encryptedContent, rawContent, signature, summary)
    case ChatImage(source) => Image(source)
    case ChatToolResult(toolUseId, content, isError, image) =>
      ToolResult(toolUseId, content, isError, image, durationMs)
  }

  /** The blocks again, each tool result taking the next duration, and the durations left over. */
  function RestoreBlocks(blocks: seq<ChatBlock>, times: seq<int>): (seq<Block>, seq<int>) {
    if blocks == [] then ([], times)
    else
      var timed := blocks[0].ChatToolResult? && times != [];
      var (tail, rest) := RestoreBlocks(blocks[1..], if timed then times[1..] else times);
      ([RestoreBlock(blocks[0], if timed then times[0] else 0)] + tail, rest)
  }

  function Restore(payload: seq<ChatMessage>, times: seq<int>): seq<Spoken> {
    if payload == [] then []
    else match payload[0].content
      case Plain(text) => [Spoken(payload[0].role, Plain(text))] + Restore(payload[1..], times)
      case Blocks(blocks) =>
        var (restored, rest) := RestoreBlocks(blocks, times);
        [Spoken(payload[0].role, Blocks(restored))] + Restore(payload[1..], rest)
  }

  lemma MapCons<T, U>(f: T -> U, xs: seq<T>)
    requires xs != []
    ensures Map(f, xs) == [f(xs[0])] + Map(f, xs[1..])
  {
  }

  lemma {:induction false} BlocksAreRestored(blocks: seq<Block>, more: seq<int>)
    ensures RestoreBlocks(Map(ToChatBlock, blocks), BlockTimes(blocks) + more) == (blocks, more)
    decreases |blocks|
  {
    if blocks == [] {
      assert [] + more == more;
    } else {
      var rest := BlockTimes(blocks[1..]) + more;
      MapCons(ToChatBlock, blocks);
      BlocksAreRestored(blocks[1..], more);
      match blocks[0] {
        case ToolResult(_, _, _, _, ms) => assert BlockTimes(blocks) + more == [ms] + rest;
        case _ => assert BlockTimes(blocks) + more == rest;
      }
      assert Map(ToChatBlock, blocks)[1..] == Map(ToChatBlock, blocks[1..]);
      assert [blocks[0]] + blocks[1..] == blocks;
    }
  }

  lemma {:induction false} MessagesAreRestored(messages: seq<Message>)
    ensures Restore(Map(ToChat, messages), Times(messages)) == Map(Said, messages)
    decreases |messages|
  {
    if messages != [] {
      MapCons(ToChat, messages);
      MapCons(Said, messages);
      MessagesAreRestored(messages[1..]);
      assert Map(ToChat, messages)[1..] == Map(ToChat, messages[1..]);
      match messages[0].content {
        case Plain(_) => assert Times(messages) == Times(messages[1..]);
        case Blocks(blocks) => BlocksAreRestored(blocks, Times(messages[1..]));
      }
    }
  }

  /**
   * The payload says everything and nothing else: with the durations of the tool results, which stay at
   * home, it gives back the roles and contents of all messages that are not notices, field by field.
   */
  lemma PayloadSaysItAll(messages: seq<Message>)
    ensures Restore(MessagesToChat(messages), Times(Heard(messages))) == Map(Said, Heard(messages))
  {
    ConversationIsFilter(messages);
    FilterCongruence(IsConversation, IsHeard, messages);
    MessagesAreRestored(Heard(messages));
  }

  // ---------------------------------------------------------------- one call

  /** The frozen messages are what their part of the transcript converts to. */
  ghost predicate Genuine(messages: seq<Message>, prefix: Option<WirePrefix>) {
    prefix.Some? && 0 <= prefix.value.sourceCount <= |messages| ==>
      prefix.value.messages == MessagesToChat(messages[..prefix.value.sourceCount])
  }

  /** With a genuine prefix the payload is the conversion of the whole transcript, used or not. */
  lemma GenuinePrefixChangesNothing(jsonLength: ChatMessage -> nat, messages: seq<Message>, prefix: Option<WirePrefix>,
                                    contextWindow: int)
    requires Genuine(messages, prefix)
    ensures Assemble(jsonLength, messages, prefix, contextWindow).chatMessages == MessagesToChat(messages)
  {
    if Usable(messages, prefix) {
      ConversionOfPrefix(messages[..prefix.value.sourceCount], messages);
    }
  }

  /** The characters of a payload. */
  function Length(jsonLength: ChatMessage -> nat, payload: seq<ChatMessage>): nat {
    if payload == [] then 0 else jsonLength(payload[0]) + Length(jsonLength, payload[1..])
  }

  lemma {:induction false} LengthIsSum(jsonLength: ChatMessage -> nat, payload: seq<ChatMessage>)
    ensures Length(jsonLength, payload) == Sum(m => jsonLength(m), payload)
  {
    if payload != [] {
      LengthIsSum(jsonLength, payload[1..]);
    }
  }

  /** At three characters to a token it fills at most 98% of the window, when that is known. */
  predicate Fits(jsonLength: ChatMessage -> nat, contextWindow: int, payload: seq<ChatMessage>) {
    contextWindow <= 0 || Length(jsonLength, payload) <= 3 * (98 * contextWindow / 100)
  }

  lemma FitsIsBelowValve(jsonLength: ChatMessage -> nat, contextWindow: int, payload: seq<ChatMessage>)
    ensures Fits(jsonLength, contextWindow, payload) <==> !OverValve(jsonLength, contextWindow, payload)
  {
    LengthIsSum(jsonLength, payload);
  }

  /** Something is frozen, none of it beyond the transcript, and no notice is among it. */
  predicate Freezes(messages: seq<Message>, prefix: WirePrefix) {
    && prefix.messages != [] && 1 <= prefix.sourceCount <= |messages|
    && forall i :: 0 <= i < prefix.sourceCount ==> IsHeard(messages[i])
  }

  /**
   * What is sent, exactly: the frozen messages and the conversion of the rest, if a prefix freezes a part
   * of the transcript without notices and both together fit the window; otherwise the conversion of the
   * whole transcript.
   */
  lemma PayloadExactly(jsonLength: ChatMessage -> nat, messages: seq<Message>, prefix: Option<WirePrefix>,
                       contextWindow: int)
    ensures Assemble(jsonLength, messages, prefix, contextWindow)
            == if prefix.Some? && Freezes(messages, prefix.value)
                  && Fits(jsonLength, contextWindow, Continued(prefix.value, messages))
               then Assembled(Continued(prefix.value, messages), true)
               else Assembled(MessagesToChat(messages), false)
  {
    if prefix.Some? && 1 <= prefix.value.sourceCount <= |messages| {
      var frozen := messages[..prefix.value.sourceCount];
      assert forall i :: 0 <= i < |frozen| ==> frozen[i] == messages[i];
      FitsIsBelowValve(jsonLength, contextWindow, Continued(prefix.value, messages));
    }
  }

  // ---------------------------------------------------------------- runs

  /** One call of a run: the transcript it sends and the context window it knows of. */
  datatype Sending = Sending(transcript: seq<Message>, contextWindow: int)

  /** Transcripts only get longer. */
  ghost predicate AppendOnly(run: seq<Sending>) {
    forall i :: 0 < i < |run| ==> Grows(run, i)
  }

  ghost predicate Grows(run: seq<Sending>, i: nat)
    requires 0 < i < |run|
  {
    run[i - 1].transcript <= run[i].transcript
  }

  /** The prefix that call k finds: the one the run began with, then each payload in turn. */
  function PrefixAt(jsonLength: ChatMessage -> nat, frozen: Option<WirePrefix>, run: seq<Sending>, k: nat)
    : Option<WirePrefix>
    requires k <= |run|
    decreases k, 0
  {
    if k == 0 then frozen
    else Capture(run[k - 1].transcript, PayloadAt(jsonLength, frozen, run, k - 1).chatMessages)
  }

  function PayloadAt(jsonLength: ChatMessage -> nat, frozen: Option<WirePrefix>, run: seq<Sending>, k: nat): Assembled
    requires k < |run|
    decreases k, 1
  {
    Assemble(jsonLength, run[k].transcript, PrefixAt(jsonLength, frozen, run, k), run[k].contextWindow)
  }

  lemma {:induction false} PayloadsAreConversions(jsonLength: ChatMessage -> nat, frozen: Option<WirePrefix>,
                                                  run: seq<Sending>, k: nat)
    requires AppendOnly(run) && k < |run| && Genuine(run[0].transcript, frozen)
    requires frozen.Some? ==> frozen.value.sourceCount <= |run[0].transcript|
    ensures PayloadAt(jsonLength, frozen, run, k).chatMessages == MessagesToChat(run[k].transcript)
    decreases k
  {
    if k > 0 {
      PayloadsAreConversions(jsonLength, frozen, run, k - 1);
      assert Grows(run, k);
      assert run[k].transcript[..|run[k - 1].transcript|] == run[k - 1].transcript;
    }
    GenuinePrefixChangesNothing(jsonLength, run[k].transcript, PrefixAt(jsonLength, frozen, run, k),
                                run[k].contextWindow);
  }

  /**
   * A run that begins without a frozen prefix, or with a genuine one, sends the conversion of its
   * transcript each time, and each payload begins with the one before: whatever operational
   * messages appear and however often the size valve opens.
   */
  lemma GenuineRunsOnlyAppend(jsonLength: ChatMessage -> nat, frozen: Option<WirePrefix>, run: seq<Sending>, k: nat)
    requires AppendOnly(run) && k + 1 < |run| && Genuine(run[0].transcript, frozen)
    requires frozen.Some? ==> frozen.value.sourceCount <= |run[0].transcript|
    ensures PayloadAt(jsonLength, frozen, run, k).chatMessages == MessagesToChat(run[k].transcript)
    ensures PayloadAt(jsonLength, frozen, run, k).chatMessages <= PayloadAt(jsonLength, frozen, run, k + 1).chatMessages
  {
    PayloadsAreConversions(jsonLength, frozen, run, k);
    PayloadsAreConversions(jsonLength, frozen, run, k + 1);
    assert Grows(run, k + 1);
    ConversionOfPrefix(run[k].transcript, run[k + 1].transcript);
  }

  /** How much of the transcript is frozen when call k is made. */
  function FrozenCount(run: seq<Sending>, prefix: WirePrefix, k: nat): int
    requires k < |run|
  {
    if k == 0 then prefix.sourceCount else |run[k - 1].transcript|
  }

  /** There is something frozen, and no operational message in it. */
  ghost predicate Sound(run: seq<Sending>, prefix: WirePrefix, k: nat)
    requires k < |run|
  {
    && 0 < prefix.sourceCount <= FrozenCount(run, prefix, k) <= |run[k].transcript|
    && !AnyOperational(run[k].transcript[..FrozenCount(run, prefix, k)])
    && prefix.messages != []
  }

  /** The payload that the frozen prefix calls for. */
  function Continued(prefix: WirePrefix, transcript: seq<Message>): seq<ChatMessage>
    requires 0 <= prefix.sourceCount <= |transcript|
  {
    prefix.messages + MessagesToChat(transcript[prefix.sourceCount..])
  }

  ghost predicate BelowValve(jsonLength: ChatMessage -> nat, prefix: WirePrefix, sending: Sending) {
    0 <= prefix.sourceCount <= |sending.transcript| ==>
      !OverValve(jsonLength, sending.contextWindow, Continued(prefix, sending.transcript))
  }

  ghost predicate UndisturbedAt(jsonLength: ChatMessage -> nat, prefix: WirePrefix, run: seq<Sending>, k: nat)
    requires k < |run|
  {
    Sound(run, prefix, k) && BelowValve(jsonLength, prefix, run[k])
  }

  ghost predicate Undisturbed(jsonLength: ChatMessage -> nat, prefix: WirePrefix, run: seq<Sending>, k: nat)
    requires k < |run|
  {
    forall i :: 0 <= i <= k ==> UndisturbedAt(jsonLength, prefix, run, i)
  }

  lemma UsedWhenUsable(jsonLength: ChatMessage -> nat, messages: seq<Message>, prefix: WirePrefix, contextWindow: int)
    requires Usable(messages, Some(prefix))
    requires !OverValve(jsonLength, contextWindow, Continued(prefix, messages))
    ensures Assemble(jsonLength, messages, Some(prefix), contextWindow) == Assembled(Continued(prefix, messages), true)
  {
  }

  /** A captured payload that continues the frozen prefix is continued in turn. */
  lemma CapturedContinues(jsonLength: ChatMessage -> nat, prefix: WirePrefix, a: seq<Message>, b: seq<Message>,
                          contextWindow: int)
    requires a <= b && 0 < prefix.sourceCount <= |a| && prefix.messages != [] && !AnyOperational(b[..|a|])
    requires !OverValve(jsonLength, contextWindow, Continued(prefix, b))
    ensures Assemble(jsonLength, b, Capture(a, Continued(prefix, a)), contextWindow)
            == Assembled(Continued(prefix, b), true)
  {
    var captured := WirePrefix(|a|, Continued(prefix, a));
    ContinuedFurther(prefix, a, b);
    assert Continued(captured, b) == Continued(prefix, b);
    UsedWhenUsable(jsonLength, b, captured, contextWindow);
  }

  lemma PayloadAfter(jsonLength: ChatMessage -> nat, frozen: Option<WirePrefix>, run: seq<Sending>, k: nat,
                     sent: seq<ChatMessage>)
    requires 0 < k < |run| && PayloadAt(jsonLength, frozen, run, k - 1).chatMessages == sent
    ensures PayloadAt(jsonLength, frozen, run, k)
            == Assemble(jsonLength, run[k].transcript, Capture(run[k - 1].transcript, sent), run[k].contextWindow)
  {
  }

  /** Whatever was frozen, a run undisturbed by operational messages and the valve goes on from it. */
  lemma {:induction false} FrozenRunsContinue(jsonLength: ChatMessage -> nat, prefix: WirePrefix, run: seq<Sending>,
                                              k: nat)
    requires AppendOnly(run) && k < |run| && Undisturbed(jsonLength, prefix, run, k)
    ensures 0 <= prefix.sourceCount <= |run[k].transcript|
    ensures PayloadAt(jsonLength, Some(prefix), run, k) == Assembled(Continued(prefix, run[k].transcript), true)
  {
    var b := run[k].transcript;
    assert UndisturbedAt(jsonLength, prefix, run, k);
    if k == 0 {
      UsedWhenUsable(jsonLength, b, prefix, run[0].contextWindow);
    } else {
      var a := run[k - 1].transcript;
      assert Grows(run, k);
      FrozenRunsContinue(jsonLength, prefix, run, k - 1);
      PayloadAfter(jsonLength, Some(prefix), run, k, Continued(prefix, a));
      CapturedContinues(jsonLength, prefix, a, b, run[k].contextWindow);
    }
  }

  lemma TailsOfPrefix<T>(a: seq<T>, b: seq<T>, n: nat)
    requires a <= b && n <= |a|
    ensures a[n..] <= b[n..] && b[n..][|a| - n..] == b[|a|..]
  {
  }

  lemma ContinuedFurther(prefix: WirePrefix, a: seq<Message>, b: seq<Message>)
    requires a <= b && 0 <= prefix.sourceCount <= |a|
    ensures Continued(prefix, b) == Continued(prefix, a) + MessagesToChat(b[|a|..])
  {
    var n := prefix.sourceCount;
    TailsOfPrefix(a, b, n);
    FurtherBy(prefix.messages, a[n..], b[n..], b[|a|..]);
  }

  lemma FurtherBy(frozen: seq<ChatMessage>, before: seq<Message>, after: seq<Message>, rest: seq<Message>)
    requires before <= after && after[|before|..] == rest
    ensures frozen + MessagesToChat(after) == (frozen + MessagesToChat(before)) + MessagesToChat(rest)
  {
    ConversionOfPrefix(before, after);
    Assoc(frozen, MessagesToChat(before), MessagesToChat(rest));
  }

  /** So each payload of such a run begins with the one before, byte for byte what was frozen included. */
  lemma FrozenRunsOnlyAppend(jsonLength: ChatMessage -> nat, prefix: WirePrefix, run: seq<Sending>, k: nat)
    requires AppendOnly(run) && k + 1 < |run| && Undisturbed(jsonLength, prefix, run, k + 1)
    ensures var payload := PayloadAt(jsonLength, Some(prefix), run, k);
            var next := PayloadAt(jsonLength, Some(prefix), run, k + 1);
            && prefix.messages <= payload.chatMessages <= next.chatMessages
            && payload.usedWirePrefix && next.usedWirePrefix
  {
    assert Undisturbed(jsonLength, prefix, run, k);
    FrozenRunsContinue(jsonLength, prefix, run, k);
    FrozenRunsContinue(jsonLength, prefix, run, k + 1);
    assert Grows(run, k + 1);
    assert UndisturbedAt(jsonLength, prefix, run, k);
    ContinuedFurther(prefix, run[k].transcript, run[k + 1].transcript);
  }

  /** As many messages as the frozen part of the transcript converts to. */
  ghost predicate IsAsLong(prefix: WirePrefix, transcript: seq<Message>)
    requires 0 <= prefix.sourceCount <= |transcript|
  {
    |prefix.messages| == |MessagesToChat(transcript[..prefix.sourceCount])|
  }

  /**
   * When a disturbed call falls back to the full conversion, it still continues what was sent if and
   * only if the frozen prefix was genuine (a prefix of the right length, say one serialised differently).
   */
  lemma FallbackContinuesExactly(prefix: WirePrefix, a: seq<Message>, b: seq<Message>)
    requires a <= b && 0 <= prefix.sourceCount <= |a|
    requires IsAsLong(prefix, a)
    ensures Continued(prefix, a) <= MessagesToChat(b) <==> Genuine(a, Some(prefix))
  {
    var n := prefix.sourceCount;
    ConversionOfPrefix(a, b);
    ConversionOfPrefix(a[..n], a);
    var genuine := MessagesToChat(a[..n]);
    assert MessagesToChat(b)[..|genuine|] == genuine;
    assert Continued(prefix, a)[..|genuine|] == prefix.messages;
    if Continued(prefix, a) <= MessagesToChat(b) {
      assert MessagesToChat(b)[..|Continued(prefix, a)|][..|genuine|] == MessagesToChat(b)[..|genuine|];
    }
  }
}
