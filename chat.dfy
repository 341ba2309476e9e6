/**
 * The vocabulary shared by the three copies of the prompt broker
 * (config/handlePrompts.js, config/app.js and config/wss.js): chat messages,
 * the frames sent to a client, the items of a provider stream, and the rules
 * the copies have in common — the Anthropic prompt flattening, the per-item
 * chunk rule of `handlePromptResponse`, the Azure event rule and delivery
 * through a connection registry.
 */
module Chat {
  import opened Wrappers
  import Seqs

  // ------------------------------------------------------------------ messages

  datatype Role = System | User | Assistant

  /** A chat message; `content` is None when the message has no content field. */
  datatype Message = Message(role: Role, content: Option<string>)

  /** JavaScript truthiness of a string-or-undefined value. */
  predicate Truthy(s: Option<string>) {
    s.Some? && s.value != ""
  }

  /** `s?.length || 0` */
  function LengthOrZero(s: Option<string>): nat {
    if s.Some? then |s.value| else 0
  }

  /** The text `"" + s` produces in JavaScript: an absent value prints as "undefined". */
  function Render(s: Option<string>): string {
    if s.Some? then s.value else "undefined"
  }

  /** `a || fallback` over strings. */
  function Or(a: Option<string>, fallback: string): string {
    if Truthy(a) then a.value else fallback
  }

  /** `[{role: "system", content: systemPrompt}, {role: "user", content: userPrompt}]` */
  function PromptPair(systemPrompt: Option<string>, userPrompt: Option<string>): seq<Message> {
    [Message(System, systemPrompt), Message(User, userPrompt)]
  }

  /** app.js and wss.js: `messageHistory?.length ? messageHistory : PromptPair(...)`. */
  function BaseMessages(history: Option<seq<Message>>, systemPrompt: Option<string>,
                        userPrompt: Option<string>): seq<Message> {
    if history.Some? && |history.value| > 0 then history.value else PromptPair(systemPrompt, userPrompt)
  }

  // ----------------------------------------------------------------- providers

  const OPEN_AI: string := "openAi"
  const ANTHROPIC: string := "anthropic"
  const AZURE_OPEN_AI: string := "azureOpenAi"
  const DEFAULT_MODEL: string := "gpt-4"

  /** Which provider services were configured at start-up. */
  datatype Services = Services(openAi: bool, azureOpenAi: bool, anthropic: bool)

  /**
   * The `services` table: a service is active iff its environment key
   * (OPENAI_API_KEY, AZURE_OPENAI_KEY, ANTHROPIC_API_KEY) is defined and non-empty.
   */
  function ServicesFromEnv(openAiKey: Option<string>, azureKey: Option<string>,
                           anthropicKey: Option<string>): (s: Services)
    ensures s.openAi <==> openAiKey.Some? && openAiKey.value != ""
    ensures s.azureOpenAi <==> azureKey.Some? && azureKey.value != ""
    ensures s.anthropic <==> anthropicKey.Some? && anthropicKey.value != ""
  {
    Services(Truthy(openAiKey), Truthy(azureKey), Truthy(anthropicKey))
  }

  /** The `services` flag of the named provider; false for any other name. */
  predicate IsActive(s: Services, provider: string) {
    || (provider == OPEN_AI && s.openAi)
    || (provider == ANTHROPIC && s.anthropic)
    || (provider == AZURE_OPEN_AI && s.azureOpenAi)
  }

  /** `parseFloat(temperature) || 0.5`; None stands for absent or not a number. */
  function Temperature(t: Option<real>): (r: real)
    ensures r != 0.0
    ensures t.Some? && t.value != 0.0 ==> r == t.value
  {
    if t.Some? && t.value != 0.0 then t.value else 0.5
  }

  /** The credential a provider client is built with. */
  datatype Credential = ServerKey | OwnKey(key: string)

  /** The streaming request a broker makes of a provider. */
  datatype ProviderCall =
    | OpenAiCall(credential: Credential, model: string, messages: seq<Message>, temperature: real)
    | AnthropicCall(credential: Credential, model: string, prompt: string, temperature: real,
                    maxTokensToSample: nat)
    | AzureCall(model: string, history: Option<seq<Message>>, temperature: real)

  const MAX_TOKENS_TO_SAMPLE: nat := 4096

  /** One item of an OpenAI or Anthropic response stream, as the broker reads it:
      `choices[0].delta.content` (OpenAI), `completion` and `stop_reason` (Anthropic).
      `Absent` is an undefined or null item. */
  datatype Part =
    | Absent
    | Item(deltaContent: Option<string>, completion: Option<string>, stopReason: Option<string>)

  /** One choice of an Azure event; `deltaContent` is None when `delta.content` is undefined. */
  datatype Choice = Choice(deltaContent: Option<string>)

  /** The events of the Azure push stream: 'data', 'end' and 'error'. */
  datatype AzureEvent = Data(choices: seq<Choice>) | End | Failure(message: string)

  /** What the provider does with a call: the call throws (`error` is JSON.stringify of the
      exception), or it answers with stream items (read by the OpenAI and Anthropic
      handlers) and push events (read by the Azure handler). */
  datatype Upstream = Rejected(error: string) | Responded(parts: seq<Part>, events: seq<AzureEvent>)

  // -------------------------------------------------------------------- chunks

  /** The `type` of a frame sent to a client: "message", "EOM", "ERROR", "pong", "error". */
  datatype ChunkType = MessageChunk | EOM | ERROR | Pong | ErrorReply

  /** The `message` of a frame sent to a client. */
  datatype Payload =
    | NoMessage                        // null
    | Text(text: string)          // a plain string
    | ProviderNotSupported        // JSON of {message: "Provider not supported or not activated."}
    | StreamError(error: string)  // JSON of {message: "Stream error.", error: error.message}
    | Serialized(json: string)    // JSON.stringify of a caught exception

  /** One `sendToClient(uuid, session, type, message)` call of an exchange. */
  datatype Emit = Emit(kind: ChunkType, payload: Payload)

  const RESERVE_EXHAUSTED: string :=
    "You've used your entire reserve of characters. Add your own API key to continue to use this service freely."
  /** JSON.stringify of a built-in Error object: it has no own enumerable fields. */
  const THROWN_ERROR_JSON: string := "{}"

  /** How many emits of kind `k` there are. */
  function CountKind(es: seq<Emit>, k: ChunkType): nat {
    if es == [] then 0
    else CountKind(es[..|es| - 1], k) + (if es[|es| - 1].kind == k then 1 else 0)
  }

  lemma {:induction false} CountKindAppend(a: seq<Emit>, b: seq<Emit>, k: ChunkType)
    ensures CountKind(a + b, k) == CountKind(a, k) + CountKind(b, k)
    decreases |b|
  {
    if b != [] {
      assert (a + b)[..|a + b| - 1] == a + b[..|b| - 1];
      CountKindAppend(a, b[..|b| - 1], k);
    } else {
      assert a + b == a;
    }
  }

  // ------------------------------------------- handlePromptResponse, per item

  /**
   * The chunk handlePromptResponse (handlePrompts.js and wss.js) sends for one
   * stream item: text for an OpenAI item with content or an Anthropic item with a
   * completion and no stop reason, otherwise EOM. Reading `part.completion` of an
   * absent item throws; the per-item catch then sends the serialized error.
   */
  function ResponseEmit(provider: string, part: Part): (e: Emit)
    ensures e.kind in {MessageChunk, EOM, ERROR}
    ensures e.kind == ERROR <==> provider == ANTHROPIC && part.Absent?
    ensures e.kind == MessageChunk ==> part.Item? && e.payload.Text? && e.payload.text != ""
    ensures e.kind == EOM ==> e.payload == NoMessage
  {
    if provider == OPEN_AI && part.Item? && Truthy(part.deltaContent) then
      Emit(MessageChunk, Text(part.deltaContent.value))
    else if provider == ANTHROPIC && part.Absent? then
      Emit(ERROR, Serialized(THROWN_ERROR_JSON))
    else if provider == ANTHROPIC && Truthy(part.completion) && !Truthy(part.stopReason) then
      Emit(MessageChunk, Text(part.completion.value))
    else
      Emit(EOM, NoMessage)
  }

  /** The chunks of a whole stream: exactly one per item, in order. */
  function ResponseEmits(provider: string, parts: seq<Part>): (es: seq<Emit>)
    ensures |es| == |parts|
    ensures forall i :: 0 <= i < |parts| ==> es[i] == ResponseEmit(provider, parts[i])
  {
    if parts == [] then []
    else ResponseEmits(provider, parts[..|parts| - 1]) + [ResponseEmit(provider, parts[|parts| - 1])]
  }

  /** What an exchange relays from an OpenAI or Anthropic call: one ERROR (sent by the
      outer catch) when the call throws, the per-item chunks otherwise. */
  function Relayed(provider: string, upstream: Upstream): seq<Emit> {
    if upstream.Rejected? then [Emit(ERROR, Serialized(upstream.error))]
    else ResponseEmits(provider, upstream.parts)
  }

  /** An item yields text iff it carries it; every other item of a well-formed stream is an EOM. */
  lemma ResponseKinds(provider: string, parts: seq<Part>, i: nat)
    requires i < |parts|
    ensures ResponseEmits(provider, parts)[i].kind == MessageChunk <==>
              parts[i].Item? &&
              ((provider == OPEN_AI && Truthy(parts[i].deltaContent)) ||
               (provider == ANTHROPIC && Truthy(parts[i].completion) && !Truthy(parts[i].stopReason)))
    ensures ResponseEmits(provider, parts)[i].kind == ERROR <==> provider == ANTHROPIC && parts[i].Absent?
    ensures ResponseEmits(provider, parts)[i].kind in {MessageChunk, EOM, ERROR}
  {
  }

  /** Only absent items of an Anthropic stream raise errors, so an OpenAI stream never
      sends ERROR and an Anthropic stream sends one per absent item. */
  lemma {:induction false} ResponseErrorCount(provider: string, parts: seq<Part>)
    ensures CountKind(ResponseEmits(provider, parts), ERROR) ==
              (if provider == ANTHROPIC then CountAbsent(parts) else 0)
    decreases |parts|
  {
    if parts != [] {
      var init := parts[..|parts| - 1];
      ResponseErrorCount(provider, init);
      CountKindAppend(ResponseEmits(provider, init), [ResponseEmit(provider, parts[|parts| - 1])], ERROR);
      assert CountKind([ResponseEmit(provider, parts[|parts| - 1])], ERROR)
          == CountKind([], ERROR) + (if ResponseEmit(provider, parts[|parts| - 1]).kind == ERROR then 1 else 0);
    }
  }

  function CountAbsent(parts: seq<Part>): nat {
    if parts == [] then 0
    else CountAbsent(parts[..|parts| - 1]) + (if parts[|parts| - 1].Absent? then 1 else 0)
  }

  /** EOM is not terminal: an OpenAI stream whose first item carries an empty delta (as the
      role-only opening chunk does) and whose last item carries none gets two EOMs. */
  lemma ResponseEomTwice()
    ensures var parts := [Item(Some(""), None, None), Item(Some("Hi"), None, None), Item(None, None, None)];
            ResponseEmits(OPEN_AI, parts) == [Emit(EOM, NoMessage), Emit(MessageChunk, Text("Hi")), Emit(EOM, NoMessage)]
  {
  }

  // ---------------------------------------------------------- Azure push stream

  /** The 'data' handler: one text chunk per choice whose `delta.content` is defined, in order. */
  function ChoiceEmits(choices: seq<Choice>): (es: seq<Emit>)
    ensures |es| <= |choices|
    ensures forall e :: e in es ==> e.kind == MessageChunk
  {
    if choices == [] then []
    else
      var last := choices[|choices| - 1];
      ChoiceEmits(choices[..|choices| - 1]) +
        (if last.deltaContent.Some? then [Emit(MessageChunk, Text(last.deltaContent.value))] else [])
  }

  /** The defined contents of the choices, in order. */
  function DefinedContents(choices: seq<Choice>): seq<string> {
    if choices == [] then []
    else
      var last := choices[|choices| - 1];
      DefinedContents(choices[..|choices| - 1]) + (if last.deltaContent.Some? then [last.deltaContent.value] else [])
  }

  /** The 'data' handler sends exactly the defined contents, in choice order. */
  lemma {:induction false} ChoiceEmitsTexts(choices: seq<Choice>)
    ensures |ChoiceEmits(choices)| == |DefinedContents(choices)|
    ensures forall i :: 0 <= i < |ChoiceEmits(choices)| ==>
              ChoiceEmits(choices)[i] == Emit(MessageChunk, Text(DefinedContents(choices)[i]))
    decreases |choices|
  {
    if choices != [] {
      ChoiceEmitsTexts(choices[..|choices| - 1]);
    }
  }

  /** The chunks one Azure event produces. */
  function EventEmits(e: AzureEvent): seq<Emit> {
    match e
    case Data(choices) => ChoiceEmits(choices)
    case End => [Emit(EOM, NoMessage)]
    case Failure(message) => [Emit(ERROR, StreamError(message))]
  }

  /** The chunks of a sequence of Azure events, in event order. */
  function AzureEmits(events: seq<AzureEvent>): seq<Emit> {
    if events == [] then []
    else AzureEmits(events[..|events| - 1]) + EventEmits(events[|events| - 1])
  }

  /** What an exchange relays from an Azure call: one ERROR when the call throws, the
      event chunks otherwise. */
  function RelayedAzure(upstream: Upstream): seq<Emit> {
    if upstream.Rejected? then [Emit(ERROR, Serialized(upstream.error))]
    else AzureEmits(upstream.events)
  }

  function CountEnds(events: seq<AzureEvent>): nat {
    if events == [] then 0
    else CountEnds(events[..|events| - 1]) + (if events[|events| - 1].End? then 1 else 0)
  }

  function CountFailures(events: seq<AzureEvent>): nat {
    if events == [] then 0
    else CountFailures(events[..|events| - 1]) + (if events[|events| - 1].Failure? then 1 else 0)
  }

  lemma ChoiceEmitsCounts(choices: seq<Choice>)
    ensures CountKind(ChoiceEmits(choices), EOM) == 0
    ensures CountKind(ChoiceEmits(choices), ERROR) == 0
  {
    var es := ChoiceEmits(choices);
    CountKindNone(es, EOM);
    CountKindNone(es, ERROR);
  }

  lemma {:induction false} CountKindNone(es: seq<Emit>, k: ChunkType)
    requires forall e :: e in es ==> e.kind != k
    ensures CountKind(es, k) == 0
    decreases |es|
  {
    if es != [] {
      assert forall e :: e in es[..|es| - 1] ==> e in es;
      CountKindNone(es[..|es| - 1], k);
    }
  }

  /** One event's terminal chunks: an EOM for 'end', an ERROR for 'error', none for 'data'. */
  lemma EventEmitsCounts(e: AzureEvent)
    ensures CountKind(EventEmits(e), EOM) == (if e.End? then 1 else 0)
    ensures CountKind(EventEmits(e), ERROR) == (if e.Failure? then 1 else 0)
  {
    match e
    case Data(choices) => ChoiceEmitsCounts(choices);
    case End =>
      assert CountKind([Emit(EOM, NoMessage)], EOM) == CountKind([], EOM) + 1;
      assert CountKind([Emit(EOM, NoMessage)], ERROR) == CountKind([], ERROR);
    case Failure(m) =>
      assert CountKind([Emit(ERROR, StreamError(m))], ERROR) == CountKind([], ERROR) + 1;
      assert CountKind([Emit(ERROR, StreamError(m))], EOM) == CountKind([], EOM);
  }

  /** Every 'end' event gives exactly one EOM and every 'error' event exactly one ERROR;
      'data' events give neither. */
  lemma {:induction false} AzureTerminalCounts(events: seq<AzureEvent>)
    ensures CountKind(AzureEmits(events), EOM) == CountEnds(events)
    ensures CountKind(AzureEmits(events), ERROR) == CountFailures(events)
    decreases |events|
  {
    if events != [] {
      var init, last := events[..|events| - 1], events[|events| - 1];
      AzureTerminalCounts(init);
      CountKindAppend(AzureEmits(init), EventEmits(last), EOM);
      CountKindAppend(AzureEmits(init), EventEmits(last), ERROR);
      EventEmitsCounts(last);
    }
  }

  // ------------------------------------------------------ Anthropic flattening

  const HUMAN_PROMPT: string := "\n\nHuman:"
  const AI_PROMPT: string := "\n\nAssistant:"

  /** The turn marker of the message at `index`: none for a leading system message,
      the assistant marker for any later system message, the human marker otherwise. */
  function Marker(role: Role, index: nat): string {
    if role == System then (if index == 0 then "" else AI_PROMPT) else HUMAN_PROMPT
  }

  /** Message `i` as it appears in the flattened prompt. */
  function Rendered(ms: seq<Message>, i: nat): string
    requires i < |ms|
  {
    Marker(ms[i].role, i) + Render(ms[i].content)
  }

  /** The first `n` messages, rendered and concatenated in order. */
  function Body(ms: seq<Message>, n: nat): string
    requires n <= |ms|
  {
    if n == 0 then "" else Body(ms, n - 1) + Rendered(ms, n - 1)
  }

  /** formatAnthropic: every message rendered in order, then one trailing assistant marker. */
  function Flattened(ms: seq<Message>): string {
    Body(ms, |ms|) + AI_PROMPT
  }

  lemma MarkersDistinct()
    ensures HUMAN_PROMPT != AI_PROMPT && HUMAN_PROMPT != "" && AI_PROMPT != ""
  {
  }

  lemma RenderedExtend(ms: seq<Message>, extra: seq<Message>, i: nat)
    requires i < |ms|
    ensures Rendered(ms + extra, i) == Rendered(ms, i)
  {
    assert (ms + extra)[i] == ms[i];
  }

  /** Rendering the first `n` messages does not look past them. */
  lemma {:induction false} BodyExtend(ms: seq<Message>, extra: seq<Message>, n: nat)
    requires n <= |ms|
    ensures Body(ms + extra, n) == Body(ms, n)
  {
    if n > 0 {
      var longer := ms + extra;
      BodyExtend(ms, extra, n - 1);
      RenderedExtend(ms, extra, n - 1);
      assert Body(longer, n) == Body(longer, n - 1) + Rendered(longer, n - 1);
    }
  }

  /** The rendering of a shorter prefix is a prefix of the rendering of a longer one. */
  lemma {:induction false} BodyPrefix(ms: seq<Message>, k: nat, n: nat)
    requires k <= n <= |ms|
    ensures |Body(ms, k)| <= |Body(ms, n)| && Body(ms, n)[..|Body(ms, k)|] == Body(ms, k)
    decreases n
  {
    if k < n {
      BodyPrefix(ms, k, n - 1);
      var b := Body(ms, n - 1);
      assert Body(ms, n) == b + Rendered(ms, n - 1);
      Seqs.ConcatPrefix(b, Rendered(ms, n - 1));
      Seqs.PrefixTrans(Body(ms, k), b, Body(ms, n));
    }
  }

  /** A flattened prompt opens with its first message: bare for a system message,
      after the human marker otherwise; and it always closes with the assistant marker. */
  lemma FlattenedEnds(ms: seq<Message>)
    requires |ms| > 0
    ensures var head := Marker(ms[0].role, 0) + Render(ms[0].content);
            |head| <= |Flattened(ms)| && Flattened(ms)[..|head|] == head
    ensures ms[0].role == System ==> Marker(ms[0].role, 0) == ""
    ensures ms[0].role != System ==> Marker(ms[0].role, 0) == HUMAN_PROMPT
    ensures |AI_PROMPT| <= |Flattened(ms)| && Flattened(ms)[|Flattened(ms)| - |AI_PROMPT|..] == AI_PROMPT
  {
    BodyPrefix(ms, 1, |ms|);
    assert Body(ms, 1) == Rendered(ms, 0);
    var b := Body(ms, |ms|);
    assert (b + AI_PROMPT)[..|b|] == b;
  }

  /** Appending a message appends its rendering just before the trailing marker; a system
      message appended to a non-empty sequence reaches the model as an assistant turn. */
  lemma FlattenedAppend(ms: seq<Message>, m: Message)
    requires |ms| > 0
    ensures Flattened(ms + [m]) == Body(ms, |ms|) + (Marker(m.role, |ms|) + Render(m.content)) + AI_PROMPT
    ensures m.role == System ==> Marker(m.role, |ms|) == AI_PROMPT
  {
    var ms' := ms + [m];
    var n := |ms|;
    assert ms'[n] == m;
    BodyExtend(ms, [m], n);
    assert Body(ms', n + 1) == Body(ms', n) + Rendered(ms', n);
  }

  /** The worked example: [system "A", user "B", system "C"]. */
  lemma FlattenedExample()
    ensures Flattened([Message(System, Some("A")), Message(User, Some("B")), Message(System, Some("C"))])
            == "A" + HUMAN_PROMPT + "B" + AI_PROMPT + "C" + AI_PROMPT
  {
    var ms := [Message(System, Some("A")), Message(User, Some("B")), Message(System, Some("C"))];
    assert Body(ms, 1) == "A";
    assert Body(ms, 2) == "A" + HUMAN_PROMPT + "B";
    assert Body(ms, 3) == "A" + HUMAN_PROMPT + "B" + AI_PROMPT + "C";
  }

  // ------------------------------------------------------- connection registry

  type ConnId = string

  /** A frame written to a socket: the `{uuid}` greeting, a `{session, type, message}`
      reply, or a bare `{message}` answer. */
  datatype Frame = Hello(uuid: ConnId) | Reply(session: string, kind: ChunkType, payload: Payload)
                 | Bare(message: string)

  /** A frame written to the socket registered under `to`. */
  datatype Delivery = Delivery(to: ConnId, frame: Frame)

  /** The socket registered under `id` exists and its readyState is OPEN. */
  predicate IsOpen(clients: map<ConnId, bool>, id: ConnId) {
    id in clients && clients[id]
  }

  /** What `sendToClient(uuid, session, ...)` writes for each emit: all of them to an open
      registered socket, nothing otherwise. */
  function Delivered(clients: map<ConnId, bool>, uuid: ConnId, session: string, es: seq<Emit>): (ds: seq<Delivery>)
    ensures IsOpen(clients, uuid) ==> |ds| == |es|
    ensures !IsOpen(clients, uuid) ==> ds == []
    ensures forall d :: d in ds ==> d.to == uuid && d.frame.Reply? && d.frame.session == session
  {
    if IsOpen(clients, uuid) then
      seq(|es|, i requires 0 <= i < |es| => Delivery(uuid, Reply(session, es[i].kind, es[i].payload)))
    else []
  }

  lemma DeliveredAppend(clients: map<ConnId, bool>, uuid: ConnId, session: string, a: seq<Emit>, b: seq<Emit>)
    ensures Delivered(clients, uuid, session, a + b) == Delivered(clients, uuid, session, a) + Delivered(clients, uuid, session, b)
  {
  }

  /** Sending more chunks extends what a socket has been sent. */
  lemma DeliveredExtend(start: seq<Delivery>, clients: map<ConnId, bool>, uuid: ConnId, session: string,
                        sent: seq<Emit>, more: seq<Emit>)
    ensures start + Delivered(clients, uuid, session, sent) + Delivered(clients, uuid, session, more)
            == start + Delivered(clients, uuid, session, sent + more)
  {
    DeliveredAppend(clients, uuid, session, sent, more);
  }

  // ------------------------------------------------------------ inbound frames

  /** An inbound socket message: unparsable JSON, or the parsed fields. */
  datatype Inbound = Unparsable | Parsed(data: Envelope)

  datatype Envelope = Envelope(
    uuid: Option<string>, session: string, kind: Option<string>,
    provider: Option<string>, model: Option<string>, temperature: Option<real>,
    systemPrompt: Option<string>, userPrompt: Option<string>,
    messageHistory: Option<seq<Message>>, knowledgeProfileUuids: Option<seq<string>>,
    username: Option<string>, knowledgeSetUuids: Option<seq<string>>)

  const UUID_MISSING: string := "UUID is missing from the message"
  const PROCESSING_ERROR: string := "Error processing message"
  const UNRECOGNIZED_TYPE: string := "Unrecognized message type"
}
