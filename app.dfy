/**
 * config/app.js: the broker attached to the HTTP server. The module-level
 * `clients` registry and `sendToClient` are the state and methods of
 * `AppServer`; `prompt` is the only copy of the exchange that augments the
 * prompt with retrieved knowledge facts. It meters nothing and, for an unknown
 * or inactive provider, sends nothing at all.
 */
module App {
  import opened Wrappers
  import opened Chat
  import Seqs

  // ------------------------------------------------------- knowledge filter

  /** A fact as the knowledge retrieval returns it; the score is a mathematical real. */
  datatype ScoredFact = ScoredFact(fact: string, score: real)

  /** What the knowledge retrieval does: throw (`error` is JSON.stringify of the
      exception), or return facts ranked best first. */
  datatype Retrieval = RetrievalFailed(error: string) | Retrieved(facts: seq<ScoredFact>)

  const KNOWLEDGE_PREAMBLE: string :=
    "Here are some additional facts which may be relevant to your answer.\n\n"
    + "\n\nFacts:\nUse these facts in the preparation of your response ONLY if they are specifically relevant to the question. \nOtherwise ignore them completely. \nIf the question does not relate to these facts, do not use any information from these facts. \nIf the topics of the question do not relate, do not use! :\n\n"

  const MAX_FACTS: nat := 20

  /** Fact `i` enters the prompt iff it is among the first 20 and scores at least half
      the score of the first fact. Later facts are still examined when one fails. */
  predicate Included(facts: seq<ScoredFact>, i: nat)
    requires i < |facts|
  {
    i < MAX_FACTS && facts[i].score >= facts[0].score / 2.0
  }

  function FactLine(f: ScoredFact): string {
    " > " + f.fact + "\n"
  }

  /** The lines of the included facts among the first `n`, in rank order. */
  function FactLines(facts: seq<ScoredFact>, n: nat): string
    requires n <= |facts|
  {
    if n == 0 then ""
    else FactLines(facts, n - 1) + (if Included(facts, n - 1) then FactLine(facts[n - 1]) else "")
  }

  /** The content of the knowledge system message. */
  function KnowledgePrompt(facts: seq<ScoredFact>): string {
    KNOWLEDGE_PREAMBLE + FactLines(facts, |facts|)
  }

  /** The positions of the included facts among the first `n`, in rank order. */
  function IncludedIndices(facts: seq<ScoredFact>, n: nat): seq<nat>
    requires n <= |facts|
  {
    if n == 0 then []
    else IncludedIndices(facts, n - 1) + (if Included(facts, n - 1) then [n - 1] else [])
  }

  /** The lines of the facts at the given positions, concatenated. */
  function LinesAt(facts: seq<ScoredFact>, idx: seq<nat>): string
    requires forall k :: 0 <= k < |idx| ==> idx[k] < |facts|
  {
    if idx == [] then ""
    else LinesAt(facts, idx[..|idx| - 1]) + FactLine(facts[idx[|idx| - 1]])
  }

  /** The included positions are exactly the positions below `n` that pass the filter,
      listed in increasing order. */
  lemma {:induction false} IncludedIndicesSpec(facts: seq<ScoredFact>, n: nat)
    requires n <= |facts|
    ensures forall k :: 0 <= k < |IncludedIndices(facts, n)| ==> IncludedIndices(facts, n)[k] < n
    ensures forall i :: 0 <= i < n ==> (Included(facts, i) <==> i in IncludedIndices(facts, n))
    ensures forall j, k :: 0 <= j < k < |IncludedIndices(facts, n)| ==>
              IncludedIndices(facts, n)[j] < IncludedIndices(facts, n)[k]
  {
    if n > 0 {
      IncludedIndicesSpec(facts, n - 1);
    }
  }

  /** The prompt holds the included facts' lines, in rank order, and nothing else. */
  lemma {:induction false} FactLinesAreIncluded(facts: seq<ScoredFact>, n: nat)
    requires n <= |facts|
    ensures forall k :: 0 <= k < |IncludedIndices(facts, n)| ==> IncludedIndices(facts, n)[k] < |facts|
    ensures FactLines(facts, n) == LinesAt(facts, IncludedIndices(facts, n))
  {
    IncludedIndicesSpec(facts, n);
    if n > 0 {
      FactLinesAreIncluded(facts, n - 1);
      var prev := IncludedIndices(facts, n - 1);
      if Included(facts, n - 1) {
        var idx := prev + [n - 1];
        assert idx[..|idx| - 1] == prev;
      } else {
        assert IncludedIndices(facts, n) == prev;
      }
    }
  }

  /** At most 20 facts ever enter the prompt. */
  lemma {:induction false} AtMostTwentyFacts(facts: seq<ScoredFact>, n: nat)
    requires n <= |facts|
    ensures |IncludedIndices(facts, n)| <= MAX_FACTS
    ensures |IncludedIndices(facts, n)| <= n
  {
    if n > 0 {
      AtMostTwentyFacts(facts, n - 1);
      if n > MAX_FACTS {
        assert !Included(facts, n - 1);
        assert |IncludedIndices(facts, n)| == |IncludedIndices(facts, n - 1)|;
        AtMostTwentyPrefix(facts, n);
      }
    }
  }

  /** Past position 20 nothing more is included. */
  lemma {:induction false} AtMostTwentyPrefix(facts: seq<ScoredFact>, n: nat)
    requires MAX_FACTS <= n <= |facts|
    ensures IncludedIndices(facts, n) == IncludedIndices(facts, MAX_FACTS)
    ensures |IncludedIndices(facts, MAX_FACTS)| <= MAX_FACTS
  {
    if n > MAX_FACTS {
      AtMostTwentyPrefix(facts, n - 1);
    } else {
      IncludedLength(facts, n);
    }
  }

  lemma {:induction false} IncludedLength(facts: seq<ScoredFact>, n: nat)
    requires n <= |facts|
    ensures |IncludedIndices(facts, n)| <= n
  {
    if n > 0 {
      IncludedLength(facts, n - 1);
    }
  }

  /** Inclusion is monotone in rank: below an included fact, every fact that clears the
      score bound is included too. A non-negative first fact is always included. */
  lemma IncludedMonotone(facts: seq<ScoredFact>, i: nat, j: nat)
    requires j < i < |facts| && Included(facts, i)
    requires facts[j].score >= facts[0].score / 2.0
    ensures Included(facts, j)
    ensures facts[0].score >= 0.0 ==> Included(facts, 0)
  {
  }

  /** The filter is no prefix cut-off: with scores 10, 3, 8 the third fact is included
      although the second is not. */
  lemma FilterSkipsAndResumes()
    ensures var facts := [ScoredFact("a", 10.0), ScoredFact("b", 3.0), ScoredFact("c", 8.0)];
            Included(facts, 0) && !Included(facts, 1) && Included(facts, 2)
            && KnowledgePrompt(facts) == KNOWLEDGE_PREAMBLE + " > a\n" + " > c\n"
  {
    var facts := [ScoredFact("a", 10.0), ScoredFact("b", 3.0), ScoredFact("c", 8.0)];
    assert FactLines(facts, 1) == " > a\n";
    assert FactLines(facts, 2) == " > a\n";
  }

  /** The knowledge message's text: the preamble, then the `forEach` over the ranked facts. */
  method BuildKnowledgePrompt(facts: seq<ScoredFact>) returns (prompt: string)
    ensures prompt == KnowledgePrompt(facts)
  {
    prompt := KNOWLEDGE_PREAMBLE;
    prompt := AppendFactLines(prompt, facts);
  }

  /** The `forEach` that appends to `knowledgePrompt` and tracks `topScore`. */
  method AppendFactLines(start: string, facts: seq<ScoredFact>) returns (prompt: string)
    ensures prompt == start + FactLines(facts, |facts|)
  {
    prompt := start;
    var topScore: real := 0.0;
    var i := 0;
    while i < |facts|
      invariant 0 <= i <= |facts|
      invariant i > 0 ==> topScore == facts[0].score
      invariant prompt == start + FactLines(facts, i)
    {
      if i == 0 {
        topScore := facts[i].score;
      }
      if i < MAX_FACTS && facts[i].score >= topScore / 2.0 {
        assert FactLines(facts, i + 1) == FactLines(facts, i) + FactLine(facts[i]);
        Seqs.AppendAssoc(start, FactLines(facts, i), FactLine(facts[i]));
        prompt := prompt + FactLine(facts[i]);
      } else {
        assert FactLines(facts, i + 1) == FactLines(facts, i);
      }
      i := i + 1;
    }
  }

  // --------------------------------------------------------- per-item rule

  /** The chunks app.js means to send for one stream item. OpenAI: text or EOM. Anthropic:
      text for a completion without stop reason, EOM for a stop reason, nothing for an item
      with neither, and the per-item catch's ERROR when the item is absent. */
  function AppEmit(provider: string, part: Part): (es: seq<Emit>)
    ensures |es| <= 1
    ensures es != [] && es[0].kind == ERROR <==> provider == ANTHROPIC && part.Absent?
    ensures provider == ANTHROPIC && part.Item? ==>
              (es == [Emit(EOM, NoMessage)] <==> Truthy(part.stopReason))
    ensures provider == ANTHROPIC && part.Item? && Truthy(part.completion) && !Truthy(part.stopReason) ==>
              es == [Emit(MessageChunk, Text(part.completion.value))]
    ensures provider == ANTHROPIC && part.Item? && !Truthy(part.completion) && !Truthy(part.stopReason) ==>
              es == []
    ensures provider != OPEN_AI && provider != ANTHROPIC ==> es == []
  {
    if provider == OPEN_AI then
      if part.Item? && Truthy(part.deltaContent) then [Emit(MessageChunk, Text(part.deltaContent.value))]
      else [Emit(EOM, NoMessage)]
    else if provider == ANTHROPIC then
      if part.Absent? then [Emit(ERROR, Serialized(THROWN_ERROR_JSON))]
      else if Truthy(part.completion) && !Truthy(part.stopReason) then [Emit(MessageChunk, Text(part.completion.value))]
      else if Truthy(part.stopReason) then [Emit(EOM, NoMessage)]
      else []
    else []
  }

  /** The per-item chunks of a stream, in item order, with the loop going on past an
      absent item as handlePromptResponse of the other two copies does. */
  function AppEmits(provider: string, parts: seq<Part>): (es: seq<Emit>)
    ensures |es| <= |parts|
  {
    if parts == [] then []
    else AppEmits(provider, parts[..|parts| - 1]) + AppEmit(provider, parts[|parts| - 1])
  }

  function CountStops(parts: seq<Part>): nat {
    if parts == [] then 0
    else CountStops(parts[..|parts| - 1]) + (if parts[|parts| - 1].Item? && Truthy(parts[|parts| - 1].stopReason) then 1 else 0)
  }

  /** Under the per-item rule an Anthropic stream gets one EOM per item carrying a stop
      reason and one ERROR per absent item, and the items after an absent one still count. */
  lemma {:induction false} IntendedAnthropicCounts(parts: seq<Part>)
    ensures CountKind(AppEmits(ANTHROPIC, parts), EOM) == CountStops(parts)
    ensures CountKind(AppEmits(ANTHROPIC, parts), ERROR) == CountAbsent(parts)
  {
    if parts != [] {
      var init := parts[..|parts| - 1];
      IntendedAnthropicCounts(init);
      var last := AppEmit(ANTHROPIC, parts[|parts| - 1]);
      CountKindAppend(AppEmits(ANTHROPIC, init), last, EOM);
      CountKindAppend(AppEmits(ANTHROPIC, init), last, ERROR);
      if last != [] {
        assert last[..0] == [];
      }
    }
  }

  /** For OpenAI the rule agrees with handlePromptResponse of the other copies. */
  lemma {:induction false} AppOpenAiAgrees(parts: seq<Part>)
    ensures AppEmits(OPEN_AI, parts) == ResponseEmits(OPEN_AI, parts)
  {
    if parts != [] {
      AppOpenAiAgrees(parts[..|parts| - 1]);
    }
  }

  // ------------------------------------------------------ the loop as written

  /** Whether the `for await` loop throws out of its per-item catch. That catch logs
      `message`, a name `prompt` does not declare, so an absent Anthropic item raises a
      ReferenceError inside the catch and ends the loop. OpenAI items are read with
      optional chaining and never throw. */
  predicate LoopThrows(provider: string, parts: seq<Part>) {
    provider == ANTHROPIC && exists k :: 0 <= k < |parts| && parts[k].Absent?
  }

  /** The chunks the loop sends: each item's chunks until an item throws out of the
      catch, and nothing for the items after it. */
  function LoopEmits(provider: string, parts: seq<Part>): seq<Emit> {
    if parts == [] then []
    else
      var init := parts[..|parts| - 1];
      if LoopThrows(provider, init) then LoopEmits(provider, init)
      else LoopEmits(provider, init) + AppEmit(provider, parts[|parts| - 1])
  }

  /** What an exchange relays from an OpenAI or Anthropic call: one ERROR from the outer
      catch when the call throws; otherwise the loop's chunks, followed by a second ERROR
      from the outer catch when the loop threw. */
  function AppRelayed(provider: string, upstream: Upstream): seq<Emit> {
    if upstream.Rejected? then [Emit(ERROR, Serialized(upstream.error))]
    else LoopEmits(provider, upstream.parts)
         + (if LoopThrows(provider, upstream.parts) then [Emit(ERROR, Serialized(THROWN_ERROR_JSON))] else [])
  }

  /** Until an item throws, the loop sends what the per-item rule gives. */
  lemma {:induction false} LoopFollowsRule(provider: string, parts: seq<Part>)
    requires !LoopThrows(provider, parts)
    ensures LoopEmits(provider, parts) == AppEmits(provider, parts)
  {
    if parts != [] {
      var init := parts[..|parts| - 1];
      assert forall k :: 0 <= k < |init| ==> init[k] == parts[k];
      LoopFollowsRule(provider, init);
    }
  }

  /** Once the loop has thrown, later items change nothing. */
  lemma {:induction false} LoopStopsAt(provider: string, parts: seq<Part>, j: nat)
    requires j <= |parts| && LoopThrows(provider, parts[..j])
    ensures LoopThrows(provider, parts)
    ensures LoopEmits(provider, parts) == LoopEmits(provider, parts[..j])
    decreases |parts| - j
  {
    var k :| 0 <= k < j && parts[..j][k].Absent?;
    assert parts[k].Absent?;
    if j < |parts| {
      var init := parts[..|parts| - 1];
      assert init[..j] == parts[..j];
      LoopStopsAt(provider, init, j);
    } else {
      assert parts[..j] == parts;
    }
  }

  /** The relay of an Anthropic stream whose first absent item is at `j`: the chunks of
      the items before it, then two ERRORs (the catch's and the outer catch's). */
  lemma ThrownRelay(parts: seq<Part>, events: seq<AzureEvent>, j: nat)
    requires j < |parts| && parts[j].Absent?
    requires forall k :: 0 <= k < j ==> parts[k].Item?
    ensures var err := Emit(ERROR, Serialized(THROWN_ERROR_JSON));
            AppRelayed(ANTHROPIC, Responded(parts, events)) == AppEmits(ANTHROPIC, parts[..j]) + [err, err]
  {
    var before := parts[..j];
    assert !LoopThrows(ANTHROPIC, before);
    LoopFollowsRule(ANTHROPIC, before);
    var upto := parts[..j + 1];
    assert upto[..j] == before;
    assert LoopThrows(ANTHROPIC, upto) by {
      assert upto[j].Absent?;
    }
    LoopStopsAt(ANTHROPIC, parts, j + 1);
  }

  /** As written, an Anthropic stream whose first absent item is at `j` gets one EOM per
      item carrying a stop reason before `j`, none for the items after it, and two ERRORs. */
  lemma AppAnthropicEoms(parts: seq<Part>, events: seq<AzureEvent>, j: nat)
    requires j < |parts| && parts[j].Absent?
    requires forall k :: 0 <= k < j ==> parts[k].Item?
    ensures CountKind(AppRelayed(ANTHROPIC, Responded(parts, events)), EOM) == CountStops(parts[..j])
    ensures CountKind(AppRelayed(ANTHROPIC, Responded(parts, events)), ERROR) == 2
  {
    var before := AppEmits(ANTHROPIC, parts[..j]);
    var err := Emit(ERROR, Serialized(THROWN_ERROR_JSON));
    ThrownRelay(parts, events, j);
    IntendedAnthropicCounts(parts[..j]);
    NoAbsentBefore(parts, j);
    CountKindAppend(before, [err, err], EOM);
    CountKindAppend(before, [err, err], ERROR);
    CountKindNone([err, err], EOM);
    CountTwoErrors(err);
  }

  /** Without an absent Anthropic item the relay is the per-item rule's chunks, so an
      Anthropic stream gets one EOM per stop reason and no ERROR. */
  lemma RelayedWithoutAbsent(provider: string, parts: seq<Part>, events: seq<AzureEvent>)
    requires provider == ANTHROPIC ==> forall k :: 0 <= k < |parts| ==> parts[k].Item?
    ensures AppRelayed(provider, Responded(parts, events)) == AppEmits(provider, parts)
    ensures provider == ANTHROPIC ==>
              CountKind(AppRelayed(provider, Responded(parts, events)), EOM) == CountStops(parts)
              && CountKind(AppRelayed(provider, Responded(parts, events)), ERROR) == 0
  {
    assert !LoopThrows(provider, parts);
    LoopFollowsRule(provider, parts);
    if provider == ANTHROPIC {
      IntendedAnthropicCounts(parts);
      NoAbsentBefore(parts, |parts|);
      assert parts[..|parts|] == parts;
    }
  }

  lemma CountTwoErrors(err: Emit)
    requires err.kind == ERROR
    ensures CountKind([err, err], ERROR) == 2
  {
    assert [err, err][..1] == [err];
    assert [err][..0] == [];
    assert CountKind([err], ERROR) == 1;
  }

  lemma {:induction false} NoAbsentBefore(parts: seq<Part>, n: nat)
    requires n <= |parts|
    requires forall k :: 0 <= k < n ==> parts[k].Item?
    ensures CountAbsent(parts[..n]) == 0
  {
    if n > 0 {
      assert parts[..n][..n - 1] == parts[..n - 1];
      NoAbsentBefore(parts, n - 1);
    }
  }

  /** An absent item ahead of a completion: the code sends two ERRORs and drops the text,
      where the per-item rule sends one ERROR and then the text. */
  lemma AbsentItemEndsRelay()
    ensures var parts := [Absent, Item(None, Some("x"), None)];
            var err := Emit(ERROR, Serialized(THROWN_ERROR_JSON));
            && AppRelayed(ANTHROPIC, Responded(parts, [])) == [err, err]
            && AppEmits(ANTHROPIC, parts) == [err, Emit(MessageChunk, Text("x"))]
  {
    var parts := [Absent, Item(None, Some("x"), None)];
    ThrownRelay(parts, [], 0);
    assert parts[..0] == [];
    assert parts[..1] == [Absent];
  }

  /** formatAnthropic: the accumulator loop over the messages. */
  method FormatAnthropic(ms: seq<Message>) returns (prompt: string)
    ensures prompt == Flattened(ms)
  {
    prompt := "";
    var i := 0;
    while i < |ms|
      invariant 0 <= i <= |ms|
      invariant prompt == Body(ms, i)
    {
      var marker := if ms[i].role == System then (if i == 0 then "" else AI_PROMPT) else HUMAN_PROMPT;
      prompt := prompt + (marker + Render(ms[i].content));
      i := i + 1;
    }
    prompt := prompt + AI_PROMPT;
  }

  /** One more event extends the Azure chunks by that event's chunks. */
  lemma AzureEmitsStep(events: seq<AzureEvent>, i: nat)
    requires i < |events|
    ensures AzureEmits(events[..i + 1]) == AzureEmits(events[..i]) + EventEmits(events[i])
  {
    assert events[..i + 1][..i] == events[..i];
  }

  // ------------------------------------------------------------------ server

  /** The arguments the message handler passes to `prompt`. */
  datatype PromptRequest = PromptRequest(
    uuid: ConnId, session: string, provider: string, model: string, temperature: Option<real>,
    systemPrompt: Option<string>, userPrompt: Option<string>,
    messageHistory: Option<seq<Message>>, knowledgeProfileUuids: Option<seq<string>>)

  /** Whether `prompt` consults the knowledge retrieval. */
  predicate WantsKnowledge(r: PromptRequest) {
    r.knowledgeProfileUuids.Some? && |r.knowledgeProfileUuids.value| > 0
  }

  /** The message sequence `prompt` sends once retrieval has succeeded: the base sequence,
      plus one system message with the knowledge prompt when facts came back. */
  function AugmentedMessages(r: PromptRequest, retrieval: Retrieval): seq<Message> {
    var base := BaseMessages(r.messageHistory, r.systemPrompt, r.userPrompt);
    if WantsKnowledge(r) && retrieval.Retrieved? && |retrieval.facts| > 0 then
      base + [Message(System, Some(KnowledgePrompt(retrieval.facts)))]
    else base
  }

  class AppServer {
    /** The registry: a socket per connection id, true while its readyState is OPEN. */
    var clients: map<ConnId, bool>
    /** Every frame written to a socket, in order. */
    var outbox: seq<Delivery>
    const services: Services

    constructor (services: Services)
      ensures this.services == services && clients == map[] && outbox == []
    {
      this.services := services;
      clients := map[];
      outbox := [];
    }

    /** sendToClient: writes only to a registered, open socket; otherwise it only logs. */
    method SendToClient(uuid: ConnId, session: string, kind: ChunkType, payload: Payload)
      modifies this
      ensures clients == old(clients)
      ensures outbox == old(outbox) + Delivered(old(clients), uuid, session, [Emit(kind, payload)])
    {
      if uuid in clients && clients[uuid] {
        outbox := outbox + [Delivery(uuid, Reply(session, kind, payload))];
      }
    }

    /** 'connection': the new socket is registered under its fresh id and told that id. */
    method OnConnection(id: ConnId)
      modifies this
      ensures clients == old(clients)[id := true]
      ensures outbox == old(outbox) + [Delivery(id, Hello(id))]
    {
      clients := clients[id := true];
      outbox := outbox + [Delivery(id, Hello(id))];
    }

    /** The transport moves a socket's readyState to or from OPEN. */
    method OnReadyStateChange(id: ConnId, open: bool)
      modifies this
      ensures id in old(clients) ==> clients == old(clients)[id := open]
      ensures id !in old(clients) ==> clients == old(clients)
      ensures outbox == old(outbox)
    {
      if id in clients {
        clients := clients[id := open];
      }
    }

    /** 'close': exactly the closing socket's entry is removed. */
    method OnClose(id: ConnId)
      modifies this
      ensures clients == old(clients) - {id}
      ensures forall other :: other != id ==> (other in clients <==> other in old(clients))
      ensures outbox == old(outbox)
    {
      clients := clients - {id};
    }

    /**
     * 'message' on the socket `socket`. Replies are routed to the connection named by
     * the message's own `uuid`, not to `socket`; only the two bare answers go back on
     * `socket` itself. A prompt is handed on as the request `prompt` then serves.
     */
    method OnMessage(socket: ConnId, inbound: Inbound) returns (request: Option<PromptRequest>)
      modifies this
      ensures clients == old(clients)
      ensures inbound.Unparsable? ==>
                outbox == old(outbox) + [Delivery(socket, Bare(PROCESSING_ERROR))] && request.None?
      ensures inbound.Parsed? && !Truthy(inbound.data.uuid) ==>
                outbox == old(outbox) + [Delivery(socket, Bare(UUID_MISSING))] && request.None?
      ensures inbound.Parsed? && Truthy(inbound.data.uuid) ==>
                var d := inbound.data;
                if d.kind == Some("ping") then
                  outbox == old(outbox) + Delivered(old(clients), d.uuid.value, d.session, [Emit(Pong, NoMessage)])
                  && request.None?
                else if d.kind == Some("prompt") then
                  outbox == old(outbox)
                  && request == Some(PromptRequest(d.uuid.value, d.session, Or(d.provider, OPEN_AI),
                                                   Or(d.model, DEFAULT_MODEL), d.temperature, d.systemPrompt,
                                                   d.userPrompt, d.messageHistory, d.knowledgeProfileUuids))
                else
                  outbox == old(outbox) + Delivered(old(clients), d.uuid.value, d.session,
                                                    [Emit(ErrorReply, Text(UNRECOGNIZED_TYPE))])
                  && request.None?
    {
      request := None;
      if inbound.Unparsable? {
        outbox := outbox + [Delivery(socket, Bare(PROCESSING_ERROR))];
        return;
      }
      var d := inbound.data;
      if !Truthy(d.uuid) {
        outbox := outbox + [Delivery(socket, Bare(UUID_MISSING))];
        return;
      }
      if d.kind == Some("ping") {
        SendToClient(d.uuid.value, d.session, Pong, NoMessage);
      } else if d.kind == Some("prompt") {
        request := Some(PromptRequest(d.uuid.value, d.session, Or(d.provider, OPEN_AI),
                                      Or(d.model, DEFAULT_MODEL), d.temperature, d.systemPrompt,
                                      d.userPrompt, d.messageHistory, d.knowledgeProfileUuids));
      } else {
        SendToClient(d.uuid.value, d.session, ErrorReply, Text(UNRECOGNIZED_TYPE));
      }
    }

    /**
     * prompt: assemble the messages, add the knowledge message, call the provider and
     * relay its stream through sendToClient. A failing retrieval or provider call ends
     * in one ERROR from the outer catch, and so does a relay loop that threw after its
     * own ERROR; an unknown or inactive provider sends nothing.
     */
    method Prompt(r: PromptRequest, retrieval: Retrieval, upstream: Upstream)
      returns (messages: seq<Message>, call: Option<ProviderCall>, emits: seq<Emit>)
      modifies this
      ensures clients == old(clients)
      ensures outbox == old(outbox) + Delivered(old(clients), r.uuid, r.session, emits)
      ensures WantsKnowledge(r) && retrieval.RetrievalFailed? ==>
                emits == [Emit(ERROR, Serialized(retrieval.error))] && call.None?
      ensures !(WantsKnowledge(r) && retrieval.RetrievalFailed?) ==>
                && messages == AugmentedMessages(r, retrieval)
                && (!IsActive(services, r.provider) ==> emits == [] && call.None?)
                && (r.provider == OPEN_AI && services.openAi ==>
                      call == Some(OpenAiCall(ServerKey, r.model, messages, Temperature(r.temperature)))
                      && emits == AppRelayed(OPEN_AI, upstream))
                && (r.provider == ANTHROPIC && services.anthropic ==>
                      call == Some(AnthropicCall(ServerKey, r.model, Flattened(messages),
                                                 Temperature(r.temperature), MAX_TOKENS_TO_SAMPLE))
                      && emits == AppRelayed(ANTHROPIC, upstream))
                && (r.provider == AZURE_OPEN_AI && services.azureOpenAi ==>
                      call == Some(AzureCall(r.model, Some(messages), Temperature(r.temperature)))
                      && emits == RelayedAzure(upstream))
    {
      messages := BaseMessages(r.messageHistory, r.systemPrompt, r.userPrompt);
      call, emits := None, [];
      if WantsKnowledge(r) {
        if retrieval.RetrievalFailed? {
          emits := [Emit(ERROR, Serialized(retrieval.error))];
          SendToClient(r.uuid, r.session, ERROR, Serialized(retrieval.error));
          return;
        }
        if |retrieval.facts| > 0 {
          var knowledge := BuildKnowledgePrompt(retrieval.facts);
          messages := messages + [Message(System, Some(knowledge))];
        }
      }
      var temperature := Temperature(r.temperature);
      if services.openAi && r.provider == OPEN_AI {
        call := Some(OpenAiCall(ServerKey, r.model, messages, temperature));
      } else if services.anthropic && r.provider == ANTHROPIC {
        var prompt := FormatAnthropic(messages);
        call := Some(AnthropicCall(ServerKey, r.model, prompt, temperature, MAX_TOKENS_TO_SAMPLE));
      } else if services.azureOpenAi && r.provider == AZURE_OPEN_AI {
        call := Some(AzureCall(r.model, Some(messages), temperature));
      }
      if call.None? {
        return;
      }
      if upstream.Rejected? {
        emits := [Emit(ERROR, Serialized(upstream.error))];
        SendToClient(r.uuid, r.session, ERROR, Serialized(upstream.error));
        return;
      }
      if r.provider == AZURE_OPEN_AI {
        emits := RelayEvents(r.uuid, r.session, upstream.events);
      } else {
        var threw;
        emits, threw := RelayParts(r.uuid, r.session, r.provider, upstream.parts);
        if threw {
          // the outer catch
          var err := Emit(ERROR, Serialized(THROWN_ERROR_JSON));
          SendToClient(r.uuid, r.session, err.kind, err.payload);
          DeliveredExtend(old(outbox), clients, r.uuid, r.session, emits, [err]);
          emits := emits + [err];
        }
      }
    }

    /** The `for await` loop over the stream items, sending each item's chunk. It reports
        whether it ended by throwing out of its per-item catch (see `LoopThrows`). */
    method RelayParts(uuid: ConnId, session: string, provider: string, parts: seq<Part>)
      returns (emits: seq<Emit>, threw: bool)
      modifies this
      ensures clients == old(clients)
      ensures emits == LoopEmits(provider, parts)
      ensures threw == LoopThrows(provider, parts)
      ensures outbox == old(outbox) + Delivered(old(clients), uuid, session, emits)
    {
      emits, threw := [], false;
      var i := 0;
      while i < |parts|
        invariant 0 <= i <= |parts|
        invariant clients == old(clients)
        invariant !LoopThrows(provider, parts[..i])
        invariant emits == LoopEmits(provider, parts[..i])
        invariant outbox == old(outbox) + Delivered(clients, uuid, session, emits)
      {
        assert parts[..i + 1][..i] == parts[..i];
        var step := AppEmit(provider, parts[i]);
        if step != [] {
          var e := step[0];
          assert step == [e];
          SendToClient(uuid, session, e.kind, e.payload);
          DeliveredExtend(old(outbox), clients, uuid, session, emits, step);
        }
        emits := emits + step;
        if provider == ANTHROPIC && parts[i].Absent? {
          // the catch's own logging throws
          assert parts[..i + 1][i].Absent?;
          LoopStopsAt(provider, parts, i + 1);
          threw := true;
          return;
        }
        var upto := parts[..i + 1];
        assert forall k :: 0 <= k < i ==> upto[k] == parts[..i][k];
        assert !LoopThrows(provider, upto);
        i := i + 1;
      }
      assert parts[..i] == parts;
    }

    /** The 'data' handler: one chunk per choice whose delta content is defined. */
    method RelayChoices(uuid: ConnId, session: string, choices: seq<Choice>) returns (sent: seq<Emit>)
      modifies this
      ensures clients == old(clients)
      ensures sent == ChoiceEmits(choices)
      ensures outbox == old(outbox) + Delivered(old(clients), uuid, session, sent)
    {
      sent := [];
      var j := 0;
      while j < |choices|
        invariant 0 <= j <= |choices|
        invariant clients == old(clients)
        invariant sent == ChoiceEmits(choices[..j])
        invariant outbox == old(outbox) + Delivered(clients, uuid, session, sent)
      {
        assert choices[..j + 1][..j] == choices[..j];
        if choices[j].deltaContent.Some? {
          var e := Emit(MessageChunk, Text(choices[j].deltaContent.value));
          SendToClient(uuid, session, e.kind, e.payload);
          DeliveredExtend(old(outbox), clients, uuid, session, sent, [e]);
          sent := sent + [e];
        }
        j := j + 1;
      }
      assert choices[..j] == choices;
    }

    /** The handler the Azure stream runs for one event. */
    method OnEvent(uuid: ConnId, session: string, event: AzureEvent) returns (step: seq<Emit>)
      modifies this
      ensures clients == old(clients)
      ensures step == EventEmits(event)
      ensures outbox == old(outbox) + Delivered(old(clients), uuid, session, step)
    {
      match event {
        case Data(choices) =>
          step := RelayChoices(uuid, session, choices);
        case End =>
          step := [Emit(EOM, NoMessage)];
          SendToClient(uuid, session, EOM, NoMessage);
        case Failure(message) =>
          step := [Emit(ERROR, StreamError(message))];
          SendToClient(uuid, session, ERROR, StreamError(message));
      }
    }

    /** The Azure stream's events in order, each through its handler. */
    method RelayEvents(uuid: ConnId, session: string, events: seq<AzureEvent>) returns (emits: seq<Emit>)
      modifies this
      ensures clients == old(clients)
      ensures emits == AzureEmits(events)
      ensures outbox == old(outbox) + Delivered(old(clients), uuid, session, emits)
    {
      emits := [];
      var i := 0;
      while i < |events|
        invariant 0 <= i <= |events|
        invariant clients == old(clients)
        invariant emits == AzureEmits(events[..i])
        invariant outbox == old(outbox) + Delivered(clients, uuid, session, emits)
      {
        AzureEmitsStep(events, i);
        var step := OnEvent(uuid, session, events[i]);
        DeliveredExtend(old(outbox), clients, uuid, session, emits, step);
        emits := emits + step;
        i := i + 1;
      }
      assert events[..i] == events;
    }
  }
}
