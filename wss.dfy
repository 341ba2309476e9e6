/**
 * config/wss.js: `createWebSocketServer` builds a broker whose `clients` registry
 * lives in the closure; each call yields a fresh `WebSocketServer`. This copy has
 * neither metering nor knowledge, and answers an unknown or inactive provider with
 * one ERROR chunk.
 */
module Wss {
  import opened Wrappers
  import opened Chat

  /** The prompt configuration the message handler builds. `username` and
      `knowledgeSetUuids` are carried along and never read. */
  datatype PromptConfig = PromptConfig(
    username: Option<string>, uuid: ConnId, session: string, provider: string, model: string,
    temperature: Option<real>, systemPrompt: Option<string>, userPrompt: Option<string>,
    messageHistory: Option<seq<Message>>, knowledgeSetUuids: Option<seq<string>>)

  /** formatAnthropic of this copy: the same accumulator loop. */
  method FormatAnthropic(ms: seq<Message>) returns (prompt: string)
    ensures prompt == Flattened(ms)
  {
    prompt := "";
    var i := 0;
    while i < |ms|
      invariant 0 <= i <= |ms|
      invariant prompt == Body(ms, i)
    {
      var marker := if ms[i].role == System then (if i == 0 then "" else AI_PROMPT) else HUMAN_PROMPT;
      prompt := prompt + (marker + Render(ms[i].content));
      i := i + 1;
    }
    prompt := prompt + AI_PROMPT;
  }

  class WebSocketServer {
    /** The closure's registry: a socket per connection id, true while it is OPEN. */
    var clients: map<ConnId, bool>
    /** Every frame written to a socket, in order. */
    var outbox: seq<Delivery>
    const services: Services

    /** createWebSocketServer: an empty registry of its own. */
    constructor (services: Services)
      ensures this.services == services && clients == map[] && outbox == []
    {
      this.services := services;
      clients := map[];
      outbox := [];
    }

    /** sendToClient: writes only to a registered, open socket; otherwise it only logs. */
    method SendToClient(uuid: ConnId, session: string, kind: ChunkType, payload: Payload)
      modifies this
      ensures clients == old(clients)
      ensures outbox == old(outbox) + Delivered(old(clients), uuid, session, [Emit(kind, payload)])
    {
      if uuid in clients && clients[uuid] {
        outbox := outbox + [Delivery(uuid, Reply(session, kind, payload))];
      }
    }

    /** 'connection': the socket is registered under its fresh id and told that id. */
    method OnConnection(id: ConnId)
      modifies this
      ensures clients == old(clients)[id := true]
      ensures outbox == old(outbox) + [Delivery(id, Hello(id))]
    {
      clients := clients[id := true];
      outbox := outbox + [Delivery(id, Hello(id))];
    }

    /** The transport moves a socket's readyState to or from OPEN. */
    method OnReadyStateChange(id: ConnId, open: bool)
      modifies this
      ensures id in old(clients) ==> clients == old(clients)[id := open]
      ensures id !in old(clients) ==> clients == old(clients)
      ensures outbox == old(outbox)
    {
      if id in clients {
        clients := clients[id := open];
      }
    }

    /** 'close': exactly the closing socket's entry is removed. */
    method OnClose(id: ConnId)
      modifies this
      ensures clients == old(clients) - {id}
      ensures forall other :: other != id ==> (other in clients <==> other in old(clients))
      ensures outbox == old(outbox)
    {
      clients := clients - {id};
    }

    /** 'message': as in the HTTP server's broker, a prompt becomes the configuration
        `handlePrompt` serves; replies are routed by the message's own `uuid`. */
    method OnMessage(socket: ConnId, inbound: Inbound) returns (config: Option<PromptConfig>)
      modifies this
      ensures clients == old(clients)
      ensures inbound.Unparsable? ==>
                outbox == old(outbox) + [Delivery(socket, Bare(PROCESSING_ERROR))] && config.None?
      ensures inbound.Parsed? && !Truthy(inbound.data.uuid) ==>
                outbox == old(outbox) + [Delivery(socket, Bare(UUID_MISSING))] && config.None?
      ensures inbound.Parsed? && Truthy(inbound.data.uuid) ==>
                var d := inbound.data;
                if d.kind == Some("ping") then
                  outbox == old(outbox) + Delivered(old(clients), d.uuid.value, d.session, [Emit(Pong, NoMessage)])
                  && config.None?
                else if d.kind == Some("prompt") then
                  outbox == old(outbox)
                  && config == Some(PromptConfig(d.username, d.uuid.value, d.session, Or(d.provider, OPEN_AI),
                                                 Or(d.model, DEFAULT_MODEL), d.temperature, d.systemPrompt,
                                                 d.userPrompt, d.messageHistory, d.knowledgeSetUuids))
                else
                  outbox == old(outbox) + Delivered(old(clients), d.uuid.value, d.session,
                                                    [Emit(ErrorReply, Text(UNRECOGNIZED_TYPE))])
                  && config.None?
    {
      config := None;
      if inbound.Unparsable? {
        outbox := outbox + [Delivery(socket, Bare(PROCESSING_ERROR))];
        return;
      }
      var d := inbound.data;
      if !Truthy(d.uuid) {
        outbox := outbox + [Delivery(socket, Bare(UUID_MISSING))];
        return;
      }
      if d.kind == Some("ping") {
        SendToClient(d.uuid.value, d.session, Pong, NoMessage);
      } else if d.kind == Some("prompt") {
        config := Some(PromptConfig(d.username, d.uuid.value, d.session, Or(d.provider, OPEN_AI),
                                    Or(d.model, DEFAULT_MODEL), d.temperature, d.systemPrompt,
                                    d.userPrompt, d.messageHistory, d.knowledgeSetUuids));
      } else {
        SendToClient(d.uuid.value, d.session, ErrorReply, Text(UNRECOGNIZED_TYPE));
      }
    }

    /**
     * handlePrompt: the first active provider that matches is called with the base
     * messages and its stream relayed; anything else is answered with one ERROR chunk.
     * A rejected call ends in the one ERROR of the outer catch.
     */
    method HandlePrompt(config: PromptConfig, upstream: Upstream)
      returns (messages: seq<Message>, call: Option<ProviderCall>, emits: seq<Emit>)
      modifies this
      ensures clients == old(clients)
      ensures outbox == old(outbox) + Delivered(old(clients), config.uuid, config.session, emits)
      ensures messages == BaseMessages(config.messageHistory, config.systemPrompt, config.userPrompt)
      ensures !IsActive(services, config.provider) ==>
                emits == [Emit(ERROR, ProviderNotSupported)] && call.None?
      ensures config.provider == OPEN_AI && services.openAi ==>
                call == Some(OpenAiCall(ServerKey, config.model, messages, Temperature(config.temperature)))
                && emits == Relayed(OPEN_AI, upstream)
      ensures config.provider == ANTHROPIC && services.anthropic ==>
                call == Some(AnthropicCall(ServerKey, config.model, Flattened(messages),
                                           Temperature(config.temperature), MAX_TOKENS_TO_SAMPLE))
                && emits == Relayed(ANTHROPIC, upstream)
      ensures config.provider == AZURE_OPEN_AI && services.azureOpenAi ==>
                call == Some(AzureCall(config.model, Some(messages), Temperature(config.temperature)))
                && emits == RelayedAzure(upstream)
    {
      messages := BaseMessages(config.messageHistory, config.systemPrompt, config.userPrompt);
      call, emits := None, [];
      var temperature := Temperature(config.temperature);
      if services.openAi && config.provider == OPEN_AI {
        call := Some(OpenAiCall(ServerKey, config.model, messages, temperature));
      } else if services.anthropic && config.provider == ANTHROPIC {
        var prompt := FormatAnthropic(messages);
        call := Some(AnthropicCall(ServerKey, config.model, prompt, temperature, MAX_TOKENS_TO_SAMPLE));
      } else if services.azureOpenAi && config.provider == AZURE_OPEN_AI {
        call := Some(AzureCall(config.model, Some(messages), temperature));
      } else {
        emits := [Emit(ERROR, ProviderNotSupported)];
        SendToClient(config.uuid, config.session, ERROR, ProviderNotSupported);
        return;
      }
      if upstream.Rejected? {
        emits := [Emit(ERROR, Serialized(upstream.error))];
        SendToClient(config.uuid, config.session, ERROR, Serialized(upstream.error));
        return;
      }
      if config.provider == AZURE_OPEN_AI {
        emits := HandleAzureStream(config.uuid, config.session, upstream.events);
      } else {
        emits := HandlePromptResponse(config.uuid, config.session, config.provider, upstream.parts);
      }
    }

    /** handlePromptResponse: one chunk per stream item, in order. */
    method HandlePromptResponse(uuid: ConnId, session: string, provider: string, parts: seq<Part>)
      returns (emits: seq<Emit>)
      modifies this
      ensures clients == old(clients)
      ensures emits == ResponseEmits(provider, parts)
      ensures outbox == old(outbox) + Delivered(old(clients), uuid, session, emits)
    {
      emits := [];
      var i := 0;
      while i < |parts|
        invariant 0 <= i <= |parts|
        invariant clients == old(clients)
        invariant emits == ResponseEmits(provider, parts[..i])
        invariant outbox == old(outbox) + Delivered(clients, uuid, session, emits)
      {
        assert parts[..i + 1][..i] == parts[..i];
        var part := parts[i];
        var e: Emit;
        if provider == OPEN_AI && part.Item? && Truthy(part.deltaContent) {
          e := Emit(MessageChunk, Text(part.deltaContent.value));
        } else if provider == ANTHROPIC && part.Absent? {
          e := Emit(ERROR, Serialized(THROWN_ERROR_JSON));
        } else if provider == ANTHROPIC && Truthy(part.completion) && !Truthy(part.stopReason) {
          e := Emit(MessageChunk, Text(part.completion.value));
        } else {
          e := Emit(EOM, NoMessage);
        }
        SendToClient(uuid, session, e.kind, e.payload);
        DeliveredExtend(old(outbox), clients, uuid, session, emits, [e]);
        emits := emits + [e];
        i := i + 1;
      }
      assert parts[..i] == parts;
    }

    /** The 'data' handler: one chunk per choice whose delta content is defined. */
    method OnData(uuid: ConnId, session: string, choices: seq<Choice>) returns (sent: seq<Emit>)
      modifies this
      ensures clients == old(clients)
      ensures sent == ChoiceEmits(choices)
      ensures outbox == old(outbox) + Delivered(old(clients), uuid, session, sent)
    {
      sent := [];
      var j := 0;
      while j < |choices|
        invariant 0 <= j <= |choices|
        invariant clients == old(clients)
        invariant sent == ChoiceEmits(choices[..j])
        invariant outbox == old(outbox) + Delivered(clients, uuid, session, sent)
      {
        assert choices[..j + 1][..j] == choices[..j];
        if choices[j].deltaContent.Some? {
          var e := Emit(MessageChunk, Text(choices[j].deltaContent.value));
          SendToClient(uuid, session, e.kind, e.payload);
          DeliveredExtend(old(outbox), clients, uuid, session, sent, [e]);
          sent := sent + [e];
        }
        j := j + 1;
      }
      assert choices[..j] == choices;
    }

    /** The handler the stream runs for one event. */
    method OnEvent(uuid: ConnId, session: string, event: AzureEvent) returns (step: seq<Emit>)
      modifies this
      ensures clients == old(clients)
      ensures step == EventEmits(event)
      ensures outbox == old(outbox) + Delivered(old(clients), uuid, session, step)
    {
      match event {
        case Data(choices) =>
          step := OnData(uuid, session, choices);
        case End =>
          step := [Emit(EOM, NoMessage)];
          SendToClient(uuid, session, EOM, NoMessage);
        case Failure(message) =>
          step := [Emit(ERROR, StreamError(message))];
          SendToClient(uuid, session, ERROR, StreamError(message));
      }
    }

    /** handleAzureStream: the stream's events in order, each through its handler. */
    method HandleAzureStream(uuid: ConnId, session: string, events: seq<AzureEvent>) returns (emits: seq<Emit>)
      modifies this
      ensures clients == old(clients)
      ensures emits == AzureEmits(events)
      ensures outbox == old(outbox) + Delivered(old(clients), uuid, session, emits)
    {
      emits := [];
      var i := 0;
      while i < |events|
        invariant 0 <= i <= |events|
        invariant clients == old(clients)
        invariant emits == AzureEmits(events[..i])
        invariant outbox == old(outbox) + Delivered(clients, uuid, session, emits)
      {
        assert events[..i + 1][..i] == events[..i];
        var step := OnEvent(uuid, session, events[i]);
        DeliveredExtend(old(outbox), clients, uuid, session, emits, step);
        emits := emits + step;
        i := i + 1;
      }
      assert events[..i] == events;
    }
  }
}
