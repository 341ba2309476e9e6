/**
 * config/handlePrompts.js: the copy of the broker with usage metering and
 * bring-your-own-key support. `handlePrompt` receives `sendToClient` from its
 * caller; the model returns the calls it makes of it, in order, as the emits of
 * the exchange, together with the account as the store holds it afterwards and
 * the streaming call made of a provider (if any).
 */
module HandlePrompts {
  import opened Wrappers
  import opened Chat

  /** The account fields the broker reads; a counter is None when the field is missing. */
  datatype Account = Account(
    uuid: string,
    openAiApiKey: Option<string>, anthropicApiKey: Option<string>,
    azureOpenAiApiKey: Option<string>, azureOpenAiApiEndpoint: Option<string>,
    charactersUsed: Option<int>, ownCharactersUsed: Option<int>, characterReserve: Option<int>)

  /** The `promptConfig` handed to handlePrompt. */
  datatype PromptConfig = PromptConfig(
    account: Option<Account>, provider: string, uuid: string, session: string, model: string,
    messageHistory: Option<seq<Message>>, userPrompt: Option<string>, systemPrompt: Option<string>,
    temperature: Option<real>)

  // ------------------------------------------------------------ message length

  /** The `reduce` over a history: the content lengths added up, missing content counting 0. */
  function ContentLength(ms: seq<Message>): nat {
    if ms == [] then 0 else ContentLength(ms[..|ms| - 1]) + LengthOrZero(ms[|ms| - 1].content)
  }

  /** calculateMessageLength: a present history (even an empty one) is measured alone;
      otherwise the user and system prompts, a missing one counting 0. */
  function MessageLength(history: Option<seq<Message>>, userPrompt: Option<string>,
                         systemPrompt: Option<string>): (r: nat)
    ensures history.None? ==> r == ContentLength(PromptPair(systemPrompt, userPrompt))
    ensures history == Some([]) ==> r == 0
  {
    PromptPairLength(systemPrompt, userPrompt);
    if history.Some? then ContentLength(history.value)
    else LengthOrZero(userPrompt) + LengthOrZero(systemPrompt)
  }

  lemma {:induction false} ContentLengthAppend(a: seq<Message>, b: seq<Message>)
    ensures ContentLength(a + b) == ContentLength(a) + ContentLength(b)
    decreases |b|
  {
    if b == [] {
      assert a + b == a;
    } else {
      assert (a + b)[..|a + b| - 1] == a + b[..|b| - 1];
      ContentLengthAppend(a, b[..|b| - 1]);
    }
  }

  lemma PromptPairLength(systemPrompt: Option<string>, userPrompt: Option<string>)
    ensures ContentLength(PromptPair(systemPrompt, userPrompt)) == LengthOrZero(systemPrompt) + LengthOrZero(userPrompt)
  {
    var pair := PromptPair(systemPrompt, userPrompt);
    assert pair[..1] == [pair[0]] && pair[..1][..0] == [];
    assert ContentLength(pair[..1]) == ContentLength([]) + LengthOrZero(systemPrompt);
    assert ContentLength(pair) == ContentLength(pair[..1]) + LengthOrZero(userPrompt);
  }

  lemma {:induction false} ContentLengthCovers(ms: seq<Message>, i: nat)
    requires i < |ms|
    ensures LengthOrZero(ms[i].content) <= ContentLength(ms)
  {
    ContentLengthAppend(ms[..i + 1], ms[i + 1..]);
    assert ms[..i + 1] + ms[i + 1..] == ms;
    assert ms[..i + 1][..i] == ms[..i];
  }

  /** Without a history, the length is the content length of the pair of messages that
      would be sent; and every message of a history contributes its whole content. */
  lemma {:induction false} MessageLengthMeasuresContent(history: Option<seq<Message>>,
                                                        userPrompt: Option<string>, systemPrompt: Option<string>)
    ensures history.None? ==>
              MessageLength(history, userPrompt, systemPrompt) == ContentLength(PromptPair(systemPrompt, userPrompt))
    ensures history.Some? ==> forall i :: 0 <= i < |history.value| ==>
              LengthOrZero(history.value[i].content) <= MessageLength(history, userPrompt, systemPrompt)
  {
    PromptPairLength(systemPrompt, userPrompt);
    if history.Some? {
      forall i | 0 <= i < |history.value|
        ensures LengthOrZero(history.value[i].content) <= ContentLength(history.value)
      {
        ContentLengthCovers(history.value, i);
      }
    }
  }

  // ---------------------------------------------------------------- metering

  /** hasMatchingApiKey: the account holds a (non-empty) key for the selected provider. */
  predicate HasMatchingApiKey(account: Account, provider: string)
    ensures HasMatchingApiKey(account, provider) <==> Truthy(KeyFor(account, provider))
    ensures HasMatchingApiKey(account, provider) ==> provider in {OPEN_AI, ANTHROPIC, AZURE_OPEN_AI}
  {
    || (provider == OPEN_AI && Truthy(account.openAiApiKey))
    || (provider == ANTHROPIC && Truthy(account.anthropicApiKey))
    || (provider == AZURE_OPEN_AI && Truthy(account.azureOpenAiApiKey))
  }

  /** The account's own key for a provider name; no key for any other name. */
  function KeyFor(account: Account, provider: string): Option<string> {
    if provider == OPEN_AI then account.openAiApiKey
    else if provider == ANTHROPIC then account.anthropicApiKey
    else if provider == AZURE_OPEN_AI then account.azureOpenAiApiKey
    else None
  }

  /** hasEnoughTokens: `charactersUsed + needed <= characterReserve`; a missing counter
      makes the JavaScript comparison false. */
  predicate HasEnoughTokens(account: Option<Account>, needed: nat)
    ensures account.Some? && (account.value.charactersUsed.None? || account.value.characterReserve.None?) ==>
              !HasEnoughTokens(account, needed)
    ensures HasEnoughTokens(account, needed) ==>
              && account.Some? && account.value.charactersUsed.Some? && account.value.characterReserve.Some?
              && account.value.characterReserve.value - account.value.charactersUsed.value >= needed
  {
    && account.Some?
    && account.value.charactersUsed.Some?
    && account.value.characterReserve.Some?
    && account.value.charactersUsed.value + needed <= account.value.characterReserve.value
  }

  /** The outcome of the usage gate. */
  datatype Metering = Unmetered | ChargeOwn(amount: nat) | ChargeShared(amount: nat) | Exhausted

  /** The gate of handlePrompt: own key first, then the reserve; anonymous callers pass unmetered. */
  function Meter(account: Option<Account>, provider: string, length: nat): (m: Metering)
    ensures m.Unmetered? <==> account.None?
    ensures m.ChargeOwn? <==> account.Some? && HasMatchingApiKey(account.value, provider)
    ensures m.Exhausted? <==>
              account.Some? && !HasMatchingApiKey(account.value, provider) && !HasEnoughTokens(account, length)
    ensures (m.ChargeOwn? || m.ChargeShared?) ==> m.amount == length
  {
    if account.Some? && HasMatchingApiKey(account.value, provider) then ChargeOwn(length)
    else if account.Some? && !HasEnoughTokens(account, length) then Exhausted
    else if account.Some? then ChargeShared(length)
    else Unmetered
  }

  /** The `$inc` the gate issues, as the store applies it (a missing counter starts at 0). */
  function Charge(account: Account, m: Metering): Account {
    match m
    case ChargeOwn(n) => account.(ownCharactersUsed := Some(account.ownCharactersUsed.GetOr(0) + n))
    case ChargeShared(n) => account.(charactersUsed := Some(account.charactersUsed.GetOr(0) + n))
    case _ => account
  }

  /** Own-key callers pass whatever their counters say, and only their own counter grows. */
  lemma OwnKeyIgnoresReserve(account: Account, provider: string, length: nat)
    requires HasMatchingApiKey(account, provider)
    ensures Meter(Some(account), provider, length) == ChargeOwn(length)
    ensures Charge(account, ChargeOwn(length)).charactersUsed == account.charactersUsed
    ensures Charge(account, ChargeOwn(length)).ownCharactersUsed ==
              Some(account.ownCharactersUsed.GetOr(0) + length)
  {
  }

  /** The worked examples: 90 used of 100 with a 20-character prompt is refused; with an
      own key a 1000-character prompt passes and is counted against the own counter. */
  lemma MeteringExamples(account: Account)
    requires account.charactersUsed == Some(90) && account.characterReserve == Some(100)
    ensures account.openAiApiKey.None? ==> Meter(Some(account), OPEN_AI, 20) == Exhausted
    ensures account.openAiApiKey == Some("sk") ==>
              Meter(Some(account), OPEN_AI, 1000) == ChargeOwn(1000) &&
              Charge(account, ChargeOwn(1000)).charactersUsed == Some(90)
  {
  }

  // ------------------------------------------------------------------ dispatch

  /** `messageHistory || [system, user]`: a present history is sent even when empty. */
  function Messages(config: PromptConfig): seq<Message> {
    config.messageHistory.GetOr(PromptPair(config.systemPrompt, config.userPrompt))
  }

  /** The client handleOpenAiPrompt / handleAnthropicPrompt builds: the account's key wins. */
  function CredentialFor(key: Option<string>): Credential {
    if Truthy(key) then OwnKey(key.value) else ServerKey
  }

  predicate KnownProvider(provider: string) {
    provider == OPEN_AI || provider == ANTHROPIC || provider == AZURE_OPEN_AI
  }

  /**
   * handlePrompt. The gate runs first and charges before any provider is looked at;
   * a known but inactive provider then ends the exchange silently, an unknown one
   * with one ERROR. With an account holding both Azure key and endpoint the Azure
   * branch throws (it reads an undefined variable) and the outer catch sends ERROR.
   */
  method HandlePrompt(config: PromptConfig, services: Services, upstream: Upstream)
    returns (emits: seq<Emit>, stored: Option<Account>, call: Option<ProviderCall>)
    ensures stored.Some? <==> config.account.Some?
    ensures var m := Meter(config.account, config.provider,
                           MessageLength(config.messageHistory, config.userPrompt, config.systemPrompt));
            && (config.account.Some? ==> stored.value == Charge(config.account.value, m))
            && (m.Exhausted? ==> emits == [Emit(ERROR, Text(RESERVE_EXHAUSTED))] && call.None?)
            && (!m.Exhausted? && !KnownProvider(config.provider) ==>
                  emits == [Emit(ERROR, ProviderNotSupported)] && call.None?)
            && (!m.Exhausted? && KnownProvider(config.provider) && !IsActive(services, config.provider) ==>
                  emits == [] && call.None?)
            && (!m.Exhausted? && config.provider == OPEN_AI && services.openAi ==>
                  && call == Some(OpenAiCall(CredentialFor(if config.account.Some? then config.account.value.openAiApiKey else None),
                                             config.model, Messages(config), Temperature(config.temperature)))
                  && emits == Relayed(OPEN_AI, upstream))
            && (!m.Exhausted? && config.provider == ANTHROPIC && services.anthropic ==>
                  && call == Some(AnthropicCall(CredentialFor(if config.account.Some? then config.account.value.anthropicApiKey else None),
                                                config.model, Flattened(Messages(config)),
                                                Temperature(config.temperature), MAX_TOKENS_TO_SAMPLE))
                  && emits == Relayed(ANTHROPIC, upstream))
            && (!m.Exhausted? && config.provider == AZURE_OPEN_AI && services.azureOpenAi ==>
                  if config.account.Some? && Truthy(config.account.value.azureOpenAiApiKey)
                     && Truthy(config.account.value.azureOpenAiApiEndpoint)
                  then emits == [Emit(ERROR, Serialized(THROWN_ERROR_JSON))] && call.None?
                  else call == Some(AzureCall(config.model, config.messageHistory, Temperature(config.temperature)))
                       && emits == RelayedAzure(upstream))
  {
    var length := MessageLength(config.messageHistory, config.userPrompt, config.systemPrompt);
    var m := Meter(config.account, config.provider, length);
    stored := if config.account.Some? then Some(Charge(config.account.value, m)) else None;
    emits, call := [], None;
    if m.Exhausted? {
      emits := [Emit(ERROR, Text(RESERVE_EXHAUSTED))];
      return;
    }
    var temperature := Temperature(config.temperature);
    if config.provider == OPEN_AI {
      if !services.openAi { return; }
      var key := if config.account.Some? then config.account.value.openAiApiKey else None;
      call := Some(OpenAiCall(CredentialFor(key), config.model, Messages(config), temperature));
      if upstream.Rejected? {
        emits := [Emit(ERROR, Serialized(upstream.error))];
      } else {
        emits := HandlePromptResponse(upstream.parts, OPEN_AI);
      }
    } else if config.provider == ANTHROPIC {
      if !services.anthropic { return; }
      var key := if config.account.Some? then config.account.value.anthropicApiKey else None;
      var prompt := FormatAnthropic(Messages(config));
      call := Some(AnthropicCall(CredentialFor(key), config.model, prompt, temperature, MAX_TOKENS_TO_SAMPLE));
      if upstream.Rejected? {
        emits := [Emit(ERROR, Serialized(upstream.error))];
      } else {
        emits := HandlePromptResponse(upstream.parts, ANTHROPIC);
      }
    } else if config.provider == AZURE_OPEN_AI {
      if !services.azureOpenAi { return; }
      if config.account.Some? && Truthy(config.account.value.azureOpenAiApiKey)
         && Truthy(config.account.value.azureOpenAiApiEndpoint) {
        emits := [Emit(ERROR, Serialized(THROWN_ERROR_JSON))];
        return;
      }
      call := Some(AzureCall(config.model, config.messageHistory, temperature));
      if upstream.Rejected? {
        emits := [Emit(ERROR, Serialized(upstream.error))];
      } else {
        emits := HandleAzureStream(upstream.events);
      }
    } else {
      emits := [Emit(ERROR, ProviderNotSupported)];
    }
  }

  // ------------------------------------------------------- stream handlers

  /** handlePromptResponse: one chunk per stream item, in order. */
  method HandlePromptResponse(parts: seq<Part>, provider: string) returns (emits: seq<Emit>)
    ensures emits == ResponseEmits(provider, parts)
  {
    emits := [];
    var i := 0;
    while i < |parts|
      invariant 0 <= i <= |parts|
      invariant emits == ResponseEmits(provider, parts[..i])
    {
      assert parts[..i + 1][..i] == parts[..i];
      emits := emits + [ResponseEmit(provider, parts[i])];
      i := i + 1;
    }
    assert parts[..i] == parts;
  }

  /** handleAzureStream: each 'data' event sends its defined choice contents, 'end' one
      EOM and 'error' one ERROR, in the order the events arrive. */
  method HandleAzureStream(events: seq<AzureEvent>) returns (emits: seq<Emit>)
    ensures emits == AzureEmits(events)
  {
    emits := [];
    var i := 0;
    while i < |events|
      invariant 0 <= i <= |events|
      invariant emits == AzureEmits(events[..i])
    {
      assert events[..i + 1][..i] == events[..i];
      match events[i] {
      case Data(choices) =>
        var before := emits;
        var j := 0;
        while j < |choices|
          invariant 0 <= j <= |choices|
          invariant emits == before + ChoiceEmits(choices[..j])
        {
          assert choices[..j + 1][..j] == choices[..j];
          if choices[j].deltaContent.Some? {
            emits := emits + [Emit(MessageChunk, Text(choices[j].deltaContent.value))];
          }
          j := j + 1;
        }
        assert choices[..j] == choices;
      case End =>
        emits := emits + [Emit(EOM, NoMessage)];
      case Failure(message) =>
        emits := emits + [Emit(ERROR, StreamError(message))];
      }
      i := i + 1;
    }
    assert events[..i] == events;
  }

  /** formatAnthropic: the accumulator loop over the messages. */
  method FormatAnthropic(ms: seq<Message>) returns (prompt: string)
    ensures prompt == Flattened(ms)
  {
    prompt := "";
    var i := 0;
    while i < |ms|
      invariant 0 <= i <= |ms|
      invariant prompt == Body(ms, i)
    {
      var marker := if ms[i].role == System then (if i == 0 then "" else AI_PROMPT) else HUMAN_PROMPT;
      prompt := prompt + (marker + Render(ms[i].content));
      i := i + 1;
    }
    prompt := prompt + AI_PROMPT;
  }
}
