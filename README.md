# mpersona prompt broker and controller cores, modelled in Dafny

This project models the prompt broker of the mpersona Node server and the in-memory
decision logic of five of its controllers.

The broker takes a chat request from a WebSocket client. It meters usage, builds the
message list, adds knowledge facts, flattens the messages for Anthropic, and turns
provider stream parts into `message` / `EOM` / `ERROR` chunks. Each chunk goes to the
connection whose id the request named. The broker exists in three diverging copies and
each copy is modelled on its own:

- `config/handlePrompts.js` (module `HandlePrompts`): the usage-metering gate and dispatch.
  `sendToClient` is a callback, so its methods return the chunks they send, in order.
- `config/app.js` (module `App`, class `AppServer`): the module-level registry, the socket
  handlers, knowledge augmentation and the per-part chunk rule of this copy.
- `config/wss.js` (module `Wss`, class `WebSocketServer`): the factory-owned registry, the
  socket handlers and the provider dispatch of this copy.

The registry is a `map<ConnId, bool>` (registered ids and whether the socket is OPEN) plus
an `outbox` of the frames delivered so far. `Chat.Delivered` says which frames a list of
chunks becomes: all of them for a registered open socket, none otherwise.

The controllers:

- `controllers/facts.js` (module `Facts`): the JSONL training-line formatter, the `findFacts`
  and text-search queries, and the `searchFacts` / `getFactsByKnowledgeProfileUuids` replies.
- `controllers/rosters.js` (module `Rosters`): persona re-ordering, the stamping done by
  `create`, the `update` operations and null filtering, and the link endpoints.
- `controllers/accounts.js` (module `Accounts`): e-mail validation, account creation,
  the own-account merge, delete counting and the document rewriting of the data upload.
- `controllers/shareLinks.js` (module `ShareLinks`): the schema table and the four link
  endpoints, plus what their updates do to a document.

Shared vocabulary lives in `Chat` (messages, chunks, stream parts, the flattening and
chunk specifications), `Documents` (JSON values, tokens, the link view and grant) and
`Wrappers` (`Option`). `Seqs` holds small sequence lemmas.

Databases, provider SDKs, clocks, uuids, password hashing and the socket transport are
not modelled. What they answer is a parameter: a found document, a write result, a
stream of parts, a `uuidFor` function, an `accepts` predicate for creates.

Three behaviours of the code worth noting:

- The app.js knowledge filter is not a prefix cut-off. Fact `i` is included iff `i < 20`
  and its score is at least half the first fact's. A fact that fails does not stop later
  facts from being included (`App.FilterSkipsAndResumes`).
- rosters.js `addLink` refuses only when the driver reports `nModified === 0`. A result
  without that field is accepted (`Rosters.AddLinkWithoutCount`).
- The app.js relay loop stops at the first absent Anthropic stream item. Its per-item catch
  logs a name that `prompt` does not declare, so the catch itself throws: the item's ERROR
  is followed by the outer catch's ERROR and nothing after it is relayed. The server class
  follows the code; the one-ERROR-and-continue rule of the other two copies is
  `App.AppEmits` (see "## Findings").

## Model

| member | source | states |
|---|---|---|
| Chat.ServicesFromEnv | config/handlePrompts.js:37-47 | a service is active iff its environment key is defined and non-empty |
| Chat.Temperature | config/handlePrompts.js:137 | the sampling temperature is never 0; a present non-zero value is kept, anything else becomes the default |
| Chat.ResponseEmit | config/handlePrompts.js:238-252 | each item gives one message, EOM or ERROR chunk; ERROR iff an absent Anthropic item; a message carries non-empty text; EOM carries none |
| Chat.ResponseEmits | config/handlePrompts.js:236-253 | exactly one chunk per stream part, in part order, each given by the per-part rule |
| Chat.ResponseKinds | config/handlePrompts.js:238-252 | a part's chunk is `message` iff it is an openAi part with delta content or an anthropic part with a completion and no stop reason; it is ERROR iff an anthropic part is absent (the per-part throw); otherwise EOM |
| Chat.ResponseErrorCount | config/handlePrompts.js:236-253 | the number of ERROR chunks equals the number of absent anthropic parts, and iteration goes on past each one |
| Chat.ResponseEomTwice | config/handlePrompts.js:238-248 | an openAi stream can send EOM more than once: parts with empty, "Hi" and no content give EOM, message, EOM |
| Chat.ChoiceEmits | config/handlePrompts.js:258-262 | a data event sends at most one chunk per choice, all of kind `message` |
| Chat.ChoiceEmitsTexts | config/handlePrompts.js:258-262 | the chunks of a data event are the defined delta contents, in choice order, including empty ones |
| Chat.EventEmitsCounts | config/handlePrompts.js:257-273 | an `end` event sends one EOM and an `error` event one ERROR; a data event sends neither |
| Chat.AzureTerminalCounts | config/handlePrompts.js:256-273 | over a whole Azure stream, EOMs equal the `end` events and ERRORs equal the `error` events |
| Chat.BodyExtend | config/handlePrompts.js:278-286 | rendering the first n messages does not depend on later messages |
| Chat.BodyPrefix | config/handlePrompts.js:278-286 | the rendering of a shorter prefix of the history is a prefix of the rendering of a longer one |
| Chat.FlattenedEnds | config/handlePrompts.js:276-289 | the flattened prompt starts with the first message: bare if it is a system message, after HUMAN_PROMPT otherwise; it ends with AI_PROMPT |
| Chat.FlattenedAppend | config/handlePrompts.js:278-287 | appending a message adds its marker and content before the trailing AI_PROMPT; a later system message is marked with AI_PROMPT |
| Chat.FlattenedExample | config/handlePrompts.js:276-289 | [system A, user B, system C] flattens to A, HUMAN_PROMPT B, AI_PROMPT C, AI_PROMPT |
| Chat.Delivered | config/app.js:113-121 | chunks reach a registered open socket one frame each, carrying the session; nothing reaches an absent or closed id |
| Chat.DeliveredAppend | config/app.js:113-121 | delivering two chunk lists one after the other equals delivering their concatenation |
| HandlePrompts.ContentLengthAppend | config/handlePrompts.js:80-84 | the summed content length of a concatenation is the sum of the two lengths |
| HandlePrompts.PromptPairLength | config/handlePrompts.js:86 | without a history the length is user prompt plus system prompt, a missing one counting 0 |
| HandlePrompts.MessageLength | config/handlePrompts.js:79-87 | without a history the length is the content length of the prompt pair; a present empty history measures 0 |
| HandlePrompts.HasMatchingApiKey | config/handlePrompts.js:64-70 | true iff the account's key for the selected provider is present and non-empty; never for an unknown provider |
| HandlePrompts.HasEnoughTokens | config/handlePrompts.js:72-77 | a missing counter never passes; passing means the unused reserve covers the need |
| HandlePrompts.MessageLengthMeasuresContent | config/handlePrompts.js:79-87 | without a history the length equals the content length of the pair that would be sent; with one, every message's content is counted in full |
| HandlePrompts.Meter | config/handlePrompts.js:104-125 | anonymous callers are unmetered; own-key callers are charged their own counter; others are exhausted iff `charactersUsed + length <= characterReserve` fails (a missing counter fails it); every charge is exactly the length |
| HandlePrompts.OwnKeyIgnoresReserve | config/handlePrompts.js:106-112 | with a matching key the reserve is never consulted, the shared counter is unchanged and the own counter grows by the length |
| HandlePrompts.MeteringExamples | config/handlePrompts.js:64-77 | 90 used of 100 refuses a 20-character prompt without a key; with an own key a 1000-character prompt passes and leaves the shared counter at 90 |
| HandlePrompts.HandlePrompt | config/handlePrompts.js:89-183 | the stored account is the charged one; exhausted gives one reserve ERROR and no call; an unknown provider gives one "not supported" ERROR; a known inactive one sends nothing; each active provider gets its call (the account's key wins) and its stream is relayed; a throwing call or the Azure own-key branch gives one ERROR |
| HandlePrompts.HandlePromptResponse | config/handlePrompts.js:229-254 | the chunks sent are exactly the per-part chunks of the stream |
| HandlePrompts.HandleAzureStream | config/handlePrompts.js:256-274 | the chunks sent are exactly the Azure stream's chunks, event by event |
| HandlePrompts.FormatAnthropic | config/handlePrompts.js:276-289 | the accumulating loop builds exactly the flattened prompt |
| App.IncludedIndicesSpec | config/app.js:203-210 | the included positions are increasing and a position below n is listed iff it passes the filter |
| App.FactLinesAreIncluded | config/app.js:203-210 | the appended lines are those of the included facts, in rank order, and nothing else |
| App.AtMostTwentyFacts | config/app.js:207 | at most 20 facts enter the prompt |
| App.AtMostTwentyPrefix | config/app.js:207 | facts past position 20 never change what is included |
| App.IncludedMonotone | config/app.js:206-207 | below an included fact, every fact clearing half the top score is included; a non-negative top fact is always included |
| App.FilterSkipsAndResumes | config/app.js:203-210 | scores 10, 3, 8 include the first and third facts but not the second |
| App.BuildKnowledgePrompt | config/app.js:195-210 | the knowledge text is the preamble followed by the included facts' lines |
| App.AppendFactLines | config/app.js:203-210 | the `forEach` appends `" > " + fact + "\n"` for exactly the included facts, tracking the top score |
| App.AppEmit | config/app.js:254-263 | an item yields at most one chunk; ERROR iff it is an absent Anthropic item; for an Anthropic item, EOM iff it carries a stop reason, the completion as a message when it has one and no stop reason, and nothing when it has neither; an unknown provider sends nothing |
| App.IntendedAnthropicCounts | config/app.js:260-272 | under the per-item rule an Anthropic stream gets one EOM per stop reason and one ERROR per absent item |
| App.LoopFollowsRule | config/app.js:253-275 | until an item throws out of the catch, the loop sends the per-item rule's chunks |
| App.LoopStopsAt | config/app.js:253-275 | once the loop has thrown, later items send nothing |
| App.ThrownRelay | config/app.js:260-327 | with its first absent Anthropic item at j, the relay is the chunks of the items before j, then two ERRORs |
| App.AppAnthropicEoms | config/app.js:260-327 | with its first absent item at j, an Anthropic stream gets one EOM per stop reason before j, none after it, and two ERRORs |
| App.RelayedWithoutAbsent | config/app.js:253-275 | without an absent Anthropic item the relay is the per-item chunks: one EOM per stop reason and no ERROR |
| App.AbsentItemEndsRelay | config/app.js:272 | an absent item before a completion gives two ERRORs and drops the text, where the per-item rule gives ERROR then the text |
| App.AppOpenAiAgrees | config/app.js:255-258 | for OpenAI, the chunks agree with the per-part rule of the other two copies |
| App.FormatAnthropic | config/app.js:333-344 | the accumulating loop builds exactly the flattened prompt |
| App.AzureEmitsStep | config/app.js:282-309 | the Azure stream's chunks grow event by event |
| App.AppServer.constructor | config/app.js:110-111 | a new server has no clients and has sent nothing |
| App.AppServer.SendToClient | config/app.js:113-121 | one frame is delivered iff the id is registered and open; the registry is unchanged |
| App.AppServer.OnConnection | config/app.js:123-128 | the fresh id is registered open and told its id on that socket |
| App.AppServer.OnReadyStateChange | config/app.js:115 | a registered socket's OPEN state is updated; nothing is sent |
| App.AppServer.OnClose | config/app.js:161-164 | exactly the closing id is removed; other entries stay |
| App.AppServer.OnMessage | config/app.js:130-159 | ping answers pong to the named id; prompt starts a request with defaults openAi and gpt-4; other types answer `error`; a missing uuid or unparsable JSON gets a bare message on the sending socket |
| App.AppServer.Prompt | config/app.js:168-330 | the messages are the base messages plus the knowledge message when facts came back; a failing retrieval sends one ERROR; an unknown or inactive provider gets no call and no chunk; each active provider gets its call and its stream is relayed, with the outer catch's second ERROR after a loop that threw |
| App.AppServer.RelayParts | config/app.js:252-275 | the chunks sent are the loop's chunks as written: the per-item chunks up to and including the first absent Anthropic item, and it reports whether the loop threw |
| App.AppServer.RelayChoices | config/app.js:282-293 | one `message` per choice with defined delta content, in order |
| App.AppServer.OnEvent | config/app.js:282-309 | each event sends its chunks: data its choices, end one EOM, error one ERROR |
| App.AppServer.RelayEvents | config/app.js:278-316 | the chunks sent are the whole Azure stream's chunks |
| Wss.FormatAnthropic | config/wss.js:179-192 | the accumulating loop builds exactly the flattened prompt |
| Wss.WebSocketServer.constructor | config/wss.js:33-35 | a new server has its own empty registry and has sent nothing |
| Wss.WebSocketServer.SendToClient | config/wss.js:37-44 | one frame is delivered iff the id is registered in this server and open |
| Wss.WebSocketServer.OnConnection | config/wss.js:196-200 | the fresh id is registered open and told its id |
| Wss.WebSocketServer.OnReadyStateChange | config/wss.js:39 | a registered socket's OPEN state is updated; nothing is sent |
| Wss.WebSocketServer.OnClose | config/wss.js:244-246 | exactly the closing id is removed |
| Wss.WebSocketServer.OnMessage | config/wss.js:203-242 | ping answers pong; prompt builds a config with defaults openAi and gpt-4; other types answer `error`; a missing uuid or unparsable JSON gets a bare message |
| Wss.WebSocketServer.HandlePrompt | config/wss.js:47-105 | the messages are the non-empty history or the system/user pair; an unknown or inactive provider gets one "not supported" ERROR and no call; each active provider gets its call and its stream is relayed; a throwing call gives one ERROR |
| Wss.WebSocketServer.HandlePromptResponse | config/wss.js:132-156 | the chunks sent are exactly the per-part chunks of the stream |
| Wss.WebSocketServer.OnData | config/wss.js:159-165 | one `message` per choice with defined delta content, in order |
| Wss.WebSocketServer.OnEvent | config/wss.js:158-176 | each event sends its chunks |
| Wss.WebSocketServer.HandleAzureStream | config/wss.js:158-176 | the chunks sent are the whole Azure stream's chunks |
| Facts.EscapeChar | controllers/facts.js:238 | a character is written as itself iff it is not a quote, a backslash or a control character; otherwise as an escape starting with a backslash |
| Facts.EncodeLineNoNewline | controllers/facts.js:238 | a serialised line never contains a raw newline |
| Facts.SplitJoin | controllers/facts.js:242 | joining newline-free lines with `'\n'` and splitting again gives back the lines |
| Facts.TrainingMessages | controllers/facts.js:230-237 | the messages are user(question) then assistant(fact), with system(prompt) first only when a system prompt is given |
| Facts.BuildMessages | controllers/facts.js:230-237 | the line object, with the `unshift`, holds exactly the training messages |
| Facts.FactLines | controllers/facts.js:229-239 | one line per question of a fact, in question order |
| Facts.PushFactLines | controllers/facts.js:229-239 | the inner loop appends exactly the fact's lines to those already pushed |
| Facts.FormatFactsToJsonl | controllers/facts.js:225-243 | the result is the training lines of all facts, fact-major, joined with `'\n'` |
| Facts.JsonlLinesCount | controllers/facts.js:228-240 | there is one line per (fact, question) pair |
| Facts.JsonlLineAt | controllers/facts.js:228-240 | question j of fact i sits at position (questions of earlier facts) + j |
| Facts.NoQuestionsNoOutput | controllers/facts.js:226-242 | no facts, or facts without questions, give the empty string |
| Facts.JsonlSplitsIntoLines | controllers/facts.js:225-243 | splitting the output at newlines gives back exactly the lines |
| Facts.EscapeVerbatim | controllers/facts.js:238 | text without quotes, backslashes or control characters is serialised verbatim |
| Facts.EncodeLineLayout | controllers/facts.js:230-238 | a line is `{"messages":[...]}` with the messages' objects in order |
| Facts.UuidArray | controllers/facts.js:195 | an array argument is used as is; anything else becomes a one-element array |
| Facts.FindFactsQuerySelects | controllers/facts.js:197-213 | the query selects exactly active facts of the listed profiles, and for a signed-in user only those the user owns, edits or views |
| Facts.SignedInSeesLess | controllers/facts.js:198-213 | a signed-in user never sees a fact an anonymous caller would not |
| Facts.FindFacts | controllers/facts.js:192-221 | the result is exactly the stored facts the `findFacts` query selects, or `[]` when the query threw |
| Facts.TextSearchQuery | controllers/facts.js:108-113 | the profile filter is added iff the argument is a non-empty array |
| Facts.SearchFacts | controllers/facts.js:86-102 | 400 without a search string; 500 when the search throws; else 200 with the results |
| Facts.FactsByProfilesAsWritten | controllers/facts.js:168-188 | as written: 400 without uuids, otherwise always 404 |
| Facts.FactsByProfilesNeverServes | controllers/facts.js:177-178 | as written, the handler never answers 200 |
| Facts.FactsByProfiles | controllers/facts.js:168-188 | with the lookup awaited: 400 without uuids, 404 for no facts, else 200 with the JSONL of the facts |
| Facts.FactsByProfilesServesLines | controllers/facts.js:177-180 | with the lookup awaited, the JSONL served splits into one line per question |
| Rosters.FindPersona | controllers/rosters.js:179 | `find` returns a persona with the uuid if there is one, and none iff no persona has it |
| Rosters.SortPersonas | controllers/rosters.js:178-180 | never more personas than uuids, each one of the roster's personas |
| Rosters.SortFollowsUuidOrder | controllers/rosters.js:178-180 | the re-ordered personas follow `personaUuids` order, dropping ids without a persona |
| Rosters.SortMembers | controllers/rosters.js:178-180 | every re-ordered persona is one of the roster's personas with a listed uuid, and there are no more than the listed ids |
| Rosters.SortKeepsMatched | controllers/rosters.js:178-180 | every listed uuid that has a persona keeps one in the result |
| Rosters.GetFromUuid | controllers/rosters.js:134-191 | 400 when the read throws; 404 when no roster matches; 400 when its `personaUuids` is missing (the `map` throws); else 201 with the re-ordered personas and the other fields unchanged |
| Rosters.CombineRosters | controllers/rosters.js:195-197 | the rosters are the body's array then the query's, each non-array counting as empty |
| Rosters.Stamp | controllers/rosters.js:200-208 | every item gets `active = true`; with a token, owners and editors are [user], createdBy is user, viewers is [token.viewers] or []; no other field changes |
| Rosters.StampIdempotent | controllers/rosters.js:200-208 | stamping twice with the same token equals stamping once |
| Rosters.StampRosters | controllers/rosters.js:200-208 | the `forEach` stamps every item of the array in place |
| Rosters.SetDocument | controllers/rosters.js:230 | the `$set` document is the roster without `_id` |
| Rosters.UpdateOps | controllers/rosters.js:229-241 | each roster gives one update by its `_id` whose `$set` never holds `_id`, restricted to rosters the token's user owns or edits; without a token a non-empty list throws |
| Rosters.SurvivingSpec | controllers/rosters.js:247 | the reply keeps exactly the non-null results: every non-null result sits at the position given by the non-null results before it, so their order is kept |
| Rosters.SurvivingAppend | controllers/rosters.js:247 | filtering distributes over concatenation |
| Rosters.AddLinkCheck | controllers/rosters.js:262-268 | a missing username gives 400; a missing uuid or link or a link type other than editorLink/viewerLink gives 400 |
| Rosters.AddLinkUpdate | controllers/rosters.js:270-274 | the update sets exactly the one link field, on the roster the user edits or owns |
| Rosters.AddLink | controllers/rosters.js:257-289 | the update `{[linkType]: rosterLink}` on the roster with that uuid the user edits or owns is issued iff the checks pass; a failed check decides the reply; otherwise 403 iff `nModified` is 0, 500 if the write threw, else 200 |
| Rosters.AddLinkWithoutCount | controllers/rosters.js:278 | a write result without `nModified` is accepted with 200 |
| Rosters.LinkDetails | controllers/rosters.js:293-318 | 400 when the read throws; 404 without a roster; else 200 with the link view of the selected fields (`_id`, name, description) and the link picked from body, then query |
| Rosters.AcceptLink | controllers/rosters.js:321-356 | a missing username gives 400; a read that throws gives 400; no roster gives 404; an update that throws gives 400; else 200 with the grant the link gives |
| Documents.TokenUser | controllers/rosters.js:259 | the user is the token's username when the token has a non-empty one |
| Documents.Pick | controllers/rosters.js:296 | (also line 324) a non-empty body value wins, then a non-empty query value, then the fallback; with an empty fallback the result is empty iff neither is given |
| Documents.LinkView | controllers/rosters.js:300-305 | the view drops both link fields, adds `isEditor` / `isViewer` by equality with the link and keeps every other field |
| Documents.AcceptGrant | controllers/rosters.js:339-343 | the editor link grants editing; otherwise the viewer link grants viewing; otherwise nothing |
| Documents.GrantMatchesView | controllers/rosters.js:300-343 | the grant agrees with the view: editing iff `isEditor`, viewing iff `isViewer` and not `isEditor` |
| Documents.EditorPrecedence | controllers/rosters.js:339-341 | a link equal to both link fields grants editing although the view flags both |
| Accounts.CheckEmailCorrect | controllers/accounts.js:65 | the scan CheckEmail decides exactly the pattern `^[^\s@]+@[^\s@]+\.[^\s@]+$` |
| Accounts.LowerKeepsVerdict | controllers/accounts.js:66 | lowering the address never changes whether it matches |
| Accounts.ValidateEmail | controllers/accounts.js:63-67 | false for a missing or empty address; otherwise true iff the pattern matches |
| Accounts.EmailAccepted | controllers/accounts.js:63-67 | `A.n@Ex.org` is accepted |
| Accounts.EmailNeedsDot | controllers/accounts.js:65 | an address whose domain part has no dot is refused |
| Accounts.JoinMailingList | controllers/accounts.js:40-61 | 400 iff the address is missing or invalid; otherwise 200 iff the save succeeded, else 500 |
| Accounts.FirstOf | controllers/accounts.js:72-90 | a non-empty body value wins over the query, the query over the route parameter; none of them gives null |
| Accounts.NewAccountRecord | controllers/accounts.js:78-94 | a new account has roles ["user"], status active, and preferredLng the given one or "en" |
| Accounts.CreateNewAccount | controllers/accounts.js:70-146 | checks run in order: no username gives noUsername; a uniqueness lookup that throws leaves the request without a reply; a taken name gives userExists, a bad password passwordsDontMatch; 200 iff all pass and the save succeeds, with the new record; never passed to `next` |
| Accounts.MergeOwnUpdate | controllers/accounts.js:251-255 | the loop copies every submitted key except username onto the account and changes nothing else |
| Accounts.SameUser | controllers/accounts.js:236-239 | the body's username matches iff it is a string equal to the token's, or both are missing |
| Accounts.AccountOwnUpdate | controllers/accounts.js:234-268 | 403 when the body's username differs from the token's; a lookup or save that throws goes to `next`; 404 without an active account; 500 when the save resolves to nothing; else the merged account (username unchanged) with 200 |
| Accounts.UsernameList | controllers/accounts.js:491-492 | a missing list is empty; a non-array is wrapped in one |
| Accounts.DeletedZero | controllers/accounts.js:495-502 | when no delete threw, no deletion is counted iff every delete reported 0, and never more than one per name |
| Accounts.DeleteAccounts | controllers/accounts.js:489-516 | a delete that throws sends the request to `next` with no counts; otherwise `deleted + errors` equals the number of names, 404 iff nothing was deleted, else 200 with both counts |
| Accounts.Imported | controllers/accounts.js:370-377 | an imported document loses `_id`, gets the fresh uuid, is owned and created by the uploader, unpublished, active and created now; other fields are kept |
| Accounts.DocOutcome | controllers/accounts.js:368-383 | each document is rewritten, then inserted iff the create accepts it, else rejected with the rewritten document |
| Accounts.DocOutcomes | controllers/accounts.js:367-384 | one outcome per document, in file order |
| Accounts.ImportDocuments | controllers/accounts.js:367-384 | the document loop produces exactly those outcomes |
| Accounts.ImportCollection | controllers/accounts.js:359-387 | a present file gives its documents' outcomes; a missing one gives one rejection |
| Accounts.ImportCollections | controllers/accounts.js:358-388 | the collection loop produces the outcomes of every expected collection in order |
| Accounts.UploadArchive | controllers/accounts.js:332-409 | 400 without a file; else 200 with the outcomes of the thirteen collections and the number of rejections among them |
| Accounts.CountRejectionsZero | controllers/accounts.js:382-386 | there are no rejections iff no outcome is a failed create or a missing file |
| Accounts.CompleteUploadHasNoRejections | controllers/accounts.js:358-388 | an archive holding every file whose creates all succeed gives no rejections |
| Accounts.MissingFileReported | controllers/accounts.js:385-387 | a collection is reported missing iff it is expected and its file is absent |
| Accounts.ImportsAreOwned | controllers/accounts.js:369-377 | every imported document, inserted or rejected, is the uploader's and belongs to an expected collection |
| Accounts.EveryDocumentAccountedFor | controllers/accounts.js:358-388 | there is one outcome per document of each present file and one per missing file |
| ShareLinks.LookupSchema | controllers/shareLinks.js:17-31 | a name reaches a collection iff it is a key of `schemas`; inherited object names pass the guard but are no model |
| ShareLinks.SchemaNames | controllers/shareLinks.js:17-31 | `segment` is accepted, `segments`, `Persona` and the empty name are not |
| ShareLinks.AfterWrite | controllers/shareLinks.js:65-67 | a write reporting 0 modified documents is refused; a throwing one is an internal error |
| ShareLinks.AddLink | controllers/shareLinks.js:33-77 | no user or unknown schema gives "Invalid request"; a token without roles or an inherited schema name goes to the error middleware; another link type gives "Invalid linkType"; otherwise the one link field is set on the document the user edits or owns |
| Documents.Project | controllers/shareLinks.js:91 | `select` keeps exactly the listed fields present in the document |
| ShareLinks.LinkDetails | controllers/shareLinks.js:79-110 | unknown schema gives "Invalid schema"; an inherited schema name or a lookup that throws goes to the error middleware; no match gives "Document not found"; else the link view of the selected fields |
| ShareLinks.DetailsHideLinks | controllers/shareLinks.js:90-98 | the details show id, name, description, url and the two flags, never the links |
| ShareLinks.GrantUpdate | controllers/shareLinks.js:129-134 | the grant becomes `$addToSet` on editors, on viewers, or an empty update |
| ShareLinks.AcceptLink | controllers/shareLinks.js:112-146 | no user or unknown schema gives "Invalid request"; an inherited schema name or a lookup that throws goes to the error middleware with no write; no match gives "Document not found"; else the grant is applied to the found document by id, and a throwing update goes to the error middleware |
| ShareLinks.RemoveLink | controllers/shareLinks.js:148-184 | no user or unknown schema gives "Invalid request"; another link type gives "Invalid linkType"; an inherited schema name goes to the error middleware; else the user is pulled from editors or viewers and 0 modified is refused |
| ShareLinks.Without | controllers/shareLinks.js:162-164 | `$pull` removes every copy of the value and keeps every other member |
| ShareLinks.Apply | controllers/shareLinks.js:63-170 | setting a link changes only that field; no update changes any other field |
| ShareLinks.AddThenAccept | controllers/shareLinks.js:47-134 | after addLink's update, accepting the link grants the role the link type names, except that a viewer link equal to the editor link grants editing |
| ShareLinks.AcceptIdempotent | controllers/shareLinks.js:131-133 | accepting twice adds the user once |
| ShareLinks.AcceptThenRemove | controllers/shareLinks.js:131-164 | after accept and remove the user is no longer in the role and every other member stays |

## Left out

- JSON parsing and serialisation, WebSocket transport, provider SDKs, `Readable.from` and event scheduling: parse failure is an input flag, and the stream is a given list of parts or events.
- Interleaving of concurrent sessions and of the async calls: every handler runs to completion before the next.
- `parseFloat` and floating point: temperatures and fact scores are `real`.
- The database: what `find`, `aggregate`, `updateOne`, `insertMany`, `deleteOne` and `save` answer is a parameter; their query semantics are not modelled. Whether a call threw is a parameter too, where the handler reaches it. `ShareLinks.Apply` gives only what an update does to one matched document.
- Password hashing and token creation in `createNewAccount`: the 200 payload is the account record, not the token.
- Zip and file I/O in `accountOwnDataUpload`: the archive is a map from file name to its documents, and `next(err)` paths are not modelled.
- The other functions of controllers/accounts.js (login, own-account read and delete, download, data delete, account lists): not part of this model.
- App.AppServer.Prompt: `messages.push` appends to the caller's history array; the model builds a new sequence and does not capture that aliasing.
- App.AppServer.Prompt: the retrieval call is modelled by its outcome; as written the controller is not imported, so every retrieval fails, which is the `RetrievalFailed` case.
- HandlePrompts.HandlePrompt: the Azure branch with an account holding key and endpoint reads an undefined variable; the model sends the one ERROR of the outer catch.
- Accounts.Lower: only ASCII letters are lowered. Full Unicode case mapping is not modelled; the verdict depends only on whitespace, `@` and `.`.
- Strings are sequences of `char`, one per UTF-16 code unit of the Basic Multilingual Plane; characters outside it (surrogate pairs) are not modelled. This touches every `.length`: the metered lengths of HandlePrompts.MessageLength and HandlePrompts.ContentLength and the 8-character password rule of accounts.js:113.
- Accounts.IsSpace: lengths and characters are UTF-16 code units as `char`; no surrogate handling.
- App.AppServer.RelayEvents: the catch of the Azure `data` handler (app.js:289-292) and the catch around setting up the handlers (app.js:310-315) are not modelled; a stream event is a given value that cannot throw there.
- HandlePrompts.HandleAzureStream, Wss.WebSocketServer.HandleAzureStream: an Azure event without `choices` would throw inside the listener; events are well-formed values in the model.
- Chat.AzureEmits: a `delta.content` of `null` passes the `!== undefined` test and is sent; the model's choice is either defined text or undefined, so a null content is not modelled.
- Accounts.DocOutcome: a failed create records the rewritten document; the error message is not modelled.
- Rosters.CombineRosters: `new Set` removes only identical objects; body and query items are distinct objects, so the model concatenates.
- ShareLinks.Apply: Mongo refuses `$addToSet` and `$pull` on a non-array field; the model leaves the document unchanged there.

## Findings

| source | as written | input that shows it | evidently intended | confidence | as-written member | corrected member |
|---|---|---|---|---|---|---|
| controllers/facts.js:177 | `findFacts` is not awaited, so `facts` is a promise whose `length` is undefined and the test `facts.length > 0` is false | any request with `knowledgeProfileUuids` whose profiles hold active facts: the reply is 404 "No active facts found" | await the lookup and serve the JSONL of the facts found with 200 | not executed | Facts.FactsByProfilesNeverServes | Facts.FactsByProfilesServesLines |
| config/app.js:272 | the per-item catch logs `message`, which `prompt` never declares; the catch throws a ReferenceError, the loop ends and the outer catch sends a second ERROR `{}` | an Anthropic stream `[null, {completion: "x"}]`: the client gets ERROR, ERROR and the text "x" is dropped | one ERROR for the absent item, then carry on with the next items, as the same loop in handlePrompts.js and wss.js does | not executed | App.AbsentItemEndsRelay | App.IntendedAnthropicCounts |
