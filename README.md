# LLM Council: a Dafny model of its gateway, council pipeline and conversation store

LLM Council answers a user query with a panel of language models:
- an intent analysis;
- a brainstorm across the council models, from which the chairman model forms a six-expert panel;
- sequential expert contributions, each written after reading the ones before it;
- verification, synthesis planning and editorial guidelines;
- a final synthesis by the chairman.

All model calls go through an OpenRouter gateway, which builds a per-model reasoning directive and retries failed HTTP attempts. Conversations are stored as one JSON record per id.

This project models three parts of `backend/`:

- **`openrouter.dfy`** (module `OpenRouter`): the gateway.
  - The thinking switch, the reasoning config and the reasoning payload are pure functions.
  - `query_model` is a reference function `Run` over a sequence of per-attempt HTTP outcomes. Each outcome is a status with a body, a timeout or a transport failure.
  - The imperative loop `RetryLoop`/`QueryModel` mutates the payload and the drop flag, and is proved equal to `Run`.
  - The search-model option map is modelled as well.
- **`council.dfy`** (module `Council`): the pipeline.
  - Every model call goes through an oracle `ask: Call -> QueryResult`. A `Call` records what the prompt is built from: the model, the query, the intent, the prior contributions or the excerpt lines.
  - JSON parsing is an oracle `parse`.
  - Python's `str()` of containers and floats is an oracle `repr`.
  - The panel normalisation, the brainstorm section loop and stage 1 are methods with loops, proved against specification functions.
- **`storage.dfy`** (module `Storage`): the conversation store.
  - The data directory is a `ConversationStore` object holding a map from id to conversation. Every operation is a method that updates that map in place.
  - The messages are the dictionaries the source appends and updates.

Supporting modules:
- `wrappers.dfy`: `Option` and `Result`.
- `json.dfy`: Python/JSON values with ordered dict fields, truthiness, int-ness (a bool counts as an int), `dict.get`, `v[key]` and `str()`.
- `text.dfy`: ASCII lower-casing, substring search, `strip`, `join`, `split('/')[-1]`, and code-point string order.

Python exceptions are values of `PyError` (`TypeError`, `AttributeError`, `KeyError`, `ZeroDivisionError`, `ValueError`) carried in a `Result`. Where the source can raise, the model returns that error instead of requiring it away.

## Model

| member | source | states |
|---|---|---|
| Json.AsInt | backend/openrouter.py:135-137 | `isinstance(v, int)` holds exactly for ints and bools, and an int's value is itself |
| Json.Subscript | backend/council.py:368 | `v[key]` succeeds exactly on a dict holding the key and yields its value; otherwise KeyError on a dict and TypeError on anything else |
| Json.LookupAppend | backend/openrouter.py:130-131 | a lookup in concatenated fields finds the earlier part's entry first |
| Text.Lower | backend/openrouter.py:174-178 | `.lower()` on ASCII: each letter A-Z becomes its lower-case letter, every other character is kept, and the length is kept |
| Text.ContainsAt | backend/openrouter.py:179 | `part in s` holds exactly when `part` occurs at some index of `s` |
| Text.Trim | backend/council.py:627 | `strip(cs)` removes a prefix and a suffix made only of `cs`, and the result neither starts nor ends with one of `cs` |
| Text.TrimIdempotent | backend/council.py:627 | stripping twice is stripping once |
| Text.AfterLastSuffix | backend/council.py:123 | `split('/')[-1]` is a suffix with no `/` in it, the whole string when there is none |
| Text.Join | backend/council.py:131 | joining one part gives that part; joining none gives ""; with `Text.JoinSnoc` these fix every join |
| Text.JoinSnoc | backend/council.py:131 | `sep.join(parts + [last])` is `sep.join(parts) + sep + last` for non-empty parts |
| Text.LexLeTotal | backend/storage.py:105 | any two creation times are ordered one way or the other |
| Text.LexLeTransitive | backend/storage.py:105 | the creation-time order is transitive |
| OpenRouter.CopyConfigKeys | backend/openrouter.py:46-52 | exactly the present keys among effort, max_tokens and exclude are copied, with their values |
| OpenRouter.ThinkingEnabledCases | backend/openrouter.py:26-32 | thinking is off without a map or with an empty one, and off for a model the map lacks; a dict setting is on unless its enabled is False; any other setting is on exactly when truthy |
| OpenRouter.ExtractReasoningConfig | backend/openrouter.py:35-54 | a config exists only when thinking is enabled; True gives `{}`; a dict gives None exactly when enabled is False, and otherwise its copied keys; an int, float, string or list setting gives None |
| OpenRouter.ReasoningFields | backend/openrouter.py:62-91 | the reasoning map is non-empty and never holds both effort and max_tokens; when both are supplied, a max-tokens model keeps max_tokens (the supplied value when it is an int, else THINKING_MAX_TOKENS) and other models keep effort; the defaults are THINKING_MAX_TOKENS, then THINKING_EFFORT, then enabled; exclude is kept only when it is a bool |
| OpenRouter.BuildReasoningPayload | backend/openrouter.py:57-93 | `{}` exactly when thinking is disabled or the model is unsupported; otherwise the only key is "reasoning", and its value is the reasoning map built from the extracted config, or from `{}` when there is none |
| OpenRouter.BasePayload | backend/openrouter.py:125-131 | the payload holds model and messages plus every extra_body entry, with extra_body winning; unless extra_body overrides them, "model" is the model and "messages" the messages |
| OpenRouter.Stripped | backend/openrouter.py:181-182 | `pop("reasoning")` removes that key and keeps every other entry |
| OpenRouter.SizeMaxTokens | backend/openrouter.py:132-138 | with an integer reasoning budget: an integer max_tokens above the budget is kept unchanged; otherwise max_tokens becomes budget + 512 and nothing else changes; without a budget the payload is unchanged |
| OpenRouter.Accept | backend/openrouter.py:185-198 | only a 2xx response can finish the call, and it finishes with a real answer or an error record |
| OpenRouter.AcceptCases | backend/openrouter.py:185-198 | a non-2xx status, an undecodable body or a non-dict body raises; a 2xx dict with falsy choices finishes with an error record carrying the data and status; one whose first choice has a message finishes with its content, reasoning_details and annotations; truthy choices without a first message raise |
| OpenRouter.StepFor | backend/openrouter.py:154-206 | a 429 backs off; a 401/403 returns an error record with its status; only an attempt with the flag set drops the directive; a transport failure is an exception |
| OpenRouter.StepForCases | backend/openrouter.py:154-205 | a timeout drops the directive when dropping is allowed and is an exception otherwise; a 400/422 drops it exactly when dropping is allowed and its error text mentions reasoning, and raises otherwise; any other status is handled by `Accept`; nothing else drops |
| OpenRouter.Run | backend/openrouter.py:145-215 | at most 3 attempts are made, and at least one when any remain |
| OpenRouter.RunPayloads | backend/openrouter.py:139-206 | every attempt sends the initial payload or, only when dropping was allowed, that payload without "reasoning" |
| OpenRouter.DropAtMostOnce | backend/openrouter.py:169-206 | the payload changes at most once, only if dropping was allowed, only right after a drop step, and stays stripped after |
| OpenRouter.RunNoDrop | backend/openrouter.py:169-205 | with the flag cleared the payload never changes |
| OpenRouter.RunExplained | backend/openrouter.py:145-215 | each attempt's sleep is what its step demands (base_delay·2^attempt after a 429 or a non-final exception, none otherwise); only the last attempt finishes; a result other than None is that step's; None means every attempt was used |
| OpenRouter.QueryExplained | backend/openrouter.py:113-215 | with a key, every attempt of query_model is accounted for by its outcome |
| OpenRouter.NoKeyNoRequest | backend/openrouter.py:113-115 | without an API key nothing is sent and the result is None |
| OpenRouter.AuthorizationFailureEndsLoop | backend/openrouter.py:145-167 | from any attempt, a 401/403 at a later attempt the run reaches ends it there with an error record carrying its status |
| OpenRouter.AuthorizationFailureEndsRun | backend/openrouter.py:161-167 | a 401/403 ends the loop at that attempt with an error record carrying its status |
| OpenRouter.RateLimitedThroughout | backend/openrouter.py:154-215 | three 429s wait 2, 4 and 8 seconds, then give None |
| OpenRouter.RejectedForReasoningThenAnswered | backend/openrouter.py:169-198 | a 400/422 naming reasoning followed by a 2xx answer sends the payload, then the payload without "reasoning" with no wait, and returns that answer |
| OpenRouter.TimedOutThenAnswered | backend/openrouter.py:200-205 | a timeout followed by a 2xx answer sends the payload, then the payload without "reasoning" with no wait, and returns that answer |
| OpenRouter.FailedThroughout | backend/openrouter.py:200-213 | three transport failures wait 2 and 4 seconds, none after the last, then give None |
| OpenRouter.RetryLoop | backend/openrouter.py:139-215 | the loop that mutates payload and flag returns exactly the reference run |
| OpenRouter.QueryModel | backend/openrouter.py:96-215 | query_model returns exactly the reference trace: None without a key, else max_tokens sizing followed by the retry run |
| OpenRouter.ReasoningPayloadMayBeDropped | backend/openrouter.py:130-139 | a built reasoning payload passed as extra_body makes the directive droppable |
| OpenRouter.SearchModelFor | backend/openrouter.py:227 | `model or SEARCH_MODEL`: a non-empty requested model is used, and None or "" gives the configured one |
| OpenRouter.SearchExtraBody | backend/openrouter.py:229-236 | keys exactly temperature, max_tokens and web_search_options, plus tools and tool_choice when the model is not one of the two tool-less search models; temperature 0, the requested max_tokens, `{"search_context_size": SEARCH_CONTEXT_SIZE}`, `[{"type": "web_search"}]` and "auto" |
| OpenRouter.SearchPayloadShape | backend/openrouter.py:218-243 | temperature 0, the requested max_tokens, no reasoning, and tools and tool_choice exactly for models that accept tools; nothing can be dropped |
| OpenRouter.SearchPayloadFixed | backend/openrouter.py:218-243 | a search query sends the same payload on every attempt |
| OpenRouter.QuerySearchModel | backend/openrouter.py:218-243 | query_search_model is query_model on the chosen model with the search extra body, whose max_tokens is the requested one or 800 by default |
| Council.ContentOr | backend/council.py:58-61 | the placeholder exactly when the call gave no response; otherwise the response's content, which is None for an error record |
| Council.PlaceholderOnlyWithoutResponse | backend/council.py:327-330 | a reply yields its content, an error record None, and only a missing response the placeholder |
| Council.IntentStage | backend/council.py:56-61 | a missing response gives "Analyzing query requirements..."; any other gives the response's content |
| Council.ModelIndex | backend/council.py:281 | `(order-1) % len(COUNCIL_MODELS)` is a valid index in Python's floor modulo for every int or bool order; ZeroDivisionError with no models; TypeError for non-numbers |
| Council.RoundRobin | backend/council.py:281 | orders 1..n pick models 0..n-1; the index is periodic in n and advances by one per order |
| Council.Shorten | backend/council.py:628 | a title longer than 50 becomes its first 47 characters plus "...", so it is never longer than 50; shorter ones are kept |
| Council.ShortenIdempotent | backend/council.py:628 | shortening twice is shortening once |
| Council.ConversationTitle | backend/council.py:617-628 | "New Conversation" on no response; a string reply gives a title of at most 50 characters; any other content raises AttributeError on `.strip` |
| Council.TitleFromReply | backend/council.py:627-628 | the title is the reply stripped of whitespace, then of quotes, then shortened |
| Council.JsonCandidate | backend/council.py:203-205 | a candidate exists exactly when some `{` precedes some `}`, and it is the span from the first `{` to the last `}` |
| Council.DefaultExperts | backend/council.py:187-194 | six readable default experts with orders 1..6 |
| Council.JoinObjectives | backend/council.py:211-212 | empty or falsy objectives give "Add value"; a non-empty list joins only when every item is a string, and gives its items joined by a vertical bar between spaces; a non-empty string joins its characters and a non-empty dict its keys |
| Council.JoinObjectivesSnoc | backend/council.py:211-212 | adding one more string objective appends a spaced vertical bar and that string to the joined text |
| Council.JoinTwoObjectives | backend/council.py:211-212 | two string objectives join as the first, a spaced vertical bar, then the second |
| Council.NormalizeEntry | backend/council.py:210-218 | a normalised expert is a readable panel entry |
| Council.NormalizeEntryFields | backend/council.py:210-218 | normalising succeeds exactly on a dict whose objectives join; name, description and order take role, task and order with the defaults "Expert i+1", "Contribute expertise" and i+1, the order copied verbatim |
| Council.ExpertsSlice | backend/council.py:210 | `experts[:NUM_EXPERTS]`: at most six items, defined on lists and strings |
| Council.PanelOf | backend/council.py:209-221 | the panel has six readable entries: the normalised parsed experts, then `default_experts[len(normalized)]` onwards |
| Council.NormalizeEntries | backend/council.py:209-218 | the normalisation loop succeeds exactly when each entry normalises, and yields the normalised entries in order |
| Council.NormalizeExperts | backend/council.py:209-221 | the loop and the padding loop produce exactly the specified panel, whenever normalisation can succeed |
| Council.PadWithDefaults | backend/council.py:220-221 | the padding loop keeps the normalised entries and fills positions len(normalized)..5 with the defaults at those positions |
| Council.PaddedPanel | backend/council.py:209-221 | the padded list is the specified panel |
| Council.ParsedExperts | backend/council.py:199-208 | no panel data without string content, a JSON span and a parse giving a dict |
| Council.PanelOutcome | backend/council.py:196-231 | a panel comes out exactly when the chairman responded, a dict was parsed from the span and its experts normalise; it is then `PanelOf` of the parsed experts, with the parsed rationale; a panel has six readable entries; otherwise the default panel is kept |
| Council.SuggestionsAreResponders | backend/council.py:119-129 | suggestion j is the suggestion of the j-th responding model, and there is one per responder |
| Council.SuggestionsOnlyFromResponders | backend/council.py:119-129 | the suggestions are exactly the responders' suggestions, one per responding model in model order, and none exactly when no model responded |
| Council.BrainstormResponses | backend/council.py:111-116 | one brainstorm call per council model, in model order |
| Council.Responders | backend/council.py:119-129 | the indices of the models that responded, strictly increasing, each one a responder, and every responder listed |
| Council.SectionPerModel | backend/council.py:119-128 | one display section per model, in model order |
| Council.SectionShape | backend/council.py:122-128 | a section is the `### 🤖` heading with the last path part of the model name, then "*Failed to respond*" for no response or the response's text |
| Council.BrainstormSections | backend/council.py:119-129 | the section loop builds exactly one section per model and the suggestions of the responders |
| Council.BrainstormPanel | backend/council.py:185-231 | the panel always has six readable entries |
| Council.BrainstormDisplay | backend/council.py:131 | the display starts with the brainstorm header |
| Council.BrainstormExperts | backend/council.py:64-231 | the default panel and the plain display on any failure; otherwise the parsed panel and the display with the rationale section |
| Council.ExpertError | backend/council.py:281-345 | a non-dict expert raises AttributeError; an expert that raises nothing is a dict with name and description, whose order (given, or the default i+1) is an int or a bool, and there are council models to pick from |
| Council.PanelEntryErrors | backend/council.py:281 | a readable panel entry fails only through its order's model index |
| Council.ContributionsSucceed | backend/council.py:342-362 | stage 1 succeeds exactly when no expert raises |
| Council.BuiltInOrderStep | backend/council.py:342-360 | appending the next expert's entry, written after reading all before it, keeps the build order |
| Council.ContributionsInOrder | backend/council.py:342-362 | one entry per expert, in order; entry i was written after reading exactly the first i entries, with order `expert.order` or i+1 and the model that order picks |
| Council.ContributionsFirstError | backend/council.py:342-362 | a failed stage 1 failed with the first expert that raises |
| Council.ErrorEndsContributions | backend/council.py:342-362 | an exception at expert i ends stage 1 with it |
| Council.SequentialContributions | backend/council.py:333-362 | the for-loop yields exactly the specified contributions or exception |
| Council.DefaultPanelReadable | backend/council.py:187-194 | each default expert is readable and picks model k mod n |
| Council.DefaultPanelContributes | backend/council.py:342-362 | with models, the default panel yields six contributions of orders 1..6 on models k mod n |
| Council.Excerpt | backend/council.py:368 | `[:limit]` keeps a prefix of min(length, limit) of a string or list and fails on anything else |
| Council.LinesInOrder | backend/council.py:367-370 | the excerpt lines succeed exactly when each contribution's does, one line per contribution, in order |
| Council.LinesFirstError | backend/council.py:367-370 | failed lines failed at the first contribution that raises |
| Council.StageOneLines | backend/council.py:342-370 | for stage 1's contributions the lines fail only on a text that cannot be sliced, with TypeError |
| Council.ReviewPromptsAgree | backend/council.py:367-412 | verification and planning fail together; when they succeed the chairman's lines do too |
| Council.VerificationStage | backend/council.py:365-398 | verification fails exactly when its lines do, gives "Verification unavailable." on no response, and the response's content otherwise |
| Council.VerificationSeesExcerpts | backend/council.py:365-398 | contributions agreeing on order, expert and first 200 characters get the same verification |
| Council.LinesAgree | backend/council.py:367-370 | contributions with the same lines give the same lines or the same exception |
| Council.PlanningStage | backend/council.py:401-461 | planning fails exactly when its lines do, gives "Planning unavailable." on no response, and the response's content otherwise |
| Council.EditorialStage | backend/council.py:464-533 | "Editorial guidelines unavailable." on no response; the response's content otherwise |
| Council.FinalStage | backend/council.py:536-614 | the result names the chairman and gives "Error: Synthesis failed." on no response, and the response's content otherwise |
| Council.CompleteCouncil | backend/council.py:647-690 | no contributions give the collaboration-failed answer with empty stages; a completed run keeps intent, experts and contributions and records the chairman and the number of experts |
| Council.CompleteCouncilFails | backend/council.py:653-690 | after stage 1 the run fails exactly when the excerpt lines do, with their exception |
| Council.CompleteCouncilFlow | backend/council.py:653-690 | in a completed run, verification reads the contributions, planning reads them and the verification, editorial reads the plan, the final synthesis reads all of these, and the metadata records the intent, the three review results and the number of contributions |
| Council.PanelCouncilOutcome | backend/council.py:642-690 | a six-entry readable panel gives six contributions built in order and metadata for six, or a TypeError or ZeroDivisionError |
| Council.PanelStageOneErrors | backend/council.py:342-362 | stage 1 over readable entries raises only TypeError or ZeroDivisionError |
| Council.CouncilOutcome | backend/council.py:631-690 | with the panel passed on, a run gives six contributions and metadata for six, or a TypeError or ZeroDivisionError |
| Council.RunFullCouncil | backend/council.py:631-690 | the stages in turn, with the panel passed to stage 1, give exactly the specified outcome |
| Council.AsWrittenAlwaysRaises | backend/council.py:641-645 | as written, every run raises AttributeError |
| Council.RunFullCouncilAsWritten | backend/council.py:631-645 | the as-written stages give exactly the as-written outcome |
| Storage.OrEmpty | backend/storage.py:152 | `metadata or {}` keeps truthy metadata and replaces falsy metadata by `{}` |
| Storage.UserMessage | backend/storage.py:122-125 | a user message with the content, never awaiting clarification |
| Storage.AssistantMessage | backend/storage.py:145-153 | exists exactly when `stage3["response"]` succeeds; role assistant, that content, stage0 to stage3 stored as given, metadata or `{}`, and no other key; never awaiting |
| Storage.DebateMessage | backend/storage.py:209-220 | fails with stage3's error; when `stage3["response"]` succeeds, falsy or dict metadata gives a message and truthy non-dict metadata AttributeError; the message has role assistant, that content, the experts and stage3 as given, the contributions under both "contributions" and "debate", stage 0 holding the metadata's intent analysis or "", metadata or `{}`, and no other key; never awaiting |
| Storage.IntentDraftMessage | backend/storage.py:239-248 | role assistant, status clarification_pending, found by the default and the pending-only scans; stores `draft_intent` of a dict draft, else the draft, and the display, the questions and metadata or `{}` as given |
| Storage.FinalizedFields | backend/storage.py:317-326 | finalising needs a dict stage3; it sets status complete, content the response or "", stage0 to `{"analysis": intent}`, the experts and stage3 as given, contributions under both keys and metadata or `{}`, and keeps every key it does not overwrite |
| Storage.LatestAwaiting | backend/storage.py:268-272 | the greatest index whose message is an assistant message with one of the statuses, or None exactly when there is none |
| Storage.PendingIndex | backend/storage.py:261-266 | a found index is a message of an existing conversation |
| Storage.LatestBelow | backend/storage.py:268-272 | with nothing awaiting from i on, the scan finds what it finds below i |
| Storage.LatestIgnoresLater | backend/storage.py:268-272 | replacing message i does not change the scan below i |
| Storage.SubmittedFields | backend/storage.py:291-292 | submitting sets status and answers, keeps every other field, and the message then awaits as submitted only |
| Storage.SubmittedStillFound | backend/storage.py:265-294 | once submitted the message is still what the default scan finds, and a pending-only scan passes over it |
| Storage.FinalizedNotFound | backend/storage.py:265-329 | once finalised the default scan no longer finds the message; it finds the latest awaiting one before it |
| Storage.DraftIsFound | backend/storage.py:241-271 | an appended intent draft is what the default scan finds |
| Storage.ClarificationLifecycle | backend/storage.py:243-326 | pending, then submitted, then complete: found while awaiting and not once complete, with the draft's fields and the answers kept |
| Storage.InsertNewest | backend/storage.py:105 | inserting into a newest-first list keeps it newest first, with the same records plus one |
| Storage.SortNewestFirst | backend/storage.py:105 | the sorted listing is a permutation, newest first |
| Storage.Appended | backend/storage.py:122-125 | `messages.append`: one more message at the end, earlier ones and the other fields unchanged |
| Storage.Replaced | backend/storage.py:293 | `messages[idx] = msg`: only message idx changes |
| Storage.ConversationStore.GetConversation | backend/storage.py:48-64 | the stored conversation, or None exactly when the id is absent |
| Storage.ConversationStore.CreateConversation | backend/storage.py:21-45 | stores and returns a record with the id, the time, title "New Conversation" and no messages, replacing any older one |
| Storage.ConversationStore.AddUserMessage | backend/storage.py:110-127 | ValueError and no change for an absent id; otherwise exactly that conversation gets the user message appended |
| Storage.ConversationStore.AddAssistantMessage | backend/storage.py:130-155 | ValueError for an absent id, the message's error next, no change on either; otherwise one message appended |
| Storage.ConversationStore.AddAssistantMessageDebate | backend/storage.py:188-222 | ValueError for an absent id, the message's error next, no change on either; otherwise one message appended |
| Storage.ConversationStore.AddAssistantMessageIntentDraft | backend/storage.py:225-250 | ValueError and no change for an absent id; otherwise the pending intent draft appended |
| Storage.ConversationStore.FindPendingIntentMessage | backend/storage.py:253-272 | the backward loop returns the latest awaiting index and its message, or None for no such message or no such conversation |
| Storage.ConversationStore.MarkPendingIntentSubmitted | backend/storage.py:275-294 | ValueError and no change when nothing awaits; otherwise only the found message changes, to submitted with the answers |
| Storage.ConversationStore.FinalizeIntentMessage | backend/storage.py:297-329 | ValueError when nothing awaits, AttributeError for a non-dict stage3, no change on either; otherwise only the found message changes, to its finalised form |
| Storage.ConversationStore.UpdateConversationTitle | backend/storage.py:158-171 | ValueError and no change for an absent id; otherwise only that title changes |
| Storage.ConversationStore.DeleteConversation | backend/storage.py:174-185 | ValueError and no change for an absent id; otherwise only that conversation is removed |
| Storage.ConversationStore.ListConversations | backend/storage.py:81-107 | one record per stored conversation, with message count and the title defaulting to "New Conversation", newest first |
| Storage.CollectListings | backend/storage.py:90-102 | the directory loop, in any order, yields one record per conversation |
| Storage.CollectOne | backend/storage.py:97-102 | appending one conversation's record extends the records to it |
| Storage.SameRecords | backend/storage.py:105 | sorting keeps exactly the same records |

## Left out

- Networking and timing. The httpx call, headers, request timeouts and `asyncio.sleep` are not modelled. Each attempt's outcome is an input, and each sleep is recorded in the trace as integer seconds; the source's delays are floats of the same value, `2.0 * 2**attempt`.
- Concurrent fan-out. `query_models_parallel`, `query_models_with_personas` and the `asyncio.gather` of the brainstorm are left out. The brainstorm responses are one `ask` result per model, in model order, and an exception returned by `gather` is treated like None.
- Foreign code. JSON decoding (`json.loads`, `response.json()`) is the `parse` oracle or an optional decoded body, and `json.dump` is not modelled. The regex engine is replaced by the greedy span it computes. Python's `str()` of containers and floats is the `repr` oracle.
- Prompt wording. Each model call is the `Call` value its prompt is built from. The prompt text, and whatever the models answer, is not modelled.
- Configuration. `COUNCIL_MODELS`, `CHAIRMAN_MODEL`, the API key's presence, `SEARCH_MODEL`, `SEARCH_CONTEXT_SIZE` and the `THINKING_*`/`REASONING_*` sets are parameters. `backend/config.py` is not part of this model.
- `backend/main.py` and the test scripts are not part of this model.
- The file system. There is no data directory, no file paths and no `.json` suffix filter; an id's presence in the map stands for its file existing. Files are read and written whole, so the map update is the save. `datetime.utcnow()` is a caller-supplied timestamp string.
- Stored key order. Message dicts are maps, so the key order of the JSON written to disk is not modelled. Dicts read by the council pipeline keep their key order.
- Storage.ConversationStore.ListConversations: `os.listdir` order is arbitrary (one conversation is chosen at a time), and the listing is stated as newest first and a permutation of the records; the stability of Python's sort among equal timestamps is not stated. A malformed file without `id`, `created_at` or `messages` is not modelled, because a `Conversation` always has them.
- Storage.ConversationStore.MarkPendingIntentSubmitted, Storage.ConversationStore.FinalizeIntentMessage: the second `get_conversation` check after the scan cannot fail once the scan found a message, so it is not modelled separately.
- Text.Lower: only ASCII letters are lower-cased. Python's `str.lower` is Unicode-aware and can change a string's length. The texts searched for, "reasoning" and "unsupported", are ASCII, but a non-ASCII capital in an error text is kept as is.
- Council.ConversationTitle: only `QueryResult` shapes are modelled, so a reply dict always holds "content".
- Council.FinalStage: the chairman's prompt reads every contribution in full. Its failure cases, an expert without a name among them, are those of `Council.Lines` with no limit.

Where the system's design description and the code disagree, the model follows the code:
- The design has panel orders range-checked and de-duplicated into a permutation of 1..6. The code copies each parsed order verbatim (`backend/council.py:217`). So `(order-1) % len(COUNCIL_MODELS)` raises TypeError for a non-numeric order, and ZeroDivisionError for an empty model list (`Council.ModelIndex`, `Council.CouncilOutcome`).
- The design recovers JSON with a string-aware balanced-brace scan and textual repairs. The code takes the greedy span from the first `{` to the last `}` and parses it once (`Council.JsonCandidate`).
- The design has every stage degrade to a placeholder. In the code, a call that ends in an error record yields content None. The next stage then raises TypeError on `None[:200]`, which `Council.StageOneLines` states.

## Findings

| source | as written | input that shows it | evidently intended | confidence | as-written member | corrected member |
|---|---|---|---|---|---|---|
| backend/council.py:642-645 | `experts = await stage_brainstorm_experts(...)` binds the `(display, experts)` pair, and stage 1 iterates over that pair | any query: the first "expert" is the display string, and `expert.get('order', 1)` raises AttributeError | unpack the pair (`display, experts = ...`) and pass the panel to stage 1 | high, not executed | Council.AsWrittenAlwaysRaises | Council.CouncilOutcome |
