# Loomii chat service — a Dafny model of its deterministic core

The service answers questions about a fixed competitor-intelligence
dataset. The model covers the parts that do not depend on the two external
services it talks to: an embedding index and a language model.

- **The dataset** (`orion_data.dfy`). It holds ten insights about Digital
  Guardian, Zscaler and Forcepoint, with 29 proposed actions. Each action
  has a value and an effort score.
- **The vector store** (`vector_store.dfy`):
  - One document per insight, then one per action. An action document
    carries its value-to-effort ratio and its quick-win category.
  - The lazily built module-level index.
  - The retrieval strategies. Each one filters the index's candidates,
    sorts them stably in descending order and cuts the list:
    - quick wins
    - high-value actions
    - value-to-effort ratio
    - by company
    - by impact
  - The index is an oracle. A `Store` answers a query with at most `n`
    documents from the corpus it was built from, or it fails.
- **The agent** (`agent_service.dfy`):
  - The first-match keyword classifier for questions.
  - The formatter that turns results into prompt text.
  - The system prompt.
  - Direct search with its defaults.
  - The streamed agent turn, with its effects on the history.
- **The conversation store** the agent uses (`conversation_history.dfy`).
  It is a class holding the map of histories and its key order.
- **The plain chat service** (`chat_service.dfy`). It keeps its own
  separate map of histories. This class and the agent's store share no
  state, so `/chat` and `/agent` conversations never see each other's
  entries.
- **The card types and the metadata reader** (`cards.dfy`). The reader
  takes the first `__METADATA__ … __END_METADATA__` region out of a
  streamed chunk.
- **Shared pieces:**
  - `messages.dfy`: messages, stream events, and the relay loop both
    services run over the model's chunks.
  - `strings.dfy`: ASCII lower-casing, substring search, join, integer
    printing and JavaScript `trim`.
  - `sequences.dfy`: filter, stable descending sort, top-k.
  - `wrappers.dfy`: `Option` and `Result`.

The language model is a function parameter `llm` from the conversation it
is sent to an `LlmReply`. The reply is either all its chunks, or the chunks
that arrived before it failed. A streamed turn is modelled as the list of
stream events it produces: data chunks, then an end or an error.

The agent records the user message twice on a completed turn. It pushes
the message onto the live history before retrieval
(`agentService.ts:251`). It then pushes it again, with the answer, after
streaming (`agentService.ts:347-349`). The model keeps this behaviour
(`AgentService.UserMessageRecordedTwice`). The model also keeps a second
quirk: the context sent to the model holds the user message twice, once at
the end of the history and once after it (`agentService.ts:317`).

## Model

| member | source | states |
|---|---|---|
| OrionData.ImpactName | src/services/orionData.ts:1 | an impact level is written as "high", "medium" or "low" |
| OrionData.CorpusCompanies | src/services/orionData.ts:26-390 | the dataset holds ten insights: three about Digital Guardian, then three about Zscaler, then four about Forcepoint |
| OrionData.CorpusImpacts | src/services/orionData.ts:26-390 | the impact of each of the ten insights, in dataset order |
| OrionData.CorpusActionCounts | src/services/orionData.ts:26-390 | the Zscaler insight "Expanding Leadership in Key Areas" has two actions and every other insight has three |
| OrionData.CorpusScores | src/services/orionData.ts:26-390 | there are 29 actions, and their (value, effort) scores in dataset order are the score table |
| OrionData.CorpusScoresInRange | src/services/orionData.ts:34-381 | every action's value and effort lie between 1 and 10, so no ratio divides by zero |
| OrionData.CorpusQuickWinScores | src/services/orionData.ts:26-390 | exactly six actions have value at least 6 and effort at most 4: (6,3), (7,4), (7,3), (6,4), (6,4), (6,4) |
| VectorStore.Categorize | src/services/vectorStore.ts:50-60 | the first matching rule of the ladder decides; each category is the exact region of scores that the earlier rules leave to it |
| VectorStore.CategoryExamples | src/services/vectorStore.ts:51-60 | (8,2) is a high-value quick win and (6,4) is standard; the dataset's (5,2) action is low-effort and its (6,3) action is a quick win |
| VectorStore.ActionLines | src/services/vectorStore.ts:20-27 | one numbered line per proposed action, numbered from 1, in action order |
| VectorStore.InsightText | src/services/vectorStore.ts:14-29 | the trimmed insight text starts with the labelled company, homepage, title, summary, impact and action lines |
| VectorStore.InsightDocument | src/services/vectorStore.ts:13-43 | an insight document has type "insight" and carries the insight's company, title, impact, actions and links |
| VectorStore.RatioOf | src/services/vectorStore.ts:48 | the ratio times the effort is the value |
| VectorStore.ActionDocument | src/services/vectorStore.ts:46-95 | an action document has type "action" and carries the action's content, value and effort, ratio value/effort, the ladder's category, its index within the insight, and the insight's company, title, impact and links |
| VectorStore.ActionDocsOf | src/services/vectorStore.ts:46-47 | one action document per action of the insight, in action order, each holding its own index |
| VectorStore.InsightDocs | src/services/vectorStore.ts:113-115 | one insight document per insight, in data order |
| VectorStore.ActionDocsLength | src/services/vectorStore.ts:116-118 | the flat map yields exactly as many action documents as the dataset has actions |
| VectorStore.CorpusLayout | src/services/vectorStore.ts:113-121 | the corpus has #insights + #actions documents: all insight documents in data order, then only action documents |
| VectorStore.CorpusActionAt | src/services/vectorStore.ts:113-121 | the document of action j of insight i sits after the insight documents and the actions of the insights before i, at offset j |
| VectorStore.CorpusQuickWinDocs | src/services/vectorStore.ts:113-121 | the corpus documents with value at least 6 and effort at most 4 are exactly the qualifying actions' documents, in order; no insight document qualifies |
| VectorStore.DatasetQuickWins | src/services/vectorStore.ts:140-171 | over the real dataset, the quick-win filter with its defaults keeps six documents, scored (6,3), (7,4), (7,3), (6,4), (6,4), (6,4) |
| VectorStore.QuickWins | src/services/vectorStore.ts:161-171 | only candidate action documents with value ≥ minValue and effort ≤ maxEffort; descending ratio; equal ratios in candidate order; length min(k, #qualifying); an element kept fewer times than it qualifies ranks no higher than anything kept |
| VectorStore.HighValueActions | src/services/vectorStore.ts:202-209 | only candidate action documents with value ≥ minValue; descending value; stable; length min(k, #qualifying); an element kept fewer times than it qualifies ranks no higher than anything kept |
| VectorStore.ActionsByRatio | src/services/vectorStore.ts:240-249 | only candidate action documents with ratio ≥ minRatio; descending ratio; stable; length min(k, #qualifying); an element kept fewer times than it qualifies ranks no higher than anything kept |
| VectorStore.ByCompany | src/services/vectorStore.ts:331-333 | exactly the candidates of either kind whose company equals the name up to case, each as often as it occurs, in candidate order, uncut |
| VectorStore.ByImpact | src/services/vectorStore.ts:364-366 | exactly the candidates of either kind whose impact is the given level, in candidate order, uncut |
| VectorStore.ByCompanyIgnoresCase | src/services/vectorStore.ts:331-333 | company names that differ only in case select the same documents |
| VectorStore.ByImpactUnknownLevel | src/services/vectorStore.ts:361-366 | an impact other than high, medium or low selects nothing |
| VectorStore.VectorStoreService.constructor | src/services/vectorStore.ts:10 | the store starts unset, over the corpus built from the dataset |
| VectorStore.VectorStoreService.InitializeVectorStore | src/services/vectorStore.ts:98-137 | once set, the store is returned unchanged and nothing is rebuilt; otherwise the build result is returned and, on success, kept; a built store answers from the corpus |
| VectorStore.VectorStoreService.Ready | src/services/vectorStore.ts:145-147 | a strategy uses the current store, or initialises one when none is set |
| VectorStore.VectorStoreService.GetQuickWins | src/services/vectorStore.ts:140-180 | the quick wins among the index's 20 candidates for the fixed query; failures of the build or the search are passed on; at most k corpus documents |
| VectorStore.VectorStoreService.GetHighValueActions | src/services/vectorStore.ts:184-218 | the high-value actions among 20 candidates; at most k corpus documents |
| VectorStore.VectorStoreService.GetActionsByValueEffortRatio | src/services/vectorStore.ts:222-258 | the ratio strategy over 30 candidates; at most k corpus documents |
| VectorStore.VectorStoreService.PerformSimilaritySearch | src/services/vectorStore.ts:262-283 | the index's answer for (query, k), passed through |
| VectorStore.VectorStoreService.PerformSimilaritySearchWithScore | src/services/vectorStore.ts:287-308 | the index's scored answer for (query, k), passed through |
| VectorStore.VectorStoreService.GetInsightsByCompany | src/services/vectorStore.ts:312-345 | the company filter over 20 candidates for "company: " + name |
| VectorStore.VectorStoreService.GetInsightsByImpact | src/services/vectorStore.ts:349-373 | the impact filter over 20 candidates for "impact: " + level |
| Cards.Kind | src/types/cards.ts:53-58 | a card is one of five kinds |
| Cards.CardType | src/types/cards.ts:8-51 | a card's tag is one of the five tags, and it is "assistance-suggestions" exactly for the suggestions card |
| Cards.KindOfTag | src/types/cards.ts:8-51 | a tag names the kind at its position in the tag list, or no kind when it is not a card tag |
| Cards.TagNamesKind | src/types/cards.ts:8-58 | a card's tag gives back its kind, and two cards have the same tag exactly when they are of the same kind |
| Cards.MarkedRegionIsMatch | src/types/cards.ts:69 | the region found is the leftmost open marker followed by the nearest close marker after it; there is none exactly when no close marker follows any open marker |
| Cards.ParseStreamMetadata | src/types/cards.ts:66-83 | with metadata, the content is the chunk minus the whole marked region and the metadata is the parsed payload; without, the content is the chunk |
| Cards.NoMarkerPassesThrough | src/types/cards.ts:69-82 | a chunk lacking either marker comes back unchanged, without metadata |
| Cards.InvalidPayloadPassesThrough | src/types/cards.ts:76-79 | a payload that does not parse leaves the chunk unchanged, without metadata |
| Cards.RoundTrip | src/types/cards.ts:69-75 | prefix + open + payload + close + suffix reads back as content prefix + suffix and metadata parse(payload) |
| Cards.OnlyFirstRegionRemoved | src/types/cards.ts:74 | a second marked region after the first stays in the content |
| Cards.PrefixEndingInHalfMarker | src/types/cards.ts:69 | the round trip needs more than "no open marker in the prefix": the prefix "__METADATA" starts a match inside itself |
| ConversationHistory.OtherHistoriesUnchanged | src/services/conversationHistory.ts:22-27 | setting one id's history leaves what every other id reads unchanged |
| ConversationHistory.RemoveCount | src/services/conversationHistory.ts:37-51 | deleting an id lowers the count by one exactly when it was present |
| ConversationHistory.ConversationStore.constructor | src/services/conversationHistory.ts:4 | the store starts empty |
| ConversationHistory.ConversationStore.GetOrCreate | src/services/conversationHistory.ts:7-19 | a missing or empty id yields a fresh empty history and changes nothing; an unknown id gets an empty entry, appended to the key order; a known id yields its history and changes nothing |
| ConversationHistory.ConversationStore.Update | src/services/conversationHistory.ts:22-27 | the id now holds the history, every other entry is unchanged, and a new id goes last in the key order |
| ConversationHistory.ConversationStore.Append | src/services/agentService.ts:250-251 | a push onto a stored history is seen through the map, and nothing else changes |
| ConversationHistory.ConversationStore.GetConversationHistory | src/services/conversationHistory.ts:30-34 | the stored history, or empty for an unknown id, without adding a key |
| ConversationHistory.ConversationStore.Clear | src/services/conversationHistory.ts:37-41 | only that id is removed, from the map and from the key order; the count drops by one exactly when it was present |
| ConversationHistory.ConversationStore.GetAllConversationIds | src/services/conversationHistory.ts:44-46 | each current key exactly once, in insertion order |
| ConversationHistory.ConversationStore.GetConversationCount | src/services/conversationHistory.ts:49-51 | the number of keys, which is the length of the key list |
| Messages.Relay | src/services/chatService.ts:58-67 | every non-empty chunk is sent on, once and in order, and the full response is their concatenation, which is the concatenation of all chunks |
| Messages.ConcatSkipsEmpty | src/services/chatService.ts:63-64 | dropping empty chunks does not change the joined text |
| Messages.EventsOf | src/services/chatService.ts:61-82 | a stream is one data event per non-empty chunk, in order, then the end on success or the error on failure |
| Messages.EventsCarryReply | src/services/chatService.ts:61-67 | the data events carry exactly the non-empty chunks, so together the whole reply |
| ChatService.HistoryAfterReply | src/services/chatService.ts:48-76 | the history grows by the user message and, when the reply completes, an AI message with the whole reply |
| ChatService.ChatHistories.constructor | src/services/chatService.ts:7 | the chat service's own map starts empty |
| ChatService.ChatHistories.GetOrCreateHistory | src/services/chatService.ts:20-30 | without an id, a fresh empty history that is not stored; an unknown id gets an empty entry; a known id yields its history |
| ChatService.ChatHistories.StreamChatCompletion | src/services/chatService.ts:34-86 | the model answers the history plus the user message; the stream is its events; a stored conversation ends with the user message then the answer, or only the user message on failure; without an id nothing is stored |
| ChatService.ChatHistories.SetIfStored | src/services/chatService.ts:74-76 | the history is stored only under a non-empty id |
| ChatService.ChatHistories.GetConversationHistory | src/services/chatService.ts:89-93 | the stored history or empty, adding nothing |
| ChatService.ChatHistories.ClearConversationHistory | src/services/chatService.ts:96-100 | that id is deleted and every other id reads as before |
| AgentService.FirstContained | src/services/agentService.ts:149-154 | the first company name, in list order, that the question contains, or none when it contains none |
| AgentService.ImpactTerm | src/services/agentService.ts:157-165 | "high" exactly when the question says high impact, "medium" exactly when it says medium impact and not high, "low" exactly when it says low impact and neither other, and none otherwise |
| AgentService.AnalyzeQuery | src/services/agentService.ts:97-168 | never "general"; each strategy is chosen exactly for the lower-cased questions that the earlier rules leave to it; the company term is the first company named; the impact term follows ImpactTerm; a term only for company or impact; k is 5 for the ranking strategies, 3 for similarity, absent otherwise |
| AgentService.AnalyzeIgnoresCase | src/services/agentService.ts:111 | lower-casing the question first changes nothing |
| AgentService.PhraseInAnyCase | src/services/agentService.ts:111 | a phrase written in any case is found in the lower-cased question |
| AgentService.QuickWinPhraseDecides | src/services/agentService.ts:114-123 | a question containing "quick win", in any case, gets quick wins with k 5, whatever else it names |
| AgentService.RoiInsideWord | src/services/agentService.ts:137-146 | phrases match as substrings: "android" contains "roi", so without a stronger phrase the question gets the ratio strategy |
| AgentService.SourceLinks | src/services/agentService.ts:46-54 | every link appears as "[Source i](link)", numbered from 1 |
| AgentService.Heading | src/services/agentService.ts:44 | the action layout is used exactly for documents of type "action" |
| AgentService.ResultBlock | src/services/agentService.ts:41-89 | a block starts on a new line and holds its numbered header and every source line of its document |
| AgentService.FormatSearchResults | src/services/agentService.ts:35-94 | the fixed sentence exactly when there are no results; otherwise every result's block, numbered from 1 |
| AgentService.FormattedResultsCiteSources | src/services/agentService.ts:35-94 | every result's header and every one of its sources reach the formatted text |
| AgentService.RoleLinesDistinct | src/services/agentService.ts:176-215 | each ranking strategy has its own role text, and every other strategy shares the default one |
| AgentService.CreateSystemPrompt | src/services/agentService.ts:172-240 | the prompt holds the strategy's role text and the formatted results verbatim |
| AgentService.PromptCitesSources | src/services/agentService.ts:303-313 | whatever the strategy, the prompt lists every source of every result |
| AgentService.KOr | src/services/agentService.ts:272-299 | `k || fallback`: a missing or zero k takes the fallback |
| AgentService.Retrieved | src/services/agentService.ts:268-301 | the ranking strategies return at most k action documents that pass their default thresholds (6 and 4, 7, 1.5), best first; the filters return only that company's or level's documents; otherwise a similarity search on the question with k or 3 |
| AgentService.QuickWinQuestionRetrieval | src/services/agentService.ts:114-123 | a question saying "quick win" retrieves at most five quick wins, each an action of value at least 6 and effort at most 4, best ratio first |
| AgentService.Found | src/services/agentService.ts:410-458 | scores come exactly from a similarity search that asks for them, one per result; a ranking strategy returns at most k (default 3) action documents, best first, passing the given thresholds or the defaults 6 and 4, 6, 1.5; a company or impact search returns only that company's or level's documents; a plain similarity search returns the index's answer for the query and k unchanged |
| AgentService.Ranked | src/services/agentService.ts:426-437 | a ranking strategy returns at most k action documents, in descending ratio or value, each passing that strategy's thresholds |
| AgentService.DirectHighValueThreshold | src/services/agentService.ts:414 | a direct high-value search with no minValue keeps only action documents of value at least 6, highest value first |
| AgentService.ValueSixRanking | src/services/vectorStore.ts:202-209 | an action of value 6 is kept by the high-value ranking at threshold 6 and dropped at threshold 7 |
| AgentService.DirectHighValueKeepsSix | src/services/agentService.ts:414 | a direct high-value search with no minValue returns an action of value 6 that the index offers |
| AgentService.AgentHighValueDropsSix | src/services/agentService.ts:275-276 | the agent's high-value retrieval returns nothing for the same index, since it asks for value at least 7 |
| AgentService.Searched | src/services/agentService.ts:385-473 | the response carries the results and scores found, the query, the strategy's name and the ranking thresholds used |
| AgentService.ScoresPairUp | src/services/agentService.ts:446-454 | the i-th result and the i-th score come from the i-th pair the index returned |
| AgentService.AgentContext | src/services/agentService.ts:317 | the model is sent the system prompt, then the history (already ending with the user message), then the user message again |
| AgentService.AgentHistoryAfter | src/services/agentService.ts:347-349 | a completed answer appends the user message and the whole answer; a failed one appends nothing |
| AgentService.UserMessageRecordedTwice | src/services/agentService.ts:251 | a completed turn leaves the user message twice in a row, then the answer |
| AgentService.Agent.Retrieve | src/services/agentService.ts:268-301 | the strategy's retrieval on the built store, as Retrieved describes |
| AgentService.Agent.FindReady | src/services/agentService.ts:422-458 | the direct-search dispatch on the built store, as Found describes |
| AgentService.Agent.SearchOrionData | src/services/agentService.ts:385-473 | the store is built if needed; a failure is passed on; otherwise the response Searched describes |
| AgentService.Agent.PushUserMessage | src/services/agentService.ts:247-251 | the conversation's history, created if new, gets the user message at once, seen through the store |
| AgentService.Agent.Answer | src/services/agentService.ts:315-354 | the stream is the events of the model's reply to the context; a completed reply is stored as AgentHistoryAfter, a failed one stores nothing more |
| AgentService.Agent.StreamAgentResponse | src/services/agentService.ts:243-368 | a build or retrieval failure gives a single error event and leaves only the pushed user message; otherwise the events of the reply to the prompt built from the retrieved results, and the history AgentHistoryAfter gives; "default" is the id when none is given |
| AgentService.Agent.GetAgentConversationHistory | src/services/agentService.ts:371-375 | the stored history, with an empty entry created for a new id whose key goes last in the key order; the empty id changes nothing |
| AgentService.Agent.ClearAgentConversationHistory | src/services/agentService.ts:378-382 | the id keeps its key, now holding an empty history |

## Left out

- The embedding index and its builder are foreign calls. They are the parameters `Store` and `fromDocuments`. The model assumes only that a built index answers with at most `n` documents of its corpus.
- The language model and the stream transport are left out: the model object, `ReadableStream`, `setImmediate` and the 10 ms delay. The model's reply is the parameter `llm`.
- `JSON.parse` is the parameter `parse`. `toFixed(2)` is the parameter `fixed2`. A JavaScript number printed in a template literal is the parameter `numberText`.
- `JSON.stringify` of chunks that are not strings is left out. Chunks are strings.
- Lower-casing is ASCII only. The questions, company names and phrases involved are ASCII.
- Concurrency is left out. Two racing first builds of the store, or interleaved turns on one conversation, are not modelled. The history in the store is a value that each push replaces, not a shared array object.
- Logging is left out, as is the `createLangGraphWorkflow` placeholder (`src/services/chatService.ts:104-116`).
- The routes, the server bootstrap, the test clients and the unused `src/services/data.ts` are not part of this model.
- The "Failed to initialize vector store" guard is not modelled. Run in sequence, the build either sets the store or throws, so the guard never fires.
- The "No source links available" branch is not modelled. Every document carries a links array.
- Creating the model client can fail after the store is built and before retrieval. That failure is not modelled.
- VectorStore.RatioOf: an effort of 0 gives ratio 0 rather than JavaScript's Infinity or NaN. No action of the dataset has effort 0 (`OrionData.CorpusScoresInRange`).
- VectorStore.ActionDocument: the ratio is a real number, not a double, so the value-to-effort ratio is exact.
- VectorStore.VectorStoreService.constructor: it takes the dataset as a parameter. The module-level constant is `OrionData.OrionInsights`.
- VectorStore.QuickWins: k is a natural number. `slice(0, k)` with a negative or fractional k is not modelled. The same holds for HighValueActions, ActionsByRatio and every `k` of AgentService.
- AgentService.SearchOptions: minValue and maxEffort are integers, while the source accepts any JSON number. On integer action values, a fractional minValue filters like its ceiling and a fractional maxEffort like its floor, so the results are captured; the fractional threshold echoed in the response's criteria metadata is not.
- AgentService.RoleLinesDistinct: it tells the role texts apart as lists of lines, not as the joined strings.
- AgentService.CreateSystemPrompt: the fixed text of the prompt is kept as lists of lines joined by newlines. The contract states what the prompt contains, not every character of the fixed text.
- AgentService.Agent.StreamAgentResponse: the stream's events are returned as one list, so the interleaving of events with the history updates is not captured.
- Cards: the card types are plain datatypes. No check is made that a parsed payload is a well-formed `ChatMetadata`, matching the source's unchecked cast.
