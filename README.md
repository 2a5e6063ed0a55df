# Retrieval-augmented chat pipeline, modelled in Dafny

This project models the support chatbot backend of a smart-wallet banking demo. It has three parts:

- **Knowledge store** (`Knowledge`, `business_knowledge.dfy`). This is the fixed table of four
  knowledge entries, with two read-only queries: by category, and by case-insensitive keyword.
- **Embeddings** (`Embeddings`, `embeddings.dfy`). This part has four pieces:
  - The embedding cache. It is an object holding a map from cache key to `{embedding, timestamp}`.
    The key is the first 100 characters of the text, and a record is reused only while it is
    strictly younger than 24 hours.
  - The cosine-similarity loop, with its length check.
  - The stable sort by decreasing similarity.
  - The ranker. It keeps the top K and then keeps only scores above 0.5. When any step throws, it
    falls back to the first K entries.
- **Chat route** (`ChatRoute`, `chat_route.dfy`). This is the POST handler as a function of its
  inputs. It parses the body, checks that the API key is configured, validates the messages,
  picks the latest user text as the retrieval query, formats the knowledge context, builds the
  system prompt and the provider payload, and maps the provider's outcome or error to an HTTP
  status and JSON body.

`Sequences`, `Strings` and `Wrappers` hold the JavaScript operations the pipeline relies on:
`filter`, `slice(0, end)` with its handling of a negative end, `toLowerCase` and `includes`
on ASCII, `join`, and optional or failed values.

External calls become inputs:

- The embedding provider is a function parameter `embed: string -> Option<Vector>`. `None` means
  the call threw. The cache counts provider calls in the ghost field `providerCalls`.
- The clock is a pair of explicit times in milliseconds. `now` is the reading taken when a record
  is checked. `storedAt` is the reading taken after the provider has answered, and it becomes the
  new record's timestamp.
- The final floating-point step of cosine similarity, `dot / (sqrt(normA) * sqrt(normB))`, is a
  function parameter `quotient`. Similarity scores are reals.
- In the handler, `findRelevantKnowledge` is the parameter `retrieve` (`None`: it threw), and the
  chat completion call is the parameter `complete`. The handler returns an `Exchange`: the
  response, plus the retrieval call and the payload it sent, each `None` when that call was not
  made.

Points where the code behaves differently from what its own comments suggest:

- The route's comment "Continue without context if RAG fails" (app/api/chat/route.ts:70) and the
  ranker's "Fallback to simple text search" (lib/embeddings.ts:131) describe a fallback that does
  not happen. When an embedding or similarity step fails, `findRelevantKnowledge` catches its own
  failure and returns the first `topK` entries unfiltered, with no text search
  (lib/embeddings.ts:132). So the route injects the first three table entries into the prompt.
  `RankerFailureInjectsTableHead` proves that this context is non-empty and holds those entries.
  The route's own catch (app/api/chat/route.ts:68-71) is reached only when `retrieve` itself
  throws, which is the `None` outcome of `retrieve`.
- The ranker slices to `topK` before it filters by the 0.5 threshold (lib/embeddings.ts:124-125).
  `TakeThenFilterCommutes` proves that, on a list sorted by decreasing score, this gives the same
  result as filtering first.
- The body is parsed before the API key is checked (app/api/chat/route.ts:31). So an unreadable
  body is answered through the catch block even when no key is configured.
- A thrown error whose `status` is 200 becomes a 200 response carrying an error body, because
  any non-zero status on the error is passed through. So the handler's contract says that only
  a provider answer yields a `message` body. It does not say that only a provider answer yields
  status 200.

## Model

| member | source | states |
|---|---|---|
| `Knowledge.GetAllKnowledge` | lib/business-knowledge.ts:22-81 | the table has exactly four entries, with ids about-1, features-1, security-1, support-1 and categories Company, Features, Security, Support, in declaration order |
| `Knowledge.IdsAreDistinct` | lib/business-knowledge.ts:22-64 | no two entries of the table share an id |
| `Knowledge.GetKnowledgeByCategory` | lib/business-knowledge.ts:86-88 | an entry is returned iff it is in the table and its category equals the argument; the result is a subsequence of the table, so table order is kept |
| `Knowledge.UnknownCategoryIsEmpty` | lib/business-knowledge.ts:86-88 | a category other than the four used in the table selects nothing |
| `Knowledge.SearchKnowledge` | lib/business-knowledge.ts:93-101 | the result is a subsequence of the table, in table order |
| `Knowledge.MatchesQueryIff` | lib/business-knowledge.ts:95-100 | the scanning test on title, content and tags holds iff the lower-cased query occurs at some position in the lower-cased title, the content, or one of the tags |
| `Knowledge.SearchKnowledgeIff` | lib/business-knowledge.ts:93-101 | an entry is returned iff it is in the table and the lower-cased query occurs in its lower-cased title, content or some tag |
| `Knowledge.EmptySearchReturnsAll` | lib/business-knowledge.ts:93-101 | the empty query returns the whole table, in order |
| `Knowledge.SearchIgnoresCase` | lib/business-knowledge.ts:94 | two queries that lower-case to the same string give the same result |
| `Knowledge.SearchUpperCaseQuery` | lib/business-knowledge.ts:94 | upper-casing the query does not change the result |
| `Knowledge.UntaggedMatchesTitleOrContent` | lib/business-knowledge.ts:99 | an entry without tags can only match through its title or its content |
| `Strings.IncludesIff` | lib/business-knowledge.ts:96-99 | the scanning `includes` holds iff the substring occurs at some index |
| `Strings.JoinContainsEach` | app/api/chat/route.ts:62-66 | every part of a `join` occurs in the joined string |
| `Sequences.Filter` | lib/embeddings.ts:125 | an element is in the result iff it is in the input and satisfies the predicate; the result is no longer than the input |
| `Sequences.FilterIsSubsequence` | lib/embeddings.ts:125 | the result of `filter` is obtained from the input by deleting elements, so input order is kept |
| `Sequences.FilterCounts` | lib/embeddings.ts:125 | `filter` keeps every copy of a satisfying element and no copy of any other: the result's multiset is the input's restricted to the predicate |
| `Sequences.Take` | lib/embeddings.ts:124 | `slice(0, end)` is a prefix of the input whose length follows the slice rules: it is clamped to the length, and a negative end counts back from the length |
| `Embeddings.CacheKey` | lib/embeddings.ts:49 | the key is the prefix of the text of length min(100, length of the text) |
| `Embeddings.SharedPrefixSharesKey` | lib/embeddings.ts:49 | texts that agree on their first 100 characters get the same key |
| `Embeddings.ShortTextsDoNotCollide` | lib/embeddings.ts:49 | distinct texts shorter than 100 characters get distinct keys |
| `Embeddings.LookupHit` | lib/embeddings.ts:52-59 | if the record at the key is strictly younger than 24 hours, the stored vector is returned, the provider is not called and the cache is unchanged |
| `Embeddings.LookupExpiresAtDuration` | lib/embeddings.ts:57 | a record exactly 24 hours old is expired: the provider is called |
| `Embeddings.LookupMiss` | lib/embeddings.ts:62-71 | on a miss or an expired record the provider is called and its answer is returned; on success the key is bound to that vector stamped with the later clock reading; every other key keeps its record; on failure the cache is unchanged |
| `Embeddings.RepeatedLookupHitsCache` | lib/embeddings.ts:48-72 | two lookups of a text with no fresh record (absent or at least 24 hours old), the second strictly within 24 hours of the first store, return the same vector with one provider call in total and the cache unchanged by the second |
| `Embeddings.SharedKeySharesVector` | lib/embeddings.ts:49-58 | two texts with the same key get the same vector from a fresh record |
| `Embeddings.EmbeddingCache.constructor` | lib/embeddings.ts:23 | the cache starts empty, with no provider calls |
| `Embeddings.EmbeddingCache.GetEmbedding` | lib/embeddings.ts:48-72 | the hit and miss rules above, on the object's map: a hit returns the stored vector with no call and no change; otherwise exactly one provider call, its result returned and, on success, stored with timestamp `storedAt` |
| `Embeddings.EmbeddingCache.Clear` | lib/embeddings.ts:139-141 | afterwards the cache is empty |
| `Embeddings.CosineSimilarity` | lib/embeddings.ts:77-93 | fails with "Vectors must have the same length" iff the lengths differ; otherwise the loop's accumulators are the dot product and the two squared norms over every index, handed to the final quotient |
| `Embeddings.DotSymmetric` | lib/embeddings.ts:86-90 | the accumulated dot product does not depend on the argument order |
| `Embeddings.SquaredNormNonNegative` | lib/embeddings.ts:88-89 | the accumulated squared norms are never negative |
| `Embeddings.InsertBySimilarity` | lib/embeddings.ts:123 | inserting into a list sorted by decreasing score keeps it sorted and adds exactly the inserted element |
| `Embeddings.SortBySimilarity` | lib/embeddings.ts:122-123 | the sorted list is ordered by non-increasing score and is a permutation of the input |
| `Embeddings.SortIsStable` | lib/embeddings.ts:123 | for every score, the entries with that score appear in the output in the same order as in the input |
| `Embeddings.RelevantFormPrefix` | lib/embeddings.ts:122-125 | on a list sorted by decreasing score, the entries above the threshold form a prefix |
| `Embeddings.TakeThenFilterCommutes` | lib/embeddings.ts:122-125 | on a list sorted by decreasing score, taking the first K and then filtering equals filtering and then taking the first K |
| `Embeddings.IrrelevantHeadLeavesNothing` | lib/embeddings.ts:125 | on a list sorted by decreasing score whose first score is at most 0.5, the threshold filter keeps nothing |
| `Embeddings.RankedIsSortedPrefix` | lib/embeddings.ts:122-125 | the ranking is a prefix of the stable sort of the scored entries, at most topK long |
| `Embeddings.RankedProperties` | lib/embeddings.ts:122-128 | the ranking has at most topK elements; each comes from the input and scores above 0.5; it is ordered by non-increasing score |
| `Embeddings.RankedKeepsTieOrder` | lib/embeddings.ts:122-125 | for every score, the ranked entries with that score are a prefix of the input's entries with that score, so ties keep input order |
| `Embeddings.RankedEmpty` | lib/embeddings.ts:122-128 | ranking no entries gives no entries |
| `Embeddings.FindRelevant` | lib/embeddings.ts:98-133 | if some step threw, the result is exactly the first topK entries, unfiltered; otherwise it is the entries of the ranking; either way it has at most topK elements, and it is empty for no entries |
| `Embeddings.Similarity` | lib/embeddings.ts:77-93 | `cosineSimilarity` as a value: it throws (None) iff the two vectors differ in length |
| `Embeddings.ScoreNext` | lib/embeddings.ts:109-117 | one entry's step: when it succeeds, exactly that entry is appended to the scored list, with at most one more provider call |
| `Embeddings.ScoreEntries` | lib/embeddings.ts:108-119 | the entries are scored in order with the cache threaded through their lookups; when no step fails, the scored list carries exactly the input entries, in input order |
| `Embeddings.ScoreEntriesCallsBound` | lib/embeddings.ts:108-119 | scoring the entries calls the provider at most once per entry |
| `Embeddings.FailureSticks` | lib/embeddings.ts:108-119 | once a step has failed, scoring the remaining entries calls nothing and changes nothing: the pass's outcome is that of the failed prefix |
| `Embeddings.RankingRun` | lib/embeddings.ts:103-119 | the query's lookup and then the entries' scoring pass; when nothing failed, the scored list carries exactly the input entries; at most one provider call per entry plus one for the query |
| `Embeddings.WarmEntriesCostNothing` | lib/embeddings.ts:52-59 | with a fresh record for every entry's text, scoring calls no provider and leaves the cache unchanged |
| `Embeddings.WarmCacheCostsNothing` | lib/embeddings.ts:52-59 | with fresh records for the query and every entry's text, the whole pass calls no provider and leaves the cache unchanged |
| `Embeddings.ProviderDownFallsBack` | lib/embeddings.ts:105 | with no fresh record for the query and the provider failing, the pass stops after one call with the cache unchanged, and the first topK entries come back unranked |
| `Embeddings.EmbeddingCache.ScoreEntry` | lib/embeddings.ts:109-117 | the map callback: the entry's title and content are looked up through the cache, the cache and call count move exactly as that lookup says, and the result is the entry's similarity to the query, or None when the lookup or the length check failed |
| `Embeddings.EmbeddingCache.ComputeSimilarities` | lib/embeddings.ts:108-119 | the loop over the entries returns exactly the scoring pass's scored list, and leaves the cache and the call count as that pass does |
| `Embeddings.EmbeddingCache.FindRelevantKnowledge` | lib/embeddings.ts:98-134 | the cache, the call count and the scores the ranking saw are those of the query's lookup followed by the entries' scoring pass; the result is the ranking of the scored entries, or the first topK entries if any lookup or similarity step failed; at most one provider call per entry plus one |
| `ChatRoute.NoUserMessageGivesEmptyQuery` | app/api/chat/route.ts:48-49 | with no message whose role is "user", the retrieval query is "" |
| `ChatRoute.LatestUserTextIsLastUserMessage` | app/api/chat/route.ts:48-49 | the retrieval query is the content of the user message that no later user message follows |
| `ChatRoute.KnowledgeContextEmptyIff` | app/api/chat/route.ts:52-67 | the context is "" iff retrieval threw or returned no entries; otherwise it starts with the fixed header |
| `ChatRoute.KnowledgeContextMentionsEntries` | app/api/chat/route.ts:61-66 | each retrieved entry's "[category] title:\ncontent\n" block, and so its content, occurs in the context |
| `ChatRoute.SystemPrompt` | app/api/chat/route.ts:74 | the base prompt is a prefix of the system prompt, and the rest is exactly the knowledge context |
| `ChatRoute.BuildPayload` | app/api/chat/route.ts:77-83 | the payload is one longer than the history; element 0 is the system message; the rest is the history, each message with its role and content |
| `ChatRoute.ClassifyError` | app/api/chat/route.ts:102-131 | status 429 gives 429 quota_exceeded with its guidance; 401 gives 401 invalid_api_key with its guidance; any other error gives an error body carrying its own status (or 500) and its own message (or the generic text) |
| `ChatRoute.GenericErrorDefaults` | app/api/chat/route.ts:126-131 | an absent or zero status becomes 500; an absent or empty message becomes "Failed to process chat request" |
| `ChatRoute.Respond` | app/api/chat/route.ts:92-101 | a non-empty first-choice content gives 200 with that message; an absent or empty one gives 500 "No response from AI"; a thrown error is classified |
| `ChatRoute.ReplyOnlyFromProvider` | app/api/chat/route.ts:92-101 | a `message` body is returned iff the provider answered with non-empty content, and then with status 200 and that content |
| `ChatRoute.Handle` | app/api/chat/route.ts:29-133 | for the knowledge list `allKnowledge`: retrieval is attempted iff a payload is sent, and always over `allKnowledge` with topK = 3; with no payload sent, no reply body is returned |
| `ChatRoute.Post` | app/api/chat/route.ts:29-59 | the handler over the knowledge table: any retrieval is over the whole four-entry table with topK = 3; a payload is sent iff retrieval was attempted; with no payload, no reply body |
| `ChatRoute.UnreadableBodyIsClassified` | app/api/chat/route.ts:31 | a body that cannot be parsed is answered by the catch block, before the key check, for any knowledge list, with no retrieval and no provider call |
| `ChatRoute.MissingKeyIsRejectedFirst` | app/api/chat/route.ts:33-38 | without an API key the answer is 500 "OpenAI API key not configured", whatever the messages, with no retrieval and no provider call |
| `ChatRoute.InvalidMessagesAreRejected` | app/api/chat/route.ts:40-45 | missing, non-array or empty messages give 400 "Messages array is required", with no retrieval and no provider call |
| `ChatRoute.ValidRequestIsForwarded` | app/api/chat/route.ts:47-90 | a valid request retrieves with the latest user text, the knowledge list `allKnowledge` and topK = 3; the payload is the system message, whose content starts with the base prompt, followed by the history verbatim; the response is the mapping of the provider's outcome |
| `ChatRoute.RetrievalFailureFailsOpen` | app/api/chat/route.ts:52-74 | when retrieval throws or finds nothing, the system prompt is the base prompt alone and the provider is still called |
| `ChatRoute.RetrievedContentReachesProvider` | app/api/chat/route.ts:52-90 | the content of every retrieved entry is included in the system message sent to the provider |
| `ChatRoute.RankerFailureInjectsTableHead` | lib/embeddings.ts:129-133 | when ranking fails, retrieval yields the first three table entries, so the context is non-empty and contains each of their contents |

## Left out

- The OpenAI calls (embedding creation and chat completion) and the module-level client objects are network I/O. They are inputs: `embed`, `retrieve` and `complete`. The completion parameters (model, 500 tokens, temperature 0.7) are not modelled.
- Floating point is not modelled. Vectors and scores are reals. The final `dot / (sqrt(normA) * sqrt(normB))` is the abstract `quotient`. So NaN for zero vectors, rounding, and the comparator's behaviour on NaN are not modelled.
- `Promise.all` is modelled as a sequential loop that stops at the first failure. In the source every entry's cache check runs before any entry's vector is stored, so two entries with the same cache key both miss and both call the provider; in the model the second one hits the record the first one stored, and gets the first one's vector. The model also does not capture lookups that go on writing to the cache after another one has failed. The returned entries are the same in both readings only when no two entry texts share a cache key, as holds for the four-entry table, whose entry texts have distinct 100-character prefixes; the provider-call count and the cache contents can differ.
- Embeddings.EmbeddingCache.FindRelevantKnowledge: uses one clock reading `now` for every lookup in the call.
- `Date.now()` is an explicit parameter. Concurrent requests that race on one cache key are not modelled.
- `toLowerCase` is ASCII-only. Strings are sequences of characters, so UTF-16 code units and Unicode case mapping are not distinguished. The same holds for the 100-character key.
- Request bodies whose message elements are not objects with string `role` and `content` are not modelled. In the source a `null` element makes `filter` throw into the catch block (app/api/chat/route.ts:48). Other malformed elements pass through `filter` and `map`, because a missing `role` or `content` is just undefined. A truthy non-string latest user content (a falsy one becomes "") then makes `substring` throw inside `findRelevantKnowledge` (lib/embeddings.ts:49), which returns the first three entries (lib/embeddings.ts:132), and the content goes to the provider as sent. The `messages` field is one of missing/falsy, not an array, or an array of such messages.
- A non-numeric or out-of-range `topK`, and an `error.status` that is not an integer, are not modelled. The source always passes topK = 3. An HTTP status that the response constructor rejects is not modelled.
- `console.error` logging, `NextRequest`/`NextResponse` JSON plumbing, and reading `process.env` are not modelled. The key is a boolean input.
- The `lastUpdated` field of a knowledge entry is kept but never set, as in the table.
