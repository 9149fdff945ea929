# Verified model of a Gemini-to-OpenAI chat proxy

The repository is a Go proxy that offers a private chat stream as OpenAI, Claude and Gemini APIs. This project models
its stateful parts in Dafny and proves what they are for.

- **Conversation index and planner.** `Messages`, `Tables`, `ContextIndex` (the index as a value, with its runs),
  `ContextService` (the updating class, proved equal to it), `Planner`, `Rollback`, `GoingBack` and
  `ConversationRun`: when a turn may continue an upstream conversation with only its newest message, what happens to a
  request that has fallen behind, and that the conversation survives migration. `Hits` says what an answer of the index
  stands for, in messages. `ConversationCache` is the provider side of the same bookkeeping.
- **Tool-call bridge.** `JsonText` (the grammar of RFC 8259), `JsonScan` (the bracket scanners), `SchemaCheck`,
  `ToolBridgePlan` (parse, validate, repair), `ToolBridgeStream` (content or tool JSON, while streaming) and
  `ToolBridgeReuse` (full tool list or short reminder). `ToolBridgeMeaning`, `ToolBridgeDelivery` and
  `ToolBridgeReminders` say what these hand out in terms of the model's texts and the history of requests.
- **Upstream stream engine.** `StreamParser` (snapshots to deltas, the bounded tail), `StreamSplits` (what a split into
  chunks changes), `StreamTerminal` (recognising the end), `StreamFailover` (retry, failover, migration and the retry
  budget) and `FailoverRules` (the same rules, said of the script of a request).
- **Account pool.** `AccountPool` (rotation, conversation affinity), `AccountWindows` (how long an account is kept, who
  is served) and `RefreshGuard` (one refresh per account).
- **Claude events and request log.** `ClaudeEvents` (the event grammar), `ClaudeBlocks` (what the events say) and
  `RequestRing` (the ring buffer).

`Text` holds the string functions the Go code takes from its standard library.

What the code updates in place is a class whose methods are proved equal to a specification function or step relation on
its view; the lemmas then speak about runs of those. Where Go leaves an order open (map iteration, sorting equal names,
interleaving under a mutex), the model leaves it open too.

Where the code does less than one might expect, the exact condition is proved:

- A request that has fallen behind can be put into the conversation that has moved on (`RollbackResumesIff`,
  `GoingBackIff`, `ToolResultIff`); docs/technical-details.md line 44 says it cannot.
- A client that sends only its newest message can lose what was said before (`NewestMessageIff`).
- What a split into chunks changes: the delivered text (`SplitsDeliverIff`, `SplitsAreCuts`), recognising the end
  (`SplitsAgreeIff`), and whether a fenced answer is released as content (`ReleasedIff`).
- An object in an answer is found unless a brace before it stays open (`ObjectFoundIff`), and the keys of tool arguments
  are not always checked as JSON Schema reads them (`KeysAgreeIff`).
- A cookie update under another spelling of an account id breaks the refresh guard (`SpellingIsSafeIff`), and an account
  can be added twice (`UniqueIff`).

Lemmas marked `{:induction false}` are proved by their bodies alone, without the verifier's automatic induction.

`dafny verify dfyconfig.toml` checks the project.

## Model

| member | source | states |
|---|---|---|
| `ContextIndex.ReachableInv` | internal/modules/openai/openai_service.go:984-1025 | In every state any run of remember, forget, lookups, prune and tool-bridge memory can reach, each index has exactly the keys of its timestamp map, no entry is blank, and where a provider has both a frontier and a retained transcript, the frontier is that transcript's key and length |
| `ContextIndex.ExactHit` | internal/modules/openai/openai_service.go:1315-1345 | An exact hit names a ready provider; where its frontier and retained transcript are still there, the caller's prefix equals that transcript up to normalization |
| `ContextIndex.ForgottenStaysForgotten` | internal/modules/openai/openai_service.go:1243-1286 | After forget, whatever runs, no lookup of any kind returns the provider until it is remembered again |
| `ContextIndex.PruneAll` | internal/modules/openai/openai_service.go:1500-1648 | After a prune, in each of the five capped indexes nothing is older than the lifetime, at most 1000 entries are left, every survivor is unchanged, and an entry still fresh is gone only if the cap is full and it was no newer than any survivor; of the other two only stale entries go; a surviving frontier is unchanged and one that goes takes its transcript entry with it |
| `Tables.PruneLaw` | internal/modules/openai/openai_service.go:1500-1648 | Expiring, then evicting the oldest, gives that law for any table, lifetime and cap |
| `Tables.ExpireStale` | internal/modules/openai/openai_service.go:1518-1523 | The expiry loop, in any map order, removes exactly the entries older than the lifetime |
| `Tables.Oldest` | internal/modules/openai/openai_service.go:1585-1593 | The scan for a victim finds a key no newer than any other, in any map order |
| `Tables.EvictOldest` | internal/modules/openai/openai_service.go:1584-1599 | The eviction loop terminates with at most the cap left, the victims no newer than the survivors |
| `Messages.UserWindow` | internal/modules/openai/openai_service.go:1956-1991 | The backward scan yields the last maxUsers usable user turns, or no key when there are fewer than minUsers |
| `Messages.NormalizeIdempotent` | internal/modules/openai/openai_service.go:1905-1934 | Normalizing a message for its fingerprint twice changes nothing |
| `Messages.UserTurnsAppend` | internal/modules/openai/openai_service.go:1956-1991 | The usable user turns of two joined message lists are those of the first followed by those of the second |
| `ContextService.ExpireTranscripts` | internal/modules/openai/openai_service.go:1507-1517 | Expiring transcripts entry by entry drops a provider's frontier exactly when its frontier entry goes |
| `ContextService.EvictTranscripts` | internal/modules/openai/openai_service.go:1563-1583 | Evicting transcripts down to the cap drops a provider's frontier exactly when its frontier entry goes |
| `ContextService.RemoveHolding` | internal/modules/openai/openai_service.go:1243-1286 | The deletion loop of forget removes exactly the entries that name the provider |
| `ContextService.RememberTranscriptSuffixes` | internal/modules/openai/openai_service.go:1468-1484 | The suffix loop records every suffix of a transcript of at least four messages, down to two messages |
| `ContextService.RememberUserWindows` | internal/modules/openai/openai_service.go:1486-1498 | The window loop records the user windows of sizes 2, 3 and 4 that exist |
| `ContextService.OpenAIService.PruneTranscriptContexts` | internal/modules/openai/openai_service.go:1500-1648 | The updating prune is a prune step of the index and keeps its invariant |
| `ContextService.OpenAIService.RememberRequestContext` | internal/modules/openai/openai_service.go:923-1025 | The updating remember is a remember step of the index: nothing for a blank answer or a provider without state, else prune, then bind the client id and record request and transcript |
| `ContextService.OpenAIService.RecoveryMessages` | internal/modules/openai/openai_service.go:1027-1053 | What a migration sends again: the retained transcript merged with the request, after a prune |
| `ContextService.OpenAIService.ForgetProviderConversation` | internal/modules/openai/openai_service.go:1243-1286 | The updating forget equals forget on the index |
| `ContextService.OpenAIService.ProviderForTranscript` | internal/modules/openai/openai_service.go:1315-1345 | The updating exact lookup equals the one on the index, with its expiry and touch |
| `ContextService.OpenAIService.ProviderForTranscriptAny` | internal/modules/openai/openai_service.go:1347-1372 | The same for the lookup without the frontier check |
| `ContextService.OpenAIService.ProviderForTranscriptSuffix` | internal/modules/openai/openai_service.go:1374-1409 | The same for the suffix lookup |
| `ContextService.OpenAIService.ProviderForUserWindow` | internal/modules/openai/openai_service.go:1411-1436 | The same for the user-window lookup |
| `ContextService.OpenAIService.ProviderForRoot` | internal/modules/openai/openai_service.go:1438-1466 | The same for the root lookup |
| `ContextService.OpenAIService.ProviderForExplicitID` | internal/modules/openai/openai_service.go:1288-1313 | The same for the explicit-id lookup |
| `ContextService.OpenAIService.RememberToolBridgeContext` | internal/modules/openai/openai_service.go:1106-1129 | The updating tool-bridge memory equals the one on the index, expired entries gone |
| `Hits.FingerprintIff` | internal/modules/openai/openai_service.go:1905-1934 | Two lists have one fingerprint exactly when they are message by message equal in trimmed lower-case role, trimmed content, tool call id and name, tool calls and attachments; only the empty list has none |
| `Hits.RootKeyIff` | internal/modules/openai/openai_service.go:1936-1954 | Two lists have one root key exactly when both open, at the same position, with a user message after system messages only, and all messages up to it are alike, the system messages included; a list that does not open so has none |
| `Hits.WindowIff` | internal/modules/openai/openai_service.go:1956-1991 | The window a caller asks by is among those stored for a transcript exactly when the newest two, three or four user messages that say something are the same in both, fewer than four only when the caller has no more |
| `Hits.HitsAreLatest` | internal/modules/openai/openai_service.go:1288-1466 | Over every run from the empty index: whatever a lookup of any kind answers was recorded with a transcript the caller's messages stand for (all of it or all but its answer, a suffix, the newest user messages, the opening, or the client's id), nobody recorded such a transcript since, the provider was not forgotten since and is ready, and within twelve hours it was recorded or answered |
| `Hits.RootHitOpens` | internal/modules/openai/openai_service.go:1438-1466 | Over every such run a root hit names a provider for which a transcript with the same opening was recorded, system messages included, and whose newest transcript is no longer than the caller's list |
| `Hits.HitsLast` | internal/modules/openai/openai_service.go:1315-1466 | A hit holds for the next twelve hours: the same question to the index it leaves gets the same answer |
| `Hits.ForgottenCell` | internal/modules/openai/openai_service.go:1243-1286 | Forgetting empties exactly the entries that name the provider, in all five tables, and leaves the others with their times |
| `Hits.MergedIs` | internal/modules/openai/openai_service.go:1038-1053 | What is recorded and sent again is the retained transcript with the request added when that is a single user message that does not repeat it, and the request itself otherwise |
| `Hits.CanonicalIff` | internal/modules/openai/openai_service.go:724-726 | Two spellings of an id are one id exactly when they are equal once trimmed, and none when blank |
| `Planner.PlanRequestContext` | internal/modules/openai/openai_service.go:713-800 | The updating planner equals the plan function: tool result first, then history, then explicit id |
| `Planner.FindToolProvider` | internal/modules/openai/openai_service.go:802-877 | The nine lookups for a tool result, in their order, equal the lookup chain on the index |
| `Planner.PlansAreSafe` | internal/modules/openai/openai_service.go:713-877 | Every plan that relies on server-side context names a fresh id or a ready provider and carries only a usable newest message; every other main-phase plan carries a prompt of the full message list |
| `Planner.NewestMessageIff` | internal/modules/openai/openai_service.go:755-763 | A client that sends only its newest message has only that message sent on, into the conversation its id is bound to exactly when that one is ready and the binding is in use or is the id itself; otherwise what was said before is lost |
| `Planner.HistoryPlanIs` | internal/modules/openai/openai_service.go:726-800 | A list that repeats what was said and adds a user message goes on in the conversation the history lookups find, with that message alone, and otherwise is sent whole to a fresh one |
| `Planner.NothingToContinue` | internal/modules/openai/openai_service.go:755-770 | Without a tool result and without a newest user message that says something, everything is sent, under the client's id or else a fresh one, and the index is left alone |
| `Planner.ToolResultPlanIff` | internal/modules/openai/openai_service.go:802-921 | A tool result is answered exactly when the messages close with one and the newest tool calls before it stand right after a user message; the prompt holds that message, the calling one and all tool messages after it in order, and what is recorded ends with that user message |
| `Planner.RememberedIsExact` | internal/modules/openai/openai_service.go:993-1016 | Remembering makes the transcript the provider's frontier, stores it under its key and retains it, all with the time of the call |
| `Planner.NextTurnContinues` | internal/modules/openai/openai_service.go:923-1025 | Right after remember for a ready provider, and within the lifetime, the recorded transcript as the client repeats it plus one usable user turn plans the same provider with only that turn, for every index and every transcript |
| `Planner.SuffixWindowIsNoted` | internal/modules/openai/openai_service.go:1486-1498 | The stored window sizes 2, 3, 4 answer the query for the last min(4, n) user turns of every suffix with at least two |
| `Planner.SuffixFindsProvider` | internal/modules/openai/openai_service.go:1411-1436 | Right after remember for a ready provider, and within the lifetime, every suffix of the recorded transcript with two usable user messages finds the provider by its user window |
| `Rollback.HistoryIsFirstHit` | internal/modules/openai/openai_service.go:727-753 | The lookups of one request do not disturb each other: the provider found is the first of exact, suffix, window, root that answers on the index as it was, each answer given as a condition on the tables |
| `Rollback.ToolIsFirstHit` | internal/modules/openai/openai_service.go:802-877 | The same for the nine lookups of a tool result: four without the user message, then transcript, suffix, window and root with it |
| `Rollback.ExactRefusesRollback` | internal/modules/openai/openai_service.go:1315-1345 | The exact and root lookups never resume a conversation that has moved past the request |
| `Rollback.RollbackResumesIff` | internal/modules/openai/openai_service.go:713-877 | For every index and every request that repeats only part of what a conversation has become, the plan goes on in that conversation exactly when the provider is ready and the tables say so: a suffix or window entry for the repeated messages names it and no earlier lookup answers; for a tool result also a transcript, suffix or window entry up to the user message, none earlier answering |
| `Rollback.RollbackAloneIff` | internal/modules/openai/openai_service.go:713-877 | When the index knows only that provider: exactly when it is ready and some table other than the root table has an entry for the repeated messages |
| `GoingBack.GoingBackIff` | internal/modules/openai/openai_service.go:923-1025 | Over every run of the index in which one conversation of any number of turns is recorded, pruned each time, with any lookups in between: a client that goes back to the answer of turn m and says something else is put into the conversation that has moved on exactly when the suffix or window entry for what it repeats is still in use, which takes m >= 2, or m = 1 and the first exchange said again later; against docs/technical-details.md line 44 |
| `GoingBack.GoingBackInTime` | internal/modules/openai/openai_service.go:1500-1648 | Within one lifetime that is always so for m >= 2 up to 334 turns, whose windows fit under the cap; and up to 24 turns, whose suffixes fit, it is so exactly when m >= 2, or m = 1 and the first exchange was said again |
| `GoingBack.LongRunsForget` | internal/modules/openai/openai_service.go:1616-1631 | A longer conversation forgets: when the suffix table exceeds the cap by at least the entries no newer than that of the first exchange, and the newest turn does not repeat it, going back to the first answer is not resumed, even if that exchange was said again once |
| `GoingBack.ToolResultIff` | internal/modules/openai/openai_service.go:802-877 | In such a run a tool result for the user message of turn m is put into the conversation that has moved on exactly when an entry for what was said before that message, or the transcript, suffix or window entry for what was said with it, is still in use |
| `GoingBack.ToolResultGoesBack` | internal/modules/openai/openai_service.go:1347-1372 | Within one lifetime and up to 501 turns, whose transcripts fit under the cap, that is always so |
| `GoingBack.EveryConversationRuns` | internal/modules/openai/openai_service.go:923-1025 | Any usable messages and non-blank answers are the turns of such a run |
| `ConversationRun.TurnExtends` | internal/modules/openai/openai_service.go:923-1025 | One served turn, migrated or not, turns the bound transcript t into t, user message, answer, under the provider it ends with |
| `ConversationRun.RunKeepsConversation` | internal/modules/openai/openai_service.go:597-631 | Over any run of newest-message-only turns under one conversation_id, any of them migrated, the id maps to one provider whose retained transcript is exactly u1, a1, ..., un, an, and a migration sends all of it again, as long as the bound provider is ready when planning, answers are not blank, nobody else uses it and nothing of it expires or is evicted |
| `ConversationRun.RunGoesOn` | internal/modules/openai/openai_service.go:597-631 | Every such run can go on with any message and answer, migrated or not, with a client that has state for the conversation |
| `ConversationRun.EveryTurnListRuns` | internal/modules/openai/openai_service.go:597-631 | For every list of turns, migrated wherever one likes to a conversation other than the one replaced, there is such a run with exactly these turns, and the conversation it ends in is the last one migrated to, or the first one drawn |
| `ConversationCache.Client.PruneConversations` | internal/modules/providers/gemini_service.go:2650-2675 | The cache prune obeys the prune law and takes the untrusted flags of exactly the entries that go |
| `ConversationCache.Client.UpdateConversation` | internal/modules/providers/gemini_service.go:2604-2648 | An update prunes, then merges: empty fields never overwrite; blank ids and empty metadata change nothing |
| `ConversationCache.Client.CheckConversationContinuity` | internal/modules/providers/gemini_service.go:2573-2602 | An answer from another conversation flags the id, and fails the call exactly when nothing was shown yet |
| `ConversationCache.Client.MarkConversationUntrusted` | internal/modules/providers/gemini_service.go:2682-2693 | Flags the trimmed id, and nothing for a blank one |
| `ConversationCache.ReachableCache` | internal/modules/providers/gemini_service.go:2604-2675 | Every reachable cache has the keys of its timestamps, no empty entry, and at most one entry over the cap |
| `ConversationCache.FlagIff` | internal/modules/providers/gemini_service.go:2573-2693 | Over any run, while its entry is fresh and the cache within its cap, an id is flagged exactly when it was, or was marked since, or an answer to it named another conversation than the expected one; an id that never got an entry keeps its flag for good |
| `ConversationCache.FlagGoesWithEntry` | internal/modules/providers/gemini_service.go:2650-2675 | An entry that an update drops takes its flag along and no other flag goes; one not updated for twelve hours is dropped |
| `ConversationCache.UpdateRenews` | internal/modules/providers/gemini_service.go:2604-2648 | An update that says something renews its own entry and makes no other newer |
| `ConversationCache.FieldsAreLatest` | internal/modules/providers/gemini_service.go:2604-2648 | While an entry is fresh and the cache within its cap, each of its four fields is the last non-empty one any answer gave, so an id that has state keeps having it |
| `ToolBridgeReuse.ToolBridgeSignature` | internal/modules/openai/openai_service.go:2203-2231 | The signature is a name-sorted rearrangement of the usable function tools, or none |
| `ToolBridgeReuse.ShuffledLists` | internal/modules/openai/openai_service.go:2203-2231 | Permuting a request's tools permutes the listed tools and nothing else |
| `ToolBridgeReuse.SignatureIgnoresOrder` | internal/modules/openai/openai_service.go:2223-2230 | Requests whose listed tools are permutations of each other have one signature when tools of equal name are equal |
| `ToolBridgeReuse.SignatureUniqueIff` | internal/modules/openai/openai_service.go:2223-2230 | A request determines its signature exactly when no two different tools share a name |
| `ToolBridgeReuse.ReminderFollowsFullList` | internal/modules/openai/openai_service.go:2185-2201 | Over all interleavings of requests, failures, migrations and index operations, the short prompt goes only to a provider conversation that earlier got, in an answered call, the full prompt for exactly the request's tools |
| `ToolBridgeReminders.ReminderIff` | internal/modules/openai/openai_service.go:2185-2201 | Over the same interleavings a request is sent the reminder exactly when it continues a conversation whose last recorded teaching, neither given up nor cleared after twelve hours, was of the same tool set; otherwise the full list of its tools |
| `ToolBridgeReminders.ListedAre` | internal/modules/openai/openai_service.go:2209-2219 | The tools listed are the named function tools of the request, all of them, in order, with name, description and parameters trimmed |
| `JsonScan.MatchingJSONObjectEnd` | internal/modules/openai/openai_service.go:2613-2650 | The scanning loop returns the position of the first brace that closes everything opened outside strings, or -1 |
| `JsonScan.FindJSONArrayEnd` | internal/modules/providers/gemini_service.go:2802-2838 | The same for brackets, one past the end |
| `JsonScan.ObjectScan` | internal/modules/openai/openai_service.go:2610-2650 | For every object text of sections 4 and 7 of RFC 8259, followed by anything, the scan stops on its last byte |
| `JsonScan.ArrayScan` | internal/modules/providers/gemini_service.go:2802-2838 | For every array text of section 5 of RFC 8259, followed by anything, the scan stops on its last byte |
| `JsonScan.TruncatedObjectNeverCloses` | internal/modules/openai/openai_service.go:2610-2650 | An object text cut off anywhere is never closed |
| `JsonScan.ExtractJSONObjectCandidates` | internal/modules/openai/openai_service.go:2593-2608 | The extraction loop yields the top-level balanced objects left to right, stops at the first unclosed one, cuts each out where it starts, and starts one at a position exactly when StartsAt holds there |
| `JsonScan.ObjectFoundIff` | internal/modules/openai/openai_service.go:2593-2608 | For any text before and any text after: StartsAt, the loop starts a candidate there, holds where an object starts exactly when every brace met at top level before it is closed before it |
| `JsonScan.ObjectBehind` | internal/modules/openai/openai_service.go:2593-2608 | Then the candidates are those of the text before, the object, and those of the text after |
| `JsonScan.CandidatesAreTheObjects` | internal/modules/openai/openai_service.go:2586-2608 | Around objects, prose that closes every brace it opens yields its own balanced braces and the objects, in order; prose without opening braces yields exactly the objects |
| `JsonScan.CutOffObjectIsSkipped` | internal/modules/openai/openai_service.go:2586-2608 | The same when the text breaks off anywhere inside a last object, which is skipped |
| `JsonScan.StrayBraceHidesAll` | internal/modules/openai/openai_service.go:2599-2603 | The worst case: one stray opening brace in prose without quotes and braces hides every object after it |
| `SchemaCheck.ValidateValue` | internal/modules/openai/openai_service.go:2676-2722 | Accepts exactly the values that, at every path of at most four property names, meet the schema at that path, whatever order the maps are visited in |
| `SchemaCheck.ConformsIff` | internal/modules/openai/openai_service.go:2676-2722 | Path-wise conformance is the same as meeting the schema here and conforming below each property |
| `SchemaCheck.SchemaSays` | internal/modules/openai/openai_service.go:2676-2798 | Keyword by keyword, as they stand in the schema: one of the named types fits, a whole number within 64 bits for integer; every required key is there; additionalProperties false admits only properties with an object as schema, where there is one; and each property conforms one level deeper |
| `SchemaCheck.KeysAgreeIff` | internal/modules/openai/openai_service.go:2696-2710 | The code admits the same keys as JSON Schema reads properties and additionalProperties, for every object, exactly when: with additionalProperties false, some property has an object as schema and every other the schema false; without it, no property has the schema false (JSON Schema Core 2020-12, sections 10.3.2.1 and 10.3.2.3) |
| `SchemaCheck.ValidateType` | internal/modules/openai/openai_service.go:2724-2764 | Accepts exactly when no type is named, or one named type fits; an unknown type name fits anything (JSON Schema Validation 2020-12, section 6.1.1) |
| `SchemaCheck.HasRequired` | internal/modules/openai/openai_service.go:2689-2694 | Accepts exactly when every required key is present (JSON Schema Validation 2020-12, section 6.5.3) |
| `SchemaCheck.OnlyDeclared` | internal/modules/openai/openai_service.go:2704-2710 | Accepts exactly when every key is a declared property, in any order of visiting |
| `ToolBridgePlan.ForcedIffFunction` | internal/modules/openai/dto/openai_dto.go:305-348 | tool_choice selects one function exactly when it forces a tool name |
| `ToolBridgePlan.ValidateArguments` | internal/modules/openai/openai_service.go:2652-2674 | Passes on the normalized arguments exactly when they are an object that conforms to the declared schema |
| `ToolBridgePlan.ValidatePayload` | internal/modules/openai/openai_service.go:2465-2533 | The validating loop: the first failing call decides, otherwise all calls are returned in order |
| `ToolBridgePlan.FastPathAgrees` | internal/modules/openai/openai_service.go:2428-2434 | Whenever the whole-text fast path accepts, the candidate scan alone gives the same plan |
| `ToolBridgePlan.ParsePlan` | internal/modules/openai/openai_service.go:2422-2463 | Parsing with the fast path equals the first-valid choice among the candidates of the fence-stripped text |
| `ToolBridgePlan.FirstValidIs` | internal/modules/openai/openai_service.go:2436-2463 | The plan is that of the first candidate that decodes and validates; it is an error only if none does |
| `ToolBridgePlan.PlanOfFirstObject` | internal/modules/openai/openai_service.go:2436-2463 | For an answer of JSON objects among prose that closes every brace it opens, the plan is that of the first of them, or of the balanced braces in the prose, that decodes and validates; without opening braces in the prose, of the first object |
| `ToolBridgePlan.ResolvedIsGood` | internal/modules/openai/openai_service.go:2344-2382 | Over parse, validate and repair: every call handed out is declared, forced where forced, with conforming object arguments; when a call is required the result is an error or at least one call, otherwise never an error |
| `ToolBridgePlan.ResolveOutput` | internal/modules/openai/openai_service.go:2344-2382 | The code equals that resolution, and asks for a repair exactly when parsing fails and either a call is required or the text looks like planner output |
| `ToolBridgeMeaning.ArgumentsArrive` | internal/modules/openai/openai_service.go:2811-2842 | Where decoding undoes encoding: the arguments handed out decode to the value sent, directly or as a quoted text, its links rewritten; {} stands in only for blank, null or a blank quoted text; and arguments are refused only when nothing decodes |
| `ToolBridgeMeaning.DeclaredIs` | internal/modules/openai/openai_service.go:2490-2500 | A name is allowed exactly when a function tool is declared under it, and the last such tool gives its schema |
| `ToolBridgeMeaning.MustCallIff` | internal/modules/openai/dto/openai_dto.go:305-348 | A call is required exactly for the word required, as such or as the kind of an object, and for a named function |
| `ToolBridgeMeaning.AcceptableIff` | internal/modules/openai/openai_service.go:2502-2530 | A call is taken exactly when it is named, declared where any tool is, the forced one if one is forced, and its arguments are an object that conforms to the schema of the last tool declared under its name |
| `ToolBridgeMeaning.TakenIff` | internal/modules/openai/openai_service.go:2465-2533 | A payload is taken exactly when it makes calls and all are acceptable, or is a message or no_tool where no call is required; then the plan has as many calls, in order, under their trimmed names and with the arguments sent, or the trimmed message, or nothing |
| `ToolBridgeMeaning.OutputIs` | internal/modules/openai/openai_service.go:2344-2463 | What the client gets in the end: what the first object of the answer that may be taken says; else, where a call is required or the answer looks like an attempt at one, the same of the repaired answer; else an error where a call is required, and otherwise the trimmed answer |
| `ToolBridgeMeaning.FenceIsStripped` | internal/commons/utils/utils.go:169-183 | A fenced text, labelled json or JSON or not, is read as the trimmed text in the fence, and what follows the fence is dropped |
| `ToolBridgeMeaning.NoFence` | internal/commons/utils/utils.go:170-174 | Without an opening fence only the white space around the text goes |
| `ToolBridgeStream.JsonNeverReleased` | internal/modules/openai/openai_service.go:2071-2083 | A text whose first non-space character is { or [ is never released as content, for any chunking |
| `ToolBridgeStream.ReleasedIff` | internal/modules/openai/openai_service.go:556-571 | A chunked text is released exactly when it is not blank, does not open with { or [, and, if it opens with a code fence, some chunk boundary cuts the fence; so only fenced texts depend on the chunking |
| `ToolBridgeStream.FenceSplitIsReleased` | internal/modules/openai/openai_service.go:2071-2083 | A fenced tool call sent whole is held back; cut after its first backtick it is released, for every body |
| `ToolBridgeStream.ChatStream.Handle` | internal/modules/openai/openai_service.go:541-592 | Every event keeps: forwarded content is all text so far, or none while held back; it is held back exactly while no chunk boundary showed plain content; thinking is forwarded in order |
| `ToolBridgeStream.ChatStream.HandleContent` | internal/modules/openai/openai_service.go:550-587 | A content delta forwards itself, or all text so far at the moment of release, or nothing |
| `ToolBridgeStream.ChatStream.Receive` | internal/modules/openai/openai_service.go:593-596 | A response is taken event by event to its end unless the client turns a chunk down, which ends it without an error |
| `ToolBridgeStream.ChatStream.Upstreams` | internal/modules/openai/openai_service.go:593-631 | A response is replaced exactly when it was rejected, showed nothing and there is something to send again; the text is that of one response, whole when the client takes every chunk; a stream that showed nothing is an error |
| `ToolBridgeStream.ChatStream.Finish` | internal/modules/openai/openai_service.go:638-680 | After the upstream, exactly the tail that the resolved plan asks for, then the usage chunk if it was asked for, or the error of the plan |
| `ToolBridgeStream.ChatStream.Run` | internal/modules/openai/openai_service.go:451-680 | Whole streamed request: role, forwarded thinking and text of one response (all of its text or none), then the tail, with the usage of the prompt that was answered when it was asked for; errors as the code gives them |
| `ToolBridgeStream.TailIsSound` | internal/modules/openai/openai_service.go:638-680 | finish_reason is tool_calls exactly when calls are sent; calls are good and never follow released text; a required call is always there; one finish chunk ends the choices, and only the usage chunk of include_usage follows it |
| `ToolBridgeDelivery.TailHandsOver` | internal/modules/openai/openai_service.go:638-680 | Chunk by chunk: the resolved calls or the resolved text that was held back, the finish, and the usage at four characters a token, of the text that was sent; nothing after a failed plan |
| `ToolBridgeDelivery.CallsAreHandedOver` | internal/modules/openai/openai_service.go:638-680 | A held-back answer whose first usable object makes tool calls reaches the client as those calls, in order, under their names and with the arguments the model sent, and finish_reason tool_calls |
| `ToolBridgeDelivery.ResponseIs` | internal/modules/openai/openai_service.go:593-631 | A response is given up for the one from a new conversation exactly when it was rejected before anything of it was visible and there is something to send again; the one that is left fails as it failed, or as empty when nothing was visible |
| `StreamParser.IncrementalParser.FeedBytes` | internal/modules/providers/gemini_service.go:1351-1367 | The updating Feed equals the Feed function on pending bytes and last text |
| `StreamParser.IncrementalParser.ParseLine` | internal/modules/providers/gemini_service.go:1369-1379 | One block yields the part of its text that extends the last text; the text of a block is that of its last line that has one, or else that of the block as a whole |
| `StreamParser.EveryLineOnce` | internal/modules/providers/gemini_service.go:1351-1379 | For every split into chunks, the visitor sees the trimmed non-blank lines of the whole input once each, in order |
| `StreamParser.DeltasAddUp` | internal/modules/providers/gemini_service.go:1369-1379 | For every split and every visitor, the emitted deltas concatenate to the parser's last text |
| `StreamSplits.SplitsAreCuts` | internal/modules/providers/gemini_service.go:1351-1379 | For every extractor, stream and text: some split into chunks delivers the text exactly when some cut of the whole lines into stretches, each read as one block, and then the unfinished line on its own give it; nothing else about the chunks matters |
| `StreamSplits.SettlesToLastLine` | internal/modules/providers/gemini_service.go:1351-1379 | When the text of every whole line begins that of the last one, and so does what a stretch of this stream without a line text has as a whole, every split delivers that last text and what the unfinished line, with its whole-block fallback, adds to it |
| `StreamSplits.LastLineTakesOver` | internal/modules/providers/gemini_service.go:1351-1379 | When all of them begin the text of the unfinished line, every split delivers that |
| `StreamSplits.ChunkIndependence` | internal/modules/providers/gemini_service.go:1351-1379 | Any two splits of one such stream show the same lines and deliver the same text |
| `StreamSplits.GrowthSuffices` | internal/modules/providers/gemini_service.go:2064-2102 | Growing snapshots are such lines: when each non-empty line text extends the ones before, every line text begins the last one |
| `StreamParser.PartsExist` | internal/modules/providers/gemini_service.go:1351-1367 | Every byte stream is whole lines and an unfinished last one, possibly empty |
| `StreamSplits.SplitsDeliverIff` | internal/modules/providers/gemini_service.go:1351-1379 | For every byte stream and extractor, all splits deliver the same text only if every line text begins the last one of the whole lines or all begin the text of the unfinished line; and exactly then, when no stretch of this stream without a line text has as a whole a text that does not begin that last one |
| `StreamSplits.LinesSufficeIff` | internal/modules/providers/gemini_service.go:1369-1379 | Over all streams and splits at once: the last text is delivered wherever every line text begins it exactly when no block at all gives a text as a whole that none of its lines gives |
| `StreamParser.StoppingSeesPrefix` | internal/modules/providers/gemini_service.go:1351-1367 | A visitor that refuses ends the run there: it has seen just what an obliging one would have seen up to and including the visit it refused |
| `StreamParser.StreamTail.Append` | internal/modules/providers/gemini_service.go:1331-1344 | An append leaves the last 131072 bytes of what was there and what came |
| `StreamParser.TailIsSuffix` | internal/modules/providers/gemini_service.go:1331-1344 | After any appends the tail is the last min(total, 131072) bytes received |
| `StreamTerminal.HasTerminalEntry` | internal/modules/providers/gemini_service.go:3244-3283 | A block is terminal exactly when one of its bracket lines holds the end entry and all of them decode |
| `StreamTerminal.ApartSeesAll` | internal/modules/providers/gemini_service.go:3267-3283 | Read line by line, an end line is always recognised |
| `StreamTerminal.SplitsAgreeIff` | internal/modules/providers/gemini_service.go:3244-3283 | For every byte stream, recognising the end is independent of chunking exactly when the unfinished last line is an end line, or no whole line is one, or every bracket line among the whole lines decodes |
| `StreamFailover.RetryBudget.Consume` | internal/modules/providers/retry_budget.go:20-34 | A call is let through exactly while the budget is positive, and then costs one |
| `StreamFailover.BudgetHolds` | internal/modules/providers/retry_budget.go:25-33 | For every interleaving of the compare-and-swap loop, no more calls pass than the budget has, and none is turned away while some is left |
| `StreamFailover.StreamState.NextThinkingDelta` | internal/modules/providers/gemini_service.go:1301-1318 | A new thinking text is emitted without its longest earlier proper prefix; a blank or repeated one is not emitted |
| `FailoverRules.BestPrefixIs` | internal/modules/providers/gemini_service.go:1306-1315 | What a new thinking text is shortened by is the longest earlier text that properly begins it, or nothing |
| `StreamFailover.ThinkingAddsUp` | internal/modules/providers/gemini_service.go:1301-1318 | For growing thinking snapshots the emitted deltas concatenate to the last snapshot |
| `StreamFailover.Stream.Read` | internal/modules/providers/gemini_service.go:1270-1299 | The read loop hands over exactly what the body shows, up to the first delta the client turns down, and ends as the body ends, with a mismatch before content, or well after a refusal |
| `StreamFailover.BodyShape` | internal/modules/providers/gemini_service.go:1270-1299 | Whatever a body holds, it shows non-empty deltas only, thinking before content |
| `StreamFailover.BodyKeepsText` | internal/modules/providers/gemini_service.go:1270-1299 | The content deltas shown concatenate to the whole text of a body that stays in its conversation |
| `FailoverRules.BodyKeepsThinking` | internal/modules/providers/gemini_service.go:1270-1318 | Growing snapshots of the thinking, up to the first content, are shown in full |
| `FailoverRules.BodyComesTo` | internal/modules/providers/gemini_service.go:1270-1299 | A body is shown whole, or up to the first delta the client turns down; it ends as a rejected conversation exactly when a block names another one before any content, well when the client stopped it, and as the network says otherwise |
| `StreamFailover.Stream.ClientStream` | internal/modules/providers/gemini_service.go:1437-1561 | Equals the account result: at most two attempts, the second only after a request that was not built or not written, each dispatch paid for |
| `StreamFailover.Stream.PoolStream` | internal/modules/providers/gemini_client_pool.go:220-250 | Equals the pool result: a backup account exactly on a sign-in error without output, state or cancellation |
| `StreamFailover.Stream.ServiceStream` | internal/modules/openai/openai_service.go:593-631 | Equals the request result: a rejected conversation is replaced exactly when nothing was shown; all deltas carry the mark of the last dispatch |
| `StreamFailover.RequestIsSound` | internal/modules/openai/openai_service.go:593-631 | Under every failure pattern all the client sees is what one upstream response shows, non-empty and thinking before content; dispatches stay within the budget and eight; success means something was shown |
| `FailoverRules.AccountServes` | internal/modules/providers/gemini_service.go:1437-1561 | From the script alone: the first attempt decides unless its request was not built or not written, two attempts are allowed and the pause is not cancelled; then the second one does |
| `FailoverRules.WrittenIsFinal` | internal/modules/providers/gemini_service.go:1540-1543 | A request that was written, or got a status or a body, is dispatched at most once, however the second attempt is set up |
| `FailoverRules.UnwrittenIsRepeated` | internal/modules/providers/gemini_service.go:1540-1543 | A request that was not built or not written is sent again where two attempts are allowed, and the client sees all of the second body |
| `FailoverRules.RequestRule` | internal/modules/openai/openai_service.go:593-631 | Every request comes out so: a backup account exactly after a sign-in error with nothing shown, no conversation state and no cancellation; a new conversation exactly after a rejection with nothing shown; each dispatch paid from one budget; an empty success is an error |
| `AccountPool.ClientPool.SelectActive` | internal/modules/providers/gemini_client_pool.go:718-754 | The cyclic loop equals selection: keep the active account within its window, else the next healthy one after it |
| `AccountPool.ClientPool.ClientFor` | internal/modules/providers/gemini_client_pool.go:659-716 | The updating request path equals serving: a bound healthy account, else unbind, select, recover, bind and prune |
| `AccountPool.ClientPool.HasConversationState` | internal/modules/providers/gemini_client_pool.go:439-461 | Answers yes exactly when the conversation is then bound to a healthy account that knows it; unbinds an unusable account |
| `AccountPool.ClientPool.PruneConversationBindings` | internal/modules/providers/gemini_client_pool.go:1342-1353 | The loop removes exactly the bindings not used for twelve hours, in any order |
| `AccountPool.ClientPool.RemoveAccount` | internal/modules/providers/gemini_client_pool.go:1162-1193 | Removes every client of the trimmed id and its bindings, keeps the times, and resets an active position that no longer exists |
| `AccountPool.ClientPool.AddAccount` | internal/modules/providers/gemini_client_pool.go:1090-1129 | Without another call in between: adds the trimmed id last, unless it is blank, has no cookie or exists, and keeps ids unique |
| `AccountPool.UniqueIff` | internal/modules/providers/gemini_client_pool.go:1090-1129 | Over any run, ids stay unique exactly as long as every insertion still finds its id absent |
| `AccountPool.AddsApartStayUnique` | internal/modules/providers/gemini_client_pool.go:1090-1129 | So they stay unique when no two additions of one id overlap between check and insertion, whatever else runs in between |
| `AccountPool.OverlappingAdds` | internal/modules/providers/gemini_client_pool.go:1090-1129 | Two additions of one free id that both checked before either inserted leave it in the list twice, and one removal takes both away |
| `AccountPool.NextHealthy` | internal/modules/providers/gemini_client_pool.go:729-753 | The loop finds the next healthy position after the active one, or else the first of all, skipping none |
| `AccountPool.ActiveAfter` | internal/modules/providers/gemini_client_pool.go:718-754 | After the k-th window expiry the active account is k - 1 places further round the healthy ones than the first choice, however many calls fell inside windows |
| `AccountPool.RotationIsFair` | internal/modules/providers/gemini_client_pool.go:718-754 | From any start, as many consecutive expiries as there are healthy accounts select each of them exactly once, in cyclic order |
| `AccountWindows.WindowHolds` | internal/modules/providers/gemini_client_pool.go:718-741 | Over any run: from the time t at which account a is chosen until t plus the stay set for it, three hours where none is, every unforced selection that finds a healthy answers a and leaves the pool as it is, and every unbound request is served by a |
| `AccountWindows.WindowEnds` | internal/modules/providers/gemini_client_pool.go:729-753 | The first selection at or after that time moves to the next healthy account after a, going round, and starts its time, or changes nothing when none is healthy |
| `AccountWindows.ServedIff` | internal/modules/providers/gemini_client_pool.go:659-716 | A request is refused exactly when there is no account or none is healthy even after the recovery; a bound conversation goes to its usable account, any other to a healthy one, which it is then bound to |
| `AccountWindows.IdleBindingsGo` | internal/modules/providers/gemini_client_pool.go:1342-1353 | Binding a conversation lets go of exactly the other bindings not used for twelve hours |
| `AccountWindows.AskedThenServed` | internal/modules/providers/gemini_client_pool.go:439-461 | Asking after an unbound conversation binds it to the first healthy account that knows it, which serves it next; a binding to an unusable account goes; nothing else changes |
| `AccountWindows.RemovedAccount` | internal/modules/providers/gemini_client_pool.go:1162-1193 | Removing an account takes its settings and its bindings along, and no others |
| `AccountPool.ReachablePool` | internal/modules/providers/gemini_client_pool.go:659-716 | In every reachable pool the active position exists, every binding has a time, and every binding names a present account |
| `AccountPool.AffinityHolds` | internal/modules/providers/gemini_client_pool.go:665-684 | Through any rotations, restores, additions and removals of others, a bound conversation used within twelve hours keeps, and is served by, its account while that is present and healthy |
| `AccountPool.RemovalShiftsActive` | internal/modules/providers/gemini_client_pool.go:1171-1185 | With unique ids, removing another account keeps the same account active exactly when the active one stands before it |
| `RefreshGuard.Guard.Begin` | internal/modules/providers/gemini_client_pool.go:604-615 | Succeeds exactly when the key is free, and is then the entering step of the guard state that the runs are made of |
| `RefreshGuard.Guard.End` | internal/modules/providers/gemini_client_pool.go:617-621 | Is the leaving step of that state: frees exactly that key |
| `RefreshGuard.SingleFlightHolds` | internal/modules/providers/gemini_client_pool.go:521-542 | Over all interleavings of pool start, manual, background and external refresh and staged-cookie validation with stored ids, at most one is inside per account and the flag is set exactly while one is |
| `RefreshGuard.SpellingIsSafeIff` | internal/modules/providers/gemini_client_pool.go:315-341 | Cookie updates that spell an account id some other way keep the guard sound exactly when the spelling is the stored id itself |
| `RefreshGuard.FinishLeaks` | internal/modules/providers/gemini_client_pool.go:328-341 | A validated cookie update under another spelling leaves its flag behind |
| `RefreshGuard.LeakIsPermanent` | internal/modules/providers/gemini_client_pool.go:328-338 | A flag left under a spelling that is no account's id stays through any run and turns down every later update with that spelling |
| `ClaudeEvents.Translator.StreamDirect` | internal/modules/claude/claude_service.go:155-295 | For every provider stream and every point at which the client stops, the events accepted are exactly that prefix of the stream's word |
| `ClaudeEvents.Translator.StreamWithToolBridge` | internal/modules/claude/claude_service.go:300-425 | Nothing is sent before the provider is done; then the accepted events are a prefix of the buffered word; nothing at all after a provider error |
| `ClaudeEvents.AcceptedEventsFollowGrammar` | internal/modules/claude/claude_service.go:155-295 | Accepted events never break the grammar: message_start, blocks 0, 1, ... each started, fed deltas of its type and stopped, message_delta, message_stop |
| `ClaudeEvents.WholeWordReads` | internal/modules/claude/claude_service.go:155-295 | With an obliging client and no provider error the word is complete, with at least one block; after an error it stops between blocks |
| `ClaudeEvents.WordKeepsText` | internal/modules/claude/claude_service.go:155-295 | Text and thinking deltas concatenate to the provider's content and thinking |
| `ClaudeBlocks.DirectWordSays` | internal/modules/claude/claude_service.go:155-295 | The direct stream repeats thinking and content piece by piece in the provider's order, in one block for each run of thinking or content, started and stopped once, with at least one block; it ends once, with end_turn and a quarter of the text's length, unless the provider failed |
| `ClaudeBlocks.BufferedWordSays` | internal/modules/claude/claude_service.go:300-425 | The buffered stream has exactly one block for each tool call, under its index, started with its id and name, its deltas concatenating to its input, or one text block with the whole text; the stop reason is tool_use exactly when there are calls, the tokens are those counted, and the grammar is obeyed |
| `ClaudeEvents.SplitResponseIntoChunks` | internal/commons/utils/utils.go:135-147 | Splitting a text into chunks at spaces is lossless |
| `ClaudeBlocks.SpacesCut` | internal/commons/utils/utils.go:135-147 | The text is cut after each space and nowhere else |
| `RequestRing.RequestLogger.LogRequest` | internal/modules/admin/request_logger.go:55-68 | A record is appended to the history the ring stands for, stamped if it has no time |
| `RequestRing.RequestLogger.GetRecent` | internal/modules/admin/request_logger.go:71-85 | Returns exactly the newest n records since Clear, newest first, or all retained ones |
| `RequestRing.RequestLogger.Clear` | internal/modules/admin/request_logger.go:93-101 | Empties the history and the array |
| `RequestRing.RequestLogger.GetStats` | internal/modules/admin/request_logger.go:104-131 | The counting loop equals the tallies of the retained records |
| `RequestRing.CountsAddUp` | internal/modules/admin/request_logger.go:104-131 | Per-account, per-model and per-status counts each sum to the total, for any records |
| `RequestRing.CountsAreExact` | internal/modules/admin/request_logger.go:104-131 | A key is counted exactly when some retained record has it |
| `RequestRing.StatsAreCounts` | internal/modules/admin/request_logger.go:104-131 | Total, successes, errors and each number by account, model and status count exactly the records they are named for |

## Left out

- Prompt wording, debug captures, trace logging, stream timings, environment switches and image generation: cosmetic. A prompt is modelled by what it is built from.
- HTTP, TLS, cookies, uploads, files on disk, the cookie worker, routing: input and output.
- JSON decoding and the private upstream payload layout: extracting text from one line, decoding a planner payload, rewriting links in arguments and classifying error messages are parameters. The assumptions are that a payload with a status comes from the text of a JSON object and, in ToolBridgeMeaning and ToolBridgeDelivery, that decoding undoes encoding and reads {} as an object without fields.
- StreamSplits.SplitsDeliverIff: its second half, SettlesToLastLine and ChunkIndependence ask of the stream at hand that a stretch of its whole lines without a line text has no whole-block text that strays from the last line text; for a stream where one does, SplitsAreCuts still says what the splits can deliver.
- GoingBack.GoingBackInTime: the numbers of turns (24, 334, 501) are those at which the tables certainly fit; beyond them GoingBackIff and ToolResultIff ask the tables. Runs in which other conversations are recorded too are covered by RollbackResumesIff alone.
- Hashes: a fingerprint is the normalized value that is hashed, so it is injective; collisions and the truncation to 32 hex digits are not modelled.
- Clocks are integer parameters, the same for all reads in one operation; idle, activity and cancellation timers become arbitrary ends of a response.
- Provider and client ids are trimmed where they enter; letter case is folded for ASCII letters only.
- Strings are sequences of characters where Go has bytes; a multi-byte character cut by a read is not modelled.
- Index maps and their timestamp maps are held together in one Table value per index, updated by assignment; nil maps do not occur.
- The tool-planner maps (toolPlannerContexts): no request path uses them any more.
- The size caps of the conversation index hold right after a prune; the inserts that follow may exceed them until the next one.
- Schema keywords the code ignores (additionalProperties with a schema, items, enum, pattern and others) and levels below the fifth: KeysAgreeIff is about declared keys at one level.
- Each operation of the index, the cache and the pool is one atomic step, as its mutex makes it; AddAccount is two. The short unlocked gaps inside HasConversationState and the recovery in clientForOptions are not interleaved. Two clients inserted under one id share their health in the model.
- Account health is an input of each pool operation; the relation between health and the displayed state is left out.
- Persisting and restoring the active account: restoring is a step that may set any existing position and window.
- Numbers in tool arguments are reals; whether 2^63 itself is an integer differs between processors and is taken as no.
- The order in which validation errors of a schema are reported follows Go's map order and is left out; acceptance does not depend on it.
- Call ids generated for tool calls, and the read-only paths ListModels, TestAccount and account listing: easy members.
- GenerateContent without streaming shares retry, failover and migration rules but may migrate after an answer was read; only its plan parsing is modelled.
- ToolBridgeReuse.SignatureIgnoresOrder: needs tools of equal name to be equal, because the sort compares names only; SignatureUniqueIff gives the exact condition.
