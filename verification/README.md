# A verified model of svpchain-lending-agent

The lending agent is a public relay. At start-up it reads a catalog of tools from a private DeFi MCP server and
freezes it; it publishes the `lendora_*` tools of that catalog, two local EVM tools and a self-description, and
advertises them on an Agent Card whose bytes are hashed on chain. Requests are dispatched to tools directly, or,
as natural language, to an agent loop that talks to a language model and calls read-only tools on its behalf.

The model follows three threads through that program.

* **The private MCP session** (`Catalog`, `Session`, `SessionRuns`, `Calls`). `Session.Client` holds the session and
  the frozen catalog; `Dialled`, `Invoke`, `Reopen`, `CallToolOnce` and `Close` are `Connect`, `Call`, `reconnect`,
  `callTool` and `Close`. The transport is an adversary that decides every dial, listing and tool call. A ghost
  trace records sessions opened and closed and tools sent, and the theorems are about the traces of whole runs:
  sessions are conserved, nothing that is not retry-safe is sent twice, the catalog never drifts, a lost session
  stays lost; and `Calls` says of every single call what it adds to the trace and what it reports.
* **Streaming and the agent loop** (`Sse`, `OpenAi`, `Anthropic`, `Chat`, `Transcript`, `Runner`, `Replies`). Bodies
  are text, split into lines and payloads as `scanSSE` does; JSON decoding is an arbitrary partial function. Tool
  calls cut into pieces and interleaved in any way are reassembled exactly, also end to end from printed text;
  retries never repeat a delta; every transcript sent obeys the tool-call protocol and survives the translation to
  the Anthropic format, its arguments included; and the loop only ever has tools sent that it offered to the model,
  whatever else happens to the shared client.
* **Registry, card and catalog agreement** (`Order`, `Registry`, `Card`, `Startup`, `Executor`, `CardText`,
  `Intents`). Go maps are walked by picking any remaining key, so everything proved holds for every order. Card and
  `list_tools` come out as functions of the catalog; what `list_tools` returns is exactly what can be dispatched.
  `CardText` says when the same can be read off the text of the card, `Intents` when intents reach published tools
  only.

Code that loops and assigns is a method proved equal to a function; the laws are lemmas about those functions. A run is
a fold of requests (`SessionRuns.Run`), since the client's mutex serializes them. Every lemma with parameters is
marked `{:induction false}`: no proof rests on Dafny's automatic induction.

Where the code differs from what one might read into it:

* `httpError` is documented to classify 429 and 5xx as retryable; in fact every status is retried that is not
  written with a leading 4, so a 304 is, and a 42 is not (`Chat.RetriedStatuses`).
* A stream that ends without its final frame is a success (`Sse.ScanSucceedsExactlyWhen`).
* In an Anthropic stream an index started again after it was used stands in `order` at least twice. If its last
  start is a tool_use, that call comes back at least twice, with the arguments that followed the last start only; a
  text block gives no call (`Anthropic.OrderDistinctExactlyWhen`, `Anthropic.RestartDuplicatesCall`).
* A session lost to a failed reconnect is never restored (`SessionRuns.SessionLostExactlyWhen`,
  `SessionRuns.NilSessionIsAbsorbing`).
* Tools are sent under trimmed names, which are the server's own names exactly when it listed them without
  surrounding white space (`Catalog.NamesVerbatimExactlyWhen`).
* The card joins tool names with ", " into one text. A reader who splits it again finds what can be called exactly
  when no published Lendora name contains ", " (`CardText.CardTellsTruthExactlyWhen`). The card, and so its hash,
  does not identify the published names: every catalog with two or more Lendora names shares its card with one that
  has a single, joined name. Only a catalog with one name that cannot be read as two is identified
  (`CardText.CardIdentifiesExactlyWhen`, `CardText.OneCardTwoCatalogs`).
* `readOnly` ignores case and `isLendoraTool` does not, so a tool called `LENDORA_GET_X` is not published, and yet a
  conversation has it sent (`Intents.IntentsReachPublishedExactlyWhen`, `Intents.UnpublishedToolIsSent`).
* `sameCatalog` does not compare descriptions (`Startup.SameCatalogIgnoresDescriptions`).

## Model

| member | source | states |
|---|---|---|
| Catalog.CatalogFaithful | internal/defimcp/client.go:104-116 | every entry of an accepted listing is found in the catalog under its trimmed name, unchanged |
| Catalog.AcceptedIsWellKeyed | internal/defimcp/client.go:105-116 | accepted catalogs are non-empty, keyed by non-empty trimmed names that name their own tools |
| Catalog.WellKeyedExactlyWhen | internal/defimcp/client.go:104-120 | the well-keyed catalogs are exactly those that some accepted listing makes up |
| Catalog.NamesVerbatimExactlyWhen | internal/defimcp/client.go:106-115 | every name that can be sent is one the server listed verbatim iff all listed names were trimmed |
| Catalog.RefusalExactly | internal/defimcp/client.go:104-120 | the error of a refused listing is that it is empty, or names what is wrong with its first bad entry: no name or no schema, or else a trimmed name that came before |
| Catalog.CheckSameCatalog | internal/defimcp/client.go:201-212 | the one-directional walk decides equality of key sets with pointwise equal schemas, in any walking order |
| Catalog.SameCatalogIsEquivalence | internal/defimcp/client.go:201-212 | sameCatalog is reflexive, symmetric and transitive |
| Session.ReadListing | internal/defimcp/client.go:104-120 | a listing is accepted iff it is non-empty, every entry has a name and a schema, and trimmed names are distinct; else the first complaint in listing order is the error, and the exit that raises it closes the session |
| Session.ConnectSession | internal/defimcp/client.go:89-122 | result and session events for every dial and listing outcome; every error exit after the dial closes the session |
| Session.Client.Dialled | internal/defimcp/client.go:73-87 | Connect: token check, catalog frozen, session set iff the listing is accepted |
| Session.Client.Tools | internal/defimcp/client.go:131-139 | the list holds each catalog tool exactly once, in an arbitrary order |
| Session.Client.Invoke | internal/defimcp/client.go:141-169 | Call performs exactly the specified step on state and trace and returns its result |
| Session.Client.Reopen | internal/defimcp/client.go:183-199 | reconnect performs exactly the specified step, including the catalog-changed exit |
| Session.Client.CallToolOnce | internal/defimcp/client.go:171-178 | callTool sends once on a live session and not at all without one |
| Session.Client.Close | internal/defimcp/client.go:246-258 | Close closes at most the current session, forgets it, and reports the transport's error |
| SessionRuns.SessionConservation | internal/defimcp/client.go:89-122 | at every moment of every run each session is opened and closed at most once, closes never exceed opens, at most one is live, and opened minus closed is 1 iff a session is held |
| SessionRuns.FailedConnectLeavesNothingOpen | internal/defimcp/client.go:99-119 | a failed start-up closes whatever it opened |
| SessionRuns.Balance | internal/defimcp/client.go:183-199 | in every orderly trace opened = closed + live, per session and in total |
| SessionRuns.NotConnectedIsNoSessionFailure | internal/defimcp/client.go:214-229 | the not-connected error matches none of the ten session-failure patterns |
| SessionRuns.NilSessionIsAbsorbing | internal/defimcp/client.go:171-174 | without a session no sequence of requests opens or sends anything, and every Call returns an error |
| SessionRuns.CloseIsFinal | internal/defimcp/client.go:246-258 | after Close, whatever came before and comes after, the trace never changes again |
| SessionRuns.SessionLostExactlyWhen | internal/defimcp/client.go:147-155 | a request costs the session iff it is Close, or a catalog Call that fails with a session failure and whose redial does not list the same catalog |
| SessionRuns.CatalogFreeze | internal/defimcp/client.go:180-199 | in every reachable state the catalog is the one read at start-up; the live session, and that of every send, listed the same catalog |
| SessionRuns.AtMostOnceSending | internal/defimcp/client.go:141-169 | two sends for one Call imply a retry-safe tool, a session failure, close, reopen and the same catalog in between, and different sessions; a third is impossible |
| SessionRuns.WritesAtMostOncePerCall | internal/defimcp/client.go:231-244 | over a whole run a tool that is not retry-safe is sent at most as often as Call was asked for it |
| SessionRuns.CallReportsLastSend | internal/defimcp/client.go:147-168 | Call returns the outcome of the last send it made, or an error when the session was lost |
| Calls.CallExactly | internal/defimcp/client.go:141-169 | one Call of a catalog tool on a live session in full: the events it adds, the session it leaves and its answer; it sends again on the new session with the same arguments iff the first send broke the session, the redial listed the same catalog and the tool is retry-safe; the answer is the text items in order with an error iff the send failed or the tool reported one, or why reconnecting failed |
| Calls.CallWithoutSend | internal/defimcp/client.go:144-146 | a Call outside the catalog or without a session changes nothing but its number and says why |
| Calls.ResendsExactlyWhen | internal/defimcp/client.go:148-155 | in every reachable state a Call sends at least once iff tool and session are there, and twice iff moreover the tool is retry-safe, the send broke the session and the redial listed the same catalog |
| Calls.SessionFailureExactlyWhen | internal/defimcp/client.go:214-229 | an error is a session failure iff in lower case it contains one of the ten texts |
| Calls.RetrySafeExactlyWhen | internal/defimcp/client.go:231-244 | a tool is retry-safe iff its trimmed lower-case name goes on from one of the seven prefixes, is whoami, or ends in _build_tx or _build_..._tx |
| Calls.ConnectExactly | internal/defimcp/client.go:73-122 | Connect in full for every token and dial: the state it starts from, or the error and what it leaves behind |
| Sse.ScanSse | internal/llm/llm_sse.go:13-34 | the scanning loop equals the line-by-line specification, for any callback, body and connection fault |
| Sse.LinesAreTheText | internal/llm/llm_sse.go:13-16 | the lines scanned are the body cut at its newlines |
| Sse.PayloadExactlyWhen | internal/llm/llm_sse.go:16-25 | a line has a payload iff it starts with data: and more than white space follows, and the payload is that, trimmed |
| Sse.PayloadWithoutSpace | internal/llm/llm_sse.go:16-25 | data:x and data: x with a carriage return both carry x |
| Sse.FitsExactlyWhen | internal/llm/llm_sse.go:13-15 | an ASCII line fits iff it is shorter than 4 MiB; no line below a mebicharacter is too long |
| Sse.ScanIsFeed | internal/llm/llm_sse.go:13-34 | every scan feeds the callback the payloads of the lines before the first that is too long until it stops, whatever the line ends and spacing; if it never stops the error is the long line's or the connection's |
| Sse.FramesRoundTrip | internal/llm/llm_sse.go:13-34 | printing trimmed one-line payloads and scanning feeds exactly those payloads in order, up to the stop |
| Sse.NoiseImmunity | internal/llm/llm_sse.go:16-25 | non-data lines, blank data lines and ignored payloads, anywhere, change nothing |
| Sse.NothingAfterStop | internal/llm/llm_sse.go:29-31 | lines after the stop, and the way the connection ends, change nothing |
| Sse.ScanSucceedsExactlyWhen | internal/llm/llm_sse.go:16-33 | a scan succeeds iff it was stopped or the body ended cleanly within the line limit |
| OpenAi.HandleShards | internal/llm/llm_openai.go:127-141 | the inner callback loop computes the shard fold |
| OpenAi.HandleData | internal/llm/llm_openai.go:106-144 | the stream callback computes the step used by the scan |
| OpenAi.ReadStream | internal/llm/llm_openai.go:98-161 | result and emitted deltas of a 2xx answer |
| OpenAi.StreamSound | internal/llm/llm_openai.go:103-141 | for every stream `order` is duplicate-free with exactly the keys of `calls`, and emitted deltas concatenate to the content |
| OpenAi.AccumulatesByIndex | internal/llm/llm_openai.go:127-141 | each accumulator depends on its own index's shards alone |
| OpenAi.OrderIsFirstSeen | internal/llm/llm_openai.go:128-133 | `order` is the indices in first-seen order, and they are the keys of `calls` |
| OpenAi.FirstSeenByPosition | internal/llm/llm_openai.go:128-133 | first-seen order holds just the indices that occur, one before another iff its first shard comes before the other's |
| OpenAi.CallsAreCut | internal/llm/llm_openai.go:127-160 | for every sequence of shards the call of an index has the last id and name its shards give and the concatenation of their arguments |
| OpenAi.ReassemblyRoundTrip | internal/llm/llm_openai.go:103-160 | any interleaving of any cuts of tool calls is rebuilt exactly, in first-seen order |
| OpenAi.StreamRoundTrip | internal/llm/llm_openai.go:98-161 | the same end to end: from printed chunks, [DONE] and any trailing bytes back to the whole message |
| OpenAi.StreamMeaning | internal/llm/llm_openai.go:98-161 | every body: success iff [DONE] came before any line that is too long or all lines fit and the connection ended cleanly, else the error those lines end with; deltas are the text of the decoded chunks up to there, and the result is that text, one call per index in first-seen order made of the last id and name given and all the arguments of its own shards, and the last model and usage given |
| OpenAi.StreamNoiseImmunity | internal/llm/llm_openai.go:106-113 | bodies that differ only in noise give the same result and deltas |
| OpenAi.UselessFramesIgnored | internal/llm/llm_openai.go:110-113 | frames that do not decode are noise |
| Anthropic.HandleData | internal/llm/llm_anthropic.go:102-140 | the stream callback computes the step used by the scan |
| Anthropic.CollectCalls | internal/llm/llm_anthropic.go:146-163 | the final loop keeps tool_use blocks in order; every index in `order` has a block |
| Anthropic.ReadStream | internal/llm/llm_anthropic.go:94-167 | result and emitted deltas of a 2xx answer |
| Anthropic.StreamSound | internal/llm/llm_anthropic.go:115-131 | for every stream each entry of `order` has a block, and emitted deltas concatenate to the content |
| Anthropic.OrderDistinctExactlyWhen | internal/llm/llm_anthropic.go:115-124 | `order` is duplicate-free iff no index is started after it was used |
| Anthropic.OrderCounts | internal/llm/llm_anthropic.go:115-124 | an index stands in `order` iff a start or delta named it, and at least twice iff it was started after use |
| Anthropic.BlockIsLastStart | internal/llm/llm_anthropic.go:115-131 | for every stream the block of a started index is its last start with the partial JSON after it |
| Anthropic.EveryStreamsMessage | internal/llm/llm_anthropic.go:98-163 | for every stream, restarts and orphan deltas included: `order` is the indices of starts and orphans' first deltas in order, and along it the message holds, for each index last started as a tool_use, the call of that start with the JSON after it |
| Anthropic.RestartDuplicatesCall | internal/llm/llm_anthropic.go:115-163 | for every stream whose index is started after use and last started as a tool_use, the call of the last start comes back at least twice, with the arguments after that start only |
| Anthropic.BlockReassembly | internal/llm/llm_anthropic.go:98-163 | if no index is started after it was used: exactly the tool_use blocks in start order, each with all its JSON or {}; deltas of indices never started give no call |
| Anthropic.StreamRoundTrip | internal/llm/llm_anthropic.go:102-163 | the same end to end: from printed events, message_stop and any trailing bytes |
| Anthropic.StreamMeaning | internal/llm/llm_anthropic.go:94-167 | every body: success iff message_stop came before any line that is too long or all lines fit and the connection ended cleanly, else the error those lines end with; deltas are the text of the decoded events up to there, and the result is that text, the calls of the last starts (without a restart exactly the calls meant), the last model and positive counts given and their total |
| Anthropic.StreamNoiseImmunity | internal/llm/llm_anthropic.go:102-106 | bodies that differ only in noise give the same result and deltas |
| Anthropic.UselessFramesIgnored | internal/llm/llm_anthropic.go:104-139 | undecodable frames and events of other types are noise |
| Chat.RetriedStatuses | internal/llm/llm_sse.go:36-44 | an HTTP failure is retried iff it is 429, at least 500, or not written with a leading 4; for three digits, iff it is 429 or not a 4xx |
| Chat.WithRetry | internal/llm/llm_retry.go:33-62 | the retry loop equals its specification for every limit n; its trailing return is unreachable |
| Chat.RetryBound | internal/llm/llm_retry.go:33-62 | at most n+1 attempts, all but the last failed retryably and emitted nothing, none after the context is done, back-off base*(2^k - 1), outcome of the last attempt or the context |
| Chat.RoundExactly | internal/llm/llm.go:103-119 | a round in full over what the network does: without a key it fails at once; attempts are made exactly on the turns reached, at most three; each delivers the deltas of a 2xx body and nothing else; another one follows iff the failure is transient (a status not written with a leading 4 or 429, or an error not reading like one, with nothing emitted) and the context allows; it waits 1 s and 2 s; it succeeds iff the last answer is 2xx with a body that ends well, with what that body means |
| Chat.ChatOnce | internal/llm/llm.go:103-119 | Client.Chat: key check, retries around the adapter, model name filled in |
| Chat.ExactlyOnceStreaming | internal/llm/llm_retry.go:30-62 | on success the deltas delivered over all attempts concatenate to the content; on failure only the last attempt delivered any; at most three attempts |
| Chat.RoundIsRegular | internal/llm/llm_openai.go:149-161 | a successful round is an assistant message with content and function calls only |
| Transcript.ToAnthropicMessages | internal/llm/llm_anthropic.go:173-214 | the translation loop equals its specification; system texts are joined by blank lines |
| Transcript.ToolUses | internal/llm/llm_anthropic.go:188-208 | the content list of one assistant message: text first if any, then one tool_use per call |
| Transcript.TranslateExactly | internal/llm/llm_anthropic.go:173-214 | every list, of whatever messages: each message that is no system message keeps its place and becomes what its role says, an assistant message its text block if not empty and one tool_use per call with the decoded arguments or an empty object |
| Transcript.TranslateKeepsOrder | internal/llm/llm_anthropic.go:173-214 | on every protocol transcript the system text is hoisted and every other message keeps its place |
| Transcript.TranslatePairsResults | internal/llm/llm_anthropic.go:179-208 | tool-use ids and result ids correspond one to one, results right after their uses, and no assistant content list is empty |
| Transcript.TranslateInvertible | internal/llm/llm_anthropic.go:173-214 | the conversation comes back from its translation up to the tool name on answers and the writing of arguments, which decode to what was sent for them |
| Transcript.ArgumentsSurviveExactlyWhen | internal/llm/llm_anthropic.go:188-199 | the arguments of a call mean the same after the way there and back iff they decode to something other than null; otherwise they become an empty object |
| Runner.AgentRunner.constructor | internal/agentrunner/runner.go:21-29 | exactly the read-only tools of the catalog are offered |
| Runner.AgentRunner.ReadOnlyTools | internal/agentrunner/runner.go:22-27 | the filter loop of New keeps all and only read-only tools |
| Runner.AgentRunner.Run | internal/agentrunner/runner.go:31-64 | the loop performs exactly the specified conversation on the shared client |
| Runner.AgentRunner.AnswerRound | internal/agentrunner/runner.go:48-61 | the inner loop answers the calls of one round in order, or ends with an error |
| Runner.TranscriptProtocol | internal/agentrunner/runner.go:35-63 | every list sent is system, user, and blocks of k>0 calls with their k answers in order; at most 8 rounds and 24 requests |
| Runner.ConversationOnlyGrows | internal/agentrunner/runner.go:36-46 | each list sent properly extends the one before, and the answer is the text of the last message, which has no tool calls |
| Runner.EveryArgumentDecodes | internal/agentrunner/runner.go:52-55 | every tool call in every list sent has arguments the runner could decode |
| Runner.EveryRequestTranslates | internal/llm/llm_anthropic.go:56-66 | every list the loop can send translates with paired results and nothing empty, and comes back with every call's arguments decoded by the runner to the same object |
| Replies.ModelSeesWhatToolsSaid | internal/agentrunner/runner.go:48-61 | in every run the tool messages of every list sent are, one for each call asked for and in order, what Call returned for that call with its decoded arguments: over the trace, the text items of the last send's answer, or error: and the trimmed text, the failure, or why nothing was sent |
| Replies.ConversationExactly | internal/agentrunner/runner.go:31-64 | every conversation in full: the opening, each next list as the one before with the reply and its answers, and the result, which is the trimmed text of the last reply, (no response) iff that is blank, or the error of the chat, of the first call refused, or of the eighth round that still asks for tools |
| Runner.ReadOnlyContainment | internal/agentrunner/runner.go:48-56 | every tool the runner has sent, in any run with any replies, reconnects and other traffic, is one it offered |
| Runner.ReadOnlyExactlyWhen | internal/agentrunner/runner.go:66-69 | a tool is read-only iff its trimmed lower-case name goes on from lendora_get_ or is lendora_assess_risk |
| Runner.ReadOnlyIsRetrySafeExceptRisk | internal/agentrunner/runner.go:66-69 | of the read-only tools only lendora_assess_risk is not resent after a session failure |
| Order.AscendingIsUnique | internal/toolbridge/adapter.go:102 | two sorted lists of the same names are equal |
| Order.SortNames | internal/toolbridge/adapter.go:112-114 | sorting distinct names gives a list that depends on their set alone |
| Registry.Registry.AddProxy | internal/toolbridge/adapter.go:64-81 | adds the tool, or reports a duplicate and changes nothing |
| Registry.Registry.Add | internal/toolbridge/adapter.go:83-89 | adds the tool, or reports a duplicate and changes nothing |
| Registry.Registry.RegisterMeta | internal/toolbridge/meta.go:24-43 | panics iff list_tools is taken |
| Registry.Registry.List | internal/toolbridge/adapter.go:97-104 | the operations by ascending name, whatever order the map is walked in |
| Registry.Registry.BySkill | internal/toolbridge/adapter.go:107-116 | the sorted groups, whatever order the map is walked in |
| Registry.Registry.ListTools | internal/toolbridge/meta.go:25-39 | the descriptors a filter selects, by ascending name |
| Registry.ListToolsHas | internal/toolbridge/meta.go:32-38 | a descriptor is listed iff its operation is registered with that skill and schema and passes the filter |
| Registry.ListToolsAscending | internal/toolbridge/meta.go:32-38 | the answer is in strictly ascending order of tool names, whatever the filter |
| Registry.GroupHas | internal/toolbridge/adapter.go:107-116 | a tool is in a skill's group iff it is registered under that skill |
| Registry.GroupsPartition | internal/toolbridge/adapter.go:107-116 | groups are sorted and non-empty, and their sizes add up to the number of operations |
| Card.BuildAgentCardFor | internal/a2aserver/card.go:53-94 | the card is a function of identity, URL and sorted groups |
| Card.EntryIff | internal/a2aserver/card.go:59-76 | a skill is on the card iff it is in the skill table and has a tool |
| Startup.BuildProxy | internal/wire/proxy.go:26-39 | registers the two local tools without error |
| Startup.RegisterCatalog | cmd/svpchain-lending-agent/main.go:61-77 | fails iff the catalog has no Lendora tool, never with a duplicate and never with the panic of RegisterMeta, and ends with the same registry in any order |
| Startup.StartupIsTotal | cmd/svpchain-lending-agent/main.go:62-77 | the operations registered are exactly the Lendora names and the agent's own three, each with its skill, schema and target |
| Startup.PublicToolsExactly | internal/toolbridge/meta.go:32-38 | list_tools answers exactly with the two local tools and their schemas, itself, and each Lendora tool with its catalog schema, as filtered |
| Startup.Start | cmd/svpchain-lending-agent/main.go:51-77 | from listing to card and first list_tools answer, both functions of the catalog though every map is walked arbitrarily |
| Startup.CardDetermined | internal/a2aserver/card.go:59-76 | the card spelled out: three skills in table order with their sorted tools |
| Startup.GroupsDependOnNames | internal/toolbridge/adapter.go:107-116 | groups depend on the catalog only through its Lendora names |
| Startup.SameCatalogSameFace | internal/defimcp/client.go:180-212 | catalogs sameCatalog accepts give equal dispatch tables, cards and list_tools answers |
| Startup.ListToolsTellsCatalogsApart | internal/toolbridge/meta.go:33-38 | two catalogs give the same list_tools answer iff sameCatalog accepts their published parts |
| Startup.SameCatalogIgnoresDescriptions | internal/defimcp/client.go:205-210 | changing a description is not noticed |
| Executor.HandleRequest | internal/a2aserver/executor.go:63-87 | the checks of handle in order; an intent goes before a named tool |
| Executor.HandleExactly | internal/a2aserver/executor.go:63-87 | every request, decoded or not: the intent runner gets it iff there is one and the request did not decode, raw, or carries an intent, trimmed; an operation is called iff it decoded without intent and names a callable one; otherwise it is refused with the first thing amiss |
| Executor.DispatchIff | internal/a2aserver/executor.go:63-87 | over any registry a request calls an operation iff its intent is blank and it names an operation and that operation's skill, and then it calls that one |
| Executor.DispatchRunsWhatIsNamed | internal/wire/proxy.go:26-39 | after every start-up a dispatched request runs what it names: a private tool iff it is a Lendora name of the catalog, the broadcast, the status lookup and the self-description iff it is their own name |
| Executor.AdvertisedIsDispatched | internal/a2aserver/executor.go:78-87 | every request, with or without a runner: it is dispatched iff it carries no intent and the group of its skill has its tool, iff list_tools returns it, filtered or not |
| Executor.CallableSkillIsOnCard | internal/a2aserver/card.go:51-63 | a skill has an entry on the card iff some tool can be called under it |
| Executor.DispatchedToolIsInCatalog | internal/a2aserver/executor.go:81-88 | in every reachable client state a dispatched Lendora tool passes Call's catalog check and, with a session, is sent |
| CardText.SplitUndoesJoinExactlyWhen | internal/a2aserver/card.go:69 | a list of names comes back from the joined text iff none of them contains the separator |
| CardText.CardInFull | internal/a2aserver/card.go:53-94 | the card of every start-up in full: identity, URL, and the three skills with names, tags and descriptions listing their sorted tools |
| CardText.CardTellsTruthExactlyWhen | internal/a2aserver/card.go:51-76 | the tools read off the card under each skill are exactly the callable ones iff no published Lendora name contains the separator |
| CardText.EqualCardsExactlyWhen | internal/a2aserver/card.go:59-76 | two start-ups serve the same card iff their sorted Lendora names join to the same text |
| CardText.CardIdentifiesExactlyWhen | cmd/svpchain-lending-agent/card.go:15-18 | every catalog that start-up accepts with the same card has the same Lendora names iff the catalog publishes a single one that cannot be read as two Lendora names in order around a separator |
| CardText.EqualCardsEqualNames | cmd/svpchain-lending-agent/card.go:15-18 | equal Lendora names always give equal cards; equal cards give equal names if no name of either catalog contains the separator |
| CardText.JoinedNamesShareCard | internal/a2aserver/card.go:69 | a catalog of two names and one of their joined name serve the same card, though the first name can be called with the first catalog only |
| CardText.OneCardTwoCatalogs | internal/a2aserver/card.go:69 | the failing case: two concrete catalogs with different tools under one card |
| Intents.OffersPublishedExactlyWhen | internal/agentrunner/runner.go:21-29 | every tool offered to the model is published iff every read-only name of the catalog literally starts with lendora_ |
| Intents.IntentCanSend | internal/agentrunner/runner.go:31-61 | from every state with a session, any reply that decodes to one call of a read-only catalog tool with decodable arguments has that tool sent |
| Intents.IntentsReachPublishedExactlyWhen | internal/agentrunner/runner.go:48-56 | over all runs, worlds, configurations and intents everything the runner has sent is a published operation, iff every read-only name literally starts with lendora_ |
| Intents.UnpublishedToolIsSent | internal/agentrunner/runner.go:66-69 | the failing input from listing to send: lendora_get_y is published, LENDORA_GET_X is not and is sent |

## Left out

- HTTP, sockets, signals, timeouts and the MCP, A2A and Ethereum libraries: they appear only as outcomes chosen by an adversary; `Broadcast` and `TxStatus` are opaque local targets.
- JSON: decoding is an arbitrary partial function and decoded values a datatype; the handlers' own argument decoding in `AddProxy`, `adaptNative` and `list_tools`, and the response encoding in `handle` and `structuredResult`, are not modelled.
- Headers, caller context, endpoint, latency, `Config.normalized` and configuration loading: they do not affect the modelled state.
- Texts without behaviour: the wording of the system prompt and of the published identity are parameters, so what is proved holds for any; the card's fixed fields other than name, description, version, URL and skills are omitted.
- `truncate` and the escapes of `%q` in error texts: error texts are otherwise those of the code.
- Sse.ScanSse: the scanner may also accept a final line of exactly 4 MiB without a newline, depending on how the transport delivers the end of the body; the model always reports it as too long.
- Text.ToLower: exact for comparisons with ASCII patterns only, which are all the code makes; invalid UTF-8 is not modelled.
- Chat.WithRetry: back-off is an unbounded number, so the overflow of a time.Duration for limits far above 2 is not modelled.
- OpenAi.HandleData: the callback is threaded through `ScanSse` as the function it is proved equal to, because a method cannot be passed; the same holds for Anthropic.HandleData.
- Order.SortNames: `sort.Slice` and `sort.Strings` are library code; the model sorts by insertion and only the result matters.
- Usage.Add and toAnthropicTools: easy members that would add nothing.
