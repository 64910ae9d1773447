# Verification of the customer-service backend

A Dafny model of the backend's conversation store, message log, request limiter and realtime hub, with
proofs about whole runs. `dafny verify dfyconfig.toml` checks everything.

## What is modelled

**Conversation dispatch.** `MemoryStore.dfy` is the in-memory store as a class whose methods update its
tables in place. Every method is proved equal to a step of the value-level specification in
`StoreState.dfy`. `StoreRuns.dfy` lets the environment choose any sequence of steps, their arguments, clock
readings, fresh ids and map orders. On those runs `Ownership.dfy`, `Accounting.dfy`, `Capacity.dfy`,
`Handover.dfy` and `Pickup.dfy` prove who owns what, how cached loads relate to the conversation table, and
what releasing and picking up work does. `Outcomes.dfy` tells for every operation what it accepts and does,
`Reports.dfy` what a status change reports, `Refusals.dfy` what refused operations leave behind, and
`Counterexamples.dfy` has concrete runs.

**Message log.** `Local.dfy` shows that each step acts on each conversation as a single event.
`LogHistory.dfy`, `Idempotence.dfy`, `Unread.dfy` and `Timers.dfy` prove the log's history, retried sends,
unread counters and no-reply timers on those events. `Paging.dfy` and `SqlPaging.dfy` relate the slice-based
page and the keyset query, and `Selection.dfy` and `Pickup.dfy` relate the other loops to their SQL forms.

**Application service.** `Service.dfy` is the service class with its pending timers and AI requests, and
`DelayedReplies.dfy` proves properties of runs in which these go on at any later time. `Delivery.dfy` follows
its notices through the hubs and the bus to the clients of every node.

**Request limiter.** `RateLimiter.dfy` has the limiter class and its trace properties, `SweepCondition.dfy`
and `DenialCondition.dfy` the exact condition under which its sweep and its denials cannot be observed.

**Realtime hub and bus.** `Hub.dfy` and `SendQueue.dfy` have the hub, its clients and their queues, `Bus.dfy`
one node's end of the bus, and `Cluster.dfy` any number of nodes joined by it.

## What the code does not guarantee

Where an expected property is false of the code, the model keeps the code, a lemma states exactly when the
property holds, and another one shows an input on which it fails.

- A second close decrements the load again: `Accounting.StepKeepsExactIff`, `Accounting.TwoClosesLoseCount`.
- Edits and named transfers can overload an agent or leave work with an offline one: `Capacity.StepKeepsIff`,
  `Counterexamples.NamedTransferOverloads`, `Counterexamples.EditStrandsWork`.
- A blank agent id would pass the owner check of an unowned conversation:
  `Ownership.AgentMessageKeepsCoupledIff`, `Counterexamples.BlankAgentIsAssigned`. Sessions carry ids, so runs
  assume a non-empty one.
- A recognised retry by an agent leaves an AI-served conversation AI-served: `Ownership.AgentMessageAssigns`,
  `Counterexamples.RetryLeavesAIServing`.
- Padded client ids are searched trimmed but stored padded, so their retries are stored again; the SQL store
  trims both: `Idempotence.VisitorRetryIff`, `Idempotence.AgentRetryIff`, `Idempotence.SqlRetryIff`,
  `Counterexamples.PaddedIdIsStoredTwice`.
- An unknown cursor yields the newest page in memory and an empty one in SQL: `SqlPaging.KeysetPageMatchesIff`,
  `Counterexamples.UnknownCursorDiffers`.
- Conversations created at the same time may be picked up differently by the two stores:
  `Pickup.FormsAgreeIff`, `Counterexamples.TieMakesADifference`.
- A limiter whose burst takes more than ten minutes to refill forgets debts, lets keys exceed the window bound
  and lets denied polls count: `SweepCondition.SweepInvisibleIff`, `SweepCondition.WindowBoundIff`,
  `DenialCondition.DenialsInvisibleIff`, each with a trace for every such limiter.
- A refused status in an agent edit leaves the other changes of that edit in place; no other refusal changes
  anything: `Refusals.RefusedChangesNothingIff`, `Counterexamples.RefusedEditRenames`.

## Assumptions

Each store method runs under one lock and reads the clock once. Timer results need a strictly increasing
clock. Random ids are fresh. Node ids are distinct and not empty, and a hub and its bus share theirs. The
verdicts of text matching, business hours and URL checks, and the AI's reply text, are arguments.

## Model

| member | source | states |
|---|---|---|
| `RateLimiting.RateLimiter.constructor` | backend/internal/httpx/router.go:1224-1236 | non-positive settings fall back to 20 requests a second and the smallest whole burst covering three seconds; every limiter has a positive rate and a burst of at least one |
| `RateLimiting.RateLimiter.Allow` | backend/internal/httpx/router.go:1238-1263 | verdict and whole new table of one request, including which idle buckets the in-place sweep loop deletes and that new keys and denials return before it |
| `RateLimiting.SoloBounds` | backend/internal/httpx/router.go:1247-1253 | on every time-monotone trace tokens stay within [0, burst] |
| `RateLimiting.SharedMatchesSolo` | backend/internal/httpx/router.go:1242-1261 | every stored bucket equals the bucket its key would have alone; a missing one is unused or longer idle than the sweep limit |
| `RateLimiting.EvictionInvisible` | backend/internal/httpx/router.go:1238-1263 | when rate * 600 >= burst, the shared swept table answers every time-monotone trace as independent never-swept buckets do: keys cannot influence each other |
| `SweepCondition.SweepInvisibleIff` | backend/internal/httpx/router.go:1254-1261 | the sweep is unobservable over all traces if and only if rate * 600 >= burst |
| `SweepCondition.SweepObserved` | backend/internal/httpx/router.go:1254-1261 | for every other setting a concrete monotone trace on which the swept limiter allows what the key's own bucket would deny |
| `RateLimiting.DeniedRequestsAreInvisible` | backend/internal/httpx/router.go:1248-1252 | when rate * 600 >= burst, erasing all denied requests from a trace changes no later verdict: polling while limited never delays the next allowance |
| `DenialCondition.DenialsInvisibleIff` | backend/internal/httpx/router.go:1248-1261 | erasing denied requests changes no verdict of any trace if and only if rate * 600 >= burst |
| `DenialCondition.DenialObserved` | backend/internal/httpx/router.go:1248-1261 | for every other setting a trace on which a denied poll keeps the key's bucket from being swept, so that a later request is denied which would be allowed without the poll |
| `RateLimiting.ErasedTraceIsAllAllowed` | backend/internal/httpx/router.go:1248-1252 | when rate * 600 >= burst, every request of the erased trace is allowed, so erasure is idempotent |
| `RateLimiting.GapEarnsAllowance` | backend/internal/httpx/router.go:1247-1253 | for every rate and burst, 1/rate seconds after a key's last allowed request the next one is allowed, however often the key was denied between and whatever was swept |
| `RateLimiting.StoredSinceAllowed` | backend/internal/httpx/router.go:1242-1261 | every stored bucket has refilled at least since some allowed request of its key |
| `RateLimiting.WindowBound` | backend/internal/httpx/router.go:1224-1263 | when rate * 600 >= burst, in any window of any trace a key is allowed at most burst + rate * (window length) times |
| `SweepCondition.WindowBoundIff` | backend/internal/httpx/router.go:1224-1263 | that bound holds in all windows of all traces if and only if rate * 600 >= burst |
| `SweepCondition.WindowOverdrawn` | backend/internal/httpx/router.go:1254-1261 | for every other setting a window in which a key is allowed twice the burst although the bound is smaller |
| `Paging.PageMessages` | backend/internal/store/memory.go:1516-1547 | the cursor search loop and clamping compute the page that ends before the cursor (or at the end of the log), its size limit, and the cursor it hands out |
| `Paging.PageHoldsTheLast` | backend/internal/store/memory.go:1516-1547 | a page holds the last messages before the cursor, as many as asked for, or fifty when the request is not between 1 and 100; more is announced exactly when there are more, under the id of the page's oldest message |
| `Paging.CursorKeepsItsPlace` | backend/internal/store/memory.go:1522-1531 | a cursor handed out by one request denotes the same position in every later log |
| `Paging.FollowYieldsPrefix` | backend/internal/store/memory.go:1516-1547 | following cursors from any request terminates and yields, once each and in order, everything before its cursor |
| `Paging.PagesRebuildTheLog` | backend/internal/store/memory.go:1516-1547 | from the empty cursor the joined pages are the log of the first request, whatever is appended or revoked between requests and whatever limits are asked for |
| `LogHistory.PagesOfARunRebuildTheLog` | backend/internal/store/memory.go:652-657 | requests at successive moments of any run of the store that keeps the conversation rebuild the log of the first request |
| `SqlPaging.PageFromRows` | backend/internal/store/postgres.go:460-473 | the page built from the limit+1 fetched rows |
| `SqlPaging.QueryFetchesOneMore` | backend/internal/store/postgres.go:434-455 | the query returns as many rows as there are, up to one more than the page size |
| `SqlPaging.PageDropsTheExtraRow` | backend/internal/store/postgres.go:465-472 | the page is the rows without the extra oldest one, which only announces more |
| `SqlPaging.NewestUnique` | backend/internal/store/postgres.go:451-452 | ORDER BY DESC LIMIT k selects exactly one set of rows |
| `SqlPaging.AscendingUnique` | backend/internal/store/postgres.go:454 | an ascending order of a set of rows is unique |
| `SqlPaging.SuffixIsQueryResult` | backend/internal/store/postgres.go:437-455 | the query has a result: the last limit+1 messages before the cursor |
| `SqlPaging.KeysetPageMatches` | backend/internal/store/postgres.go:430-474 | for an empty or stored cursor every possible query result yields the messages, HasMore and NextBefore of the slice-based page |
| `SqlPaging.KeysetPageMatchesIff` | backend/internal/store/postgres.go:430-474 | the two stores return the same page if and only if the cursor is empty or stored, or the log is empty |
| `SendQueue.QueueInvariant` | backend/internal/realtime/hub.go:298-328 | over every interleaving of sends, disconnects, closes and takes: the channel closes at most once, at most 64 events are pending, and what was enqueued is an order-preserving selection of what was offered |
| `SendQueue.FittingOffersArrive` | backend/internal/realtime/hub.go:298-313 | while every offer finds the queue open and with fewer than 64 pending, what was taken and what is pending are all the offers, in order |
| `SendQueue.SixtyFourArrive` | backend/internal/realtime/hub.go:298-313 | a queue that is not closed and is offered at most 64 events loses none, and stays open |
| `SendQueue.NothingAfterClose` | backend/internal/realtime/hub.go:303-306 | once closed, always closed, and nothing more is enqueued |
| `Realtime.Client.Send` | backend/internal/realtime/hub.go:298-313 | enqueues unless closed or full; never sends on a closed channel |
| `Realtime.Client.CloseSend` | backend/internal/realtime/hub.go:320-328 | closes once; never closes a closed channel |
| `Realtime.Client.Disconnect` | backend/internal/realtime/hub.go:315-318 | a last event, then closed |
| `Realtime.Hub.constructor` | backend/internal/realtime/hub.go:81-92 | a hub starts with no client and no publisher |
| `Realtime.Hub.Register` | backend/internal/realtime/hub.go:127-145 | the client is filed under its own role and key and the registry stays well filed |
| `Realtime.Hub.Unregister` | backend/internal/realtime/hub.go:147-166 | the client leaves its bucket, an emptied bucket is dropped, and its queue is closed whether or not it was registered |
| `Realtime.RegistryHoldsTheLive` | backend/internal/realtime/hub.go:127-166 | over every interleaving of joins and leaves (repeated ones too) the registry holds exactly the clients that joined and did not leave, with no empty bucket |
| `Realtime.Hub.Stats` | backend/internal/realtime/hub.go:100-112 | the totals are the numbers of registered clients of each role, none counted twice |
| `Realtime.Hub.SendToVisitor` | backend/internal/realtime/hub.go:168-171 | every addressed local client is offered the event once, nobody else changes, and one wire event with this node's id is published |
| `Realtime.Hub.SendToAgent` | backend/internal/realtime/hub.go:173-176 | likewise for an agent |
| `Realtime.Hub.BroadcastAdmins` | backend/internal/realtime/hub.go:190-193 | likewise for all admins |
| `Realtime.Hub.DisconnectAgent` | backend/internal/realtime/hub.go:178-182 | every connection of the agent is offered the revocation and then closed, and the revocation is published |
| `Realtime.Hub.DisconnectAdmin` | backend/internal/realtime/hub.go:184-188 | likewise for the one admin, leaving other admins alone |
| `Realtime.Hub.Deliver` | backend/internal/realtime/hub.go:195-216 | own echoes and non-revocation events to a single admin reach nobody; other events reach exactly the addressed clients; nothing is published again |
| `Cluster.RecipientsAreAddressed` | backend/internal/realtime/hub.go:218-283 | a hub finds exactly the registered clients whose own role and key match the address |
| `Cluster.OfferedExactlyOnce` | backend/internal/realtime/hub.go:195-216 | across any number of nodes and any interleaving, a client that stays connected to one node and is addressed has been offered a broadcast exactly once when its copies are off the bus |
| `Cluster.OfferedOnlyToTheAddressed` | backend/internal/realtime/hub.go:195-216 | a client that a broadcast does not address is never offered it |
| `Cluster.ConsumingDrains` | backend/internal/realtime/redis_bus.go:94-113 | without new broadcasts each delivery takes one copy off the bus and adds none |
| `Cluster.DrainExists` | backend/internal/realtime/redis_bus.go:94-113 | the bus can always be drained, in exactly as many steps as it holds copies and with nobody joining or leaving |
| `Cluster.BroadcastCanComplete` | backend/internal/realtime/redis_bus.go:94-113 | from every valid cluster some schedule of deliveries empties the bus, and an addressed client that is connected has then been offered the broadcast exactly once |
| `Bus.RedisBus.Publish` | backend/internal/realtime/redis_bus.go:63-79 | an event without a node id is stamped with the bus's own, and a refused one is dropped |
| `Bus.RedisBus.Consume` | backend/internal/realtime/redis_bus.go:94-113 | after the receive loop every client of the hub has heard the arrivals that reach it, in order; unreadable payloads are skipped and nothing is published |
| `Bus.ArrivalsAreHeard` | backend/internal/realtime/redis_bus.go:94-113 | an open queue with room hears every event that reaches its client, in order, as long as no revocation does |
| `Bus.OwnEchoesAreSilent` | backend/internal/realtime/hub.go:195-198 | erasing a node's own echoes from what arrives changes no client's queue |
| `Bus.RevocationClosesForGood` | backend/internal/realtime/hub.go:202-212 | a revocation from the bus closes every addressed queue and whatever arrives later leaves it as it is |
| `Selection.SelectLeastLoaded` | backend/internal/store/memory.go:1308-1322 | the selection loop, in any map order, returns the unique minimum by (load, id) among eligible agents, or none exactly when nobody is eligible |
| `Selection.LeastUnique` | backend/internal/store/memory.go:1339-1357 | an eligible agent ahead of all others is the answer of every visiting order |
| `Selection.FirstRowIsLeastLoaded` | backend/internal/store/postgres.go:1756-1765 | ORDER BY load, id LIMIT 1 picks the same agent, or none in the same cases |
| `MemoryStores.MemoryStore.constructor` | backend/internal/store/memory.go:61-134 | the initial state: one offline seed agent with room for ten and the default AI mode |
| `MemoryStores.MemoryStore.AssignConversation` | backend/internal/store/memory.go:1302-1327 | the conversation goes to the least-loaded agent with room, whose load rises by one; in always_ai mode to the AI; otherwise nothing changes |
| `MemoryStores.MemoryStore.SelectTransferTarget` | backend/internal/store/memory.go:1329-1358 | a named target only has to exist and not be disabled; otherwise the least-loaded eligible agent of the group |
| `MemoryStores.MemoryStore.CreateMessage` | backend/internal/store/memory.go:1360-1373 | the message is appended to its conversation's log with its client id as it came |
| `MemoryStores.MemoryStore.FindMessageByClientId` | backend/internal/store/memory.go:1375-1386 | the search loop returns the first message of that sender with the trimmed id, and none for a blank one |
| `MemoryStores.MemoryStore.FindMessageIndex` | backend/internal/store/memory.go:1388-1399 | the position of the message with that server id, or -1 |
| `MemoryStores.MemoryStore.TouchConversation` | backend/internal/store/memory.go:1401-1412 | last-message time and unread counters after a visitor's or a service-side message |
| `MemoryStores.MemoryStore.TouchConversationRevoke` | backend/internal/store/memory.go:1414-1422 | the visitor's counter drops for an agent message, guarded at zero |
| `MemoryStores.MemoryStore.GenerateAutoReplies` | backend/internal/store/memory.go:1424-1477 | hand-off, keyword reply, silence or AI hand-over, with the status and messages of each branch |
| `MemoryStores.MemoryStore.SortedConversations` | backend/internal/store/memory.go:1479-1488 | every stored conversation once, older ones first |
| `MemoryStores.MemoryStore.ReleaseConversations` | backend/internal/store/memory.go:520-531 | the release loop over the map, for whatever order it is visited in, with the list of handed-over conversations |
| `MemoryStores.MemoryStore.PickUpConversations` | backend/internal/store/memory.go:296-313 | the pick-up loop over the sorted conversations, stopping when the agent is full |
| `MemoryStores.MemoryStore.SetAgentStatus` | backend/internal/store/memory.go:260-316 | refusals, the status change and its release or pick-up loop, as one step |
| `MemoryStores.MemoryStore.CreateAgent` | backend/internal/store/memory.go:364-404 | a new agent is offline with no load; limits and defaults of name, group and maximum |
| `MemoryStores.MemoryStore.UpdateAgent` | backend/internal/store/memory.go:406-442 | in-place edits; a refused status leaves the other changes made |
| `MemoryStores.MemoryStore.DisableAgent` | backend/internal/store/memory.go:506-533 | disabled, offline, load zero and work released |
| `MemoryStores.MemoryStore.DeleteAgent` | backend/internal/store/memory.go:535-579 | work released, closed conversations disowned and the agent removed |
| `MemoryStores.MemoryStore.CreateVisitorConversation` | backend/internal/store/memory.go:189-258 | dispatch of a new conversation and its entry reply |
| `MemoryStores.MemoryStore.MarkConversationRead` | backend/internal/store/memory.go:659-675 | who may mark read, and the counter cleared |
| `MemoryStores.MemoryStore.AddVisitorMessage` | backend/internal/store/memory.go:712-738 | refusals in the order of the code, the retry path, and the stored message with its automatic replies |
| `MemoryStores.MemoryStore.AddAIMessage` | backend/internal/store/memory.go:740-755 | an AI reply reopens AI service and clears the agent's counter; closed conversations refuse it |
| `MemoryStores.MemoryStore.AddAgentMessage` | backend/internal/store/memory.go:757-787 | only the owner may send; retries change nothing; AI-served or requested conversations become assigned |
| `MemoryStores.MemoryStore.RevokeMessage` | backend/internal/store/memory.go:789-825 | who may revoke what; a second revocation changes nothing |
| `MemoryStores.MemoryStore.EscalateNoReplyToAI` | backend/internal/store/memory.go:827-848 | the four guards of the timer and the one field it changes |
| `MemoryStores.MemoryStore.CloseConversation` | backend/internal/store/memory.go:850-874 | closing with a guarded decrement and no check for an earlier close |
| `MemoryStores.MemoryStore.DeleteConversation` | backend/internal/store/memory.go:876-897 | only closed conversations are removed, with their log |
| `MemoryStores.MemoryStore.TransferConversation` | backend/internal/store/memory.go:899-936 | loads move from the old owner to the target; a transfer to the owner only leaves a note |
| `Ownership.RunsKeepCoupled` | backend/internal/store/memory.go:189-316 | in every reachable state queued conversations have no owner, assigned ones have one, owners are agents on record, and a disabled agent is never online and owns no open conversation |
| `Ownership.StepKeepsCoupled` | backend/internal/store/memory.go:506-579 | each single step keeps this, for every argument and map order |
| `Ownership.ReleaseKeepsCoupled` | backend/internal/store/memory.go:549-562 | after the release loop, in whatever order, the agent owns no open conversation, and none at all on deletion |
| `Ownership.InitialIsCoupled` | backend/internal/store/memory.go:112-126 | it holds at the start |
| `Ownership.AgentMessageKeepsCoupledIff` | backend/internal/store/memory.go:757-787 | an agent message keeps the coupling if and only if it does not store a message of a blank agent id in an unowned conversation that is not merely waiting |
| `Ownership.AgentMessageAssigns` | backend/internal/store/memory.go:757-787 | an accepted agent message leaves its conversation assigned if and only if it was assigned or the message was stored; a recognised retry leaves an AI-served conversation as it is |
| `Accounting.RunsKeepAccounts` | backend/internal/store/memory.go:260-316 | over every run each cached load stays between zero and the number of open conversations owned; over every run without an accepted close of a closed conversation whose owner still has load the two are equal |
| `Accounting.StepKeepsAccounts` | backend/internal/store/memory.go:850-936 | each single step keeps the bound |
| `Accounting.StepKeepsExactIff` | backend/internal/store/memory.go:850-936 | from exact loads a step keeps them exact if and only if it is not such a close |
| `Accounting.CloseKeepsExactIff` | backend/internal/store/memory.go:850-874 | a close keeps exact loads exact if and only if it is not an accepted close of a closed conversation whose owner still has load |
| `Accounting.CloseKeepsBound` | backend/internal/store/memory.go:865-869 | no close lets a cached load exceed the real one |
| `Accounting.TransferKeepsAccounts` | backend/internal/store/memory.go:899-936 | a transfer keeps both tallies of old owner and target right |
| `Accounting.TotalIsOwnedOpen` | backend/internal/store/memory.go:1302-1327 | the loads add up to the number of open conversations that have an owner |
| `Accounting.TwoClosesLoseCount` | backend/internal/store/memory.go:865-869 | a run from the initial state in which a second close leaves a load of zero beside an open conversation |
| `Accounting.InitialAccounts` | backend/internal/store/memory.go:112-126 | the loads are exact at the start |
| `Handover.ReleaseHandsOver` | backend/internal/store/memory.go:278-295 | the release loop in any order: each open conversation of the agent settles elsewhere, other loads rise by exactly what was received and receivers are online within their maximum, and outside always_ai one is left unowned only if nobody has room at the end |
| `Handover.OfflineVacates` | backend/internal/store/memory.go:278-295 | going offline does all this, measured from the state before the call |
| `Handover.DisableVacates` | backend/internal/store/memory.go:506-533 | so does disabling |
| `Handover.DeleteVacates` | backend/internal/store/memory.go:535-579 | so does deleting, and closed conversations lose their owner too |
| `Handover.VacatedHoldsNothing` | backend/internal/store/memory.go:278-295 | the agent ends owning no open conversation |
| `Reports.OfflineReports` | backend/internal/store/memory.go:282-294 | going offline reports every open conversation the agent had, once each and in the order of the handover, as it is after the whole operation; their number is the agent's real load |
| `Reports.OnlineReports` | backend/internal/store/memory.go:297-312 | coming online reports exactly the conversations taken over, older ones first, as they are afterwards |
| `Capacity.StepKeepsIff` | backend/internal/store/memory.go:406-442 | a step keeps every load within the maximum if and only if it neither lowers a maximum below the load nor names a full transfer target; it keeps offline agents idle if and only if it neither edits a working agent offline nor names an offline target |
| `Capacity.RunsKeepBoth` | backend/internal/store/memory.go:1329-1338 | a run without such edits and transfers keeps both throughout |
| `Capacity.InitialKeepsBoth` | backend/internal/store/memory.go:112-126 | both hold at the start |
| `Capacity.AssignKeeps` | backend/internal/store/memory.go:1308-1326 | dispatch itself never overloads an agent nor picks an offline one |
| `Pickup.PickUpTakesOldest` | backend/internal/store/memory.go:296-313 | the pass over the sorted conversations takes over exactly min(queue, room) of them, none created after one left behind, and changes nothing else |
| `Pickup.OnlineTakesOldest` | backend/internal/store/memory.go:260-316 | so does going online, measured from the state before the call |
| `Pickup.NextWaiting` | backend/internal/store/postgres.go:1685-1695 | ORDER BY created_at LIMIT 1 yields some oldest queued conversation |
| `Pickup.PickUpOneByOne` | backend/internal/store/postgres.go:329-352 | the loop that takes one oldest conversation at a time takes over min(queue, room) of the oldest |
| `Pickup.TakenIsDeterminedIff` | backend/internal/store/postgres.go:1689-1692 | what is taken over is determined by the state if and only if the room does not end among conversations of one creation time: no queued one has fewer older ones than there is room, and more that are no younger |
| `Pickup.FormsAgreeIff` | backend/internal/store/postgres.go:329-352 | the sorted pass and every possible one-by-one pass end in the same state if and only if the state has no such tie |
| `Pickup.TieIsSplit` | backend/internal/store/postgres.go:1689-1692 | such a tie is there exactly when a conversation taken and one left behind began at the same time |
| `Pickup.DistinctTimesNoTie` | backend/internal/store/postgres.go:1689-1692 | distinct creation times exclude a tie |
| `Local.StepReacts` | backend/internal/store/memory.go:712-936 | every step of the store acts on every conversation exactly as the one event it means to it |
| `LogHistory.EventIsSound` | backend/internal/store/memory.go:712-936 | only certain events occur: messages carry the current time and fresh ids, senders and statuses fit, and retries and repeated revocations are no events |
| `LogHistory.LogOnlyGrows` | backend/internal/store/memory.go:1360-1373 | between any two moments of a run that keeps the conversation the old log is a prefix of the new one up to revocation fields, written at most once and only on agent messages; closed is absorbing, and after it only system notices are added |
| `LogHistory.LogsStayAddressable` | backend/internal/store/memory.go:1388-1399 | in every reachable state server ids are distinct within a log and usable as cursors |
| `Idempotence.RunsSendOnce` | backend/internal/store/memory.go:1375-1386 | over every run of the in-memory store a trimmed client id is stored at most once per sender and conversation |
| `Idempotence.VisitorRetryReturnsStored` | backend/internal/store/memory.go:726-728 | however much later, a retry on an open conversation returns the stored message and changes nothing |
| `Idempotence.AgentRetryReturnsStored` | backend/internal/store/memory.go:774-776 | likewise for agents |
| `Idempotence.VisitorRetryIff` | backend/internal/store/memory.go:712-738 | sending the same again at once is idempotent if and only if the client id came trimmed; a padded or blank one is stored twice |
| `Idempotence.AgentRetryIff` | backend/internal/store/memory.go:757-787 | the same for agents |
| `Idempotence.SearchAfterStoreIff` | backend/internal/store/memory.go:1360-1386 | the search finds a message just stored if and only if its client id came trimmed |
| `Idempotence.SqlRunSendsOnce` | backend/internal/store/postgres.go:1807-1843 | the SQL form stores every client id that is not blank at most once, padded ones included |
| `Idempotence.SqlRetryIff` | backend/internal/store/postgres.go:1825-1843 | in the SQL form a retry is idempotent if and only if the id is not blank after trimming |
| `Unread.RunsKeepCounters` | backend/internal/store/memory.go:1401-1422 | in every reachable state the visitor's counter is the number of unrevoked agent messages plus AI replies, and the agent's counter the number of visitor messages since the last agent message, AI reply or read mark |
| `Unread.EventKeepsCounters` | backend/internal/store/memory.go:1414-1422 | each event keeps this, and a revocation never meets a zero counter, so its guard never suppresses a decrement |
| `Timers.ArmedTime` | backend/internal/app/service.go:243-245 | an armed timer carries the time of its stored message, and the zero time for a recognised retry |
| `Timers.FiresIffUntouched` | backend/internal/store/memory.go:827-848 | a timer armed by a stored message fires if and only if nothing has touched its conversation since, it is still assigned, and the AI may take over |
| `Timers.StillLastIffUntouched` | backend/internal/store/memory.go:1401-1422 | the last-message time stays the message's exactly as long as no visitor, agent or AI message and no revocation touches the conversation |
| `Timers.ATimerFires` | backend/internal/app/service.go:243-269 | a concrete assigned conversation whose unanswered message arms a timer that fires |
| `Timers.RetryTimerNeverFires` | backend/internal/store/memory.go:726-728 | a timer armed by a recognised retry never fires in any run |
| `Timers.AtMostOneFires` | backend/internal/app/service.go:249-269 | of two timers armed for one conversation at different steps of a run, never both can fire |
| `Timers.FiringKeepsOwnerAndLoads` | backend/internal/store/memory.go:842-848 | escalation changes one status and nothing else: owner and loads stay |
| `Services.Service.AddVisitorMessage` | backend/internal/app/service.go:218-247 | the store step, the notices sent, and which of a timer and an AI request is started |
| `Services.Service.ScheduleNoReplyAI` | backend/internal/app/service.go:249-256 | a timer is started only for a positive timeout |
| `Services.Service.NoReplyTimer` | backend/internal/app/service.go:256-268 | the timer's wake-up: spent in any case, and only an escalation tells the parties and starts an AI request |
| `Services.Service.SaveAIReply` | backend/internal/app/service.go:271-288 | the reply is stored and announced, or dropped on a closed or deleted conversation |
| `Services.SendTellsEachParty` | backend/internal/app/service.go:224-235 | of a visitor's message every party hears each item once and in order: acknowledgement and replies to the visitor, message and replies to the owner, status to the admins, nothing to anyone else |
| `Services.ReplyTellsEachParty` | backend/internal/app/service.go:282-287 | of an AI reply the visitor hears the message and the new status, the owner the message, the admins the status, and nobody else anything |
| `Services.EscalationTellsEachParty` | backend/internal/app/service.go:262-266 | of an escalation the visitor, the owner and the admins hear the new status, and nobody else anything |
| `Services.AllReceivedAt` | backend/internal/app/service.go:229-234 | each generated message has its own receive notice |
| `Delivery.OutboxIsOffered` | backend/internal/realtime/hub.go:168-216 | when the notices of an outbox have been handed to the hub of one node in a run of the cluster and the bus is empty, a client that stayed connected to any node has been offered exactly the notices of its own address, each once |
| `Delivery.NoticeIsOffered` | backend/internal/realtime/hub.go:168-216 | one notice, broadcast at any step of a run, is offered once to a client it addresses and never to another |
| `Delivery.SendIsHeard` | backend/internal/app/service.go:224-236 | of a visitor's message a visitor client of that conversation, the owner's clients and the admins' clients are sent exactly their notices, in order |
| `DelayedReplies.RunsStayOrderly` | backend/internal/app/service.go:218-288 | over every run of the whole service a stored visitor message has at most one timer, pending request or saved reply, and a retry has none but dead timers |
| `DelayedReplies.AnsweredAtMostOnce` | backend/internal/app/service.go:240-245 | from a fresh start the AI answers a visitor message at most once, at once or after the timeout, and of the timers pending for a conversation at most one would fire |
| `DelayedReplies.SendStartsOneThing` | backend/internal/app/service.go:240-245 | a send starts an AI request or leaves the conversation assigned, never both |
| `DelayedReplies.SendStarts` | backend/internal/app/service.go:240-245 | an accepted send starts one timer if it leaves the conversation assigned and owned and the timeout is on, one AI request if one is needed, and nothing else |
| `DelayedReplies.WakeStarts` | backend/internal/app/service.go:256-268 | a timer that wakes is spent and starts one AI request exactly if it fires |
| `DelayedReplies.AnswerSettles` | backend/internal/app/service.go:271-281 | a reply settles its request and becomes the newest message exactly if the conversation is open |
| `DelayedReplies.NeededAnswerIsGiven` | backend/internal/app/service.go:240-242 | a visitor message that needs the AI leaves a request that a reply can answer, in the same run, with its message stored |
| `Refusals.RefusedChangesNothingIff` | backend/internal/store/memory.go:189-936 | a refused step leaves the store as it was if and only if it is not an edit within the limits that would set a disabled agent online and brings another name, group or maximum along |
| `Refusals.EditRefusedIff` | backend/internal/store/memory.go:406-442 | the same for agent edits alone |
| `Refusals.OtherRefusalsChangeNothing` | backend/internal/store/memory.go:189-936 | every other operation that returns an error leaves the store as it was |
| `Outcomes.AssignOutcome` | backend/internal/store/memory.go:1302-1327 | the agent online with room who has the fewest conversations, then the smallest id, gets the conversation and one more in load; nobody gets it exactly if nobody has room or the mode is always_ai |
| `Outcomes.VisitorSendAccepted` | backend/internal/store/memory.go:716-732 | which visitor messages are accepted, and which error the others get |
| `Outcomes.StoredThenAnswered` | backend/internal/store/memory.go:733-737 | an accepted new message is stored with its trimmed content, touches the conversation and is then answered, and the result reports exactly that |
| `Outcomes.HumanRequestOutcome` | backend/internal/store/memory.go:1438-1447 | a wish for a human in an unowned conversation gets the first agent in line, one fuller, and the hand-off notice; if nobody has room it stays requested and the AI says so; in always_ai mode the AI keeps it |
| `Outcomes.HumanRequestOfOwned` | backend/internal/store/memory.go:1432-1437 | in an owned conversation it is assigned to its owner again, with the notice |
| `Outcomes.RuleOutcome` | backend/internal/store/memory.go:1450-1464 | a rule answers with its own kind and text and changes nothing else |
| `Outcomes.NoRuleOutcome` | backend/internal/store/memory.go:1466-1476 | the AI is needed, and serves, if and only if it may, no agent is assigned, and the conversation is not waiting in business hours |
| `Outcomes.AgentSendAccepted` | backend/internal/store/memory.go:757-778 | which agent messages are accepted, and which error the others get |
| `Outcomes.AgentSendOutcome` | backend/internal/store/memory.go:779-786 | a stored agent message raises the visitor's unread count, clears the agent's, and takes the conversation back from the AI |
| `Outcomes.AIReplyOutcome` | backend/internal/store/memory.go:740-755 | an AI reply is refused only without an open conversation, and otherwise stored with the AI serving |
| `Outcomes.RevokeOutcome` | backend/internal/store/memory.go:789-825 | an admin may revoke any agent's message, an agent only own messages in an owned conversation; an admitted revocation takes place, once, with its time, revoker and unread count |
| `Outcomes.RevokeNothing` | backend/internal/store/memory.go:805-808 | the error where there is no such message |
| `Outcomes.ReadOutcome` | backend/internal/store/memory.go:659-675 | who may mark a conversation read, and that only the agent's counter is cleared |
| `Outcomes.CloseOutcome` | backend/internal/store/memory.go:850-874 | who may close, what closing does to conversation, log and the owner's load, and nothing else |
| `Outcomes.RemovalOutcome` | backend/internal/store/memory.go:876-897 | only closed conversations go, by those who may act on them |
| `Outcomes.EscalationOutcome` | backend/internal/store/memory.go:827-848 | an assigned conversation last touched at the timer's time goes to the AI if it may serve; nothing else changes |
| `Outcomes.CreationOutcome` | backend/internal/store/memory.go:189-258 | a new conversation goes to the first in line, else to the AI or to waiting by mode and business hours, with the entry reply as its first message |
| `Outcomes.TransferAccepted` | backend/internal/store/memory.go:899-915 | which transfers are accepted, and which error the others get |
| `Outcomes.TransferOutcome` | backend/internal/store/memory.go:899-936 | the target is the named agent, or the first in line of the named group; it gains the conversation and one in load, the old owner loses one |
| `Outcomes.NewAgentOutcome` | backend/internal/store/memory.go:364-404 | what a new agent is, and which requests are invalid |
| `Outcomes.EditOutcome` | backend/internal/store/memory.go:406-442 | an accepted edit sets what it names and keeps the rest |
| `Outcomes.StatusAccepted` | backend/internal/store/memory.go:260-276 | which status changes are refused, and that being busy is a mark only |
| `Outcomes.LeavingOutcome` | backend/internal/store/memory.go:506-579 | disabling and deleting fail for unknown agents only, and what they report |
| `Text.TrimIsMiddle` | backend/internal/store/memory.go:1425 | trimming removes white space from both ends, all of it and nothing else |
| `Text.LessIff` | backend/internal/store/memory.go:1318 | ids are ordered by their first difference, a proper prefix first |
| `Counterexamples.RefusedEditRenames` | backend/internal/store/memory.go:406-442 | a run after which a refused edit renames a disabled agent |
| `Counterexamples.EditStrandsWork` | backend/internal/store/memory.go:431-438 | a run in which an edit sets a working agent offline |
| `Counterexamples.NamedTransferOverloads` | backend/internal/store/memory.go:1332-1338 | a run in which a full agent is given another conversation by name |
| `Counterexamples.RetryLeavesAIServing` | backend/internal/store/memory.go:774-776 | a run after which an agent's retry is accepted and leaves the conversation with the AI |
| `Counterexamples.BlankAgentIsAssigned` | backend/internal/store/memory.go:757-787 | a run after which a message from a blank agent id leaves a conversation assigned to nobody |
| `Counterexamples.PaddedIdIsStoredTwice` | backend/internal/store/memory.go:1360-1386 | a run in which a message with a padded client id is sent twice and stored twice |
| `Counterexamples.TieMakesADifference` | backend/internal/store/memory.go:296-313 | a run after which two sorted orders lead to different pick-ups |
| `Counterexamples.UnknownCursorDiffers` | backend/internal/store/postgres.go:430-474 | a log and an unknown cursor for which one store returns a message and the other none |

## Left out

- RateLimiting.RateLimiter.Allow: uses exact reals, so floating-point rounding of token counts is not modelled.
- MemoryStores.MemoryStore.CreateAgent: models name, group and maximum; account uniqueness, passwords and ids supplied by the caller are not part of it.
- MemoryStores.MemoryStore.UpdateAgent: models the fields that dispatch reads, not the updated-at time.
- MemoryStores.MemoryStore.CreateVisitorConversation: the visitor record, its session token and address are not part of it.
- MemoryStores.MemoryStore.DisableAgent: revoking the agent's sessions is not part of it.
- MemoryStores.MemoryStore.DeleteAgent: revoking sessions and removing push devices and ratings is not part of it.
- MemoryStores.MemoryStore.DeleteConversation: removing the conversation's rating is not part of it.
- Bus.RedisBus.Consume: takes a finite list of arrivals, and the hub's registry does not change during the loop; `Cluster` interleaves joins and leaves with single deliveries.
- Services.Service.AddVisitorMessage: the settings read for the timer and the sends to the hub are taken to happen before the next store operation; the webhook to the agent is not modelled.
- Aliasing: records are values in map fields of the store, so two references to one record do not occur.
- Remarks, ratings, audit events, dashboard counts, contact, keyword and business-hour settings: easy members that dispatch does not depend on; AI settings change as one step.
- The last-message preview text and the updated-at times of conversations.
- Keyword and human-request matching: the outcome is an argument, so rule order and priority are not claimed.
- SQL locking, SKIP LOCKED, transactions that fail half-way, collation of ids and microsecond truncation of times: each transaction is one step.
- Loss of bus messages and failing JSON encoding beyond dropping the event; WebSocket loops, heartbeats and deadlines beyond taking from a client's queue.
- HTTP routing, proxy and address parsing, uploads, secrets, the AI client and all front ends: plumbing and input/output.
