# Validator health-check: a verified model

A daemon watches the validators of several Cosmos chains. Workers pick a chain, probe its RPC
endpoints, check its validators and enqueue Telegram messages for the watchers; a pusher sends
the messages in batches; a call center serves the bots; users and chains are reloaded while all
this runs. This project models the stateful protocols of the daemon and proves what they keep.

Objects that the source updates in place are classes, whose methods are proved against functions
or predicates on values. Protocols in which several goroutines meet are machines: a state, a
labelled step for each lock region, channel operation or clock reading, and theorems about every
finite run from the initial state, whatever the interleaving. Objects and machines are tied together in
these places: enqueue, selection and dequeue of the pusher leave the object in the state of the
machine's steps; the silencer's methods and steps are the same functions; an undisturbed call of
either registry is a run of its machine; and a registered chain is a chain of the machine of
reloads. The scan over the chains and the filtering and sorting of a batch are stated twice, once
as methods and once as steps. Main theorems are marked MAIN.

## Modules

- `GoRuntime`, `Text`: time, `sort.Slice`, slices that share an array, string functions.
- `Batch`, `ReceiverQueue`, `TelegramPusher`, `PushPipeline`: messages from enqueue to send.
- `Silencer`, `Throttle`, `Retry`: expiring patterns, at most one per interval, retries.
- `RpcClientRegistry`, `BotRegistry`: the two double-checked registries, the second with its
  channel, the call center and the shutdown.
- `Config`, `UserRegistry`, `RegisteredChain`, `ChainRegistry`, `ChainScheduler`: validation,
  reload, the watcher index, the endpoint list and the choice of the next chain.
- `Endpoint`, `Valoper`, `Slashing`, `MostHealthy`: normal forms, address prefixes, the slashing
  threshold with its alerts, and the choice of an endpoint.
- `Safety`: the panics of the workers, over all reloads.

## Assumptions

- The clock never runs backwards, and `time.Now()` is wall time. `time.Sleep(d)` lasts at least
  `d`. Every clock reading of the source is a separate reading here.
- `sort.Slice` gives some permutation sorted by its comparison and is not stable. Ranging over a
  map visits the keys in any order.
- Strings are sequences of bytes. Go's fixed-width integers do not overflow on the values used.
- Percentages, floating-point numbers in the source, are exact ratios. Cosmos SDK decimals are
  integers with 18 decimal places, with the SDK's own rounding.
- The exit function runs once. Bot ids are unique. A send, a probe or the creation of a client or
  bot succeeds or fails arbitrarily, each time anew.
- Nested maps are maps of pairs: a case and an identity, a watcher and a chain. The operator
  address of a configured validator is its key, which is how the chains file is loaded.

## What the code does that its text does not say

- `DequeueMessagesWL` builds the prefix that fits in one Telegram message and puts the rest back,
  but its naked return hands out everything it took
  (services/telegram_push_message_svc/receiver_based_queue.go:67, 86, 109). The machine has both
  variants. As written, nothing is lost, and messages are duplicated exactly when a dequeue is
  capped; the batch then does not fit either. With the trimmed prefix both hold. A first message
  of 4096 bytes or more blocks its queue for ever in both variants: everything is put back, so
  nothing ever leaves that queue. As written, the same messages are handed out again each time.
- The loop over the queues has no `break` and picks the last eligible queue
  (services/telegram_push_message_svc/telegram_pusher.go:88-104), so a queue with priority is picked only
  if no eligible queue is without it.
- `pushedPreviousTurn` is never set to true (telegram_pusher.go:73-81), so the pause of ten
  seconds never happens. What is left is the sleep of 300 ms before each turn, which does keep any
  two dequeues that far apart.
- A chain is stamped "to prevent double health-check" under a read lock
  (registry/chain_registry/chain_registry.go:50-69). Within one generation, that is between two
  reloads, the stamp does so exactly when scans cannot overlap; otherwise each worker may pick the
  chain once. A reload makes new objects with no time of last check, so across a reload even a
  single worker may check a chain twice at the same instant; over whole runs the picks are bounded
  for each generation met.
- 51 silence patterns fit in a chat, and never more, although 50 are announced
  (services/telegram_push_message_svc/silencer.go:39-41).
- `getAllQueuesRL` appends onto the list of priority queues, so the list that the pusher walks may
  share its array, and a receiver listed meanwhile overwrites one entry
  (telegram_pusher.go:57, 199). The machine allows this at every step.
- A bot is sent on an unbuffered channel under the write lock. If the loop body of the call center
  panics while another bot is being sent, the sender keeps the lock for ever and the shutdown is
  never flagged. In every other reachable state it still can be, so in every run without such a
  panic.
- A required share of signed blocks above one makes the threshold of missed blocks negative, and
  the alert on missed blocks is then never raised (work/health_check_worker/worker.go:360-411).
- An endpoint whose path ends in an empty segment has a normal form that ends in a slash, which is
  normalised further when the client cache normalises it again, so the cache key differs from the
  endpoint the chain holds.
- registry/user_registry/user_config_registry_test.go accepts users without a root user;
  `UserRecords.Validate` rejects them, and the model follows the code.
- Endpoints of a chain are made distinct before they are normalised, so the list contains an
  endpoint twice exactly when two different configured endpoints have one normal form. Once
  informed, an endpoint stands in the list once.

## Model

| member | source | states |
|---|---|---|
| ReceiverQueue.ReceiverBasedQueue.EnqueueMessage | services/telegram_push_message_svc/receiver_based_queue.go:37-51 | a message for another receiver is refused and changes nothing; otherwise the queue grows by it and its time is set; no cell below the end of the queue is written |
| ReceiverQueue.ReceiverBasedQueue.CountKept | services/telegram_push_message_svc/receiver_based_queue.go:86-100 | the measuring loop counts the longest prefix whose joined text stays below 4096 bytes |
| ReceiverQueue.ReceiverBasedQueue.PutBack | services/telegram_push_message_svc/receiver_based_queue.go:102-107 | appending the rest of the queue onto the tail of what was taken, over the shared array, changes no cell, and the queue is that tail followed by the rest |
| ReceiverQueue.ReceiverBasedQueue.DequeueMessages | services/telegram_push_message_svc/receiver_based_queue.go:67-110 | the first `size` messages are handed out, or all if there are fewer, in order; all but the fitting prefix stay in the queue in order, and the array is left as it was |
| ReceiverQueue.RemainingMeans | services/telegram_push_message_svc/receiver_based_queue.go:78-107 | what stays is all but the longest prefix, within what is taken, whose joined text has less than 4096 bytes |
| ReceiverQueue.DequeueThenEnqueue | services/telegram_push_message_svc/receiver_based_queue.go:37-110 | a batch handed out is not disturbed by any number of later enqueues, although both may share the array, and the queue is what the dequeue left followed by the new messages |
| Batch.KeptIsLongest | services/telegram_push_message_svc/receiver_based_queue.go:86-100 | a prefix fits exactly when it is no longer than the kept prefix |
| Batch.KeepsSomethingIff | services/telegram_push_message_svc/receiver_based_queue.go:94-96 | something is kept exactly when the first message alone is below 4096 bytes |
| Batch.JoinMeans | services/telegram_push_message_svc/telegram_pusher.go:147-150 | the joined text of two parts is that of the first, a line of three dashes, and that of the second; a single message is its own text |
| Batch.PartFits | services/telegram_push_message_svc/telegram_pusher.go:118-150 | any part of a fitting batch, in any order, still fits when joined |
| Batch.SortedBatch | services/telegram_push_message_svc/telegram_pusher.go:132-145 | in a sorted batch fatal messages come first, and within each group the enqueue times do not decrease |
| Batch.PrepareBatch | services/telegram_push_message_svc/telegram_pusher.go:118-150 | filter, sort and join: every message stands in the batch as often as it was dequeued at a place whose answer is no; the batch is sorted, and its text is below 4096 bytes if that of the dequeued messages is |
| TelegramPusher.TelegramPusher.EnqueueMessage | services/telegram_push_message_svc/telegram_pusher.go:47-67 | the queues, both lists and the stamps after the call are those of the machine's enqueue |
| TelegramPusher.TelegramPusher.GetAllQueues | services/telegram_push_message_svc/telegram_pusher.go:195-200 | the result is the priority queues followed by the others, and shares the array of the priority list exactly when there is room in it |
| TelegramPusher.TelegramPusher.ListDuringScan | services/telegram_push_message_svc/telegram_pusher.go:56-60 | listing a receiver while the pusher walks its list overwrites the entry after the priority queues exactly when the array is shared, the receiver has priority and there is such an entry |
| TelegramPusher.TelegramPusher.SelectQueue | services/telegram_push_message_svc/telegram_pusher.go:88-104 | the loop is a run of the machine's steps, with each clock reading its own; the picked queue is eligible at the end, and no queue that was eligible at the beginning stands after it |
| TelegramPusher.TelegramPusher.TakeBatch | services/telegram_push_message_svc/telegram_pusher.go:111-112 | the dequeue of the selected queue leaves all queues, the stamp and the batch as the machine's step does |
| PushPipeline.LoopPicksLast | services/telegram_push_message_svc/telegram_pusher.go:88-104 | in every run of the loop that no enqueue disturbs, with one clock reading, the last eligible queue of the list is selected, and none if none is eligible |
| PushPipeline.PriorityPickedIff | services/telegram_push_message_svc/telegram_pusher.go:88-109 | in every such turn a queue with priority is selected if and only if some such queue is eligible and no queue without priority is; eligible is a queue with pending messages, none of them enqueued and none dequeued within the last minute |
| PushPipeline.PriorityLoses | services/telegram_push_message_svc/telegram_pusher.go:88-104 | a run of two receivers, both eligible, in which the one without priority is selected |
| PushPipeline.EnqueueAppends | services/telegram_push_message_svc/telegram_pusher.go:47-67 | an enqueue puts the message at the end of its receiver's queue, with the time of the enqueue if it had none; a new receiver is listed by the priority of the message, a known one not again, and no other queue changes |
| PushPipeline.DequeueTakesTwenty | services/telegram_push_message_svc/telegram_pusher.go:111-112 | a dequeue takes the first 20 messages of the selected queue, or all if there are fewer, and as written hands out all of them |
| PushPipeline.RequeuedUnchanged | services/telegram_push_message_svc/telegram_pusher.go:152-161 | in every run a message put back after a failed send keeps its enqueue time and goes to the end of its own queue |
| PushPipeline.FailedBatchReturns | services/telegram_push_message_svc/telegram_pusher.go:152-161 | after every run, a batch that cannot be sent comes back whole: the pusher goes on to put all of it, unchanged and in its order, behind what is pending |
| PushPipeline.DequeueShortensIff | services/telegram_push_message_svc/receiver_based_queue.go:86-107 | a dequeue of a queue that is not empty shortens it exactly when its first message is below 4096 bytes, trimmed or not |
| PushPipeline.OversizedHeadBlocks | services/telegram_push_message_svc/receiver_based_queue.go:94-107 | once the first message of a queue has 4096 bytes or more, no run ever takes anything out of that queue, trimmed or not |
| PushPipeline.StepKeepsInv | services/telegram_push_message_svc/telegram_pusher.go:47-200 | every step of enqueuers and pusher, under every overwriting of the pusher's list, keeps the account of messages, the listing, the ownership and the spacing |
| PushPipeline.Conservation | services/telegram_push_message_svc/telegram_pusher.go:47-187 | in every run and for every receiver, accepted and duplicated messages are exactly those sent, silenced or pending, with their enqueue times; accepted ones alone are exactly those if and only if no dequeue was capped or batches are trimmed |
| PushPipeline.DequeuesSpaced | services/telegram_push_message_svc/telegram_pusher.go:83-112 | in every run two dequeues for one receiver are at least one minute apart |
| PushPipeline.TurnsSpaced | services/telegram_push_message_svc/telegram_pusher.go:74-112 | in every run any two dequeues, of whatever receivers, are at least 300 ms apart |
| PushPipeline.QueuesListedOnce | services/telegram_push_message_svc/telegram_pusher.go:51-61 | in every run each receiver is listed exactly once in the two lists taken together, its queue holds only its messages, and a batch to be sent is sorted, and fits if batches are trimmed |
| PushPipeline.HandedOutFitsIff | services/telegram_push_message_svc/receiver_based_queue.go:67-110 | what a dequeue hands out fits exactly when it is not capped, or is trimmed |
| PushPipeline.CappedMessageIsDuplicated | services/telegram_push_message_svc/receiver_based_queue.go:102-109 | a run of two messages that do not fit together, after which the second is both in the batch and in the queue |
| Silencer.Silencer.SetSilencePattern | services/telegram_push_message_svc/silencer.go:14-53 | both refusals, the renewal answer and the new patterns, after expired ones are deleted |
| Silencer.Silencer.RemoveSilencePattern | services/telegram_push_message_svc/silencer.go:55-75 | success exactly for a stored pattern, which alone is removed: the other patterns of the chat keep their expiry and the other chats are unchanged; each refusal changes nothing |
| Silencer.SetMeans | services/telegram_push_message_svc/silencer.go:29-52 | on the stored expiries: refused with more than 50 live patterns, a renewal exactly if the pattern is in force, expired ones dropped, live ones kept, the new expiry stored, other chats untouched |
| Silencer.SetSilences | services/telegram_push_message_svc/silencer.go:14-53 | after every run, a pattern set in a chat with at most 50 live ones silences every text around it until it expires, is set again or removed, whatever else happens meanwhile |
| Silencer.RemovedStaysAway | services/telegram_push_message_svc/silencer.go:55-75 | after a removal and until the pattern is set again, a query of the chat is silenced only by another stored pattern, not expired, that stands in the message |
| Silencer.Silencer.ShouldSilent | services/telegram_push_message_svc/silencer.go:97-138 | the answer is whether some pattern not expired at the reading occurs in the message; cleanup is asked for only if it would delete something |
| Silencer.Silencer.Cleanup | services/telegram_push_message_svc/silencer.go:100-113 | exactly the patterns expired at the earlier reading are deleted |
| Silencer.SetOutcomesAgree | services/telegram_push_message_svc/silencer.go:29-52 | refusal and renewal are what a reference that never purges would answer |
| Silencer.QueriesAgree | services/telegram_push_message_svc/silencer.go:97-138 | in every run an answer lies between the reference at the reading of the query and the reference at the latest purge of that chat |
| Silencer.QueriesAgreeIff | services/telegram_push_message_svc/silencer.go:97-138 | the queries of a chat with a given reading agree with the reference that never purges, over all runs and messages, if and only if no purge of that chat has used a later instant |
| Silencer.NoLivePatternPurged | services/telegram_push_message_svc/silencer.go:30-53 | no run purges a live pattern, and no chat ever holds more than 51 |
| Silencer.OverFiftyIff | services/telegram_push_message_svc/silencer.go:29-52 | setting a pattern leaves more than 50 in a chat, and then 51, if and only if 51 are live, when it is refused, or 50 others are |
| Silencer.FiftyOneReached | services/telegram_push_message_svc/silencer.go:38-52 | a run from the start that holds 51 patterns in a chat |
| Silencer.StaleQueryMisses | services/telegram_push_message_svc/silencer.go:97-116 | for every reading and every later instant, a run in which a set at that instant purges a pattern in force at the reading, and the query misses it |
| Throttle.AcceptancesApart | services/telegram_push_message_svc/prevent_spamming.go:33-41 | two acceptances of one case and identity are at least the later call's interval apart |
| Throttle.RefusalHasReason | services/telegram_push_message_svc/prevent_spamming.go:33-36 | every refusal has an earlier acceptance closer than its interval |
| Throttle.OncePerInterval | services/telegram_push_message_svc/prevent_spamming.go:33-41 | while less than the interval passes a key is accepted at most once |
| Throttle.StretchHasNoDuplicates | services/telegram_push_message_svc/prevent_spamming.go:33-43 | the identities returned by a call that lasts less than its interval are distinct |
| Throttle.SpamPreventer.ShouldSendMessage | services/telegram_push_message_svc/prevent_spamming.go:23-44 | the call adds one lawful decision for each identity, in order, and returns the accepted ones, without duplicates if it lasts less than its interval |
| Throttle.RateLimiter.Request | services/telegram_call_center_svc/types/rate_limiter.go:26-38 | a request is one decision of the same throttle |
| Retry.Retry | utils/retry.go:31-75 | the first success is returned; a failure is the first error, after more than the minimum count of calls and at least the duration; calls end at least 100 ms apart, none is repeated once both are over, and so their number is bounded |
| Retry.DefaultCalls | utils/retry.go:12-17 | without options that bound is 51 calls |
| RpcClientRegistry.OneClientForEachEndpoint | registry/rpc_client_registry/rpc_client_registry.go:12-59 | in every run a client is created at most once for each normal form, and all successful callers get the cached one |
| RpcClientRegistry.EntriesStay | registry/rpc_client_registry/rpc_client_registry.go:28-48 | a cached client is never replaced |
| RpcClientRegistry.CacheGrows | registry/rpc_client_registry/rpc_client_registry.go:12-59 | all that any threads do to the cache is to add clients, which is what the method allows between its two look-ups |
| RpcClientRegistry.WritesAreAlone | registry/rpc_client_registry/rpc_client_registry.go:28-57 | the map is written only while no other thread is inside either lock |
| RpcClientRegistry.CachedKeyHits | registry/rpc_client_registry/rpc_client_registry.go:20-26 | once a key is cached, a thread that asks for it again gets that client, whatever the others do |
| RpcClientRegistry.RpcClientRegistry.GetRpcClientByEndpoint | registry/rpc_client_registry/rpc_client_registry.go:12-49 | the panic exactly on the empty endpoint; a hit changes nothing; otherwise, after all that other threads may do between the two look-ups, the client found then, or a new one added under the normal form, or a failure that adds nothing |
| RpcClientRegistry.CallAlone | registry/rpc_client_registry/rpc_client_registry.go:12-59 | a call that nothing interrupts is a run of the machine with the same cache and answer |
| BotRegistry.StepKeepsInv | registry/telegram_bot_registry/telegram_bot_registry.go:16-92 | every step of callers, call center and exit function keeps the locks, the bots, the sends, the launches and the answers consistent |
| BotRegistry.NoSendOnClosedChannel | cmd/start.go:57-64 | in every run, once the shutdown is flagged no thread is sending a bot or about to, so the close meets no sender |
| BotRegistry.SameTokenSameBot | registry/telegram_bot_registry/telegram_bot_registry.go:16-54 | in every run two successful callers got the same bot exactly when they asked for the same token |
| BotRegistry.EachBotSentOnce | registry/telegram_bot_registry/telegram_bot_registry.go:49-53 | in every run each bot was sent exactly once, except the one whose creator still holds the lock, which was not sent yet |
| BotRegistry.OneEmployeeForEachBot | services/telegram_call_center_svc/telegram_call_center.go:28-54 | in every run a bot gets at most one employee, and when the call center waits every bot received has got one, in order |
| BotRegistry.StoppedCenterBlocksShutdown | registry/telegram_bot_registry/telegram_bot_registry.go:29-51 | if the call center has stopped while a bot is being sent, no run ever flags the shutdown |
| BotRegistry.CanShutDownIff | registry/telegram_bot_registry/telegram_bot_registry.go:29-74 | after every run, some continuation flags the shutdown if and only if the call center has not stopped while a bot is being sent |
| BotRegistry.CanShutDownUnlessPanic | services/telegram_call_center_svc/telegram_call_center.go:28-54 | after every run in which the loop body of the call center has not panicked, some continuation flags the shutdown |
| BotRegistry.StuckReached | services/telegram_call_center_svc/telegram_call_center.go:28-54 | a run with two tokens in which that loop body panics over the first bot while the second is being sent |
| BotRegistry.TelegramBotRegistry.GetTelegramBotByToken | registry/telegram_bot_registry/telegram_bot_registry.go:16-54 | the panic exactly on the empty token; nothing while shutting down; otherwise the known bot, or a new one that is stored and sent, or a failure that changes nothing |
| BotRegistry.CallAlone | registry/telegram_bot_registry/telegram_bot_registry.go:16-54 | a call that nothing interrupts is a run of the machine with the same bots, sends and answer |
| Config.ValidateUser | config/users_config.go:102-134 | a record is accepted exactly with an identity and a Telegram name of letters, digits and underscores, a Telegram id and a token; the last check never fires |
| Config.ValidateUsers | config/users_config.go:136-172 | the loop accepts exactly valid records that differ pairwise in identity, Telegram name and Telegram id, one of them a root user |
| Config.ValidateChain | config/chain_config.go:122-181 | a chain is accepted exactly with a name and an id of letters, digits, underscores and dashes, and, if enabled, with an endpoint, no empty endpoint, and validators whose addresses have the operator format and whose watchers are named |
| Config.WatchersExist | config/chain_config.go:201-214 | the loops accept exactly watchers that are all users with a complete Telegram section |
| Config.ValidateChains | config/chain_config.go:183-222 | the loop accepts exactly chains that pass both checks of single chains, with pairwise different names, one of them enabled |
| UserRegistry.UserRegistry.UpdateUsersConfig | registry/user_registry/user_config_registry.go:12-39 | accepted exactly if valid; both maps then say what the records say, and otherwise stay as they were |
| UserRegistry.LookupsAgree | registry/user_registry/user_config_registry.go:41-60 | a Telegram id finds exactly the record that has it, every stored record is complete, and Telegram ids are unique |
| UserRegistry.UserRegistry.GetUserRecordByTelegramUserId | registry/user_registry/user_config_registry.go:49-60 | the two look-ups in turn |
| RegisteredChain.RegisteredChainConfig.constructor | registry/chain_registry/registered_chain_config.go:44-78 | the new object has the configured names and validators with their watchers, as many endpoints as there are distinct configured ones, each the key under which the client cache stores a client of a configured one, and no last check |
| RegisteredChain.EndpointsMembers | registry/chain_registry/registered_chain_config.go:64 | as a set, the endpoints are the normal forms of the configured ones |
| RegisteredChain.EndpointTwiceIff | registry/chain_registry/registered_chain_config.go:45-64 | the list contains an endpoint twice if and only if two different configured endpoints have one normal form |
| RegisteredChain.EndpointTwice | registry/chain_registry/registered_chain_config.go:45-64 | a host with and without a final slash gives two equal entries |
| RegisteredChain.InformedOnce | registry/chain_registry/registered_chain_config.go:96-113 | an informed endpoint stands in the list once |
| RegisteredChain.RegisteredChainConfig.InformPriorityLatestHealthyRpc | registry/chain_registry/registered_chain_config.go:96-113 | the informed endpoint moves to the front, once, the others follow, and an empty list stays empty |
| RegisteredChain.InformsReorder | registry/chain_registry/registered_chain_config.go:96-113 | after any informs the list is the informed endpoints, most recent first and once each, followed by the others in their order |
| RegisteredChain.UntouchedKeepsOrder | registry/chain_registry/registered_chain_config.go:102-113 | two endpoints never informed stand in the order they had |
| RegisteredChain.RecentFirstOrder | registry/chain_registry/registered_chain_config.go:96-113 | between two informed endpoints, the first in the list was informed after the last inform of the other |
| RegisteredChain.InformsKeepMembers | registry/chain_registry/registered_chain_config.go:96-113 | informs with members of the list keep its set |
| ChainRegistry.ChainRegistry.UpdateChainsConfig | registry/chain_registry/chain_registry.go:13-46 | accepted exactly if valid; then there is a new object for each enabled chain and the watcher index agrees with the configuration, and otherwise both maps stay as they were |
| ChainRegistry.ListedIff | registry/chain_registry/chain_registry.go:35-42 | an address is listed for a watcher and chain exactly when an enabled chain of that name has that validator and the watcher watches it |
| ChainRegistry.EnabledMeaning | registry/chain_registry/chain_registry.go:30-34 | with unique names, the registered chain of a name is exactly the enabled configured one |
| ChainRegistry.ChainRegistry.AddChain | registry/chain_registry/chain_registry.go:35-42 | each validator's address is added to the index as often as the watcher occurs in its list, and nothing else changes |
| ChainRegistry.OrderIsStrict | registry/chain_registry/registered_chain_config.go:137-153 | the comparison of chains is a strict weak order |
| ChainRegistry.SortedChains | registry/chain_registry/registered_chain_config.go:137-153 | in a sorted list chains with priority come first, and in both groups the names ascend |
| Text.LessMeans | registry/chain_registry/registered_chain_config.go:142-144 | the order of names: equal up to some byte, where the smaller one ends or has the smaller byte |
| ChainRegistry.ChainRegistry.GetFirstChainConfigForHealthCheck | registry/chain_registry/chain_registry.go:51-69 | without other workers: every chain before the picked one, or every chain if none is picked, had a pause that had not expired or a last check less than the interval before the call; the picked one has neither when the call ends, and only its stamp changes |
| ChainRegistry.Pauser.IsChainPaused | registry/chain_registry/pauser.go:28-34 | a chain is paused exactly until the expiry of its entry |
| ChainScheduler.PicksBounded | registry/chain_registry/chain_registry.go:51-69 | in every run, within any time shorter than the interval and one generation a chain is picked at most as often as there are workers, and at most once if scans cannot overlap |
| ChainScheduler.EveryWorkerPicks | registry/chain_registry/chain_registry.go:51-69 | the bound is reached: there is a run in which all workers pick one chain at the same instant |
| ChainScheduler.NoDoubleCheckIff | registry/chain_registry/chain_registry.go:48-64 | within one generation, no run checks a chain twice within the interval if and only if there is at most one worker or the scan holds the lock alone |
| ChainScheduler.PicksBoundedAcrossReloads | registry/chain_registry/chain_registry.go:13-69 | over whole runs with reloads, within any time shorter than the interval a chain is picked at most as often as there are workers, or once if scans cannot overlap, for each generation met |
| ChainScheduler.CloserOnlyAcrossReload | registry/chain_registry/chain_registry.go:13-69 | if scans cannot overlap, of two picks of a chain closer than the interval the later is of a later generation |
| ChainScheduler.ReloadChecksTwice | registry/chain_registry/chain_registry.go:25-34 | a run in which one worker checks a chain twice at the same instant, before and after a reload |
| ChainScheduler.NoDoubleCheckEverIff | registry/chain_registry/chain_registry.go:13-69 | over whole runs with reloads, a double check within the interval is excluded only if there is no worker |
| ChainScheduler.PickHasReasons | registry/chain_registry/chain_registry.go:51-69 | in every run, a chain is stamped only if in the same scan each earlier chain of the sorted list was tested and was paused or checked too recently, and the chain itself was tested and was not paused, and due by what was read; by its last check if scans cannot overlap |
| ChainScheduler.ScanAlone | registry/chain_registry/chain_registry.go:55-68 | a scan that nothing interrupts, at any instant, picks and stamps the first chain of the sorted list that is neither paused nor checked too recently |
| ChainScheduler.AllDueArePicked | registry/chain_registry/chain_registry.go:51-69 | from every state in which a worker may scan, it can go on alone so that at any later instant it picks every chain that is then not paused and was never checked or last checked at least the interval before, and no other |
| ChainScheduler.PickedAgain | registry/chain_registry/chain_registry.go:60-65 | a run in which one worker picks a chain twice in one generation, the second time exactly the interval later |
| Endpoint.KeyIdempotentIff | utils/http.go:9-74 | normalising the normal form again changes nothing exactly when something follows the scheme and the normal form does not end in a slash; on the endpoint itself, when its path does not end in an empty segment |
| Endpoint.SchemeReplaced | utils/http.go:16-26 | any scheme but https becomes http and the rest is kept |
| Endpoint.SchemeAdded | utils/http.go:10-15 | an endpoint without a scheme, with or without two slashes, gets http |
| Endpoint.EndsWithPortIff | utils/http.go:30 | a host matches the regular expression of a port exactly when it is a name, a colon and a number |
| Endpoint.KeyOfParts | utils/http.go:32-74 | the normal form of an endpoint with any scheme, a host name, a port of any digits and a path: https or http, the same name, port and path, without a final slash |
| Endpoint.KeyWithoutPort | utils/http.go:9-74 | a host without a port is given 443 if the scheme is https, and 80 with any other scheme |
| Endpoint.KeyWithoutScheme | utils/http.go:9-15 | without a scheme, with or without two slashes, the normal form is that with http |
| Endpoint.NormalOfParts | utils/http.go:32-74 | the second step alone, of any protocol: 80 for http and ws, 443 for https and wss, no port for any other |
| Endpoint.KeyNonEmpty | utils/http.go:9-74 | a normal form is never empty |
| Endpoint.KeyNotIdempotent | utils/http.go:32-74 | a path that ends in two slashes has a normal form that is normalised further |
| Endpoint.KeyOfBareScheme | utils/http.go:33-55 | the normal form of a bare scheme, which grows each time it is normalised again |
| Valoper.FormatFixesPrefixes | utils/address.go:6-44 | an address in the operator format splits in one way only, and both prefix functions succeed with the prefixes of that split |
| Valoper.FormatIsRegexp | utils/validate.go:6-11 | the format check, decided at the last "1", is the regular expression: some account of lower-case letters and digits, "valoper1", and at least 38 characters of the bech32 alphabet |
| Valoper.PrefixSucceedsIff | utils/address.go:26-44 | the prefix functions succeed exactly when the last "1" comes right after "valoper" |
| Slashing.MissedExcessMeaning | work/health_check_worker/worker.go:354-361 | missing at most the threshold is exactly signing the required share; the threshold is below the window, negative exactly for a share above one, and the branch for a share of one agrees with the formula |
| Slashing.AlertTiers | work/health_check_worker/worker.go:364-428 | the tiers in blocks for every share: over half and over a tenth of a threshold that is not negative; nine tenths, three quarters, seven tenths and thirteen twentieths of the window signed |
| Slashing.AlertsMonotone | work/health_check_worker/worker.go:352-440 | with more missed blocks neither alert gets a longer cool-down, stops or ceases to be fatal |
| Slashing.BelowShareIsFatalIff | work/health_check_worker/worker.go:352-411 | a validator below the required share is under the fatal alert, for every count of missed blocks, if and only if the share is at most one |
| MostHealthy.HealthierIsStrict | work/health_check_worker/worker.go:948-965 | the comparison of scores is a strict weak order |
| MostHealthy.GetMostHealthyRpc | work/health_check_worker/worker.go:886-978 | for every arrival order, all outcomes of creations and all that other threads do to the client cache: the panic exactly on an empty list; a failure, with the error of some probe by its kind, exactly when no node gave a status of this chain; otherwise an endpoint of the list whose node did and saw a highest block among those that did, with the cached client of that probe |
| Safety.ObjectsAreMade | registry/chain_registry/registered_chain_config.go:44-78 | the objects of the chain registry are chains as the machine of reloads makes them |
| Safety.ValidatedChainIsOk | config/chain_config.go:143-180 | a validated and enabled chain has endpoints, none of them empty, and operator addresses in the expected format |
| Safety.WorkersFindWhatTheyNeed | work/health_check_worker/worker.go:68-82 | after every run each user has a complete Telegram section, each chain still held has an endpoint, no empty one, and only addresses with a readable prefix, and no worker holds an empty endpoint |
| Safety.PanicsAreSeen | work/health_check_worker/worker.go:75-888 | the machine records a panic exactly when a step meets what the source panics on |
| Safety.NoPanic | work/health_check_worker/worker.go:68-82 | no run of reloads with their bot requests, health-checks, pushes and informs meets an incomplete Telegram section, an empty endpoint list, an empty endpoint, an address without prefix or an empty token |
| Safety.ChainsKeepEndpoints | work/health_check_worker/worker.go:148-168 | a chain keeps its validators and the set of its endpoints for as long as anything holds it |

## Left out

- Loading of YAML files, permissions, printing, the command line, signals and logging.
- The Telegram library, Tendermint RPC, protobuf, public keys and the bech32 checksum: foreign code.
- The texts of alerts and of the Telegram commands, and which of several errors a validation names.
- IEEE 754 rounding of percentages, and `explainDuration`.
- Governance voting, the validator address registry, the health-check caches, ranking and paginated queries: updates of single maps, or loops that depend on the remote node.
- The panics at work/health_check_worker/worker.go:638, 643 and 729: they depend on the checksum and on addresses that the remote node sends.
- `strings.TrimSpace` on silence patterns: patterns are taken as trimmed.
- `GetSilentPatternsByChatIdRL` fills a filtered copy and then returns the live map (services/telegram_push_message_svc/silencer.go:78, 94): the aliasing of that map by its caller is not modelled.
- The pauses of validators, which are a second copy of the pauses of chains.
- Liveness: that a message is sent or a chain picked in the end, and the writer preference of Go's locks.
- TelegramPusher.TelegramPusher.SelectQueue: does not model enqueues during the loop, which are steps of their own in PushPipeline.
- ChainRegistry.ChainRegistry.GetFirstChainConfigForHealthCheck: does not model other workers, whose steps are in ChainScheduler.
