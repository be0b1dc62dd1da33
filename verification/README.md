# Order lifecycle tracking, verified

A Dafny model of the Signet order tracker: the state manager that follows every order from
discovery to a terminal status, the pruned store of chain events it consults, the matching of fill
outputs against order outputs, the derivation of a status from chain and clock answers, the
discovery and block-tip feeds, and the WebSocket clients that watch the broadcasts.

`dafny verify dfyconfig.toml` checks everything.

## How the model is laid out

| file | what it models |
|---|---|
| `OrderTypes.dfy`, `Wrappers.dfy`, `Sequences.dfy` | orders, events, statuses, query results; first positions, selections and counts |
| `FillMatching.dfy` | the greedy `swap_remove` search and the multiset relation it decides |
| `OrderEventKey.dfy` | the byte string hashed to identify an order event, with its decoder |
| `EventHistory.dfy`, `EventStores.dfy` | the event store class, proved equal to a reading of its whole call history |
| `FillSearch.dfy`, `StatusDerivation.dfy` | log scans, balance and allowance loops, status derivation |
| `Lifecycle.dfy` | the order lifecycle as a transition system with a log of registrations, broadcasts and evictions |
| `Incarnations.dfy`, `Justification.dfy` | theorems about the log of every run |
| `Arms.dfy`, `StateManagers.dfy` | the arms of the event loop, and the state manager class that refines them |
| `ArmEffects.dfy` | what each arm does to one order, on the fields of orders, events and answers |
| `SymbolCache.dfy` | concurrent lookups of token symbols |
| `OrderViews.dfy`, `Subscriptions.dfy` | the terminal client, the two WebSocket sessions, convergence |
| `OrderDiscovery.dfy`, `BlockWatching.dfy`, `Composition.dfy` | the two feeds, and discovery composed with the manager |

One task owns all mutable state, so what it does between two awaits is atomic. An `Action` is such a
stretch; an arm of the event loop is a fixed sequence of actions (`Arms.ActionsOf`), and the methods
of `StateManager` are proved to perform exactly that sequence. Theorems about action runs
(`Lifecycle.Run`) therefore hold at every await point, and `Arms.StepsAreActions` carries them to runs
of the event loop. Every answer of the chain, the clock and the cache is an argument and may differ
from call to call; the iteration order of a hash map is an arbitrary enumeration (`scan`).

What the statements assume, where they assume it:

- Deadlines fit in 64 bits; the code converts with `.to()`, which panics otherwise.
- Hash values are unbounded integers, so that a collision-free hash function exists; theorems that
  need it require `CollisionFree` (keccak) or `FromBook` (an order hash determines the order).
- A client subscribes between two actions. On several threads it may also do so between the storing
  of a status and its broadcast: it then receives that broadcast, and counts here as subscribed
  before the action. The one broadcast that can follow its own reply, that of a registration, is
  the `echo` of `ClosesIffPendingAtSubscription`.
- The ABI field order of an output is token, amount, recipient, chain id; the contract bindings are
  not part of this model.

Three promises of the documentation are false of the code; the code is modelled as it is, with a
witness and the exact condition for each:

- "Closes when the order reaches a terminal state" (README.md:40, handlers.rs:28-29). The
  single-order session subscribes after it has received the first report. `TerminalMissedInGap` is a
  run in which the terminal message falls into that gap and the session stays open for good, unless
  the order is registered anew;
  `ClosesIffPendingAtSubscription` says that the session of a finished order closes iff the order was
  still pending when it subscribed, or was registered anew since.
- Discovery "polls the tx-cache for new orders and forwards them" (order_discovery.rs:13-14). A poll
  that fails midway leaves what it streamed in `seen_hashes`. By `HiddenForGood` such an order is
  never forwarded while it stays in the cache; `NewOrderForwardedIff` says a new order is forwarded
  iff no failed poll since the last success had streamed it.
- Pending means that "the Permit2 nonce has not been consumed, and the deadline has not passed"
  (order_status.rs:11). A failed nonce query reports Pending too. `PendingPastDeadline` is such a
  status that cannot be true; `PendingMeansIff` says that a Pending status vouches for both facts,
  whatever the nonce really is, iff the query was answered.

One more holds conditionally: statuses of one order go up only as long as nonce queries are answered
(`RankDropsOnFailedQuery`, `RanksDropOnlyUnanswered`).

A cached symbol is likewise kept only conditionally: from any cache that does not know an address, as
the seeded one does not know most, a race can lose its symbol (`LateFailureWins`), and a cached symbol is
safe iff no lookup is out for it (`SettledIffQuiet`).

The fill search looks for host fills at the rollup block number of the initiation although the two
chains number their blocks independently; the model keeps this.

## Model

| member | source | states |
|---|---|---|
| FillMatching.FillOutputsAreSuperset | crates/tracker/src/fill_search.rs:189-205 | the loop that consumes a scrambled vector returns true iff every output of the order has an output of the fill to itself with the same token, amount and recipient |
| FillMatching.SwapRemove | crates/tracker/src/fill_search.rs:202 | removing with a swap takes away exactly one occurrence of the element and keeps all others |
| FillMatching.CoversIffAssignment | crates/tracker/src/fill_search.rs:182-185 | inclusion holds iff every order output has a distinct matching fill output |
| FillMatching.CoversIffPaid | crates/tracker/src/fill_search.rs:195-200 | covering, stated on the fields: distinct outputs of the fill, one per output of the order, of equal token, amount and recipient |
| FillMatching.CoversIgnoresOrder | crates/tracker/src/fill_search.rs:182-185 | the order of outputs is irrelevant on both sides |
| FillMatching.CoversIgnoresChain | crates/tracker/src/fill_search.rs:187-188 | chain ids never matter, on either side |
| FillMatching.CoversIsPreorder | crates/tracker/src/fill_search.rs:182-185 | covering is reflexive and transitive |
| FillMatching.CoversAggregates | crates/tracker/src/fill_search.rs:183-184 | a fill that aggregates two fills covers the two orders together |
| OrderEventKey.DecodeKeyInverse | crates/tracker-server/src/state/event_store.rs:165-171 | a decoder recovers deadline and outputs from the hashed byte string |
| OrderEventKey.EncodeKeyInverse | crates/tracker-server/src/state/event_store.rs:165-171 | whatever the decoder accepts is the canonical encoding of what it returns |
| OrderEventKey.KeyLayout | crates/tracker-server/src/state/event_store.rs:165-171 | eight deadline bytes, then words of 32, the number of outputs, and token, amount, recipient and chain id of each output |
| OrderEventKey.EncodeKeyInjective | crates/tracker-server/src/state/event_store.rs:165-171 | two byte strings are equal iff deadlines and outputs are |
| OrderEventKey.KeyIdentifiesOrder | crates/tracker-server/src/state/event_store.rs:24 | barring hash collisions the key uniquely identifies deadline and outputs |
| EventHistory.StoredIffSurvives | crates/tracker-server/src/state/event_store.rs:57-64 | an event is held under a block iff some insertion of it was followed only by tip updates whose cutoff left the block in |
| EventHistory.StoredInOrder | crates/tracker-server/src/state/event_store.rs:57-59 | survivors of a block stand in insertion order |
| EventHistory.StoredAppend | crates/tracker-server/src/state/event_store.rs:97-113 | what one more call does to every block, for tips that may go back and inserts below the cutoff |
| EventHistory.FindOrderAppend | crates/tracker-server/src/state/event_store.rs:97-118 | what one more call does to every key: an insert overwrites, a rollup cutoff past the block erases for good |
| EventHistory.FindOrderIffCurrent | crates/tracker-server/src/state/event_store.rs:145-152 | a key yields an event iff it is the last one inserted with the key and no later rollup cutoff passed its block |
| EventHistory.SurvivalByLatestTip | crates/tracker-server/src/state/event_store.rs:61-64 | under growing tips survival is one comparison with the latest cutoff |
| EventStores.ChainEvents.InsertFilled | crates/tracker-server/src/state/event_store.rs:57-59 | appends to the event's block, creating it if absent, and touches no other block |
| EventStores.ChainEvents.Prune | crates/tracker-server/src/state/event_store.rs:61-64 | keeps exactly the blocks at or above the saturating cutoff |
| EventStores.EventStore.UpdateTips | crates/tracker-server/src/state/event_store.rs:97-105 | after tips and pruning, both chains and the order index agree with the extended history |
| EventStores.EventStore.InsertFilled | crates/tracker-server/src/state/event_store.rs:108-113 | routing by chain keeps the whole store in agreement with the extended history |
| EventStores.EventStore.InsertOrder | crates/tracker-server/src/state/event_store.rs:116-118 | overwriting the index entry keeps the store in agreement with the extended history |
| EventStores.ChainEvents.FindMatch | crates/tracker-server/src/state/event_store.rs:130-138 | none iff nothing stored covers; else the first inserted covering event of the greatest block with one |
| EventStores.EventStore.FindMatchingFill | crates/tracker-server/src/state/event_store.rs:124-142 | none iff neither chain covers; else, of the rollup if the rollup has one, the event of the history that is the newest block's first inserted covering survivor |
| EventStores.NoMatchIffNoSurvivor | crates/tracker-server/src/state/event_store.rs:124-142 | the stored blocks hold no match iff no surviving insertion of the history covers |
| EventStores.MatchIsNewestSurvivor | crates/tracker-server/src/state/event_store.rs:130-138 | the match found in the stored blocks is an insertion of the history no covering survivor of a newer block or earlier in its own precedes |
| EventStores.EventStore.FindOrderTx | crates/tracker-server/src/state/event_store.rs:145-152 | the hash index answers what the history answers |
| EventStores.OrderTxIffLastInsert | crates/tracker-server/src/state/event_store.rs:145-152 | a transaction is found iff the last order event with that deadline and outputs carried it and outlived every rollup cutoff since |
| EventStores.EventStore.FilledCount | crates/tracker-server/src/state/event_store.rs:155-157 | counts exactly the surviving insertions of both chains |
| EventStores.EventStore.OrderCount | crates/tracker-server/src/state/event_store.rs:160-162 | counts exactly the keys the history still answers |
| FillSearch.FindOrderInitiation | crates/tracker/src/fill_search.rs:142-180 | queries a range of blocks and returns its first decodable log with a block, a transaction and the order's deadline |
| FillSearch.FindFillEvents | crates/tracker/src/fill_search.rs:57-124 | queries a range of blocks and returns its first decodable log with a block and a transaction whose outputs cover the order |
| FillSearch.FindFill | crates/tracker/src/order_tracker.rs:214-271 | asks for initiations from the tip saturating-minus 300 up to the tip, then for fills of the initiation's block on both chains, and composes the answers, failures included |
| FillSearch.FindFillCorrect | crates/tracker/src/order_tracker.rs:214-271 | a fill is reported iff it is the first covering log at the block of the window's first initiation, rollup before host; none iff there is no initiation or no covering log at its block |
| FillSearch.FindFillFails | crates/tracker/src/order_tracker.rs:262-265 | the search fails iff a query it needed failed, also when the other chain matched |
| FillSearch.FillIsAtInitiation | crates/tracker/src/order_tracker.rs:226-259 | if providers return only logs of the range asked for, the fill lies in the very block of the initiation, and that within 300 blocks of the tip |
| FillSearch.FindFillOnChain | crates/tracker/src/order_tracker.rs:214-271 | if providers return exactly the logs of the range, the search finds the chains' first initiation of the window and its block's first covering fill, and nothing iff the chains have no such pair |
| FillSearch.FindFillExactly | crates/tracker/src/order_tracker.rs:226-259 | on the fields of the chains' logs: a fill is reported iff it describes the first paying log, rollup before host, in the block of the first log with the order's deadline at most 300 blocks behind the tip |
| StatusDerivation.CheckTokens | crates/tracker/src/order_tracker.rs:124-210 | the loop shared by the balance and allowance checks computes the specified report |
| StatusDerivation.ChecksInOrder | crates/tracker/src/order_tracker.rs:133-155 | the checks list every successful query, in order, and are as many as those |
| StatusDerivation.VerdictMeaning | crates/tracker/src/order_tracker.rs:131-159 | True iff there are tokens and all suffice; False iff the last query that did not suffice succeeded; else Unknown |
| StatusDerivation.StatusForOrder | crates/tracker/src/order_tracker.rs:65-97 | the derivation over the real scan and check loops gives the status the answers call for: its kind by nonce and deadline, the fill the search locates, or the diagnostics field by field |
| StatusDerivation.ReportIsChecked | crates/tracker/src/order_tracker.rs:124-210 | each check has the token, amounts, comparison and symbol of its own answered query; the verdict is stated on the amounts |
| StatusDerivation.DerivedIsCalledFor | crates/tracker/src/order_tracker.rs:65-97 | the specified status carries the located fill iff Filled, and otherwise balances, allowances, cache flag, expiry and times from their own answers |
| StatusDerivation.StatusOf | crates/tracker/src/order_tracker.rs:65-97 | Filled iff the nonce is consumed, Expired iff it is not and the deadline lies before now; hash and owner are the order's |
| StatusDerivation.PendingMeansIff | crates/tracker/src/order_status.rs:11 | whatever the nonce may really be, a Pending status has an unconsumed nonce and an open deadline behind it iff the nonce query was answered; that it possibly has them, iff the deadline is open |
| StatusDerivation.PendingPastDeadline | crates/tracker/src/order_tracker.rs:72-74 | with the nonce query failing, an order past its deadline is Pending with unknown checks, against the promise whatever the nonce |
| SymbolCache.TokenSymbolCache.constructor | crates/tracker/src/token_symbol_cache.rs:27-41 | which symbol each seeded address gets, host tokens winning where addresses coincide |
| SymbolCache.TokenSymbolCache.Lookup | crates/tracker/src/token_symbol_cache.rs:45-48 | a cached symbol is returned, otherwise the lookup goes out to the chain |
| SymbolCache.TokenSymbolCache.Store | crates/tracker/src/token_symbol_cache.rs:50-62 | the answer, or "unknown" on failure, is cached and returned |
| SymbolCache.QuietIsForGood | crates/tracker/src/token_symbol_cache.rs:43-63 | over any interleaving, a cached symbol with no lookup out for it never changes and is never queried again |
| SymbolCache.SettledIffQuiet | crates/tracker/src/token_symbol_cache.rs:43-63 | a cached symbol survives every continuation iff no lookup is out for its address |
| SymbolCache.OutstandingOnlyShrinks | crates/tracker/src/token_symbol_cache.rs:43-63 | once an address is cached, only lookups already out can still query it |
| SymbolCache.LateFailureWins | crates/tracker/src/token_symbol_cache.rs:43-63 | from any cache without the address, two overlapping lookups can leave "unknown" over the symbol just resolved, on every continuation |
| Lifecycle.ActBroadcasts | crates/tracker-server/src/state/state_manager.rs:146-160 | a pending order that is refreshed always gets exactly one message, whatever it comes out as |
| Lifecycle.Invariant | crates/tracker-server/src/state/state_manager.rs:144-167 | in every reachable state keys, hashes and owners agree, every tracked status is the last broadcast, and every order no longer tracked had a terminal last broadcast |
| Incarnations.IncarnationsOfRun | crates/tracker-server/src/state/state_manager.rs:127-269 | every broadcast lies in an incarnation opened by a registration that is announced at once, with only its last message terminal; two terminal messages are separated by eviction and re-registration; evictions follow terminal messages |
| Incarnations.Conservation | crates/tracker-server/src/state/state_manager.rs:163-167 | per order: registrations = terminal broadcasts + still pending = evictions + still tracked |
| Justification.EveryBroadcastHasACause | crates/tracker-server/src/state/state_manager.rs:205-220 | each broadcast was caused by one action whose answers support it: Filled by a consumed nonce, Expired by an unconsumed one past the deadline, a confirmed fill by a covering event it names |
| Justification.RanksDropOnlyUnanswered | crates/tracker/src/order_tracker.rs:65-97 | with a steady clock and irreversible nonces, a later message ranks at least as high iff its nonce query was answered or the earlier one was Pending |
| Justification.RanksNeverDrop | crates/tracker/src/order_tracker.rs:65-97 | with every nonce query answered, Pending < Expired < Filled never goes down, across evictions and re-registrations |
| Justification.RankDropsOnFailedQuery | crates/tracker/src/order_tracker.rs:72-74 | a run of the event loop, clock and nonces behaving, in which one failed nonce query turns an expired, evicted, rediscovered order back to Pending |
| Arms.LegalIsAllowed | crates/tracker-server/src/state/state_manager.rs:95-122 | every arm of the event loop is an allowed sequence of lifecycle actions |
| Arms.NewBlocksEffect | crates/tracker-server/src/state/state_manager.rs:127-170 | exactly one message per order pending at entry, exactly those re-derived as Pending stay, the rest is evicted, and before = evicted + remaining |
| Arms.FilledEffect | crates/tracker-server/src/state/state_manager.rs:191-235 | exactly the pending, covered orders whose nonce is consumed become Filled, one message each; all others are unchanged |
| Arms.FillReported | crates/tracker-server/src/state/state_manager.rs:287-314 | the reported fill has that event's block and transaction, its outputs one by one on its chain without symbols, and the initiation the store knew before it |
| ArmEffects.FilledPerOrder | crates/tracker-server/src/state/state_manager.rs:191-235 | an order becomes Filled with the event's own report, said once, iff it was pending, the event pays all its outputs and its nonce is consumed; any other is unchanged and unmentioned |
| ArmEffects.NewBlocksPerOrder | crates/tracker-server/src/state/state_manager.rs:127-170 | each pending order is said once to have the status its own answers and cache membership call for, and stays iff that is Pending; all else is evicted, unmentioned otherwise; the tips are recorded |
| ArmEffects.RegisterPerOrder | crates/tracker-server/src/state/state_manager.rs:240-269 | an untracked order is registered and announced with the status its answers call for, as being in the cache; a tracked one changes nothing |
| ArmEffects.OtherArms | crates/tracker-server/src/state/state_manager.rs:180-183 | an order event extends the history and changes nothing else; a snapshot changes nothing |
| Arms.StepsAreActions | crates/tracker-server/src/state/state_manager.rs:95-122 | every run of the event loop is an allowed run of actions ending in the same state |
| StateManagers.StateManager.RefreshOrder | crates/tracker-server/src/state/state_manager.rs:139-161 | one round of the pending loop is one refresh action |
| StateManagers.StateManager.HandleNewBlocks | crates/tracker-server/src/state/state_manager.rs:127-170 | the whole new state is that of a legal new-blocks arm |
| StateManagers.StateManager.FindCandidates | crates/tracker-server/src/state/state_manager.rs:192-203 | lists, once each, exactly the pending orders all of whose outputs the event pays |
| StateManagers.StateManager.ConfirmFill | crates/tracker-server/src/state/state_manager.rs:205-234 | one round of the candidate loop is one fill check, with the event's own report |
| StateManagers.StateManager.BuildFillInfo | crates/tracker-server/src/state/state_manager.rs:287-314 | the report built from event and store is the specified one |
| StateManagers.StateManager.HandleFilled | crates/tracker-server/src/state/state_manager.rs:173-235 | the whole new state is that of a legal filled-event arm |
| StateManagers.StateManager.HandleOrderEvent | crates/tracker-server/src/state/state_manager.rs:180-183 | the history grows by this insertion, and tracked orders and log stay |
| StateManagers.StateManager.RegisterOrder | crates/tracker-server/src/state/state_manager.rs:240-269 | registers and announces an untracked order, leaves a tracked one alone, and replies with the tracked status either way |
| StateManagers.StateManager.Snapshot | crates/tracker-server/src/state/state_manager.rs:115-120 | one status per tracked order, the tracked one |
| StateManagers.StateManager.RunInner | crates/tracker-server/src/state/state_manager.rs:88-123 | the event loop over any inputs is a legal run of arms over those inputs |
| OrderViews.App.UpdateOrder | crates/tracker-server/examples/tui/app.rs:22-32 | replaces the one row of the order in place, or appends one if there is none, and selects the first row ever added |
| OrderViews.ReplayShowsLast | crates/tracker-server/examples/tui/app.rs:22-32 | after any stream of messages the view has one row per order, showing its last message |
| OrderViews.App.Receive | crates/tracker-server/examples/tui/main.rs:73-79 | the receive loop replays the messages into the view |
| OrderViews.App.SelectNext | crates/tracker-server/examples/tui/app.rs:42-51 | moves down by one, stops at the last row, never selects outside the list |
| OrderViews.App.SelectPrev | crates/tracker-server/examples/tui/app.rs:53-62 | moves up by one and stops at the first row |
| OrderViews.App.Counts | crates/tracker-server/examples/tui/app.rs:65-77 | counts each kind, and the three add up to the rows |
| Subscriptions.HandleAllOrders | crates/tracker-server/src/ws/handlers.rs:152-225 | sends the snapshot unfiltered, then, until the channel closes or the client leaves, exactly the updates whose kind and owner the last valid filter before them lists or leaves open |
| Subscriptions.UnfilteredRelaysAll | crates/tracker-server/src/ws/handlers.rs:156-190 | without a filter message every update is forwarded, in order |
| Subscriptions.QuietIsUnchanged | crates/tracker-server/src/state/state_manager.rs:146-160 | a tracked order about which nothing was said since was tracked then with the same status |
| Subscriptions.Convergence | crates/tracker-server/src/ws/handlers.rs:160-190 | subscribing before the snapshot misses nothing: despite stale replays the view shows every tracked order's status, and any other entry is that order's last, terminal, broadcast |
| Subscriptions.AllOrdersClientConverges | crates/tracker-server/src/ws/handlers.rs:152-225 | the same end to end, for runs of the event loop and what the session forwards |
| Subscriptions.OwnerFilterConverges | crates/tracker-server/src/ws/handlers.rs:186-212 | a client whose filters, however often changed, are by owner only converges on the orders of every owner that all of them include |
| Subscriptions.HandleSingleOrder | crates/tracker-server/src/ws/handlers.rs:84-137 | forwards the report and exactly the order's updates up to the first Filled or Expired one, the channel closing or the client leaving, and ends accordingly |
| Subscriptions.SingleSessionShape | crates/tracker-server/src/ws/handlers.rs:84-137 | the server closes iff the report is terminal, or the order finishes or the channel closes before the client leaves; nothing follows a terminal message |
| Subscriptions.FinishesSince | crates/tracker-server/src/state/state_manager.rs:127-269 | over any stretch of any run, terminal messages about an order + still pending = pending before + registrations |
| Subscriptions.ClosesIffPendingAtSubscription | crates/tracker-server/src/ws/handlers.rs:78-98 | for an order reported Pending, the session closes iff more was pending at subscription or registered since than is pending at the end; so if the order is finished, iff it was pending at subscription or registered anew since |
| Subscriptions.OpenSessionKnowsIff | crates/tracker-server/src/ws/handlers.rs:78-98 | while the session is open and its order tracked, the last status sent is the tracked one iff there was a broadcast about the order since the subscription or its status then was the reported one |
| Subscriptions.TerminalMissedInGap | crates/tracker-server/src/ws/handlers.rs:78-98 | a run of the event loop that fills and evicts the order between report and subscription, after which the session stays open on every continuation without a new registration |
| OrderDiscovery.PollCache | crates/tracker-server/src/ingestion/order_discovery.rs:65-89 | a completed poll returns the first occurrences of unseen hashes and leaves exactly the cache as seen; a failed one returns nothing and keeps what it streamed |
| OrderDiscovery.RunInner | crates/tracker-server/src/ingestion/order_discovery.rs:33-61 | forwards the new orders of each successful poll in order and publishes the hashes of the latest one |
| OrderDiscovery.ForwardsIff | crates/tracker-server/src/ingestion/order_discovery.rs:70-81 | a poll forwards a hash, once, iff it succeeded, has it, and no earlier poll showed it without a successful poll lacking it since |
| OrderDiscovery.ForwardsItsOwn | crates/tracker-server/src/ingestion/order_discovery.rs:65-89 | a poll forwards its own orders, in its order: the first of each hash that no earlier poll showed without a successful one lacking it since |
| OrderDiscovery.NotForwardedTwice | crates/tracker-server/src/ingestion/order_discovery.rs:70-81 | between two forwards of a hash lies a successful poll without it, also over failed polls |
| OrderDiscovery.NewOrderForwardedIff | crates/tracker-server/src/ingestion/order_discovery.rs:65-81 | an order new since the last success is forwarded by the next one iff no failed poll in between streamed it |
| OrderDiscovery.FailedPollHidesOrder | crates/tracker-server/src/ingestion/order_discovery.rs:70-81 | once any poll, failed or not, has shown an order, no poll forwards it until a successful one was without it |
| OrderDiscovery.HiddenForGood | crates/tracker-server/src/ingestion/order_discovery.rs:70-81 | an order first streamed by a failed poll, and in every successful poll after, is never forwarded |
| OrderDiscovery.HiddenExample | crates/tracker-server/src/ingestion/order_discovery.rs:70-81 | the smallest such run: a failed and a successful poll |
| OrderDiscovery.CachedIsSeen | crates/tracker-server/src/ingestion/order_discovery.rs:52-56 | every hash published as cached counts as seen |
| OrderDiscovery.CachedIsLatest | crates/tracker-server/src/ingestion/order_discovery.rs:52-56 | the hashes published as cached are exactly those of the latest successful poll |
| OrderDiscovery.ForwardsWhatEnters | crates/tracker-server/src/ingestion/order_discovery.rs:65-81 | without failures a poll forwards exactly what was not in the cache at the poll before, and seen equals the cache |
| OrderDiscovery.ForwardedCountsEntries | crates/tracker-server/src/ingestion/order_discovery.rs:65-81 | without failures an order is forwarded as often as it enters the cache |
| BlockWatching.PollHostTip | crates/tracker-server/src/ingestion/block_watcher.rs:157-179 | the first round that is not a stale tip decides, with exactly what it met, and an advance strictly exceeds the previous tip |
| BlockWatching.WatchBlocks | crates/tracker-server/src/ingestion/block_watcher.rs:105-154 | exactly one publication per header got through, of its number and the first host tip past the last; what ends the watch and what it then publishes; host tips strictly increase, except that cancellation may repeat the last |
| BlockWatching.HostSurvivalByLatestTip | crates/tracker-server/src/ingestion/block_watcher.rs:99-102 | whatever subsequence of published tips is delivered, host survival in the store is one comparison with the latest cutoff |
| Composition.RegistrationsOfRun | crates/tracker-server/src/state/state_manager.rs:245-267 | the log records a registration for every registering action and no other |
| Composition.TerminalsBounded | crates/tracker-server/src/ingestion/order_discovery.rs:65-89 | an order is declared finished at most as often as it was forwarded or requested, and without failed polls at most as often as it entered the cache or was requested |

## Left out

- RPC, log subscriptions, HTTP routing, WebSocket sends, timeouts and retries: their results are inputs of the model; sends are taken to succeed.
- Broadcast lag: a lagged receiver loses messages, so convergence is stated for clients that do not lag.
- Views filtered by status: such a filter drops terminal updates by design; only what is forwarded is specified.
- A snapshot request that is never answered: `HandleAllOrders` covers it, convergence does not.
- The priority among ready arms of the event loop: runs allow every interleaving.
- Decoding of raw logs and the Permit2, ERC-20 and transaction-cache interfaces: a log that does not decode is an absent field, a query is its answer.
- Symbols in reports: the searches take them as inputs, one per output, rather than from the cache object.
- The providers' log filters: that a provider returns only, or exactly, the logs of the requested blocks is a hypothesis of `FillIsAtInitiation` and `FindFillOnChain`.
- The shared range types of statuses in JSON, durations and timestamps: serialization is done by libraries.
- Metrics, tracing, drawing, task wiring and shutdown of the other tasks: no property of the lifecycle depends on them.
