# A sovereign exchange and its agent fleet: models and proofs

This project models the parts of the repository where state, arithmetic and protocol meet, and proves
what they keep. Each component is stated twice: on values, where its laws are proved for every input and
every run, and as the mutable objects and loops the code uses, whose methods are proved to do to their
fields exactly what the value form says.

| files | what they model |
|---|---|
| `Orders`, `PriceTime`, `GreedyLaws`, `BookLaws`, `MatchLaws`, `Liquidity`, `FillOrKill`, `Runs`, `Conservation` | the matching rules on values: one walk over a queue of makers, the sweep of the price levels, the whole `match` call, and whole runs of calls |
| `OrderBook`, `BookViews`, `Matching` | the mutable book and the matching engine: orders whose fill counters change in place, levels replaced as they are swept, rollback, published events |
| `Settlement` | the shadow ledger: positions, truncated realized P&L, P&L per subaccount |
| `EventBus` | the bounded replay buffer, its subscribers, and the two SSE generators as interleaved steps |
| `Authority`, `AuthorityLaws`, `AuthorityRuns`, `ControlPlane` | certificates under a rotating root, the agent registry, the gateway with its idempotency cache; who is known, revoked and live, told from the steps of a run alone |
| `HashChain`, `Ledgers` | the signed hash chain, the ledger that writes it, the verifier of a copied store |
| `PaperTrading`, `PaperBoundary`, `PaperExchange` | risk evaluation, signed trade authorizations, the account they are applied to |
| `RegimeFilter` | the two-state hidden Markov filter |
| `StreamingStats` | Welford statistics, CUSUM and Page-Hinkley detectors |
| `ZkGroup`, `ZkAttestation`, `ZkExtraction` | double-and-add, the per-bit OR proofs, the range attestation, openings from two transcripts |
| `Sums`, `Wrappers` | finite sums, shared vocabulary |

## How the model reads the code

* Order ids are fresh, and an order arrives at the engine with nothing filled; the engine's callers see to both.
* Hashes are injective: a digest stands for what was hashed. Signatures are ideal: a signature verifies
  exactly if its key made it over that very content, so any presented certificate, entry or authorization
  whatever is covered. A root key is named by its epoch, an agent's key pair is fresh at each issue.
* Floating-point numbers are reals. The clock is its whole seconds. Random ids and scalars are parameters.
* The points of secp256k1 (section 2.4.1 of SEC 2 version 2.0) are an arbitrary abelian group of finite order.
* Gaussian densities are arbitrary positive functions; the log-space shift of the filter cancels in the quotient.

## Where the code and its documentation part

The model follows the code. Each point below is a lemma, with the exact condition where there is one.

* `_find_resting` (exchange/core/matching.py:242-247) reads the id of a level, not of an order, so it raises
  as soon as any level exists. Both lookups are modelled. As written, a call raises exactly if it is a valid
  fill-or-kill its eligible makers fall short of and the book holds any order besides the first of them
  (`RaisesIff`), which is known before the call; it then loses a maker, and conservation over a run holds
  exactly if no call meets such a book (`RunConservesIff`). Two resting asks and a larger fill-or-kill buy
  make such a run (`AmbushBreaks`, `AmbushIsPossible`). With the lookup over orders it never raises.
* A rollback re-adds makers at the tail. A level keeps its queue exactly if no order the taker passed by
  stood behind one that traded (`KillKeepsQueueIff`), and trades already announced stay announced (`Match`).
* exchange/core/settlement.py:66 is true of every reduction, so a partial close also resets the average
  price. `MarkToMarket` carries the term this loses, `ResetHarmlessIff` says when it is zero.
* `bus_stream_gen` unsubscribes only once past its backlog: closed before that, it stays subscribed
  (`Stream.Close`). The async generator ignores `since_seq` (`AsyncReachesIff`).
* Publishing a known agent again restarts its certificate numbers, so that superseded certificates of the same
  number are honoured again. Which ones, after publishing and after rotating, is exact
  (`RepublishHonoursOldIff`, `RotateHonoursOldIff`); so is when the one on file is the only one honoured
  (`OnlyOnFileIff`), when it stays so (`UnrivalledIff`), when every grant of a run is deserved
  (`GrantsDeservedIff`), and when a superseded certificate still gets one (`SupersededGrantedIff`).
  `DemotedStillGranted` and `SupersededRevived` are such runs. A replayed key answers for the capability it was
  first used for (`ReplayAnswersFirst`). Root rotation is documented to re-issue live certificates; it re-issues all on
  file, which revives expired ones (`RootRotationRevives`).
* An entry's `id` is not signed; the verifier's filter and count still leave only genuine entries (`AcceptedIff`).
* `apply` does not compare the market it fills in with the one evaluated, so a sale can break the loss cap
  (`MovedMarketBreaksCap`); an account stays inside its mandate over a run exactly if every sale fell no further
  than the slack its evaluation left (`RunWithinIff`). A negative price band passes the boundary but not the
  evaluation (`BandsAgreeIff`). The concentration warning values every other holding at nothing, adds the order to
  the account's value, and is tested after rounding (`WarnsAboveIff`). At any prices of the other holdings, its
  estimate for a purchase is below the share really left exactly if those are worth less than the order, and above
  it exactly if they are worth more (`EstimateIff`, with an account it needlessly escalates for in
  `SmallPurchaseEscalates`); rounding moves it by half a millionth at most (`ReportedIsEstimate`, `RoundingLifts`).
  Nothing in the evaluation reads `max_position_pct` (`PositionCapUnread`); whatever it is, an order inside every
  checked bound can leave more in its position (`PositionCapUnenforced`, `PositionCapIff`).
* An authorization is documented to be refused from its expiration second on; it still executes in that second
  (`ExecutedIff`).
* The bit proofs are documented to show that each commitment opens to 0 or to its power of two. Both branches
  check the same equation, which asks for an opening to any integer (`OpeningAcceptedIff`), so an attestation is
  accepted whatever its commitment's value (`AnyValueAttested`). What remains true is that an opening is known:
  two accepted transcripts with the same first messages yield one (`TwoAnswersOpen`).
* Opening a ledger on a store is documented to extend one chain. It does, for a store that is whole
  (`BeginsInForce`, `RunIsOneChain`); but nothing of the store is checked, its checkpoint included, so on one cut
  short the next append signs a second entry at an old place, and both stores are accepted (`ReopenedShortForks`).
* The drift of the regime detector is documented as a change of posterior mean; it is the distance from the
  oldest raw observation of the window (`RegimeDetector.Handle`).
* The lower CUSUM adds its slack where it should take it away, so a stream that never leaves its target
  raises the alarm (`OnTargetAlarmIff`). The rolling deque is bounded by the window as given, not by the
  window reported (`OnlineStats.WindowIsLast`).

## Model

| member | source | states |
|---|---|---|
| `Orders.Order.Validate` | exchange/core/order.py:64-77 | an order passes exactly if its quantity is positive and, unless it is a market order, its price is 1 to 99 cents; otherwise ValueError |
| `GreedyLaws.SweepIsWalk` | exchange/core/matching.py:93-101 | sweeping the opposite side level by level is one walk over a single flat queue in price order; other prices are untouched |
| `GreedyLaws.WalkGreedy` | exchange/core/matching.py:124-183 | the fills of a walk are the greedy allocation: the k-th fill is the k-th eligible maker's share after all makers ahead of it, at that maker's price, and fills stop exactly where shares do |
| `GreedyLaws.GreedyUnique` | exchange/core/matching.py:124-183 | the greedy allocation leaves no freedom: two greedy fill lists are equal |
| `GreedyLaws.NonePassedOver` | exchange/core/matching.py:124-183 | no maker is passed over: whoever stands ahead of one that trades has traded all it had |
| `GreedyLaws.WalkTotals` | exchange/core/matching.py:124-183 | the quantity filled is the smaller of what is wanted and what the eligible makers have |
| `GreedyLaws.WalkDry` | exchange/core/matching.py:131-182 | a taker left wanting has hit every eligible maker and leaves exactly the makers it passed by |
| `MatchLaws.RankedUnique` | exchange/core/matching.py:3-6 | there is one ranking of given orders by price, then arrival |
| `MatchLaws.AgainstRanks` | exchange/core/matching.py:93-101 | the eligible makers the sweep meets are ranked by price and arrival, and are all the eligible ones in the book |
| `MatchLaws.SweepIsGreedy` | exchange/core/matching.py:122-183 | whatever the sweep does level by level is the greedy allocation over the ranking; if it falls short it has hit the whole ranking |
| `MatchLaws.MatchIsGreedy` | exchange/core/matching.py:103-240 | a call that does not roll back fills greedily up to the smaller of its quantity and the eligible liquidity; when it is full and when its remainder rests |
| `MatchLaws.FillsRespectLimits` | exchange/core/matching.py:66-83 | every fill is positive, at the price of a maker in the book and within what it had, inside the taker's limit, and never within one subaccount under self-trade prevention |
| `MatchLaws.DryLeftovers` | exchange/core/matching.py:131-183 | after a sweep that fell short the opposite side holds exactly the orders that were not eligible |
| `MatchLaws.HitsReturnable` | exchange/core/matching.py:185-202 | every maker a failed fill-or-kill traded with has left the book, live before and under its own id, so each comes back from the consumed ones |
| `MatchLaws.ExecuteKeeps` | exchange/core/matching.py:103-240 | every call, whatever its order type, lifetime and lookup, keeps the index well formed and the book uncrossed |
| `Liquidity.RejectedIff` | exchange/core/order.py:64-77 | a call raises a ValueError exactly on a quantity that is not positive or, market orders aside, on a price that is missing or not 1 to 99 |
| `Liquidity.FilledIsAvailable` | exchange/core/matching.py:66-240 | a taker gets the smaller of its quantity and what the orders of the other side have left that it may trade with: a market order at any price, any other within its limit, never its own subaccount's under prevention; when it is full, when its remainder rests, and that a fill-or-kill short of it gets nothing |
| `Liquidity.NobodyLeftBehind` | exchange/core/matching.py:66-183 | a taker that wanted more than that leaves on the other side exactly the orders it may not trade with, as they stood |
| `Liquidity.PriorityKept` | exchange/core/matching.py:3-6 | whoever the taker may trade with, at a better price or at the same price and earlier than one that traded, has itself traded all it had, before it |
| `Liquidity.FillIsOf` | exchange/core/matching.py:145-165 | every fill names the taker, one live order it may trade with, that order's price, at most what it had left, both subaccounts and the instrument |
| `FillOrKill.FokAllOrNothing` | exchange/core/matching.py:185-210 | a fill-or-kill fills completely exactly if eligible liquidity covers it; otherwise it reports no fills and the taker is unfilled |
| `FillOrKill.FokRestores` | exchange/core/matching.py:189-203 | a completed kill leaves each level with the same orders filled as before: those passed by, then those put back; the taker's own side does not move |
| `FillOrKill.PartitionComplete` | exchange/core/matching.py:189-203 | passing by and putting back loses and adds no order |
| `FillOrKill.KillKeepsQueueIff` | exchange/core/book.py:53-62 | a level's queue survives a kill exactly if no order passed by stood behind an eligible one; otherwise it holds an order of the taker's own subaccount |
| `FillOrKill.KillRaisesIff` | exchange/core/matching.py:242-247 | as written a kill raises exactly if some maker traded and the book held any other order; over orders it never raises |
| `FillOrKill.RaisesIff` | exchange/core/matching.py:185-247 | any call raises from its rollback exactly if it is a valid fill-or-kill, its eligible makers fall short of it, and, as written, the book holds any order besides the first of them |
| `Runs.RunNeverCrosses` | exchange/core/matching.py:103-240 | in every run a bid at or above an ask is of the same subaccount, under prevention only; without prevention the best bid is below the best ask |
| `Conservation.CallAccounts` | exchange/core/matching.py:145-183 | one call fills each resting order by exactly what the returned fills give it, and drops it only when that is all it had |
| `Conservation.TakerAccounts` | exchange/core/matching.py:155-226 | the taker's counter is the sum of its fills, and it is in the book afterwards exactly if its remainder rested |
| `Conservation.RunConserves` | exchange/core/matching.py:145-226 | over every run whose calls meet no such book each order's quantity is what it traded, what rests and what was cancelled |
| `Conservation.RunConservesIff` | exchange/core/matching.py:185-210 | that conservation holds over a run exactly if no call of it met a book its rollback breaks on, as the book stood before the call |
| `Conservation.BreakLoses` | exchange/core/matching.py:189-202 | a call on such a book loses an order for good |
| `Conservation.AmbushBreaks` | exchange/core/matching.py:185-247 | two asks of one contract each by other subaccounts, then a fill-or-kill buy of more than two: the third call of every such run breaks and conservation fails |
| `Conservation.IntendedNeverBreaks` | exchange/core/matching.py:242-247 | with the lookup over orders no call of any run breaks off |
| `Conservation.BoughtIsSold` | exchange/core/matching.py:145-165 | over every run, whatever its rollbacks do, what buyers bought is what sellers sold |
| `BookViews.SnapshotAggregates` | exchange/core/book.py:91-100 | the snapshot lists each price with live orders once, in order, with their total remaining quantity, computed from the flat set of live orders |
| `BookViews.DepthIsCount` | exchange/core/book.py:102-105 | the level sizes add up to the number of live orders |
| `OrderBooks.OrderBook.Add` | exchange/core/book.py:53-62 | adding appends at the tail of the order's own level under the next arrival number, or raises and changes nothing |
| `OrderBooks.OrderBook.RemoveFilled` | exchange/core/book.py:70-81 | a filled order leaves its level, an emptied level leaves the book, an order with quantity left is not touched |
| `OrderBooks.OrderBook.ReplaceLevel` | exchange/core/book.py:83-89 | one level is replaced, or dropped if empty; the other side does not move |
| `OrderBooks.OrderBook.BestQuotes` | exchange/core/book.py:64-68 | best bid and ask are the extremes over the flat set of live orders, absent exactly if there are none |
| `OrderBooks.OrderBook.DepthCountsOrders` | exchange/core/book.py:102-105 | the depth is the number of live orders on both sides |
| `OrderBooks.OrderBook.SnapshotShows` | exchange/core/book.py:91-100 | the mutable book's snapshot is the aggregate of its live orders |
| `Matching.MatchingEngine.Cross` | exchange/core/matching.py:133-182 | one maker trades the smaller of both remainders if it is eligible, both counters move by it, a consumed maker is remembered and leaves its level; otherwise nothing changes |
| `Matching.MatchingEngine.WalkLevel` | exchange/core/matching.py:131-182 | the loop over one level does to its orders, fills, counters and events what the walk says |
| `Matching.MatchingEngine.SweepLevel` | exchange/core/matching.py:127-183 | one level swept and put back is that level replaced by what the walk leaves |
| `Matching.MatchingEngine.Sweep` | exchange/core/matching.py:119-183 | the loop over the levels leaves the book, fills and snapshot the sweep says, and every consumed maker is at hand if it fell short |
| `Matching.MatchingEngine.FindResting` | exchange/core/matching.py:242-247 | over orders it finds an order with the id exactly if the book holds one; as written it raises exactly if any level exists |
| `Matching.MatchingEngine.RollBack` | exchange/core/matching.py:189-202 | the rollback loop puts the makers back one by one, as far as the lookup lets it |
| `Matching.MatchingEngine.Conclude` | exchange/core/matching.py:185-240 | how a swept order ends: filled, killed, cancelled, dropped or rested, with its events |
| `Matching.MatchingEngine.Match` | exchange/core/matching.py:103-240 | a call does to the mutable book, the taker and the event log exactly what the value form says, keeps the book well formed and uncrossed, and a killed order's trade events stay published |
| `Matching.ToldIs` | exchange/core/matching.py:155-170 | the bus hears of every fill, in order, after what it heard before; without a bus, of nothing |
| `Matching.ClosingTells` | exchange/core/matching.py:185-240 | after the trades: accepted with its quantity exactly if full, rejected exactly if killed or cancelled and why, rested exactly if in the book, the book shown last exactly if not rejected, nothing after a raise |
| `Settlement.Position.ApplyFill` | exchange/core/settlement.py:43-68 | the fields after a fill are the signed-quantity update: weighted average on increases, truncated realized P&L on reductions, average reset on every reduction |
| `Settlement.Position.Unrealized` | exchange/core/settlement.py:70-75 | the marked part is one truncated signed product, long and short alike; what it is worth is `MarkedWorth` |
| `Settlement.MarkedWorth` | exchange/core/settlement.py:70-75 | realized plus marked part is realized + (mark - average) x net within a cent, exactly so once flat; without a mark only what was realized shows |
| `Settlement.TruncatesTowardZero` | exchange/core/settlement.py:60-62 | side fact: cents are cut toward zero, gains and losses alike |
| `Settlement.MarkToMarket` | exchange/core/settlement.py:43-75 | for any fills and mark, realized plus (mark - average) x net is what the fills earned less what partial closes lost, within a cent per reducing fill |
| `Settlement.OneSidedIsExact` | exchange/core/settlement.py:43-55 | an account that only buys, or only sells, is shown exactly what it earned |
| `Settlement.FlipsLoseNothing` | exchange/core/settlement.py:66-68 | with the reset only on flips, as documented, nothing is lost |
| `Settlement.ResetHarmlessIff` | exchange/core/settlement.py:66-68 | the reset as written loses nothing exactly if the fill is no partial close or is one at the average price |
| `Settlement.PartialCloseMisstates` | exchange/core/settlement.py:66-68 | two bought at 50, one sold at 60: the account shows 10 of the 20 cents it made |
| `Settlement.FlatHasNoAverage` | exchange/core/settlement.py:63-65 | side fact: a flat position carries no average over into the next one |
| `Settlement.BooksByAccount` | exchange/core/settlement.py:102-112 | each account stands where its own legs alone put it |
| `Settlement.BooksBalance` | exchange/core/settlement.py:102-112 | recording every fill on both legs keeps each instrument's net positions summing to zero |
| `Settlement.RunBooksBalance` | exchange/core/settlement.py:102-112 | so it is for the fills of every run of the matching engine |
| `Settlement.VenueIsZeroSum` | exchange/core/settlement.py:43-75 | over all accounts marked P&L, with the partial-close losses put back, sums to zero within a cent per reducing leg |
| `Settlement.ShadowLedger.Find` | exchange/core/settlement.py:102-106 | the account's own position, opened flat if there is none |
| `Settlement.ShadowLedger.RecordFill` | exchange/core/settlement.py:108-112 | one account moves by the fill, every other stays |
| `Settlement.ShadowLedger.Pnl` | exchange/core/settlement.py:117-126 | the loop's totals are the sums over the subaccount's positions of realized and individually truncated marked P&L |
| `Settlement.TotalIsEarned` | exchange/core/settlement.py:117-126 | over any recorded fills, with a mark for each instrument of the subaccount, the reported total is what its fills earned at the marks less what its partial closes lost, within a cent per reducing leg and one per open position |
| `Settlement.ShownIs` | exchange/core/settlement.py:117-126 | a position shows realized and marked part, only the realized one without a mark, and nothing to another subaccount |
| `Settlement.NetIsTraded` | exchange/core/settlement.py:102-112 | an account's net position is what its subaccount bought on the instrument less what it sold, as taker and as maker |
| `EventBus.ReplayIsDue` | exchange/core/events.py:88-89 | replaying the bounded history gives exactly the published events after `since` that are among the last 4096 |
| `EventBus.ReplayReachesIff` | exchange/core/sse.py:25-48 | a replaying stream gives every event after `since` exactly if the history still reached it at the start |
| `EventBus.AsyncReachesIff` | exchange/core/sse.py:54-76 | the async stream gives every event after `since` exactly if that is where it started |
| `EventBus.ExchangeBus.Unsubscribe` | exchange/core/events.py:66-68 | unsubscribing leaves a tombstone, so no other subscriber moves |
| `EventBus.ExchangeBus.Publish` | exchange/core/events.py:72-83 | an event gets the next number, the history stays the last 4096, each subscribed stream queues it exactly if it wants it, a raising subscriber stops nobody, every stream stays in step |
| `EventBus.Stream.Next` | exchange/core/sse.py:25-51 | under any interleaving, what a stream has given out is a prefix of exactly the due events, in order, without gap or duplicate, and a keep-alive comes only when all of them are out |
| `EventBus.Stream.Close` | exchange/core/sse.py:44-51 | a closed stream is still subscribed exactly if it was closed during its backlog |
| `AuthorityLaws.GrantsDeservedIff` | fleet/layers/gateway.py:67-130 | in every run, all grants an agent can get under any certificate, capability and key go to the certificate on file, unrevoked, unexpired, under the current root, for a capability its role has, exactly if the agent is not live or the root signed no other certificate of the number on file for it |
| `AuthorityLaws.EveryGrantDeserved` | fleet/layers/gateway.py:67-130 | under that condition each grant, fresh or replayed, is such a one |
| `AuthorityLaws.PublishedOnceIsSole` | fleet/layers/registry.py:41-140 | the condition holds over every run that never publishes the agent while it is known |
| `AuthorityLaws.FreshGrantIff` | fleet/layers/gateway.py:92-130 | in every run a request that is no replay is granted exactly if the agent is live, the current root signed the certificate, its number is the one on file and its role has the capability; under that condition, exactly if it is the one on file; when it needs approval |
| `AuthorityLaws.SupersededGrantedIff` | fleet/layers/gateway.py:78-104 | a certificate that was on file and no longer is can still get something granted exactly if the agent is live, the number on file is its number, and the root was not rotated since |
| `AuthorityLaws.SupersededNeverGranted` | fleet/layers/gateway.py:78-104 | so while the one on file is the only one of its number, a superseded one is never granted anything again |
| `AuthorityLaws.SupersededForGood` | fleet/layers/registry.py:41-140 | in every run a certificate that left the file does not come back on it |
| `AuthorityLaws.EveryRefusalLogged` | fleet/layers/gateway.py:142-163 | every refusal, fresh or replayed, is on record in the audit log |
| `AuthorityLaws.EveryGrantLogged` | fleet/layers/gateway.py:105-130 | every grant, fresh or replayed, is on record with agent, capability, policy and whether it needs approval |
| `AuthorityLaws.RunKeeps` | fleet/layers/registry.py:41-140 | every run keeps certificates on file signed by the current root, the cache true, and, for agents never published while known, the one on file newest |
| `AuthorityLaws.RootRotationRevives` | fleet/layers/__init__.py:186-223 | after a root rotation an agent is live exactly if it is known, unrevoked and the lifetime is positive, each certificate raised by one number under the new root |
| `AuthorityLaws.AnyEpochIff` | fleet/crypto/foundation.py:226-246 | a verifier that knows every root key there has been accepts exactly what some root signed, word for word |
| `AuthorityLaws.SignedVerifiesForever` | fleet/crypto/foundation.py:226-246 | a certificate once signed verifies under some known epoch after any further steps |
| `AuthorityLaws.OnlyOnFileIff` | fleet/layers/gateway.py:92-98 | the certificate on file is the only one of its agent honoured exactly if the agent is not live or no other signature of the current root carries its number |
| `AuthorityLaws.UnrivalledIff` | fleet/layers/registry.py:41-140 | which steps leave that so: publishing if the root has not used number 0 for the agent, rotating if not the next number, rotating the root always, the others if it was so |
| `AuthorityLaws.RepublishHonoursOldIff` | fleet/layers/registry.py:41-67 | publishing leaves any certificate of the agent but the new one honoured exactly if the current root signed it under number 0, the agent is unrevoked and the lifetime is positive |
| `AuthorityLaws.RotateHonoursOldIff` | fleet/layers/registry.py:120-140 | rotating leaves any but the new one honoured exactly if the current root signed it under the next number and the lifetime is positive |
| `AuthorityLaws.DemotedStillGranted` | fleet/layers/registry.py:50-55 | an operator re-published as a tool still trades on its old certificate |
| `AuthorityLaws.SupersededRevived` | fleet/layers/registry.py:41-140 | published, rotated and re-published as a tool, an operator trades on its first certificate; rotated again, on its second |
| `AuthorityLaws.ReplayAnswersFirst` | fleet/layers/gateway.py:78-88 | side fact: a replay returns the first answer word for word and changes nothing; it covers the request exactly if the capability is the same |
| `AuthorityLaws.RefusalReplaysIff` | fleet/layers/gateway.py:133-163 | a refusal is replayed exactly if the certificate's number is 0 and the certificate itself is good |
| `AuthorityRuns.RevokedIff` | fleet/layers/registry.py:106-140 | after any run an agent is revoked exactly if some step revoked it while known and no later step rotated it |
| `AuthorityRuns.RevokedIsRefused` | fleet/layers/gateway.py:78-104 | then it is granted nothing, under any certificate, capability and key, fresh or from the cache |
| `AuthorityRuns.ExpiredIsRefused` | fleet/layers/registry.py:69-82 | nor is one never published, or whose lifetime is over by the clock |
| `AuthorityRuns.FileIsStanding` | fleet/layers/registry.py:41-140 | after any run role, capabilities, issue, expiry and number of each certificate on file are what the agent's own steps, the root rotations and the clock make of them |
| `AuthorityRuns.LiveIff` | fleet/layers/registry.py:69-82 | so an agent is live exactly if published, unrevoked and before its expiry |
| `AuthorityRuns.PolicyIs` | fleet/layers/policy.py:46-78 | side fact: each capability belongs to one role; two of the operator's need approval |
| `AuthorityRuns.StepLogged` | fleet/layers/registry.py:41-140 | each step of a run enters exactly its own event in the audit log; a replay, a clock change and a raising step enter none |
| `ControlPlanes.IdentityRoot.IssueCert` | fleet/crypto/foundation.py:248-277 | a certificate over a fresh key pair, signed by the current root; unknown roles raise |
| `ControlPlanes.IdentityRoot.RotateRoot` | fleet/crypto/foundation.py:181-224 | the epoch moves by one and the given certificates are re-signed in order |
| `ControlPlanes.ReissueInBulk` | fleet/layers/__init__.py:197-205 | re-signing all and filing afterwards is re-issuing agent by agent |
| `ControlPlanes.AgentRegistry.Publish` | fleet/layers/registry.py:41-67 | the registry's fields after publishing are the protocol's |
| `ControlPlanes.AgentRegistry.Revoke` | fleet/layers/registry.py:106-118 | the same for revoking; unknown agents raise and change nothing |
| `ControlPlanes.AgentRegistry.Rotate` | fleet/layers/registry.py:120-140 | the same for rotating, which lifts a revocation |
| `ControlPlanes.Gateway.RequestAuthority` | fleet/layers/gateway.py:67-130 | answer, cache and audit log after a request are the protocol's |
| `ControlPlanes.Gateway.Refuse` | fleet/layers/gateway.py:142-163 | a refusal is logged, points at its entry, and is remembered under number 0 |
| `ControlPlanes.ControlPlane.RotateRoot` | fleet/layers/__init__.py:186-223 | after a rotation every certificate on file is under the new root, the rotation is logged, no cached answer is left |
| `HashChain.AcceptedIff` | fleet/gcp/verify.py:36-112 | a store is accepted exactly if its filtered and sorted entries are a true copy of a prefix of the log, with any checkpoint a true one over exactly that prefix |
| `HashChain.CrashedIff` | fleet/gcp/verify.py:36-47 | and verifying raises exactly if some document with a kind and a sequence number has one that does not read as a number; text or a fraction that does is read and left to the signature |
| `HashChain.AcceptedSays` | fleet/gcp/verify.py:36-94 | in an accepted store every document taken for an entry says what the log says at its number, in every field but signature and id, and each of the first n numbers is told exactly once |
| `HashChain.AcceptedSealed` | fleet/gcp/verify.py:49-54 | and if a checkpoint is among the documents, one of them counts exactly those n entries and names their head |
| `HashChain.AnyOrderAccepted` | fleet/gcp/verify.py:36-53 | a true copy in any document order, among any unrelated documents, is accepted |
| `HashChain.TruncationPassesUnsealed` | fleet/crypto/chriscrypt/ledger.py:126-130 | without a checkpoint a truncated copy passes |
| `Ledgers.Ledger.Open` | fleet/crypto/chriscrypt/ledger.py:45-66 | a ledger opened on any store goes on from the entry with the highest number, checking nothing; it raises exactly if a sequence number does not read or the last `prev` is not hexadecimal |
| `Ledgers.ResumesAtEnd` | fleet/crypto/chriscrypt/ledger.py:55-75 | on a store of genuine entries, in any order and with any checkpoint, that is the end of what they log |
| `Ledgers.RunIsOneChain` | fleet/crypto/chriscrypt/ledger.py:45-108 | over any run of appends and restarts the store is accepted and holds the log there was and every entry since, in order |
| `Ledgers.LoggedSays` | fleet/crypto/chriscrypt/ledger.py:77-108 | those entries carry the kind, payload and time of every append, in order |
| `Ledgers.CheckpointSays` | fleet/crypto/chriscrypt/ledger.py:96-108 | side fact: the checkpoint an append stores counts the entries there are now, names the head of their chain and is stamped |
| `Ledgers.ReopenedShortForks` | fleet/crypto/chriscrypt/ledger.py:55-108 | opened on the first n entries and appended to once, a store is accepted with those and the new entry, as is every store accepted before; it extends the old log exactly if n is its whole length |
| `Ledgers.Ledger.Append` | fleet/crypto/chriscrypt/ledger.py:77-108 | appending signs the next link from wherever the ledger stands, stores entry and checkpoint; if it continued the log, the store verifies as the whole longer log |
| `Ledgers.OwnStoreAccepted` | fleet/crypto/foundation.py:350-360 | a store of a genuine log, in any order, with a checkpoint over the whole of it, is accepted with every entry |
| `Ledgers.FirestoreVerifier.VerifyChain` | fleet/gcp/verify.py:73-112 | the walk and the checkpoint comparison reach exactly the chain's verdict, raising on a signed count that does not read as a number |
| `Ledgers.FirestoreVerifier.VerifyAll` | fleet/gcp/verify.py:56-71 | filter, sort, lookup and walk together reach the verdict; a sequence number that does not read as a number makes the sort raise |
| `PaperTrading.PreflightHolds` | fleet/fin/domain.py:229-351 | a trade not blocked, authorized and applied in its bound state and market, is executed exactly if it names the market's symbol; never refused on price, cash or holdings |
| `PaperTrading.NotBlockedIff` | fleet/fin/domain.py:229-351 | side fact: a proposal is not blocked exactly if it is inside every hard bound, from inputs to disposition; advice only ever escalates |
| `PaperTrading.ExecutedIsAllowed` | fleet/fin/exchange_sim.py:94-134 | an order executed in the market it was evaluated in has an asset, side and size the mandate allows |
| `PaperTrading.BandsAgreeIff` | fleet/fin/exchange_sim.py:101-107 | side fact: the two price checks agree exactly but for a negative band on a limit off the market |
| `PaperTrading.NextWithinIff` | fleet/fin/exchange_sim.py:94-134 | an evaluated order that executes leaves the account inside its mandate exactly if its price fell since the evaluation by no more than the loss cap's slack and cash cover |
| `PaperTrading.UnmovedHasHeadroom` | fleet/fin/domain.py:270-278 | in the market it was evaluated in, an order always has that headroom |
| `PaperTrading.RunWithinIff` | fleet/fin/domain.py:270-278 | over any run of evaluated authorizations the account keeps its order count, loss cap and non-negative cash throughout exactly if every one that executed had the headroom |
| `PaperTrading.AtMostOnce` | fleet/fin/exchange_sim.py:84-134 | of all authorizations evaluated against one account state at most one executes, once |
| `PaperTrading.FillConserves` | fleet/fin/exchange_sim.py:110-134 | a fill keeps cash + cost - realized P&L, keeps the account's worth at the fill price, keeps holdings positive and counts the order |
| `PaperTrading.RunConserves` | fleet/fin/exchange_sim.py:76-152 | any sequence of submissions keeps cash + cost - realized P&L |
| `PaperTrading.MovedMarketBreaksCap` | fleet/fin/exchange_sim.py:95-100 | an evaluated sale filled in a fallen market breaks the loss cap |
| `PaperTrading.WarnsAboveIff` | fleet/fin/domain.py:309-348 | the concentration test after rounding escalates exactly above 0.1500005 |
| `PaperTrading.EstimateIff` | fleet/fin/domain.py:250-254 | at any prices of the other holdings, the share computed for a purchase, before rounding, is below the share it really leaves exactly if the other holdings are worth less than the order, and equal to it exactly if they are worth as much |
| `PaperTrading.ReportedIsEstimate` | fleet/fin/domain.py:305-310 | the reported figure is that share rounded, and within half a millionth of it |
| `PaperTrading.SmallPurchaseEscalates` | fleet/fin/domain.py:222-226 | twenty at 1 bought by an account holding 1000 elsewhere: reported at a sixth and escalated, it leaves less than a fiftieth |
| `PaperTrading.RoundingLifts` | fleet/fin/domain.py:305-310 | six ten-millionths of an account are reported as one millionth |
| `PaperTrading.PositionCapUnread` | fleet/fin/domain.py:229-306 | the evaluation is the same whatever the mandate's cap on a position |
| `PaperTrading.PositionCapIff` | fleet/fin/exchange_sim.py:110-122 | at any prices of the other holdings, a purchase leaves its position within a cap exactly if position and order together are within that share of what the whole account is worth before |
| `PaperTrading.PositionCapUnenforced` | fleet/fin/domain.py:229-351 | for every cap below 1 an evaluated, authorized and executed order inside every checked bound leaves its position above the cap |
| `PaperExchange.PaperAccount.Value` | fleet/fin/domain.py:126-131 | the loop's total is cash plus every position at its price |
| `PaperExchange.ExchangeSim.Apply` | fleet/fin/exchange_sim.py:76-152 | the account's fields, counter and receipt after a submission are the ruling's; a refusal touches nothing |
| `PaperBoundary.ExecutedIff` | fleet/fin/authorization.py:148-180 | a submission executes exactly if the certificate's key signed this very body, not blocked, for this certificate's number, not past its expiration, with a nonce, over the account as it is, for the market's symbol, at a passing price, with cash or holdings to cover it |
| `PaperBoundary.RefusedWhy` | fleet/fin/exchange_sim.py:76-134 | each refusal names a check that fails; it is unauthorized exactly if one of the first five does |
| `PaperBoundary.UnsignedNeverExecutes` | fleet/fin/authorization.py:105-180 | in every run a body the key never signed does not execute, so an authorization altered in any field after signing does not |
| `PaperBoundary.BuiltExpires` | fleet/fin/authorization.py:110-150 | one built by the operator executes within 300 seconds or not at all, for the proposal's order and no other, with every figure it was made from bound in |
| `PaperBoundary.ExecutedAccount` | fleet/fin/exchange_sim.py:110-134 | an execution moves cash by quantity x last price, the symbol's holding by the quantity, counts the order, and touches nothing else |
| `PaperBoundary.ExecutedCost` | fleet/fin/exchange_sim.py:110-134 | a sale realizes what it fetched over cost and keeps the rest at cost; a purchase leaves the position at what was paid for all of it |
| `PaperBoundary.FlagsTell` | fleet/fin/domain.py:229-310 | each of the eight flags of an evaluation fails exactly on its own breach of the mandate, the account or the market, spelled out on the inputs |
| `PaperBoundary.BlockedIff` | fleet/fin/domain.py:229-351 | a proposal is blocked exactly on one of those breaches or on severe advice |
| `PaperBoundary.RequiredIff` | fleet/fin/domain.py:320-351 | side fact: what is not blocked needs a human exactly on weak advice or a reported share above fifteen hundredths |
| `PaperBoundary.ReasonsTell` | fleet/fin/domain.py:280-306 | each check gives its reason exactly if it fails, and nothing else gives one; what the score falls by |
| `PaperBoundary.ReportedShare` | fleet/fin/domain.py:244-310 | the share reported is order and position in the market's symbol over cash and both, within half a millionth; nothing else held counts |
| `RegimeFilter.FilterIsPathShare` | exchange/quant/regime.py:143-165 | after any observations the filtered probabilities are the shares of the total weight of all hidden paths ending in each state |
| `RegimeFilter.AllPathsOnce` | exchange/quant/regime.py:87-90 | those paths are every state sequence of the right length, each once |
| `RegimeFilter.FilteredIsBelief` | exchange/quant/regime.py:157-165 | the two probabilities lie in [0,1], sum to 1, and are positive after any observation |
| `RegimeFilter.NeverAmbiguous` | exchange/quant/regime.py:166-170 | side fact: a threshold of one half or less never reports ambiguity |
| `RegimeFilter.LabelIff` | exchange/quant/regime.py:165-170 | the report is ambiguous exactly if both beliefs fall short of the threshold; else it names the likelier state, calm if neither is |
| `RegimeFilter.ClampIsNearest` | exchange/quant/regime.py:121-126 | side fact: each probability given is replaced by the nearest one |
| `RegimeFilter.RegimeDetector.Handle` | exchange/quant/regime.py:143-193 | one observation leaves the filter of everything seen and reports belief, label, confidence and the distance from the oldest value of the window |
| `RegimeFilter.RegimeDetector.ReplayInto` | exchange/quant/regime.py:195-199 | replaying a list reports, for each position, what its prefix gives |
| `StreamingStats.SpreadMoves` | exchange/quant/streaming.py:127-132 | Welford's step keeps the sum of squared deviations about the moving mean |
| `StreamingStats.OnlineStats.Update` | exchange/quant/streaming.py:127-133 | after every update n x mean is the sum, m2 the two-pass sum of squares, the deque the last values |
| `StreamingStats.OnlineStats.VarIsSample` | exchange/quant/streaming.py:135-141 | mean and variance are the two-pass ones |
| `StreamingStats.OnlineStats.WindowIsLast` | exchange/quant/streaming.py:120-154 | the window is the last `window` values exactly if it was not asked for with size zero |
| `StreamingStats.ExcessBounds` | exchange/quant/streaming.py:190-191 | a sum pulled up to zero is at least the sum over every recent run |
| `StreamingStats.CrossesIff` | exchange/quant/streaming.py:190-195 | it crosses a threshold exactly if the sum over some recent run does |
| `StreamingStats.CusumDetector.Update` | exchange/quant/streaming.py:183-192 | the first twenty values fix the target as their mean; then both sums are the closed forms over what followed, and it triggers exactly if some recent run strays from the target by more than the threshold |
| `StreamingStats.CusumAlarmIff` | exchange/quant/streaming.py:190-195 | the alarm sounds exactly if the sum of some recent run is further than the threshold from its length times target plus slack, on either side |
| `StreamingStats.OnTargetAlarmIff` | exchange/quant/streaming.py:191 | a stream that never leaves its target alarms exactly if its length times the slack exceeds the threshold |
| `StreamingStats.PageHinkleyDetector.Update` | exchange/quant/streaming.py:209-214 | both sums are the closed forms over each value against the running mean up to it, and it triggers exactly if some recent run leaves the running mean by more than the threshold |
| `StreamingStats.PageHinkleyAlarmIff` | exchange/quant/streaming.py:209-217 | the alarm sounds exactly if over some recent run values kept above, or below, their running mean |
| `ZkGroup.EcMul` | exchange/quant/zk.py:92-104 | double-and-add is k-fold addition, k taken modulo the order |
| `ZkGroup.TimesMod` | exchange/quant/zk.py:94 | scalars may be taken modulo the order |
| `ZkAttestation.RealHolds` | exchange/quant/zk.py:272-283 | the branch with the witness satisfies the verifier's equation, unless a point is the identity |
| `ZkAttestation.SimulatedHolds` | exchange/quant/zk.py:266-285 | so does the branch made up backwards from its challenge |
| `ZkAttestation.OpeningAcceptedIff` | exchange/quant/zk.py:239-288 | for any integer a commitment opens to, the proof made from that opening is accepted exactly if neither the commitment nor a first message is the identity |
| `ZkAttestation.BitAcceptedIff` | exchange/quant/zk.py:239-288 | so is the proof of a bit, whichever branch is the real one |
| `ZkAttestation.PointsAddUp` | exchange/quant/zk.py:357-370 | commitments add up to one to the sum of their values under the sum of their blindings |
| `ZkAttestation.CommitmentsMeet` | exchange/quant/zk.py:412-425 | the 48 bit commitments with the fixed-up last blinding add up to the commitment |
| `ZkAttestation.BuiltAcceptedIff` | exchange/quant/zk.py:336-439 | every attestation built is accepted exactly if the certificate holds the signing key and no point is the identity |
| `ZkAttestation.OpenedAcceptedIff` | exchange/quant/zk.py:336-379 | an attestation of the sum of any 48 integers, each committed to and opened on its own, is accepted on the very same condition |
| `ZkAttestation.AnyValueAttested` | exchange/quant/zk.py:336-379 | so a commitment to any integer, in the range or not, has an attestation accepted exactly if no point is the identity |
| `ZkExtraction.TwoAnswersOpen` | exchange/quant/zk.py:214-252 | two accepted transcripts of one commitment with the same first messages under different shared challenges yield an opening of it, if the order is prime |
| `ZkAttestation.VerifyAll` | exchange/quant/zk.py:336-379 | the verification loop decides signature, bit proofs, sum and range; what it accepts, the certificate's key signed with exactly this state, commitment and range |
| `ZkAttestation.AcceptsIff` | exchange/quant/zk.py:336-379 | accepted is exactly what the certificate's key signed with this state, commitment and range, whose 48 proved bits add up to a commitment that is no identity, with a range below 2^48 |
| `ZkAttestation.BitOkIff` | exchange/quant/zk.py:214-252 | a bit is proved exactly if its two challenges add up to the oracle's modulo the order and both are answered, with no identity among the points |
| `ZkAttestation.SignatureBinds` | exchange/quant/zk.py:336-351 | an attestation changed in state, commitment, range or key is rejected under the signature it had |
| `ZkAttestation.Build` | exchange/quant/zk.py:382-439 | the building loop yields the attestation for the rounded prior, or raises exactly outside [0,1] |
| `ZkAttestation.AttestsPrior` | exchange/quant/zk.py:398 | what is attested is the prior in units of 2^-40, within half a unit |

## Left out

- Matching.MatchingEngine.Match: fill ids are random and not modelled; the sort of a level before its walk is not, since levels are always in arrival order; validation of a negative remainder cannot fail and is not.
- Conservation.RunConserves: stated for runs that meet no book the rollback breaks on; `RunConservesIff` shows the condition is exact.
- AuthorityLaws.EveryGrantDeserved: while no other signature of the current root carries the number on file; `GrantsDeservedIff` shows the condition is exact, `UnrivalledIff` which steps keep it.
- PaperTrading.RunWithinIff: quantities are positive, which `apply` does not check.
- RegimeFilter.FilterIsPathShare: transition probabilities keep the distance of the logarithm's floor from 0 and 1.
- ZkAttestation.BuiltAcceptedIff: completeness; acceptance does not bound the value (`AnyValueAttested`). That an opening is known is stated for two transcripts (`TwoAnswersOpen`); rewinding a prover to get them is not modelled.
- PaperTrading.PreflightHolds: the state hash stands for the state, the operator's receipt signature is not modelled.
- StreamingStats.OnlineStats.WindowIsLast: a negative window raises and is not modelled; standard deviations are given by their squares.
- EventBus.ExchangeBus.Publish: each event object is published once; a subscriber does not publish in turn.
- Callers that add to the book other than through the engine.
- Elliptic-curve addition formulas, hash-to-curve, Ed25519, SHA-256, Argon2, PEM and JSON encoding, hexadecimal parsing.
- Floating-point rounding, log-space shifts and rounding of reported figures other than the concentration share.
- Escrowed root seeds (export and restore) and the Firestore certificate check.
- The stream analyzer's dictionaries per market, z-scores, and the price extraction from events.
- Web, WebSocket, GCP and telemetry plumbing, LLM brains, regex scanners, demos.
- Incident policy, consensus escalation, routing, Bayesian counters: each is settled by reading a branch or a short sum.
