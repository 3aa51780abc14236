# StorageHub in Dafny

A model of the on-chain logic of StorageHub and of three small concurrent pieces around it, with proofs about whole runs.

- **Proofs dealer.** Storage providers are challenged at ticks, submit proofs within a window, and are marked slashable by
  a bounded sweep when they miss it. `ProofsDealer` has the dispatchables and the round as functions on the pallet's
  storage, `ProofsDealerPallet` the pallet with its storage items and loops, proved equal to them. `SlashSweep` shows the
  sweep loop to be "sort the overdue deadlines and mark the first few", `ProofHistory` follows every provider through
  arbitrary runs, `ProofCadence` spaces its proofs, `CheckpointCoverage` settles when every checkpoint round is answered,
  `ChallengeFlow` follows each challenge from the queue to the proof judged on it, `ChallengeQueues` has the two queues of
  manual challenges, and `BlockFullness` the counter that pauses the ticker under spam.
- **Payment streams.** Fixed-rate and dynamic-rate streams, charged in batches up to the last proven tick, backed by
  deposits, liquidated when the user runs out of funds. `PaymentStreams` has the operations over the ledger of `Balances`,
  `PaymentStreamsPallet` the loops in place. `StreamAccounts` proves conservation, `StreamMetering` compares billing with
  per-tick pricing, `StreamTerms` says where bills start and what is taken, `StreamGuards` when calls go through,
  `ChargeOrder` treats repeated charges, `ChargeJournals`, `ChargeSchedules` and `ChargeCommutes` reordered ones, `Grace`
  the time before insolvency, `Insolvency` the life of an insolvent user and `InsolvencyClock` its flag against ticks and
  blocks.
- **Both together.** `ProofCredits` runs the two pallets in one chain and follows each accepted proof to the tick its
  provider may charge up to.
- **Provider registry.** `ProviderRegistry`, `RegistryRuns`, `RegistrySlash`, `RegistryDrift`, `RegistryTerms` and
  `RegistryPallet`: sign-up, sign-off, capacity changes, and what slashing does to the total capacity, in one step and over
  runs.
- **Expiration queues.** `ExpirationQueue`, `ExpirationWeights` and `ExpirationPallet`: per-tick buckets and the idle hook
  that cleans them with whatever weight is left.
- **Around the chain.** `EventBus` (broadcast ring, listeners, serial actor), `MessageQueue` (cross-chain message pages),
  `SlotClock` (the development node's clock).

A dispatchable that fails changes nothing, so operations return either an error or the new storage. What other pallets
answer at the time of a call (registered providers, stakes, payment accounts, randomness, proof verification) is a
parameter of the call, and hence arbitrary in every run.

Where the code and its documentation differ, the model follows the code:

- A proof for tick `n` is accepted for `n < ticker < n + tolerance`; the documentation includes `n` itself.
- The sweep's pointer rests one past the ticker when it has caught up; the documentation has it equal to the ticker.
- Only the latest checkpoint round is stored, and coverage needs the checkpoint period to be at least the longest challenge
  period plus the tolerance minus one. The documentation asks for no more than the challenge period; the assertion of
  `integrity_test` asks for more than the challenge period plus the tolerance, which is sufficient and two ticks more than
  necessary.
- The sweep's fallback stake for an unknown provider gives the minimum challenge period, not the checkpoint period its
  comment names.
- Dynamic-rate charges are divided by a giga-unit and rounded down at each charge, and the price index saturates, so they
  add up to the per-tick price only when nothing is rounded and nothing saturates.
- An idle clean-up that runs short of weight goes on: it drops items and passes buckets.
- Slashing computes the new capacity from the slashed amount, and neither slashing nor topping up touches the total
  capacity.
- The insolvency flag stores a block number and the cooldown compares it with the tick, which lags by the blocks that were
  not polled; the cooldown lasts longer by that lag.
- The hook that trims the list of proof submitters keeps credits safe only if it is configured to keep at least one tick.

## Model

| member | source | states |
|---|---|---|
| `ChallengeQueues.FillCheckpointRound` | pallets/proofs-dealer/src/utils.rs:685-781 | the two pop loops yield a prefix of the priority queue followed by a prefix of the regular one, as many as fit, and leave exactly the rest |
| `ChallengeQueues.EveryRunIsFifo` | pallets/proofs-dealer/src/utils.rs:853-898 | over any run, what was accepted into each queue is what left it, in order, followed by what still waits; neither queue exceeds its bound |
| `ChallengeQueues.FromNothingIsFifo` | pallets/proofs-dealer/src/utils.rs:853-898 | in particular every run from empty queues |
| `ChallengeQueues.PriorityGoesFirst` | pallets/proofs-dealer/src/utils.rs:685-781 | no regular challenge goes out in a round that leaves priority ones waiting; a round is short only when nothing waits |
| `ChallengeQueues.PriorityWaitIsBounded` | pallets/proofs-dealer/src/utils.rs:685-781 | the priority challenge at position k goes out in round k / max + 1, neither earlier nor later, whatever arrives |
| `ChallengeQueues.RegularChallengeCanStarve` | pallets/proofs-dealer/src/utils.rs:685-781 | a regular challenge has no such bound: a run that keeps it waiting through any number of rounds |
| `ProofsDealer.PeriodShrinksWithStake` | pallets/proofs-dealer/src/utils.rs:838-847 | more stake never means a longer challenge period, and none is below the minimum |
| `ProofsDealer.PeriodExactly` | pallets/proofs-dealer/src/utils.rs:838-847 | the challenge period is the largest number of ticks whose product with the stake is within the ratio, but no less than the minimum |
| `ProofsDealer.InitialiseInv` | pallets/proofs-dealer/src/utils.rs:1097-1158 | starting a cycle, also over an old one, keeps each provider under exactly one deadline, its next tick plus the tolerance |
| `ProofsDealer.StopInv` | pallets/proofs-dealer/src/utils.rs:1071-1095 | stopping a cycle keeps the invariant |
| `ProofsDealer.SubmitInv` | pallets/proofs-dealer/src/utils.rs:131-385 | an accepted proof moves record and deadline together |
| `ProofsDealer.OpenRoundInv` | pallets/proofs-dealer/src/utils.rs:406-446 | advancing the ticker keeps seeds for exactly the last history-length ticks, and one stored checkpoint round, the latest multiple of the period |
| `ProofsDealer.FallbackIsMinimum` | pallets/proofs-dealer/src/utils.rs:513-524 | the fallback stake of an unknown provider gives it the minimum challenge period |
| `ProofsDealer.NewRoundInv` | pallets/proofs-dealer/src/utils.rs:406-580 | a whole round, sweep included, keeps the invariant |
| `SlashSweep.FirstsAreFirst` | pallets/proofs-dealer/src/utils.rs:447-574 | the reference order of overdue deadlines: strictly increasing, and everything left out comes later |
| `SlashSweep.SweepMarksFirstDue` | pallets/proofs-dealer/src/utils.rs:447-574 | the pointer-walking sweep equals sorting the overdue deadlines and marking the first budget of them |
| `SlashSweep.MarkAllProvider` | pallets/proofs-dealer/src/utils.rs:447-574 | exactly the listed providers are marked, each once, with the challenges they owed; the others are untouched |
| `SlashSweep.MarkAllEntry` | pallets/proofs-dealer/src/utils.rs:447-574 | the deadlines after a sweep, entry by entry |
| `SlashSweep.RoundMarksExactly` | pallets/proofs-dealer/src/utils.rs:406-580 | a round marks the first overdue providers and nobody else, at most the maximum; the pointer passes the ticker exactly when fewer than the maximum were overdue |
| `ProofHistory.EveryRunKeepsInv` | pallets/proofs-dealer/src/utils.rs:131-580 | in every reachable state: one deadline per provider, nothing behind the pointer, seeds and checkpoints exactly as needed |
| `ProofHistory.UnreachableErrors` | pallets/proofs-dealer/src/utils.rs:184-300 | missing seeds and checkpoint challenges never fail a proof; too late or too old is reported only to a provider the sweep still owes a mark |
| `ProofHistory.ProofWindow` | pallets/proofs-dealer/src/utils.rs:184-215 | a proof gets past the guards exactly strictly inside the window |
| `ChallengeFlow.StoredIsAsked` | pallets/proofs-dealer/src/utils.rs:685-898 | over every run of the dealer, the challenges accepted into each queue are those stored at the checkpoint rounds so far, in order, followed by those still waiting |
| `ChallengeFlow.SeedsAreThoseGiven` | pallets/proofs-dealer/src/utils.rs:406-437 | over every run the ticker counts the polls, and the seed kept for a tick is the one its poll was given |
| `ChallengeFlow.ChallengesExactly` | pallets/proofs-dealer/src/utils.rs:216-262 | a proof's challenges are the keys drawn from the seed of the proven tick, followed by the keys of the stored round exactly when it lies after the last proven tick and not after the one being proven |
| `ChallengeFlow.AcceptedProofIsJudged` | pallets/proofs-dealer/src/utils.rs:131-385 | an accepted proof was judged valid on the keys drawn from the seed its tick was given and the key of every challenge of the round it is logged as answering |
| `ChallengeFlow.AcceptsExactly` | pallets/proofs-dealer/src/utils.rs:131-385 | after any run a proof is accepted exactly when its provider is in good standing and owes a tick whose window is open, the proof has key proofs and is judged valid on exactly those keys, and the tick has room for one more submitter |
| `ChallengeFlow.ProofRefusedTruly` | pallets/proofs-dealer/src/utils.rs:131-385 | after any run a refused proof names a reason that holds, a failed verdict included |
| `ChallengeFlow.CyclesExactly` | pallets/proofs-dealer/src/utils.rs:1071-1158 | a cycle starts and stops exactly for those who may, and a start owes the tick one period ahead |
| `ChallengeFlow.EveryChallengeIsAnswered` | pallets/proofs-dealer/src/utils.rs:131-385 | in a run that covers every round, a provider without misses has for each round given a proof judged valid on a list with the key of every challenge of it |
| `ChallengeFlow.MissChargesRound` | pallets/proofs-dealer/src/utils.rs:466-511 | over every run a miss is charged, besides its random challenges, exactly for the challenges of the latest round when the provider has not proven past it and the tolerance after it is over |
| `ProofHistory.SlashingIsExact` | pallets/proofs-dealer/src/utils.rs:131-580 | over every run each assigned tick is settled exactly once, by a proof inside the window, by a mark at or after the deadline, or by a cancellation |
| `ProofHistory.AccruedMatchesHistory` | pallets/proofs-dealer/src/utils.rs:494-511 | the stored count of failed submissions is the sum over the misses since it was last cleared |
| `ProofHistory.PollMissesExactly` | pallets/proofs-dealer/src/utils.rs:447-574 | with no more than the maximum overdue, a poll marks a provider exactly when its deadline has been reached |
| `ProofHistory.PromptProviderIsNeverMarked` | pallets/proofs-dealer/src/utils.rs:447-574 | a provider that is never overdue is never marked, however far the sweep lags |
| `ProofHistory.PollBacklog` | pallets/proofs-dealer/src/utils.rs:447-574 | a poll takes exactly the maximum off the backlog of overdue deadlines |
| `ProofHistory.SweepCatchesUp` | pallets/proofs-dealer/src/utils.rs:447-574 | when fewer than the maximum fall due at each poll, one poll more than there were overdue deadlines brings the pointer past the ticker, and it stays there |
| `ProofCadence.ProofsAreEvenlySpaced` | pallets/proofs-dealer/src/utils.rs:131-385 | over every run, a provider of constant stake that misses nothing has proven exactly the ticks one period apart from its start, one per accepted proof |
| `CheckpointCoverage.ProofAnswersItsRounds` | pallets/proofs-dealer/src/utils.rs:216-300 | with rounds far enough apart a proof answers exactly the checkpoint rounds between its last proven tick and its own |
| `CheckpointCoverage.DistantRoundsAreAnswered` | pallets/proofs-dealer/src/utils.rs:131-385 | then a provider that misses nothing answers every checkpoint round exactly once, over every run |
| `CheckpointCoverage.CloseRoundsAreSkipped` | pallets/proofs-dealer/src/utils.rs:685-781 | otherwise there is a run, given explicitly, in which a provider that misses nothing skips a round |
| `CheckpointCoverage.CoverageExactly` | pallets/proofs-dealer/src/lib.rs:808-830 | coverage holds for all runs if and only if the checkpoint period is at least the longest period plus tolerance minus one |
| `CheckpointCoverage.IntegrityTestSuffices` | pallets/proofs-dealer/src/lib.rs:808-830 | a configuration that passes the pallet's own test covers every checkpoint round in every run |
| `ProofsDealerPallet.Pallet.constructor` | pallets/proofs-dealer/src/lib.rs:404-428 | genesis storage, with the invariant |
| `ProofsDealerPallet.Pallet.EnqueueChallenge` | pallets/proofs-dealer/src/utils.rs:853-871 | in place: a new key at the back, a known one ignored, a full queue refused |
| `ProofsDealerPallet.Pallet.EnqueueChallengeWithPriority` | pallets/proofs-dealer/src/utils.rs:877-898 | the same for the priority queue |
| `ProofsDealerPallet.Pallet.InitialiseCycle` | pallets/proofs-dealer/src/utils.rs:1097-1158 | in place, equal to its function, errors leave the storage as it was, keeps the invariant |
| `ProofsDealerPallet.Pallet.StopCycle` | pallets/proofs-dealer/src/utils.rs:1071-1095 | the same for stopping |
| `ProofsDealerPallet.Pallet.SubmitProof` | pallets/proofs-dealer/src/utils.rs:131-385 | the same for submitting a proof, the verifiers' verdict being part of the proof |
| `ProofsDealerPallet.Pallet.TrimSubmitters` | pallets/proofs-dealer/src/utils.rs:792-832 | the trimming loop forgets exactly the ticks beyond the target, as far as the weight goes |
| `ProofsDealerPallet.Pallet.NewCheckpointRound` | pallets/proofs-dealer/src/utils.rs:685-781 | fills the round from the queues, stores it and forgets the one before |
| `ProofsDealerPallet.Pallet.MarkSlashable` | pallets/proofs-dealer/src/utils.rs:466-557 | one turn of the sweep: accrue, push the deadline one period past the ticker, rewrite the record |
| `ProofsDealerPallet.Pallet.SweepLateProviders` | pallets/proofs-dealer/src/utils.rs:447-574 | the loop leaves what sorting the overdue deadlines and marking the first few would leave |
| `ProofsDealerPallet.Pallet.AdvanceTick` | pallets/proofs-dealer/src/utils.rs:406-446 | the part of a round before the sweep |
| `ProofsDealerPallet.Pallet.NewChallengesRound` | pallets/proofs-dealer/src/utils.rs:406-580 | the round in place, equal to its function, keeps the invariant |
| `BlockFullness.SpamGuard.OnPoll` | pallets/proofs-dealer/src/utils.rs:589-677 | the incremental count and the pause decision in place |
| `BlockFullness.SpamGuard.SetTickerPaused` | pallets/proofs-dealer/src/lib.rs:725-740 | root's pause or release, which the next poll past the window overrides by its own count |
| `BlockFullness.SpamGuard.OnFinalise` | pallets/proofs-dealer/src/lib.rs:781-799 | stores the block's weight and forgets the one that left the window |
| `BlockFullness.NotFullExactly` | pallets/proofs-dealer/src/utils.rs:589-660 | a block is not full exactly when it leaves the headroom in both dimensions |
| `BlockFullness.MinNotFullIsFloor` | pallets/proofs-dealer/src/utils.rs:653-677 | the threshold is the largest whole number of blocks within the ratio of the window |
| `BlockFullness.RunStores` | pallets/proofs-dealer/src/lib.rs:781-799 | exactly the weights the window can need are stored, polled or not |
| `BlockFullness.WindowMoves` | pallets/proofs-dealer/src/utils.rs:589-677 | the recount of the window moves by the block entering and the block leaving |
| `BlockFullness.CounterIsWindowPlusDrift` | pallets/proofs-dealer/src/utils.rs:589-677 | in every run, skipped polls included, the counter is the recount plus an explicit drift |
| `BlockFullness.CounterIsRecount` | pallets/proofs-dealer/src/utils.rs:589-677 | without skipped polls the counter is the recount |
| `BlockFullness.CounterAfterSkipExactly` | pallets/proofs-dealer/src/lib.rs:751-764 | after one skipped poll the counter is right exactly when the skipped block exchanged equals or the subtraction was clipped |
| `BlockFullness.SkippedPollMiscounts` | pallets/proofs-dealer/src/lib.rs:751-764 | a concrete run in which a skipped poll miscounts |
| `BlockFullness.PausedExactly` | pallets/proofs-dealer/src/utils.rs:653-677 | a poll past the window pauses the ticker exactly when the recount is not above the threshold, whatever root did before; if root did nothing, it is paused exactly then |
| `BlockFullness.TickerMatchesRecount` | pallets/proofs-dealer/src/lib.rs:751-764 | over every run, root's calls included, ticker and pause are what the weights and those calls alone make them |
| `BlockFullness.SomeHonestRoom` | pallets/proofs-dealer/src/utils.rs:582-588 | more blocks with room than misbehaving authors means an honest author left room |
| `BlockFullness.UnpausedMeansHonestRoom` | pallets/proofs-dealer/src/utils.rs:582-677 | an unpaused ticker, with half the window required to have room and fewer than half the authors misbehaving, means some honest author left room |
| `Balances.Cut` | primitives/treasury-funding/src/lib.rs:48-65 | the treasury's part never exceeds the payment |
| `Balances.CutIsFloor` | primitives/treasury-funding/src/lib.rs:48-65 | the treasury's part is the largest whole amount within its share of the payment |
| `Balances.PayReceipts` | pallets/payment-streams/src/utils.rs:726-748 | payee and treasury receive exactly their parts, and the payer pays exactly the sum |
| `Balances.TransferConserves` | pallets/payment-streams/src/utils.rs:734-748 | a transfer conserves money and leaves holds alone |
| `Balances.PayConserves` | pallets/payment-streams/src/utils.rs:726-748 | so does a payment split between provider and treasury |
| `StreamAccounts.LiquidationKeeps` | pallets/payment-streams/src/utils.rs:1360-1480 | a liquidation conserves money, and keeps count and hold of every user in step with its streams |
| `StreamAccounts.ChargeAllKeeps` | pallets/payment-streams/src/utils.rs:577-962 | so does a batch |
| `StreamAccounts.CreateKeeps` | pallets/payment-streams/src/utils.rs:63-413 | so does opening a stream |
| `StreamAccounts.UpdateKeeps` | pallets/payment-streams/src/utils.rs:158-504 | so does changing a rate, with the charge before it |
| `StreamAccounts.DeleteKeeps` | pallets/payment-streams/src/utils.rs:240-569 | so does closing a stream, with the charge before it |
| `StreamAccounts.PayDebtKeeps` | pallets/payment-streams/src/utils.rs:971-1157 | so does paying debts, across releasing everything and holding the rest again |
| `StreamAccounts.RunConserves` | pallets/payment-streams/src/utils.rs:63-1480 | over every run: money is constant, each user's count is the number of its streams, its hold the sum of their deposits |
| `StreamAccounts.FromUnusedConserves` | pallets/payment-streams/src/utils.rs:63-1480 | in particular over every run from a pallet nobody has used yet |
| `StreamAccounts.ChargeDeposit` | pallets/payment-streams/src/utils.rs:577-933 | a charge creates no stream and changes no rate or deposit |
| `StreamMetering.RunBilled` | pallets/payment-streams/src/utils.rs:577-933 | the bills of a stream that lives through a run are chained from its first marker to its last |
| `StreamMetering.ChainedCoversOnce` | pallets/payment-streams/src/utils.rs:577-933 | chained bills cover each unit in between exactly once and nothing else |
| `StreamMetering.FixedRunTotal` | pallets/payment-streams/src/utils.rs:619-773 | a fixed-rate stream pays rate times ticks passed over any run, each tick once |
| `StreamMetering.RunInStep` | pallets/payment-streams/src/utils.rs:1195-1303 | over every run the index is the sum of the prices, saturated, and every stored index is that at some tick |
| `StreamMetering.UnusedIsInStep` | pallets/payment-streams/src/utils.rs:1266-1303 | so it is from a pallet nobody has used yet on |
| `StreamMetering.DynamicRunTotal` | pallets/payment-streams/src/utils.rs:775-930 | what a dynamic-rate stream paid, plus what rounding lost, is at most the sum over consecutive ticks of amount times price, with equality exactly when the index does not saturate |
| `StreamMetering.PerTickExactly` | pallets/payment-streams/src/utils.rs:775-930 | over every run, index charging collects exactly the per-tick price if and only if every paid charge was whole giga-units and the index did not saturate |
| `StreamMetering.TwoChargesLose` | pallets/payment-streams/src/utils.rs:795-800 | two runs of a fresh pallet over the same ticks: one charge at the end collects a unit, a charge after each tick nothing |
| `StreamTerms.OpensOnTerms` | pallets/payment-streams/src/utils.rs:63-413 | a new stream has the rate asked for, the deposit of its terms, and nothing charged before the tick or the index at which it was opened |
| `StreamTerms.OpenedRunTotal` | pallets/payment-streams/src/utils.rs:63-155 | over every run that opens a fixed-rate stream in which it then lives, each tick after the opening tick up to the last charge is billed once, none at or before it, at its rate |
| `StreamTerms.OpenedRunPrices` | pallets/payment-streams/src/utils.rs:305-413 | the same for a dynamic-rate stream against the prices of the ticks from the opening tick on |
| `StreamTerms.BatchBilledUpTo` | pallets/payment-streams/src/utils.rs:577-962 | a batch that bills a stream leaves its marker at the tick, or index, its provider may charge up to: the current tick if privileged, else that of its last credited proof |
| `StreamTerms.RerateOnTerms` | pallets/payment-streams/src/utils.rs:158-504 | an accepted update bills at the old rate and then sets the new rate and the deposit of the new terms |
| `StreamTerms.ReratedRunTotal` | pallets/payment-streams/src/utils.rs:158-238 | over a run with an update in it, every tick up to the update's charge is paid at the old rate and every tick after it at the new one |
| `StreamTerms.ChargeTakes` | pallets/payment-streams/src/utils.rs:577-933 | a charge lowers what the user owns by exactly the price of the stretches it paid for plus, for each liquidated stream, the lesser of what is due and its deposit; it reports the former |
| `StreamTerms.PayDebtTakes` | pallets/payment-streams/src/utils.rs:971-1157 | paying debts lowers what the user owns by exactly the sum over the removed streams of the lesser of what is due and the deposit |
| `StreamGuards.SoundInRuns` | pallets/payment-streams/src/utils.rs:63-1480 | in every state a fresh pallet can reach, count and hold are those of the user's streams and whoever has a hold owns the existential deposit besides |
| `StreamGuards.ChargeGoesThroughExactly` | pallets/payment-streams/src/utils.rs:577-933 | then a charge goes through exactly when the provider is registered and solvent, there is a stream, what is owed fits a balance, and no recipient is left below the existential deposit |
| `StreamGuards.OpensExactly` | pallets/payment-streams/src/utils.rs:63-413 | a stream is opened exactly when the provider is registered and solvent, the rate is not zero, there is none of that kind yet, the user is unflagged, has room, and can spare the deposit |
| `StreamGuards.ChangesExactly` | pallets/payment-streams/src/utils.rs:158-504 | a rate is changed exactly when, moreover, it is a new one, the streams can be charged first, the stream survives that, and the user can spare what the deposit grows by |
| `StreamGuards.ClosesExactly` | pallets/payment-streams/src/utils.rs:240-569 | a stream is closed exactly when the provider is registered, the stream exists, and the provider is insolvent or the streams can be charged first |
| `StreamGuards.OpeningRefusedTruly` | pallets/payment-streams/src/utils.rs:63-413 | a refused opening names a reason that holds |
| `StreamGuards.ChargeRefusedTruly` | pallets/payment-streams/src/utils.rs:577-933 | so does a refused charge of a sound user: only what does not fit a balance or cannot be received is refused once provider and stream are there |
| `StreamGuards.ChangeRefusedTruly` | pallets/payment-streams/src/utils.rs:158-504 | so does a refused change of rate, or it passes on the refusal of the charge before it |
| `StreamGuards.ClearRefusedTruly` | pallets/payment-streams/src/utils.rs:1159-1189 | a flag is not cleared only if there is none, the cooldown is not over, or a stream is left |
| `ChargeOrder.UnflaggedRepeat` | pallets/payment-streams/src/utils.rs:577-962 | charging an unflagged user again at once takes nothing and changes nothing |
| `ChargeOrder.FlagsExactly` | pallets/payment-streams/src/utils.rs:577-933 | a charge leaves the user flagged exactly when, before it, the user was flagged or one of its two streams was unaffordable and past its grace, the dynamic-rate one judged after the fixed-rate payment |
| `ChargeOrder.RepeatedChargeExactly` | pallets/payment-streams/src/utils.rs:577-962 | charging again at once changes nothing exactly when that was not so |
| `ChargeOrder.NamedTwiceExactly` | pallets/payment-streams/src/utils.rs:937-962 | naming a user twice in a batch makes no difference exactly when it cannot be charged or that was not so |
| `ChargeOrder.NamedTwiceFails` | pallets/payment-streams/src/utils.rs:937-962 | a run of a fresh pallet after which charging the user goes through and naming it twice fails |
| `ChargeJournals.WritesCommute` | pallets/payment-streams/src/utils.rs:577-933 | writes about different users commute, and so do credits |
| `ChargeJournals.EnactJournal` | pallets/payment-streams/src/utils.rs:577-933 | what a charge does is what its journal of writes does |
| `ChargeCommutes.PayFromExactly` | pallets/payment-streams/src/utils.rs:726-748 | a payment goes through exactly when the user can spend it and each recipient that owns less than the existential deposit is lifted to it by its first credit; payee and treasury may be the same account or both poor |
| `ChargeCommutes.ChargeExactly` | pallets/payment-streams/src/utils.rs:577-933 | a charge goes through exactly when nothing but the recipients stands in its way and it is short on neither; it then does what its journal says, lifts the recipients it credits and leaves the others as they were |
| `ChargeCommutes.UsersCommuteExactly` | pallets/payment-streams/src/utils.rs:937-962 | two users can be charged in either order, unless both could be charged but for the recipients and only one order lifts the recipients in time |
| `ChargeCommutes.BatchExactly` | pallets/payment-streams/src/utils.rs:937-962 | a batch of different users goes through exactly when nothing but the recipients stands in the way of any and its order lifts them in time; it then does what the users' journals do |
| `ChargeSchedules.ScheduleExactly` | pallets/payment-streams/src/utils.rs:937-962 | some order lifts the recipients in time exactly when two rounds, of users short on nothing and of users short only on what those lift, lift all that anybody is short on |
| `ChargeCommutes.BatchOrderExactly` | pallets/payment-streams/src/utils.rs:937-962 | the order of a batch of different users matters exactly when all could be charged but for the recipients, somebody is short on one, and the batch can be scheduled |
| `ChargeCommutes.SuccessfulOrdersAgree` | pallets/payment-streams/src/utils.rs:937-962 | all orders that go through leave the same storage |
| `ChargeCommutes.BatchOrderDoesNotMatter` | pallets/payment-streams/src/utils.rs:937-962 | so the order never matters when nobody is short on a recipient, and in particular when both own the existential deposit |
| `ChargeCommutes.OrderMattersForPoorPayee` | pallets/payment-streams/src/utils.rs:937-962 | a run of a fresh pallet, with payee and treasury both poor, after which one order of two users fails and the other succeeds |
| `Grace.DepositCoversGrace` | pallets/payment-streams/src/utils.rs:94-105 | the deposit is the base deposit plus exactly what the grace period would be billed in one charge |
| `Grace.NoEarlyLiquidation` | pallets/payment-streams/src/utils.rs:655-690 | no stream of an unflagged user is liquidated before its grace has passed |
| `Grace.NoInsolvencyWithinGrace` | pallets/payment-streams/src/utils.rs:577-962 | over every run, no user is flagged within the grace period after it was first found unpaid |
| `Grace.InsolventAfterGrace` | pallets/payment-streams/src/utils.rs:655-690 | after it, the next charge that still cannot be paid liquidates the stream and flags the user |
| `Insolvency.PayDebtLeaves` | pallets/payment-streams/src/utils.rs:971-1157 | paying debts removes exactly the user's streams with the listed providers and keeps the flag |
| `Insolvency.AllPaidExactly` | pallets/payment-streams/src/utils.rs:1147-1156 | all debts are reported paid exactly when no stream of the user remains |
| `Insolvency.ClearsExactly` | pallets/payment-streams/src/utils.rs:1159-1189 | the flag clears exactly when the cooldown has passed and no stream remains |
| `Insolvency.FlaggedUntilCleared` | pallets/payment-streams/src/utils.rs:1360-1480 | until cleared, over any run, the flag stays and the user opens or changes no stream |
| `InsolvencyClock.RunInOrder` | pallets/payment-streams/src/utils.rs:1283-1303 | over every run of blocks, polled or not, the tick never passes the block number |
| `InsolvencyClock.ClearedOnlyAfterCooldown` | pallets/payment-streams/src/utils.rs:1159-1189 | a user flagged at tick t in block b is cleared no earlier than tick b + cooldown, so a full cooldown after t, and with no stream left |
| `InsolvencyClock.ClearableExactly` | pallets/payment-streams/src/utils.rs:1159-1189 | and can be cleared exactly from then on, once no stream remains |
| `Insolvency.PayInTwoCalls` | pallets/payment-streams/src/utils.rs:971-1157 | paying list P and then list Q is paying P followed by Q |
| `Insolvency.RunReserves` | pallets/payment-streams/src/utils.rs:63-1480 | over every run, whoever has something on hold keeps the existential deposit free besides |
| `Insolvency.PartOfListCanBePaid` | pallets/payment-streams/src/utils.rs:971-1157 | such a user can pay part of any list it can pay whole |
| `Insolvency.DebtsCanBeSplit` | pallets/payment-streams/src/utils.rs:971-1157 | so in every state a fresh pallet can reach, debts that can be paid in one call can be paid in two, however split, with the same result |
| `Insolvency.EmptyListCanBePaidExactly` | pallets/payment-streams/src/utils.rs:1137-1145 | without that reserve not even a call that pays nobody goes through |
| `PaymentStreamsPallet.Pallet.ManageUserWithoutFunds` | pallets/payment-streams/src/utils.rs:1360-1480 | the liquidation in place |
| `PaymentStreamsPallet.Pallet.ChargeOneStream` | pallets/payment-streams/src/utils.rs:619-930 | the branches of a charge in place |
| `PaymentStreamsPallet.Pallet.HandleLowFunds` | pallets/payment-streams/src/utils.rs:655-690 | start waiting, go on waiting, or liquidate |
| `PaymentStreamsPallet.Pallet.ChargeUser` | pallets/payment-streams/src/utils.rs:577-933 | both streams of a user, fixed rate first |
| `PaymentStreamsPallet.Pallet.ChargeMultipleUsers` | pallets/payment-streams/src/utils.rs:937-962 | the batch loop is the fold of single charges, all or nothing |
| `PaymentStreamsPallet.Pallet.CreateStream` | pallets/payment-streams/src/utils.rs:63-413 | opening a stream of either kind in place |
| `PaymentStreamsPallet.Pallet.UpdateStream` | pallets/payment-streams/src/utils.rs:158-504 | changing a rate in place, all or nothing |
| `PaymentStreamsPallet.Pallet.DeleteStream` | pallets/payment-streams/src/utils.rs:240-569 | closing a stream in place, all or nothing |
| `PaymentStreamsPallet.Pallet.PayOneStream` | pallets/payment-streams/src/utils.rs:1007-1134 | one stream of an insolvent user, paid from the released deposits |
| `PaymentStreamsPallet.Pallet.PayOutstandingDebt` | pallets/payment-streams/src/utils.rs:971-1157 | the loop over providers between releasing everything and holding the rest, all or nothing |
| `PaymentStreamsPallet.Pallet.ClearInsolventFlag` | pallets/payment-streams/src/utils.rs:1159-1189 | clearing the flag in place |
| `PaymentStreamsPallet.Pallet.OnPoll` | pallets/payment-streams/src/utils.rs:1195-1303 | tick, chargeable information of the provers, and price index in place |
| `ProofCredits.CreditedExactlyOnce` | pallets/payment-streams/src/utils.rs:1195-1264 | with both hooks in every block, over every run: each accepted proof is credited exactly once, when the dealer leaves its tick, and nothing else is |
| `ProofCredits.AcceptedNow` | pallets/payment-streams/src/utils.rs:1283-1303 | an accepted proof is dated with the payment tick of its block |
| `ProofCredits.CreditNeedsKeeping` | pallets/proofs-dealer/src/utils.rs:792-832 | that holds of all runs if and only if trimming keeps at least one tick; otherwise a run loses a credit |
| `ProofCredits.TrimDropsPendingExactly` | pallets/proofs-dealer/src/utils.rs:792-832 | trimming drops a pending proof exactly when no tick is kept and the weight reaches the current one |
| `ProofCredits.ChargeableExactly` | pallets/payment-streams/src/utils.rs:1229-1249 | over every run a provider without privileges may charge up to the payment tick in which the dealer left the tick of its last proof; beyond the block of that proof exactly when the dealer was paused in between |
| `ProofCredits.StallsAreCharged` | pallets/payment-streams/src/utils.rs:1232-1249 | each poll the dealer is paused in after a proof moves the chargeable tick one further |
| `ProofCredits.PassesItsProof` | pallets/payment-streams/src/utils.rs:1232-1249 | in every usable configuration, a run whose chargeable tick passes the block after the last accepted proof |
| `ProviderRegistry.CapacityRoundTrip` | pallets/providers/src/utils.rs:1474-1517 | a capacity is recovered from its deposit |
| `ProviderRegistry.LargestAffordable` | pallets/providers/src/utils.rs:1474-1517 | the capacity of a deposit is the largest one it pays for |
| `RegistryRuns.EnrolExactly` | pallets/providers/src/utils.rs:269-387 | counter and maps stay in step under a sign-up exactly when the id was free |
| `RegistryRuns.RequestInv` | pallets/providers/src/utils.rs:76-212 | a request keeps the invariant |
| `RegistryRuns.CancelInv` | pallets/providers/src/utils.rs:216-232 | a cancellation keeps it |
| `RegistryRuns.ConfirmExactly` | pallets/providers/src/utils.rs:237-387 | a confirmation keeps it exactly when the drawn id is not in use |
| `RegistryRuns.ForceExactly` | pallets/providers/src/lib.rs:1344-1390 | so does a forced sign-up |
| `RegistryRuns.SignOffInv` | pallets/providers/src/utils.rs:392-504 | a sign-off keeps it |
| `RegistryRuns.ChangeInv` | pallets/providers/src/utils.rs:509-713 | a capacity change keeps it |
| `RegistryRuns.RunInv` | pallets/providers/src/utils.rs:76-713 | over every run without a repeated id: counters and total are recounts, accounts and ids agree, no account has two roles, every hold is the deposit for its capacity |
| `RegistryRuns.SameIdMiscounts` | pallets/providers/src/utils.rs:333-387 | a repeated id leaves the counter one too high |
| `RegistryTerms.EmptyIsTold` | pallets/providers/src/utils.rs:76-713 | the empty registry is a start for the results about runs |
| `RegistryTerms.RunTold` | pallets/providers/src/utils.rs:76-713 | over every run the registry's records are what happened: when each account asked to join and last changed its capacity, for how much, and what its provider was last given to store |
| `RegistryTerms.AsksExactly` | pallets/providers/src/utils.rs:76-212 | an account may ask to join exactly when it is neither pending nor registered, names an address, and can spare the fee for a capacity that is large enough |
| `RegistryTerms.RequestRefusedTruly` | pallets/providers/src/utils.rs:76-212 | a refused request names a reason that holds |
| `RegistryTerms.ConfirmsExactly` | pallets/providers/src/utils.rs:237-387 | after any run a request is confirmed exactly when the randomness is no older than the request, it has not expired, and the counters have room |
| `RegistryTerms.ConfirmationRefusedTruly` | pallets/providers/src/utils.rs:237-387 | after any run a refused confirmation names a reason that holds |
| `RegistryTerms.LeavesExactly` | pallets/providers/src/utils.rs:392-504 | after any run a provider signs off exactly when it is registered in the role, was last given nothing to store, and, a backup provider, asked to join at least the lock period ago |
| `RegistryTerms.LeaveRefusedTruly` | pallets/providers/src/utils.rs:392-504 | after any run a refused sign-off names a reason that holds |
| `RegistryTerms.ResizesExactly` | pallets/providers/src/utils.rs:509-713 | after any run a capacity is changed exactly when it is another one, no less than the minimum and what is stored, the provider solvent, its last change or request far enough back, and the fee and the total allow it |
| `RegistryTerms.ResizeRefusedTruly` | pallets/providers/src/utils.rs:509-713 | after any run a refused change of capacity names a reason that holds |
| `RegistrySlash.SlashKeepsTotalExactly` | pallets/providers/src/utils.rs:839-969 | a slash keeps the total a recount exactly when the hold still covers what is needed, or the deficit is affordable and the needed capacity is the old one, or it is not and the capacity of the slashed amount is; only in the last case is a top-up newly awaited |
| `RegistrySlash.TopUpKeepsTotalExactly` | pallets/providers/src/utils.rs:977-1058 | a top-up keeps it exactly when the id is looked up as a main provider's, nothing is lacking or the needed capacity is the old one |
| `RegistrySlash.SlashesExactly` | pallets/providers/src/utils.rs:839-875 | a provider is slashed exactly when it is registered and solvent, has failures to answer for, and capacity and deposit can be computed |
| `RegistrySlash.TopsUpExactly` | pallets/providers/src/utils.rs:977-1058 | a provider tops up exactly when it is registered and solvent and can spare what its hold lacks; it then holds the deposit it needs and is awaited no longer |
| `RegistrySlash.SlashRefusedTruly` | pallets/providers/src/utils.rs:839-875 | a refused slash names a reason that holds |
| `RegistrySlash.TopUpRefusedTruly` | pallets/providers/src/utils.rs:977-1058 | a refused top-up names a reason that holds |
| `RegistrySlash.SlashBreaksTotal` | pallets/providers/src/utils.rs:839-969 | a concrete slash after which the total is wrong |
| `RegistryDrift.TotalDrifts` | pallets/providers/src/utils.rs:839-1058 | over every run with slashes and top-ups, the total capacity plus the sum of their capacity rewrites is the recount |
| `RegistryDrift.RunKeepsMoney` | pallets/providers/src/utils.rs:76-1058 | over every run, slashes and top-ups included, all the money is still there |
| `RegistryDrift.SignOffUnderflowsExactly` | pallets/providers/src/utils.rs:440-504 | after any such run a sign-off underflows exactly when the rewrites added more than all other backup providers have, or the counter is at zero |
| `RegistryDrift.SignOffCanUnderflow` | pallets/providers/src/utils.rs:2041-2050 | a run in which a backup provider is filled beyond its capacity, slashed, and then cannot leave |
| `RegistryPallet.Pallet.RequestRole` | pallets/providers/src/utils.rs:76-212 | the request in place, keeps the invariant |
| `RegistryPallet.Pallet.CancelRequest` | pallets/providers/src/utils.rs:216-232 | the cancellation in place, keeps the invariant |
| `RegistryPallet.Pallet.ConfirmRequest` | pallets/providers/src/utils.rs:237-387 | the confirmation in place; keeps the invariant exactly when the id is free |
| `RegistryPallet.Pallet.SignOffBsp` | pallets/providers/src/utils.rs:440-504 | the sign-off of a backup provider in place, keeps the invariant |
| `RegistryPallet.Pallet.SignOffMsp` | pallets/providers/src/utils.rs:392-435 | the sign-off of a main provider in place, keeps the invariant |
| `RegistryPallet.Pallet.ChangeMspCapacity` | pallets/providers/src/utils.rs:554-617 | the capacity change of a main provider in place, keeps the invariant |
| `RegistryPallet.Pallet.ChangeBspCapacity` | pallets/providers/src/utils.rs:622-713 | the capacity change of a backup provider in place, keeps the invariant |
| `ExpirationQueue.PlacedAtIsFirst` | pallets/providers/src/types.rs:43-80 | an item gets the first tick with room at least its time-to-live ahead |
| `ExpirationQueue.EnqueueInv` | pallets/providers/src/utils.rs:2488-2498 | queueing keeps buckets bounded, nothing beyond the tick handed out last, and items ripe in their bucket |
| `ExpirationQueue.RunInv` | pallets/providers/src/types.rs:43-92 | so does every run |
| `ExpirationQueue.NeverTooEarly` | pallets/providers/src/utils.rs:2523-2575 | with any weights, no item is cleaned before its time-to-live |
| `ExpirationQueue.NothingTwice` | pallets/providers/src/utils.rs:2523-2575 | with any weights, each queued item is exactly once cleaned, dropped or waiting |
| `ExpirationWeights.PopAllExactly` | pallets/providers/src/utils.rs:2547-2575 | a bucket, orphaned items included, is popped without loss exactly when the weight its items need is there, and then takes exactly what they spend |
| `ExpirationWeights.LossFreeExactly` | pallets/providers/src/utils.rs:2523-2575 | for any orphans, a clean-up loses nothing exactly when the weight pays for all buckets up to the last one that holds anything, or runs out precisely between two buckets |
| `ExpirationWeights.ShortBudgetDrops` | pallets/providers/src/utils.rs:2547-2575 | a concrete clean-up that drops an item |
| `ExpirationWeights.EnqueueBehindExactly` | pallets/file-system/src/utils.rs:2201-2209 | a new item lands behind the pointer exactly when its tick does; never with a time-to-live of at least one |
| `ExpirationWeights.AmpleRunsLoseNothing` | pallets/providers/src/utils.rs:2523-2545 | with ample weight nothing is ever dropped and the pointer passes no bucket that holds anything |
| `ExpirationWeights.AmpleRunsCleanEverything` | pallets/providers/src/utils.rs:2523-2545 | and after a clean-up, an item that waits in no later bucket has been cleaned exactly as often as it was queued |
| `ExpirationPallet.Scheduler.EnqueueItem` | pallets/providers/src/types.rs:43-92 | the loop that looks for room, in place |
| `ExpirationPallet.Scheduler.ProcessBucketAt` | pallets/providers/src/utils.rs:2547-2575 | the loop that pops a bucket, in place |
| `ExpirationPallet.Scheduler.OnIdle` | pallets/providers/src/utils.rs:2523-2545 | the idle loop, in place, keeps the invariant |
| `EventBus.Channel.constructor` | client/actors-framework/src/event_bus.rs:23-27 | an empty ring of at least the configured capacity |
| `EventBus.Channel.Send` | client/actors-framework/src/event_bus.rs:29-37 | writing one slot of the ring appends to the channel |
| `EventBus.Channel.Recv` | client/actors-framework/src/event_bus.rs:91-103 | the ring answers as if it kept every event, except that a reader too far behind is told so |
| `EventBus.RunListener` | client/actors-framework/src/event_bus.rs:91-103 | the listener's loop starts a handler for each pending event in order, or ends when it lags |
| `EventBus.Delivery` | client/actors-framework/src/event_bus.rs:51-109 | over every interleaving, what a listener starts is a contiguous in-order stretch, from its subscription on, of what the actor's messages emit in handling order |
| `EventBus.UnheardIsNotKept` | client/actors-framework/src/event_bus.rs:29-37 | over every run, what is emitted while nobody listens is kept for no later subscriber |
| `EventBus.EndsExactly` | client/actors-framework/src/event_bus.rs:91-103 | a listener ends exactly when dropped or when it reads more than a ring behind |
| `EventBus.KeepingUpStaysAlive` | client/actors-framework/src/event_bus.rs:91-103 | one that keeps up is never cut off, whatever handlers and other listeners do |
| `EventBus.KeepingUpIsComplete` | client/actors-framework/src/event_bus.rs:91-103 | and has then started a handler for every event emitted since its subscription |
| `EventBus.EndedForGood` | client/actors-framework/src/event_bus.rs:91-103 | over every run, a listener that has ended stays ended and starts nothing more |
| `EventBus.FallingBehindEnds` | client/actors-framework/src/event_bus.rs:91-103 | one event too many ends it, and whatever follows it starts no other handler |
| `EventBus.TakeActor` | client/actors-framework/src/actor.rs:77-81 | the serial loop emits message by message, in mailbox order |
| `MessageQueue.Pallet.HandleXcmpMessage` | xcm-simulator/src/mock_message_queue.rs:93-144 | one sibling message in place |
| `MessageQueue.Pallet.HandleXcmpMessages` | xcm-simulator/src/mock_message_queue.rs:148-169 | the nested loops over pages and fragments terminate and equal their function |
| `MessageQueue.Pallet.HandleDmpMessages` | xcm-simulator/src/mock_message_queue.rs:173-206 | the loop over downward messages in place |
| `MessageQueue.HandlesEach` | xcm-simulator/src/mock_message_queue.rs:93-144 | exactly the supported messages are executed, in order, and each message gets one event |
| `MessageQueue.OutcomesReported` | xcm-simulator/src/mock_message_queue.rs:104-142 | a supported message is run after the ones before it and reported a success exactly when the executor completed it, otherwise with the executor's error |
| `MessageQueue.FragmentsRoundTrip` | xcm-simulator/src/mock_message_queue.rs:157-166 | the fragment loop undoes the concatenation of encodings |
| `MessageQueue.PagesAreBatches` | xcm-simulator/src/mock_message_queue.rs:148-169 | pages built from batches are processed without a panic as if the messages came one by one |
| `MessageQueue.BatchesHandleEach` | xcm-simulator/src/mock_message_queue.rs:148-169 | over all pages, every supported message is executed in order and every message has one event |
| `MessageQueue.DownwardsHandleEach` | xcm-simulator/src/mock_message_queue.rs:173-206 | for arbitrary payloads, one event each telling why, and the received and executed messages grow by exactly the supported ones, in order |
| `MessageQueue.DownwardOutcomesReported` | xcm-simulator/src/mock_message_queue.rs:173-206 | a supported payload is run after the ones before it, and what the executor made of it is reported |
| `SlotClock.DevelopmentNode.AuthorBlock` | node/src/service.rs:559-651 | an authoring attempt over the threads' own cells is one step of the clock model |
| `SlotClock.DevelopmentNode.AuthorAll` | node/src/service.rs:559-651 | the authoring loop is the run of the clock model; on one thread, from start-up or later, the new blocks take consecutive slots |
| `SlotClock.TimesAgreeExactly` | node/src/service.rs:559-575 | a block's timestamp is the time its slot came from exactly when the two threads' cells agree |
| `SlotClock.ThreadsDisagree` | node/src/service.rs:559-575 | from start-up, a run on two threads whose block has a timestamp other than its slot's time |
| `SlotClock.FirstUse` | node/src/service.rs:559-559 | a cell set by the first attempt is as good as one set to that value before |
| `SlotClock.SlotsCountBlocks` | node/src/service.rs:613-651 | on one thread, from any state and also from start-up, abandoned attempts included, times agree and slots count up by one per block |
| `SlotClock.SlotStandsStill` | node/src/service.rs:559-575 | building on one thread and supplying on another, from any state, the slot never moves |

## Left out

- Saturation of ticks and block numbers at 32 bits: ticks are unbounded; only the accrued counts saturate as in the code.
- The verification of forest and key proofs, the mutations they apply, hashing and encoding: a proof carries the verifiers'
  answer to a list of challenges, and drawn challenges are symbolic.
- The third-party balances pallet: free and held balances, reducible balance, transfers that keep the sender alive, holds and
  exact releases are modelled as described in `Balances`; freezes, other hold reasons and issuance limits are not.
- `ProofsDealerPallet.Pallet.SubmitProof`: the forest root a proof may change, its mutations and its key proofs are one
  abstract verdict.
- `ProofCredits.ChargeableExactly`: whether the dealer is paused in a block is an input; `BlockFullness` decides it.
- `ChargeCommutes.BatchOrderExactly`: no user of the batch is the payee or the treasury; what such a user can pay depends
  on who was charged before it.
- `RegistrySlash.SlashKeepsTotalExactly`: slashing and topping up are modelled on values only, and the number of failures is
  the proofs dealer's answer.
- `RegistryPallet.Pallet.ConfirmRequest`: the value proposition of a main provider and the reputation weight of a backup
  provider are not stored.
- `RegistryPallet.Pallet.SignOffBsp`: the total reputation weight is not kept.
- Value propositions, buckets, multiaddresses, reputation weights and the used capacity kept by other pallets.
- `ExpirationQueue`: one queue and one kind of item; the file-system pallet runs three such queues in one hook, and the
  effects of cleaning an item are not modelled. The bound on items per bucket is taken to be at least one, as the loop
  otherwise never finds room.
- `MessageQueue.PagesAreBatches`: bytes that do not decode are skipped, as in a release build; a debug build panics.
- The internals of the broadcast channel, task scheduling and the closing of channels: the ring is modelled, tasks are
  arbitrary interleavings, and an actor's handle being used after the actor died is not.
- The formulas for prices, for the treasury's share and for volunteering: prices and shares are arbitrary inputs.
- Node start-up, RPC, command line, runtime configuration, genesis presets and type listings: wiring without hard logic.
