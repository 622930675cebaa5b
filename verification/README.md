# momiao: verified models of its durable protocols

momiao is a Go service whose lasting state lives in Postgres transactions and Redis scripts. This project models, in
Dafny, the parts of it that have to hold over whole runs, and proves that they do:

- **Direct Play** (`internal/games`): fairness commitments, fast games settled in one transaction, blackjack rounds that
  stay open across deals, actions and a background job, wallets and supply events. `GameStore.dfy` states each transaction
  as a function of the stored rows; `GameInvariant.dfy`, `GameUpdates.dfy`, `GameTransactions.dfy` and `GameHistory.dfy`
  prove what every run keeps, `GameReplays.dfy` what a retried or looked-up request answers and shows. `GameEffects.dfy`
  proves what an accepted request pays and leaves behind, and `GameRules.dfy` exactly when it is accepted, both told from the
  request and the rows alone. `GameService.dfy` is the service as it runs, each operation proved equal to its transaction.
  `Outcomes.dfy` holds the typed results as they are derived from a seed, stored and read back.
- **The Discord dice bot** on top of it (`BotDice.dfy`), and the paging of a player's rounds (`HistoryPages.dfy`).
- **Announcements** (`Announcements.dfy`, `AnnouncementRuns.dfy`, `AnnouncementStore.dfy`, `AnnouncementEffects.dfy`): eight
  commands, versioned jobs, a worker that skips publishing in maintenance, exclusive display windows.
- **The registration grant** (`Admission.dfy`, `AdmissionRuns.dfy`, `AdmissionStore.dfy`, `AdmissionEffects.dfy`): receipts,
  the ingest cursor, and retryable claims under crashes and lost commit replies.
- **Sessions and the second factor** (`Sessions.dfy`, `SessionRuns.dfy`, `SessionStore.dfy`, `SessionLiveness.dfy`,
  `SecondFactor.dfy`): Redis keys with expiries, the per-user index and the user's row lock, as interleaved steps.
- **Poker sockets** (`PokerSockets.dfy`, `PokerRegistry.dfy`, `PokerSnapshot.dfy`): connect, disconnect and rebind under two
  locks.
- **Exact arithmetic** (`Amount.dfy`, `Decimal.dfy`, `PrizeTable.dfy`, `Shuffle.dfy`, `ScratchCard.dfy`, `FastGames.dfy`,
  `Wagers.dfy`, `FairReturn.dfy`, `PayoutCap.dfy`).

A committed transaction is one atomic step, since every one of them runs under a row or advisory lock. Where interleaving
matters (Redis, the socket registry, in-flight pages, the bot's two calls) the steps are separate and any order of them is
covered. Clocks, randomness, generated identifiers, the rules engine's answers and whether a commit succeeds are parameters
of the steps.

Six results differ from what the code's comments or shape suggest. Each has a failing input and its exact condition:

- A retried dice create does not always show its original answer. A create answers by the round's ruleset, under which a
  triple may return the wager; reading the round back rebuilds the result from the faces alone, and shows every triple as
  lost. `GameReplays.ReplayShowsExactly` proves, over every later run and for all fast games, that the answer read back is
  the original one if and only if the round was not such a pushed triple (and no ticket was revealed since);
  `GameReplays.VerifiedExactly` that its own verification succeeds if and only if it was not; `GameReplays.PushShownAsLost`
  reaches such a round. Amounts are never affected, nor is the Discord bot's message (`BotDice.AnsweredForEver`).
- A factor challenge counts its expiry in the index from the clock reading its caller took, but in Redis from the moment
  the script runs. Stored later than it was asked for, it can be pruned from the index while it still lives, and a
  revocation then misses it. `SessionRuns.SurvivesExactly` gives the window: stored with delay d, it can still be accepted
  after a revocation at age a if and only if 0 <= d <= a and 300 seconds <= a < d + 300 seconds.
  `SessionRuns.EscapesIffLate` turns it into a session after the revocation, in some run, if and only if d > 0. Sessions are
  not affected, because every read checks their thirty days again (`RevokedSessionRefused`, `RevokedReferenceRefused`), and
  neither are password proofs, because a proof is bound to a session that is read again under the row lock
  (`RevokedProofRefused`, without conditions).
- `ParseAmount` does not answer out-of-range for every amount above int64: an odd number of micros is refused as not
  representable first, as for 18446744073709.551615 (`Amount.OddAmountNotRepresentable`). `Amount.OutOfRangeExactly` gives
  the exact condition.
- A replayed blackjack create is not always without effect, and does not show the original answer but the hand as it
  stands: `GameReplays.DealReplayShows` proves that the two are equal if and only if the hand has not moved and can be
  recovered. The read may also leave a review mark; `GameReplays.DealReplay` and `GameReplays.ReadSilentExactly` say exactly
  when (an open hand, not yet under review, whose recovery fails), and `GameReplays.ReplayCanMark` reaches a store where it
  does.
- A wrong second-factor code counts only once its transaction commits. Of the codes examined each beyond the fifth takes
  300 seconds, but for those whose commit was lost (`SecondFactor.GuessingTakesTime`); the bound holds for every code
  examined if and only if none was lost (`SecondFactor.SlowExactly`).
- Ingest validates a page before it takes any row, while registration asks only for a non-empty policy version. A receipt
  that fails the validation holds the cursor for good (`AdmissionRuns.MalformedStalls`), as under a configured version of 65
  characters (`AdmissionRuns.LongPolicyStalls`, `AdmissionRuns.SomeRegistrationStalls`). `AdmissionRuns.StallsExactly` and
  `AdmissionRuns.IngestExactly` give the condition, and `AdmissionRuns.FitNeverStalls` shows that no page within reach is
  refused while registrations bring valid values.

## Model

| member | source | states |
|---|---|---|
| `Amount.ParseAmount` | internal/platform/amount.go:20-56 | the parser in checked unsigned 64-bit arithmetic equals its specification on every text, so no intermediate overflows |
| `Amount.FormatAmount` | internal/platform/amount.go:58-72 | the printer equals its specification on every int64, the smallest one included |
| `Amount.AcceptedExactly` | internal/platform/amount.go:20-56 | accepted with u units if and only if the text is well formed, worth exactly 2u micros, and u is positive and fits int64 |
| `Amount.OutOfRangeExactly` | internal/platform/amount.go:36-56 | out of range if and only if the whole part leaves 64 bits, or the value is even in micros and its units leave int64 |
| `Amount.OddAmountNotRepresentable` | internal/platform/amount.go:36-56 | a text above int64 that is answered not representable |
| `Amount.ParseOfFormat` | internal/platform/amount.go:20-72 | parsing what was printed is the identity on every positive int64 |
| `Amount.FormatOfParseShortest` | internal/platform/amount.go:20-72 | printing what was parsed gives the one shortest text among all texts of the same exact value |
| `PrizeTable.NewPrizeConfig` | internal/games/config.go:189-225 | the constructor accepts exactly the tables whose rows are distinct frozen tiers with their multipliers, non-negative weights and the right total |
| `PrizeTable.PrizeAt` | internal/games/config.go:278-290 | the sampling loop finds the row its specification names, and refuses samples out of range |
| `PrizeTable.SamplingTotal` | internal/games/config.go:278-290 | on an accepted table in any order, with zero weights, every sample below 100000 hits a listed row |
| `PrizeTable.TierHitByItsWeight` | internal/games/config.go:189-225 | the number of samples that hit a row is exactly its weight |
| `PrizeTable.SamplingIsWeighted` | internal/games/config.go:67-98 | any quantity summed over all 100000 samples is its weighted sum over the table |
| `PrizeTable.ComputeStatistics` | internal/games/config.go:67-98 | the statistics loop returns those sums: the return numerator and the win, even, loss and top counts |
| `PrizeTable.EveryTierPresent` | internal/games/config.go:189-225 | an accepted table names every frozen tier |
| `Shuffle.ShuffleInPlace` | internal/games/scratch.go:90-99 | the in-place loop equals the swap recursion over its draws |
| `Shuffle.ShuffleBijection` | internal/games/scratch.go:90-99 | for every length, draw vectors and rearrangements of distinct cells correspond one to one |
| `Shuffle.ShuffledPermutes` | internal/games/scratch.go:90-99 | every draw vector gives a permutation, repeated cells or not |
| `ScratchCard.ScratchMultiset` | internal/games/scratch.go:53-88 | the filling loops give the tier's base cells, and none for an unknown tier |
| `ScratchCard.ValidateLayout` | internal/botgames/scratch_projection.go:72-103 | the bot's counting loops accept exactly the stored texts that name the seven symbols only and write down a layout with the tier's symbol counts and marks |
| `ScratchCard.ReachableIsAccepted` | internal/games/scratch.go:20-99 | the tickets the engine can write down for a tier are exactly the texts the bot accepts for it |
| `ScratchCard.SampledTicketKnown` | internal/botgames/scratch_projection.go:130-151 | every sampled tier is known to the bot with the multiplier the engine pays |
| `FastGames.RollDice` | internal/games/dice.go:50-76 | the three faces in order and the payout multiple for the choice under either triple rule |
| `FastGames.CountRolls` | internal/games/config.go:113-130 | the constructor's nested loops count the small, big and triple rolls |
| `FastGames.RollCounts` | internal/games/config.go:131-133 | of the 216 rolls 105 are small, 105 big and 6 triples |
| `FastGames.PayStatistics` | internal/games/config.go:74-80 | over the 216 rolls either choice pays 210 wagers, and 216 when triples push |
| `Outcomes.DeriveDraws` | internal/games/summon.go:39-65 | the draws in order, their sum as payout, and the greatest tier drawn; none if a draw fails |
| `Outcomes.DeriveTicket` | internal/games/scratch.go:20-51 | prize, base cells, shuffle and marks of a seed as one ticket |
| `Outcomes.Derive` | internal/games/service.go:207-239 | the typed result and payoff of a seed for each fast game |
| `Outcomes.DerivedPays` | internal/games/service.go:207-239 | every seed has an outcome under an accepted configuration, and its payoff is the multiple the guard bounds |
| `Outcomes.PersistTyped` | internal/games/service.go:240-271 | the insert loops store the rows of an outcome, cells and draws under their index |
| `Outcomes.ReadTyped` | internal/games/read.go:79-160 | the ordered scans rebuild the outcome, and refuse any gap or stray row |
| `Outcomes.ReadBackExactly` | internal/games/read.go:79-160 | what is read back is what was derived, except that a pushed triple is read back as lost |
| `FastGames.TierOrder` | internal/games/summon.go:39-65 | comparing tier names orders summon prizes as comparing their multipliers does |
| `FastGames.MultipleBounded` | internal/games/service.go:207-239 | whatever the seed, the outcome mapping succeeds and pays between nothing and the multiple reserved before the draw |
| `Wagers.NormalizedFits` | internal/games/service_types.go:50-115 | base, stake and largest payout of a normalized wager all fit int64, in that order |
| `Wagers.NormalizeIdempotent` | internal/games/service_types.go:50-115 | normalizing the stored input again gives the same terms |
| `Wagers.NormalizedExactly` | internal/games/service_types.go:50-115 | a wager is taken if and only if the request is one of its game's, its text is up to 19 digits of at least ten chips and the largest payout fits int64; base, stake and largest payout are that number of chips, once, ten times and 2, 17, 100 or 1000 times |
| `Wagers.LimitExact` | internal/botgames/service.go:112-129 | for dice, scratch, summon and blackjack, every balance, sequence number, version and optional cap: the engine accepts a whole-chip wager if and only if the wallet has sequence numbers to spare and the wager is at least ten chips and at most the previewed maximum |
| `Wagers.LimitsForm` | internal/botgames/summon_service.go:120-140 | the four limit formulas are one formula in the game's draws and largest multiple |
| `FairReturn.BlackjackFairReturn` | internal/games/blackjack_service.go:36-60 | the split computation equals the exact product rounded by the draw, with no int64 overflow for any wager |
| `FairReturn.Unbiased` | internal/games/blackjack_service.go:36-60 | summed over all draws the return is exactly the wager times the rate's numerator |
| `FairReturn.BonusBounded` | internal/games/blackjack_service.go:36-60 | the return never exceeds the wager, the room reserved for it |
| `FairReturn.RecoverSettled` | internal/games/blackjack_store.go:217-242 | strip, verify, compare and add back: accepted exactly for the expected return on a row whose stripped form replays |
| `FairReturn.SettleThenRecover` | internal/games/blackjack_store.go:217-242 | what settlement stored is what recovery returns: payout, net, return and class |
| `GameHistory.SettledRowRecovered` | internal/games/blackjack_store.go:217-242 | in every reachable state a settled blackjack row is recovered unchanged whenever its replay without the return is confirmed |
| `PayoutCap.CapNeverRefuses` | internal/platform/economy_policy.go:85-105 | an observed round is never refused by the cap; principal is never withheld, and profit only down to the larger of cap and old total |
| `GameHistory.Conservation` | internal/games/service.go:136-199 | over every run from an empty store, chips held plus open stakes equal what came in plus issued minus burned supply |
| `GameHistory.RunSound` | internal/games/blackjack_service.go:241-315 | every run of creates, deals, actions, jobs, reads, reveals and transfers keeps the invariant, conserves chips, and never rewrites what was settled |
| `GameHistory.StepSound` | internal/games/blackjack_jobs.go:59-161 | one committed or rolled-back transaction of any kind does |
| `GameTransactions.FastRefusalIgnoresOutcome` | internal/games/service.go:109-163 | a dice, scratch or summon create is refused exactly when, and as, its checks before the draw refuse it |
| `GameTransactions.NoFreeProbe` | internal/games/service.go:112-116 | from any state and any two server seeds a create is accepted or refused identically |
| `GameTransactions.DealRefusalIgnoresOutcome` | internal/games/blackjack_service.go:146-217 | the same for a blackjack deal, for every answer the rules engine may give |
| `GameTransactions.ActionRefusalIgnoresOutcome` | internal/games/blackjack_service.go:387-443 | an action the rules allow is refused exactly for reasons that do not depend on any hidden card: the cap is checked on the stake of the named hand before the engine runs |
| `GameTransactions.JobRefusalIgnoresOutcome` | internal/games/blackjack_jobs.go:120-145 | an automatic resolution fails only when the asset reading does |
| `GameTransactions.CreateFastSound` | internal/games/service.go:36-201 | a create keeps the invariant and the chips |
| `GameTransactions.ActionSound` | internal/games/blackjack_service.go:338-461 | an action does, whether it settles, reschedules, replays or goes to review |
| `GameTransactions.OpenSameAssets` | internal/games/blackjack_service.go:255-265 | moving a stake into an open round leaves the user's unified assets unchanged |
| `GameTransactions.SettleFastSucceeds` | internal/games/service.go:136-163 | once the guard passes, no draw makes the debit, cap or payout fail |
| `GameTransactions.FastPaysOutcome` | internal/games/service.go:135-183 | an accepted new create records, shows and pays exactly the seed's outcome: typed result, stake, base times multiple, cap, and that user's wallet alone moved by the net |
| `GameEffects.FastSettles` | internal/games/service.go:135-201 | an accepted new create leaves the named row settled for the payoff it shows, the user's wallet moved by payout less withheld less stake, the commitment revealed, and no other row touched |
| `GameEffects.DicePays` | internal/games/dice.go:52-103 | from the request text and the shown faces alone: BIG pays twice the wager exactly for unequal faces summing to 11 or more, SMALL for unequal faces up to 10, equal faces the wager or nothing; the side shown is the side asked for |
| `GameEffects.TicketPays` | internal/games/scratch.go:20-99 | a ticket pays the multiple its nine cells and marks say, and that is the table row the seed's sample falls on |
| `GameEffects.DrawsPay` | internal/games/summon.go:39-65 | a summon takes and pays one or ten draws as asked for, each the table row its own sample falls on, the payout being the sum of those shown |
| `GameEffects.ActionSettles` | internal/games/blackjack_service.go:241-302 | an accepted action that ends the hand stores and credits the engine's payout plus the fair return, less what the cap withholds, for the stake as raised; no other wallet, round or commitment moves, and the answer is kept |
| `GameEffects.ActionLeavesOpen` | internal/games/blackjack_service.go:431-452 | an accepted action that does not takes exactly the added stake and moves the deadline of the hand and of its job |
| `GameEffects.DealSettles` | internal/games/blackjack_service.go:146-237 | a deal that ends at once is settled for the engine's payout plus the fair return |
| `GameEffects.DealLeavesOpen` | internal/games/blackjack_service.go:146-237 | a deal that goes on takes exactly the wager and waits, its commitment consumed and its two jobs pending at the deadline and at once |
| `GameEffects.JobActs` | internal/games/blackjack_jobs.go:59-161 | a job that is not ripe does nothing; a ripe one is done, waits for the hand's deadline, or settles the hand for what the stands come to plus the fair return, each stand on record |
| `GameRules.CreateTakenExactly` | internal/games/service.go:40-120 | a new create is taken if and only if its player may start: form, maintenance, blockers, offered commitment, wallet, room and cap, none of it hidden |
| `GameRules.DealTakenExactly` | internal/games/blackjack_service.go:96-160 | the same for a new deal |
| `GameRules.ActionTakenExactly` | internal/games/blackjack_service.go:338-430 | a new action the rules engine allows is applied if and only if its player may act on that hand |
| `GameRules.JobTakenExactly` | internal/games/blackjack_jobs.go:59-161 | a job fails if and only if it is to settle its hand and the wallet has no room, the assets cannot be read or an action id is taken; no card has a part in it |
| `GameRules.RetryWaits` | internal/games/blackjack_jobs.go:41-54 | a job that failed is due again thirty seconds later, and nothing else has changed |
| `GameRules.RecoveryFails` | internal/games/blackjack_store.go:243-263 | when a hand cannot be recovered, a read, an action or a ripe job marks it for review if it is open and freezes its pending jobs, and does nothing else |
| `GameRules.ReviewFreezes` | internal/games/blackjack_store.go:243-263 | in every run the row of a hand under review never changes again |
| `GameRules.SeedTaken` | internal/games/commitment.go:169-204 | an accepted client seed is stored as asked for, under the next version if it is another one, and the commitment answered is on offer under exactly that seed and version |
| `GameRules.SeedTakenExactly` | internal/games/commitment.go:169-204 | and when it is accepted |
| `GameRules.PageOffers` | internal/games/commitment.go:117-168 | opening a game offers a commitment under the seed and rules in force exactly when the game is open and nothing of the player is unfinished |
| `GameRules.RevealUnblocks` | internal/games/service.go:273-322 | a first completion marks exactly that ticket; it blocks no more, and if it did, nothing of the player's blocks the next ticket |
| `GameHistory.BlockerAgrees` | internal/games/commitment.go:142-164 | a bootstrap's blocker, found on the latest round alone, is exactly the round a create's search over all rounds finds |
| `GameHistory.RevealedOnlySettled` | internal/games/service.go:135-199 | a seed is revealed if and only if its one round is settled, consumed if and only if that round is open |
| `GameHistory.NoncesIncrease` | internal/games/commitment.go:75-93 | in every run a later commitment of a user and game has a larger nonce, at the last int64 too, and old ones keep theirs |
| `GameUpdates.AvailableUnique` | internal/games/commitment.go:62-74 | a user has at most one available commitment per game |
| `GameUpdates.IssueAdvances` | internal/games/commitment.go:62-116 | issuing moves commitments only forward and above every earlier nonce |
| `GameReplays.FastReplay` | internal/games/service.go:40-52 | whatever ran since, a fast create's key reads its round without effect, or conflicts for any changed input; looking the key up reads the same |
| `GameReplays.ReplayShowsExactly` | internal/games/read.go:79-91 | in every later state the round read back has the original amounts, faces, cells and draws, and equals the original answer if and only if it was no pushed triple and no ticket was revealed since; a pushed triple shows as lost |
| `GameReplays.VerifiedExactly` | internal/games/read.go:279-361 | in every later state the verification of a fast round by its own seed and configuration succeeds if and only if it was no pushed triple |
| `GameReplays.TamperShows` | internal/games/read.go:279-361 | no stake, payout, nonce or stored outcome of a verified row can be altered without its verification showing it |
| `GameReplays.PushShownAsLost` | internal/games/dice.go:69-72 | some run reaches a dice round answered as returned, whose replay shows it as lost and whose verification fails |
| `GameReplays.DealReplay` | internal/games/blackjack_service.go:96-108 | a deal's key reads its hand as it stands then, however far it has moved on; the store stays as it is if and only if the round is settled, under review or recovered |
| `GameReplays.DealReplayShows` | internal/games/blackjack_store.go:254-275 | the replay of a deal shows the original answer if and only if the hand has not moved and is recovered |
| `GameReplays.ReadSilentExactly` | internal/games/blackjack_store.go:243-263 | reading a round writes nothing if and only if it is absent, not blackjack, recovered, settled or already under review |
| `GameReplays.ReplayCanMark` | internal/games/blackjack_service.go:96-108 | some run reaches a deal whose replay shows no hand and changes the store |
| `GameReplays.ActionReplay` | internal/games/blackjack_service.go:356-371 | an action answered with its round returns that answer without effect in every later state, any changed input conflicts, and lookup agrees |
| `GameHistory.DueJobSettles` | internal/games/blackjack_jobs.go:109-160 | a due job with head room settles its round |
| `GameService.Service.Create` | internal/games/service.go:36-206 | the imperative create equals its transaction: new store and the round shown with its result, nothing on refusal |
| `GameService.Service.CreateBlackjack` | internal/games/blackjack_service.go:78-237 | the same for a deal |
| `GameService.Service.FindByKey` | internal/games/read.go:186-209 | the same for looking a round up by its key |
| `GameService.Service.BlackjackAction` | internal/games/blackjack_service.go:338-461 | the same for an action |
| `GameService.Service.ProcessJob` | internal/games/blackjack_jobs.go:59-161 | the same for one job |
| `GameService.Service.RunJobs` | internal/games/blackjack_jobs.go:16-57 | the store after the picked jobs in order is that of the run listing each of them, followed by its postponement exactly where it failed, and the count is of those that succeeded |
| `GameService.PickJobs` | internal/games/blackjack_jobs.go:16-33 | at most sixteen distinct due jobs by their time and then their id, none passed over for a later one, and all of them if fewer are due |
| `GameService.Service.Bootstrap` | internal/games/commitment.go:117-168 | the same for a bootstrap, with the account made sure of in a transaction of its own |
| `GameService.Service.SetClientSeed` | internal/games/commitment.go:169-204 | the same for a new client seed |
| `GameService.Service.RevealComplete` | internal/games/service.go:273-322 | the same for completing a ticket |
| `GameService.FinishTransition` | internal/games/blackjack_service.go:241-302 | bonus, cap, payout, supply and reveal of a finished hand as one transaction step |
| `GameService.FindLatest` | internal/games/read.go:163-174 | the row scan finds the one round with the greatest nonce |
| `GameService.IssueNext` | internal/games/commitment.go:62-116 | cursor, exhaustion and replacement of a commitment equal their specification |
| `GameService.CheckCreate` | internal/games/service.go:40-120 | the checks in their order equal the preflight the refusal theorems speak of |
| `HistoryPages.History` | internal/games/read.go:210-273 | refused exactly for its bad arguments; otherwise the newest rows below the cursor, none left out, and a next cursor exactly when there is more |
| `HistoryPages.WalkComplete` | internal/games/read.go:210-273 | following the cursors to the end, with rounds added meanwhile, shows newest first, no round twice, and every round that was there at the start |
| `BotDice.StoredKeyDecides` | internal/botgames/service.go:161-169 | a stored key answers the message of its round for the same terms and a conflict for others, whatever the time or mode |
| `BotDice.AnsweredForEver` | internal/botgames/service.go:139-185 | once answered, every later play or lookup of the quote in any run answers the very same message without effect, pushed triples included |
| `BotDice.OverlappingPlays` | internal/botgames/service.go:176-184 | of two overlapping plays the later create finds the earlier round, tells its message and adds nothing |
| `BotDice.PlayTells` | internal/botgames/projection.go:41-79 | a play whose create is accepted always gets its message |
| `BotDice.PlayedExactly` | internal/botgames/service.go:139-185 | while no round bears its key, a quote is answered if and only if its terms are well formed, subject and binding are the caller's, it is played within its 120 seconds, and the player may start that round when the create commits; a lookup or a late play answers as such and changes nothing |
| `BotDice.KeyOfRequest` | internal/botgames/service.go:155-158 | quotes share a key exactly when they share the request |
| `BotDice.MessageTells` | internal/botgames/projection.go:41-79 | over the round an accepted play stored: wager and choice are the quote's, dice the seed's faces with their sum, stake the wager in units, gross less withheld is credited, credited less stake is what that user's wallet moved by, and the result is win, even or loss as gross is above, equal to or below stake |
| `BotDice.Bot.ProjectRound` | internal/botgames/projection.go:41-79 | the projection and its loop over the faces: refused exactly for a round that is no settled dice round of its terms |
| `BotDice.TermsNormalized` | internal/botgames/quote.go:57-85 | a verified quote's terms are stored exactly as quoted |
| `BotDice.Bot.Result` | internal/botgames/service.go:139-185 | the bot's code equals that protocol |
| `AnnouncementRuns.JobsAlwaysPending` | internal/platform/announcements_store.go:399-413 | in every reachable state a published announcement with an end has its current revision's expiry pending, due then, and an unwithdrawn scheduled one its current content's publication |
| `AnnouncementRuns.NothingOverdue` | internal/platform/announcements_public.go:154-225 | with no due job left and no maintenance, nothing published has outlived its window and nothing scheduled waits past its time |
| `AnnouncementRuns.MaintenanceStillExpires` | internal/platform/announcements_public.go:162-163 | maintenance holds back publishing only: windows still end |
| `AnnouncementRuns.OneDeliverable` | cmd/momiao/announcements.go:169-172 | at every instant of every run at most one announcement is deliverable as entry popup, and one as home banner, to a signed-in or an anonymous reader |
| `AnnouncementRuns.PublishDelivers` | internal/platform/announcements_store.go:330-375 | publishing delivers to every reader allowed to see the content, through the whole window asked for, on every placement asked for |
| `AnnouncementRuns.ScheduleDelivers` | internal/platform/announcements_public.go:196-212 | a due scheduled announcement's job is eligible, and taking it within the window delivers it |
| `AnnouncementRuns.RunKeeps` | internal/platform/announcements_store.go:272-386 | every run of commands and jobs under a clock that does not go back keeps jobs, windows, placements and the canonical key |
| `AnnouncementRuns.RunEvolves` | internal/platform/announcements_store.go:330-365 | states never go back, versions never shrink, withdrawal and first publication are for good, ended ones keep content and window |
| `AnnouncementRuns.WithdrawnForGood` | internal/platform/announcements_store.go:348-355 | a withdrawn announcement is never delivered again, whatever is done to it |
| `AnnouncementRuns.GuardKeepsApart` | internal/platform/announcements_store.go:239-258 | a window that passes the guard overlaps no live holder of the placement |
| `AnnouncementEffects.CommandDoes` | internal/platform/announcements_store.go:330-386 | what each of the eight accepted commands leaves: content, state, window, slots, revision, first publication and withdrawal exactly as asked for, the versions one up, and no other announcement touched |
| `AnnouncementEffects.SaveCreates` | internal/platform/announcements_store.go:272-330 | a command without an id adds exactly one announcement with the content sent |
| `AnnouncementEffects.WithdrawalEnds` | internal/platform/announcements_store.go:348-355 | after an accepted withdrawal the announcement is not delivered in any continuation, on any placement, at any time, to any reader |
| `AnnouncementEffects.ArchivalEnds` | internal/platform/announcements_store.go:348-355 | after an accepted archiving likewise |
| `AnnouncementEffects.CommandTakenExactly` | internal/platform/announcements_store.go:150-258 | a command on a stored announcement is accepted if and only if versions, content, arguments, state and windows allow it |
| `AnnouncementEffects.SaveTakenExactly` | internal/platform/announcements_store.go:150-258 | a first save likewise |
| `AnnouncementEffects.JobDoes` | internal/platform/announcements_public.go:154-225 | a job taken publishes, expires with the reason of either case, or does nothing but become obsolete |
| `AnnouncementStore.CheckPlacements` | internal/platform/announcements_store.go:137-149 | the loop accepts exactly distinct placements in range, public surfaces for public content only |
| `AnnouncementStore.CheckGuard` | internal/platform/announcements_store.go:239-258 | the loop over the two surfaces passes exactly when no live announcement occupies the window |
| `AnnouncementStore.Store.ValidateCommand` | internal/platform/announcements_store.go:150-238 | the checks in their order equal the specification for all eight commands |
| `AnnouncementStore.Store.SaveAnnouncement` | internal/platform/announcements_store.go:272-386 | the new rows and the answer of a command, nothing on refusal |
| `AnnouncementStore.Store.RunJob` | internal/platform/announcements_public.go:154-225 | takes the earliest due eligible job and applies it; otherwise changes nothing, which happens only when none is eligible or the rows are locked elsewhere |
| `AnnouncementStore.Store.RunJobs` | internal/platform/announcements_public.go:140-153 | is a run of at most fifty such steps, and stops short only when nothing eligible is due or what is due is locked elsewhere |
| `AdmissionRuns.OneReceiptOneClaim` | internal/identity/registration.go:28-70 | in every reachable state ordinals and cursor have no gap, each new account has exactly one receipt, at most one claim, and one for each ingested receipt |
| `AdmissionRuns.CreditedIsIssued` | internal/platform/admission.go:214-231 | over every run the reserve gained exactly the recorded issuances beside outside changes |
| `AdmissionRuns.ConfirmedOnce` | internal/platform/admission.go:188-213 | a confirmed claim is never due again, its issuance never changes, and the retry path leaves it alone |
| `AdmissionRuns.NotYetCredited` | internal/platform/admission.go:217-221 | an unconfirmed claim's user has no earlier credit |
| `AdmissionRuns.IngestKeeps` | internal/platform/admission.go:109-163 | any page read earlier, however late or often it arrives, moves the cursor to the later of itself and the page's end and keeps every row |
| `AdmissionRuns.IngestAllSucceeds` | internal/platform/admission.go:126-158 | the rows of a validated page within reach are never refused but for a claim id already taken |
| `AdmissionRuns.IngestExactly` | internal/platform/admission.go:109-163 | a page that was read, with fresh claim ids, is ingested if and only if there is no maintenance, the cursor has reached it and every receipt is well formed |
| `AdmissionRuns.MalformedStalls` | internal/platform/admission_receipt.go:31-42 | the cursor never moves past a receipt stored malformed, in any run |
| `AdmissionRuns.StallsExactly` | internal/platform/admission_receipt.go:31-42 | some run moves the cursor past the first receipt if and only if that receipt is well formed |
| `AdmissionRuns.LongPolicyStalls` | internal/identity/discord.go:47-50 | a registration under a policy version of more than 64 characters is accepted and never passed by the cursor |
| `AdmissionRuns.SomeRegistrationStalls` | internal/platform/migrations/0049_local_registration_receipts.sql:8-16 | such a registration exists, with every other value in order |
| `AdmissionRuns.FitNeverStalls` | internal/identity/registration.go:28-70 | in every run whose registrations bring values the validation accepts, every page within reach is ingested outside maintenance and moves the cursor |
| `AdmissionRuns.ReplayIsNoOp` | internal/platform/admission.go:127-137 | a page at or below the cursor changes nothing |
| `AdmissionRuns.FollowingExact` | internal/platform/admission.go:80-100 | a page holds the consecutive receipts after its cursor, up to the limit or the last one |
| `AdmissionRuns.FollowingSelected` | internal/platform/admission.go:85-86 | the query by ordinal, order and limit answers exactly that page |
| `AdmissionRuns.RunKeeps` | cmd/momiao/admission_worker.go:17-42 | every interleaving of registrations, reads, ingests, grants, crashes and retries keeps the invariant |
| `AdmissionEffects.RegisteredExactly` | internal/identity/registration.go:28-70 | a subject that has an account is answered with it if and only if it is active, otherwise refused, with nothing written; one without gets a new active account and the next receipt if and only if the values can be stored |
| `AdmissionEffects.RegisteredAgain` | internal/identity/registration.go:28-45 | in every later state in which its account is linked and active the same subject is answered with that account |
| `AdmissionEffects.PageBrings` | internal/platform/admission.go:127-158 | an ingested page stores every row beyond the cursor, and those only, each with a claim due at once; older claims and all money stay |
| `AdmissionEffects.AttemptDoes` | internal/platform/admission.go:168-232 | a commit, with or without its reply, pays the claim's user that amount once and nobody else; a rollback makes the claim due again ten seconds after it is marked; a crash leaves it as it was |
| `AdmissionEffects.NeverForgotten` | internal/platform/admission.go:176-207 | in every run each ingested receipt has a claim that is paid, or due again ten seconds after the last mark |
| `AdmissionStore.CheckPage` | internal/platform/admission_receipt.go:31-48 | the loop accepts exactly consecutive well-formed receipts (operation id, user, subject, source, policy, timestamp) of distinct users and operations |
| `AdmissionStore.Store.RegisterDiscord` | internal/identity/registration.go:28-70 | the existing account, or a new one with the next receipt |
| `AdmissionStore.Store.ReadRegistrationPage` | internal/platform/admission.go:80-100 | the scan returns that page |
| `AdmissionStore.Store.IngestRegistrationPage` | internal/platform/admission.go:109-163 | any page, read from this store or not, is taken as a whole or not at all, as specified row by row; a page that was read moves the cursor to the later end |
| `AdmissionStore.Store.RecoverRegistrationGrant` | internal/platform/admission.go:168-232 | the longest-due claim, the earlier receipt at a tie, is confirmed, kept, or marked for retry according to how its transaction ended, and conserved |
| `AdmissionStore.Store.WorkerCycle` | cmd/momiao/admission_worker.go:17-42 | a whole cycle keeps all of it, whatever fails on the way |
| `SessionRuns.IndexCovers` | internal/identity/sessions.go:58-84 | in every reachable state a key short of its nominal end is unrevoked, in its user's index, and outlived by it |
| `SessionRuns.RevokedSessionRefused` | internal/identity/sessions.go:100-134 | no session read begun after a revocation succeeds with a key from before it |
| `SessionRuns.RevokedReferenceRefused` | internal/identity/sessions.go:138-167 | nor does a signed session reference looked up after it get a deadline |
| `SessionRuns.AcceptedProofCurrent` | internal/identity/account.go:26-42 | an accepted password proof is of the current epoch and of the user whose lock is held |
| `SessionRuns.RevokedProofRefused` | internal/identity/account.go:101-115 | in every run a password proof from before a revocation is refused, however long its key lives |
| `SessionRuns.RevokedFlowOnlyLate` | internal/identity/login.go:69-82 | the stored key of a revoked challenge or proof that still lives is past its stated expiry by less than the delay of its own storing |
| `SessionRuns.SurvivesExactly` | internal/identity/sessions.go:56-65 | some run holds a revoked challenge of a given storing delay, still acceptable at a given age, if and only if the age is past its expiry by less than the delay and not before its storing |
| `SessionRuns.EscapesIffLate` | internal/identity/login.go:105-138 | some run turns a challenge from before a revocation into a session after it if and only if the challenge was stored late |
| `SessionRuns.NoLoginEscapes` | internal/identity/login.go:141-151 | a login's key belongs to the revocation epoch in which its credentials were checked under the lock |
| `SessionRuns.ChallengeBearsOnce` | internal/identity/login.go:122-138 | at issue a challenge is gone and has borne no session before |
| `SessionRuns.SpentForGood` | internal/identity/login.go:135-138 | and it never lives or bears one again |
| `SessionRuns.DeadForGood` | internal/identity/sessions.go:97-134 | a deleted key never comes back, also not through a renewal that was under way |
| `SessionRuns.LogoutIsFinal` | internal/identity/sessions.go:169-177 | after a logout its key is refused in every continuation |
| `SessionRuns.RunKeeps` | internal/identity/account.go:26-126 | every interleaving of logins, challenges, reads, logouts, password and factor changes keeps the invariant |
| `SessionRuns.RevokeUserKeeps` | internal/identity/sessions.go:179-188 | revoking a user deletes every key of that user short of its nominal end |
| `SessionLiveness.InUseStaysIn` | internal/identity/sessions.go:100-134 | over every run from its issue, a session neither logged out nor revoked is answered at every read before its thirty days end if and only if that comes less than seven days after the last accepted one |
| `SessionLiveness.RenewedExactly` | internal/identity/sessions.go:126-132 | an accepted read sets the deadline to what is left of the thirty days, seven days at most, from the renewal, and moves no other key; a refused one renews nothing |
| `SessionLiveness.CreatedExactly` | internal/identity/sessions.go:58-84 | a new key lives for its time to live; every other key, and every other user's index, stays |
| `SessionLiveness.OthersLeave` | internal/identity/sessions.go:169-188 | no logout, revocation, read, spending or other step touches a key it is not about |
| `SessionLiveness.ChallengeGoodForFiveMinutes` | internal/identity/login.go:105-138 | in every run a challenge neither spent nor revoked is taken up if and only if it is presented within five minutes of its storing |
| `SessionLiveness.ProofGoodForFiveMinutes` | internal/identity/account.go:101-115 | in every run a proof neither used nor revoked is accepted if and only if it comes within five minutes, for the session it was made for and the same terms |
| `SessionLiveness.ProofSpentForGood` | internal/identity/account.go:101-115 | an accepted proof is refused in everything that follows |
| `SessionStore.Store.Create` | internal/identity/sessions.go:58-84 | the create script: pruning loop, key, score and index expiry |
| `SessionStore.Store.RevokeUser` | internal/identity/sessions.go:179-188 | the revocation loop deletes exactly the indexed keys and the index |
| `SessionStore.Store.Read` | internal/identity/sessions.go:100-134 | accepted exactly when the thirty days are not over and the key is there to renew; the deadline is then what is left of them, seven days at most, and no other key moves |
| `SessionStore.Store.ExpiresAt` | internal/identity/sessions.go:138-167 | answered exactly when the key was read for that user, still lives and neither its remaining time nor its thirty days are over; the answer is the earlier of the two ends |
| `SecondFactor.GuessingTakesTime` | internal/identity/store.go:76-136 | over every run, resets included: the codes found wrong since the last success or reset span at least 300 seconds for each beyond the fifth, not counting those whose commit was lost |
| `SecondFactor.SlowExactly` | internal/identity/login.go:124-131 | that bound holds for all codes examined in every run with a given number of lost commits if and only if the number is zero |
| `SecondFactor.BackupCodeOnce` | internal/identity/store.go:108-117 | a backup code is accepted in at most one committed transaction |
| `SecondFactor.ExaminedRightly` | internal/identity/store.go:87-135 | accepted only for the current time-based code or an unused matching backup code, rejected only when neither fits, untouched while locked |
| `SecondFactor.AnsweredExactly` | internal/identity/store.go:76-136 | in every reachable state an attempt is turned away unread exactly while five codes were wrong since the last success and the last of them less than 300 seconds ago, and otherwise accepted exactly for the current or an unused matching backup code |
| `SecondFactor.AttemptLeaves` | internal/identity/store.go:118-135 | a committed fitting code clears counter and lock and uses up one code, or removes the factor when switching off; a wrong one counts once and from the fifth on bars for 300 seconds; nothing else is ever written |
| `SecondFactor.SwitchedOnAndOff` | internal/identity/account.go:128-203 | a confirmed setup arms exactly the codes handed out and never touches a factor in force; a reset always ends it |
| `SecondFactor.Row.Authenticate` | internal/identity/store.go:76-136 | the lock check, the loop over unused codes and the counter equal their specification |
| `SecondFactor.RunKeeps` | internal/identity/account.go:167-203 | setup, enabling, logins, switching off and an administrator's reset keep the counter, the lock and the codes in step |
| `PokerSockets.DisconnectedIsLast` | cmd/momiao/poker_adapter.go:36-113 | under every schedule no Connected of an entry follows a Disconnected, and a closed entry that owes no call ended with Disconnected |
| `PokerSockets.NextKeeps` | cmd/momiao/poker_adapter.go:36-113 | every move of every goroutine keeps the locks, what is owed and the order of calls |
| `PokerSockets.Rejoined` | cmd/momiao/poker_adapter.go:98-112 | a rebind's Connected comes before any Disconnected, which a close marked meanwhile still owes |
| `PokerRegistry.RestsExactly` | cmd/momiao/poker_adapter.go:36-113 | under every schedule an entry with nothing under way was denied and told nothing, or is listed, open, told Connected and never Disconnected, or is off the list, told Connected first and Disconnected last |
| `PokerRegistry.EveryScheduleEnds` | cmd/momiao/poker_adapter.go:36-113 | no schedule deadlocks or runs on: the goroutines under way move at most so often, and when none can move all have returned and no lock is held |
| `PokerRegistry.ConnectAlone` | cmd/momiao/poker_adapter.go:36-66 | a connect is listed with the next order and told Connected if and only if its connection is free, fewer than 1024 are listed and an order is left; a failed one is taken out and told Disconnected, a denied one told nothing |
| `PokerRegistry.DisconnectAlone` | cmd/momiao/poker_adapter.go:68-86 | a disconnect by the entry's own table and session marks, removes and ends with Disconnected; any other changes nothing |
| `PokerRegistry.RebindAlone` | cmd/momiao/poker_adapter.go:88-113 | a rebind tells every listed open claiming entry of the table and session Connected once more, and no other |
| `PokerSnapshot.Bounded` | cmd/momiao/poker_adapter.go:178-217 | the least trimming that fits, refused exactly when the bare core does not |
| `PokerSnapshot.TrimmedKeeps` | cmd/momiao/poker_adapter.go:174-217 | core and players stand, chat and timeline keep their newest, lists their first, each shortening is declared and in order |

## Left out

- The blackjack rules engine, the shoe and the replay check: their answers are parameters under the contract `EngineResult` and `DealResult` in `GameStore.dfy` (at most eight wagers at stake, at most twice the stake paid, a natural at five halves).
- The slot game: its evaluator and limits are not part of this model.
- Hashes, HMAC, AES-GCM, bcrypt, TOTP and the fairness stream: keys, tokens and request hashes are compared as values, a seed is a function from draw domains to answers in range.
- Generated identifiers: a clash is a refusal of the transaction; tokens are never issued twice.
- GameReplays.DealReplay: the cards and the legal actions a hand shows, the latter worked out from the balance at the time of the read, are not modelled.
- GameService.Service.BlackjackAction: card-level state and the persisted hands are not modelled, only stake, payout, version, deadline and phase; the stake of the hand an action names is a parameter.
- GameService.Service.SetClientSeed: control characters and length are judged on characters, not on UTF-8 bytes.
- GameService.Service.RunJobs: the picked jobs are worked through without other transactions in between, which `GameHistory.RunSound` covers in any interleaving.
- SessionRuns.RevokedSessionRefused: one clock for the service and Redis; a skew between two machines' clocks is not modelled.
- Anonymous sessions, cookies and CSRF tokens, which carry no user index.
- AnnouncementStore.Store.RunJob: jobs due at the same instant are taken in any order, where the code orders them by job key.
- Announcement content checks beyond visibility and type, reads, previews and audit rows.
- AdmissionStore.CheckPage: the policy text is judged on characters, not on UTF-8 bytes.
- AdmissionStore.Store.WorkerCycle: the cycle runs without other processes in between, though each attempt reads the clock again; `AdmissionRuns.RunKeeps` covers every interleaving of the same steps.
- BotDice.Bot.Result: nothing commits between the search and the create in the method; `BotDice.AnsweredForEver` and `BotDice.OverlappingPlays` allow any run there.
- The scratch, summon and blackjack bots' protocols are not part of this model; a scratch lookup may also complete its ticket's presentation. Their wager limits, and the scratch bot's layout check, are included.
- HistoryPages.History: pages carry round ids; reading each round and its review marks is the game service's part.
- Ledger rows, settlement transaction ids, cap settlement records and display projections.
- HTTP handlers, configuration, connections, catalog, relay, personal pricing and rankings.
