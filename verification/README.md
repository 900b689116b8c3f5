# Verification of the escrow, juror and arbitration pallets

Three FRAME pallets form one economic state machine: `pallet-projects` (escrowed projects),
`pallet-reputation` (statistics, juror tiers, juror pools and stakes) and `pallet-arbitration`
(disputes in up to three rounds, with bonds, juries, votes and a settlement). This project models
them together in Dafny and proves what their calls keep, separately and over whole runs.

How it is laid out:

- `Types`, `Prelude`, `Currency`: identifiers and parameters; saturating arithmetic, sums over maps
  and folds over sets; an abstract ledger of free and reserved balances, locks and issuance.
- `Reputation`, `Projects`, `Arbitration`: the storage of each pallet as a value, and for each call a
  function `After...` that gives the storage it leaves behind, or the error that undoes it.
- `ReputationPallet`, `ProjectsPallet`, `ArbitrationPallet`, `ChainRuntime`: the same calls as the source
  writes them, on classes whose fields are the storage maps, step by step and loop by loop. Each
  method is proved to leave exactly the storage its `After...` function describes, loops over hash
  maps included, whatever order the entries come in. `Runtime.Dispatch` adds the storage layer's
  rollback and is proved to be one step of `System.Step`; `DispatchAll` is `System.Run`.
- `Admission`, `CallEffects`, `Rounds`: for every call exactly when it is refused and with which error, and what it
  writes, in terms of the state before it.
- `Careers`, `Chronicle`: statistics as the replay of what happened to an account.
- `JurorSelection`, `SelectionTheorems`, `RunningMeans`, `TierTheorems`, `JurorIndex`, `JurorCalls`,
  `JurorLists`, `TierCache`: jurors.
- `FeeTheorems`, `Settlement`, `Money`, `ReserveLedger`, `HoldingsTheorems`, `Solvency`,
  `Enforceability`: money.
- `Escrow`, `EscrowRuns`, `EscrowFunding`, `EscrowPayable`, `EscrowDrains`, `EscrowMoney`, `Lifecycle`:
  projects.
- `DisputeProtocol`, `DisputeCalls`, `DisputeHistory`, `DisputeRuns`, `Ballots`, `BallotRuns`,
  `OutcomeRecords`, `Termination`: disputes.
- `System`, `ChainInvariant`, `ChainSafety`, `GenesisBuild`, `GenesisTheorems`, `FromGenesis`: the state machine, its
  invariant, every call and every run.
- `Situations`, `Shortfalls`, `UnpaidJury`: concrete states in which a property one might expect fails, reached from genesis where that is possible.

Reading notes:

- A run starts from any state in the invariant `ChainInvariant.Inv`; genesis with distinct jurors is
  one. Runs create at most 2^32 projects, counted from genesis, because the id counter is a u32 and
  wraps in a release build; `EscrowRuns.WrappedIdEscrow` says what happens beyond.
- No signer controls the account derived from the arbitration pallet id (`System.WellFormed`).
- `MinJurors`, `MaxJurors`, both periods, the pool capacities, the slash ratio and the width of a
  balance are parameters, with `MinJurors <= MaxJurors`. u32 saturation in the statistics and balance
  saturation in the fees are explicit.
- Client and freelancer may be one account. Results that tell winner from loser apart say so in a
  premise; the invariant, the reserve ledger and the conservation laws do not need it.
- A failed call changes nothing. The exception is the discarded result at
  `pallets/arbitration/src/lib.rs:473`, whose partial writes stay; `Reputation.Attempt` models it.

Where the code departs from its own documentation, the model follows the code:

- The comment at `pallets/arbitration/src/lib.rs:626-628` takes unpaid costs to be covered by the
  slashed bonds. The code collects less instead, and the whole enforcement fails if the jurors
  cannot be paid (`Enforceability.EnforcementSucceedsExactly`, by guards on the state before the call;
  `UnpaidJury.JurorsGoUnpaid` is a chain from genesis in which that happens).
- `README.md:7` of the repository has the escrow released automatically. The lock covers free and reserved money
  together while a release pays from free money only, so a client with a stake or a bond can be left unable to
  pay, by its own payments or by an enforcement it loses. `EscrowDrains.StepPayableExactly` says by exactly which
  calls; `Situations.StakeDrainsEscrow` and `Shortfalls.EnforcementDrainsOther` are chains in which it happens.
- `README.md:11` of the repository pays jurors from the project's funds; the code pays them from the
  pallet account, which slashed bonds and costs fill.
- `README.md:108` has a dispute follow a rejection; the code also accepts one while work is in review.
- A loss rate "above 50%" (`pallets/reputation/src/lib.rs:697`) is floored to a per-thousand rate and
  saturates: `TierTheorems.DisqualifiedExactly` is what the code tests.
- A ruling for the client is counted twice in the statistics (`OutcomeRecords.EnforcementRecords`),
  and leaves the client's escrow lock in place (`Escrow.ExpectedLock`).

## Model

| member | source | states |
|---|---|---|
| FromGenesis.ChainIsSafe | pallets/arbitration/src/lib.rs:236-482 | after any run of well-formed calls from a sound genesis: reserves exact, money conserved, index deserved, locks, records and disputes in agreement, history faithful, budget paid at most once, calls per dispute bounded |
| FromGenesis.ChainsExist | pallets/reputation/src/lib.rs:353-400 | the premise is met: an empty genesis starts a chain that any well-formed calls may follow |
| FromGenesis.PoolsAreComplete | pallets/reputation/src/lib.rs:971-1029 | from genesis, without a refused promotion on the way, a pool holds exactly the registered jurors cached with its tier |
| Admission.CallsDecided | pallets/arbitration/src/lib.rs:236-482 | every call but an enforcement succeeds if and only if all its checks hold on the state before it, and otherwise returns the error of the first that fails: bonds, stakes and payments down to balances and locks, promotions down to tiers and pools, juries down to the number of candidates outside the parties, of all pools in round 2 and of Silver and Gold in round 3 |
| CallEffects.EnforcementRefused | pallets/arbitration/src/lib.rs:399-416 | an enforcement that does not get as far as the ruling returns the error of its first failing check; past these, Enforceability.EnforcementSucceedsExactly decides |
| Chronicle.StepChronicle | pallets/reputation/src/lib.rs:511-617 | a successful call changes every account's statistics by exactly its events: the freelancer of accepted work has delivered at a thousand points a star and the client approved, an enforced ruling for the freelancer delivers at 3000 points and counts once, one for the client counts twice, and a registered voter has voted with the majority if and only if it is on the side with more votes, a tie counting for the freelancer |
| Chronicle.RunChronicle | pallets/reputation/src/lib.rs:511-617 | over any run every account's statistics are those at its start with the events of the successful calls replayed in order |
| Chronicle.NewcomerRecord | pallets/reputation/src/lib.rs:409-617 | an account unknown at the start of a run ends it with the running mean of the ratings it was given, acceptances and won enforcements together, with the jury accuracy of its votes, and with every count and sum that of its events, up to the limits of their types |
| Chronicle.AcceptanceRecords | pallets/projects/src/lib.rs:364-380 | between two parties and without saturation, accepting work adds a completed project, the budget and a rating of 1000 a star, averaged in exactly, to the freelancer, a completed project to the client, and nothing to anybody else |
| Chronicle.RoundRecorded | pallets/arbitration/src/lib.rs:466-474 | finalizing a round adds one vote to the statistics of every registered voter, with the majority if and only if it voted for the client and strictly more did than for the freelancer, or for the freelancer and not, and leaves everybody else's alone |
| Chronicle.EnforcementStats | pallets/arbitration/src/lib.rs:418-423 | the statistics of all accounts after an enforcement, one account in both roles included |
| Chronicle.AscendingSorted | pallets/arbitration/src/lib.rs:466-474 | votes are recorded in ascending order of accounts, as a B-tree map iterates |
| Careers.CountersAddUp | pallets/reputation/src/lib.rs:511-586 | over any history every counter and sum is that at the start plus what the events weigh, up to its type's limit |
| Careers.RatingsAverage | pallets/reputation/src/lib.rs:525-530 | the stored rating of an account nobody rated before is the running mean of the ratings in its history, whatever else is in it |
| Careers.VotesAverage | pallets/reputation/src/lib.rs:592-610 | so is the jury accuracy that of the sides of its votes |
| Careers.TierUnmoved | pallets/reputation/src/lib.rs:681-713 | no history of joining, posting and calling off projects and voting moves the tier |
| Careers.BlocksStamped | pallets/reputation/src/lib.rs:411-436 | the last event stamps the activity, only joining stamps the registration |
| Rounds.PriceList | pallets/arbitration/src/lib.rs:486-524 | bonds of 5, 20 and 50 percent, costs of 2, 5 and 8, fees of 1 and 2 with a quarter of that as bonus, and no price for any other round |
| Rounds.DisputeOpensExactly | pallets/arbitration/src/lib.rs:240-271 | in a reachable state a dispute opens if and only if there is none yet, the project is in review or rejected, the caller is its freelancer, and the bond of 5 percent is zero, or is free money whose rest covers every lock of the account |
| Rounds.DisputeOpened | pallets/arbitration/src/lib.rs:248-268 | it moves the bond from free to reserved and records it with the cost of 2 percent, stores the dispute with the documents of the project, marks the project disputed, and touches nothing else |
| Rounds.AppealOpened | pallets/arbitration/src/lib.rs:318-357 | an appeal opens the next round with its bond moved and recorded, its cost added, its clock started, no ruling and no votes, and the fees owed to every juror it seats |
| Rounds.AppealSeats | pallets/arbitration/src/lib.rs:331-341 | the jury it seats is full, distinct, outside the parties, registered, and by current statistics Bronze or better in round 2 and Silver or better in round 3 |
| Rounds.RulingSubmitted | pallets/arbitration/src/lib.rs:275-293 | the AI's ruling goes on record and opens the first appeal period |
| Rounds.VoteCast | pallets/arbitration/src/lib.rs:364-395 | a vote goes on record, flags the juror's seat and changes nothing else |
| Rounds.RoundDecides | pallets/arbitration/src/lib.rs:434-481 | a finalized round rules for the side with more votes, a tie for the freelancer, and adds to the rewards the fee for every voter, the bonus for those on the winning side, and nothing for anybody else |
| CallEffects.ProjectCreated | pallets/projects/src/lib.rs:186-220 | a new project is the caller's, under the next id, unassigned, and locked for its budget unless that is zero; the id counter wraps at 2^32 |
| CallEffects.HiringWrites | pallets/projects/src/lib.rs:224-432 | applying queues the caller; starting work names the freelancer, sets the deadline to the current block plus the duration, up to the last block, and clears the queue; handing in and rejecting write their document with the current block; no other project, no money and no statistics change |
| CallEffects.ClosingWrites | pallets/projects/src/lib.rs:336-465 | accepting completes and cancelling cancels that project and no other |
| CallEffects.LockIdBytes | pallets/projects/src/lib.rs:473-487 | a lock id is the first four bytes of the prefix, then the id with its least significant byte first |
| CallEffects.JurorLeaves | pallets/reputation/src/lib.rs:494-507 | deregistering gives the whole stake back and takes the juror off registry, tier map and pools, and nobody else |
| CallEffects.JurorSlashed | pallets/reputation/src/lib.rs:664-679 | a slash burns the ratio of the stake out of the reserve, and leaves the juror in place with the rest of its stake if and only if there is a rest |
| CallEffects.PermillNearest | pallets/reputation/src/lib.rs:666-668 | the ratio is rounded to the nearest integer, a half downwards |
| GenesisBuild.GenesisBuildsExactly | pallets/reputation/src/lib.rs:353-400 | distinct jurors on an unlocked ledger are built if and only if each has a record and the money for the stake and the pools have room, and then each pool holds the jurors of its tier in the order given, with every stake reserved and recorded |
| TierCache.RegistersExactly | pallets/reputation/src/lib.rs:469-491 | an account becomes a juror if and only if it is not one, is due a tier whose pool has room, and can reserve the stake |
| TierCache.RegistrationSettles | pallets/reputation/src/lib.rs:479-487 | it is then cached with the tier its statistics give and listed last in that pool, and nobody else is moved |
| TierCache.UpdateSettles | pallets/reputation/src/lib.rs:1006-1029 | a tier update with room caches the tier due and lists the account last in its pool, one to no tier removes the account with its stake returned, and one without room leaves it registered under the old tier and off every list |
| TierCache.RemovalSwaps | pallets/reputation/src/lib.rs:984-1004 | leaving a pool moves its last account into the gap and keeps the order of the others |
| TierCache.StepSettles | pallets/reputation/src/lib.rs:1006-1029 | no call but an acceptance by that account as client takes a juror cached with the tier it is due to another tier than that |
| TierCache.ClientSettles | pallets/reputation/src/lib.rs:741-753 | and an acceptance does so to a client other than the freelancer if and only if one completed project more makes it due another tier |
| TierCache.EnforcementSettles | pallets/reputation/src/lib.rs:554-586 | an enforcement leaves both parties cached with the tier they are due |
| TierCache.GenesisSettles | pallets/reputation/src/lib.rs:379-383 | every genesis juror is cached with the tier its statistics give |
| TierCache.RunSettles | pallets/reputation/src/lib.rs:1006-1029 | over any run only a client who accepts work can come to be cached with a tier it is not due |
| TierCache.PoolsMatchStatistics | pallets/reputation/src/lib.rs:971-1029 | from genesis, with no refused promotion on the way, an account that accepted no work as client is in a pool if and only if it is registered and its statistics give that tier |
| ChainSafety.StepKeeps | pallets/arbitration/src/lib.rs:236-482 | every call of all three pallets keeps the chain invariant while project ids last |
| ChainSafety.RunKeeps | pallets/arbitration/src/lib.rs:236-482 | so does every run, by induction over the calls |
| ChainSafety.FinalizeRoundKeeps | pallets/arbitration/src/lib.rs:434-481 | finalizing a round keeps the invariant, and every juror stays listed if and only if no voter, when its vote is recorded, is due a tier whose pool is full |
| ChainSafety.EnforceKeeps | pallets/arbitration/src/lib.rs:399-430 | enforcement with all its stages keeps the invariant and the juror lists |
| ChainSafety.AppealRulingKeeps | pallets/arbitration/src/lib.rs:297-360 | an appeal that succeeds keeps the invariant: bond, costs, jury and fees together |
| ChainSafety.CreateDisputeKeeps | pallets/arbitration/src/lib.rs:240-271 | so does opening a dispute |
| ChainInvariant.ProjectCallsKeep | pallets/projects/src/lib.rs:186-465 | every project call keeps the invariant, a creation with one id more in use |
| ChainInvariant.PalletUnlocked | pallets/projects/src/lib.rs:193-198 | no lock can ever sit on the pallet account, so payouts are limited by its balance alone |
| GenesisTheorems.GenesisEstablishes | pallets/reputation/src/lib.rs:353-400 | genesis with distinct jurors starts the chain in the invariant with every juror listed |
| GenesisTheorems.GenesisReservesExact | pallets/reputation/src/lib.rs:363-377 | the reserve ledger is exact at genesis if and only if no juror is listed twice or the stake is zero |
| ReserveLedger.ReservesPosted | pallets/arbitration/src/lib.rs:248-250 | reserving a bond and recording it keeps every reserve equal to stake plus bonds |
| ReserveLedger.ReservesSettled | pallets/arbitration/src/lib.rs:606-623 | settling one project's bonds and clearing them keeps it for all other projects |
| ReserveLedger.NothingComesUpShort | pallets/reputation/src/lib.rs:479-499 | stake and any project's bonds of one account fit in its reserve together, whatever roles it plays |
| HoldingsTheorems.CallsPay | pallets/projects/src/lib.rs:186-465 | every call but an enforcement changes every account's holdings by an exact amount, mostly zero |
| HoldingsTheorems.EnforcementPays | pallets/arbitration/src/lib.rs:418-424 | an enforcement changes every account by escrow payout, own forfeited bonds, remainder (all or nothing) and recorded reward, and nothing else |
| HoldingsTheorems.OnlyPayersLose | pallets/arbitration/src/lib.rs:596-681 | only a signer of a payment, a slashed juror, the pallet or a party of the enforced dispute can lose in a call |
| HoldingsTheorems.BystandersNeverLose | pallets/arbitration/src/lib.rs:596-681 | over a run, an account that is never one of these loses nothing |
| HoldingsTheorems.RunsConserve | pallets/arbitration/src/lib.rs:615-622 | over a run, all balances together change by what was minted minus what was slashed from stakes |
| Settlement.AnyBondFirst | pallets/arbitration/src/lib.rs:606-623 | the bond loop ends in the same ledger whatever order the bonds come in |
| Settlement.AnyRewardFirst | pallets/arbitration/src/lib.rs:665-679 | the reward loop ends in the same ledger, or fails, whatever order the jurors come in |
| Settlement.BondsSettle | pallets/arbitration/src/lib.rs:606-623 | the winner's bonds return to free balance, all others move to the pallet, per account and in full |
| Settlement.RewardsSettle | pallets/arbitration/src/lib.rs:661-681 | the payout succeeds if and only if the pallet holds the sum of the rewards, and pays each juror exactly once |
| Settlement.CostsSettle | pallets/arbitration/src/lib.rs:629-647 | what slashed bonds leave of the costs moves from loser to pallet in full or not at all |
| Settlement.SettlementAccounts | pallets/arbitration/src/lib.rs:596-659 | with distinct parties: success if and only if collected funds pay the rewards; then every account's change is exact, the loser giving up the larger of slashed bonds and costs if the remainder moves |
| FeeTheorems.AppealBondCoversCosts | pallets/arbitration/src/lib.rs:486-508 | without saturation either appeal bond covers all costs a dispute can accumulate |
| FeeTheorems.FirstBondCoversFirstRoundOnly | pallets/arbitration/src/lib.rs:486-508 | the first bond covers the first round, and two rounds if and only if the budget is below 50 |
| FeeTheorems.SecondRoundSolvency | pallets/arbitration/src/lib.rs:486-524 | the costs of two rounds pay the jurors for every budget if and only if at most five vote |
| FeeTheorems.ThirdRoundSolvency | pallets/arbitration/src/lib.rs:486-524 | the costs of three rounds do for every budget if and only if Bronze voters plus twice the Silver voters are at most twelve |
| Solvency.AppealBondsCover | pallets/arbitration/src/lib.rs:320-329 | in a reachable state, a party that appealed owns bonds worth at least the costs on record |
| Solvency.AppealingLoserPaysBonds | pallets/arbitration/src/lib.rs:616-647 | a loser who appealed gives up the bonds and nothing of the free balance; the winner loses nothing |
| Solvency.RewardsWithinCosts | pallets/arbitration/src/lib.rs:510-565 | the rewards on record are the awards of the finalized rounds, and within the costs when the juries are payable |
| Solvency.SettlementSolvent | pallets/arbitration/src/lib.rs:629-653 | in a reachable state with an affordable budget, payable juries and a loser who can bear the costs, the pallet can pay every juror, and the enforcement succeeds if and only if its other guards hold |
| Solvency.AppealingLoserPays | pallets/arbitration/src/lib.rs:629-647 | a loser who appealed bears the costs with the bonds alone, whatever its free balance |
| Solvency.AppealedSettlementSolvent | pallets/arbitration/src/lib.rs:399-430 | so with payable juries an enforcement against a loser who appealed succeeds if and only if the guards other than the money for the jurors hold |
| Solvency.SmallJuriesPayable | pallets/arbitration/src/lib.rs:331-335 | second rounds with at most five seats are always payable, third ones if the seats of both rounds weigh at most twelve |
| Solvency.JurorsPaidTheirAwards | pallets/arbitration/src/lib.rs:526-681 | over a run, what an enforcement pays all jurors is exactly what its finalized rounds awarded |
| Enforceability.EnforcementSucceedsExactly | pallets/arbitration/src/lib.rs:399-430 | an enforcement succeeds if and only if its guards hold on the state before it, one account in both roles included: window over; for a freelancer's win the client's free balance bears the budget and the rest covers its other locks; the parties are registered and no tier update of theirs meets a full pool; the pallet's funds with the loser's bonds and what the loser can bear of the costs reach the rewards |
| Enforceability.RulingExactly | pallets/projects/src/lib.rs:492-528 | the ruling can be carried out exactly under its part of these guards, and leaves the statistics and the index they predict |
| Situations.EnforcementCanFail | pallets/projects/src/lib.rs:507-512 | a chain from genesis in which the freelancer has won, the window is over, and the enforcement fails because the client has paid its free money away |
| UnpaidJury.JurorsGoUnpaid | pallets/arbitration/src/lib.rs:625-653 | a chain from genesis in which a jury has overruled the AI, every other guard holds, and the enforcement fails because the loser posted no bond and has no money left for the jurors |
| DisputeProtocol.CasesKept | pallets/arbitration/src/lib.rs:241-271 | a step that changes one project's case and leaves it in order leaves every project's case in order |
| DisputeCalls.CreateDisputeKeepsCases | pallets/arbitration/src/lib.rs:240-271 | a dispute that opens (exactly when: Rounds.DisputeOpensExactly) has round 1, waits for the AI, holds one bond of the freelancer and its cost and nothing else, and its project is in dispute; every case stays in order, no other changes |
| DisputeCalls.AppealRulingKeepsCases | pallets/arbitration/src/lib.rs:297-360 | an appealed dispute is voting in the next round, its clock restarted, with a full jury of distinct jurors nobody of whom has voted, one bond more by the appellant, all costs so far on record and fees for exactly that jury (of which tiers: Rounds.AppealSeats); every case stays in order, no other changes |
| DisputeCalls.CastVoteKeepsCases | pallets/arbitration/src/lib.rs:364-395 | the keys of the votes stay exactly the jurors flagged as having voted |
| DisputeCalls.FinalizeRoundKeepsCases | pallets/arbitration/src/lib.rs:434-481 | rewards go to jurors of the dispute only and stay within what the decided rounds can pay one of them |
| DisputeCalls.EnforceKeepsCases | pallets/arbitration/src/lib.rs:399-430 | enforcement closes the case and leaves no bond, cost, fee or reward of the project |
| DisputeHistory.AwardsAdd | pallets/arbitration/src/lib.rs:526-565 | unsaturated, a round adds to the rewards the base fee per voter and the bonus per voter agreeing with the ruling |
| DisputeHistory.RoundPays | pallets/arbitration/src/lib.rs:526-565 | in an open dispute nothing saturates, so finalizing a round adds exactly its award |
| DisputeRuns.HistoryAlwaysOk | pallets/arbitration/src/lib.rs:297-481 | over a run: rulings and appeals alternate, each appeal is by the loser of the ruling before, within its appeal period and backed by that account's bond, each jury rules after a full voting period, the rewards are the sum of the awards |
| DisputeRuns.OtherCallsSpareCase | pallets/projects/src/lib.rs:541-556 | only calls on a dispute change anything stored about it or its project |
| DisputeRuns.OneWindowIsOpen | pallets/arbitration/src/lib.rs:304-309 | in an appealable state an appeal is refused as late if and only if the window's end has come, and an enforcement as early if and only if it has not; neither call reports the time for any other reason |
| DisputeRuns.EnforcementIsFinal | pallets/arbitration/src/lib.rs:399-430 | the ruling enforced is the last one issued in the run, its appeal period has passed, it was not appealed, and nothing is left over |
| Termination.DisputeCallsProgress | pallets/arbitration/src/lib.rs:236-482 | every call that succeeds on a dispute lowers its potential |
| Termination.DisputeTerminates | pallets/arbitration/src/lib.rs:236-482 | over a run, calls that succeeded on a dispute plus the potential left are at most the potential at the start |
| Termination.DisputeCallsBounded | pallets/arbitration/src/lib.rs:236-482 | one project sees at most 7 + MinJurors + MaxJurors successful dispute calls |
| Ballots.CastAllRecords | pallets/arbitration/src/lib.rs:364-395 | ballots cast one after another all succeed if and only if each is by a seated juror who has not voted and no two by the same, and record exactly their tally |
| Ballots.BallotOrderDoesNotMatter | pallets/arbitration/src/lib.rs:364-395 | the same ballots in any order leave the same state |
| BallotRuns.VoteCommutes | pallets/arbitration/src/lib.rs:364-395 | a vote and any call that is not about its dispute lead to the same state in either order, whether they succeed or fail |
| BallotRuns.VotesLast | pallets/arbitration/src/lib.rs:364-395 | a run whose only calls on a dispute are votes ends as if all its votes were cast at the end |
| BallotRuns.InterleavingDoesNotMatter | pallets/arbitration/src/lib.rs:364-395 | valid votes may be interleaved with calls elsewhere in any way, and in any order among themselves, without a difference in the final state |
| OutcomeRecords.EnforcementRecords | pallets/arbitration/src/lib.rs:418-423 | an enforced ruling counts once for a freelancer's win and twice for a client's, and touches nobody else's statistics |
| Escrow.LockIdsInjective | pallets/projects/src/lib.rs:473-487 | two u32 project ids never share a lock id |
| Escrow.EscrowKept | pallets/projects/src/lib.rs:354-360 | a step that leaves its own project's lock right leaves every project's lock right |
| EscrowRuns.DisputeCoupling | pallets/projects/src/lib.rs:530-572 | a project is in dispute if and only if its dispute is open; finalized means completed; party and evidence lookups of an open dispute succeed and match what it recorded |
| EscrowRuns.StepTerms | pallets/projects/src/lib.rs:186-465 | a call keeps client, budget and requirements, freezes freelancer and submission, and moves the status along the lifecycle only |
| EscrowRuns.RunTerms | pallets/projects/src/lib.rs:186-465 | so does every run, and completed and cancelled are final |
| EscrowRuns.StepPaysOut | pallets/projects/src/lib.rs:336-386 | an acceptance of the project or an enforcement for its freelancer, if it succeeds, moves the project into the paid state; no other call does |
| EscrowRuns.PaidExactlyOnce | pallets/projects/src/lib.rs:492-528 | over a run one such call succeeds if the project ends up completed by acceptance or by a ruling for the freelancer, else none |
| EscrowMoney.CallAddsUp | pallets/projects/src/lib.rs:364-369 | a call changes an account's holdings by its transfer, mint, slash or settlement, and by the budget the call releases: as freelancer received, as client given |
| EscrowMoney.BudgetMovesOnce | pallets/projects/src/lib.rs:507-512 | over a run the escrow of a project moves its budget from client to freelancer if the project ends up paid, and nothing otherwise |
| EscrowMoney.EveryAccountAddsUp | pallets/projects/src/lib.rs:186-572 | over a run every account's holdings change by its transfers, mints, slashes and settlements and by the budgets of the projects paid meanwhile, each exactly once |
| EscrowRuns.WrappedIdEscrow | pallets/projects/src/lib.rs:188-214 | once the id counter has wrapped, a creation replaces project 0, and the locks are right afterwards if and only if the old project should have none or the new one is by the same client with a positive budget |
| Situations.WrappedCounterStrandsLock | pallets/projects/src/lib.rs:188-214 | a state in the invariant with all ids used, in which two of three creations strand the old lock |
| EscrowFunding.TransferRespectsLock | pallets/projects/src/lib.rs:193-198 | a transfer that succeeds leaves the sender, free and reserved together, every locked amount it had |
| EscrowFunding.StepStaysFunded | pallets/projects/src/lib.rs:193-198 | a client whose free and reserved money reaches the budget of a live project keeps that much in any call but a slash of its stake or the settlement of a dispute it is party to |
| EscrowFunding.RunStaysFunded | pallets/projects/src/lib.rs:193-198 | so it does over any run without these, as long as the project is live; whether it can be paid out is a matter of free money alone, see EscrowDrains |
| EscrowDrains.StepFundedExactly | pallets/projects/src/lib.rs:193-198 | in a call that leaves it live, a funded project stays funded if and only if the call is no slash that takes the client's holdings below the budget and no enforcement the client loses that does, with the exact holdings after either |
| Shortfalls.SlashDepletes | pallets/reputation/src/lib.rs:664-679 | a chain from genesis in which a slash does |
| EscrowPayable.ReleaseExactly | pallets/projects/src/lib.rs:356-369 | unlocking and paying a budget succeeds if and only if there is nothing to move, or the client's free balance bears it and what it then holds covers its other locks |
| EscrowPayable.PaymentDrainsEscrow | pallets/projects/src/lib.rs:364-369 | whenever free and reserved money cover the locks after a payment but free money no longer reaches the budget, the payment goes through, project and lock stay, and accepting the work fails for want of payment |
| EscrowDrains.StepPayableExactly | pallets/projects/src/lib.rs:364-369 | a payable budget of a live project stays payable in any call, enforcements included, if and only if the call does not drain it: no payment of the client to another account that with the budget exceeds its free balance, and no enforcement the client loses after which its free balance, worked out on the state before, is below the budget |
| EscrowDrains.EnforcementLeaves | pallets/arbitration/src/lib.rs:399-430 | an enforcement leaves the loser an exact free balance, worked out on the state before it, and nobody else less than before |
| EscrowDrains.RunPayableExactly | pallets/projects/src/lib.rs:364-369 | over any run the budget of a project that stays live is payable at every point if and only if no call drains it |
| EscrowDrains.UnreservedNeverDrains | pallets/projects/src/lib.rs:364-369 | no call that leaves the project live drains the budget of a client with nothing reserved |
| EscrowDrains.RunStaysPayable | pallets/projects/src/lib.rs:364-369 | over any run a client with nothing reserved at its payments and at enforcements it loses can always pay the budget of a live project |
| Situations.StakeDrainsEscrow | pallets/projects/src/lib.rs:364-369 | a chain from genesis in which a juror pays away its free money under the cover of its stake, and can then not pay for the work it accepts |
| Shortfalls.EnforcementDrainsOther | pallets/projects/src/lib.rs:505-512 | a chain from genesis in which an enforcement pays one project out of the client's only free money, and leaves a second live project locked, funded and unpayable |
| Lifecycle.RunRecords | pallets/projects/src/lib.rs:224-432 | over a run: work is handed in with a document by its deadline, a project is rejected at most once, applicants are distinct and within capacity |
| JurorIndex.UpdateTierKeeps | pallets/reputation/src/lib.rs:1006-1029 | the tier update keeps pools, tiers, registry and stakes in agreement even when it fails, and deserved when it succeeds |
| JurorIndex.UpdateTierLists | pallets/reputation/src/lib.rs:1013-1026 | it takes a listed juror off the lists if and only if the juror is due a tier other than its cached one, had one, and the pool of the tier due is full; nobody else is affected |
| JurorIndex.UpdateTierFails | pallets/reputation/src/lib.rs:1006-1029 | the tier update fails if and only if a registered juror is due another tier whose pool is full, and always with the same error |
| JurorCalls.RegisterAsJurorKeeps | pallets/reputation/src/lib.rs:469-491 | registration keeps index, stakes and money (which tier and pool: TierCache.RegistrationSettles) |
| JurorCalls.DeregisterAsJurorKeeps | pallets/reputation/src/lib.rs:494-507 | deregistration releases the stake and no other claim on the reserve, and keeps index and money |
| JurorCalls.SlashJurorKeeps | pallets/reputation/src/lib.rs:664-679 | a slash burns the ratio of the stake and leaves every other claim on the reserve alone |
| JurorCalls.ProjectCompletedKeeps | pallets/reputation/src/lib.rs:511-552 | a completion keeps index, stakes, lists and everybody's holdings |
| JurorCalls.DisputeOutcomeKeeps | pallets/reputation/src/lib.rs:554-586 | so does a dispute outcome, for both accounts |
| JurorCalls.JuryVoteKeeps | pallets/reputation/src/lib.rs:588-617 | a jury vote whose result is discarded keeps them too, and drops the juror from the lists exactly when it is due a tier other than its cached one and that pool is full |
| Situations.PromotionDropsJuror | pallets/arbitration/src/lib.rs:466-474 | a Bronze juror whose accepted work makes it due Silver, with a full Silver pool, is off every list after its next vote, registered and Bronze by the books |
| JurorLists.StepLists | pallets/arbitration/src/lib.rs:466-474 | from a state with every juror listed, a call leaves every juror listed if and only if it finalizes no round in which a voter due another tier meets its full pool |
| JurorLists.RunLists | pallets/reputation/src/lib.rs:971-1038 | over a run without such a round every juror stays listed |
| JurorSelection.FromPoolFinds | pallets/reputation/src/lib.rs:627-649 | one pool: distinct, not excluded, within the count, and short of it only when nobody is left |
| JurorSelection.FromPoolExactly | pallets/reputation/src/lib.rs:627-649 | one pool exactly: from the saved cursor it takes those neither excluded nor selected in cyclic order, stops as soon as nobody is missing or after a full turn, and saves the slot after the last one it looked at |
| SelectionTheorems.FromTierExactly | pallets/reputation/src/lib.rs:627-649 | one tier is scanned from its own cursor and moves no other, or is left alone if nobody is missing or listed |
| SelectionTheorems.SelectionSound | pallets/reputation/src/lib.rs:619-662 | a selection holds only eligible jurors of accepted tiers, each once, at most the count |
| SelectionTheorems.SelectionComplete | pallets/reputation/src/lib.rs:619-662 | its size is the smaller of the count and the number of distinct eligible jurors |
| SelectionTheorems.SelectionPrefersHigherTiers | pallets/reputation/src/lib.rs:651-659 | a lower pool is used only after every juror of the higher ones who is not excluded was taken |
| SelectionTheorems.SelectedJurorsQualify | pallets/reputation/src/lib.rs:619-662 | with the index kept, every selected juror is registered and qualifies by current statistics |
| SelectionTheorems.PicksAreOneWindow | pallets/reputation/src/lib.rs:635-648 | over any selections, each with its own tier, size and exclusions, the picks from a pool nobody of which is excluded are, in order, one cyclic window of it, since the saved cursor resumes where the scan stopped |
| SelectionTheorems.SelectionIsFair | pallets/reputation/src/lib.rs:635-648 | over any such selections each juror of the pool, Gold, Silver or Bronze, is chosen the floor or the ceiling of the average number of times among the picks from that pool |
| SelectionTheorems.GoldSelectionIsFair | pallets/reputation/src/lib.rs:635-648 | with no request larger than the Gold pool, the average is over all jurors asked for |
| SelectionTheorems.ExclusionsSkew | pallets/reputation/src/lib.rs:640-644 | four selections that exclude a juror every other time never choose it at all, so the premise on exclusions is needed |
| SelectionTheorems.IndexSeparate | pallets/reputation/src/lib.rs:971-1029 | the index invariant keeps the pools free of repetitions and disjoint, as fairness needs |
| RunningMeans.AverageTracksRatings | pallets/reputation/src/lib.rs:525-530 | up to 858993 ratings the stored average is at most (n-1)/2 below the mean and between the extreme ratings |
| RunningMeans.AverageDriftBounded | pallets/reputation/src/lib.rs:525-530 | the bound on the drift holds for any number of ratings within u32, saturated or not |
| RunningMeans.AverageRangeLimit | pallets/reputation/src/lib.rs:525-530 | n ratings keep the average between their extremes, whatever they are, if and only if n is at most 858993 |
| RunningMeans.AverageNeverExceedsScale | pallets/reputation/src/lib.rs:525-530 | for any number of ratings it stays within 5000 |
| RunningMeans.AccuracyTracksVotes | pallets/reputation/src/lib.rs:595-607 | up to 4304 votes the stored accuracy is at most (n-1)/2 parts per million below the majority share |
| RunningMeans.AccuracyLimit | pallets/reputation/src/lib.rs:595-607 | all sequences of at most n votes meet that bound if and only if n is at most 4304 |
| RunningMeans.UnanimousUntracked | pallets/reputation/src/lib.rs:595-607 | for every length from 4305 to 1995696, voting with every majority breaks it |
| RunningMeans.PerfectAccuracyLimit | pallets/reputation/src/lib.rs:595-607 | n votes that all went with the majority give full accuracy if and only if n is at most 4294 |
| TierTheorems.TierExactly | pallets/reputation/src/lib.rs:681-713 | a tier or a better one is due if and only if the account is not disqualified and has 5, 20 or 50 completed projects and 1000, 10000 or 50000 earned |
| TierTheorems.DisqualifiedExactly | pallets/reputation/src/lib.rs:692-701 | disqualified if and only if more than two disputes and the saturated losses reach 501 per thousand |
| TierTheorems.DisqualifiedUnsaturated | pallets/reputation/src/lib.rs:692-701 | without saturation: if and only if more than two disputes and 499 times the losses reach 501 times the wins |
| TierTheorems.WinDisqualifies | pallets/reputation/src/lib.rs:692-701 | a won dispute lowers the tier if and only if it is the third after two losses |
| TierTheorems.LossRaisesExactly | pallets/reputation/src/lib.rs:692-701 | within u32, a lost dispute raises the tier if and only if the account has exactly 8572789 disputes, at least 4294968 of them lost, five projects and 1000 earned: the saturated losses then fall under the limit again |
| TierTheorems.SaturatedLossRaises | pallets/reputation/src/lib.rs:692-701 | the smallest account of that kind moves from no tier to Bronze |
| TierTheorems.CompletionNeverLowers | pallets/reputation/src/lib.rs:681-713 | a completed project never lowers the tier |
| ReputationPallet.Search | pallets/reputation/src/lib.rs:987-989 | finds the first occurrence, or reports that there is none |
| ReputationPallet.TakeOut | pallets/reputation/src/lib.rs:984-1004 | swap-removes the first occurrence |
| ReputationPallet.Pallet.AddToTierList | pallets/reputation/src/lib.rs:971-982 | appends to the tier's pool or reports it full |
| ReputationPallet.Pallet.RemoveFromTierList | pallets/reputation/src/lib.rs:984-1004 | removes from that tier's pool only |
| ReputationPallet.Pallet.UpdateTier | pallets/reputation/src/lib.rs:1006-1029 | the whole new storage, partial writes of a failed promotion included |
| ReputationPallet.Pallet.RegisterUser | pallets/reputation/src/lib.rs:409-438 | a new account gets empty statistics stamped with the block; a known one is refused and kept |
| ReputationPallet.Pallet.RegisterAsJuror | pallets/reputation/src/lib.rs:469-491 | stake reserved and recorded, registry, tier and pool written; refused when registered, without a tier, without funds or without room |
| ReputationPallet.Pallet.DeregisterAsJuror | pallets/reputation/src/lib.rs:494-507 | stake released, juror off list, registry and tier map; refused without registration or stake |
| ReputationPallet.Pallet.SlashJuror | pallets/reputation/src/lib.rs:664-679 | the ratio of the stake burnt, the juror removed when nothing is left, the smaller stake recorded otherwise |
| ReputationPallet.Pallet.ProjectCompleted | pallets/reputation/src/lib.rs:511-552 | count, earnings, average and total updated with saturation, then the tier; refused for a rating off the scale or an unknown account |
| ReputationPallet.Pallet.DisputeOutcome | pallets/reputation/src/lib.rs:554-586 | a win for one, a loss and a failed project for the other, then both tiers |
| ReputationPallet.Pallet.JuryVote | pallets/reputation/src/lib.rs:588-617 | participation and accuracy updated, then the tier; a failed promotion reports its error and keeps all writes |
| ReputationPallet.Pallet.ProjectCreated | pallets/reputation/src/lib.rs:715-727 | the client's posted projects and spending, refused for an unknown account |
| ReputationPallet.Pallet.ProjectCancelled | pallets/reputation/src/lib.rs:729-739 | one failed project for the client, refused for an unknown account |
| ReputationPallet.Pallet.WorkAccepted | pallets/reputation/src/lib.rs:741-753 | one completed project for the client, without a tier update |
| ReputationPallet.Pallet.SelectFromPool | pallets/reputation/src/lib.rs:627-649 | the cyclic scan of one pool from the saved cursor, with the cursor it saves |
| ReputationPallet.Pallet.GetEligibleJurors | pallets/reputation/src/lib.rs:619-662 | the selection the theorems are about, and the cursors it leaves |
| ReputationPallet.Pallet.Build | pallets/reputation/src/lib.rs:353-400 | the genesis storage, or an error where the source panics |
| ProjectsPallet.Pallet.GenerateLockId | pallets/projects/src/lib.rs:473-487 | four prefix bytes followed by the encoded id |
| ArbitrationPallet.FindSeat | pallets/arbitration/src/lib.rs:373-376 | the first seat of the juror, or none |
| ArbitrationPallet.DecideRound | pallets/arbitration/src/lib.rs:451-463 | the ruling is for the client if and only if strictly more votes are |
| ArbitrationPallet.AwardFees | pallets/arbitration/src/lib.rs:526-565 | the rewards after the round, voter by voter |
| ArbitrationPallet.Pallet.CreateDispute | pallets/arbitration/src/lib.rs:240-271 | bond reserved and recorded, cost recorded, dispute stored, project disputed; every refusal as in the source |
| ArbitrationPallet.Pallet.SubmitRuling | pallets/arbitration/src/lib.rs:275-293 | the ruling stored, the appeal clock started; refused unless the AI is deciding |
| ArbitrationPallet.Pallet.OweFees | pallets/arbitration/src/lib.rs:342-346 | the round's fee on record for every seated juror, older entries kept |
| ArbitrationPallet.Pallet.AppealRuling | pallets/arbitration/src/lib.rs:297-360 | bond, added cost, jury with its cursors, fees and a fresh round; every refusal as in the source, in its order |
| ArbitrationPallet.Pallet.CastVote | pallets/arbitration/src/lib.rs:364-395 | vote recorded and seat flagged; refused outside a vote, without a seat or a second time |
| ArbitrationPallet.Pallet.RecordVotes | pallets/arbitration/src/lib.rs:466-474 | every vote recorded in ascending order of accounts, errors ignored, partial writes kept |
| ArbitrationPallet.Pallet.FinalizeRound | pallets/arbitration/src/lib.rs:434-481 | ruling by count, rewards, statistics of all voters, appeal clock restarted; refused before the voting period is over |
| ArbitrationPallet.Pallet.SettleBonds | pallets/arbitration/src/lib.rs:604-623 | the ledger and the slashed total, for every iteration order |
| ArbitrationPallet.Pallet.CollectCosts | pallets/arbitration/src/lib.rs:625-647 | the remainder of the costs moved, or nothing if the transfer is refused |
| ArbitrationPallet.Pallet.PayAllJuryRewards | pallets/arbitration/src/lib.rs:661-681 | all rewards paid, or the error, for every iteration order |
| ArbitrationPallet.Pallet.CleanUp | pallets/arbitration/src/lib.rs:683-701 | every financial record of the project removed and no other |
| ArbitrationPallet.Pallet.CompletePayouts | pallets/arbitration/src/lib.rs:596-659 | bonds, costs, rewards and cleanup in sequence |
| ArbitrationPallet.Pallet.EnforceFinalRuling | pallets/arbitration/src/lib.rs:399-430 | ruling carried out, settlement, outcome recorded, dispute finalized; every refusal as in the source, in its order |
| ChainRuntime.Runtime.Dispatch | runtime/src/apis.rs:108-110 | applying one extrinsic of any pallet, the project calls included, is one step of the state machine, refusals and their order as in the source; a failed call leaves no trace |
| ChainRuntime.Runtime.DispatchAll | runtime/src/apis.rs:75-77 | executing a block's extrinsics one after another is the run of the state machine, so the runtime object stays in the invariant; the order of the loop is the executive's |
| ChainRuntime.Launch | pallets/reputation/src/lib.rs:353-400 | a runtime built from a sound genesis starts in the invariant |

## Left out

- Frontend, node, RPC, XCM and the AI oracle: the oracle is an arbitrary ruling passed to `submit_ruling`, an origin check is not modelled.
- Events, weights, attestations, global statistics, `update_weights` and the reputation and client scores (`pallets/reputation/src/lib.rs:779-969`): nothing modelled reads them.
- Block execution itself: `frame_executive` dispatches extrinsics and rolls a failed one back; its code is not part of this model, which takes that contract as given.
- Storage never written by these pallets: `JurorBusy`, `Bonds`, `disputes_initiated`; the project status `Resolved`, never reached.
- Minimum bonds: the code discards them (`pallets/arbitration/src/lib.rs:501`), so no floor is claimed.
- A deadline for votes: `cast_vote` has none, so votes after the voting period are accepted here as well.
- pallet-balances itself: the ledger is abstract, with existential deposit zero, so keeping an account alive never refuses a transfer; the total issuance is an unbounded integer inside a slash, where the pallet's saturates if slashed funds pass through it near the type's maximum.
- Origins and fees of signed calls; `Transfer` and `Mint` stand for everything outside the pallets that moves or creates money.
- Contents of documents: URIs, hashes and metadata are strings whose bounded lengths are not checked.
- A funding check at creation: `set_lock` overlays locks and checks no balance, so a project is not claimed to be funded when it is created; EscrowFunding and EscrowDrains say what the lock does for one that is, and several projects of one client may rest on the same funds.
- Round three at the runtime's jury size: `MaxJurors` is 100 there, far beyond what the costs can pay; `FeeTheorems.ThirdRoundSolvency` gives the exact limit instead.
- Double maps with an empty inner map: a prefix that was written and emptied is not told apart from one never written, except inside one call's result.
- BallotRuns.InterleavingDoesNotMatter: speaks of valid votes; which of two conflicting ballots of one juror counts depends on their order.
- SelectionTheorems.SelectionIsFair: nothing is claimed of the load within a pool some of whose jurors are excluded, as a party of the dispute who is a juror is; SelectionTheorems.ExclusionsSkew shows that it need not be even.
- Solvency.SettlementSolvent: gives a sufficient condition on the juries for a given budget; the exact bounds over all budgets are in FeeTheorems, and Enforceability.EnforcementSucceedsExactly is exact for any rewards.
- RunningMeans.AccuracyLimit: counts sequences up to a length, not of one length: beyond 2000000 votes the bound is wider than the scale and holds again for want of content (RunningMeans.TrackedWhenWide).
- Settlement.SettlementAccounts: needs distinct parties; HoldingsTheorems.EnforcementPays covers a client who is also the freelancer.
- TierTheorems.CompletionNeverLowers: needs the stored count and earnings within their types, which the statistics of any chain state are.
