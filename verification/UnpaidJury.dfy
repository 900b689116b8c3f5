/**
  A reachable dispute whose jurors cannot be paid, so that its ruling cannot be enforced: twelve
  calls from genesis, through an appeal and a jury vote.
*/
module UnpaidJury {
  import opened Arbitration
  import opened ChainInvariant
  import opened Currency
  import opened DisputeCalls
  import opened Enforceability
  import opened FeeTheorems
  import opened FromGenesis
  import opened GenesisTheorems
  import opened HoldingsTheorems
  import opened JurorSelection
  import opened Prelude
  import opened Projects
  import opened Reputation
  import opened Settlement
  import opened Situations
  import opened System
  import opened Types
  import opened Shortfalls

  /** Account 1 is a client, 2 a freelancer and 3 a Bronze juror with a stake of 50. */
  const TRIO_LEDGER: Ledger := Ledger(map[1 := 100, 2 := 100, 3 := 100], map[], map[], 300)
  const TRIO_USERS: map<AccountId, Stats> := map[1 := Worker(0), 2 := Worker(0), 3 := Worker(5)]

  const TRIO: State := State(0,
    Ledger(map[1 := 100, 2 := 100, 3 := 50], map[3 := 50], map[], 300),
    RepStore(TRIO_USERS, map[3 := Bronze], {3}, [], [], [3], map[], 50, map[3 := 50]),
    ProjStore(map[], 0, map[]),
    NO_DISPUTES)

  lemma TrioGenesis()
    ensures Genesis(SMALL, TRIO_LEDGER, TRIO_USERS, [3], 50) == Ok(RepWorld(TRIO.ledger, TRIO.rep))
  {
    var w := RepWorld(TRIO_LEDGER, Unstaked(TRIO_USERS, 50));
    var v := AfterGenesisJuror(SMALL, w, 3);
    assert v.Ok?;
    assert v.value.ledger == TRIO.ledger;
    assert v.value.rep == TRIO.rep;
    hide AfterGenesisJuror;
    var one: seq<AccountId> := [3];
    assert one[..0] == [];
    assert AfterGenesisJurors(SMALL, w, one[..0]) == Ok(w);
    assert AfterGenesisJurors(SMALL, w, one) == v;
  }

  lemma TrioSound()
    ensures SoundGenesis(SMALL, TRIO_LEDGER, TRIO_USERS, [3])
  {
    SumRemove(TRIO_LEDGER.free, 1);
    SumRemove(TRIO_LEDGER.free - {1}, 2);
    SumSingle(3 as AccountId, 100);
    assert TRIO_LEDGER.free - {1} - {2} == map[3 := 100];
  }

  const CLIENT: Stats := Worker(0).(projectsPosted := 1, totalSpent := 100, lastActivityBlock := 0)

  /** The juror's record before and after its vote with the majority. */
  const VOTER: Stats := StatsAfterVote(1, Worker(5), true)

  function Court(now: BlockNumber, two: Balance, bonds: Balance, voter: Stats, cursor: map<JurorTier, nat>, p: Project,
                 applicants: map<ProjectId, seq<AccountId>>, arb: ArbStore): State {
    State(now,
          Ledger(map[1 := 100, 2 := two, 3 := 50], if bonds == 0 then map[3 := 50] else map[3 := 50, 2 := bonds],
                 map[(1, LockIdOf(0)) := 100], 300),
          TRIO.rep.(stats := map[1 := CLIENT, 2 := Worker(0), 3 := voter], nextIndex := cursor),
          ProjStore(map[0 := p], 1, applicants),
          arb)
  }

  function InCourt(p: Project, applicants: map<ProjectId, seq<AccountId>>): State {
    Court(0, 100, 0, Worker(5), map[], p, applicants, NO_DISPUTES)
  }

  lemma TrioPosts()
    ensures Apply(SMALL, TRIO, HIRING[0]) == Ok(InCourt(OPEN, map[]))
  {
    hide LockIdOf;
    var t := Apply(SMALL, TRIO, HIRING[0]);
    assert t.Ok?;
    assert t.value.ledger.locks == InCourt(OPEN, map[]).ledger.locks;
    assert t.value.rep.stats == InCourt(OPEN, map[]).rep.stats;
    assert t.value.proj.projects == InCourt(OPEN, map[]).proj.projects;
  }

  lemma TrioHires()
    ensures Apply(SMALL, InCourt(OPEN, map[]), HIRING[1]) == Ok(InCourt(OPEN, map[0 := [2]]))
    ensures Apply(SMALL, InCourt(OPEN, map[0 := [2]]), HIRING[2]) == Ok(InCourt(STARTED, map[]))
  {
    hide LockIdOf;
    var t := Apply(SMALL, InCourt(OPEN, map[]), HIRING[1]);
    assert t.Ok?;
    assert t.value.proj.applicants[0] == [2];
    assert t.value.proj.applicants == map[0 := [2]];
    var u := Apply(SMALL, InCourt(OPEN, map[0 := [2]]), HIRING[2]);
    assert u.Ok?;
    assert u.value.proj.applicants == map[];
    assert u.value.proj.projects == map[0 := STARTED];
  }

  lemma TrioSubmits()
    ensures Apply(SMALL, InCourt(STARTED, map[]), HIRING[3]) == Ok(InCourt(SUBMITTED, map[]))
  {
    hide LockIdOf;
    var t := Apply(SMALL, InCourt(STARTED, map[]), HIRING[3]);
    assert t.Ok?;
    assert t.value.proj.projects == map[0 := SUBMITTED];
  }

  /** The oracle rules for the client, the freelancer appeals, the juror overrules. */
  const OVERRULED: seq<Call> := [
    CreateDispute(2, 0), SubmitRuling(0, ClientWins), AppealRuling(2, 0), CastVote(3, 0, ForFreelancer), NextBlock,
    FinalizeRound(3, 0), NextBlock]

  const LOST: Dispute := ASKED.(ruling := Some(ClientWins), status := Appealable)
  const SEATED: Dispute :=
    Dispute(Voting, "a", "w", 0, None, 2, [(3, false)], map[])
  const CAST: Dispute := SEATED.(jurors := [(3, true)], votes := map[3 := ForFreelancer])
  const DECIDED: Dispute := CAST.(ruling := Some(FreelancerWins), status := Appealable, startBlock := 1)

  const TWO_BONDS: map<nat, Bond> := map[1 := Bond(2, 5), 2 := Bond(2, 20)]

  function Round1(d: Dispute): State {
    Court(0, 95, 5, Worker(5), map[], DISPUTED, map[], OneDispute(d))
  }

  const FEES: map<AccountId, JuryFee> := map[3 := JuryFee(1, 0)]

  function Books2(d: Dispute, rewards: map<ProjectId, map<AccountId, Balance>>): ArbStore {
    ArbStore(map[0 := d], rewards, map[0 := 7], map[0 := TWO_BONDS], map[(0, 2) := FEES])
  }

  function Round2(now: BlockNumber, voter: Stats, d: Dispute, rewards: map<ProjectId, map<AccountId, Balance>>): State {
    Court(now, 75, 25, voter, map[Bronze := 0], DISPUTED, map[], Books2(d, rewards))
  }

  lemma FirstReserve()
    ensures AfterReserve(InCourt(SUBMITTED, map[]).ledger, 2, 5) == Ok(Round1(ASKED).ledger)
  {
    hide LockIdOf;
    var l := InCourt(SUBMITTED, map[]).ledger;
    assert CoversLocks(l, 2, 95);
    hide CoversLocks;
    assert l.free[2 := 95] == map[1 := 100, 2 := 95, 3 := 50] && l.reserved[2 := 5] == map[3 := 50, 2 := 5];
  }

  lemma SecondReserve()
    ensures AfterReserve(Round1(LOST).ledger, 2, 20) == Ok(Round2(0, Worker(5), SEATED, map[]).ledger)
  {
    hide LockIdOf;
    var l := Round1(LOST).ledger;
    assert CoversLocks(l, 2, 75);
    hide CoversLocks;
    assert l.free[2 := 75] == map[1 := 100, 2 := 75, 3 := 50] && l.reserved[2 := 25] == map[3 := 50, 2 := 25];
  }

  lemma CourtOpens()
    ensures Apply(SMALL, InCourt(SUBMITTED, map[]), OVERRULED[0]) == Ok(Round1(ASKED))
  {
    FirstReserve();
    FirstPrices();
    hide LockIdOf, AfterReserve, AppealBond, ArbitrationCost;
    var t := Apply(SMALL, InCourt(SUBMITTED, map[]), OVERRULED[0]);
    assert t.Ok?;
    assert t.value.proj == Round1(ASKED).proj;
    assert t.value.arb == Round1(ASKED).arb;
  }

  lemma OracleRules()
    ensures Apply(SMALL, Round1(ASKED), OVERRULED[1]) == Ok(Round1(LOST))
  {
    hide LockIdOf;
    var t := Apply(SMALL, Round1(ASKED), OVERRULED[1]);
    assert t.Ok?;
    assert t.value.arb.disputes == map[0 := LOST];
  }

  lemma SecondPrices()
    ensures AppealBond(SMALL, 100, 2) == Ok(20) && ArbitrationCost(SMALL, 100, 2) == Ok(5)
    ensures JuryFees(SMALL, 100, 2) == Ok(JuryFee(1, 0)) && JurySize(SMALL, 2) == 1 && RequiredTier(2) == Bronze
  {
  }

  /** The one Bronze juror is selected. */
  lemma CourtSelects(r: RepStore)
    requires r == Round1(LOST).rep
    ensures Selection(r, Bronze, [1, 2], 1) == ([3], Round2(0, Worker(5), SEATED, map[]).rep)
  {
    var pool, none: seq<AccountId> := [3], [];
    assert none + [3] == [3];
    assert Scan(pool, 1, 1, [1, 2], [3], 1) == ([3], 1);
    assert Scan(pool, 0, 0, [1, 2], none, 1) == ([3], 1);
    assert r.nextIndex[Bronze := 0] == map[Bronze := 0];
  }

  lemma CourtAppeals()
    ensures Apply(SMALL, Round1(LOST), OVERRULED[2]) == Ok(Round2(0, Worker(5), SEATED, map[]))
  {
    AppealAccepted();
    AppealWrites(SMALL, Round1(LOST), 2, 0, DISPUTED, LOST);
    AppealApplies();
    AppealKeepsRest();
    hide LockIdOf, AfterAppealRuling, AfterReserve, Selection, BondOf, ArbAfterAppeal, JurySize, RequiredTier;
    hide Books2;
  }

  lemma AppealApplies()
    ensures Apply(SMALL, Round1(LOST), OVERRULED[2]) == AfterAppealRuling(SMALL, Round1(LOST), 2, 0)
  {
    hide LockIdOf, AfterAppealRuling;
  }

  /** What the appeal writes, part by part. */
  lemma AppealKeepsRest()
    ensures var s, t := Round1(LOST), Round2(0, Worker(5), SEATED, map[]);
      && AfterReserve(s.ledger, 2, BondOf(SMALL, 100, 2)) == Ok(t.ledger)
      && Selection(s.rep, RequiredTier(2), [1, 2], JurySize(SMALL, 2)) == ([3], t.rep)
      && ArbAfterAppeal(SMALL, 0, s.arb, 0, DISPUTED, LOST, 2, [3]) == t.arb
  {
    SecondReserve();
    SecondPrices();
    AppealPrices();
    CourtSelects(Round1(LOST).rep);
    AppealRecorded();
    hide LockIdOf, AfterReserve, Selection, BondOf, ArbAfterAppeal, JurySize, RequiredTier, Books2, OneDispute;
  }

  lemma AppealAccepted()
    ensures AfterAppealRuling(SMALL, Round1(LOST), 2, 0).Ok?
  {
    SecondReserve();
    SecondPrices();
    CourtSelects(Round1(LOST).rep);
    AppealParties();
    hide LockIdOf, AfterReserve, AppealBond, ArbitrationCost, JuryFees, Selection, JurySize, RequiredTier, Seated;
    hide ProjectParties, ProjectBudget, Court;
  }

  lemma AppealParties()
    ensures var s := Round1(LOST);
      && ProjectParties(s.proj, 0) == Ok((1, 2)) && ProjectBudget(s.proj, 0) == Ok(100)
      && s.arb == OneDispute(LOST) && s.now == 0
  {
    hide LockIdOf;
  }

  lemma AppealRecorded()
    ensures ArbAfterAppeal(SMALL, 0, OneDispute(LOST), 0, DISPUTED, LOST, 2, [3]) == Books2(SEATED, map[])
  {
    AppealPrices();
    CourtFees([3]);
    hide BondOf, CostOf, FeesOf;
    var arb := ArbAfterAppeal(SMALL, 0, OneDispute(LOST), 0, DISPUTED, LOST, 2, [3]);
    assert Seated([3]) == [(3, false)];
    assert arb.disputes == map[0 := SEATED];
    assert arb.bonds[0] == TWO_BONDS;
    assert arb.bonds == map[0 := TWO_BONDS];
    assert arb.costs == map[0 := 7];
    assert arb.fees[(0, 2)] == FEES;
    assert arb.fees == map[(0, 2) := FEES];
  }

  lemma AppealPrices()
    ensures BondOf(SMALL, 100, 2) == 20 && CostOf(SMALL, 100, 2) == 5 && FeesOf(SMALL, 100, 2) == JuryFee(1, 0)
  {
  }

  lemma CourtFees(jury: seq<AccountId>)
    requires jury == [3]
    ensures map[] + (map j | j in Elements(jury) :: JuryFee(1, 0)) == FEES
  {
    assert jury[0] in Elements(jury);
  }

  lemma CourtVotes()
    ensures Apply(SMALL, Round2(0, Worker(5), SEATED, map[]), OVERRULED[3]) == Ok(Round2(0, Worker(5), CAST, map[]))
    ensures Apply(SMALL, Round2(0, Worker(5), CAST, map[]), OVERRULED[4]) == Ok(Round2(1, Worker(5), CAST, map[]))
  {
    hide LockIdOf;
    var t := Apply(SMALL, Round2(0, Worker(5), SEATED, map[]), OVERRULED[3]);
    assert SeatOf(SEATED.jurors, 3) == 0;
    assert t.Ok?;
    assert t.value.arb.disputes[0].votes == map[3 := ForFreelancer];
    assert t.value.arb.disputes[0].jurors == [(3, true)];
    assert t.value.arb.disputes == map[0 := CAST];
  }

  lemma CourtRules()
    ensures RoundRuling(CAST.votes) == FreelancerWins
    ensures VoteOrder(CAST.votes) == [3]
    ensures RewardsAfterRound(SMALL, map[], map[3 := JuryFee(1, 0)], CAST.votes, FreelancerWins) == map[3 := 1]
  {
    assert Voters(CAST.votes, ForFreelancer) == {3};
    assert Voters(CAST.votes, ForClient) == {};
    var order := VoteOrder(CAST.votes);
    assert Elements(order) == {3};
    DistinctCardinality(order);
    assert order[0] in Elements(order);
  }

  lemma CourtRecords()
    ensures var s := Round2(1, Worker(5), CAST, map[]);
      AfterJuryVote(SMALL, 1, RepWorld(s.ledger, s.rep), 3, true).world
      == RepWorld(s.ledger, Round2(1, VOTER, CAST, map[]).rep)
  {
    hide LockIdOf, NextAccuracy;
    var s := Round2(1, Worker(5), CAST, map[]);
    assert s.rep.stats[3 := VOTER] == map[1 := CLIENT, 2 := Worker(0), 3 := VOTER];
  }

  lemma CourtTallies()
    ensures var s := Round2(1, Worker(5), CAST, map[]);
      AfterJuryVotes(SMALL, 1, RepWorld(s.ledger, s.rep), VoteOrder(CAST.votes), CAST.votes, FreelancerWins)
      == RepWorld(s.ledger, Round2(1, VOTER, CAST, map[]).rep)
  {
    CourtRules();
    CourtRecords();
    hide AfterJuryVote, VoteOrder, Round2;
    var one: seq<AccountId> := [3];
    assert one[..0] == [];
    var s := Round2(1, Worker(5), CAST, map[]);
    assert AfterJuryVotes(SMALL, 1, RepWorld(s.ledger, s.rep), one[..0], CAST.votes, FreelancerWins)
        == RepWorld(s.ledger, s.rep);
  }

  lemma CourtFinalizes()
    ensures Apply(SMALL, Round2(1, Worker(5), CAST, map[]), OVERRULED[5])
         == Ok(Round2(1, VOTER, DECIDED, map[0 := map[3 := 1]]))
    ensures Apply(SMALL, Round2(1, VOTER, DECIDED, map[0 := map[3 := 1]]), OVERRULED[6])
         == Ok(Round2(2, VOTER, DECIDED, map[0 := map[3 := 1]]))
  {
    CourtRules();
    CourtTallies();
    hide LockIdOf, RoundRuling, VoteOrder, RewardsAfterRound, AfterJuryVotes;
    var t := Apply(SMALL, Round2(1, Worker(5), CAST, map[]), OVERRULED[5]);
    assert t.Ok?;
    assert t.value.arb.disputes == map[0 := DECIDED];
    assert t.value.arb.rewards == map[0 := map[3 := 1]];
  }

  function Unpaid(): State {
    Round2(2, VOTER, DECIDED, map[0 := map[3 := 1]])
  }

  lemma TrioHiringRun()
    ensures Run(SMALL, TRIO, HIRING) == InCourt(SUBMITTED, map[])
  {
    TrioPosts();
    TrioHires();
    TrioSubmits();
    hide Apply, InCourt;
    assert Run(SMALL, TRIO, []) == TRIO;
    hide Run;
    RunOn(SMALL, TRIO, [], HIRING[..1], HIRING[0], TRIO, InCourt(OPEN, map[]));
    RunOn(SMALL, TRIO, HIRING[..1], HIRING[..2], HIRING[1], InCourt(OPEN, map[]), InCourt(OPEN, map[0 := [2]]));
    RunOn(SMALL, TRIO, HIRING[..2], HIRING[..3], HIRING[2], InCourt(OPEN, map[0 := [2]]), InCourt(STARTED, map[]));
    RunOn(SMALL, TRIO, HIRING[..3], HIRING, HIRING[3], InCourt(STARTED, map[]), InCourt(SUBMITTED, map[]));
  }

  lemma AppealRun()
    ensures Run(SMALL, InCourt(SUBMITTED, map[]), OVERRULED[..3]) == Round2(0, Worker(5), SEATED, map[])
  {
    CourtOpens();
    OracleRules();
    CourtAppeals();
    hide Apply, InCourt, Round1, Round2;
    var s, c := InCourt(SUBMITTED, map[]), OVERRULED;
    assert Run(SMALL, s, []) == s;
    hide Run;
    RunOn(SMALL, s, [], c[..1], c[0], s, Round1(ASKED));
    RunOn(SMALL, s, c[..1], c[..2], c[1], Round1(ASKED), Round1(LOST));
    RunOn(SMALL, s, c[..2], c[..3], c[2], Round1(LOST), Round2(0, Worker(5), SEATED, map[]));
  }

  lemma OverruledRun()
    ensures Run(SMALL, InCourt(SUBMITTED, map[]), OVERRULED) == Unpaid()
  {
    AppealRun();
    CourtVotes();
    CourtFinalizes();
    hide Apply, InCourt, Round2, Run;
    var s, c, paid := InCourt(SUBMITTED, map[]), OVERRULED, map[0 := map[3 := 1]];
    RunOn(SMALL, s, c[..3], c[..4], c[3], Round2(0, Worker(5), SEATED, map[]), Round2(0, Worker(5), CAST, map[]));
    RunOn(SMALL, s, c[..4], c[..5], c[4], Round2(0, Worker(5), CAST, map[]), Round2(1, Worker(5), CAST, map[]));
    RunOn(SMALL, s, c[..5], c[..6], c[5], Round2(1, Worker(5), CAST, map[]), Round2(1, VOTER, DECIDED, paid));
    RunOn(SMALL, s, c[..6], c, c[6], Round2(1, VOTER, DECIDED, paid), Round2(2, VOTER, DECIDED, paid));
  }

  lemma OverruledChain()
    ensures Chain(SMALL, TRIO_LEDGER, TRIO_USERS, [3], 50, HIRING + OVERRULED)
    ensures Start(SMALL, TRIO_LEDGER, TRIO_USERS, [3], 50) == TRIO
    ensures Run(SMALL, TRIO, HIRING + OVERRULED) == Unpaid()
  {
    TrioGenesis();
    TrioSound();
    TrioHiringRun();
    OverruledRun();
    CreationsBounded(HIRING + OVERRULED);
    hide Genesis, SoundGenesis, Creations, Run, InCourt, Unpaid;
    RunInTwo(SMALL, TRIO, HIRING, OVERRULED);
  }

  lemma UnpaidReleasable()
    ensures 0 in Unpaid().proj.projects && Unpaid().proj.projects[0].freelancer.Some? && Releasable(Unpaid(), 0)
  {
    hide LockIdOf;
  }

  lemma UnpaidFits()
    ensures var s := Unpaid(); var r := RepAfterRuling(SMALL, s, 0, FreelancerWins);
      CompletionFits(SMALL, 2, s.rep, 2, 100) && OutcomeFits(SMALL, 2, r, 2, 1)
  {
    hide LockIdOf;
  }

  lemma UnpaidReady()
    ensures Ready(SMALL, Unpaid(), 0)
  {
    UnpaidFits();
    UnpaidReleasable();
    hide LockIdOf, Releasable, CompletionFits, OutcomeFits, RepAfterRuling;
  }

  /** The parts of the state the settlement asks for. */
  lemma UnpaidBooks()
    ensures var s := Unpaid();
      && 0 in s.proj.projects && s.proj.projects[0] == DISPUTED && DISPUTED.freelancer == Some(2)
      && Prefix(s.arb.bonds, 0) == TWO_BONDS && Get(s.arb.costs, 0) == 7 && Prefix(s.arb.rewards, 0) == map[3 := 1]
      && Free(s.ledger, 99) == 0 && SMALL.arbitrator == 99
  {
    hide LockIdOf;
  }

  /** A loser without bonds who cannot bear the costs leaves an empty pallet empty. */
  lemma NothingCollected(cfg: Config, s: State, id: ProjectId, ruling: Ruling)
    requires id in s.proj.projects && s.proj.projects[id].freelancer.Some?
    requires Slashed(s, id, ruling) == 0 && Free(s.ledger, cfg.arbitrator) == 0
    requires FreeAtSettlement(cfg, s, id, ruling) + Returned(s, id) < Get(s.arb.costs, id)
    ensures Collected(cfg, s, id, ruling) == 0
  {
    hide Slashed, Returned, FreeAtSettlement, LockedAtSettlement;
  }

  /** A client who posted no bond loses none. */
  lemma NoBondSlashed(s: State, id: ProjectId)
    requires id in s.proj.projects && s.proj.projects[id].freelancer.Some?
    requires s.proj.projects[id].client != s.proj.projects[id].freelancer.value
    requires forall r :: r in Prefix(s.arb.bonds, id) ==> Prefix(s.arb.bonds, id)[r].owner != s.proj.projects[id].client
    ensures Slashed(s, id, FreelancerWins) == 0 && Returned(s, id) == 0
  {
    OwnsNothing(Prefix(s.arb.bonds, id), s.proj.projects[id].client);
    hide OwnedIn;
  }

  lemma UnpaidBonds()
    ensures 0 in Unpaid().proj.projects && Unpaid().proj.projects[0].freelancer.Some?
    ensures Slashed(Unpaid(), 0, FreelancerWins) == 0 && Returned(Unpaid(), 0) == 0
  {
    hide Unpaid, Slashed, Returned, Prefix;
    UnpaidBooks();
    assert TWO_BONDS[1].owner == 2 && TWO_BONDS[2].owner == 2;
    NoBondSlashed(Unpaid(), 0);
  }

  /** The client has nothing left to pay costs with once the budget is paid, and posted no bond. */
  lemma UnpaidCollects()
    ensures 0 in Unpaid().proj.projects && Unpaid().proj.projects[0].freelancer.Some?
    ensures Collected(SMALL, Unpaid(), 0, FreelancerWins) == 0
  {
    hide FreeAtSettlement, Unpaid, Slashed, Returned, Collected;
    UnpaidBooks();
    UnpaidBonds();
    UnpaidFree();
    NothingCollected(SMALL, Unpaid(), 0, FreelancerWins);
  }

  lemma UnpaidFree()
    ensures FreeAtSettlement(SMALL, Unpaid(), 0, FreelancerWins) == 0
  {
    hide LockIdOf, StakeReleased, Credited;
  }

  lemma UnpaidOwed()
    ensures SumMap(Prefix(Unpaid().arb.rewards, 0)) == 1
  {
    SumSingle(3 as AccountId, 1);
    UnpaidBooks();
    hide Unpaid, SumMap;
  }

  /**
    A reachable enforcement that fails because the jurors cannot be paid: the client loses a
    round it did not appeal, so no bond of it is slashed, and the budget takes all its money.
  */
  lemma JurorsGoUnpaid()
    ensures Chain(SMALL, TRIO_LEDGER, TRIO_USERS, [3], 50, HIRING + OVERRULED)
    ensures var s := Run(SMALL, Start(SMALL, TRIO_LEDGER, TRIO_USERS, [3], 50), HIRING + OVERRULED);
      Ready(SMALL, s, 0) && AfterEnforceFinalRuling(SMALL, s, 0) == Err(PaymentFailed)
  {
    hide Inv, Chain, Run, Start, Ready, Collected, SumMap, AfterEnforceFinalRuling;
    OverruledChain();
    UnpaidReady();
    UnpaidCollects();
    UnpaidOwed();
    var created := ChainEnds(TRIO_LEDGER, TRIO_USERS, [3], 50, HIRING + OVERRULED);
    UnpaidJurorsBlock(SMALL, Unpaid(), 0, created);
  }
}
