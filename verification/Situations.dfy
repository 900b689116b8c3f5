/**
  Concrete states and runs in which the failures named elsewhere do occur.
*/
module Situations {
  import opened Prelude
  import opened Types
  import opened Currency
  import opened Reputation
  import opened JurorIndex
  import opened JurorCalls
  import opened Projects
  import opened Arbitration
  import opened DisputeProtocol
  import opened Escrow
  import opened ReserveLedger
  import opened System
  import opened ChainInvariant
  import opened EscrowRuns
  import opened EscrowFunding
  import opened HoldingsTheorems
  import opened EscrowPayable
  import opened DisputeRuns
  import opened Enforceability
  import opened GenesisTheorems
  import opened FromGenesis

  /** A small chain: one seat per round and pool, short periods. */
  const SMALL: Config := Parameters(1, 1, 1, 1, 1, 1, 100_000, 1, 1, 1_000_000, 1_000_000, 99)

  // ---------- a juror dropped from the lists ----------

  function Worker(projects: nat): Stats {
    NO_STATS.(registrationBlock := 1, lastActivityBlock := 1, projectsCompleted := projects, totalEarned := 10_000)
  }

  /** Juror 1 is Bronze with this many projects; juror 2 fills the Silver pool. */
  function TwoJurors(projects: nat): RepWorld {
    RepWorld(Ledger(map[], map[], map[], 0),
             RepStore(map[1 := Worker(projects), 2 := Worker(20)], map[1 := Bronze, 2 := Silver], {1, 2},
                      [], [2], [1], map[], 0, map[1 := 0, 2 := 0]))
  }

  lemma TwoJurorsOk(projects: nat)
    requires 5 <= projects <= 20
    ensures JuryOk(SMALL, TwoJurors(projects)) && EveryJurorListed(TwoJurors(projects).rep)
  {
    var r := TwoJurors(projects).rep;
    forall t ensures Distinct(Pool(r, t)) && |Pool(r, t)| <= Capacity(SMALL, t) {
    }
    forall t, a | a in Pool(r, t) ensures a in r.registry && TierOf(r, a) == t {
    }
  }

  lemma TwentiethProject()
    ensures AfterWorkAccepted(1, TwoJurors(19), 1) == Ok(TwoJurors(20))
  {
    assert map[1 := Worker(19), 2 := Worker(20)][1 := Worker(20)] == map[1 := Worker(20), 2 := Worker(20)];
  }

  /**
    A client whose work is accepted is due a better tier at once but moves with the next jury
    vote; when the Silver pool is full by then, the vote leaves the juror registered, Bronze
    by the books, and in no pool.
  */
  lemma PromotionDropsJuror(withMajority: bool)
    ensures AfterWorkAccepted(1, TwoJurors(19), 1) == Ok(TwoJurors(20))
    ensures JuryOk(SMALL, TwoJurors(20)) && EveryJurorListed(TwoJurors(20).rep)
    ensures DropsJuror(SMALL, TwoJurors(20).rep, 1)
    ensures var v := AfterJuryVote(SMALL, 2, TwoJurors(20), 1, withMajority).world;
      OffList(v.rep, 1) && TierOf(v.rep, 1) == Bronze
  {
    TwoJurorsOk(20);
    assert DropsJuror(SMALL, TwoJurors(20).rep, 1);
    TwentiethProject();
    DroppedKeepsTier(SMALL, 2, TwoJurors(20), 1, withMajority);
    assert TierOf(TwoJurors(20).rep, 1) == Bronze;
    hide AfterWorkAccepted, DropsJuror, JuryOk, TwoJurors, AfterJuryVote, OffList;
    assert !OffList(TwoJurors(20).rep, 1);
    JuryVoteKeeps(SMALL, 2, TwoJurors(20), 1, withMajority);
  }

  // ---------- the project ids used up ----------

  /** 2^32 projects were created; project 0 is still open, funded by client 1 and locked. */
  function LastIdUsed(): State {
    State(1,
          Ledger(map[1 := 100], map[], map[(1, LockIdOf(0)) := 100], 100),
          Unstaked(map[1 := Worker(0), 2 := Worker(0)], 0),
          ProjStore(map[0 := Project(1, None, "a", 100, Created, 10, None, None, None)], 0, map[]),
          ArbStore(map[], map[], map[], map[], map[]))
  }

  lemma LastIdMoney()
    ensures MoneyOk(SMALL, LastIdUsed().ledger) && ReservesExact(LastIdUsed())
  {
    var s := LastIdUsed();
    hide LockIdOf;
    SumSingle(1 as AccountId, 100);
    forall a ensures Reserved(s.ledger, a) == StakeOf(s.rep, a) + BondsOwed(s.arb.bonds, a) {
      assert OwnedPerProject(s.arb.bonds, a) == map[];
    }
  }

  lemma LastIdEscrow()
    ensures EscrowOk(LastIdUsed())
  {
    LockIdRoundTrip(0);
    hide LockIdOf, LockOwner;
  }

  lemma LastIdCases()
    ensures AllCases(SMALL, LastIdUsed()) && IndexOk(SMALL, LastIdUsed().rep)
  {
    hide LockIdOf;
  }

  lemma LastIdCreation(who: AccountId, budget: Balance)
    requires who == 1 || who == 2
    ensures Apply(SMALL, LastIdUsed(), CreateProject(who, budget, "b", 10)).Ok?
  {
    hide LockIdOf;
  }

  /**
    Such states exist. Another client's project strands the lock, and so does a project of the
    same client without a budget; one with a budget overwrites it.
  */
  lemma WrappedCounterStrandsLock()
    ensures var s := LastIdUsed();
      && Inv(SMALL, s, PROJECT_IDS)
      && !EscrowOk(Step(SMALL, s, CreateProject(2, 50, "b", 10)))
      && !EscrowOk(Step(SMALL, s, CreateProject(1, 0, "b", 10)))
      && EscrowOk(Step(SMALL, s, CreateProject(1, 50, "b", 10)))
  {
    var s := LastIdUsed();
    LastIdMoney();
    LastIdEscrow();
    LastIdCases();
    assert IdsOk(s, PROJECT_IDS);
    LastIdCreation(2, 50);
    LastIdCreation(1, 0);
    LastIdCreation(1, 50);
    hide Apply, AllCases, IndexOk, ReservesExact, EscrowOk, MoneyOk, LockIdOf;
    WrappedIdEscrow(SMALL, s, 2, 50, "b", 10);
    WrappedIdEscrow(SMALL, s, 1, 0, "b", 10);
    WrappedIdEscrow(SMALL, s, 1, 50, "b", 10);
  }

  // ---------- an escrow drained through a juror's stake ----------

  const STAKED_LEDGER: Ledger := Ledger(map[1 := 200, 2 := 10], map[], map[], 210)
  const STAKED_USERS: map<AccountId, Stats> := map[1 := Worker(5), 2 := Worker(0)]

  /** Account 1 is a Bronze juror with 100 of its 200 reserved; account 2 is a user. */
  const STAKED: State := State(0,
    Ledger(map[1 := 100, 2 := 10], map[1 := 100], map[], 210),
    RepStore(STAKED_USERS, map[1 := Bronze], {1}, [], [], [1], map[], 100, map[1 := 100]),
    ProjStore(map[], 0, map[]),
    ArbStore(map[], map[], map[], map[], map[]))

  lemma StakedGenesis()
    ensures Genesis(SMALL, STAKED_LEDGER, STAKED_USERS, [1], 100) == Ok(RepWorld(STAKED.ledger, STAKED.rep))
  {
    var w := RepWorld(STAKED_LEDGER, Unstaked(STAKED_USERS, 100));
    var v := AfterGenesisJuror(SMALL, w, 1);
    assert v.Ok?;
    assert v.value.ledger == STAKED.ledger;
    assert v.value.rep == STAKED.rep;
    hide AfterGenesisJuror;
    var one: seq<AccountId> := [1];
    assert one[..0] == [];
    assert AfterGenesisJurors(SMALL, w, one[..0]) == Ok(w);
    assert AfterGenesisJurors(SMALL, w, one) == v;
  }

  lemma StakedSound()
    ensures SoundGenesis(SMALL, STAKED_LEDGER, STAKED_USERS, [1])
  {
    SumRemove(STAKED_LEDGER.free, 1);
    SumSingle(2 as AccountId, 10);
    assert STAKED_LEDGER.free - {1} == map[2 := 10];
  }

  /** Account 1 posts a project worth all its free money; account 2 is hired and hands in its work. */
  const HIRING: seq<Call> := [
    CreateProject(1, 100, "a", 10), ApplyForProject(2, 0), StartWork(1, 0, 2), SubmitWork(2, 0, "h", "w", "")]

  function Posted(): State {
    var poster := Worker(5).(projectsPosted := 1, totalSpent := 100, lastActivityBlock := 0);
    STAKED.(ledger := STAKED.ledger.(locks := map[(1, LockIdOf(0)) := 100]),
            rep := STAKED.rep.(stats := map[1 := poster, 2 := Worker(0)]),
            proj := ProjStore(map[0 := Project(1, None, "a", 100, Created, 10, None, None, None)], 1, map[]))
  }

  function WithProject0(applicants: map<ProjectId, seq<AccountId>>, p: Project): State {
    Posted().(proj := ProjStore(map[0 := p], 1, applicants))
  }

  const OPEN: Project := Project(1, None, "a", 100, Created, 10, None, None, None)
  const STARTED: Project := OPEN.(freelancer := Some(2), status := InProgress, deadline := Some(10))
  const SUBMITTED: Project := STARTED.(status := InReview, submission := Some(WorkSubmission("h", "w", 0, "")))

  function Reviewed(): State {
    WithProject0(map[], SUBMITTED)
  }

  lemma PostStep()
    ensures Apply(SMALL, STAKED, HIRING[0]) == Ok(Posted())
  {
    hide LockIdOf;
    var t := Apply(SMALL, STAKED, HIRING[0]);
    assert t.Ok?;
    assert t.value.ledger.locks == Posted().ledger.locks;
    assert t.value.rep.stats == Posted().rep.stats;
    assert t.value.proj.projects == Posted().proj.projects;
  }

  lemma ApplyStep()
    ensures Apply(SMALL, Posted(), HIRING[1]) == Ok(WithProject0(map[0 := [2]], OPEN))
  {
    hide LockIdOf;
    var t := Apply(SMALL, Posted(), HIRING[1]);
    assert t.Ok?;
    assert t.value.proj.applicants[0] == [2];
    assert t.value.proj.applicants == map[0 := [2]];
  }

  lemma StartStep()
    ensures Apply(SMALL, WithProject0(map[0 := [2]], OPEN), HIRING[2]) == Ok(WithProject0(map[], STARTED))
  {
    hide LockIdOf;
    var t := Apply(SMALL, WithProject0(map[0 := [2]], OPEN), HIRING[2]);
    assert t.Ok?;
    assert t.value.proj.applicants == map[];
    assert t.value.proj.projects == map[0 := STARTED];
  }

  lemma SubmitStep()
    ensures Apply(SMALL, WithProject0(map[], STARTED), HIRING[3]) == Ok(Reviewed())
  {
    hide LockIdOf;
    var t := Apply(SMALL, WithProject0(map[], STARTED), HIRING[3]);
    assert t.Ok?;
    assert t.value.proj.projects == map[0 := SUBMITTED];
  }

  lemma OneMoreCall(cfg: Config, s: State, calls: seq<Call>, c: Call)
    ensures Run(cfg, s, calls + [c]) == Step(cfg, Run(cfg, s, calls), c)
  {
    assert (calls + [c])[..|calls|] == calls;
  }

  lemma HiringRun()
    ensures Run(SMALL, STAKED, HIRING) == Reviewed()
  {
    PostStep();
    ApplyStep();
    StartStep();
    SubmitStep();
    hide Apply, Posted, WithProject0;
    assert Run(SMALL, STAKED, []) == STAKED;
    hide Run;
    RunOn(SMALL, STAKED, [], HIRING[..1], HIRING[0], STAKED, Posted());
    RunOn(SMALL, STAKED, HIRING[..1], HIRING[..2], HIRING[1], Posted(), WithProject0(map[0 := [2]], OPEN));
    RunOn(SMALL, STAKED, HIRING[..2], HIRING[..3], HIRING[2], WithProject0(map[0 := [2]], OPEN),
          WithProject0(map[], STARTED));
    RunOn(SMALL, STAKED, HIRING[..3], HIRING, HIRING[3], WithProject0(map[], STARTED), Reviewed());
  }

  /**
    A reachable case: the client pays its free 100 away, which its stake of 100 lets past the
    lock of 100. The project is still live, the client still holds its budget, and accepting
    the work fails for want of free money.
  */
  lemma StakeDrainsEscrow()
    ensures Chain(SMALL, STAKED_LEDGER, STAKED_USERS, [1], 100, HIRING + [Transfer(1, 3, 100)])
    ensures Start(SMALL, STAKED_LEDGER, STAKED_USERS, [1], 100) == STAKED
    ensures var s := Run(SMALL, STAKED, HIRING); var t := Run(SMALL, STAKED, HIRING + [Transfer(1, 3, 100)]);
      && Payable(s, 0) && LiveProject(s, 0)
      && LiveProject(t, 0) && Funded(t, 0) && !Payable(t, 0)
      && Apply(SMALL, t, AcceptWork(1, 0, 5)) == Err(ProjectPaymentFailed)
  {
    StakedGenesis();
    StakedSound();
    HiringRun();
    OneMoreCall(SMALL, STAKED, HIRING, Transfer(1, 3, 100));
    ReviewedCanDrain();
    HiringWellFormed();
    hide Genesis, SoundGenesis, LockIdOf, Creations, AllWellFormed;
  }

  lemma HiringWellFormed()
    ensures AllWellFormed(SMALL, HIRING + [Transfer(1, 3, 100)])
    ensures Creations(HIRING + [Transfer(1, 3, 100)]) <= PROJECT_IDS
  {
    CreationsBounded(HIRING + [Transfer(1, 3, 100)]);
  }

  lemma {:induction false} CreationsBounded(calls: seq<Call>)
    ensures Creations(calls) <= |calls|
  {
    if calls != [] {
      CreationsBounded(calls[..|calls| - 1]);
    }
  }

  lemma ReviewedMoney()
    ensures var s := Reviewed();
      && Free(s.ledger, 1) == 100 && Reserved(s.ledger, 1) == 100 && CoversLocks(s.ledger, 1, 100)
      && 0 in s.proj.projects && s.proj.projects[0] == SUBMITTED
  {
    hide LockIdOf;
  }

  lemma PaymentLeavesNothing(s: State)
    requires Free(s.ledger, 1) == 100 && Reserved(s.ledger, 1) == 100 && CoversLocks(s.ledger, 1, 100)
    ensures Apply(SMALL, s, Transfer(1, 3, 100)).Ok?
    ensures var t := Apply(SMALL, s, Transfer(1, 3, 100)).value;
      Holdings(t.ledger, 1) == 100 && t.proj == s.proj
  {
    hide CoversLocks;
  }

  lemma ReviewedCanDrain()
    ensures var s := Reviewed(); var t := Step(SMALL, s, Transfer(1, 3, 100));
      && Payable(s, 0) && LiveProject(s, 0)
      && LiveProject(t, 0) && Funded(t, 0) && !Payable(t, 0)
      && Apply(SMALL, t, AcceptWork(1, 0, 5)) == Err(ProjectPaymentFailed)
  {
    hide Reviewed, CoversLocks, Apply, Holdings;
    ReviewedMoney();
    assert SUBMITTED.freelancer == Some(2) && SUBMITTED.client == 1 && SUBMITTED.budget == 100;
    PaymentDrainsEscrow(SMALL, Reviewed(), 0, 3, 100, 5);
    PaymentLeavesNothing(Reviewed());
  }

  // ---------- an enforcement that fails ----------

  /** The freelancer disputes, the oracle rules for it, the client pays its free money away, the period passes. */
  const RULING: seq<Call> := [
    CreateDispute(2, 0), SubmitRuling(0, FreelancerWins), Transfer(1, 3, 100), NextBlock]

  function DisputedWith(now: BlockNumber, free: map<AccountId, Balance>, d: Dispute): State {
    Reviewed().(now := now,
                ledger := Ledger(free, map[1 := 100, 2 := 5], map[(1, LockIdOf(0)) := 100], 210),
                proj := ProjStore(map[0 := SUBMITTED.(status := InDispute)], 1, map[]),
                arb := ArbStore(map[0 := d], map[], map[0 := 2], map[0 := map[1 := Bond(2, 5)]], map[]))
  }

  const ASKED: Dispute := Dispute(AiProcessing, "a", "w", 0, None, 1, [], map[])
  const RULED: Dispute := ASKED.(ruling := Some(FreelancerWins), status := Appealable)

  /** Account 1 with its free money, and without. */
  const RICH: map<AccountId, Balance> := map[1 := 100, 2 := 5]
  const POOR: map<AccountId, Balance> := map[1 := 0, 2 := 5, 3 := 100]

  lemma BondReserved()
    ensures AfterReserve(Reviewed().ledger, 2, 5) == Ok(DisputedWith(0, RICH, ASKED).ledger)
  {
    hide LockIdOf;
    var l := Reviewed().ledger;
    assert CoversLocks(l, 2, 5);
    hide CoversLocks;
    assert l.free[2 := 5] == RICH && l.reserved[2 := 5] == map[1 := 100, 2 := 5];
  }

  lemma FirstPrices()
    ensures AppealBond(SMALL, 100, 1) == Ok(5) && ArbitrationCost(SMALL, 100, 1) == Ok(2)
  {
  }

  lemma DisputeStep()
    ensures Apply(SMALL, Reviewed(), RULING[0]) == Ok(DisputedWith(0, RICH, ASKED))
  {
    BondReserved();
    FirstPrices();
    hide LockIdOf, AfterReserve, AppealBond, ArbitrationCost;
    var t := Apply(SMALL, Reviewed(), RULING[0]);
    assert t.Ok?;
    assert t.value.proj == DisputedWith(0, RICH, ASKED).proj;
    assert t.value.arb == DisputedWith(0, RICH, ASKED).arb;
  }

  lemma RuleStep()
    ensures Apply(SMALL, DisputedWith(0, RICH, ASKED), RULING[1]) == Ok(DisputedWith(0, RICH, RULED))
  {
    hide LockIdOf;
    var t := Apply(SMALL, DisputedWith(0, RICH, ASKED), RULING[1]);
    assert t.Ok?;
    assert t.value.arb.disputes == map[0 := RULED];
  }

  lemma PayAway()
    ensures AfterTransfer(DisputedWith(0, RICH, RULED).ledger, 1, 3, 100) == Ok(DisputedWith(0, POOR, RULED).ledger)
  {
    hide LockIdOf, CoversLocks, AfterTransfer;
    PayableAway();
    RichPays(DisputedWith(0, RICH, RULED).ledger);
  }

  lemma RichPays(l: Ledger)
    requires l.free == RICH && l.reserved == map[1 := 100, 2 := 5] && CoversLocks(l, 1, 100)
    ensures AfterTransfer(l, 1, 3, 100) == Ok(l.(free := POOR))
  {
    RichToPoor();
    assert Free(l, 1) == 100 && Free(l, 3) == 0 && Reserved(l, 1) == 100;
    hide CoversLocks;
  }

  lemma PayableAway()
    ensures CoversLocks(DisputedWith(0, RICH, RULED).ledger, 1, 100)
  {
    hide LockIdOf;
  }

  lemma RichToPoor()
    ensures RICH[1 := 0][3 := 100] == POOR
  {
  }

  lemma PayAwayStep()
    ensures Apply(SMALL, DisputedWith(0, RICH, RULED), RULING[2]) == Ok(DisputedWith(0, POOR, RULED))
  {
    PayAway();
    hide LockIdOf, AfterTransfer;
  }

  lemma BlockStep()
    ensures Apply(SMALL, DisputedWith(0, POOR, RULED), RULING[3]) == Ok(DisputedWith(1, POOR, RULED))
  {
    hide LockIdOf;
  }

  /** One more successful call at the end of a run. */
  lemma RunOn(cfg: Config, s: State, calls: seq<Call>, more: seq<Call>, c: Call, r: State, t: State)
    requires more == calls + [c] && Run(cfg, s, calls) == r && Apply(cfg, r, c) == Ok(t)
    ensures Run(cfg, s, more) == t
  {
    hide Apply;
    OneMoreCall(cfg, s, calls, c);
  }

  lemma RulingRun()
    ensures Run(SMALL, Reviewed(), RULING) == DisputedWith(1, POOR, RULED)
  {
    DisputeStep();
    RuleStep();
    PayAwayStep();
    BlockStep();
    hide Apply, DisputedWith, Reviewed;
    var s := Reviewed();
    assert Run(SMALL, s, []) == s;
    hide Run;
    RunOn(SMALL, s, [], RULING[..1], RULING[0], s, DisputedWith(0, RICH, ASKED));
    RunOn(SMALL, s, RULING[..1], RULING[..2], RULING[1], DisputedWith(0, RICH, ASKED), DisputedWith(0, RICH, RULED));
    RunOn(SMALL, s, RULING[..2], RULING[..3], RULING[2], DisputedWith(0, RICH, RULED), DisputedWith(0, POOR, RULED));
    RunOn(SMALL, s, RULING[..3], RULING, RULING[3], DisputedWith(0, POOR, RULED), DisputedWith(1, POOR, RULED));
  }

  lemma {:induction false} RunInTwo(cfg: Config, s: State, first: seq<Call>, second: seq<Call>)
    ensures Run(cfg, s, first + second) == Run(cfg, Run(cfg, s, first), second)
  {
    if second == [] {
      assert first + second == first;
    } else {
      var n := |second| - 1;
      RunInTwo(cfg, s, first, second[..n]);
      OneMoreCall(cfg, s, first + second[..n], second[n]);
      assert first + second[..n] + [second[n]] == first + second;
    }
  }

  lemma DrainedNotEnforceable()
    ensures var t := DisputedWith(1, POOR, RULED);
      && AppealOver(t)
      && !Enforceable(SMALL, t, 0)
      && AfterEnforceFinalRuling(SMALL, t, 0) == Err(InsufficientBalance)
  {
    hide LockIdOf, AfterPayouts, CompletionFits, OutcomeFits, Collected, RepAfterRuling;
  }

  /** A ruling waits in state `t` whose appeal period is over. */
  predicate AppealOver(t: State) {
    0 in t.arb.disputes && t.arb.disputes[0] == RULED && t.now >= WindowEnd(SMALL, RULED)
  }

  /**
    A reachable dispute that the freelancer has won and that cannot be enforced: the client's
    stake let it pay its free money away under the lock.
  */
  lemma EnforcementCanFail()
    ensures Chain(SMALL, STAKED_LEDGER, STAKED_USERS, [1], 100, HIRING + RULING)
    ensures Start(SMALL, STAKED_LEDGER, STAKED_USERS, [1], 100) == STAKED
    ensures var t := Run(SMALL, STAKED, HIRING + RULING);
      && AppealOver(t)
      && !Enforceable(SMALL, t, 0)
      && AfterEnforceFinalRuling(SMALL, t, 0) == Err(InsufficientBalance)
  {
    hide Genesis, SoundGenesis, LockIdOf, Creations, AllWellFormed, Run, Enforceable, AfterEnforceFinalRuling;
    hide DisputedWith, Reviewed;
    StakedGenesis();
    StakedSound();
    HiringRun();
    RulingRun();
    RunInTwo(SMALL, STAKED, HIRING, RULING);
    DrainedNotEnforceable();
    RulingWellFormed();
  }

  lemma RulingWellFormed()
    ensures AllWellFormed(SMALL, HIRING + RULING)
    ensures Creations(HIRING + RULING) <= PROJECT_IDS
  {
    CreationsBounded(HIRING + RULING);
  }
}
