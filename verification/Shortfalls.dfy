/**
  Reachable calls that leave a client short: an enforcement that drains another escrow, and a
  slash that burns part of a budget.
*/
module Shortfalls {
  import opened Prelude
  import opened Types
  import opened Currency
  import opened Reputation
  import opened Projects
  import opened Arbitration
  import opened DisputeProtocol
  import opened DisputeCalls
  import opened Escrow
  import opened System
  import opened ChainInvariant
  import opened ChainSafety
  import opened EscrowFunding
  import opened EscrowPayable
  import opened Enforceability
  import opened EscrowDrains
  import opened GenesisTheorems
  import opened FromGenesis
  import opened Situations

  /** A run from genesis ends in the invariant. */
  lemma ChainEnds(l: Ledger, users: map<AccountId, Stats>, jurors: seq<AccountId>, stake: Balance, calls: seq<Call>)
    returns (created: nat)
    requires Chain(SMALL, l, users, jurors, stake, calls)
    ensures Inv(SMALL, Run(SMALL, Start(SMALL, l, users, jurors, stake), calls), created)
  {
    hide Inv, Genesis, SoundGenesis, Run, Start;
    SafeFromGenesis(SMALL, l, users, jurors, stake, calls);
    RunKeeps(SMALL, Start(SMALL, l, users, jurors, stake), calls, 0);
    created := ProjectsMade(SMALL, Start(SMALL, l, users, jurors, stake), calls, 0);
  }

  // ---------- an enforcement drains another escrow ----------

  /**
    The client of the work under review posts a second project on the same money and loses a dispute
    about the first.
  */
  const SECOND: seq<Call> := [
    CreateProject(1, 100, "b", 10), CreateDispute(2, 0), SubmitRuling(0, FreelancerWins), NextBlock]

  const OTHER: Project := Project(1, None, "b", 100, Created, 10, None, None, None)
  const POSTED_TWICE: Stats := Worker(5).(projectsPosted := 2, totalSpent := 200, lastActivityBlock := 0)

  function Twin(now: BlockNumber, reserved: map<AccountId, Balance>, two: Balance, p: Project, arb: ArbStore): State {
    State(now,
          Ledger(map[1 := 100, 2 := two], reserved, map[(1, LockIdOf(0)) := 100, (1, LockIdOf(1)) := 100], 210),
          STAKED.rep.(stats := map[1 := POSTED_TWICE, 2 := Worker(0)]),
          ProjStore(map[0 := p, 1 := OTHER], 2, map[]),
          arb)
  }

  const NO_DISPUTES: ArbStore := ArbStore(map[], map[], map[], map[], map[])
  const DISPUTED: Project := SUBMITTED.(status := InDispute)

  function OneDispute(d: Dispute): ArbStore {
    ArbStore(map[0 := d], map[], map[0 := 2], map[0 := map[1 := Bond(2, 5)]], map[])
  }

  function TwoPosted(): State {
    Twin(0, map[1 := 100], 10, SUBMITTED, NO_DISPUTES)
  }

  function TwoDisputed(now: BlockNumber, d: Dispute): State {
    Twin(now, map[1 := 100, 2 := 5], 5, DISPUTED, OneDispute(d))
  }

  lemma SecondStep()
    ensures Apply(SMALL, Reviewed(), SECOND[0]) == Ok(TwoPosted())
  {
    hide LockIdOf;
    var t := Apply(SMALL, Reviewed(), SECOND[0]);
    assert t.Ok?;
    assert t.value.ledger.locks == TwoPosted().ledger.locks;
    assert t.value.rep.stats == TwoPosted().rep.stats;
    assert t.value.proj.projects == TwoPosted().proj.projects;
  }

  lemma FirstBond()
    ensures AfterReserve(TwoPosted().ledger, 2, 5) == Ok(TwoDisputed(0, ASKED).ledger)
  {
    hide LockIdOf;
    var l := TwoPosted().ledger;
    assert CoversLocks(l, 2, 5);
    hide CoversLocks;
    assert l.free[2 := 5] == map[1 := 100, 2 := 5] && l.reserved[2 := 5] == map[1 := 100, 2 := 5];
  }

  lemma DisputeSecond()
    ensures Apply(SMALL, TwoPosted(), SECOND[1]) == Ok(TwoDisputed(0, ASKED))
  {
    FirstBond();
    FirstPrices();
    hide LockIdOf, AfterReserve, AppealBond, ArbitrationCost;
    var t := Apply(SMALL, TwoPosted(), SECOND[1]);
    assert t.Ok?;
    assert t.value.proj.projects == TwoDisputed(0, ASKED).proj.projects;
    assert t.value.arb == OneDispute(ASKED);
  }

  lemma RuleSecond()
    ensures Apply(SMALL, TwoDisputed(0, ASKED), SECOND[2]) == Ok(TwoDisputed(0, RULED))
    ensures Apply(SMALL, TwoDisputed(0, RULED), SECOND[3]) == Ok(TwoDisputed(1, RULED))
  {
    hide LockIdOf;
    var t := Apply(SMALL, TwoDisputed(0, ASKED), SECOND[2]);
    assert t.Ok?;
    assert t.value.arb.disputes == map[0 := RULED];
  }

  lemma SecondRun()
    ensures Run(SMALL, Reviewed(), SECOND) == TwoDisputed(1, RULED)
  {
    SecondStep();
    DisputeSecond();
    RuleSecond();
    hide Apply, Reviewed, TwoPosted, TwoDisputed;
    var s := Reviewed();
    assert Run(SMALL, s, []) == s;
    hide Run;
    RunOn(SMALL, s, [], SECOND[..1], SECOND[0], s, TwoPosted());
    RunOn(SMALL, s, SECOND[..1], SECOND[..2], SECOND[1], TwoPosted(), TwoDisputed(0, ASKED));
    RunOn(SMALL, s, SECOND[..2], SECOND[..3], SECOND[2], TwoDisputed(0, ASKED), TwoDisputed(0, RULED));
    RunOn(SMALL, s, SECOND[..3], SECOND, SECOND[3], TwoDisputed(0, RULED), TwoDisputed(1, RULED));
  }

  lemma SecondChain()
    ensures Chain(SMALL, STAKED_LEDGER, STAKED_USERS, [1], 100, HIRING + SECOND)
    ensures Start(SMALL, STAKED_LEDGER, STAKED_USERS, [1], 100) == STAKED
    ensures Run(SMALL, STAKED, HIRING + SECOND) == TwoDisputed(1, RULED)
  {
    StakedGenesis();
    StakedSound();
    HiringRun();
    SecondRun();
    CreationsBounded(HIRING + SECOND);
    hide Genesis, SoundGenesis, Creations, Run, TwoDisputed, Reviewed;
    RunInTwo(SMALL, STAKED, HIRING, SECOND);
  }

  /** Paying the first budget leaves the other lock covered by the stake alone. */
  lemma StakeCoversOther()
    ensures var s := TwoDisputed(1, RULED);
      Payable(s, 0) && Payable(s, 1) && LiveProject(s, 1) && OtherLocksCovered(s, 0) && Releasable(s, 0)
  {
    if LockIdOf(0) == LockIdOf(1) {
      LockIdsInjective(0, 1);
    }
    hide LockIdOf;
  }

  /** The statistics of both parties fit: the freelancer is no juror, and the client keeps its tier. */
  lemma PartiesFit()
    ensures var s := TwoDisputed(1, RULED); var r := RepAfterRuling(SMALL, s, 0, FreelancerWins);
      && CompletionFits(SMALL, 1, s.rep, 2, 100)
      && OutcomeFits(SMALL, 1, r, 2, 1)
      && OutcomeStake(1, r, 2, 1) == 0
  {
    hide LockIdOf;
  }

  lemma NoRewards(a: AccountId)
    ensures SumMap<AccountId>(map[]) == 0
  {
  }

  /**
    A reachable enforcement that drains another escrow: the client's only free money pays the
    first project, its stake lets that past the lock of the second, which stays live, funded
    and unpayable.
  */
  lemma EnforcementDrainsOther()
    ensures Chain(SMALL, STAKED_LEDGER, STAKED_USERS, [1], 100, HIRING + SECOND)
    ensures var s := Run(SMALL, STAKED, HIRING + SECOND); var t := Step(SMALL, s, EnforceFinalRuling(2, 0));
      && Apply(SMALL, s, EnforceFinalRuling(2, 0)).Ok?
      && LiveProject(s, 1) && Payable(s, 1) && Drains(SMALL, s, EnforceFinalRuling(2, 0), 1)
      && LiveProject(t, 1) && !Payable(t, 1)
  {
    hide Inv, Apply, AfterEnforceFinalRuling, Chain, Run, Start, TwoDisputed, Payable, LiveProject, Drains;
    SecondChain();
    SecondSituation();
    var created := ChainEnds(STAKED_LEDGER, STAKED_USERS, [1], 100, HIRING + SECOND);
    SecondEnforced(created);
    StepPayableExactly(SMALL, TwoDisputed(1, RULED), EnforceFinalRuling(2, 0), 1, created);
    EnforcementOk(SMALL, TwoDisputed(1, RULED), EnforceFinalRuling(2, 0));
    SecondStaysLive();
  }

  lemma SecondReady()
    ensures var s := TwoDisputed(1, RULED);
      && Ready(SMALL, s, 0) && 0 in s.arb.disputes && s.arb.disputes[0].ruling.Some?
      && Prefix(s.arb.rewards, 0) == map[]
  {
    StakeCoversOther();
    PartiesFit();
    hide LockIdOf, Releasable, CompletionFits, OutcomeFits, RepAfterRuling;
  }

  lemma SecondSituation()
    ensures var s := TwoDisputed(1, RULED);
      LiveProject(s, 1) && Payable(s, 1) && Drains(SMALL, s, EnforceFinalRuling(2, 0), 1)
  {
    hide TwoDisputed, Payable, LiveProject, Drains;
    StakeCoversOther();
    SecondDrained();
  }

  lemma SecondEnforced(created: nat)
    requires Inv(SMALL, TwoDisputed(1, RULED), created)
    ensures Apply(SMALL, TwoDisputed(1, RULED), EnforceFinalRuling(2, 0)).Ok?
  {
    hide Inv, Apply, AfterEnforceFinalRuling, Ready, Collected, TwoDisputed, SumMap;
    SecondReady();
    NoRewards(0);
    EnforcementSucceedsExactly(SMALL, TwoDisputed(1, RULED), 0, created);
    EnforcementOk(SMALL, TwoDisputed(1, RULED), EnforceFinalRuling(2, 0));
  }

  lemma SecondDrained()
    ensures Drains(SMALL, TwoDisputed(1, RULED), EnforceFinalRuling(2, 0), 1)
  {
    PartiesFit();
    hide LockIdOf, CompletionFits, OutcomeFits, RepAfterRuling, CostsBorne, OutcomeStake;
  }

  lemma SecondStaysLive()
    requires AfterEnforceFinalRuling(SMALL, TwoDisputed(1, RULED), 0).Ok?
    ensures LiveProject(AfterEnforceFinalRuling(SMALL, TwoDisputed(1, RULED), 0).value, 1)
  {
    hide AfterEnforceFinalRuling, LockIdOf;
    var s := TwoDisputed(1, RULED);
    EnforceCase(SMALL, s, 0);
    var t := AfterEnforceFinalRuling(SMALL, s, 0).value;
    assert CaseOf(t, 1) == CaseOf(s, 1);
  }

  // ---------- a slash takes the budget ----------

  const LAVISH: seq<Call> := [CreateProject(1, 200, "a", 10)]

  function AllIn(): State {
    var poster := Worker(5).(projectsPosted := 1, totalSpent := 200, lastActivityBlock := 0);
    STAKED.(ledger := STAKED.ledger.(locks := map[(1, LockIdOf(0)) := 200]),
            rep := STAKED.rep.(stats := map[1 := poster, 2 := Worker(0)]),
            proj := ProjStore(map[0 := Project(1, None, "a", 200, Created, 10, None, None, None)], 1, map[]))
  }

  lemma LavishStep()
    ensures Apply(SMALL, STAKED, LAVISH[0]) == Ok(AllIn())
  {
    hide LockIdOf;
    var t := Apply(SMALL, STAKED, LAVISH[0]);
    assert t.Ok?;
    assert t.value.ledger.locks == AllIn().ledger.locks;
    assert t.value.rep.stats == AllIn().rep.stats;
    assert t.value.proj.projects == AllIn().proj.projects;
  }

  lemma LavishChain()
    ensures Chain(SMALL, STAKED_LEDGER, STAKED_USERS, [1], 100, LAVISH)
    ensures Start(SMALL, STAKED_LEDGER, STAKED_USERS, [1], 100) == STAKED
    ensures Run(SMALL, STAKED, LAVISH) == AllIn()
  {
    StakedGenesis();
    StakedSound();
    LavishStep();
    CreationsBounded(LAVISH);
    assert Run(SMALL, STAKED, []) == STAKED;
    hide Genesis, SoundGenesis, Creations, Apply, AllIn;
    RunOn(SMALL, STAKED, [], LAVISH, LAVISH[0], STAKED, AllIn());
  }

  lemma SlashGoesThrough()
    ensures var s := AllIn();
      && Apply(SMALL, s, SlashJuror(1)).Ok? && Apply(SMALL, s, SlashJuror(1)).value.proj == s.proj
      && LiveProject(s, 0) && Funded(s, 0) && Depletes(SMALL, s, SlashJuror(1), 0)
      && LiveProject(Apply(SMALL, s, SlashJuror(1)).value, 0)
  {
    hide LockIdOf;
  }

  /** A reachable slash that takes part of a budget: the client has locked its stake along with its free money. */
  lemma SlashDepletes()
    ensures Chain(SMALL, STAKED_LEDGER, STAKED_USERS, [1], 100, LAVISH)
    ensures var s := Run(SMALL, STAKED, LAVISH); var t := Step(SMALL, s, SlashJuror(1));
      LiveProject(s, 0) && Funded(s, 0) && LiveProject(t, 0) && !Funded(t, 0)
  {
    hide Inv, Apply, Chain, Run, Start, AllIn, Funded, LiveProject, Depletes;
    LavishChain();
    SlashGoesThrough();
    var created := ChainEnds(STAKED_LEDGER, STAKED_USERS, [1], 100, LAVISH);
    StepFundedExactly(SMALL, AllIn(), SlashJuror(1), 0, created);
  }
}
