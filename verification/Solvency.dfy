/**
  Can a dispute pay its jurors? What the appeal bonds cover, when the collected costs suffice,
  and what an enforcement pays over a whole run.
*/
module Solvency {
  import opened Prelude
  import opened Types
  import opened Currency
  import opened Reputation
  import opened JurorIndex
  import opened Projects
  import opened Arbitration
  import opened Settlement
  import opened FeeTheorems
  import opened DisputeProtocol
  import opened DisputeCalls
  import opened Escrow
  import opened ReserveLedger
  import opened System
  import opened ChainInvariant
  import opened ChainSafety
  import opened DisputeHistory
  import opened DisputeRuns
  import opened HoldingsTheorems
  import opened Enforceability

  /** The party posted the bond of an appeal round. */
  ghost predicate Appealed2Or3(bonds: map<nat, Bond>, who: AccountId) {
    PostedBy(bonds, 2, who) || PostedBy(bonds, 3, who)
  }

  lemma BondWithin(bonds: map<nat, Bond>, round: nat, who: AccountId)
    requires PostedBy(bonds, round, who)
    ensures bonds[round].amount <= OwnedIn(bonds, who)
  {
    OwnedWithout(bonds, round, who);
  }

  /** In a reachable state, a party that appealed at least once has bonds worth all the costs. */
  lemma AppealBondsCover(cfg: Config, s: State, id: ProjectId, who: AccountId)
    requires AllCases(cfg, s) && id in s.arb.disputes && s.arb.disputes[id].status != Finalized
    requires id in s.proj.projects && Affordable(cfg, s.proj.projects[id].budget)
    requires Appealed2Or3(Prefix(s.arb.bonds, id), who)
    ensures Get(s.arb.costs, id) <= OwnedIn(Prefix(s.arb.bonds, id), who)
  {
    hide AllCases, CostsTo, FeesOk, RewardsOk, BondOf, Affordable;
    OpenCase(cfg, s, id);
    var p, d, bonds := s.proj.projects[id], s.arb.disputes[id], Prefix(s.arb.bonds, id);
    var r := if PostedBy(bonds, 2, who) then 2 else 3;
    BondWithin(bonds, r, who);
    AppealBondCoversCosts(cfg, p.budget, r, d.round);
    assert CaseOf(s, id).cost == Some(CostsTo(cfg, p.budget, d.round));
  }

  lemma OwnedForfeited(bonds: map<nat, Bond>, winner: AccountId, loser: AccountId)
    requires winner != loser
    requires forall r :: r in bonds ==> bonds[r].owner == winner || bonds[r].owner == loser
    ensures Forfeited(bonds, winner) == OwnedIn(bonds, loser)
  {
    TwoOwners(bonds, winner, loser);
  }

  lemma PartiesEarnNothing(cfg: Config, s: State, id: ProjectId, who: AccountId)
    requires AllCases(cfg, s) && id in s.arb.disputes && s.arb.disputes[id].status != Finalized
    requires id in s.proj.projects && IsParty(s.proj.projects[id], who)
    ensures who !in Prefix(s.arb.rewards, id) && who != cfg.arbitrator
  {
    hide AllCases, CostsTo, BondsOk, EarnedCap;
    OpenCase(cfg, s, id);
  }

  /** A loser who appealed pays with the bonds alone: the settlement never touches the free balance. */
  lemma AppealingLoserPaysBonds(cfg: Config, s: State, id: ProjectId, created: nat)
    returns (winner: AccountId, loser: AccountId)
    requires Inv(cfg, s, created) && AfterEnforceFinalRuling(cfg, s, id).Ok?
    requires var p, d := s.proj.projects[id], s.arb.disputes[id];
      id in s.proj.projects && id in s.arb.disputes && p.freelancer.Some? && d.ruling.Some?
      && p.client != p.freelancer.value && Affordable(cfg, p.budget)
      && Appealed2Or3(Prefix(s.arb.bonds, id), LosingParty(d.ruling.value, p.client, p.freelancer.value))
    ensures var p, ruling, bonds := s.proj.projects[id], s.arb.disputes[id].ruling.value, Prefix(s.arb.bonds, id);
      && loser == LosingParty(ruling, p.client, p.freelancer.value)
      && winner == WinningParty(ruling, p.client, p.freelancer.value)
      && (var l := AfterEnforceFinalRuling(cfg, s, id).value.ledger;
          && Holdings(l, loser) == Holdings(s.ledger, loser) + Payout(p, ruling, loser) - OwnedIn(bonds, loser)
          && Holdings(l, winner) == Holdings(s.ledger, winner) + Payout(p, ruling, winner))
  {
    hide AfterEnforceFinalRuling, AllCases, IndexOk, ReservesExact, EscrowOk, IdsOk, Affordable, EnforceStages;
    var remainder;
    winner, loser, remainder := EnforcementPays(cfg, s, id, created);
    EnforceCase(cfg, s, id);
    AppealBondsCover(cfg, s, id, loser);
    var w, l, site, ledger := EnforceSucceeded(cfg, s, id);
    StagesStart(cfg, s, id, AfterEnforceFinalRuling(cfg, s, id).value, w, l, site, ledger);
    SettlementParties(cfg, s, id, w, l, site);
    EnforcedParties(cfg, s, id, AfterEnforceFinalRuling(cfg, s, id).value, w, l, site, ledger);
    OwnedForfeited(Prefix(s.arb.bonds, id), winner, loser);
    PartiesEarnNothing(cfg, s, id, winner);
    PartiesEarnNothing(cfg, s, id, loser);
    hide Payout, LosingParty, WinningParty, OwnedIn, Forfeited;
  }

  lemma EnforcedParties(cfg: Config, s: State, id: ProjectId, t: State, winner: AccountId, loser: AccountId,
                        site: ProjWorld, ledger: Ledger)
    requires EnforceStages(cfg, s, id, t, winner, loser, site, ledger)
    ensures id in s.proj.projects && s.proj.projects[id].freelancer.Some?
    ensures id in s.arb.disputes && s.arb.disputes[id].ruling.Some?
    ensures var p, ruling := s.proj.projects[id], s.arb.disputes[id].ruling.value;
      && winner == WinningParty(ruling, p.client, p.freelancer.value)
      && loser == LosingParty(ruling, p.client, p.freelancer.value)
  {
    hide AfterOnRuling, AfterPayouts, AfterDisputeOutcome;
  }

  // ---------- paying the jurors ----------

  /** Juries small enough to be paid from the costs: five jurors, or a Silver one for two Bronze up to twelve. */
  predicate JuriesPayable(round: nat, decisions: seq<Decision>) {
    && (round == 2 && |decisions| == 2 ==> decisions[1].voters <= 5)
    && (round == 3 && |decisions| == 3 ==> decisions[1].voters + 2 * decisions[2].voters <= 12)
  }

  lemma AwardsUpTo(decisions: seq<Decision>)
    ensures |decisions| == 1 ==> TotalAward(decisions) == decisions[0].award
    ensures |decisions| == 2 ==> TotalAward(decisions) == decisions[0].award + decisions[1].award
    ensures |decisions| == 3 ==> TotalAward(decisions) == decisions[0].award + decisions[1].award + decisions[2].award
  {
    if |decisions| == 2 {
      AwardsUpTo(decisions[..1]);
    } else if |decisions| == 3 {
      AwardsUpTo(decisions[..2]);
    }
  }

  /** The awards of payable juries never exceed the accumulated costs. */
  lemma AwardsWithinCosts(cfg: Config, p: Project, decisions: seq<Decision>)
    requires Affordable(cfg, p.budget) && 1 <= |decisions| <= 3
    requires AwardsBounded(cfg, p, decisions) && JuriesPayable(|decisions|, decisions)
    ensures TotalAward(decisions) <= CostsTo(cfg, p.budget, |decisions|)
  {
    hide TopReward, CostsTo, Affordable;
    AwardsUpTo(decisions);
    assert decisions[0].award <= decisions[0].voters * TopReward(cfg, p.budget, 1) && decisions[0].voters == 0;
    if |decisions| == 2 {
      SecondRoundPays(cfg, p.budget, decisions[1].voters);
    } else if |decisions| == 3 {
      ThirdRoundPays(cfg, p.budget, decisions[1].voters, decisions[2].voters);
    }
  }

  lemma RewardsWithinCosts(cfg: Config, s: State, id: ProjectId, h: History)
    requires AllCases(cfg, s) && HistoryOk(cfg, CaseOf(s, id), h)
    requires id in s.arb.disputes && s.arb.disputes[id].status == Appealable
    requires id in s.proj.projects && Affordable(cfg, s.proj.projects[id].budget)
    requires JuriesPayable(s.arb.disputes[id].round, h.decisions)
    ensures SumMap(Prefix(s.arb.rewards, id)) == TotalAward(h.decisions)
    ensures TotalAward(h.decisions) <= Get(s.arb.costs, id)
  {
    hide AllCases, CostsTo, FeesOk, RewardsOk, BondsOk, Affordable;
    hide AwardsBounded, AppealsByLosers, BondsFollow, TotalAward, SumMap, ProjectOk;
    hide JuriesPayable;
    OpenCase(cfg, s, id);
    var p, d := s.proj.projects[id], s.arb.disputes[id];
    assert CaseOf(s, id).cost == Some(CostsTo(cfg, p.budget, d.round));
    assert |h.decisions| == d.round;
    AwardsWithinCosts(cfg, p, h.decisions);
  }

  /** A loser who appealed never owes more than the bonds. */
  lemma AppealingLoserPays(cfg: Config, s: State, id: ProjectId, ruling: Ruling)
    requires AllCases(cfg, s) && id in s.arb.disputes && s.arb.disputes[id].status != Finalized
    requires id in s.proj.projects && s.proj.projects[id].freelancer.Some?
    requires var p := s.proj.projects[id];
      && p.client != p.freelancer.value && Affordable(cfg, p.budget)
      && Appealed2Or3(Prefix(s.arb.bonds, id), LosingParty(ruling, p.client, p.freelancer.value))
    ensures LoserPays(cfg, s, id, ruling) && CostsBorne(cfg, s, id, ruling) == 0
  {
    var p := s.proj.projects[id];
    AppealBondsCover(cfg, s, id, LosingParty(ruling, p.client, p.freelancer.value));
    hide AllCases, FreeAtSettlement, LockedAtSettlement, OwnedIn;
  }

  /**
    With an affordable budget, payable juries and a loser who can bear the costs, there is money
    for every juror, and the enforcement succeeds exactly under its other guards.
  */
  lemma SettlementSolvent(cfg: Config, s: State, id: ProjectId, h: History, created: nat)
    requires Inv(cfg, s, created) && HistoryOk(cfg, CaseOf(s, id), h)
    requires id in s.arb.disputes && s.arb.disputes[id].status == Appealable
    requires id in s.proj.projects && Affordable(cfg, s.proj.projects[id].budget)
    requires JuriesPayable(s.arb.disputes[id].round, h.decisions)
    ensures s.arb.disputes[id].ruling.Some? && s.proj.projects[id].freelancer.Some?
    ensures var ruling := s.arb.disputes[id].ruling.value;
      LoserPays(cfg, s, id, ruling) ==>
        && SumMap(Prefix(s.arb.rewards, id)) <= Collected(cfg, s, id, ruling)
        && (AfterEnforceFinalRuling(cfg, s, id).Ok? <==> Ready(cfg, s, id))
  {
    hide AllCases, HistoryOk, Affordable, JuriesPayable, CaseOf, EscrowOk, ReservesExact, IndexOk, MoneyOk, IdsOk;
    RewardsWithinCosts(cfg, s, id, h);
    RulingAndParties(cfg, s, id);
    EnforcementSucceedsExactly(cfg, s, id, created);
    hide Ready, AfterEnforceFinalRuling, LoserPays, Slashed, SumMap, TotalAward;
  }

  lemma RulingAndParties(cfg: Config, s: State, id: ProjectId)
    requires AllCases(cfg, s) && id in s.arb.disputes && s.arb.disputes[id].status == Appealable
    ensures id in s.proj.projects && s.arb.disputes[id].ruling.Some? && s.proj.projects[id].freelancer.Some?
  {
    hide AllCases, BondsOk, FeesOk, RewardsOk, CostsTo, ProjectOk;
    OpenCase(cfg, s, id);
  }

  /** In particular when the loser has appealed. */
  lemma AppealedSettlementSolvent(cfg: Config, s: State, id: ProjectId, h: History, created: nat)
    requires Inv(cfg, s, created) && HistoryOk(cfg, CaseOf(s, id), h)
    requires id in s.arb.disputes && s.arb.disputes[id].status == Appealable && s.arb.disputes[id].ruling.Some?
    requires id in s.proj.projects && Affordable(cfg, s.proj.projects[id].budget)
    requires JuriesPayable(s.arb.disputes[id].round, h.decisions)
    requires var p, ruling := s.proj.projects[id], s.arb.disputes[id].ruling.value;
      && p.freelancer.Some? && p.client != p.freelancer.value
      && Appealed2Or3(Prefix(s.arb.bonds, id), LosingParty(ruling, p.client, p.freelancer.value))
    ensures AfterEnforceFinalRuling(cfg, s, id).Ok? <==> Ready(cfg, s, id)
  {
    hide AllCases, HistoryOk, Affordable, JuriesPayable, CaseOf, EscrowOk, ReservesExact, IndexOk, MoneyOk, IdsOk;
    hide Ready, AfterEnforceFinalRuling, LoserPays, Appealed2Or3;
    AppealingLoserPays(cfg, s, id, s.arb.disputes[id].ruling.value);
    SettlementSolvent(cfg, s, id, h, created);
  }

  /** Juries this small are payable in any dispute. */
  lemma SmallJuriesPayable(cfg: Config, p: Project, decisions: seq<Decision>)
    requires AwardsBounded(cfg, p, decisions)
    requires |decisions| == 2 ==> cfg.minJurors <= 5
    requires |decisions| == 3 ==> cfg.minJurors + 2 * cfg.maxJurors <= 12
    ensures JuriesPayable(|decisions|, decisions)
  {
    hide TopReward;
  }

  // ---------- over a run ----------

  /**
    What the jurors of an enforced dispute receive is exactly what the run's rounds awarded:
    base fee per voter and bonus per majority voter, each account outside the dispute its own
    recorded share, and nothing else.
  */
  lemma JurorsPaidTheirAwards(cfg: Config, s: State, calls: seq<Call>, id: ProjectId, created: nat)
    requires SafeRun(cfg, s, calls, created) && id !in s.arb.disputes
    requires AfterEnforceFinalRuling(cfg, Run(cfg, s, calls), id).Ok?
    ensures var r := Run(cfg, s, calls); var rewards := Prefix(r.arb.rewards, id);
      && id in r.proj.projects
      && SumMap(rewards) == TotalAward(HistoryOf(cfg, s, calls, id).decisions)
      && forall a :: a != cfg.arbitrator && !IsParty(r.proj.projects[id], a) ==>
           Holdings(AfterEnforceFinalRuling(cfg, r, id).value.ledger, a) == Holdings(r.ledger, a) + Get(rewards, a)
  {
    hide Inv, Apply, AfterEnforceFinalRuling, Extended, AppealsByLosers, AwardsBounded;
    hide BondsFollow, TotalAward, SumMap, Holdings, IsParty;
    HistoryAlwaysOk(cfg, s, calls, id, created);
    RunKeeps(cfg, s, calls, created);
    var r := Run(cfg, s, calls);
    EnforceCase(cfg, r, id);
    forall a | a != cfg.arbitrator && !IsParty(r.proj.projects[id], a)
      ensures Holdings(AfterEnforceFinalRuling(cfg, r, id).value.ledger, a)
           == Holdings(r.ledger, a) + Get(Prefix(r.arb.rewards, id), a)
    {
      BystandersOfEnforcement(cfg, r, id, ProjectsMade(cfg, s, calls, created), a);
    }
  }
}
