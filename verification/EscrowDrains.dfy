/**
  Exactly which calls put the budget of a live project out of its client's reach: payments to
  others, work accepted elsewhere, and enforcements the client loses. Exactly which calls
  take it out of the client's holdings, and what a client with nothing reserved is safe from.
*/
module EscrowDrains {
  import opened Prelude
  import opened Types
  import opened Currency
  import opened Reputation
  import opened JurorIndex
  import opened Projects
  import opened Arbitration
  import opened Settlement
  import opened DisputeProtocol
  import opened DisputeCalls
  import opened Money
  import opened Escrow
  import opened ReserveLedger
  import opened System
  import opened ChainInvariant
  import opened ChainSafety
  import opened HoldingsTheorems
  import opened EscrowRuns
  import opened EscrowFunding
  import opened EscrowPayable
  import opened Enforceability
  import opened Solvency

  // ---------- free balances in an enforcement ----------

  /** A dispute with a ruling to enforce. */
  predicate Decided(s: State, j: ProjectId) {
    && j in s.arb.disputes && s.arb.disputes[j].ruling.Some?
    && j in s.proj.projects && s.proj.projects[j].freelancer.Some?
  }

  function LoserOf(s: State, j: ProjectId): AccountId
    requires Decided(s, j)
  {
    LosingParty(s.arb.disputes[j].ruling.value, s.proj.projects[j].client, s.proj.projects[j].freelancer.value)
  }

  function WinnerOf(s: State, j: ProjectId): AccountId
    requires Decided(s, j)
  {
    WinningParty(s.arb.disputes[j].ruling.value, s.proj.projects[j].client, s.proj.projects[j].freelancer.value)
  }

  /** The loser's free balance after an enforcement: ruling, bonds and costs, and the outcome on the books. */
  ghost function LoserFreeAfter(cfg: Config, s: State, j: ProjectId): int
    requires Decided(s, j)
  {
    var ruling := s.arb.disputes[j].ruling.value;
    FreeAtSettlement(cfg, s, j, ruling) + Returned(s, j) - CostsBorne(cfg, s, j, ruling)
    + OutcomeStake(s.now, RepAfterRuling(cfg, s, j, ruling), WinnerOf(s, j), LoserOf(s, j))
  }

  /** The stages of an enforcement that succeeded, seen from the free balances. */
  ghost predicate FreeStages(cfg: Config, s: State, t: State, j: ProjectId, site: Ledger, paid: Ledger) {
    && Decided(s, j)
    && (var ruling, winner, loser := s.arb.disputes[j].ruling.value, WinnerOf(s, j), LoserOf(s, j);
        var bonds, rewards := Prefix(s.arb.bonds, j), Prefix(s.arb.rewards, j);
        && Free(site, loser) == FreeAtSettlement(cfg, s, j, ruling)
        && (forall a :: a != loser ==> Free(site, a) >= Free(s.ledger, a))
        && SettlementFrees(cfg, site, paid, bonds, rewards, winner, loser, CostsBorne(cfg, s, j, ruling))
        && (winner == loser ==> OwnedIn(bonds, winner) == Returned(s, j))
        && (winner != loser ==> Returned(s, j) == 0)
        && loser !in rewards && loser != cfg.arbitrator
        && Releases(paid, t.ledger)
        && Free(t.ledger, loser)
           == Free(paid, loser) + OutcomeStake(s.now, RepAfterRuling(cfg, s, j, ruling), winner, loser))
  }

  lemma StagesFound(cfg: Config, s: State, j: ProjectId, created: nat) returns (site: Ledger, paid: Ledger)
    requires Inv(cfg, s, created) && AfterEnforceFinalRuling(cfg, s, j).Ok?
    ensures FreeStages(cfg, s, AfterEnforceFinalRuling(cfg, s, j).value, j, site, paid)
  {
    hide AfterEnforceFinalRuling, AfterOnRuling, AfterPayouts, AfterDisputeOutcome, AllCases, IndexOk, EscrowOk;
    hide ReservesExact, IdsOk, MoneyOk, JuryOk, Collected, CostsBorne, FreeAtSettlement, OutcomeStake, RepAfterRuling;
    hide RulingFits, SiteMoney, SettlementFrees, Releases;
    var t := AfterEnforceFinalRuling(cfg, s, j).value;
    var winner, loser, world, ledger := EnforceSucceeded(cfg, s, j);
    site, paid := world.ledger, ledger;
    StagesStart(cfg, s, j, t, winner, loser, world, ledger);
    SettlementParties(cfg, s, j, winner, loser, world);
    OnTrial(cfg, s, j, winner, loser, world);
    PartiesEarnNothing(cfg, s, j, loser);
    SettlementExactly(cfg, s, j, winner, loser, world, created);
    LoserAtSite(cfg, s, j, winner, loser, world, created);
    RulingExactly(cfg, s, j, s.arb.disputes[j].ruling.value);
    forall a | a != loser ensures Free(site, a) >= Free(s.ledger, a) {
      OnRulingSpares(cfg, s, j, s.arb.disputes[j].ruling.value, a);
    }
    PaidOutJury(cfg, s, j, t, winner, loser, world, ledger, created);
    OutcomeFrees(cfg, s.now, RepWorld(ledger, world.rep), winner, loser);
    OutcomeReleases(cfg, s.now, RepWorld(ledger, world.rep), winner, loser);
  }

  lemma OnTrial(cfg: Config, s: State, j: ProjectId, winner: AccountId, loser: AccountId, site: ProjWorld)
    requires RulingStage(cfg, s, j, winner, loser, site)
    ensures Decided(s, j) && s.arb.disputes[j].status != Finalized
    ensures winner == WinnerOf(s, j) && loser == LoserOf(s, j) && IsParty(s.proj.projects[j], loser)
  {
    hide AfterOnRuling;
  }

  lemma LoserAtSite(cfg: Config, s: State, j: ProjectId, winner: AccountId, loser: AccountId, site: ProjWorld,
                    created: nat)
    requires Inv(cfg, s, created) && RulingStage(cfg, s, j, winner, loser, site)
    ensures Free(site.ledger, loser) == FreeAtSettlement(cfg, s, j, s.arb.disputes[j].ruling.value)
  {
    hide Inv, AfterOnRuling, FreeAtSettlement, LockedAtSettlement;
    SiteMoneyHolds(cfg, s, j, winner, loser, site, created);
  }

  /** An enforcement leaves the loser exactly this much free money, and nobody else has less than before. */
  lemma EnforcementLeaves(cfg: Config, s: State, j: ProjectId, created: nat, a: AccountId)
    requires Inv(cfg, s, created) && AfterEnforceFinalRuling(cfg, s, j).Ok? && a != cfg.arbitrator
    ensures Decided(s, j)
    ensures var t := AfterEnforceFinalRuling(cfg, s, j).value;
      && (a == LoserOf(s, j) ==> Free(t.ledger, a) == LoserFreeAfter(cfg, s, j))
      && (a != LoserOf(s, j) ==> Free(t.ledger, a) >= Free(s.ledger, a))
  {
    hide Inv, AfterEnforceFinalRuling, FreeAtSettlement, CostsBorne, Returned, OutcomeStake, RepAfterRuling, OwnedIn;
    hide LoserOf, WinnerOf;
    var site, paid := StagesFound(cfg, s, j, created);
    assert Free(AfterEnforceFinalRuling(cfg, s, j).value.ledger, a) >= Free(paid, a);
  }

  // ---------- one call ----------

  /** A call that leaves the client of project `id` less free money than its budget. */
  ghost predicate Drains(cfg: Config, s: State, c: Call, id: ProjectId) {
    && id in s.proj.projects
    && (var client, budget := s.proj.projects[id].client, s.proj.projects[id].budget;
        match c
        case Transfer(who, dst, amount) => who == client && dst != client && amount + budget > Free(s.ledger, client)
        case AcceptWork(who, j, _) =>
          && who == client && j in s.proj.projects && s.proj.projects[j].freelancer != Some(client)
          && s.proj.projects[j].budget + budget > Free(s.ledger, client)
        case EnforceFinalRuling(_, j) => Decided(s, j) && LoserOf(s, j) == client && budget > LoserFreeAfter(cfg, s, j)
        case _ => false)
  }

  /** A call other than an enforcement, against a budget that is locked. */
  lemma LockedBudgetKept(cfg: Config, s: State, c: Call, id: ProjectId, created: nat)
    requires Inv(cfg, s, created) && WellFormed(cfg, c) && !c.EnforceFinalRuling? && Apply(cfg, s, c).Ok?
    requires LiveProject(s, id) && Payable(s, id) && s.proj.projects[id].budget > 0
    ensures s.proj.projects[id].budget <= Free(Apply(cfg, s, c).value.ledger, s.proj.projects[id].client)
       <==> !Drains(cfg, s, c, id)
  {
    hide AllCases, EscrowOk, ReservesExact, IndexOk, MoneyOk, LockIdOf, Backed;
    var client, budget := s.proj.projects[id].client, s.proj.projects[id].budget;
    LiveBacked(s, id);
    if c.AcceptWork? {
      hide Apply;
      AcceptFree(cfg, s, c, client);
    } else if IsProjectCall(c) {
      hide Apply;
      OtherProjectCallsSpare(cfg, s, c, client);
    } else if IsReputationCall(c) {
      hide Apply;
      ReputationCallsSpareLock(cfg, s, c, (client, LockIdOf(id)), budget);
    } else if IsArbitrationCall(c) {
      hide Apply;
      DisputeCallsSpareLock(cfg, s, c, (client, LockIdOf(id)), budget);
    } else if c.Transfer? {
      TransferLeaves(s.ledger, c.who, c.dst, c.amount);
      if c.who != client {
        TransferGives(s.ledger, c.who, c.dst, c.amount, client);
      }
    }
  }


  /** Nothing can be short of a budget of zero. */
  lemma NoBudgetNoDrain(cfg: Config, s: State, c: Call, id: ProjectId, created: nat)
    requires Inv(cfg, s, created) && Apply(cfg, s, c).Ok?
    requires id in s.proj.projects && s.proj.projects[id].budget == 0
    ensures !Drains(cfg, s, c, id)
  {
    hide Inv, Apply, LoserFreeAfter, LoserOf;
    var client := s.proj.projects[id].client;
    ClientIsNotPallet(cfg, s, id, created);
    match c {
      case Transfer(who, dst, amount) => PaidFromFree(cfg, s, c);
      case AcceptWork(_, _, _) => AcceptFree(cfg, s, c, client);
      case EnforceFinalRuling(_, j) => EnforcementOk(cfg, s, c); EnforcementLeaves(cfg, s, j, created, client);
      case _ =>
    }
  }

  lemma PaidFromFree(cfg: Config, s: State, c: Call)
    requires c.Transfer? && Apply(cfg, s, c).Ok?
    ensures c.dst != c.who ==> c.amount <= Free(s.ledger, c.who)
  {
  }

  lemma EnforcementOk(cfg: Config, s: State, c: Call)
    requires c.EnforceFinalRuling?
    ensures Apply(cfg, s, c) == AfterEnforceFinalRuling(cfg, s, c.id)
  {
  }

  /**
    One call, enforcements included: the payable budget of a live project stays payable exactly
    unless the call drains it.
  */
  lemma StepPayableExactly(cfg: Config, s: State, c: Call, id: ProjectId, created: nat)
    requires Inv(cfg, s, created) && WellFormed(cfg, c)
    requires c.CreateProject? ==> created < PROJECT_IDS
    requires Apply(cfg, s, c).Ok?
    requires LiveProject(s, id) && Payable(s, id)
    ensures Payable(Apply(cfg, s, c).value, id) <==> !Drains(cfg, s, c, id)
  {
    hide Inv, Apply, TermsKept, NextStatus, LoserFreeAfter, LoserOf;
    StepTerms(cfg, s, c, id, created);
    SameTerms(s.proj.projects[id], Step(cfg, s, c).proj.projects[id]);
    if s.proj.projects[id].budget == 0 {
      NoBudgetNoDrain(cfg, s, c, id, created);
    } else if c.EnforceFinalRuling? {
      ClientIsNotPallet(cfg, s, id, created);
      EnforcementOk(cfg, s, c);
      EnforcementLeaves(cfg, s, c.id, created, s.proj.projects[id].client);
    } else {
      LockedBudgetKept(cfg, s, c, id, created);
    }
  }

  // ---------- runs ----------

  /** No call of the run that succeeds drains the budget. */
  ghost predicate NeverDrained(cfg: Config, s: State, calls: seq<Call>, id: ProjectId) {
    forall i :: 0 <= i < |calls| && Apply(cfg, Run(cfg, s, calls[..i]), calls[i]).Ok? ==>
      !Drains(cfg, Run(cfg, s, calls[..i]), calls[i], id)
  }

  /** The budget can be paid at every point of the run. */
  ghost predicate PayableThroughout(cfg: Config, s: State, calls: seq<Call>, id: ProjectId) {
    forall i :: 0 <= i <= |calls| ==> Payable(Run(cfg, s, calls[..i]), id)
  }

  lemma DrainedAtLast(cfg: Config, s: State, calls: seq<Call>, id: ProjectId)
    requires calls != []
    ensures var n := |calls| - 1; var r := Run(cfg, s, calls[..n]);
      NeverDrained(cfg, s, calls, id) <==>
        NeverDrained(cfg, s, calls[..n], id) && (Apply(cfg, r, calls[n]).Ok? ==> !Drains(cfg, r, calls[n], id))
  {
    hide Run, Apply, Drains;
    var n := |calls| - 1;
    assert forall i :: 0 <= i < n ==> calls[..n][..i] == calls[..i] && calls[..n][i] == calls[i];
  }

  lemma PayableAtLast(cfg: Config, s: State, calls: seq<Call>, id: ProjectId)
    requires calls != []
    ensures PayableThroughout(cfg, s, calls, id) <==>
      PayableThroughout(cfg, s, calls[..|calls| - 1], id) && Payable(Run(cfg, s, calls), id)
    ensures PayableThroughout(cfg, s, calls, id) ==> Payable(Run(cfg, s, calls[..|calls| - 1]), id)
  {
    hide Run, Payable;
    var n := |calls| - 1;
    assert forall i :: 0 <= i <= n ==> calls[..n][..i] == calls[..i];
    assert calls[..|calls|] == calls;
    if PayableThroughout(cfg, s, calls[..n], id) && Payable(Run(cfg, s, calls), id) {
      forall i | 0 <= i <= |calls| ensures Payable(Run(cfg, s, calls[..i]), id) {
        if i <= n {
          assert Payable(Run(cfg, s, calls[..n][..i]), id);
        }
      }
    }
  }

  /** Over a whole run: the budget of a project that stays live is payable all along exactly if no call drains it. */
  lemma {:induction false} RunPayableExactly(cfg: Config, s: State, calls: seq<Call>, id: ProjectId, created: nat)
    requires SafeRun(cfg, s, calls, created) && LiveProject(s, id) && Payable(s, id)
    requires LiveProject(Run(cfg, s, calls), id)
    ensures PayableThroughout(cfg, s, calls, id) <==> NeverDrained(cfg, s, calls, id)
  {
    if calls == [] {
      assert Run(cfg, s, calls[..0]) == s;
    } else {
      hide Inv, Apply, Drains, Payable, PayableThroughout, NeverDrained;
      var init := calls[..|calls| - 1];
      LastStep(cfg, s, calls, created);
      LiveBefore(cfg, s, calls, id, created);
      RunPayableExactly(cfg, s, init, id, created);
      DrainedAtLast(cfg, s, calls, id);
      PayableAtLast(cfg, s, calls, id);
      PayableAtEnd(cfg, s, init, id);
      var r, c := Run(cfg, s, init), calls[|calls| - 1];
      if PayableThroughout(cfg, s, init, id) && Apply(cfg, r, c).Ok? {
        StepPayableExactly(cfg, r, c, id, ProjectsMade(cfg, s, init, created));
      }
    }
  }

  lemma PayableAtEnd(cfg: Config, s: State, calls: seq<Call>, id: ProjectId)
    ensures PayableThroughout(cfg, s, calls, id) ==> Payable(Run(cfg, s, calls), id)
  {
    hide Run, Payable;
    assert calls[..|calls|] == calls;
  }

  // ---------- free and reserved together ----------

  /** A call that takes the budget of project `id` out of its client's holdings, free and reserved. */
  ghost predicate Depletes(cfg: Config, s: State, c: Call, id: ProjectId) {
    && id in s.proj.projects
    && (var client, budget := s.proj.projects[id].client, s.proj.projects[id].budget;
        match c
        case SlashJuror(juror) =>
          juror == client && budget > Holdings(s.ledger, client) - PermillOf(cfg.slashRatio, StakeOf(s.rep, client))
        case EnforceFinalRuling(_, j) =>
          Decided(s, j) && LoserOf(s, j) == client && budget > HoldingsAfter(cfg, s, j)
        case _ => false)
  }

  /** The loser's holdings after an enforcement: less the budget it owes, its slashed bonds and the costs it bears. */
  ghost function HoldingsAfter(cfg: Config, s: State, j: ProjectId): int
    requires Decided(s, j)
  {
    var ruling := s.arb.disputes[j].ruling.value;
    Holdings(s.ledger, LoserOf(s, j)) - PaidBefore(s.proj.projects[j], ruling) - Slashed(s, j, ruling)
    - CostsBorne(cfg, s, j, ruling)
  }

  lemma RemainderBorne(cfg: Config, s: State, j: ProjectId, created: nat)
    requires Inv(cfg, s, created) && AfterEnforceFinalRuling(cfg, s, j).Ok?
    ensures Decided(s, j) && IsParty(s.proj.projects[j], LoserOf(s, j))
    ensures RemainderOf(cfg, s, j) == CostsBorne(cfg, s, j, s.arb.disputes[j].ruling.value)
    ensures Slashed(s, j, s.arb.disputes[j].ruling.value)
         == if WinnerOf(s, j) == LoserOf(s, j) then 0 else OwnedIn(Prefix(s.arb.bonds, j), LoserOf(s, j))
    ensures LoserOf(s, j) !in Prefix(s.arb.rewards, j) && LoserOf(s, j) != cfg.arbitrator
  {
    hide AfterEnforceFinalRuling, AfterOnRuling, AfterPayouts, AfterDisputeOutcome, AllCases, IndexOk, EscrowOk;
    hide ReservesExact, IdsOk, MoneyOk, CostsPaid, CostsBorne, SiteMoney, ReservesCover, Unlocked, MoneyKept, OwnedIn;
    var t := AfterEnforceFinalRuling(cfg, s, j).value;
    var winner, loser, site, ledger := EnforceSucceeded(cfg, s, j);
    StagesStart(cfg, s, j, t, winner, loser, site, ledger);
    OnTrial(cfg, s, j, winner, loser, site);
    SettlementReady(cfg, s, j, winner, loser, site, created);
    SettlementParties(cfg, s, j, winner, loser, site);
    SiteMoneyHolds(cfg, s, j, winner, loser, site, created);
    RemainderExactly(cfg, s, j, s.arb.disputes[j].ruling.value, winner, loser, site.ledger);
    PartiesEarnNothing(cfg, s, j, loser);
  }

  /** Exact holdings of the loser of an enforcement; everybody else holds at least as much as before. */
  lemma EnforcementHolds(cfg: Config, s: State, j: ProjectId, created: nat, a: AccountId)
    requires Inv(cfg, s, created) && AfterEnforceFinalRuling(cfg, s, j).Ok? && a != cfg.arbitrator
    ensures Decided(s, j)
    ensures var t := AfterEnforceFinalRuling(cfg, s, j).value;
      && (a == LoserOf(s, j) ==> Holdings(t.ledger, a) == HoldingsAfter(cfg, s, j))
      && (a != LoserOf(s, j) ==> Holdings(t.ledger, a) >= Holdings(s.ledger, a))
  {
    hide Inv, AfterEnforceFinalRuling, OwnedIn, CostsBorne, Slashed, Holdings, Forfeited, AllOrNothing, RemainderOf;
    var winner, loser, remainder := EnforcementPays(cfg, s, j, created);
    RemainderBorne(cfg, s, j, created);
    if a != loser && a != winner {
      BystandersOfEnforcement(cfg, s, j, created, a);
    }
  }

  /** One call: a project that stays live stays funded exactly unless the call depletes its client. */
  lemma StepFundedExactly(cfg: Config, s: State, c: Call, id: ProjectId, created: nat)
    requires Inv(cfg, s, created) && WellFormed(cfg, c)
    requires c.CreateProject? ==> created < PROJECT_IDS
    requires Apply(cfg, s, c).Ok? && LiveProject(Apply(cfg, s, c).value, id)
    requires LiveProject(s, id) && Funded(s, id)
    ensures Funded(Apply(cfg, s, c).value, id) <==> !Depletes(cfg, s, c, id)
  {
    hide Inv, Apply, TermsKept, NextStatus, HoldingsAfter, LoserOf, PermillOf, Holdings;
    StepTerms(cfg, s, c, id, created);
    SameTerms(s.proj.projects[id], Step(cfg, s, c).proj.projects[id]);
    if c.EnforceFinalRuling? {
      ClientIsNotPallet(cfg, s, id, created);
      EnforcementOk(cfg, s, c);
      EnforcementHolds(cfg, s, c.id, created, s.proj.projects[id].client);
    } else if c.SlashJuror? {
      CallsPay(cfg, s, c, created);
    } else {
      StepStaysFunded(cfg, s, c, id, created);
    }
  }

  // ---------- nothing reserved ----------

  lemma RemovedLock(s: State, j: ProjectId, id: ProjectId, client: AccountId, k: (AccountId, LockId), budget: Balance)
    requires IdsInRange(s) && id in s.proj.projects && j in s.proj.projects && j != id
    requires k.1 == LockIdOf(id) && Backed(s.ledger, k, budget)
    ensures Backed(AfterRemoveLock(s.ledger, LockIdOf(j), client), k, budget)
  {
    if LockIdOf(j) == LockIdOf(id) {
      LockIdsInjective(j, id);
    }
    hide LockIdOf;
  }

  /** Carrying out a ruling on project `j` leaves the lock of another project backed. */
  lemma RulingSparesLock(cfg: Config, s: State, j: ProjectId, ruling: Ruling, id: ProjectId,
                         k: (AccountId, LockId), budget: Balance)
    requires IdsInRange(s) && id in s.proj.projects && j != id && k.1 == LockIdOf(id) && Backed(s.ledger, k, budget)
    requires AfterOnRuling(cfg, s.now, s.Site(), j, ruling).Ok?
    requires j in s.proj.projects && ruling == FreelancerWins && k.0 == s.proj.projects[j].client ==>
      Reserved(s.ledger, k.0) == 0
    ensures var m := AfterOnRuling(cfg, s.now, s.Site(), j, ruling).value.ledger;
      Backed(m, k, budget) && Reserved(m, k.0) <= Reserved(s.ledger, k.0)
  {
    hide LockIdOf, AfterProjectCompleted, AfterDisputeOutcome, AfterTransfer, Backed;
    var p := s.proj.projects[j];
    if ruling == FreelancerWins {
      RemovedLock(s, j, id, p.client, k, budget);
      var unlocked := AfterRemoveLock(s.ledger, LockIdOf(j), p.client);
      BackedTransfer(unlocked, p.client, p.freelancer.value, p.budget, k, budget);
      var l := AfterTransfer(unlocked, p.client, p.freelancer.value, p.budget).value;
      CompletionReleases(cfg, s.now, RepWorld(l, s.rep), p.freelancer.value, p.budget, 3000);
      BackedReleased(l, AfterProjectCompleted(cfg, s.now, RepWorld(l, s.rep), p.freelancer.value, p.budget,
                                              3000).value.ledger,
                     k, budget);
    } else {
      OutcomeReleases(cfg, s.now, World(s), p.client, p.freelancer.value);
      BackedReleased(s.ledger, AfterDisputeOutcome(cfg, s.now, World(s), p.client, p.freelancer.value).value.ledger,
                     k, budget);
    }
  }

  lemma BackedTransfer(l: Ledger, src: AccountId, dst: AccountId, amount: Balance, k: (AccountId, LockId),
                       budget: Balance)
    requires AfterTransfer(l, src, dst, amount).Ok? && Backed(l, k, budget)
    requires src == k.0 ==> Reserved(l, src) == 0
    ensures var m := AfterTransfer(l, src, dst, amount).value;
      Backed(m, k, budget) && m.reserved == l.reserved
  {
    hide AfterTransfer;
    TransferSparesLock(l, src, dst, amount, k);
  }

  lemma BackedReleased(l: Ledger, m: Ledger, k: (AccountId, LockId), budget: Balance)
    requires Releases(l, m) && Backed(l, k, budget)
    ensures Backed(m, k, budget) && Reserved(m, k.0) <= Reserved(l, k.0)
  {
    assert Free(m, k.0) >= Free(l, k.0);
  }

  /** The settlement takes free money from the loser only, through a transfer the locks guard. */
  lemma PayoutsSpareLock(cfg: Config, l: Ledger, arb: ArbStore, j: ProjectId, winner: AccountId, loser: AccountId,
                         k: (AccountId, LockId), budget: Balance)
    requires cfg.arbitrator !in Prefix(arb.rewards, j) && Unlocked(l, cfg.arbitrator)
    requires ReservesCover(l, Prefix(arb.bonds, j)) && Posted(Prefix(arb.bonds, j)) <= cfg.maxBalance
    requires AfterPayouts(cfg, l, arb, j, winner, loser).Ok?
    requires Backed(l, k, budget) && (loser == k.0 ==> Reserved(l, k.0) == 0)
    ensures budget <= Free(AfterPayouts(cfg, l, arb, j, winner, loser).value, k.0)
    ensures AfterPayouts(cfg, l, arb, j, winner, loser).value.locks == l.locks
  {
    var bonds, rewards, costs := Prefix(arb.bonds, j), Prefix(arb.rewards, j), Get(arb.costs, j);
    assert k in l.locks && k.0 != cfg.arbitrator;
    var purse := AfterBonds(cfg, l, bonds, winner);
    BondsMove(cfg, l, bonds, winner);
    OwnedAtMostPosted(bonds, winner);
    hide AfterBonds, AfterRewards, FoldSet, OwnedIn, Posted;
    assert Free(purse.ledger, k.0) >= Free(l, k.0) && Reserved(purse.ledger, k.0) <= Reserved(l, k.0);
    assert Backed(purse.ledger, k, budget);
    var funded := AfterCosts(cfg, purse, loser, costs);
    CostsSpareLock(cfg, purse, loser, costs, k, budget);
    hide AfterCosts, BondsMoved;
    assert Unlocked(funded, cfg.arbitrator);
    RewardsSettle(cfg, funded, rewards);
  }

  lemma CostsSpareLock(cfg: Config, u: Purse, loser: AccountId, costs: Balance, k: (AccountId, LockId), budget: Balance)
    requires Backed(u.ledger, k, budget) && (loser == k.0 ==> Reserved(u.ledger, k.0) == 0)
    ensures Backed(AfterCosts(cfg, u, loser, costs), k, budget)
    ensures AfterCosts(cfg, u, loser, costs).locks == u.ledger.locks
  {
    hide AfterTransfer, Backed;
    if costs > u.slashed && AfterTransfer(u.ledger, loser, cfg.arbitrator, costs - u.slashed).Ok? {
      TransferKeepsLocks(u.ledger, loser, cfg.arbitrator, costs - u.slashed);
      BackedTransfer(u.ledger, loser, cfg.arbitrator, costs - u.slashed, k, budget);
    }
  }

  lemma TransferKeepsLocks(l: Ledger, src: AccountId, dst: AccountId, amount: Balance)
    requires AfterTransfer(l, src, dst, amount).Ok?
    ensures AfterTransfer(l, src, dst, amount).value.locks == l.locks
  {
  }

  /**
    An enforcement of another project's dispute spares the budget of a client who does not lose it,
    or has nothing reserved.
  */
  lemma EnforceSparesLock(cfg: Config, s: State, j: ProjectId, id: ProjectId, created: nat)
    requires Inv(cfg, s, created) && AfterEnforceFinalRuling(cfg, s, j).Ok? && j != id
    requires LiveProject(s, id) && Payable(s, id) && s.proj.projects[id].budget > 0
    requires Decided(s, j) && LoserOf(s, j) == s.proj.projects[id].client ==>
      Reserved(s.ledger, s.proj.projects[id].client) == 0
    ensures s.proj.projects[id].budget
         <= Free(AfterEnforceFinalRuling(cfg, s, j).value.ledger, s.proj.projects[id].client)
  {
    hide LockIdOf, AfterEnforceFinalRuling, AfterOnRuling, AfterPayouts, AfterDisputeOutcome, AllCases, IndexOk;
    hide EscrowOk, ReservesExact, ReservesCover, Unlocked, StakesBacked, EveryJurorListed, SameSlack, Backed, MoneyOk;
    var t := AfterEnforceFinalRuling(cfg, s, j).value;
    var client, budget := s.proj.projects[id].client, s.proj.projects[id].budget;
    var k := (client, LockIdOf(id));
    LiveBacked(s, id);
    var winner, loser, site, ledger := EnforceSucceeded(cfg, s, j);
    StagesStart(cfg, s, j, t, winner, loser, site, ledger);
    OnTrial(cfg, s, j, winner, loser, site);
    RulingSparesLock(cfg, s, j, s.arb.disputes[j].ruling.value, id, k, budget);
    SettlementReady(cfg, s, j, winner, loser, site, created);
    SettlementParties(cfg, s, j, winner, loser, site);
    PayoutsSpareLock(cfg, site.ledger, s.arb, j, winner, loser, k, budget);
    OutcomeReleases(cfg, s.now, RepWorld(ledger, site.rep), winner, loser);
    assert Free(t.ledger, client) >= Free(ledger, client);
  }

  /** The calls that may take free money from an account. */
  predicate PaysFrom(s: State, c: Call, who: AccountId) {
    match c
    case Transfer(src, _, _) => src == who
    case AcceptWork(src, _, _) => src == who
    case EnforceFinalRuling(_, j) => Decided(s, j) && LoserOf(s, j) == who
    case _ => false
  }

  lemma UnreservedPaymentFits(cfg: Config, s: State, c: Call, id: ProjectId, created: nat)
    requires Inv(cfg, s, created) && !c.EnforceFinalRuling? && Apply(cfg, s, c).Ok?
    requires LiveProject(s, id) && Payable(s, id) && s.proj.projects[id].budget > 0
    requires c.AcceptWork? ==> c.id != id
    requires PaysFrom(s, c, s.proj.projects[id].client) ==> Reserved(s.ledger, s.proj.projects[id].client) == 0
    ensures !Drains(cfg, s, c, id)
  {
    hide LockIdOf, AllCases, EscrowOk, ReservesExact, IndexOk, MoneyOk;
    var client, budget := s.proj.projects[id].client, s.proj.projects[id].budget;
    var k := (client, LockIdOf(id));
    LiveBacked(s, id);
    if c.Transfer? && c.who == client {
      TransferSparesLock(s.ledger, client, c.dst, c.amount, k);
      TransferLeaves(s.ledger, client, c.dst, c.amount);
    } else if c.AcceptWork? && c.who == client {
      hide Backed, AfterProjectCompleted, AfterWorkAccepted, AfterTransfer;
      var q := s.proj.projects[c.id];
      RemovedLock(s, c.id, id, client, k, budget);
      var unlocked := AfterRemoveLock(s.ledger, LockIdOf(c.id), client);
      AcceptedTransfer(unlocked, client, q.freelancer.value, q.budget, k, budget);
    }
  }

  lemma AcceptedTransfer(l: Ledger, src: AccountId, dst: AccountId, amount: Balance, k: (AccountId, LockId),
                         budget: Balance)
    requires AfterTransfer(l, src, dst, amount).Ok? && Backed(l, k, budget) && src == k.0 && Reserved(l, src) == 0
    ensures src != dst ==> amount + budget <= Free(l, src)
  {
  }

  /** A call that leaves the project live drains no budget of a client with nothing reserved. */
  lemma UnreservedNeverDrains(cfg: Config, s: State, c: Call, id: ProjectId, created: nat)
    requires Inv(cfg, s, created) && WellFormed(cfg, c)
    requires c.CreateProject? ==> created < PROJECT_IDS
    requires Apply(cfg, s, c).Ok? && LiveProject(Apply(cfg, s, c).value, id)
    requires LiveProject(s, id) && Payable(s, id)
    requires PaysFrom(s, c, s.proj.projects[id].client) ==> Reserved(s.ledger, s.proj.projects[id].client) == 0
    ensures !Drains(cfg, s, c, id)
  {
    hide Inv, Apply, Drains, LoserOf;
    if s.proj.projects[id].budget == 0 {
      NoBudgetNoDrain(cfg, s, c, id, created);
    } else if c.EnforceFinalRuling? {
      EnforcementOk(cfg, s, c);
      EnforceClosesProject(cfg, s, c.id);
      EnforceSparesLock(cfg, s, c.id, id, created);
      StepPayableExactly(cfg, s, c, id, created);
      StepTerms(cfg, s, c, id, created);
      SameTerms(s.proj.projects[id], Step(cfg, s, c).proj.projects[id]);
    } else {
      if c.AcceptWork? {
        AcceptClosesProject(cfg, s, c);
      }
      UnreservedPaymentFits(cfg, s, c, id, created);
    }
  }

  lemma EnforceClosesProject(cfg: Config, s: State, j: ProjectId)
    requires AfterEnforceFinalRuling(cfg, s, j).Ok?
    ensures !LiveProject(AfterEnforceFinalRuling(cfg, s, j).value, j)
  {
    hide AfterEnforceFinalRuling;
    EnforceCase(cfg, s, j);
    var t := AfterEnforceFinalRuling(cfg, s, j).value;
    assert CaseOf(t, j).project == Some(s.proj.projects[j].(status := Completed));
  }

  /** Nothing of the account is reserved at any of its own payments in the run. */
  ghost predicate PaysUnreserved(cfg: Config, s: State, calls: seq<Call>, who: AccountId) {
    forall i :: 0 <= i < |calls| && PaysFrom(Run(cfg, s, calls[..i]), calls[i], who) ==>
      Reserved(Run(cfg, s, calls[..i]).ledger, who) == 0
  }

  lemma UnreservedBefore(cfg: Config, s: State, calls: seq<Call>, who: AccountId)
    requires PaysUnreserved(cfg, s, calls, who) && calls != []
    ensures var n := |calls| - 1; var r := Run(cfg, s, calls[..n]);
      && PaysUnreserved(cfg, s, calls[..n], who)
      && (PaysFrom(r, calls[n], who) ==> Reserved(r.ledger, who) == 0)
  {
    hide Run, PaysFrom;
    var n := |calls| - 1;
    assert forall i :: 0 <= i < n ==> calls[..n][..i] == calls[..i];
    assert forall i :: 0 <= i < n ==> calls[..n][i] == calls[i];
  }

  /**
    Over a whole run, a client with nothing reserved whenever it may pay can always pay the budget
    of a live project.
  */
  lemma {:induction false} RunStaysPayable(cfg: Config, s: State, calls: seq<Call>, id: ProjectId, created: nat)
    requires SafeRun(cfg, s, calls, created) && LiveProject(s, id) && Payable(s, id)
    requires PaysUnreserved(cfg, s, calls, s.proj.projects[id].client)
    requires LiveProject(Run(cfg, s, calls), id)
    ensures Payable(Run(cfg, s, calls), id)
  {
    if calls != [] {
      hide Inv, Apply, Drains, PaysFrom, Payable, PaysUnreserved;
      var init := calls[..|calls| - 1];
      LastStep(cfg, s, calls, created);
      LiveBefore(cfg, s, calls, id, created);
      UnreservedBefore(cfg, s, calls, s.proj.projects[id].client);
      RunStaysPayable(cfg, s, init, id, created);
      var r, c, made := Run(cfg, s, init), calls[|calls| - 1], ProjectsMade(cfg, s, init, created);
      if Apply(cfg, r, c).Ok? {
        UnreservedNeverDrains(cfg, r, c, id, made);
        StepPayableExactly(cfg, r, c, id, made);
      }
    }
  }
}
