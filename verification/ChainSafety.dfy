/**
  The arbitration calls keep the chain invariant; so do all steps and all runs from genesis.
*/
module ChainSafety {
  import opened Prelude
  import opened Types
  import opened Currency
  import opened Reputation
  import opened JurorIndex
  import opened JurorCalls
  import opened SelectionTheorems
  import opened Projects
  import opened Arbitration
  import opened Settlement
  import opened FeeTheorems
  import opened DisputeProtocol
  import opened DisputeCalls
  import opened Money
  import opened Escrow
  import opened ReserveLedger
  import opened System
  import opened ChainInvariant

  /** A step on one open dispute that leaves the project live. */
  lemma DisputeStepEscrow(cfg: Config, s: State, t: State, id: ProjectId)
    requires EscrowOk(s) && IdsInRange(s) && OnlyCase(s, t, id)
    requires id in s.proj.projects && id in t.proj.projects && id in t.arb.disputes
    requires t.proj.projects.Keys == s.proj.projects.Keys
    requires var p, q := s.proj.projects[id], t.proj.projects[id];
      p.client == q.client && p.budget == q.budget && Live(p) && Live(q)
    requires t.arb.disputes[id].status != Finalized
    requires t.ledger.locks == s.ledger.locks
    ensures EscrowOk(t)
  {
    assert LockOn(s.ledger, id, s.proj.projects[id])
        == ExpectedLock(s.proj.projects[id], Lookup(s.arb.disputes, id));
    EscrowKept(s, t, id);
  }

  lemma CreateDisputeMoney(cfg: Config, s: State, freelancer: AccountId, id: ProjectId)
    requires AfterCreateDispute(cfg, s, freelancer, id).Ok?
    ensures var t := AfterCreateDispute(cfg, s, freelancer, id).value;
      && id in s.proj.projects
      && (var p := s.proj.projects[id]; var bond := BondOf(cfg, p.budget, 1);
          && AfterReserve(s.ledger, freelancer, bond) == Ok(t.ledger)
          && t.rep == s.rep && t.now == s.now
          && (p.status == InReview || p.status == Rejected)
          && t.proj == s.proj.(projects := s.proj.projects[id := p.(status := InDispute)])
          && t.arb.bonds == s.arb.bonds[id := Prefix(s.arb.bonds, id)[1 := Bond(freelancer, bond)]]
          && id in t.arb.disputes && t.arb.disputes[id].status == AiProcessing)
  {
    hide Percent, AfterReserve;
  }

  /** Reserving a bond and recording it, with only selection cursors moved otherwise. */
  lemma BondKeepsReserves(cfg: Config, s: State, t: State, id: ProjectId, round: nat, bond: Bond)
    requires JuryOk(cfg, World(s)) && ReservesExact(s) && MoneyOk(cfg, s.ledger)
    requires AfterReserve(s.ledger, bond.owner, bond.amount) == Ok(t.ledger)
    requires t.rep == s.rep.(nextIndex := t.rep.nextIndex)
    requires round !in Prefix(s.arb.bonds, id)
    requires t.arb.bonds == s.arb.bonds[id := Prefix(s.arb.bonds, id)[round := bond]]
    ensures ReservesExact(t) && MoneyOk(cfg, t.ledger) && IndexOk(cfg, t.rep) && t.ledger.locks == s.ledger.locks
  {
    hide AfterReserve, IndexOk, StakesBacked, EveryJurorListed, ReservesExact, Worth;
    ReserveMoney(cfg, World(s), bond.owner, bond.amount, t.rep);
    ReservesPosted(s, t, id, round, bond);
  }

  lemma CreateDisputeReserves(cfg: Config, s: State, freelancer: AccountId, id: ProjectId, created: nat)
    requires Inv(cfg, s, created)
    requires AfterCreateDispute(cfg, s, freelancer, id).Ok?
    ensures var t := AfterCreateDispute(cfg, s, freelancer, id).value;
      ReservesExact(t) && MoneyOk(cfg, t.ledger) && t.ledger.locks == s.ledger.locks
  {
    hide AfterCreateDispute, BondOf, AfterReserve, IndexOk, AllCases, Opened, ReservesExact, MoneyOk, JuryOk;
    hide OnlyCase, EscrowOk, IdsOk;
    InvBacked(cfg, s, created);
    CreateDisputeMoney(cfg, s, freelancer, id);
    CreateDisputeCase(cfg, s, freelancer, id);
    NoDispute(cfg, s, id);
    var bond := BondOf(cfg, s.proj.projects[id].budget, 1);
    BondKeepsReserves(cfg, s, AfterCreateDispute(cfg, s, freelancer, id).value, id, 1, Bond(freelancer, bond));
  }

  lemma CreateDisputeKeeps(cfg: Config, s: State, freelancer: AccountId, id: ProjectId, created: nat)
    requires Inv(cfg, s, created)
    requires AfterCreateDispute(cfg, s, freelancer, id).Ok?
    ensures Inv(cfg, AfterCreateDispute(cfg, s, freelancer, id).value, created)
  {
    hide AfterCreateDispute, BondOf, CostOf, AfterReserve, IndexOk, AllCases, ReservesExact, MoneyOk, OnlyCase;
    hide EscrowOk, LockIdOf, CaseOf;
    CreateDisputeReserves(cfg, s, freelancer, id, created);
    CreateDisputeMoney(cfg, s, freelancer, id);
    CreateDisputeKeepsCases(cfg, s, freelancer, id);
    DisputeStepEscrow(cfg, s, AfterCreateDispute(cfg, s, freelancer, id).value, id);
  }

  lemma QuietDisputeCall(cfg: Config, s: State, c: Call)
    requires c.SubmitRuling? || c.CastVote?
    requires Apply(cfg, s, c).Ok?
    ensures var t := Apply(cfg, s, c).value;
      && t == s.(arb := s.arb.(disputes := t.arb.disputes))
      && c.id in s.arb.disputes && s.arb.disputes[c.id].status != Finalized
      && c.id in t.arb.disputes && t.arb.disputes[c.id].status != Finalized
  {
  }

  lemma QuietDisputeCallKeepsCases(cfg: Config, s: State, c: Call)
    requires AllCases(cfg, s)
    requires c.SubmitRuling? || c.CastVote?
    requires Apply(cfg, s, c).Ok?
    ensures var t := Apply(cfg, s, c).value;
      AllCases(cfg, t) && OnlyCase(s, t, c.id)
  {
    hide AllCases, OnlyCase, AfterSubmitRuling, AfterCastVote;
    match c {
      case SubmitRuling(id, ruling) => SubmitRulingKeepsCases(cfg, s, id, ruling);
      case CastVote(who, id, vote) => CastVoteKeepsCases(cfg, s, who, id, vote);
    }
  }

  /** Rulings and votes move no money. */
  lemma QuietDisputeCallsKeep(cfg: Config, s: State, c: Call, created: nat)
    requires Inv(cfg, s, created)
    requires c.SubmitRuling? || c.CastVote?
    requires Apply(cfg, s, c).Ok?
    ensures Inv(cfg, Apply(cfg, s, c).value, created)
  {
    hide Apply, AllCases, OpenOk, IndexOk, ReservesExact, EscrowOk, OnlyCase, LockIdOf, ProjectOk;
    var t := Apply(cfg, s, c).value;
    QuietDisputeCall(cfg, s, c);
    QuietDisputeCallKeepsCases(cfg, s, c);
    OpenCase(cfg, s, c.id);
    ReservesUntouched(s, t);
    DisputeStepEscrow(cfg, s, t, c.id);
  }

  lemma AppealReserves(cfg: Config, s: State, t: State, appellant: AccountId, id: ProjectId,
                       p: Project, d: Dispute, jury: seq<AccountId>, created: nat)
    requires Inv(cfg, s, created) && AppealFacts(cfg, s, t, appellant, id, p, d, jury)
    ensures ReservesExact(t) && MoneyOk(cfg, t.ledger) && IndexOk(cfg, t.rep) && t.ledger.locks == s.ledger.locks
  {
    InvBacked(cfg, s, created);
    hide Inv, JuryOk, IndexOk, ReservesExact, MoneyOk, AllCases, Selection, AfterReserve, BondOf, ArbAfterAppeal;
    AppealParts(cfg, s, t, appellant, id, p, d, jury, created);
    BondKeepsReserves(cfg, s, t, id, d.round + 1, Bond(appellant, BondOf(cfg, p.budget, d.round + 1)));
  }

  /** The parts of an appeal that reach the reserves. */
  lemma AppealParts(cfg: Config, s: State, t: State, appellant: AccountId, id: ProjectId,
                    p: Project, d: Dispute, jury: seq<AccountId>, created: nat)
    requires Inv(cfg, s, created) && AppealFacts(cfg, s, t, appellant, id, p, d, jury)
    ensures ReservesExact(s) && MoneyOk(cfg, s.ledger)
    ensures AfterReserve(s.ledger, appellant, BondOf(cfg, p.budget, d.round + 1)) == Ok(t.ledger)
    ensures t.rep == s.rep.(nextIndex := t.rep.nextIndex)
    ensures d.round + 1 !in Prefix(s.arb.bonds, id)
    ensures t.arb.bonds == s.arb.bonds[id := Prefix(s.arb.bonds, id)[d.round + 1 :=
      Bond(appellant, BondOf(cfg, p.budget, d.round + 1))]]
  {
    hide IndexOk, ReservesExact, MoneyOk, AllCases, EscrowOk, IdsOk, Selection, AfterReserve, BondOf;
    AppealBondsGrow(cfg, s, t, appellant, id, p, d, jury);
    SelectionOnlyMovesCursors(s.rep, RequiredTier(d.round + 1), [p.client, p.freelancer.value],
                              JurySize(cfg, d.round + 1));
  }

  lemma AppealRulingKeeps(cfg: Config, s: State, appellant: AccountId, id: ProjectId, created: nat)
    requires Inv(cfg, s, created)
    requires AfterAppealRuling(cfg, s, appellant, id).Ok?
    ensures Inv(cfg, AfterAppealRuling(cfg, s, appellant, id).value, created)
  {
    hide AfterAppealRuling, Selection, BondOf, AfterReserve, IndexOk, MoneyOk, AllCases, ReservesExact;
    hide OnlyCase, EscrowOk, LockIdOf, CaseOf;
    var t := AfterAppealRuling(cfg, s, appellant, id).value;
    var p, d, jury := AppealSucceeded(cfg, s, appellant, id);
    AppealReserves(cfg, s, t, appellant, id, p, d, jury, created);
    AppealRulingKeepsCases(cfg, s, appellant, id);
    AppealBondsGrow(cfg, s, t, appellant, id, p, d, jury);
    DisputeStepEscrow(cfg, s, t, id);
  }

  lemma AppealBondsGrow(cfg: Config, s: State, t: State, appellant: AccountId, id: ProjectId,
                        p: Project, d: Dispute, jury: seq<AccountId>)
    requires AllCases(cfg, s) && AppealFacts(cfg, s, t, appellant, id, p, d, jury)
    ensures var bond := Bond(appellant, BondOf(cfg, p.budget, d.round + 1));
      && d.round + 1 !in Prefix(s.arb.bonds, id)
      && t.arb.bonds == s.arb.bonds[id := Prefix(s.arb.bonds, id)[d.round + 1 := bond]]
      && id in t.arb.disputes && t.arb.disputes[id].status == Voting
      && Live(p)
  {
    hide AllCases, FeesOk, RewardsOk, CostsTo, BondOf, CostOf, FeesOf, Seated, ProjectOk, Selection, AfterReserve;
    OpenCase(cfg, s, id);
  }

  lemma SelectionOnlyMovesCursors(r: RepStore, minTier: JurorTier, exclude: seq<AccountId>, count: nat)
    ensures var v := Selection(r, minTier, exclude, count).1;
      v == r.(nextIndex := v.nextIndex)
  {
    var s1, s2 := SelectionPasses(r, minTier, exclude, count);
  }

  lemma FinalizeRoundKeeps(cfg: Config, s: State, id: ProjectId, created: nat)
    requires Inv(cfg, s, created)
    requires AfterFinalizeRound(cfg, s, id).Ok?
    ensures var t := AfterFinalizeRound(cfg, s, id).value; var d := s.arb.disputes[id];
      && Inv(cfg, t, created)
      && (EveryJurorListed(s.rep) ==>
            (EveryJurorListed(t.rep) <==>
               !SomeJurorDropped(cfg, s.now, World(s), VoteOrder(d.votes), d.votes, RoundRuling(d.votes))))
  {
    hide AfterFinalizeRound, AfterJuryVotes, RewardsAfterRound, VoteOrder;
    hide RoundRuling, IndexOk, EveryJurorListed, SomeJurorDropped;
    hide AllCases, OpenOk, ProjectOk, OnlyCase, EscrowOk, ReservesExact, StakesBacked, LockIdOf;
    var t := AfterFinalizeRound(cfg, s, id).value;
    InvBacked(cfg, s, created);
    FinalizeFacts(cfg, s, id);
    FinalizeRoundKeepsCases(cfg, s, id);
    OpenCase(cfg, s, id);
    var d := s.arb.disputes[id];
    JuryVotesKeep(cfg, s.now, World(s), VoteOrder(d.votes), d.votes, RoundRuling(d.votes));
    ReservesUntouched(s, t);
    DisputeStepEscrow(cfg, s, t, id);
  }

  // ---------- enforcement ----------

  lemma {:induction false} PostedAtMost(bonds: map<nat, Bond>, rounds: nat, cap: nat)
    requires forall r :: r in bonds ==> 1 <= r <= rounds && bonds[r].amount <= cap
    ensures Posted(bonds) <= rounds * cap
    decreases rounds
  {
    if rounds == 0 {
      assert bonds == map[];
      NoBonds(0);
    } else {
      var rest := bonds - {rounds};
      PostedAtMost(rest, rounds - 1, cap);
      if rounds in bonds {
        OwnedWithout(bonds, rounds, 0);
      } else {
        assert rest == bonds;
      }
      assert rounds * cap == (rounds - 1) * cap + cap;
    }
  }

  lemma BondsFit(cfg: Config, p: Project, round: nat, bonds: map<nat, Bond>)
    requires BondsOk(cfg, p, round, bonds) && round <= 3
    ensures Posted(bonds) <= cfg.maxBalance
  {
    PercentWithin(cfg, p.budget, 5);
    PercentWithin(cfg, p.budget, 20);
    PercentWithin(cfg, p.budget, 50);
    PostedAtMost(bonds, 3, cfg.maxBalance / 100);
  }

  /** What a settlement does to the reserves, whoever the parties are. */
  lemma PayoutsReserve(cfg: Config, l: Ledger, arb: ArbStore, id: ProjectId, winner: AccountId, loser: AccountId)
    requires loser != cfg.arbitrator && cfg.arbitrator !in Prefix(arb.rewards, id)
    requires ReservesCover(l, Prefix(arb.bonds, id)) && Posted(Prefix(arb.bonds, id)) <= cfg.maxBalance
    requires Unlocked(l, cfg.arbitrator)
    requires AfterPayouts(cfg, l, arb, id, winner, loser).Ok?
    ensures var m := AfterPayouts(cfg, l, arb, id, winner, loser).value;
      && (forall a :: Reserved(m, a) == Reserved(l, a) - OwnedIn(Prefix(arb.bonds, id), a))
      && Worth(m) == Worth(l) && m.issuance == l.issuance && m.locks == l.locks
  {
    var bonds, rewards, costs := Prefix(arb.bonds, id), Prefix(arb.rewards, id), Get(arb.costs, id);
    var purse := AfterBonds(cfg, l, bonds, winner);
    BondsSettle(cfg, Purse(l, 0), bonds, winner);
    hide AfterBonds, AfterCosts, AfterRewards, PaysRemainder, FoldSet;
    CostsSettle(cfg, purse, loser, costs);
    RewardsSettle(cfg, AfterCosts(cfg, purse, loser, costs), rewards);
  }

  /** The stages an enforcement that succeeded went through. */
  ghost predicate EnforceStages(cfg: Config, s: State, id: ProjectId, t: State,
                                winner: AccountId, loser: AccountId, site: ProjWorld, ledger: Ledger) {
    && id in s.arb.disputes && id in s.proj.projects
    && (var d, p := s.arb.disputes[id], s.proj.projects[id];
        && d.status == Appealable && d.ruling.Some? && p.freelancer.Some?
        && s.now >= SatAdd(d.startBlock, cfg.appealPeriod, cfg.maxBlock)
        && winner == WinningParty(d.ruling.value, p.client, p.freelancer.value)
        && loser == LosingParty(d.ruling.value, p.client, p.freelancer.value)
        && AfterOnRuling(cfg, s.now, s.Site(), id, d.ruling.value) == Ok(site)
        && AfterPayouts(cfg, site.ledger, s.arb, id, winner, loser) == Ok(ledger)
        && AfterDisputeOutcome(cfg, s.now, RepWorld(ledger, site.rep), winner, loser) == Ok(World(t))
        && site.proj == s.proj.(projects := s.proj.projects[id := p.(status := Completed)])
        && t.proj == site.proj && t.now == s.now
        && t.arb == WithDispute(Cleaned(s.arb, id), id, d.(status := Finalized)))
  }

  lemma EnforceSucceeded(cfg: Config, s: State, id: ProjectId)
    returns (winner: AccountId, loser: AccountId, site: ProjWorld, ledger: Ledger)
    requires AfterEnforceFinalRuling(cfg, s, id).Ok?
    ensures EnforceStages(cfg, s, id, AfterEnforceFinalRuling(cfg, s, id).value, winner, loser, site, ledger)
  {
    var d, p := s.arb.disputes[id], s.proj.projects[id];
    winner := WinningParty(d.ruling.value, p.client, p.freelancer.value);
    loser := LosingParty(d.ruling.value, p.client, p.freelancer.value);
    hide AfterDisputeOutcome, AfterPayouts, AfterProjectCompleted, AfterTransfer;
    site := AfterOnRuling(cfg, s.now, s.Site(), id, d.ruling.value).value;
    ledger := AfterPayouts(cfg, site.ledger, s.arb, id, winner, loser).value;
  }

  /** The first stage of an enforcement that got past its checks. */
  ghost predicate RulingStage(cfg: Config, s: State, id: ProjectId, winner: AccountId, loser: AccountId,
                              site: ProjWorld) {
    && id in s.arb.disputes && id in s.proj.projects
    && (var d, p := s.arb.disputes[id], s.proj.projects[id];
        && d.status == Appealable && d.ruling.Some? && p.freelancer.Some?
        && winner == WinningParty(d.ruling.value, p.client, p.freelancer.value)
        && loser == LosingParty(d.ruling.value, p.client, p.freelancer.value)
        && AfterOnRuling(cfg, s.now, s.Site(), id, d.ruling.value) == Ok(site))
  }

  lemma StagesStart(cfg: Config, s: State, id: ProjectId, t: State, winner: AccountId, loser: AccountId,
                    site: ProjWorld, ledger: Ledger)
    requires EnforceStages(cfg, s, id, t, winner, loser, site, ledger)
    ensures RulingStage(cfg, s, id, winner, loser, site)
  {
  }

  /** Winner and loser are the parties, the pallet is neither, and all bonds are theirs. */
  lemma SettlementParties(cfg: Config, s: State, id: ProjectId, winner: AccountId, loser: AccountId, site: ProjWorld)
    requires AllCases(cfg, s) && RulingStage(cfg, s, id, winner, loser, site)
    ensures winner != cfg.arbitrator && loser != cfg.arbitrator
    ensures cfg.arbitrator !in Prefix(s.arb.rewards, id)
    ensures var bonds := Prefix(s.arb.bonds, id);
      && Posted(bonds) <= cfg.maxBalance
      && forall r :: r in bonds ==> bonds[r].owner == winner || bonds[r].owner == loser
  {
    hide AfterOnRuling, CaseOk;
    OpenCase(cfg, s, id);
    BondsFit(cfg, s.proj.projects[id], s.arb.disputes[id].round, Prefix(s.arb.bonds, id));
    hide BondOf, FeesOf, CostsTo, EarnedCap;
  }

  /** In a reachable state the ledger handed to the settlement covers every bond. */
  lemma SettlementReady(cfg: Config, s: State, id: ProjectId, winner: AccountId, loser: AccountId,
                        site: ProjWorld, created: nat)
    requires Inv(cfg, s, created) && RulingStage(cfg, s, id, winner, loser, site)
    ensures MoneyKept(cfg, World(s), site.Jury())
    ensures ReservesCover(site.ledger, Prefix(s.arb.bonds, id))
    ensures Unlocked(site.ledger, cfg.arbitrator)
    ensures site.ledger.locks == (if s.arb.disputes[id].ruling == Some(FreelancerWins)
      then s.ledger.locks - {(s.proj.projects[id].client, LockIdOf(id))} else s.ledger.locks)
  {
    InvBacked(cfg, s, created);
    PalletUnlocked(cfg, s, created);
    hide IndexOk, AllCases, EveryJurorListed;
    assert s.Site().Jury() == World(s);
    OnRulingMoney(cfg, s.now, s.Site(), id, s.arb.disputes[id].ruling.value);
    hide AfterOnRuling;
    forall a ensures OwnedIn(Prefix(s.arb.bonds, id), a) <= Reserved(site.ledger, a) {
      OwnedPrefix(s.arb.bonds, id, a);
      assert Slack(site.Jury(), a) == Slack(World(s), a);
    }
  }

  lemma EnforceMoney(cfg: Config, s: State, id: ProjectId, t: State, winner: AccountId, loser: AccountId,
                     site: ProjWorld, ledger: Ledger, created: nat)
    requires Inv(cfg, s, created) && EnforceStages(cfg, s, id, t, winner, loser, site, ledger)
    ensures JuryOk(cfg, World(t))
    ensures forall a :: Slack(World(t), a) == Slack(World(s), a) - OwnedIn(Prefix(s.arb.bonds, id), a)
    ensures Worth(t.ledger) == Worth(s.ledger) && t.ledger.issuance == s.ledger.issuance
    ensures t.ledger.locks == site.ledger.locks
    ensures EveryJurorListed(s.rep) ==> EveryJurorListed(t.rep)
  {
    StagesStart(cfg, s, id, t, winner, loser, site, ledger);
    SettlementReady(cfg, s, id, winner, loser, site, created);
    SettlementParties(cfg, s, id, winner, loser, site);
    var bonds := Prefix(s.arb.bonds, id);
    PayoutsReserve(cfg, site.ledger, s.arb, id, winner, loser);
    hide AfterOnRuling, AfterPayouts, AfterDisputeOutcome, IndexOk, EveryJurorListed;
    var paid := RepWorld(ledger, site.rep);
    forall a ensures Slack(paid, a) == Slack(World(s), a) - OwnedIn(bonds, a) && Slack(paid, a) >= 0 {
      assert Slack(site.Jury(), a) == Slack(World(s), a);
      OwnedPrefix(s.arb.bonds, id, a);
      assert Reserved(s.ledger, a) == StakeOf(s.rep, a) + BondsOwed(s.arb.bonds, a);
    }
    DisputeOutcomeKeeps(cfg, s.now, paid, winner, loser);
    forall a ensures Slack(World(t), a) == Slack(World(s), a) - OwnedIn(bonds, a) {
      assert Slack(World(t), a) == Slack(paid, a);
    }
  }

  /** FreelancerWins opens the escrow; ClientWins completes the project and leaves the lock in place. */
  lemma ClosingEscrow(s: State, t: State, id: ProjectId, p: Project, d: Dispute)
    requires EscrowOk(s) && IdsInRange(s) && OnlyCase(s, t, id)
    requires Lookup(s.proj.projects, id) == Some(p) && Live(p)
    requires t.proj.projects == s.proj.projects[id := p.(status := Completed)]
    requires Lookup(t.arb.disputes, id) == Some(d) && d.status == Finalized && d.ruling.Some?
    requires t.ledger.locks == (if d.ruling == Some(FreelancerWins)
      then s.ledger.locks - {(p.client, LockIdOf(id))} else s.ledger.locks)
    ensures EscrowOk(t)
  {
    hide LockIdOf, LockOwner, CaseOf;
    assert d.ruling == Some(ClientWins) || d.ruling == Some(FreelancerWins) by {
      match d.ruling.value {
        case ClientWins =>
        case FreelancerWins =>
      }
    }
    assert LockOn(s.ledger, id, s.proj.projects[id]) == ExpectedLock(s.proj.projects[id], Lookup(s.arb.disputes, id));
    EscrowKept(s, t, id);
  }

  lemma ClosedBy(cfg: Config, s: State, id: ProjectId, t: State, winner: AccountId, loser: AccountId,
                 site: ProjWorld, ledger: Ledger)
    requires AllCases(cfg, s) && EnforceStages(cfg, s, id, t, winner, loser, site, ledger)
    ensures id in s.proj.projects && id in s.arb.disputes && id in t.arb.disputes
    ensures Live(s.proj.projects[id])
    ensures t.proj == s.proj.(projects := s.proj.projects[id := s.proj.projects[id].(status := Completed)])
    ensures t.arb.disputes[id] == s.arb.disputes[id].(status := Finalized) && s.arb.disputes[id].ruling.Some?
    ensures t.arb.bonds == s.arb.bonds - {id}
  {
    hide AfterOnRuling, AfterPayouts, AfterDisputeOutcome, CaseOk;
    OpenCase(cfg, s, id);
  }

  lemma EnforceKeepsEscrow(cfg: Config, s: State, id: ProjectId, t: State, winner: AccountId, loser: AccountId,
                           site: ProjWorld, ledger: Ledger, created: nat)
    requires Inv(cfg, s, created) && EnforceStages(cfg, s, id, t, winner, loser, site, ledger)
    requires OnlyCase(s, t, id) && t.ledger.locks == site.ledger.locks
    ensures EscrowOk(t) && IdsOk(t, created)
  {
    hide LockIdOf, OnlyCase, AllCases, IndexOk, ReservesExact;
    hide EscrowOk, EnforceStages, MoneyKept, ReservesCover, Unlocked;
    StagesStart(cfg, s, id, t, winner, loser, site, ledger);
    SettlementReady(cfg, s, id, winner, loser, site, created);
    ClosedBy(cfg, s, id, t, winner, loser, site, ledger);
    ClosingEscrow(s, t, id, s.proj.projects[id], t.arb.disputes[id]);
  }

  lemma EnforceKeeps(cfg: Config, s: State, id: ProjectId, created: nat)
    requires Inv(cfg, s, created)
    requires AfterEnforceFinalRuling(cfg, s, id).Ok?
    ensures var t := AfterEnforceFinalRuling(cfg, s, id).value;
      Inv(cfg, t, created) && (EveryJurorListed(s.rep) ==> EveryJurorListed(t.rep))
  {
    hide AfterEnforceFinalRuling, EnforceStages, AllCases, IndexOk, ReservesExact;
    hide EscrowOk, EveryJurorListed, OnlyCase, StakesBacked, IdsOk;
    var t := AfterEnforceFinalRuling(cfg, s, id).value;
    var winner, loser, site, ledger := EnforceSucceeded(cfg, s, id);
    EnforceKeepsCases(cfg, s, id);
    EnforceMoney(cfg, s, id, t, winner, loser, site, ledger, created);
    EnforceKeepsEscrow(cfg, s, id, t, winner, loser, site, ledger, created);
    ClosedBy(cfg, s, id, t, winner, loser, site, ledger);
    ReservesSettled(s, t, id);
  }

  // ---------- steps and runs ----------

  function CreatedAfter(c: Call, r: Result<State, Error>, created: nat): nat {
    if c.CreateProject? && r.Ok? then created + 1 else created
  }

  /** Every call keeps the invariant, as long as the project ids have not run out. */
  lemma StepKeeps(cfg: Config, s: State, c: Call, created: nat)
    requires Inv(cfg, s, created) && WellFormed(cfg, c)
    requires c.CreateProject? ==> created < PROJECT_IDS
    ensures Inv(cfg, Step(cfg, s, c), CreatedAfter(c, Apply(cfg, s, c), created))
  {
    hide Inv, WellFormed, AfterCreateDispute, AfterAppealRuling, AfterFinalizeRound, AfterEnforceFinalRuling;
    if Apply(cfg, s, c).Ok? {
      match c {
        case CreateDispute(who, id) => CreateDisputeKeeps(cfg, s, who, id, created);
        case SubmitRuling(_, _) => QuietDisputeCallsKeep(cfg, s, c, created);
        case CastVote(_, _, _) => QuietDisputeCallsKeep(cfg, s, c, created);
        case AppealRuling(who, id) => AppealRulingKeeps(cfg, s, who, id, created);
        case FinalizeRound(_, id) => FinalizeRoundKeeps(cfg, s, id, created);
        case EnforceFinalRuling(_, id) => EnforceKeeps(cfg, s, id, created);
        case NextBlock => EnvironmentKeeps(cfg, s, c, created);
        case Transfer(_, _, _) => EnvironmentKeeps(cfg, s, c, created);
        case Mint(_, _) => EnvironmentKeeps(cfg, s, c, created);
        case RegisterUser(_) => ReputationCallsKeep(cfg, s, c, created);
        case RegisterAsJuror(_) => ReputationCallsKeep(cfg, s, c, created);
        case DeregisterAsJuror(_) => ReputationCallsKeep(cfg, s, c, created);
        case SlashJuror(_) => ReputationCallsKeep(cfg, s, c, created);
        case _ => ProjectCallsKeep(cfg, s, c, created);
      }
    }
  }

  /** How many projects exist after a run that started with `created`. */
  ghost function ProjectsMade(cfg: Config, s: State, calls: seq<Call>, created: nat): nat {
    if calls == [] then created
    else
      var init := calls[..|calls| - 1];
      var c := calls[|calls| - 1];
      CreatedAfter(c, Apply(cfg, Run(cfg, s, init), c), ProjectsMade(cfg, s, init, created))
  }

  /** A start in the invariant, and not enough creations to make the project ids wrap. */
  ghost predicate SafeRun(cfg: Config, s: State, calls: seq<Call>, created: nat) {
    && Inv(cfg, s, created)
    && AllWellFormed(cfg, calls)
    && created + Creations(calls) <= PROJECT_IDS
  }

  /** Every run keeps the invariant, as long as the project ids do not run out. */
  lemma {:induction false} RunKeeps(cfg: Config, s: State, calls: seq<Call>, created: nat)
    requires SafeRun(cfg, s, calls, created)
    ensures Inv(cfg, Run(cfg, s, calls), ProjectsMade(cfg, s, calls, created))
    ensures ProjectsMade(cfg, s, calls, created) <= created + Creations(calls)
  {
    if calls != [] {
      hide Inv, Apply;
      var init, c := calls[..|calls| - 1], calls[|calls| - 1];
      RunKeeps(cfg, s, init, created);
      StepKeeps(cfg, Run(cfg, s, init), c, ProjectsMade(cfg, s, init, created));
    }
  }

  /** The last step of a safe run: it starts in the invariant, with an id left if it needs one. */
  lemma LastStep(cfg: Config, s: State, calls: seq<Call>, created: nat)
    requires SafeRun(cfg, s, calls, created) && calls != []
    ensures var init, c := calls[..|calls| - 1], calls[|calls| - 1];
      var made := ProjectsMade(cfg, s, init, created);
      && SafeRun(cfg, s, init, created)
      && Inv(cfg, Run(cfg, s, init), made)
      && WellFormed(cfg, c)
      && (c.CreateProject? ==> made < PROJECT_IDS)
      && Run(cfg, s, calls) == Step(cfg, Run(cfg, s, init), c)
  {
    hide Inv, Apply;
    RunKeeps(cfg, s, calls[..|calls| - 1], created);
  }
}
