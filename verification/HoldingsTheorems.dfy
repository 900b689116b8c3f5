/**
  Who gains and who pays: the exact change of every account's holdings, free and reserved
  together, in every call, and what follows for whole runs.
*/
module HoldingsTheorems {
  import opened Prelude
  import opened Types
  import opened Currency
  import opened Reputation
  import opened JurorIndex
  import opened JurorCalls
  import opened Projects
  import opened Arbitration
  import opened Settlement
  import opened FeeTheorems
  import opened DisputeProtocol
  import opened DisputeCalls
  import opened Money
  import opened Escrow
  import opened ReserveLedger
  import opened System
  import opened ChainInvariant
  import opened ChainSafety

  /** What a payment does to account `a`. */
  function Sent(src: AccountId, dst: AccountId, amount: Balance, a: AccountId): int {
    (if a == dst then amount else 0) - (if a == src then amount else 0)
  }

  /** What account `a` gains by a call that is not an enforcement. */
  function Gained(cfg: Config, s: State, c: Call, a: AccountId): int {
    match c
    case Transfer(who, dst, amount) => Sent(who, dst, amount, a)
    case Mint(dst, amount) => if a == dst then amount else 0
    case SlashJuror(juror) => if a == juror then 0 - PermillOf(cfg.slashRatio, StakeOf(s.rep, juror)) else 0
    case AcceptWork(who, id, _) =>
      if id in s.proj.projects && s.proj.projects[id].freelancer.Some?
      then Sent(who, s.proj.projects[id].freelancer.value, s.proj.projects[id].budget, a) else 0
    case _ => 0
  }

  lemma TransferSends(l: Ledger, src: AccountId, dst: AccountId, amount: Balance)
    requires AfterTransfer(l, src, dst, amount).Ok?
    ensures var m := AfterTransfer(l, src, dst, amount).value;
      forall a :: Holdings(m, a) == Holdings(l, a) + Sent(src, dst, amount, a)
  {
  }

  lemma AcceptWorkPays(cfg: Config, s: State, client: AccountId, id: ProjectId, rating: nat)
    requires JuryOk(cfg, World(s))
    requires AfterAcceptWork(cfg, s.now, s.Site(), client, id, rating).Ok?
    ensures id in s.proj.projects && s.proj.projects[id].freelancer.Some?
    ensures var p := s.proj.projects[id];
      && p.client == client
      && forall a :: Holdings(AfterAcceptWork(cfg, s.now, s.Site(), client, id, rating).value.ledger, a)
                  == Holdings(s.ledger, a) + Sent(client, p.freelancer.value, p.budget, a)
  {
    hide LockIdOf, AfterProjectCompleted, JuryOk, MoneyKept, Kept, AfterTransfer;
    var p := s.proj.projects[id];
    PayoutMoney(cfg, World(s), id, p);
    var unlocked := AfterRemoveLock(s.ledger, LockIdOf(id), p.client);
    TransferSends(unlocked, p.client, p.freelancer.value, p.budget);
    var l := AfterTransfer(unlocked, p.client, p.freelancer.value, p.budget).value;
    MoneyKeptJury(cfg, World(s), RepWorld(l, s.rep));
    CompletionHolds(cfg, s.now, RepWorld(l, s.rep), p.freelancer.value, p.budget, rating * 1000);
    forall a ensures Holdings(unlocked, a) == Holdings(s.ledger, a) {
    }
  }

  lemma CompletionHolds(cfg: Config, now: BlockNumber, w: RepWorld, freelancer: AccountId, value: Balance, rating: nat)
    requires JuryOk(cfg, w) && AfterProjectCompleted(cfg, now, w, freelancer, value, rating).Ok?
    ensures SameHoldings(w.ledger, AfterProjectCompleted(cfg, now, w, freelancer, value, rating).value.ledger)
  {
    hide AfterProjectCompleted, JuryOk;
    ProjectCompletedKeeps(cfg, now, w, freelancer, value, rating);
  }

  lemma OutcomeHolds(cfg: Config, now: BlockNumber, w: RepWorld, winner: AccountId, loser: AccountId)
    requires JuryOk(cfg, w) && AfterDisputeOutcome(cfg, now, w, winner, loser).Ok?
    ensures SameHoldings(w.ledger, AfterDisputeOutcome(cfg, now, w, winner, loser).value.ledger)
  {
    hide AfterDisputeOutcome, JuryOk;
    DisputeOutcomeKeeps(cfg, now, w, winner, loser);
  }

  lemma ReserveHolds(l: Ledger, who: AccountId, amount: Balance)
    requires AfterReserve(l, who, amount).Ok?
    ensures SameHoldings(l, AfterReserve(l, who, amount).value)
  {
  }

  lemma SlashTakes(cfg: Config, w: RepWorld, juror: AccountId)
    requires StakesBacked(w) && AfterSlashJuror(cfg, w, juror).Ok?
    ensures var v := AfterSlashJuror(cfg, w, juror).value;
      forall a :: Holdings(v.ledger, a) == Holdings(w.ledger, a)
                    - (if a == juror then PermillOf(cfg.slashRatio, StakeOf(w.rep, juror)) else 0)
  {
    hide PermillOf, AfterRemoveFromTierList;
    assert Slack(w, juror) >= 0;
  }

  lemma ReputationCallsPay(cfg: Config, s: State, c: Call, created: nat)
    requires Inv(cfg, s, created) && WellFormed(cfg, c)
    requires IsReputationCall(c)
    requires Apply(cfg, s, c).Ok?
    ensures forall a :: Holdings(Apply(cfg, s, c).value.ledger, a) == Holdings(s.ledger, a) + Gained(cfg, s, c, a)
  {
    hide Inv, PermillOf, IndexOk, StakesBacked, EveryJurorListed, SameSlack;
    hide AfterRegisterUser, AfterRegisterAsJuror, AfterDeregisterAsJuror, AfterSlashJuror;
    var w := World(s);
    InvBacked(cfg, s, created);
    match c {
      case RegisterUser(who) => RegisterUserKeeps(cfg, s.now, w, who);
      case RegisterAsJuror(who) => RegisterAsJurorKeeps(cfg, w, who);
      case DeregisterAsJuror(who) => DeregisterAsJurorKeeps(cfg, w, who);
      case SlashJuror(juror) => SlashTakes(cfg, w, juror);
    }
  }

  lemma ProjectCallsPay(cfg: Config, s: State, c: Call, created: nat)
    requires Inv(cfg, s, created) && IsProjectCall(c)
    requires Apply(cfg, s, c).Ok?
    ensures forall a :: Holdings(Apply(cfg, s, c).value.ledger, a) == Holdings(s.ledger, a) + Gained(cfg, s, c, a)
  {
    hide Inv, JuryOk, LockIdOf;
    InvBacked(cfg, s, created);
    if c.AcceptWork? {
      hide AfterAcceptWork;
      AcceptWorkPays(cfg, s, c.who, c.id, c.rating);
    } else {
      OtherProjectCallsPayNothing(cfg, s, c);
    }
  }

  lemma OtherProjectCallsPayNothing(cfg: Config, s: State, c: Call)
    requires IsProjectCall(c) && !c.AcceptWork? && Apply(cfg, s, c).Ok?
    ensures SameHoldings(s.ledger, Apply(cfg, s, c).value.ledger)
  {
    hide LockIdOf;
    var t := Apply(cfg, s, c).value;
    assert t.ledger.free == s.ledger.free && t.ledger.reserved == s.ledger.reserved;
  }

  /** Opening, ruling, appealing and voting only reserve; recorded votes may release a stake. */
  lemma DisputeCallsPayNothing(cfg: Config, s: State, c: Call, created: nat)
    requires Inv(cfg, s, created)
    requires c.CreateDispute? || c.SubmitRuling? || c.AppealRuling? || c.CastVote? || c.FinalizeRound?
    requires Apply(cfg, s, c).Ok?
    ensures SameHoldings(s.ledger, Apply(cfg, s, c).value.ledger)
  {
    hide Inv, JuryOk, AfterReserve, BondOf, IndexOk;
    hide AfterCreateDispute, AfterAppealRuling, AfterFinalizeRound;
    InvBacked(cfg, s, created);
    match c {
      case CreateDispute(who, id) =>
        CreateDisputeMoney(cfg, s, who, id);
        ReserveHolds(s.ledger, who, BondOf(cfg, s.proj.projects[id].budget, 1));
      case AppealRuling(who, id) =>
        var p, d, jury := AppealSucceeded(cfg, s, who, id);
        ReserveHolds(s.ledger, who, BondOf(cfg, p.budget, d.round + 1));
      case FinalizeRound(_, id) =>
        FinalizeFacts(cfg, s, id);
        var d := s.arb.disputes[id];
        JuryVotesKeep(cfg, s.now, World(s), VoteOrder(d.votes), d.votes, RoundRuling(d.votes));
      case _ =>
    }
  }

  /** Every call but an enforcement changes every account's holdings by exactly this much. */
  lemma CallsPay(cfg: Config, s: State, c: Call, created: nat)
    requires Inv(cfg, s, created) && WellFormed(cfg, c) && !c.EnforceFinalRuling?
    requires Apply(cfg, s, c).Ok?
    ensures forall a :: Holdings(Apply(cfg, s, c).value.ledger, a) == Holdings(s.ledger, a) + Gained(cfg, s, c, a)
  {
    hide Inv;
    if IsProjectCall(c) {
      hide Apply, Gained;
      ProjectCallsPay(cfg, s, c, created);
    } else if IsReputationCall(c) {
      hide Apply, Gained;
      ReputationCallsPay(cfg, s, c, created);
    } else if c.CreateDispute? || c.SubmitRuling? || c.AppealRuling? || c.CastVote? || c.FinalizeRound? {
      hide Apply;
      DisputeCallsPayNothing(cfg, s, c, created);
    } else if c.Transfer? {
      TransferSends(s.ledger, c.who, c.dst, c.amount);
    }
  }

  // ---------- enforcement ----------

  /** The escrow payout of an enforcement. */
  function Payout(p: Project, ruling: Ruling, a: AccountId): int
    requires p.freelancer.Some?
  {
    if ruling == FreelancerWins then Sent(p.client, p.freelancer.value, p.budget, a) else 0
  }

  lemma OnRulingPays(cfg: Config, s: State, id: ProjectId, ruling: Ruling)
    requires JuryOk(cfg, World(s)) && AfterOnRuling(cfg, s.now, s.Site(), id, ruling).Ok?
    ensures id in s.proj.projects && s.proj.projects[id].freelancer.Some?
    ensures forall a :: Holdings(AfterOnRuling(cfg, s.now, s.Site(), id, ruling).value.ledger, a)
                     == Holdings(s.ledger, a) + Payout(s.proj.projects[id], ruling, a)
  {
    hide LockIdOf, AfterProjectCompleted, AfterDisputeOutcome, JuryOk, MoneyKept, Kept, AfterTransfer;
    var p := s.proj.projects[id];
    if ruling == FreelancerWins {
      PayoutMoney(cfg, World(s), id, p);
      var unlocked := AfterRemoveLock(s.ledger, LockIdOf(id), p.client);
      TransferSends(unlocked, p.client, p.freelancer.value, p.budget);
      var l := AfterTransfer(unlocked, p.client, p.freelancer.value, p.budget).value;
      MoneyKeptJury(cfg, World(s), RepWorld(l, s.rep));
      CompletionHolds(cfg, s.now, RepWorld(l, s.rep), p.freelancer.value, p.budget, 3000);
      forall a ensures Holdings(unlocked, a) == Holdings(s.ledger, a) {
      }
    } else {
      OutcomeHolds(cfg, s.now, World(s), p.client, p.freelancer.value);
    }
  }

  /** The bonds that are not the winner's. */
  ghost function Forfeited(bonds: map<nat, Bond>, winner: AccountId): nat {
    OwnedAtMostPosted(bonds, winner);
    Posted(bonds) - OwnedIn(bonds, winner)
  }

  /** What a settlement takes from account `a`: a bond that is not the winner's, and the remainder of the costs. */
  ghost function Taken(bonds: map<nat, Bond>, winner: AccountId, loser: AccountId, remainder: Balance,
                       a: AccountId): nat {
    (if a == winner then 0 else OwnedIn(bonds, a)) + (if a == loser then remainder else 0)
  }

  /** What a settlement gives to account `a`. */
  ghost function Given(cfg: Config, bonds: map<nat, Bond>, winner: AccountId, remainder: Balance,
                       rewards: map<AccountId, Balance>, a: AccountId): int
  {
    if a == cfg.arbitrator then Forfeited(bonds, winner) + remainder - SumMap(rewards) else Get(rewards, a)
  }

  /** The remainder of the costs is paid in full or not at all. */
  ghost predicate AllOrNothing(remainder: Balance, costs: Balance, forfeited: Balance) {
    remainder == 0 || remainder == SatSub(costs, forfeited)
  }

  ghost predicate PayoutsMoved(cfg: Config, l: Ledger, m: Ledger, bonds: map<nat, Bond>,
                               rewards: map<AccountId, Balance>,
                               winner: AccountId, loser: AccountId, remainder: Balance) {
    forall a :: Holdings(m, a) == Holdings(l, a) - Taken(bonds, winner, loser, remainder, a)
                                  + Given(cfg, bonds, winner, remainder, rewards, a)
  }

  lemma StagesFor(cfg: Config, l: Ledger, u: Purse, f: Ledger, m: Ledger, winner: AccountId, loser: AccountId,
                  bonds: map<nat, Bond>, remainder: Balance, rewards: map<AccountId, Balance>, a: AccountId)
    requires BondsMoved(cfg, Purse(l, 0), u, bonds, winner)
    requires CostsMoved(cfg, u.ledger, f, loser, remainder)
    requires RewardsPaid(cfg, f, m, rewards)
    ensures Free(u.ledger, a) == Free(l, a)
          + (if a == winner then OwnedIn(bonds, winner) else 0)
          + (if a == cfg.arbitrator then Forfeited(bonds, winner) else 0)
    ensures Free(f, a) == Free(u.ledger, a) - (if a == loser then remainder else 0)
                                            + (if a == cfg.arbitrator then remainder else 0)
    ensures Free(m, a) == Free(f, a) + (if a == cfg.arbitrator then 0 - SumMap(rewards) else Get(rewards, a))
    ensures Reserved(m, a) == Reserved(l, a) - OwnedIn(bonds, a)
  {
    hide SumMap, OwnedIn, Posted;
    assert Reserved(u.ledger, a) == Reserved(l, a) - OwnedIn(bonds, a);
  }

  lemma StagesAddUpFor(cfg: Config, l: Ledger, u: Purse, f: Ledger, m: Ledger, winner: AccountId, loser: AccountId,
                       bonds: map<nat, Bond>, remainder: Balance, rewards: map<AccountId, Balance>, a: AccountId)
    requires loser != cfg.arbitrator && cfg.arbitrator !in rewards
    requires BondsMoved(cfg, Purse(l, 0), u, bonds, winner)
    requires CostsMoved(cfg, u.ledger, f, loser, remainder)
    requires RewardsPaid(cfg, f, m, rewards)
    ensures Holdings(m, a) == Holdings(l, a) - Taken(bonds, winner, loser, remainder, a)
                              + Given(cfg, bonds, winner, remainder, rewards, a)
  {
    hide SumMap, OwnedIn, Forfeited, BondsMoved, CostsMoved, RewardsPaid;
    StagesFor(cfg, l, u, f, m, winner, loser, bonds, remainder, rewards, a);
  }

  lemma StagesAddUp(cfg: Config, l: Ledger, u: Purse, f: Ledger, m: Ledger, winner: AccountId, loser: AccountId,
                    bonds: map<nat, Bond>, remainder: Balance, rewards: map<AccountId, Balance>)
    requires loser != cfg.arbitrator && cfg.arbitrator !in rewards
    requires BondsMoved(cfg, Purse(l, 0), u, bonds, winner)
    requires CostsMoved(cfg, u.ledger, f, loser, remainder)
    requires RewardsPaid(cfg, f, m, rewards)
    ensures PayoutsMoved(cfg, l, m, bonds, rewards, winner, loser, remainder)
  {
    hide BondsMoved, CostsMoved, RewardsPaid, Taken, Given;
    forall a ensures Holdings(m, a) == Holdings(l, a) - Taken(bonds, winner, loser, remainder, a)
                                       + Given(cfg, bonds, winner, remainder, rewards, a)
    {
      StagesAddUpFor(cfg, l, u, f, m, winner, loser, bonds, remainder, rewards, a);
    }
  }

  /** What the settlement collects from the loser's free balance. */
  ghost function CostsPaid(cfg: Config, l: Ledger, arb: ArbStore, id: ProjectId, winner: AccountId,
                           loser: AccountId): Balance {
    var purse := AfterBonds(cfg, l, Prefix(arb.bonds, id), winner);
    Remainder(Get(arb.costs, id), purse.slashed, PaysRemainder(cfg, purse, loser, Get(arb.costs, id)))
  }

  lemma PayoutsPay(cfg: Config, l: Ledger, arb: ArbStore, id: ProjectId, winner: AccountId, loser: AccountId)
    returns (remainder: Balance)
    requires loser != cfg.arbitrator && cfg.arbitrator !in Prefix(arb.rewards, id)
    requires ReservesCover(l, Prefix(arb.bonds, id)) && Posted(Prefix(arb.bonds, id)) <= cfg.maxBalance
    requires Unlocked(l, cfg.arbitrator)
    requires AfterPayouts(cfg, l, arb, id, winner, loser).Ok?
    ensures remainder == CostsPaid(cfg, l, arb, id, winner, loser)
    ensures AllOrNothing(remainder, Get(arb.costs, id), Forfeited(Prefix(arb.bonds, id), winner))
    ensures PayoutsMoved(cfg, l, AfterPayouts(cfg, l, arb, id, winner, loser).value,
                         Prefix(arb.bonds, id), Prefix(arb.rewards, id), winner, loser, remainder)
  {
    hide AfterBonds, AfterCosts, AfterRewards, PaysRemainder, FoldSet, RewardsPaid, CostsMoved, PayoutsMoved;
    var bonds, rewards, costs := Prefix(arb.bonds, id), Prefix(arb.rewards, id), Get(arb.costs, id);
    var purse := AfterBonds(cfg, l, bonds, winner);
    BondsMove(cfg, l, bonds, winner);
    var funded := AfterCosts(cfg, purse, loser, costs);
    CostsSettle(cfg, purse, loser, costs);
    RewardsSettle(cfg, funded, rewards);
    remainder := Remainder(costs, purse.slashed, PaysRemainder(cfg, purse, loser, costs));
    assert purse.slashed == Forfeited(bonds, winner);
    CostsUnlocked(cfg, l, purse, funded, bonds, winner, loser, remainder);
    StagesAddUp(cfg, l, purse, funded, AfterRewards(cfg, funded, rewards).value, winner, loser, bonds, remainder,
                rewards);
  }

  lemma BondsMove(cfg: Config, l: Ledger, bonds: map<nat, Bond>, winner: AccountId)
    requires ReservesCover(l, bonds) && Posted(bonds) <= cfg.maxBalance
    ensures BondsMoved(cfg, Purse(l, 0), AfterBonds(cfg, l, bonds, winner), bonds, winner)
  {
    hide BondsMoved, ReservesCover, FoldSet;
    BondsSettle(cfg, Purse(l, 0), bonds, winner);
  }

  lemma CostsUnlocked(cfg: Config, l: Ledger, u: Purse, f: Ledger, bonds: map<nat, Bond>, winner: AccountId,
                      loser: AccountId, remainder: Balance)
    requires BondsMoved(cfg, Purse(l, 0), u, bonds, winner) && CostsMoved(cfg, u.ledger, f, loser, remainder)
    ensures f.locks == l.locks
  {
  }

  /** What an enforcement collects from the loser's free balance, once the ruling is carried out. */
  ghost function RemainderOf(cfg: Config, s: State, id: ProjectId): Balance {
    if id in s.proj.projects && s.proj.projects[id].freelancer.Some?
       && id in s.arb.disputes && s.arb.disputes[id].ruling.Some?
       && AfterOnRuling(cfg, s.now, s.Site(), id, s.arb.disputes[id].ruling.value).Ok?
    then
      var p, ruling := s.proj.projects[id], s.arb.disputes[id].ruling.value;
      CostsPaid(cfg, AfterOnRuling(cfg, s.now, s.Site(), id, ruling).value.ledger, s.arb, id,
                WinningParty(ruling, p.client, p.freelancer.value), LosingParty(ruling, p.client, p.freelancer.value))
    else 0
  }

  /** What an enforcement does to everybody's holdings. */
  ghost predicate Enforced(cfg: Config, s: State, t: State, id: ProjectId,
                           winner: AccountId, loser: AccountId, remainder: Balance) {
    && id in s.proj.projects && s.proj.projects[id].freelancer.Some?
    && id in s.arb.disputes && s.arb.disputes[id].ruling.Some?
    && (var p, ruling := s.proj.projects[id], s.arb.disputes[id].ruling.value;
        var bonds, rewards := Prefix(s.arb.bonds, id), Prefix(s.arb.rewards, id);
        && winner == WinningParty(ruling, p.client, p.freelancer.value)
        && loser == LosingParty(ruling, p.client, p.freelancer.value)
        && AllOrNothing(remainder, Get(s.arb.costs, id), Forfeited(bonds, winner))
        && forall a :: Holdings(t.ledger, a)
             == Holdings(s.ledger, a) + Payout(p, ruling, a)
                - Taken(bonds, winner, loser, remainder, a) + Given(cfg, bonds, winner, remainder, rewards, a))
  }

  /**
    An enforcement pays the escrow if the freelancer won; takes from a party only its own
    forfeited bonds and, from the loser, what these leave of the costs or nothing; and gives
    every juror exactly the reward on record.
  */
  lemma EnforcementPays(cfg: Config, s: State, id: ProjectId, created: nat)
    returns (winner: AccountId, loser: AccountId, remainder: Balance)
    requires Inv(cfg, s, created) && AfterEnforceFinalRuling(cfg, s, id).Ok?
    ensures remainder == RemainderOf(cfg, s, id)
    ensures Enforced(cfg, s, AfterEnforceFinalRuling(cfg, s, id).value, id, winner, loser, remainder)
  {
    hide CostsPaid;
    hide AfterEnforceFinalRuling, AfterOnRuling, AfterPayouts, AfterDisputeOutcome;
    hide AllCases, IndexOk, EscrowOk, ReservesExact;
    hide ReservesCover, Unlocked, IdsOk, Payout, Taken, Given, StakesBacked, EveryJurorListed, SameSlack, Forfeited;
    var t := AfterEnforceFinalRuling(cfg, s, id).value;
    var site, ledger;
    winner, loser, site, ledger := EnforceSucceeded(cfg, s, id);
    StagesStart(cfg, s, id, t, winner, loser, site, ledger);
    SettlementReady(cfg, s, id, winner, loser, site, created);
    SettlementParties(cfg, s, id, winner, loser, site);
    InvBacked(cfg, s, created);
    OnRulingPays(cfg, s, id, s.arb.disputes[id].ruling.value);
    remainder := PayoutsPay(cfg, site.ledger, s.arb, id, winner, loser);
    PaidOutJury(cfg, s, id, t, winner, loser, site, ledger, created);
    OutcomeHolds(cfg, s.now, RepWorld(ledger, site.rep), winner, loser);
  }

  lemma PaidOutJury(cfg: Config, s: State, id: ProjectId, t: State, winner: AccountId, loser: AccountId,
                    site: ProjWorld, ledger: Ledger, created: nat)
    requires Inv(cfg, s, created) && EnforceStages(cfg, s, id, t, winner, loser, site, ledger)
    ensures JuryOk(cfg, RepWorld(ledger, site.rep))
  {
    hide AfterOnRuling, AfterPayouts, AfterDisputeOutcome, IndexOk, EveryJurorListed, AllCases, EscrowOk;
    StagesStart(cfg, s, id, t, winner, loser, site, ledger);
    SettlementReady(cfg, s, id, winner, loser, site, created);
    SettlementParties(cfg, s, id, winner, loser, site);
    PayoutsReserve(cfg, site.ledger, s.arb, id, winner, loser);
    var paid := RepWorld(ledger, site.rep);
    forall a ensures Slack(paid, a) >= 0 {
      assert Slack(site.Jury(), a) == Slack(World(s), a);
      OwnedPrefix(s.arb.bonds, id, a);
      assert Reserved(s.ledger, a) == StakeOf(s.rep, a) + BondsOwed(s.arb.bonds, a);
    }
  }

  // ---------- who can lose ----------

  /** The accounts a call may cost something. */
  predicate Pays(cfg: Config, s: State, c: Call, a: AccountId) {
    match c
    case Transfer(who, _, _) => a == who
    case SlashJuror(juror) => a == juror
    case AcceptWork(who, _, _) => a == who
    case EnforceFinalRuling(_, id) => a == cfg.arbitrator || (id in s.proj.projects && IsParty(s.proj.projects[id], a))
    case _ => false
  }

  lemma {:induction false} OwnsNothing(bonds: map<nat, Bond>, a: AccountId)
    requires forall r :: r in bonds ==> bonds[r].owner != a
    ensures OwnedIn(bonds, a) == 0
    decreases |bonds|
  {
    if bonds == map[] {
      NoBonds(a);
    } else {
      var r :| r in bonds;
      OwnedWithout(bonds, r, a);
      OwnsNothing(bonds - {r}, a);
    }
  }

  lemma BystanderOwnsNothing(cfg: Config, s: State, id: ProjectId, a: AccountId)
    requires AllCases(cfg, s) && id in s.arb.disputes && s.arb.disputes[id].status != Finalized
    requires id in s.proj.projects && !IsParty(s.proj.projects[id], a)
    ensures OwnedIn(Prefix(s.arb.bonds, id), a) == 0
  {
    hide AllCases, CostsTo, FeesOk, RewardsOk, BondOf;
    OpenCase(cfg, s, id);
    OwnsNothing(Prefix(s.arb.bonds, id), a);
  }

  lemma BystandersOfEnforcement(cfg: Config, s: State, id: ProjectId, created: nat, a: AccountId)
    requires Inv(cfg, s, created) && AfterEnforceFinalRuling(cfg, s, id).Ok?
    requires a != cfg.arbitrator && id in s.proj.projects && !IsParty(s.proj.projects[id], a)
    ensures Holdings(AfterEnforceFinalRuling(cfg, s, id).value.ledger, a)
         == Holdings(s.ledger, a) + Get(Prefix(s.arb.rewards, id), a)
  {
    hide AfterEnforceFinalRuling, AllCases, IndexOk, ReservesExact, EscrowOk, IdsOk, AllOrNothing;
    var winner, loser, remainder := EnforcementPays(cfg, s, id, created);
    EnforceCase(cfg, s, id);
    BystanderOwnsNothing(cfg, s, id, a);
  }

  /** Nobody's holdings shrink in a call except those of the accounts it names as paying. */
  lemma OnlyPayersLose(cfg: Config, s: State, c: Call, created: nat, a: AccountId)
    requires Inv(cfg, s, created) && WellFormed(cfg, c)
    requires !Pays(cfg, s, c, a)
    ensures Holdings(Step(cfg, s, c).ledger, a) >= Holdings(s.ledger, a)
  {
    hide Inv, Apply, Pays, Gained, Holdings;
    if Apply(cfg, s, c).Ok? {
      if c.EnforceFinalRuling? {
        EnforcementSparesBystanders(cfg, s, c, created, a);
      } else {
        CallsPay(cfg, s, c, created);
        NonPayersGain(cfg, s, c, a);
      }
    }
  }

  lemma NonPayersGain(cfg: Config, s: State, c: Call, a: AccountId)
    requires !Pays(cfg, s, c, a)
    ensures Gained(cfg, s, c, a) >= 0
  {
    hide PermillOf;
  }

  lemma EnforcementSparesBystanders(cfg: Config, s: State, c: Call, created: nat, a: AccountId)
    requires Inv(cfg, s, created) && c.EnforceFinalRuling? && !Pays(cfg, s, c, a)
    requires Apply(cfg, s, c).Ok?
    ensures Holdings(Apply(cfg, s, c).value.ledger, a) >= Holdings(s.ledger, a)
  {
    hide Inv, AfterEnforceFinalRuling, Holdings;
    EnforceCase(cfg, s, c.id);
    BystandersOfEnforcement(cfg, s, c.id, created, a);
  }

  /** In no call of the run is the account one that pays. */
  ghost predicate NeverPays(cfg: Config, s: State, calls: seq<Call>, a: AccountId) {
    forall i :: 0 <= i < |calls| ==> !Pays(cfg, Run(cfg, s, calls[..i]), calls[i], a)
  }

  /** Over a whole run, whoever signs no payment, is not slashed and is party to no enforced dispute loses nothing. */
  lemma {:induction false} BystandersNeverLose(cfg: Config, s: State, calls: seq<Call>, created: nat, a: AccountId)
    requires SafeRun(cfg, s, calls, created) && NeverPays(cfg, s, calls, a)
    ensures Holdings(Run(cfg, s, calls).ledger, a) >= Holdings(s.ledger, a)
  {
    if calls != [] {
      hide Inv, Apply, Pays, Holdings;
      var n := |calls| - 1;
      var init := calls[..n];
      assert forall i :: 0 <= i < n ==> init[..i] == calls[..i];
      LastStep(cfg, s, calls, created);
      BystandersNeverLose(cfg, s, init, created, a);
      OnlyPayersLose(cfg, Run(cfg, s, init), calls[n], ProjectsMade(cfg, s, init, created), a);
    }
  }

  // ---------- the issuance ----------

  /** What a call that succeeds adds to the issuance. */
  function Issued(cfg: Config, s: State, c: Call): int {
    match c
    case Mint(_, amount) => amount
    case SlashJuror(juror) => 0 - PermillOf(cfg.slashRatio, StakeOf(s.rep, juror))
    case _ => 0
  }

  lemma IssuanceOfDispute(cfg: Config, s: State, c: Call, created: nat)
    requires Inv(cfg, s, created) && Apply(cfg, s, c).Ok?
    requires IsArbitrationCall(c)
    ensures Apply(cfg, s, c).value.ledger.issuance == s.ledger.issuance
  {
    hide Inv, BondOf, JuryOk, AfterReserve;
    hide AfterCreateDispute, AfterAppealRuling, AfterFinalizeRound, AfterEnforceFinalRuling;
    InvBacked(cfg, s, created);
    match c {
      case CreateDispute(who, id) => IssuanceOfBond(cfg, s, who, id);
      case AppealRuling(who, id) => IssuanceOfAppeal(cfg, s, who, id);
      case FinalizeRound(_, id) => IssuanceOfRound(cfg, s, id);
      case EnforceFinalRuling(_, id) => IssuanceOfEnforcement(cfg, s, id, created);
      case _ =>
    }
  }

  lemma IssuanceOfBond(cfg: Config, s: State, who: AccountId, id: ProjectId)
    requires AfterCreateDispute(cfg, s, who, id).Ok?
    ensures AfterCreateDispute(cfg, s, who, id).value.ledger.issuance == s.ledger.issuance
  {
    hide BondOf, AfterReserve, AfterCreateDispute;
    CreateDisputeMoney(cfg, s, who, id);
    ReserveIssues(s.ledger, who, BondOf(cfg, s.proj.projects[id].budget, 1));
  }

  lemma IssuanceOfAppeal(cfg: Config, s: State, who: AccountId, id: ProjectId)
    requires AfterAppealRuling(cfg, s, who, id).Ok?
    ensures AfterAppealRuling(cfg, s, who, id).value.ledger.issuance == s.ledger.issuance
  {
    hide BondOf, AfterReserve, AfterAppealRuling;
    var p, d, jury := AppealSucceeded(cfg, s, who, id);
    ReserveIssues(s.ledger, who, BondOf(cfg, p.budget, d.round + 1));
  }

  lemma IssuanceOfRound(cfg: Config, s: State, id: ProjectId)
    requires JuryOk(cfg, World(s)) && AfterFinalizeRound(cfg, s, id).Ok?
    ensures AfterFinalizeRound(cfg, s, id).value.ledger.issuance == s.ledger.issuance
  {
    hide JuryOk, AfterFinalizeRound;
    FinalizeFacts(cfg, s, id);
    var d := s.arb.disputes[id];
    JuryVotesKeep(cfg, s.now, World(s), VoteOrder(d.votes), d.votes, RoundRuling(d.votes));
  }

  lemma IssuanceOfEnforcement(cfg: Config, s: State, id: ProjectId, created: nat)
    requires Inv(cfg, s, created) && AfterEnforceFinalRuling(cfg, s, id).Ok?
    ensures AfterEnforceFinalRuling(cfg, s, id).value.ledger.issuance == s.ledger.issuance
  {
    hide Inv, JuryOk, AfterEnforceFinalRuling, EnforceStages;
    var winner, loser, site, ledger := EnforceSucceeded(cfg, s, id);
    EnforceMoney(cfg, s, id, AfterEnforceFinalRuling(cfg, s, id).value, winner, loser, site, ledger, created);
  }

  lemma ReserveIssues(l: Ledger, who: AccountId, amount: Balance)
    requires AfterReserve(l, who, amount).Ok?
    ensures AfterReserve(l, who, amount).value.issuance == l.issuance
  {
  }

  lemma IssuanceOfOthers(cfg: Config, s: State, c: Call, created: nat)
    requires Inv(cfg, s, created) && Apply(cfg, s, c).Ok? && WellFormed(cfg, c)
    requires !IsArbitrationCall(c)
    ensures Apply(cfg, s, c).value.ledger.issuance == s.ledger.issuance + Issued(cfg, s, c)
  {
    hide AllCases, EscrowOk, ReservesExact, IdsOk, IndexOk, StakesBacked, EveryJurorListed, PermillOf, SumMap;
    hide AfterRegisterUser, AfterRegisterAsJuror, AfterDeregisterAsJuror, AfterSlashJuror;
    InvBacked(cfg, s, created);
    var w := World(s);
    if IsProjectCall(c) {
      hide Apply;
      ProjectCallsMoney(cfg, s, c);
    } else {
      match c {
        case RegisterUser(who) => RegisterUserKeeps(cfg, s.now, w, who);
        case RegisterAsJuror(who) => RegisterAsJurorKeeps(cfg, w, who);
        case DeregisterAsJuror(who) => DeregisterAsJurorKeeps(cfg, w, who);
        case SlashJuror(juror) => SlashJurorKeeps(cfg, w, juror); SlashedOnRecord(cfg, w, juror);
        case _ =>
      }
    }
  }

  lemma SlashedOnRecord(cfg: Config, w: RepWorld, juror: AccountId)
    requires AfterSlashJuror(cfg, w, juror).Ok?
    ensures juror in w.rep.stakeOf && StakeOf(w.rep, juror) == w.rep.stakeOf[juror]
  {
  }

  ghost function IssuedInRun(cfg: Config, s: State, calls: seq<Call>): int {
    if calls == [] then 0
    else
      var init := calls[..|calls| - 1];
      var c := calls[|calls| - 1];
      var r := Run(cfg, s, init);
      IssuedInRun(cfg, s, init) + (if Apply(cfg, r, c).Ok? then Issued(cfg, r, c) else 0)
  }

  /**
    Money is conserved over every run: all accounts together hold what they held at the start,
    plus what was minted, minus what jurors were slashed.
  */
  lemma {:induction false} RunsConserve(cfg: Config, s: State, calls: seq<Call>, created: nat)
    requires SafeRun(cfg, s, calls, created)
    ensures Worth(Run(cfg, s, calls).ledger) == Worth(s.ledger) + IssuedInRun(cfg, s, calls)
  {
    RunIsBalanced(cfg, s, calls, created);
    if calls != [] {
      hide Inv, Apply, Issued, Worth;
      var init, c := calls[..|calls| - 1], calls[|calls| - 1];
      LastStep(cfg, s, calls, created);
      RunsConserve(cfg, s, init, created);
      RunIsBalanced(cfg, s, init, created);
      var r := Run(cfg, s, init);
      if Apply(cfg, r, c).Ok? {
        IssuanceOfCall(cfg, r, c, ProjectsMade(cfg, s, init, created));
      }
    }
  }

  lemma IssuanceOfCall(cfg: Config, s: State, c: Call, created: nat)
    requires Inv(cfg, s, created) && Apply(cfg, s, c).Ok? && WellFormed(cfg, c)
    ensures Apply(cfg, s, c).value.ledger.issuance == s.ledger.issuance + Issued(cfg, s, c)
  {
    hide Inv, Apply;
    if IsArbitrationCall(c) {
      IssuanceOfDispute(cfg, s, c, created);
    } else {
      IssuanceOfOthers(cfg, s, c, created);
    }
  }

  lemma RunIsBalanced(cfg: Config, s: State, calls: seq<Call>, created: nat)
    requires SafeRun(cfg, s, calls, created)
    ensures Balanced(Run(cfg, s, calls).ledger)
  {
    hide Apply, AllCases, EscrowOk, ReservesExact, IdsOk, IndexOk, Worth;
    RunKeeps(cfg, s, calls, created);
  }
}
