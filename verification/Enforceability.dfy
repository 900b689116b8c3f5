/**
  Exactly when an enforcement succeeds, in terms of the state before the call: the time, the
  money of the parties and of the pallet, their registration, and room in the juror pools.
*/
module Enforceability {
  import opened Prelude
  import opened Types
  import opened Currency
  import opened Reputation
  import opened JurorIndex
  import opened JurorCalls
  import opened Projects
  import opened Arbitration
  import opened Settlement
  import opened DisputeProtocol
  import opened Money
  import opened Escrow
  import opened ReserveLedger
  import opened ChainInvariant
  import opened ChainSafety
  import opened DisputeRuns
  import opened HoldingsTheorems
  import opened EscrowPayable

  // ---------- tier updates with room ----------

  /** The index after a tier update that finds room. */
  function Relisted(r: RepStore, who: AccountId): RepStore {
    var was, due := TierOf(r, who), TierFromStats(StatsOf(r, who));
    if who !in r.registry || was == due then r
    else
      var removed := AfterRemoveFromTierList(r, who, was);
      if due == Ineligible then Unlisted(removed.(stakeOf := removed.stakeOf - {who}), who)
      else WithPool(removed, due, Pool(removed, due) + [who]).(tiers := removed.tiers[who := due])
  }

  /** The stake a tier update gives back. */
  function StakeReleased(r: RepStore, who: AccountId): Balance {
    if who in r.registry && TierOf(r, who) != Ineligible && TierFromStats(StatsOf(r, who)) == Ineligible
    then StakeOf(r, who) else 0
  }

  lemma PoolSparesTiers(r: RepStore, t: JurorTier, jurors: seq<AccountId>)
    ensures WithPool(r, t, jurors).tiers == r.tiers
  {
  }

  lemma UpdateRelists(cfg: Config, w: RepWorld, who: AccountId)
    requires !Blocked(cfg, w.rep, who)
    ensures AfterUpdateTier(cfg, w, who).error == None
    ensures AfterUpdateTier(cfg, w, who).world.rep == Relisted(w.rep, who)
  {
    UpdateTierFails(cfg, w, who);
    var due := TierFromStats(StatsOf(w.rep, who));
    hide TierFromStats, AfterRemoveFromTierList, Blocked, WithPool;
    var removed := AfterRemoveFromTierList(w.rep, who, TierOf(w.rep, who));
    PoolSparesTiers(removed, due, Pool(removed, due) + [who]);
  }

  lemma UpdateFreesExactly(cfg: Config, w: RepWorld, who: AccountId)
    requires StakesBacked(w)
    ensures Free(AfterUpdateTier(cfg, w, who).world.ledger, who) == Free(w.ledger, who) + StakeReleased(w.rep, who)
  {
    assert Slack(w, who) >= 0;
    RemovalOnlyPools(w.rep, who);
    hide TierFromStats, AfterRemoveFromTierList, AfterAddToTierList;
  }

  // ---------- statistics ----------

  predicate Registered(r: RepStore, who: AccountId) {
    StatsOf(r, who).registrationBlock != 0
  }

  function WithStats(r: RepStore, who: AccountId, s: Stats): RepStore {
    r.(stats := r.stats[who := s])
  }

  function Credited(cfg: Config, now: BlockNumber, r: RepStore, freelancer: AccountId, value: Balance): RepStore {
    WithStats(r, freelancer, StatsAfterCompletion(cfg, now, StatsOf(r, freelancer), value, 3000))
  }

  /** A win for one party and a loss for the other on the books, tiers not updated yet. */
  function Booked(now: BlockNumber, r: RepStore, winner: AccountId, loser: AccountId): RepStore {
    var won := WithStats(r, winner, StatsAfterWin(now, StatsOf(r, winner)));
    WithStats(won, loser, StatsAfterLoss(now, StatsOf(won, loser)))
  }

  /** The paid freelancer is registered and finds room in the pool it is due for. */
  predicate CompletionFits(cfg: Config, now: BlockNumber, r: RepStore, freelancer: AccountId, value: Balance) {
    Registered(r, freelancer) && !Blocked(cfg, Credited(cfg, now, r, freelancer, value), freelancer)
  }

  /** Both parties are registered and find room, the winner first. */
  predicate OutcomeFits(cfg: Config, now: BlockNumber, r: RepStore, winner: AccountId, loser: AccountId) {
    && Registered(r, winner) && Registered(r, loser)
    && !Blocked(cfg, Booked(now, r, winner, loser), winner)
    && !Blocked(cfg, Relisted(Booked(now, r, winner, loser), winner), loser)
  }

  lemma CompletionExactly(cfg: Config, now: BlockNumber, w: RepWorld, freelancer: AccountId, value: Balance)
    ensures var r := AfterProjectCompleted(cfg, now, w, freelancer, value, 3000);
      && (r.Ok? <==> CompletionFits(cfg, now, w.rep, freelancer, value))
      && (r.Ok? ==> r.value.rep == Relisted(Credited(cfg, now, w.rep, freelancer, value), freelancer))
  {
    hide StatsAfterCompletion, AfterUpdateTier, Relisted, Blocked;
    var s := StatsAfterCompletion(cfg, now, StatsOf(w.rep, freelancer), value, 3000);
    var r1 := AfterStats(w, freelancer, s);
    if r1.Ok? {
      UpdateTierFails(cfg, r1.value, freelancer);
      if !Blocked(cfg, r1.value.rep, freelancer) {
        UpdateRelists(cfg, r1.value, freelancer);
      }
    }
  }

  /** The world with the outcome on the books. */
  function BookedWorld(now: BlockNumber, w: RepWorld, winner: AccountId, loser: AccountId): RepWorld {
    RepWorld(w.ledger, Booked(now, w.rep, winner, loser))
  }

  lemma OutcomeUnfolds(cfg: Config, now: BlockNumber, w: RepWorld, winner: AccountId, loser: AccountId)
    ensures var r := AfterDisputeOutcome(cfg, now, w, winner, loser);
      if !Registered(w.rep, winner) || !Registered(w.rep, loser) then r.Err?
      else
        var a := AfterUpdateTier(cfg, BookedWorld(now, w, winner, loser), winner);
        r == (if a.error.Some? then Err(a.error.value) else AfterUpdateTier(cfg, a.world, loser).Propagated())
  {
    hide StatsAfterLoss, AfterUpdateTier;
  }

  lemma OutcomeExactly(cfg: Config, now: BlockNumber, w: RepWorld, winner: AccountId, loser: AccountId)
    ensures var r := AfterDisputeOutcome(cfg, now, w, winner, loser);
      && (r.Ok? <==> OutcomeFits(cfg, now, w.rep, winner, loser))
      && (r.Ok? ==> r.value.rep == Relisted(Relisted(Booked(now, w.rep, winner, loser), winner), loser))
  {
    OutcomeUnfolds(cfg, now, w, winner, loser);
    hide AfterDisputeOutcome, Booked, AfterUpdateTier, Relisted, Blocked;
    var b := BookedWorld(now, w, winner, loser);
    UpdateTierFails(cfg, b, winner);
    if !Blocked(cfg, b.rep, winner) {
      UpdateRelists(cfg, b, winner);
      var v := AfterUpdateTier(cfg, b, winner).world;
      UpdateTierFails(cfg, v, loser);
      if !Blocked(cfg, v.rep, loser) {
        UpdateRelists(cfg, v, loser);
      }
    }
  }

  /** What the two tier updates of an outcome give back of the loser's stake. */
  function OutcomeStake(now: BlockNumber, r: RepStore, winner: AccountId, loser: AccountId): Balance {
    var b := Booked(now, r, winner, loser);
    (if winner == loser then StakeReleased(b, loser) else 0) + StakeReleased(Relisted(b, winner), loser)
  }

  lemma OutcomeFrees(cfg: Config, now: BlockNumber, w: RepWorld, winner: AccountId, loser: AccountId)
    requires JuryOk(cfg, w) && AfterDisputeOutcome(cfg, now, w, winner, loser).Ok?
    ensures Free(AfterDisputeOutcome(cfg, now, w, winner, loser).value.ledger, loser)
         == Free(w.ledger, loser) + OutcomeStake(now, w.rep, winner, loser)
  {
    OutcomeUnfolds(cfg, now, w, winner, loser);
    OutcomeExactly(cfg, now, w, winner, loser);
    var b := BookedWorld(now, w, winner, loser);
    BookedBacked(cfg, now, w, winner, loser);
    hide AfterDisputeOutcome, Booked, AfterUpdateTier, Relisted, Blocked, JuryOk, IndexShape, StakesBacked;
    hide StakeReleased;
    UpdateTierKeeps(cfg, b, winner);
    UpdateTierFails(cfg, b, winner);
    UpdateRelists(cfg, b, winner);
    UpdateReleases(cfg, b, winner);
    UpdateFreesExactly(cfg, b, winner);
    var v := AfterUpdateTier(cfg, b, winner).world;
    SlackBacked(b, v);
    UpdateFreesExactly(cfg, v, loser);
  }

  lemma CompletionFrees(cfg: Config, now: BlockNumber, w: RepWorld, freelancer: AccountId, value: Balance)
    requires StakesBacked(w) && AfterProjectCompleted(cfg, now, w, freelancer, value, 3000).Ok?
    ensures Free(AfterProjectCompleted(cfg, now, w, freelancer, value, 3000).value.ledger, freelancer)
         == Free(w.ledger, freelancer) + StakeReleased(Credited(cfg, now, w.rep, freelancer, value), freelancer)
  {
    hide StatsAfterCompletion, AfterUpdateTier, StakeReleased;
    var b := RepWorld(w.ledger, Credited(cfg, now, w.rep, freelancer, value));
    forall a ensures Slack(b, a) >= 0 {
      assert Slack(w, a) >= 0;
    }
    UpdateFreesExactly(cfg, b, freelancer);
  }

  lemma BookedBacked(cfg: Config, now: BlockNumber, w: RepWorld, winner: AccountId, loser: AccountId)
    requires JuryOk(cfg, w)
    ensures IndexShape(cfg, BookedWorld(now, w, winner, loser).rep) && StakesBacked(BookedWorld(now, w, winner, loser))
  {
    var b := BookedWorld(now, w, winner, loser);
    SameLists(cfg, w.rep, b.rep);
    forall a ensures Slack(b, a) >= 0 {
      assert Slack(w, a) >= 0;
    }
  }

  // ---------- the ruling itself ----------

  /** The budget can be released, or there is nothing to release. */
  predicate Releasable(s: State, id: ProjectId)
    requires id in s.proj.projects && s.proj.projects[id].freelancer.Some?
  {
    var p := s.proj.projects[id];
    p.budget == 0 || p.client == p.freelancer.value || (Payable(s, id) && OtherLocksCovered(s, id))
  }

  predicate RulingFits(cfg: Config, s: State, id: ProjectId, ruling: Ruling)
    requires id in s.proj.projects && s.proj.projects[id].freelancer.Some?
  {
    var p := s.proj.projects[id];
    match ruling
    case FreelancerWins => Releasable(s, id) && CompletionFits(cfg, s.now, s.rep, p.freelancer.value, p.budget)
    case ClientWins => OutcomeFits(cfg, s.now, s.rep, p.client, p.freelancer.value)
  }

  /** The index and the statistics the ruling leaves behind. */
  function RepAfterRuling(cfg: Config, s: State, id: ProjectId, ruling: Ruling): RepStore
    requires id in s.proj.projects && s.proj.projects[id].freelancer.Some?
  {
    var p := s.proj.projects[id];
    var f := p.freelancer.value;
    match ruling
    case FreelancerWins => Relisted(Credited(cfg, s.now, s.rep, f, p.budget), f)
    case ClientWins => Relisted(Relisted(Booked(s.now, s.rep, p.client, f), p.client), f)
  }

  lemma RulingExactly(cfg: Config, s: State, id: ProjectId, ruling: Ruling)
    requires id in s.proj.projects && s.proj.projects[id].freelancer.Some?
    ensures var r := AfterOnRuling(cfg, s.now, s.Site(), id, ruling);
      && (r.Ok? <==> RulingFits(cfg, s, id, ruling))
      && (r.Ok? ==> r.value.rep == RepAfterRuling(cfg, s, id, ruling))
  {
    hide AfterProjectCompleted, AfterDisputeOutcome, AfterTransfer, LockIdOf, CompletionFits, OutcomeFits, Relisted;
    hide Credited, Booked;
    hide OtherLocksCovered;
    var p := s.proj.projects[id];
    match ruling {
      case FreelancerWins =>
        ReleaseExactly(s, id);
        if Release(s, id).Ok? {
          CompletionExactly(cfg, s.now, RepWorld(Release(s, id).value, s.rep), p.freelancer.value, p.budget);
        }
      case ClientWins =>
        OutcomeExactly(cfg, s.now, World(s), p.client, p.freelancer.value);
    }
  }

  // ---------- the money of the settlement ----------

  /** What the ruling takes from the loser before the settlement: the budget, if a client loses to another account. */
  function PaidBefore(p: Project, ruling: Ruling): Balance
    requires p.freelancer.Some?
  {
    if ruling == FreelancerWins && p.client != p.freelancer.value then p.budget else 0
  }

  /** The loser's free balance at the settlement. */
  function FreeAtSettlement(cfg: Config, s: State, id: ProjectId, ruling: Ruling): int
    requires id in s.proj.projects && s.proj.projects[id].freelancer.Some?
  {
    var p := s.proj.projects[id];
    var f := p.freelancer.value;
    match ruling
    case FreelancerWins =>
      Free(s.ledger, p.client) - PaidBefore(p, ruling)
      + (if p.client == f then StakeReleased(Credited(cfg, s.now, s.rep, f, p.budget), f) else 0)
    case ClientWins => Free(s.ledger, f) + OutcomeStake(s.now, s.rep, p.client, f)
  }

  /** The locks of the loser at the settlement: the escrow is open by then if the client lost. */
  predicate LockedAtSettlement(s: State, id: ProjectId, ruling: Ruling, loser: AccountId, k: (AccountId, LockId))
    requires id in s.proj.projects
  {
    k in s.ledger.locks && k.0 == loser
    && !(ruling == FreelancerWins && k == (s.proj.projects[id].client, LockIdOf(id)))
  }

  /** The loser's bonds that are slashed: all of them, unless the loser is the winner too. */
  ghost function Slashed(s: State, id: ProjectId, ruling: Ruling): Balance
    requires id in s.proj.projects && s.proj.projects[id].freelancer.Some?
  {
    var p := s.proj.projects[id];
    if p.client == p.freelancer.value then 0
    else OwnedIn(Prefix(s.arb.bonds, id), LosingParty(ruling, p.client, p.freelancer.value))
  }

  /** The loser's bonds that are returned. */
  ghost function Returned(s: State, id: ProjectId): Balance
    requires id in s.proj.projects && s.proj.projects[id].freelancer.Some?
  {
    var p := s.proj.projects[id];
    if p.client == p.freelancer.value then OwnedIn(Prefix(s.arb.bonds, id), p.client) else 0
  }

  /** The loser can bear what the slashed bonds leave of the costs. */
  ghost predicate LoserPays(cfg: Config, s: State, id: ProjectId, ruling: Ruling)
    requires id in s.proj.projects && s.proj.projects[id].freelancer.Some?
  {
    var p := s.proj.projects[id];
    var loser := LosingParty(ruling, p.client, p.freelancer.value);
    var slashed := Slashed(s, id, ruling);
    var open := SatSub(Get(s.arb.costs, id), slashed);
    open == 0
    || (open <= FreeAtSettlement(cfg, s, id, ruling) + Returned(s, id)
        && forall k :: LockedAtSettlement(s, id, ruling, loser, k) ==>
             s.ledger.locks[k] <= Holdings(s.ledger, loser) - PaidBefore(p, ruling) - slashed - open)
  }

  /** What the settlement takes from the loser's free balance. */
  ghost function CostsBorne(cfg: Config, s: State, id: ProjectId, ruling: Ruling): Balance
    requires id in s.proj.projects && s.proj.projects[id].freelancer.Some?
  {
    Remainder(Get(s.arb.costs, id), Slashed(s, id, ruling), LoserPays(cfg, s, id, ruling))
  }

  /** What the pallet account has for the jurors once bonds and costs are settled. */
  ghost function Collected(cfg: Config, s: State, id: ProjectId, ruling: Ruling): nat
    requires id in s.proj.projects && s.proj.projects[id].freelancer.Some?
  {
    Free(s.ledger, cfg.arbitrator) + Slashed(s, id, ruling) + CostsBorne(cfg, s, id, ruling)
  }

  /** The ledger handed to the settlement, as far as it decides about the costs. */
  ghost predicate SiteMoney(cfg: Config, s: State, id: ProjectId, ruling: Ruling, loser: AccountId, l: Ledger)
    requires id in s.proj.projects && s.proj.projects[id].freelancer.Some?
  {
    && Free(l, cfg.arbitrator) == Free(s.ledger, cfg.arbitrator)
    && Free(l, loser) == FreeAtSettlement(cfg, s, id, ruling)
    && Holdings(l, loser) == Holdings(s.ledger, loser) - PaidBefore(s.proj.projects[id], ruling)
    && (forall k :: k in l.locks && k.0 == loser <==> LockedAtSettlement(s, id, ruling, loser, k))
    && (forall k :: k in l.locks ==> k in s.ledger.locks && l.locks[k] == s.ledger.locks[k])
  }

  lemma SiteMoneyHolds(cfg: Config, s: State, id: ProjectId, winner: AccountId, loser: AccountId, site: ProjWorld,
                       created: nat)
    requires Inv(cfg, s, created) && RulingStage(cfg, s, id, winner, loser, site)
    ensures SiteMoney(cfg, s, id, s.arb.disputes[id].ruling.value, loser, site.ledger)
  {
    hide AfterOnRuling, AllCases, IndexOk, EscrowOk, ReservesExact, MoneyOk, IdsOk, LockIdOf, EveryJurorListed;
    hide StakesBacked, ReservesCover, Unlocked, MoneyKept, FreeAtSettlement, SameSlack;
    SettlementReady(cfg, s, id, winner, loser, site, created);
    SettlementParties(cfg, s, id, winner, loser, site);
    InvBacked(cfg, s, created);
    var ruling := s.arb.disputes[id].ruling.value;
    OnRulingPays(cfg, s, id, ruling);
    OnRulingFrees(cfg, s, id, ruling);
    OnRulingSpares(cfg, s, id, ruling, cfg.arbitrator);
    SitePays(cfg, s, id, ruling, loser, site.ledger);
  }

  lemma SitePays(cfg: Config, s: State, id: ProjectId, ruling: Ruling, loser: AccountId, l: Ledger)
    requires id in s.proj.projects && s.proj.projects[id].freelancer.Some?
    requires var p := s.proj.projects[id]; loser == LosingParty(ruling, p.client, p.freelancer.value)
    requires Holdings(l, loser) == Holdings(s.ledger, loser) + Payout(s.proj.projects[id], ruling, loser)
    requires Free(l, loser) == FreeAtSettlement(cfg, s, id, ruling)
    requires Free(l, cfg.arbitrator) == Free(s.ledger, cfg.arbitrator)
    requires l.locks == (if ruling == FreelancerWins
      then s.ledger.locks - {(s.proj.projects[id].client, LockIdOf(id))} else s.ledger.locks)
    ensures SiteMoney(cfg, s, id, ruling, loser, l)
  {
    hide LockIdOf, FreeAtSettlement;
  }

  /** The loser's free balance after the ruling. */
  lemma OnRulingFrees(cfg: Config, s: State, id: ProjectId, ruling: Ruling)
    requires JuryOk(cfg, World(s)) && AfterOnRuling(cfg, s.now, s.Site(), id, ruling).Ok?
    requires id in s.proj.projects && s.proj.projects[id].freelancer.Some?
    ensures var p, m := s.proj.projects[id], AfterOnRuling(cfg, s.now, s.Site(), id, ruling).value.ledger;
      Free(m, LosingParty(ruling, p.client, p.freelancer.value)) == FreeAtSettlement(cfg, s, id, ruling)
  {
    hide LockIdOf, AfterProjectCompleted, AfterDisputeOutcome, AfterTransfer, Relisted, Booked, Credited;
    hide StakeReleased, OutcomeStake, JuryOk, Releases;
    var p := s.proj.projects[id];
    var f := p.freelancer.value;
    match ruling {
      case FreelancerWins =>
        var unlocked := AfterRemoveLock(s.ledger, LockIdOf(id), p.client);
        var l := AfterTransfer(unlocked, p.client, f, p.budget).value;
        TransferLeaves(unlocked, p.client, f, p.budget);
        if p.client == f {
          OwnPayment(cfg, s, id, p);
          CompletionFrees(cfg, s.now, RepWorld(l, s.rep), f, p.budget);
        } else {
          CompletionReleases(cfg, s.now, RepWorld(l, s.rep), f, p.budget, 3000);
        }
      case ClientWins =>
        OutcomeFrees(cfg, s.now, World(s), p.client, f);
    }
  }

  /** Paying oneself leaves every stake backed. */
  lemma OwnPayment(cfg: Config, s: State, id: ProjectId, p: Project)
    requires JuryOk(cfg, World(s))
    ensures var unlocked := AfterRemoveLock(s.ledger, LockIdOf(id), p.client);
      && AfterTransfer(unlocked, p.client, p.client, p.budget) == Ok(unlocked)
      && StakesBacked(RepWorld(unlocked, s.rep))
  {
    hide LockIdOf, IndexOk;
    var w := RepWorld(AfterRemoveLock(s.ledger, LockIdOf(id), p.client), s.rep);
    forall a ensures Slack(w, a) >= 0 {
      assert Slack(World(s), a) >= 0;
    }
  }

  /** A ruling takes free money from nobody but a client who loses. */
  lemma OnRulingSpares(cfg: Config, s: State, id: ProjectId, ruling: Ruling, other: AccountId)
    requires AfterOnRuling(cfg, s.now, s.Site(), id, ruling).Ok?
    requires id in s.proj.projects && s.proj.projects[id].freelancer.Some?
    requires var p := s.proj.projects[id]; other != LosingParty(ruling, p.client, p.freelancer.value)
    ensures var p, m := s.proj.projects[id], AfterOnRuling(cfg, s.now, s.Site(), id, ruling).value.ledger;
      && Free(m, other) >= Free(s.ledger, other)
      && (!IsParty(p, other) ==> Free(m, other) == Free(s.ledger, other))
  {
    hide LockIdOf, AfterProjectCompleted, AfterDisputeOutcome, AfterTransfer;
    var p := s.proj.projects[id];
    var f := p.freelancer.value;
    match ruling {
      case FreelancerWins =>
        var unlocked := AfterRemoveLock(s.ledger, LockIdOf(id), p.client);
        var l := AfterTransfer(unlocked, p.client, f, p.budget).value;
        TransferGives(unlocked, p.client, f, p.budget, other);
        if other != f {
          TransferSparesOthers(unlocked, p.client, f, p.budget, other);
        }
        CompletionReleases(cfg, s.now, RepWorld(l, s.rep), f, p.budget, 3000);
      case ClientWins =>
        OutcomeReleases(cfg, s.now, World(s), p.client, f);
    }
  }

  lemma TransferSparesOthers(l: Ledger, src: AccountId, dst: AccountId, amount: Balance, other: AccountId)
    requires AfterTransfer(l, src, dst, amount).Ok? && other != src && other != dst
    ensures Free(AfterTransfer(l, src, dst, amount).value, other) == Free(l, other)
  {
  }

  /** The bonds that are not the winner's are the loser's, if that is somebody else. */
  lemma ForfeitedBonds(bonds: map<nat, Bond>, winner: AccountId, loser: AccountId)
    requires forall r :: r in bonds ==> bonds[r].owner == winner || bonds[r].owner == loser
    ensures Forfeited(bonds, winner) == if winner == loser then 0 else OwnedIn(bonds, loser)
  {
    hide OwnedIn, Posted;
    if winner == loser {
      TwoOwners(bonds, winner, winner + 1);
      OwnsNothing(bonds, winner + 1);
    } else {
      TwoOwners(bonds, winner, loser);
    }
  }

  /** What a settlement does to the free balance of everybody but the pallet. */
  ghost predicate SettlementFrees(cfg: Config, l: Ledger, m: Ledger, bonds: map<nat, Bond>,
                                  rewards: map<AccountId, Balance>, winner: AccountId, loser: AccountId,
                                  paid: Balance) {
    forall a :: a != cfg.arbitrator ==>
      Free(m, a) == Free(l, a) + (if a == winner then OwnedIn(bonds, winner) else 0)
                               - (if a == loser then paid else 0) + Get(rewards, a)
  }

  /** A settlement succeeds exactly when what was collected pays the rewards, and then pays them. */
  lemma PayoutsExactly(cfg: Config, l: Ledger, arb: ArbStore, id: ProjectId, winner: AccountId, loser: AccountId)
    requires Settleable(cfg, l, arb, id, winner, loser)
    ensures var bonds, rewards := Prefix(arb.bonds, id), Prefix(arb.rewards, id);
      var paid, r := CostsPaid(cfg, l, arb, id, winner, loser), AfterPayouts(cfg, l, arb, id, winner, loser);
      && (r.Ok? <==> SumMap(rewards) <= Free(l, cfg.arbitrator) + Forfeited(bonds, winner) + paid)
      && (r.Err? ==> r == Err(PaymentFailed))
      && (r.Ok? ==> SettlementFrees(cfg, l, r.value, bonds, rewards, winner, loser, paid))
  {
    hide AfterBonds, AfterCosts, AfterRewards, PaysRemainder, FoldSet, SumMap, OwnedIn, Posted, ReservesCover;
    var bonds, rewards, costs := Prefix(arb.bonds, id), Prefix(arb.rewards, id), Get(arb.costs, id);
    var purse := AfterBonds(cfg, l, bonds, winner);
    BondsMove(cfg, l, bonds, winner);
    CostsSettle(cfg, purse, loser, costs);
    RewardsSettle(cfg, AfterCosts(cfg, purse, loser, costs), rewards);
  }

  /** The loser's side of the ledger once the bonds are settled. */
  lemma LoserAfterBonds(cfg: Config, s: State, id: ProjectId, ruling: Ruling, winner: AccountId, loser: AccountId,
                        l: Ledger)
    requires id in s.proj.projects && s.proj.projects[id].freelancer.Some?
    requires var p := s.proj.projects[id];
      && winner == WinningParty(ruling, p.client, p.freelancer.value)
      && loser == LosingParty(ruling, p.client, p.freelancer.value)
    requires Settleable(cfg, l, s.arb, id, winner, loser)
    ensures var bonds := Prefix(s.arb.bonds, id); var u := AfterBonds(cfg, l, bonds, winner);
      && u.slashed == Forfeited(bonds, winner) == Slashed(s, id, ruling)
      && Free(u.ledger, loser) == Free(l, loser) + Returned(s, id)
      && Holdings(u.ledger, loser) == Holdings(l, loser) - Slashed(s, id, ruling)
      && u.ledger.locks == l.locks
  {
    hide AfterBonds, OwnedIn, Posted, ReservesCover;
    var bonds := Prefix(s.arb.bonds, id);
    BondsMove(cfg, l, bonds, winner);
    ForfeitedBonds(bonds, winner, loser);
    var u := AfterBonds(cfg, l, bonds, winner);
    assert Reserved(u.ledger, loser) == Reserved(l, loser) - OwnedIn(bonds, loser);
  }

  /** The transfer of the remainder succeeds exactly under the guard on the state before the call. */
  lemma RemainderExactly(cfg: Config, s: State, id: ProjectId, ruling: Ruling, winner: AccountId, loser: AccountId,
                         l: Ledger)
    requires id in s.proj.projects && s.proj.projects[id].freelancer.Some?
    requires var p := s.proj.projects[id];
      && winner == WinningParty(ruling, p.client, p.freelancer.value)
      && loser == LosingParty(ruling, p.client, p.freelancer.value)
    requires SiteMoney(cfg, s, id, ruling, loser, l) && Settleable(cfg, l, s.arb, id, winner, loser)
    ensures CostsPaid(cfg, l, s.arb, id, winner, loser) == CostsBorne(cfg, s, id, ruling)
    ensures Forfeited(Prefix(s.arb.bonds, id), winner) == Slashed(s, id, ruling)
  {
    hide AfterBonds, LockIdOf, FreeAtSettlement, LockedAtSettlement, Slashed, Returned, Forfeited, ReservesCover;
    var u := AfterBonds(cfg, l, Prefix(s.arb.bonds, id), winner);
    LoserAfterBonds(cfg, s, id, ruling, winner, loser, l);
    var open := SatSub(Get(s.arb.costs, id), u.slashed);
    if open > 0 && open <= Free(u.ledger, loser) {
      var kept := Free(u.ledger, loser) - open + Reserved(u.ledger, loser);
      LocksAtSettlement(cfg, s, id, ruling, loser, l, u.ledger, kept);
    }
  }

  lemma LocksAtSettlement(cfg: Config, s: State, id: ProjectId, ruling: Ruling, loser: AccountId, l: Ledger, m: Ledger,
                          kept: Balance)
    requires id in s.proj.projects && s.proj.projects[id].freelancer.Some?
    requires SiteMoney(cfg, s, id, ruling, loser, l) && m.locks == l.locks
    ensures CoversLocks(m, loser, kept) <==>
      forall k :: LockedAtSettlement(s, id, ruling, loser, k) ==> s.ledger.locks[k] <= kept
  {
    hide LockIdOf, FreeAtSettlement, LockedAtSettlement;
    if CoversLocks(m, loser, kept) {
      forall k | LockedAtSettlement(s, id, ruling, loser, k) ensures s.ledger.locks[k] <= kept {
        assert k in l.locks && k.0 == loser;
        assert m.locks[k] <= kept;
      }
    }
  }

  // ---------- the whole call ----------

  /** The guards of an enforcement on the state before it, apart from the money for the jurors. */
  ghost predicate Ready(cfg: Config, s: State, id: ProjectId) {
    && id in s.arb.disputes && id in s.proj.projects
    && (var d, p := s.arb.disputes[id], s.proj.projects[id];
        && d.status == Appealable && d.ruling.Some? && p.freelancer.Some?
        && s.now >= WindowEnd(cfg, d)
        && RulingFits(cfg, s, id, d.ruling.value)
        && OutcomeFits(cfg, s.now, RepAfterRuling(cfg, s, id, d.ruling.value),
                       WinningParty(d.ruling.value, p.client, p.freelancer.value),
                       LosingParty(d.ruling.value, p.client, p.freelancer.value)))
  }

  /** All its guards. */
  ghost predicate Enforceable(cfg: Config, s: State, id: ProjectId) {
    && Ready(cfg, s, id)
    && SumMap(Prefix(s.arb.rewards, id)) <= Collected(cfg, s, id, s.arb.disputes[id].ruling.value)
  }

  lemma EnforceUnfolds(cfg: Config, s: State, id: ProjectId)
    ensures AfterEnforceFinalRuling(cfg, s, id).Ok? ==>
      && id in s.arb.disputes && id in s.proj.projects
      && s.arb.disputes[id].status == Appealable && s.arb.disputes[id].ruling.Some?
      && s.proj.projects[id].freelancer.Some? && s.now >= WindowEnd(cfg, s.arb.disputes[id])
      && AfterOnRuling(cfg, s.now, s.Site(), id, s.arb.disputes[id].ruling.value).Ok?
  {
    hide AfterOnRuling, AfterPayouts, AfterDisputeOutcome;
  }

  lemma StagesUnfold(cfg: Config, s: State, id: ProjectId, winner: AccountId, loser: AccountId, site: ProjWorld)
    requires RulingStage(cfg, s, id, winner, loser, site) && s.now >= WindowEnd(cfg, s.arb.disputes[id])
    ensures var r := AfterPayouts(cfg, site.ledger, s.arb, id, winner, loser);
      AfterEnforceFinalRuling(cfg, s, id).Ok? <==>
        r.Ok? && AfterDisputeOutcome(cfg, s.now, RepWorld(r.value, site.rep), winner, loser).Ok?
  {
    hide AfterOnRuling, AfterPayouts, AfterDisputeOutcome;
  }

  /** The settlement after a ruling, in terms of the state before the call. */
  lemma SettlementExactly(cfg: Config, s: State, id: ProjectId, winner: AccountId, loser: AccountId, site: ProjWorld,
                          created: nat)
    requires Inv(cfg, s, created) && RulingStage(cfg, s, id, winner, loser, site)
    ensures var ruling := s.arb.disputes[id].ruling.value;
      var bonds, rewards := Prefix(s.arb.bonds, id), Prefix(s.arb.rewards, id);
      var r := AfterPayouts(cfg, site.ledger, s.arb, id, winner, loser);
      && (r.Ok? <==> SumMap(rewards) <= Collected(cfg, s, id, ruling))
      && (r.Err? ==> r == Err(PaymentFailed))
      && (r.Ok? ==> SettlementFrees(cfg, site.ledger, r.value, bonds, rewards, winner, loser,
                                    CostsBorne(cfg, s, id, ruling)))
  {
    hide Inv, AfterOnRuling, AfterPayouts, SumMap, SiteMoney, OwnedIn, Posted, ReservesCover, Unlocked, LoserPays;
    hide CostsPaid, CostsBorne, Slashed, Forfeited;
    SettlementReady(cfg, s, id, winner, loser, site, created);
    InvCases(cfg, s, created);
    SettlementParties(cfg, s, id, winner, loser, site);
    SiteMoneyHolds(cfg, s, id, winner, loser, site, created);
    var ruling := s.arb.disputes[id].ruling.value;
    PayoutsExactly(cfg, site.ledger, s.arb, id, winner, loser);
    RemainderExactly(cfg, s, id, ruling, winner, loser, site.ledger);
    SiteArbitrator(cfg, s, id, ruling, loser, site.ledger);
  }

  lemma InvCases(cfg: Config, s: State, created: nat)
    requires Inv(cfg, s, created)
    ensures AllCases(cfg, s)
  {
  }

  lemma SiteArbitrator(cfg: Config, s: State, id: ProjectId, ruling: Ruling, loser: AccountId, l: Ledger)
    requires id in s.proj.projects && s.proj.projects[id].freelancer.Some?
    requires SiteMoney(cfg, s, id, ruling, loser, l)
    ensures Free(l, cfg.arbitrator) == Free(s.ledger, cfg.arbitrator)
  {
  }

  /**
    In a reachable state an enforcement succeeds exactly when all its guards hold, also when
    client and freelancer are one account: the appeal period is over; if the freelancer won, the client's free
    balance bears the budget and still covers its other locks; the parties are registered and
    find room in whatever juror pools they are due for; and the pallet's funds, with the
    loser's bonds and what the loser can bear of the costs, reach the jurors' rewards.
  */
  lemma EnforcementSucceedsExactly(cfg: Config, s: State, id: ProjectId, created: nat)
    requires Inv(cfg, s, created)
    ensures AfterEnforceFinalRuling(cfg, s, id).Ok? <==> Enforceable(cfg, s, id)
  {
    hide Inv, AfterEnforceFinalRuling, AfterOnRuling, AfterPayouts, AfterDisputeOutcome;
    hide RulingFits, RepAfterRuling, OutcomeFits, Collected, SumMap;
    EnforceUnfolds(cfg, s, id);
    if id in s.arb.disputes && id in s.proj.projects && s.arb.disputes[id].status == Appealable
       && s.arb.disputes[id].ruling.Some? && s.proj.projects[id].freelancer.Some?
       && s.now >= WindowEnd(cfg, s.arb.disputes[id])
    {
      var p, ruling := s.proj.projects[id], s.arb.disputes[id].ruling.value;
      var winner, loser := WinningParty(ruling, p.client, p.freelancer.value), LosingParty(ruling, p.client,
                                                                                           p.freelancer.value);
      RulingExactly(cfg, s, id, ruling);
      if RulingFits(cfg, s, id, ruling) {
        var site := AfterOnRuling(cfg, s.now, s.Site(), id, ruling).value;
        assert RulingStage(cfg, s, id, winner, loser, site);
        StagesUnfold(cfg, s, id, winner, loser, site);
        SettlementExactly(cfg, s, id, winner, loser, site, created);
        var paid := AfterPayouts(cfg, site.ledger, s.arb, id, winner, loser);
        if paid.Ok? {
          OutcomeExactly(cfg, s.now, RepWorld(paid.value, site.rep), winner, loser);
        }
      }
    }
  }

  /** With everything else in order, an enforcement that cannot pay the jurors fails for that reason. */
  lemma UnpaidJurorsBlock(cfg: Config, s: State, id: ProjectId, created: nat)
    requires Inv(cfg, s, created) && Ready(cfg, s, id)
    requires SumMap(Prefix(s.arb.rewards, id)) > Collected(cfg, s, id, s.arb.disputes[id].ruling.value)
    ensures AfterEnforceFinalRuling(cfg, s, id) == Err(PaymentFailed)
  {
    hide Inv, AfterEnforceFinalRuling, AfterOnRuling, AfterPayouts, AfterDisputeOutcome;
    hide RulingFits, RepAfterRuling, OutcomeFits, Collected, SumMap;
    var p, ruling := s.proj.projects[id], s.arb.disputes[id].ruling.value;
    var winner := WinningParty(ruling, p.client, p.freelancer.value);
    var loser := LosingParty(ruling, p.client, p.freelancer.value);
    RulingExactly(cfg, s, id, ruling);
    var site := AfterOnRuling(cfg, s.now, s.Site(), id, ruling).value;
    assert RulingStage(cfg, s, id, winner, loser, site);
    SettlementExactly(cfg, s, id, winner, loser, site, created);
    SettlementFails(cfg, s, id, winner, loser, site);
  }

  lemma SettlementFails(cfg: Config, s: State, id: ProjectId, winner: AccountId, loser: AccountId, site: ProjWorld)
    requires RulingStage(cfg, s, id, winner, loser, site) && s.now >= WindowEnd(cfg, s.arb.disputes[id])
    requires AfterPayouts(cfg, site.ledger, s.arb, id, winner, loser).Err?
    ensures AfterEnforceFinalRuling(cfg, s, id) == Err(AfterPayouts(cfg, site.ledger, s.arb, id, winner, loser).error)
  {
    hide AfterOnRuling, AfterPayouts, AfterDisputeOutcome;
  }
}
