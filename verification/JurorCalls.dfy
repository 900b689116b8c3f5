/**
  Every call of the reputation pallet keeps the juror index, the stakes and the money.
*/
module JurorCalls {
  import opened Prelude
  import opened Types
  import opened Currency
  import opened Reputation
  import opened JurorIndex
  import opened RunningMeans

  /** What each call establishes when it succeeds. */
  ghost predicate Kept(cfg: Config, w: RepWorld, v: RepWorld) {
    && JuryOk(cfg, v)
    && JuryStep(w, v)
    && (EveryJurorListed(w.rep) ==> EveryJurorListed(v.rep))
  }

  lemma KeptTwice(cfg: Config, w: RepWorld, v: RepWorld, u: RepWorld)
    requires Kept(cfg, w, v) && Kept(cfg, v, u)
    ensures Kept(cfg, w, u)
  {
    forall a ensures Slack(u, a) == Slack(w, a) && Holdings(u.ledger, a) == Holdings(w.ledger, a) {
      assert Slack(v, a) == Slack(w, a) && Holdings(v.ledger, a) == Holdings(w.ledger, a);
    }
  }

  /** The index after one account's statistics changed, before its tier is updated. */
  ghost predicate Pending(cfg: Config, r: RepStore, open: set<AccountId>) {
    IndexShape(cfg, r) && AllBounded(r) && forall a :: a !in open ==> Deserved(r, a)
  }

  lemma StatsPending(cfg: Config, w: RepWorld, who: AccountId, s: Stats, open: set<AccountId>)
    requires Pending(cfg, w.rep, open) && StatsBounded(s)
    requires AfterStats(w, who, s).Ok?
    ensures var v := AfterStats(w, who, s).value;
      && Pending(cfg, v.rep, open + {who})
      && JuryStep(w, v)
      && (forall a :: OffList(v.rep, a) <==> OffList(w.rep, a))
  {
    var v := AfterStats(w, who, s).value;
    SameLists(cfg, w.rep, v.rep);
    forall a ensures StatsBounded(StatsOf(v.rep, a)) {
      assert StatsBounded(StatsOf(w.rep, a));
    }
    forall a | a !in open + {who} ensures Deserved(v.rep, a) {
      assert Deserved(w.rep, a);
    }
  }

  /** Statistics that do not lower the tier need no tier update. */
  lemma StatsKept(cfg: Config, w: RepWorld, who: AccountId, s: Stats)
    requires JuryOk(cfg, w) && StatsBounded(s)
    requires AfterStats(w, who, s).Ok?
    requires Rank(TierFromStats(StatsOf(w.rep, who))) <= Rank(TierFromStats(s))
    ensures Kept(cfg, w, AfterStats(w, who, s).value)
  {
    StatsPending(cfg, w, who, s, {});
    var v := AfterStats(w, who, s).value;
    assert Deserved(w.rep, who);
    forall a ensures Deserved(v.rep, a) {
      if a != who {
        assert a !in {} + {who};
      }
    }
  }

  lemma UpdatePending(cfg: Config, w: RepWorld, who: AccountId, open: set<AccountId>)
    requires Pending(cfg, w.rep, open) && StakesBacked(w)
    requires AfterUpdateTier(cfg, w, who).error.None?
    ensures var v := AfterUpdateTier(cfg, w, who).world;
      && Pending(cfg, v.rep, open - {who})
      && JuryStep(w, v)
      && (EveryJurorListed(w.rep) ==> EveryJurorListed(v.rep))
  {
    UpdateTierKeeps(cfg, w, who);
    UpdateTierLists(cfg, w, who);
    var v := AfterUpdateTier(cfg, w, who).world;
    forall a | EveryJurorListed(w.rep) ensures !OffList(v.rep, a) {
      assert !OffList(w.rep, a);
    }
    forall a | a !in open - {who} ensures Deserved(v.rep, a) {
      if a != who {
        assert Deserved(w.rep, a);
        assert StatsOf(v.rep, a) == StatsOf(w.rep, a);
      }
    }
    forall a ensures StatsBounded(StatsOf(v.rep, a)) {
      assert StatsOf(v.rep, a) == StatsOf(w.rep, a);
    }
  }

  lemma SlackBacked(w: RepWorld, v: RepWorld)
    requires StakesBacked(w) && SameSlack(w, v)
    ensures StakesBacked(v)
  {
    forall a ensures Slack(v, a) >= 0 {
      assert Slack(v, a) == Slack(w, a);
    }
  }

  lemma NothingPending(cfg: Config, r: RepStore, open: set<AccountId>)
    requires Pending(cfg, r, open) && open == {}
    ensures IndexOk(cfg, r)
  {
    forall a ensures Deserved(r, a) {
      assert a !in open;
    }
  }

  lemma ProjectCompletedKeeps(cfg: Config, now: BlockNumber, w: RepWorld,
                              freelancer: AccountId, value: Balance, rating: nat)
    requires JuryOk(cfg, w)
    requires AfterProjectCompleted(cfg, now, w, freelancer, value, rating).Ok?
    ensures Kept(cfg, w, AfterProjectCompleted(cfg, now, w, freelancer, value, rating).value)
  {
    var was := StatsOf(w.rep, freelancer);
    var s := StatsAfterCompletion(cfg, now, was, value, rating);
    assert StatsBounded(was);
    AverageStaysOnScale(was.avgRatingReceived, was.totalRatingsReceived, rating);
    StatsPending(cfg, w, freelancer, s, {});
    var w1 := AfterStats(w, freelancer, s).value;
    SlackBacked(w, w1);
    UpdatePending(cfg, w1, freelancer, {freelancer});
    var v := AfterUpdateTier(cfg, w1, freelancer).world;
    SlackBacked(w1, v);
    NothingPending(cfg, v.rep, {} + {freelancer} - {freelancer});
  }

  lemma DisputeOutcomeKeeps(cfg: Config, now: BlockNumber, w: RepWorld, winner: AccountId, loser: AccountId)
    requires JuryOk(cfg, w)
    requires AfterDisputeOutcome(cfg, now, w, winner, loser).Ok?
    ensures Kept(cfg, w, AfterDisputeOutcome(cfg, now, w, winner, loser).value)
  {
    assert StatsBounded(StatsOf(w.rep, winner));
    StatsPending(cfg, w, winner, StatsAfterWin(now, StatsOf(w.rep, winner)), {});
    var w1 := AfterStats(w, winner, StatsAfterWin(now, StatsOf(w.rep, winner))).value;
    assert StatsBounded(StatsOf(w1.rep, loser));
    StatsPending(cfg, w1, loser, StatsAfterLoss(now, StatsOf(w1.rep, loser)), {winner});
    var w2 := AfterStats(w1, loser, StatsAfterLoss(now, StatsOf(w1.rep, loser))).value;
    SlackBacked(w, w1);
    SlackBacked(w1, w2);
    UpdatePending(cfg, w2, winner, {winner, loser});
    var w3 := AfterUpdateTier(cfg, w2, winner).world;
    SlackBacked(w2, w3);
    UpdatePending(cfg, w3, loser, {winner, loser} - {winner});
    var v := AfterUpdateTier(cfg, w3, loser).world;
    SlackBacked(w3, v);
    NothingPending(cfg, v.rep, {winner, loser} - {winner} - {loser});
  }

  lemma ProjectCreatedKeeps(cfg: Config, now: BlockNumber, w: RepWorld, client: AccountId, budget: Balance)
    requires JuryOk(cfg, w)
    requires AfterProjectCreated(cfg, now, w, client, budget).Ok?
    ensures Kept(cfg, w, AfterProjectCreated(cfg, now, w, client, budget).value)
  {
    var s := StatsOf(w.rep, client);
    assert StatsBounded(s);
    StatsKept(cfg, w, client, s.(projectsPosted := SatAdd(s.projectsPosted, 1, U32_MAX),
                                 totalSpent := SatAdd(s.totalSpent, budget, cfg.maxBalance),
                                 lastActivityBlock := now));
  }

  lemma ProjectCancelledKeeps(cfg: Config, now: BlockNumber, w: RepWorld, client: AccountId)
    requires JuryOk(cfg, w)
    requires AfterProjectCancelled(now, w, client).Ok?
    ensures Kept(cfg, w, AfterProjectCancelled(now, w, client).value)
  {
    var s := StatsOf(w.rep, client);
    assert StatsBounded(s);
    StatsKept(cfg, w, client, s.(projectsFailed := SatAdd(s.projectsFailed, 1, U32_MAX), lastActivityBlock := now));
  }

  /** Accepted work raises the client's count without a tier update: the cached tier may lag, never lead. */
  lemma WorkAcceptedKeeps(cfg: Config, now: BlockNumber, w: RepWorld, client: AccountId)
    requires JuryOk(cfg, w)
    requires AfterWorkAccepted(now, w, client).Ok?
    ensures Kept(cfg, w, AfterWorkAccepted(now, w, client).value)
  {
    var s := StatsOf(w.rep, client);
    assert StatsBounded(s);
    StatsKept(cfg, w, client,
              s.(projectsCompleted := SatAdd(s.projectsCompleted, 1, U32_MAX), lastActivityBlock := now));
  }

  lemma RegisterUserKeeps(cfg: Config, now: BlockNumber, w: RepWorld, who: AccountId)
    requires JuryOk(cfg, w)
    requires AfterRegisterUser(now, w, who).Ok?
    ensures Kept(cfg, w, AfterRegisterUser(now, w, who).value)
  {
    var v := AfterRegisterUser(now, w, who).value;
    SameLists(cfg, w.rep, v.rep);
    forall a ensures Deserved(v.rep, a) && StatsBounded(StatsOf(v.rep, a)) {
      assert Deserved(w.rep, a) && StatsBounded(StatsOf(w.rep, a));
    }
    SlackBacked(w, v);
  }

  function Enrolled(r: RepStore, who: AccountId, tier: JurorTier): RepStore {
    r.(stakeOf := r.stakeOf[who := r.jurorStake],
       registry := r.registry + {who},
       tiers := r.tiers[who := tier])
  }

  lemma EnrollingKeepsShape(cfg: Config, r: RepStore, who: AccountId, tier: JurorTier)
    requires IndexShape(cfg, r) && who !in r.registry && who != cfg.arbitrator
    ensures var v := Enrolled(r, who, tier);
      IndexShape(cfg, v) && OnNoList(v, who) && OnlyTouches(r, v, who)
  {
    var v := Enrolled(r, who, tier);
    assert forall t :: Pool(v, t) == Pool(r, t);
    forall t, a | a in Pool(v, t) ensures a in v.registry && TierOf(v, a) == t && a != who {
      assert a in Pool(r, t);
    }
  }

  lemma StakingKeepsSlack(w: RepWorld, who: AccountId, r: RepStore)
    requires who !in w.rep.stakeOf && AfterReserve(w.ledger, who, w.rep.jurorStake).Ok?
    requires r.stakeOf == w.rep.stakeOf[who := w.rep.jurorStake]
    ensures var v := RepWorld(AfterReserve(w.ledger, who, w.rep.jurorStake).value, r);
      SameSlack(w, v) && SameMoney(w.ledger, v.ledger)
  {
    ReserveConserves(w.ledger, who, w.rep.jurorStake);
  }

  /** Statistics untouched, one juror's index entry rewritten. */
  lemma OnlyTouchesKeeps(cfg: Config, r: RepStore, v: RepStore, who: AccountId)
    requires IndexOk(cfg, r) && IndexShape(cfg, v) && OnlyTouches(r, v, who) && Deserved(v, who)
    ensures IndexOk(cfg, v)
    ensures EveryJurorListed(r) && !OffList(v, who) ==> EveryJurorListed(v)
  {
    forall a ensures Deserved(v, a) && StatsBounded(StatsOf(v, a)) {
      assert Deserved(r, a) && StatsBounded(StatsOf(r, a));
    }
    forall a | a != who ensures OffList(v, a) <==> OffList(r, a) {
    }
  }

  lemma RegisterAsJurorKeeps(cfg: Config, w: RepWorld, who: AccountId)
    requires JuryOk(cfg, w) && who != cfg.arbitrator
    requires AfterRegisterAsJuror(cfg, w, who).Ok?
    ensures Kept(cfg, w, AfterRegisterAsJuror(cfg, w, who).value)
  {
    var v := AfterRegisterAsJuror(cfg, w, who).value;
    var tier := TierFromStats(StatsOf(w.rep, who));
    var enrolled := Enrolled(w.rep, who, tier);
    EnrollingKeepsShape(cfg, w.rep, who, tier);
    AdditionKeepsShape(cfg, enrolled, who, tier);
    TouchesOnceMore(w.rep, enrolled, v.rep, who);
    OnlyTouchesKeeps(cfg, w.rep, v.rep, who);
    assert who !in w.rep.stakeOf.Keys;
    StakingKeepsSlack(w, who, v.rep);
    SlackBacked(w, v);
  }

  lemma DeregisterAsJurorKeeps(cfg: Config, w: RepWorld, who: AccountId)
    requires JuryOk(cfg, w)
    requires AfterDeregisterAsJuror(w, who).Ok?
    ensures Kept(cfg, w, AfterDeregisterAsJuror(w, who).value)
  {
    var v := AfterDeregisterAsJuror(w, who).value;
    LeavingKeeps(cfg, w, who);
    OnlyTouchesKeeps(cfg, w.rep, v.rep, who);
    SlackBacked(w, v);
  }

  lemma RestakingKeeps(cfg: Config, r: RepStore, juror: AccountId, stake: Balance)
    requires IndexOk(cfg, r) && juror in r.stakeOf
    ensures var v := r.(stakeOf := r.stakeOf[juror := stake]);
      IndexOk(cfg, v) && (EveryJurorListed(r) ==> EveryJurorListed(v))
  {
    var v := r.(stakeOf := r.stakeOf[juror := stake]);
    SameLists(cfg, r, v);
    forall a ensures Deserved(v, a) && StatsBounded(StatsOf(v, a)) {
      assert Deserved(r, a) && StatsBounded(StatsOf(r, a));
    }
  }

  /** The money side of a slash: the stake and the reserve shrink together. */
  lemma SlashingKeepsSlack(cfg: Config, w: RepWorld, juror: AccountId, r: RepStore)
    requires StakesBacked(w) && Balanced(w.ledger) && juror in w.rep.stakeOf
    requires var slash := PermillOf(cfg.slashRatio, w.rep.stakeOf[juror]);
      || r.stakeOf == w.rep.stakeOf[juror := w.rep.stakeOf[juror] - slash]
      || (w.rep.stakeOf[juror] == slash && r.stakeOf == w.rep.stakeOf - {juror})
    ensures var slash := PermillOf(cfg.slashRatio, w.rep.stakeOf[juror]);
      var (taken, imbalance) := AfterSlashReserved(w.ledger, juror, slash);
      var v := RepWorld(AfterDropImbalance(taken, imbalance), r);
      && SameSlack(w, v) && Balanced(v.ledger)
      && v.ledger.issuance == w.ledger.issuance - slash
      && v.ledger.locks == w.ledger.locks
  {
    var slash := PermillOf(cfg.slashRatio, w.rep.stakeOf[juror]);
    assert Slack(w, juror) >= 0;
    SlashBurns(w.ledger, juror, slash);
  }

  lemma SlashedIndex(cfg: Config, w: RepWorld, juror: AccountId)
    requires JuryOk(cfg, w)
    requires AfterSlashJuror(cfg, w, juror).Ok?
    ensures var v := AfterSlashJuror(cfg, w, juror).value.rep;
      IndexOk(cfg, v) && (EveryJurorListed(w.rep) ==> EveryJurorListed(v))
  {
    var v := AfterSlashJuror(cfg, w, juror).value.rep;
    var stake := w.rep.stakeOf[juror];
    var slash := PermillOf(cfg.slashRatio, stake);
    if stake == slash {
      LeavingKeeps(cfg, w, juror);
      OnlyTouchesKeeps(cfg, w.rep, v, juror);
    } else {
      RestakingKeeps(cfg, w.rep, juror, stake - slash);
    }
  }

  lemma RemovalOnlyPools(r: RepStore, who: AccountId)
    ensures var v := AfterRemoveFromTierList(r, who, TierOf(r, who));
      && v.stakeOf == r.stakeOf
      && Unlisted(v.(stakeOf := v.stakeOf - {who}), who).stakeOf == r.stakeOf - {who}
  {
  }

  /** A slash burns money, takes it from the stake, and leaves every other claim on the reserve alone. */
  lemma SlashJurorKeeps(cfg: Config, w: RepWorld, juror: AccountId)
    requires JuryOk(cfg, w) && Balanced(w.ledger)
    requires AfterSlashJuror(cfg, w, juror).Ok?
    ensures var v := AfterSlashJuror(cfg, w, juror).value;
      && JuryOk(cfg, v)
      && SameSlack(w, v)
      && Balanced(v.ledger)
      && v.ledger.issuance == w.ledger.issuance - PermillOf(cfg.slashRatio, w.rep.stakeOf[juror])
      && v.ledger.locks == w.ledger.locks
      && (EveryJurorListed(w.rep) ==> EveryJurorListed(v.rep))
  {
    var v := AfterSlashJuror(cfg, w, juror).value;
    SlashedIndex(cfg, w, juror);
    var stake := w.rep.stakeOf[juror];
    hide IndexOk, EveryJurorListed, PermillOf, Unlisted;
    RemovalOnlyPools(w.rep, juror);
    SlashingKeepsSlack(cfg, w, juror, v.rep);
    hide AfterSlashJuror;
    SlackBacked(w, v);
  }

  // ---------- jury votes ----------

  /** A registered account with a tier, due a tier whose pool is full: its next jury vote takes it off the lists. */
  predicate DropsJuror(cfg: Config, r: RepStore, juror: AccountId) {
    && StatsOf(r, juror).registrationBlock != 0
    && TierOf(r, juror) != Ineligible
    && Blocked(cfg, r, juror)
  }

  /**
    The discarded result of a jury vote never harms the index, the stakes or the money. It
    takes a juror off its list exactly when a promotion meets a full pool, and no one else.
  */
  lemma JuryVoteKeeps(cfg: Config, now: BlockNumber, w: RepWorld, juror: AccountId, withMajority: bool)
    requires JuryOk(cfg, w)
    ensures var v := AfterJuryVote(cfg, now, w, juror, withMajority).world;
      && JuryOk(cfg, v)
      && JuryStep(w, v)
      && (!OffList(w.rep, juror) ==> (OffList(v.rep, juror) <==> DropsJuror(cfg, w.rep, juror)))
      && (forall a :: a != juror ==> (OffList(v.rep, a) <==> OffList(w.rep, a)))
  {
    var was := StatsOf(w.rep, juror);
    var s := StatsAfterVote(now, was, withMajority);
    assert StatsBounded(was);
    assert StatsBounded(s) && TierFromStats(s) == TierFromStats(was);
    hide TierFromStats, NextAccuracy, StatsBounded, StatsAfterVote, AfterUpdateTier, IndexShape, Pending;
    if AfterStats(w, juror, s).Ok? {
      StatsKept(cfg, w, juror, s);
      PendingNothing(cfg, w);
      StatsPending(cfg, w, juror, s, {});
      var w1 := AfterStats(w, juror, s).value;
      UpdateTierKeeps(cfg, w1, juror);
      UpdateTierLists(cfg, w1, juror);
      var a := AfterUpdateTier(cfg, w1, juror);
      VoteIndexKept(cfg, w1, a, juror);
      SlackBacked(w1, a.world);
      forall b ensures Slack(a.world, b) == Slack(w, b) {
        assert Slack(w1, b) == Slack(w, b);
      }
    }
  }

  lemma PendingNothing(cfg: Config, w: RepWorld)
    requires IndexOk(cfg, w.rep)
    ensures Pending(cfg, w.rep, {})
  {
  }

  /** Statistics untouched by the update, every tier still deserved. */
  lemma VoteIndexKept(cfg: Config, w: RepWorld, a: Attempt, juror: AccountId)
    requires IndexOk(cfg, w.rep) && IndexShape(cfg, a.world.rep) && OnlyTouches(w.rep, a.world.rep, juror)
    requires a.error.None? ==> Deserved(a.world.rep, juror)
    requires a.error.Some? ==> a.world.rep.tiers == w.rep.tiers && a.world.rep.registry == w.rep.registry
    ensures IndexOk(cfg, a.world.rep)
  {
    hide IndexShape, TierFromStats;
    forall b ensures Deserved(a.world.rep, b) && StatsBounded(StatsOf(a.world.rep, b)) {
      assert Deserved(w.rep, b) && StatsBounded(StatsOf(w.rep, b));
    }
  }

  lemma RefusalKeepsTiers(cfg: Config, w: RepWorld, who: AccountId)
    requires Blocked(cfg, w.rep, who)
    ensures AfterUpdateTier(cfg, w, who).world.rep.tiers == w.rep.tiers
  {
    UpdateTierFails(cfg, w, who);
    hide TierFromStats, WithoutFirst, Blocked;
  }

  /** A dropped juror keeps the old tier by the books. */
  lemma DroppedKeepsTier(cfg: Config, now: BlockNumber, w: RepWorld, juror: AccountId, withMajority: bool)
    requires DropsJuror(cfg, w.rep, juror)
    ensures TierOf(AfterJuryVote(cfg, now, w, juror, withMajority).world.rep, juror) == TierOf(w.rep, juror)
  {
    var s := StatsAfterVote(now, StatsOf(w.rep, juror), withMajority);
    assert TierFromStats(s) == TierFromStats(StatsOf(w.rep, juror));
    hide TierFromStats, StatsAfterVote, AfterUpdateTier;
    RefusalKeepsTiers(cfg, AfterStats(w, juror, s).value, juror);
  }
}
