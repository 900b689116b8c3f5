/**
  What every reputation call keeps: the pools, the tier map, the registry and the stake map
  agree with each other and never promise more than the statistics support; the reserved
  balances behind the stakes stay exact; and no money appears or disappears.
*/
module JurorIndex {
  import opened Prelude
  import opened Types
  import opened Currency
  import opened Reputation

  /** The pools, the tier map, the registry and the stakes agree. */
  ghost predicate IndexShape(cfg: Config, r: RepStore) {
    && (forall t :: Distinct(Pool(r, t)) && |Pool(r, t)| <= Capacity(cfg, t))
    && (forall t, a :: a in Pool(r, t) ==> a in r.registry && TierOf(r, a) == t)
    && r.stakeOf.Keys == r.registry
    && r.tiers.Keys <= r.registry
    && cfg.arbitrator !in r.registry
  }

  /** The cached tier is never better than the statistics. */
  ghost predicate Deserved(r: RepStore, a: AccountId) {
    a in r.registry ==> Rank(TierOf(r, a)) <= Rank(TierFromStats(StatsOf(r, a)))
  }

  ghost predicate AllDeserved(r: RepStore) {
    forall a :: Deserved(r, a)
  }

  /** Averages stay on their scales, counts within their width. */
  ghost predicate StatsBounded(s: Stats) {
    s.avgRatingReceived <= 5000 && s.juryAccuracy <= PERMILL_ONE && s.projectsCompleted <= U32_MAX
  }

  ghost predicate AllBounded(r: RepStore) {
    forall a :: StatsBounded(StatsOf(r, a))
  }

  ghost predicate IndexOk(cfg: Config, r: RepStore) {
    IndexShape(cfg, r) && AllDeserved(r) && AllBounded(r)
  }

  /** A registered juror with a tier who is in no pool, so cannot be selected. */
  predicate OffList(r: RepStore, a: AccountId) {
    a in r.registry && TierOf(r, a) != Ineligible && a !in Pool(r, TierOf(r, a))
  }

  /** The converse of membership: every juror with a tier can be selected. */
  ghost predicate EveryJurorListed(r: RepStore) {
    forall a :: !OffList(r, a)
  }

  /** What an account's reserve holds beyond its stake. */
  function Slack(w: RepWorld, a: AccountId): int {
    Reserved(w.ledger, a) - StakeOf(w.rep, a)
  }

  ghost predicate StakesBacked(w: RepWorld) {
    forall a :: Slack(w, a) >= 0
  }

  ghost predicate SameSlack(w: RepWorld, v: RepWorld) {
    forall a :: Slack(v, a) == Slack(w, a)
  }

  ghost predicate SameHoldings(l: Ledger, m: Ledger) {
    forall a :: Holdings(m, a) == Holdings(l, a)
  }

  ghost predicate SameMoney(l: Ledger, m: Ledger) {
    SameHoldings(l, m) && Worth(m) == Worth(l) && m.issuance == l.issuance && m.locks == l.locks
  }

  ghost predicate JuryOk(cfg: Config, w: RepWorld) {
    IndexOk(cfg, w.rep) && StakesBacked(w)
  }

  /** What a reputation call does to the currency and to the stakes. */
  ghost predicate JuryStep(w: RepWorld, v: RepWorld) {
    SameSlack(w, v) && SameMoney(w.ledger, v.ledger) && v.rep.jurorStake == w.rep.jurorStake
  }

  // ---------- the tier lists ----------

  lemma WithoutFirstRemoves(s: seq<AccountId>, who: AccountId)
    requires Distinct(s)
    ensures var r := WithoutFirst(s, who);
      && Distinct(r) && |r| <= |s|
      && forall a :: a in r <==> a in s && a != who
  {
    if who in s {
      var i, n := Position(s, who), |s| - 1;
      var r := SwapRemove(s, i);
      forall a | a in s && a != who ensures a in r {
        var k :| 0 <= k < |s| && s[k] == a;
        if k == n {
          assert r[i] == a;
        } else {
          assert r[k] == a;
        }
      }
    }
  }

  lemma WithPoolReads(r: RepStore, t: JurorTier, jurors: seq<AccountId>)
    requires t == Ineligible ==> jurors == []
    ensures var v := WithPool(r, t, jurors);
      && Pool(v, t) == jurors
      && (forall u :: u != t ==> Pool(v, u) == Pool(r, u))
      && v == r.(gold := v.gold, silver := v.silver, bronze := v.bronze)
  {
  }

  /** Everything but `who` is as before. */
  ghost predicate OnlyTouches(r: RepStore, v: RepStore, who: AccountId) {
    && v.stats == r.stats
    && v.jurorStake == r.jurorStake
    && (forall a :: a != who ==> (a in v.registry <==> a in r.registry) && TierOf(v, a) == TierOf(r, a))
    && (forall t, a :: a != who ==> (a in Pool(v, t) <==> a in Pool(r, t)))
  }

  lemma TouchesOnceMore(r: RepStore, v: RepStore, u: RepStore, who: AccountId)
    requires OnlyTouches(r, v, who) && OnlyTouches(v, u, who)
    ensures OnlyTouches(r, u, who)
  {
  }

  lemma SameLists(cfg: Config, r: RepStore, v: RepStore)
    requires v.gold == r.gold && v.silver == r.silver && v.bronze == r.bronze
    requires v.tiers == r.tiers && v.registry == r.registry && v.stakeOf.Keys == r.stakeOf.Keys
    ensures IndexShape(cfg, r) ==> IndexShape(cfg, v)
    ensures forall a :: OffList(v, a) <==> OffList(r, a)
  {
    assert forall t :: Pool(v, t) == Pool(r, t);
    if IndexShape(cfg, r) {
      forall t, a | a in Pool(v, t) ensures a in v.registry && TierOf(v, a) == t {
        assert a in Pool(r, t);
      }
    }
  }

  ghost predicate OnNoList(r: RepStore, who: AccountId) {
    forall t :: who !in Pool(r, t)
  }

  /** Taking a juror off the list of the cached tier takes it off every list. */
  lemma RemovalEmpties(cfg: Config, r: RepStore, who: AccountId)
    requires IndexShape(cfg, r)
    ensures var v := AfterRemoveFromTierList(r, who, TierOf(r, who));
      && (forall u :: Distinct(Pool(v, u)) && |Pool(v, u)| <= |Pool(r, u)|)
      && (forall u, a :: a in Pool(v, u) <==> a in Pool(r, u) && a != who)
      && v == r.(gold := v.gold, silver := v.silver, bronze := v.bronze)
  {
    var t := TierOf(r, who);
    WithoutFirstRemoves(Pool(r, t), who);
    WithPoolReads(r, t, WithoutFirst(Pool(r, t), who));
    hide Pool, Capacity, WithPool, WithoutFirst;
    var v := AfterRemoveFromTierList(r, who, t);
    forall u, a ensures a in Pool(v, u) <==> a in Pool(r, u) && a != who {
      if u != t {
        assert Pool(v, u) == Pool(r, u);
      }
    }
  }

  lemma RemovalKeepsShape(cfg: Config, r: RepStore, who: AccountId)
    requires IndexShape(cfg, r)
    ensures var v := AfterRemoveFromTierList(r, who, TierOf(r, who));
      && IndexShape(cfg, v)
      && OnNoList(v, who)
      && OnlyTouches(r, v, who)
      && v == r.(gold := v.gold, silver := v.silver, bronze := v.bronze)
  {
    hide Pool, Capacity, AfterRemoveFromTierList, Distinct;
    RemovalEmpties(cfg, r, who);
    var v := AfterRemoveFromTierList(r, who, TierOf(r, who));
    forall u ensures Distinct(Pool(v, u)) && |Pool(v, u)| <= Capacity(cfg, u) {
      assert Distinct(Pool(r, u)) && |Pool(r, u)| <= Capacity(cfg, u);
    }
    forall u, a | a in Pool(v, u) ensures a in v.registry && TierOf(v, a) == u {
      assert a in Pool(r, u);
    }
  }

  lemma AdditionKeepsShape(cfg: Config, r: RepStore, who: AccountId, t: JurorTier)
    requires IndexShape(cfg, r) && who in r.registry && TierOf(r, who) == t
    requires OnNoList(r, who)
    requires AfterAddToTierList(cfg, r, who, t).Ok?
    ensures var v := AfterAddToTierList(cfg, r, who, t).value;
      && IndexShape(cfg, v)
      && (t != Ineligible ==> who in Pool(v, t))
      && OnlyTouches(r, v, who)
      && v == r.(gold := v.gold, silver := v.silver, bronze := v.bronze)
  {
    if t != Ineligible {
      AdditionReads(cfg, r, who, t);
      hide Pool, Capacity, AfterAddToTierList;
      var v := AfterAddToTierList(cfg, r, who, t).value;
      assert who !in Pool(r, t);
      forall u ensures Distinct(Pool(v, u)) && |Pool(v, u)| <= Capacity(cfg, u) {
        assert Distinct(Pool(r, u)) && |Pool(r, u)| <= Capacity(cfg, u);
      }
      forall u, a ensures a in Pool(v, u) <==> a in Pool(r, u) || (u == t && a == who) {
        if u != t {
          assert Pool(v, u) == Pool(r, u);
        }
      }
    }
  }

  /** An addition appends to one pool that had room. */
  lemma AdditionReads(cfg: Config, r: RepStore, who: AccountId, t: JurorTier)
    requires t != Ineligible && AfterAddToTierList(cfg, r, who, t).Ok?
    ensures var v := AfterAddToTierList(cfg, r, who, t).value;
      && |Pool(r, t)| < Capacity(cfg, t) && Pool(v, t) == Pool(r, t) + [who]
      && (forall u :: u != t ==> Pool(v, u) == Pool(r, u))
      && v == r.(gold := v.gold, silver := v.silver, bronze := v.bronze)
  {
    WithPoolReads(r, t, Pool(r, t) + [who]);
    hide Pool, Capacity, WithPool;
  }

  lemma UnlistingKeepsShape(cfg: Config, r: RepStore, who: AccountId)
    requires IndexShape(cfg, r) && OnNoList(r, who)
    ensures var v := Unlisted(r.(stakeOf := r.stakeOf - {who}), who);
      && IndexShape(cfg, v)
      && OnNoList(v, who)
      && OnlyTouches(r, v, who)
  {
    var v := Unlisted(r.(stakeOf := r.stakeOf - {who}), who);
    assert forall t :: Pool(v, t) == Pool(r, t);
    forall t, a | a in Pool(v, t) ensures a in v.registry && TierOf(v, a) == t {
      assert a in Pool(r, t);
      assert a != who;
    }
  }

  lemma RelabellingKeepsShape(cfg: Config, r: RepStore, who: AccountId, t: JurorTier)
    requires IndexShape(cfg, r) && OnNoList(r, who) && who in r.registry
    ensures var v := r.(tiers := r.tiers[who := t]);
      && IndexShape(cfg, v)
      && OnNoList(v, who)
      && OnlyTouches(r, v, who)
  {
    var v := r.(tiers := r.tiers[who := t]);
    assert forall u :: Pool(v, u) == Pool(r, u);
    hide Pool, Capacity;
    forall u, a | a in Pool(v, u) ensures a in v.registry && TierOf(v, a) == u && a != who {
      assert a in Pool(r, u);
    }
  }

  // ---------- the tier update ----------

  lemma UnstakingKeepsSlack(w: RepWorld, who: AccountId, r: RepStore)
    requires StakesBacked(w) && who in w.rep.stakeOf
    requires r.stakeOf == w.rep.stakeOf - {who}
    ensures var v := RepWorld(AfterUnreserve(w.ledger, who, w.rep.stakeOf[who]), r);
      && SameSlack(w, v)
      && SameMoney(w.ledger, v.ledger)
  {
    assert Slack(w, who) >= 0;
    UnreserveConserves(w.ledger, who, w.rep.stakeOf[who]);
  }

  lemma LeavingKeeps(cfg: Config, w: RepWorld, who: AccountId)
    requires IndexShape(cfg, w.rep) && StakesBacked(w)
    requires who in w.rep.registry
    ensures who in w.rep.stakeOf && AfterRemoveFromTierList(w.rep, who, TierOf(w.rep, who)).stakeOf == w.rep.stakeOf
    ensures var removed := AfterRemoveFromTierList(w.rep, who, TierOf(w.rep, who));
      var rep := Unlisted(removed.(stakeOf := removed.stakeOf - {who}), who);
      && IndexShape(cfg, rep)
      && JuryStep(w, RepWorld(AfterUnreserve(w.ledger, who, w.rep.stakeOf[who]), rep))
      && OnlyTouches(w.rep, rep, who)
      && who !in rep.registry
  {
    var removed := AfterRemoveFromTierList(w.rep, who, TierOf(w.rep, who));
    var rep := Unlisted(removed.(stakeOf := removed.stakeOf - {who}), who);
    RemovalKeepsShape(cfg, w.rep, who);
    UnlistingKeepsShape(cfg, removed, who);
    TouchesOnceMore(w.rep, removed, rep, who);
    UnstakingKeepsSlack(w, who, rep);
  }

  lemma MovingKeeps(cfg: Config, r: RepStore, who: AccountId, due: JurorTier)
    requires IndexShape(cfg, r) && who in r.registry && due != Ineligible
    ensures var removed := AfterRemoveFromTierList(r, who, TierOf(r, who));
      && IndexShape(cfg, removed)
      && OnlyTouches(r, removed, who)
      && OnNoList(removed, who)
      && removed == r.(gold := removed.gold, silver := removed.silver, bronze := removed.bronze)
      && match AfterAddToTierList(cfg, removed, who, due) {
           case Err(_) => true
           case Ok(added) =>
             var v := added.(tiers := added.tiers[who := due]);
             && IndexShape(cfg, v) && OnlyTouches(r, v, who) && TierOf(v, who) == due && who in Pool(v, due)
             && v == r.(gold := v.gold, silver := v.silver, bronze := v.bronze, tiers := v.tiers)
         }
  {
    var removed := AfterRemoveFromTierList(r, who, TierOf(r, who));
    RemovalKeepsShape(cfg, r, who);
    RelabellingKeepsShape(cfg, removed, who, due);
    var relabelled := removed.(tiers := removed.tiers[who := due]);
    TouchesOnceMore(r, removed, relabelled, who);
    if AfterAddToTierList(cfg, removed, who, due).Ok? {
      var added := AfterAddToTierList(cfg, removed, who, due).value;
      AdditionKeepsShape(cfg, relabelled, who, due);
      AddCommutesWithLabel(cfg, removed, who, due);
      TouchesOnceMore(r, relabelled, added.(tiers := added.tiers[who := due]), who);
    }
  }

  lemma AddCommutesWithLabel(cfg: Config, r: RepStore, who: AccountId, t: JurorTier)
    ensures match AfterAddToTierList(cfg, r, who, t)
            case Err(_) => true
            case Ok(v) =>
              AfterAddToTierList(cfg, r.(tiers := r.tiers[who := t]), who, t) == Ok(v.(tiers := v.tiers[who := t]))
  {
  }

  /**
    The tier update keeps the index whatever happens. It fails only when the pool of the tier
    the juror moves to is full.
  */
  lemma UpdateTierKeeps(cfg: Config, w: RepWorld, who: AccountId)
    requires IndexShape(cfg, w.rep) && StakesBacked(w)
    ensures var a := AfterUpdateTier(cfg, w, who); var v := a.world;
      && IndexShape(cfg, v.rep)
      && JuryStep(w, v)
      && OnlyTouches(w.rep, v.rep, who)
      && (a.error.None? ==> Deserved(v.rep, who))
      && (a.error.Some? ==> v.rep.tiers == w.rep.tiers && v.rep.registry == w.rep.registry)
  {
    hide IndexShape, OnlyTouches, JuryStep, StakesBacked, TierFromStats, AfterRemoveFromTierList, AfterAddToTierList;
    var was, due := TierOf(w.rep, who), TierFromStats(StatsOf(w.rep, who));
    SameStakes(w, AfterUpdateTier(cfg, w, who).world.rep);
    if who in w.rep.registry && was != due {
      if due == Ineligible {
        LeavingKeeps(cfg, w, who);
      } else {
        MovingKeeps(cfg, w.rep, who, due);
      }
    } else {
      TouchesNothing(w.rep, who);
    }
  }

  lemma SameStakes(w: RepWorld, r: RepStore)
    ensures r.stakeOf == w.rep.stakeOf && r.jurorStake == w.rep.jurorStake ==> JuryStep(w, RepWorld(w.ledger, r))
  {
  }

  lemma TouchesNothing(r: RepStore, who: AccountId)
    ensures OnlyTouches(r, r, who)
  {
  }

  /** A juror due another tier than the cached one, and no room in that tier's pool. */
  predicate Blocked(cfg: Config, r: RepStore, who: AccountId) {
    var due := TierFromStats(StatsOf(r, who));
    && who in r.registry
    && due != Ineligible && due != TierOf(r, who)
    && |Pool(r, due)| >= Capacity(cfg, due)
  }

  /** The tier update fails exactly for such a juror, and in one way only. */
  lemma UpdateTierFails(cfg: Config, w: RepWorld, who: AccountId)
    ensures AfterUpdateTier(cfg, w, who).error == if Blocked(cfg, w.rep, who) then Some(JurorPoolFull) else None
  {
    var was, due := TierOf(w.rep, who), TierFromStats(StatsOf(w.rep, who));
    if was != due && due != Ineligible {
      OtherPoolsStay(w.rep, was, due, WithoutFirst(Pool(w.rep, was), who));
    }
    hide TierFromStats, WithoutFirst;
  }

  lemma OtherPoolsStay(r: RepStore, t: JurorTier, u: JurorTier, jurors: seq<AccountId>)
    requires u != t
    ensures Pool(WithPool(r, t, jurors), u) == Pool(r, u)
  {
  }

  /** The update takes a listed juror off its list exactly when the pool it is due for is full. */
  lemma UpdateTierLists(cfg: Config, w: RepWorld, who: AccountId)
    requires IndexShape(cfg, w.rep) && StakesBacked(w)
    ensures var a := AfterUpdateTier(cfg, w, who);
      && (!OffList(w.rep, who) ==>
            (OffList(a.world.rep, who) <==> Blocked(cfg, w.rep, who) && TierOf(w.rep, who) != Ineligible))
      && (forall b :: b != who ==> (OffList(a.world.rep, b) <==> OffList(w.rep, b)))
  {
    var a := AfterUpdateTier(cfg, w, who);
    UpdateTierKeeps(cfg, w, who);
    UpdateTierFails(cfg, w, who);
    var was, due := TierOf(w.rep, who), TierFromStats(StatsOf(w.rep, who));
    if who in w.rep.registry && was != due && due != Ineligible {
      MovingKeeps(cfg, w.rep, who, due);
    }
    hide AfterUpdateTier;
    forall b | b != who ensures OffList(a.world.rep, b) <==> OffList(w.rep, b) {
    }
  }
}
