/**
  The genesis build establishes the invariant when its jurors are distinct, and breaks the
  reserve ledger exactly when a staked juror is listed twice.
*/
module GenesisTheorems {
  import opened Prelude
  import opened Types
  import opened Currency
  import opened Reputation
  import opened JurorIndex
  import opened JurorCalls
  import opened Projects
  import opened Arbitration
  import opened DisputeProtocol
  import opened Money
  import opened ReserveLedger
  import opened ChainInvariant

  /** A ledger before anything was reserved or locked. */
  ghost predicate Unencumbered(l: Ledger) {
    l.locks == map[] && forall a :: Reserved(l, a) == 0
  }

  ghost predicate UsersBounded(users: map<AccountId, Stats>) {
    forall a :: a in users ==> StatsBounded(users[a])
  }

  /** The chain at block 0: no project, no dispute. */
  function Initial(w: RepWorld): State {
    State(0, w.ledger, w.rep, ProjStore(map[], 0, map[]), ArbStore(map[], map[], map[], map[], map[]))
  }

  lemma GenesisJurorKeeps(cfg: Config, w: RepWorld, juror: AccountId)
    requires JuryOk(cfg, w) && EveryJurorListed(w.rep)
    requires juror !in w.rep.registry && juror != cfg.arbitrator
    requires AfterGenesisJuror(cfg, w, juror).Ok?
    ensures var v := AfterGenesisJuror(cfg, w, juror).value;
      Kept(cfg, w, v) && v.rep.registry == w.rep.registry + {juror}
  {
    var v := AfterGenesisJuror(cfg, w, juror).value;
    var tier := TierFromStats(StatsOf(w.rep, juror));
    assert juror !in w.rep.stakeOf.Keys && juror !in w.rep.tiers.Keys;
    StakingKeepsSlack(w, juror, v.rep);
    if tier == Ineligible {
      UntieredKeepsShape(cfg, w.rep, juror);
    } else {
      EnrollingKeepsShape(cfg, w.rep, juror, tier);
      AdditionKeepsShape(cfg, Enrolled(w.rep, juror, tier), juror, tier);
      TouchesOnceMore(w.rep, Enrolled(w.rep, juror, tier), v.rep, juror);
    }
    OnlyTouchesKeeps(cfg, w.rep, v.rep, juror);
    SlackBacked(w, v);
  }

  /** A juror without a tier is registered and staked but on no list. */
  lemma UntieredKeepsShape(cfg: Config, r: RepStore, juror: AccountId)
    requires IndexShape(cfg, r) && juror !in r.registry && juror != cfg.arbitrator
    ensures var v := r.(stakeOf := r.stakeOf[juror := r.jurorStake], registry := r.registry + {juror});
      IndexShape(cfg, v) && OnlyTouches(r, v, juror)
  {
    var v := r.(stakeOf := r.stakeOf[juror := r.jurorStake], registry := r.registry + {juror});
    assert forall t :: Pool(v, t) == Pool(r, t);
    forall t, a | a in Pool(v, t) ensures a in v.registry && TierOf(v, a) == t {
      assert a in Pool(r, t);
    }
  }

  lemma OneMoreJuror(cfg: Config, w: RepWorld, v: RepWorld, juror: AccountId)
    requires EveryJurorListed(w.rep) && Kept(cfg, w, v)
    requires juror !in v.rep.registry && juror != cfg.arbitrator
    requires AfterGenesisJuror(cfg, v, juror).Ok?
    ensures var u := AfterGenesisJuror(cfg, v, juror).value;
      Kept(cfg, w, u) && u.rep.registry == v.rep.registry + {juror}
  {
    GenesisJurorKeeps(cfg, v, juror);
    hide AfterGenesisJuror, Kept;
    KeptTwice(cfg, w, v, AfterGenesisJuror(cfg, v, juror).value);
  }

  lemma KeptSelf(cfg: Config, w: RepWorld)
    requires JuryOk(cfg, w)
    ensures Kept(cfg, w, w)
  {
  }

  lemma {:induction false} GenesisJurorsKeep(cfg: Config, w: RepWorld, jurors: seq<AccountId>)
    requires JuryOk(cfg, w) && EveryJurorListed(w.rep) && w.rep.registry == {}
    requires Distinct(jurors) && cfg.arbitrator !in jurors
    requires AfterGenesisJurors(cfg, w, jurors).Ok?
    ensures var v := AfterGenesisJurors(cfg, w, jurors).value;
      Kept(cfg, w, v) && v.rep.registry == Elements(jurors)
  {
    hide AfterGenesisJuror, EveryJurorListed, Kept, JuryOk;
    if jurors == [] {
      KeptSelf(cfg, w);
    } else {
      var n := |jurors| - 1;
      InPrefix(jurors, n);
      var v := AfterGenesisJurors(cfg, w, jurors[..n]).value;
      GenesisJurorsKeep(cfg, w, jurors[..n]);
      OneMoreJuror(cfg, w, v, jurors[n]);
      assert jurors == jurors[..n] + [jurors[n]];
      assert Elements(jurors) == Elements(jurors[..n]) + {jurors[n]};
    }
  }

  /** A fresh ledger, sane statistics, and jurors who are listed once and are not the pallet. */
  ghost predicate SoundGenesis(cfg: Config, l: Ledger, users: map<AccountId, Stats>, jurors: seq<AccountId>) {
    && Unencumbered(l) && MoneyOk(cfg, l) && UsersBounded(users)
    && Distinct(jurors) && cfg.arbitrator !in jurors
  }

  lemma NoCases(cfg: Config, w: RepWorld)
    ensures AllCases(cfg, Initial(w))
  {
    forall id ensures CaseOk(cfg, CaseOf(Initial(w), id)) {
    }
  }

  lemma NoBondsOwed(w: RepWorld, a: AccountId)
    ensures BondsOwed(Initial(w).arb.bonds, a) == 0
  {
    assert OwnedPerProject(Initial(w).arb.bonds, a) == map[];
  }

  lemma SoundStart(cfg: Config, l: Ledger, users: map<AccountId, Stats>, jurors: seq<AccountId>, stake: Balance)
    requires SoundGenesis(cfg, l, users, jurors)
    ensures var start := RepWorld(l, Unstaked(users, stake));
      JuryOk(cfg, start) && EveryJurorListed(start.rep) && start.rep.registry == {}
      && forall a :: Slack(start, a) == 0
  {
  }

  /** Genesis with distinct jurors starts the chain in the invariant, with every juror listed. */
  lemma GenesisEstablishes(cfg: Config, l: Ledger, users: map<AccountId, Stats>, jurors: seq<AccountId>, stake: Balance)
    requires SoundGenesis(cfg, l, users, jurors)
    requires Genesis(cfg, l, users, jurors, stake).Ok?
    ensures var w := Genesis(cfg, l, users, jurors, stake).value;
      Inv(cfg, Initial(w), 0) && EveryJurorListed(w.rep)
  {
    hide EveryJurorListed, IndexOk, StakesBacked, AllCases, AfterGenesisJurors, Worth, BondsOwed, CaseOf;
    var start := RepWorld(l, Unstaked(users, stake));
    SoundStart(cfg, l, users, jurors, stake);
    GenesisJurorsKeep(cfg, start, jurors);
    var w := Genesis(cfg, l, users, jurors, stake).value;
    var s := Initial(w);
    NoCases(cfg, w);
    forall a ensures Reserved(s.ledger, a) == StakeOf(s.rep, a) + BondsOwed(s.arb.bonds, a) {
      NoBondsOwed(w, a);
      assert Slack(w, a) == Slack(start, a);
    }
  }

  // ---------- jurors listed twice ----------

  lemma OneJurorReserves(cfg: Config, w: RepWorld, juror: AccountId, a: AccountId)
    requires AfterGenesisJuror(cfg, w, juror).Ok?
    ensures var v := AfterGenesisJuror(cfg, w, juror).value; var stake := w.rep.jurorStake;
      && v.rep.jurorStake == stake
      && Reserved(v.ledger, a) == Reserved(w.ledger, a) + (if a == juror then stake else 0)
      && StakeOf(v.rep, a) == (if a == juror then stake else StakeOf(w.rep, a))
  {
  }

  lemma LastCount(s: seq<AccountId>, a: AccountId)
    requires s != []
    ensures var n := |s| - 1; multiset(s)[a] == multiset(s[..n])[a] + (if a == s[n] then 1 else 0)
    ensures a in s <==> a in s[..|s| - 1] || a == s[|s| - 1]
  {
    assert s == s[..|s| - 1] + [s[|s| - 1]];
  }

  lemma Times(count: nat, more: nat, stake: nat)
    ensures (count + more) * stake == count * stake + more * stake
  {
  }

  lemma {:induction false} GenesisReserves(cfg: Config, w: RepWorld, jurors: seq<AccountId>, a: AccountId)
    requires AfterGenesisJurors(cfg, w, jurors).Ok?
    ensures var v := AfterGenesisJurors(cfg, w, jurors).value;
      && v.rep.jurorStake == w.rep.jurorStake
      && Reserved(v.ledger, a) == Reserved(w.ledger, a) + multiset(jurors)[a] * w.rep.jurorStake
      && StakeOf(v.rep, a) == if a in jurors then w.rep.jurorStake else StakeOf(w.rep, a)
  {
    if jurors != [] {
      hide AfterGenesisJuror;
      var n := |jurors| - 1;
      GenesisReserves(cfg, w, jurors[..n], a);
      OneJurorReserves(cfg, AfterGenesisJurors(cfg, w, jurors[..n]).value, jurors[n], a);
      LastCount(jurors, a);
      Times(multiset(jurors[..n])[a], if a == jurors[n] then 1 else 0, w.rep.jurorStake);
    }
  }

  /**
    The reserve ledger is exact at genesis if and only if no juror is listed twice, or no
    stake is asked for: a second listing reserves the stake again but records it once.
  */
  lemma GenesisReservesExact(cfg: Config, l: Ledger, users: map<AccountId, Stats>, jurors: seq<AccountId>,
                             stake: Balance)
    requires Unencumbered(l)
    requires Genesis(cfg, l, users, jurors, stake).Ok?
    ensures ReservesExact(Initial(Genesis(cfg, l, users, jurors, stake).value)) <==> (stake == 0 || Distinct(jurors))
  {
    var start := RepWorld(l, Unstaked(users, stake));
    var w := Genesis(cfg, l, users, jurors, stake).value;
    var s := Initial(w);
    hide AfterGenesisJurors;
    forall a ensures Reserved(s.ledger, a) == multiset(jurors)[a] * stake
                  && StakeOf(s.rep, a) == (if a in jurors then stake else 0)
                  && BondsOwed(s.arb.bonds, a) == 0 {
      GenesisReserves(cfg, start, jurors, a);
      assert OwnedPerProject(s.arb.bonds, a) == map[];
    }
    if stake != 0 && !Distinct(jurors) {
      var i, j :| 0 <= i < j < |jurors| && jurors[i] == jurors[j];
      TwiceCounts(jurors, i, j);
      StakedTwice(multiset(jurors)[jurors[i]], stake);
      assert Reserved(s.ledger, jurors[i]) != StakeOf(s.rep, jurors[i]) + BondsOwed(s.arb.bonds, jurors[i]);
    } else {
      forall a ensures Reserved(s.ledger, a) == StakeOf(s.rep, a) + BondsOwed(s.arb.bonds, a) {
        if stake != 0 {
          DistinctCounts(jurors, a);
        }
      }
    }
  }

  lemma StakedTwice(count: nat, stake: nat)
    requires count >= 2 && stake > 0
    ensures count * stake > stake
  {
  }
}
