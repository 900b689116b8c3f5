/**
  When the genesis build goes through, and the storage it leaves: the pools hold the jurors of
  their tier in the order in which they were given.
*/
module GenesisBuild {
  import opened Prelude
  import opened Types
  import opened Currency
  import opened Reputation
  import opened Money

  /** The jurors whose statistics give the tier, in order. */
  function Earning(users: map<AccountId, Stats>, jurors: seq<AccountId>, t: JurorTier): seq<AccountId> {
    if jurors == [] then []
    else
      var n := |jurors| - 1;
      Earning(users, jurors[..n], t) + (if TierFromStats(UserAt(users, jurors[n])) == t then [jurors[n]] else [])
  }

  function UserAt(users: map<AccountId, Stats>, a: AccountId): Stats {
    if a in users then users[a] else NO_STATS
  }

  /** A juror with a record and the money for the stake. */
  predicate CanStake(l: Ledger, users: map<AccountId, Stats>, stake: Balance, juror: AccountId) {
    UserAt(users, juror).registrationBlock != 0 && (stake == 0 || stake <= Free(l, juror))
  }

  /** Every juror can stake, and the pools have room for them. */
  predicate Buildable(cfg: Config, l: Ledger, users: map<AccountId, Stats>, jurors: seq<AccountId>, stake: Balance) {
    && (forall i :: 0 <= i < |jurors| ==> CanStake(l, users, stake, jurors[i]))
    && |Earning(users, jurors, Gold)| <= cfg.maxGold
    && |Earning(users, jurors, Silver)| <= cfg.maxSilver
    && |Earning(users, jurors, Bronze)| <= cfg.maxBronze
  }

  ghost predicate ListsBuilt(users: map<AccountId, Stats>, jurors: seq<AccountId>, r: RepStore) {
    && r.gold == Earning(users, jurors, Gold)
    && r.silver == Earning(users, jurors, Silver)
    && r.bronze == Earning(users, jurors, Bronze)
  }

  ghost predicate IndexBuilt(users: map<AccountId, Stats>, jurors: seq<AccountId>, stake: Balance, r: RepStore) {
    && r.stats == users && r.jurorStake == stake && r.nextIndex == map[]
    && r.registry == Elements(jurors)
    && r.stakeOf == (map j | j in Elements(jurors) :: stake)
    && forall a :: TierOf(r, a) == if a in jurors then TierFromStats(UserAt(users, a)) else Ineligible
  }

  ghost predicate MoneyBuilt(l: Ledger, jurors: seq<AccountId>, stake: Balance, m: Ledger) {
    && m.locks == map[] && m.issuance == l.issuance
    && forall a :: && Free(m, a) == Free(l, a) - (if a in jurors then stake else 0)
                   && Reserved(m, a) == Reserved(l, a) + (if a in jurors then stake else 0)
  }

  /** What the build leaves. */
  ghost predicate Built(l: Ledger, users: map<AccountId, Stats>, jurors: seq<AccountId>, stake: Balance, w: RepWorld) {
    ListsBuilt(users, jurors, w.rep) && IndexBuilt(users, jurors, stake, w.rep)
    && MoneyBuilt(l, jurors, stake, w.ledger)
  }

  lemma Shorter(cfg: Config, l: Ledger, users: map<AccountId, Stats>, jurors: seq<AccountId>, stake: Balance)
    requires jurors != []
    ensures var n := |jurors| - 1; var tier := TierFromStats(UserAt(users, jurors[n]));
      Buildable(cfg, l, users, jurors, stake) <==>
        && Buildable(cfg, l, users, jurors[..n], stake) && CanStake(l, users, stake, jurors[n])
        && (tier == Ineligible || |Earning(users, jurors[..n], tier)| < Capacity(cfg, tier))
  {
    hide CanStake, TierFromStats;
    var n := |jurors| - 1;
    if Buildable(cfg, l, users, jurors[..n], stake) && CanStake(l, users, stake, jurors[n]) {
      forall i | 0 <= i < |jurors| ensures CanStake(l, users, stake, jurors[i]) {
        assert i < n ==> jurors[..n][i] == jurors[i];
      }
    }
    if Buildable(cfg, l, users, jurors, stake) {
      forall i | 0 <= i < n ensures CanStake(l, users, stake, jurors[..n][i]) {
        assert jurors[..n][i] == jurors[i];
      }
    }
  }

  lemma JurorSteps(cfg: Config, w: RepWorld, juror: AccountId)
    ensures var r := AfterGenesisJuror(cfg, w, juror);
      var stats := StatsOf(w.rep, juror); var tier := TierFromStats(stats);
      && (r.Ok? <==>
            && stats.registrationBlock != 0 && AfterReserve(w.ledger, juror, w.rep.jurorStake).Ok?
            && (tier == Ineligible || |Pool(w.rep, tier)| < Capacity(cfg, tier)))
      && (r.Ok? ==>
            && AfterReserve(w.ledger, juror, w.rep.jurorStake) == Ok(r.value.ledger)
            && Pool(r.value.rep, Gold) == w.rep.gold + (if tier == Gold then [juror] else [])
            && Pool(r.value.rep, Silver) == w.rep.silver + (if tier == Silver then [juror] else [])
            && Pool(r.value.rep, Bronze) == w.rep.bronze + (if tier == Bronze then [juror] else [])
            && r.value.rep == w.rep.(gold := r.value.rep.gold, silver := r.value.rep.silver,
                                     bronze := r.value.rep.bronze,
                                     stakeOf := w.rep.stakeOf[juror := w.rep.jurorStake],
                                     registry := w.rep.registry + {juror},
                                     tiers := if tier == Ineligible then w.rep.tiers else w.rep.tiers[juror := tier]))
  {
    hide TierFromStats, AfterReserve;
  }

  lemma StakeTaken(l: Ledger, jurors: seq<AccountId>, juror: AccountId, stake: Balance, m: Ledger)
    requires MoneyBuilt(l, jurors, stake, m) && juror !in jurors
    ensures AfterReserve(m, juror, stake).Ok? <==> stake == 0 || stake <= Free(l, juror)
    ensures AfterReserve(m, juror, stake).Ok? ==>
      MoneyBuilt(l, jurors + [juror], stake, AfterReserve(m, juror, stake).value)
  {
  }

  lemma IndexGrows(users: map<AccountId, Stats>, jurors: seq<AccountId>, juror: AccountId, stake: Balance, r: RepStore,
                   v: RepStore)
    requires IndexBuilt(users, jurors, stake, r) && juror !in jurors
    requires var tier := TierFromStats(UserAt(users, juror));
      v == r.(gold := v.gold, silver := v.silver, bronze := v.bronze, stakeOf := r.stakeOf[juror := stake],
              registry := r.registry + {juror},
              tiers := if tier == Ineligible then r.tiers else r.tiers[juror := tier])
    ensures IndexBuilt(users, jurors + [juror], stake, v)
  {
    hide TierFromStats;
    assert Elements(jurors + [juror]) == Elements(jurors) + {juror};
    assert TierOf(r, juror) == Ineligible;
  }

  /** One more juror. */
  lemma JurorBuilt(cfg: Config, l: Ledger, users: map<AccountId, Stats>, jurors: seq<AccountId>, stake: Balance,
                   w: RepWorld)
    requires jurors != [] && Distinct(jurors)
    requires Built(l, users, jurors[..|jurors| - 1], stake, w)
    ensures var n := |jurors| - 1; var tier := TierFromStats(UserAt(users, jurors[n]));
      var r := AfterGenesisJuror(cfg, w, jurors[n]);
      && (r.Ok? <==>
            && CanStake(l, users, stake, jurors[n])
            && (tier == Ineligible || |Earning(users, jurors[..n], tier)| < Capacity(cfg, tier)))
      && (r.Ok? ==> Built(l, users, jurors, stake, r.value))
  {
    hide TierFromStats, AfterGenesisJuror, AfterReserve, MoneyBuilt, Capacity;
    var n := |jurors| - 1;
    InPrefix(jurors, n);
    hide Distinct, Elements;
    assert jurors == jurors[..n] + [jurors[n]];
    JurorSteps(cfg, w, jurors[n]);
    StakeTaken(l, jurors[..n], jurors[n], stake, w.ledger);
    var r := AfterGenesisJuror(cfg, w, jurors[n]);
    if r.Ok? {
      IndexGrows(users, jurors[..n], jurors[n], stake, w.rep, r.value.rep);
    }
    hide IndexBuilt;
  }

  /**
    Distinct jurors on an unlocked ledger are built exactly if every one of them has a record
    and the money for the stake, and the pools have room; and then as `Built` says.
  */
  lemma {:induction false} GenesisBuildsExactly(cfg: Config, l: Ledger, users: map<AccountId, Stats>,
                                                jurors: seq<AccountId>, stake: Balance)
    requires Distinct(jurors) && l.locks == map[]
    ensures Genesis(cfg, l, users, jurors, stake).Ok? <==> Buildable(cfg, l, users, jurors, stake)
    ensures Genesis(cfg, l, users, jurors, stake).Ok? ==>
      Built(l, users, jurors, stake, Genesis(cfg, l, users, jurors, stake).value)
  {
    if jurors == [] {
      assert Elements(jurors) == {};
    } else {
      hide AfterGenesisJuror, Buildable, Built, CanStake, TierFromStats;
      var n := |jurors| - 1;
      GenesisBuildsExactly(cfg, l, users, jurors[..n], stake);
      Shorter(cfg, l, users, jurors, stake);
      var before := Genesis(cfg, l, users, jurors[..n], stake);
      if before.Ok? {
        JurorBuilt(cfg, l, users, jurors, stake, before.value);
      }
    }
  }
}
