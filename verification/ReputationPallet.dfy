/**
  The reputation pallet as it runs: storage in fields, updated in place. Every method leaves
  behind exactly the storage that the functions of `Reputation` describe.
*/
module ReputationPallet {
  import opened Prelude
  import opened Types
  import opened Currency
  import opened JurorSelection
  import opened Reputation

  /** What a call whose writes stay reports. */
  function Outcome(a: Attempt): Result<(), Error> {
    match a.error
    case None => Ok(())
    case Some(e) => Err(e)
  }

  lemma NotBefore(s: seq<AccountId>, who: AccountId, i: nat)
    requires i <= |s| && who !in s[..i]
    ensures forall q :: 0 <= q < i ==> s[q] != who
  {
    forall q | 0 <= q < i ensures s[q] != who {
      assert s[..i][q] in s[..i];
    }
  }

  lemma FirstPosition(s: seq<AccountId>, who: AccountId, i: nat)
    requires i < |s| && s[i] == who && who !in s[..i]
    ensures Position(s, who) == i
  {
    NotBefore(s, who, i);
    NotBefore(s, who, Position(s, who));
  }

  /** The index of the first occurrence, or the length. */
  method Search(s: seq<AccountId>, who: AccountId) returns (i: nat)
    ensures i <= |s|
    ensures who in s <==> i < |s|
    ensures i < |s| ==> i == Position(s, who)
  {
    i := 0;
    while i < |s| && s[i] != who
      invariant i <= |s| && who !in s[..i]
    {
      i := i + 1;
    }
    if i < |s| {
      FirstPosition(s, who, i);
    } else {
      assert s[..i] == s;
    }
  }

  /** Swap-removes the first occurrence. */
  method TakeOut(s: seq<AccountId>, who: AccountId) returns (rest: seq<AccountId>)
    ensures rest == WithoutFirst(s, who)
  {
    var i := Search(s, who);
    rest := s;
    if i < |s| {
      var last := |s| - 1;
      rest := rest[i := rest[last]];
      rest := rest[..last];
    }
  }

  lemma RemovalSparesStakes(r: RepStore, stakes: map<AccountId, Balance>, who: AccountId)
    ensures AfterRemoveFromTierList(r.(stakeOf := stakes), who, TierOf(r, who))
         == AfterRemoveFromTierList(r, who, TierOf(r, who)).(stakeOf := stakes)
    ensures AfterRemoveFromTierList(r, who, TierOf(r, who)).stakeOf == r.stakeOf
  {
    hide WithoutFirst;
  }

  class Pallet {
    const cfg: Config
    const currency: Balances

    var stats: map<AccountId, Stats>
    var tiers: map<AccountId, JurorTier>
    var registry: set<AccountId>
    var gold: seq<AccountId>
    var silver: seq<AccountId>
    var bronze: seq<AccountId>
    var nextIndex: map<JurorTier, nat>
    var jurorStake: Balance
    var stakeOf: map<AccountId, Balance>

    function Store(): RepStore
      reads this
    {
      RepStore(stats, tiers, registry, gold, silver, bronze, nextIndex, jurorStake, stakeOf)
    }

    function World(): RepWorld
      reads this, currency
    {
      RepWorld(currency.Store(), Store())
    }

    constructor (cfg: Config, currency: Balances, r: RepStore)
      ensures this.cfg == cfg && this.currency == currency && Store() == r
    {
      this.cfg, this.currency := cfg, currency;
      stats, tiers, registry := r.stats, r.tiers, r.registry;
      gold, silver, bronze, nextIndex := r.gold, r.silver, r.bronze, r.nextIndex;
      jurorStake, stakeOf := r.jurorStake, r.stakeOf;
    }

    /** The storage layer's rollback. */
    method Restore(r: RepStore)
      modifies this
      ensures Store() == r
    {
      stats, tiers, registry := r.stats, r.tiers, r.registry;
      gold, silver, bronze, nextIndex := r.gold, r.silver, r.bronze, r.nextIndex;
      jurorStake, stakeOf := r.jurorStake, r.stakeOf;
    }

    // ---------- tier lists ----------

    method AddToTierList(who: AccountId, tier: JurorTier) returns (r: Result<(), Error>)
      modifies this
      ensures match AfterAddToTierList(cfg, old(Store()), who, tier)
              case Ok(v) => r == Ok(()) && Store() == v
              case Err(e) => r == Err(e) && Store() == old(Store())
    {
      match tier {
        case Gold =>
          if |gold| >= cfg.maxGold {
            return Err(JurorPoolFull);
          }
          gold := gold + [who];
        case Silver =>
          if |silver| >= cfg.maxSilver {
            return Err(JurorPoolFull);
          }
          silver := silver + [who];
        case Bronze =>
          if |bronze| >= cfg.maxBronze {
            return Err(JurorPoolFull);
          }
          bronze := bronze + [who];
        case Ineligible =>
      }
      return Ok(());
    }

    method RemoveFromTierList(who: AccountId, tier: JurorTier)
      modifies this
      ensures Store() == AfterRemoveFromTierList(old(Store()), who, tier)
    {
      match tier {
        case Gold => gold := TakeOut(gold, who);
        case Silver => silver := TakeOut(silver, who);
        case Bronze => bronze := TakeOut(bronze, who);
        case Ineligible =>
      }
    }

    /** A failed promotion keeps its partial writes: the juror is already off the old list. */
    method UpdateTier(who: AccountId) returns (r: Result<(), Error>)
      modifies this, currency
      ensures World() == AfterUpdateTier(cfg, old(World()), who).world
      ensures r == Outcome(AfterUpdateTier(cfg, old(World()), who))
    {
      if who !in registry {
        return Ok(());
      }
      var was := TierOf(Store(), who);
      var due := TierFromStats(StatsOf(Store(), who));
      if was != due {
        RemoveFromTierList(who, was);
        if due == Ineligible {
          if who in stakeOf {
            var shortfall := currency.Unreserve(who, stakeOf[who]);
          }
          stakeOf := stakeOf - {who};
          registry := registry - {who};
          tiers := tiers - {who};
        } else {
          r := AddToTierList(who, due);
          if r.Err? {
            return;
          }
          tiers := tiers[who := due];
        }
      }
      return Ok(());
    }

    // ---------- dispatchables ----------

    method RegisterUser(now: BlockNumber, who: AccountId) returns (r: Result<(), Error>)
      modifies this
      ensures match AfterRegisterUser(now, old(World()), who)
              case Ok(v) => r == Ok(()) && World() == v
              case Err(e) => r == Err(e)
    {
      if who in stats {
        return Err(AlreadyRegistered);
      }
      stats := stats[who := NO_STATS.(registrationBlock := now, lastActivityBlock := now)];
      return Ok(());
    }

    method RegisterAsJuror(who: AccountId) returns (r: Result<(), Error>)
      modifies this, currency
      ensures match AfterRegisterAsJuror(cfg, old(World()), who)
              case Ok(v) => r == Ok(()) && World() == v
              case Err(e) => r == Err(e)
    {
      if who in registry {
        return Err(AlreadyRegisteredAsJuror);
      }
      var tier := TierFromStats(StatsOf(Store(), who));
      if tier == Ineligible {
        return Err(InsufficientTier);
      }
      r := currency.Reserve(who, jurorStake);
      if r.Err? {
        return;
      }
      stakeOf := stakeOf[who := jurorStake];
      registry := registry + {who};
      tiers := tiers[who := tier];
      r := AddToTierList(who, tier);
    }

    method DeregisterAsJuror(who: AccountId) returns (r: Result<(), Error>)
      modifies this, currency
      ensures match AfterDeregisterAsJuror(old(World()), who)
              case Ok(v) => r == Ok(()) && World() == v
              case Err(e) => r == Err(e)
    {
      hide AfterRemoveFromTierList;
      if who !in registry || who !in stakeOf {
        return Err(NotRegisteredAsJuror);
      }
      RemovalSparesStakes(Store(), stakeOf - {who}, who);
      var shortfall := currency.Unreserve(who, stakeOf[who]);
      stakeOf := stakeOf - {who};
      RemoveFromTierList(who, TierOf(Store(), who));
      registry := registry - {who};
      tiers := tiers - {who};
      return Ok(());
    }

    // ---------- the interface to the other pallets ----------

    method SlashJuror(juror: AccountId) returns (r: Result<(), Error>)
      modifies this, currency
      ensures match AfterSlashJuror(cfg, old(World()), juror)
              case Ok(v) => r == Ok(()) && World() == v
              case Err(e) => r == Err(e)
    {
      hide AfterRemoveFromTierList, PermillOf;
      if juror !in registry || juror !in stakeOf {
        return Err(NotRegisteredAsJuror);
      }
      RemovalSparesStakes(Store(), stakeOf - {juror}, juror);
      var stake := stakeOf[juror];
      var slash := PermillOf(cfg.slashRatio, stake);
      var imbalance := currency.SlashReserved(juror, slash);
      currency.DropImbalance(imbalance);
      var left := SatSub(stake, slash);
      if left == 0 {
        stakeOf := stakeOf - {juror};
        RemoveFromTierList(juror, TierOf(Store(), juror));
        registry := registry - {juror};
        tiers := tiers - {juror};
      } else {
        stakeOf := stakeOf[juror := left];
      }
      return Ok(());
    }

    method ProjectCompleted(now: BlockNumber, freelancer: AccountId, value: Balance, rating: nat)
      returns (r: Result<(), Error>)
      modifies this, currency
      ensures match AfterProjectCompleted(cfg, now, old(World()), freelancer, value, rating)
              case Ok(v) => r == Ok(()) && World() == v
              case Err(e) => r == Err(e)
    {
      if rating > 5000 {
        return Err(InvalidScore);
      }
      var s := StatsOf(Store(), freelancer);
      if s.registrationBlock == 0 {
        return Err(UserNotRegistered);
      }
      s := s.(projectsCompleted := SatAdd(s.projectsCompleted, 1, U32_MAX));
      s := s.(totalEarned := SatAdd(s.totalEarned, value, cfg.maxBalance));
      s := s.(lastActivityBlock := now);
      var total := s.totalRatingsReceived;
      s := s.(avgRatingReceived :=
        SatAdd(SatMul(s.avgRatingReceived, total, U32_MAX), rating, U32_MAX) / SatAdd(total, 1, U32_MAX));
      s := s.(totalRatingsReceived := SatAdd(total, 1, U32_MAX));
      stats := stats[freelancer := s];
      r := UpdateTier(freelancer);
    }

    method DisputeOutcome(now: BlockNumber, winner: AccountId, loser: AccountId) returns (r: Result<(), Error>)
      modifies this, currency
      ensures match AfterDisputeOutcome(cfg, now, old(World()), winner, loser)
              case Ok(v) => r == Ok(()) && World() == v
              case Err(e) => r == Err(e)
    {
      var won := StatsOf(Store(), winner);
      if won.registrationBlock == 0 {
        return Err(UserNotRegistered);
      }
      won := won.(disputesWon := SatAdd(won.disputesWon, 1, U32_MAX));
      won := won.(lastActivityBlock := now);
      stats := stats[winner := won];
      var lost := StatsOf(Store(), loser);
      if lost.registrationBlock == 0 {
        return Err(UserNotRegistered);
      }
      lost := lost.(disputesLost := SatAdd(lost.disputesLost, 1, U32_MAX));
      lost := lost.(projectsFailed := SatAdd(lost.projectsFailed, 1, U32_MAX));
      lost := lost.(lastActivityBlock := now);
      stats := stats[loser := lost];
      r := UpdateTier(winner);
      if r.Err? {
        return;
      }
      r := UpdateTier(loser);
    }

    method JuryVote(now: BlockNumber, juror: AccountId, withMajority: bool) returns (r: Result<(), Error>)
      modifies this, currency
      ensures World() == AfterJuryVote(cfg, now, old(World()), juror, withMajority).world
      ensures r == Outcome(AfterJuryVote(cfg, now, old(World()), juror, withMajority))
    {
      var s := StatsOf(Store(), juror);
      if s.registrationBlock == 0 {
        return Err(UserNotRegistered);
      }
      s := s.(juryParticipation := SatAdd(s.juryParticipation, 1, U32_MAX));
      var total := s.juryParticipation;
      var value := if withMajority then PERMILL_ONE else 0;
      var accuracy := SatAdd(SatMul(s.juryAccuracy, SatSub(total, 1), U32_MAX), value, U32_MAX) / total;
      s := s.(juryAccuracy := Min(accuracy, PERMILL_ONE));
      s := s.(lastActivityBlock := now);
      assert s == StatsAfterVote(now, StatsOf(Store(), juror), withMajority);
      hide NextAccuracy, AfterUpdateTier, SatMul, SatAdd;
      stats := stats[juror := s];
      r := UpdateTier(juror);
    }

    method ProjectCreated(now: BlockNumber, client: AccountId, budget: Balance) returns (r: Result<(), Error>)
      modifies this
      ensures match AfterProjectCreated(cfg, now, old(World()), client, budget)
              case Ok(v) => r == Ok(()) && World() == v
              case Err(e) => r == Err(e)
    {
      var s := StatsOf(Store(), client);
      if s.registrationBlock == 0 {
        return Err(UserNotRegistered);
      }
      s := s.(projectsPosted := SatAdd(s.projectsPosted, 1, U32_MAX));
      s := s.(totalSpent := SatAdd(s.totalSpent, budget, cfg.maxBalance));
      s := s.(lastActivityBlock := now);
      stats := stats[client := s];
      return Ok(());
    }

    method ProjectCancelled(now: BlockNumber, client: AccountId) returns (r: Result<(), Error>)
      modifies this
      ensures match AfterProjectCancelled(now, old(World()), client)
              case Ok(v) => r == Ok(()) && World() == v
              case Err(e) => r == Err(e)
    {
      var s := StatsOf(Store(), client);
      if s.registrationBlock == 0 {
        return Err(UserNotRegistered);
      }
      s := s.(projectsFailed := SatAdd(s.projectsFailed, 1, U32_MAX));
      s := s.(lastActivityBlock := now);
      stats := stats[client := s];
      return Ok(());
    }

    method WorkAccepted(now: BlockNumber, client: AccountId) returns (r: Result<(), Error>)
      modifies this
      ensures match AfterWorkAccepted(now, old(World()), client)
              case Ok(v) => r == Ok(()) && World() == v
              case Err(e) => r == Err(e)
    {
      var s := StatsOf(Store(), client);
      if s.registrationBlock == 0 {
        return Err(UserNotRegistered);
      }
      s := s.(projectsCompleted := SatAdd(s.projectsCompleted, 1, U32_MAX));
      s := s.(lastActivityBlock := now);
      stats := stats[client := s];
      return Ok(());
    }

    // ---------- juror selection ----------

    /** Walks one pool cyclically from the saved cursor, at most once around. */
    method SelectFromPool(tier: JurorTier, pool: seq<AccountId>, exclude: seq<AccountId>,
                          selected: seq<AccountId>, count: nat) returns (grown: seq<AccountId>)
      requires pool == Pool(Store(), tier)
      modifies this`nextIndex
      ensures (grown, Store()) == FromTier(old(Store()), tier, exclude, selected, count)
    {
      grown := selected;
      if |grown| >= count || pool == [] {
        return;
      }
      var start := Get(nextIndex, tier);
      var current: nat, attempts: nat := start, 0;
      while |grown| < count && attempts < |pool|
        invariant attempts <= |pool|
        invariant Scan(pool, current, attempts, exclude, grown, count) == Scan(pool, start, 0, exclude, selected, count)
      {
        var juror := pool[current % |pool|];
        if juror !in exclude && juror !in grown {
          grown := grown + [juror];
        }
        current := current + 1;
        attempts := attempts + 1;
      }
      nextIndex := nextIndex[tier := current % |pool|];
    }

    method GetEligibleJurors(minTier: JurorTier, exclude: seq<AccountId>, count: nat)
      returns (selected: seq<AccountId>)
      modifies this`nextIndex
      ensures (selected, Store()) == Selection(old(Store()), minTier, exclude, count)
    {
      selected := SelectFromPool(Gold, gold, exclude, [], count);
      if |selected| < count && Rank(minTier) <= Rank(Silver) {
        selected := SelectFromPool(Silver, silver, exclude, selected, count);
      }
      if |selected| < count && Rank(minTier) <= Rank(Bronze) {
        selected := SelectFromPool(Bronze, bronze, exclude, selected, count);
      }
    }

    // ---------- genesis ----------

    method StakeGenesisJuror(juror: AccountId) returns (r: Result<(), Error>)
      modifies this, currency
      ensures match AfterGenesisJuror(cfg, old(World()), juror)
              case Ok(v) => r == Ok(()) && World() == v
              case Err(e) => r == Err(e)
    {
      var s := StatsOf(Store(), juror);
      if s.registrationBlock == 0 {
        return Err(UserNotRegistered);
      }
      if jurorStake != 0 {
        r := currency.Reserve(juror, jurorStake);
        if r.Err? {
          return;
        }
      }
      stakeOf := stakeOf[juror := jurorStake];
      registry := registry + {juror};
      var tier := TierFromStats(s);
      if tier != Ineligible {
        tiers := tiers[juror := tier];
        r := AddToTierList(juror, tier);
        return;
      }
      return Ok(());
    }

    /** The genesis build; where the source panics, no chain starts and the result is an error. */
    method Build(users: map<AccountId, Stats>, jurors: seq<AccountId>, stake: Balance) returns (r: Result<(), Error>)
      modifies this, currency
      ensures match Genesis(cfg, old(currency.Store()), users, jurors, stake)
              case Ok(v) => r == Ok(()) && World() == v
              case Err(e) => r.Err?
    {
      Restore(Unstaked(users, stake));
      ghost var start := World();
      var i := 0;
      while i < |jurors|
        invariant i <= |jurors|
        invariant AfterGenesisJurors(cfg, start, jurors[..i]) == Ok(World())
      {
        assert jurors[..i + 1][..i] == jurors[..i];
        r := StakeGenesisJuror(jurors[i]);
        if r.Err? {
          GenesisFails(cfg, start, jurors, i + 1);
          return;
        }
        i := i + 1;
      }
      assert jurors[..i] == jurors;
      return Ok(());
    }
  }

  /** Once one genesis juror cannot be staked, the build has failed. */
  lemma {:induction false} GenesisFails(cfg: Config, w: RepWorld, jurors: seq<AccountId>, n: nat)
    requires n <= |jurors| && AfterGenesisJurors(cfg, w, jurors[..n]).Err?
    ensures AfterGenesisJurors(cfg, w, jurors).Err?
    decreases |jurors| - n
  {
    if n == |jurors| {
      assert jurors[..n] == jurors;
    } else {
      assert jurors[..n + 1][..n] == jurors[..n];
      GenesisFails(cfg, w, jurors, n + 1);
    }
  }
}
