/**
  The reputation pallet: running statistics, cached juror tiers, the three juror pools and the
  jurors' stakes. Functions named `After...` give the storage a call leaves behind.
*/
module Reputation {
  import opened Prelude
  import opened Types
  import opened Currency
  import opened JurorSelection

  datatype JurorTier = Ineligible | Bronze | Silver | Gold

  function Rank(t: JurorTier): nat {
    match t
    case Ineligible => 0
    case Bronze => 1
    case Silver => 2
    case Gold => 3
  }

  datatype Stats = Stats(
    registrationBlock: BlockNumber,
    lastActivityBlock: BlockNumber,
    projectsCompleted: nat,
    projectsFailed: nat,
    totalEarned: Balance,
    projectsPosted: nat,
    totalSpent: Balance,
    disputesWon: nat,
    disputesLost: nat,
    avgRatingReceived: nat,
    totalRatingsReceived: nat,
    juryParticipation: nat,
    juryAccuracy: nat)

  const NO_STATS := Stats(0, 0, 0, 0, 0, 0, 0, 0, 0, 0, 0, 0, 0)

  datatype RepStore = RepStore(
    stats: map<AccountId, Stats>,
    tiers: map<AccountId, JurorTier>,
    registry: set<AccountId>,
    gold: seq<AccountId>,
    silver: seq<AccountId>,
    bronze: seq<AccountId>,
    nextIndex: map<JurorTier, nat>,
    jurorStake: Balance,
    stakeOf: map<AccountId, Balance>)

  /** Everything this pallet can write: the currency and its own storage. */
  datatype RepWorld = RepWorld(ledger: Ledger, rep: RepStore)

  /** A call whose writes stay even when it fails. */
  datatype Attempt = Attempt(world: RepWorld, error: Option<Error>) {
    /** The same call below a dispatchable that propagates the error. */
    function Propagated(): Result<RepWorld, Error> {
      match error
      case None => Ok(world)
      case Some(e) => Err(e)
    }
  }

  function StatsOf(r: RepStore, who: AccountId): Stats {
    if who in r.stats then r.stats[who] else NO_STATS
  }

  function TierOf(r: RepStore, who: AccountId): JurorTier {
    if who in r.tiers then r.tiers[who] else Ineligible
  }

  function StakeOf(r: RepStore, who: AccountId): Balance {
    Get(r.stakeOf, who)
  }

  // ---------- statistics ----------

  function NextAverage(average: nat, total: nat, rating: nat): nat {
    SatAdd(SatMul(average, total, U32_MAX), rating, U32_MAX) / SatAdd(total, 1, U32_MAX)
  }

  /** `votes` already counts the vote being recorded. */
  function NextAccuracy(accuracy: nat, votes: nat, withMajority: bool): nat
    requires votes > 0
  {
    var value := if withMajority then PERMILL_ONE else 0;
    Min(SatAdd(SatMul(accuracy, votes - 1, U32_MAX), value, U32_MAX) / votes, PERMILL_ONE)
  }

  function StatsAfterCompletion(cfg: Config, now: BlockNumber, s: Stats, value: Balance, rating: nat): Stats {
    s.(projectsCompleted := SatAdd(s.projectsCompleted, 1, U32_MAX),
       totalEarned := SatAdd(s.totalEarned, value, cfg.maxBalance),
       lastActivityBlock := now,
       avgRatingReceived := NextAverage(s.avgRatingReceived, s.totalRatingsReceived, rating),
       totalRatingsReceived := SatAdd(s.totalRatingsReceived, 1, U32_MAX))
  }

  function StatsAfterWin(now: BlockNumber, s: Stats): Stats {
    s.(disputesWon := SatAdd(s.disputesWon, 1, U32_MAX), lastActivityBlock := now)
  }

  function StatsAfterLoss(now: BlockNumber, s: Stats): Stats {
    s.(disputesLost := SatAdd(s.disputesLost, 1, U32_MAX),
       projectsFailed := SatAdd(s.projectsFailed, 1, U32_MAX),
       lastActivityBlock := now)
  }

  function StatsAfterVote(now: BlockNumber, s: Stats, withMajority: bool): Stats {
    var votes := SatAdd(s.juryParticipation, 1, U32_MAX);
    s.(juryParticipation := votes,
       juryAccuracy := NextAccuracy(s.juryAccuracy, votes, withMajority),
       lastActivityBlock := now)
  }

  function TierFromStats(s: Stats): JurorTier {
    var disputes := SatAdd(s.disputesWon, s.disputesLost, U32_MAX);
    if disputes > 2 && SatMul(s.disputesLost, 1000, U32_MAX) / disputes > 500 then Ineligible
    else if s.projectsCompleted >= 50 && s.totalEarned >= 50000 then Gold
    else if s.projectsCompleted >= 20 && s.totalEarned >= 10000 then Silver
    else if s.projectsCompleted >= 5 && s.totalEarned >= 1000 then Bronze
    else Ineligible
  }

  // ---------- the tier lists ----------

  function Pool(r: RepStore, t: JurorTier): seq<AccountId> {
    match t
    case Gold => r.gold
    case Silver => r.silver
    case Bronze => r.bronze
    case Ineligible => []
  }

  function Capacity(cfg: Config, t: JurorTier): nat {
    match t
    case Gold => cfg.maxGold
    case Silver => cfg.maxSilver
    case Bronze => cfg.maxBronze
    case Ineligible => 0
  }

  function WithPool(r: RepStore, t: JurorTier, jurors: seq<AccountId>): RepStore {
    match t
    case Gold => r.(gold := jurors)
    case Silver => r.(silver := jurors)
    case Bronze => r.(bronze := jurors)
    case Ineligible => r
  }

  /** The last element takes the place of the one removed. */
  function SwapRemove(s: seq<AccountId>, i: nat): seq<AccountId>
    requires i < |s|
  {
    s[i := s[|s| - 1]][..|s| - 1]
  }

  function Position(s: seq<AccountId>, who: AccountId): (i: nat)
    requires who in s
    ensures i < |s| && s[i] == who && who !in s[..i]
  {
    if s[0] == who then 0
    else
      assert s == [s[0]] + s[1..];
      var i := Position(s[1..], who);
      assert s[..i + 1] == [s[0]] + s[1..][..i];
      i + 1
  }

  function WithoutFirst(s: seq<AccountId>, who: AccountId): seq<AccountId> {
    if who in s then SwapRemove(s, Position(s, who)) else s
  }

  function AfterAddToTierList(cfg: Config, r: RepStore, who: AccountId, t: JurorTier): Result<RepStore, Error> {
    if t == Ineligible then Ok(r)
    else if |Pool(r, t)| >= Capacity(cfg, t) then Err(JurorPoolFull)
    else Ok(WithPool(r, t, Pool(r, t) + [who]))
  }

  function AfterRemoveFromTierList(r: RepStore, who: AccountId, t: JurorTier): RepStore {
    WithPool(r, t, WithoutFirst(Pool(r, t), who))
  }

  /** Drops every trace of a juror but the pool entry and the reserved stake. */
  function Unlisted(r: RepStore, who: AccountId): RepStore {
    r.(registry := r.registry - {who}, tiers := r.tiers - {who})
  }

  function AfterUpdateTier(cfg: Config, w: RepWorld, who: AccountId): Attempt {
    var was := TierOf(w.rep, who);
    var due := TierFromStats(StatsOf(w.rep, who));
    if who !in w.rep.registry || was == due then Attempt(w, None)
    else
      var removed := AfterRemoveFromTierList(w.rep, who, was);
      if due == Ineligible then
        var ledger := if who in removed.stakeOf
                      then AfterUnreserve(w.ledger, who, removed.stakeOf[who]) else w.ledger;
        Attempt(RepWorld(ledger, Unlisted(removed.(stakeOf := removed.stakeOf - {who}), who)), None)
      else
        match AfterAddToTierList(cfg, removed, who, due)
        case Err(e) => Attempt(RepWorld(w.ledger, removed), Some(e))
        case Ok(added) => Attempt(RepWorld(w.ledger, added.(tiers := added.tiers[who := due])), None)
  }

  // ---------- dispatchables ----------

  function AfterRegisterUser(now: BlockNumber, w: RepWorld, who: AccountId): Result<RepWorld, Error> {
    if who in w.rep.stats then Err(AlreadyRegistered)
    else
      var entry := NO_STATS.(registrationBlock := now, lastActivityBlock := now);
      Ok(w.(rep := w.rep.(stats := w.rep.stats[who := entry])))
  }

  function AfterRegisterAsJuror(cfg: Config, w: RepWorld, who: AccountId): Result<RepWorld, Error> {
    var tier := TierFromStats(StatsOf(w.rep, who));
    if who in w.rep.registry then Err(AlreadyRegisteredAsJuror)
    else if tier == Ineligible then Err(InsufficientTier)
    else
      var ledger :- AfterReserve(w.ledger, who, w.rep.jurorStake);
      var rep :- AfterAddToTierList(cfg,
        w.rep.(stakeOf := w.rep.stakeOf[who := w.rep.jurorStake],
               registry := w.rep.registry + {who},
               tiers := w.rep.tiers[who := tier]), who, tier);
      Ok(RepWorld(ledger, rep))
  }

  function AfterDeregisterAsJuror(w: RepWorld, who: AccountId): Result<RepWorld, Error> {
    if who !in w.rep.registry || who !in w.rep.stakeOf then Err(NotRegisteredAsJuror)
    else
      var removed := AfterRemoveFromTierList(w.rep, who, TierOf(w.rep, who));
      Ok(RepWorld(AfterUnreserve(w.ledger, who, w.rep.stakeOf[who]),
                  Unlisted(removed.(stakeOf := removed.stakeOf - {who}), who)))
  }

  // ---------- the interface to the other pallets ----------

  /** `ratio * x` for a permill: rounded to the nearest integer, halves down. */
  function PermillOf(ratio: nat, x: nat): (y: nat)
    requires ratio <= PERMILL_ONE
    ensures y <= x
  {
    assert ratio * x <= PERMILL_ONE * x;
    (ratio * x + 499_999) / PERMILL_ONE
  }

  function AfterSlashJuror(cfg: Config, w: RepWorld, juror: AccountId): Result<RepWorld, Error> {
    if juror !in w.rep.registry || juror !in w.rep.stakeOf then Err(NotRegisteredAsJuror)
    else
      var stake := w.rep.stakeOf[juror];
      var slash := PermillOf(cfg.slashRatio, stake);
      var (taken, imbalance) := AfterSlashReserved(w.ledger, juror, slash);
      var ledger := AfterDropImbalance(taken, imbalance);
      if stake == slash then
        var removed := AfterRemoveFromTierList(w.rep, juror, TierOf(w.rep, juror));
        Ok(RepWorld(ledger, Unlisted(removed.(stakeOf := removed.stakeOf - {juror}), juror)))
      else
        Ok(RepWorld(ledger, w.rep.(stakeOf := w.rep.stakeOf[juror := stake - slash])))
  }

  /** Writes one account's statistics, provided it is registered. */
  function AfterStats(w: RepWorld, who: AccountId, s: Stats): Result<RepWorld, Error> {
    if StatsOf(w.rep, who).registrationBlock == 0 then Err(UserNotRegistered)
    else Ok(w.(rep := w.rep.(stats := w.rep.stats[who := s])))
  }

  function AfterProjectCompleted(cfg: Config, now: BlockNumber, w: RepWorld,
                                 freelancer: AccountId, value: Balance, rating: nat): Result<RepWorld, Error>
  {
    if rating > 5000 then Err(InvalidScore)
    else
      var w1 :- AfterStats(w, freelancer,
        StatsAfterCompletion(cfg, now, StatsOf(w.rep, freelancer), value, rating));
      AfterUpdateTier(cfg, w1, freelancer).Propagated()
  }

  function AfterDisputeOutcome(cfg: Config, now: BlockNumber, w: RepWorld,
                               winner: AccountId, loser: AccountId): Result<RepWorld, Error>
  {
    var w1 :- AfterStats(w, winner, StatsAfterWin(now, StatsOf(w.rep, winner)));
    var w2 :- AfterStats(w1, loser, StatsAfterLoss(now, StatsOf(w1.rep, loser)));
    var w3 :- AfterUpdateTier(cfg, w2, winner).Propagated();
    AfterUpdateTier(cfg, w3, loser).Propagated()
  }

  /** The caller discards the result, so the partial writes of a failed promotion stay. */
  function AfterJuryVote(cfg: Config, now: BlockNumber, w: RepWorld,
                         juror: AccountId, withMajority: bool): Attempt
  {
    match AfterStats(w, juror, StatsAfterVote(now, StatsOf(w.rep, juror), withMajority))
    case Err(e) => Attempt(w, Some(e))
    case Ok(w1) => AfterUpdateTier(cfg, w1, juror)
  }

  function AfterProjectCreated(cfg: Config, now: BlockNumber, w: RepWorld,
                               client: AccountId, budget: Balance): Result<RepWorld, Error>
  {
    var s := StatsOf(w.rep, client);
    AfterStats(w, client, s.(projectsPosted := SatAdd(s.projectsPosted, 1, U32_MAX),
                             totalSpent := SatAdd(s.totalSpent, budget, cfg.maxBalance),
                             lastActivityBlock := now))
  }

  function AfterProjectCancelled(now: BlockNumber, w: RepWorld, client: AccountId): Result<RepWorld, Error> {
    var s := StatsOf(w.rep, client);
    AfterStats(w, client, s.(projectsFailed := SatAdd(s.projectsFailed, 1, U32_MAX), lastActivityBlock := now))
  }

  function AfterWorkAccepted(now: BlockNumber, w: RepWorld, client: AccountId): Result<RepWorld, Error> {
    var s := StatsOf(w.rep, client);
    AfterStats(w, client, s.(projectsCompleted := SatAdd(s.projectsCompleted, 1, U32_MAX), lastActivityBlock := now))
  }

  // ---------- juror selection ----------

  function FromTier(r: RepStore, t: JurorTier, exclude: seq<AccountId>, selected: seq<AccountId>, count: nat)
    : (seq<AccountId>, RepStore)
  {
    if |selected| >= count || Pool(r, t) == [] then (selected, r)
    else
      var (grown, next) := FromPool(Pool(r, t), Get(r.nextIndex, t), exclude, selected, count);
      (grown, r.(nextIndex := r.nextIndex[t := next]))
  }

  /** Gold first, then each lower tier the caller accepts while jurors are still missing. */
  function Selection(r: RepStore, minTier: JurorTier, exclude: seq<AccountId>, count: nat)
    : (seq<AccountId>, RepStore)
  {
    var (s1, r1) := FromTier(r, Gold, exclude, [], count);
    var (s2, r2) := if Rank(minTier) <= Rank(Silver) then FromTier(r1, Silver, exclude, s1, count) else (s1, r1);
    if Rank(minTier) <= Rank(Bronze) then FromTier(r2, Bronze, exclude, s2, count) else (s2, r2)
  }

  // ---------- genesis ----------

  function AfterGenesisJuror(cfg: Config, w: RepWorld, juror: AccountId): Result<RepWorld, Error> {
    var stats := StatsOf(w.rep, juror);
    var tier := TierFromStats(stats);
    if stats.registrationBlock == 0 then Err(UserNotRegistered)
    else
      var ledger :- AfterReserve(w.ledger, juror, w.rep.jurorStake);
      var rep := w.rep.(stakeOf := w.rep.stakeOf[juror := w.rep.jurorStake],
                        registry := w.rep.registry + {juror});
      if tier == Ineligible then Ok(RepWorld(ledger, rep))
      else
        var listed :- AfterAddToTierList(cfg, rep.(tiers := rep.tiers[juror := tier]), juror, tier);
        Ok(RepWorld(ledger, listed))
  }

  function AfterGenesisJurors(cfg: Config, w: RepWorld, jurors: seq<AccountId>): Result<RepWorld, Error> {
    if jurors == [] then Ok(w)
    else
      var w1 :- AfterGenesisJurors(cfg, w, jurors[..|jurors| - 1]);
      AfterGenesisJuror(cfg, w1, jurors[|jurors| - 1])
  }

  /** The pallet before any juror is registered. */
  function Unstaked(users: map<AccountId, Stats>, stake: Balance): RepStore {
    RepStore(users, map[], {}, [], [], [], map[], stake, map[])
  }

  function Genesis(cfg: Config, ledger: Ledger, users: map<AccountId, Stats>,
                   jurors: seq<AccountId>, stake: Balance): Result<RepWorld, Error>
  {
    AfterGenesisJurors(cfg, RepWorld(ledger, Unstaked(users, stake)), jurors)
  }
}
