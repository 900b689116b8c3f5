/**
  When a call is refused, and with which error: the checks every call makes on the state before
  it, in their order. Bonds, stakes, payments, juries and promotions are checked down to the
  balances, the pools and the statistics they depend on.
*/
module Admission {
  import opened Prelude
  import opened Types
  import opened Currency
  import opened Reputation
  import opened JurorIndex
  import opened Projects
  import opened Arbitration
  import opened OutcomeRecords
  import opened SelectionTheorems
  import opened System

  /** Open until something needed does not hold, and then shut with that error. */
  datatype Gate = Open | Shut(error: Error) {
    function Need(holds: bool, error: Error): Gate {
      if Open? && !holds then Shut(error) else this
    }

    /** A reserve takes free money, and what stays free must cover every lock. */
    function NeedReserve(l: Ledger, who: AccountId, amount: Balance): Gate {
      Need(amount == 0 || amount <= Free(l, who), InsufficientBalance)
      .Need(amount == 0 || LeavesLocks(l, who, Free(l, who) - amount, None), LiquidityRestrictions)
    }

    /** An open gate lets the call succeed, a shut one is its error. */
    predicate Decides<T>(r: Result<T, Error>) {
      match this
      case Open => r.Ok?
      case Shut(e) => r == Err(e)
    }
  }

  // ---------- what the checks read ----------

  const NO_PROJECT := Project(0, None, "", 0, Created, 0, None, None, None)
  const NO_DISPUTE := Dispute(AiProcessing, "", "", 0, None, 0, [], map[])

  function ProjectAt(s: State, id: ProjectId): Project {
    if id in s.proj.projects then s.proj.projects[id] else NO_PROJECT
  }

  function DisputeAt(s: State, id: ProjectId): Dispute {
    if id in s.arb.disputes then s.arb.disputes[id] else NO_DISPUTE
  }

  function ApplicantsAt(s: State, id: ProjectId): seq<AccountId> {
    if id in s.proj.applicants then s.proj.applicants[id] else []
  }

  predicate KnownUser(s: State, who: AccountId) {
    StatsOf(s.rep, who).registrationBlock != 0
  }

  /** What remains covers every lock of the account but the one given. */
  predicate LeavesLocks(l: Ledger, who: AccountId, remains: int, open: Option<LockId>) {
    forall k | k in l.locks && k.0 == who && Some(k.1) != open :: l.locks[k] <= remains
  }

  /** A payment to somebody else takes free money, and free and reserved together must cover every other lock. */
  predicate Pays(l: Ledger, src: AccountId, dst: AccountId, amount: Balance, open: Option<LockId>) {
    amount == 0 || src == dst
    || (amount <= Free(l, src) && LeavesLocks(l, src, Free(l, src) - amount + Reserved(l, src), open))
  }

  /** The pool of a tier has room for one more. */
  predicate Room(cfg: Config, r: RepStore, t: JurorTier) {
    match t
    case Gold => |r.gold| < cfg.maxGold
    case Silver => |r.silver| < cfg.maxSilver
    case Bronze => |r.bronze| < cfg.maxBronze
    case Ineligible => true
  }

  /** With these statistics the account keeps its tier, loses it, or finds room in the pool of its new one. */
  predicate FindsRoom(cfg: Config, r: RepStore, who: AccountId, s: Stats) {
    who !in r.registry || TierFromStats(s) == TierOf(r, who) || Room(cfg, r, TierFromStats(s))
  }

  /** The percentage of the budget a first dispute and the two appeals put up. */
  function BondFor(cfg: Config, budget: Balance, round: nat): Balance {
    Min(budget * (if round == 1 then 5 else if round == 2 then 20 else 50), cfg.maxBalance) / 100
  }

  /** The accounts that may judge a round: of any pool in the second, of the Silver and Gold pools in the third. */
  function Candidates(r: RepStore, client: AccountId, freelancer: AccountId, round: nat): set<AccountId> {
    Elements(r.gold) + Elements(r.silver) + (if round == 2 then Elements(r.bronze) else {}) - {client, freelancer}
  }

  // ---------- the gates ----------

  function EnvironmentGate(cfg: Config, s: State, c: Call): Gate
    requires IsEnvironmentCall(c)
  {
    match c
    case NextBlock => Open.Need(s.now < cfg.maxBlock, NoMoreBlocks)
    case Mint(_, amount) => Open.Need(s.ledger.issuance + amount <= cfg.maxBalance, IssuanceOverflow)
    case Transfer(who, dst, amount) =>
      Open.Need(amount == 0 || who == dst || amount <= Free(s.ledger, who), InsufficientBalance)
      .Need(Pays(s.ledger, who, dst, amount, None), LiquidityRestrictions)
  }

  function ReputationGate(cfg: Config, s: State, c: Call): Gate
    requires IsReputationCall(c)
  {
    match c
    case RegisterUser(who) => Open.Need(who !in s.rep.stats, AlreadyRegistered)
    case RegisterAsJuror(who) =>
      var tier := TierFromStats(StatsOf(s.rep, who));
      Open.Need(who !in s.rep.registry, AlreadyRegisteredAsJuror)
      .Need(tier != Ineligible, InsufficientTier)
      .NeedReserve(s.ledger, who, s.rep.jurorStake)
      .Need(Room(cfg, s.rep, tier), JurorPoolFull)
    case DeregisterAsJuror(who) => Open.Need(who in s.rep.registry && who in s.rep.stakeOf, NotRegisteredAsJuror)
    case SlashJuror(juror) => Open.Need(juror in s.rep.registry && juror in s.rep.stakeOf, NotRegisteredAsJuror)
  }

  function HiringGate(cfg: Config, s: State, c: Call): Gate
    requires c.CreateProject? || c.ApplyForProject? || c.StartWork? || c.CancelProject?
  {
    match c
    case CreateProject(who, _, _, _) => Open.Need(KnownUser(s, who), UserNotRegistered)
    case ApplyForProject(who, id) =>
      var p, applicants := ProjectAt(s, id), ApplicantsAt(s, id);
      Open.Need(id in s.proj.projects, ProjectNotFound)
      .Need(p.status == Created, InvalidProjectStatus)
      .Need(who !in applicants, AlreadyApplied)
      .Need(|applicants| < cfg.maxApplicants, TooManyApplicants)
    case StartWork(who, id, selected) =>
      var p := ProjectAt(s, id);
      Open.Need(id in s.proj.projects, ProjectNotFound)
      .Need(p.client == who, NotProjectOwner)
      .Need(p.status == Created, InvalidProjectStatus)
      .Need(selected in ApplicantsAt(s, id), ApplicantNotFound)
    case CancelProject(who, id) =>
      var p := ProjectAt(s, id);
      Open.Need(id in s.proj.projects, ProjectNotFound)
      .Need(p.client == who, NotProjectOwner)
      .Need(p.status == Created || p.status == InProgress, InvalidProjectStatus)
      .Need(KnownUser(s, who), UserNotRegistered)
  }

  function ReviewGate(cfg: Config, s: State, c: Call): Gate
    requires c.SubmitWork? || c.RejectWork? || c.AcceptWork?
  {
    var p := ProjectAt(s, c.id);
    match c
    case SubmitWork(who, id, _, uri, _) =>
      Open.Need(id in s.proj.projects, ProjectNotFound)
      .Need(p.freelancer == Some(who), NotFreelancer)
      .Need(p.status == InProgress, InvalidProjectStatus)
      .Need(p.submission.None?, WorkAlreadySubmitted)
      .Need(p.deadline.None? || s.now <= p.deadline.value, SubmissionDeadlinePassed)
      .Need(uri != "", InvalidUri)
    case RejectWork(who, id, uri) =>
      Open.Need(id in s.proj.projects, ProjectNotFound)
      .Need(p.client == who, NotProjectOwner)
      .Need(p.status == InReview, InvalidProjectStatus)
      .Need(p.submission.Some?, NoWorkSubmitted)
      .Need(uri != "", InvalidUri)
      .Need(p.freelancer.Some?, NotFreelancer)
    case AcceptWork(who, id, rating) =>
      var f := p.freelancer.GetOr(0);
      var earned := StatsAfterCompletion(cfg, s.now, StatsOf(s.rep, f), p.budget, 1000 * rating);
      Open.Need(1 <= rating <= 5, RatingOutOfRange)
      .Need(id in s.proj.projects, ProjectNotFound)
      .Need(p.client == who, NotProjectOwner)
      .Need(p.status == InReview, InvalidProjectStatus)
      .Need(p.submission.Some?, NoWorkSubmitted)
      .Need(p.freelancer.Some?, NotFreelancer)
      .Need(Pays(s.ledger, who, f, p.budget, Some(LockIdOf(id))), ProjectPaymentFailed)
      .Need(KnownUser(s, f), UserNotRegistered)
      .Need(FindsRoom(cfg, s.rep, f, earned), JurorPoolFull)
      .Need(KnownUser(s, who), UserNotRegistered)
  }

  /** All dispute calls but the enforcement. */
  function DisputeGate(cfg: Config, s: State, c: Call): Gate
    requires IsArbitrationCall(c) && !c.EnforceFinalRuling?
  {
    var p, d := ProjectAt(s, c.id), DisputeAt(s, c.id);
    var client, freelancer := p.client, p.freelancer.GetOr(0);
    match c
    case CreateDispute(who, id) =>
      Open.Need(id !in s.arb.disputes, DisputeAlreadyExists)
      .Need(id in s.proj.projects, ProjectNotFound)
      .Need(p.freelancer.Some?, NotFreelancer)
      .Need(who == freelancer, NotAuthorized)
      .NeedReserve(s.ledger, who, BondFor(cfg, p.budget, 1))
      .Need(p.submission.Some?, NoWorkSubmitted)
      .Need(p.status == InReview || p.status == Rejected, InvalidProjectStatus)
    case SubmitRuling(id, _) =>
      Open.Need(id in s.arb.disputes, DisputeNotFound)
      .Need(d.status == AiProcessing, InvalidDisputeStatus)
    case AppealRuling(who, id) =>
      Open.Need(id in s.arb.disputes, DisputeNotFound)
      .Need(d.status == Appealable, InvalidDisputeStatus)
      .Need(s.now < Min(d.startBlock + cfg.appealPeriod, cfg.maxBlock), AppealPeriodExpired)
      .Need(id in s.proj.projects, ProjectNotFound)
      .Need(p.freelancer.Some?, NotFreelancer)
      .Need(d.ruling.Some?, InvalidDisputeStatus)
      .Need(who == (if d.ruling == Some(ClientWins) then freelancer else client), NotLosingParty)
      .Need(d.round < 3, MaxAppealsReached)
      .NeedReserve(s.ledger, who, BondFor(cfg, p.budget, d.round + 1))
      .Need(d.round > 0, InvalidRound)
      .Need(|Candidates(s.rep, client, freelancer, d.round + 1)|
            >= (if d.round == 1 then cfg.minJurors else cfg.maxJurors), NotEnoughJurors)
    case CastVote(who, id, _) =>
      Open.Need(id in s.arb.disputes, DisputeNotFound)
      .Need(d.status == Voting, InvalidDisputeStatus)
      .Need(exists i :: 0 <= i < |d.jurors| && d.jurors[i].0 == who, NotJuror)
      .Need(exists i :: 0 <= i < |d.jurors| && d.jurors[i] == (who, false)
                        && forall j :: 0 <= j < i ==> d.jurors[j].0 != who, AlreadyVoted)
    case FinalizeRound(_, id) =>
      Open.Need(id in s.arb.disputes, DisputeNotFound)
      .Need(d.status == Voting, InvalidDisputeStatus)
      .Need(s.now >= Min(d.startBlock + cfg.votingPeriod, cfg.maxBlock), VotingPeriodNotOver)
  }

  /** Every call but the enforcement, of which `EnforcementSucceedsExactly` speaks. */
  function GateOf(cfg: Config, s: State, c: Call): Gate
    requires !c.EnforceFinalRuling?
  {
    if IsEnvironmentCall(c) then EnvironmentGate(cfg, s, c)
    else if IsReputationCall(c) then ReputationGate(cfg, s, c)
    else if IsArbitrationCall(c) then DisputeGate(cfg, s, c)
    else if c.SubmitWork? || c.RejectWork? || c.AcceptWork? then ReviewGate(cfg, s, c)
    else HiringGate(cfg, s, c)
  }

  // ---------- proofs ----------

  lemma EnvironmentDecided(cfg: Config, s: State, c: Call)
    requires IsEnvironmentCall(c)
    ensures EnvironmentGate(cfg, s, c).Decides(Apply(cfg, s, c))
  {
  }

  lemma ReserveDecided(g: Gate, l: Ledger, who: AccountId, amount: Balance)
    ensures g.Open? ==> g.NeedReserve(l, who, amount).Decides(AfterReserve(l, who, amount))
    ensures g.Shut? ==> g.NeedReserve(l, who, amount) == g
  {
  }

  lemma AdditionFindsRoom(cfg: Config, r: RepStore, who: AccountId, t: JurorTier)
    ensures Open.Need(Room(cfg, r, t), JurorPoolFull).Decides(AfterAddToTierList(cfg, r, who, t))
  {
  }

  lemma RegistrationDecided(cfg: Config, s: State, who: AccountId)
    ensures ReputationGate(cfg, s, RegisterAsJuror(who)).Decides(Apply(cfg, s, RegisterAsJuror(who)))
  {
    hide TierFromStats, AfterAddToTierList, AfterReserve, Gate.NeedReserve, Room;
    var tier := TierFromStats(StatsOf(s.rep, who));
    var rep := s.rep.(stakeOf := s.rep.stakeOf[who := s.rep.jurorStake], registry := s.rep.registry + {who},
                      tiers := s.rep.tiers[who := tier]);
    AdditionFindsRoom(cfg, rep, who, tier);
    SameRoom(cfg, s.rep, rep, tier);
    ReserveDecided(Open.Need(who !in s.rep.registry, AlreadyRegisteredAsJuror)
                   .Need(tier != Ineligible, InsufficientTier), s.ledger, who, s.rep.jurorStake);
  }

  lemma SameRoom(cfg: Config, r: RepStore, v: RepStore, t: JurorTier)
    requires v.gold == r.gold && v.silver == r.silver && v.bronze == r.bronze
    ensures Room(cfg, v, t) == Room(cfg, r, t)
  {
  }

  lemma ReputationDecided(cfg: Config, s: State, c: Call)
    requires IsReputationCall(c)
    ensures ReputationGate(cfg, s, c).Decides(Apply(cfg, s, c))
  {
    if c.RegisterAsJuror? {
      RegistrationDecided(cfg, s, c.who);
    } else {
      hide AfterRemoveFromTierList, PermillOf;
    }
  }

  lemma HiringDecided(cfg: Config, s: State, c: Call)
    requires c.CreateProject? || c.ApplyForProject? || c.StartWork? || c.CancelProject?
    ensures HiringGate(cfg, s, c).Decides(Apply(cfg, s, c))
  {
    hide LockIdOf;
  }

  lemma HandInDecided(cfg: Config, s: State, c: Call)
    requires c.SubmitWork? || c.RejectWork?
    ensures ReviewGate(cfg, s, c).Decides(Apply(cfg, s, c))
  {
    hide LockIdOf, AfterAcceptWork;
  }

  lemma CreationDecided(cfg: Config, s: State, c: Call)
    requires c.CreateDispute?
    ensures DisputeGate(cfg, s, c).Decides(Apply(cfg, s, c))
  {
    hide AfterReserve, LeavesLocks;
    ReserveDecided(Open, s.ledger, c.who, BondFor(cfg, ProjectAt(s, c.id).budget, 1));
  }
  // ---------- accepting work ----------

  lemma PaymentDecided(l: Ledger, id: LockId, src: AccountId, dst: AccountId, amount: Balance)
    ensures AfterTransfer(AfterRemoveLock(l, id, src), src, dst, amount).Ok? <==> Pays(l, src, dst, amount, Some(id))
  {
    var m := AfterRemoveLock(l, id, src);
    assert forall k :: k in m.locks <==> k in l.locks && k != (src, id);
  }

  lemma PromotionDecided(cfg: Config, w: RepWorld, who: AccountId)
    ensures AfterUpdateTier(cfg, w, who).error
         == if FindsRoom(cfg, w.rep, who, StatsOf(w.rep, who)) then None else Some(JurorPoolFull)
  {
    hide AfterUpdateTier, TierFromStats;
    UpdateTierFails(cfg, w, who);
  }

  lemma CompletionDecided(cfg: Config, now: BlockNumber, w: RepWorld, f: AccountId, value: Balance, rating: nat)
    ensures var s := StatsOf(w.rep, f);
      Open.Need(rating <= 5000, InvalidScore)
      .Need(s.registrationBlock != 0, UserNotRegistered)
      .Need(FindsRoom(cfg, w.rep, f, StatsAfterCompletion(cfg, now, s, value, rating)), JurorPoolFull)
      .Decides(AfterProjectCompleted(cfg, now, w, f, value, rating))
    ensures AfterProjectCompleted(cfg, now, w, f, value, rating).Ok? ==>
      forall a :: StatsOf(AfterProjectCompleted(cfg, now, w, f, value, rating).value.rep, a).registrationBlock
               == StatsOf(w.rep, a).registrationBlock
  {
    hide AfterUpdateTier, TierFromStats, Room, NextAverage;
    var s := StatsAfterCompletion(cfg, now, StatsOf(w.rep, f), value, rating);
    var r := AfterStats(w, f, s);
    if r.Ok? {
      PromotionDecided(cfg, r.value, f);
      SameRoom(cfg, w.rep, r.value.rep, TierFromStats(s));
      UpdateWritesNoStats(cfg, r.value, f);
    }
  }

  lemma AcceptanceDecided(cfg: Config, s: State, c: Call)
    requires c.AcceptWork?
    ensures ReviewGate(cfg, s, c).Decides(Apply(cfg, s, c))
  {
    hide LockIdOf, AfterTransfer, AfterProjectCompleted, StatsAfterCompletion, FindsRoom, Pays;
    var p := ProjectAt(s, c.id);
    var f := p.freelancer.GetOr(0);
    PaymentDecided(s.ledger, LockIdOf(c.id), p.client, f, p.budget);
    var paid := AfterTransfer(AfterRemoveLock(s.ledger, LockIdOf(c.id), p.client), p.client, f, p.budget);
    if paid.Ok? && c.rating <= 5 {
      CompletionDecided(cfg, s.now, RepWorld(paid.value, s.rep), f, p.budget, c.rating * 1000);
    }
  }

  // ---------- rulings, appeals and votes ----------

  lemma CandidatesAreEligible(r: RepStore, client: AccountId, freelancer: AccountId, round: nat)
    requires round == 2 || round == 3
    ensures Eligible(r, RequiredTier(round), [client, freelancer]) == Candidates(r, client, freelancer, round)
  {
    assert forall j :: j in r.gold + r.silver + r.bronze <==> j in r.gold || j in r.silver || j in r.bronze;
    assert forall j :: j in [client, freelancer] <==> j == client || j == freelancer;
  }

  /** A jury is complete exactly when there are candidates enough. */
  lemma JuryDecided(cfg: Config, r: RepStore, client: AccountId, freelancer: AccountId, round: nat)
    requires round == 2 || round == 3
    ensures |Selection(r, RequiredTier(round), [client, freelancer], JurySize(cfg, round)).0| < JurySize(cfg, round)
       <==> |Candidates(r, client, freelancer, round)| < (if round == 2 then cfg.minJurors else cfg.maxJurors)
  {
    hide Selection, Candidates, Eligible, RequiredTier;
    SelectionComplete(r, RequiredTier(round), [client, freelancer], JurySize(cfg, round));
    CandidatesAreEligible(r, client, freelancer, round);
  }

  lemma AppealDecided(cfg: Config, s: State, c: Call)
    requires c.AppealRuling?
    ensures DisputeGate(cfg, s, c).Decides(Apply(cfg, s, c))
  {
    hide AfterReserve, LeavesLocks, Selection, Candidates, RequiredTier, JurySize;
    var p, d := ProjectAt(s, c.id), DisputeAt(s, c.id);
    var round := d.round + 1;
    ReserveDecided(Open, s.ledger, c.who, BondFor(cfg, p.budget, round));
    if round == 2 || round == 3 {
      JuryDecided(cfg, s.rep, p.client, p.freelancer.GetOr(0), round);
    }
  }

  lemma VoteDecided(cfg: Config, s: State, c: Call)
    requires c.CastVote?
    ensures DisputeGate(cfg, s, c).Decides(Apply(cfg, s, c))
  {
    var d := DisputeAt(s, c.id);
    var seat := SeatOf(d.jurors, c.who);
    hide SeatOf;
  }

  lemma RoundDecided(cfg: Config, s: State, c: Call)
    requires c.SubmitRuling? || c.FinalizeRound?
    ensures DisputeGate(cfg, s, c).Decides(Apply(cfg, s, c))
  {
    hide AfterJuryVotes, VoteOrder, RewardsAfterRound, RoundRuling;
  }

  /** Every call but the enforcement is decided by its gate: accepted if it is open, refused with its error if not. */
  lemma CallsDecided(cfg: Config, s: State, c: Call)
    requires !c.EnforceFinalRuling?
    ensures GateOf(cfg, s, c).Decides(Apply(cfg, s, c))
  {
    hide Apply, EnvironmentGate, ReputationGate, HiringGate, ReviewGate, DisputeGate;
    match c {
      case SubmitWork(_, _, _, _, _) => HandInDecided(cfg, s, c);
      case RejectWork(_, _, _) => HandInDecided(cfg, s, c);
      case AcceptWork(_, _, _) => AcceptanceDecided(cfg, s, c);
      case CreateDispute(_, _) => CreationDecided(cfg, s, c);
      case AppealRuling(_, _) => AppealDecided(cfg, s, c);
      case CastVote(_, _, _) => VoteDecided(cfg, s, c);
      case SubmitRuling(_, _) => RoundDecided(cfg, s, c);
      case FinalizeRound(_, _) => RoundDecided(cfg, s, c);
      case _ =>
        if IsEnvironmentCall(c) {
          EnvironmentDecided(cfg, s, c);
        } else if IsReputationCall(c) {
          ReputationDecided(cfg, s, c);
        } else {
          HiringDecided(cfg, s, c);
        }
    }
  }
}
