/**
  The three pallets as one state machine: every call, one atomic step per call, and runs.
*/
module System {
  import opened Prelude
  import opened Types
  import opened Currency
  import opened Reputation
  import opened Projects
  import opened Arbitration

  datatype Call =
      // block production and plain balance movements outside the three pallets
    | NextBlock
    | Transfer(who: AccountId, dst: AccountId, amount: Balance)
    | Mint(dst: AccountId, amount: Balance)
      // reputation
    | RegisterUser(who: AccountId)
    | RegisterAsJuror(who: AccountId)
    | DeregisterAsJuror(who: AccountId)
    | SlashJuror(juror: AccountId)
      // projects
    | CreateProject(who: AccountId, budget: Balance, uri: Uri, duration: BlockNumber)
    | ApplyForProject(who: AccountId, id: ProjectId)
    | StartWork(who: AccountId, id: ProjectId, selected: AccountId)
    | SubmitWork(who: AccountId, id: ProjectId, contentHash: string, uri: Uri, metadata: string)
    | AcceptWork(who: AccountId, id: ProjectId, rating: nat)
    | RejectWork(who: AccountId, id: ProjectId, uri: Uri)
    | CancelProject(who: AccountId, id: ProjectId)
      // arbitration
    | CreateDispute(who: AccountId, id: ProjectId)
    | SubmitRuling(id: ProjectId, ruling: Ruling)
    | AppealRuling(who: AccountId, id: ProjectId)
    | CastVote(who: AccountId, id: ProjectId, vote: Vote)
    | FinalizeRound(who: AccountId, id: ProjectId)
    | EnforceFinalRuling(who: AccountId, id: ProjectId)

  /** The signer, for the calls that have one. */
  function Signer(c: Call): Option<AccountId> {
    match c
    case NextBlock => None
    case Mint(_, _) => None
    case SlashJuror(_) => None
    case SubmitRuling(_, _) => None
    case _ => Some(c.who)
  }

  /** Nobody can sign for an account derived from a pallet id, and balances have a fixed width. */
  predicate WellFormed(cfg: Config, c: Call) {
    && Signer(c) != Some(cfg.arbitrator)
    && (c.CreateProject? ==> c.budget <= cfg.maxBalance)
  }

  // ---------- kinds of calls ----------

  predicate IsEnvironmentCall(c: Call) {
    c.NextBlock? || c.Transfer? || c.Mint?
  }

  predicate IsReputationCall(c: Call) {
    c.RegisterUser? || c.RegisterAsJuror? || c.DeregisterAsJuror? || c.SlashJuror?
  }

  predicate IsProjectCall(c: Call) {
    || c.CreateProject? || c.ApplyForProject? || c.StartWork? || c.SubmitWork?
    || c.AcceptWork? || c.RejectWork? || c.CancelProject?
  }

  predicate IsArbitrationCall(c: Call) {
    || c.CreateDispute? || c.SubmitRuling? || c.AppealRuling?
    || c.CastVote? || c.FinalizeRound? || c.EnforceFinalRuling?
  }

  function Lift(s: State, r: Result<ProjWorld, Error>): Result<State, Error> {
    match r
    case Ok(w) => Ok(WithSite(s, w))
    case Err(e) => Err(e)
  }

  function LiftJury(s: State, r: Result<RepWorld, Error>): Result<State, Error> {
    match r
    case Ok(w) => Ok(WithJury(s, w))
    case Err(e) => Err(e)
  }

  ghost function Apply(cfg: Config, s: State, c: Call): Result<State, Error> {
    var jury := RepWorld(s.ledger, s.rep);
    match c
    case NextBlock => if s.now < cfg.maxBlock then Ok(s.(now := s.now + 1)) else Err(NoMoreBlocks)
    case Transfer(who, dst, amount) =>
      var ledger :- AfterTransfer(s.ledger, who, dst, amount);
      Ok(s.(ledger := ledger))
    case Mint(dst, amount) =>
      if s.ledger.issuance + amount > cfg.maxBalance then Err(IssuanceOverflow)
      else Ok(s.(ledger := AfterDepositCreating(s.ledger, dst, amount)))
    case RegisterUser(who) => LiftJury(s, AfterRegisterUser(s.now, jury, who))
    case RegisterAsJuror(who) => LiftJury(s, AfterRegisterAsJuror(cfg, jury, who))
    case DeregisterAsJuror(who) => LiftJury(s, AfterDeregisterAsJuror(jury, who))
    case SlashJuror(juror) => LiftJury(s, AfterSlashJuror(cfg, jury, juror))
    case CreateProject(who, budget, uri, duration) =>
      Lift(s, AfterCreateProject(cfg, s.now, s.Site(), who, budget, uri, duration))
    case ApplyForProject(who, id) => Lift(s, AfterApplyForProject(cfg, s.Site(), who, id))
    case StartWork(who, id, selected) => Lift(s, AfterStartWork(cfg, s.now, s.Site(), who, id, selected))
    case SubmitWork(who, id, contentHash, uri, metadata) =>
      Lift(s, AfterSubmitWork(s.now, s.Site(), who, id, contentHash, uri, metadata))
    case AcceptWork(who, id, rating) => Lift(s, AfterAcceptWork(cfg, s.now, s.Site(), who, id, rating))
    case RejectWork(who, id, uri) => Lift(s, AfterRejectWork(s.now, s.Site(), who, id, uri))
    case CancelProject(who, id) => Lift(s, AfterCancelProject(s.now, s.Site(), who, id))
    case CreateDispute(who, id) => AfterCreateDispute(cfg, s, who, id)
    case SubmitRuling(id, ruling) => AfterSubmitRuling(s, id, ruling)
    case AppealRuling(who, id) => AfterAppealRuling(cfg, s, who, id)
    case CastVote(who, id, vote) => AfterCastVote(s, who, id, vote)
    case FinalizeRound(_, id) => AfterFinalizeRound(cfg, s, id)
    case EnforceFinalRuling(_, id) => AfterEnforceFinalRuling(cfg, s, id)
  }

  /** A failed call leaves no trace. */
  ghost function Step(cfg: Config, s: State, c: Call): State {
    match Apply(cfg, s, c)
    case Ok(t) => t
    case Err(_) => s
  }

  ghost function Run(cfg: Config, s: State, calls: seq<Call>): State {
    if calls == [] then s
    else Step(cfg, Run(cfg, s, calls[..|calls| - 1]), calls[|calls| - 1])
  }

  ghost predicate AllWellFormed(cfg: Config, calls: seq<Call>) {
    forall i :: 0 <= i < |calls| ==> WellFormed(cfg, calls[i])
  }

  function Creations(calls: seq<Call>): nat {
    if calls == [] then 0
    else Creations(calls[..|calls| - 1]) + (if calls[|calls| - 1].CreateProject? then 1 else 0)
  }
}
