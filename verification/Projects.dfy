/**
  The projects pallet: the project lifecycle, the escrow lock of each project, and the
  interface through which the arbitration pallet reads and closes a disputed project.
*/
module Projects {
  import opened Prelude
  import opened Types
  import opened Currency
  import opened Reputation

  datatype ProjectStatus = Created | InProgress | InReview | Rejected | InDispute | Completed | Cancelled

  datatype WorkSubmission = WorkSubmission(
    contentHash: string, uri: Uri, submissionBlock: BlockNumber, metadata: string)

  datatype Rejection = Rejection(reasonUri: Uri, rejectionBlock: BlockNumber, previousSubmissions: nat)

  datatype Project = Project(
    client: AccountId,
    freelancer: Option<AccountId>,
    uri: Uri,
    budget: Balance,
    status: ProjectStatus,
    duration: BlockNumber,
    deadline: Option<BlockNumber>,
    submission: Option<WorkSubmission>,
    rejection: Option<Rejection>)

  datatype ProjStore = ProjStore(
    projects: map<ProjectId, Project>,
    nextProjectId: ProjectId,
    applicants: map<ProjectId, seq<AccountId>>)

  /** Everything this pallet can write. */
  datatype ProjWorld = ProjWorld(ledger: Ledger, rep: RepStore, proj: ProjStore) {
    function Jury(): RepWorld {
      RepWorld(ledger, rep)
    }
  }

  function Joined(w: RepWorld, proj: ProjStore): ProjWorld {
    ProjWorld(w.ledger, w.rep, proj)
  }

  function WithProject(proj: ProjStore, id: ProjectId, p: Project): ProjStore {
    proj.(projects := proj.projects[id := p])
  }

  function Applicants(proj: ProjStore, id: ProjectId): seq<AccountId> {
    if id in proj.applicants then proj.applicants[id] else []
  }

  // ---------- lock ids ----------

  /** The SCALE encoding of a u32: four bytes, least significant first. */
  function Encoded(id: ProjectId): (bytes: seq<nat>)
    ensures |bytes| == 4
  {
    [id % 0x100, id / 0x100 % 0x100, id / 0x1_0000 % 0x100, id / 0x100_0000 % 0x100]
  }

  /** The bytes of "tsk/proj". */
  const LOCK_PREFIX: seq<nat> := [116, 115, 107, 47, 112, 114, 111, 106]

  /** The first half of the prefix, then the encoded project id. */
  function LockIdOf(id: ProjectId): (lock: LockId)
    ensures |lock| == 8
  {
    LOCK_PREFIX[..4] + Encoded(id)
  }

  /** The project a lock id was generated for. */
  function LockOwner(lock: LockId): ProjectId {
    if |lock| < 8 then 0
    else lock[4] + 0x100 * lock[5] + 0x1_0000 * lock[6] + 0x100_0000 * lock[7]
  }

  // ---------- dispatchables ----------

  function AfterCreateProject(cfg: Config, now: BlockNumber, w: ProjWorld, client: AccountId,
                              budget: Balance, uri: Uri, duration: BlockNumber): Result<ProjWorld, Error>
  {
    var id := w.proj.nextProjectId;
    var ledger := AfterSetLock(w.ledger, LockIdOf(id), client, budget);
    var project := Project(client, None, uri, budget, Created, duration, None, None, None);
    var proj := WithProject(w.proj, id, project).(nextProjectId := (id + 1) % PROJECT_IDS);
    var jury :- AfterProjectCreated(cfg, now, RepWorld(ledger, w.rep), client, budget);
    Ok(Joined(jury, proj))
  }

  function AfterApplyForProject(cfg: Config, w: ProjWorld, applicant: AccountId,
                                id: ProjectId): Result<ProjWorld, Error> {
    var applicants := Applicants(w.proj, id);
    if id !in w.proj.projects then Err(ProjectNotFound)
    else if w.proj.projects[id].status != Created then Err(InvalidProjectStatus)
    else if applicant in applicants then Err(AlreadyApplied)
    else if |applicants| >= cfg.maxApplicants then Err(TooManyApplicants)
    else Ok(w.(proj := w.proj.(applicants := w.proj.applicants[id := applicants + [applicant]])))
  }

  function AfterStartWork(cfg: Config, now: BlockNumber, w: ProjWorld, client: AccountId,
                          id: ProjectId, selected: AccountId): Result<ProjWorld, Error>
  {
    if id !in w.proj.projects then Err(ProjectNotFound)
    else
      var p := w.proj.projects[id];
      if p.client != client then Err(NotProjectOwner)
      else if p.status != Created then Err(InvalidProjectStatus)
      else if selected !in Applicants(w.proj, id) then Err(ApplicantNotFound)
      else
        var started := p.(freelancer := Some(selected), status := InProgress,
                          deadline := Some(SatAdd(now, p.duration, cfg.maxBlock)));
        Ok(w.(proj := WithProject(w.proj, id, started).(applicants := w.proj.applicants - {id})))
  }

  function AfterSubmitWork(now: BlockNumber, w: ProjWorld, freelancer: AccountId, id: ProjectId,
                           contentHash: string, uri: Uri, metadata: string): Result<ProjWorld, Error>
  {
    if id !in w.proj.projects then Err(ProjectNotFound)
    else
      var p := w.proj.projects[id];
      if p.freelancer != Some(freelancer) then Err(NotFreelancer)
      else if p.status != InProgress then Err(InvalidProjectStatus)
      else if p.submission.Some? then Err(WorkAlreadySubmitted)
      else if p.deadline.Some? && now > p.deadline.value then Err(SubmissionDeadlinePassed)
      else if uri == [] then Err(InvalidUri)
      else
        var submitted := p.(submission := Some(WorkSubmission(contentHash, uri, now, metadata)), status := InReview);
        Ok(w.(proj := WithProject(w.proj, id, submitted)))
  }

  function AfterAcceptWork(cfg: Config, now: BlockNumber, w: ProjWorld, client: AccountId,
                           id: ProjectId, rating: nat): Result<ProjWorld, Error>
  {
    if !(0 < rating <= 5) then Err(RatingOutOfRange)
    else if id !in w.proj.projects then Err(ProjectNotFound)
    else
      var p := w.proj.projects[id];
      if p.client != client then Err(NotProjectOwner)
      else if p.status != InReview then Err(InvalidProjectStatus)
      else if p.submission.None? then Err(NoWorkSubmitted)
      else if p.freelancer.None? then Err(NotFreelancer)
      else
        var unlocked := AfterRemoveLock(w.ledger, LockIdOf(id), p.client);
        match AfterTransfer(unlocked, p.client, p.freelancer.value, p.budget)
        case Err(_) => Err(ProjectPaymentFailed)
        case Ok(ledger) =>
          var j1 :- AfterProjectCompleted(cfg, now, RepWorld(ledger, w.rep), p.freelancer.value, p.budget,
                                          rating * 1000);
          var j2 :- AfterWorkAccepted(now, j1, client);
          Ok(Joined(j2, WithProject(w.proj, id, p.(status := Completed))))
  }

  function AfterRejectWork(now: BlockNumber, w: ProjWorld, client: AccountId, id: ProjectId, reasonUri: Uri)
    : Result<ProjWorld, Error>
  {
    if id !in w.proj.projects then Err(ProjectNotFound)
    else
      var p := w.proj.projects[id];
      if p.client != client then Err(NotProjectOwner)
      else if p.status != InReview then Err(InvalidProjectStatus)
      else if p.submission.None? then Err(NoWorkSubmitted)
      else if reasonUri == [] then Err(InvalidUri)
      else if p.freelancer.None? then Err(NotFreelancer)
      else
        var previous := if p.rejection.Some? then p.rejection.value.previousSubmissions + 1 else 0;
        var rejected := p.(rejection := Some(Rejection(reasonUri, now, previous)), status := Rejected);
        Ok(w.(proj := WithProject(w.proj, id, rejected)))
  }

  function AfterCancelProject(now: BlockNumber, w: ProjWorld, client: AccountId,
                              id: ProjectId): Result<ProjWorld, Error> {
    if id !in w.proj.projects then Err(ProjectNotFound)
    else
      var p := w.proj.projects[id];
      if p.client != client then Err(NotProjectOwner)
      else if p.status != Created && p.status != InProgress then Err(InvalidProjectStatus)
      else
        var unlocked := AfterRemoveLock(w.ledger, LockIdOf(id), p.client);
        var jury :- AfterProjectCancelled(now, RepWorld(unlocked, w.rep), client);
        Ok(Joined(jury, WithProject(w.proj, id, p.(status := Cancelled))))
  }

  // ---------- the Arbitrable interface ----------

  function ProjectBudget(proj: ProjStore, id: ProjectId): Result<Balance, Error> {
    if id !in proj.projects then Err(ProjectNotFound) else Ok(proj.projects[id].budget)
  }

  /** The client and the freelancer. */
  function ProjectParties(proj: ProjStore, id: ProjectId): Result<(AccountId, AccountId), Error> {
    if id !in proj.projects then Err(ProjectNotFound)
    else if proj.projects[id].freelancer.None? then Err(NotFreelancer)
    else Ok((proj.projects[id].client, proj.projects[id].freelancer.value))
  }

  /** The requirements and the submitted work. */
  function EvidenceUris(proj: ProjStore, id: ProjectId): Result<(Uri, Uri), Error> {
    if id !in proj.projects then Err(ProjectNotFound)
    else if proj.projects[id].submission.None? then Err(NoWorkSubmitted)
    else Ok((proj.projects[id].uri, proj.projects[id].submission.value.uri))
  }

  function AfterSetInDispute(proj: ProjStore, id: ProjectId): Result<ProjStore, Error> {
    if id !in proj.projects then Err(ProjectNotFound)
    else
      var p := proj.projects[id];
      if p.status == Rejected || p.status == InReview then Ok(WithProject(proj, id, p.(status := InDispute)))
      else Err(InvalidProjectStatus)
  }

  function AfterOnRuling(cfg: Config, now: BlockNumber, w: ProjWorld, id: ProjectId,
                         ruling: Ruling): Result<ProjWorld, Error> {
    if id !in w.proj.projects then Err(ProjectNotFound)
    else
      var p := w.proj.projects[id];
      if p.freelancer.None? then Err(NotFreelancer)
      else
        var jury :-
          match ruling {
            case FreelancerWins =>
              var unlocked := AfterRemoveLock(w.ledger, LockIdOf(id), p.client);
              var ledger :- AfterTransfer(unlocked, p.client, p.freelancer.value, p.budget);
              AfterProjectCompleted(cfg, now, RepWorld(ledger, w.rep), p.freelancer.value, p.budget, 3000)
            case ClientWins =>
              AfterDisputeOutcome(cfg, now, w.Jury(), p.client, p.freelancer.value)
          };
        Ok(Joined(jury, WithProject(w.proj, id, p.(status := Completed))))
  }
}
