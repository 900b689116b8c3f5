/**
  The projects pallet as it runs: the `Projects` entry, the applicants and the locks, updated
  in place. Every method leaves behind exactly the storage that `Projects` describes.
*/
module ProjectsPallet {
  import opened Prelude
  import opened Types
  import opened Currency
  import opened Reputation
  import opened Projects
  import ReputationPallet

  class Pallet {
    const reputation: ReputationPallet.Pallet

    var projects: map<ProjectId, Project>
    var nextProjectId: ProjectId
    var applicants: map<ProjectId, seq<AccountId>>

    function Store(): ProjStore
      reads this
    {
      ProjStore(projects, nextProjectId, applicants)
    }

    function World(): ProjWorld
      reads this, reputation, reputation.currency
    {
      ProjWorld(reputation.currency.Store(), reputation.Store(), Store())
    }

    constructor (reputation: ReputationPallet.Pallet, p: ProjStore)
      ensures this.reputation == reputation && Store() == p
    {
      this.reputation := reputation;
      projects, nextProjectId, applicants := p.projects, p.nextProjectId, p.applicants;
    }

    /** The storage layer's rollback. */
    method Restore(p: ProjStore)
      modifies this
      ensures Store() == p
    {
      projects, nextProjectId, applicants := p.projects, p.nextProjectId, p.applicants;
    }

    /** Overwrites the second half of the prefix with the encoded project id. */
    method GenerateLockId(id: ProjectId) returns (lock: LockId)
      ensures lock == LockIdOf(id)
    {
      var bytes := Encoded(id);
      var buffer := new nat[8](i requires 0 <= i < 8 => LOCK_PREFIX[i]);
      var next := 0;
      for i := 4 to 8
        invariant next == i - 4
        invariant buffer[..4] == LOCK_PREFIX[..4]
        invariant buffer[4..i] == bytes[..next]
      {
        if next < |bytes| {
          buffer[i] := bytes[next];
          next := next + 1;
        }
      }
      lock := buffer[..];
      assert lock == buffer[..4] + buffer[4..8];
    }

    // ---------- dispatchables ----------

    method CreateProject(now: BlockNumber, client: AccountId, budget: Balance, uri: Uri, duration: BlockNumber)
      returns (r: Result<(), Error>)
      modifies this, reputation, reputation.currency
      ensures match AfterCreateProject(reputation.cfg, now, old(World()), client, budget, uri, duration)
              case Ok(v) => r == Ok(()) && World() == v
              case Err(e) => r == Err(e)
    {
      hide LockIdOf;
      var id := nextProjectId;
      var lock := GenerateLockId(id);
      reputation.currency.SetLock(lock, client, budget);
      projects := projects[id := Project(client, None, uri, budget, Created, duration, None, None, None)];
      nextProjectId := (id + 1) % PROJECT_IDS;
      r := reputation.ProjectCreated(now, client, budget);
    }

    method ApplyForProject(applicant: AccountId, id: ProjectId) returns (r: Result<(), Error>)
      modifies this
      ensures match AfterApplyForProject(reputation.cfg, old(World()), applicant, id)
              case Ok(v) => r == Ok(()) && World() == v
              case Err(e) => r == Err(e)
    {
      if id !in projects {
        return Err(ProjectNotFound);
      }
      if projects[id].status != Created {
        return Err(InvalidProjectStatus);
      }
      var already := Applicants(Store(), id);
      if applicant in already {
        return Err(AlreadyApplied);
      }
      if |already| >= reputation.cfg.maxApplicants {
        return Err(TooManyApplicants);
      }
      applicants := applicants[id := already + [applicant]];
      return Ok(());
    }

    method StartWork(now: BlockNumber, client: AccountId, id: ProjectId, selected: AccountId)
      returns (r: Result<(), Error>)
      modifies this
      ensures match AfterStartWork(reputation.cfg, now, old(World()), client, id, selected)
              case Ok(v) => r == Ok(()) && World() == v
              case Err(e) => r == Err(e)
    {
      if id !in projects {
        return Err(ProjectNotFound);
      }
      var project := projects[id];
      if project.client != client {
        return Err(NotProjectOwner);
      }
      if project.status != Created {
        return Err(InvalidProjectStatus);
      }
      if selected !in Applicants(Store(), id) {
        return Err(ApplicantNotFound);
      }
      project := project.(freelancer := Some(selected));
      project := project.(status := InProgress);
      project := project.(deadline := Some(SatAdd(now, project.duration, reputation.cfg.maxBlock)));
      applicants := applicants - {id};
      projects := projects[id := project];
      return Ok(());
    }

    method SubmitWork(now: BlockNumber, freelancer: AccountId, id: ProjectId,
                      contentHash: string, uri: Uri, metadata: string) returns (r: Result<(), Error>)
      modifies this
      ensures match AfterSubmitWork(now, old(World()), freelancer, id, contentHash, uri, metadata)
              case Ok(v) => r == Ok(()) && World() == v
              case Err(e) => r == Err(e)
    {
      if id !in projects {
        return Err(ProjectNotFound);
      }
      var project := projects[id];
      if project.freelancer != Some(freelancer) {
        return Err(NotFreelancer);
      }
      if project.status != InProgress {
        return Err(InvalidProjectStatus);
      }
      if project.submission.Some? {
        return Err(WorkAlreadySubmitted);
      }
      if project.deadline.Some? && now > project.deadline.value {
        return Err(SubmissionDeadlinePassed);
      }
      if uri == [] {
        return Err(InvalidUri);
      }
      project := project.(submission := Some(WorkSubmission(contentHash, uri, now, metadata)));
      project := project.(status := InReview);
      projects := projects[id := project];
      return Ok(());
    }

    method AcceptWork(now: BlockNumber, client: AccountId, id: ProjectId, rating: nat) returns (r: Result<(), Error>)
      modifies this, reputation, reputation.currency
      ensures match AfterAcceptWork(reputation.cfg, now, old(World()), client, id, rating)
              case Ok(v) => r == Ok(()) && World() == v
              case Err(e) => r == Err(e)
    {
      hide LockIdOf, AfterTransfer, AfterProjectCompleted, AfterWorkAccepted;
      if !(0 < rating <= 5) {
        return Err(RatingOutOfRange);
      }
      if id !in projects {
        return Err(ProjectNotFound);
      }
      var project := projects[id];
      if project.client != client {
        return Err(NotProjectOwner);
      }
      if project.status != InReview {
        return Err(InvalidProjectStatus);
      }
      if project.submission.None? {
        return Err(NoWorkSubmitted);
      }
      if project.freelancer.None? {
        return Err(NotFreelancer);
      }
      var lock := GenerateLockId(id);
      reputation.currency.RemoveLock(lock, project.client);
      r := reputation.currency.Transfer(project.client, project.freelancer.value, project.budget);
      if r.Err? {
        return Err(ProjectPaymentFailed);
      }
      r := reputation.ProjectCompleted(now, project.freelancer.value, project.budget, rating * 1000);
      if r.Err? {
        return;
      }
      r := reputation.WorkAccepted(now, client);
      if r.Err? {
        return;
      }
      projects := projects[id := project.(status := Completed)];
    }

    method RejectWork(now: BlockNumber, client: AccountId, id: ProjectId, reasonUri: Uri) returns (r: Result<(), Error>)
      modifies this
      ensures match AfterRejectWork(now, old(World()), client, id, reasonUri)
              case Ok(v) => r == Ok(()) && World() == v
              case Err(e) => r == Err(e)
    {
      if id !in projects {
        return Err(ProjectNotFound);
      }
      var project := projects[id];
      if project.client != client {
        return Err(NotProjectOwner);
      }
      if project.status != InReview {
        return Err(InvalidProjectStatus);
      }
      if project.submission.None? {
        return Err(NoWorkSubmitted);
      }
      if reasonUri == [] {
        return Err(InvalidUri);
      }
      if project.freelancer.None? {
        return Err(NotFreelancer);
      }
      var previous := 0;
      if project.rejection.Some? {
        previous := project.rejection.value.previousSubmissions + 1;
      }
      project := project.(rejection := Some(Rejection(reasonUri, now, previous)));
      project := project.(status := Rejected);
      projects := projects[id := project];
      return Ok(());
    }

    method CancelProject(now: BlockNumber, client: AccountId, id: ProjectId) returns (r: Result<(), Error>)
      modifies this, reputation, reputation.currency
      ensures match AfterCancelProject(now, old(World()), client, id)
              case Ok(v) => r == Ok(()) && World() == v
              case Err(e) => r == Err(e)
    {
      hide LockIdOf;
      if id !in projects {
        return Err(ProjectNotFound);
      }
      var project := projects[id];
      if project.client != client {
        return Err(NotProjectOwner);
      }
      if project.status != Created && project.status != InProgress {
        return Err(InvalidProjectStatus);
      }
      var lock := GenerateLockId(id);
      reputation.currency.RemoveLock(lock, project.client);
      project := project.(status := Cancelled);
      r := reputation.ProjectCancelled(now, client);
      if r.Err? {
        return;
      }
      projects := projects[id := project];
    }

    // ---------- the Arbitrable interface ----------

    method SetInDispute(id: ProjectId) returns (r: Result<(), Error>)
      modifies this
      ensures match AfterSetInDispute(old(Store()), id)
              case Ok(v) => r == Ok(()) && Store() == v
              case Err(e) => r == Err(e)
    {
      if id !in projects {
        return Err(ProjectNotFound);
      }
      var original := projects[id].status;
      if original == Rejected || original == InReview {
        projects := projects[id := projects[id].(status := InDispute)];
        return Ok(());
      }
      return Err(InvalidProjectStatus);
    }

    method OnRuling(now: BlockNumber, id: ProjectId, ruling: Ruling) returns (r: Result<(), Error>)
      modifies this, reputation, reputation.currency
      ensures match AfterOnRuling(reputation.cfg, now, old(World()), id, ruling)
              case Ok(v) => r == Ok(()) && World() == v
              case Err(e) => r == Err(e)
    {
      hide LockIdOf, AfterTransfer, AfterProjectCompleted, AfterDisputeOutcome;
      if id !in projects {
        return Err(ProjectNotFound);
      }
      var project := projects[id];
      if project.freelancer.None? {
        return Err(NotFreelancer);
      }
      match ruling {
        case FreelancerWins =>
          var lock := GenerateLockId(id);
          reputation.currency.RemoveLock(lock, project.client);
          r := reputation.currency.Transfer(project.client, project.freelancer.value, project.budget);
          if r.Err? {
            return;
          }
          r := reputation.ProjectCompleted(now, project.freelancer.value, project.budget, 3000);
        case ClientWins =>
          r := reputation.DisputeOutcome(now, project.client, project.freelancer.value);
      }
      if r.Err? {
        return;
      }
      projects := projects[id := project.(status := Completed)];
    }
  }
}
