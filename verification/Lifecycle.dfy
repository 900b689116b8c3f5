/**
  What a stored project says about its past, in every reachable state: work is handed in by
  the deadline, a rejection happens at most once, applicants are few and distinct.
*/
module Lifecycle {
  import opened Prelude
  import opened Types
  import opened Currency
  import opened Reputation
  import opened JurorIndex
  import opened Projects
  import opened Arbitration
  import opened DisputeProtocol
  import opened DisputeCalls
  import opened Escrow
  import opened ReserveLedger
  import opened System
  import opened ChainInvariant
  import opened ChainSafety
  import opened Termination
  import opened DisputeRuns
  import opened EscrowRuns

  predicate Unassigned(p: Project) {
    p.freelancer.None? && p.deadline.None? && p.submission.None?
  }

  /** Work that was handed in came with a document, and no later than the deadline. */
  predicate HandedIn(p: Project) {
    && p.freelancer.Some? && p.deadline.Some? && p.submission.Some?
    && p.submission.value.uri != []
    && p.submission.value.submissionBlock <= p.deadline.value
  }

  predicate Consistent(p: Project) {
    && (p.status == Created ==> Unassigned(p) && p.rejection.None?)
    && (p.status == InProgress ==> p.freelancer.Some? && p.deadline.Some? && p.submission.None? && p.rejection.None?)
    && (Submitted(p) ==> HandedIn(p))
    && (p.status == InReview ==> p.rejection.None?)
    && (p.status == Rejected ==> p.rejection.Some?)
    && (p.rejection.Some? ==> p.rejection.value.previousSubmissions == 0 && p.rejection.value.reasonUri != [])
  }

  /** Applicants wait only for a project nobody has started. */
  ghost predicate QueueOk(cfg: Config, p: Option<Project>, applicants: seq<AccountId>) {
    && Distinct(applicants) && |applicants| <= cfg.maxApplicants
    && (applicants != [] ==> p.Some? && p.value.status in {Created, Cancelled})
  }

  ghost predicate RecordOk(cfg: Config, s: State, id: ProjectId) {
    && (id in s.proj.projects ==> Consistent(s.proj.projects[id]))
    && QueueOk(cfg, Lookup(s.proj.projects, id), Applicants(s.proj, id))
  }

  ghost predicate RecordsOk(cfg: Config, s: State) {
    forall id :: RecordOk(cfg, s, id)
  }

  lemma ApplicationRecord(cfg: Config, s: State, c: Call)
    requires c.ApplyForProject? && RecordOk(cfg, s, c.id) && Apply(cfg, s, c).Ok?
    ensures RecordOk(cfg, Apply(cfg, s, c).value, c.id)
  {
    hide Consistent;
  }

  lemma HiringRecord(cfg: Config, s: State, c: Call, created: nat)
    requires IdsOk(s, created) && (c.CreateProject? || c.StartWork? || c.CancelProject?) && RecordOk(cfg, s,
                                                                                                     Subject(s, c))
    requires c.CreateProject? ==> created < PROJECT_IDS
    requires Apply(cfg, s, c).Ok?
    ensures RecordOk(cfg, Apply(cfg, s, c).value, Subject(s, c))
  {
    hide AfterProjectCreated, AfterProjectCancelled, LockIdOf;
    if c.CreateProject? {
      assert Subject(s, c) !in s.proj.projects;
    }
  }

  lemma ReviewRecord(cfg: Config, s: State, c: Call)
    requires (c.SubmitWork? || c.AcceptWork? || c.RejectWork?) && RecordOk(cfg, s, c.id)
    requires Apply(cfg, s, c).Ok?
    ensures RecordOk(cfg, Apply(cfg, s, c).value, c.id)
  {
    hide AfterProjectCompleted, AfterWorkAccepted, AfterTransfer, LockIdOf, Distinct;
  }

  lemma SubjectRecord(cfg: Config, s: State, c: Call, created: nat)
    requires IdsOk(s, created) && IsProjectCall(c) && RecordOk(cfg, s, Subject(s, c))
    requires c.CreateProject? ==> created < PROJECT_IDS
    requires Apply(cfg, s, c).Ok?
    ensures RecordOk(cfg, Apply(cfg, s, c).value, Subject(s, c))
  {
    hide Apply, RecordOk, IdsOk;
    if c.ApplyForProject? {
      ApplicationRecord(cfg, s, c);
    } else if c.SubmitWork? || c.AcceptWork? || c.RejectWork? {
      ReviewRecord(cfg, s, c);
    } else {
      HiringRecord(cfg, s, c, created);
    }
  }

  /** A dispute only moves the status, to InDispute and then to Completed. */
  lemma DisputedRecord(cfg: Config, s: State, c: Call, id: ProjectId)
    requires AllCases(cfg, s) && IsDisputeCall(c, id) && RecordOk(cfg, s, id)
    requires Apply(cfg, s, c).Ok?
    ensures RecordOk(cfg, Apply(cfg, s, c).value, id)
  {
    hide AllCases, OpenOk;
    hide AfterCreateDispute, AfterAppealRuling, AfterFinalizeRound, AfterEnforceFinalRuling, Opened, Distinct;
    var t := Apply(cfg, s, c).value;
    if c.CreateDispute? {
      CreateDisputeMoney(cfg, s, c.who, id);
    } else if c.EnforceFinalRuling? {
      EnforceCase(cfg, s, id);
      OpenCase(cfg, s, id);
      assert CaseOf(t, id).project == Some(s.proj.projects[id].(status := Completed));
      assert CaseOf(t, id).applicants == Applicants(s.proj, id);
    } else {
      OpenDisputeCallTerms(cfg, s, c, id);
    }
  }

  lemma SparedRecord(cfg: Config, s: State, t: State, id: ProjectId)
    requires RecordOk(cfg, s, id) && CaseOf(t, id) == CaseOf(s, id)
    ensures RecordOk(cfg, t, id)
  {
    assert Lookup(t.proj.projects, id) == Lookup(s.proj.projects, id);
  }

  lemma StepRecord(cfg: Config, s: State, c: Call, id: ProjectId, created: nat)
    requires Inv(cfg, s, created) && WellFormed(cfg, c) && RecordsOk(cfg, s)
    requires c.CreateProject? ==> created < PROJECT_IDS
    requires Apply(cfg, s, c).Ok?
    ensures RecordOk(cfg, Apply(cfg, s, c).value, id)
  {
    hide Apply, AllCases, IndexOk, ReservesExact, EscrowOk, IdsOk, CaseOf, RecordOk;
    var t := Apply(cfg, s, c).value;
    assert RecordOk(cfg, s, id);
    if IsProjectCall(c) {
      if Subject(s, c) == id {
        SubjectRecord(cfg, s, c, created);
      } else {
        ProjectCallsKeepCases(cfg, s, c, created);
        SparedRecord(cfg, s, t, id);
      }
    } else if IsDisputeCall(c, id) {
      DisputedRecord(cfg, s, c, id);
    } else if IsEnvironmentCall(c) || IsReputationCall(c) {
      ReputationCallsSpareCases(cfg, s, c, id);
      SparedRecord(cfg, s, t, id);
    } else {
      DisputeCallsSpareOthers(cfg, s, c, c.id, id);
      SparedRecord(cfg, s, t, id);
    }
  }

  /** Every run keeps every project's record consistent. */
  lemma {:induction false} RunRecords(cfg: Config, s: State, calls: seq<Call>, created: nat)
    requires SafeRun(cfg, s, calls, created) && RecordsOk(cfg, s)
    ensures RecordsOk(cfg, Run(cfg, s, calls))
  {
    if calls != [] {
      hide Inv, Apply, RecordOk;
      var init, c := calls[..|calls| - 1], calls[|calls| - 1];
      LastStep(cfg, s, calls, created);
      RunRecords(cfg, s, init, created);
      var r := Run(cfg, s, init);
      if Apply(cfg, r, c).Ok? {
        forall id ensures RecordOk(cfg, Run(cfg, s, calls), id) {
          StepRecord(cfg, r, c, id, ProjectsMade(cfg, s, init, created));
        }
      }
    }
  }
}
