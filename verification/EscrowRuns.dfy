/**
  A project over whole runs: its terms never change, its status only moves forward, its budget
  is paid out at most once, and what happens when the project ids run out.
*/
module EscrowRuns {
  import opened Prelude
  import opened Types
  import opened Currency
  import opened Reputation
  import opened JurorIndex
  import opened Projects
  import opened Arbitration
  import opened DisputeProtocol
  import opened DisputeCalls
  import opened Money
  import opened Escrow
  import opened ReserveLedger
  import opened System
  import opened ChainInvariant
  import opened ChainSafety
  import opened Termination
  import opened DisputeRuns

  // ---------- the two pallets agree ----------

  /**
    A project is in dispute exactly while its dispute is not finalized; a finalized dispute
    means a completed project; and whoever reads the parties or the evidence of a dispute
    under way gets what was recorded when it was opened.
  */
  lemma DisputeCoupling(cfg: Config, s: State, id: ProjectId)
    requires AllCases(cfg, s)
    ensures (id in s.proj.projects && s.proj.projects[id].status == InDispute)
       <==> (id in s.arb.disputes && s.arb.disputes[id].status != Finalized)
    ensures id in s.arb.disputes && s.arb.disputes[id].status == Finalized ==>
      id in s.proj.projects && s.proj.projects[id].status == Completed
    ensures id in s.arb.disputes && s.arb.disputes[id].status != Finalized ==>
      var d := s.arb.disputes[id];
      && ProjectParties(s.proj, id).Ok?
      && EvidenceUris(s.proj, id) == Ok((d.requirementsUri, d.submissionUri))
  {
    hide OpenOk, ProjectOk, NothingOwed;
    assert CaseOk(cfg, CaseOf(s, id));
  }

  // ---------- terms and status ----------

  /** The lifecycle, one step at a time. */
  predicate NextStatus(a: ProjectStatus, b: ProjectStatus) {
    match a
    case Created => b in {Created, InProgress, Cancelled}
    case InProgress => b in {InProgress, InReview, Cancelled}
    case InReview => b in {InReview, Rejected, InDispute, Completed}
    case Rejected => b in {Rejected, InDispute}
    case InDispute => b in {InDispute, Completed}
    case Completed => b == Completed
    case Cancelled => b == Cancelled
  }

  predicate Submitted(p: Project) {
    p.status in {InReview, Rejected, InDispute, Completed}
  }

  /** What no call changes, and what is fixed from some status on. */
  predicate TermsKept(p: Project, q: Project) {
    && q.client == p.client && q.budget == p.budget && q.uri == p.uri && q.duration == p.duration
    && (p.status != Created ==> q.status != Created && q.freelancer == p.freelancer && q.deadline == p.deadline)
    && (Submitted(p) ==> Submitted(q) && q.submission == p.submission)
    && (p.status in {Completed, Cancelled} ==> q.status == p.status)
  }

  lemma ProjectCallTerms(cfg: Config, s: State, c: Call, created: nat)
    requires IdsOk(s, created) && IsProjectCall(c)
    requires c.CreateProject? ==> created < PROJECT_IDS
    requires Apply(cfg, s, c).Ok? && Subject(s, c) in s.proj.projects
    ensures var t, id := Apply(cfg, s, c).value, Subject(s, c);
      && id in t.proj.projects
      && TermsKept(s.proj.projects[id], t.proj.projects[id])
      && NextStatus(s.proj.projects[id].status, t.proj.projects[id].status)
  {
    hide AfterProjectCompleted, AfterWorkAccepted, AfterTransfer, AfterProjectCancelled, LockIdOf;
  }

  lemma DisputeCallTerms(cfg: Config, s: State, c: Call, id: ProjectId)
    requires AllCases(cfg, s) && IsDisputeCall(c, id)
    requires Apply(cfg, s, c).Ok?
    ensures var t := Apply(cfg, s, c).value;
      && id in s.proj.projects && id in t.proj.projects
      && TermsKept(s.proj.projects[id], t.proj.projects[id])
      && NextStatus(s.proj.projects[id].status, t.proj.projects[id].status)
  {
    hide AllCases, OpenOk;
    hide AfterCreateDispute, AfterAppealRuling, AfterFinalizeRound, AfterEnforceFinalRuling, Opened;
    if !c.CreateDispute? && !c.EnforceFinalRuling? {
      OpenDisputeCallTerms(cfg, s, c, id);
    }
    match c {
      case CreateDispute(who, _) =>
        CreateDisputeMoney(cfg, s, who, id);
      case EnforceFinalRuling(_, _) =>
        EnforceCase(cfg, s, id);
        OpenCase(cfg, s, id);
        assert CaseOf(Apply(cfg, s, c).value, id).project == Some(s.proj.projects[id].(status := Completed));
      case _ =>
    }
  }

  lemma OpenDisputeCallTerms(cfg: Config, s: State, c: Call, id: ProjectId)
    requires AllCases(cfg, s) && IsDisputeCall(c, id)
    requires !c.CreateDispute? && !c.EnforceFinalRuling? && Apply(cfg, s, c).Ok?
    ensures Apply(cfg, s, c).value.proj == s.proj && id in s.proj.projects
  {
    hide AllCases, OpenOk;
    hide AfterAppealRuling, AfterFinalizeRound;
    match c {
      case AppealRuling(who, _) =>
        var p, d, jury := AppealSucceeded(cfg, s, who, id);
      case FinalizeRound(_, _) =>
        FinalizeFacts(cfg, s, id);
      case _ =>
    }
    OpenCase(cfg, s, id);
  }

  lemma SparedTerms(s: State, t: State, id: ProjectId)
    requires id in s.proj.projects && (t.proj == s.proj || CaseOf(t, id) == CaseOf(s, id))
    ensures id in t.proj.projects
    ensures TermsKept(s.proj.projects[id], t.proj.projects[id])
    ensures NextStatus(s.proj.projects[id].status, t.proj.projects[id].status)
  {
  }

  /** One call: the project keeps its terms and its status moves along the lifecycle. */
  lemma StepTerms(cfg: Config, s: State, c: Call, id: ProjectId, created: nat)
    requires Inv(cfg, s, created) && WellFormed(cfg, c)
    requires c.CreateProject? ==> created < PROJECT_IDS
    requires id in s.proj.projects
    ensures var t := Step(cfg, s, c);
      && id in t.proj.projects
      && TermsKept(s.proj.projects[id], t.proj.projects[id])
      && NextStatus(s.proj.projects[id].status, t.proj.projects[id].status)
  {
    hide Apply, AllCases, IndexOk, ReservesExact, EscrowOk, IdsOk, CaseOf, TermsKept, NextStatus;
    if Apply(cfg, s, c).Err? {
      SparedTerms(s, s, id);
    } else {
      var t := Apply(cfg, s, c).value;
      if IsProjectCall(c) {
        if Subject(s, c) == id {
          ProjectCallTerms(cfg, s, c, created);
        } else {
          ProjectCallsKeepCases(cfg, s, c, created);
          SparedTerms(s, t, id);
        }
      } else if IsEnvironmentCall(c) || IsReputationCall(c) {
        SameRecords(cfg, s, c);
        SparedTerms(s, t, id);
      } else if IsDisputeCall(c, id) {
        DisputeCallTerms(cfg, s, c, id);
      } else {
        DisputeCallsSpareOthers(cfg, s, c, c.id, id);
        SparedTerms(s, t, id);
      }
    }
  }

  lemma TermsKeptTwice(p: Project, q: Project, r: Project)
    requires TermsKept(p, q) && TermsKept(q, r)
    ensures TermsKept(p, r)
  {
  }

  /**
    Over every run: client, budget, requirements and duration are fixed, so are freelancer and
    submission once given.
  */
  lemma {:induction false} RunTerms(cfg: Config, s: State, calls: seq<Call>, id: ProjectId, created: nat)
    requires SafeRun(cfg, s, calls, created) && id in s.proj.projects
    ensures id in Run(cfg, s, calls).proj.projects
    ensures TermsKept(s.proj.projects[id], Run(cfg, s, calls).proj.projects[id])
  {
    hide Inv, Apply, Step, TermsKept;
    if calls == [] {
      SparedTerms(s, s, id);
    } else {
      var init := calls[..|calls| - 1];
      LastStep(cfg, s, calls, created);
      RunTerms(cfg, s, init, id, created);
      var r := Run(cfg, s, init);
      StepTerms(cfg, r, calls[|calls| - 1], id, ProjectsMade(cfg, s, init, created));
      TermsKeptTwice(s.proj.projects[id], r.proj.projects[id], Run(cfg, s, calls).proj.projects[id]);
    }
  }

  // ---------- the budget is paid out once ----------

  /** A call that, if it succeeds, pays the budget of project `id` to its freelancer. */
  predicate IsPayout(s: State, c: Call, id: ProjectId) {
    match c
    case AcceptWork(_, i, _) => i == id
    case EnforceFinalRuling(_, i) =>
      i == id && id in s.arb.disputes && s.arb.disputes[id].ruling == Some(FreelancerWins)
    case _ => false
  }

  /** Completed, and not by a ruling for the client. */
  predicate PaidState(s: State, id: ProjectId) {
    && id in s.proj.projects && s.proj.projects[id].status == Completed
    && !ClientWon(Lookup(s.arb.disputes, id))
  }

  lemma AcceptPaysOut(cfg: Config, s: State, c: Call)
    requires AllCases(cfg, s) && c.AcceptWork? && Apply(cfg, s, c).Ok?
    ensures !PaidState(s, c.id) && PaidState(Apply(cfg, s, c).value, c.id)
  {
    hide AllCases, AfterProjectCompleted, AfterWorkAccepted, AfterTransfer, LockIdOf;
    NotDisputed(cfg, s, c.id);
  }

  lemma EnforcePaysOut(cfg: Config, s: State, id: ProjectId)
    requires AllCases(cfg, s) && AfterEnforceFinalRuling(cfg, s, id).Ok?
    ensures !PaidState(s, id)
    ensures PaidState(AfterEnforceFinalRuling(cfg, s, id).value, id)
       <==> id in s.arb.disputes && s.arb.disputes[id].ruling == Some(FreelancerWins)
  {
    hide AllCases, AfterEnforceFinalRuling, OpenOk, ProjectOk;
    EnforceCase(cfg, s, id);
    OpenCase(cfg, s, id);
    var t := AfterEnforceFinalRuling(cfg, s, id).value;
    assert CaseOf(t, id).dispute == Some(s.arb.disputes[id].(status := Finalized));
    assert CaseOf(t, id).project == Some(s.proj.projects[id].(status := Completed));
    match s.arb.disputes[id].ruling.value {
      case ClientWins =>
      case FreelancerWins =>
    }
  }

  lemma ProjectCallPaysOut(cfg: Config, s: State, c: Call, id: ProjectId, created: nat)
    requires Inv(cfg, s, created) && WellFormed(cfg, c) && IsProjectCall(c) && !IsPayout(s, c, id)
    requires c.CreateProject? ==> created < PROJECT_IDS
    requires Apply(cfg, s, c).Ok?
    ensures PaidState(Apply(cfg, s, c).value, id) == PaidState(s, id)
  {
    hide Apply, AllCases, IndexOk, ReservesExact, EscrowOk, IdsOk;
    var t := Apply(cfg, s, c).value;
    ProjectCallsKeepCases(cfg, s, c, created);
    if Subject(s, c) == id {
      ProjectCallsStatus(cfg, s, c, created);
      NotYetPaid(cfg, s, c, id, created);
    } else {
      assert CaseOf(t, id) == CaseOf(s, id);
    }
  }

  lemma NotYetPaid(cfg: Config, s: State, c: Call, id: ProjectId, created: nat)
    requires Inv(cfg, s, created) && IsProjectCall(c) && !c.AcceptWork? && Subject(s, c) == id
    requires c.CreateProject? ==> created < PROJECT_IDS
    requires Apply(cfg, s, c).Ok?
    ensures !PaidState(s, id) && !PaidState(Apply(cfg, s, c).value, id)
  {
    hide AllCases, IndexOk, ReservesExact, EscrowOk;
    hide AfterProjectCreated, AfterProjectCancelled, LockIdOf;
  }

  lemma DisputeCallPaysOut(cfg: Config, s: State, c: Call, id: ProjectId)
    requires AllCases(cfg, s) && IsDisputeCall(c, id) && !c.EnforceFinalRuling? && Apply(cfg, s, c).Ok?
    ensures !PaidState(s, id) && !PaidState(Apply(cfg, s, c).value, id)
  {
    hide AllCases, OpenOk;
    if c.CreateDispute? {
      hide AfterCreateDispute;
      CreateDisputeMoney(cfg, s, c.who, id);
    } else {
      OpenDisputeCallTerms(cfg, s, c, id);
      hide AfterAppealRuling, AfterFinalizeRound;
      match c {
        case AppealRuling(who, _) =>
          var p, d, jury := AppealSucceeded(cfg, s, who, id);
        case FinalizeRound(_, _) =>
          FinalizeFacts(cfg, s, id);
        case _ =>
      }
      OpenCase(cfg, s, id);
    }
  }

  /** A call pays out exactly when it moves its project into the paid state. */
  lemma StepPaysOut(cfg: Config, s: State, c: Call, id: ProjectId, created: nat)
    requires Inv(cfg, s, created) && WellFormed(cfg, c)
    requires c.CreateProject? ==> created < PROJECT_IDS
    requires Apply(cfg, s, c).Ok?
    ensures var t := Apply(cfg, s, c).value;
      && (IsPayout(s, c, id) ==> !PaidState(s, id) && PaidState(t, id))
      && (!IsPayout(s, c, id) ==> (PaidState(t, id) <==> PaidState(s, id)))
  {
    hide AllCases, IndexOk, ReservesExact, EscrowOk, IdsOk;
    hide PaidState;
    if c.AcceptWork? && c.id == id {
      hide Apply;
      AcceptPaysOut(cfg, s, c);
    } else if c.EnforceFinalRuling? && c.id == id {
      hide AfterEnforceFinalRuling;
      EnforcePaysOut(cfg, s, id);
    } else {
      hide Apply;
      if IsProjectCall(c) {
        ProjectCallPaysOut(cfg, s, c, id, created);
      } else if IsDisputeCall(c, id) {
        DisputeCallPaysOut(cfg, s, c, id);
      } else {
        SparedPayout(cfg, s, c, id);
      }
    }
  }

  lemma SparedPayout(cfg: Config, s: State, c: Call, id: ProjectId)
    requires AllCases(cfg, s) && IndexOk(cfg, s.rep)
    requires !IsProjectCall(c) && !IsDisputeCall(c, id) && Apply(cfg, s, c).Ok?
    ensures PaidState(Apply(cfg, s, c).value, id) <==> PaidState(s, id)
  {
    hide Apply, AllCases, IndexOk;
    if IsEnvironmentCall(c) || IsReputationCall(c) {
      ReputationCallsSpareCases(cfg, s, c, id);
    } else {
      DisputeCallsSpareOthers(cfg, s, c, c.id, id);
    }
    assert CaseOf(Apply(cfg, s, c).value, id) == CaseOf(s, id);
  }

  /** How often the budget of project `id` was paid out in a run. */
  ghost function Payouts(cfg: Config, s: State, calls: seq<Call>, id: ProjectId): nat {
    if calls == [] then 0
    else
      var init := calls[..|calls| - 1];
      var c := calls[|calls| - 1];
      var r := Run(cfg, s, init);
      Payouts(cfg, s, init, id) + (if IsPayout(r, c, id) && Apply(cfg, r, c).Ok? then 1 else 0)
  }

  /**
    The budget is paid at most once: exactly once if the project is completed by acceptance or
    by a ruling for the freelancer, and never otherwise.
  */
  lemma {:induction false} PaidExactlyOnce(cfg: Config, s: State, calls: seq<Call>, id: ProjectId, created: nat)
    requires SafeRun(cfg, s, calls, created) && id !in s.proj.projects
    ensures Payouts(cfg, s, calls, id) == if PaidState(Run(cfg, s, calls), id) then 1 else 0
  {
    hide Inv, Apply;
    if calls != [] {
      hide PaidState, IsPayout;
      var init, c := calls[..|calls| - 1], calls[|calls| - 1];
      LastStep(cfg, s, calls, created);
      PaidExactlyOnce(cfg, s, init, id, created);
      var r := Run(cfg, s, init);
      if Apply(cfg, r, c).Ok? {
        StepPaysOut(cfg, r, c, id, ProjectsMade(cfg, s, init, created));
      }
    }
  }

  // ---------- when the ids run out ----------

  lemma WrappedCreation(cfg: Config, s: State, who: AccountId, budget: Balance, uri: Uri, duration: BlockNumber)
    requires Inv(cfg, s, PROJECT_IDS) && 0 in s.proj.projects
    requires Apply(cfg, s, CreateProject(who, budget, uri, duration)).Ok?
    ensures var t := Apply(cfg, s, CreateProject(who, budget, uri, duration)).value;
      && t.proj.projects == s.proj.projects[0 := Project(who, None, uri, budget, Created, duration, None, None, None)]
      && t.ledger.locks == AfterSetLock(s.ledger, LockIdOf(0), who, budget).locks
      && t.arb == s.arb
  {
    hide AllCases, IndexOk, ReservesExact, AfterProjectCreated, LockIdOf, EscrowOk, MoneyKept, JuryOk;
    InvBacked(cfg, s, PROJECT_IDS);
    ProjectCallsMoney(cfg, s, CreateProject(who, budget, uri, duration));
  }

  /** Project 0 replaced, its lock rewritten under the new client. */
  ghost predicate Replaced(s: State, t: State, who: AccountId, budget: Balance) {
    && 0 in s.proj.projects && 0 in t.proj.projects
    && t.proj.projects == s.proj.projects[0 := t.proj.projects[0]]
    && t.proj.projects[0].client == who && t.proj.projects[0].budget == budget && Live(t.proj.projects[0])
    && t.arb == s.arb
    && t.ledger.locks == AfterSetLock(s.ledger, LockIdOf(0), who, budget).locks
  }

  lemma OldLockStays(s: State, t: State, who: AccountId, budget: Balance)
    requires EscrowOk(s) && Replaced(s, t, who, budget)
    requires ExpectedLock(s.proj.projects[0], Lookup(s.arb.disputes, 0)).Some?
    requires !(s.proj.projects[0].client == who && budget > 0)
    ensures !EscrowOk(t)
  {
    LockIdRoundTrip(0);
    hide LockIdOf, LockOwner;
    var p := s.proj.projects[0];
    var k := (p.client, LockIdOf(0));
    assert LockOn(s.ledger, 0, p).Some?;
    assert k in t.ledger.locks;
    if p.client == who {
      assert ExpectedLock(t.proj.projects[0], Lookup(t.arb.disputes, 0)) == None;
    }
  }

  lemma NewLockFits(s: State, t: State, who: AccountId, budget: Balance)
    requires EscrowOk(s) && IdsInRange(s) && Replaced(s, t, who, budget)
    requires var p := s.proj.projects[0];
      ExpectedLock(p, Lookup(s.arb.disputes, 0)).None? || (p.client == who && budget > 0)
    ensures EscrowOk(t)
  {
    LockIdRoundTrip(0);
    hide LockIdOf, LockOwner, ExpectedLock;
    var p := s.proj.projects[0];
    assert LockOn(s.ledger, 0, p) == ExpectedLock(p, Lookup(s.arb.disputes, 0));
    forall id | id in t.proj.projects
      ensures LockOn(t.ledger, id, t.proj.projects[id]) == ExpectedLock(t.proj.projects[id], Lookup(t.arb.disputes, id))
    {
      if id == 0 {
        NewLock(s, t, who, budget);
      } else {
        if LockIdOf(id) == LockIdOf(0) {
          LockIdsInjective(id, 0);
        }
        assert LockOn(s.ledger, id, s.proj.projects[id])
             == ExpectedLock(s.proj.projects[id], Lookup(s.arb.disputes, id));
      }
    }
    forall k | k in t.ledger.locks
      ensures LockOwner(k.1) in t.proj.projects
      ensures k == (t.proj.projects[LockOwner(k.1)].client, LockIdOf(LockOwner(k.1)))
    {
      if k != (who, LockIdOf(0)) {
        assert k in s.ledger.locks;
        assert k != (p.client, LockIdOf(0));
      }
    }
  }

  lemma NewLock(s: State, t: State, who: AccountId, budget: Balance)
    requires EscrowOk(s) && Replaced(s, t, who, budget)
    requires var p := s.proj.projects[0];
      ExpectedLock(p, Lookup(s.arb.disputes, 0)).None? || (p.client == who && budget > 0)
    ensures LockOn(t.ledger, 0, t.proj.projects[0]) == ExpectedLock(t.proj.projects[0], Lookup(t.arb.disputes, 0))
  {
    LockIdRoundTrip(0);
    hide LockIdOf, LockOwner;
    var p := s.proj.projects[0];
    assert LockOn(s.ledger, 0, p) == ExpectedLock(p, Lookup(s.arb.disputes, 0));
    var k := (who, LockIdOf(0));
    if budget == 0 && k in s.ledger.locks {
      assert k == (p.client, LockIdOf(0));
    }
  }

  /**
    With the u32 counter back at 0, a creation replaces project 0. The escrow is right
    afterwards exactly when the old project should have no lock, or the new lock overwrites
    it: same client, and a budget to lock.
  */
  lemma WrappedIdEscrow(cfg: Config, s: State, who: AccountId, budget: Balance, uri: Uri, duration: BlockNumber)
    requires Inv(cfg, s, PROJECT_IDS) && 0 in s.proj.projects
    requires Apply(cfg, s, CreateProject(who, budget, uri, duration)).Ok?
    ensures var t := Apply(cfg, s, CreateProject(who, budget, uri, duration)).value; var p := s.proj.projects[0];
      && Lookup(t.proj.projects, 0) == Some(Project(who, None, uri, budget, Created, duration, None, None, None))
      && (EscrowOk(t) <==>
            ExpectedLock(p, Lookup(s.arb.disputes, 0)).None? || (p.client == who && budget > 0))
  {
    hide Apply, AllCases, IndexOk, ReservesExact, LockIdOf, EscrowOk, ExpectedLock;
    WrappedCreation(cfg, s, who, budget, uri, duration);
    var t, p := Apply(cfg, s, CreateProject(who, budget, uri, duration)).value, s.proj.projects[0];
    assert Replaced(s, t, who, budget);
    if ExpectedLock(p, Lookup(s.arb.disputes, 0)).None? || (p.client == who && budget > 0) {
      NewLockFits(s, t, who, budget);
    } else {
      OldLockStays(s, t, who, budget);
    }
  }
}
