/**
  The invariant of the whole chain, kept by every call and so by every run.
*/
module ChainInvariant {
  import opened Prelude
  import opened Types
  import opened Currency
  import opened Reputation
  import opened JurorIndex
  import opened JurorCalls
  import opened Projects
  import opened Arbitration
  import opened Settlement
  import opened DisputeProtocol
  import opened Money
  import opened Escrow
  import opened ReserveLedger
  import opened System

  /** After `created` projects the counter stands at `created`, and wraps at 2^32. */
  ghost predicate IdsOk(s: State, created: nat) {
    && created <= PROJECT_IDS
    && s.proj.nextProjectId == created % PROJECT_IDS
    && forall id :: id in s.proj.projects ==> id < created
  }

  ghost predicate MoneyOk(cfg: Config, l: Ledger) {
    Balanced(l) && l.issuance <= cfg.maxBalance
  }

  ghost predicate Inv(cfg: Config, s: State, created: nat) {
    && IndexOk(cfg, s.rep)
    && ReservesExact(s)
    && MoneyOk(cfg, s.ledger)
    && AllCases(cfg, s)
    && EscrowOk(s)
    && IdsOk(s, created)
  }

  lemma InvBacked(cfg: Config, s: State, created: nat)
    requires Inv(cfg, s, created)
    ensures JuryOk(cfg, World(s))
  {
    forall a ensures Slack(World(s), a) >= 0 {
      assert Reserved(s.ledger, a) == StakeOf(s.rep, a) + BondsOwed(s.arb.bonds, a);
    }
  }

  /** The pallet account owns no project, so nothing ever locks its balance. */
  lemma PalletUnlocked(cfg: Config, s: State, created: nat)
    requires Inv(cfg, s, created)
    ensures Unlocked(s.ledger, cfg.arbitrator)
  {
    forall k | k in s.ledger.locks ensures k.0 != cfg.arbitrator {
      var id := LockOwner(k.1);
      assert CaseOk(cfg, CaseOf(s, id));
    }
  }

  lemma SameStorage(cfg: Config, s: State, t: State)
    requires AllCases(cfg, s) && t.proj == s.proj && t.arb == s.arb
    ensures AllCases(cfg, t)
  {
    forall id ensures CaseOk(cfg, CaseOf(t, id)) {
      assert CaseOf(t, id) == CaseOf(s, id);
    }
  }

  /** A step that touches neither projects nor disputes. */
  lemma OutsideKeeps(cfg: Config, s: State, t: State, created: nat)
    requires Inv(cfg, s, created)
    requires t.proj == s.proj && t.arb == s.arb && t.ledger.locks == s.ledger.locks
    requires IndexOk(cfg, t.rep) && SameSlack(World(s), World(t)) && MoneyOk(cfg, t.ledger)
    ensures Inv(cfg, t, created)
  {
    SameStorage(cfg, s, t);
    ReservesUntouched(s, t);
    EscrowUntouched(s, t);
  }

  lemma EnvironmentMoney(cfg: Config, s: State, c: Call)
    requires MoneyOk(cfg, s.ledger)
    requires IsEnvironmentCall(c)
    requires Apply(cfg, s, c).Ok?
    ensures var t := Apply(cfg, s, c).value;
      && t.proj == s.proj && t.arb == s.arb && t.rep == s.rep
      && t.ledger.locks == s.ledger.locks && t.ledger.reserved == s.ledger.reserved
      && MoneyOk(cfg, t.ledger)
  {
    match c {
      case NextBlock =>
      case Transfer(who, dst, amount) => TransferConserves(s.ledger, who, dst, amount);
      case Mint(dst, amount) => DepositAdds(s.ledger, dst, amount);
    }
  }

  lemma EnvironmentKeeps(cfg: Config, s: State, c: Call, created: nat)
    requires Inv(cfg, s, created)
    requires IsEnvironmentCall(c)
    requires Apply(cfg, s, c).Ok?
    ensures Inv(cfg, Apply(cfg, s, c).value, created)
  {
    hide Apply, AllCases, EscrowOk, IndexOk, ReservesExact;
    EnvironmentMoney(cfg, s, c);
    OutsideKeeps(cfg, s, Apply(cfg, s, c).value, created);
  }

  lemma ReputationCallsKeep(cfg: Config, s: State, c: Call, created: nat)
    requires Inv(cfg, s, created) && WellFormed(cfg, c)
    requires IsReputationCall(c)
    requires Apply(cfg, s, c).Ok?
    ensures Inv(cfg, Apply(cfg, s, c).value, created)
  {
    var t, w := Apply(cfg, s, c).value, World(s);
    InvBacked(cfg, s, created);
    match c {
      case RegisterUser(who) => RegisterUserKeeps(cfg, s.now, w, who);
      case RegisterAsJuror(who) => RegisterAsJurorKeeps(cfg, w, who);
      case DeregisterAsJuror(who) => DeregisterAsJurorKeeps(cfg, w, who);
      case SlashJuror(juror) => SlashJurorKeeps(cfg, w, juror);
    }
    hide AfterRegisterUser, AfterRegisterAsJuror, AfterDeregisterAsJuror, AfterSlashJuror;
    hide IndexOk, StakesBacked, EveryJurorListed;
    OutsideKeeps(cfg, s, t, created);
  }

  // ---------- project calls ----------

  /** The project a call is about. */
  function Subject(s: State, c: Call): ProjectId
    requires IsProjectCall(c)
  {
    if c.CreateProject? then s.proj.nextProjectId else c.id
  }

  lemma ProjectCallsKeepCases(cfg: Config, s: State, c: Call, created: nat)
    requires Inv(cfg, s, created) && WellFormed(cfg, c) && IsProjectCall(c)
    requires c.CreateProject? ==> created < PROJECT_IDS
    requires Apply(cfg, s, c).Ok?
    ensures var t := Apply(cfg, s, c).value;
      AllCases(cfg, t) && OnlyCase(s, t, Subject(s, c))
  {
    hide AllCases, OnlyCase, IndexOk, ReservesExact, EscrowOk;
    hide AfterCreateProject, AfterApplyForProject, AfterStartWork, AfterSubmitWork;
    hide AfterAcceptWork, AfterRejectWork, AfterCancelProject;
    match c {
      case CreateProject(who, budget, uri, duration) => CreateProjectKeepsCases(cfg, s, who, budget, uri, duration);
      case ApplyForProject(who, id) => ApplyKeepsCases(cfg, s, who, id);
      case StartWork(who, id, selected) => StartWorkKeepsCases(cfg, s, who, id, selected);
      case SubmitWork(who, id, contentHash, uri, metadata) =>
        SubmitWorkKeepsCases(cfg, s, who, id, contentHash, uri, metadata);
      case AcceptWork(who, id, rating) => AcceptWorkKeepsCases(cfg, s, who, id, rating);
      case RejectWork(who, id, uri) => RejectWorkKeepsCases(cfg, s, who, id, uri);
      case CancelProject(who, id) => CancelProjectKeepsCases(cfg, s, who, id);
    }
  }

  /** What a project call does to the locks. */
  function LocksAfter(s: State, c: Call): map<(AccountId, LockId), Balance>
    requires IsProjectCall(c)
  {
    match c
    case CreateProject(who, budget, _, _) => AfterSetLock(s.ledger, LockIdOf(s.proj.nextProjectId), who, budget).locks
    case AcceptWork(who, id, _) => s.ledger.locks - {(who, LockIdOf(id))}
    case CancelProject(who, id) => s.ledger.locks - {(who, LockIdOf(id))}
    case _ => s.ledger.locks
  }

  /** Applications, assignments, submissions and rejections move no money. */
  lemma QuietProjectCall(cfg: Config, s: State, c: Call)
    requires IsProjectCall(c) && !c.CreateProject? && !c.AcceptWork? && !c.CancelProject?
    requires Apply(cfg, s, c).Ok?
    ensures var t := Apply(cfg, s, c).value;
      World(t) == World(s) && t.arb == s.arb
  {
  }

  lemma ProjectCallsMoney(cfg: Config, s: State, c: Call)
    requires JuryOk(cfg, World(s)) && IsProjectCall(c)
    requires Apply(cfg, s, c).Ok?
    ensures var t := Apply(cfg, s, c).value;
      && MoneyKept(cfg, World(s), World(t))
      && t.ledger.locks == LocksAfter(s, c)
      && t.arb == s.arb
  {
    hide JuryOk, MoneyKept, LockIdOf;
    assert s.Site().Jury() == World(s);
    if c.CreateProject? {
      hide AfterCreateProject;
      CreateProjectMoney(cfg, s.now, s.Site(), c.who, c.budget, c.uri, c.duration);
    } else if c.AcceptWork? {
      hide AfterAcceptWork;
      AcceptWorkMoney(cfg, s.now, s.Site(), c.who, c.id, c.rating);
    } else if c.CancelProject? {
      hide AfterCancelProject;
      CancelProjectMoney(cfg, s.now, s.Site(), c.who, c.id);
    } else {
      hide Apply;
      QuietProjectCall(cfg, s, c);
      LedgerKept(cfg, World(s), s.ledger);
    }
  }

  /** The project before and after a call on it: who owns it, and whether it is still live. */
  ghost predicate StatusStep(c: Call, before: Option<Project>, after: Option<Project>) {
    && after.Some?
    && match before
       case None => c.CreateProject? && after.value.client == c.who && after.value.budget == c.budget
                    && after.value.status == Created
       case Some(p) =>
         && !c.CreateProject?
         && after.value.client == p.client && after.value.budget == p.budget
         && Live(p)
         && (if c.AcceptWork? || c.CancelProject? then c.who == p.client && !Live(after.value) else Live(after.value))
  }

  lemma CreatedStatus(cfg: Config, s: State, c: Call, created: nat)
    requires IdsOk(s, created) && c.CreateProject? && created < PROJECT_IDS
    requires Apply(cfg, s, c).Ok?
    ensures var t, id := Apply(cfg, s, c).value, Subject(s, c);
      && StatusStep(c, Lookup(s.proj.projects, id), Lookup(t.proj.projects, id))
      && IdsOk(t, created + 1)
  {
    hide AfterProjectCreated;
    assert Subject(s, c) == created;
  }

  lemma WrittenStatus(cfg: Config, s: State, c: Call)
    requires IsProjectCall(c) && !c.CreateProject?
    requires Apply(cfg, s, c).Ok?
    ensures var t, id := Apply(cfg, s, c).value, Subject(s, c);
      && id in s.proj.projects && s.proj.projects[id].status != InDispute
      && StatusStep(c, Lookup(s.proj.projects, id), Lookup(t.proj.projects, id))
      && t.proj.nextProjectId == s.proj.nextProjectId
      && t.proj.projects.Keys == s.proj.projects.Keys
  {
    hide AfterProjectCompleted, AfterWorkAccepted, AfterTransfer, AfterProjectCancelled;
  }

  /** How a project call changes its project: the owner and the status decide about the lock. */
  lemma ProjectCallsStatus(cfg: Config, s: State, c: Call, created: nat)
    requires Inv(cfg, s, created) && IsProjectCall(c)
    requires c.CreateProject? ==> created < PROJECT_IDS
    requires Apply(cfg, s, c).Ok?
    ensures var t, id := Apply(cfg, s, c).value, Subject(s, c);
      && StatusStep(c, Lookup(s.proj.projects, id), Lookup(t.proj.projects, id))
      && id !in s.arb.disputes
      && IdsOk(t, if c.CreateProject? then created + 1 else created)
  {
    hide Apply, CaseOk, EscrowOk, ReservesExact, IndexOk, MoneyOk;
    var id := Subject(s, c);
    if c.CreateProject? {
      CreatedStatus(cfg, s, c, created);
      NoProject(cfg, s, id);
    } else {
      WrittenStatus(cfg, s, c);
      NotDisputed(cfg, s, id);
    }
  }

  lemma NoStrayLock(s: State, id: ProjectId, client: AccountId)
    requires EscrowOk(s) && id !in s.proj.projects && id < PROJECT_IDS
    ensures (client, LockIdOf(id)) !in s.ledger.locks
  {
    hide LockIdOf, LockOwner;
    LockIdRoundTrip(id);
  }

  lemma LockOnRecord(s: State, id: ProjectId)
    requires EscrowOk(s) && id in s.proj.projects
    ensures LockOn(s.ledger, id, s.proj.projects[id]) == ExpectedLock(s.proj.projects[id], Lookup(s.arb.disputes, id))
  {
    hide LockIdOf, LockOwner, LockOn, ExpectedLock;
  }

  /** The lock of the project the call is about. */
  lemma OwnLock(s: State, t: State, c: Call, id: ProjectId)
    requires IsProjectCall(c) && id == Subject(s, c) && EscrowOk(s) && id < PROJECT_IDS
    requires c.CreateProject? ==> id !in s.proj.projects
    requires StatusStep(c, Lookup(s.proj.projects, id), Lookup(t.proj.projects, id))
    requires t.ledger.locks == LocksAfter(s, c) && t.arb == s.arb && id !in s.arb.disputes
    ensures id in t.proj.projects
    ensures id in s.proj.projects ==> s.proj.projects[id].client == t.proj.projects[id].client
    ensures OnlyLock(s, t, id, t.proj.projects[id].client)
    ensures LockOn(t.ledger, id, t.proj.projects[id]) == ExpectedLock(t.proj.projects[id], None)
  {
    hide EscrowOk, LockIdOf;
    if c.CreateProject? {
      NoStrayLock(s, id, t.proj.projects[id].client);
    } else {
      LockOnRecord(s, id);
    }
  }

  lemma ProjectCallsKeepEscrow(cfg: Config, s: State, c: Call, created: nat)
    requires Inv(cfg, s, created) && WellFormed(cfg, c) && IsProjectCall(c)
    requires c.CreateProject? ==> created < PROJECT_IDS
    requires Apply(cfg, s, c).Ok?
    ensures EscrowOk(Apply(cfg, s, c).value)
  {
    hide Apply, MoneyKept, JuryOk, AllCases, CaseOk, LockIdOf, LockOwner, ReservesExact, IndexOk, MoneyOk, CaseOf;
    hide OnlyCase;
    var t, id := Apply(cfg, s, c).value, Subject(s, c);
    InvBacked(cfg, s, created);
    ProjectCallsStatus(cfg, s, c, created);
    ProjectCallsMoney(cfg, s, c);
    ProjectCallsKeepCases(cfg, s, c, created);
    OwnLock(s, t, c, id);
    hide EscrowOk, StatusStep, LocksAfter, LockOn, ExpectedLock;
    EscrowKept(s, t, id);
  }

  lemma ProjectCallsKeep(cfg: Config, s: State, c: Call, created: nat)
    requires Inv(cfg, s, created) && WellFormed(cfg, c) && IsProjectCall(c)
    requires c.CreateProject? ==> created < PROJECT_IDS
    requires Apply(cfg, s, c).Ok?
    ensures Inv(cfg, Apply(cfg, s, c).value, if c.CreateProject? then created + 1 else created)
  {
    hide Apply, AllCases, EscrowOk, IndexOk, ReservesExact, EveryJurorListed;
    var t := Apply(cfg, s, c).value;
    InvBacked(cfg, s, created);
    ProjectCallsStatus(cfg, s, c, created);
    ProjectCallsMoney(cfg, s, c);
    ProjectCallsKeepCases(cfg, s, c, created);
    ProjectCallsKeepEscrow(cfg, s, c, created);
    ReservesUntouched(s, t);
  }
}
