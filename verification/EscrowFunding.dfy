/**
  What the escrow lock protects: the client's holdings, free and reserved together. Reserved
  money discharges a lock without being able to pay for anything, so this is less than being
  able to pay the budget; `EscrowPayable` says when that is kept.
*/
module EscrowFunding {
  import opened Types
  import opened Currency
  import opened Reputation
  import opened JurorIndex
  import opened Projects
  import opened Arbitration
  import opened DisputeProtocol
  import opened Escrow
  import opened ReserveLedger
  import opened System
  import opened ChainInvariant
  import opened ChainSafety
  import opened HoldingsTheorems
  import opened EscrowRuns

  /** The client has at least the budget, free or reserved. */
  predicate Funded(s: State, id: ProjectId) {
    id in s.proj.projects && s.proj.projects[id].budget <= Holdings(s.ledger, s.proj.projects[id].client)
  }

  predicate LiveProject(s: State, id: ProjectId) {
    id in s.proj.projects && Live(s.proj.projects[id])
  }

  /**
    The two ways to lose reserved money, which no lock protects: a slashed stake and a settled
    dispute of one's own.
  */
  predicate Exposes(s: State, c: Call, who: AccountId) {
    match c
    case SlashJuror(juror) => juror == who
    case EnforceFinalRuling(_, id) => id in s.proj.projects && IsParty(s.proj.projects[id], who)
    case _ => false
  }

  /** A transfer that succeeds leaves the sender every locked amount it had. */
  lemma TransferRespectsLock(l: Ledger, src: AccountId, dst: AccountId, amount: Balance, k: (AccountId, LockId))
    requires AfterTransfer(l, src, dst, amount).Ok?
    requires k in l.locks && k.0 == src && l.locks[k] <= Holdings(l, src)
    ensures l.locks[k] <= Holdings(l, src) + Sent(src, dst, amount, src)
  {
  }

  lemma LockOfLive(s: State, id: ProjectId)
    requires EscrowOk(s) && LiveProject(s, id) && s.proj.projects[id].budget > 0
    ensures var k := (s.proj.projects[id].client, LockIdOf(id));
      k in s.ledger.locks && s.ledger.locks[k] == s.proj.projects[id].budget
  {
    hide LockIdOf, LockOwner, NoStrayLocks;
    var p := s.proj.projects[id];
    assert LockOn(s.ledger, id, p) == ExpectedLock(p, Lookup(s.arb.disputes, id));
  }

  /** Paying for another project is a transfer like any other: this project's lock stays. */
  lemma AcceptRespectsLock(cfg: Config, s: State, c: Call, id: ProjectId, created: nat)
    requires Inv(cfg, s, created) && c.AcceptWork? && Apply(cfg, s, c).Ok?
    requires LiveProject(s, id) && Funded(s, id) && s.proj.projects[id].budget > 0
    requires c.id != id && c.who == s.proj.projects[id].client
    ensures Holdings(Apply(cfg, s, c).value.ledger, c.who) >= s.proj.projects[id].budget
  {
    hide LockIdOf, LockOwner, AllCases, EscrowOk, ReservesExact, IndexOk, AfterProjectCompleted, AfterWorkAccepted;
    hide AfterTransfer;
    var q := s.proj.projects[c.id];
    var unlocked := AfterRemoveLock(s.ledger, LockIdOf(c.id), c.who);
    var k := (c.who, LockIdOf(id));
    LockOfLive(s, id);
    if LockIdOf(c.id) == LockIdOf(id) {
      LockIdsInjective(c.id, id);
    }
    assert k in unlocked.locks && unlocked.locks[k] == s.proj.projects[id].budget;
    assert Holdings(unlocked, c.who) == Holdings(s.ledger, c.who);
    TransferRespectsLock(unlocked, c.who, q.freelancer.value, q.budget, k);
    InvBacked(cfg, s, created);
    AcceptWorkPays(cfg, s, c.who, c.id, c.rating);
  }

  lemma AcceptClosesProject(cfg: Config, s: State, c: Call)
    requires c.AcceptWork? && Apply(cfg, s, c).Ok?
    ensures !LiveProject(Apply(cfg, s, c).value, c.id)
  {
    hide AfterProjectCompleted, AfterWorkAccepted, AfterTransfer, LockIdOf;
  }

  /** One call: a live project stays funded unless the call exposes its client. */
  lemma StepStaysFunded(cfg: Config, s: State, c: Call, id: ProjectId, created: nat)
    requires Inv(cfg, s, created) && WellFormed(cfg, c)
    requires c.CreateProject? ==> created < PROJECT_IDS
    requires LiveProject(s, id) && Funded(s, id) && !Exposes(s, c, s.proj.projects[id].client)
    requires LiveProject(Step(cfg, s, c), id)
    ensures Funded(Step(cfg, s, c), id)
  {
    hide Inv, Apply, TermsKept, NextStatus;
    var client, budget := s.proj.projects[id].client, s.proj.projects[id].budget;
    StepTerms(cfg, s, c, id, created);
    SameTerms(s.proj.projects[id], Step(cfg, s, c).proj.projects[id]);
    if budget > 0 && Apply(cfg, s, c).Ok? {
      if c.Transfer? && c.who == client {
        TransferStaysFunded(cfg, s, c, id, created);
      } else if c.AcceptWork? && c.who == client {
        AcceptClosesProject(cfg, s, c);
        AcceptRespectsLock(cfg, s, c, id, created);
      } else {
        ClientIsNotPallet(cfg, s, id, created);
        OnlyPayersLose(cfg, s, c, created, client);
      }
    }
  }

  lemma SameTerms(p: Project, q: Project)
    requires TermsKept(p, q)
    ensures q.client == p.client && q.budget == p.budget
    ensures Live(q) ==> Live(p)
  {
    match p.status {
      case Completed =>
      case Cancelled =>
      case _ =>
    }
  }

  lemma ClientIsNotPallet(cfg: Config, s: State, id: ProjectId, created: nat)
    requires Inv(cfg, s, created) && id in s.proj.projects
    ensures s.proj.projects[id].client != cfg.arbitrator
  {
    assert CaseOk(cfg, CaseOf(s, id));
  }

  lemma TransferStaysFunded(cfg: Config, s: State, c: Call, id: ProjectId, created: nat)
    requires Inv(cfg, s, created) && c.Transfer? && Apply(cfg, s, c).Ok?
    requires LiveProject(s, id) && Funded(s, id) && s.proj.projects[id].budget > 0
    requires c.who == s.proj.projects[id].client
    ensures Holdings(Apply(cfg, s, c).value.ledger, c.who) >= s.proj.projects[id].budget
  {
    hide LockIdOf, LockOwner, AllCases, EscrowOk, ReservesExact, IndexOk, AfterTransfer;
    LockOfLive(s, id);
    TransferRespectsLock(s.ledger, c.who, c.dst, c.amount, (c.who, LockIdOf(id)));
    TransferSends(s.ledger, c.who, c.dst, c.amount);
  }

  ghost predicate NeverExposed(cfg: Config, s: State, calls: seq<Call>, who: AccountId) {
    forall i :: 0 <= i < |calls| ==> !Exposes(Run(cfg, s, calls[..i]), calls[i], who)
  }

  /** A project live at the end was live all along, with the same client. */
  lemma LiveBefore(cfg: Config, s: State, calls: seq<Call>, id: ProjectId, created: nat)
    requires SafeRun(cfg, s, calls, created) && calls != []
    requires id in s.proj.projects && LiveProject(Run(cfg, s, calls), id)
    ensures var r := Run(cfg, s, calls[..|calls| - 1]);
      LiveProject(r, id) && r.proj.projects[id].client == s.proj.projects[id].client
  {
    hide Inv, Apply, Step, TermsKept, NextStatus;
    var init := calls[..|calls| - 1];
    LastStep(cfg, s, calls, created);
    RunTerms(cfg, s, init, id, created);
    var r := Run(cfg, s, init);
    SameTerms(s.proj.projects[id], r.proj.projects[id]);
    StepTerms(cfg, r, calls[|calls| - 1], id, ProjectsMade(cfg, s, init, created));
    SameTerms(r.proj.projects[id], Run(cfg, s, calls).proj.projects[id]);
  }

  lemma ExposedBefore(cfg: Config, s: State, calls: seq<Call>, who: AccountId)
    requires NeverExposed(cfg, s, calls, who) && calls != []
    ensures var n := |calls| - 1;
      NeverExposed(cfg, s, calls[..n], who) && !Exposes(Run(cfg, s, calls[..n]), calls[n], who)
  {
    hide Run, Exposes;
    var init := calls[..|calls| - 1];
    assert forall i :: 0 <= i < |init| ==> init[..i] == calls[..i];
  }

  /**
    Over a whole run: as long as the project is live, its client cannot drop below the budget
    by any transfer, payment, registration, bond or vote.
  */
  lemma {:induction false} RunStaysFunded(cfg: Config, s: State, calls: seq<Call>, id: ProjectId, created: nat)
    requires SafeRun(cfg, s, calls, created) && LiveProject(s, id) && Funded(s, id)
    requires NeverExposed(cfg, s, calls, s.proj.projects[id].client)
    requires LiveProject(Run(cfg, s, calls), id)
    ensures Funded(Run(cfg, s, calls), id)
  {
    if calls != [] {
      hide Inv, Apply, Step, Exposes, Funded, NeverExposed;
      var init := calls[..|calls| - 1];
      LastStep(cfg, s, calls, created);
      LiveBefore(cfg, s, calls, id, created);
      ExposedBefore(cfg, s, calls, s.proj.projects[id].client);
      RunStaysFunded(cfg, s, init, id, created);
      StepStaysFunded(cfg, Run(cfg, s, init), calls[|calls| - 1], id, ProjectsMade(cfg, s, init, created));
    }
  }
}
