/**
  The money of the projects: every account's holdings, over every run, are what it started
  with, plus its transfers, slashes and settlements, plus the budgets of exactly those projects
  that were paid, each counted once.
*/
module EscrowMoney {
  import opened Prelude
  import opened Types
  import opened Currency
  import opened Reputation
  import opened JurorIndex
  import opened Projects
  import opened Arbitration
  import opened DisputeProtocol
  import opened Escrow
  import opened ReserveLedger
  import opened System
  import opened ChainInvariant
  import opened ChainSafety
  import opened HoldingsTheorems
  import opened EscrowRuns

  /** What the settlement of a dispute gives to account `a`, less what it takes. */
  ghost function SettledFor(cfg: Config, s: State, id: ProjectId, a: AccountId): int {
    if id in s.proj.projects && s.proj.projects[id].freelancer.Some?
       && id in s.arb.disputes && s.arb.disputes[id].ruling.Some?
    then
      var p, ruling := s.proj.projects[id], s.arb.disputes[id].ruling.value;
      var winner, loser := WinningParty(ruling, p.client, p.freelancer.value), LosingParty(ruling, p.client,
                                                                                           p.freelancer.value);
      var bonds, rewards := Prefix(s.arb.bonds, id), Prefix(s.arb.rewards, id);
      Given(cfg, bonds, winner, RemainderOf(cfg, s, id), rewards, a) - Taken(bonds, winner, loser,
                                                                             RemainderOf(cfg, s, id), a)
    else 0
  }

  /** What a call that succeeds moves for account `a`, apart from the budgets of projects. */
  ghost function OtherMoney(cfg: Config, s: State, c: Call, a: AccountId): int {
    match c
    case EnforceFinalRuling(_, id) => SettledFor(cfg, s, id, a)
    case AcceptWork(_, _, _) => 0
    case _ => Gained(cfg, s, c, a)
  }

  /** The budget of a project on its way from client to freelancer, as account `a` sees it. */
  function BudgetOf(p: Project, a: AccountId): int {
    if p.freelancer.Some? then Sent(p.client, p.freelancer.value, p.budget, a) else 0
  }

  /** What a call that succeeds moves for account `a` out of the escrow of project `id`. */
  function EscrowMoney(s: State, c: Call, id: ProjectId, a: AccountId): int {
    if IsPayout(s, c, id) && id in s.proj.projects then BudgetOf(s.proj.projects[id], a) else 0
  }

  /** The project a call may pay out. */
  function PayoutSubject(c: Call): ProjectId {
    match c
    case AcceptWork(_, id, _) => id
    case EnforceFinalRuling(_, id) => id
    case _ => 0
  }

  /** One call, one account: the change of its holdings is other money plus escrow money. */
  lemma CallAddsUp(cfg: Config, s: State, c: Call, created: nat, a: AccountId)
    requires Inv(cfg, s, created) && WellFormed(cfg, c) && Apply(cfg, s, c).Ok?
    ensures Holdings(Apply(cfg, s, c).value.ledger, a)
         == Holdings(s.ledger, a) + OtherMoney(cfg, s, c, a) + EscrowMoney(s, c, PayoutSubject(c), a)
  {
    hide Inv, AfterEnforceFinalRuling, Sent, Given, Taken, RemainderOf;
    if c.EnforceFinalRuling? {
      var winner, loser, remainder := EnforcementPays(cfg, s, c.id, created);
    } else {
      CallsPay(cfg, s, c, created);
      if c.AcceptWork? {
        AcceptedHasFreelancer(cfg, s, c);
      }
      hide Apply;
    }
  }

  lemma AcceptedHasFreelancer(cfg: Config, s: State, c: Call)
    requires c.AcceptWork? && Apply(cfg, s, c).Ok?
    ensures c.id in s.proj.projects && s.proj.projects[c.id].freelancer.Some? && s.proj.projects[c.id].client == c.who
  {
    hide AfterTransfer, AfterProjectCompleted, AfterWorkAccepted, LockIdOf;
  }

  // ---------- one project ----------

  /** The budget of project `id` in the account's holdings: there if it was paid, else not. */
  function PaidTo(s: State, id: ProjectId, a: AccountId): int {
    if PaidState(s, id) then BudgetOf(s.proj.projects[id], a) else 0
  }

  lemma StepMovesBudget(cfg: Config, s: State, c: Call, id: ProjectId, created: nat, a: AccountId)
    requires Inv(cfg, s, created) && WellFormed(cfg, c)
    requires c.CreateProject? ==> created < PROJECT_IDS
    requires Apply(cfg, s, c).Ok?
    ensures PaidTo(Apply(cfg, s, c).value, id, a) == PaidTo(s, id, a) + EscrowMoney(s, c, id, a)
  {
    hide Inv, Apply, BudgetOf, NextStatus;
    StepPaysOut(cfg, s, c, id, created);
    if IsPayout(s, c, id) {
      PayoutFound(cfg, s, c, id, created);
    }
    if id in s.proj.projects && (PaidState(s, id) || IsPayout(s, c, id)) {
      StepTerms(cfg, s, c, id, created);
      PaidSameBudget(s.proj.projects[id], Apply(cfg, s, c).value.proj.projects[id], a);
    }
  }

  lemma PaidSameBudget(p: Project, q: Project, a: AccountId)
    requires TermsKept(p, q) && p.status != Created
    ensures BudgetOf(q, a) == BudgetOf(p, a)
  {
  }

  lemma PayoutFound(cfg: Config, s: State, c: Call, id: ProjectId, created: nat)
    requires Inv(cfg, s, created) && Apply(cfg, s, c).Ok? && IsPayout(s, c, id)
    ensures id in s.proj.projects && s.proj.projects[id].status != Created
  {
    hide AllCases, IndexOk, ReservesExact, EscrowOk, IdsOk, AfterProjectCompleted, AfterWorkAccepted, AfterTransfer;
    hide LockIdOf;
    hide AfterEnforceFinalRuling;
    if c.EnforceFinalRuling? {
      DisputeCoupling(cfg, s, id);
      StagesOf(cfg, s, id);
    }
  }

  lemma StagesOf(cfg: Config, s: State, id: ProjectId)
    requires AfterEnforceFinalRuling(cfg, s, id).Ok?
    ensures id in s.arb.disputes && s.arb.disputes[id].status == Appealable
  {
    hide AfterOnRuling, AfterPayouts, AfterDisputeOutcome;
  }

  /** What a run moved for account `a` out of the escrow of project `id`. */
  ghost function EscrowMoved(cfg: Config, s: State, calls: seq<Call>, id: ProjectId, a: AccountId): int {
    if calls == [] then 0
    else
      var init, c := calls[..|calls| - 1], calls[|calls| - 1];
      var r := Run(cfg, s, init);
      EscrowMoved(cfg, s, init, id, a) + (if Apply(cfg, r, c).Ok? then EscrowMoney(r, c, id, a) else 0)
  }

  /**
    Over every run the escrow of a project moves its budget from client to freelancer, once, if
    the project ends up paid; otherwise it moves nothing for anybody.
  */
  lemma {:induction false} BudgetMovesOnce(cfg: Config, s: State, calls: seq<Call>, id: ProjectId, created: nat,
                                           a: AccountId)
    requires SafeRun(cfg, s, calls, created) && id !in s.proj.projects
    ensures EscrowMoved(cfg, s, calls, id, a) == PaidTo(Run(cfg, s, calls), id, a)
  {
    if calls != [] {
      hide Inv, Apply, PaidTo, EscrowMoney;
      var init, c := calls[..|calls| - 1], calls[|calls| - 1];
      LastStep(cfg, s, calls, created);
      BudgetMovesOnce(cfg, s, init, id, created, a);
      var r := Run(cfg, s, init);
      if Apply(cfg, r, c).Ok? {
        StepMovesBudget(cfg, r, c, id, ProjectsMade(cfg, s, init, created), a);
      }
    }
  }

  // ---------- all projects ----------

  /** The budgets of the paid projects with an id below `n`. */
  function PaidBelow(s: State, n: nat, a: AccountId): int {
    if n == 0 then 0 else PaidBelow(s, n - 1, a) + PaidTo(s, n - 1, a)
  }

  lemma {:induction false} StepPaysBelow(cfg: Config, s: State, c: Call, n: nat, created: nat, a: AccountId)
    requires Inv(cfg, s, created) && WellFormed(cfg, c)
    requires c.CreateProject? ==> created < PROJECT_IDS
    requires Apply(cfg, s, c).Ok?
    ensures PaidBelow(Apply(cfg, s, c).value, n, a)
         == PaidBelow(s, n, a) + (if PayoutSubject(c) < n then EscrowMoney(s, c, PayoutSubject(c), a) else 0)
  {
    hide Inv, Apply, PaidTo;
    if n > 0 {
      hide BudgetOf;
      StepPaysBelow(cfg, s, c, n - 1, created, a);
      StepMovesBudget(cfg, s, c, n - 1, created, a);
    }
  }

  /** What a run moved for account `a` apart from budgets. */
  ghost function OtherMoneyMoved(cfg: Config, s: State, calls: seq<Call>, a: AccountId): int {
    if calls == [] then 0
    else
      var init, c := calls[..|calls| - 1], calls[|calls| - 1];
      var r := Run(cfg, s, init);
      OtherMoneyMoved(cfg, s, init, a) + (if Apply(cfg, r, c).Ok? then OtherMoney(cfg, r, c, a) else 0)
  }

  lemma StepAddsUp(cfg: Config, s: State, c: Call, created: nat, ids: nat, a: AccountId)
    requires Inv(cfg, s, created) && WellFormed(cfg, c) && PROJECT_IDS <= ids
    requires c.CreateProject? ==> created < PROJECT_IDS
    requires Apply(cfg, s, c).Ok?
    ensures var t := Apply(cfg, s, c).value;
      Holdings(t.ledger, a) - PaidBelow(t, ids, a)
        == Holdings(s.ledger, a) - PaidBelow(s, ids, a) + OtherMoney(cfg, s, c, a)
  {
    hide Apply, AllCases, IndexOk, ReservesExact, EscrowOk, OtherMoney, BudgetOf, PaidBelow;
    CallAddsUp(cfg, s, c, created, a);
    StepPaysBelow(cfg, s, c, ids, created, a);
    assert PayoutSubject(c) in s.proj.projects ==> PayoutSubject(c) < PROJECT_IDS;
  }

  /**
    Over every run, every account's holdings change by its transfers, mints, slashes and
    settlements, and by the budgets of the projects paid meanwhile: received as freelancer,
    given as client, each exactly once.
  */
  lemma {:induction false} EveryAccountAddsUp(cfg: Config, s: State, calls: seq<Call>, created: nat, ids: nat,
                                              a: AccountId)
    requires SafeRun(cfg, s, calls, created) && PROJECT_IDS <= ids
    ensures var r := Run(cfg, s, calls);
      Holdings(r.ledger, a) == Holdings(s.ledger, a) + OtherMoneyMoved(cfg, s, calls, a)
                               + PaidBelow(r, ids, a) - PaidBelow(s, ids, a)
  {
    if calls != [] {
      hide Inv, Apply, Holdings, PaidBelow, OtherMoney;
      var init, c := calls[..|calls| - 1], calls[|calls| - 1];
      LastStep(cfg, s, calls, created);
      EveryAccountAddsUp(cfg, s, init, created, ids, a);
      var r := Run(cfg, s, init);
      if Apply(cfg, r, c).Ok? {
        StepAddsUp(cfg, r, c, ProjectsMade(cfg, s, init, created), ids, a);
      }
    }
  }
}
