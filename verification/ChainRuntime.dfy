/**
  The runtime that dispatches calls to the pallets: atomic calls over mutable storage, proved
  to take exactly the steps of the state machine, from genesis on.
*/
module ChainRuntime {
  import opened Prelude
  import opened Types
  import opened Currency
  import opened Reputation
  import opened JurorIndex
  import opened Projects
  import opened Arbitration
  import opened System
  import opened ChainInvariant
  import opened ChainSafety
  import opened GenesisTheorems
  import ArbitrationPallet
  import ProjectsPallet
  import ReputationPallet

  class Runtime {
    const arbitration: ArbitrationPallet.Pallet
    const projects: ProjectsPallet.Pallet
    const reputation: ReputationPallet.Pallet
    const currency: Balances
    var now: BlockNumber

    ghost predicate Wired() {
      projects == arbitration.site && reputation == projects.reputation && currency == reputation.currency
    }

    function World(): State
      reads this, arbitration, arbitration.site, arbitration.site.reputation, arbitration.site.reputation.currency
    {
      arbitration.World(now)
    }

    constructor (arbitration: ArbitrationPallet.Pallet)
      ensures this.arbitration == arbitration && Wired() && now == 0
    {
      this.arbitration := arbitration;
      projects, reputation := arbitration.site, arbitration.site.reputation;
      currency := arbitration.site.reputation.currency;
      now := 0;
    }

    // ---------- one call ----------

    method ExecuteEnvironment(c: Call) returns (r: Result<(), Error>)
      requires Wired() && IsEnvironmentCall(c)
      modifies this, currency
      ensures match Apply(reputation.cfg, old(World()), c)
              case Ok(v) => r == Ok(()) && World() == v
              case Err(e) => r == Err(e)
    {
      match c {
        case NextBlock =>
          if now >= reputation.cfg.maxBlock {
            return Err(NoMoreBlocks);
          }
          now := now + 1;
          return Ok(());
        case Transfer(who, dst, amount) =>
          r := currency.Transfer(who, dst, amount);
        case Mint(dst, amount) =>
          if currency.issuance + amount > reputation.cfg.maxBalance {
            return Err(IssuanceOverflow);
          }
          currency.DepositCreating(dst, amount);
          return Ok(());
      }
    }

    method ExecuteReputation(c: Call) returns (r: Result<(), Error>)
      requires Wired() && IsReputationCall(c)
      modifies reputation, currency
      ensures match Apply(reputation.cfg, old(World()), c)
              case Ok(v) => r == Ok(()) && World() == v
              case Err(e) => r == Err(e)
    {
      hide AfterRegisterUser, AfterRegisterAsJuror, AfterDeregisterAsJuror, AfterSlashJuror;
      match c {
        case RegisterUser(who) => r := reputation.RegisterUser(now, who);
        case RegisterAsJuror(who) => r := reputation.RegisterAsJuror(who);
        case DeregisterAsJuror(who) => r := reputation.DeregisterAsJuror(who);
        case SlashJuror(juror) => r := reputation.SlashJuror(juror);
      }
    }

    /** The creation of a project, and its cancellation. */
    method ExecutePosting(c: Call) returns (r: Result<(), Error>)
      requires Wired() && (c.CreateProject? || c.CancelProject?)
      modifies projects, reputation, currency
      ensures match Apply(reputation.cfg, old(World()), c)
              case Ok(v) => r == Ok(()) && World() == v
              case Err(e) => r == Err(e)
    {
      hide AfterCreateProject, AfterCancelProject;
      match c {
        case CreateProject(who, budget, uri, duration) => r := projects.CreateProject(now, who, budget, uri, duration);
        case CancelProject(who, id) => r := projects.CancelProject(now, who, id);
      }
    }

    /** Applications and the start of the work. */
    method ExecuteHiring(c: Call) returns (r: Result<(), Error>)
      requires Wired() && (c.ApplyForProject? || c.StartWork?)
      modifies projects, reputation, currency
      ensures match Apply(reputation.cfg, old(World()), c)
              case Ok(v) => r == Ok(()) && World() == v
              case Err(e) => r == Err(e)
    {
      hide AfterApplyForProject, AfterStartWork;
      match c {
        case ApplyForProject(who, id) => r := projects.ApplyForProject(who, id);
        case StartWork(who, id, selected) => r := projects.StartWork(now, who, id, selected);
      }
    }

    /** The submission of work and its review. */
    method ExecuteReview(c: Call) returns (r: Result<(), Error>)
      requires Wired() && (c.SubmitWork? || c.AcceptWork? || c.RejectWork?)
      modifies projects, reputation, currency
      ensures match Apply(reputation.cfg, old(World()), c)
              case Ok(v) => r == Ok(()) && World() == v
              case Err(e) => r == Err(e)
    {
      hide AfterSubmitWork, AfterAcceptWork, AfterRejectWork;
      match c {
        case SubmitWork(who, id, contentHash, uri, metadata) =>
          r := projects.SubmitWork(now, who, id, contentHash, uri, metadata);
        case AcceptWork(who, id, rating) => r := projects.AcceptWork(now, who, id, rating);
        case RejectWork(who, id, uri) => r := projects.RejectWork(now, who, id, uri);
      }
    }

    /** The opening of a dispute and the first ruling on it. */
    method ExecuteDispute(c: Call) returns (r: Result<(), Error>)
      requires Wired() && (c.CreateDispute? || c.SubmitRuling?)
      modifies arbitration, projects, reputation, currency
      ensures match Apply(reputation.cfg, old(World()), c)
              case Ok(v) => r == Ok(()) && World() == v
              case Err(e) => r == Err(e)
    {
      hide AfterCreateDispute, AfterSubmitRuling;
      match c {
        case CreateDispute(who, id) => r := arbitration.CreateDispute(now, who, id);
        case SubmitRuling(id, ruling) => r := arbitration.SubmitRuling(now, id, ruling);
      }
    }

    method ExecuteEnforcement(c: Call) returns (r: Result<(), Error>)
      requires Wired() && c.EnforceFinalRuling?
      modifies arbitration, projects, reputation, currency
      ensures match Apply(reputation.cfg, old(World()), c)
              case Ok(v) => r == Ok(()) && World() == v
              case Err(e) => r == Err(e)
    {
      hide AfterEnforceFinalRuling;
      r := arbitration.EnforceFinalRuling(now, c.id);
    }

    method ExecuteAppeal(c: Call) returns (r: Result<(), Error>)
      requires Wired() && c.AppealRuling?
      modifies arbitration, reputation, currency
      ensures match Apply(reputation.cfg, old(World()), c)
              case Ok(v) => r == Ok(()) && World() == v
              case Err(e) => r == Err(e)
    {
      hide AfterAppealRuling;
      r := arbitration.AppealRuling(now, c.who, c.id);
    }

    method ExecuteJury(c: Call) returns (r: Result<(), Error>)
      requires Wired() && (c.CastVote? || c.FinalizeRound?)
      modifies arbitration, reputation, currency
      ensures match Apply(reputation.cfg, old(World()), c)
              case Ok(v) => r == Ok(()) && World() == v
              case Err(e) => r == Err(e)
    {
      hide AfterCastVote, AfterFinalizeRound;
      match c {
        case CastVote(who, id, vote) => r := arbitration.CastVote(now, who, id, vote);
        case FinalizeRound(_, id) => r := arbitration.FinalizeRound(now, id);
      }
    }

    /** Runs the call; when it fails, whatever it has written so far is still there. */
    method Execute(c: Call) returns (r: Result<(), Error>)
      requires Wired()
      modifies this, arbitration, projects, reputation, currency
      ensures match Apply(reputation.cfg, old(World()), c)
              case Ok(v) => r == Ok(()) && World() == v
              case Err(e) => r == Err(e)
    {
      hide Apply;
      match c {
        case NextBlock => r := ExecuteEnvironment(c);
        case Transfer(_, _, _) => r := ExecuteEnvironment(c);
        case Mint(_, _) => r := ExecuteEnvironment(c);
        case RegisterUser(_) => r := ExecuteReputation(c);
        case RegisterAsJuror(_) => r := ExecuteReputation(c);
        case DeregisterAsJuror(_) => r := ExecuteReputation(c);
        case SlashJuror(_) => r := ExecuteReputation(c);
        case CreateDispute(_, _) => r := ExecuteDispute(c);
        case SubmitRuling(_, _) => r := ExecuteDispute(c);
        case AppealRuling(_, _) => r := ExecuteAppeal(c);
        case CastVote(_, _, _) => r := ExecuteJury(c);
        case FinalizeRound(_, _) => r := ExecuteJury(c);
        case EnforceFinalRuling(_, _) => r := ExecuteEnforcement(c);
        case SubmitWork(_, _, _, _, _) => r := ExecuteReview(c);
        case AcceptWork(_, _, _) => r := ExecuteReview(c);
        case RejectWork(_, _, _) => r := ExecuteReview(c);
        case CreateProject(_, _, _, _) => r := ExecutePosting(c);
        case CancelProject(_, _) => r := ExecutePosting(c);
        case _ => r := ExecuteHiring(c);
      }
    }

    /** One dispatch: a call that fails is rolled back as if it had never been made. */
    method Dispatch(c: Call) returns (r: Result<(), Error>)
      requires Wired()
      modifies this, arbitration, projects, reputation, currency
      ensures World() == Step(reputation.cfg, old(World()), c)
      ensures match Apply(reputation.cfg, old(World()), c)
              case Ok(_) => r == Ok(())
              case Err(e) => r == Err(e) && World() == old(World())
    {
      hide Apply;
      var block, l, rep, proj, arb := now, currency.Store(), reputation.Store(), projects.Store(), arbitration.Store();
      r := Execute(c);
      if r.Err? {
        now := block;
        currency.Restore(l);
        reputation.Restore(rep);
        projects.Restore(proj);
        arbitration.Restore(arb);
      }
    }

    // ---------- a whole run ----------

    /**
      Dispatching one call after another is the run of the state machine, so everything proved
      about runs holds of this object: in particular it stays in the invariant.
    */
    method DispatchAll(calls: seq<Call>)
      requires Wired()
      modifies this, arbitration, projects, reputation, currency
      ensures World() == Run(reputation.cfg, old(World()), calls)
      ensures forall created: nat :: SafeRun(reputation.cfg, old(World()), calls, created) ==>
        Inv(reputation.cfg, World(), ProjectsMade(reputation.cfg, old(World()), calls, created))
    {
      hide Step, Inv;
      for i := 0 to |calls|
        invariant World() == Run(reputation.cfg, old(World()), calls[..i])
      {
        assert calls[..i + 1][..i] == calls[..i];
        var ignored := Dispatch(calls[i]);
      }
      assert calls[..|calls|] == calls;
      forall created: nat | SafeRun(reputation.cfg, old(World()), calls, created)
        ensures Inv(reputation.cfg, World(), ProjectsMade(reputation.cfg, old(World()), calls, created))
      {
        RunKeeps(reputation.cfg, old(World()), calls, created);
      }
    }
  }

  /** Builds the genesis state and the runtime over it; distinct genesis jurors start it in the invariant. */
  method Launch(cfg: Config, l: Ledger, users: map<AccountId, Stats>, jurors: seq<AccountId>, stake: Balance)
    returns (r: Result<(), Error>, runtime: Runtime)
    ensures fresh(runtime) && runtime.Wired() && runtime.reputation.cfg == cfg
    ensures match Genesis(cfg, l, users, jurors, stake)
            case Ok(w) =>
              && r == Ok(()) && runtime.World() == Initial(w)
              && (SoundGenesis(cfg, l, users, jurors) ==> Inv(cfg, runtime.World(), 0) && EveryJurorListed(w.rep))
            case Err(_) => r.Err?
  {
    hide Genesis, Inv, SoundGenesis, EveryJurorListed, Unstaked;
    var currency := new Balances(l);
    var reputation := new ReputationPallet.Pallet(cfg, currency, Unstaked(users, stake));
    r := reputation.Build(users, jurors, stake);
    var projects := new ProjectsPallet.Pallet(reputation, ProjStore(map[], 0, map[]));
    var arbitration := new ArbitrationPallet.Pallet(projects, ArbStore(map[], map[], map[], map[], map[]));
    runtime := new Runtime(arbitration);
    if r.Ok? && SoundGenesis(cfg, l, users, jurors) {
      GenesisEstablishes(cfg, l, users, jurors, stake);
    }
  }
}
