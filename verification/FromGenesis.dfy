/**
  Everything together: what holds after any run of the chain from a sound genesis.
*/
module FromGenesis {
  import opened Types
  import opened Currency
  import opened Reputation
  import opened JurorIndex
  import opened Arbitration
  import opened DisputeProtocol
  import opened Escrow
  import opened ReserveLedger
  import opened System
  import opened ChainInvariant
  import opened ChainSafety
  import opened GenesisTheorems
  import opened Termination
  import opened DisputeHistory
  import opened DisputeRuns
  import opened HoldingsTheorems
  import opened EscrowRuns
  import opened JurorLists
  import opened Lifecycle

  /** A chain built from these parameters, and the calls dispatched on it. */
  ghost predicate Chain(cfg: Config, l: Ledger, users: map<AccountId, Stats>, jurors: seq<AccountId>,
                        stake: Balance, calls: seq<Call>) {
    && SoundGenesis(cfg, l, users, jurors)
    && Genesis(cfg, l, users, jurors, stake).Ok?
    && AllWellFormed(cfg, calls)
    && Creations(calls) <= PROJECT_IDS
  }

  function Start(cfg: Config, l: Ledger, users: map<AccountId, Stats>, jurors: seq<AccountId>, stake: Balance): State
    requires Genesis(cfg, l, users, jurors, stake).Ok?
  {
    Initial(Genesis(cfg, l, users, jurors, stake).value)
  }

  /** Even an empty genesis starts a chain, and any well-formed calls may follow. */
  lemma ChainsExist(cfg: Config, calls: seq<Call>)
    requires AllWellFormed(cfg, calls) && Creations(calls) <= PROJECT_IDS
    ensures Chain(cfg, Ledger(map[], map[], map[], 0), map[], [], 0, calls)
  {
    hide AllWellFormed, Creations;
    EmptyGenesis(cfg);
  }

  lemma EmptyGenesis(cfg: Config)
    ensures var l := Ledger(map[], map[], map[], 0);
      SoundGenesis(cfg, l, map[], []) && Genesis(cfg, l, map[], [], 0).Ok?
  {
  }

  lemma SafeFromGenesis(cfg: Config, l: Ledger, users: map<AccountId, Stats>, jurors: seq<AccountId>,
                        stake: Balance, calls: seq<Call>)
    requires Chain(cfg, l, users, jurors, stake, calls)
    ensures var s := Start(cfg, l, users, jurors, stake);
      && SafeRun(cfg, s, calls, 0) && EveryJurorListed(s.rep) && RecordsOk(cfg, s)
      && s.proj.projects == map[] && s.arb.disputes == map[]
  {
    hide Inv, Genesis, SoundGenesis, EveryJurorListed;
    GenesisEstablishes(cfg, l, users, jurors, stake);
  }

  /**
    Over every run from genesis: each reserve is exactly stake plus bonds; the balances add up
    to what was minted and not slashed; the juror index never promises what the statistics do
    not support; every project's lock, record and dispute agree; every stored dispute is what
    its history says; no budget was paid twice; and no dispute saw more calls than its bound.
  */
  lemma ChainIsSafe(cfg: Config, l: Ledger, users: map<AccountId, Stats>, jurors: seq<AccountId>,
                    stake: Balance, calls: seq<Call>, id: ProjectId)
    requires Chain(cfg, l, users, jurors, stake, calls)
    ensures var s := Start(cfg, l, users, jurors, stake); var r := Run(cfg, s, calls);
      && ReservesExact(r)
      && Worth(r.ledger) == Worth(s.ledger) + IssuedInRun(cfg, s, calls)
      && IndexOk(cfg, r.rep)
      && AllCases(cfg, r) && EscrowOk(r) && RecordsOk(cfg, r)
      && HistoryOk(cfg, CaseOf(r, id), HistoryOf(cfg, s, calls, id))
      && Payouts(cfg, s, calls, id) == (if PaidState(r, id) then 1 else 0)
      && DisputeSteps(cfg, s, calls, id) <= 7 + cfg.minJurors + cfg.maxJurors
  {
    hide SafeRun, Start, Genesis, HistoryOk, RecordsOk, EveryJurorListed, AllCases;
    hide EscrowOk, ReservesExact, IndexOk, IdsOk, MoneyOk, PaidState;
    var s := Start(cfg, l, users, jurors, stake);
    SafeFromGenesis(cfg, l, users, jurors, stake, calls);
    RunKeeps(cfg, s, calls, 0);
    RunsConserve(cfg, s, calls, 0);
    RunRecords(cfg, s, calls, 0);
    HistoryAlwaysOk(cfg, s, calls, id, 0);
    PaidExactlyOnce(cfg, s, calls, id, 0);
    DisputeCallsBounded(cfg, s, calls, id, 0);
  }

  /** Selection misses nobody: with no juror dropped on the way, the pools are exactly the jurors with a tier. */
  lemma PoolsAreComplete(cfg: Config, l: Ledger, users: map<AccountId, Stats>, jurors: seq<AccountId>,
                         stake: Balance, calls: seq<Call>, a: AccountId, t: JurorTier)
    requires Chain(cfg, l, users, jurors, stake, calls) && t != Ineligible
    requires NobodyDropped(cfg, Start(cfg, l, users, jurors, stake), calls)
    ensures var r := Run(cfg, Start(cfg, l, users, jurors, stake), calls).rep;
      a in Pool(r, t) <==> a in r.registry && TierOf(r, a) == t
  {
    hide SafeRun, Start, Genesis, RecordsOk, NobodyDropped, AllDeserved, AllBounded;
    var s := Start(cfg, l, users, jurors, stake);
    SafeFromGenesis(cfg, l, users, jurors, stake, calls);
    RunLists(cfg, s, calls, 0);
    assert !OffList(Run(cfg, s, calls).rep, a);
  }
}
