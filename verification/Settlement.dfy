/**
  The money of a settlement: the bond loop and the reward loop end in the same ledger in
  whatever order the storage hands out the entries, nothing is created or lost, and each
  party's gain and loss is exact.
*/
module Settlement {
  import opened Prelude
  import opened Types
  import opened Currency
  import opened Arbitration

  // ---------- independence of the iteration order ----------

  /** Out of one account's reserve, as far as it goes, into another account's free balance. */
  function Move(l: Ledger, src: AccountId, dst: AccountId, amount: Balance): Ledger {
    var moved := Min(amount, Reserved(l, src));
    l.(free := l.free[dst := Free(l, dst) + moved], reserved := l.reserved[src := Reserved(l, src) - moved])
  }

  /** Returning a bond and slashing one are the same move, to different accounts. */
  lemma BondTurnMoves(cfg: Config, bonds: map<nat, Bond>, winner: AccountId, u: Purse, r: nat)
    requires r in bonds
    ensures var b, v := bonds[r], BondTurn(cfg, bonds, winner, u, r);
      && v.ledger == Move(u.ledger, b.owner, if b.owner == winner then winner else cfg.arbitrator, b.amount)
      && v.slashed == (if b.owner == winner then u.slashed
                       else SatAdd(u.slashed, Min(b.amount, Reserved(u.ledger, b.owner)), cfg.maxBalance))
  {
  }

  lemma UpdatesCommute(m: map<AccountId, Balance>, c: AccountId, x: nat, d: AccountId, y: nat)
    ensures Plus(Plus(m, c, x), d, y) == Plus(Plus(m, d, y), c, x)
  {
    if c == d {
      assert Plus(Plus(m, c, x), d, y) == m[c := Get(m, c) + x + y] == Plus(Plus(m, d, y), c, x);
    }
  }

  lemma SameOwnerMovesAdd(l: Ledger, a: AccountId, c: AccountId, x: Balance, y: Balance)
    ensures Move(Move(l, a, c, x), a, c, y) == Move(l, a, c, x + y)
  {
    var m, n := Move(Move(l, a, c, x), a, c, y), Move(l, a, c, x + y);
    assert m.reserved == n.reserved;
    assert m.free == n.free;
  }

  function Plus(m: map<AccountId, Balance>, who: AccountId, amount: nat): map<AccountId, Balance> {
    m[who := Get(m, who) + amount]
  }

  lemma TwoMoves(l: Ledger, a: AccountId, c: AccountId, x: Balance, b: AccountId, d: AccountId, y: Balance)
    requires a != b
    ensures var p, q := Min(x, Reserved(l, a)), Min(y, Reserved(l, b));
      Move(Move(l, a, c, x), b, d, y) == l.(free := Plus(Plus(l.free, c, p), d, q),
        reserved := l.reserved[a := Reserved(l, a) - p][b := Reserved(l, b) - q])
  {
  }

  lemma OtherOwnersMove(l: Ledger, a: AccountId, c: AccountId, x: Balance, b: AccountId, d: AccountId, y: Balance)
    requires a != b
    ensures Move(Move(l, a, c, x), b, d, y) == Move(Move(l, b, d, y), a, c, x)
  {
    hide Move;
    var p, q := Min(x, Reserved(l, a)), Min(y, Reserved(l, b));
    TwoMoves(l, a, c, x, b, d, y);
    TwoMoves(l, b, d, y, a, c, x);
    UpdatesCommute(l.free, c, p, d, q);
    assert l.reserved[a := Reserved(l, a) - p][b := Reserved(l, b) - q]
        == l.reserved[b := Reserved(l, b) - q][a := Reserved(l, a) - p];
  }

  lemma MovesCommute(l: Ledger, a: AccountId, c: AccountId, x: Balance, b: AccountId, d: AccountId, y: Balance)
    requires a == b ==> c == d
    ensures Move(Move(l, a, c, x), b, d, y) == Move(Move(l, b, d, y), a, c, x)
  {
    if a == b {
      SameOwnerMovesAdd(l, a, c, x, y);
      SameOwnerMovesAdd(l, a, c, y, x);
    } else {
      OtherOwnersMove(l, a, c, x, b, d, y);
    }
  }

  lemma BondTurnsCommute(cfg: Config, bonds: map<nat, Bond>, winner: AccountId, u: Purse, j: nat, k: nat)
    ensures BondTurn(cfg, bonds, winner, BondTurn(cfg, bonds, winner, u, j), k)
         == BondTurn(cfg, bonds, winner, BondTurn(cfg, bonds, winner, u, k), j)
  {
    hide BondTurn;
    if j in bonds && k in bonds {
      var a, b := bonds[j], bonds[k];
      BondTurnMoves(cfg, bonds, winner, u, j);
      BondTurnMoves(cfg, bonds, winner, u, k);
      BondTurnMoves(cfg, bonds, winner, BondTurn(cfg, bonds, winner, u, j), k);
      BondTurnMoves(cfg, bonds, winner, BondTurn(cfg, bonds, winner, u, k), j);
      MovesCommute(u.ledger, a.owner, if a.owner == winner then winner else cfg.arbitrator, a.amount,
                   b.owner, if b.owner == winner then winner else cfg.arbitrator, b.amount);
    } else {
      BondTurnSkips(cfg, bonds, winner);
    }
  }

  lemma BondTurnSkips(cfg: Config, bonds: map<nat, Bond>, winner: AccountId)
    ensures forall u, r :: r !in bonds ==> BondTurn(cfg, bonds, winner, u, r) == u
  {
  }

  lemma BondStepsCommute(cfg: Config, bonds: map<nat, Bond>, winner: AccountId)
    ensures Commutes(BondStep(cfg, bonds, winner))
  {
    var step := BondStep(cfg, bonds, winner);
    forall u: Purse, j: nat, k: nat | j != k ensures step(step(u, j), k) == step(step(u, k), j) {
      BondTurnsCommute(cfg, bonds, winner, u, j, k);
    }
  }

  /** The bond loop may take the bonds in any order. */
  lemma AnyBondFirst(cfg: Config, bonds: map<nat, Bond>, winner: AccountId, u: Purse, left: set<nat>, round: nat)
    requires round in left
    ensures var step := BondStep(cfg, bonds, winner);
      FoldSet(step, u, left) == FoldSet(step, BondTurn(cfg, bonds, winner, u, round), left - {round})
  {
    BondStepsCommute(cfg, bonds, winner);
    FoldAny(BondStep(cfg, bonds, winner), u, left, round);
  }

  /** Two payments one after the other, the first failure ending them. */
  function PaidBoth(l: Ledger, src: AccountId, j: AccountId, x: Balance, k: AccountId, y: Balance): Result<Ledger,
                    Error> {
    var m :- AfterTransfer(l, src, j, x);
    AfterTransfer(m, src, k, y)
  }

  /** Two payments out of one account succeed exactly when it can bear both. */
  lemma TwoPayments(l: Ledger, src: AccountId, j: AccountId, x: Balance, k: AccountId, y: Balance)
    requires j != src && k != src && x > 0 && y > 0
    ensures PaidBoth(l, src, j, x, k, y).Ok? <==>
      x + y <= Free(l, src) && CoversLocks(l, src, Free(l, src) - (x + y) + Reserved(l, src))
  {
  }

  lemma BothPaid(l: Ledger, src: AccountId, j: AccountId, x: Balance, k: AccountId, y: Balance)
    requires j != src && k != src && j != k && x > 0 && y > 0
    requires PaidBoth(l, src, j, x, k, y).Ok?
    ensures Free(l, src) >= x + y
    ensures PaidBoth(l, src, j, x, k, y).value
         == l.(free := l.free[src := Free(l, src) - (x + y)][j := Free(l, j) + x][k := Free(l, k) + y])
  {
    hide CoversLocks;
    var free := l.free[src := Free(l, src) - x][j := Free(l, j) + x];
    assert free[src := Free(l, src) - x - y][k := Free(l, k) + y]
        == l.free[src := Free(l, src) - (x + y)][j := Free(l, j) + x][k := Free(l, k) + y];
  }

  lemma PaymentsCommute(l: Ledger, src: AccountId, j: AccountId, x: Balance, k: AccountId, y: Balance)
    requires j != src && k != src && j != k && x > 0 && y > 0
    ensures PaidBoth(l, src, j, x, k, y).Ok? <==> PaidBoth(l, src, k, y, j, x).Ok?
    ensures PaidBoth(l, src, j, x, k, y).Ok? ==> PaidBoth(l, src, j, x, k, y) == PaidBoth(l, src, k, y, j, x)
  {
    hide PaidBoth, CoversLocks;
    TwoPayments(l, src, j, x, k, y);
    TwoPayments(l, src, k, y, j, x);
    if PaidBoth(l, src, j, x, k, y).Ok? {
      BothPaid(l, src, j, x, k, y);
      BothPaid(l, src, k, y, j, x);
      var free: map<AccountId, Balance> := l.free[src := Free(l, src) - (x + y)];
      assert free[j := Free(l, j) + x][k := Free(l, k) + y] == free[k := Free(l, k) + y][j := Free(l, j) + x];
    }
  }

  lemma RewardTurnsCommute(cfg: Config, rewards: map<AccountId, Balance>, r: Result<Ledger, Error>,
                           j: AccountId, k: AccountId)
    requires j != k
    ensures RewardTurn(cfg, rewards, RewardTurn(cfg, rewards, r, j), k)
         == RewardTurn(cfg, rewards, RewardTurn(cfg, rewards, r, k), j)
  {
    if r.Ok? && j in rewards && k in rewards && rewards[j] != 0 && rewards[k] != 0
       && j != cfg.arbitrator && k != cfg.arbitrator
    {
      hide AfterTransfer;
      PaymentsCommute(r.value, cfg.arbitrator, j, rewards[j], k, rewards[k]);
    }
  }

  lemma RewardStepsCommute(cfg: Config, rewards: map<AccountId, Balance>)
    ensures Commutes(RewardStep(cfg, rewards))
  {
    var step := RewardStep(cfg, rewards);
    forall r: Result<Ledger, Error>, j: AccountId, k: AccountId | j != k
      ensures step(step(r, j), k) == step(step(r, k), j)
    {
      RewardTurnsCommute(cfg, rewards, r, j, k);
    }
  }

  /** The reward loop may take the jurors in any order, and fails in all orders or in none. */
  lemma AnyRewardFirst(cfg: Config, rewards: map<AccountId, Balance>, r: Result<Ledger, Error>,
                       left: set<AccountId>, juror: AccountId)
    requires juror in left
    ensures var step := RewardStep(cfg, rewards);
      FoldSet(step, r, left) == FoldSet(step, RewardTurn(cfg, rewards, r, juror), left - {juror})
  {
    RewardStepsCommute(cfg, rewards);
    FoldAny(RewardStep(cfg, rewards), r, left, juror);
  }

  // ---------- what the bonds are worth ----------

  function Share(b: Bond, who: AccountId): Balance {
    if b.owner == who then b.amount else 0
  }

  function Shares(bonds: map<nat, Bond>, who: AccountId): map<nat, Balance> {
    map r | r in bonds :: Share(bonds[r], who)
  }

  function Amounts(bonds: map<nat, Bond>): map<nat, Balance> {
    map r | r in bonds :: bonds[r].amount
  }

  /** What `who` has posted among these bonds. */
  ghost function OwnedIn(bonds: map<nat, Bond>, who: AccountId): nat {
    SumMap(Shares(bonds, who))
  }

  ghost function Posted(bonds: map<nat, Bond>): nat {
    SumMap(Amounts(bonds))
  }

  lemma OwnedWithout(bonds: map<nat, Bond>, round: nat, who: AccountId)
    requires round in bonds
    ensures OwnedIn(bonds, who) == Share(bonds[round], who) + OwnedIn(bonds - {round}, who)
    ensures Posted(bonds) == bonds[round].amount + Posted(bonds - {round})
  {
    SumRemove(Shares(bonds, who), round);
    SumRemove(Amounts(bonds), round);
    assert Shares(bonds, who) - {round} == Shares(bonds - {round}, who);
    assert Amounts(bonds) - {round} == Amounts(bonds - {round});
  }

  lemma NoBonds(who: AccountId)
    ensures OwnedIn(map[], who) == 0 && Posted(map[]) == 0
  {
    assert Shares(map[], who) == map[];
    assert Amounts(map[]) == map[];
  }

  lemma OwnedWith(bonds: map<nat, Bond>, round: nat, b: Bond, who: AccountId)
    requires round !in bonds
    ensures OwnedIn(bonds[round := b], who) == OwnedIn(bonds, who) + Share(b, who)
  {
    OwnedWithout(bonds[round := b], round, who);
    assert bonds[round := b] - {round} == bonds;
  }

  /** What is owned is part of what is posted. */
  lemma {:induction false} OwnedAtMostPosted(bonds: map<nat, Bond>, who: AccountId)
    ensures OwnedIn(bonds, who) <= Posted(bonds)
    decreases |bonds|
  {
    if bonds != map[] {
      var r :| r in bonds;
      OwnedWithout(bonds, r, who);
      OwnedAtMostPosted(bonds - {r}, who);
    } else {
      NoBonds(who);
    }
  }

  ghost predicate ReservesCover(l: Ledger, bonds: map<nat, Bond>) {
    forall a :: OwnedIn(bonds, a) <= Reserved(l, a)
  }

  // ---------- the bond loop ----------

  /** What the bond loop does to every account. */
  ghost predicate BondsMoved(cfg: Config, u: Purse, v: Purse, bonds: map<nat, Bond>, winner: AccountId) {
    && v.slashed == u.slashed + Posted(bonds) - OwnedIn(bonds, winner)
    && (forall a :: Reserved(v.ledger, a) == Reserved(u.ledger, a) - OwnedIn(bonds, a))
    && (forall a :: Free(v.ledger, a) == Free(u.ledger, a)
          + (if a == winner then OwnedIn(bonds, winner) else 0)
          + (if a == cfg.arbitrator then Posted(bonds) - OwnedIn(bonds, winner) else 0))
    && Worth(v.ledger) == Worth(u.ledger)
    && v.ledger.issuance == u.ledger.issuance
    && v.ledger.locks == u.ledger.locks
  }

  lemma OneBond(cfg: Config, bonds: map<nat, Bond>, winner: AccountId, u: Purse, round: nat)
    requires round in bonds && bonds[round].amount <= Reserved(u.ledger, bonds[round].owner)
    requires u.slashed + bonds[round].amount <= cfg.maxBalance
    ensures var v := BondTurn(cfg, bonds, winner, u, round); var b := bonds[round];
      var lost := if b.owner == winner then 0 else b.amount;
      && v.slashed == u.slashed + lost
      && (forall a :: Reserved(v.ledger, a) == Reserved(u.ledger, a) - Share(b, a))
      && (forall a :: Free(v.ledger, a) == Free(u.ledger, a)
            + (if a == winner then Share(b, winner) else 0) + (if a == cfg.arbitrator then lost else 0))
      && Worth(v.ledger) == Worth(u.ledger)
      && v.ledger.issuance == u.ledger.issuance
      && v.ledger.locks == u.ledger.locks
  {
    var b := bonds[round];
    if b.owner == winner {
      UnreserveConserves(u.ledger, winner, b.amount);
    } else {
      SlashBurns(u.ledger, b.owner, b.amount);
      DepositAdds(AfterSlashReserved(u.ledger, b.owner, b.amount).0, cfg.arbitrator, b.amount);
    }
  }

  /** The loop over the rounds in `left`, with only those bonds in view. */
  lemma {:induction false} FoldIgnoresRest(cfg: Config, bonds: map<nat, Bond>, some: map<nat, Bond>,
                                           winner: AccountId, u: Purse, left: set<nat>)
    requires forall r :: r in left ==> r in bonds && r in some && some[r] == bonds[r]
    ensures FoldSet(BondStep(cfg, some, winner), u, left) == FoldSet(BondStep(cfg, bonds, winner), u, left)
    decreases |left|
  {
    if left != {} {
      var r :| r in left;
      AnyBondFirst(cfg, bonds, winner, u, left, r);
      AnyBondFirst(cfg, some, winner, u, left, r);
      FoldIgnoresRest(cfg, bonds, some, winner, BondTurn(cfg, bonds, winner, u, r), left - {r});
    }
  }

  /**
    When every bond is still in its owner's reserve: each bond of the winner is free again,
    every other bond has moved to the pallet, and nothing appeared or disappeared.
  */
  lemma {:induction false} BondsSettle(cfg: Config, u: Purse, bonds: map<nat, Bond>, winner: AccountId)
    requires ReservesCover(u.ledger, bonds)
    requires u.slashed + Posted(bonds) <= cfg.maxBalance
    ensures BondsMoved(cfg, u, FoldSet(BondStep(cfg, bonds, winner), u, bonds.Keys), bonds, winner)
    decreases |bonds|
  {
    if bonds == map[] {
      assert bonds.Keys == {};
      forall a ensures OwnedIn(bonds, a) == 0 && Posted(bonds) == 0 {
        NoBonds(a);
      }
    } else {
      var r :| r in bonds;
      var b, rest := bonds[r], bonds - {r};
      forall a ensures OwnedIn(bonds, a) == Share(b, a) + OwnedIn(rest, a)
                    && Posted(bonds) == b.amount + Posted(rest) {
        OwnedWithout(bonds, r, a);
      }
      assert OwnedIn(bonds, b.owner) <= Reserved(u.ledger, b.owner);
      OneBond(cfg, bonds, winner, u, r);
      var v := BondTurn(cfg, bonds, winner, u, r);
      assert ReservesCover(v.ledger, rest) by {
        forall a ensures OwnedIn(rest, a) <= Reserved(v.ledger, a) {
          assert OwnedIn(bonds, a) <= Reserved(u.ledger, a);
        }
      }
      BondsSettle(cfg, v, rest, winner);
      AnyBondFirst(cfg, bonds, winner, u, bonds.Keys, r);
      assert rest.Keys == bonds.Keys - {r};
      FoldIgnoresRest(cfg, bonds, rest, winner, v, rest.Keys);
      OwnedAtMostPosted(rest, winner);
      OwnedAtMostPosted(bonds, winner);
    }
  }

  // ---------- the reward loop ----------

  lemma {:induction false} RewardErrorStays(cfg: Config, rewards: map<AccountId, Balance>, e: Error,
                                            left: set<AccountId>)
    ensures FoldSet(RewardStep(cfg, rewards), Err(e), left) == Err(e)
    decreases |left|
  {
    if left != {} {
      var j :| j in left;
      AnyRewardFirst(cfg, rewards, Err(e), left, j);
      RewardErrorStays(cfg, rewards, e, left - {j});
    }
  }

  lemma {:induction false} RewardsIgnoreRest(cfg: Config, rewards: map<AccountId, Balance>,
                                             some: map<AccountId, Balance>,
                                             r: Result<Ledger, Error>, left: set<AccountId>)
    requires forall j :: j in left ==> j in rewards && j in some && some[j] == rewards[j]
    ensures FoldSet(RewardStep(cfg, some), r, left) == FoldSet(RewardStep(cfg, rewards), r, left)
    decreases |left|
  {
    if left != {} {
      var j :| j in left;
      AnyRewardFirst(cfg, rewards, r, left, j);
      AnyRewardFirst(cfg, some, r, left, j);
      RewardsIgnoreRest(cfg, rewards, some, RewardTurn(cfg, rewards, r, j), left - {j});
    }
  }

  /** Every juror is paid in full, by the pallet, and by nobody else. */
  ghost predicate RewardsPaid(cfg: Config, l: Ledger, m: Ledger, rewards: map<AccountId, Balance>) {
    && Free(m, cfg.arbitrator) == Free(l, cfg.arbitrator) - SumMap(rewards)
    && (forall a :: a != cfg.arbitrator ==> Free(m, a) == Free(l, a) + Get(rewards, a))
    && m.reserved == l.reserved
    && Worth(m) == Worth(l)
    && m.issuance == l.issuance
    && m.locks == l.locks
  }

  ghost predicate Unlocked(l: Ledger, who: AccountId) {
    forall k :: k in l.locks ==> k.0 != who
  }

  lemma OneReward(cfg: Config, l: Ledger, rewards: map<AccountId, Balance>, j: AccountId)
    requires cfg.arbitrator !in rewards && j in rewards && Unlocked(l, cfg.arbitrator)
    ensures var r := RewardTurn(cfg, rewards, Ok(l), j);
      && (r.Ok? <==> rewards[j] <= Free(l, cfg.arbitrator))
      && (r.Ok? ==> RewardsPaid(cfg, l, r.value, map[j := rewards[j]]))
      && (r.Err? ==> r == Err(PaymentFailed))
  {
    SumSingle(j, rewards[j]);
    if AfterTransfer(l, cfg.arbitrator, j, rewards[j]).Ok? {
      TransferConserves(l, cfg.arbitrator, j, rewards[j]);
    }
  }

  lemma PaidOneByOne(cfg: Config, l: Ledger, m: Ledger, n: Ledger, rewards: map<AccountId, Balance>, j: AccountId)
    requires j in rewards
    requires RewardsPaid(cfg, l, m, map[j := rewards[j]]) && RewardsPaid(cfg, m, n, rewards - {j})
    ensures RewardsPaid(cfg, l, n, rewards)
  {
    SumRemove(rewards, j);
    SumSingle(j, rewards[j]);
  }

  /**
    With the pallet account unlocked, the payout succeeds exactly when the account holds the
    sum of the rewards; otherwise the whole enforcement fails.
  */
  lemma {:induction false} RewardsSettle(cfg: Config, l: Ledger, rewards: map<AccountId, Balance>)
    requires cfg.arbitrator !in rewards && Unlocked(l, cfg.arbitrator)
    ensures var r := AfterRewards(cfg, l, rewards);
      && (r.Ok? <==> SumMap(rewards) <= Free(l, cfg.arbitrator))
      && (r.Ok? ==> RewardsPaid(cfg, l, r.value, rewards))
      && (r.Err? ==> r == Err(PaymentFailed))
    decreases |rewards|
  {
    hide RewardTurn, RewardStep, FoldSet;
    if rewards == map[] {
      NoRewards(cfg, l);
    } else {
      var j :| j in rewards;
      var rest := rewards - {j};
      var r := RewardTurn(cfg, rewards, Ok(l), j);
      SumRemove(rewards, j);
      AnyRewardFirst(cfg, rewards, Ok(l), rewards.Keys, j);
      assert rest.Keys == rewards.Keys - {j};
      RewardsIgnoreRest(cfg, rewards, rest, r, rest.Keys);
      OneReward(cfg, l, rewards, j);
      if r.Ok? {
        SumSingle(j, rewards[j]);
        RewardsSettle(cfg, r.value, rest);
        if AfterRewards(cfg, r.value, rest).Ok? {
          PaidOneByOne(cfg, l, r.value, AfterRewards(cfg, r.value, rest).value, rewards, j);
        }
      } else {
        RewardErrorStays(cfg, rest, r.error, rest.Keys);
      }
    }
  }

  lemma NoRewards(cfg: Config, l: Ledger)
    ensures AfterRewards(cfg, l, map[]) == Ok(l)
  {
    var none: map<AccountId, Balance> := map[];
    assert none.Keys == {};
  }

  // ---------- the whole settlement ----------

  /** What the loser gives up beyond the slashed bonds. */
  function Remainder(costs: Balance, slashed: Balance, transferred: bool): Balance {
    if transferred then SatSub(costs, slashed) else 0
  }

  /** Whether the loser's free balance can bear what the slashed bonds leave open. */
  function PaysRemainder(cfg: Config, u: Purse, loser: AccountId, costs: Balance): bool {
    AfterTransfer(u.ledger, loser, cfg.arbitrator, SatSub(costs, u.slashed)).Ok?
  }

  ghost predicate CostsMoved(cfg: Config, l: Ledger, m: Ledger, loser: AccountId, remainder: Balance) {
    && (forall a :: Free(m, a) == Free(l, a) - (if a == loser then remainder else 0)
                                             + (if a == cfg.arbitrator then remainder else 0))
    && m.reserved == l.reserved
    && Worth(m) == Worth(l)
    && m.issuance == l.issuance
    && m.locks == l.locks
  }

  lemma CostsSettle(cfg: Config, u: Purse, loser: AccountId, costs: Balance)
    requires loser != cfg.arbitrator
    ensures CostsMoved(cfg, u.ledger, AfterCosts(cfg, u, loser, costs), loser,
                       Remainder(costs, u.slashed, PaysRemainder(cfg, u, loser, costs)))
  {
    if costs > u.slashed && PaysRemainder(cfg, u, loser, costs) {
      TransferConserves(u.ledger, loser, cfg.arbitrator, costs - u.slashed);
    }
  }

  /** The gain or loss of one account over a settlement. */
  function NetGain(cfg: Config, who: AccountId, winner: AccountId, loser: AccountId,
                   returned: Balance, slashed: Balance, remainder: Balance,
                   rewards: map<AccountId, Balance>, paid: nat): int
  {
    (if who == winner then returned else 0)
    - (if who == loser then remainder else 0)
    + (if who == cfg.arbitrator then slashed + remainder - paid else Get(rewards, who))
  }

  /** Every account's balances after a settlement; the sum of all and the issuance stay. */
  ghost predicate Settled(cfg: Config, l: Ledger, m: Ledger, winner: AccountId, loser: AccountId,
                          bonds: map<nat, Bond>, remainder: Balance, rewards: map<AccountId, Balance>) {
    && (forall a :: Reserved(m, a) == Reserved(l, a) - OwnedIn(bonds, a))
    && (forall a :: Free(m, a) == Free(l, a) + NetGain(cfg, a, winner, loser,
                      OwnedIn(bonds, winner), OwnedIn(bonds, loser), remainder, rewards, SumMap(rewards)))
    && Worth(m) == Worth(l)
    && m.issuance == l.issuance
    && m.locks == l.locks
  }

  /** One account through the three stages. */
  lemma ThreeStagesFor(cfg: Config, l: Ledger, u: Purse, f: Ledger, m: Ledger, winner: AccountId, loser: AccountId,
                       bonds: map<nat, Bond>, remainder: Balance, rewards: map<AccountId, Balance>, a: AccountId)
    requires winner != cfg.arbitrator && loser != cfg.arbitrator && cfg.arbitrator !in rewards
    requires Posted(bonds) == OwnedIn(bonds, winner) + OwnedIn(bonds, loser)
    requires BondsMoved(cfg, Purse(l, 0), u, bonds, winner)
    requires CostsMoved(cfg, u.ledger, f, loser, remainder)
    requires RewardsPaid(cfg, f, m, rewards)
    ensures Reserved(m, a) == Reserved(l, a) - OwnedIn(bonds, a)
    ensures Free(m, a) == Free(l, a) + NetGain(cfg, a, winner, loser,
                            OwnedIn(bonds, winner), OwnedIn(bonds, loser), remainder, rewards, SumMap(rewards))
  {
    hide SumMap, OwnedIn, Posted;
    assert Free(f, a) == Free(u.ledger, a) - (if a == loser then remainder else 0)
                                           + (if a == cfg.arbitrator then remainder else 0);
    assert Reserved(u.ledger, a) == Reserved(l, a) - OwnedIn(bonds, a);
  }

  lemma ThreeStages(cfg: Config, l: Ledger, u: Purse, f: Ledger, m: Ledger, winner: AccountId, loser: AccountId,
                    bonds: map<nat, Bond>, remainder: Balance, rewards: map<AccountId, Balance>)
    requires winner != cfg.arbitrator && loser != cfg.arbitrator && cfg.arbitrator !in rewards
    requires Posted(bonds) == OwnedIn(bonds, winner) + OwnedIn(bonds, loser)
    requires BondsMoved(cfg, Purse(l, 0), u, bonds, winner)
    requires CostsMoved(cfg, u.ledger, f, loser, remainder)
    requires RewardsPaid(cfg, f, m, rewards)
    ensures Settled(cfg, l, m, winner, loser, bonds, remainder, rewards)
    ensures u.slashed == OwnedIn(bonds, loser)
  {
    hide SumMap, OwnedIn, Posted, NetGain;
    forall a ensures Reserved(m, a) == Reserved(l, a) - OwnedIn(bonds, a)
                  && Free(m, a) == Free(l, a) + NetGain(cfg, a, winner, loser,
                       OwnedIn(bonds, winner), OwnedIn(bonds, loser), remainder, rewards, SumMap(rewards))
    {
      ThreeStagesFor(cfg, l, u, f, m, winner, loser, bonds, remainder, rewards, a);
    }
  }

  ghost predicate Settleable(cfg: Config, l: Ledger, arb: ArbStore, id: ProjectId, winner: AccountId,
                             loser: AccountId) {
    && winner != cfg.arbitrator && loser != cfg.arbitrator
    && ReservesCover(l, Prefix(arb.bonds, id))
    && Posted(Prefix(arb.bonds, id)) <= cfg.maxBalance
    && (forall r :: r in Prefix(arb.bonds, id) ==>
          Prefix(arb.bonds, id)[r].owner == winner || Prefix(arb.bonds, id)[r].owner == loser)
    && cfg.arbitrator !in Prefix(arb.rewards, id)
    && Unlocked(l, cfg.arbitrator)
  }

  /**
    A settlement between distinct parties succeeds exactly when what was collected, on top of
    what the pallet already had, pays the rewards. Then every bond of the winner is free again;
    the loser gives up the slashed bonds and, if the transfer of the remainder succeeds, the
    larger of slashed bonds and costs; each juror gets exactly the reward; and neither the sum
    of the balances nor the issuance changes.
  */
  lemma SettlementAccounts(cfg: Config, l: Ledger, arb: ArbStore, id: ProjectId, winner: AccountId, loser: AccountId)
    requires winner != loser && Settleable(cfg, l, arb, id, winner, loser)
    ensures var bonds, rewards, costs := Prefix(arb.bonds, id), Prefix(arb.rewards, id), Get(arb.costs, id);
      var slashed := OwnedIn(bonds, loser);
      var transferred := PaysRemainder(cfg, AfterBonds(cfg, l, bonds, winner), loser, costs);
      var remainder := Remainder(costs, slashed, transferred);
      var r := AfterPayouts(cfg, l, arb, id, winner, loser);
      && (r.Ok? <==> SumMap(rewards) <= Free(l, cfg.arbitrator) + slashed + remainder)
      && (r.Ok? ==> Settled(cfg, l, r.value, winner, loser, bonds, remainder, rewards))
      && (r.Err? ==> r == Err(PaymentFailed))
      && (transferred ==> slashed + remainder == Max(slashed, costs))
  {
    var bonds, rewards, costs := Prefix(arb.bonds, id), Prefix(arb.rewards, id), Get(arb.costs, id);
    var purse := AfterBonds(cfg, l, bonds, winner);
    BondsSettle(cfg, Purse(l, 0), bonds, winner);
    TwoOwners(bonds, winner, loser);
    hide AfterBonds, AfterCosts, AfterRewards, PaysRemainder, FoldSet, RewardsPaid, Settled;
    var funded := AfterCosts(cfg, purse, loser, costs);
    CostsSettle(cfg, purse, loser, costs);
    RewardsSettle(cfg, funded, rewards);
    var remainder := Remainder(costs, purse.slashed, PaysRemainder(cfg, purse, loser, costs));
    if AfterRewards(cfg, funded, rewards).Ok? {
      ThreeStages(cfg, l, purse, funded, AfterRewards(cfg, funded, rewards).value, winner, loser, bonds, remainder,
                  rewards);
    }
  }

  lemma {:induction false} TwoOwners(bonds: map<nat, Bond>, winner: AccountId, loser: AccountId)
    requires winner != loser
    requires forall r :: r in bonds ==> bonds[r].owner == winner || bonds[r].owner == loser
    ensures Posted(bonds) == OwnedIn(bonds, winner) + OwnedIn(bonds, loser)
    decreases |bonds|
  {
    if bonds == map[] {
      NoBonds(winner);
      NoBonds(loser);
    } else {
      var r :| r in bonds;
      OwnedWithout(bonds, r, winner);
      OwnedWithout(bonds, r, loser);
      TwoOwners(bonds - {r}, winner, loser);
    }
  }
}
