/**
  The currency the pallets move: free and reserved balances, locks keyed by account and lock
  id, and the total issuance. The existential deposit is zero.
*/
module Currency {
  import opened Prelude
  import opened Types

  type LockId = seq<nat>

  datatype Ledger = Ledger(
    free: map<AccountId, Balance>,
    reserved: map<AccountId, Balance>,
    locks: map<(AccountId, LockId), Balance>,
    issuance: nat)

  function Free(l: Ledger, who: AccountId): Balance {
    Get(l.free, who)
  }

  function Reserved(l: Ledger, who: AccountId): Balance {
    Get(l.reserved, who)
  }

  /** Locks overlay: an account must keep the largest of its locks, not their sum. */
  predicate CoversLocks(l: Ledger, who: AccountId, kept: Balance) {
    forall k | k in l.locks && k.0 == who :: l.locks[k] <= kept
  }

  function AfterReserve(l: Ledger, who: AccountId, amount: Balance): Result<Ledger, Error> {
    if amount == 0 then Ok(l)
    else if Free(l, who) < amount then Err(InsufficientBalance)
    else if !CoversLocks(l, who, Free(l, who) - amount) then Err(LiquidityRestrictions)
    else Ok(l.(free := l.free[who := Free(l, who) - amount],
               reserved := l.reserved[who := Reserved(l, who) + amount]))
  }

  /** Moves what is there: the shortfall is returned to the caller, who ignores it. */
  function AfterUnreserve(l: Ledger, who: AccountId, amount: Balance): Ledger {
    var moved := Min(amount, Reserved(l, who));
    l.(free := l.free[who := Free(l, who) + moved],
       reserved := l.reserved[who := Reserved(l, who) - moved])
  }

  /** The slashed amount leaves the account as an imbalance that is still part of the issuance. */
  function AfterSlashReserved(l: Ledger, who: AccountId, amount: Balance): (Ledger, Balance) {
    var slashed := Min(amount, Reserved(l, who));
    (l.(reserved := l.reserved[who := Reserved(l, who) - slashed]), slashed)
  }

  function AfterDepositCreating(l: Ledger, who: AccountId, amount: Balance): Ledger {
    l.(free := l.free[who := Free(l, who) + amount], issuance := l.issuance + amount)
  }

  /** Dropping a negative imbalance takes it out of the issuance. */
  function AfterDropImbalance(l: Ledger, amount: Balance): Ledger {
    l.(issuance := SatSub(l.issuance, amount))
  }

  function AfterTransfer(l: Ledger, src: AccountId, dst: AccountId, amount: Balance): Result<Ledger, Error> {
    if amount == 0 || src == dst then Ok(l)
    else if Free(l, src) < amount then Err(InsufficientBalance)
    else if !CoversLocks(l, src, Free(l, src) - amount + Reserved(l, src)) then Err(LiquidityRestrictions)
    else Ok(l.(free := l.free[src := Free(l, src) - amount][dst := Free(l, dst) + amount]))
  }

  /** A zero amount sets no lock and does not touch an existing one. */
  function AfterSetLock(l: Ledger, id: LockId, who: AccountId, amount: Balance): Ledger {
    if amount == 0 then l else l.(locks := l.locks[(who, id) := amount])
  }

  function AfterRemoveLock(l: Ledger, id: LockId, who: AccountId): Ledger {
    l.(locks := l.locks - {(who, id)})
  }

  /** What all accounts hold together. */
  ghost function Worth(l: Ledger): nat {
    SumMap(l.free) + SumMap(l.reserved)
  }

  /** What one account has, whether reserved or not. */
  function Holdings(l: Ledger, who: AccountId): Balance {
    Free(l, who) + Reserved(l, who)
  }

  /** Nothing is held that was not issued, and nothing issued is unaccounted for. */
  ghost predicate Balanced(l: Ledger) {
    l.issuance == Worth(l)
  }

  lemma ReserveConserves(l: Ledger, who: AccountId, amount: Balance)
    requires AfterReserve(l, who, amount).Ok?
    ensures Worth(AfterReserve(l, who, amount).value) == Worth(l)
  {
    SumPut(l.free, who, Free(l, who) - amount);
    SumPut(l.reserved, who, Reserved(l, who) + amount);
  }

  lemma UnreserveConserves(l: Ledger, who: AccountId, amount: Balance)
    ensures Worth(AfterUnreserve(l, who, amount)) == Worth(l)
  {
    var moved := Min(amount, Reserved(l, who));
    SumPut(l.free, who, Free(l, who) + moved);
    SumPut(l.reserved, who, Reserved(l, who) - moved);
  }

  lemma TransferConserves(l: Ledger, src: AccountId, dst: AccountId, amount: Balance)
    requires AfterTransfer(l, src, dst, amount).Ok?
    ensures Worth(AfterTransfer(l, src, dst, amount).value) == Worth(l)
  {
    if amount != 0 && src != dst {
      var paid := l.free[src := Free(l, src) - amount];
      SumPut(l.free, src, Free(l, src) - amount);
      SumPut(paid, dst, Free(l, dst) + amount);
    }
  }

  /** Slashing burns exactly what it reports. */
  lemma SlashBurns(l: Ledger, who: AccountId, amount: Balance)
    ensures Worth(AfterSlashReserved(l, who, amount).0) == Worth(l) - AfterSlashReserved(l, who, amount).1
    ensures AfterSlashReserved(l, who, amount).1 <= Worth(l)
  {
    var slashed := Min(amount, Reserved(l, who));
    SumPut(l.reserved, who, Reserved(l, who) - slashed);
  }

  lemma DepositAdds(l: Ledger, who: AccountId, amount: Balance)
    ensures Worth(AfterDepositCreating(l, who, amount)) == Worth(l) + amount
  {
    SumPut(l.free, who, Free(l, who) + amount);
  }

  /** The currency's storage, updated in place. */
  class Balances {
    var free: map<AccountId, Balance>
    var reserved: map<AccountId, Balance>
    var locks: map<(AccountId, LockId), Balance>
    var issuance: nat

    function Store(): Ledger
      reads this
    {
      Ledger(free, reserved, locks, issuance)
    }

    constructor (l: Ledger)
      ensures Store() == l
    {
      free, reserved, locks, issuance := l.free, l.reserved, l.locks, l.issuance;
    }

    /** The storage layer's rollback. */
    method Restore(l: Ledger)
      modifies this
      ensures Store() == l
    {
      free, reserved, locks, issuance := l.free, l.reserved, l.locks, l.issuance;
    }

    method Reserve(who: AccountId, amount: Balance) returns (r: Result<(), Error>)
      modifies this
      ensures match AfterReserve(old(Store()), who, amount)
              case Ok(l) => r == Ok(()) && Store() == l
              case Err(e) => r == Err(e)
    {
      if amount == 0 {
        return Ok(());
      }
      var available := Get(free, who);
      if available < amount {
        return Err(InsufficientBalance);
      }
      if exists k | k in locks && k.0 == who :: available - amount < locks[k] {
        return Err(LiquidityRestrictions);
      }
      free := free[who := available - amount];
      reserved := reserved[who := Get(reserved, who) + amount];
      return Ok(());
    }

    method Unreserve(who: AccountId, amount: Balance) returns (shortfall: Balance)
      modifies this
      ensures Store() == AfterUnreserve(old(Store()), who, amount)
      ensures shortfall == SatSub(amount, Reserved(old(Store()), who))
    {
      var moved := Min(amount, Get(reserved, who));
      free := free[who := Get(free, who) + moved];
      reserved := reserved[who := Get(reserved, who) - moved];
      shortfall := amount - moved;
    }

    method SlashReserved(who: AccountId, amount: Balance) returns (imbalance: Balance)
      modifies this
      ensures (Store(), imbalance) == AfterSlashReserved(old(Store()), who, amount)
    {
      imbalance := Min(amount, Get(reserved, who));
      reserved := reserved[who := Get(reserved, who) - imbalance];
    }

    method DepositCreating(who: AccountId, amount: Balance)
      modifies this
      ensures Store() == AfterDepositCreating(old(Store()), who, amount)
    {
      free := free[who := Get(free, who) + amount];
      issuance := issuance + amount;
    }

    method DropImbalance(amount: Balance)
      modifies this
      ensures Store() == AfterDropImbalance(old(Store()), amount)
    {
      issuance := SatSub(issuance, amount);
    }

    method Transfer(src: AccountId, dst: AccountId, amount: Balance) returns (r: Result<(), Error>)
      modifies this
      ensures match AfterTransfer(old(Store()), src, dst, amount)
              case Ok(l) => r == Ok(()) && Store() == l
              case Err(e) => r == Err(e) && Store() == old(Store())
    {
      if amount == 0 || src == dst {
        return Ok(());
      }
      var available := Get(free, src);
      if available < amount {
        return Err(InsufficientBalance);
      }
      if exists k | k in locks && k.0 == src :: available - amount + Get(reserved, src) < locks[k] {
        return Err(LiquidityRestrictions);
      }
      free := free[src := available - amount];
      free := free[dst := Get(free, dst) + amount];
      return Ok(());
    }

    method SetLock(id: LockId, who: AccountId, amount: Balance)
      modifies this
      ensures Store() == AfterSetLock(old(Store()), id, who, amount)
    {
      if amount != 0 {
        locks := locks[(who, id) := amount];
      }
    }

    method RemoveLock(id: LockId, who: AccountId)
      modifies this
      ensures Store() == AfterRemoveLock(old(Store()), id, who)
    {
      locks := locks - {(who, id)};
    }
  }
}
