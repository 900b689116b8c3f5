/**
  The escrow locks: one per live project, of exactly its budget, under an id no other project
  shares; and the one situation in which a closed project keeps its lock.
*/
module Escrow {
  import opened Prelude
  import opened Types
  import opened Currency
  import opened Projects
  import opened Arbitration
  import opened DisputeProtocol

  /** The bytes give the project id back. */
  lemma LockIdRoundTrip(id: ProjectId)
    requires id < PROJECT_IDS
    ensures LockOwner(LockIdOf(id)) == id
  {
    var lock := LockIdOf(id);
    assert lock[4..] == Encoded(id);
    var a, b, c := id / 0x100, id / 0x1_0000, id / 0x100_0000;
    assert b == a / 0x100 && c == b / 0x100;
  }

  lemma LockIdsInjective(i: ProjectId, j: ProjectId)
    requires i < PROJECT_IDS && j < PROJECT_IDS && LockIdOf(i) == LockIdOf(j)
    ensures i == j
  {
    LockIdRoundTrip(i);
    LockIdRoundTrip(j);
  }

  predicate Live(p: Project) {
    p.status in {Created, InProgress, InReview, Rejected, InDispute}
  }

  /** The dispute was enforced for the client. */
  predicate ClientWon(d: Option<Dispute>) {
    d.Some? && d.value.status == Finalized && d.value.ruling == Some(ClientWins)
  }

  function LockOn(l: Ledger, id: ProjectId, p: Project): Option<Balance> {
    Lookup(l.locks, (p.client, LockIdOf(id)))
  }

  /** What the lock of a project should be. */
  function ExpectedLock(p: Project, d: Option<Dispute>): Option<Balance> {
    if p.budget > 0 && (Live(p) || ClientWon(d)) then Some(p.budget) else None
  }

  ghost predicate LocksMatch(s: State) {
    forall id :: id in s.proj.projects ==>
      LockOn(s.ledger, id, s.proj.projects[id]) == ExpectedLock(s.proj.projects[id], Lookup(s.arb.disputes, id))
  }

  /** Every lock is some project's lock on its client. */
  ghost predicate NoStrayLocks(s: State) {
    forall k :: k in s.ledger.locks ==>
      && LockOwner(k.1) in s.proj.projects
      && k == (s.proj.projects[LockOwner(k.1)].client, LockIdOf(LockOwner(k.1)))
  }

  ghost predicate EscrowOk(s: State) {
    LocksMatch(s) && NoStrayLocks(s)
  }

  ghost predicate IdsInRange(s: State) {
    forall id :: id in s.proj.projects ==> id < PROJECT_IDS
  }

  /** Only the entry of project `id` may differ. */
  ghost predicate OnlyLock(s: State, t: State, id: ProjectId, client: AccountId) {
    forall k :: k != (client, LockIdOf(id)) ==> Lookup(t.ledger.locks, k) == Lookup(s.ledger.locks, k)
  }

  /** A step on one project that leaves that project's lock right leaves every lock right. */
  lemma EscrowKept(s: State, t: State, id: ProjectId)
    requires EscrowOk(s) && IdsInRange(s) && IdsInRange(t)
    requires OnlyCase(s, t, id) && id in t.proj.projects
    requires id in s.proj.projects ==> s.proj.projects[id].client == t.proj.projects[id].client
    requires OnlyLock(s, t, id, t.proj.projects[id].client)
    requires LockOn(t.ledger, id, t.proj.projects[id]) == ExpectedLock(t.proj.projects[id], Lookup(t.arb.disputes, id))
    ensures EscrowOk(t)
  {
    forall j | j in t.proj.projects
      ensures LockOn(t.ledger, j, t.proj.projects[j]) == ExpectedLock(t.proj.projects[j], Lookup(t.arb.disputes, j))
    {
      if j != id {
        OtherCase(s, t, id, j);
        if LockIdOf(j) == LockIdOf(id) {
          LockIdsInjective(j, id);
        }
      }
    }
    forall k | k in t.ledger.locks
      ensures LockOwner(k.1) in t.proj.projects
      ensures k == (t.proj.projects[LockOwner(k.1)].client, LockIdOf(LockOwner(k.1)))
    {
      LockIdRoundTrip(id);
      if k != (t.proj.projects[id].client, LockIdOf(id)) {
        assert Lookup(t.ledger.locks, k) == Lookup(s.ledger.locks, k);
        assert k in s.ledger.locks;
        if LockOwner(k.1) != id {
          OtherCase(s, t, id, LockOwner(k.1));
        }
      }
    }
  }

  lemma OtherCase(s: State, t: State, id: ProjectId, j: ProjectId)
    requires OnlyCase(s, t, id) && j != id
    ensures Lookup(t.proj.projects, j) == Lookup(s.proj.projects, j)
    ensures Lookup(t.arb.disputes, j) == Lookup(s.arb.disputes, j)
  {
    assert CaseOf(t, j) == CaseOf(s, j);
  }

  /** No project, no dispute and no lock differs. */
  lemma EscrowUntouched(s: State, t: State)
    requires EscrowOk(s)
    requires t.proj.projects == s.proj.projects && t.arb.disputes == s.arb.disputes && t.ledger.locks == s.ledger.locks
    ensures EscrowOk(t)
  {
    forall id | id in t.proj.projects
      ensures LockOn(t.ledger, id, t.proj.projects[id]) == ExpectedLock(t.proj.projects[id], Lookup(t.arb.disputes, id))
    {
      assert LockOn(s.ledger, id, s.proj.projects[id]) == ExpectedLock(s.proj.projects[id], Lookup(s.arb.disputes, id));
    }
  }
}
