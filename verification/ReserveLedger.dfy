/**
  What the appeal bonds on record say an account must have reserved, over all projects.
*/
module ReserveLedger {
  import opened Prelude
  import opened Types
  import opened Currency
  import opened Reputation
  import opened Arbitration
  import opened Settlement
  import opened JurorIndex

  ghost function OwnedPerProject(bonds: map<ProjectId, map<nat, Bond>>, who: AccountId): map<ProjectId, nat> {
    map id | id in bonds :: OwnedIn(bonds[id], who)
  }

  /** All bonds of one account, over all projects and rounds. */
  ghost function BondsOwed(bonds: map<ProjectId, map<nat, Bond>>, who: AccountId): nat {
    SumMap(OwnedPerProject(bonds, who))
  }

  /**
    The reserve ledger: the reserved balance of every account is its stake plus its bonds, no
    more and no less.
  */
  ghost predicate ReservesExact(s: State) {
    forall a :: Reserved(s.ledger, a) == StakeOf(s.rep, a) + BondsOwed(s.arb.bonds, a)
  }

  lemma OwnedPrefix(bonds: map<ProjectId, map<nat, Bond>>, id: ProjectId, who: AccountId)
    ensures Get(OwnedPerProject(bonds, who), id) == OwnedIn(Prefix(bonds, id), who)
    ensures OwnedIn(Prefix(bonds, id), who) <= BondsOwed(bonds, who)
  {
    NoBonds(who);
    SumDrop(OwnedPerProject(bonds, who), id);
  }

  lemma BondPosted(bonds: map<ProjectId, map<nat, Bond>>, id: ProjectId, round: nat, b: Bond, who: AccountId)
    requires round !in Prefix(bonds, id)
    ensures BondsOwed(bonds[id := Prefix(bonds, id)[round := b]], who) == BondsOwed(bonds, who) + Share(b, who)
  {
    var inner := Prefix(bonds, id)[round := b];
    OwnedWith(Prefix(bonds, id), round, b, who);
    OwnedPrefix(bonds, id, who);
    SumPut(OwnedPerProject(bonds, who), id, OwnedIn(inner, who));
    assert OwnedPerProject(bonds[id := inner], who) == OwnedPerProject(bonds, who)[id := OwnedIn(inner, who)];
  }

  lemma BondsCleared(bonds: map<ProjectId, map<nat, Bond>>, id: ProjectId, who: AccountId)
    ensures BondsOwed(bonds - {id}, who) == BondsOwed(bonds, who) - OwnedIn(Prefix(bonds, id), who)
  {
    OwnedPrefix(bonds, id, who);
    SumDrop(OwnedPerProject(bonds, who), id);
    assert OwnedPerProject(bonds - {id}, who) == OwnedPerProject(bonds, who) - {id};
  }

  /** A step that moves neither bonds nor slack keeps the ledger exact. */
  lemma ReservesUntouched(s: State, t: State)
    requires ReservesExact(s) && t.arb.bonds == s.arb.bonds
    requires SameSlack(RepWorld(s.ledger, s.rep), RepWorld(t.ledger, t.rep))
    ensures ReservesExact(t)
  {
    forall a ensures Reserved(t.ledger, a) == StakeOf(t.rep, a) + BondsOwed(t.arb.bonds, a) {
      assert Slack(RepWorld(t.ledger, t.rep), a) == Slack(RepWorld(s.ledger, s.rep), a);
    }
  }

  /** Posting one bond out of the owner's free balance keeps the ledger exact. */
  lemma ReservesPosted(s: State, t: State, id: ProjectId, round: nat, b: Bond)
    requires ReservesExact(s) && round !in Prefix(s.arb.bonds, id)
    requires t.arb.bonds == s.arb.bonds[id := Prefix(s.arb.bonds, id)[round := b]]
    requires forall a :: Slack(RepWorld(t.ledger, t.rep), a)
                      == Slack(RepWorld(s.ledger, s.rep), a) + (if a == b.owner then b.amount else 0)
    ensures ReservesExact(t)
  {
    forall a ensures Reserved(t.ledger, a) == StakeOf(t.rep, a) + BondsOwed(t.arb.bonds, a) {
      BondPosted(s.arb.bonds, id, round, b, a);
      assert Slack(RepWorld(t.ledger, t.rep), a)
          == Slack(RepWorld(s.ledger, s.rep), a) + (if a == b.owner then b.amount else 0);
    }
  }

  /** Settling and clearing one project's bonds keeps the ledger exact for all the others. */
  lemma ReservesSettled(s: State, t: State, id: ProjectId)
    requires ReservesExact(s)
    requires t.arb.bonds == s.arb.bonds - {id}
    requires forall a :: Slack(RepWorld(t.ledger, t.rep), a)
                      == Slack(RepWorld(s.ledger, s.rep), a) - OwnedIn(Prefix(s.arb.bonds, id), a)
    ensures ReservesExact(t)
  {
    forall a ensures Reserved(t.ledger, a) == StakeOf(t.rep, a) + BondsOwed(t.arb.bonds, a) {
      BondsCleared(s.arb.bonds, id, a);
      assert Slack(RepWorld(t.ledger, t.rep), a)
          == Slack(RepWorld(s.ledger, s.rep), a) - OwnedIn(Prefix(s.arb.bonds, id), a);
    }
  }

  /** An exact ledger covers every bond and every stake, also those of one account in several roles. */
  lemma NothingComesUpShort(s: State, who: AccountId, id: ProjectId)
    requires ReservesExact(s)
    ensures StakeOf(s.rep, who) + OwnedIn(Prefix(s.arb.bonds, id), who) <= Reserved(s.ledger, who)
  {
    OwnedPrefix(s.arb.bonds, id, who);
  }
}
