/**
  What every project and arbitration call does to the balances, the stakes and the locks.
*/
module Money {
  import opened Prelude
  import opened Types
  import opened Currency
  import opened Reputation
  import opened JurorIndex
  import opened JurorCalls
  import opened Projects
  import opened Arbitration

  function World(s: State): RepWorld {
    RepWorld(s.ledger, s.rep)
  }

  /** Stakes and other claims on the reserves as before, nothing created or lost. */
  ghost predicate MoneyKept(cfg: Config, w: RepWorld, v: RepWorld) {
    && JuryOk(cfg, v)
    && SameSlack(w, v)
    && Worth(v.ledger) == Worth(w.ledger)
    && v.ledger.issuance == w.ledger.issuance
    && (EveryJurorListed(w.rep) ==> EveryJurorListed(v.rep))
  }

  lemma LedgerKept(cfg: Config, w: RepWorld, l: Ledger)
    requires JuryOk(cfg, w)
    requires l.reserved == w.ledger.reserved && Worth(l) == Worth(w.ledger) && l.issuance == w.ledger.issuance
    ensures MoneyKept(cfg, w, RepWorld(l, w.rep))
  {
    SlackBacked(w, RepWorld(l, w.rep));
  }

  lemma ThenKept(cfg: Config, w: RepWorld, v: RepWorld, u: RepWorld)
    requires MoneyKept(cfg, w, v) && Kept(cfg, v, u)
    ensures MoneyKept(cfg, w, u) && u.ledger.locks == v.ledger.locks
  {
    forall a ensures Slack(u, a) == Slack(w, a) {
      assert Slack(v, a) == Slack(w, a);
    }
  }

  // ---------- project calls ----------

  lemma CreateProjectMoney(cfg: Config, now: BlockNumber, w: ProjWorld, client: AccountId,
                           budget: Balance, uri: Uri, duration: BlockNumber)
    requires JuryOk(cfg, w.Jury())
    requires AfterCreateProject(cfg, now, w, client, budget, uri, duration).Ok?
    ensures var v := AfterCreateProject(cfg, now, w, client, budget, uri, duration).value;
      && MoneyKept(cfg, w.Jury(), v.Jury())
      && v.ledger.locks == AfterSetLock(w.ledger, LockIdOf(w.proj.nextProjectId), client, budget).locks
  {
    var l := AfterSetLock(w.ledger, LockIdOf(w.proj.nextProjectId), client, budget);
    LedgerKept(cfg, w.Jury(), l);
    ProjectCreatedKeeps(cfg, now, RepWorld(l, w.rep), client, budget);
    ThenKept(cfg, w.Jury(), RepWorld(l, w.rep),
             AfterProjectCreated(cfg, now, RepWorld(l, w.rep), client, budget).value);
  }

  /** The escrow is opened and the budget moves from the client to the freelancer. */
  lemma PayoutMoney(cfg: Config, w: RepWorld, id: ProjectId, p: Project)
    requires JuryOk(cfg, w) && p.freelancer.Some?
    requires AfterTransfer(AfterRemoveLock(w.ledger, LockIdOf(id), p.client), p.client, p.freelancer.value,
                           p.budget).Ok?
    ensures var l := AfterTransfer(AfterRemoveLock(w.ledger, LockIdOf(id), p.client), p.client, p.freelancer.value,
                                   p.budget).value;
      MoneyKept(cfg, w, RepWorld(l, w.rep)) && l.locks == w.ledger.locks - {(p.client, LockIdOf(id))}
  {
    var unlocked := AfterRemoveLock(w.ledger, LockIdOf(id), p.client);
    TransferConserves(unlocked, p.client, p.freelancer.value, p.budget);
    LedgerKept(cfg, w, AfterTransfer(unlocked, p.client, p.freelancer.value, p.budget).value);
  }

  lemma AcceptWorkMoney(cfg: Config, now: BlockNumber, w: ProjWorld, client: AccountId, id: ProjectId, rating: nat)
    requires JuryOk(cfg, w.Jury())
    requires AfterAcceptWork(cfg, now, w, client, id, rating).Ok?
    ensures var v := AfterAcceptWork(cfg, now, w, client, id, rating).value;
      && MoneyKept(cfg, w.Jury(), v.Jury())
      && v.ledger.locks == w.ledger.locks - {(client, LockIdOf(id))}
  {
    var p := w.proj.projects[id];
    PayoutMoney(cfg, w.Jury(), id, p);
    var l := AfterTransfer(AfterRemoveLock(w.ledger, LockIdOf(id), p.client), p.client, p.freelancer.value,
                           p.budget).value;
    hide AfterTransfer, AfterProjectCompleted, AfterWorkAccepted, MoneyKept, Kept, JuryOk;
    assert JuryOk(cfg, RepWorld(l, w.rep)) by { MoneyKeptJury(cfg, w.Jury(), RepWorld(l, w.rep)); }
    ProjectCompletedKeeps(cfg, now, RepWorld(l, w.rep), p.freelancer.value, p.budget, rating * 1000);
    var j1 := AfterProjectCompleted(cfg, now, RepWorld(l, w.rep), p.freelancer.value, p.budget, rating * 1000).value;
    ThenKept(cfg, w.Jury(), RepWorld(l, w.rep), j1);
    MoneyKeptJury(cfg, w.Jury(), j1);
    WorkAcceptedKeeps(cfg, now, j1, client);
    ThenKept(cfg, w.Jury(), j1, AfterWorkAccepted(now, j1, client).value);
  }

  lemma MoneyKeptJury(cfg: Config, w: RepWorld, v: RepWorld)
    requires MoneyKept(cfg, w, v)
    ensures JuryOk(cfg, v)
  {
  }

  lemma CancelProjectMoney(cfg: Config, now: BlockNumber, w: ProjWorld, client: AccountId, id: ProjectId)
    requires JuryOk(cfg, w.Jury())
    requires AfterCancelProject(now, w, client, id).Ok?
    ensures var v := AfterCancelProject(now, w, client, id).value;
      && MoneyKept(cfg, w.Jury(), v.Jury())
      && v.ledger.locks == w.ledger.locks - {(client, LockIdOf(id))}
  {
    var l := AfterRemoveLock(w.ledger, LockIdOf(id), client);
    LedgerKept(cfg, w.Jury(), l);
    ProjectCancelledKeeps(cfg, now, RepWorld(l, w.rep), client);
    ThenKept(cfg, w.Jury(), RepWorld(l, w.rep), AfterProjectCancelled(now, RepWorld(l, w.rep), client).value);
  }

  lemma OnRulingMoney(cfg: Config, now: BlockNumber, w: ProjWorld, id: ProjectId, ruling: Ruling)
    requires JuryOk(cfg, w.Jury())
    requires AfterOnRuling(cfg, now, w, id, ruling).Ok?
    ensures var v := AfterOnRuling(cfg, now, w, id, ruling).value;
      && MoneyKept(cfg, w.Jury(), v.Jury())
      && v.ledger.locks == (if ruling == FreelancerWins
                            then w.ledger.locks - {(w.proj.projects[id].client, LockIdOf(id))} else w.ledger.locks)
  {
    var p := w.proj.projects[id];
    if ruling == FreelancerWins {
      PayoutMoney(cfg, w.Jury(), id, p);
      var l := AfterTransfer(AfterRemoveLock(w.ledger, LockIdOf(id), p.client), p.client, p.freelancer.value,
                             p.budget).value;
      hide AfterTransfer, AfterProjectCompleted;
      ProjectCompletedKeeps(cfg, now, RepWorld(l, w.rep), p.freelancer.value, p.budget, 3000);
      ThenKept(cfg, w.Jury(), RepWorld(l, w.rep),
               AfterProjectCompleted(cfg, now, RepWorld(l, w.rep), p.freelancer.value, p.budget, 3000).value);
    } else {
      hide AfterDisputeOutcome;
      DisputeOutcomeKeeps(cfg, now, w.Jury(), p.client, p.freelancer.value);
    }
  }

  // ---------- reserving a bond ----------

  /** One account's reserve now holds `amount` more than its stake; nothing else moved. */
  ghost predicate BondReserved(cfg: Config, w: RepWorld, v: RepWorld, who: AccountId, amount: Balance) {
    && JuryOk(cfg, v)
    && (forall a :: Slack(v, a) == Slack(w, a) + (if a == who then amount else 0))
    && Worth(v.ledger) == Worth(w.ledger)
    && v.ledger.issuance == w.ledger.issuance
    && v.ledger.locks == w.ledger.locks
    && (EveryJurorListed(w.rep) <==> EveryJurorListed(v.rep))
  }

  lemma ReserveMoney(cfg: Config, w: RepWorld, who: AccountId, amount: Balance, rep: RepStore)
    requires JuryOk(cfg, w) && AfterReserve(w.ledger, who, amount).Ok?
    requires rep == w.rep.(nextIndex := rep.nextIndex)
    ensures BondReserved(cfg, w, RepWorld(AfterReserve(w.ledger, who, amount).value, rep), who, amount)
  {
    var v := RepWorld(AfterReserve(w.ledger, who, amount).value, rep);
    ReserveConserves(w.ledger, who, amount);
    SameLists(cfg, w.rep, rep);
    forall a ensures Deserved(rep, a) && StatsBounded(StatsOf(rep, a)) {
      assert Deserved(w.rep, a) && StatsBounded(StatsOf(w.rep, a));
    }
    forall a ensures Slack(v, a) >= 0 && Slack(v, a) == Slack(w, a) + (if a == who then amount else 0) {
      assert Slack(w, a) >= 0;
    }
  }

  // ---------- the jury votes of one round ----------

  /** A vote among these, cast in order, whose promotion meets a full pool. */
  ghost predicate SomeJurorDropped(cfg: Config, now: BlockNumber, w: RepWorld, voters: seq<AccountId>,
                                   votes: map<AccountId, Vote>, ruling: Ruling)
    requires forall i :: 0 <= i < |voters| ==> voters[i] in votes
  {
    if voters == [] then false
    else
      var n := |voters| - 1;
      SomeJurorDropped(cfg, now, w, voters[..n], votes, ruling)
      || DropsJuror(cfg, AfterJuryVotes(cfg, now, w, voters[..n], votes, ruling).rep, voters[n])
  }

  lemma InPrefix(voters: seq<AccountId>, n: nat)
    requires Distinct(voters) && n < |voters|
    ensures voters[n] !in voters[..n]
    ensures forall a :: a in voters[..n] ==> a in voters
  {
  }

  /**
    Recording a whole round of votes keeps the index, the stakes and the money. Only a voter
    can come off the lists, and one does exactly when a promotion met a full pool.
  */
  lemma {:induction false} JuryVotesKeep(cfg: Config, now: BlockNumber, w: RepWorld, voters: seq<AccountId>,
                                         votes: map<AccountId, Vote>, ruling: Ruling)
    requires JuryOk(cfg, w) && Distinct(voters)
    requires forall i :: 0 <= i < |voters| ==> voters[i] in votes
    ensures var v := AfterJuryVotes(cfg, now, w, voters, votes, ruling);
      && JuryOk(cfg, v)
      && JuryStep(w, v)
      && (forall a :: a !in voters ==> (OffList(v.rep, a) <==> OffList(w.rep, a)))
      && (EveryJurorListed(w.rep) ==>
            (EveryJurorListed(v.rep) <==> !SomeJurorDropped(cfg, now, w, voters, votes, ruling)))
  {
    if voters != [] {
      var n := |voters| - 1;
      var v := AfterJuryVotes(cfg, now, w, voters[..n], votes, ruling);
      JuryVotesKeep(cfg, now, w, voters[..n], votes, ruling);
      InPrefix(voters, n);
      JuryVoteKeeps(cfg, now, v, voters[n], Agrees(votes[voters[n]], ruling));
      var u := AfterJuryVotes(cfg, now, w, voters, votes, ruling);
      assert u == AfterJuryVote(cfg, now, v, voters[n], Agrees(votes[voters[n]], ruling)).world;
      hide AfterJuryVote, JuryOk;
      if EveryJurorListed(w.rep) {
        assert !OffList(w.rep, voters[n]);
        if !EveryJurorListed(v.rep) {
          var a :| OffList(v.rep, a);
          assert OffList(u.rep, a);
        }
      }
      forall a ensures Slack(u, a) == Slack(w, a) && Holdings(u.ledger, a) == Holdings(w.ledger, a) {
        assert Slack(v, a) == Slack(w, a) && Holdings(v.ledger, a) == Holdings(w.ledger, a);
      }
    }
  }
}
