/**
  Whether the budget of a live project can be paid out of the client's free balance: exactly
  when a release succeeds, how it can come to fail, and what each kind of call does to free
  balances. `EscrowDrains` puts these together.
*/
module EscrowPayable {
  import opened Prelude
  import opened Types
  import opened Currency
  import opened Reputation
  import opened Projects
  import opened Arbitration
  import opened FeeTheorems
  import opened DisputeCalls
  import opened Money
  import opened Escrow
  import opened System
  import opened ChainSafety
  import opened EscrowFunding

  /** The client has the budget in free balance, which is what a release pays from. */
  predicate Payable(s: State, id: ProjectId) {
    id in s.proj.projects && s.proj.projects[id].budget <= Free(s.ledger, s.proj.projects[id].client)
  }

  /** With this budget paid, the client still covers every other lock. */
  predicate OtherLocksCovered(s: State, id: ProjectId)
    requires id in s.proj.projects
  {
    var p := s.proj.projects[id];
    forall k | k in s.ledger.locks && k.0 == p.client && k != (p.client, LockIdOf(id)) ::
      s.ledger.locks[k] <= Free(s.ledger, p.client) - p.budget + Reserved(s.ledger, p.client)
  }

  /** The payment a release of the escrow makes. */
  function Release(s: State, id: ProjectId): Result<Ledger, Error>
    requires id in s.proj.projects && s.proj.projects[id].freelancer.Some?
  {
    var p := s.proj.projects[id];
    AfterTransfer(AfterRemoveLock(s.ledger, LockIdOf(id), p.client), p.client, p.freelancer.value, p.budget)
  }

  /**
    A release succeeds exactly if there is nothing to move, or the budget is payable and leaves the
    other locks covered.
  */
  lemma ReleaseExactly(s: State, id: ProjectId)
    requires id in s.proj.projects && s.proj.projects[id].freelancer.Some?
    ensures var p := s.proj.projects[id];
      Release(s, id).Ok? <==>
        p.budget == 0 || p.client == p.freelancer.value || (Payable(s, id) && OtherLocksCovered(s, id))
  {
    hide LockIdOf;
    var p := s.proj.projects[id];
    var l := AfterRemoveLock(s.ledger, LockIdOf(id), p.client);
    assert forall k :: k in l.locks <==> k in s.ledger.locks && k != (p.client, LockIdOf(id));
  }

  // ---------- how reserved money lets the escrow run dry ----------

  /**
    A client may pay away free money as long as free and reserved together cover the locks.
    The project stays live and its lock in place, and the work can no longer be paid for.
  */
  lemma PaymentDrainsEscrow(cfg: Config, s: State, id: ProjectId, dst: AccountId, amount: Balance, rating: nat)
    requires id in s.proj.projects && 0 < rating <= 5
    requires var p := s.proj.projects[id];
      && p.status == InReview && p.submission.Some? && p.freelancer.Some? && p.freelancer.value != p.client
      && dst != p.client
      && amount <= Free(s.ledger, p.client) < amount + p.budget
      && CoversLocks(s.ledger, p.client, Free(s.ledger, p.client) - amount + Reserved(s.ledger, p.client))
    ensures var p := s.proj.projects[id]; var pay := Transfer(p.client, dst, amount);
      && Apply(cfg, s, pay).Ok?
      && (var t := Apply(cfg, s, pay).value;
          && t.proj == s.proj && t.ledger.locks == s.ledger.locks
          && !Payable(t, id)
          && Apply(cfg, t, AcceptWork(p.client, id, rating)) == Err(ProjectPaymentFailed))
  {
    hide LockIdOf, AfterProjectCompleted, AfterWorkAccepted;
    var p := s.proj.projects[id];
    var t := Apply(cfg, s, Transfer(p.client, dst, amount)).value;
    ReleaseExactly(t, id);
  }

  // ---------- free balances in one call ----------

  /** Releases only: free balances grow, reserved ones shrink, locks stay. */
  ghost predicate Releases(l: Ledger, m: Ledger) {
    && m.locks == l.locks
    && forall a :: Free(m, a) >= Free(l, a) && Reserved(m, a) <= Reserved(l, a)
  }

  lemma ReleasesTwice(l: Ledger, m: Ledger, n: Ledger)
    requires Releases(l, m) && Releases(m, n)
    ensures Releases(l, n)
  {
    forall a ensures Free(n, a) >= Free(l, a) && Reserved(n, a) <= Reserved(l, a) {
      assert Free(m, a) >= Free(l, a);
    }
  }

  /** A tier update can only release a stake, and only the account's own. */
  lemma UpdateReleases(cfg: Config, w: RepWorld, who: AccountId)
    ensures var m := AfterUpdateTier(cfg, w, who).world.ledger;
      Releases(w.ledger, m) && forall a :: a != who ==> Free(m, a) == Free(w.ledger, a)
  {
    hide TierFromStats, AfterRemoveFromTierList, AfterAddToTierList;
  }

  lemma CompletionReleases(cfg: Config, now: BlockNumber, w: RepWorld, freelancer: AccountId, value: Balance,
                           rating: nat)
    requires AfterProjectCompleted(cfg, now, w, freelancer, value, rating).Ok?
    ensures var m := AfterProjectCompleted(cfg, now, w, freelancer, value, rating).value.ledger;
      Releases(w.ledger, m) && forall a :: a != freelancer ==> Free(m, a) == Free(w.ledger, a)
  {
    hide StatsAfterCompletion, AfterUpdateTier;
    var s := StatsAfterCompletion(cfg, now, StatsOf(w.rep, freelancer), value, rating);
    UpdateReleases(cfg, AfterStats(w, freelancer, s).value, freelancer);
  }

  lemma OutcomeReleases(cfg: Config, now: BlockNumber, w: RepWorld, winner: AccountId, loser: AccountId)
    requires AfterDisputeOutcome(cfg, now, w, winner, loser).Ok?
    ensures var m := AfterDisputeOutcome(cfg, now, w, winner, loser).value.ledger;
      Releases(w.ledger, m) && forall a :: a != winner && a != loser ==> Free(m, a) == Free(w.ledger, a)
  {
    hide StatsAfterWin, StatsAfterLoss, AfterUpdateTier, Releases;
    var w1 := AfterStats(w, winner, StatsAfterWin(now, StatsOf(w.rep, winner))).value;
    var w2 := AfterStats(w1, loser, StatsAfterLoss(now, StatsOf(w1.rep, loser))).value;
    UpdateReleases(cfg, w2, winner);
    var w3 := AfterUpdateTier(cfg, w2, winner).world;
    UpdateReleases(cfg, w3, loser);
    ReleasesTwice(w2.ledger, w3.ledger, AfterUpdateTier(cfg, w3, loser).world.ledger);
  }

  lemma VoteReleases(cfg: Config, now: BlockNumber, w: RepWorld, juror: AccountId, withMajority: bool)
    ensures Releases(w.ledger, AfterJuryVote(cfg, now, w, juror, withMajority).world.ledger)
  {
    hide StatsAfterVote, AfterUpdateTier;
    var s := AfterStats(w, juror, StatsAfterVote(now, StatsOf(w.rep, juror), withMajority));
    if s.Ok? {
      UpdateReleases(cfg, s.value, juror);
    }
  }

  lemma {:induction false} VotesRelease(cfg: Config, now: BlockNumber, w: RepWorld, voters: seq<AccountId>,
                                        votes: map<AccountId, Vote>, ruling: Ruling)
    requires forall i :: 0 <= i < |voters| ==> voters[i] in votes
    ensures Releases(w.ledger, AfterJuryVotes(cfg, now, w, voters, votes, ruling).ledger)
  {
    if voters != [] {
      hide AfterJuryVote;
      var n := |voters| - 1;
      var v := AfterJuryVotes(cfg, now, w, voters[..n], votes, ruling);
      VotesRelease(cfg, now, w, voters[..n], votes, ruling);
      VoteReleases(cfg, now, v, voters[n], Agrees(votes[voters[n]], ruling));
      ReleasesTwice(w.ledger, v.ledger, AfterJuryVotes(cfg, now, w, voters, votes, ruling).ledger);
    }
  }

  /** A reservation never eats into a lock, whatever else is reserved. */
  lemma ReserveSparesLock(l: Ledger, src: AccountId, amount: Balance, k: (AccountId, LockId))
    requires AfterReserve(l, src, amount).Ok?
    requires k in l.locks && l.locks[k] <= Free(l, k.0)
    ensures l.locks[k] <= Free(AfterReserve(l, src, amount).value, k.0)
  {
  }

  /** A transfer spares the free part of a lock if it is somebody else's, or nothing is reserved. */
  lemma TransferSparesLock(l: Ledger, src: AccountId, dst: AccountId, amount: Balance, k: (AccountId, LockId))
    requires AfterTransfer(l, src, dst, amount).Ok?
    requires k in l.locks && l.locks[k] <= Free(l, k.0)
    requires src == k.0 ==> Reserved(l, src) == 0
    ensures var m := AfterTransfer(l, src, dst, amount).value;
      l.locks[k] <= Free(m, k.0) && m.locks == l.locks && m.reserved == l.reserved
  {
  }

  /** Exactly what a payment leaves in the sender's free balance. */
  lemma TransferLeaves(l: Ledger, src: AccountId, dst: AccountId, amount: Balance)
    requires AfterTransfer(l, src, dst, amount).Ok?
    ensures Free(AfterTransfer(l, src, dst, amount).value, src) == Free(l, src) - (if src == dst then 0 else amount)
  {
  }

  // ---------- calls that pay nothing for the client ----------

  /** The lock of a live project, and the free balance behind it. */
  ghost predicate Backed(l: Ledger, k: (AccountId, LockId), budget: Balance) {
    k in l.locks && l.locks[k] == budget && budget <= Free(l, k.0)
  }

  lemma LiveBacked(s: State, id: ProjectId)
    requires EscrowOk(s) && LiveProject(s, id) && Payable(s, id) && s.proj.projects[id].budget > 0
    ensures Backed(s.ledger, (s.proj.projects[id].client, LockIdOf(id)), s.proj.projects[id].budget)
  {
    hide LockIdOf, EscrowOk;
    LockOfLive(s, id);
  }

  lemma ReputationCallsSpareLock(cfg: Config, s: State, c: Call, k: (AccountId, LockId), budget: Balance)
    requires IsReputationCall(c) && Apply(cfg, s, c).Ok? && Backed(s.ledger, k, budget)
    ensures budget <= Free(Apply(cfg, s, c).value.ledger, k.0)
  {
    hide TierFromStats, AfterRemoveFromTierList, AfterAddToTierList, PermillOf, AfterReserve;
    if c.RegisterAsJuror? {
      ReserveSparesLock(s.ledger, c.who, s.rep.jurorStake, k);
    }
  }

  /** Project calls move free balances only when work is accepted. */
  lemma OtherProjectCallsSpare(cfg: Config, s: State, c: Call, who: AccountId)
    requires IsProjectCall(c) && !c.AcceptWork? && Apply(cfg, s, c).Ok?
    ensures Free(Apply(cfg, s, c).value.ledger, who) == Free(s.ledger, who)
  {
    hide LockIdOf;
    assert Apply(cfg, s, c).value.ledger.free == s.ledger.free;
  }

  lemma DisputeCallsSpareLock(cfg: Config, s: State, c: Call, k: (AccountId, LockId), budget: Balance)
    requires IsArbitrationCall(c) && !c.EnforceFinalRuling? && Apply(cfg, s, c).Ok? && Backed(s.ledger, k, budget)
    ensures budget <= Free(Apply(cfg, s, c).value.ledger, k.0)
  {
    hide AfterReserve, BondOf, AfterCreateDispute, AfterAppealRuling, AfterFinalizeRound;
    match c {
      case CreateDispute(who, id) =>
        CreateDisputeMoney(cfg, s, who, id);
        ReserveSparesLock(s.ledger, who, BondOf(cfg, s.proj.projects[id].budget, 1), k);
      case AppealRuling(who, id) =>
        var p, d, jury := AppealSucceeded(cfg, s, who, id);
        ReserveSparesLock(s.ledger, who, BondOf(cfg, p.budget, d.round + 1), k);
      case FinalizeRound(_, id) =>
        FinalizeFacts(cfg, s, id);
        var d := s.arb.disputes[id];
        VotesRelease(cfg, s.now, World(s), VoteOrder(d.votes), d.votes, RoundRuling(d.votes));
      case _ =>
    }
  }

  // ---------- accepting work ----------

  /** What accepting one project's work does to every free balance. */
  lemma AcceptFree(cfg: Config, s: State, c: Call, who: AccountId)
    requires c.AcceptWork? && Apply(cfg, s, c).Ok?
    ensures c.id in s.proj.projects && s.proj.projects[c.id].freelancer.Some?
    ensures var q := s.proj.projects[c.id]; var f := q.freelancer.value;
      var free := Free(Apply(cfg, s, c).value.ledger, who);
      && q.client == c.who
      && (who != c.who || f == c.who ==> free >= Free(s.ledger, who))
      && (who == c.who && f != c.who ==> free == Free(s.ledger, who) - q.budget)
  {
    hide LockIdOf, AfterProjectCompleted, AfterTransfer;
    var q := s.proj.projects[c.id];
    var f := q.freelancer.value;
    var unlocked := AfterRemoveLock(s.ledger, LockIdOf(c.id), q.client);
    var l := AfterTransfer(unlocked, q.client, f, q.budget).value;
    CompletionReleases(cfg, s.now, RepWorld(l, s.rep), f, q.budget, c.rating * 1000);
    TransferLeaves(unlocked, q.client, f, q.budget);
    if who != c.who {
      TransferGives(unlocked, q.client, f, q.budget, who);
    }
  }

  lemma TransferGives(l: Ledger, src: AccountId, dst: AccountId, amount: Balance, who: AccountId)
    requires AfterTransfer(l, src, dst, amount).Ok? && who != src
    ensures Free(AfterTransfer(l, src, dst, amount).value, who) >= Free(l, who)
  {
  }
}
