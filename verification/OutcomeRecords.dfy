/**
  What an enforced dispute leaves in the parties' statistics, and how often.
*/
module OutcomeRecords {
  import opened Prelude
  import opened Types
  import opened Currency
  import opened Reputation
  import opened Projects
  import opened Arbitration
  import opened Money
  import opened ChainSafety

  /** A tier update writes no statistics. */
  lemma UpdateWritesNoStats(cfg: Config, w: RepWorld, who: AccountId)
    ensures AfterUpdateTier(cfg, w, who).world.rep.stats == w.rep.stats
  {
  }

  lemma CompletionRecord(cfg: Config, now: BlockNumber, w: RepWorld, freelancer: AccountId, value: Balance, rating: nat)
    requires AfterProjectCompleted(cfg, now, w, freelancer, value, rating).Ok?
    ensures AfterProjectCompleted(cfg, now, w, freelancer, value, rating).value.rep.stats
         == w.rep.stats[freelancer := StatsAfterCompletion(cfg, now, StatsOf(w.rep, freelancer), value, rating)]
  {
    hide StatsAfterCompletion, AfterUpdateTier;
    var w1 := AfterStats(w, freelancer,
                         StatsAfterCompletion(cfg, now, StatsOf(w.rep, freelancer), value, rating)).value;
    UpdateWritesNoStats(cfg, w1, freelancer);
  }

  lemma OutcomeRecord(cfg: Config, now: BlockNumber, w: RepWorld, winner: AccountId, loser: AccountId)
    requires winner != loser
    requires AfterDisputeOutcome(cfg, now, w, winner, loser).Ok?
    ensures AfterDisputeOutcome(cfg, now, w, winner, loser).value.rep.stats
         == w.rep.stats[winner := StatsAfterWin(now, StatsOf(w.rep, winner))]
                       [loser := StatsAfterLoss(now, StatsOf(w.rep, loser))]
  {
    hide StatsAfterWin, StatsAfterLoss, AfterUpdateTier;
    var w1 := AfterStats(w, winner, StatsAfterWin(now, StatsOf(w.rep, winner))).value;
    var w2 := AfterStats(w1, loser, StatsAfterLoss(now, StatsOf(w1.rep, loser))).value;
    UpdateWritesNoStats(cfg, w2, winner);
    UpdateWritesNoStats(cfg, AfterUpdateTier(cfg, w2, winner).world, loser);
  }

  /** How often an enforced ruling is counted for and against the parties. */
  function Counted(ruling: Ruling): nat {
    if ruling == ClientWins then 2 else 1
  }

  lemma RulingRecord(cfg: Config, s: State, id: ProjectId, ruling: Ruling)
    requires AfterOnRuling(cfg, s.now, s.Site(), id, ruling).Ok?
    requires id in s.proj.projects && s.proj.projects[id].freelancer.Some?
    requires s.proj.projects[id].freelancer.value != s.proj.projects[id].client
    ensures var p, rep := s.proj.projects[id], AfterOnRuling(cfg, s.now, s.Site(), id, ruling).value.rep;
      var f := p.freelancer.value;
      rep.stats == match ruling
        case FreelancerWins => s.rep.stats[f := StatsAfterCompletion(cfg, s.now, StatsOf(s.rep, f), p.budget, 3000)]
        case ClientWins => s.rep.stats[p.client := StatsAfterWin(s.now, StatsOf(s.rep, p.client))]
                                      [f := StatsAfterLoss(s.now, StatsOf(s.rep, f))]
  {
    hide AfterProjectCompleted, AfterDisputeOutcome, LockIdOf, AfterTransfer;
    hide StatsAfterCompletion, StatsAfterWin, StatsAfterLoss;
    var p := s.proj.projects[id];
    match ruling {
      case FreelancerWins =>
        var unlocked := AfterRemoveLock(s.ledger, LockIdOf(id), p.client);
        var l := AfterTransfer(unlocked, p.client, p.freelancer.value, p.budget).value;
        CompletionRecord(cfg, s.now, RepWorld(l, s.rep), p.freelancer.value, p.budget, 3000);
      case ClientWins =>
        OutcomeRecord(cfg, s.now, World(s), p.client, p.freelancer.value);
    }
  }

  /**
    An enforced ruling is counted once if the freelancer won and twice if the client won: as a
    win for the winner, as a loss and a failed project for the loser. Only a freelancer who won
    gains a completed project and a rating.
  */
  lemma EnforcementRecords(cfg: Config, s: State, id: ProjectId)
    returns (winner: AccountId, loser: AccountId)
    requires AfterEnforceFinalRuling(cfg, s, id).Ok?
    requires id in s.proj.projects && Some(s.proj.projects[id].client) != s.proj.projects[id].freelancer
    ensures id in s.arb.disputes && s.arb.disputes[id].ruling.Some? && s.proj.projects[id].freelancer.Some?
    ensures var p, ruling := s.proj.projects[id], s.arb.disputes[id].ruling.value;
      && winner == WinningParty(ruling, p.client, p.freelancer.value)
      && loser == LosingParty(ruling, p.client, p.freelancer.value)
    ensures var ruling := s.arb.disputes[id].ruling.value; var n := Counted(ruling);
      var t := AfterEnforceFinalRuling(cfg, s, id).value;
      var w, x := StatsOf(s.rep, winner), StatsOf(t.rep, winner);
      var l, y := StatsOf(s.rep, loser), StatsOf(t.rep, loser);
      && (w.disputesWon + 2 <= U32_MAX ==> x.disputesWon == w.disputesWon + n)
      && (l.disputesLost + 2 <= U32_MAX ==> y.disputesLost == l.disputesLost + n)
      && (l.projectsFailed + 2 <= U32_MAX ==> y.projectsFailed == l.projectsFailed + n)
      && x.disputesLost == w.disputesLost && y.disputesWon == l.disputesWon
      && y.projectsCompleted == l.projectsCompleted
      && (w.projectsCompleted + 1 <= U32_MAX ==>
            x.projectsCompleted == w.projectsCompleted + (if ruling == FreelancerWins then 1 else 0))
      && forall a :: a != winner && a != loser ==> StatsOf(t.rep, a) == StatsOf(s.rep, a)
  {
    hide AfterEnforceFinalRuling, AfterOnRuling, AfterPayouts, AfterDisputeOutcome, NextAverage;
    var site, ledger;
    winner, loser, site, ledger := EnforceSucceeded(cfg, s, id);
    RulingRecord(cfg, s, id, s.arb.disputes[id].ruling.value);
    OutcomeRecord(cfg, s.now, RepWorld(ledger, site.rep), winner, loser);
  }
}
