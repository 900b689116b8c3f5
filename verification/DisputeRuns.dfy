/**
  The history of a dispute over whole runs: the stored dispute always agrees with it, and an
  enforcement executes the last ruling issued, after its appeal period, with nothing left over.
*/
module DisputeRuns {
  import opened Prelude
  import opened Types
  import opened Currency
  import opened Reputation
  import opened JurorIndex
  import opened Projects
  import opened Arbitration
  import opened FeeTheorems
  import opened Settlement
  import opened DisputeProtocol
  import opened DisputeCalls
  import opened Escrow
  import opened ReserveLedger
  import opened System
  import opened ChainInvariant
  import opened ChainSafety
  import opened Termination
  import opened DisputeHistory

  // ---------- calls about something else ----------

  lemma ReputationCallsSpareCases(cfg: Config, s: State, c: Call, id: ProjectId)
    requires IsEnvironmentCall(c) || IsReputationCall(c)
    requires Apply(cfg, s, c).Ok?
    ensures CaseOf(Apply(cfg, s, c).value, id) == CaseOf(s, id)
  {
    hide Apply;
    SameRecords(cfg, s, c);
  }

  lemma SameRecords(cfg: Config, s: State, c: Call)
    requires IsEnvironmentCall(c) || IsReputationCall(c)
    requires Apply(cfg, s, c).Ok?
    ensures Apply(cfg, s, c).value.proj == s.proj && Apply(cfg, s, c).value.arb == s.arb
  {
    hide AfterRegisterUser, AfterRegisterAsJuror, AfterDeregisterAsJuror, AfterSlashJuror, AfterTransfer;
  }

  /** A project under a dispute, open or closed, is out of reach of the project calls. */
  lemma ProjectCallsSpareDisputed(cfg: Config, s: State, c: Call, id: ProjectId, created: nat)
    requires Inv(cfg, s, created) && WellFormed(cfg, c) && IsProjectCall(c)
    requires c.CreateProject? ==> created < PROJECT_IDS
    requires Apply(cfg, s, c).Ok? && id in s.arb.disputes
    ensures CaseOf(Apply(cfg, s, c).value, id) == CaseOf(s, id)
  {
    hide Apply, AllCases, IndexOk, ReservesExact, EscrowOk, StatusStep, IdsOk;
    ProjectCallsStatus(cfg, s, c, created);
    ProjectCallsKeepCases(cfg, s, c, created);
    assert Subject(s, c) != id;
  }

  lemma DisputeCallsSpareOthers(cfg: Config, s: State, c: Call, i: ProjectId, id: ProjectId)
    requires AllCases(cfg, s) && IndexOk(cfg, s.rep)
    requires IsDisputeCall(c, i) && i != id && Apply(cfg, s, c).Ok?
    ensures CaseOf(Apply(cfg, s, c).value, id) == CaseOf(s, id)
  {
    hide AllCases, IndexOk, CaseOf;
    hide AfterCreateDispute, AfterSubmitRuling, AfterAppealRuling;
    hide AfterCastVote, AfterFinalizeRound, AfterEnforceFinalRuling;
    match c {
      case CreateDispute(who, _) => CreateDisputeKeepsCases(cfg, s, who, i);
      case SubmitRuling(_, ruling) => SubmitRulingKeepsCases(cfg, s, i, ruling);
      case AppealRuling(who, _) => AppealRulingKeepsCases(cfg, s, who, i);
      case CastVote(who, _, vote) => CastVoteKeepsCases(cfg, s, who, i, vote);
      case FinalizeRound(_, _) => FinalizeRoundKeepsCases(cfg, s, i);
      case EnforceFinalRuling(_, _) => EnforceKeepsCases(cfg, s, i);
    }
  }

  /** Only the calls on a dispute touch anything stored about it. */
  lemma OtherCallsSpareCase(cfg: Config, s: State, c: Call, id: ProjectId, created: nat)
    requires Inv(cfg, s, created) && WellFormed(cfg, c)
    requires c.CreateProject? ==> created < PROJECT_IDS
    requires Apply(cfg, s, c).Ok? && !IsDisputeCall(c, id) && id in s.arb.disputes
    ensures CaseOf(Apply(cfg, s, c).value, id) == CaseOf(s, id)
  {
    hide Apply, AllCases, IndexOk, ReservesExact, EscrowOk, CaseOf, IdsOk;
    if IsProjectCall(c) {
      ProjectCallsSpareDisputed(cfg, s, c, id, created);
    } else if IsEnvironmentCall(c) || IsReputationCall(c) {
      ReputationCallsSpareCases(cfg, s, c, id);
    } else {
      DisputeCallsSpareOthers(cfg, s, c, c.id, id);
    }
  }

  // ---------- calls on the dispute ----------

  lemma FinalizeCase(cfg: Config, s: State, id: ProjectId)
    requires AllCases(cfg, s) && AfterFinalizeRound(cfg, s, id).Ok?
    ensures id in s.arb.disputes
    ensures var c, d := CaseOf(s, id), s.arb.disputes[id]; var ruling := RoundRuling(d.votes);
      CaseOf(AfterFinalizeRound(cfg, s, id).value, id)
        == c.(dispute := Some(d.(ruling := Some(ruling), status := Appealable, startBlock := s.now)),
              rewards := RewardsAfterRound(cfg, c.rewards, FeesAt(c, d.round), d.votes, ruling))
  {
    hide AfterFinalizeRound, AllCases, RoundRuling, RewardsAfterRound, BondsOk, FeesOk, RewardsOk, CostsTo, ProjectOk;
    FinalizeFacts(cfg, s, id);
    OpenCase(cfg, s, id);
  }

  lemma DisputeCallHistory(cfg: Config, s: State, c: Call, id: ProjectId, h: History)
    requires AllCases(cfg, s) && IndexOk(cfg, s.rep)
    requires IsDisputeCall(c, id) && Apply(cfg, s, c).Ok?
    requires HistoryOk(cfg, CaseOf(s, id), h)
    ensures HistoryOk(cfg, CaseOf(Apply(cfg, s, c).value, id), Extended(cfg, s, c, id, h))
  {
    hide AllCases, IndexOk, HistoryOk;
    hide AfterCreateDispute, AfterSubmitRuling, AfterAppealRuling;
    hide AfterCastVote, AfterFinalizeRound, AfterEnforceFinalRuling;
    match c {
      case CreateDispute(who, _) => CreateHistory(cfg, s, who, id, h);
      case SubmitRuling(_, ruling) => SubmitHistory(cfg, s, id, ruling, h);
      case AppealRuling(who, _) => AppealHistory(cfg, s, who, id, h);
      case CastVote(who, _, vote) => VoteHistory(cfg, s, who, id, vote, h);
      case FinalizeRound(_, _) => FinalizeHistory(cfg, s, id, h);
      case EnforceFinalRuling(_, _) => EnforceHistory(cfg, s, id, h);
    }
  }

  lemma CreateHistory(cfg: Config, s: State, who: AccountId, id: ProjectId, h: History)
    requires AllCases(cfg, s) && AfterCreateDispute(cfg, s, who, id).Ok?
    requires HistoryOk(cfg, CaseOf(s, id), h)
    ensures HistoryOk(cfg, CaseOf(AfterCreateDispute(cfg, s, who, id).value, id), h)
  {
    hide AfterCreateDispute, Opened, HistoryOk, CaseOk;
    CreateDisputeCase(cfg, s, who, id);
    var p := s.proj.projects[id];
    assert CaseOk(cfg, CaseOf(s, id));
    OpenedHistory(cfg, s.now, CaseOf(s, id), p, who, p.submission.value.uri, h);
  }

  lemma SubmitHistory(cfg: Config, s: State, id: ProjectId, ruling: Ruling, h: History)
    requires AllCases(cfg, s) && AfterSubmitRuling(s, id, ruling).Ok?
    requires HistoryOk(cfg, CaseOf(s, id), h)
    ensures HistoryOk(cfg, CaseOf(AfterSubmitRuling(s, id, ruling).value, id),
                      h.(decisions := h.decisions + [Decision(s.now, ruling, 0, 0)]))
  {
    hide AllCases, HistoryOk, OpenOk, ProjectOk;
    OpenCase(cfg, s, id);
    RuledHistory(cfg, s.now, CaseOf(s, id), s.proj.projects[id], s.arb.disputes[id], ruling, h);
  }

  lemma AppealHistory(cfg: Config, s: State, who: AccountId, id: ProjectId, h: History)
    requires AllCases(cfg, s) && AfterAppealRuling(cfg, s, who, id).Ok?
    requires HistoryOk(cfg, CaseOf(s, id), h)
    ensures HistoryOk(cfg, CaseOf(AfterAppealRuling(cfg, s, who, id).value, id),
                      h.(appeals := h.appeals + [Appeal(s.now, who)]))
  {
    hide AfterAppealRuling, AllCases, HistoryOk, Appealed, Selection, BondOf, CostOf, OpenOk, ProjectOk;
    var p, d, jury := AppealSucceeded(cfg, s, who, id);
    OpenCost(cfg, s, id);
    AppealCase(cfg, s, AfterAppealRuling(cfg, s, who, id).value, who, id, p, d, jury);
    AppealedHistory(cfg, s.now, CaseOf(s, id), p, d, who, jury, h);
  }

  lemma OpenCost(cfg: Config, s: State, id: ProjectId)
    requires AllCases(cfg, s) && id in s.arb.disputes && s.arb.disputes[id].status != Finalized
    ensures id in s.arb.costs
  {
    hide AllCases, BondsOk, FeesOk, RewardsOk, CostsTo, ProjectOk;
    OpenCase(cfg, s, id);
  }

  lemma VoteHistory(cfg: Config, s: State, who: AccountId, id: ProjectId, vote: Vote, h: History)
    requires AllCases(cfg, s) && AfterCastVote(s, who, id, vote).Ok?
    requires HistoryOk(cfg, CaseOf(s, id), h)
    ensures HistoryOk(cfg, CaseOf(AfterCastVote(s, who, id, vote).value, id), h)
  {
    hide AllCases, HistoryOk;
    var d := s.arb.disputes[id];
    var seat := SeatOf(d.jurors, who);
    VotedHistory(cfg, CaseOf(s, id), d, seat, vote, h);
    assert Lookup(AfterCastVote(s, who, id, vote).value.arb.disputes, id) == Some(Voted(d, seat, vote));
  }

  lemma FinalizeHistory(cfg: Config, s: State, id: ProjectId, h: History)
    requires AllCases(cfg, s) && AfterFinalizeRound(cfg, s, id).Ok?
    requires HistoryOk(cfg, CaseOf(s, id), h)
    ensures HistoryOk(cfg, CaseOf(AfterFinalizeRound(cfg, s, id).value, id),
                      Extended(cfg, s, FinalizeRound(0, id), id, h))
  {
    hide AfterFinalizeRound, AllCases, HistoryOk, RoundRuling, RewardsAfterRound;
    hide OpenOk, ProjectOk, RoundAward, FeesAt;
    FinalizeFacts(cfg, s, id);
    FinalizeCase(cfg, s, id);
    OpenCase(cfg, s, id);
    FinalizedHistory(cfg, s.now, CaseOf(s, id), s.proj.projects[id], s.arb.disputes[id], h);
  }

  lemma EnforceHistory(cfg: Config, s: State, id: ProjectId, h: History)
    requires AllCases(cfg, s) && AfterEnforceFinalRuling(cfg, s, id).Ok?
    requires HistoryOk(cfg, CaseOf(s, id), h)
    ensures HistoryOk(cfg, CaseOf(AfterEnforceFinalRuling(cfg, s, id).value, id), h)
  {
    hide AfterEnforceFinalRuling, AllCases, HistoryOk;
    EnforceCase(cfg, s, id);
    ClosedHistory(cfg, CaseOf(s, id), s.proj.projects[id], s.arb.disputes[id], h);
  }

  // ---------- runs ----------

  lemma HistoryStep(cfg: Config, s: State, c: Call, id: ProjectId, h: History, created: nat)
    requires Inv(cfg, s, created) && WellFormed(cfg, c)
    requires c.CreateProject? ==> created < PROJECT_IDS
    requires Apply(cfg, s, c).Ok? && HistoryOk(cfg, CaseOf(s, id), h)
    ensures HistoryOk(cfg, CaseOf(Apply(cfg, s, c).value, id), Extended(cfg, s, c, id, h))
  {
    hide Apply, AllCases, IndexOk, ReservesExact, EscrowOk, IdsOk;
    if IsDisputeCall(c, id) {
      DisputeCallHistory(cfg, s, c, id, h);
    } else {
      assert Extended(cfg, s, c, id, h) == h;
      if id in s.arb.disputes {
        OtherCallsSpareCase(cfg, s, c, id, created);
      } else {
        OtherCallsPreserve(cfg, s, c, id, created);
      }
    }
  }

  /** Over every run that starts before the dispute, the stored dispute is what its history says. */
  lemma {:induction false} HistoryAlwaysOk(cfg: Config, s: State, calls: seq<Call>, id: ProjectId, created: nat)
    requires SafeRun(cfg, s, calls, created) && id !in s.arb.disputes
    ensures HistoryOk(cfg, CaseOf(Run(cfg, s, calls), id), HistoryOf(cfg, s, calls, id))
  {
    hide Apply, Inv, Extended;
    if calls != [] {
      hide HistoryOk;
      var init, c := calls[..|calls| - 1], calls[|calls| - 1];
      LastStep(cfg, s, calls, created);
      HistoryAlwaysOk(cfg, s, init, id, created);
      var r := Run(cfg, s, init);
      if Apply(cfg, r, c).Ok? {
        HistoryStep(cfg, r, c, id, HistoryOf(cfg, s, init, id), ProjectsMade(cfg, s, init, created));
      }
    }
  }

  // ---------- finality ----------

  /** The appeal window is open strictly before this block, the enforcement window from it on. */
  function WindowEnd(cfg: Config, d: Dispute): BlockNumber {
    SatAdd(d.startBlock, cfg.appealPeriod, cfg.maxBlock)
  }

  // The errors the later stages can report, none of which is about time.

  lemma MoneyErrors(l: Ledger, src: AccountId, dst: AccountId, amount: Balance)
    ensures AfterReserve(l, src, amount).Err? ==>
      AfterReserve(l, src, amount).error in {InsufficientBalance, LiquidityRestrictions}
    ensures AfterTransfer(l, src, dst, amount).Err? ==>
      AfterTransfer(l, src, dst, amount).error in {InsufficientBalance, LiquidityRestrictions}
  {
  }

  lemma OutcomeErrors(cfg: Config, now: BlockNumber, w: RepWorld, winner: AccountId, loser: AccountId)
    ensures var r := AfterDisputeOutcome(cfg, now, w, winner, loser);
      r.Err? ==> r.error in {UserNotRegistered, JurorPoolFull}
  {
    hide AfterUpdateTier, StatsAfterWin, StatsAfterLoss, Blocked;
    var r1 := AfterStats(w, winner, StatsAfterWin(now, StatsOf(w.rep, winner)));
    if r1.Ok? {
      var r2 := AfterStats(r1.value, loser, StatsAfterLoss(now, StatsOf(r1.value.rep, loser)));
      if r2.Ok? {
        UpdateTierFails(cfg, r2.value, winner);
        UpdateTierFails(cfg, AfterUpdateTier(cfg, r2.value, winner).world, loser);
      }
    }
  }

  lemma CompletionErrors(cfg: Config, now: BlockNumber, w: RepWorld, freelancer: AccountId, value: Balance, rating: nat)
    ensures var r := AfterProjectCompleted(cfg, now, w, freelancer, value, rating);
      r.Err? ==> r.error in {InvalidScore, UserNotRegistered, JurorPoolFull}
  {
    hide AfterUpdateTier, StatsAfterCompletion, Blocked;
    var r1 := AfterStats(w, freelancer, StatsAfterCompletion(cfg, now, StatsOf(w.rep, freelancer), value, rating));
    if r1.Ok? {
      UpdateTierFails(cfg, r1.value, freelancer);
    }
  }

  lemma RulingErrors(cfg: Config, now: BlockNumber, w: ProjWorld, id: ProjectId, ruling: Ruling)
    ensures AfterOnRuling(cfg, now, w, id, ruling) != Err(AppealPeriodExpired)
  {
    hide AfterProjectCompleted, AfterDisputeOutcome, AfterTransfer, LockIdOf;
    if id in w.proj.projects && w.proj.projects[id].freelancer.Some? {
      var p := w.proj.projects[id];
      var unlocked := AfterRemoveLock(w.ledger, LockIdOf(id), p.client);
      MoneyErrors(unlocked, p.client, p.freelancer.value, p.budget);
      OutcomeErrors(cfg, now, w.Jury(), p.client, p.freelancer.value);
      var paid := AfterTransfer(unlocked, p.client, p.freelancer.value, p.budget);
      if paid.Ok? {
        CompletionErrors(cfg, now, RepWorld(paid.value, w.rep), p.freelancer.value, p.budget, 3000);
      }
    }
  }

  lemma {:induction false} RewardErrors(cfg: Config, rewards: map<AccountId, Balance>, r: Result<Ledger, Error>,
                                        left: set<AccountId>)
    requires r.Err? ==> r.error == PaymentFailed
    ensures var q := FoldSet(RewardStep(cfg, rewards), r, left);
      q.Err? ==> q.error == PaymentFailed
    decreases |left|
  {
    if left != {} {
      var j :| j in left;
      AnyRewardFirst(cfg, rewards, r, left, j);
      RewardErrors(cfg, rewards, RewardTurn(cfg, rewards, r, j), left - {j});
    }
  }

  lemma PayoutErrors(cfg: Config, l: Ledger, arb: ArbStore, id: ProjectId, winner: AccountId, loser: AccountId)
    ensures AfterPayouts(cfg, l, arb, id, winner, loser) != Err(AppealPeriodExpired)
  {
    hide AfterBonds, AfterCosts, FoldSet, RewardStep;
    var funded := AfterCosts(cfg, AfterBonds(cfg, l, Prefix(arb.bonds, id), winner), loser, Get(arb.costs, id));
    RewardErrors(cfg, Prefix(arb.rewards, id), Ok(funded), Prefix(arb.rewards, id).Keys);
  }

  lemma EnforceWindow(cfg: Config, s: State, id: ProjectId)
    requires id in s.arb.disputes && s.arb.disputes[id].status == Appealable
    ensures AfterEnforceFinalRuling(cfg, s, id) == Err(AppealPeriodExpired)
         <==> s.now < WindowEnd(cfg, s.arb.disputes[id])
  {
    hide AfterPayouts, AfterOnRuling, AfterDisputeOutcome;
    var d := s.arb.disputes[id];
    var parties := ProjectParties(s.proj, id);
    if parties.Ok? && d.ruling.Some? {
      RulingErrors(cfg, s.now, s.Site(), id, d.ruling.value);
      var site := AfterOnRuling(cfg, s.now, s.Site(), id, d.ruling.value);
      if site.Ok? {
        var winner := WinningParty(d.ruling.value, parties.value.0, parties.value.1);
        var loser := LosingParty(d.ruling.value, parties.value.0, parties.value.1);
        PayoutErrors(cfg, site.value.ledger, s.arb, id, winner, loser);
        var l := AfterPayouts(cfg, site.value.ledger, s.arb, id, winner, loser);
        if l.Ok? {
          OutcomeErrors(cfg, s.now, RepWorld(l.value, site.value.rep), winner, loser);
        }
      }
    }
  }

  lemma AppealWindow(cfg: Config, s: State, id: ProjectId, appellant: AccountId)
    requires id in s.arb.disputes && s.arb.disputes[id].status == Appealable
    ensures AfterAppealRuling(cfg, s, appellant, id) == Err(AppealPeriodExpired)
       <==> s.now >= WindowEnd(cfg, s.arb.disputes[id])
  {
    hide Selection, Percent, AfterReserve;
    var round := SatAdd(s.arb.disputes[id].round, 1, U32_MAX);
    var budget := ProjectBudget(s.proj, id);
    if budget.Ok? && AppealBond(cfg, budget.value, round).Ok? {
      MoneyErrors(s.ledger, appellant, appellant, AppealBond(cfg, budget.value, round).value);
    }
  }

  /**
    While a ruling can be appealed or enforced, exactly one of the two windows is open: the
    appeal's until its last block, and the enforcement's from then on. No other failure is
    reported as a matter of time.
  */
  lemma OneWindowIsOpen(cfg: Config, s: State, id: ProjectId, appellant: AccountId)
    requires id in s.arb.disputes && s.arb.disputes[id].status == Appealable
    ensures var end := WindowEnd(cfg, s.arb.disputes[id]);
      && (AfterAppealRuling(cfg, s, appellant, id) == Err(AppealPeriodExpired) <==> s.now >= end)
      && (AfterEnforceFinalRuling(cfg, s, id) == Err(AppealPeriodExpired) <==> s.now < end)
  {
    hide AfterAppealRuling, AfterEnforceFinalRuling, WindowEnd;
    AppealWindow(cfg, s, id, appellant);
    EnforceWindow(cfg, s, id);
  }

  /**
    The ruling an enforcement executes is the last one the run issued. Its whole appeal period
    has passed, every ruling but this one was appealed and this one was not, and no bond,
    cost, fee or reward of the project is left.
  */
  lemma EnforcementIsFinal(cfg: Config, s: State, calls: seq<Call>, id: ProjectId, created: nat)
    requires SafeRun(cfg, s, calls, created) && id !in s.arb.disputes
    requires AfterEnforceFinalRuling(cfg, Run(cfg, s, calls), id).Ok?
    ensures var r := Run(cfg, s, calls); var h := HistoryOf(cfg, s, calls, id);
      var t := AfterEnforceFinalRuling(cfg, r, id).value;
      && h.decisions != []
      && (var last := h.decisions[|h.decisions| - 1];
          && id in t.arb.disputes && t.arb.disputes[id].ruling == Some(last.ruling)
          && r.now >= SatAdd(last.block, cfg.appealPeriod, cfg.maxBlock)
          && |h.appeals| == |h.decisions| - 1
          && NothingOwed(CaseOf(t, id)))
  {
    hide Inv, Apply, AfterEnforceFinalRuling, Extended, AppealsByLosers, AwardsBounded;
    HistoryAlwaysOk(cfg, s, calls, id, created);
    EnforceCase(cfg, Run(cfg, s, calls), id);
    OpenShape(cfg, s, calls, id, created);
    var t := AfterEnforceFinalRuling(cfg, Run(cfg, s, calls), id).value;
    assert CaseOf(t, id).dispute.Some?;
  }

  lemma OpenShape(cfg: Config, s: State, calls: seq<Call>, id: ProjectId, created: nat)
    requires SafeRun(cfg, s, calls, created)
    requires var r := Run(cfg, s, calls); id in r.arb.disputes && r.arb.disputes[id].status != Finalized
    ensures 1 <= Run(cfg, s, calls).arb.disputes[id].round <= 3
  {
    hide Apply, AllCases, IndexOk, ReservesExact, EscrowOk, IdsOk;
    RunKeeps(cfg, s, calls, created);
    OpenCase(cfg, Run(cfg, s, calls), id);
  }
}
