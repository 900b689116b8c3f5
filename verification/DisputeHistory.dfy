/**
  What a run tells about one dispute: the rulings issued, in order, and who appealed each. The
  stored dispute, its bonds and its rewards are exactly what that history implies.
*/
module DisputeHistory {
  import opened Prelude
  import opened Types
  import opened Projects
  import opened Arbitration
  import opened FeeTheorems
  import opened DisputeProtocol
  import opened DisputeCalls
  import opened System
  import opened Termination

  /** A ruling: when it was issued, what it says, and what the round's jurors earned by it. */
  datatype Decision = Decision(block: BlockNumber, ruling: Ruling, voters: nat, award: nat)

  datatype Appeal = Appeal(block: BlockNumber, party: AccountId)

  /** The rulings of rounds 1, 2, ... and the appeals that opened rounds 2, 3, ... */
  datatype History = History(decisions: seq<Decision>, appeals: seq<Appeal>)

  function Agreeing(votes: map<AccountId, Vote>, ruling: Ruling): set<AccountId> {
    set j | j in votes && Agrees(votes[j], ruling)
  }

  /** Base fee for every voter, bonus for those the ruling agrees with. */
  function AwardOf(voters: nat, agreeing: nat, fee: JuryFee): nat {
    voters * fee.base + agreeing * fee.bonus
  }

  function RoundAward(cfg: Config, budget: Balance, round: nat, votes: map<AccountId, Vote>, ruling: Ruling): nat {
    AwardOf(|votes|, |Agreeing(votes, ruling)|, FeesOf(cfg, budget, round))
  }

  /** What one call that succeeded adds to the history of project `id`. */
  function Extended(cfg: Config, s: State, c: Call, id: ProjectId, h: History): History {
    match c
    case SubmitRuling(i, ruling) =>
      if i == id then h.(decisions := h.decisions + [Decision(s.now, ruling, 0, 0)]) else h
    case FinalizeRound(_, i) =>
      if i == id && id in s.arb.disputes && id in s.proj.projects then
        var d := s.arb.disputes[id];
        var ruling := RoundRuling(d.votes);
        h.(decisions := h.decisions + [Decision(s.now, ruling, |d.votes|,
             RoundAward(cfg, s.proj.projects[id].budget, d.round, d.votes, ruling))])
      else h
    case AppealRuling(who, i) =>
      if i == id then h.(appeals := h.appeals + [Appeal(s.now, who)]) else h
    case _ => h
  }

  /** The history of project `id` over a run. */
  ghost function HistoryOf(cfg: Config, s: State, calls: seq<Call>, id: ProjectId): History {
    if calls == [] then History([], [])
    else
      var init := calls[..|calls| - 1];
      var c := calls[|calls| - 1];
      var h := HistoryOf(cfg, s, init, id);
      var r := Run(cfg, s, init);
      if Apply(cfg, r, c).Ok? then Extended(cfg, r, c, id, h) else h
  }

  function TotalAward(decisions: seq<Decision>): nat {
    if decisions == [] then 0
    else TotalAward(decisions[..|decisions| - 1]) + decisions[|decisions| - 1].award
  }

  /** Each appeal is by the party that lost the ruling before it. */
  ghost predicate AppealsByLosers(p: Project, h: History)
    requires p.freelancer.Some?
  {
    && |h.appeals| <= |h.decisions|
    && forall k :: 0 <= k < |h.appeals| ==>
         h.appeals[k].party == LosingParty(h.decisions[k].ruling, p.client, p.freelancer.value)
  }

  /** The juries that decided had the right size, and earned no more than they could. */
  ghost predicate AwardsBounded(cfg: Config, p: Project, decisions: seq<Decision>) {
    forall k :: 0 <= k < |decisions| ==>
      && decisions[k].voters <= (if k == 0 then 0 else JurySize(cfg, k + 1))
      && decisions[k].award <= decisions[k].voters * TopReward(cfg, p.budget, k + 1)
  }

  /** Every appeal came within the appeal period of its ruling, every jury ruled after a full voting period. */
  ghost predicate Timely(cfg: Config, h: History) {
    && |h.appeals| <= |h.decisions| <= |h.appeals| + 1
    && (forall k :: 0 <= k < |h.appeals| ==>
          h.appeals[k].block < SatAdd(h.decisions[k].block, cfg.appealPeriod, cfg.maxBlock))
    && (forall k :: 0 < k < |h.decisions| ==>
          h.decisions[k].block >= SatAdd(h.appeals[k - 1].block, cfg.votingPeriod, cfg.maxBlock))
  }

  predicate PostedBy(bonds: map<nat, Bond>, round: nat, who: AccountId) {
    round in bonds && bonds[round].owner == who
  }

  /** The k-th appeal, which opened round k + 2, is backed by a bond of whoever made it. */
  ghost predicate BondsFollow(bonds: map<nat, Bond>, appeals: seq<Appeal>) {
    forall k :: 0 <= k < |appeals| ==> PostedBy(bonds, k + 2, appeals[k].party)
  }

  /**
    The stored dispute agrees with the history: rulings and appeals alternate in due time, the
    ruling in force is the last one issued, the clock runs from the last ruling or appeal, the bond of round r >= 2
    was posted by whoever appealed the ruling of round r - 1, and the rewards on record are
    the awards of all finalized rounds.
  */
  ghost predicate HistoryOk(cfg: Config, c: Case, h: History) {
    match c.dispute
    case None => h == History([], [])
    case Some(d) =>
      && c.project.Some? && c.project.value.freelancer.Some?
      && |h.decisions| == DecidedRounds(d)
      && |h.appeals| == SatSub(d.round, 1)
      && AppealsByLosers(c.project.value, h)
      && AwardsBounded(cfg, c.project.value, h.decisions)
      && Timely(cfg, h)
      && (d.status == Voting ==> h.appeals != [] && h.appeals[|h.appeals| - 1].block == d.startBlock)
      && (d.ruling.Some? ==> h.decisions != [] && h.decisions[|h.decisions| - 1].ruling == d.ruling.value)
      && (d.status == Appealable ==> h.decisions != [] && h.decisions[|h.decisions| - 1].block == d.startBlock)
      && (d.status != Finalized ==>
            && SumMap(c.rewards) == TotalAward(h.decisions)
            && BondsFollow(c.bonds, h.appeals))
  }

  // ---------- the awards of one round ----------

  function Gain(vote: Vote, ruling: Ruling, fee: JuryFee): Balance {
    fee.base + (if Agrees(vote, ruling) then fee.bonus else 0)
  }

  lemma OneVoteMore(cfg: Config, rewards: map<AccountId, Balance>, fees: map<AccountId, JuryFee>,
                    votes: map<AccountId, Vote>, ruling: Ruling, fee: JuryFee, j: AccountId)
    requires j in votes && FeeOf(fees, j) == fee && Get(rewards, j) + fee.base + fee.bonus <= cfg.maxBalance
    ensures var before := RewardsAfterRound(cfg, rewards, fees, votes - {j}, ruling);
      && Get(before, j) == Get(rewards, j)
      && RewardsAfterRound(cfg, rewards, fees, votes, ruling)
           == before[j := Get(rewards, j) + Gain(votes[j], ruling, fee)]
  {
    var before := RewardsAfterRound(cfg, rewards, fees, votes - {j}, ruling);
    var after := RewardsAfterRound(cfg, rewards, fees, votes, ruling);
    var updated := before[j := Get(rewards, j) + Gain(votes[j], ruling, fee)];
    assert after.Keys == updated.Keys;
    forall k | k in after ensures after[k] == updated[k] {
    }
  }

  /** Without saturation, a round adds exactly its award to the rewards. */
  lemma {:induction false} AwardsAdd(cfg: Config, rewards: map<AccountId, Balance>, fees: map<AccountId, JuryFee>,
                                     votes: map<AccountId, Vote>, ruling: Ruling, fee: JuryFee)
    requires forall j :: j in votes ==>
      FeeOf(fees, j) == fee && Get(rewards, j) + fee.base + fee.bonus <= cfg.maxBalance
    ensures SumMap(RewardsAfterRound(cfg, rewards, fees, votes, ruling))
         == SumMap(rewards) + AwardOf(|votes|, |Agreeing(votes, ruling)|, fee)
    decreases |votes|
  {
    if votes == map[] {
      assert RewardsAfterRound(cfg, rewards, fees, votes, ruling) == rewards;
      assert Agreeing(votes, ruling) == {};
    } else {
      var j :| j in votes;
      var rest := votes - {j};
      hide RewardsAfterRound, Agreeing, AwardOf, SumMap;
      AwardsAdd(cfg, rewards, fees, rest, ruling, fee);
      OneAwardMore(cfg, rewards, fees, votes, ruling, fee, j);
    }
  }

  lemma OneAwardMore(cfg: Config, rewards: map<AccountId, Balance>, fees: map<AccountId, JuryFee>,
                     votes: map<AccountId, Vote>, ruling: Ruling, fee: JuryFee, j: AccountId)
    requires j in votes && FeeOf(fees, j) == fee && Get(rewards, j) + fee.base + fee.bonus <= cfg.maxBalance
    ensures var rest := votes - {j}; var gain := Gain(votes[j], ruling, fee);
      && SumMap(RewardsAfterRound(cfg, rewards, fees, votes, ruling))
         == SumMap(RewardsAfterRound(cfg, rewards, fees, rest, ruling)) + gain
      && AwardOf(|votes|, |Agreeing(votes, ruling)|, fee) == AwardOf(|rest|, |Agreeing(rest, ruling)|, fee) + gain
  {
    var rest := votes - {j};
    AgreeingWithout(votes, ruling, j);
    hide AwardOf;
    OneMoreAward(|rest|, |votes|, |Agreeing(rest, ruling)|, |Agreeing(votes, ruling)|, votes[j], ruling, fee);
    OneRewardMore(cfg, rewards, fees, votes, ruling, fee, j);
    hide RewardsAfterRound, Agreeing, SumMap, FeeOf, Gain, Agrees;
  }

  lemma OneRewardMore(cfg: Config, rewards: map<AccountId, Balance>, fees: map<AccountId, JuryFee>,
                      votes: map<AccountId, Vote>, ruling: Ruling, fee: JuryFee, j: AccountId)
    requires j in votes && FeeOf(fees, j) == fee && Get(rewards, j) + fee.base + fee.bonus <= cfg.maxBalance
    ensures SumMap(RewardsAfterRound(cfg, rewards, fees, votes, ruling))
         == SumMap(RewardsAfterRound(cfg, rewards, fees, votes - {j}, ruling)) + Gain(votes[j], ruling, fee)
  {
    OneVoteMore(cfg, rewards, fees, votes, ruling, fee, j);
    hide RewardsAfterRound, SumMap, FeeOf, Gain;
    SumPut(RewardsAfterRound(cfg, rewards, fees, votes - {j}, ruling), j,
           Get(rewards, j) + Gain(votes[j], ruling, fee));
  }

  lemma AgreeingWithout(votes: map<AccountId, Vote>, ruling: Ruling, j: AccountId)
    requires j in votes
    ensures |votes| == |votes - {j}| + 1
    ensures |Agreeing(votes, ruling)|
         == |Agreeing(votes - {j}, ruling)| + (if Agrees(votes[j], ruling) then 1 else 0)
  {
    var rest := votes - {j};
    assert rest.Keys == votes.Keys - {j};
    assert |votes| == |votes.Keys| && |rest| == |rest.Keys|;
    if Agrees(votes[j], ruling) {
      assert Agreeing(votes, ruling) == Agreeing(rest, ruling) + {j};
    } else {
      assert Agreeing(votes, ruling) == Agreeing(rest, ruling);
    }
  }

  lemma OneMoreAward(n: nat, n1: nat, m: nat, m1: nat, vote: Vote, ruling: Ruling, fee: JuryFee)
    requires n1 == n + 1 && m1 == m + (if Agrees(vote, ruling) then 1 else 0)
    ensures AwardOf(n1, m1, fee) == AwardOf(n, m, fee) + Gain(vote, ruling, fee)
  {
  }

  lemma AwardBound(cfg: Config, budget: Balance, round: nat, votes: map<AccountId, Vote>, ruling: Ruling)
    ensures RoundAward(cfg, budget, round, votes, ruling) <= |votes| * TopReward(cfg, budget, round)
  {
    var fee := FeesOf(cfg, budget, round);
    hide FeesOf;
    assert Agreeing(votes, ruling) <= votes.Keys;
    SubsetFull(Agreeing(votes, ruling), votes.Keys);
    assert |votes| == |votes.Keys|;
    MulLe(|Agreeing(votes, ruling)|, |votes|, fee.bonus);
    MulDistributes(|votes|, fee.base, fee.bonus);
  }

  lemma MulDistributes(n: nat, x: nat, y: nat)
    ensures n * (x + y) == n * x + n * y
  {
  }

  /** Deciding a round of an open dispute adds the round's award to its rewards. */
  lemma RoundPays(cfg: Config, p: Project, d: Dispute, c: Case)
    requires OpenOk(cfg, p, d, c) && d.status == Voting
    ensures var ruling := RoundRuling(d.votes);
      && |d.votes| <= JurySize(cfg, d.round)
      && SumMap(RewardsAfterRound(cfg, c.rewards, FeesAt(c, d.round), d.votes, ruling))
         == SumMap(c.rewards) + RoundAward(cfg, p.budget, d.round, d.votes, ruling)
  {
    VotesWithinJury(cfg, p, d, c);
    var ruling := RoundRuling(d.votes);
    hide RoundRuling, RewardsAfterRound, FeesOf, OpenOk, SumMap;
    forall j | j in d.votes
      ensures FeeOf(FeesAt(c, d.round), j) == FeesOf(cfg, p.budget, d.round)
      ensures Get(c.rewards, j) + FeesOf(cfg, p.budget, d.round).base + FeesOf(cfg, p.budget,
                                                                               d.round).bonus <= cfg.maxBalance
    {
      RewardUnsaturated(cfg, p, d, c, j);
    }
    AwardsAdd(cfg, c.rewards, FeesAt(c, d.round), d.votes, ruling, FeesOf(cfg, p.budget, d.round));
  }

  lemma VotesWithinJury(cfg: Config, p: Project, d: Dispute, c: Case)
    requires OpenOk(cfg, p, d, c) && d.status == Voting
    ensures |d.votes| <= JurySize(cfg, d.round)
  {
    SeatsCount(d.jurors);
    FlaggedWithin(d.jurors);
    SubsetFull(Flagged(d.jurors), Sitting(d.jurors));
    assert |d.votes| == |d.votes.Keys|;
  }

  lemma FlaggedWithin(seats: seq<(AccountId, bool)>)
    ensures Flagged(seats) <= Sitting(seats)
  {
  }

  // ---------- every call keeps the history ----------

  lemma OpenedHistory(cfg: Config, now: BlockNumber, c: Case, p: Project, freelancer: AccountId,
                      submission: Uri, h: History)
    requires CaseOk(cfg, c) && c.dispute == None && p.freelancer.Some?
    requires HistoryOk(cfg, c, h)
    ensures HistoryOk(cfg, Opened(cfg, now, c, p, freelancer, submission), h)
  {
  }

  lemma RuledHistory(cfg: Config, now: BlockNumber, c: Case, p: Project, d: Dispute, ruling: Ruling, h: History)
    requires c.project == Some(p) && c.dispute == Some(d) && OpenOk(cfg, p, d, c)
    requires d.status == AiProcessing && HistoryOk(cfg, c, h)
    ensures HistoryOk(cfg, c.(dispute := Some(d.(ruling := Some(ruling), status := Appealable, startBlock := now))),
                      h.(decisions := h.decisions + [Decision(now, ruling, 0, 0)]))
  {
    hide CostsTo, BondsOk, FeesOk, RewardsOk, TopReward, SumMap;
    var one := Decision(now, ruling, 0, 0);
    assert h.decisions == [] && h.decisions + [one] == [one];
    assert TotalAward([one]) == TotalAward([one][..0]) + 0;
  }

  lemma AppealedBonds(bonds: map<nat, Bond>, b: Bond, appeals: seq<Appeal>, now: BlockNumber)
    requires BondsFollow(bonds, appeals)
    ensures BondsFollow(bonds[|appeals| + 2 := b], appeals + [Appeal(now, b.owner)])
  {
    var after := appeals + [Appeal(now, b.owner)];
    forall k | 0 <= k < |after| ensures PostedBy(bonds[|appeals| + 2 := b], k + 2, after[k].party) {
      if k < |appeals| {
        assert PostedBy(bonds, k + 2, appeals[k].party);
      }
    }
  }

  lemma AppealedLosers(p: Project, h: History, a: Appeal)
    requires p.freelancer.Some? && AppealsByLosers(p, h) && |h.appeals| + 1 == |h.decisions|
    requires a.party == LosingParty(h.decisions[|h.appeals|].ruling, p.client, p.freelancer.value)
    ensures AppealsByLosers(p, h.(appeals := h.appeals + [a]))
  {
    hide LosingParty;
  }

  lemma AppealedInTime(cfg: Config, h: History, a: Appeal)
    requires Timely(cfg, h) && |h.appeals| + 1 == |h.decisions|
    requires a.block < SatAdd(h.decisions[|h.appeals|].block, cfg.appealPeriod, cfg.maxBlock)
    ensures Timely(cfg, h.(appeals := h.appeals + [a]))
  {
    hide SatAdd;
  }

  lemma AppealedHistory(cfg: Config, now: BlockNumber, c: Case, p: Project, d: Dispute,
                        appellant: AccountId, jury: seq<AccountId>, h: History)
    requires c.project == Some(p) && c.dispute == Some(d) && p.freelancer.Some?
    requires d.status == Appealable && d.ruling.Some? && 1 <= d.round <= 2
    requires appellant == LosingParty(d.ruling.value, p.client, p.freelancer.value)
    requires now < SatAdd(d.startBlock, cfg.appealPeriod, cfg.maxBlock)
    requires HistoryOk(cfg, c, h)
    ensures HistoryOk(cfg, Appealed(cfg, now, c, p, d, appellant, jury),
                      h.(appeals := h.appeals + [Appeal(now, appellant)]))
  {
    hide TopReward, BondOf, CostOf, FeesOf, SumMap, TotalAward, Seated, AwardsBounded, LosingParty, SatAdd, Elements;
    hide BondsFollow, AppealsByLosers, Timely;
    var round := d.round + 1;
    AppealedBonds(c.bonds, Bond(appellant, BondOf(cfg, p.budget, round)), h.appeals, now);
    AppealedLosers(p, h, Appeal(now, appellant));
    AppealedInTime(cfg, h, Appeal(now, appellant));
  }

  lemma VotedHistory(cfg: Config, c: Case, d: Dispute, seat: nat, vote: Vote, h: History)
    requires c.dispute == Some(d) && d.status == Voting && seat < |d.jurors|
    requires HistoryOk(cfg, c, h)
    ensures HistoryOk(cfg, c.(dispute := Some(Voted(d, seat, vote))), h)
  {
  }

  lemma FinalizedHistory(cfg: Config, now: BlockNumber, c: Case, p: Project, d: Dispute, h: History)
    requires c.project == Some(p) && c.dispute == Some(d) && OpenOk(cfg, p, d, c)
    requires d.status == Voting && HistoryOk(cfg, c, h)
    requires now >= SatAdd(d.startBlock, cfg.votingPeriod, cfg.maxBlock)
    ensures var ruling := RoundRuling(d.votes);
      HistoryOk(cfg, c.(dispute := Some(d.(ruling := Some(ruling), status := Appealable, startBlock := now)),
                        rewards := RewardsAfterRound(cfg, c.rewards, FeesAt(c, d.round), d.votes, ruling)),
                h.(decisions := h.decisions + [Decision(now, ruling, |d.votes|,
                                                        RoundAward(cfg, p.budget, d.round, d.votes, ruling))]))
  {
    hide CostsTo, BondsOk, FeesOk, RewardsOk, TopReward, SumMap;
    hide RewardsAfterRound, RoundRuling, RoundAward, JurySize, FeesAt;
    hide Sitting, Flagged, DistinctSeats, BondsFollow, AppealsByLosers, AwardsBounded, TotalAward, Timely;
    var ruling := RoundRuling(d.votes);
    var award := RoundAward(cfg, p.budget, d.round, d.votes, ruling);
    RoundPays(cfg, p, d, c);
    AwardBound(cfg, p.budget, d.round, d.votes, ruling);
    assert |h.decisions| == d.round - 1;
    OneDecisionMore(cfg, p, h, Decision(now, ruling, |d.votes|, award));
  }

  lemma OneRulingMore(p: Project, h: History, last: Decision)
    requires p.freelancer.Some? && AppealsByLosers(p, h)
    ensures AppealsByLosers(p, h.(decisions := h.decisions + [last]))
  {
    hide LosingParty;
  }

  lemma AwardDecided(cfg: Config, p: Project, decisions: seq<Decision>, last: Decision)
    requires AwardsBounded(cfg, p, decisions) && |decisions| >= 1
    requires last.voters <= JurySize(cfg, |decisions| + 1)
    requires last.award <= last.voters * TopReward(cfg, p.budget, |decisions| + 1)
    ensures AwardsBounded(cfg, p, decisions + [last])
    ensures TotalAward(decisions + [last]) == TotalAward(decisions) + last.award
  {
    hide TopReward, JurySize;
    assert (decisions + [last])[..|decisions|] == decisions;
  }

  lemma DecidedInTime(cfg: Config, h: History, last: Decision)
    requires Timely(cfg, h) && |h.decisions| >= 1 && |h.appeals| == |h.decisions|
    requires last.block >= SatAdd(h.appeals[|h.appeals| - 1].block, cfg.votingPeriod, cfg.maxBlock)
    ensures Timely(cfg, h.(decisions := h.decisions + [last]))
  {
    hide SatAdd;
  }

  lemma OneDecisionMore(cfg: Config, p: Project, h: History, last: Decision)
    requires p.freelancer.Some? && AppealsByLosers(p, h) && AwardsBounded(cfg, p, h.decisions) && Timely(cfg, h)
    requires |h.decisions| >= 1 && |h.appeals| == |h.decisions|
    requires last.block >= SatAdd(h.appeals[|h.appeals| - 1].block, cfg.votingPeriod, cfg.maxBlock)
    requires last.voters <= JurySize(cfg, |h.decisions| + 1)
    requires last.award <= last.voters * TopReward(cfg, p.budget, |h.decisions| + 1)
    ensures var g := h.(decisions := h.decisions + [last]);
      && AppealsByLosers(p, g) && AwardsBounded(cfg, p, g.decisions) && Timely(cfg, g)
      && TotalAward(g.decisions) == TotalAward(h.decisions) + last.award
  {
    hide TopReward, JurySize, AppealsByLosers, AwardsBounded, Timely, TotalAward, SatAdd;
    OneRulingMore(p, h, last);
    AwardDecided(cfg, p, h.decisions, last);
    DecidedInTime(cfg, h, last);
  }

  lemma ClosedHistory(cfg: Config, c: Case, p: Project, d: Dispute, h: History)
    requires c.project == Some(p) && c.dispute == Some(d) && d.ruling.Some? && HistoryOk(cfg, c, h)
    ensures HistoryOk(cfg, Case(Some(p.(status := Completed)), c.applicants, Some(d.(status := Finalized)),
                                map[], None, map[], map[], map[], map[]), h)
  {
    hide TopReward, SumMap, TotalAward;
  }
}
