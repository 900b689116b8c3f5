/**
  What opening a dispute, appealing it and deciding a round leave behind, outright: prices as
  percentages of the budget, juries by tier, rewards by vote.
*/
module Rounds {
  import opened Prelude
  import opened Types
  import opened Currency
  import opened Reputation
  import opened JurorIndex
  import opened SelectionTheorems
  import opened Projects
  import opened Arbitration
  import opened FeeTheorems
  import opened DisputeProtocol
  import opened DisputeCalls
  import opened Escrow
  import opened ReserveLedger
  import opened ChainInvariant
  import opened System
  import opened Chronicle
  import opened Admission

  /** All prices, for a budget small enough not to saturate; no other round has a price. */
  lemma PriceList(cfg: Config, budget: Balance)
    requires 50 * budget <= cfg.maxBalance
    ensures AppealBond(cfg, budget, 1) == Ok(5 * budget / 100)
    ensures AppealBond(cfg, budget, 2) == Ok(20 * budget / 100)
    ensures AppealBond(cfg, budget, 3) == Ok(50 * budget / 100)
    ensures ArbitrationCost(cfg, budget, 1) == Ok(2 * budget / 100)
    ensures ArbitrationCost(cfg, budget, 2) == Ok(5 * budget / 100)
    ensures ArbitrationCost(cfg, budget, 3) == Ok(8 * budget / 100)
    ensures JuryFees(cfg, budget, 2) == Ok(JuryFee(budget / 100, budget / 100 / 4))
    ensures JuryFees(cfg, budget, 3) == Ok(JuryFee(2 * budget / 100, 2 * budget / 100 / 4))
    ensures forall round: nat :: round == 0 || round > 3 ==>
      AppealBond(cfg, budget, round).Err? && ArbitrationCost(cfg, budget, round).Err?
    ensures forall round: nat :: round < 2 || round > 3 ==> JuryFees(cfg, budget, round).Err?
  {
  }

  // ---------- opening a dispute ----------

  /**
    In a reachable state a dispute opens exactly for the freelancer of a project in review or
    rejected, without a dispute yet, whose bond of 5 percent is zero, or is free money that
    leaves enough free for every lock of the account.
  */
  lemma DisputeOpensExactly(cfg: Config, s: State, who: AccountId, id: ProjectId, created: nat)
    requires Inv(cfg, s, created)
    ensures AfterCreateDispute(cfg, s, who, id).Ok? <==>
      && id !in s.arb.disputes && id in s.proj.projects
      && (var p := s.proj.projects[id]; var bond := Min(5 * p.budget, cfg.maxBalance) / 100;
          && p.freelancer == Some(who) && (p.status == InReview || p.status == Rejected)
          && (bond == 0
              || (bond <= Free(s.ledger, who)
                  && forall k :: k in s.ledger.locks && k.0 == who ==>
                       s.ledger.locks[k] <= Free(s.ledger, who) - bond)))
  {
    hide AfterCreateDispute, IndexOk, EscrowOk, ReservesExact, MoneyOk, IdsOk, OpenOk, NothingOwed;
    CallsDecided(cfg, s, CreateDispute(who, id));
    assert CaseOk(cfg, CaseOf(s, id));
  }

  /** Who judges in which round. */
  predicate Qualifies(t: JurorTier, round: nat) {
    if round == 2 then t in {Bronze, Silver, Gold} else t in {Silver, Gold}
  }

  /** What an appeal into `round` seats: a full jury of registered outsiders whose statistics earn the tier. */
  ghost predicate JuryOf(cfg: Config, s: State, p: Project, round: nat, seats: seq<(AccountId, bool)>) {
    && |seats| == (if round == 2 then cfg.minJurors else cfg.maxJurors)
    && (forall i, j :: 0 <= i < j < |seats| ==> seats[i].0 != seats[j].0)
    && forall i :: 0 <= i < |seats| ==>
         && !seats[i].1
         && seats[i].0 in s.rep.registry && seats[i].0 != p.client && p.freelancer != Some(seats[i].0)
         && Qualifies(TierFromStats(StatsOf(s.rep, seats[i].0)), round)
  }

  lemma JuryQualifies(cfg: Config, r: RepStore, client: AccountId, freelancer: AccountId, round: nat, j: AccountId)
    requires IndexOk(cfg, r) && (round == 2 || round == 3)
    requires j in Selection(r, RequiredTier(round), [client, freelancer], JurySize(cfg, round)).0
    ensures j in r.registry && j != client && j != freelancer && Qualifies(TierFromStats(StatsOf(r, j)), round)
  {
    hide Selection, IndexOk, TierFromStats;
    SelectedJurorsQualify(cfg, r, RequiredTier(round), [client, freelancer], JurySize(cfg, round));
    assert [client, freelancer][0] == client && [client, freelancer][1] == freelancer;
  }

  /** An appeal seats such a jury: Bronze or better in the second round, Silver or better in the third. */
  lemma AppealSeats(cfg: Config, s: State, t: State, who: AccountId, id: ProjectId, created: nat)
    requires Inv(cfg, s, created) && AfterAppealRuling(cfg, s, who, id) == Ok(t)
    ensures id in s.proj.projects && id in s.arb.disputes && id in t.arb.disputes
    ensures var round := s.arb.disputes[id].round + 1;
      (round == 2 || round == 3) && JuryOf(cfg, s, s.proj.projects[id], round, t.arb.disputes[id].jurors)
  {
    hide AfterAppealRuling, Selection, JurySize, RequiredTier, LosingParty, BondOf, CostOf, FeesOf, AfterReserve;
    hide AllCases, EscrowOk, ReservesExact, MoneyOk, IdsOk, IndexOk, Qualifies;
    var p, d, jury := AppealSucceeded(cfg, s, who, id);
    JuryOutside(cfg, s.rep, p, d.round + 1);
    var seats := t.arb.disputes[id].jurors;
    assert seats == Seated(jury);
    forall i | 0 <= i < |seats|
      ensures !seats[i].1
      ensures seats[i].0 in s.rep.registry && seats[i].0 != p.client && p.freelancer != Some(seats[i].0)
      ensures Qualifies(TierFromStats(StatsOf(s.rep, seats[i].0)), d.round + 1)
    {
      JuryQualifies(cfg, s.rep, p.client, p.freelancer.value, d.round + 1, jury[i]);
    }
    SizeOf(cfg, d.round + 1);
  }

  lemma SizeOf(cfg: Config, round: nat)
    ensures JurySize(cfg, round) == if round == 2 then cfg.minJurors else cfg.maxJurors
  {
  }

  /** The money side of a dispute opened or appealed, and its clock. */
  ghost predicate RoundOpened(cfg: Config, s: State, t: State, who: AccountId, id: ProjectId, round: nat)
    requires id in s.proj.projects
  {
    var budget := s.proj.projects[id].budget;
    var bond := Min(budget * (if round == 1 then 5 else if round == 2 then 20 else 50), cfg.maxBalance) / 100;
    var cost := Min(budget * (if round == 1 then 2 else if round == 2 then 5 else 8), cfg.maxBalance) / 100;
    && id in t.arb.disputes && t.arb.disputes[id].round == round && t.arb.disputes[id].startBlock == s.now
    && t.arb.disputes[id].ruling == None && t.arb.disputes[id].votes == map[]
    && t.arb.bonds == s.arb.bonds[id := Prefix(s.arb.bonds, id)[round := Bond(who, bond)]]
    && t.arb.costs == s.arb.costs[id := Min(Get(s.arb.costs, id) + cost, cfg.maxBalance)]
    && t.arb.rewards == s.arb.rewards
    && (forall a :: Free(t.ledger, a) == Free(s.ledger, a) - (if a == who then bond else 0))
    && (forall a :: Reserved(t.ledger, a) == Reserved(s.ledger, a) + (if a == who then bond else 0))
    && t.ledger.locks == s.ledger.locks && t.ledger.issuance == s.ledger.issuance
    && (forall j :: j != id ==> (j in t.arb.disputes <==> j in s.arb.disputes))
    && (forall j :: j != id && j in s.arb.disputes ==> t.arb.disputes[j] == s.arb.disputes[j])
  }

  lemma BondMoves(l: Ledger, who: AccountId, bond: Balance)
    requires AfterReserve(l, who, bond).Ok?
    ensures var m := AfterReserve(l, who, bond).value;
      && (forall a :: Free(m, a) == Free(l, a) - (if a == who then bond else 0))
      && (forall a :: Reserved(m, a) == Reserved(l, a) + (if a == who then bond else 0))
      && m.locks == l.locks && m.issuance == l.issuance
  {
  }

  lemma PriceOf(cfg: Config, budget: Balance, round: nat)
    requires 1 <= round <= 3
    ensures BondOf(cfg, budget, round)
         == Min(budget * (if round == 1 then 5 else if round == 2 then 20 else 50), cfg.maxBalance) / 100
    ensures CostOf(cfg, budget, round)
         == Min(budget * (if round == 1 then 2 else if round == 2 then 5 else 8), cfg.maxBalance) / 100
    ensures CostOf(cfg, budget, round) <= cfg.maxBalance
    ensures round >= 2 ==>
      var base := Min(budget * (round - 1), cfg.maxBalance) / 100;
      FeesOf(cfg, budget, round) == JuryFee(base, base / 4)
  {
  }

  /**
    A dispute opens for the AI to decide, with a bond of 5 percent and a cost of 2, the project
    in dispute and nobody's statistics or tier touched.
  */
  lemma DisputeOpened(cfg: Config, s: State, t: State, who: AccountId, id: ProjectId, created: nat)
    requires Inv(cfg, s, created) && AfterCreateDispute(cfg, s, who, id) == Ok(t)
    ensures id in s.proj.projects && s.proj.projects[id].submission.Some?
    ensures var p := s.proj.projects[id];
      && RoundOpened(cfg, s, t, who, id, 1)
      && t.arb.disputes[id] == Dispute(AiProcessing, p.uri, p.submission.value.uri, s.now, None, 1, [], map[])
      && t.proj == s.proj.(projects := s.proj.projects[id := p.(status := InDispute)])
      && t.rep == s.rep && t.arb.fees == s.arb.fees
  {
    hide AllCases, EscrowOk, ReservesExact, MoneyOk, IdsOk, IndexOk, AfterReserve, BondOf, CostOf, CaseOf;
    hide AfterCreateDispute, NothingOwed;
    CreationWrites(cfg, s, who, id);
    BondMoves(s.ledger, who, BondOf(cfg, s.proj.projects[id].budget, 1));
    PriceOf(cfg, s.proj.projects[id].budget, 1);
    NoDispute(cfg, s, id);
    NoCost(cfg, s, id);
  }

  lemma NoCost(cfg: Config, s: State, id: ProjectId)
    requires NothingOwed(CaseOf(s, id))
    ensures Get(s.arb.costs, id) == 0
  {
    assert CaseOf(s, id).cost == None;
  }

  lemma CreationWrites(cfg: Config, s: State, who: AccountId, id: ProjectId)
    requires AfterCreateDispute(cfg, s, who, id).Ok?
    ensures id !in s.arb.disputes && id in s.proj.projects && s.proj.projects[id].submission.Some?
    ensures var t, p := AfterCreateDispute(cfg, s, who, id).value, s.proj.projects[id];
      var bond := BondOf(cfg, p.budget, 1);
      && AfterReserve(s.ledger, who, bond) == Ok(t.ledger)
      && t.now == s.now && t.rep == s.rep
      && t.proj == s.proj.(projects := s.proj.projects[id := p.(status := InDispute)])
      && t.arb == s.arb.(
           disputes := s.arb.disputes[id :=
             Dispute(AiProcessing, p.uri, p.submission.value.uri, s.now, None, 1, [], map[])],
           bonds := s.arb.bonds[id := Prefix(s.arb.bonds, id)[1 := Bond(who, bond)]],
           costs := s.arb.costs[id := CostOf(cfg, p.budget, 1)])
  {
    hide AfterReserve, Percent;
  }

  /** A seated juror is owed 1 percent of the budget in the second round and 2 in the third, a quarter as bonus. */
  ghost predicate FeesOwed(cfg: Config, s: State, t: State, id: ProjectId, budget: Balance, round: nat)
    requires id in t.arb.disputes && round >= 2
  {
    var base := Min(budget * (round - 1), cfg.maxBalance) / 100;
    && (forall k :: k != (id, round) ==> Prefix(t.arb.fees, k) == Prefix(s.arb.fees, k))
    && forall i :: 0 <= i < |t.arb.disputes[id].jurors| ==>
         Lookup(Prefix(t.arb.fees, (id, round)), t.arb.disputes[id].jurors[i].0) == Some(JuryFee(base, base / 4))
  }

  /**
    An appeal opens the next round: 20 and then 50 percent as bond, 5 and then 8 as cost, and
    fees for the jurors it seats.
  */
  lemma AppealOpened(cfg: Config, s: State, t: State, who: AccountId, id: ProjectId)
    requires AfterAppealRuling(cfg, s, who, id) == Ok(t)
    ensures id in s.proj.projects && id in s.arb.disputes && 1 <= s.arb.disputes[id].round <= 2
    ensures var round := s.arb.disputes[id].round + 1;
      && RoundOpened(cfg, s, t, who, id, round)
      && t.arb.disputes[id].status == Voting && t.proj == s.proj
      && t.rep == s.rep.(nextIndex := t.rep.nextIndex)
      && FeesOwed(cfg, s, t, id, s.proj.projects[id].budget, round)
  {
    hide AfterAppealRuling, Selection, JurySize, RequiredTier, LosingParty, BondOf, CostOf, FeesOf, AfterReserve;
    hide RoundOpened, FeesOwed;
    var p, d, jury := AppealSucceeded(cfg, s, who, id);
    var round := d.round + 1;
    var s1, s2 := SelectionPasses(s.rep, RequiredTier(round), [p.client, p.freelancer.value], JurySize(cfg, round));
    AppealPays(cfg, s, t, who, id, p, d, jury);
    AppealOwes(cfg, s, t, who, id, p, d, jury);
  }

  lemma AppealPays(cfg: Config, s: State, t: State, who: AccountId, id: ProjectId, p: Project, d: Dispute,
                   jury: seq<AccountId>)
    requires AppealFacts(cfg, s, t, who, id, p, d, jury)
    ensures RoundOpened(cfg, s, t, who, id, d.round + 1)
  {
    hide Selection, JurySize, RequiredTier, LosingParty, BondOf, CostOf, FeesOf, AfterReserve, Seated;
    BondMoves(s.ledger, who, BondOf(cfg, p.budget, d.round + 1));
    PriceOf(cfg, p.budget, d.round + 1);
  }

  lemma AppealOwes(cfg: Config, s: State, t: State, who: AccountId, id: ProjectId, p: Project, d: Dispute,
                   jury: seq<AccountId>)
    requires AppealFacts(cfg, s, t, who, id, p, d, jury)
    ensures FeesOwed(cfg, s, t, id, p.budget, d.round + 1)
  {
    hide Selection, JurySize, RequiredTier, LosingParty, BondOf, CostOf, FeesOf, AfterReserve;
    PriceOf(cfg, p.budget, d.round + 1);
    forall i | 0 <= i < |jury| ensures jury[i] in Elements(jury) {
    }
  }

  /** The AI's ruling opens the first appeal period. */
  lemma RulingSubmitted(cfg: Config, s: State, t: State, id: ProjectId, ruling: Ruling)
    requires Apply(cfg, s, SubmitRuling(id, ruling)) == Ok(t)
    ensures id in s.arb.disputes
    ensures t == s.(arb := s.arb.(disputes := s.arb.disputes[id :=
      s.arb.disputes[id].(ruling := Some(ruling), status := Appealable, startBlock := s.now)]))
  {
  }

  /** A vote goes on record and flags the juror's first seat, and changes nothing else. */
  lemma VoteCast(cfg: Config, s: State, t: State, who: AccountId, id: ProjectId, vote: Vote)
    requires Apply(cfg, s, CastVote(who, id, vote)) == Ok(t)
    ensures id in s.arb.disputes && id in t.arb.disputes
    ensures var d, e := s.arb.disputes[id], t.arb.disputes[id];
      && t == s.(arb := s.arb.(disputes := s.arb.disputes[id := d.(votes := d.votes[who := vote], jurors := e.jurors)]))
      && |e.jurors| == |d.jurors|
      && exists i :: && 0 <= i < |d.jurors| && d.jurors[i] == (who, false)
                     && e.jurors == d.jurors[i := (who, true)] && (forall k :: 0 <= k < i ==> d.jurors[k].0 != who)
  {
    var d := s.arb.disputes[id];
    var seat := SeatOf(d.jurors, who);
    assert t.arb.disputes[id].jurors == d.jurors[seat := (who, true)];
  }

  // ---------- deciding a round ----------

  /**
    A finalized round rules for the side with more votes, a tie for the freelancer, and pays
    every voter 1 percent of the budget in the second round and 2 in the third, with a quarter
    of that on top for a vote on the winning side, in full.
  */
  lemma RoundDecides(cfg: Config, s: State, t: State, id: ProjectId, created: nat)
    requires Inv(cfg, s, created) && AfterFinalizeRound(cfg, s, id) == Ok(t)
    ensures id in s.proj.projects && id in s.arb.disputes && s.arb.disputes[id].round >= 1
    ensures var d := s.arb.disputes[id];
      && t.arb == s.arb.(disputes := s.arb.disputes[id := d.(ruling := Some(FavouredRuling(d.votes)),
                                                            status := Appealable, startBlock := s.now)],
                         rewards := t.arb.rewards)
      && t.proj == s.proj
      && RoundPaid(cfg, s, t, id, s.proj.projects[id].budget, d.round, d.votes)
  {
    hide AfterFinalizeRound, AfterJuryVotes, RewardsAfterRound, RoundRuling, VoteOrder, Favoured, FeesOf, OpenOk;
    hide AllCases, EscrowOk, ReservesExact, MoneyOk, IdsOk, IndexOk, CaseOf, RoundPaid;
    FinalizeFacts(cfg, s, id);
    OpenCase(cfg, s, id);
    var d, p, c := s.arb.disputes[id], s.proj.projects[id], CaseOf(s, id);
    VotingRounds(cfg, p, d, c);
    RulingIsFavoured(d.votes);
    CaseReads(s, id, d.round);
    PaidOut(cfg, s, t, id, p, d, c);
  }

  /** The ruling by count, a tie for the freelancer. */
  function FavouredRuling(votes: map<AccountId, Vote>): Ruling {
    if Favoured(votes) == ForClient then ClientWins else FreelancerWins
  }

  /** Every voter gets the fee, those on the winning side the bonus as well, and nobody else anything. */
  ghost predicate RoundPaid(cfg: Config, s: State, t: State, id: ProjectId, budget: Balance, round: nat,
                            votes: map<AccountId, Vote>)
    requires round >= 1
  {
    var base := Min(budget * (round - 1), cfg.maxBalance) / 100;
    && (forall j :: Get(Prefix(t.arb.rewards, id), j) == Get(Prefix(s.arb.rewards, id), j)
          + (if j in votes then base + (if votes[j] == Favoured(votes) then base / 4 else 0) else 0))
    && (forall k :: k != id ==> Prefix(t.arb.rewards, k) == Prefix(s.arb.rewards, k))
  }

  lemma PaidOut(cfg: Config, s: State, t: State, id: ProjectId, p: Project, d: Dispute, c: Case)
    requires OpenOk(cfg, p, d, c) && d.status == Voting && 2 <= d.round <= 3
    requires c.rewards == Prefix(s.arb.rewards, id)
    requires t.arb.rewards
          == s.arb.rewards[id := RewardsAfterRound(cfg, c.rewards, FeesAt(c, d.round), d.votes, RoundRuling(d.votes))]
    ensures RoundPaid(cfg, s, t, id, p.budget, d.round, d.votes)
  {
    hide OpenOk, RewardsAfterRound, RoundRuling, Favoured, FeesOf, FeesAt;
    PriceOf(cfg, p.budget, d.round);
    forall j ensures Get(Prefix(t.arb.rewards, id), j) == Get(Prefix(s.arb.rewards, id), j)
      + (if j in d.votes
         then FeesOf(cfg, p.budget, d.round).base
              + (if d.votes[j] == Favoured(d.votes) then FeesOf(cfg, p.budget, d.round).bonus else 0)
         else 0)
    {
      VoterPaid(cfg, p, d, c, j);
    }
  }

  lemma RulingIsFavoured(votes: map<AccountId, Vote>)
    ensures RoundRuling(votes) == FavouredRuling(votes)
  {
    FavouredAgrees(votes, ForClient);
  }

  lemma CaseReads(s: State, id: ProjectId, round: nat)
    requires 2 <= round <= 3
    ensures CaseOf(s, id).rewards == Prefix(s.arb.rewards, id)
    ensures FeesAt(CaseOf(s, id), round) == Prefix(s.arb.fees, (id, round))
  {
  }

  lemma VoterPaid(cfg: Config, p: Project, d: Dispute, c: Case, j: AccountId)
    requires OpenOk(cfg, p, d, c) && d.status == Voting
    ensures Get(RewardsAfterRound(cfg, c.rewards, FeesAt(c, d.round), d.votes, RoundRuling(d.votes)), j)
         == Get(c.rewards, j)
            + (if j in d.votes
               then FeesOf(cfg, p.budget, d.round).base
                    + (if d.votes[j] == Favoured(d.votes) then FeesOf(cfg, p.budget, d.round).bonus else 0)
               else 0)
  {
    hide OpenOk, FeesOf, EarnedCap, Favoured, RoundRuling, Agrees, FeesAt;
    if j in d.votes {
      RewardUnsaturated(cfg, p, d, c, j);
      FavouredAgrees(d.votes, d.votes[j]);
    }
  }
}
