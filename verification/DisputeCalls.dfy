/**
  Every arbitration call keeps the dispute protocol.
*/
module DisputeCalls {
  import opened Prelude
  import opened Types
  import opened Currency
  import opened Reputation
  import opened JurorIndex
  import opened SelectionTheorems
  import opened Projects
  import opened Arbitration
  import opened FeeTheorems
  import opened DisputeProtocol

  lemma FirstCost(cfg: Config, budget: Balance)
    ensures CostsTo(cfg, budget, 1) == CostOf(cfg, budget, 1)
  {
    PercentWithin(cfg, budget, 2);
    assert CostsTo(cfg, budget, 1) == SatAdd(CostsTo(cfg, budget, 0), CostOf(cfg, budget, 1), cfg.maxBalance);
  }

  /** The case of a dispute just opened. */
  function Opened(cfg: Config, now: BlockNumber, c: Case, p: Project, freelancer: AccountId, submission: Uri): Case {
    c.(project := Some(p.(status := InDispute)),
       dispute := Some(Dispute(AiProcessing, p.uri, submission, now, None, 1, [], map[])),
       bonds := c.bonds[1 := Bond(freelancer, BondOf(cfg, p.budget, 1))],
       cost := Some(CostOf(cfg, p.budget, 1)))
  }

  lemma CreateDisputeCase(cfg: Config, s: State, freelancer: AccountId, id: ProjectId)
    requires AfterCreateDispute(cfg, s, freelancer, id).Ok?
    ensures var t := AfterCreateDispute(cfg, s, freelancer, id).value; var p := s.proj.projects[id];
      && id in s.proj.projects && id !in s.arb.disputes
      && p.freelancer == Some(freelancer) && p.submission.Some?
      && CaseOf(t, id) == Opened(cfg, s.now, CaseOf(s, id), p, freelancer, p.submission.value.uri)
      && OnlyCase(s, t, id) && SameFeeRounds(s, t)
  {
    hide Percent;
  }

  lemma OpenedOk(cfg: Config, now: BlockNumber, c: Case, p: Project, freelancer: AccountId, submission: WorkSubmission)
    requires CaseOk(cfg, c) && c.dispute == None && c.project == Some(p)
    requires p.freelancer == Some(freelancer) && p.submission == Some(submission)
    ensures CaseOk(cfg, Opened(cfg, now, c, p, freelancer, submission.uri))
  {
    FirstCost(cfg, p.budget);
    hide CostOf, CostsTo, BondOf, FeesOf, TopReward;
    var o := Opened(cfg, now, c, p, freelancer, submission.uri);
    assert o.bonds == map[1 := Bond(freelancer, BondOf(cfg, p.budget, 1))];
    assert OpenOk(cfg, o.project.value, o.dispute.value, o);
  }

  lemma OpenedFresh(cfg: Config, now: BlockNumber, c: Case, p: Project, freelancer: AccountId, submission: Uri)
    requires NothingOwed(c)
    ensures Opened(cfg, now, c, p, freelancer, submission)
         == Case(Some(p.(status := InDispute)), c.applicants,
                 Some(Dispute(AiProcessing, p.uri, submission, now, None, 1, [], map[])),
                 map[1 := Bond(freelancer, BondOf(cfg, p.budget, 1))], Some(CostOf(cfg, p.budget,
                                                                                   1)), map[], map[], map[], map[])
  {
    hide BondOf, CostOf;
  }

  lemma CreateDisputeKeepsCases(cfg: Config, s: State, freelancer: AccountId, id: ProjectId)
    requires AllCases(cfg, s)
    requires AfterCreateDispute(cfg, s, freelancer, id).Ok?
    ensures var t := AfterCreateDispute(cfg, s, freelancer, id).value; var p := s.proj.projects[id];
      && AllCases(cfg, t) && OnlyCase(s, t, id)
      && id in s.proj.projects && p.freelancer == Some(freelancer) && p.submission.Some?
      && CaseOf(t, id) == Case(Some(p.(status := InDispute)), CaseOf(s, id).applicants,
           Some(Dispute(AiProcessing, p.uri, p.submission.value.uri, s.now, None, 1, [], map[])),
           map[1 := Bond(freelancer, BondOf(cfg, p.budget, 1))], Some(CostOf(cfg, p.budget,
                                                                             1)), map[], map[], map[], map[])
  {
    CreateDisputeCase(cfg, s, freelancer, id);
    hide AfterCreateDispute, CaseOk, Opened;
    var p := s.proj.projects[id];
    assert CaseOk(cfg, CaseOf(s, id));
    OpenedOk(cfg, s.now, CaseOf(s, id), p, freelancer, p.submission.value);
    NoDispute(cfg, s, id);
    OpenedFresh(cfg, s.now, CaseOf(s, id), p, freelancer, p.submission.value.uri);
    CasesKept(cfg, s, AfterCreateDispute(cfg, s, freelancer, id).value, id);
  }

  lemma PercentWithin(cfg: Config, budget: Balance, p: nat)
    ensures Percent(cfg, budget, p) <= cfg.maxBalance / 100
  {
  }

  lemma SubmitRulingKeepsCases(cfg: Config, s: State, id: ProjectId, ruling: Ruling)
    requires AllCases(cfg, s)
    requires AfterSubmitRuling(s, id, ruling).Ok?
    ensures var t := AfterSubmitRuling(s, id, ruling).value;
      AllCases(cfg, t) && OnlyCase(s, t, id)
  {
    hide CostsTo, FeesOf, BondsOk, FeesOk, EarnedCap, JurySize, Sitting, Flagged, DistinctSeats;
    var t := AfterSubmitRuling(s, id, ruling).value;
    assert CaseOk(cfg, CaseOf(s, id));
    CasesKept(cfg, s, t, id);
  }

  // ---------- appeals ----------

  lemma SeatedJury(jury: seq<AccountId>)
    requires Distinct(jury)
    ensures DistinctSeats(Seated(jury))
    ensures Sitting(Seated(jury)) == Elements(jury)
    ensures Flagged(Seated(jury)) == {}
  {
    var seats := Seated(jury);
    forall a | a in Elements(jury) ensures a in Sitting(seats) {
      var i :| 0 <= i < |jury| && jury[i] == a;
      assert seats[i].0 == a;
    }
  }

  /** A full jury: the exact size, distinct, registered, and none of the parties. */
  lemma JurySelected(cfg: Config, r: RepStore, minTier: JurorTier, exclude: seq<AccountId>, size: nat)
    requires IndexOk(cfg, r)
    requires |Selection(r, minTier, exclude, size).0| >= size
    ensures var jury := Selection(r, minTier, exclude, size).0;
      && |jury| == size
      && Distinct(jury)
      && forall j :: j in jury ==> j !in exclude && j != cfg.arbitrator
  {
    SelectionSound(r, minTier, exclude, size);
    SelectedJurorsQualify(cfg, r, minTier, exclude, size);
  }

  /** The case of a dispute appealed into `round`. */
  function Appealed(cfg: Config, now: BlockNumber, c: Case, p: Project, d: Dispute,
                    appellant: AccountId, jury: seq<AccountId>): Case
  {
    var round := d.round + 1;
    var fees := map j | j in Elements(jury) :: FeesOf(cfg, p.budget, round);
    c.(dispute := Some(d.(round := round, status := Voting, jurors := Seated(jury),
                          votes := map[], ruling := None, startBlock := now)),
       bonds := c.bonds[round := Bond(appellant, BondOf(cfg, p.budget, round))],
       cost := Some(SatAdd(c.cost.GetOr(0), CostOf(cfg, p.budget, round), cfg.maxBalance)),
       fees2 := if round == 2 then c.fees2 + fees else c.fees2,
       fees3 := if round == 3 then c.fees3 + fees else c.fees3)
  }

  function ArbAfterAppeal(cfg: Config, now: BlockNumber, arb: ArbStore, id: ProjectId, p: Project, d: Dispute,
                          appellant: AccountId, jury: seq<AccountId>): ArbStore
  {
    var round := d.round + 1;
    arb.(disputes := arb.disputes[id := d.(round := round, status := Voting, jurors := Seated(jury),
                                           votes := map[], ruling := None, startBlock := now)],
         bonds := arb.bonds[id := Prefix(arb.bonds, id)[round := Bond(appellant, BondOf(cfg, p.budget, round))]],
         costs := arb.costs[id := SatAdd(Get(arb.costs, id), CostOf(cfg, p.budget, round), cfg.maxBalance)],
         fees := arb.fees[(id, round) :=
           Prefix(arb.fees, (id, round)) + (map j | j in Elements(jury) :: FeesOf(cfg, p.budget, round))])
  }

  /** What an appeal that succeeded tells about the state it started from. */
  ghost predicate AppealFacts(cfg: Config, s: State, t: State, appellant: AccountId, id: ProjectId,
                              p: Project, d: Dispute, jury: seq<AccountId>) {
    && Lookup(s.proj.projects, id) == Some(p) && p.freelancer.Some?
    && Lookup(s.arb.disputes, id) == Some(d)
    && d.status == Appealable && d.ruling.Some? && 1 <= d.round <= 2
    && s.now < SatAdd(d.startBlock, cfg.appealPeriod, cfg.maxBlock)
    && appellant == LosingParty(d.ruling.value, p.client, p.freelancer.value)
    && |jury| >= JurySize(cfg, d.round + 1)
    && Selection(s.rep, RequiredTier(d.round + 1), [p.client, p.freelancer.value], JurySize(cfg, d.round + 1))
         == (jury, t.rep)
    && AfterReserve(s.ledger, appellant, BondOf(cfg, p.budget, d.round + 1)) == Ok(t.ledger)
    && t.now == s.now
    && t.proj == s.proj
    && t.arb == ArbAfterAppeal(cfg, s.now, s.arb, id, p, d, appellant, jury)
  }

  lemma AppealGuards(cfg: Config, s: State, appellant: AccountId, id: ProjectId)
    requires AfterAppealRuling(cfg, s, appellant, id).Ok?
    ensures id in s.arb.disputes && id in s.proj.projects
    ensures var d, p := s.arb.disputes[id], s.proj.projects[id];
      && p.freelancer.Some? && d.status == Appealable && d.ruling.Some? && 1 <= d.round <= 2
      && s.now < SatAdd(d.startBlock, cfg.appealPeriod, cfg.maxBlock)
      && appellant == LosingParty(d.ruling.value, p.client, p.freelancer.value)
  {
    hide AppealBond, ArbitrationCost, JuryFees, Selection, AfterReserve, LosingParty, JurySize, RequiredTier, Seated;
  }

  lemma AppealWrites(cfg: Config, s: State, appellant: AccountId, id: ProjectId, p: Project, d: Dispute)
    requires AfterAppealRuling(cfg, s, appellant, id).Ok?
    requires Lookup(s.proj.projects, id) == Some(p) && p.freelancer.Some?
    requires Lookup(s.arb.disputes, id) == Some(d) && 1 <= d.round <= 2
    ensures var t := AfterAppealRuling(cfg, s, appellant, id).value;
      var (jury, rep) := Selection(s.rep, RequiredTier(d.round + 1), [p.client, p.freelancer.value],
                                   JurySize(cfg, d.round + 1));
      && |jury| >= JurySize(cfg, d.round + 1) && t.rep == rep
      && AfterReserve(s.ledger, appellant, BondOf(cfg, p.budget, d.round + 1)) == Ok(t.ledger)
      && t.now == s.now && t.proj == s.proj
      && t.arb == ArbAfterAppeal(cfg, s.now, s.arb, id, p, d, appellant, jury)
  {
    hide Selection, Percent, AfterReserve, LosingParty, JurySize, RequiredTier, Seated;
  }

  lemma AppealSucceeded(cfg: Config, s: State, appellant: AccountId, id: ProjectId)
    returns (p: Project, d: Dispute, jury: seq<AccountId>)
    requires AfterAppealRuling(cfg, s, appellant, id).Ok?
    ensures AppealFacts(cfg, s, AfterAppealRuling(cfg, s, appellant, id).value, appellant, id, p, d, jury)
  {
    hide Selection, AfterReserve, AfterAppealRuling, JurySize, RequiredTier, LosingParty, BondOf, ArbAfterAppeal;
    AppealGuards(cfg, s, appellant, id);
    p, d := s.proj.projects[id], s.arb.disputes[id];
    AppealWrites(cfg, s, appellant, id, p, d);
    jury := Selection(s.rep, RequiredTier(d.round + 1), [p.client, p.freelancer.value], JurySize(cfg, d.round + 1)).0;
  }

  lemma AppealOnly(cfg: Config, s: State, t: State, appellant: AccountId, id: ProjectId,
                   p: Project, d: Dispute, jury: seq<AccountId>)
    requires AppealFacts(cfg, s, t, appellant, id, p, d, jury)
    ensures OnlyCase(s, t, id) && SameFeeRounds(s, t)
  {
    hide Selection, AfterReserve, BondOf, CostOf, FeesOf, Seated;
  }

  lemma AppealCase(cfg: Config, s: State, t: State, appellant: AccountId, id: ProjectId,
                   p: Project, d: Dispute, jury: seq<AccountId>)
    requires AppealFacts(cfg, s, t, appellant, id, p, d, jury)
    requires id in s.arb.costs
    ensures CaseOf(t, id) == Appealed(cfg, s.now, CaseOf(s, id), p, d, appellant, jury)
    ensures OnlyCase(s, t, id) && SameFeeRounds(s, t)
  {
    hide Selection, AfterReserve, BondOf, CostOf, FeesOf, Seated, OnlyCase, SameFeeRounds;
    AppealOnly(cfg, s, t, appellant, id, p, d, jury);
  }

  lemma AppealedFees(cfg: Config, c: Case, p: Project, d: Dispute, a: Case, jury: seq<AccountId>, round: nat)
    requires FeesOk(cfg, p, round, FeesAt(c, round)) && 2 <= round <= 3
    requires forall j :: j in jury ==> Uninvolved(cfg, p, j)
    requires FeesAt(a, round) == FeesAt(c, round)
          || FeesAt(a, round) == FeesAt(c, round) + map j | j in Elements(jury) :: FeesOf(cfg, p.budget, round)
    ensures FeesOk(cfg, p, round, FeesAt(a, round))
  {
  }

  lemma AppealedBonds(cfg: Config, p: Project, round: nat, bonds: map<nat, Bond>, appellant: AccountId)
    requires BondsOk(cfg, p, round, bonds) && round >= 1 && IsParty(p, appellant)
    ensures BondsOk(cfg, p, round + 1, bonds[round + 1 := Bond(appellant, BondOf(cfg, p.budget, round + 1))])
  {
  }

  lemma AppealedRewards(cfg: Config, now: BlockNumber, c: Case, p: Project, d: Dispute, appellant: AccountId,
                        jury: seq<AccountId>)
    requires RewardsOk(cfg, p, d, c) && d.ruling.Some? && 1 <= d.round <= 2
    ensures var a := Appealed(cfg, now, c, p, d, appellant, jury);
      RewardsOk(cfg, p, a.dispute.value, a)
  {
    hide EarnedCap, FeesOf, BondOf, CostOf, Seated;
  }

  lemma AppealedOpen(cfg: Config, now: BlockNumber, c: Case, p: Project, d: Dispute, appellant: AccountId,
                     jury: seq<AccountId>)
    requires OpenOk(cfg, p, d, c) && c.dispute == Some(d)
    requires d.status == Appealable && d.round <= 2 && IsParty(p, appellant)
    requires |jury| == JurySize(cfg, d.round + 1) && Distinct(jury)
    requires forall j :: j in jury ==> Uninvolved(cfg, p, j)
    ensures var a := Appealed(cfg, now, c, p, d, appellant, jury);
      OpenOk(cfg, p, a.dispute.value, a)
  {
    hide CostOf, CostsTo, BondOf, FeesOf, TopReward, Seated, Sitting;
    hide Flagged, JurySize, BondsOk, FeesOk, RewardsOk, Uninvolved, DistinctSeats, Distinct, IsParty;
    SeatedJury(jury);
    CostsGrow(cfg, p.budget, d.round);
    var a := Appealed(cfg, now, c, p, d, appellant, jury);
    AppealedBonds(cfg, p, d.round, c.bonds, appellant);
    AppealedRewards(cfg, now, c, p, d, appellant, jury);
    AppealedFees(cfg, c, p, d, a, jury, 2);
    AppealedFees(cfg, c, p, d, a, jury, 3);
    assert FeesAt(a, d.round + 1).Keys == Elements(jury);
  }

  lemma CostsGrow(cfg: Config, budget: Balance, round: nat)
    requires 1 <= round <= 2
    ensures CostsTo(cfg, budget, round + 1)
         == SatAdd(CostsTo(cfg, budget, round), CostOf(cfg, budget, round + 1), cfg.maxBalance)
  {
    hide CostOf;
  }

  lemma AppealedOk(cfg: Config, now: BlockNumber, c: Case, p: Project, d: Dispute, appellant: AccountId,
                   jury: seq<AccountId>)
    requires CaseOk(cfg, c) && c.project == Some(p) && c.dispute == Some(d)
    requires d.status == Appealable && d.round <= 2 && IsParty(p, appellant)
    requires |jury| == JurySize(cfg, d.round + 1) && Distinct(jury)
    requires forall j :: j in jury ==> Uninvolved(cfg, p, j)
    ensures CaseOk(cfg, Appealed(cfg, now, c, p, d, appellant, jury))
  {
    hide OpenOk, Seated, BondOf, FeesOf, CostOf, Distinct, JurySize, Uninvolved, ProjectOk;
    AppealedOpen(cfg, now, c, p, d, appellant, jury);
  }

  lemma CostOnRecord(cfg: Config, s: State, id: ProjectId)
    requires AllCases(cfg, s) && id in s.arb.disputes && s.arb.disputes[id].status != Finalized
    ensures id in s.arb.costs
  {
    OpenCase(cfg, s, id);
    assert CaseOf(s, id).cost.Some?;
  }

  /** The jury of an appeal holds neither party. */
  lemma JuryOutside(cfg: Config, r: RepStore, p: Project, round: nat)
    requires IndexOk(cfg, r) && p.freelancer.Some?
    requires |Selection(r, RequiredTier(round), [p.client, p.freelancer.value],
                        JurySize(cfg, round)).0| >= JurySize(cfg, round)
    ensures var jury := Selection(r, RequiredTier(round), [p.client, p.freelancer.value], JurySize(cfg, round)).0;
      && |jury| == JurySize(cfg, round) && Distinct(jury)
      && forall j :: j in jury ==> Uninvolved(cfg, p, j)
  {
    hide Selection, IndexOk, JurySize, RequiredTier, Distinct;
    var exclude := [p.client, p.freelancer.value];
    JurySelected(cfg, r, RequiredTier(round), exclude, JurySize(cfg, round));
    assert exclude[0] == p.client && exclude[1] == p.freelancer.value;
  }

  /**
    A dispute just appealed: next round, a full jury that has not voted, one bond more, and all
    costs so far on record.
  */
  ghost predicate FreshRound(cfg: Config, now: BlockNumber, c: Case, a: Case, appellant: AccountId) {
    && c.project.Some? && c.dispute.Some? && a.dispute.Some?
    && (var d, e, budget := c.dispute.value, a.dispute.value, c.project.value.budget;
        && e == d.(round := d.round + 1, status := Voting, jurors := e.jurors, votes := map[], ruling := None,
                   startBlock := now)
        && |e.jurors| == JurySize(cfg, e.round) && DistinctSeats(e.jurors) && Flagged(e.jurors) == {}
        && FeesAt(a, e.round) == (map j | j in Sitting(e.jurors) :: FeesOf(cfg, budget, e.round))
        && a.bonds == c.bonds[e.round := Bond(appellant, BondOf(cfg, budget, e.round))]
        && a.cost == Some(CostsTo(cfg, budget, e.round)))
  }

  lemma AppealIsFresh(cfg: Config, now: BlockNumber, c: Case, p: Project, d: Dispute, appellant: AccountId,
                      jury: seq<AccountId>)
    requires c.project == Some(p) && c.dispute == Some(d) && OpenOk(cfg, p, d, c)
    requires d.status == Appealable && d.round <= 2 && |jury| == JurySize(cfg, d.round + 1) && Distinct(jury)
    ensures FreshRound(cfg, now, c, Appealed(cfg, now, c, p, d, appellant, jury), appellant)
  {
    hide CostOf, CostsTo, BondOf, FeesOf, TopReward, Seated, Sitting, Flagged, JurySize, BondsOk, FeesOk, RewardsOk;
    hide DistinctSeats, Distinct, SatAdd, FeesAt;
    SeatedJury(jury);
    CostsGrow(cfg, p.budget, d.round);
    FeesAdded(cfg, now, c, p, d, appellant, jury);
  }

  /** The fees of the new round are the jury's and nobody else's. */
  lemma FeesAdded(cfg: Config, now: BlockNumber, c: Case, p: Project, d: Dispute, appellant: AccountId,
                  jury: seq<AccountId>)
    requires OpenOk(cfg, p, d, c) && d.round <= 2
    ensures FeesAt(Appealed(cfg, now, c, p, d, appellant, jury), d.round + 1)
         == map j | j in Elements(jury) :: FeesOf(cfg, p.budget, d.round + 1)
  {
    hide CostOf, CostsTo, BondOf, FeesOf, Seated, BondsOk, FeesOk, RewardsOk, Sitting, Flagged, DistinctSeats, Elements;
    assert FeesAt(c, d.round + 1) == map[];
  }

  lemma AppealRulingKeepsCases(cfg: Config, s: State, appellant: AccountId, id: ProjectId)
    requires AllCases(cfg, s) && IndexOk(cfg, s.rep)
    requires AfterAppealRuling(cfg, s, appellant, id).Ok?
    ensures var t := AfterAppealRuling(cfg, s, appellant, id).value;
      && AllCases(cfg, t) && OnlyCase(s, t, id)
      && FreshRound(cfg, s.now, CaseOf(s, id), CaseOf(t, id), appellant)
  {
    hide AfterAppealRuling, Appealed, Selection, IndexOk, CaseOk, BondOf, CostOf, OnlyCase, SameFeeRounds;
    hide ArbAfterAppeal, OpenOk, FreshRound;
    var p, d, jury := AppealSucceeded(cfg, s, appellant, id);
    var t := AfterAppealRuling(cfg, s, appellant, id).value;
    CostOnRecord(cfg, s, id);
    AppealCase(cfg, s, t, appellant, id, p, d, jury);
    JuryOutside(cfg, s.rep, p, d.round + 1);
    assert CaseOk(cfg, CaseOf(s, id));
    AppealedOk(cfg, s.now, CaseOf(s, id), p, d, appellant, jury);
    CasesKept(cfg, s, t, id);
    OpenCase(cfg, s, id);
    AppealIsFresh(cfg, s.now, CaseOf(s, id), p, d, appellant, jury);
  }

  // ---------- votes ----------

  lemma VoteFlags(seats: seq<(AccountId, bool)>, i: nat)
    requires DistinctSeats(seats) && i < |seats|
    ensures var after := seats[i := (seats[i].0, true)];
      && DistinctSeats(after)
      && Sitting(after) == Sitting(seats)
      && Flagged(after) == Flagged(seats) + {seats[i].0}
  {
    var after := seats[i := (seats[i].0, true)];
    assert forall k :: 0 <= k < |seats| ==> after[k].0 == seats[k].0;
    forall a | a in Sitting(seats) ensures a in Sitting(after) {
      var k :| 0 <= k < |seats| && seats[k].0 == a;
      assert after[k].0 == a;
    }
    forall a | a in Flagged(seats) + {seats[i].0} ensures a in Flagged(after) {
      if a == seats[i].0 {
        assert after[i].1;
      } else {
        var k :| 0 <= k < |seats| && seats[k].1 && seats[k].0 == a;
        assert after[k].1 && after[k].0 == a;
      }
    }
    forall a | a in Flagged(after) ensures a in Flagged(seats) + {seats[i].0} {
      var k :| 0 <= k < |after| && after[k].1 && after[k].0 == a;
      if k != i {
        assert seats[k].1 && seats[k].0 == a;
      }
    }
  }

  lemma CastVoteKeepsCases(cfg: Config, s: State, juror: AccountId, id: ProjectId, vote: Vote)
    requires AllCases(cfg, s)
    requires AfterCastVote(s, juror, id, vote).Ok?
    ensures var t := AfterCastVote(s, juror, id, vote).value;
      AllCases(cfg, t) && OnlyCase(s, t, id)
  {
    hide AfterCastVote, CaseOk, Voted, OpenOk, ProjectOk;
    CastVoteRecorded(s, juror, id, vote);
    var d := s.arb.disputes[id];
    assert CaseOk(cfg, CaseOf(s, id));
    OpenCase(cfg, s, id);
    VotedOk(cfg, CaseOf(s, id), s.proj.projects[id], d, SeatOf(d.jurors, juror), vote);
    CasesKept(cfg, s, AfterCastVote(s, juror, id, vote).value, id);
  }

  lemma CastVoteRecorded(s: State, juror: AccountId, id: ProjectId, vote: Vote)
    requires AfterCastVote(s, juror, id, vote).Ok?
    ensures id in s.arb.disputes
    ensures var d := s.arb.disputes[id]; var i := SeatOf(d.jurors, juror);
      && d.status == Voting && i < |d.jurors|
      && AfterCastVote(s, juror, id, vote).value == s.(arb := WithDispute(s.arb, id, Voted(d, i, vote)))
  {
  }

  function Voted(d: Dispute, seat: nat, vote: Vote): Dispute
    requires seat < |d.jurors|
  {
    var juror := d.jurors[seat].0;
    d.(votes := d.votes[juror := vote], jurors := d.jurors[seat := (juror, true)])
  }

  lemma VotedOk(cfg: Config, c: Case, p: Project, d: Dispute, seat: nat, vote: Vote)
    requires CaseOk(cfg, c) && c.project == Some(p) && c.dispute == Some(d)
    requires d.status == Voting && seat < |d.jurors|
    ensures CaseOk(cfg, c.(dispute := Some(Voted(d, seat, vote))))
  {
    hide CostsTo, FeesOf, BondsOk, FeesOk, EarnedCap, JurySize;
    VoteFlags(d.jurors, seat);
    hide Sitting, Flagged, DistinctSeats;
    var v := Voted(d, seat, vote);
    assert RewardsOk(cfg, p, v, c.(dispute := Some(v)));
    hide RewardsOk;
    assert OpenOk(cfg, p, v, c.(dispute := Some(v)));
  }

  // ---------- finalizing a round ----------

  /** No juror's reward can ever saturate. */
  lemma EarnedCapFits(cfg: Config, budget: Balance, decided: nat)
    ensures EarnedCap(cfg, budget, decided) <= cfg.maxBalance
  {
    PercentWithin(cfg, budget, 1);
    PercentWithin(cfg, budget, 2);
  }

  /** A voter's reward after the round, without saturation. */
  lemma RewardUnsaturated(cfg: Config, p: Project, d: Dispute, c: Case, j: AccountId)
    requires OpenOk(cfg, p, d, c) && d.status == Voting
    requires j in d.votes
    ensures var fees := FeesAt(c, d.round); var fee := FeesOf(cfg, p.budget, d.round);
      && j in fees && FeeOf(fees, j) == fee
      && Get(c.rewards, j) + fee.base + fee.bonus <= EarnedCap(cfg, p.budget, d.round)
      && EarnedCap(cfg, p.budget, d.round) <= cfg.maxBalance
  {
    EarnedCapFits(cfg, p.budget, d.round);
    assert j in Flagged(d.jurors);
    var k :| 0 <= k < |d.jurors| && d.jurors[k].0 == j;
    assert j in Sitting(d.jurors);
  }

  lemma VoterRewarded(cfg: Config, rewards: map<AccountId, Balance>, fees: map<AccountId, JuryFee>,
                      votes: map<AccountId, Vote>, ruling: Ruling, j: AccountId)
    requires j in votes
    requires Get(rewards, j) + FeeOf(fees, j).base + FeeOf(fees, j).bonus <= cfg.maxBalance
    ensures var after := RewardsAfterRound(cfg, rewards, fees, votes, ruling);
      && j in after
      && after[j] <= Get(rewards, j) + FeeOf(fees, j).base + FeeOf(fees, j).bonus
  {
  }

  lemma RoundRewardsOk(cfg: Config, p: Project, d: Dispute, c: Case, ruling: Ruling)
    requires OpenOk(cfg, p, d, c) && d.status == Voting
    ensures var rewards := RewardsAfterRound(cfg, c.rewards, FeesAt(c, d.round), d.votes, ruling);
      forall j :: j in rewards ==>
        (j in c.fees2 || j in c.fees3) && rewards[j] <= EarnedCap(cfg, p.budget, d.round)
  {
    hide FeesOf, TopReward;
    var rewards := RewardsAfterRound(cfg, c.rewards, FeesAt(c, d.round), d.votes, ruling);
    forall j | j in rewards
      ensures (j in c.fees2 || j in c.fees3) && rewards[j] <= EarnedCap(cfg, p.budget, d.round)
    {
      if j in d.votes {
        RewardUnsaturated(cfg, p, d, c, j);
        VoterRewarded(cfg, c.rewards, FeesAt(c, d.round), d.votes, ruling, j);
      } else {
        assert j in c.rewards && rewards[j] == c.rewards[j];
      }
    }
  }

  /** What a finalized round tells about the state it started from. */
  lemma FinalizeFacts(cfg: Config, s: State, id: ProjectId)
    requires AfterFinalizeRound(cfg, s, id).Ok?
    ensures var t := AfterFinalizeRound(cfg, s, id).value;
      && id in s.arb.disputes
      && (var d := s.arb.disputes[id]; var ruling := RoundRuling(d.votes);
          && d.status == Voting
          && s.now >= SatAdd(d.startBlock, cfg.votingPeriod, cfg.maxBlock)
          && RepWorld(t.ledger, t.rep)
               == AfterJuryVotes(cfg, s.now, RepWorld(s.ledger, s.rep), VoteOrder(d.votes), d.votes, ruling)
          && t.proj == s.proj && t.now == s.now
          && t.arb == s.arb.(
               disputes := s.arb.disputes[id := d.(ruling := Some(ruling), status := Appealable, startBlock := s.now)],
               rewards := s.arb.rewards[id := RewardsAfterRound(cfg, Prefix(s.arb.rewards, id),
                                                Prefix(s.arb.fees, (id, d.round)), d.votes, ruling)]))
  {
    hide AfterJuryVotes, RewardsAfterRound, RoundRuling, VoteOrder;
  }

  lemma DecidedOk(cfg: Config, now: BlockNumber, c: Case, p: Project, d: Dispute, ruling: Ruling)
    requires CaseOk(cfg, c) && c.project == Some(p) && c.dispute == Some(d) && d.status == Voting
    ensures CaseOk(cfg, c.(dispute := Some(d.(ruling := Some(ruling), status := Appealable, startBlock := now)),
                           rewards := RewardsAfterRound(cfg, c.rewards, FeesAt(c, d.round), d.votes, ruling)))
  {
    RoundRewardsOk(cfg, p, d, c, ruling);
    hide RewardsAfterRound, CostsTo, BondsOk, FeesOk, EarnedCap, Sitting, Flagged, DistinctSeats, JurySize, FeesAt;
    hide ProjectOk;
  }

  lemma FinalizeRoundKeepsCases(cfg: Config, s: State, id: ProjectId)
    requires AllCases(cfg, s)
    requires AfterFinalizeRound(cfg, s, id).Ok?
    ensures var t := AfterFinalizeRound(cfg, s, id).value;
      AllCases(cfg, t) && OnlyCase(s, t, id)
  {
    hide AfterFinalizeRound, AfterJuryVotes, VoteOrder, RewardsAfterRound, RoundRuling, CaseOk, OpenOk, ProjectOk;
    FinalizeFacts(cfg, s, id);
    OpenCase(cfg, s, id);
    var t, c := AfterFinalizeRound(cfg, s, id).value, CaseOf(s, id);
    var d := s.arb.disputes[id];
    VotingRounds(cfg, s.proj.projects[id], d, c);
    assert CaseOk(cfg, c);
    DecidedOk(cfg, s.now, c, s.proj.projects[id], d, RoundRuling(d.votes));
    CasesKept(cfg, s, t, id);
  }

  lemma VotingRounds(cfg: Config, p: Project, d: Dispute, c: Case)
    requires OpenOk(cfg, p, d, c) && d.status == Voting
    ensures 2 <= d.round <= 3
  {
  }

  // ---------- enforcement ----------

  lemma EnforceKeepsCases(cfg: Config, s: State, id: ProjectId)
    requires AllCases(cfg, s)
    requires AfterEnforceFinalRuling(cfg, s, id).Ok?
    ensures var t := AfterEnforceFinalRuling(cfg, s, id).value;
      && AllCases(cfg, t) && OnlyCase(s, t, id)
      && NothingOwed(CaseOf(t, id))
  {
    EnforceCase(cfg, s, id);
    hide AfterEnforceFinalRuling;
    assert CaseOk(cfg, CaseOf(s, id));
    CasesKept(cfg, s, AfterEnforceFinalRuling(cfg, s, id).value, id);
  }

  lemma EnforceCase(cfg: Config, s: State, id: ProjectId)
    requires AfterEnforceFinalRuling(cfg, s, id).Ok?
    ensures var t := AfterEnforceFinalRuling(cfg, s, id).value; var d := s.arb.disputes[id];
      && id in s.arb.disputes && id in s.proj.projects
      && d.status == Appealable && d.ruling.Some?
      && s.now >= SatAdd(d.startBlock, cfg.appealPeriod, cfg.maxBlock)
      && CaseOf(t, id) == Case(Some(s.proj.projects[id].(status := Completed)), Applicants(s.proj, id),
           Some(d.(status := Finalized)), map[], None, map[], map[], map[], map[])
      && OnlyCase(s, t, id) && SameFeeRounds(s, t)
  {
    hide AfterEnforceFinalRuling;
    EnforceWrites(cfg, s, id);
    ClosedCase(s, AfterEnforceFinalRuling(cfg, s, id).value, id, s.proj.projects[id], s.arb.disputes[id]);
  }

  lemma ClosedCase(s: State, t: State, id: ProjectId, p: Project, d: Dispute)
    requires t.proj == s.proj.(projects := s.proj.projects[id := p.(status := Completed)])
    requires t.arb == WithDispute(Cleaned(s.arb, id), id, d.(status := Finalized))
    ensures CaseOf(t, id) == Case(Some(p.(status := Completed)), Applicants(s.proj, id),
      Some(d.(status := Finalized)), map[], None, map[], map[], map[], map[])
    ensures OnlyCase(s, t, id) && SameFeeRounds(s, t)
  {
    hide Applicants;
    assert forall j :: Applicants(t.proj, j) == Applicants(s.proj, j) by { SameApplicants(s.proj, t.proj); }
  }

  lemma SameApplicants(a: ProjStore, b: ProjStore)
    requires a.applicants == b.applicants
    ensures forall j :: Applicants(a, j) == Applicants(b, j)
  {
  }

  lemma RulingWrites(cfg: Config, now: BlockNumber, w: ProjWorld, id: ProjectId, ruling: Ruling)
    requires AfterOnRuling(cfg, now, w, id, ruling).Ok?
    ensures id in w.proj.projects
    ensures AfterOnRuling(cfg, now, w, id, ruling).value.proj
         == w.proj.(projects := w.proj.projects[id := w.proj.projects[id].(status := Completed)])
  {
    hide AfterDisputeOutcome, AfterProjectCompleted, AfterTransfer, LockIdOf;
  }

  lemma EnforceWrites(cfg: Config, s: State, id: ProjectId)
    requires AfterEnforceFinalRuling(cfg, s, id).Ok?
    ensures var t := AfterEnforceFinalRuling(cfg, s, id).value; var d := s.arb.disputes[id];
      && id in s.arb.disputes && id in s.proj.projects
      && d.status == Appealable && d.ruling.Some?
      && s.now >= SatAdd(d.startBlock, cfg.appealPeriod, cfg.maxBlock)
      && t.proj == s.proj.(projects := s.proj.projects[id := s.proj.projects[id].(status := Completed)])
      && t.arb == WithDispute(Cleaned(s.arb, id), id, d.(status := Finalized))
  {
    hide AfterOnRuling, AfterDisputeOutcome, AfterPayouts;
    RulingWrites(cfg, s.now, s.Site(), id, s.arb.disputes[id].ruling.value);
  }
}
