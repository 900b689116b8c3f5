/**
  Which calls write which events into an account's record: every call, every run. The record
  of an account is the replay of the events of the calls that named it.
*/
module Chronicle {
  import opened Prelude
  import opened Types
  import opened Currency
  import opened Reputation
  import opened RunningMeans
  import opened Projects
  import opened Arbitration
  import opened Money
  import opened ChainSafety
  import opened OutcomeRecords
  import opened System
  import opened Careers

  /** The side a vote must be on to be with the majority; a tie counts for the freelancer. */
  function Favoured(votes: map<AccountId, Vote>): Vote {
    var forClient := set j | j in votes && votes[j] == ForClient;
    var forFreelancer := set j | j in votes && votes[j] == ForFreelancer;
    if |forClient| > |forFreelancer| then ForClient else ForFreelancer
  }

  /** Accepted work is delivered by the freelancer, at a thousand points a star, and approved by the client. */
  function AcceptanceEvents(s: State, id: ProjectId, rating: nat, a: AccountId): seq<Event>
    requires id in s.proj.projects && s.proj.projects[id].freelancer.Some?
  {
    var p := s.proj.projects[id];
    (if a == p.freelancer.value then [Delivered(s.now, p.budget, 1000 * rating)] else [])
    + (if a == p.client then [Approved(s.now)] else [])
  }

  /** A ruling for the freelancer delivers the work at three stars and counts once, one for the client counts twice. */
  function EnforcementEvents(s: State, id: ProjectId, ruling: Ruling, a: AccountId): seq<Event>
    requires id in s.proj.projects && s.proj.projects[id].freelancer.Some?
  {
    var client, freelancer := s.proj.projects[id].client, s.proj.projects[id].freelancer.value;
    match ruling
    case FreelancerWins =>
      (if a == freelancer then [Delivered(s.now, s.proj.projects[id].budget, 3000), Won(s.now)] else [])
      + (if a == client then [Lost(s.now)] else [])
    case ClientWins =>
      var outcome := (if a == client then [Won(s.now)] else []) + (if a == freelancer then [Lost(s.now)] else []);
      outcome + outcome
  }

  /** A round counts for every voter that is registered. */
  function RoundEvents(s: State, id: ProjectId, a: AccountId): seq<Event>
    requires id in s.arb.disputes
  {
    var votes := s.arb.disputes[id].votes;
    if a in votes && StatsOf(s.rep, a).registrationBlock != 0
    then [Voted(s.now, votes[a] == Favoured(votes))] else []
  }

  /** What a successful call writes into the record of `a`. */
  function EventsOf(s: State, c: Call, a: AccountId): seq<Event> {
    match c
    case RegisterUser(who) => if a == who then [Event.Joined(s.now)] else []
    case CreateProject(who, budget, _, _) => if a == who then [Event.Posted(s.now, budget)] else []
    case CancelProject(who, _) => if a == who then [CalledOff(s.now)] else []
    case AcceptWork(_, id, rating) =>
      if id in s.proj.projects && s.proj.projects[id].freelancer.Some?
      then AcceptanceEvents(s, id, rating, a) else []
    case FinalizeRound(_, id) => if id in s.arb.disputes then RoundEvents(s, id, a) else []
    case EnforceFinalRuling(_, id) =>
      if id in s.proj.projects && s.proj.projects[id].freelancer.Some?
         && id in s.arb.disputes && s.arb.disputes[id].ruling.Some?
      then EnforcementEvents(s, id, s.arb.disputes[id].ruling.value, a) else []
    case _ => []
  }

  // ---------- replaying a few events ----------

  lemma ReplayOne(cfg: Config, s: Stats, e: Event)
    ensures Replay(cfg, s, [e]) == Noted(cfg, s, e)
  {
    hide Noted;
    assert [e][..0] == [];
  }

  lemma ReplayNothing(cfg: Config, s: Stats)
    ensures Replay(cfg, s, []) == s
  {
  }

  /** Two groups of at most one event each. */
  lemma ReplayPair(cfg: Config, s: Stats, first: bool, d: Event, second: bool, e: Event)
    ensures var t := if first then Noted(cfg, s, d) else s;
      Replay(cfg, s, (if first then [d] else []) + (if second then [e] else []))
      == if second then Noted(cfg, t, e) else t
  {
    hide Noted;
    ReplayOne(cfg, s, d);
    ReplayOne(cfg, if first then Noted(cfg, s, d) else s, e);
    ReplayTwice(cfg, s, if first then [d] else [], if second then [e] else []);
  }

  // ---------- accepted work ----------

  lemma AcceptanceStats(cfg: Config, s: State, who: AccountId, id: ProjectId, rating: nat)
    requires Apply(cfg, s, AcceptWork(who, id, rating)).Ok?
    ensures id in s.proj.projects && s.proj.projects[id].freelancer.Some? && s.proj.projects[id].client == who
    ensures var p, t := s.proj.projects[id], Apply(cfg, s, AcceptWork(who, id, rating)).value;
      var f := p.freelancer.value;
      var delivered := WithStatsOf(s.rep.stats, f,
        Noted(cfg, StatsOf(s.rep, f), Delivered(s.now, p.budget, 1000 * rating)));
      t.rep.stats == WithStatsOf(delivered, who, Noted(cfg, StatsIn(delivered, who), Approved(s.now)))
  {
    hide LockIdOf, AfterTransfer, AfterProjectCompleted, StatsAfterCompletion;
    var p := s.proj.projects[id];
    var ledger := AfterTransfer(AfterRemoveLock(s.ledger, LockIdOf(id), p.client), p.client, p.freelancer.value,
                                p.budget).value;
    CompletionRecord(cfg, s.now, RepWorld(ledger, s.rep), p.freelancer.value, p.budget, rating * 1000);
  }

  function StatsIn(stats: map<AccountId, Stats>, a: AccountId): Stats {
    if a in stats then stats[a] else NO_STATS
  }

  function WithStatsOf(stats: map<AccountId, Stats>, a: AccountId, s: Stats): map<AccountId, Stats> {
    stats[a := s]
  }

  lemma AcceptanceChronicle(cfg: Config, s: State, who: AccountId, id: ProjectId, rating: nat, a: AccountId)
    requires Apply(cfg, s, AcceptWork(who, id, rating)).Ok?
    ensures var t := Apply(cfg, s, AcceptWork(who, id, rating)).value;
      StatsOf(t.rep, a) == Replay(cfg, StatsOf(s.rep, a), EventsOf(s, AcceptWork(who, id, rating), a))
  {
    AcceptanceStats(cfg, s, who, id, rating);
    hide Apply, Noted, Replay;
    var p := s.proj.projects[id];
    ReplayPair(cfg, StatsOf(s.rep, a), a == p.freelancer.value, Delivered(s.now, p.budget, 1000 * rating),
               a == p.client, Approved(s.now));
  }

  // ---------- enforced rulings ----------

  /** A win and a loss, for two accounts or for one. */
  function Outcome(cfg: Config, now: BlockNumber, stats: map<AccountId, Stats>, winner: AccountId, loser: AccountId)
    : map<AccountId, Stats>
  {
    var won := WithStatsOf(stats, winner, Noted(cfg, StatsIn(stats, winner), Won(now)));
    WithStatsOf(won, loser, Noted(cfg, StatsIn(won, loser), Lost(now)))
  }

  lemma OutcomeStats(cfg: Config, now: BlockNumber, w: RepWorld, winner: AccountId, loser: AccountId)
    requires AfterDisputeOutcome(cfg, now, w, winner, loser).Ok?
    ensures AfterDisputeOutcome(cfg, now, w, winner, loser).value.rep.stats
         == Outcome(cfg, now, w.rep.stats, winner, loser)
  {
    hide StatsAfterWin, StatsAfterLoss, AfterUpdateTier;
    var w1 := AfterStats(w, winner, StatsAfterWin(now, StatsOf(w.rep, winner))).value;
    var w2 := AfterStats(w1, loser, StatsAfterLoss(now, StatsOf(w1.rep, loser))).value;
    UpdateWritesNoStats(cfg, w2, winner);
    UpdateWritesNoStats(cfg, AfterUpdateTier(cfg, w2, winner).world, loser);
  }

  /** What one account sees of an outcome. */
  lemma OutcomeReplay(cfg: Config, now: BlockNumber, stats: map<AccountId, Stats>, winner: AccountId,
                      loser: AccountId, a: AccountId)
    ensures StatsIn(Outcome(cfg, now, stats, winner, loser), a)
         == Replay(cfg, StatsIn(stats, a),
                   (if a == winner then [Won(now)] else []) + (if a == loser then [Lost(now)] else []))
  {
    hide Noted, Replay;
    ReplayPair(cfg, StatsIn(stats, a), a == winner, Won(now), a == loser, Lost(now));
  }

  lemma RulingStats(cfg: Config, s: State, id: ProjectId, ruling: Ruling)
    requires AfterOnRuling(cfg, s.now, s.Site(), id, ruling).Ok?
    requires id in s.proj.projects && s.proj.projects[id].freelancer.Some?
    ensures var p, rep := s.proj.projects[id], AfterOnRuling(cfg, s.now, s.Site(), id, ruling).value.rep;
      var f := p.freelancer.value;
      rep.stats == match ruling
        case FreelancerWins =>
          WithStatsOf(s.rep.stats, f, Noted(cfg, StatsOf(s.rep, f), Delivered(s.now, p.budget, 3000)))
        case ClientWins => Outcome(cfg, s.now, s.rep.stats, p.client, f)
  {
    hide AfterProjectCompleted, AfterDisputeOutcome, LockIdOf, AfterTransfer, StatsAfterCompletion, Outcome;
    var p := s.proj.projects[id];
    match ruling {
      case FreelancerWins =>
        var unlocked := AfterRemoveLock(s.ledger, LockIdOf(id), p.client);
        var l := AfterTransfer(unlocked, p.client, p.freelancer.value, p.budget).value;
        CompletionRecord(cfg, s.now, RepWorld(l, s.rep), p.freelancer.value, p.budget, 3000);
      case ClientWins =>
        OutcomeStats(cfg, s.now, World(s), p.client, p.freelancer.value);
    }
  }

  /** The statistics an enforcement leaves, in the order in which its two stages write them. */
  lemma EnforcementStats(cfg: Config, s: State, id: ProjectId)
    requires AfterEnforceFinalRuling(cfg, s, id).Ok?
    ensures id in s.arb.disputes && s.arb.disputes[id].ruling.Some?
    ensures id in s.proj.projects && s.proj.projects[id].freelancer.Some?
    ensures var p, stats := s.proj.projects[id], AfterEnforceFinalRuling(cfg, s, id).value.rep.stats;
      var f := p.freelancer.value;
      stats == match s.arb.disputes[id].ruling.value
        case FreelancerWins =>
          Outcome(cfg, s.now,
                  WithStatsOf(s.rep.stats, f, Noted(cfg, StatsOf(s.rep, f), Delivered(s.now, p.budget, 3000))),
                  f, p.client)
        case ClientWins => Outcome(cfg, s.now, Outcome(cfg, s.now, s.rep.stats, p.client, f), p.client, f)
  {
    hide AfterEnforceFinalRuling, AfterOnRuling, AfterPayouts, AfterDisputeOutcome, Outcome, Noted;
    var winner, loser, site, ledger := EnforceSucceeded(cfg, s, id);
    RulingStats(cfg, s, id, s.arb.disputes[id].ruling.value);
    OutcomeStats(cfg, s.now, RepWorld(ledger, site.rep), winner, loser);
  }

  lemma EnforcementChronicle(cfg: Config, s: State, who: AccountId, id: ProjectId, a: AccountId)
    requires Apply(cfg, s, EnforceFinalRuling(who, id)).Ok?
    ensures var t := Apply(cfg, s, EnforceFinalRuling(who, id)).value;
      StatsOf(t.rep, a) == Replay(cfg, StatsOf(s.rep, a), EventsOf(s, EnforceFinalRuling(who, id), a))
  {
    hide AfterEnforceFinalRuling, Noted, Replay, Outcome;
    EnforcementStats(cfg, s, id);
    var p, x := s.proj.projects[id], StatsOf(s.rep, a);
    var f := p.freelancer.value;
    match s.arb.disputes[id].ruling.value {
      case FreelancerWins =>
        var delivered := Delivered(s.now, p.budget, 3000);
        var paid := WithStatsOf(s.rep.stats, f, Noted(cfg, StatsOf(s.rep, f), delivered));
        OutcomeReplay(cfg, s.now, paid, f, p.client, a);
        ReplayOne(cfg, x, delivered);
        ReplayNothing(cfg, x);
        var first := if a == f then [delivered] else [];
        var outcome := (if a == f then [Won(s.now)] else []) + (if a == p.client then [Lost(s.now)] else []);
        ReplayTwice(cfg, x, first, outcome);
        assert first + outcome == EnforcementEvents(s, id, FreelancerWins, a);
      case ClientWins =>
        OutcomeReplay(cfg, s.now, s.rep.stats, p.client, f, a);
        OutcomeReplay(cfg, s.now, Outcome(cfg, s.now, s.rep.stats, p.client, f), p.client, f, a);
        var outcome := (if a == p.client then [Won(s.now)] else []) + (if a == f then [Lost(s.now)] else []);
        ReplayTwice(cfg, x, outcome, outcome);
    }
  }

  // ---------- finalized rounds ----------

  lemma OneVoteRecorded(cfg: Config, now: BlockNumber, w: RepWorld, juror: AccountId, withMajority: bool)
    ensures AfterJuryVote(cfg, now, w, juror, withMajority).world.rep.stats ==
      if StatsOf(w.rep, juror).registrationBlock == 0 then w.rep.stats
      else w.rep.stats[juror := StatsAfterVote(now, StatsOf(w.rep, juror), withMajority)]
  {
    hide StatsAfterVote, AfterUpdateTier;
    var r := AfterStats(w, juror, StatsAfterVote(now, StatsOf(w.rep, juror), withMajority));
    if r.Ok? {
      UpdateWritesNoStats(cfg, r.value, juror);
    }
  }

  lemma {:induction false} VotesRecorded(cfg: Config, now: BlockNumber, w: RepWorld, voters: seq<AccountId>,
                                         votes: map<AccountId, Vote>, ruling: Ruling, a: AccountId)
    requires Distinct(voters)
    requires forall i :: 0 <= i < |voters| ==> voters[i] in votes
    ensures a in voters ==> a in votes
    ensures StatsOf(AfterJuryVotes(cfg, now, w, voters, votes, ruling).rep, a) ==
      if a in voters && StatsOf(w.rep, a).registrationBlock != 0
      then StatsAfterVote(now, StatsOf(w.rep, a), Agrees(votes[a], ruling)) else StatsOf(w.rep, a)
  {
    hide AfterJuryVote, StatsAfterVote, Agrees;
    if voters != [] {
      var n := |voters| - 1;
      VotesRecorded(cfg, now, w, voters[..n], votes, ruling, a);
      var v := AfterJuryVotes(cfg, now, w, voters[..n], votes, ruling);
      InPrefix(voters, n);
      assert a in voters <==> a in voters[..n] || a == voters[n];
      OneVoteRecorded(cfg, now, v, voters[n], Agrees(votes[voters[n]], ruling));
    }
  }

  /** Votes are recorded in ascending order of the voters, whatever the storage iterates in. */
  lemma {:induction false} AscendingSorted(voters: set<AccountId>)
    ensures forall i, j :: 0 <= i < j < |Ascending(voters)| ==> Ascending(voters)[i] < Ascending(voters)[j]
    decreases |voters|
  {
    if voters != {} {
      var order := Ascending(voters);
      var rest := Ascending(voters - {order[0]});
      AscendingSorted(voters - {order[0]});
      assert order == [order[0]] + rest;
      forall j | 0 <= j < |rest| ensures order[0] < rest[j] {
        assert rest[j] in Elements(rest);
      }
    }
  }

  lemma FavouredAgrees(votes: map<AccountId, Vote>, vote: Vote)
    ensures Agrees(vote, RoundRuling(votes)) <==> vote == Favoured(votes)
  {
    assert Voters(votes, ForClient) == set j | j in votes && votes[j] == ForClient;
    assert Voters(votes, ForFreelancer) == set j | j in votes && votes[j] == ForFreelancer;
  }

  lemma RoundWritesVotes(cfg: Config, s: State, id: ProjectId)
    requires AfterFinalizeRound(cfg, s, id).Ok?
    ensures id in s.arb.disputes
    ensures var votes := s.arb.disputes[id].votes;
      AfterFinalizeRound(cfg, s, id).value.rep
      == AfterJuryVotes(cfg, s.now, RepWorld(s.ledger, s.rep), VoteOrder(votes), votes, RoundRuling(votes)).rep
  {
    hide AfterJuryVotes, VoteOrder, RewardsAfterRound, RoundRuling;
  }

  /**
    A finalized round adds one vote to every registered voter, with the majority exactly if it
    is on the side that won by count, and writes nobody else's record.
  */
  lemma RoundRecorded(cfg: Config, s: State, id: ProjectId, a: AccountId)
    requires AfterFinalizeRound(cfg, s, id).Ok?
    ensures id in s.arb.disputes
    ensures var t, votes, x := AfterFinalizeRound(cfg, s, id).value, s.arb.disputes[id].votes, StatsOf(s.rep, a);
      StatsOf(t.rep, a) ==
        if a in votes && x.registrationBlock != 0
        then StatsAfterVote(s.now, x, votes[a] == Favoured(votes)) else x
  {
    hide AfterFinalizeRound, AfterJuryVotes, StatsAfterVote, VoteOrder, Favoured, RoundRuling, Agrees;
    RoundWritesVotes(cfg, s, id);
    var votes := s.arb.disputes[id].votes;
    VotesRecorded(cfg, s.now, RepWorld(s.ledger, s.rep), VoteOrder(votes), votes, RoundRuling(votes), a);
    assert a in VoteOrder(votes) <==> a in Elements(VoteOrder(votes));
    if a in votes {
      FavouredAgrees(votes, votes[a]);
    }
  }

  lemma RoundChronicle(cfg: Config, s: State, who: AccountId, id: ProjectId, a: AccountId)
    requires Apply(cfg, s, FinalizeRound(who, id)).Ok?
    ensures var t := Apply(cfg, s, FinalizeRound(who, id)).value;
      StatsOf(t.rep, a) == Replay(cfg, StatsOf(s.rep, a), EventsOf(s, FinalizeRound(who, id), a))
  {
    hide AfterFinalizeRound, StatsAfterVote, Favoured, Replay;
    RoundRecorded(cfg, s, id, a);
    ReplayNothing(cfg, StatsOf(s.rep, a));
    var votes := s.arb.disputes[id].votes;
    if a in votes {
      ReplayOne(cfg, StatsOf(s.rep, a), Voted(s.now, votes[a] == Favoured(votes)));
    }
  }

  // ---------- every call ----------

  lemma OwnRecord(cfg: Config, s: State, c: Call, a: AccountId)
    requires c.RegisterUser? || c.CreateProject? || c.CancelProject?
    requires Apply(cfg, s, c).Ok?
    ensures StatsOf(Apply(cfg, s, c).value.rep, a) == Replay(cfg, StatsOf(s.rep, a), EventsOf(s, c, a))
  {
    hide Replay, LockIdOf;
    ReplayNothing(cfg, StatsOf(s.rep, a));
    match c {
      case RegisterUser(who) => ReplayOne(cfg, StatsOf(s.rep, a), Event.Joined(s.now));
      case CreateProject(who, budget, _, _) => ReplayOne(cfg, StatsOf(s.rep, a), Event.Posted(s.now, budget));
      case CancelProject(who, _) => ReplayOne(cfg, StatsOf(s.rep, a), CalledOff(s.now));
    }
  }

  predicate Records(c: Call) {
    || c.RegisterUser? || c.CreateProject? || c.CancelProject?
    || c.AcceptWork? || c.FinalizeRound? || c.EnforceFinalRuling?
  }

  lemma JurorCallsRecordNothing(cfg: Config, s: State, c: Call)
    requires c.RegisterAsJuror? || c.DeregisterAsJuror? || c.SlashJuror?
    requires Apply(cfg, s, c).Ok?
    ensures Apply(cfg, s, c).value.rep.stats == s.rep.stats
  {
    hide TierFromStats, AfterRemoveFromTierList, AfterAddToTierList, AfterReserve, AfterUnreserve, PermillOf;
    match c {
      case RegisterAsJuror(who) =>
        var tier := TierFromStats(StatsOf(s.rep, who));
        ListingRecordsNothing(cfg, s.rep.(stakeOf := s.rep.stakeOf[who := s.rep.jurorStake],
                                          registry := s.rep.registry + {who},
                                          tiers := s.rep.tiers[who := tier]), who, tier);
      case DeregisterAsJuror(who) => RemovalRecordsNothing(s.rep, who, TierOf(s.rep, who));
      case SlashJuror(juror) => RemovalRecordsNothing(s.rep, juror, TierOf(s.rep, juror));
    }
  }

  lemma ListingRecordsNothing(cfg: Config, r: RepStore, who: AccountId, t: JurorTier)
    ensures AfterAddToTierList(cfg, r, who, t).Ok? ==> AfterAddToTierList(cfg, r, who, t).value.stats == r.stats
  {
  }

  lemma RemovalRecordsNothing(r: RepStore, who: AccountId, t: JurorTier)
    ensures AfterRemoveFromTierList(r, who, t).stats == r.stats
  {
  }

  lemma FromTierRecordsNothing(r: RepStore, t: JurorTier, exclude: seq<AccountId>, selected: seq<AccountId>,
                               count: nat)
    ensures FromTier(r, t, exclude, selected, count).1.stats == r.stats
  {
  }

  lemma SelectionRecordsNothing(r: RepStore, minTier: JurorTier, exclude: seq<AccountId>, count: nat)
    ensures Selection(r, minTier, exclude, count).1.stats == r.stats
  {
    hide FromTier;
    var (s1, r1) := FromTier(r, Gold, exclude, [], count);
    FromTierRecordsNothing(r, Gold, exclude, [], count);
    FromTierRecordsNothing(r1, Silver, exclude, s1, count);
    var (s2, r2) := if Rank(minTier) <= Rank(Silver) then FromTier(r1, Silver, exclude, s1, count) else (s1, r1);
    FromTierRecordsNothing(r2, Bronze, exclude, s2, count);
  }

  lemma AppealRecordsNothing(cfg: Config, s: State, who: AccountId, id: ProjectId)
    requires AfterAppealRuling(cfg, s, who, id).Ok?
    ensures AfterAppealRuling(cfg, s, who, id).value.rep.stats == s.rep.stats
  {
    hide Selection, AfterReserve, AppealBond, ArbitrationCost, JuryFees;
    var p, round := s.proj.projects[id], s.arb.disputes[id].round + 1;
    SelectionRecordsNothing(s.rep, RequiredTier(round), [p.client, p.freelancer.value], JurySize(cfg, round));
  }

  lemma OthersRecordNothing(cfg: Config, s: State, c: Call)
    requires !Records(c)
    requires Apply(cfg, s, c).Ok?
    ensures Apply(cfg, s, c).value.rep.stats == s.rep.stats
  {
    if c.RegisterAsJuror? || c.DeregisterAsJuror? || c.SlashJuror? {
      JurorCallsRecordNothing(cfg, s, c);
    } else if c.AppealRuling? {
      hide AfterAppealRuling;
      AppealRecordsNothing(cfg, s, c.who, c.id);
    } else {
      hide AppealBond, ArbitrationCost, LockIdOf;
    }
  }

  /** Every successful call changes every account's record by exactly its events. */
  lemma StepChronicle(cfg: Config, s: State, c: Call, a: AccountId)
    requires Apply(cfg, s, c).Ok?
    ensures StatsOf(Apply(cfg, s, c).value.rep, a) == Replay(cfg, StatsOf(s.rep, a), EventsOf(s, c, a))
  {
    hide Apply, EventsOf, Replay;
    match c {
      case AcceptWork(who, id, rating) => AcceptanceChronicle(cfg, s, who, id, rating, a);
      case FinalizeRound(who, id) => RoundChronicle(cfg, s, who, id, a);
      case EnforceFinalRuling(who, id) => EnforcementChronicle(cfg, s, who, id, a);
      case _ =>
        if Records(c) {
          OwnRecord(cfg, s, c, a);
        } else {
          OthersRecordNothing(cfg, s, c);
          NoEvents(s, c, a);
          ReplayNothing(cfg, StatsOf(s.rep, a));
        }
    }
  }

  lemma NoEvents(s: State, c: Call, a: AccountId)
    requires !Records(c)
    ensures EventsOf(s, c, a) == []
  {
  }

  // ---------- every run ----------

  /** The events of the successful calls of a run. */
  ghost function RecordOf(cfg: Config, s: State, calls: seq<Call>, a: AccountId): seq<Event> {
    if calls == [] then []
    else
      var n := |calls| - 1;
      var before := Run(cfg, s, calls[..n]);
      RecordOf(cfg, s, calls[..n], a)
      + (if Apply(cfg, before, calls[n]).Ok? then EventsOf(before, calls[n], a) else [])
  }

  /** Over any run the statistics are the replay of the events of its successful calls. */
  lemma {:induction false} RunChronicle(cfg: Config, s: State, calls: seq<Call>, a: AccountId)
    ensures StatsOf(Run(cfg, s, calls).rep, a) == Replay(cfg, StatsOf(s.rep, a), RecordOf(cfg, s, calls, a))
  {
    hide Apply, EventsOf, Noted;
    if calls == [] {
      ReplayNothing(cfg, StatsOf(s.rep, a));
    } else {
      var n := |calls| - 1;
      RunChronicle(cfg, s, calls[..n], a);
      var before := Run(cfg, s, calls[..n]);
      if Apply(cfg, before, calls[n]).Ok? {
        StepChronicle(cfg, before, calls[n], a);
        ReplayTwice(cfg, StatsOf(s.rep, a), RecordOf(cfg, s, calls[..n], a), EventsOf(before, calls[n], a));
      } else {
        assert RecordOf(cfg, s, calls, a) == RecordOf(cfg, s, calls[..n], a);
      }
    }
  }

  /**
    An account nobody knew at the start of a run: its ratings are those of the acceptances and
    enforced rulings it delivered in, averaged as `Rated` says, its jury statistics those of its
    votes, as `Judged` says, and every count and sum is that of its events.
  */
  lemma NewcomerRecord(cfg: Config, s: State, calls: seq<Call>, a: AccountId)
    requires a !in s.rep.stats
    ensures var events, x := RecordOf(cfg, s, calls, a), StatsOf(Run(cfg, s, calls).rep, a);
      && (x.avgRatingReceived, x.totalRatingsReceived) == Rated(RatingsIn(events))
      && (x.juryParticipation, x.juryAccuracy) == Judged(SidesIn(events))
      && x.projectsCompleted == Min(Total(events, Completion), U32_MAX)
      && x.projectsFailed == Min(Total(events, Failure), U32_MAX)
      && x.totalEarned == Min(Total(events, Earning), cfg.maxBalance)
      && x.projectsPosted == Min(Total(events, Posting), U32_MAX)
      && x.totalSpent == Min(Total(events, Spending), cfg.maxBalance)
      && x.disputesWon == Min(Total(events, Win), U32_MAX)
      && x.disputesLost == Min(Total(events, Loss), U32_MAX)
  {
    hide Run, Total, Rated, Judged, RecordOf;
    var events := RecordOf(cfg, s, calls, a);
    RunChronicle(cfg, s, calls, a);
    RatingsAverage(cfg, NO_STATS, events);
    VotesAverage(cfg, NO_STATS, events);
    CountersAddUp(cfg, NO_STATS, events);
  }

  /** A delivery without saturation. */
  lemma DeliveryAdds(cfg: Config, x: Stats, block: BlockNumber, value: Balance, rating: nat)
    requires x.projectsCompleted < U32_MAX && x.totalEarned + value <= cfg.maxBalance
    requires x.avgRatingReceived <= 5000 && x.totalRatingsReceived < EXACT_RATINGS && rating <= 5000
    ensures var y := Noted(cfg, x, Delivered(block, value, rating));
      && y.projectsCompleted == x.projectsCompleted + 1
      && y.totalEarned == x.totalEarned + value
      && y.totalRatingsReceived == x.totalRatingsReceived + 1
      && y.avgRatingReceived
         == (x.avgRatingReceived * x.totalRatingsReceived + rating) / (x.totalRatingsReceived + 1)
      && (x.totalRatingsReceived == 0 ==> y.avgRatingReceived == rating)
  {
    Unsaturated(x.avgRatingReceived, x.totalRatingsReceived, 5000, rating);
    hide SatMul;
  }

  /**
    Between two parties, accepting work gives the freelancer one completed project and one rating
    more, the budget on top of its earnings and a thousand points a star into its average, gives
    the client one completed project more, and writes nobody else's record.
  */
  lemma AcceptanceRecords(cfg: Config, s: State, who: AccountId, id: ProjectId, rating: nat)
    requires Apply(cfg, s, AcceptWork(who, id, rating)).Ok?
    requires id in s.proj.projects && s.proj.projects[id].freelancer.Some?
    requires var p := s.proj.projects[id]; var x := StatsOf(s.rep, p.freelancer.value);
      && who != p.freelancer.value
      && x.projectsCompleted < U32_MAX && x.totalEarned + p.budget <= cfg.maxBalance
      && x.avgRatingReceived <= 5000 && x.totalRatingsReceived < EXACT_RATINGS
    ensures var p, t := s.proj.projects[id], Apply(cfg, s, AcceptWork(who, id, rating)).value;
      var x, y := StatsOf(s.rep, p.freelancer.value), StatsOf(t.rep, p.freelancer.value);
      && y.projectsCompleted == x.projectsCompleted + 1
      && y.totalEarned == x.totalEarned + p.budget
      && y.totalRatingsReceived == x.totalRatingsReceived + 1
      && y.avgRatingReceived
         == (x.avgRatingReceived * x.totalRatingsReceived + 1000 * rating) / (x.totalRatingsReceived + 1)
      && (x.totalRatingsReceived == 0 ==> y.avgRatingReceived == 1000 * rating)
      && StatsOf(t.rep, who).projectsCompleted == Min(StatsOf(s.rep, who).projectsCompleted + 1, U32_MAX)
      && forall a :: a != p.freelancer.value && a != who ==> StatsOf(t.rep, a) == StatsOf(s.rep, a)
  {
    hide Apply, Noted, SatMul, Min;
    AcceptanceStats(cfg, s, who, id, rating);
    StarsOnScale(cfg, s, who, id, rating);
    var p := s.proj.projects[id];
    var x := StatsOf(s.rep, p.freelancer.value);
    DeliveryAdds(cfg, x, s.now, p.budget, 1000 * rating);
    ApprovalAdds(cfg, StatsOf(s.rep, who), s.now);
  }

  lemma ApprovalAdds(cfg: Config, x: Stats, block: BlockNumber)
    ensures Noted(cfg, x, Approved(block)).projectsCompleted == Min(x.projectsCompleted + 1, U32_MAX)
  {
  }

  lemma StarsOnScale(cfg: Config, s: State, who: AccountId, id: ProjectId, rating: nat)
    requires Apply(cfg, s, AcceptWork(who, id, rating)).Ok?
    ensures 0 < rating <= 5
  {
    hide AfterTransfer, AfterProjectCompleted, AfterWorkAccepted, LockIdOf;
  }
}
