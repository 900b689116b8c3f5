/**
  The cached tiers and the pools against the statistics: what a tier update and a registration
  leave, and over every run from genesis whose cached tier can differ from the one due.
*/
module TierCache {
  import opened Prelude
  import opened Types
  import opened Currency
  import opened Reputation
  import opened JurorIndex
  import opened JurorCalls
  import opened Projects
  import opened Arbitration
  import opened Money
  import opened ChainSafety
  import opened GenesisTheorems
  import opened System
  import opened Chronicle
  import opened Rounds
  import opened Admission
  import opened JurorLists
  import opened FromGenesis

  /** A registered juror is cached with the tier its statistics give. */
  predicate Settled(r: RepStore, a: AccountId) {
    a in r.registry ==> TierOf(r, a) == TierFromStats(StatsOf(r, a))
  }

  /** The pool of the tier and no other holds the account; without a tier none does. */
  predicate ListedUnder(r: RepStore, a: AccountId, t: JurorTier) {
    (a in r.gold <==> t == Gold) && (a in r.silver <==> t == Silver) && (a in r.bronze <==> t == Bronze)
  }

  /** Everybody else is cached and listed as before. */
  ghost predicate SameElsewhere(r: RepStore, v: RepStore, who: AccountId) {
    forall a :: a != who ==>
      && TierOf(v, a) == TierOf(r, a)
      && (a in v.gold <==> a in r.gold) && (a in v.silver <==> a in r.silver) && (a in v.bronze <==> a in r.bronze)
  }

  /** The account goes to the end of its new pool. */
  predicate JoinsLast(r: RepStore, v: RepStore, who: AccountId, t: JurorTier) {
    match t
    case Gold => v == r.(gold := r.gold + [who], tiers := v.tiers, registry := v.registry, stakeOf := v.stakeOf)
    case Silver => v == r.(silver := r.silver + [who], tiers := v.tiers, registry := v.registry, stakeOf := v.stakeOf)
    case Bronze => v == r.(bronze := r.bronze + [who], tiers := v.tiers, registry := v.registry, stakeOf := v.stakeOf)
    case Ineligible => v.gold == r.gold && v.silver == r.silver && v.bronze == r.bronze
  }

  lemma AdditionLists(cfg: Config, r: RepStore, who: AccountId, t: JurorTier)
    requires ListedUnder(r, who, Ineligible) && AfterAddToTierList(cfg, r, who, t).Ok?
    ensures var v := AfterAddToTierList(cfg, r, who, t).value;
      && ListedUnder(v, who, t) && v == r.(gold := v.gold, silver := v.silver, bronze := v.bronze)
      && SameElsewhere(r, v, who) && JoinsLast(r, v, who, t)
  {
  }

  // ---------- registration ----------

  /**
    A registered juror is cached with the tier its statistics give and listed in that pool, with
    its stake recorded and moved from free to reserved.
  */
  lemma RegistrationSettles(cfg: Config, s: State, t: State, who: AccountId)
    requires IndexShape(cfg, s.rep) && Apply(cfg, s, RegisterAsJuror(who)) == Ok(t)
    ensures who !in s.rep.registry && t.rep.registry == s.rep.registry + {who}
    ensures TierOf(t.rep, who) == TierFromStats(StatsOf(s.rep, who)) != Ineligible
    ensures ListedUnder(t.rep, who, TierFromStats(StatsOf(s.rep, who)))
    ensures t.rep.stats == s.rep.stats && t.rep.stakeOf == s.rep.stakeOf[who := s.rep.jurorStake]
    ensures Free(t.ledger, who) == Free(s.ledger, who) - s.rep.jurorStake
    ensures Reserved(t.ledger, who) == Reserved(s.ledger, who) + s.rep.jurorStake
    ensures SameElsewhere(s.rep, t.rep, who)
    ensures JoinsLast(s.rep, t.rep, who, TierFromStats(StatsOf(s.rep, who)))
  {
    hide TierFromStats, AfterAddToTierList, IndexShape, Pool, Capacity, AfterReserve;
    var tier := TierFromStats(StatsOf(s.rep, who));
    var enrolled := Enrolled(s.rep, who, tier);
    assert AfterAddToTierList(cfg, enrolled, who, tier) == Ok(t.rep);
    assert AfterReserve(s.ledger, who, s.rep.jurorStake) == Ok(t.ledger);
    BondMoves(s.ledger, who, s.rep.jurorStake);
    StrangerUnlisted(cfg, s.rep, who);
    AdditionLists(cfg, enrolled, who, tier);
  }

  lemma StrangerUnlisted(cfg: Config, r: RepStore, who: AccountId)
    requires IndexShape(cfg, r) && who !in r.registry
    ensures ListedUnder(r, who, Ineligible)
  {
    assert who !in Pool(r, Gold) && who !in Pool(r, Silver) && who !in Pool(r, Bronze);
  }

  /** It succeeds exactly for an account not registered, due a tier with room, and able to reserve the stake. */
  lemma RegistersExactly(cfg: Config, s: State, who: AccountId)
    ensures Apply(cfg, s, RegisterAsJuror(who)).Ok? <==>
      && who !in s.rep.registry
      && (match TierFromStats(StatsOf(s.rep, who))
          case Gold => |s.rep.gold| < cfg.maxGold
          case Silver => |s.rep.silver| < cfg.maxSilver
          case Bronze => |s.rep.bronze| < cfg.maxBronze
          case Ineligible => false)
      && (s.rep.jurorStake == 0
          || (s.rep.jurorStake <= Free(s.ledger, who)
              && forall k :: k in s.ledger.locks && k.0 == who ==>
                   s.ledger.locks[k] <= Free(s.ledger, who) - s.rep.jurorStake))
  {
    hide Apply, TierFromStats;
    CallsDecided(cfg, s, RegisterAsJuror(who));
  }

  /** The pool of the tier has the account added at its end. */
  predicate LastIn(r: RepStore, v: RepStore, who: AccountId, t: JurorTier) {
    match t
    case Gold => v.gold == r.gold + [who]
    case Silver => v.silver == r.silver + [who]
    case Bronze => v.bronze == r.bronze + [who]
    case Ineligible => true
  }

  /** Taking an account out of a pool moves the last one into its place and keeps the order of the others. */
  lemma RemovalSwaps(s: seq<AccountId>, i: nat)
    requires Distinct(s) && i < |s|
    ensures var r, n := WithoutFirst(s, s[i]), |s| - 1;
      |r| == n && forall k :: 0 <= k < n ==> r[k] == if k == i then s[n] else s[k]
  {
  }

  // ---------- the tier update ----------

  /**
    A tier update that finds room settles the account: cached and listed under the tier due, or
    without a tier taken off everything with its stake back. One that does not leaves the
    account registered under its old tier and on no list.
  */
  lemma UpdateSettles(cfg: Config, w: RepWorld, who: AccountId)
    requires IndexShape(cfg, w.rep) && StakesBacked(w)
    ensures var a := AfterUpdateTier(cfg, w, who);
      var v, due := a.world, TierFromStats(StatsOf(w.rep, who));
      && v.rep.stats == w.rep.stats && v.rep.nextIndex == w.rep.nextIndex
      && (who !in w.rep.registry || TierOf(w.rep, who) == due ==> v == w)
      && (who in w.rep.registry && TierOf(w.rep, who) != due ==>
            if due == Ineligible then
              && a.error == None && who !in v.rep.registry && TierOf(v.rep, who) == Ineligible
              && ListedUnder(v.rep, who, Ineligible) && StakeOf(v.rep, who) == 0
              && Free(v.ledger, who) == Free(w.ledger, who) + StakeOf(w.rep, who)
              && Reserved(v.ledger, who) == Reserved(w.ledger, who) - StakeOf(w.rep, who)
            else
              && who in v.rep.registry && v.ledger == w.ledger && v.rep.stakeOf == w.rep.stakeOf
              && (if Room(cfg, w.rep, due)
                  then && a.error == None && TierOf(v.rep, who) == due && ListedUnder(v.rep, who, due)
                       && LastIn(w.rep, v.rep, who, due)
                  else a.error == Some(JurorPoolFull) && TierOf(v.rep, who) == TierOf(w.rep, who)
                       && ListedUnder(v.rep, who, Ineligible)))
  {
    hide TierFromStats, AfterRemoveFromTierList, AfterAddToTierList;
    var due := TierFromStats(StatsOf(w.rep, who));
    UpdateSparesCursors(cfg, w, who);
    if who in w.rep.registry && TierOf(w.rep, who) != due {
      PromotionDecided(cfg, w, who);
      if due == Ineligible {
        UpdateRemoves(cfg, w, who);
      } else {
        UpdateMoves(cfg, w, who);
      }
    }
  }

  lemma UpdateSparesCursors(cfg: Config, w: RepWorld, who: AccountId)
    ensures var v := AfterUpdateTier(cfg, w, who).world.rep;
      v.stats == w.rep.stats && v.nextIndex == w.rep.nextIndex && v.jurorStake == w.rep.jurorStake
  {
    hide TierFromStats, AfterRemoveFromTierList, AfterAddToTierList;
    ListsOnly(cfg, w.rep, who, TierOf(w.rep, who));
    ListsOnly(cfg, AfterRemoveFromTierList(w.rep, who, TierOf(w.rep, who)), who, TierFromStats(StatsOf(w.rep, who)));
  }

  lemma UpdateRemoves(cfg: Config, w: RepWorld, who: AccountId)
    requires IndexShape(cfg, w.rep) && StakesBacked(w)
    requires who in w.rep.registry && TierOf(w.rep, who) != Ineligible == TierFromStats(StatsOf(w.rep, who))
    ensures var v := AfterUpdateTier(cfg, w, who).world;
      && who !in v.rep.registry && TierOf(v.rep, who) == Ineligible
      && ListedUnder(v.rep, who, Ineligible) && StakeOf(v.rep, who) == 0
      && Free(v.ledger, who) == Free(w.ledger, who) + StakeOf(w.rep, who)
      && Reserved(v.ledger, who) == Reserved(w.ledger, who) - StakeOf(w.rep, who)
  {
    hide TierFromStats, AfterRemoveFromTierList, IndexShape;
    LeavingKeeps(cfg, w, who);
    RemovedFromLists(cfg, w.rep, who);
    assert Slack(w, who) >= 0;
  }

  /** Off the pool of the cached tier is off every pool. */
  lemma RemovedFromLists(cfg: Config, r: RepStore, who: AccountId)
    requires IndexShape(cfg, r)
    ensures var v := AfterRemoveFromTierList(r, who, TierOf(r, who));
      ListedUnder(v, who, Ineligible) && v == r.(gold := v.gold, silver := v.silver, bronze := v.bronze)
  {
    hide AfterRemoveFromTierList, IndexShape;
    RemovalKeepsShape(cfg, r, who);
    var v := AfterRemoveFromTierList(r, who, TierOf(r, who));
    assert who !in Pool(v, Gold) && who !in Pool(v, Silver) && who !in Pool(v, Bronze);
  }

  lemma RemovedElsewhere(r: RepStore, who: AccountId, was: JurorTier, due: JurorTier)
    requires was != due
    ensures var v := AfterRemoveFromTierList(r, who, was);
      && (due == Gold ==> v.gold == r.gold) && (due == Silver ==> v.silver == r.silver)
      && (due == Bronze ==> v.bronze == r.bronze)
  {
    hide WithoutFirst;
  }

  lemma UpdateMoves(cfg: Config, w: RepWorld, who: AccountId)
    requires IndexShape(cfg, w.rep)
    requires var due := TierFromStats(StatsOf(w.rep, who));
      who in w.rep.registry && TierOf(w.rep, who) != due && due != Ineligible
    ensures var a := AfterUpdateTier(cfg, w, who); var v, due := a.world, TierFromStats(StatsOf(w.rep, who));
      && who in v.rep.registry && v.ledger == w.ledger && v.rep.stakeOf == w.rep.stakeOf
      && (if a.error == None
          then TierOf(v.rep, who) == due && ListedUnder(v.rep, who, due) && LastIn(w.rep, v.rep, who, due)
          else TierOf(v.rep, who) == TierOf(w.rep, who) && ListedUnder(v.rep, who, Ineligible))
  {
    hide TierFromStats, AfterRemoveFromTierList, IndexShape, Pool, Capacity;
    RemovedFromLists(cfg, w.rep, who);
    var due := TierFromStats(StatsOf(w.rep, who));
    var removed := AfterRemoveFromTierList(w.rep, who, TierOf(w.rep, who));
    if AfterAddToTierList(cfg, removed, who, due).Ok? {
      AdditionLists(cfg, removed, who, due);
      RemovedElsewhere(w.rep, who, TierOf(w.rep, who), due);
    }
  }

  // ---------- every call ----------

  /** No update unsettles anybody, and one that succeeds settles its account. */
  lemma UpdateKeepsSettled(cfg: Config, w: RepWorld, who: AccountId, a: AccountId)
    ensures Settled(w.rep, a) ==> Settled(AfterUpdateTier(cfg, w, who).world.rep, a)
    ensures AfterUpdateTier(cfg, w, who).error.None? ==> Settled(AfterUpdateTier(cfg, w, who).world.rep, who)
  {
    hide TierFromStats, AfterRemoveFromTierList, AfterAddToTierList;
    ListsOnly(cfg, w.rep, who, TierOf(w.rep, who));
    ListsOnly(cfg, AfterRemoveFromTierList(w.rep, who, TierOf(w.rep, who)), who, TierFromStats(StatsOf(w.rep, who)));
  }

  /** The tier lists are all that adding and removing changes. */
  lemma ListsOnly(cfg: Config, r: RepStore, who: AccountId, t: JurorTier)
    ensures var v := AfterRemoveFromTierList(r, who, t); v == r.(gold := v.gold, silver := v.silver, bronze := v.bronze)
    ensures AfterAddToTierList(cfg, r, who, t).Ok? ==>
      var v := AfterAddToTierList(cfg, r, who, t).value;
      v == r.(gold := v.gold, silver := v.silver, bronze := v.bronze)
  {
    hide WithoutFirst, Capacity;
  }

  lemma StatsSettle(w: RepWorld, who: AccountId, s: Stats, a: AccountId)
    requires AfterStats(w, who, s).Ok?
    requires Settled(w.rep, a) && (a == who ==> TierFromStats(s) == TierFromStats(StatsOf(w.rep, who)))
    ensures Settled(AfterStats(w, who, s).value.rep, a)
  {
    hide TierFromStats;
  }

  /** Joining, posting and calling off a project, and voting, are no grounds for another tier. */
  lemma SameTier(s: Stats, t: Stats)
    requires t.projectsCompleted == s.projectsCompleted && t.totalEarned == s.totalEarned
    requires t.disputesWon == s.disputesWon && t.disputesLost == s.disputesLost
    ensures TierFromStats(t) == TierFromStats(s)
  {
  }

  lemma OwnRecordSettles(cfg: Config, s: State, t: State, c: Call, a: AccountId)
    requires c.RegisterUser? || c.CreateProject? || c.CancelProject?
    requires Apply(cfg, s, c) == Ok(t) && Settled(s.rep, a)
    ensures Settled(t.rep, a)
  {
    hide TierFromStats, LockIdOf;
    SameTier(StatsOf(s.rep, a), StatsOf(t.rep, a));
  }

  lemma JurorCallSettles(cfg: Config, s: State, t: State, c: Call, a: AccountId)
    requires c.RegisterAsJuror? || c.DeregisterAsJuror? || c.SlashJuror?
    requires Apply(cfg, s, c) == Ok(t) && Settled(s.rep, a)
    ensures Settled(t.rep, a)
  {
    hide TierFromStats, AfterRemoveFromTierList, AfterAddToTierList, AfterReserve, AfterUnreserve, PermillOf;
    match c {
      case RegisterAsJuror(who) =>
        var tier := TierFromStats(StatsOf(s.rep, who));
        ListsOnly(cfg, Enrolled(s.rep, who, tier), who, tier);
      case DeregisterAsJuror(who) => ListsOnly(cfg, s.rep, who, TierOf(s.rep, who));
      case SlashJuror(who) => ListsOnly(cfg, s.rep, who, TierOf(s.rep, who));
    }
  }

  lemma CompletionSettles(cfg: Config, now: BlockNumber, w: RepWorld, f: AccountId, value: Balance, rating: nat,
                          a: AccountId)
    requires AfterProjectCompleted(cfg, now, w, f, value, rating).Ok?
    requires Settled(w.rep, a) || a == f
    ensures Settled(AfterProjectCompleted(cfg, now, w, f, value, rating).value.rep, a)
  {
    hide StatsAfterCompletion, AfterUpdateTier, Settled;
    var s := StatsAfterCompletion(cfg, now, StatsOf(w.rep, f), value, rating);
    if a != f {
      StatsSettle(w, f, s, a);
    }
    UpdateKeepsSettled(cfg, AfterStats(w, f, s).value, f, a);
  }

  /** Accepted work settles the freelancer, and unsettles nobody but perhaps the client. */
  lemma AcceptanceSettles(cfg: Config, s: State, t: State, c: Call, a: AccountId)
    requires c.AcceptWork? && Apply(cfg, s, c) == Ok(t) && a != c.who
    requires Settled(s.rep, a) || (c.id in s.proj.projects && s.proj.projects[c.id].freelancer == Some(a))
    ensures Settled(t.rep, a)
  {
    hide LockIdOf, AfterTransfer, AfterProjectCompleted, Settled;
    var p := s.proj.projects[c.id];
    var ledger := AfterTransfer(AfterRemoveLock(s.ledger, LockIdOf(c.id), p.client), p.client, p.freelancer.value,
                                p.budget).value;
    var paid := RepWorld(ledger, s.rep);
    SameIndexSettled(s.rep, paid.rep, a);
    CompletionSettles(cfg, s.now, paid, p.freelancer.value, p.budget, c.rating * 1000, a);
    var j1 := AfterProjectCompleted(cfg, s.now, paid, p.freelancer.value, p.budget, c.rating * 1000).value;
    var x := StatsOf(j1.rep, c.who);
    StatsSettle(j1, c.who, x.(projectsCompleted := SatAdd(x.projectsCompleted, 1, U32_MAX), lastActivityBlock := s.now),
                a);
  }

  lemma SameIndexSettled(r: RepStore, v: RepStore, a: AccountId)
    requires v.stats == r.stats && v.tiers == r.tiers && v.registry == r.registry
    ensures Settled(v, a) <==> Settled(r, a)
  {
  }

  lemma OutcomeSettles(cfg: Config, now: BlockNumber, w: RepWorld, winner: AccountId, loser: AccountId, a: AccountId)
    requires AfterDisputeOutcome(cfg, now, w, winner, loser).Ok?
    requires Settled(w.rep, a) || a == winner || a == loser
    ensures Settled(AfterDisputeOutcome(cfg, now, w, winner, loser).value.rep, a)
  {
    hide StatsAfterWin, StatsAfterLoss, AfterUpdateTier, Settled;
    var w1 := AfterStats(w, winner, StatsAfterWin(now, StatsOf(w.rep, winner))).value;
    var w2 := AfterStats(w1, loser, StatsAfterLoss(now, StatsOf(w1.rep, loser))).value;
    if a != winner && a != loser {
      StatsSettle(w, winner, StatsAfterWin(now, StatsOf(w.rep, winner)), a);
      StatsSettle(w1, loser, StatsAfterLoss(now, StatsOf(w1.rep, loser)), a);
    }
    UpdateKeepsSettled(cfg, w2, winner, a);
    UpdateKeepsSettled(cfg, AfterUpdateTier(cfg, w2, winner).world, loser, a);
  }

  /** An enforcement settles both parties and unsettles nobody. */
  lemma EnforcementSettles(cfg: Config, s: State, t: State, id: ProjectId, a: AccountId)
    requires AfterEnforceFinalRuling(cfg, s, id) == Ok(t)
    requires Settled(s.rep, a)
          || (id in s.proj.projects
              && (s.proj.projects[id].client == a || s.proj.projects[id].freelancer == Some(a)))
    ensures Settled(t.rep, a)
  {
    hide AfterEnforceFinalRuling, AfterOnRuling, AfterPayouts, AfterDisputeOutcome, Settled;
    var winner, loser, site, ledger := EnforceSucceeded(cfg, s, id);
    if a != winner && a != loser {
      RulingSettles(cfg, s, id, s.arb.disputes[id].ruling.value, a);
    }
    SameIndexSettled(site.rep, RepWorld(ledger, site.rep).rep, a);
    OutcomeSettles(cfg, s.now, RepWorld(ledger, site.rep), winner, loser, a);
  }

  lemma RulingSettles(cfg: Config, s: State, id: ProjectId, ruling: Ruling, a: AccountId)
    requires AfterOnRuling(cfg, s.now, s.Site(), id, ruling).Ok? && Settled(s.rep, a)
    ensures Settled(AfterOnRuling(cfg, s.now, s.Site(), id, ruling).value.rep, a)
  {
    hide AfterProjectCompleted, AfterDisputeOutcome, LockIdOf, AfterTransfer, Settled;
    var p := s.proj.projects[id];
    match ruling {
      case FreelancerWins =>
        var unlocked := AfterRemoveLock(s.ledger, LockIdOf(id), p.client);
        var l := AfterTransfer(unlocked, p.client, p.freelancer.value, p.budget).value;
        CompletionSettles(cfg, s.now, RepWorld(l, s.rep), p.freelancer.value, p.budget, 3000, a);
      case ClientWins =>
        OutcomeSettles(cfg, s.now, World(s), p.client, p.freelancer.value, a);
    }
  }

  lemma VoteSettles(cfg: Config, now: BlockNumber, w: RepWorld, juror: AccountId, withMajority: bool, a: AccountId)
    requires Settled(w.rep, a)
    ensures Settled(AfterJuryVote(cfg, now, w, juror, withMajority).world.rep, a)
  {
    hide AfterUpdateTier, Settled, TierFromStats;
    var s := StatsAfterVote(now, StatsOf(w.rep, juror), withMajority);
    SameTier(StatsOf(w.rep, juror), s);
    if AfterStats(w, juror, s).Ok? {
      StatsSettle(w, juror, s, a);
      UpdateKeepsSettled(cfg, AfterStats(w, juror, s).value, juror, a);
    }
  }

  lemma {:induction false} VotesSettle(cfg: Config, now: BlockNumber, w: RepWorld, voters: seq<AccountId>,
                                       votes: map<AccountId, Vote>, ruling: Ruling, a: AccountId)
    requires forall i :: 0 <= i < |voters| ==> voters[i] in votes
    requires Settled(w.rep, a)
    ensures Settled(AfterJuryVotes(cfg, now, w, voters, votes, ruling).rep, a)
  {
    hide AfterJuryVote, Settled;
    if voters != [] {
      var n := |voters| - 1;
      VotesSettle(cfg, now, w, voters[..n], votes, ruling, a);
      VoteSettles(cfg, now, AfterJuryVotes(cfg, now, w, voters[..n], votes, ruling), voters[n],
                  Agrees(votes[voters[n]], ruling), a);
    }
  }

  lemma AppealSettles(cfg: Config, s: State, t: State, c: Call, a: AccountId)
    requires c.AppealRuling? && Apply(cfg, s, c) == Ok(t) && Settled(s.rep, a)
    ensures Settled(t.rep, a)
  {
    hide AfterAppealRuling, Settled, RoundOpened, FeesOwed;
    AppealOpened(cfg, s, t, c.who, c.id);
    SameIndexSettled(s.rep, t.rep, a);
  }

  lemma IdleSettles(cfg: Config, s: State, t: State, c: Call)
    requires !Records(c) && !c.RegisterAsJuror? && !c.DeregisterAsJuror? && !c.SlashJuror? && !c.AppealRuling?
    requires Apply(cfg, s, c) == Ok(t)
    ensures t.rep == s.rep
  {
    hide AppealBond, ArbitrationCost, LockIdOf, AfterReserve;
  }

  /** No call unsettles an account, but for a client who accepts work. */
  lemma StepSettles(cfg: Config, s: State, t: State, c: Call, a: AccountId)
    requires Apply(cfg, s, c) == Ok(t) && Settled(s.rep, a)
    requires !(c.AcceptWork? && c.who == a)
    ensures Settled(t.rep, a)
  {
    hide Apply, Settled;
    match c {
      case AcceptWork(_, _, _) => AcceptanceSettles(cfg, s, t, c, a);
      case FinalizeRound(_, id) =>
        RoundSettles(cfg, s, t, c, a);
      case EnforceFinalRuling(_, id) => EnforceSettles(cfg, s, t, c, a);
      case AppealRuling(_, _) => AppealSettles(cfg, s, t, c, a);
      case _ =>
        if Records(c) {
          OwnRecordSettles(cfg, s, t, c, a);
        } else if c.RegisterAsJuror? || c.DeregisterAsJuror? || c.SlashJuror? {
          JurorCallSettles(cfg, s, t, c, a);
        } else {
          IdleSettles(cfg, s, t, c);
        }
    }
  }

  lemma EnforceSettles(cfg: Config, s: State, t: State, c: Call, a: AccountId)
    requires c.EnforceFinalRuling? && Apply(cfg, s, c) == Ok(t) && Settled(s.rep, a)
    ensures Settled(t.rep, a)
  {
    hide AfterEnforceFinalRuling, Settled;
    EnforcementSettles(cfg, s, t, c.id, a);
  }

  lemma RoundSettles(cfg: Config, s: State, t: State, c: Call, a: AccountId)
    requires c.FinalizeRound? && Apply(cfg, s, c) == Ok(t) && Settled(s.rep, a)
    ensures Settled(t.rep, a)
  {
    hide AfterFinalizeRound, Settled, AfterJuryVotes;
    RoundWritesVotes(cfg, s, c.id);
    var votes := s.arb.disputes[c.id].votes;
    VotesSettle(cfg, s.now, RepWorld(s.ledger, s.rep), VoteOrder(votes), votes, RoundRuling(votes), a);
  }

  /** Nothing of the index about anybody else. */
  predicate SameEntry(r: RepStore, v: RepStore, a: AccountId) {
    (a in v.registry <==> a in r.registry) && TierOf(v, a) == TierOf(r, a) && StatsOf(v, a) == StatsOf(r, a)
  }

  lemma UpdateSparesEntry(cfg: Config, w: RepWorld, who: AccountId, a: AccountId)
    requires a != who
    ensures SameEntry(w.rep, AfterUpdateTier(cfg, w, who).world.rep, a)
  {
    hide TierFromStats, AfterRemoveFromTierList, AfterAddToTierList;
    ListsOnly(cfg, w.rep, who, TierOf(w.rep, who));
    ListsOnly(cfg, AfterRemoveFromTierList(w.rep, who, TierOf(w.rep, who)), who, TierFromStats(StatsOf(w.rep, who)));
  }

  lemma CompletionSparesEntry(cfg: Config, now: BlockNumber, w: RepWorld, f: AccountId, value: Balance, rating: nat,
                              a: AccountId)
    requires AfterProjectCompleted(cfg, now, w, f, value, rating).Ok? && a != f
    ensures SameEntry(w.rep, AfterProjectCompleted(cfg, now, w, f, value, rating).value.rep, a)
  {
    hide StatsAfterCompletion, AfterUpdateTier;
    var s := StatsAfterCompletion(cfg, now, StatsOf(w.rep, f), value, rating);
    UpdateSparesEntry(cfg, AfterStats(w, f, s).value, f, a);
  }

  lemma AcceptanceEntry(cfg: Config, s: State, t: State, c: Call)
    requires c.AcceptWork? && Apply(cfg, s, c) == Ok(t)
    requires c.id in s.proj.projects && s.proj.projects[c.id].freelancer != Some(c.who)
    ensures var x := StatsOf(s.rep, c.who);
      && (c.who in t.rep.registry <==> c.who in s.rep.registry)
      && TierOf(t.rep, c.who) == TierOf(s.rep, c.who)
      && StatsOf(t.rep, c.who) == x.(projectsCompleted := Min(x.projectsCompleted + 1, U32_MAX),
                                     lastActivityBlock := s.now)
  {
    hide LockIdOf, AfterTransfer, AfterProjectCompleted;
    var p := s.proj.projects[c.id];
    var ledger := AfterTransfer(AfterRemoveLock(s.ledger, LockIdOf(c.id), p.client), p.client, p.freelancer.value,
                                p.budget).value;
    CompletionSparesEntry(cfg, s.now, RepWorld(ledger, s.rep), p.freelancer.value, p.budget, c.rating * 1000, c.who);
  }

  /** A settled client who accepts another's work stays settled unless one project more is due another tier. */
  lemma ClientSettles(cfg: Config, s: State, t: State, c: Call)
    requires c.AcceptWork? && Apply(cfg, s, c) == Ok(t) && Settled(s.rep, c.who)
    requires c.id in s.proj.projects && s.proj.projects[c.id].freelancer != Some(c.who)
    ensures var x := StatsOf(s.rep, c.who);
      Settled(t.rep, c.who) <==>
        (c.who in s.rep.registry ==>
           TierFromStats(x.(projectsCompleted := Min(x.projectsCompleted + 1, U32_MAX))) == TierFromStats(x))
  {
    hide Apply, TierFromStats, Min;
    AcceptanceEntry(cfg, s, t, c);
    var x := StatsOf(s.rep, c.who);
    SameTier(x.(projectsCompleted := Min(x.projectsCompleted + 1, U32_MAX)), StatsOf(t.rep, c.who));
  }

  // ---------- every run ----------

  /** A successful acceptance by `a` as client. */
  ghost predicate AcceptsAsClient(cfg: Config, s: State, calls: seq<Call>, a: AccountId) {
    exists i :: 0 <= i < |calls| && calls[i].AcceptWork? && calls[i].who == a
                && Apply(cfg, Run(cfg, s, calls[..i]), calls[i]).Ok?
  }

  /** Over a run only a client who accepts work can come to be cached with a tier it is not due. */
  lemma {:induction false} RunSettles(cfg: Config, s: State, calls: seq<Call>, a: AccountId)
    requires Settled(s.rep, a) && !AcceptsAsClient(cfg, s, calls, a)
    ensures Settled(Run(cfg, s, calls).rep, a)
  {
    hide Apply, Settled;
    if calls != [] {
      var n := |calls| - 1;
      forall i | 0 <= i < n ensures calls[..n][..i] == calls[..i] {
      }
      RunSettles(cfg, s, calls[..n], a);
      var before := Run(cfg, s, calls[..n]);
      if Apply(cfg, before, calls[n]).Ok? {
        StepSettles(cfg, before, Apply(cfg, before, calls[n]).value, calls[n], a);
      }
    }
  }

  // ---------- from genesis ----------

  ghost predicate AllSettled(r: RepStore) {
    && (forall a :: Settled(r, a))
    && forall a :: a in r.tiers ==> r.tiers[a] == TierFromStats(StatsOf(r, a))
  }

  lemma GenesisJurorSettles(cfg: Config, w: RepWorld, juror: AccountId)
    requires AllSettled(w.rep) && AfterGenesisJuror(cfg, w, juror).Ok?
    ensures AllSettled(AfterGenesisJuror(cfg, w, juror).value.rep)
  {
    hide TierFromStats, AfterAddToTierList, AfterReserve;
    var v := AfterGenesisJuror(cfg, w, juror).value.rep;
    var tier := TierFromStats(StatsOf(w.rep, juror));
    ListsOnly(cfg, Enrolled(w.rep, juror, tier), juror, tier);
    forall a ensures Settled(v, a) {
      assert Settled(w.rep, a);
    }
  }

  lemma {:induction false} GenesisJurorsSettle(cfg: Config, w: RepWorld, jurors: seq<AccountId>)
    requires AllSettled(w.rep) && AfterGenesisJurors(cfg, w, jurors).Ok?
    ensures AllSettled(AfterGenesisJurors(cfg, w, jurors).value.rep)
  {
    hide AfterGenesisJuror, AllSettled;
    if jurors != [] {
      var n := |jurors| - 1;
      GenesisJurorsSettle(cfg, w, jurors[..n]);
      GenesisJurorSettles(cfg, AfterGenesisJurors(cfg, w, jurors[..n]).value, jurors[n]);
    }
  }

  /** Every genesis juror is cached with the tier its statistics give. */
  lemma GenesisSettles(cfg: Config, l: Ledger, users: map<AccountId, Stats>, jurors: seq<AccountId>, stake: Balance)
    requires Genesis(cfg, l, users, jurors, stake).Ok?
    ensures forall a :: Settled(Genesis(cfg, l, users, jurors, stake).value.rep, a)
  {
    GenesisJurorsSettle(cfg, RepWorld(l, Unstaked(users, stake)), jurors);
    hide Settled;
  }

  /**
    From genesis, with nobody dropped on the way, the pools hold by tier due exactly the
    registered jurors among the accounts that never accepted work as clients.
  */
  lemma PoolsMatchStatistics(cfg: Config, l: Ledger, users: map<AccountId, Stats>, jurors: seq<AccountId>,
                             stake: Balance, calls: seq<Call>, a: AccountId, t: JurorTier)
    requires Chain(cfg, l, users, jurors, stake, calls) && t != Ineligible
    requires NobodyDropped(cfg, Start(cfg, l, users, jurors, stake), calls)
    requires !AcceptsAsClient(cfg, Start(cfg, l, users, jurors, stake), calls, a)
    ensures var r := Run(cfg, Start(cfg, l, users, jurors, stake), calls).rep;
      a in Pool(r, t) <==> a in r.registry && TierFromStats(StatsOf(r, a)) == t
  {
    hide Genesis, NobodyDropped, AcceptsAsClient, SoundGenesis, TierFromStats, Pool;
    var s := Start(cfg, l, users, jurors, stake);
    GenesisSettles(cfg, l, users, jurors, stake);
    RunSettles(cfg, s, calls, a);
    PoolsAreComplete(cfg, l, users, jurors, stake, calls, a, t);
  }
}
