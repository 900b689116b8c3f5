/**
  What statistics do to the juror tier: exactly when each tier is reached, and exactly when a
  lost or a won dispute disqualifies.
*/
module TierTheorems {
  import opened Prelude
  import opened Types
  import opened Reputation

  function Disputes(s: Stats): nat {
    SatAdd(s.disputesWon, s.disputesLost, U32_MAX)
  }

  /** The loss rate rules the account out, whatever it has completed and earned. */
  predicate Disqualified(s: Stats) {
    Disputes(s) > 2 && SatMul(s.disputesLost, 1000, U32_MAX) / Disputes(s) > 500
  }

  lemma RateAbove(x: nat, d: nat, k: nat)
    requires d > 0
    ensures x / d > k <==> x >= (k + 1) * d
  {
    var q := x / d;
    assert x == d * q + x % d;
    if q >= k + 1 {
      assert d * q >= d * (k + 1);
    } else {
      assert d * q <= d * k;
      assert (k + 1) * d == d * k + d;
    }
  }

  /** The floored rate exceeds 500 exactly when the losses reach 501 per thousand. */
  lemma DisqualifiedExactly(s: Stats)
    ensures Disqualified(s) <==> Disputes(s) > 2 && SatMul(s.disputesLost, 1000, U32_MAX) >= 501 * Disputes(s)
  {
    if Disputes(s) > 0 {
      RateAbove(SatMul(s.disputesLost, 1000, U32_MAX), Disputes(s), 500);
    }
  }

  /** A tier is reached exactly by work and earnings together, and by nobody disqualified. */
  lemma TierExactly(s: Stats, t: JurorTier)
    requires t != Ineligible
    ensures Rank(TierFromStats(s)) >= Rank(t) <==>
      && !Disqualified(s)
      && s.projectsCompleted >= (match t case Gold => 50 case Silver => 20 case _ => 5)
      && s.totalEarned >= (match t case Gold => 50000 case Silver => 10000 case _ => 1000)
  {
    match t {
      case Gold =>
      case Silver =>
      case Bronze =>
    }
  }

  /** Without saturation, losing the majority disqualifies exactly when it is 501 per thousand of more than two. */
  lemma DisqualifiedUnsaturated(s: Stats)
    requires 1000 * s.disputesLost <= U32_MAX && s.disputesWon + s.disputesLost <= U32_MAX
    ensures Disqualified(s) <==> s.disputesWon + s.disputesLost > 2 && 499 * s.disputesLost >= 501 * s.disputesWon
  {
    DisqualifiedExactly(s);
  }

  lemma WinKeepsQualified(s: Stats, t: Stats)
    requires t.disputesWon == SatAdd(s.disputesWon, 1, U32_MAX) && t.disputesLost == s.disputesLost
    requires !Disqualified(s) && Disputes(s) != 2
    ensures !Disqualified(t)
  {
    DisqualifiedExactly(s);
    DisqualifiedExactly(t);
    hide Disqualified;
  }

  /**
    A won dispute lowers the tier exactly in one case: the third dispute of an account that
    lost the first two, which until then were too few to count.
  */
  lemma WinDisqualifies(now: BlockNumber, s: Stats)
    ensures Rank(TierFromStats(StatsAfterWin(now, s))) < Rank(TierFromStats(s)) <==>
      s.disputesWon == 0 && s.disputesLost == 2 && TierFromStats(s) != Ineligible
  {
    var t := StatsAfterWin(now, s);
    if Disputes(s) == 2 {
      TwoDisputes(now, s);
    } else {
      if !Disqualified(s) {
        WinKeepsQualified(s, t);
      }
      SameWork(s, t);
    }
  }

  lemma TwoDisputes(now: BlockNumber, s: Stats)
    requires Disputes(s) == 2
    ensures Disqualified(StatsAfterWin(now, s)) <==> s.disputesLost == 2
    ensures Rank(TierFromStats(StatsAfterWin(now, s))) < Rank(TierFromStats(s)) <==>
      s.disputesWon == 0 && s.disputesLost == 2 && TierFromStats(s) != Ineligible
  {
    assert s.disputesLost == 0 || s.disputesLost == 1 || s.disputesLost == 2;
  }

  /** Equal work: the tier differs only through disqualification. */
  lemma SameWork(s: Stats, t: Stats)
    requires t.projectsCompleted == s.projectsCompleted && t.totalEarned == s.totalEarned
    ensures !Disqualified(s) && !Disqualified(t) ==> TierFromStats(t) == TierFromStats(s)
    ensures Disqualified(s) ==> TierFromStats(s) == Ineligible
    ensures Disqualified(t) ==> TierFromStats(t) == Ineligible
  {
    hide SatMul, SatAdd;
  }

  /** The losses saturate at 4294968, and the rate they are counted at crosses the limit at one total only. */
  lemma LossRequalifies(now: BlockNumber, s: Stats)
    requires s.disputesWon <= U32_MAX && s.disputesLost <= U32_MAX
    ensures Disqualified(s) && !Disqualified(StatsAfterLoss(now, s)) <==>
      s.disputesWon + s.disputesLost == 8_572_789 && s.disputesLost >= 4_294_968
  {
    DisqualifiedExactly(s);
    DisqualifiedExactly(StatsAfterLoss(now, s));
    hide Disqualified;
  }

  /**
    A lost dispute raises the tier in exactly one case: 8572789 disputes behind the account, so
    many of them lost that the count of losses has saturated, and work enough for some tier.
  */
  lemma LossRaisesExactly(now: BlockNumber, s: Stats)
    requires s.disputesWon <= U32_MAX && s.disputesLost <= U32_MAX
    ensures Rank(TierFromStats(StatsAfterLoss(now, s))) > Rank(TierFromStats(s)) <==>
      && s.disputesWon + s.disputesLost == 8_572_789 && s.disputesLost >= 4_294_968
      && s.projectsCompleted >= 5 && s.totalEarned >= 1000
  {
    var t := StatsAfterLoss(now, s);
    LossRequalifies(now, s);
    SameWork(s, t);
    TierExactly(t, Bronze);
    hide Disqualified, TierFromStats;
  }

  /** That case, at its smallest. */
  lemma SaturatedLossRaises()
    ensures var s := NO_STATS.(disputesWon := 4_277_821, disputesLost := 4_294_968, projectsCompleted := 5,
                               totalEarned := 1000);
      TierFromStats(s) == Ineligible && TierFromStats(StatsAfterLoss(0, s)) == Bronze
  {
  }

  /** A completed project never lowers the tier. */
  lemma CompletionNeverLowers(cfg: Config, now: BlockNumber, s: Stats, value: Balance, rating: nat)
    requires s.projectsCompleted <= U32_MAX && s.totalEarned <= cfg.maxBalance
    ensures Rank(TierFromStats(StatsAfterCompletion(cfg, now, s, value, rating))) >= Rank(TierFromStats(s))
  {
    hide NextAverage, SatMul;
  }
}
