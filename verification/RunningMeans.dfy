/**
  The two running means the reputation pallet stores: the average rating and the jury
  accuracy. Each step floors, and saturates at the width of u32.
*/
module RunningMeans {
  import opened Prelude
  import opened Types
  import opened Reputation

  function Sum(values: seq<nat>): nat {
    if values == [] then 0 else Sum(values[..|values| - 1]) + values[|values| - 1]
  }

  /** The exact recurrence, before any saturation. */
  function Mean(values: seq<nat>): nat {
    if values == [] then 0
    else
      var n := |values| - 1;
      (Mean(values[..n]) * n + values[n]) / (n + 1)
  }

  lemma DriftStep(sum: nat, n: nat, mean: nat, value: nat)
    requires 0 <= 2 * (sum - n * mean) <= n * (n - 1)
    ensures var next := (mean * n + value) / (n + 1);
      0 <= 2 * (sum + value - (n + 1) * next) <= (n + 1) * n
  {
    var top := mean * n + value;
    var q, r := top / (n + 1), top % (n + 1);
    assert top == (n + 1) * q + r;
    assert n * mean == mean * n;
    assert sum + value - (n + 1) * q == (sum - n * mean) + r;
    assert (n + 1) * n == n * (n - 1) + 2 * n;
  }

  /** Flooring loses less than one per value and step: `n(n-1)/2` in all. */
  lemma {:induction false} MeanDrift(values: seq<nat>)
    ensures var n := |values|;
      0 <= 2 * (Sum(values) - n * Mean(values)) <= n * (n - 1)
  {
    if values != [] {
      var n := |values| - 1;
      MeanDrift(values[..n]);
      DriftStep(Sum(values[..n]), n, Mean(values[..n]), values[n]);
    }
  }

  lemma MeanStepBounded(mean: nat, n: nat, value: nat, lo: nat, hi: nat)
    requires lo <= mean <= hi && lo <= value <= hi
    ensures lo <= (mean * n + value) / (n + 1) <= hi
  {
    assert lo * n <= mean * n <= hi * n;
    assert lo * (n + 1) == lo * n + lo && hi * (n + 1) == hi * n + hi;
    DivWithin(mean * n + value, n + 1, lo, hi);
  }

  lemma DivWithin(x: nat, d: nat, lo: nat, hi: nat)
    requires d > 0
    requires lo * d <= x <= hi * d
    ensures lo <= x / d <= hi
  {
    var q := x / d;
    assert x == d * q + x % d;
    assert q + 1 <= lo ==> d * (q + 1) <= d * lo;
    assert hi + 1 <= q ==> d * (hi + 1) <= d * q;
  }

  /** The mean lies between the smallest and the largest value. */
  lemma {:induction false} MeanWithin(values: seq<nat>, lo: nat, hi: nat)
    requires values != []
    requires forall i :: 0 <= i < |values| ==> lo <= values[i] <= hi
    ensures lo <= Mean(values) <= hi
  {
    var n := |values| - 1;
    if n > 0 {
      MeanWithin(values[..n], lo, hi);
      MeanStepBounded(Mean(values[..n]), n, values[n], lo, hi);
    }
  }

  // ---------- ratings ----------

  lemma Unsaturated(mean: nat, n: nat, scale: nat, value: nat)
    requires mean <= scale && value <= scale
    requires scale * n + scale <= U32_MAX
    ensures SatMul(mean, n, U32_MAX) == mean * n
    ensures SatAdd(mean * n, value, U32_MAX) == mean * n + value
  {
    assert mean * n <= scale * n;
  }

  /** The stored average and count after a fresh account received these ratings. */
  function Rated(ratings: seq<nat>): (nat, nat) {
    if ratings == [] then (0, 0)
    else
      var (average, total) := Rated(ratings[..|ratings| - 1]);
      (NextAverage(average, total, ratings[|ratings| - 1]), SatAdd(total, 1, U32_MAX))
  }

  predicate Ratings(ratings: seq<nat>) {
    forall i :: 0 <= i < |ratings| ==> ratings[i] <= 5000
  }

  /** Up to this many ratings nothing saturates. */
  const EXACT_RATINGS: nat := 858_993

  lemma {:induction false} RatedIsMean(ratings: seq<nat>)
    requires Ratings(ratings) && |ratings| <= EXACT_RATINGS
    ensures Rated(ratings) == (Mean(ratings), |ratings|)
  {
    if ratings != [] {
      var n := |ratings| - 1;
      RatedIsMean(ratings[..n]);
      if n > 0 {
        MeanWithin(ratings[..n], 0, 5000);
      }
      Unsaturated(Mean(ratings[..n]), n, 5000, ratings[n]);
    }
  }

  ghost predicate Within(values: seq<nat>, lo: nat, hi: nat) {
    forall i :: 0 <= i < |values| ==> lo <= values[i] <= hi
  }

  /** Up to the limit the stored average lies between the extreme ratings and trails the mean by at most (n-1)/2. */
  lemma AverageTracksRatings(ratings: seq<nat>, lo: nat, hi: nat)
    requires 0 < |ratings| <= EXACT_RATINGS && hi <= 5000 && Within(ratings, lo, hi)
    ensures var n := |ratings|; var average := Rated(ratings).0;
      && 0 <= 2 * (Sum(ratings) - n * average) <= n * (n - 1)
      && lo <= average <= hi
  {
    RatedIsMean(ratings);
    MeanDrift(ratings);
    MeanWithin(ratings, lo, hi);
  }

  lemma FlooredBelow(average: nat, n: nat, rating: nat, sum: nat)
    requires n * average <= sum && n + 1 <= U32_MAX
    ensures (n + 1) * NextAverage(average, n, rating) <= sum + rating
  {
    var x := SatAdd(SatMul(average, n, U32_MAX), rating, U32_MAX);
    assert average * n == n * average;
    assert x == (n + 1) * (x / (n + 1)) + x % (n + 1);
  }

  lemma {:induction false} AverageNeverLeads(ratings: seq<nat>)
    requires |ratings| <= U32_MAX
    ensures |ratings| * Rated(ratings).0 <= Sum(ratings) && Rated(ratings).1 == |ratings|
  {
    if ratings != [] {
      var n := |ratings| - 1;
      AverageNeverLeads(ratings[..n]);
      FlooredBelow(Rated(ratings[..n]).0, n, ratings[n], Sum(ratings[..n]));
    }
  }

  lemma {:induction false} SumWithin(values: seq<nat>, hi: nat)
    requires Within(values, 0, hi)
    ensures Sum(values) <= |values| * hi
  {
    if values != [] {
      var n := |values| - 1;
      SumWithin(values[..n], hi);
      assert (n + 1) * hi == n * hi + hi;
    }
  }

  lemma WideBound(n: nat, scale: nat, sum: nat)
    requires sum <= n * scale && 2 * scale + 1 <= n
    ensures 2 * sum <= n * (n - 1)
  {
    assert n * (2 * scale) <= n * (n - 1);
    assert n * (2 * scale) == 2 * (n * scale);
  }

  /** The drift bound survives saturation: past 10000 ratings it is wider than the scale. */
  lemma AverageDriftBounded(ratings: seq<nat>)
    requires Ratings(ratings) && |ratings| <= U32_MAX
    ensures var n := |ratings|;
      0 <= 2 * (Sum(ratings) - n * Rated(ratings).0) <= n * (n - 1)
  {
    var n := |ratings|;
    if n <= EXACT_RATINGS {
      RatedIsMean(ratings);
      MeanDrift(ratings);
    } else {
      AverageNeverLeads(ratings);
      SumWithin(ratings, 5000);
      WideBound(n, 5000, Sum(ratings));
      assert n * Rated(ratings).0 >= 0;
    }
  }

  function Repeated(n: nat, value: nat): (values: seq<nat>)
    ensures |values| == n && forall i :: 0 <= i < n ==> values[i] == value
  {
    seq(n, i => value)
  }

  lemma {:induction false} RatedTotal(ratings: seq<nat>)
    ensures Rated(ratings).1 == Min(|ratings|, U32_MAX)
  {
    if ratings != [] {
      RatedTotal(ratings[..|ratings| - 1]);
    }
  }

  /** What a floored quotient of a u32 can be at most. */
  lemma QuotientCapped(x: nat, d: nat)
    requires d > 0 && x <= U32_MAX
    ensures d * (x / d) <= U32_MAX
  {
    assert x == d * (x / d) + x % d;
  }

  lemma MulMonotone(d: nat, a: nat, b: nat)
    requires a <= b
    ensures d * a <= d * b
  {
  }

  lemma TooMany(d: nat, scale: nat, average: nat)
    requires d * average <= U32_MAX < d * scale
    ensures average < scale
  {
    if average >= scale {
      MulMonotone(d, scale, average);
    }
  }

  /** Past the limit, top ratings alone no longer make a top average. */
  lemma TopAverageDrops(n: nat)
    requires n > EXACT_RATINGS
    ensures Rated(Repeated(n, 5000)).0 < 5000
  {
    var ratings := Repeated(n, 5000);
    var (average, total) := Rated(ratings[..n - 1]);
    RatedTotal(ratings[..n - 1]);
    var x, d := SatAdd(SatMul(average, total, U32_MAX), 5000, U32_MAX), SatAdd(total, 1, U32_MAX);
    assert Rated(ratings).0 == x / d;
    hide SatMul, Rated;
    QuotientCapped(x, d);
    TooMany(d, 5000, x / d);
  }

  /** The limit is sharp: averages of n ratings stay between the extremes for all ratings exactly up to it. */
  lemma AverageRangeLimit(n: nat)
    requires n > 0
    ensures (forall ratings: seq<nat>, lo: nat, hi: nat ::
               |ratings| == n && hi <= 5000 && Within(ratings, lo, hi) ==> lo <= Rated(ratings).0 <= hi)
       <==> n <= EXACT_RATINGS
  {
    if n <= EXACT_RATINGS {
      forall ratings: seq<nat>, lo: nat, hi: nat | |ratings| == n && hi <= 5000 && Within(ratings, lo, hi)
        ensures lo <= Rated(ratings).0 <= hi
      {
        AverageTracksRatings(ratings, lo, hi);
      }
    } else {
      TopAverageDrops(n);
      assert Within(Repeated(n, 5000), 5000, 5000);
    }
  }

  /** One rating keeps the scale, whatever the stored count, saturated or not. */
  lemma AverageStaysOnScale(average: nat, total: nat, rating: nat)
    requires average <= 5000 && rating <= 5000
    ensures NextAverage(average, total, rating) <= 5000
  {
    var d := SatAdd(total, 1, U32_MAX);
    var x := SatAdd(SatMul(average, total, U32_MAX), rating, U32_MAX);
    if total + 1 <= U32_MAX {
      assert average * total <= 5000 * total;
      DivWithin(x, d, 0, 5000);
    } else {
      DivWithin(x, d, 0, 1);
    }
  }

  lemma {:induction false} AverageNeverExceedsScale(ratings: seq<nat>)
    requires Ratings(ratings)
    ensures Rated(ratings).0 <= 5000
  {
    if ratings != [] {
      var n := |ratings| - 1;
      AverageNeverExceedsScale(ratings[..n]);
      var (average, total) := Rated(ratings[..n]);
      AverageStaysOnScale(average, total, ratings[n]);
    }
  }

  // ---------- jury votes ----------

  /** The stored participation and accuracy after a fresh account cast these votes. */
  function Judged(votes: seq<bool>): (nat, nat) {
    if votes == [] then (0, 0)
    else
      var (participation, accuracy) := Judged(votes[..|votes| - 1]);
      var n := SatAdd(participation, 1, U32_MAX);
      (n, NextAccuracy(accuracy, n, votes[|votes| - 1]))
  }

  function VoteValues(votes: seq<bool>): (values: seq<nat>)
    ensures |values| == |votes|
    ensures forall i :: 0 <= i < |values| ==> values[i] == if votes[i] then PERMILL_ONE else 0
  {
    if votes == [] then []
    else VoteValues(votes[..|votes| - 1]) + [if votes[|votes| - 1] then PERMILL_ONE else 0]
  }

  function MajorityVotes(votes: seq<bool>): nat {
    if votes == [] then 0
    else MajorityVotes(votes[..|votes| - 1]) + (if votes[|votes| - 1] then 1 else 0)
  }

  /** Up to this many votes nothing saturates. */
  const EXACT_VOTES: nat := 4_294

  lemma {:induction false} JudgedIsMean(votes: seq<bool>)
    requires |votes| <= EXACT_VOTES
    ensures Judged(votes) == (|votes|, Mean(VoteValues(votes)))
    ensures Mean(VoteValues(votes)) <= PERMILL_ONE
  {
    if votes != [] {
      var n := |votes| - 1;
      JudgedIsMean(votes[..n]);
      assert VoteValues(votes)[..n] == VoteValues(votes[..n]);
      MeanWithin(VoteValues(votes), 0, PERMILL_ONE);
      Unsaturated(Mean(VoteValues(votes[..n])), n, PERMILL_ONE, VoteValues(votes)[n]);
    }
  }

  lemma {:induction false} SumOfVotes(votes: seq<bool>)
    ensures Sum(VoteValues(votes)) == PERMILL_ONE * MajorityVotes(votes)
  {
    if votes != [] {
      SumOfVotes(votes[..|votes| - 1]);
      assert VoteValues(votes)[..|votes| - 1] == VoteValues(votes[..|votes| - 1]);
    }
  }

  /** The accuracy never exceeds the true share of majority votes, and trails it by at most (n-1)/2 ppm. */
  ghost predicate Tracked(votes: seq<bool>) {
    var n := |votes|;
    0 <= 2 * (PERMILL_ONE * MajorityVotes(votes) - n * Judged(votes).1) <= n * (n - 1)
  }

  /** Up to this many votes the accuracy is tracked, although it may saturate on the last ten. */
  const TRACKED_VOTES: nat := 4_304

  /** What one more vote, the n-th, does to the lag behind the exact sum. */
  lemma LagStep(accuracy: nat, n: nat, withMajority: bool, sum: nat)
    requires 0 < n <= U32_MAX && accuracy <= PERMILL_ONE
    requires (n - 1) * accuracy <= sum <= PERMILL_ONE * (n - 1)
    ensures var value := if withMajority then PERMILL_ONE else 0;
      var lag := sum + value - n * NextAccuracy(accuracy, n, withMajority);
      && 0 <= lag
      && (lag <= sum - (n - 1) * accuracy + (n - 1) || lag <= PERMILL_ONE * n - U32_MAX + (n - 1))
  {
    var value := if withMajority then PERMILL_ONE else 0;
    var x := SatAdd(SatMul(accuracy, n - 1, U32_MAX), value, U32_MAX);
    assert accuracy * (n - 1) == (n - 1) * accuracy;
    assert (n - 1) * accuracy <= (n - 1) * PERMILL_ONE;
    assert PERMILL_ONE * n == PERMILL_ONE * (n - 1) + PERMILL_ONE;
    DivWithin(x, n, 0, PERMILL_ONE);
    assert x == n * (x / n) + x % n;
  }

  lemma {:induction false} JudgedWithin(votes: seq<bool>)
    ensures Judged(votes).1 <= PERMILL_ONE && Judged(votes).0 == Min(|votes|, U32_MAX)
    ensures MajorityVotes(votes) <= |votes|
  {
    if votes != [] {
      JudgedWithin(votes[..|votes| - 1]);
    }
  }

  lemma {:induction false} AccuracyNeverLeads(votes: seq<bool>)
    requires |votes| <= U32_MAX
    ensures |votes| * Judged(votes).1 <= PERMILL_ONE * MajorityVotes(votes)
  {
    if votes != [] {
      var n := |votes|;
      AccuracyNeverLeads(votes[..n - 1]);
      JudgedWithin(votes[..n - 1]);
      LagStep(Judged(votes[..n - 1]).1, n, votes[n - 1], PERMILL_ONE * MajorityVotes(votes[..n - 1]));
    }
  }

  /** Saturated or not, the lag stays under the bound while n is small. */
  lemma LagFits(n: nat, before: int, lag: int)
    requires 0 < n <= TRACKED_VOTES
    requires 2 * before <= (n - 1) * (n - 2)
    requires lag <= before + (n - 1) || lag <= PERMILL_ONE * n - U32_MAX + (n - 1)
    ensures 2 * lag <= n * (n - 1)
  {
    assert n * (n - 1) == (n - 1) * (n - 2) + 2 * (n - 1);
    var m := TRACKED_VOTES - n;
    assert n * (n - 1) == TRACKED_VOTES * (TRACKED_VOTES - 1) - m * (2 * TRACKED_VOTES - 1) + m * m;
  }

  lemma {:induction false} AccuracyTracksVotes(votes: seq<bool>)
    requires |votes| <= TRACKED_VOTES
    ensures Tracked(votes)
  {
    if votes != [] {
      var n := |votes|;
      var accuracy, sum := Judged(votes[..n - 1]).1, PERMILL_ONE * MajorityVotes(votes[..n - 1]);
      AccuracyTracksVotes(votes[..n - 1]);
      JudgedWithin(votes[..n - 1]);
      LagStep(accuracy, n, votes[n - 1], sum);
      var value := if votes[n - 1] then PERMILL_ONE else 0;
      assert PERMILL_ONE * MajorityVotes(votes) == sum + value;
      LagFits(n, sum - (n - 1) * accuracy, sum + value - n * Judged(votes).1);
    }
  }

  function Unanimous(n: nat): (votes: seq<bool>)
    ensures |votes| == n && forall i :: 0 <= i < n ==> votes[i]
  {
    seq(n, i => true)
  }

  lemma {:induction false} AllMajority(votes: seq<bool>)
    requires forall i :: 0 <= i < |votes| ==> votes[i]
    ensures MajorityVotes(votes) == |votes|
  {
    if votes != [] {
      AllMajority(votes[..|votes| - 1]);
    }
  }

  /** The stored numerator is a u32, so the accuracy cannot exceed its largest value over n. */
  lemma AccuracyCapped(votes: seq<bool>)
    requires votes != []
    ensures Min(|votes|, U32_MAX) * Judged(votes).1 <= U32_MAX
  {
    var n := |votes| - 1;
    JudgedWithin(votes[..n]);
    var accuracy, d := Judged(votes[..n]).1, Min(n + 1, U32_MAX);
    var value := if votes[n] then PERMILL_ONE else 0;
    var x := SatAdd(SatMul(accuracy, d - 1, U32_MAX), value, U32_MAX);
    assert Judged(votes).1 <= x / d;
    hide SatMul, Judged;
    QuotientCapped(x, d);
    MulMonotone(d, Judged(votes).1, x / d);
  }

  lemma QuadraticGap(n: nat)
    requires TRACKED_VOTES < n <= 1_995_696
    ensures 2 * PERMILL_ONE * n - 2 * U32_MAX > n * (n - 1)
  {
    var k := n - 4_305;
    var r := 1_991_391 - k;
    assert n * (n - 1) == 2_000_000 * n - n * (2_000_001 - n);
    assert n * (2_000_001 - n) == (4_305 + k) * (4_305 + r);
    assert (4_305 + k) * (4_305 + r) == 4_305 * 4_305 + 4_305 * (k + r) + k * r;
  }

  lemma LagTooLong(votes: seq<bool>)
    requires MajorityVotes(votes) == |votes| && |votes| * Judged(votes).1 <= U32_MAX
    requires 2 * PERMILL_ONE * |votes| - 2 * U32_MAX > |votes| * (|votes| - 1)
    ensures !Tracked(votes)
  {
    hide Judged, MajorityVotes;
  }

  /** Between these lengths, voting with every majority breaks the bound. */
  lemma UnanimousUntracked(n: nat)
    requires TRACKED_VOTES < n <= 1_995_696
    ensures !Tracked(Unanimous(n))
  {
    AllMajority(Unanimous(n));
    AccuracyCapped(Unanimous(n));
    QuadraticGap(n);
    hide Judged, MajorityVotes, Tracked;
    LagTooLong(Unanimous(n));
  }

  /** From here on the bound is wider than the scale and says nothing. */
  lemma TrackedWhenWide(votes: seq<bool>)
    requires 2_000_001 <= |votes| <= U32_MAX
    ensures Tracked(votes)
  {
    var n := |votes|;
    AccuracyNeverLeads(votes);
    JudgedWithin(votes);
    hide Judged, MajorityVotes;
    WideBound(n, PERMILL_ONE, PERMILL_ONE * MajorityVotes(votes));
    assert n * Judged(votes).1 >= 0;
  }

  /** The limit is sharp: all sequences of at most n votes are tracked exactly up to it. */
  lemma AccuracyLimit(n: nat)
    ensures (forall votes: seq<bool> :: |votes| <= n ==> Tracked(votes)) <==> n <= TRACKED_VOTES
  {
    if n <= TRACKED_VOTES {
      forall votes: seq<bool> | |votes| <= n ensures Tracked(votes) {
        AccuracyTracksVotes(votes);
      }
    } else {
      UnanimousUntracked(TRACKED_VOTES + 1);
    }
  }

  /** A perfect record stays perfect exactly as long as nothing saturates. */
  lemma PerfectAccuracyLimit(n: nat)
    requires n > 0
    ensures Judged(Unanimous(n)).1 == PERMILL_ONE <==> n <= EXACT_VOTES
  {
    if n <= EXACT_VOTES {
      JudgedIsMean(Unanimous(n));
      MeanWithin(VoteValues(Unanimous(n)), PERMILL_ONE, PERMILL_ONE);
    } else {
      AccuracyCapped(Unanimous(n));
      TooMany(Min(n, U32_MAX), PERMILL_ONE, Judged(Unanimous(n)).1);
    }
  }
}
