/**
  Percentages of a budget, floored: what the appeal bonds cover, and how many jurors the
  collected costs can pay.
*/
module FeeTheorems {
  import opened Prelude
  import opened Types
  import opened Arbitration

  /** Every percentage in use is taken of a budget this small without saturating. */
  predicate Affordable(cfg: Config, budget: Balance) {
    50 * budget <= cfg.maxBalance
  }

  function CostOf(cfg: Config, budget: Balance, round: nat): Balance {
    ArbitrationCost(cfg, budget, round).GetOr(0)
  }

  function BondOf(cfg: Config, budget: Balance, round: nat): Balance {
    AppealBond(cfg, budget, round).GetOr(0)
  }

  function FeesOf(cfg: Config, budget: Balance, round: nat): JuryFee {
    JuryFees(cfg, budget, round).GetOr(JuryFee(0, 0))
  }

  /** The costs accumulated when the dispute has reached `round`. */
  function CostsTo(cfg: Config, budget: Balance, round: nat): Balance {
    if round == 0 then 0
    else SatAdd(CostsTo(cfg, budget, round - 1), CostOf(cfg, budget, round), cfg.maxBalance)
  }

  /** The most one juror can earn in a round. */
  function TopReward(cfg: Config, budget: Balance, round: nat): Balance {
    FeesOf(cfg, budget, round).base + FeesOf(cfg, budget, round).bonus
  }

  /** A floored percentage, split at whole hundreds of the budget. */
  lemma PercentSplit(cfg: Config, budget: Balance, p: nat)
    requires Affordable(cfg, budget) && p <= 50
    ensures Percent(cfg, budget, p) == p * (budget / 100) + p * (budget % 100) / 100
  {
    var q, t := budget / 100, budget % 100;
    assert budget * p <= budget * 50;
    HundredsOut(budget, p, q, t);
    DivideHundreds(p * q, p * t);
  }

  lemma HundredsOut(budget: nat, p: nat, q: nat, t: nat)
    requires budget == 100 * q + t
    ensures budget * p == 100 * (p * q) + p * t
  {
    assert (100 * q + t) * p == 100 * q * p + t * p;
    assert 100 * q * p == 100 * (p * q);
  }

  lemma DivideHundreds(a: nat, b: nat)
    ensures (100 * a + b) / 100 == a + b / 100
  {
  }

  lemma CostsUnsaturated(cfg: Config, budget: Balance)
    requires Affordable(cfg, budget)
    ensures var q, t := budget / 100, budget % 100;
      && CostsTo(cfg, budget, 1) == 2 * q + 2 * t / 100
      && CostsTo(cfg, budget, 2) == 7 * q + 2 * t / 100 + 5 * t / 100
      && CostsTo(cfg, budget, 3) == 15 * q + 2 * t / 100 + 5 * t / 100 + 8 * t / 100
  {
    PercentSplit(cfg, budget, 2);
    PercentSplit(cfg, budget, 5);
    PercentSplit(cfg, budget, 8);
    assert CostsTo(cfg, budget, 1) == SatAdd(0, CostOf(cfg, budget, 1), cfg.maxBalance);
    assert CostsTo(cfg, budget, 2) == SatAdd(CostsTo(cfg, budget, 1), CostOf(cfg, budget, 2), cfg.maxBalance);
    assert CostsTo(cfg, budget, 3) == SatAdd(CostsTo(cfg, budget, 2), CostOf(cfg, budget, 3), cfg.maxBalance);
  }

  /** Either appeal bond alone covers all the costs a dispute can accumulate. */
  lemma AppealBondCoversCosts(cfg: Config, budget: Balance, bondRound: nat, lastRound: nat)
    requires Affordable(cfg, budget)
    requires 2 <= bondRound <= 3 && 1 <= lastRound <= 3
    ensures BondOf(cfg, budget, bondRound) >= CostsTo(cfg, budget, lastRound)
  {
    CostsUnsaturated(cfg, budget);
    PercentSplit(cfg, budget, 20);
    PercentSplit(cfg, budget, 50);
  }

  /** The first bond covers the AI round and, from a budget of 50 on, nothing more. */
  lemma FirstBondCoversFirstRoundOnly(cfg: Config, budget: Balance)
    requires Affordable(cfg, budget)
    ensures BondOf(cfg, budget, 1) >= CostsTo(cfg, budget, 1)
    ensures BondOf(cfg, budget, 1) >= CostsTo(cfg, budget, 2) <==> budget < 50
  {
    CostsUnsaturated(cfg, budget);
    PercentSplit(cfg, budget, 5);
  }

  lemma RewardsUnsaturated(cfg: Config, budget: Balance)
    requires Affordable(cfg, budget)
    ensures var q, f := budget / 100, 2 * (budget % 100) / 100;
      && TopReward(cfg, budget, 2) == q + q / 4
      && TopReward(cfg, budget, 3) == (2 * q + f) + (2 * q + f) / 4
  {
    PercentSplit(cfg, budget, 1);
    PercentSplit(cfg, budget, 2);
  }

  lemma TimesBound(n: nat, x: nat, bound: nat)
    requires 4 * x <= bound
    ensures 4 * (n * x) <= n * bound
  {
    assert n * (4 * x) <= n * bound;
  }

  /** Costs and rewards in whole hundreds `q` of the budget and floored remainders. */
  lemma Rates(cfg: Config, budget: Balance) returns (q: nat, f: nat, g: nat, h: nat)
    requires Affordable(cfg, budget)
    ensures f <= 1 && g >= 2 * f && h >= 4 * f
    ensures CostsTo(cfg, budget, 2) == 7 * q + f + g
    ensures CostsTo(cfg, budget, 3) == 15 * q + f + g + h
    ensures 4 * TopReward(cfg, budget, 2) <= 5 * q
    ensures 4 * TopReward(cfg, budget, 3) <= 10 * q + 4 * f
  {
    hide CostsTo, TopReward, Affordable;
    CostsFloored(cfg, budget);
    RewardsFloored(cfg, budget);
    var t := budget % 100;
    FlooredRates(t);
    hide Floored;
    q, f, g, h := budget / 100, Floored(t, 2), Floored(t, 5), Floored(t, 8);
  }

  /** A percentage of what is left of the budget after whole hundreds. */
  function Floored(t: nat, p: nat): nat {
    p * t / 100
  }

  lemma CostsFloored(cfg: Config, budget: Balance)
    requires Affordable(cfg, budget)
    ensures var q, t := budget / 100, budget % 100;
      && CostsTo(cfg, budget, 2) == 7 * q + Floored(t, 2) + Floored(t, 5)
      && CostsTo(cfg, budget, 3) == 15 * q + Floored(t, 2) + Floored(t, 5) + Floored(t, 8)
  {
    CostsUnsaturated(cfg, budget);
    hide CostsTo, Affordable;
  }

  lemma RewardsFloored(cfg: Config, budget: Balance)
    requires Affordable(cfg, budget)
    ensures var q, t := budget / 100, budget % 100;
      && 4 * TopReward(cfg, budget, 2) <= 5 * q
      && 4 * TopReward(cfg, budget, 3) <= 10 * q + 4 * Floored(t, 2)
  {
    RewardsUnsaturated(cfg, budget);
    QuarterOn(budget / 100);
    FlooredRates(budget % 100);
    EvenQuarterOn(budget / 100, Floored(budget % 100, 2));
    hide TopReward, Affordable;
  }

  lemma FlooredRates(t: nat)
    requires t < 100
    ensures Floored(t, 2) <= 1 && Floored(t, 5) >= 2 * Floored(t, 2) && Floored(t, 8) >= 4 * Floored(t, 2)
  {
  }

  lemma QuarterOn(x: nat)
    ensures 4 * (x + x / 4) <= 5 * x
  {
  }

  /** A quarter of an even number, or of one more, rounds down to a quarter of the even one. */
  lemma EvenQuarterOn(q: nat, f: nat)
    requires f <= 1
    ensures 4 * ((2 * q + f) + (2 * q + f) / 4) <= 10 * q + 4 * f
  {
  }

  lemma SecondSum(voters: nat, reward: nat, q: nat)
    requires voters <= 5 && 4 * reward <= 5 * q
    ensures voters * reward <= 7 * q
  {
    assert voters * reward <= 5 * reward;
  }

  lemma Scale(n: nat, q: nat, f: nat)
    ensures n * (5 * q) == 5 * (n * q)
    ensures n * (10 * q + 4 * f) == 10 * (n * q) + 4 * (n * f)
  {
  }

  lemma MulLe(a: nat, b: nat, c: nat)
    requires a <= b
    ensures a * c <= b * c
  {
  }

  lemma ThirdSum(v2: nat, v3: nat, x: nat, y: nat, q: nat, f: nat)
    requires v2 + 2 * v3 <= 12 && f <= 1
    requires 4 * x <= 5 * q && 4 * y <= 10 * q + 4 * f
    ensures v2 * x + v3 * y <= 15 * q + 6 * f
  {
    SecondPart(v2, x, q);
    ThirdPart(v3, y, q, f);
    AtMostTwelve(v2, v3, q);
    MulLe(v3, 6, f);
    ThirdBound(v2 * x, v3 * y, v2 * q, v3 * q, v3 * f, q, f);
  }

  lemma SecondPart(v: nat, x: nat, q: nat)
    requires 4 * x <= 5 * q
    ensures 4 * (v * x) <= 5 * (v * q)
  {
    TimesBound(v, x, 5 * q);
    Scale(v, q, 0);
  }

  lemma ThirdPart(v: nat, y: nat, q: nat, f: nat)
    requires 4 * y <= 10 * q + 4 * f
    ensures 4 * (v * y) <= 10 * (v * q) + 4 * (v * f)
  {
    TimesBound(v, y, 10 * q + 4 * f);
    Scale(v, q, f);
  }

  lemma AtMostTwelve(v2: nat, v3: nat, q: nat)
    requires v2 + 2 * v3 <= 12
    ensures v2 * q + 2 * (v3 * q) <= 12 * q
  {
    MulLe(v2 + 2 * v3, 12, q);
    Weighted(v2, v3, q);
  }

  lemma Weighted(v2: nat, v3: nat, q: nat)
    ensures (v2 + 2 * v3) * q == v2 * q + 2 * (v3 * q)
  {
    assert (2 * v3) * q == 2 * (v3 * q);
  }

  lemma ThirdBound(a: nat, b: nat, q2: nat, q3: nat, f3: nat, q: nat, f: nat)
    requires 4 * a <= 5 * q2 && 4 * b <= 10 * q3 + 4 * f3
    requires q2 + 2 * q3 <= 12 * q && f3 <= 6 * f
    ensures a + b <= 15 * q + 6 * f
  {
  }

  lemma SecondRoundPays(cfg: Config, budget: Balance, voters: nat)
    requires Affordable(cfg, budget) && voters <= 5
    ensures voters * TopReward(cfg, budget, 2) <= CostsTo(cfg, budget, 2)
  {
    var q, f, g, h := Rates(cfg, budget);
    SecondSum(voters, TopReward(cfg, budget, 2), q);
  }

  /** Two juries, `v2` and `v3` voters strong, can be paid from three rounds of costs. */
  lemma ThirdRoundPays(cfg: Config, budget: Balance, v2: nat, v3: nat)
    requires Affordable(cfg, budget) && v2 + 2 * v3 <= 12
    ensures v2 * TopReward(cfg, budget, 2) + v3 * TopReward(cfg, budget, 3) <= CostsTo(cfg, budget, 3)
  {
    var q, f, g, h := Rates(cfg, budget);
    ThirdSum(v2, v3, TopReward(cfg, budget, 2), TopReward(cfg, budget, 3), q, f);
  }

  /** At a budget of 400 nothing is lost to rounding. */
  lemma Budget400(cfg: Config)
    requires 20_000 <= cfg.maxBalance
    ensures Affordable(cfg, 400)
    ensures TopReward(cfg, 400, 2) == 5 && TopReward(cfg, 400, 3) == 10
    ensures CostsTo(cfg, 400, 2) == 28 && CostsTo(cfg, 400, 3) == 60
  {
    CostsUnsaturated(cfg, 400);
    RewardsUnsaturated(cfg, 400);
  }

  /** The costs of two rounds pay five jurors, however they voted, and not always six. */
  lemma SecondRoundSolvency(cfg: Config, voters: nat)
    requires 20_000 <= cfg.maxBalance
    ensures (forall budget: nat :: Affordable(cfg, budget) ==>
                voters * TopReward(cfg, budget, 2) <= CostsTo(cfg, budget, 2)) <==> voters <= 5
  {
    hide TopReward, CostsTo;
    Budget400(cfg);
    forall budget: nat | Affordable(cfg, budget) && voters <= 5
      ensures voters * TopReward(cfg, budget, 2) <= CostsTo(cfg, budget, 2)
    {
      SecondRoundPays(cfg, budget, voters);
    }
  }

  /** The exact bound for three rounds: a Silver juror counts twice. */
  lemma ThirdRoundSolvency(cfg: Config, v2: nat, v3: nat)
    requires 20_000 <= cfg.maxBalance
    ensures (forall budget: nat :: Affordable(cfg, budget) ==>
                v2 * TopReward(cfg, budget, 2) + v3 * TopReward(cfg, budget, 3) <= CostsTo(cfg, budget, 3))
            <==> v2 + 2 * v3 <= 12
  {
    hide TopReward, CostsTo;
    Budget400(cfg);
    forall budget: nat | Affordable(cfg, budget) && v2 + 2 * v3 <= 12
      ensures v2 * TopReward(cfg, budget, 2) + v3 * TopReward(cfg, budget, 3) <= CostsTo(cfg, budget, 3)
    {
      ThirdRoundPays(cfg, budget, v2, v3);
    }
  }
}
