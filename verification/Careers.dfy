/**
  An account's record as a history of events, and what the stored statistics are in terms of
  that history: counts, sums, running means, and the blocks of the first and the last event.
*/
module Careers {
  import opened Prelude
  import opened Types
  import opened Reputation
  import opened RunningMeans

  datatype Event =
    | Joined(block: BlockNumber)
    | Posted(block: BlockNumber, budget: Balance)
    | CalledOff(block: BlockNumber)
    | Approved(block: BlockNumber)
    | Delivered(block: BlockNumber, value: Balance, rating: nat)
    | Won(block: BlockNumber)
    | Lost(block: BlockNumber)
    | Voted(block: BlockNumber, withMajority: bool)

  /** The statistics after one event. */
  function Noted(cfg: Config, s: Stats, e: Event): Stats {
    match e
    case Joined(b) => s.(registrationBlock := b, lastActivityBlock := b)
    case Posted(b, budget) =>
      s.(projectsPosted := SatAdd(s.projectsPosted, 1, U32_MAX),
         totalSpent := SatAdd(s.totalSpent, budget, cfg.maxBalance),
         lastActivityBlock := b)
    case CalledOff(b) => s.(projectsFailed := SatAdd(s.projectsFailed, 1, U32_MAX), lastActivityBlock := b)
    case Approved(b) => s.(projectsCompleted := SatAdd(s.projectsCompleted, 1, U32_MAX), lastActivityBlock := b)
    case Delivered(b, value, rating) => StatsAfterCompletion(cfg, b, s, value, rating)
    case Won(b) => StatsAfterWin(b, s)
    case Lost(b) => StatsAfterLoss(b, s)
    case Voted(b, withMajority) => StatsAfterVote(b, s, withMajority)
  }

  /** The statistics after a history. */
  function Replay(cfg: Config, s: Stats, events: seq<Event>): Stats {
    if events == [] then s
    else Noted(cfg, Replay(cfg, s, events[..|events| - 1]), events[|events| - 1])
  }

  lemma {:induction false} ReplayTwice(cfg: Config, s: Stats, first: seq<Event>, second: seq<Event>)
    ensures Replay(cfg, s, first + second) == Replay(cfg, Replay(cfg, s, first), second)
  {
    if second == [] {
      assert first + second == first;
    } else {
      hide Noted;
      var n := |second| - 1;
      ReplayTwice(cfg, s, first, second[..n]);
      assert (first + second)[..|first + second| - 1] == first + second[..n];
    }
  }

  // ---------- what the events add up to ----------

  /** A weight of every event, summed up. */
  function Total(events: seq<Event>, weight: Event -> nat): nat {
    if events == [] then 0
    else Total(events[..|events| - 1], weight) + weight(events[|events| - 1])
  }

  /** Work delivered, and for a client work approved. */
  function Completion(e: Event): nat {
    if e.Delivered? || e.Approved? then 1 else 0
  }

  /** A dispute lost, and for a client a project called off. */
  function Failure(e: Event): nat {
    if e.Lost? || e.CalledOff? then 1 else 0
  }

  function Earning(e: Event): nat {
    if e.Delivered? then e.value else 0
  }

  function Posting(e: Event): nat {
    if e.Posted? then 1 else 0
  }

  function Spending(e: Event): nat {
    if e.Posted? then e.budget else 0
  }

  function Win(e: Event): nat {
    if e.Won? then 1 else 0
  }

  function Loss(e: Event): nat {
    if e.Lost? then 1 else 0
  }

  /** The ratings received, in order. */
  function RatingsIn(events: seq<Event>): seq<nat> {
    if events == [] then []
    else
      var n := |events| - 1;
      RatingsIn(events[..n]) + (if events[n].Delivered? then [events[n].rating] else [])
  }

  /** Whether each vote was with the majority, in order. */
  function SidesIn(events: seq<Event>): seq<bool> {
    if events == [] then []
    else
      var n := |events| - 1;
      SidesIn(events[..n]) + (if events[n].Voted? then [events[n].withMajority] else [])
  }

  /** Counters within u32 and amounts within the balance type. */
  predicate WithinTypes(cfg: Config, s: Stats) {
    && s.projectsCompleted <= U32_MAX && s.projectsFailed <= U32_MAX && s.projectsPosted <= U32_MAX
    && s.disputesWon <= U32_MAX && s.disputesLost <= U32_MAX
    && s.totalEarned <= cfg.maxBalance && s.totalSpent <= cfg.maxBalance
  }

  /** What one event adds to each counter and sum. */
  lemma CountersStep(cfg: Config, s: Stats, e: Event)
    requires WithinTypes(cfg, s)
    ensures var t := Noted(cfg, s, e);
      && t.projectsCompleted == Min(s.projectsCompleted + Completion(e), U32_MAX)
      && t.projectsFailed == Min(s.projectsFailed + Failure(e), U32_MAX)
      && t.totalEarned == Min(s.totalEarned + Earning(e), cfg.maxBalance)
      && t.projectsPosted == Min(s.projectsPosted + Posting(e), U32_MAX)
      && t.totalSpent == Min(s.totalSpent + Spending(e), cfg.maxBalance)
      && t.disputesWon == Min(s.disputesWon + Win(e), U32_MAX)
      && t.disputesLost == Min(s.disputesLost + Loss(e), U32_MAX)
      && WithinTypes(cfg, t)
  {
    hide NextAverage, NextAccuracy;
  }

  lemma MinAdds(start: nat, sum: nat, more: nat, max: nat)
    ensures Min(Min(start + sum, max) + more, max) == Min(start + (sum + more), max)
  {
  }

  /** Every counter and sum grows by what the events weigh, up to its type's limit. */
  lemma {:induction false} CountersAddUp(cfg: Config, s: Stats, events: seq<Event>)
    requires WithinTypes(cfg, s)
    ensures var t := Replay(cfg, s, events);
      && t.projectsCompleted == Min(s.projectsCompleted + Total(events, Completion), U32_MAX)
      && t.projectsFailed == Min(s.projectsFailed + Total(events, Failure), U32_MAX)
      && t.totalEarned == Min(s.totalEarned + Total(events, Earning), cfg.maxBalance)
      && t.projectsPosted == Min(s.projectsPosted + Total(events, Posting), U32_MAX)
      && t.totalSpent == Min(s.totalSpent + Total(events, Spending), cfg.maxBalance)
      && t.disputesWon == Min(s.disputesWon + Total(events, Win), U32_MAX)
      && t.disputesLost == Min(s.disputesLost + Total(events, Loss), U32_MAX)
      && WithinTypes(cfg, t)
  {
    if events != [] {
      hide Noted, Completion, Failure, Earning, Posting, Spending, Win, Loss, WithinTypes, Min;
      var n := |events| - 1;
      var before, e := events[..n], events[n];
      CountersAddUp(cfg, s, before);
      CountersStep(cfg, Replay(cfg, s, before), e);
      MinAdds(s.projectsCompleted, Total(before, Completion), Completion(e), U32_MAX);
      MinAdds(s.projectsFailed, Total(before, Failure), Failure(e), U32_MAX);
      MinAdds(s.totalEarned, Total(before, Earning), Earning(e), cfg.maxBalance);
      MinAdds(s.projectsPosted, Total(before, Posting), Posting(e), U32_MAX);
      MinAdds(s.totalSpent, Total(before, Spending), Spending(e), cfg.maxBalance);
      MinAdds(s.disputesWon, Total(before, Win), Win(e), U32_MAX);
      MinAdds(s.disputesLost, Total(before, Loss), Loss(e), U32_MAX);
    } else {
      assert Replay(cfg, s, events) == s;
    }
  }

  /** For an account nobody rated before, the stored rating is the running mean of the ratings received. */
  lemma {:induction false} RatingsAverage(cfg: Config, s: Stats, events: seq<Event>)
    requires s.avgRatingReceived == 0 && s.totalRatingsReceived == 0
    ensures var t := Replay(cfg, s, events);
      (t.avgRatingReceived, t.totalRatingsReceived) == Rated(RatingsIn(events))
  {
    if events != [] {
      hide NextAverage, NextAccuracy;
      var n := |events| - 1;
      RatingsAverage(cfg, s, events[..n]);
      if events[n].Delivered? {
        assert RatingsIn(events)[..|RatingsIn(events)| - 1] == RatingsIn(events[..n]);
      } else {
        assert RatingsIn(events) == RatingsIn(events[..n]);
      }
    }
  }

  /** For an account that never sat on a jury before, the jury statistics are those of its votes' sides. */
  lemma {:induction false} VotesAverage(cfg: Config, s: Stats, events: seq<Event>)
    requires s.juryParticipation == 0 && s.juryAccuracy == 0
    ensures var t := Replay(cfg, s, events);
      (t.juryParticipation, t.juryAccuracy) == Judged(SidesIn(events))
  {
    if events != [] {
      hide NextAverage, NextAccuracy;
      var n := |events| - 1;
      VotesAverage(cfg, s, events[..n]);
      if events[n].Voted? {
        assert SidesIn(events)[..|SidesIn(events)| - 1] == SidesIn(events[..n]);
      } else {
        assert SidesIn(events) == SidesIn(events[..n]);
      }
    }
  }

  /** The last event stamps the activity; only joining stamps the registration. */
  lemma {:induction false} BlocksStamped(cfg: Config, s: Stats, events: seq<Event>)
    ensures var t := Replay(cfg, s, events);
      && (events != [] ==> t.lastActivityBlock == events[|events| - 1].block)
      && ((forall i :: 0 <= i < |events| ==> !events[i].Joined?) ==> t.registrationBlock == s.registrationBlock)
      && (events != [] && events[0].Joined? && (forall i :: 0 < i < |events| ==> !events[i].Joined?) ==>
            t.registrationBlock == events[0].block)
  {
    if events != [] {
      hide NextAverage, NextAccuracy;
      BlocksStamped(cfg, s, events[..|events| - 1]);
    }
  }

  /** Work and disputes, of one kind or another. */
  predicate Counts(e: Event) {
    e.Delivered? || e.Approved? || e.Won? || e.Lost?
  }

  /** Joining, posting and calling off projects, and voting never move the tier. */
  lemma {:induction false} TierUnmoved(cfg: Config, s: Stats, events: seq<Event>)
    requires forall i :: 0 <= i < |events| ==> !Counts(events[i])
    ensures TierFromStats(Replay(cfg, s, events)) == TierFromStats(s)
  {
    if events != [] {
      hide TierFromStats, NextAccuracy, Noted;
      var n := |events| - 1;
      TierUnmoved(cfg, s, events[..n]);
      EventUnmoved(cfg, Replay(cfg, s, events[..n]), events[n]);
    }
  }

  lemma EventUnmoved(cfg: Config, s: Stats, e: Event)
    requires !Counts(e)
    ensures TierFromStats(Noted(cfg, s, e)) == TierFromStats(s)
  {
    hide NextAccuracy;
  }
}
