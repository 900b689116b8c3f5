/**
  No dispute goes on forever: every successful call on it uses up a potential that starts at
  7 + MinJurors + MaxJurors.
*/
module Termination {
  import opened Prelude
  import opened Types
  import opened Reputation
  import opened JurorIndex
  import opened Arbitration
  import opened DisputeProtocol
  import opened DisputeCalls
  import opened Escrow
  import opened ReserveLedger
  import opened System
  import opened ChainInvariant
  import opened ChainSafety

  ghost predicate IsDisputeCall(c: Call, id: ProjectId) {
    match c
    case CreateDispute(_, i) => i == id
    case SubmitRuling(i, _) => i == id
    case AppealRuling(_, i) => i == id
    case CastVote(_, i, _) => i == id
    case FinalizeRound(_, i) => i == id
    case EnforceFinalRuling(_, i) => i == id
    case _ => false
  }

  /** Jurors who have not voted yet. */
  function Unvoted(d: Dispute): nat {
    SatSub(|d.jurors|, |d.votes|)
  }

  /** The most calls that can still succeed on a dispute, its creation included. */
  function Potential(cfg: Config, d: Option<Dispute>): nat {
    var juries := cfg.minJurors + cfg.maxJurors;
    match d
    case None => 7 + juries
    case Some(d) =>
      match d.status
      case AiProcessing => 6 + juries
      case Appealable => if d.round == 1 then 5 + juries else if d.round == 2 then 3 + cfg.maxJurors else 1
      case Voting => if d.round == 2 then 4 + cfg.maxJurors + Unvoted(d) else 2 + Unvoted(d)
      case Finalized => 0
  }

  function PotentialOf(cfg: Config, s: State, id: ProjectId): nat {
    Potential(cfg, Lookup(s.arb.disputes, id))
  }

  lemma {:induction false} SeatsCount(seats: seq<(AccountId, bool)>)
    requires DistinctSeats(seats)
    ensures |Sitting(seats)| == |seats|
  {
    if seats == [] {
      assert Sitting(seats) == {};
    } else {
      var n := |seats| - 1;
      SeatsCount(seats[..n]);
      assert Sitting(seats) == Sitting(seats[..n]) + {seats[n].0} by {
        forall a | a in Sitting(seats) ensures a in Sitting(seats[..n]) + {seats[n].0} {
          var i :| 0 <= i < |seats| && seats[i].0 == a;
          if i < n {
            assert seats[..n][i].0 == a;
          }
        }
        forall a | a in Sitting(seats[..n]) ensures a in Sitting(seats) {
          var i :| 0 <= i < n && seats[..n][i].0 == a;
          assert seats[i].0 == a;
        }
      }
      assert seats[n].0 !in Sitting(seats[..n]);
    }
  }

  /** Fewer votes than jurors while someone has not voted. */
  lemma VotesLeft(seats: seq<(AccountId, bool)>, votes: map<AccountId, Vote>, i: nat)
    requires DistinctSeats(seats) && votes.Keys == Flagged(seats)
    requires i < |seats| && !seats[i].1
    ensures seats[i].0 !in votes && |votes| < |seats|
  {
    SeatsCount(seats);
    forall k | 0 <= k < |seats| && seats[k].1 ensures seats[k].0 != seats[i].0 {
      assert k != i;
    }
    assert Flagged(seats) <= Sitting(seats) - {seats[i].0} by {
      forall a | a in Flagged(seats) ensures a in Sitting(seats) && a != seats[i].0 {
        var k :| 0 <= k < |seats| && seats[k].1 && seats[k].0 == a;
      }
    }
    assert |Sitting(seats) - {seats[i].0}| == |seats| - 1;
    SubsetFull(Flagged(seats), Sitting(seats) - {seats[i].0});
    assert |votes| == |votes.Keys|;
  }

  lemma CreateProgress(cfg: Config, s: State, who: AccountId, id: ProjectId)
    requires AfterCreateDispute(cfg, s, who, id).Ok?
    ensures PotentialOf(cfg, AfterCreateDispute(cfg, s, who, id).value, id) < PotentialOf(cfg, s, id)
  {
    CreateDisputeCase(cfg, s, who, id);
    hide AfterCreateDispute;
    assert CaseOf(AfterCreateDispute(cfg, s, who, id).value, id).dispute.Some?;
  }

  lemma RulingProgress(cfg: Config, s: State, id: ProjectId, ruling: Ruling)
    requires AllCases(cfg, s) && AfterSubmitRuling(s, id, ruling).Ok?
    ensures PotentialOf(cfg, AfterSubmitRuling(s, id, ruling).value, id) < PotentialOf(cfg, s, id)
  {
    hide AllCases;
    OpenCase(cfg, s, id);
  }

  lemma VoteProgress(cfg: Config, s: State, who: AccountId, id: ProjectId, vote: Vote)
    requires AllCases(cfg, s) && AfterCastVote(s, who, id, vote).Ok?
    ensures PotentialOf(cfg, AfterCastVote(s, who, id, vote).value, id) < PotentialOf(cfg, s, id)
  {
    hide AllCases;
    OpenCase(cfg, s, id);
    var d := s.arb.disputes[id];
    VotesLeft(d.jurors, d.votes, SeatOf(d.jurors, who));
  }

  lemma FinalizeProgress(cfg: Config, s: State, id: ProjectId)
    requires AllCases(cfg, s) && AfterFinalizeRound(cfg, s, id).Ok?
    ensures PotentialOf(cfg, AfterFinalizeRound(cfg, s, id).value, id) < PotentialOf(cfg, s, id)
  {
    hide AllCases, AfterFinalizeRound;
    FinalizeFacts(cfg, s, id);
    OpenCase(cfg, s, id);
  }

  lemma EnforceProgress(cfg: Config, s: State, id: ProjectId)
    requires AllCases(cfg, s) && AfterEnforceFinalRuling(cfg, s, id).Ok?
    ensures PotentialOf(cfg, AfterEnforceFinalRuling(cfg, s, id).value, id) < PotentialOf(cfg, s, id)
  {
    hide AllCases, AfterEnforceFinalRuling;
    EnforceCase(cfg, s, id);
    assert CaseOf(AfterEnforceFinalRuling(cfg, s, id).value, id).dispute.value.status == Finalized;
  }

  /** Every successful call on a dispute lowers its potential. */
  lemma DisputeCallsProgress(cfg: Config, s: State, c: Call, id: ProjectId, created: nat)
    requires Inv(cfg, s, created) && IsDisputeCall(c, id)
    requires Apply(cfg, s, c).Ok?
    ensures PotentialOf(cfg, Apply(cfg, s, c).value, id) < PotentialOf(cfg, s, id)
  {
    hide AllCases, IndexOk, ReservesExact, EscrowOk, PotentialOf;
    hide AfterCreateDispute, AfterSubmitRuling, AfterAppealRuling;
    hide AfterCastVote, AfterFinalizeRound, AfterEnforceFinalRuling;
    match c {
      case CreateDispute(who, _) => CreateProgress(cfg, s, who, id);
      case SubmitRuling(_, ruling) => RulingProgress(cfg, s, id, ruling);
      case AppealRuling(who, _) => AppealProgress(cfg, s, who, id);
      case CastVote(who, _, vote) => VoteProgress(cfg, s, who, id, vote);
      case FinalizeRound(_, _) => FinalizeProgress(cfg, s, id);
      case EnforceFinalRuling(_, _) => EnforceProgress(cfg, s, id);
    }
  }

  lemma AppealProgress(cfg: Config, s: State, who: AccountId, id: ProjectId)
    requires AllCases(cfg, s) && IndexOk(cfg, s.rep)
    requires AfterAppealRuling(cfg, s, who, id).Ok?
    ensures PotentialOf(cfg, AfterAppealRuling(cfg, s, who, id).value, id) < PotentialOf(cfg, s, id)
  {
    var p, d, jury := AppealSucceeded(cfg, s, who, id);
    AppealRulingKeepsCases(cfg, s, who, id);
    hide AfterAppealRuling, CaseOk, Selection;
    OpenCase(cfg, AfterAppealRuling(cfg, s, who, id).value, id);
  }

  /** Calls on other projects, and calls of other kinds, leave the dispute alone. */
  lemma OtherCallsPreserve(cfg: Config, s: State, c: Call, id: ProjectId, created: nat)
    requires Inv(cfg, s, created) && WellFormed(cfg, c) && !IsDisputeCall(c, id)
    requires Apply(cfg, s, c).Ok?
    ensures Lookup(Apply(cfg, s, c).value.arb.disputes, id) == Lookup(s.arb.disputes, id)
  {
    hide Inv, AllCases, OnlyCase, AfterCreateDispute, AfterAppealRuling, AfterFinalizeRound, AfterEnforceFinalRuling;
    match c {
      case CreateDispute(who, i) => CreateDisputeCase(cfg, s, who, i); OtherDispute(cfg, s, c, i, id);
      case AppealRuling(who, i) =>
        var p, d, jury := AppealSucceeded(cfg, s, who, i);
        AppealOnly(cfg, s, Apply(cfg, s, c).value, who, i, p, d, jury);
        OtherDispute(cfg, s, c, i, id);
      case FinalizeRound(_, i) => FinalizeFacts(cfg, s, i);
      case EnforceFinalRuling(_, i) => EnforceCase(cfg, s, i); OtherDispute(cfg, s, c, i, id);
      case _ => DisputesUntouched(cfg, s, c, id);
    }
  }

  lemma DisputesUntouched(cfg: Config, s: State, c: Call, id: ProjectId)
    requires !IsDisputeCall(c, id)
    requires !c.CreateDispute? && !c.AppealRuling? && !c.FinalizeRound? && !c.EnforceFinalRuling?
    requires Apply(cfg, s, c).Ok?
    ensures Lookup(Apply(cfg, s, c).value.arb.disputes, id) == Lookup(s.arb.disputes, id)
  {
  }

  lemma OtherDispute(cfg: Config, s: State, c: Call, i: ProjectId, id: ProjectId)
    requires i != id && Apply(cfg, s, c).Ok? && OnlyCase(s, Apply(cfg, s, c).value, i)
    ensures Lookup(Apply(cfg, s, c).value.arb.disputes, id) == Lookup(s.arb.disputes, id)
  {
    assert CaseOf(Apply(cfg, s, c).value, id) == CaseOf(s, id);
  }

  /** How many calls on the dispute of one project succeeded during a run. */
  ghost function DisputeSteps(cfg: Config, s: State, calls: seq<Call>, id: ProjectId): nat {
    if calls == [] then 0
    else
      var init := calls[..|calls| - 1];
      var c := calls[|calls| - 1];
      DisputeSteps(cfg, s, init, id)
      + (if IsDisputeCall(c, id) && Apply(cfg, Run(cfg, s, init), c).Ok? then 1 else 0)
  }

  /** A run spends at most the potential it started with. */
  lemma {:induction false} DisputeTerminates(cfg: Config, s: State, calls: seq<Call>, id: ProjectId, created: nat)
    requires SafeRun(cfg, s, calls, created)
    ensures DisputeSteps(cfg, s, calls, id) + PotentialOf(cfg, Run(cfg, s, calls), id) <= PotentialOf(cfg, s, id)
  {
    if calls != [] {
      var init, c := calls[..|calls| - 1], calls[|calls| - 1];
      hide Apply, Inv, Potential;
      LastStep(cfg, s, calls, created);
      DisputeTerminates(cfg, s, init, id, created);
      var r, made := Run(cfg, s, init), ProjectsMade(cfg, s, init, created);
      if Apply(cfg, r, c).Ok? {
        if IsDisputeCall(c, id) {
          DisputeCallsProgress(cfg, r, c, id, made);
        } else {
          OtherCallsPreserve(cfg, r, c, id, made);
        }
      }
    }
  }

  lemma PotentialBounded(cfg: Config, s: State, id: ProjectId)
    requires AllCases(cfg, s)
    ensures PotentialOf(cfg, s, id) <= 7 + cfg.minJurors + cfg.maxJurors
  {
    hide AllCases;
    if id in s.arb.disputes && s.arb.disputes[id].status != Finalized {
      OpenCase(cfg, s, id);
    }
  }

  /** Seven calls and one vote per juror are all a project's dispute can ever see. */
  lemma DisputeCallsBounded(cfg: Config, s: State, calls: seq<Call>, id: ProjectId, created: nat)
    requires SafeRun(cfg, s, calls, created)
    ensures DisputeSteps(cfg, s, calls, id) <= 7 + cfg.minJurors + cfg.maxJurors
  {
    hide AllCases, IndexOk, ReservesExact, EscrowOk, PotentialOf;
    DisputeTerminates(cfg, s, calls, id, created);
    PotentialBounded(cfg, s, id);
  }
}
