/**
  Votes among other calls: nothing that happens elsewhere on the chain sees a vote or changes
  its effect, so the votes of a round may be interleaved with a run in any way.
*/
module BallotRuns {
  import opened Prelude
  import opened Types
  import opened Currency
  import opened Reputation
  import opened Projects
  import opened Arbitration
  import opened DisputeProtocol
  import opened System
  import opened Termination
  import opened Ballots

  /** The state with another record of the dispute of project `id`. */
  function Patched(s: State, id: ProjectId, d: Dispute): State {
    s.(arb := WithDispute(s.arb, id, d))
  }

  /** The result of a call, with that record put in afterwards. */
  function PatchedResult(r: Result<State, Error>, id: ProjectId, d: Dispute): Result<State, Error> {
    match r
    case Ok(t) => Ok(Patched(t, id, d))
    case Err(e) => Err(e)
  }

  /** A call that leaves the record of the dispute alone. */
  predicate Spared(s: State, r: Result<State, Error>, id: ProjectId)
    requires id in s.arb.disputes
  {
    r.Ok? ==> Lookup(r.value.arb.disputes, id) == Some(s.arb.disputes[id])
  }

  // ---------- calls elsewhere ignore the dispute ----------

  lemma OtherPalletsIgnore(cfg: Config, s: State, c: Call, id: ProjectId, d: Dispute)
    requires !IsArbitrationCall(c)
    ensures Apply(cfg, Patched(s, id, d), c) == PatchedResult(Apply(cfg, s, c), id, d)
    ensures Apply(cfg, s, c).Ok? ==> Apply(cfg, s, c).value.arb == s.arb
  {
    hide AfterRegisterUser, AfterRegisterAsJuror, AfterDeregisterAsJuror, AfterSlashJuror, AfterTransfer;
    hide AfterCreateProject, AfterApplyForProject, AfterStartWork, AfterSubmitWork, AfterAcceptWork, AfterRejectWork;
    hide AfterCancelProject;
  }

  /** Two records of different disputes may be written in either order. */
  lemma RecordsCommute(arb: ArbStore, i: ProjectId, x: Dispute, id: ProjectId, d: Dispute)
    requires i != id
    ensures WithDispute(WithDispute(arb, id, d), i, x) == WithDispute(WithDispute(arb, i, x), id, d)
  {
    assert arb.disputes[id := d][i := x] == arb.disputes[i := x][id := d];
  }

  lemma CreateIgnores(cfg: Config, s: State, who: AccountId, i: ProjectId, id: ProjectId, d: Dispute)
    requires i != id && id in s.arb.disputes
    ensures AfterCreateDispute(cfg, Patched(s, id, d), who, i)
         == PatchedResult(AfterCreateDispute(cfg, s, who, i), id, d)
    ensures Spared(s, AfterCreateDispute(cfg, s, who, i), id)
  {
    hide AppealBond, ArbitrationCost, AfterReserve, AfterSetInDispute, EvidenceUris, ProjectParties, ProjectBudget;
    var r := AfterCreateDispute(cfg, s, who, i);
    if r.Ok? {
      RecordsCommute(s.arb, i, r.value.arb.disputes[i], id, d);
    }
  }

  lemma SubmitIgnores(cfg: Config, s: State, i: ProjectId, ruling: Ruling, id: ProjectId, d: Dispute)
    requires i != id && id in s.arb.disputes
    ensures AfterSubmitRuling(Patched(s, id, d), i, ruling) == PatchedResult(AfterSubmitRuling(s, i, ruling), id, d)
    ensures Spared(s, AfterSubmitRuling(s, i, ruling), id)
  {
    var r := AfterSubmitRuling(s, i, ruling);
    if r.Ok? {
      RecordsCommute(s.arb, i, r.value.arb.disputes[i], id, d);
    }
  }

  lemma AppealIgnores(cfg: Config, s: State, who: AccountId, i: ProjectId, id: ProjectId, d: Dispute)
    requires i != id && id in s.arb.disputes
    ensures AfterAppealRuling(cfg, Patched(s, id, d), who, i) == PatchedResult(AfterAppealRuling(cfg, s, who, i), id, d)
    ensures Spared(s, AfterAppealRuling(cfg, s, who, i), id)
  {
    hide AppealBond, ArbitrationCost, JuryFees, AfterReserve, Selection, Seated, ProjectParties, ProjectBudget;
    hide LosingParty;
    var r := AfterAppealRuling(cfg, s, who, i);
    if r.Ok? {
      RecordsCommute(s.arb, i, r.value.arb.disputes[i], id, d);
    }
  }

  lemma VoteIgnores(cfg: Config, s: State, who: AccountId, i: ProjectId, vote: Vote, id: ProjectId, d: Dispute)
    requires i != id && id in s.arb.disputes
    ensures AfterCastVote(Patched(s, id, d), who, i, vote) == PatchedResult(AfterCastVote(s, who, i, vote), id, d)
    ensures Spared(s, AfterCastVote(s, who, i, vote), id)
  {
    var r := AfterCastVote(s, who, i, vote);
    if r.Ok? {
      RecordsCommute(s.arb, i, r.value.arb.disputes[i], id, d);
    }
  }

  lemma FinalizeIgnores(cfg: Config, s: State, i: ProjectId, id: ProjectId, d: Dispute)
    requires i != id && id in s.arb.disputes
    ensures AfterFinalizeRound(cfg, Patched(s, id, d), i) == PatchedResult(AfterFinalizeRound(cfg, s, i), id, d)
    ensures Spared(s, AfterFinalizeRound(cfg, s, i), id)
  {
    hide AfterJuryVotes, VoteOrder, RewardsAfterRound, RoundRuling;
    var r := AfterFinalizeRound(cfg, s, i);
    if r.Ok? {
      RecordsCommute(s.arb, i, r.value.arb.disputes[i], id, d);
    }
  }

  lemma PayoutsIgnore(cfg: Config, l: Ledger, arb: ArbStore, i: ProjectId, winner: AccountId, loser: AccountId,
                      id: ProjectId, d: Dispute)
    ensures AfterPayouts(cfg, l, WithDispute(arb, id, d), i, winner, loser)
         == AfterPayouts(cfg, l, arb, i, winner, loser)
  {
    hide AfterBonds, AfterCosts, AfterRewards;
  }

  lemma EnforceIgnores(cfg: Config, s: State, i: ProjectId, id: ProjectId, d: Dispute)
    requires i != id && id in s.arb.disputes
    ensures AfterEnforceFinalRuling(cfg, Patched(s, id, d), i)
         == PatchedResult(AfterEnforceFinalRuling(cfg, s, i), id, d)
    ensures Spared(s, AfterEnforceFinalRuling(cfg, s, i), id)
  {
    hide AfterOnRuling, AfterPayouts, AfterDisputeOutcome, ProjectParties;
    forall l: Ledger, winner: AccountId, loser: AccountId
      ensures AfterPayouts(cfg, l, WithDispute(s.arb, id, d), i, winner, loser)
           == AfterPayouts(cfg, l, s.arb, i, winner, loser)
    {
      PayoutsIgnore(cfg, l, s.arb, i, winner, loser, id, d);
    }
    var r := AfterEnforceFinalRuling(cfg, s, i);
    if r.Ok? {
      RecordsCommute(Cleaned(s.arb, i), i, r.value.arb.disputes[i], id, d);
    }
  }

  lemma ArbitrationIgnores(cfg: Config, s: State, c: Call, id: ProjectId, d: Dispute)
    requires id in s.arb.disputes && !IsDisputeCall(c, id) && IsArbitrationCall(c)
    ensures Apply(cfg, Patched(s, id, d), c) == PatchedResult(Apply(cfg, s, c), id, d)
    ensures Spared(s, Apply(cfg, s, c), id)
  {
    hide AfterCreateDispute, AfterSubmitRuling, AfterAppealRuling, AfterCastVote, AfterFinalizeRound;
    hide AfterEnforceFinalRuling;
    hide Patched, PatchedResult, Spared;
    match c {
      case CreateDispute(who, i) => CreateIgnores(cfg, s, who, i, id, d);
      case SubmitRuling(i, ruling) => SubmitIgnores(cfg, s, i, ruling, id, d);
      case AppealRuling(who, i) => AppealIgnores(cfg, s, who, i, id, d);
      case CastVote(who, i, vote) => VoteIgnores(cfg, s, who, i, vote, id, d);
      case FinalizeRound(_, i) => FinalizeIgnores(cfg, s, i, id, d);
      case EnforceFinalRuling(_, i) => EnforceIgnores(cfg, s, i, id, d);
    }
  }

  /** A call that is not about the dispute does the same whatever its record says, and leaves the record alone. */
  lemma CallsIgnore(cfg: Config, s: State, c: Call, id: ProjectId, d: Dispute)
    requires id in s.arb.disputes && !IsDisputeCall(c, id)
    ensures Apply(cfg, Patched(s, id, d), c) == PatchedResult(Apply(cfg, s, c), id, d)
    ensures Spared(s, Apply(cfg, s, c), id)
  {
    hide Apply, Patched, PatchedResult;
    if IsArbitrationCall(c) {
      ArbitrationIgnores(cfg, s, c, id, d);
    } else {
      OtherPalletsIgnore(cfg, s, c, id, d);
    }
  }

  // ---------- one vote and another call ----------

  /** The record after a ballot, whether it is accepted or refused. */
  function AfterBallot(d: Dispute, b: Ballot): Dispute {
    var seat := SeatOf(d.jurors, b.juror);
    if d.status == Voting && seat < |d.jurors| && !d.jurors[seat].1
    then d.(votes := d.votes[b.juror := b.vote], jurors := d.jurors[seat := (b.juror, true)])
    else d
  }

  lemma VoteStep(cfg: Config, s: State, id: ProjectId, b: Ballot)
    requires id in s.arb.disputes
    ensures Step(cfg, s, CastVote(b.juror, id, b.vote)) == Patched(s, id, AfterBallot(s.arb.disputes[id], b))
  {
    assert s.arb.disputes[id := s.arb.disputes[id]] == s.arb.disputes;
  }

  /** A vote and a call that is not about its dispute commute, whether they succeed or fail. */
  lemma VoteCommutes(cfg: Config, s: State, c: Call, id: ProjectId, b: Ballot)
    requires id in s.arb.disputes && !IsDisputeCall(c, id)
    ensures var v := CastVote(b.juror, id, b.vote);
      Step(cfg, Step(cfg, s, v), c) == Step(cfg, Step(cfg, s, c), v)
    ensures Lookup(Step(cfg, s, c).arb.disputes, id) == Some(s.arb.disputes[id])
  {
    var d := AfterBallot(s.arb.disputes[id], b);
    VoteStep(cfg, s, id, b);
    CallsIgnore(cfg, s, c, id, d);
    StepIgnores(cfg, s, c, id, d);
    hide Apply, Step, AfterBallot, Patched;
    VoteStep(cfg, Step(cfg, s, c), id, b);
  }

  lemma StepIgnores(cfg: Config, s: State, c: Call, id: ProjectId, d: Dispute)
    requires id in s.arb.disputes && !IsDisputeCall(c, id)
    ensures Step(cfg, Patched(s, id, d), c) == Patched(Step(cfg, s, c), id, d)
    ensures Lookup(Step(cfg, s, c).arb.disputes, id) == Some(s.arb.disputes[id])
  {
    CallsIgnore(cfg, s, c, id, d);
    hide Apply;
  }

  // ---------- runs ----------

  /** The only calls on the dispute are votes. */
  ghost predicate OnlyVotesOn(calls: seq<Call>, id: ProjectId) {
    forall i :: 0 <= i < |calls| && IsDisputeCall(calls[i], id) ==> calls[i].CastVote?
  }

  ghost predicate IsVoteOn(c: Call, id: ProjectId) {
    c.CastVote? && c.id == id
  }

  /** The ballots of a run, in order. */
  ghost function BallotsIn(calls: seq<Call>, id: ProjectId): seq<Ballot> {
    if calls == [] then []
    else
      var n := |calls| - 1;
      BallotsIn(calls[..n], id) + (if IsVoteOn(calls[n], id) then [Ballot(calls[n].who, calls[n].vote)] else [])
  }

  /** The run without its votes. */
  ghost function OthersIn(calls: seq<Call>, id: ProjectId): seq<Call> {
    if calls == [] then []
    else
      var n := |calls| - 1;
      OthersIn(calls[..n], id) + (if IsVoteOn(calls[n], id) then [] else [calls[n]])
  }

  /** Casts every ballot; a refused one changes nothing. */
  ghost function CastEach(cfg: Config, s: State, id: ProjectId, ballots: seq<Ballot>): State {
    if ballots == [] then s
    else
      var n := |ballots| - 1;
      Step(cfg, CastEach(cfg, s, id, ballots[..n]), CastVote(ballots[n].juror, id, ballots[n].vote))
  }

  lemma {:induction false} DisputeStays(cfg: Config, s: State, id: ProjectId, ballots: seq<Ballot>)
    requires id in s.arb.disputes
    ensures id in CastEach(cfg, s, id, ballots).arb.disputes
  {
    if ballots != [] {
      hide Step;
      var n := |ballots| - 1;
      DisputeStays(cfg, s, id, ballots[..n]);
      VoteStep(cfg, CastEach(cfg, s, id, ballots[..n]), id, ballots[n]);
    }
  }

  /** A call elsewhere may come before or after any number of votes. */
  lemma {:induction false} BallotsCommute(cfg: Config, s: State, c: Call, id: ProjectId, ballots: seq<Ballot>)
    requires id in s.arb.disputes && !IsDisputeCall(c, id)
    ensures Step(cfg, CastEach(cfg, s, id, ballots), c) == CastEach(cfg, Step(cfg, s, c), id, ballots)
  {
    if ballots != [] {
      hide Step;
      var n := |ballots| - 1;
      BallotsCommute(cfg, s, c, id, ballots[..n]);
      DisputeStays(cfg, s, id, ballots[..n]);
      VoteCommutes(cfg, CastEach(cfg, s, id, ballots[..n]), c, id, ballots[n]);
    }
  }

  lemma {:induction false} OthersSpare(cfg: Config, s: State, calls: seq<Call>, id: ProjectId)
    requires id in s.arb.disputes && OnlyVotesOn(calls, id)
    ensures Lookup(Run(cfg, s, OthersIn(calls, id)).arb.disputes, id) == Some(s.arb.disputes[id])
  {
    if calls != [] {
      hide Step;
      var n := |calls| - 1;
      OthersSpare(cfg, s, calls[..n], id);
      if !IsVoteOn(calls[n], id) {
        assert !IsDisputeCall(calls[n], id);
        var others := OthersIn(calls[..n], id);
        assert (others + [calls[n]])[..|others|] == others;
        StepIgnores(cfg, Run(cfg, s, others), calls[n], id, s.arb.disputes[id]);
        assert Run(cfg, s, others + [calls[n]]) == Step(cfg, Run(cfg, s, others), calls[n]);
      } else {
        assert OthersIn(calls[..n], id) + [] == OthersIn(calls[..n], id);
      }
    }
  }

  /** All the votes of a run may be cast at its end. */
  lemma {:induction false} VotesLast(cfg: Config, s: State, calls: seq<Call>, id: ProjectId)
    requires id in s.arb.disputes && OnlyVotesOn(calls, id)
    ensures Run(cfg, s, calls) == CastEach(cfg, Run(cfg, s, OthersIn(calls, id)), id, BallotsIn(calls, id))
  {
    if calls != [] {
      hide Step;
      var n := |calls| - 1;
      var others, ballots := OthersIn(calls[..n], id), BallotsIn(calls[..n], id);
      VotesLast(cfg, s, calls[..n], id);
      OthersSpare(cfg, s, calls[..n], id);
      if IsVoteOn(calls[n], id) {
        var b := Ballot(calls[n].who, calls[n].vote);
        assert (ballots + [b])[..|ballots|] == ballots;
        assert calls[n] == CastVote(b.juror, id, b.vote);
        assert others + [] == others;
      } else {
        assert !IsDisputeCall(calls[n], id);
        assert (others + [calls[n]])[..|others|] == others;
        assert ballots + [] == ballots;
        BallotsCommute(cfg, Run(cfg, s, others), calls[n], id, ballots);
      }
    }
  }

  lemma {:induction false} CastEachIsCastAll(cfg: Config, s: State, id: ProjectId, ballots: seq<Ballot>)
    requires CastAll(s, id, ballots).Ok?
    ensures CastEach(cfg, s, id, ballots) == CastAll(s, id, ballots).value
  {
    if ballots != [] {
      hide AfterCastVote;
      CastEachIsCastAll(cfg, s, id, ballots[..|ballots| - 1]);
    }
  }

  /**
    Two runs of the same other calls with the same ballots, interleaved in any way, end in the
    same state, provided the ballots are all valid.
  */
  lemma InterleavingDoesNotMatter(cfg: Config, s: State, a: seq<Call>, b: seq<Call>, id: ProjectId)
    requires id in s.arb.disputes && s.arb.disputes[id].status == Voting && DistinctSeats(s.arb.disputes[id].jurors)
    requires OnlyVotesOn(a, id) && OnlyVotesOn(b, id) && OthersIn(a, id) == OthersIn(b, id)
    requires SameBallots(BallotsIn(a, id), BallotsIn(b, id)) && Castable(s.arb.disputes[id], BallotsIn(a, id))
    ensures Run(cfg, s, a) == Run(cfg, s, b)
  {
    hide CastAll, CastEach, Castable;
    VotesLast(cfg, s, a, id);
    VotesLast(cfg, s, b, id);
    OthersSpare(cfg, s, a, id);
    var r := Run(cfg, s, OthersIn(a, id));
    CastAllRecords(r, id, BallotsIn(a, id));
    BallotOrderDoesNotMatter(r, id, BallotsIn(a, id), BallotsIn(b, id));
    CastEachIsCastAll(cfg, r, id, BallotsIn(a, id));
    CastEachIsCastAll(cfg, r, id, BallotsIn(b, id));
  }
}
