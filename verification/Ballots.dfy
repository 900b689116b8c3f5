/**
  The votes of a jury: whoever votes first, the round ends in the same state.
*/
module Ballots {
  import opened Prelude
  import opened Types
  import opened Arbitration
  import opened DisputeProtocol
  import opened DisputeCalls

  datatype Ballot = Ballot(juror: AccountId, vote: Vote)

  /** Casts the ballots one call after another; the first failure ends the attempt. */
  function CastAll(s: State, id: ProjectId, ballots: seq<Ballot>): Result<State, Error> {
    if ballots == [] then Ok(s)
    else
      var n := |ballots| - 1;
      var t :- CastAll(s, id, ballots[..n]);
      AfterCastVote(t, ballots[n].juror, id, ballots[n].vote)
  }

  /** A juror with a seat who has not voted. */
  predicate MayVote(d: Dispute, juror: AccountId) {
    juror in Sitting(d.jurors) && juror !in Flagged(d.jurors)
  }

  function Jurors(ballots: seq<Ballot>): seq<AccountId> {
    seq(|ballots|, i requires 0 <= i < |ballots| => ballots[i].juror)
  }

  /** Everybody entitled, nobody twice. */
  ghost predicate Castable(d: Dispute, ballots: seq<Ballot>) {
    Distinct(Jurors(ballots)) && forall j :: j in Jurors(ballots) ==> MayVote(d, j)
  }

  /** The votes as a map. */
  function Tally(ballots: seq<Ballot>): map<AccountId, Vote> {
    if ballots == [] then map[]
    else Tally(ballots[..|ballots| - 1])[ballots[|ballots| - 1].juror := ballots[|ballots| - 1].vote]
  }

  /** The dispute with all these votes recorded at once. */
  function WithVotes(d: Dispute, votes: map<AccountId, Vote>): Dispute {
    d.(votes := d.votes + votes,
       jurors := seq(|d.jurors|, i requires 0 <= i < |d.jurors| =>
                       (d.jurors[i].0, d.jurors[i].1 || d.jurors[i].0 in votes)))
  }

  lemma SameSeats(d: Dispute, votes: map<AccountId, Vote>)
    requires DistinctSeats(d.jurors)
    ensures var e := WithVotes(d, votes);
      && DistinctSeats(e.jurors)
      && Sitting(e.jurors) == Sitting(d.jurors)
      && forall j :: MayVote(e, j) <==> MayVote(d, j) && j !in votes
  {
    var e := WithVotes(d, votes);
    assert forall i :: 0 <= i < |d.jurors| ==> e.jurors[i].0 == d.jurors[i].0;
    forall a ensures a in Sitting(e.jurors) <==> a in Sitting(d.jurors) {
      if a in Sitting(d.jurors) {
        var i :| 0 <= i < |d.jurors| && d.jurors[i].0 == a;
        assert e.jurors[i].0 == a;
      }
    }
    forall a | a in Sitting(d.jurors) ensures a in Flagged(e.jurors) <==> a in Flagged(d.jurors) || a in votes {
      var i :| 0 <= i < |d.jurors| && d.jurors[i].0 == a;
      SeatDecides(d.jurors, i);
      SeatDecides(e.jurors, i);
    }
  }

  lemma SeatDecides(seats: seq<(AccountId, bool)>, i: nat)
    requires DistinctSeats(seats) && i < |seats|
    ensures seats[i].0 in Flagged(seats) <==> seats[i].1
  {
    if seats[i].0 in Flagged(seats) {
      var k :| 0 <= k < |seats| && seats[k].1 && seats[k].0 == seats[i].0;
      assert k == i;
    }
  }

  /** What the scan for a juror's seat finds. */
  lemma SeatMeaning(seats: seq<(AccountId, bool)>, juror: AccountId)
    requires DistinctSeats(seats)
    ensures var i := SeatOf(seats, juror);
      && (i < |seats| <==> juror in Sitting(seats))
      && (i < |seats| ==> (juror in Flagged(seats) <==> seats[i].1))
  {
    var i := SeatOf(seats, juror);
    if i < |seats| {
      SeatDecides(seats, i);
    }
  }

  lemma OneSeat(d: Dispute, i: nat, vote: Vote)
    requires DistinctSeats(d.jurors) && i < |d.jurors|
    ensures Voted(d, i, vote) == WithVotes(d, map[d.jurors[i].0 := vote])
  {
    var votes := map[d.jurors[i].0 := vote];
    assert Voted(d, i, vote).jurors == WithVotes(d, votes).jurors;
    assert Voted(d, i, vote).votes == WithVotes(d, votes).votes;
  }

  /** One ballot: accepted exactly from a juror who may vote, and recorded on the right seat. */
  lemma OneBallot(s: State, id: ProjectId, juror: AccountId, vote: Vote)
    requires id in s.arb.disputes && s.arb.disputes[id].status == Voting && DistinctSeats(s.arb.disputes[id].jurors)
    ensures var d, r := s.arb.disputes[id], AfterCastVote(s, juror, id, vote);
      && (r.Ok? <==> MayVote(d, juror))
      && (r.Ok? ==> r.value == s.(arb := WithDispute(s.arb, id, WithVotes(d, map[juror := vote]))))
  {
    hide WithVotes, Sitting, Flagged;
    var d := s.arb.disputes[id];
    var i := SeatOf(d.jurors, juror);
    SeatMeaning(d.jurors, juror);
    if i < |d.jurors| {
      OneSeat(d, i, vote);
    }
  }

  lemma WithVotesTwice(d: Dispute, v: map<AccountId, Vote>, w: map<AccountId, Vote>)
    ensures WithVotes(WithVotes(d, v), w) == WithVotes(d, v + w)
  {
  }

  lemma JurorsSplit(ballots: seq<Ballot>)
    requires ballots != []
    ensures var n := |ballots| - 1; Jurors(ballots) == Jurors(ballots[..n]) + [ballots[n].juror]
  {
  }

  lemma {:induction false} TallyOf(ballots: seq<Ballot>)
    ensures forall j :: j in Tally(ballots) <==> j in Jurors(ballots)
  {
    if ballots != [] {
      TallyOf(ballots[..|ballots| - 1]);
      JurorsSplit(ballots);
    }
  }

  /** The state with these votes recorded in the dispute of project `id`. */
  function Recorded(s: State, id: ProjectId, votes: map<AccountId, Vote>): State
    requires id in s.arb.disputes
  {
    s.(arb := WithDispute(s.arb, id, WithVotes(s.arb.disputes[id], votes)))
  }

  lemma RecordedMore(s: State, id: ProjectId, votes: map<AccountId, Vote>, juror: AccountId, vote: Vote)
    requires id in s.arb.disputes && s.arb.disputes[id].status == Voting && DistinctSeats(s.arb.disputes[id].jurors)
    ensures var r := AfterCastVote(Recorded(s, id, votes), juror, id, vote);
      && (r.Ok? <==> MayVote(s.arb.disputes[id], juror) && juror !in votes)
      && (r.Ok? ==> r.value == Recorded(s, id, votes[juror := vote]))
  {
    hide AfterCastVote, MayVote, WithVotes;
    var d := s.arb.disputes[id];
    var t := Recorded(s, id, votes);
    SameSeats(d, votes);
    KeepsStatus(d, votes);
    OneBallot(t, id, juror, vote);
    WithVotesTwice(d, votes, map[juror := vote]);
    assert votes + map[juror := vote] == votes[juror := vote];
    assert s.arb.disputes[id := WithVotes(d, votes)][id := WithVotes(d, votes[juror := vote])]
        == s.arb.disputes[id := WithVotes(d, votes[juror := vote])];
  }

  lemma KeepsStatus(d: Dispute, votes: map<AccountId, Vote>)
    ensures WithVotes(d, votes).status == d.status
  {
  }

  /** Ballots cast one by one succeed exactly when castable, and record their tally. */
  lemma {:induction false} CastAllRecords(s: State, id: ProjectId, ballots: seq<Ballot>)
    requires id in s.arb.disputes && s.arb.disputes[id].status == Voting && DistinctSeats(s.arb.disputes[id].jurors)
    ensures CastAll(s, id, ballots).Ok? <==> Castable(s.arb.disputes[id], ballots)
    ensures CastAll(s, id, ballots).Ok? ==> CastAll(s, id, ballots).value == Recorded(s, id, Tally(ballots))
  {
    var d := s.arb.disputes[id];
    if ballots == [] {
      assert WithVotes(d, map[]) == d;
      assert s.arb.disputes[id := d] == s.arb.disputes;
    } else {
      hide AfterCastVote, Castable, MayVote, Recorded;
      var n := |ballots| - 1;
      CastAllRecords(s, id, ballots[..n]);
      CastableSplit(d, ballots);
      TallyOf(ballots[..n]);
      RecordedMore(s, id, Tally(ballots[..n]), ballots[n].juror, ballots[n].vote);
    }
  }

  lemma CastableSplit(d: Dispute, ballots: seq<Ballot>)
    requires ballots != []
    ensures var n := |ballots| - 1;
      Castable(d, ballots) <==>
        Castable(d, ballots[..n]) && MayVote(d, ballots[n].juror) && ballots[n].juror !in Jurors(ballots[..n])
  {
    var n := |ballots| - 1;
    JurorsSplit(ballots);
    var before, after := Jurors(ballots[..n]), Jurors(ballots);
    if Castable(d, ballots) {
      forall j | j in before ensures MayVote(d, j) && j != ballots[n].juror {
        var i :| 0 <= i < n && before[i] == j;
        assert after[i] == j && after[n] == ballots[n].juror;
      }
      forall i, k | 0 <= i < k < n ensures before[i] != before[k] {
        assert after[i] == before[i] && after[k] == before[k];
      }
      assert after[n] in after;
    }
  }

  // ---------- any order ----------

  lemma {:induction false} TallyValue(ballots: seq<Ballot>, i: nat)
    requires Distinct(Jurors(ballots)) && i < |ballots|
    ensures ballots[i].juror in Tally(ballots) && Tally(ballots)[ballots[i].juror] == ballots[i].vote
  {
    var n := |ballots| - 1;
    JurorsSplit(ballots);
    if i < n {
      var before := Jurors(ballots[..n]);
      assert Distinct(before) by {
        forall a, b | 0 <= a < b < n ensures before[a] != before[b] {
          assert Jurors(ballots)[a] == before[a] && Jurors(ballots)[b] == before[b];
        }
      }
      TallyValue(ballots[..n], i);
      assert Jurors(ballots)[i] != Jurors(ballots)[n];
    }
  }

  /** The two sequences hold the same ballots. */
  ghost predicate SameBallots(a: seq<Ballot>, b: seq<Ballot>) {
    multiset(a) == multiset(b)
  }

  lemma InBoth(a: seq<Ballot>, b: seq<Ballot>, i: nat) returns (k: nat)
    requires SameBallots(a, b) && i < |a|
    ensures k < |b| && b[k] == a[i]
  {
    assert a[i] in multiset(b);
    k :| 0 <= k < |b| && b[k] == a[i];
  }

  lemma DistinctBallots(ballots: seq<Ballot>)
    requires Distinct(Jurors(ballots))
    ensures Distinct(ballots)
  {
    forall i, k | 0 <= i < k < |ballots| ensures ballots[i] != ballots[k] {
      assert Jurors(ballots)[i] != Jurors(ballots)[k];
    }
  }

  lemma DistinctInBoth(a: seq<Ballot>, b: seq<Ballot>)
    requires SameBallots(a, b) && Distinct(Jurors(a))
    ensures Distinct(Jurors(b))
  {
    forall i, k | 0 <= i < k < |b| ensures Jurors(b)[i] != Jurors(b)[k] {
      var x := InBoth(b, a, i);
      var y := InBoth(b, a, k);
      if b[i] == b[k] {
        TwiceCounts(b, i, k);
        DistinctBallots(a);
        DistinctCounts(a, b[i]);
      } else {
        assert Jurors(a)[x] == b[i].juror && Jurors(a)[y] == b[k].juror;
      }
    }
  }

  lemma CastableInBoth(d: Dispute, a: seq<Ballot>, b: seq<Ballot>)
    requires SameBallots(a, b) && Castable(d, a)
    ensures Castable(d, b)
  {
    DistinctInBoth(a, b);
    forall j | j in Jurors(b) ensures MayVote(d, j) {
      var i :| 0 <= i < |b| && Jurors(b)[i] == j;
      var k := InBoth(b, a, i);
      assert Jurors(a)[k] == j;
    }
  }

  lemma TalliesAgree(a: seq<Ballot>, b: seq<Ballot>)
    requires SameBallots(a, b) && Distinct(Jurors(a))
    ensures Tally(a) == Tally(b)
  {
    DistinctInBoth(a, b);
    TallyOf(a);
    TallyOf(b);
    forall j | j in Tally(a) ensures j in Tally(b) && Tally(a)[j] == Tally(b)[j] {
      var i :| 0 <= i < |a| && Jurors(a)[i] == j;
      var k := InBoth(a, b, i);
      TallyValue(a, i);
      TallyValue(b, k);
    }
    forall j | j in Tally(b) ensures j in Tally(a) {
      var i :| 0 <= i < |b| && Jurors(b)[i] == j;
      var k := InBoth(b, a, i);
      assert Jurors(a)[k] == j;
    }
  }

  /**
    The same ballots in any order: they all go through or not, and if they do, they leave the
    same state behind, so the round has the same ruling and the same rewards.
  */
  lemma BallotOrderDoesNotMatter(s: State, id: ProjectId, a: seq<Ballot>, b: seq<Ballot>)
    requires id in s.arb.disputes && s.arb.disputes[id].status == Voting && DistinctSeats(s.arb.disputes[id].jurors)
    requires SameBallots(a, b) && CastAll(s, id, a).Ok?
    ensures CastAll(s, id, b) == CastAll(s, id, a)
  {
    hide CastAll;
    CastAllRecords(s, id, a);
    CastAllRecords(s, id, b);
    CastableInBoth(s.arb.disputes[id], a, b);
    TalliesAgree(a, b);
  }
}
