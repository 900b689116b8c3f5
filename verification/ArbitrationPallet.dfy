/**
  The arbitration pallet as it runs: disputes, bonds, fees and rewards updated in place, loop
  by loop. Every method leaves behind exactly the storage that `Arbitration` describes; the
  loops over hash maps do so whatever order the storage hands out the entries in.
*/
module ArbitrationPallet {
  import opened Prelude
  import opened Types
  import opened Currency
  import opened Reputation
  import opened Projects
  import opened Arbitration
  import opened Settlement
  import ProjectsPallet

  /** Finds a juror's seat, scanning the jury in order. */
  method FindSeat(jurors: seq<(AccountId, bool)>, juror: AccountId) returns (i: nat)
    ensures i == SeatOf(jurors, juror)
  {
    i := 0;
    while i < |jurors| && jurors[i].0 != juror
      invariant i <= |jurors|
      invariant SeatOf(jurors, juror) == i + SeatOf(jurors[i..], juror)
    {
      assert jurors[i..][1..] == jurors[i + 1..];
      i := i + 1;
    }
  }

  /** The voters among the first jurors of the order. */
  ghost function Counted(order: seq<AccountId>, votes: map<AccountId, Vote>, vote: Vote): set<AccountId> {
    set j | j in order && j in votes && votes[j] == vote
  }

  lemma OneMore(order: seq<AccountId>, i: nat)
    requires Distinct(order) && i < |order|
    ensures order[i] !in order[..i]
    ensures forall j :: j in order[..i + 1] <==> j in order[..i] || j == order[i]
  {
    assert order[..i + 1] == order[..i] + [order[i]];
  }

  lemma OneMoreCounted(order: seq<AccountId>, i: nat, votes: map<AccountId, Vote>, vote: Vote)
    requires Distinct(order) && i < |order| && order[i] in votes
    ensures |Counted(order[..i + 1], votes, vote)|
         == |Counted(order[..i], votes, vote)| + (if votes[order[i]] == vote then 1 else 0)
  {
    OneMore(order, i);
    var before, after := Counted(order[..i], votes, vote), Counted(order[..i + 1], votes, vote);
    if votes[order[i]] == vote {
      assert after == before + {order[i]};
    } else {
      assert after == before;
    }
  }

  /** Counts the votes one by one; a tie goes to the freelancer. */
  method DecideRound(votes: map<AccountId, Vote>) returns (ruling: Ruling)
    ensures ruling == RoundRuling(votes)
    ensures ruling == ClientWins <==> |Voters(votes, ForClient)| > |Voters(votes, ForFreelancer)|
  {
    var order := VoteOrder(votes);
    var clientVotes, freelancerVotes := 0, 0;
    for i := 0 to |order|
      invariant clientVotes == |Counted(order[..i], votes, ForClient)|
      invariant freelancerVotes == |Counted(order[..i], votes, ForFreelancer)|
    {
      OneMoreCounted(order, i, votes, ForClient);
      OneMoreCounted(order, i, votes, ForFreelancer);
      match votes[order[i]] {
        case ForClient => clientVotes := clientVotes + 1;
        case ForFreelancer => freelancerVotes := freelancerVotes + 1;
      }
    }
    assert order[..|order|] == order;
    assert Counted(order, votes, ForClient) == Voters(votes, ForClient);
    assert Counted(order, votes, ForFreelancer) == Voters(votes, ForFreelancer);
    ruling := if freelancerVotes >= clientVotes then FreelancerWins else ClientWins;
  }

  /** The votes of the jurors listed. */
  function Only(votes: map<AccountId, Vote>, jurors: seq<AccountId>): map<AccountId, Vote> {
    map j | j in votes && j in jurors :: votes[j]
  }

  lemma OneMoreRewarded(cfg: Config, rewards: map<AccountId, Balance>, fees: map<AccountId, JuryFee>,
                        votes: map<AccountId, Vote>, ruling: Ruling, order: seq<AccountId>, i: nat)
    requires Distinct(order) && i < |order| && order[i] in votes
    ensures var before := RewardsAfterRound(cfg, rewards, fees, Only(votes, order[..i]), ruling);
      && Get(before, order[i]) == Get(rewards, order[i])
      && RewardsAfterRound(cfg, rewards, fees, Only(votes, order[..i + 1]), ruling)
         == before[order[i] := Rewarded(cfg, Get(rewards, order[i]), FeeOf(fees, order[i]),
                                        Agrees(votes[order[i]], ruling))]
  {
    OneMore(order, i);
    hide Rewarded, Agrees, FeeOf;
    assert Only(votes, order[..i + 1]).Keys == Only(votes, order[..i]).Keys + {order[i]};
  }

  /** The base fee in any case, the bonus only with the majority. */
  method AwardJuror(cfg: Config, rewards: map<AccountId, Balance>, juror: AccountId, fee: JuryFee, agrees: bool)
    returns (after: map<AccountId, Balance>)
    ensures after == rewards[juror := Rewarded(cfg, Get(rewards, juror), fee, agrees)]
  {
    after := rewards[juror := SatAdd(Get(rewards, juror), fee.base, cfg.maxBalance)];
    if agrees {
      after := after[juror := SatAdd(Get(after, juror), fee.bonus, cfg.maxBalance)];
    }
  }

  /** Adds base fees and bonuses, voter by voter. */
  method AwardFees(cfg: Config, rewards: map<AccountId, Balance>, fees: map<AccountId, JuryFee>,
                   votes: map<AccountId, Vote>, ruling: Ruling) returns (after: map<AccountId, Balance>)
    ensures after == RewardsAfterRound(cfg, rewards, fees, votes, ruling)
  {
    var order := VoteOrder(votes);
    after := rewards;
    assert RewardsAfterRound(cfg, rewards, fees, Only(votes, []), ruling) == rewards;
    for i := 0 to |order|
      invariant after == RewardsAfterRound(cfg, rewards, fees, Only(votes, order[..i]), ruling)
    {
      hide RewardsAfterRound, Only, VoteOrder, Rewarded;
      OneMoreRewarded(cfg, rewards, fees, votes, ruling, order, i);
      var juror := order[i];
      after := AwardJuror(cfg, after, juror, FeeOf(fees, juror), Agrees(votes[juror], ruling));
    }
    assert order[..|order|] == order;
    assert forall j :: j in order <==> j in Elements(order);
    assert Only(votes, order) == votes;
  }

  /** The keys of the fees of all rounds before `n`. */
  ghost function Rounds(id: ProjectId, n: nat): set<(ProjectId, nat)> {
    set r: nat | 1 <= r < n :: (id, r)
  }

  class Pallet {
    const site: ProjectsPallet.Pallet

    var disputes: map<ProjectId, Dispute>
    var rewards: map<ProjectId, map<AccountId, Balance>>
    var costs: map<ProjectId, Balance>
    var bonds: map<ProjectId, map<nat, Bond>>
    var fees: map<(ProjectId, nat), map<AccountId, JuryFee>>

    function Store(): ArbStore
      reads this
    {
      ArbStore(disputes, rewards, costs, bonds, fees)
    }

    /** The whole chain state at block `now`. */
    function World(now: BlockNumber): State
      reads this, site, site.reputation, site.reputation.currency
    {
      State(now, site.reputation.currency.Store(), site.reputation.Store(), site.Store(), Store())
    }

    constructor (site: ProjectsPallet.Pallet, a: ArbStore)
      ensures this.site == site && Store() == a
    {
      this.site := site;
      disputes, rewards, costs, bonds, fees := a.disputes, a.rewards, a.costs, a.bonds, a.fees;
    }

    /** The storage layer's rollback. */
    method Restore(a: ArbStore)
      modifies this
      ensures Store() == a
    {
      disputes, rewards, costs, bonds, fees := a.disputes, a.rewards, a.costs, a.bonds, a.fees;
    }

    // ---------- dispatchables ----------

    method CreateDispute(now: BlockNumber, freelancer: AccountId, id: ProjectId) returns (r: Result<(), Error>)
      modifies this, site, site.reputation.currency
      ensures match AfterCreateDispute(site.reputation.cfg, old(World(now)), freelancer, id)
              case Ok(v) => r == Ok(()) && World(now) == v
              case Err(e) => r == Err(e)
    {
      hide AppealBond, ArbitrationCost, AfterReserve, ProjectBudget, ProjectParties;
      if id in disputes {
        return Err(DisputeAlreadyExists);
      }
      var parties := ProjectParties(site.Store(), id);
      if parties.Err? {
        return Err(parties.error);
      }
      if freelancer != parties.value.1 {
        return Err(NotAuthorized);
      }
      var budget := ProjectBudget(site.Store(), id);
      if budget.Err? {
        return Err(budget.error);
      }
      var bond := AppealBond(site.reputation.cfg, budget.value, 1);
      if bond.Err? {
        return Err(bond.error);
      }
      r := site.reputation.currency.Reserve(freelancer, bond.value);
      if r.Err? {
        return;
      }
      bonds := bonds[id := Prefix(bonds, id)[1 := Bond(freelancer, bond.value)]];
      var cost := ArbitrationCost(site.reputation.cfg, budget.value, 1);
      if cost.Err? {
        return Err(cost.error);
      }
      costs := costs[id := cost.value];
      var uris := EvidenceUris(site.Store(), id);
      if uris.Err? {
        return Err(uris.error);
      }
      disputes := disputes[id := Dispute(AiProcessing, uris.value.0, uris.value.1, now, None, 1, [], map[])];
      r := site.SetInDispute(id);
    }

    method SubmitRuling(now: BlockNumber, id: ProjectId, ruling: Ruling) returns (r: Result<(), Error>)
      modifies this
      ensures match AfterSubmitRuling(old(World(now)), id, ruling)
              case Ok(v) => r == Ok(()) && World(now) == v
              case Err(e) => r == Err(e)
    {
      if id !in disputes {
        return Err(DisputeNotFound);
      }
      var dispute := disputes[id];
      if dispute.status != AiProcessing {
        return Err(InvalidDisputeStatus);
      }
      dispute := dispute.(ruling := Some(ruling));
      dispute := dispute.(status := Appealable);
      dispute := dispute.(startBlock := now);
      disputes := disputes[id := dispute];
      return Ok(());
    }

    /** Seats the selected jurors, none of whom has voted. */
    method SeatJury(jury: seq<AccountId>) returns (seats: seq<(AccountId, bool)>)
      ensures seats == Seated(jury)
    {
      seats := [];
      for i := 0 to |jury|
        invariant seats == Seated(jury[..i])
      {
        seats := seats + [(jury[i], false)];
      }
      assert jury[..|jury|] == jury;
    }

    /** Records what each juror of the round can earn. */
    method OweFees(id: ProjectId, round: nat, jury: seq<AccountId>, fee: JuryFee)
      modifies this`fees
      ensures fees == old(fees)[(id, round) := Prefix(old(fees), (id, round)) + (map j | j in Elements(jury) :: fee)]
    {
      var owed := Prefix(fees, (id, round));
      for i := 0 to |jury|
        invariant owed == Prefix(fees, (id, round)) + (map j | j in Elements(jury[..i]) :: fee)
      {
        owed := owed[jury[i] := fee];
        assert Elements(jury[..i + 1]) == Elements(jury[..i]) + {jury[i]};
      }
      assert jury[..|jury|] == jury;
      fees := fees[(id, round) := owed];
    }

    method AppealRuling(now: BlockNumber, appellant: AccountId, id: ProjectId) returns (r: Result<(), Error>)
      modifies this, site.reputation, site.reputation.currency
      ensures match AfterAppealRuling(site.reputation.cfg, old(World(now)), appellant, id)
              case Ok(v) => r == Ok(()) && World(now) == v
              case Err(e) => r == Err(e)
    {
      hide AppealBond, ArbitrationCost, JuryFees, AfterReserve, Selection, Seated, ProjectBudget, ProjectParties;
      hide Elements, Prefix, Get;
      if id !in disputes {
        return Err(DisputeNotFound);
      }
      var dispute := disputes[id];
      if dispute.status != Appealable {
        return Err(InvalidDisputeStatus);
      }
      if now >= SatAdd(dispute.startBlock, site.reputation.cfg.appealPeriod, site.reputation.cfg.maxBlock) {
        return Err(AppealPeriodExpired);
      }
      var parties := ProjectParties(site.Store(), id);
      if parties.Err? {
        return Err(parties.error);
      }
      if dispute.ruling.None? {
        return Err(InvalidDisputeStatus);
      }
      if appellant != LosingParty(dispute.ruling.value, parties.value.0, parties.value.1) {
        return Err(NotLosingParty);
      }
      var round := SatAdd(dispute.round, 1, U32_MAX);
      if round > 3 {
        return Err(MaxAppealsReached);
      }
      var budget := ProjectBudget(site.Store(), id);
      if budget.Err? {
        return Err(budget.error);
      }
      var bond := AppealBond(site.reputation.cfg, budget.value, round);
      if bond.Err? {
        return Err(bond.error);
      }
      r := site.reputation.currency.Reserve(appellant, bond.value);
      if r.Err? {
        return;
      }
      bonds := bonds[id := Prefix(bonds, id)[round := Bond(appellant, bond.value)]];
      var cost := ArbitrationCost(site.reputation.cfg, budget.value, round);
      if cost.Err? {
        return Err(cost.error);
      }
      costs := costs[id := SatAdd(Get(costs, id), cost.value, site.reputation.cfg.maxBalance)];
      if round < 2 {
        return Err(InvalidRound);
      }
      var size := JurySize(site.reputation.cfg, round);
      var jury := site.reputation.GetEligibleJurors(RequiredTier(round), [parties.value.0, parties.value.1], size);
      var seats := SeatJury(jury);
      if |seats| < size {
        return Err(NotEnoughJurors);
      }
      var fee := JuryFees(site.reputation.cfg, budget.value, round);
      if fee.Err? {
        return Err(fee.error);
      }
      OweFees(id, round, jury, fee.value);
      dispute := dispute.(round := round);
      dispute := dispute.(status := Voting);
      dispute := dispute.(jurors := seats);
      dispute := dispute.(votes := map[]);
      dispute := dispute.(ruling := None);
      dispute := dispute.(startBlock := now);
      disputes := disputes[id := dispute];
      return Ok(());
    }

    method CastVote(now: BlockNumber, juror: AccountId, id: ProjectId, vote: Vote) returns (r: Result<(), Error>)
      modifies this
      ensures match AfterCastVote(old(World(now)), juror, id, vote)
              case Ok(v) => r == Ok(()) && World(now) == v
              case Err(e) => r == Err(e)
    {
      if id !in disputes {
        return Err(DisputeNotFound);
      }
      var dispute := disputes[id];
      if dispute.status != Voting {
        return Err(InvalidDisputeStatus);
      }
      var seat := FindSeat(dispute.jurors, juror);
      if seat == |dispute.jurors| {
        return Err(NotJuror);
      }
      if dispute.jurors[seat].1 {
        return Err(AlreadyVoted);
      }
      dispute := dispute.(votes := dispute.votes[juror := vote]);
      dispute := dispute.(jurors := dispute.jurors[seat := (juror, true)]);
      disputes := disputes[id := dispute];
      return Ok(());
    }

    /** Tells the reputation pallet about every vote; what it answers is ignored. */
    method RecordVotes(now: BlockNumber, votes: map<AccountId, Vote>, ruling: Ruling)
      modifies site.reputation, site.reputation.currency
      ensures site.reputation.World()
           == AfterJuryVotes(site.reputation.cfg, now, old(site.reputation.World()), VoteOrder(votes), votes, ruling)
    {
      hide AfterJuryVote, VoteOrder, Agrees;
      var order := VoteOrder(votes);
      for i := 0 to |order|
        invariant site.reputation.World()
               == AfterJuryVotes(site.reputation.cfg, now, old(site.reputation.World()), order[..i], votes, ruling)
      {
        assert order[..i + 1][..i] == order[..i];
        var ignored := site.reputation.JuryVote(now, order[i], Agrees(votes[order[i]], ruling));
      }
      assert order[..|order|] == order;
    }

    method FinalizeRound(now: BlockNumber, id: ProjectId) returns (r: Result<(), Error>)
      modifies this, site.reputation, site.reputation.currency
      ensures match AfterFinalizeRound(site.reputation.cfg, old(World(now)), id)
              case Ok(v) => r == Ok(()) && World(now) == v
              case Err(e) => r == Err(e)
    {
      hide AfterJuryVotes, VoteOrder, RewardsAfterRound, RoundRuling;
      if id !in disputes {
        return Err(DisputeNotFound);
      }
      var dispute := disputes[id];
      if dispute.status != Voting {
        return Err(InvalidDisputeStatus);
      }
      if now < SatAdd(dispute.startBlock, site.reputation.cfg.votingPeriod, site.reputation.cfg.maxBlock) {
        return Err(VotingPeriodNotOver);
      }
      var ruling := DecideRound(dispute.votes);
      var earned := AwardFees(site.reputation.cfg, Prefix(rewards, id), Prefix(fees, (id, dispute.round)),
                              dispute.votes, ruling);
      rewards := rewards[id := earned];
      RecordVotes(now, dispute.votes, ruling);
      dispute := dispute.(ruling := Some(ruling));
      dispute := dispute.(status := Appealable);
      dispute := dispute.(startBlock := now);
      disputes := disputes[id := dispute];
      return Ok(());
    }

    // ---------- settlement ----------

    /** Returns the winner's bonds and slashes the others, in whatever order they come. */
    method SettleBonds(id: ProjectId, winner: AccountId) returns (slashed: Balance)
      modifies site.reputation.currency
      ensures Purse(site.reputation.currency.Store(), slashed)
           == AfterBonds(site.reputation.cfg, old(site.reputation.currency.Store()), Prefix(bonds, id), winner)
    {
      var posted := Prefix(bonds, id);
      var left := posted.Keys;
      slashed := 0;
      while left != {}
        invariant left <= posted.Keys
        invariant FoldSet(BondStep(site.reputation.cfg, posted, winner),
                          Purse(site.reputation.currency.Store(), slashed), left)
               == AfterBonds(site.reputation.cfg, old(site.reputation.currency.Store()), posted, winner)
        decreases |left|
      {
        hide FoldSet, BondStep, AfterBonds;
        var round :| round in left;
        AnyBondFirst(site.reputation.cfg, posted, winner, Purse(site.reputation.currency.Store(), slashed), left,
                     round);
        var bond := posted[round];
        if bond.owner == winner {
          var shortfall := site.reputation.currency.Unreserve(bond.owner, bond.amount);
        } else {
          var imbalance := site.reputation.currency.SlashReserved(bond.owner, bond.amount);
          slashed := SatAdd(slashed, imbalance, site.reputation.cfg.maxBalance);
          site.reputation.currency.DepositCreating(site.reputation.cfg.arbitrator, imbalance);
          site.reputation.currency.DropImbalance(imbalance);
        }
        left := left - {round};
      }
    }

    /** Asks the loser for what the slashed bonds leave of the costs; a refusal changes nothing. */
    method CollectCosts(id: ProjectId, loser: AccountId, slashed: Balance)
      modifies site.reputation.currency
      ensures site.reputation.currency.Store()
           == AfterCosts(site.reputation.cfg, Purse(old(site.reputation.currency.Store()), slashed), loser,
                         Get(costs, id))
    {
      var total := Get(costs, id);
      if total > slashed {
        var ignored := site.reputation.currency.Transfer(loser, site.reputation.cfg.arbitrator, SatSub(total, slashed));
      }
    }

    /** Pays the jurors, in whatever order they come; the first failure stops the settlement. */
    method PayAllJuryRewards(id: ProjectId) returns (r: Result<(), Error>)
      modifies site.reputation.currency
      ensures match AfterRewards(site.reputation.cfg, old(site.reputation.currency.Store()), Prefix(rewards, id))
              case Ok(l) => r == Ok(()) && site.reputation.currency.Store() == l
              case Err(e) => r == Err(e)
    {
      var owed := Prefix(rewards, id);
      var left := owed.Keys;
      while left != {}
        invariant left <= owed.Keys
        invariant FoldSet(RewardStep(site.reputation.cfg, owed), Ok(site.reputation.currency.Store()), left)
               == AfterRewards(site.reputation.cfg, old(site.reputation.currency.Store()), owed)
        decreases |left|
      {
        hide FoldSet, RewardStep, AfterRewards;
        var juror :| juror in left;
        AnyRewardFirst(site.reputation.cfg, owed, Ok(site.reputation.currency.Store()), left, juror);
        left := left - {juror};
        if owed[juror] != 0 {
          r := site.reputation.currency.Transfer(site.reputation.cfg.arbitrator, juror, owed[juror]);
          if r.Err? {
            RewardErrorStays(site.reputation.cfg, owed, PaymentFailed, left);
            return Err(PaymentFailed);
          }
        }
      }
      return Ok(());
    }

    /** Removes every financial record of the project, the fees round by round. */
    method CleanUp(id: ProjectId)
      modifies this
      ensures Store() == Cleaned(old(Store()), id)
    {
      costs := costs - {id};
      bonds := bonds - {id};
      for round := 1 to 4
        invariant Store() == old(Store()).(costs := old(costs) - {id}, bonds := old(bonds) - {id}, fees := fees)
        invariant fees == old(fees) - Rounds(id, round)
      {
        assert Rounds(id, round + 1) == Rounds(id, round) + {(id, round)};
        fees := fees - {(id, round)};
      }
      assert Rounds(id, 4) == {(id, 1), (id, 2), (id, 3)};
      rewards := rewards - {id};
    }

    method CompletePayouts(id: ProjectId, winner: AccountId, loser: AccountId) returns (r: Result<(), Error>)
      modifies this, site.reputation.currency
      ensures match AfterPayouts(site.reputation.cfg, old(site.reputation.currency.Store()), old(Store()), id,
                                 winner, loser)
              case Ok(l) => r == Ok(()) && site.reputation.currency.Store() == l && Store() == Cleaned(old(Store()), id)
              case Err(e) => r == Err(e)
    {
      hide AfterBonds, AfterCosts, AfterRewards;
      var slashed := SettleBonds(id, winner);
      CollectCosts(id, loser, slashed);
      r := PayAllJuryRewards(id);
      if r.Err? {
        return;
      }
      CleanUp(id);
    }

    method EnforceFinalRuling(now: BlockNumber, id: ProjectId) returns (r: Result<(), Error>)
      modifies this, site, site.reputation, site.reputation.currency
      ensures match AfterEnforceFinalRuling(site.reputation.cfg, old(World(now)), id)
              case Ok(v) => r == Ok(()) && World(now) == v
              case Err(e) => r == Err(e)
    {
      hide AfterOnRuling, AfterPayouts, AfterDisputeOutcome;
      if id !in disputes {
        return Err(DisputeNotFound);
      }
      var dispute := disputes[id];
      if dispute.status != Appealable {
        return Err(InvalidDisputeStatus);
      }
      if now < SatAdd(dispute.startBlock, site.reputation.cfg.appealPeriod, site.reputation.cfg.maxBlock) {
        return Err(AppealPeriodExpired);
      }
      var parties := ProjectParties(site.Store(), id);
      if parties.Err? {
        return Err(parties.error);
      }
      if dispute.ruling.None? {
        return Err(InvalidDisputeStatus);
      }
      var ruling := dispute.ruling.value;
      var winner := WinningParty(ruling, parties.value.0, parties.value.1);
      var loser := LosingParty(ruling, parties.value.0, parties.value.1);
      r := site.OnRuling(now, id, ruling);
      if r.Err? {
        return;
      }
      r := CompletePayouts(id, winner, loser);
      if r.Err? {
        return;
      }
      r := site.reputation.DisputeOutcome(now, winner, loser);
      if r.Err? {
        return;
      }
      disputes := disputes[id := dispute.(status := Finalized)];
    }
  }
}
