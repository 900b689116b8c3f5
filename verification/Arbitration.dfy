/**
  The arbitration pallet: disputes in up to three rounds, appeal bonds, juries, votes, and the
  settlement that follows the ruling that stands.
*/
module Arbitration {
  import opened Prelude
  import opened Types
  import opened Currency
  import opened Reputation
  import opened Projects

  datatype DisputeStatus = AiProcessing | Appealable | Voting | Finalized

  datatype Vote = ForClient | ForFreelancer

  datatype Dispute = Dispute(
    status: DisputeStatus,
    requirementsUri: Uri,
    submissionUri: Uri,
    startBlock: BlockNumber,
    ruling: Option<Ruling>,
    round: nat,
    jurors: seq<(AccountId, bool)>,
    votes: map<AccountId, Vote>)

  datatype Bond = Bond(owner: AccountId, amount: Balance)

  datatype JuryFee = JuryFee(base: Balance, bonus: Balance)

  /** Double maps are nested: the prefix of the first key is the inner map. */
  datatype ArbStore = ArbStore(
    disputes: map<ProjectId, Dispute>,
    rewards: map<ProjectId, map<AccountId, Balance>>,
    costs: map<ProjectId, Balance>,
    bonds: map<ProjectId, map<nat, Bond>>,
    fees: map<(ProjectId, nat), map<AccountId, JuryFee>>)

  /** The whole chain state: this pallet writes, through the others, all of it. */
  datatype State = State(now: BlockNumber, ledger: Ledger, rep: RepStore, proj: ProjStore, arb: ArbStore) {
    function Site(): ProjWorld {
      ProjWorld(ledger, rep, proj)
    }
  }

  function WithSite(s: State, w: ProjWorld): State {
    s.(ledger := w.ledger, rep := w.rep, proj := w.proj)
  }

  function WithJury(s: State, w: RepWorld): State {
    s.(ledger := w.ledger, rep := w.rep)
  }

  function WithDispute(arb: ArbStore, id: ProjectId, d: Dispute): ArbStore {
    arb.(disputes := arb.disputes[id := d])
  }

  // ---------- the price of a round ----------

  function Percent(cfg: Config, budget: Balance, percentage: nat): Balance {
    SatMul(budget, percentage, cfg.maxBalance) / 100
  }

  function ArbitrationCost(cfg: Config, budget: Balance, round: nat): Result<Balance, Error> {
    match round
    case 1 => Ok(Percent(cfg, budget, 2))
    case 2 => Ok(Percent(cfg, budget, 5))
    case 3 => Ok(Percent(cfg, budget, 8))
    case _ => Err(InvalidRound)
  }

  function AppealBond(cfg: Config, budget: Balance, round: nat): Result<Balance, Error> {
    match round
    case 1 => Ok(Percent(cfg, budget, 5))
    case 2 => Ok(Percent(cfg, budget, 20))
    case 3 => Ok(Percent(cfg, budget, 50))
    case _ => Err(InvalidRound)
  }

  function JuryFees(cfg: Config, budget: Balance, round: nat): Result<JuryFee, Error> {
    match round
    case 2 => Ok(JuryFee(Percent(cfg, budget, 1), Percent(cfg, budget, 1) / 4))
    case 3 => Ok(JuryFee(Percent(cfg, budget, 2), Percent(cfg, budget, 2) / 4))
    case _ => Err(InvalidRound)
  }

  // ---------- votes ----------

  function Agrees(vote: Vote, ruling: Ruling): bool {
    match ruling
    case ClientWins => vote == ForClient
    case FreelancerWins => vote == ForFreelancer
  }

  function Voters(votes: map<AccountId, Vote>, vote: Vote): set<AccountId> {
    set j | j in votes && votes[j] == vote
  }

  /** A tie goes to the freelancer. */
  function RoundRuling(votes: map<AccountId, Vote>): Ruling {
    if |Voters(votes, ForFreelancer)| >= |Voters(votes, ForClient)| then FreelancerWins else ClientWins
  }

  function FeeOf(fees: map<AccountId, JuryFee>, juror: AccountId): JuryFee {
    if juror in fees then fees[juror] else JuryFee(0, 0)
  }

  /** A voter's reward after a round: the base fee on top, and the bonus for a vote with the ruling. */
  function Rewarded(cfg: Config, earned: Balance, fee: JuryFee, agrees: bool): Balance {
    var based := SatAdd(earned, fee.base, cfg.maxBalance);
    if agrees then SatAdd(based, fee.bonus, cfg.maxBalance) else based
  }

  function RewardsAfterRound(cfg: Config, rewards: map<AccountId, Balance>, fees: map<AccountId, JuryFee>,
                             votes: map<AccountId, Vote>, ruling: Ruling): map<AccountId, Balance>
  {
    map j | j in rewards.Keys + votes.Keys ::
      if j !in votes then rewards[j]
      else Rewarded(cfg, Get(rewards, j), FeeOf(fees, j), Agrees(votes[j], ruling))
  }

  lemma {:induction false} FindLeast(s: set<AccountId>) returns (least: AccountId)
    requires s != {}
    ensures least in s && forall y :: y in s ==> least <= y
    decreases |s|
  {
    var x :| x in s;
    least := x;
    if s != {x} {
      var m := FindLeast(s - {x});
      least := if m <= x then m else x;
    }
    forall y | y in s ensures least <= y {
      assert y == x || y in s - {x};
    }
  }

  lemma LeastExists(s: set<AccountId>)
    requires s != {}
    ensures exists x :: x in s && forall y :: y in s ==> x <= y
  {
    var least := FindLeast(s);
  }

  function Least(s: set<AccountId>): (x: AccountId)
    requires s != {}
    ensures x in s && forall y :: y in s ==> x <= y
  {
    LeastExists(s);
    var x :| x in s && forall y :: y in s ==> x <= y;
    x
  }

  /** A B-tree map is iterated in ascending order of its keys. */
  function Ascending(s: set<AccountId>): (order: seq<AccountId>)
    ensures Distinct(order) && Elements(order) == s
    decreases |s|
  {
    if s == {} then []
    else
      var x := Least(s);
      var rest := Ascending(s - {x});
      assert forall i :: 0 <= i < |rest| ==> rest[i] in Elements(rest);
      assert Elements([x] + rest) == {x} + Elements(rest);
      [x] + rest
  }

  /** The voters in the order in which their votes are recorded. */
  function VoteOrder(votes: map<AccountId, Vote>): (order: seq<AccountId>)
    ensures Distinct(order) && Elements(order) == votes.Keys
    ensures forall i :: 0 <= i < |order| ==> order[i] in votes
  {
    var order := Ascending(votes.Keys);
    assert forall i :: 0 <= i < |order| ==> order[i] in Elements(order);
    order
  }

  function AfterJuryVotes(cfg: Config, now: BlockNumber, w: RepWorld, voters: seq<AccountId>,
                          votes: map<AccountId, Vote>, ruling: Ruling): RepWorld
    requires forall i :: 0 <= i < |voters| ==> voters[i] in votes
  {
    if voters == [] then w
    else
      var juror := voters[|voters| - 1];
      var w1 := AfterJuryVotes(cfg, now, w, voters[..|voters| - 1], votes, ruling);
      AfterJuryVote(cfg, now, w1, juror, Agrees(votes[juror], ruling)).world
  }

  // ---------- dispatchables ----------

  function AfterCreateDispute(cfg: Config, s: State, freelancer: AccountId, id: ProjectId): Result<State, Error> {
    if id in s.arb.disputes then Err(DisputeAlreadyExists)
    else
      var parties :- ProjectParties(s.proj, id);
      if freelancer != parties.1 then Err(NotAuthorized)
      else
        var budget :- ProjectBudget(s.proj, id);
        var bond :- AppealBond(cfg, budget, 1);
        var ledger :- AfterReserve(s.ledger, freelancer, bond);
        var cost :- ArbitrationCost(cfg, budget, 1);
        var uris :- EvidenceUris(s.proj, id);
        var dispute := Dispute(AiProcessing, uris.0, uris.1, s.now, None, 1, [], map[]);
        var proj :- AfterSetInDispute(s.proj, id);
        Ok(s.(ledger := ledger, proj := proj,
              arb := s.arb.(disputes := s.arb.disputes[id := dispute],
                            bonds := s.arb.bonds[id := Prefix(s.arb.bonds, id)[1 := Bond(freelancer, bond)]],
                            costs := s.arb.costs[id := cost])))
  }

  function AfterSubmitRuling(s: State, id: ProjectId, ruling: Ruling): Result<State, Error> {
    if id !in s.arb.disputes then Err(DisputeNotFound)
    else
      var d := s.arb.disputes[id];
      if d.status != AiProcessing then Err(InvalidDisputeStatus)
      else Ok(s.(arb := WithDispute(s.arb, id, d.(ruling := Some(ruling), status := Appealable, startBlock := s.now))))
  }

  function RequiredTier(round: nat): JurorTier {
    if round == 2 then Bronze else Silver
  }

  function JurySize(cfg: Config, round: nat): nat {
    if round == 2 then cfg.minJurors else cfg.maxJurors
  }

  function Seated(jurors: seq<AccountId>): (seats: seq<(AccountId, bool)>)
    ensures |seats| == |jurors| && forall i :: 0 <= i < |seats| ==> seats[i] == (jurors[i], false)
  {
    seq(|jurors|, i requires 0 <= i < |jurors| => (jurors[i], false))
  }

  function LosingParty(ruling: Ruling, client: AccountId, freelancer: AccountId): AccountId {
    if ruling == ClientWins then freelancer else client
  }

  function WinningParty(ruling: Ruling, client: AccountId, freelancer: AccountId): AccountId {
    if ruling == ClientWins then client else freelancer
  }

  function AfterAppealRuling(cfg: Config, s: State, appellant: AccountId, id: ProjectId): Result<State, Error> {
    if id !in s.arb.disputes then Err(DisputeNotFound)
    else
      var d := s.arb.disputes[id];
      if d.status != Appealable then Err(InvalidDisputeStatus)
      else if s.now >= SatAdd(d.startBlock, cfg.appealPeriod, cfg.maxBlock) then Err(AppealPeriodExpired)
      else
        var parties :- ProjectParties(s.proj, id);
        if d.ruling.None? then Err(InvalidDisputeStatus)
        else if appellant != LosingParty(d.ruling.value, parties.0, parties.1) then Err(NotLosingParty)
        else
          var round := SatAdd(d.round, 1, U32_MAX);
          if round > 3 then Err(MaxAppealsReached)
          else
            var budget :- ProjectBudget(s.proj, id);
            var bond :- AppealBond(cfg, budget, round);
            var ledger :- AfterReserve(s.ledger, appellant, bond);
            var cost :- ArbitrationCost(cfg, budget, round);
            if round < 2 then Err(InvalidRound)
            else
              var (jury, rep) := Selection(s.rep, RequiredTier(round), [parties.0, parties.1], JurySize(cfg, round));
              if |jury| < JurySize(cfg, round) then Err(NotEnoughJurors)
              else
                var fee :- JuryFees(cfg, budget, round);
                var dispute := d.(round := round, status := Voting, jurors := Seated(jury),
                                  votes := map[], ruling := None, startBlock := s.now);
                Ok(s.(ledger := ledger, rep := rep,
                      arb := s.arb.(
                        disputes := s.arb.disputes[id := dispute],
                        bonds := s.arb.bonds[id := Prefix(s.arb.bonds, id)[round := Bond(appellant, bond)]],
                        costs := s.arb.costs[id := SatAdd(Get(s.arb.costs, id), cost, cfg.maxBalance)],
                        fees := s.arb.fees[(id, round) :=
                          Prefix(s.arb.fees, (id, round)) + (map j | j in Elements(jury) :: fee)])))
  }

  function SeatOf(jurors: seq<(AccountId, bool)>, juror: AccountId): (i: nat)
    ensures i <= |jurors|
    ensures i < |jurors| ==> jurors[i].0 == juror
    ensures forall k :: 0 <= k < i ==> jurors[k].0 != juror
  {
    if jurors == [] || jurors[0].0 == juror then 0 else 1 + SeatOf(jurors[1..], juror)
  }

  function AfterCastVote(s: State, juror: AccountId, id: ProjectId, vote: Vote): Result<State, Error> {
    if id !in s.arb.disputes then Err(DisputeNotFound)
    else
      var d := s.arb.disputes[id];
      var seat := SeatOf(d.jurors, juror);
      if d.status != Voting then Err(InvalidDisputeStatus)
      else if seat == |d.jurors| then Err(NotJuror)
      else if d.jurors[seat].1 then Err(AlreadyVoted)
      else Ok(s.(arb := WithDispute(s.arb, id,
        d.(votes := d.votes[juror := vote], jurors := d.jurors[seat := (juror, true)]))))
  }

  function AfterFinalizeRound(cfg: Config, s: State, id: ProjectId): Result<State, Error> {
    if id !in s.arb.disputes then Err(DisputeNotFound)
    else
      var d := s.arb.disputes[id];
      if d.status != Voting then Err(InvalidDisputeStatus)
      else if s.now < SatAdd(d.startBlock, cfg.votingPeriod, cfg.maxBlock) then Err(VotingPeriodNotOver)
      else
        var ruling := RoundRuling(d.votes);
        var rewards := RewardsAfterRound(cfg, Prefix(s.arb.rewards, id), Prefix(s.arb.fees, (id, d.round)), d.votes,
                                         ruling);
        var jury := AfterJuryVotes(cfg, s.now, RepWorld(s.ledger, s.rep), VoteOrder(d.votes), d.votes, ruling);
        var dispute := d.(ruling := Some(ruling), status := Appealable, startBlock := s.now);
        Ok(WithJury(s, jury).(arb := WithDispute(s.arb, id, dispute).(rewards := s.arb.rewards[id := rewards])))
  }

  // ---------- settlement ----------

  /** The ledger during the bond loop, and what was slashed so far. */
  datatype Purse = Purse(ledger: Ledger, slashed: Balance)

  /** One turn of the bond loop: the winner's bond is returned, any other goes to the pallet. */
  function BondTurn(cfg: Config, bonds: map<nat, Bond>, winner: AccountId, u: Purse, round: nat): Purse {
    if round !in bonds then u
    else if bonds[round].owner == winner then
      u.(ledger := AfterUnreserve(u.ledger, winner, bonds[round].amount))
    else
      var (taken, imbalance) := AfterSlashReserved(u.ledger, bonds[round].owner, bonds[round].amount);
      Purse(AfterDropImbalance(AfterDepositCreating(taken, cfg.arbitrator, imbalance), imbalance),
            SatAdd(u.slashed, imbalance, cfg.maxBalance))
  }

  ghost function BondStep(cfg: Config, bonds: map<nat, Bond>, winner: AccountId): (Purse, nat) -> Purse {
    (u: Purse, round: nat) => BondTurn(cfg, bonds, winner, u, round)
  }

  ghost function AfterBonds(cfg: Config, l: Ledger, bonds: map<nat, Bond>, winner: AccountId): Purse {
    FoldSet(BondStep(cfg, bonds, winner), Purse(l, 0), bonds.Keys)
  }

  /** What the slashed bonds do not cover is asked of the loser's free balance, who may not have it. */
  function AfterCosts(cfg: Config, u: Purse, loser: AccountId, costs: Balance): Ledger {
    if costs <= u.slashed then u.ledger
    else
      match AfterTransfer(u.ledger, loser, cfg.arbitrator, costs - u.slashed)
      case Ok(l) => l
      case Err(_) => u.ledger
  }

  /** One turn of the reward loop; after an error nothing more happens. */
  function RewardTurn(cfg: Config, rewards: map<AccountId, Balance>, r: Result<Ledger, Error>, juror: AccountId)
    : Result<Ledger, Error>
  {
    if r.Err? || juror !in rewards || rewards[juror] == 0 then r
    else
      match AfterTransfer(r.value, cfg.arbitrator, juror, rewards[juror])
      case Ok(l) => Ok(l)
      case Err(_) => Err(PaymentFailed)
  }

  ghost function RewardStep(cfg: Config, rewards: map<AccountId, Balance>)
    : (Result<Ledger, Error>, AccountId) -> Result<Ledger, Error>
  {
    (r: Result<Ledger, Error>, juror: AccountId) => RewardTurn(cfg, rewards, r, juror)
  }

  ghost function AfterRewards(cfg: Config, l: Ledger, rewards: map<AccountId, Balance>): Result<Ledger, Error> {
    FoldSet(RewardStep(cfg, rewards), Ok(l), rewards.Keys)
  }

  /** Every financial record of the project is removed, the fees of rounds 1 to 3 included. */
  function Cleaned(arb: ArbStore, id: ProjectId): ArbStore {
    arb.(costs := arb.costs - {id},
         bonds := arb.bonds - {id},
         fees := arb.fees - {(id, 1), (id, 2), (id, 3)},
         rewards := arb.rewards - {id})
  }

  ghost function AfterPayouts(cfg: Config, l: Ledger, arb: ArbStore, id: ProjectId,
                              winner: AccountId, loser: AccountId): Result<Ledger, Error>
  {
    var purse := AfterBonds(cfg, l, Prefix(arb.bonds, id), winner);
    AfterRewards(cfg, AfterCosts(cfg, purse, loser, Get(arb.costs, id)), Prefix(arb.rewards, id))
  }

  ghost function AfterEnforceFinalRuling(cfg: Config, s: State, id: ProjectId): Result<State, Error> {
    if id !in s.arb.disputes then Err(DisputeNotFound)
    else
      var d := s.arb.disputes[id];
      if d.status != Appealable then Err(InvalidDisputeStatus)
      else if s.now < SatAdd(d.startBlock, cfg.appealPeriod, cfg.maxBlock) then Err(AppealPeriodExpired)
      else
        var parties :- ProjectParties(s.proj, id);
        if d.ruling.None? then Err(InvalidDisputeStatus)
        else
          var winner := WinningParty(d.ruling.value, parties.0, parties.1);
          var loser := LosingParty(d.ruling.value, parties.0, parties.1);
          var site :- AfterOnRuling(cfg, s.now, s.Site(), id, d.ruling.value);
          var ledger :- AfterPayouts(cfg, site.ledger, s.arb, id, winner, loser);
          var jury :- AfterDisputeOutcome(cfg, s.now, RepWorld(ledger, site.rep), winner, loser);
          Ok(State(s.now, jury.ledger, jury.rep, site.proj,
                   WithDispute(Cleaned(s.arb, id), id, d.(status := Finalized))))
  }
}
