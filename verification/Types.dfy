/**
  Identifiers, runtime parameters and errors shared by the pallets.
*/
module Types {

  type AccountId = nat
  type ProjectId = nat
  type Balance = nat
  type BlockNumber = nat
  type Uri = string

  /** Project ids are u32: the counter wraps at this value. */
  const PROJECT_IDS: nat := 0x1_0000_0000

  /** A permill holds parts per million. */
  const PERMILL_ONE: nat := 1_000_000

  /** The runtime parameters; the account is the one derived from the arbitration `PalletId`. */
  datatype Parameters = Parameters(
    minJurors: nat,
    maxJurors: nat,
    maxGold: nat,
    maxSilver: nat,
    maxBronze: nat,
    maxApplicants: nat,
    slashRatio: nat,
    appealPeriod: BlockNumber,
    votingPeriod: BlockNumber,
    maxBalance: Balance,
    maxBlock: BlockNumber,
    arbitrator: AccountId)

  type Config = c: Parameters | c.minJurors <= c.maxJurors && c.slashRatio <= PERMILL_ONE
    witness Parameters(0, 0, 0, 0, 0, 0, 0, 0, 0, 0, 0, 0)

  datatype Ruling = ClientWins | FreelancerWins

  datatype Error =
      // balances
    | InsufficientBalance
    | LiquidityRestrictions
    | IssuanceOverflow
      // reputation
    | AlreadyRegistered
    | UserNotRegistered
    | InvalidScore
    | AlreadyRegisteredAsJuror
    | NotRegisteredAsJuror
    | InsufficientTier
    | JurorPoolFull
      // projects
    | ProjectNotFound
    | NotProjectOwner
    | NotFreelancer
    | InvalidProjectStatus
    | TooManyApplicants
    | AlreadyApplied
    | ApplicantNotFound
    | WorkAlreadySubmitted
    | InvalidUri
    | SubmissionDeadlinePassed
    | NoWorkSubmitted
    | ProjectPaymentFailed
    | RatingOutOfRange
      // arbitration
    | DisputeNotFound
    | NotAuthorized
    | DisputeAlreadyExists
    | InvalidRound
    | NotEnoughJurors
    | InvalidDisputeStatus
    | AppealPeriodExpired
    | NotLosingParty
    | MaxAppealsReached
    | NotJuror
    | AlreadyVoted
    | VotingPeriodNotOver
    | PaymentFailed
      // block production
    | NoMoreBlocks
}
