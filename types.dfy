/** Values shared by the proposal manager: identities, error codes, the
    result of an operation, proposal records, storage keys and the
    read-only view of the external collaborators. */
module ProposalTypes {

  /** An opaque principal (a Stacks address in ProposalManagerMock); only
      equality is ever used on it. */
  type Principal = string

  datatype Option<+T> = None | Some(value: T)

  /** The error codes the manager actually returns. Codes 104, 105, 112,
      113, 117 and 118 are declared by ProposalManagerMock but never produced. */
  datatype Error =
    | NotAuthorized
    | InvalidProposalAmount
    | InvalidProposalTarget
    | InvalidProposalDuration
    | VotingClosed
    | AlreadyVoted
    | InsufficientStake
    | ProposalNotOpen
    | VotingThresholdNotMet
    | InvalidClubId
    | InvalidProposalDescription
    | InvalidRiskLevel
    | InvalidExpectedReturn
    | ClubNotActive
    | MaxProposalsExceeded
  {
    /** The numeric value carried in `{ ok: false, value: code }`. */
    function Code(): (n: int)
      ensures 100 <= n <= 120
      ensures n != 104 && n != 105 && n != 112 && n != 113 && n != 117 && n != 118
    {
      match this
      case NotAuthorized => 100
      case InvalidProposalAmount => 101
      case InvalidProposalTarget => 102
      case InvalidProposalDuration => 103
      case VotingClosed => 106
      case AlreadyVoted => 107
      case InsufficientStake => 108
      case ProposalNotOpen => 109
      case VotingThresholdNotMet => 110
      case InvalidClubId => 111
      case InvalidProposalDescription => 114
      case InvalidRiskLevel => 115
      case InvalidExpectedReturn => 116
      case ClubNotActive => 119
      case MaxProposalsExceeded => 120
    }
  }

  /** Distinct errors carry distinct codes, so a code names its error. */
  lemma CodeDecodes(e1: Error, e2: Error)
    ensures e1.Code() == e2.Code() ==> e1 == e2
  {
  }

  /** `{ ok: true, value }`, `{ ok: false, value: code }`, or the bare
      `{ ok: false, value: false }` used for a missing proposal and for a
      close attempted by someone other than the proposer. */
  datatype Response<+T> = Ok(value: T) | Err(error: Error) | Refused

  /** The three status strings ProposalManagerMock ever stores. */
  datatype Status = Open | Executed | Closed

  datatype Proposal = Proposal(
    proposer: Principal,
    amount: int,
    target: Principal,
    duration: int,
    votesFor: int,
    votesAgainst: int,
    status: Status,
    startTime: int,
    description: string,
    riskLevel: int,
    expectedReturn: int)

  /** The key `${clubId}-${proposalId}` as a pair. */
  datatype ProposalKey = ProposalKey(clubId: int, proposalId: int)

  /** The key `${clubId}-${proposalId}-${voter}` as a triple. */
  datatype VoteKey = VoteKey(clubId: int, proposalId: int, voter: Principal) {
    /** The proposal this ballot was cast on. */
    function Ballot(): ProposalKey {
      ProposalKey(clubId, proposalId)
    }
  }

  /** One entry of the append-only log of requested fund transfers. */
  datatype Transfer = Transfer(clubId: int, amount: int, target: Principal)

  /** What the manager reads from outside: the block height, the caller,
      and the club registry, stake ledger and fund ledger. Registry and
      ledger entries are keyed by `${clubId}-${principal}`, here a pair. */
  datatype Env = Env(
    blockHeight: int,
    caller: Principal,
    clubsActive: map<int, bool>,
    members: map<(int, Principal), bool>,
    stakes: map<(int, Principal), int>,
    funds: map<int, int>)
  {
    predicate ClubActive(clubId: int) {
      clubId in clubsActive && clubsActive[clubId]
    }

    predicate CallerIsMember(clubId: int) {
      (clubId, caller) in members && members[(clubId, caller)]
    }

    /** `stakes.get(key) || 0` */
    function CallerStake(clubId: int): int {
      if (clubId, caller) in stakes then stakes[(clubId, caller)] else 0
    }

    /** `funds.get(clubId) || 0` */
    function Funds(clubId: int): int {
      if clubId in funds then funds[clubId] else 0
    }
  }
}
