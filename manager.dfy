/** The proposal manager as ProposalManagerMock writes it: an object whose
    operations check their arguments one after another, return at the
    first failure, and otherwise update the object's maps and counters in
    place. Each operation is proved to do exactly what the matching step
    function of ProposalSpec describes, and to keep the invariant. */
module ProposalManagerModel {
  import opened ProposalTypes
  import Spec = ProposalSpec
  import Lemmas = ProposalInvariants

  class ProposalManager {
    var nextProposalId: nat
    var maxProposalsPerClub: int
    var votingPeriod: int
    var authorityContract: Option<Principal>
    var proposals: map<ProposalKey, Proposal>
    var votes: map<VoteKey, bool>
    var proposalCountByClub: map<int, int>
    /** Transfers requested by executed proposals, oldest first. */
    var transfers: seq<Transfer>

    /** The object's fields as a ProposalSpec state. */
    ghost function Abstract(): Spec.State
      reads this
    {
      Spec.State(nextProposalId, maxProposalsPerClub, votingPeriod, authorityContract,
                 proposals, votes, proposalCountByClub, transfers)
    }

    ghost predicate Valid()
      reads this
    {
      Spec.Inv(Abstract())
    }

    /** The state `reset` establishes. */
    constructor ()
      ensures Valid()
      ensures Abstract() == Spec.Initial()
    {
      nextProposalId := 0;
      maxProposalsPerClub := Spec.DefaultMaxProposalsPerClub;
      votingPeriod := Spec.DefaultVotingPeriod;
      authorityContract := None;
      proposals := map[];
      votes := map[];
      proposalCountByClub := map[];
      transfers := [];
    }

    method SetAuthorityContract(contractPrincipal: Principal) returns (r: Response<bool>)
      requires Valid()
      modifies this
      ensures Valid()
      ensures Spec.Step(r, Abstract()) == Spec.SetAuthorityContract(old(Abstract()), contractPrincipal)
    {
      Lemmas.SetAuthorityKeepsInv(Abstract(), contractPrincipal);
      if authorityContract.Some? {
        return Err(NotAuthorized);
      }
      authorityContract := Some(contractPrincipal);
      return Ok(true);
    }

    method SetMaxProposalsPerClub(newMax: int) returns (r: Response<bool>)
      requires Valid()
      modifies this
      ensures Valid()
      ensures Spec.Step(r, Abstract()) == Spec.SetMaxProposalsPerClub(old(Abstract()), newMax)
    {
      Lemmas.SetMaxProposalsKeepsInv(Abstract(), newMax);
      if authorityContract.None? || authorityContract.value == "" {
        return Err(NotAuthorized);
      }
      if newMax <= 0 {
        return Err(NotAuthorized);
      }
      maxProposalsPerClub := newMax;
      return Ok(true);
    }

    method SetVotingPeriod(newPeriod: int) returns (r: Response<bool>)
      requires Valid()
      modifies this
      ensures Valid()
      ensures Spec.Step(r, Abstract()) == Spec.SetVotingPeriod(old(Abstract()), newPeriod)
    {
      Lemmas.SetVotingPeriodKeepsInv(Abstract(), newPeriod);
      if authorityContract.None? || authorityContract.value == "" {
        return Err(NotAuthorized);
      }
      if newPeriod <= 0 {
        return Err(NotAuthorized);
      }
      votingPeriod := newPeriod;
      return Ok(true);
    }

    method ProposeInvestment(env: Env, clubId: int, amount: int, target: Principal, duration: int,
                             description: string, riskLevel: int, expectedReturn: int)
      returns (r: Response<int>)
      requires Valid()
      modifies this
      ensures Valid()
      ensures Spec.Step(r, Abstract()) == Spec.ProposeInvestment(old(Abstract()), env,
        Spec.ProposalRequest(clubId, amount, target, duration, description, riskLevel, expectedReturn))
    {
      ghost var req := Spec.ProposalRequest(clubId, amount, target, duration, description, riskLevel, expectedReturn);
      Lemmas.ProposeKeepsInv(Abstract(), env, req);
      Spec.ProposeVerdictChain(Abstract(), env, req);
      if clubId <= 0 {
        return Err(InvalidClubId);
      }
      if !env.ClubActive(clubId) {
        return Err(ClubNotActive);
      }
      var currentCount := if clubId in proposalCountByClub then proposalCountByClub[clubId] else 0;
      if currentCount >= maxProposalsPerClub {
        return Err(MaxProposalsExceeded);
      }
      if amount <= 0 {
        return Err(InvalidProposalAmount);
      }
      if target == env.caller {
        return Err(InvalidProposalTarget);
      }
      if duration <= 0 {
        return Err(InvalidProposalDuration);
      }
      if |description| == 0 || |description| > Spec.MaxDescriptionLength {
        return Err(InvalidProposalDescription);
      }
      if riskLevel > Spec.MaxRiskLevel {
        return Err(InvalidRiskLevel);
      }
      if expectedReturn <= 0 {
        return Err(InvalidExpectedReturn);
      }
      if !env.CallerIsMember(clubId) {
        return Err(NotAuthorized);
      }
      var funds := env.Funds(clubId);
      if funds < amount {
        return Err(InsufficientStake);
      }
      var proposalId := nextProposalId;
      var key := ProposalKey(clubId, proposalId);
      proposals := proposals[key := Proposal(env.caller, amount, target, duration, 0, 0, Open,
                                             env.blockHeight, description, riskLevel, expectedReturn)];
      proposalCountByClub := proposalCountByClub[clubId := currentCount + 1];
      nextProposalId := nextProposalId + 1;
      return Ok(proposalId);
    }

    method VoteOnProposal(env: Env, clubId: int, proposalId: int, vote: bool) returns (r: Response<bool>)
      requires Valid()
      modifies this
      ensures Valid()
      ensures Spec.Step(r, Abstract()) == Spec.VoteOnProposal(old(Abstract()), env, clubId, proposalId, vote)
    {
      Lemmas.VoteKeepsInv(Abstract(), env, clubId, proposalId, vote);
      var proposalKey := ProposalKey(clubId, proposalId);
      if proposalKey !in proposals {
        return Refused;
      }
      var proposal := proposals[proposalKey];
      Spec.VoteVerdictChain(Abstract(), env, proposalKey, proposal);
      if !env.ClubActive(clubId) {
        return Err(ClubNotActive);
      }
      if !env.CallerIsMember(clubId) {
        return Err(NotAuthorized);
      }
      if proposal.status != Open {
        return Err(ProposalNotOpen);
      }
      if env.blockHeight - proposal.startTime >= votingPeriod {
        return Err(VotingClosed);
      }
      var voteKey := VoteKey(clubId, proposalId, env.caller);
      if voteKey in votes {
        return Err(AlreadyVoted);
      }
      var stake := env.CallerStake(clubId);
      if stake <= 0 {
        return Err(InsufficientStake);
      }
      votes := votes[voteKey := vote];
      if vote {
        proposal := proposal.(votesFor := proposal.votesFor + stake);
      } else {
        proposal := proposal.(votesAgainst := proposal.votesAgainst + stake);
      }
      proposals := proposals[proposalKey := proposal];
      return Ok(true);
    }

    method ExecuteProposal(env: Env, clubId: int, proposalId: int) returns (r: Response<bool>)
      requires Valid()
      modifies this
      ensures Valid()
      ensures Spec.Step(r, Abstract()) == Spec.ExecuteProposal(old(Abstract()), env, clubId, proposalId)
    {
      Lemmas.ExecuteKeepsInv(Abstract(), env, clubId, proposalId);
      var proposalKey := ProposalKey(clubId, proposalId);
      if proposalKey !in proposals {
        return Refused;
      }
      var proposal := proposals[proposalKey];
      Spec.ExecuteVerdictChain(Abstract(), env, proposalKey, proposal);
      if !env.ClubActive(clubId) {
        return Err(ClubNotActive);
      }
      if proposal.status != Open {
        return Err(ProposalNotOpen);
      }
      if env.blockHeight - proposal.startTime < votingPeriod {
        return Err(VotingClosed);
      }
      if proposal.votesFor < Spec.VotingThreshold {
        return Err(VotingThresholdNotMet);
      }
      transfers := transfers + [Transfer(clubId, proposal.amount, proposal.target)];
      proposal := proposal.(status := Executed);
      proposals := proposals[proposalKey := proposal];
      return Ok(true);
    }

    method CloseProposal(env: Env, clubId: int, proposalId: int) returns (r: Response<bool>)
      requires Valid()
      modifies this
      ensures Valid()
      ensures Spec.Step(r, Abstract()) == Spec.CloseProposal(old(Abstract()), env, clubId, proposalId)
    {
      Lemmas.CloseKeepsInv(Abstract(), env, clubId, proposalId);
      var proposalKey := ProposalKey(clubId, proposalId);
      if proposalKey !in proposals {
        return Refused;
      }
      var proposal := proposals[proposalKey];
      if proposal.proposer != env.caller {
        return Refused;
      }
      if proposal.status != Open {
        return Err(ProposalNotOpen);
      }
      proposal := proposal.(status := Closed);
      proposals := proposals[proposalKey := proposal];
      return Ok(true);
    }
  }
}
