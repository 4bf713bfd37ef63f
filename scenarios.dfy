/** The behaviour the vitest suite of ProposalManagerMock checks, as clients of the
    ProposalManager class. Every scenario starts like the suite's setup:
    club 1 is active, "ST1TEST" is a member of it with stake 100, and the
    club holds 1000 in funds. */
module ProposalScenarios {
  import opened ProposalTypes
  import Spec = ProposalSpec
  import Lemmas = ProposalInvariants
  import opened ProposalManagerModel

  const Member: Principal := Spec.SuiteMember
  const Target: Principal := "ST2TARGET"
  const Description: string := "Invest in DeFi"

  /** A fresh manager holding the suite's usual proposal 0 of club 1. */
  method WithProposal() returns (m: ProposalManager, r: Response<int>)
    ensures fresh(m) && m.Valid()
    ensures r == Ok(0)
    ensures ProposalKey(1, 0) in m.proposals
    ensures m.proposals[ProposalKey(1, 0)] ==
      Proposal(Member, 500, Target, 30, 0, 0, Open, 0, Description, 5, 20)
    ensures m.votes == map[] && m.transfers == [] && m.votingPeriod == Spec.DefaultVotingPeriod
  {
    m := new ProposalManager();
    r := m.ProposeInvestment(Spec.SuiteWorld(0, Member), 1, 500, Target, 30, Description, 5, 20);
    Spec.ProposeStoresOpenProposal(Spec.Initial(), Spec.SuiteWorld(0, Member),
      Spec.ProposalRequest(1, 500, Target, 30, Description, 5, 20));
  }

  method CreatesProposal() returns (r: Response<int>, p: Proposal)
    ensures r == Ok(0)
    ensures p.amount == 500 && p.target == Target && p.description == Description
  {
    var m;
    m, r := WithProposal();
    p := m.proposals[ProposalKey(1, 0)];
  }

  method RejectsInvalidClubId() returns (r: Response<int>)
    ensures r == Err(InvalidClubId) && r.error.Code() == 111
  {
    var m := new ProposalManager();
    r := m.ProposeInvestment(Spec.SuiteWorld(0, Member), 0, 500, Target, 30, Description, 5, 20);
  }

  method RejectsWhenMaxExceeded() returns (r: Response<int>)
    ensures r == Err(MaxProposalsExceeded) && r.error.Code() == 120
  {
    var m := new ProposalManager();
    ghost var before := m.Abstract();
    m.maxProposalsPerClub := 0;
    Lemmas.SameStoresKeepInv(before, m.Abstract());
    Spec.ProposeVerdictChain(m.Abstract(), Spec.SuiteWorld(0, Member),
      Spec.ProposalRequest(1, 500, Target, 30, Description, 5, 20));
    r := m.ProposeInvestment(Spec.SuiteWorld(0, Member), 1, 500, Target, 30, Description, 5, 20);
  }

  method VotesSuccessfully() returns (r: Response<bool>, votesFor: int)
    ensures r == Ok(true) && votesFor == 100
  {
    var m, _ := WithProposal();
    r := m.VoteOnProposal(Spec.SuiteWorld(0, Member), 1, 0, true);
    votesFor := m.proposals[ProposalKey(1, 0)].votesFor;
  }

  method RejectsSecondVote() returns (r: Response<bool>)
    ensures r == Err(AlreadyVoted) && r.error.Code() == 107
  {
    var m, _ := WithProposal();
    var first := m.VoteOnProposal(Spec.SuiteWorld(0, Member), 1, 0, true);
    Spec.VoteVerdictChain(m.Abstract(), Spec.SuiteWorld(0, Member), ProposalKey(1, 0), m.proposals[ProposalKey(1, 0)]);
    r := m.VoteOnProposal(Spec.SuiteWorld(0, Member), 1, 0, false);
  }

  method ExecutesProposal() returns (r: Response<bool>, status: Status, transfers: seq<Transfer>)
    ensures r == Ok(true) && status == Executed
    ensures transfers == [Transfer(1, 500, Target)]
  {
    var m, _ := WithProposal();
    var vote := m.VoteOnProposal(Spec.SuiteWorld(0, Member), 1, 0, true);
    r := m.ExecuteProposal(Spec.SuiteWorld(144, Member), 1, 0);
    status := m.proposals[ProposalKey(1, 0)].status;
    transfers := m.transfers;
  }

  method RejectsExecutionBelowThreshold() returns (r: Response<bool>)
    ensures r == Err(VotingThresholdNotMet) && r.error.Code() == 110
  {
    var m, _ := WithProposal();
    Spec.ExecuteVerdictChain(m.Abstract(), Spec.SuiteWorld(144, Member), ProposalKey(1, 0), m.proposals[ProposalKey(1, 0)]);
    r := m.ExecuteProposal(Spec.SuiteWorld(144, Member), 1, 0);
  }

  method ClosesProposal() returns (r: Response<bool>, status: Status)
    ensures r == Ok(true) && status == Closed
  {
    var m, _ := WithProposal();
    r := m.CloseProposal(Spec.SuiteWorld(0, Member), 1, 0);
    status := m.proposals[ProposalKey(1, 0)].status;
  }

  method RejectsCloseByNonProposer() returns (r: Response<bool>, status: Status)
    ensures r == Refused && status == Open
  {
    var m, _ := WithProposal();
    r := m.CloseProposal(Spec.SuiteWorld(0, "ST3FAKE"), 1, 0);
    status := m.proposals[ProposalKey(1, 0)].status;
  }

  method SetsAuthority() returns (r: Response<bool>, authority: Option<Principal>)
    ensures r == Ok(true) && authority == Some("ST2AUTH")
  {
    var m := new ProposalManager();
    r := m.SetAuthorityContract("ST2AUTH");
    authority := m.authorityContract;
  }

  method RejectsSecondAuthority() returns (r: Response<bool>, authority: Option<Principal>)
    ensures r == Err(NotAuthorized) && authority == Some("ST2AUTH")
  {
    var m := new ProposalManager();
    var first := m.SetAuthorityContract("ST2AUTH");
    r := m.SetAuthorityContract("ST4OTHER");
    authority := m.authorityContract;
  }

  method SetsMaxProposals() returns (r: Response<bool>, max: int)
    ensures r == Ok(true) && max == 50
  {
    var m := new ProposalManager();
    var a := m.SetAuthorityContract("ST2AUTH");
    r := m.SetMaxProposalsPerClub(50);
    max := m.maxProposalsPerClub;
  }

  method SetsVotingPeriod() returns (r: Response<bool>, period: int)
    ensures r == Ok(true) && period == 200
  {
    var m := new ProposalManager();
    var a := m.SetAuthorityContract("ST2AUTH");
    r := m.SetVotingPeriod(200);
    period := m.votingPeriod;
  }

  method RejectsTunablesWithoutAuthority() returns (r1: Response<bool>, r2: Response<bool>)
    ensures r1 == Err(NotAuthorized) && r2 == Err(NotAuthorized)
  {
    var m := new ProposalManager();
    r1 := m.SetMaxProposalsPerClub(50);
    r2 := m.SetVotingPeriod(200);
  }

  method RejectsInvalidAmount() returns (r: Response<int>)
    ensures r == Err(InvalidProposalAmount) && r.error.Code() == 101
  {
    var m := new ProposalManager();
    Spec.ProposeVerdictChain(m.Abstract(), Spec.SuiteWorld(0, Member), Spec.ProposalRequest(1, 0, Target, 30, Description, 5, 20));
    r := m.ProposeInvestment(Spec.SuiteWorld(0, Member), 1, 0, Target, 30, Description, 5, 20);
  }

  method RejectsInvalidTarget() returns (r: Response<int>)
    ensures r == Err(InvalidProposalTarget) && r.error.Code() == 102
  {
    var m := new ProposalManager();
    Spec.ProposeVerdictChain(m.Abstract(), Spec.SuiteWorld(0, Member), Spec.ProposalRequest(1, 500, Member, 30, Description, 5, 20));
    r := m.ProposeInvestment(Spec.SuiteWorld(0, Member), 1, 500, Member, 30, Description, 5, 20);
  }

  method RejectsNonMember() returns (r: Response<int>)
    ensures r == Err(NotAuthorized) && r.error.Code() == 100
  {
    var m := new ProposalManager();
    var env := Spec.SuiteWorld(0, Member).(members := map[(1, Member) := false]);
    Spec.ProposeVerdictChain(m.Abstract(), env, Spec.ProposalRequest(1, 500, Target, 30, Description, 5, 20));
    r := m.ProposeInvestment(env, 1, 500, Target, 30, Description, 5, 20);
  }

  method RejectsInsufficientFunds() returns (r: Response<int>)
    ensures r == Err(InsufficientStake) && r.error.Code() == 108
  {
    var m := new ProposalManager();
    var env := Spec.SuiteWorld(0, Member).(funds := map[1 := 400]);
    Spec.ProposeVerdictChain(m.Abstract(), env, Spec.ProposalRequest(1, 500, Target, 30, Description, 5, 20));
    r := m.ProposeInvestment(env, 1, 500, Target, 30, Description, 5, 20);
  }
}
