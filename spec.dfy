/** The proposal manager as a state machine over values: the state record,
    the ordered validation chains, one step function per operation, and
    the invariant every reachable state satisfies. */
module ProposalSpec {
  import opened ProposalTypes

  const DefaultMaxProposalsPerClub: int := 100
  const DefaultVotingPeriod: int := 144
  const MaxDescriptionLength: int := 256
  const MaxRiskLevel: int := 10
  /** Absolute stake weight `votesFor` must reach before execution. */
  const VotingThreshold: int := 50

  /** The manager's own state, plus the log of requested transfers. */
  datatype State = State(
    nextProposalId: nat,
    maxProposalsPerClub: int,
    votingPeriod: int,
    authorityContract: Option<Principal>,
    proposals: map<ProposalKey, Proposal>,
    votes: map<VoteKey, bool>,
    proposalCountByClub: map<int, int>,
    transfers: seq<Transfer>)

  /** What an operation answers, and the state it leaves behind. */
  datatype Step<+T> = Step(response: Response<T>, next: State)

  /** The arguments of `proposeInvestment`. */
  datatype ProposalRequest = ProposalRequest(
    clubId: int,
    amount: int,
    target: Principal,
    duration: int,
    description: string,
    riskLevel: int,
    expectedReturn: int)

  /** The state the constructor and `reset` establish. */
  function Initial(): (s: State)
    ensures Inv(s)
    ensures s.proposals == map[] && s.votes == map[] && s.transfers == []
    ensures s.authorityContract.None?
  {
    var s := State(0, DefaultMaxProposalsPerClub, DefaultVotingPeriod, None, map[], map[], map[], []);
    assert forall c :: ClubKeys(s, c) == {};
    assert ExecutedKeys(s) == {};
    s
  }

  /** `proposalCountByClub.get(clubId) || 0` */
  /** The member the vitest suite of ProposalManagerMock calls as. */
  const SuiteMember: Principal := "ST1TEST"

  /** The collaborators that suite sets up before every case, at the given
      block height and caller: club 1 is active with 1000 in funds, and
      SuiteMember is a member of it with stake 100. */
  function SuiteWorld(blockHeight: int, caller: Principal): (env: Env)
    ensures env.blockHeight == blockHeight && env.caller == caller
    ensures env.ClubActive(1) && env.Funds(1) == 1000
    ensures env.CallerIsMember(1) <==> caller == SuiteMember
    ensures caller == SuiteMember ==> env.CallerStake(1) == 100
  {
    Env(blockHeight, caller, map[1 := true], map[(1, SuiteMember) := true],
        map[(1, SuiteMember) := 100], map[1 := 1000])
  }

  function CountOf(s: State, clubId: int): int {
    if clubId in s.proposalCountByClub then s.proposalCountByClub[clubId] else 0
  }

  /** `!!authorityContract`: the empty principal is falsy, like null. */
  predicate AuthoritySet(s: State) {
    s.authorityContract.Some? && s.authorityContract.value != ""
  }

  // ---------------------------------------------------------------------
  // Ordered validation chains: the first check that does not pass decides
  // the error.

  datatype Check = Check(passes: bool, error: Error)

  /** The error a chain of checks reports: that of the first check that
      does not pass, or none when they all pass. */
  function Verdict(checks: seq<Check>): (r: Option<Error>)
    ensures r.None? <==> forall i | 0 <= i < |checks| :: checks[i].passes
  {
    if checks == [] then None
    else if !checks[0].passes then Some(checks[0].error)
    else
      var r := Verdict(checks[1..]);
      assert forall i | 1 <= i < |checks| :: checks[i] == checks[1..][i - 1];
      r
  }

  /** When check `i` is the first that fails, its error is the verdict. */
  lemma {:induction false} VerdictAt(checks: seq<Check>, i: int)
    requires 0 <= i < |checks| && !checks[i].passes
    requires forall j | 0 <= j < i :: checks[j].passes
    ensures Verdict(checks) == Some(checks[i].error)
    decreases i
  {
    if i > 0 {
      assert checks[0].passes;
      assert forall j | 0 <= j < i - 1 :: checks[1..][j] == checks[j + 1];
      VerdictAt(checks[1..], i - 1);
    }
  }

  /** One link of the chain: check `k` either fails, or the verdict of the
      remaining checks decides. */
  lemma VerdictStep(checks: seq<Check>, k: int)
    requires 0 <= k < |checks|
    ensures Verdict(checks[k..]) ==
      if !checks[k].passes then Some(checks[k].error) else Verdict(checks[k + 1..])
  {
    assert checks[k..][0] == checks[k];
    assert checks[k..][1..] == checks[k + 1..];
  }

  // ---------------------------------------------------------------------
  // Configuration

  /** Write-once: refused whenever some authority is already stored. */
  function SetAuthorityContract(s: State, principal: Principal): (r: Step<bool>)
    ensures r.response.Ok? <==> s.authorityContract.None?
    ensures r.response.Ok? ==> r.response.value && r.next == s.(authorityContract := Some(principal))
    ensures !r.response.Ok? ==> r.response == Err(NotAuthorized) && r.next == s
  {
    if s.authorityContract.Some? then Step(Err(NotAuthorized), s)
    else Step(Ok(true), s.(authorityContract := Some(principal)))
  }

  /** Needs some authority to be stored, but never looks at the caller. */
  function SetMaxProposalsPerClub(s: State, newMax: int): (r: Step<bool>)
    ensures r.response.Ok? <==> AuthoritySet(s) && newMax > 0
    ensures r.response.Ok? ==> r.response.value && r.next == s.(maxProposalsPerClub := newMax)
    ensures !r.response.Ok? ==> r.response == Err(NotAuthorized) && r.next == s
  {
    if !AuthoritySet(s) then Step(Err(NotAuthorized), s)
    else if newMax <= 0 then Step(Err(NotAuthorized), s)
    else Step(Ok(true), s.(maxProposalsPerClub := newMax))
  }

  /** Same pattern as SetMaxProposalsPerClub, on the voting period. */
  function SetVotingPeriod(s: State, newPeriod: int): (r: Step<bool>)
    ensures r.response.Ok? <==> AuthoritySet(s) && newPeriod > 0
    ensures r.response.Ok? ==> r.response.value && r.next == s.(votingPeriod := newPeriod)
    ensures !r.response.Ok? ==> r.response == Err(NotAuthorized) && r.next == s
  {
    if !AuthoritySet(s) then Step(Err(NotAuthorized), s)
    else if newPeriod <= 0 then Step(Err(NotAuthorized), s)
    else Step(Ok(true), s.(votingPeriod := newPeriod))
  }

  // ---------------------------------------------------------------------
  // Propose

  /** The eleven checks of `proposeInvestment`, in the order they run. */
  function ProposeChecks(s: State, env: Env, req: ProposalRequest): seq<Check>
  {
    [ Check(req.clubId > 0, InvalidClubId),
      Check(env.ClubActive(req.clubId), ClubNotActive),
      Check(CountOf(s, req.clubId) < s.maxProposalsPerClub, MaxProposalsExceeded),
      Check(req.amount > 0, InvalidProposalAmount),
      Check(req.target != env.caller, InvalidProposalTarget),
      Check(req.duration > 0, InvalidProposalDuration),
      Check(0 < |req.description| <= MaxDescriptionLength, InvalidProposalDescription),
      Check(req.riskLevel <= MaxRiskLevel, InvalidRiskLevel),
      Check(req.expectedReturn > 0, InvalidExpectedReturn),
      Check(env.CallerIsMember(req.clubId), NotAuthorized),
      Check(env.Funds(req.clubId) >= req.amount, InsufficientStake) ]
  }

  /** Everything a proposal must satisfy, order aside. */
  predicate ProposalAcceptable(s: State, env: Env, req: ProposalRequest) {
    && req.clubId > 0
    && env.ClubActive(req.clubId)
    && CountOf(s, req.clubId) < s.maxProposalsPerClub
    && req.amount > 0
    && req.target != env.caller
    && req.duration > 0
    && 0 < |req.description| <= MaxDescriptionLength
    && req.riskLevel <= MaxRiskLevel
    && req.expectedReturn > 0
    && env.CallerIsMember(req.clubId)
    && env.Funds(req.clubId) >= req.amount
  }

  /** The ordered checks of a proposal say the same as the source's chain
      of early returns: the first condition that fails names the error. */
  lemma ProposeVerdictChain(s: State, env: Env, req: ProposalRequest)
    ensures Verdict(ProposeChecks(s, env, req)) ==
      if req.clubId <= 0 then Some(InvalidClubId)
      else if !env.ClubActive(req.clubId) then Some(ClubNotActive)
      else if CountOf(s, req.clubId) >= s.maxProposalsPerClub then Some(MaxProposalsExceeded)
      else if req.amount <= 0 then Some(InvalidProposalAmount)
      else if req.target == env.caller then Some(InvalidProposalTarget)
      else if req.duration <= 0 then Some(InvalidProposalDuration)
      else if |req.description| == 0 || |req.description| > MaxDescriptionLength then Some(InvalidProposalDescription)
      else if req.riskLevel > MaxRiskLevel then Some(InvalidRiskLevel)
      else if req.expectedReturn <= 0 then Some(InvalidExpectedReturn)
      else if !env.CallerIsMember(req.clubId) then Some(NotAuthorized)
      else if env.Funds(req.clubId) < req.amount then Some(InsufficientStake)
      else None
  {
    var c := ProposeChecks(s, env, req);
    assert c[0..] == c;
    VerdictStep(c, 0);
    VerdictStep(c, 1);
    VerdictStep(c, 2);
    VerdictStep(c, 3);
    VerdictStep(c, 4);
    VerdictStep(c, 5);
    VerdictStep(c, 6);
    VerdictStep(c, 7);
    VerdictStep(c, 8);
    VerdictStep(c, 9);
    VerdictStep(c, 10);
    assert c[11..] == [];
  }

  /** The record a successful proposal stores. */
  function NewProposal(env: Env, req: ProposalRequest): Proposal {
    Proposal(env.caller, req.amount, req.target, req.duration, 0, 0, Open,
             env.blockHeight, req.description, req.riskLevel, req.expectedReturn)
  }

  function ProposeInvestment(s: State, env: Env, req: ProposalRequest): (r: Step<int>)
    ensures r.response.Ok? <==> ProposalAcceptable(s, env, req)
    ensures !r.response.Ok? ==> r.response.Err? && r.next == s
    ensures r.response.Ok? ==>
      r.response.value == s.nextProposalId && r.next.nextProposalId == s.nextProposalId + 1
  {
    var checks := ProposeChecks(s, env, req);
    match Verdict(checks)
    case Some(e) => Step(Err(e), s)
    case None =>
      assert checks[0].passes && checks[1].passes && checks[2].passes && checks[3].passes;
      assert checks[4].passes && checks[5].passes && checks[6].passes && checks[7].passes;
      assert checks[8].passes && checks[9].passes && checks[10].passes;
      var id := s.nextProposalId;
      var key := ProposalKey(req.clubId, id);
      Step(Ok(id), s.(nextProposalId := id + 1,
                      proposals := s.proposals[key := NewProposal(env, req)],
                      proposalCountByClub := s.proposalCountByClub[req.clubId := CountOf(s, req.clubId) + 1]))
  }

  /** The response of a proposal, as the source's chain of early returns
      computes it: the first failing condition's code, or the old counter. */
  lemma ProposeResponse(s: State, env: Env, req: ProposalRequest)
    ensures ProposeInvestment(s, env, req).response ==
      if req.clubId <= 0 then Err(InvalidClubId)
      else if !env.ClubActive(req.clubId) then Err(ClubNotActive)
      else if CountOf(s, req.clubId) >= s.maxProposalsPerClub then Err(MaxProposalsExceeded)
      else if req.amount <= 0 then Err(InvalidProposalAmount)
      else if req.target == env.caller then Err(InvalidProposalTarget)
      else if req.duration <= 0 then Err(InvalidProposalDuration)
      else if |req.description| == 0 || |req.description| > MaxDescriptionLength then Err(InvalidProposalDescription)
      else if req.riskLevel > MaxRiskLevel then Err(InvalidRiskLevel)
      else if req.expectedReturn <= 0 then Err(InvalidExpectedReturn)
      else if !env.CallerIsMember(req.clubId) then Err(NotAuthorized)
      else if env.Funds(req.clubId) < req.amount then Err(InsufficientStake)
      else Ok(s.nextProposalId)
  {
    ProposeVerdictChain(s, env, req);
  }

  /** A successful proposal stores one new `open` record with zero
      tallies, created now by the caller, under the old id counter; bumps
      its club's counter by one; and changes nothing else. */
  lemma ProposeStoresOpenProposal(s: State, env: Env, req: ProposalRequest)
    requires ProposalAcceptable(s, env, req)
    ensures
      var r := ProposeInvestment(s, env, req);
      var key := ProposalKey(req.clubId, s.nextProposalId);
      && r.response == Ok(s.nextProposalId)
      && r.next.nextProposalId == s.nextProposalId + 1
      && r.next.proposals.Keys == s.proposals.Keys + {key}
      && r.next.proposals[key] == NewProposal(env, req)
      && r.next.proposals[key].status == Open
      && r.next.proposals[key].votesFor == r.next.proposals[key].votesAgainst == 0
      && r.next.proposals[key].startTime == env.blockHeight
      && r.next.proposals[key].proposer == env.caller
      && (forall k | k in s.proposals && k != key :: r.next.proposals[k] == s.proposals[k])
      && CountOf(r.next, req.clubId) == CountOf(s, req.clubId) + 1
      && (forall c | c != req.clubId :: CountOf(r.next, c) == CountOf(s, c))
      && r.next.votes == s.votes
      && r.next.transfers == s.transfers
      && r.next.authorityContract == s.authorityContract
      && r.next.maxProposalsPerClub == s.maxProposalsPerClub
      && r.next.votingPeriod == s.votingPeriod
  {
  }

  // ---------------------------------------------------------------------
  // Vote

  /** Votes are accepted while fewer than votingPeriod ticks have passed
      since the proposal was created. */
  predicate InVotingWindow(s: State, env: Env, p: Proposal) {
    env.blockHeight - p.startTime < s.votingPeriod
  }

  /** The six checks of `voteOnProposal` once the proposal is found. */
  function VoteChecks(s: State, env: Env, key: ProposalKey, p: Proposal): seq<Check>
  {
    [ Check(env.ClubActive(key.clubId), ClubNotActive),
      Check(env.CallerIsMember(key.clubId), NotAuthorized),
      Check(p.status == Open, ProposalNotOpen),
      Check(InVotingWindow(s, env, p), VotingClosed),
      Check(VoteKey(key.clubId, key.proposalId, env.caller) !in s.votes, AlreadyVoted),
      Check(env.CallerStake(key.clubId) > 0, InsufficientStake) ]
  }

  /** The ordered checks of a ballot say the same as the source's chain of
      early returns. */
  lemma VoteVerdictChain(s: State, env: Env, key: ProposalKey, p: Proposal)
    ensures Verdict(VoteChecks(s, env, key, p)) ==
      if !env.ClubActive(key.clubId) then Some(ClubNotActive)
      else if !env.CallerIsMember(key.clubId) then Some(NotAuthorized)
      else if p.status != Open then Some(ProposalNotOpen)
      else if env.blockHeight - p.startTime >= s.votingPeriod then Some(VotingClosed)
      else if VoteKey(key.clubId, key.proposalId, env.caller) in s.votes then Some(AlreadyVoted)
      else if env.CallerStake(key.clubId) <= 0 then Some(InsufficientStake)
      else None
  {
    var c := VoteChecks(s, env, key, p);
    assert c[0..] == c;
    VerdictStep(c, 0);
    VerdictStep(c, 1);
    VerdictStep(c, 2);
    VerdictStep(c, 3);
    VerdictStep(c, 4);
    VerdictStep(c, 5);
    assert c[6..] == [];
  }

  /** `p` with the whole `stake` added to the side the ballot names. */
  function Tallied(p: Proposal, ballot: bool, stake: int): Proposal {
    if ballot then p.(votesFor := p.votesFor + stake)
    else p.(votesAgainst := p.votesAgainst + stake)
  }

  function VoteOnProposal(s: State, env: Env, clubId: int, proposalId: int, ballot: bool): (r: Step<bool>)
    ensures r.response.Refused? <==> ProposalKey(clubId, proposalId) !in s.proposals
    ensures r.response.Ok? <==>
      var key := ProposalKey(clubId, proposalId);
      && key in s.proposals
      && env.ClubActive(clubId)
      && env.CallerIsMember(clubId)
      && s.proposals[key].status == Open
      && InVotingWindow(s, env, s.proposals[key])
      && VoteKey(clubId, proposalId, env.caller) !in s.votes
      && env.CallerStake(clubId) > 0
    ensures !r.response.Ok? ==> r.next == s
  {
    var key := ProposalKey(clubId, proposalId);
    if key !in s.proposals then Step(Refused, s)
    else
      var p := s.proposals[key];
      var checks := VoteChecks(s, env, key, p);
      match Verdict(checks)
      case Some(e) => Step(Err(e), s)
      case None =>
        assert checks[0].passes && checks[1].passes && checks[2].passes;
        assert checks[3].passes && checks[4].passes && checks[5].passes;
        Step(Ok(true), s.(votes := s.votes[VoteKey(clubId, proposalId, env.caller) := ballot],
                          proposals := s.proposals[key := Tallied(p, ballot, env.CallerStake(clubId))]))
  }

  /** The response of a ballot, as the source's chain of early returns
      computes it. */
  lemma VoteResponse(s: State, env: Env, clubId: int, proposalId: int, ballot: bool)
    ensures VoteOnProposal(s, env, clubId, proposalId, ballot).response ==
      var key := ProposalKey(clubId, proposalId);
      if key !in s.proposals then Refused
      else if !env.ClubActive(clubId) then Err(ClubNotActive)
      else if !env.CallerIsMember(clubId) then Err(NotAuthorized)
      else if s.proposals[key].status != Open then Err(ProposalNotOpen)
      else if env.blockHeight - s.proposals[key].startTime >= s.votingPeriod then Err(VotingClosed)
      else if VoteKey(clubId, proposalId, env.caller) in s.votes then Err(AlreadyVoted)
      else if env.CallerStake(clubId) <= 0 then Err(InsufficientStake)
      else Ok(true)
  {
    var key := ProposalKey(clubId, proposalId);
    if key in s.proposals {
      VoteVerdictChain(s, env, key, s.proposals[key]);
    }
  }

  /** A successful ballot is recorded under the voter's key and adds the
      voter's whole stake to exactly one tally of that one proposal;
      nothing else changes. */
  lemma VoteAddsStake(s: State, env: Env, clubId: int, proposalId: int, ballot: bool)
    requires VoteOnProposal(s, env, clubId, proposalId, ballot).response.Ok?
    ensures
      var r := VoteOnProposal(s, env, clubId, proposalId, ballot);
      var key := ProposalKey(clubId, proposalId);
      var p := s.proposals[key];
      var stake := env.CallerStake(clubId);
      && r.response == Ok(true)
      && stake > 0
      && VoteKey(clubId, proposalId, env.caller) !in s.votes
      && r.next.votes == s.votes[VoteKey(clubId, proposalId, env.caller) := ballot]
      && r.next.proposals.Keys == s.proposals.Keys
      && (forall k | k in s.proposals && k != key :: r.next.proposals[k] == s.proposals[k])
      && r.next.proposals[key].votesFor == p.votesFor + (if ballot then stake else 0)
      && r.next.proposals[key].votesAgainst == p.votesAgainst + (if ballot then 0 else stake)
      && r.next.proposals[key].(votesFor := p.votesFor, votesAgainst := p.votesAgainst) == p
      && r.next.(votes := s.votes, proposals := s.proposals) == s
  {
  }

  // ---------------------------------------------------------------------
  // Execute

  /** The four checks of `executeProposal` once the proposal is found. */
  function ExecuteChecks(s: State, env: Env, key: ProposalKey, p: Proposal): seq<Check>
  {
    [ Check(env.ClubActive(key.clubId), ClubNotActive),
      Check(p.status == Open, ProposalNotOpen),
      Check(!InVotingWindow(s, env, p), VotingClosed),
      Check(p.votesFor >= VotingThreshold, VotingThresholdNotMet) ]
  }

  /** The ordered checks of an execution say the same as the source's
      chain of early returns. */
  lemma ExecuteVerdictChain(s: State, env: Env, key: ProposalKey, p: Proposal)
    ensures Verdict(ExecuteChecks(s, env, key, p)) ==
      if !env.ClubActive(key.clubId) then Some(ClubNotActive)
      else if p.status != Open then Some(ProposalNotOpen)
      else if env.blockHeight - p.startTime < s.votingPeriod then Some(VotingClosed)
      else if p.votesFor < VotingThreshold then Some(VotingThresholdNotMet)
      else None
  {
    var c := ExecuteChecks(s, env, key, p);
    assert c[0..] == c;
    VerdictStep(c, 0);
    VerdictStep(c, 1);
    VerdictStep(c, 2);
    VerdictStep(c, 3);
    assert c[4..] == [];
  }

  function ExecuteProposal(s: State, env: Env, clubId: int, proposalId: int): (r: Step<bool>)
    ensures r.response.Refused? <==> ProposalKey(clubId, proposalId) !in s.proposals
    ensures r.response.Ok? <==>
      var key := ProposalKey(clubId, proposalId);
      && key in s.proposals
      && env.ClubActive(clubId)
      && s.proposals[key].status == Open
      && env.blockHeight - s.proposals[key].startTime >= s.votingPeriod
      && s.proposals[key].votesFor >= VotingThreshold
    ensures !r.response.Ok? ==> r.next == s
    ensures r.response.Ok? ==>
      var key := ProposalKey(clubId, proposalId);
      var p := s.proposals[key];
      && r.response.value
      && r.next.transfers == s.transfers + [Transfer(clubId, p.amount, p.target)]
      && r.next.proposals == s.proposals[key := p.(status := Executed)]
      && r.next.(transfers := s.transfers, proposals := s.proposals) == s
  {
    var key := ProposalKey(clubId, proposalId);
    if key !in s.proposals then Step(Refused, s)
    else
      var p := s.proposals[key];
      var checks := ExecuteChecks(s, env, key, p);
      match Verdict(checks)
      case Some(e) => Step(Err(e), s)
      case None =>
        assert checks[0].passes && checks[1].passes && checks[2].passes && checks[3].passes;
        Step(Ok(true), s.(transfers := s.transfers + [Transfer(clubId, p.amount, p.target)],
                          proposals := s.proposals[key := p.(status := Executed)]))
  }

  /** The response of an execution, as the source's chain of early
      returns computes it. */
  lemma ExecuteResponse(s: State, env: Env, clubId: int, proposalId: int)
    ensures ExecuteProposal(s, env, clubId, proposalId).response ==
      var key := ProposalKey(clubId, proposalId);
      if key !in s.proposals then Refused
      else if !env.ClubActive(clubId) then Err(ClubNotActive)
      else if s.proposals[key].status != Open then Err(ProposalNotOpen)
      else if env.blockHeight - s.proposals[key].startTime < s.votingPeriod then Err(VotingClosed)
      else if s.proposals[key].votesFor < VotingThreshold then Err(VotingThresholdNotMet)
      else Ok(true)
  {
    var key := ProposalKey(clubId, proposalId);
    if key in s.proposals {
      ExecuteVerdictChain(s, env, key, s.proposals[key]);
    }
  }

  // ---------------------------------------------------------------------
  // Close

  function CloseProposal(s: State, env: Env, clubId: int, proposalId: int): (r: Step<bool>)
    ensures r.response.Refused? <==>
      var key := ProposalKey(clubId, proposalId);
      key !in s.proposals || s.proposals[key].proposer != env.caller
    ensures r.response.Ok? <==>
      var key := ProposalKey(clubId, proposalId);
      key in s.proposals && s.proposals[key].proposer == env.caller && s.proposals[key].status == Open
    ensures r.response.Err? ==> r.response.error == ProposalNotOpen
    ensures !r.response.Ok? ==> r.next == s
    ensures r.response.Ok? ==>
      var key := ProposalKey(clubId, proposalId);
      r.response.value && r.next == s.(proposals := s.proposals[key := s.proposals[key].(status := Closed)])
  {
    var key := ProposalKey(clubId, proposalId);
    if key !in s.proposals then Step(Refused, s)
    else
      var p := s.proposals[key];
      if p.proposer != env.caller then Step(Refused, s)
      else if p.status != Open then Step(Err(ProposalNotOpen), s)
      else Step(Ok(true), s.(proposals := s.proposals[key := p.(status := Closed)]))
  }

  // ---------------------------------------------------------------------
  // Invariant

  /** What every stored proposal satisfies, given the checks it passed. */
  ghost predicate WellFormed(key: ProposalKey, p: Proposal) {
    && key.clubId > 0
    && p.amount > 0
    && p.target != p.proposer
    && p.duration > 0
    && 0 < |p.description| <= MaxDescriptionLength
    && p.riskLevel <= MaxRiskLevel
    && p.expectedReturn > 0
    && p.votesFor >= 0
    && p.votesAgainst >= 0
    && (p.status == Executed ==> p.votesFor >= VotingThreshold)
  }

  ghost function ClubKeys(s: State, clubId: int): set<ProposalKey> {
    set k | k in s.proposals && k.clubId == clubId
  }

  ghost function ExecutedKeys(s: State): set<ProposalKey> {
    set k | k in s.proposals && s.proposals[k].status == Executed
  }

  /** Ids below the counter, ballots only on stored proposals, the per-club
      counter equal to the number of proposals the club ever created, and
      as many logged transfers as executed proposals. */
  ghost predicate Inv(s: State) {
    && (forall k | k in s.proposals :: 0 <= k.proposalId < s.nextProposalId && WellFormed(k, s.proposals[k]))
    && (forall v | v in s.votes :: v.Ballot() in s.proposals)
    && (forall c :: CountOf(s, c) == |ClubKeys(s, c)|)
    && |s.transfers| == |ExecutedKeys(s)|
  }
}
