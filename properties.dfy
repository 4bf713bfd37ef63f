/** Properties of whole call sequences: what only grows, what is decided
    once, and which calls can no longer succeed. */
module ProposalProperties {
  import opened ProposalTypes
  import opened ProposalSpec
  import opened ProposalInvariants

  /** One call to the manager. */
  datatype Op =
    | SetAuthority(principal: Principal)
    | SetMaxProposals(newMax: int)
    | SetPeriod(newPeriod: int)
    | Propose(req: ProposalRequest)
    | Vote(clubId: int, proposalId: int, ballot: bool)
    | Execute(clubId: int, proposalId: int)
    | Close(clubId: int, proposalId: int)

  /** A call together with the outside world it runs against. */
  datatype Call = Call(env: Env, op: Op)

  function Next(s: State, call: Call): State {
    match call.op
    case SetAuthority(principal) => SetAuthorityContract(s, principal).next
    case SetMaxProposals(newMax) => SetMaxProposalsPerClub(s, newMax).next
    case SetPeriod(newPeriod) => SetVotingPeriod(s, newPeriod).next
    case Propose(req) => ProposeInvestment(s, call.env, req).next
    case Vote(clubId, proposalId, ballot) => VoteOnProposal(s, call.env, clubId, proposalId, ballot).next
    case Execute(clubId, proposalId) => ExecuteProposal(s, call.env, clubId, proposalId).next
    case Close(clubId, proposalId) => CloseProposal(s, call.env, clubId, proposalId).next
  }

  /** The state after the calls, in order. */
  function Run(s: State, calls: seq<Call>): State
    decreases |calls|
  {
    if calls == [] then s else Run(Next(s, calls[0]), calls[1..])
  }

  /** A later version of a proposal: the creation-time fields never change,
      the tallies only grow, and a proposal that left `open` is frozen. */
  ghost predicate Evolves(p: Proposal, p': Proposal) {
    && p'.proposer == p.proposer
    && p'.amount == p.amount
    && p'.target == p.target
    && p'.duration == p.duration
    && p'.startTime == p.startTime
    && p'.description == p.description
    && p'.riskLevel == p.riskLevel
    && p'.expectedReturn == p.expectedReturn
    && p.votesFor <= p'.votesFor
    && p.votesAgainst <= p'.votesAgainst
    && p.votesFor + p.votesAgainst <= p'.votesFor + p'.votesAgainst
    && (p.status != Open ==> p' == p)
  }

  /** A later state: ids, counters and the transfer log only move forward,
      a stored authority stays, and no proposal or ballot is lost or
      rewritten. */
  ghost predicate Grows(s: State, s': State) {
    && s.nextProposalId <= s'.nextProposalId
    && (s.authorityContract.Some? ==> s'.authorityContract == s.authorityContract)
    && (forall k | k in s.proposals :: k in s'.proposals && Evolves(s.proposals[k], s'.proposals[k]))
    && (forall v | v in s.votes :: v in s'.votes && s'.votes[v] == s.votes[v])
    && (forall c :: CountOf(s, c) <= CountOf(s', c))
    && s.transfers <= s'.transfers
  }

  lemma GrowsTransitive(s1: State, s2: State, s3: State)
    requires Grows(s1, s2) && Grows(s2, s3)
    ensures Grows(s1, s3)
  {
    forall k | k in s1.proposals
      ensures k in s3.proposals && Evolves(s1.proposals[k], s3.proposals[k])
    {
      assert k in s2.proposals;
    }
    forall v | v in s1.votes ensures v in s3.votes && s3.votes[v] == s1.votes[v] {
      assert v in s2.votes;
    }
    forall c ensures CountOf(s1, c) <= CountOf(s3, c) {
      assert CountOf(s1, c) <= CountOf(s2, c);
    }
  }

  lemma NextKeepsInv(s: State, call: Call)
    requires Inv(s)
    ensures Inv(Next(s, call))
  {
    match call.op
    case SetAuthority(principal) => SetAuthorityKeepsInv(s, principal);
    case SetMaxProposals(newMax) => SetMaxProposalsKeepsInv(s, newMax);
    case SetPeriod(newPeriod) => SetVotingPeriodKeepsInv(s, newPeriod);
    case Propose(req) => ProposeKeepsInv(s, call.env, req);
    case Vote(clubId, proposalId, ballot) => VoteKeepsInv(s, call.env, clubId, proposalId, ballot);
    case Execute(clubId, proposalId) => ExecuteKeepsInv(s, call.env, clubId, proposalId);
    case Close(clubId, proposalId) => CloseKeepsInv(s, call.env, clubId, proposalId);
  }

  /** A step that keeps every store and counter keeps the state grown. */
  lemma SameStoresGrow(s: State, s': State)
    requires s'.proposals == s.proposals && s'.votes == s.votes
    requires s'.proposalCountByClub == s.proposalCountByClub
    requires s'.transfers == s.transfers && s'.nextProposalId == s.nextProposalId
    requires s.authorityContract.Some? ==> s'.authorityContract == s.authorityContract
    ensures Grows(s, s')
  {
  }

  lemma ProposeGrows(s: State, env: Env, req: ProposalRequest)
    requires Inv(s)
    ensures Grows(s, ProposeInvestment(s, env, req).next)
  {
    var r := ProposeInvestment(s, env, req);
    if r.response.Ok? {
      ProposeStoresOpenProposal(s, env, req);
      ProposeNeverOverwrites(s, env, req);
      var key := ProposalKey(req.clubId, s.nextProposalId);
      forall k | k in s.proposals ensures k in r.next.proposals && Evolves(s.proposals[k], r.next.proposals[k]) {
        assert k != key;
      }
      forall c ensures CountOf(s, c) <= CountOf(r.next, c) {
      }
    } else {
      SameStoresGrow(s, r.next);
    }
  }

  lemma VoteGrows(s: State, env: Env, clubId: int, proposalId: int, ballot: bool)
    requires Inv(s)
    ensures Grows(s, VoteOnProposal(s, env, clubId, proposalId, ballot).next)
  {
    var r := VoteOnProposal(s, env, clubId, proposalId, ballot);
    if r.response.Ok? {
      var key := ProposalKey(clubId, proposalId);
      var s' := r.next;
      VoteAddsStake(s, env, clubId, proposalId, ballot);
      forall k | k in s.proposals ensures k in s'.proposals && Evolves(s.proposals[k], s'.proposals[k]) {
        if k == key {
          assert s.proposals[k].status == Open;
        }
      }
      forall c ensures CountOf(s, c) <= CountOf(s', c) {
      }
    } else {
      SameStoresGrow(s, r.next);
    }
  }

  lemma ExecuteGrows(s: State, env: Env, clubId: int, proposalId: int)
    ensures Grows(s, ExecuteProposal(s, env, clubId, proposalId).next)
  {
    var r := ExecuteProposal(s, env, clubId, proposalId);
    if r.response.Ok? {
      var key := ProposalKey(clubId, proposalId);
      var s' := r.next;
      forall k | k in s.proposals ensures k in s'.proposals && Evolves(s.proposals[k], s'.proposals[k]) {
        if k == key {
          assert s.proposals[k].status == Open;
        }
      }
      forall c ensures CountOf(s, c) <= CountOf(s', c) {
      }
    } else {
      SameStoresGrow(s, r.next);
    }
  }

  lemma CloseGrows(s: State, env: Env, clubId: int, proposalId: int)
    ensures Grows(s, CloseProposal(s, env, clubId, proposalId).next)
  {
    var r := CloseProposal(s, env, clubId, proposalId);
    if r.response.Ok? {
      var key := ProposalKey(clubId, proposalId);
      var s' := r.next;
      forall k | k in s.proposals ensures k in s'.proposals && Evolves(s.proposals[k], s'.proposals[k]) {
        if k == key {
          assert s.proposals[k].status == Open;
        }
      }
      forall c ensures CountOf(s, c) <= CountOf(s', c) {
      }
    } else {
      SameStoresGrow(s, r.next);
    }
  }

  lemma NextGrows(s: State, call: Call)
    requires Inv(s)
    ensures Grows(s, Next(s, call))
  {
    match call.op
    case SetAuthority(principal) => SameStoresGrow(s, Next(s, call));
    case SetMaxProposals(newMax) => SameStoresGrow(s, Next(s, call));
    case SetPeriod(newPeriod) => SameStoresGrow(s, Next(s, call));
    case Propose(req) => ProposeGrows(s, call.env, req);
    case Vote(clubId, proposalId, ballot) => VoteGrows(s, call.env, clubId, proposalId, ballot);
    case Execute(clubId, proposalId) => ExecuteGrows(s, call.env, clubId, proposalId);
    case Close(clubId, proposalId) => CloseGrows(s, call.env, clubId, proposalId);
  }

  /** Inv holds after any sequence of calls from a state that satisfies it. */
  lemma {:induction false} RunKeepsInv(s: State, calls: seq<Call>)
    requires Inv(s)
    ensures Inv(Run(s, calls))
    decreases |calls|
  {
    if calls != [] {
      NextKeepsInv(s, calls[0]);
      RunKeepsInv(Next(s, calls[0]), calls[1..]);
    }
  }

  /** Along any sequence of calls the state only grows: tallies never
      decrease, ids and counters never go back, ballots and terminal
      proposals are never rewritten, transfers are only appended. */
  lemma {:induction false} RunGrows(s: State, calls: seq<Call>)
    requires Inv(s)
    ensures Grows(s, Run(s, calls))
    decreases |calls|
  {
    if calls == [] {
    } else {
      var s1 := Next(s, calls[0]);
      NextGrows(s, calls[0]);
      NextKeepsInv(s, calls[0]);
      RunGrows(s1, calls[1..]);
      GrowsTransitive(s, s1, Run(s1, calls[1..]));
    }
  }

  /** Proposal ids are handed out in strictly increasing order, whatever
      the clubs and whatever happens between two proposals. */
  lemma IdsStrictlyIncrease(s: State, env1: Env, req1: ProposalRequest, calls: seq<Call>,
                            env2: Env, req2: ProposalRequest)
    requires Inv(s)
    requires ProposeInvestment(s, env1, req1).response.Ok?
    requires ProposeInvestment(Run(ProposeInvestment(s, env1, req1).next, calls), env2, req2).response.Ok?
    ensures ProposeInvestment(s, env1, req1).response.value
          < ProposeInvestment(Run(ProposeInvestment(s, env1, req1).next, calls), env2, req2).response.value
  {
    var s1 := ProposeInvestment(s, env1, req1).next;
    ProposeKeepsInv(s, env1, req1);
    RunGrows(s1, calls);
  }

  /** After a successful ballot, the same voter can never vote on that
      proposal again; once the club, membership, status and window checks
      pass, the refusal is ALREADY_VOTED. */
  lemma ExactlyOnceVoting(s: State, env: Env, clubId: int, proposalId: int, ballot: bool,
                          calls: seq<Call>, env2: Env, ballot2: bool)
    requires Inv(s)
    requires VoteOnProposal(s, env, clubId, proposalId, ballot).response.Ok?
    requires env2.caller == env.caller
    ensures
      var s2 := Run(VoteOnProposal(s, env, clubId, proposalId, ballot).next, calls);
      var r2 := VoteOnProposal(s2, env2, clubId, proposalId, ballot2);
      && r2.response.Err?
      && r2.next == s2
      && (env2.ClubActive(clubId) && env2.CallerIsMember(clubId)
          && s2.proposals[ProposalKey(clubId, proposalId)].status == Open
          && InVotingWindow(s2, env2, s2.proposals[ProposalKey(clubId, proposalId)])
          ==> r2.response == Err(AlreadyVoted))
  {
    var s1 := VoteOnProposal(s, env, clubId, proposalId, ballot).next;
    VoteKeepsInv(s, env, clubId, proposalId, ballot);
    VoteAddsStake(s, env, clubId, proposalId, ballot);
    RunGrows(s1, calls);
    var s2 := Run(s1, calls);
    var vk := VoteKey(clubId, proposalId, env.caller);
    assert vk in s1.votes;
    assert vk in s2.votes;
    assert ProposalKey(clubId, proposalId) in s2.proposals;
    var p := s2.proposals[ProposalKey(clubId, proposalId)];
    VoteVerdictChain(s2, env2, ProposalKey(clubId, proposalId), p);
  }

  /** At any one block height, a proposal cannot both accept a ballot and
      be executed: the two windows are disjoint. */
  lemma VoteAndExecuteExclusive(s: State, env1: Env, env2: Env, clubId: int, proposalId: int, ballot: bool)
    requires env1.blockHeight == env2.blockHeight
    ensures !(VoteOnProposal(s, env1, clubId, proposalId, ballot).response.Ok?
              && ExecuteProposal(s, env2, clubId, proposalId).response.Ok?)
  {
  }

  /** A proposal that is executed or closed stays exactly as it is, and
      every later vote, execute or close on it fails without effect. */
  lemma TerminalIsFinal(s: State, clubId: int, proposalId: int, calls: seq<Call>, env: Env, ballot: bool)
    requires Inv(s)
    requires ProposalKey(clubId, proposalId) in s.proposals
    requires s.proposals[ProposalKey(clubId, proposalId)].status != Open
    ensures
      var s2 := Run(s, calls);
      && ProposalKey(clubId, proposalId) in s2.proposals
      && s2.proposals[ProposalKey(clubId, proposalId)] == s.proposals[ProposalKey(clubId, proposalId)]
      && !VoteOnProposal(s2, env, clubId, proposalId, ballot).response.Ok?
      && !ExecuteProposal(s2, env, clubId, proposalId).response.Ok?
      && !CloseProposal(s2, env, clubId, proposalId).response.Ok?
      && VoteOnProposal(s2, env, clubId, proposalId, ballot).next == s2
      && ExecuteProposal(s2, env, clubId, proposalId).next == s2
      && CloseProposal(s2, env, clubId, proposalId).next == s2
  {
    RunGrows(s, calls);
  }

  /** The authority is write-once: after it is set, it survives every later
      call and every later attempt to set it fails without effect. */
  lemma AuthorityWriteOnce(s: State, principal: Principal, calls: seq<Call>, other: Principal)
    requires Inv(s)
    requires SetAuthorityContract(s, principal).response.Ok?
    ensures
      var s2 := Run(SetAuthorityContract(s, principal).next, calls);
      && s2.authorityContract == Some(principal)
      && SetAuthorityContract(s2, other).response == Err(NotAuthorized)
      && SetAuthorityContract(s2, other).next == s2
  {
    SetAuthorityKeepsInv(s, principal);
    RunGrows(SetAuthorityContract(s, principal).next, calls);
  }

  /** The setters test the stored principal for truthiness, so storing the
      empty principal uses up the one-time slot and leaves both tunables
      unsettable for good. */
  lemma EmptyAuthorityLocksTunables(s: State, calls: seq<Call>, newMax: int, newPeriod: int)
    requires Inv(s)
    requires SetAuthorityContract(s, "").response.Ok?
    ensures
      var s2 := Run(SetAuthorityContract(s, "").next, calls);
      && SetMaxProposalsPerClub(s2, newMax).response == Err(NotAuthorized)
      && SetVotingPeriod(s2, newPeriod).response == Err(NotAuthorized)
  {
    SetAuthorityKeepsInv(s, "");
    RunGrows(SetAuthorityContract(s, "").next, calls);
  }

  /** A fresh manager with an authority and one open proposal (1, 0)
      created at height 0, under the default period of 144. */
  function OneOpenProposal(): State {
    var s0 := SetAuthorityContract(Initial(), "AUTH").next;
    ProposeInvestment(s0, SuiteWorld(0, SuiteMember),
      ProposalRequest(1, 500, "ST2TARGET", 30, "Invest in DeFi", 5, 20)).next
  }

  lemma OneOpenProposalStored()
    ensures Inv(OneOpenProposal())
    ensures OneOpenProposal().votingPeriod == DefaultVotingPeriod
    ensures OneOpenProposal().votes == map[]
    ensures OneOpenProposal().proposals.Keys == {ProposalKey(1, 0)}
    ensures OneOpenProposal().proposals[ProposalKey(1, 0)] ==
      Proposal("ST1TEST", 500, "ST2TARGET", 30, 0, 0, Open, 0, "Invest in DeFi", 5, 20)
  {
    var s0 := SetAuthorityContract(Initial(), "AUTH").next;
    var req := ProposalRequest(1, 500, "ST2TARGET", 30, "Invest in DeFi", 5, 20);
    SetAuthorityKeepsInv(Initial(), "AUTH");
    assert ProposalAcceptable(s0, SuiteWorld(0, SuiteMember), req);
    ProposeStoresOpenProposal(s0, SuiteWorld(0, SuiteMember), req);
    ProposeKeepsInv(s0, SuiteWorld(0, SuiteMember), req);
  }

  /** The windows are measured against the period stored at call time, and
      the authority may change it between calls: at height 10 a ballot is
      accepted, and after the period is cut to 5 the same proposal can be
      executed at that same height. */
  lemma PeriodCutOpensExecutionEarly()
    ensures
      var v := VoteOnProposal(OneOpenProposal(), SuiteWorld(10, SuiteMember), 1, 0, true);
      var s := SetVotingPeriod(v.next, 5).next;
      && v.response.Ok?
      && ExecuteProposal(s, SuiteWorld(10, SuiteMember), 1, 0).response.Ok?
      && ExecuteProposal(s, SuiteWorld(10, SuiteMember), 1, 0).next.transfers == [Transfer(1, 500, "ST2TARGET")]
  {
    OneOpenProposalStored();
    var s1 := OneOpenProposal();
    VoteAddsStake(s1, SuiteWorld(10, SuiteMember), 1, 0, true);
    var key := ProposalKey(1, 0);
    var v := VoteOnProposal(s1, SuiteWorld(10, SuiteMember), 1, 0, true);
    assert v.response.Ok?;
    var p := v.next.proposals[key];
    assert p.votesFor == 100 && p.status == Open && p.startTime == 0;
    var s := SetVotingPeriod(v.next, 5).next;
    assert s == v.next.(votingPeriod := 5);
    assert s.proposals[key] == p && s.transfers == [];
    assert ExecuteProposal(s, SuiteWorld(10, SuiteMember), 1, 0).response.Ok?;
  }

  /** Raising the period reopens voting on a proposal whose window had
      closed: at height 200 a ballot is refused under the period of 144 and
      accepted once the period is 300. */
  lemma PeriodRaiseReopensVoting()
    ensures VoteOnProposal(OneOpenProposal(), SuiteWorld(200, SuiteMember), 1, 0, true).response == Err(VotingClosed)
    ensures VoteOnProposal(SetVotingPeriod(OneOpenProposal(), 300).next, SuiteWorld(200, SuiteMember), 1, 0, true).response.Ok?
  {
    OneOpenProposalStored();
    var s1 := OneOpenProposal();
    VoteVerdictChain(s1, SuiteWorld(200, SuiteMember), ProposalKey(1, 0), s1.proposals[ProposalKey(1, 0)]);
  }
}
