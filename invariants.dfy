/** Every operation keeps ProposalSpec.Inv. */
module ProposalInvariants {
  import opened ProposalTypes
  import opened ProposalSpec

  /** A step that leaves the stores, counters and log alone keeps Inv. */
  lemma SameStoresKeepInv(s: State, s': State)
    requires Inv(s)
    requires s'.proposals == s.proposals && s'.votes == s.votes
    requires s'.proposalCountByClub == s.proposalCountByClub
    requires s'.transfers == s.transfers && s'.nextProposalId == s.nextProposalId
    ensures Inv(s')
  {
    forall c ensures ClubKeys(s', c) == ClubKeys(s, c) {
    }
    assert ExecutedKeys(s') == ExecutedKeys(s);
  }

  /** A step that rewrites one stored proposal, keeping its club, status and
      well-formedness, and touches no counter and no log, keeps Inv. */
  lemma SameShapeKeepsInv(s: State, s': State)
    requires Inv(s)
    requires s'.proposals.Keys == s.proposals.Keys
    requires forall k | k in s.proposals :: s'.proposals[k].status == s.proposals[k].status
    requires forall k | k in s'.proposals :: WellFormed(k, s'.proposals[k])
    requires s.votes.Keys <= s'.votes.Keys
    requires forall v | v in s'.votes :: v.Ballot() in s.proposals
    requires s'.proposalCountByClub == s.proposalCountByClub
    requires s'.transfers == s.transfers && s'.nextProposalId == s.nextProposalId
    ensures Inv(s')
  {
    forall c ensures ClubKeys(s', c) == ClubKeys(s, c) {
    }
    assert ExecutedKeys(s') == ExecutedKeys(s);
  }

  lemma SetAuthorityKeepsInv(s: State, principal: Principal)
    requires Inv(s)
    ensures Inv(SetAuthorityContract(s, principal).next)
  {
    SameStoresKeepInv(s, SetAuthorityContract(s, principal).next);
  }

  lemma SetMaxProposalsKeepsInv(s: State, newMax: int)
    requires Inv(s)
    ensures Inv(SetMaxProposalsPerClub(s, newMax).next)
  {
    SameStoresKeepInv(s, SetMaxProposalsPerClub(s, newMax).next);
  }

  lemma SetVotingPeriodKeepsInv(s: State, newPeriod: int)
    requires Inv(s)
    ensures Inv(SetVotingPeriod(s, newPeriod).next)
  {
    SameStoresKeepInv(s, SetVotingPeriod(s, newPeriod).next);
  }

  /** The new id is above every stored one, so a proposal never replaces
      another and the store grows by exactly one record. */
  lemma ProposeNeverOverwrites(s: State, env: Env, req: ProposalRequest)
    requires Inv(s)
    ensures ProposalKey(req.clubId, s.nextProposalId) !in s.proposals
    ensures ProposeInvestment(s, env, req).response.Ok? ==>
      |ProposeInvestment(s, env, req).next.proposals| == |s.proposals| + 1
  {
    var key := ProposalKey(req.clubId, s.nextProposalId);
    var r := ProposeInvestment(s, env, req);
    if r.response.Ok? {
      ProposeStoresOpenProposal(s, env, req);
      assert r.next.proposals.Keys == s.proposals.Keys + {key};
      assert |r.next.proposals.Keys| == |s.proposals.Keys| + 1;
    }
  }

  /** Adding `key` to the store adds it to its club's key set and to no
      other club's. */
  lemma ClubKeysAfterInsert(s: State, s': State, key: ProposalKey, c: int)
    requires s'.proposals.Keys == s.proposals.Keys + {key}
    ensures ClubKeys(s', c) == if c == key.clubId then ClubKeys(s, c) + {key} else ClubKeys(s, c)
  {
  }

  /** Storing a well-formed record under a fresh key of club `key.clubId`,
      bumping that club's counter and the id counter, keeps Inv. */
  lemma InsertKeepsInv(s: State, key: ProposalKey, p: Proposal)
    requires Inv(s)
    requires key.proposalId == s.nextProposalId && WellFormed(key, p) && p.status == Open
    ensures Inv(s.(nextProposalId := s.nextProposalId + 1,
                   proposals := s.proposals[key := p],
                   proposalCountByClub := s.proposalCountByClub[key.clubId := CountOf(s, key.clubId) + 1]))
  {
    var s' := s.(nextProposalId := s.nextProposalId + 1,
                 proposals := s.proposals[key := p],
                 proposalCountByClub := s.proposalCountByClub[key.clubId := CountOf(s, key.clubId) + 1]);
    assert key !in s.proposals;
    assert s'.proposals.Keys == s.proposals.Keys + {key};
    forall k | k in s'.proposals
      ensures 0 <= k.proposalId < s'.nextProposalId && WellFormed(k, s'.proposals[k])
    {
    }
    forall v | v in s'.votes ensures v.Ballot() in s'.proposals {
    }
    forall c ensures CountOf(s', c) == |ClubKeys(s', c)| {
      ClubKeysAfterInsert(s, s', key, c);
    }
    assert ExecutedKeys(s') == ExecutedKeys(s);
  }

  lemma ProposeKeepsInv(s: State, env: Env, req: ProposalRequest)
    requires Inv(s)
    ensures Inv(ProposeInvestment(s, env, req).next)
  {
    if ProposalAcceptable(s, env, req) {
      ProposeStoresOpenProposal(s, env, req);
      InsertKeepsInv(s, ProposalKey(req.clubId, s.nextProposalId), NewProposal(env, req));
    }
  }

  lemma VoteKeepsInv(s: State, env: Env, clubId: int, proposalId: int, ballot: bool)
    requires Inv(s)
    ensures Inv(VoteOnProposal(s, env, clubId, proposalId, ballot).next)
  {
    var r := VoteOnProposal(s, env, clubId, proposalId, ballot);
    if r.response.Ok? {
      var key := ProposalKey(clubId, proposalId);
      VoteAddsStake(s, env, clubId, proposalId, ballot);
      assert WellFormed(key, r.next.proposals[key]);
      SameShapeKeepsInv(s, r.next);
    }
  }

  lemma ExecuteKeepsInv(s: State, env: Env, clubId: int, proposalId: int)
    requires Inv(s)
    ensures Inv(ExecuteProposal(s, env, clubId, proposalId).next)
  {
    var r := ExecuteProposal(s, env, clubId, proposalId);
    if r.response.Ok? {
      var s' := r.next;
      var key := ProposalKey(clubId, proposalId);
      forall c ensures ClubKeys(s', c) == ClubKeys(s, c) {
      }
      assert key !in ExecutedKeys(s);
      assert ExecutedKeys(s') == ExecutedKeys(s) + {key};
    }
  }

  lemma CloseKeepsInv(s: State, env: Env, clubId: int, proposalId: int)
    requires Inv(s)
    ensures Inv(CloseProposal(s, env, clubId, proposalId).next)
  {
    var r := CloseProposal(s, env, clubId, proposalId);
    if r.response.Ok? {
      var s' := r.next;
      forall c ensures ClubKeys(s', c) == ClubKeys(s, c) {
      }
      assert ExecutedKeys(s') == ExecutedKeys(s);
    }
  }
}
