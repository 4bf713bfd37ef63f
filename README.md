# Investment-club proposal manager

This project models the proposal manager of an investment club. Club
members propose that the club invest an amount of its funds in a target
principal. Members then vote with their stake during a voting window. After
the window closes, a proposal with at least 50 stake in favour can be
executed, which records a transfer. The proposer may instead close it while
it is still open. A one-time authority principal unlocks two tunables: the
per-club proposal limit and the voting period. Every refusal carries one of
the manager's numeric error codes, except the bare refusal. Vote, execute and
close give the bare refusal for a missing proposal, and close gives it to
anyone but the proposer.

The manager is the class `ProposalManagerMock` in
`tests/ProposalManager.test.ts`. It is an object whose methods check their
arguments in a fixed order, return at the first failing check, and
otherwise update its maps, counters and transfer list in place. The model
has the same shape in layers:

- `types.dfy` (module `ProposalTypes`) holds the value types:
  - the error codes and responses;
  - proposals;
  - proposal and vote keys;
  - transfers;
  - `Env`, the collaborators the manager reads but never writes: block height, caller, active clubs, memberships, stakes and club funds.
- `spec.dfy` (module `ProposalSpec`) defines each operation as a pure step function on a `State` value.
  - Proposing, voting and executing are defined by their ordered list of checks. The response is the first failing check (`Verdict`).
  - It also defines `Inv`, the invariant every reachable state satisfies.
- `invariants.dfy` (module `ProposalInvariants`) proves that every operation keeps `Inv`.
- `properties.dfy` (module `ProposalProperties`) states properties of whole call sequences:
  - ids strictly increase;
  - each member votes at most once per proposal;
  - executed and closed proposals are final;
  - the authority can be written only once;
  - tallies, the vote book and the transfer log only grow.
- `manager.dfy` (module `ProposalManagerModel`) holds the class `ProposalManager`.
  - Its fields are the mock's `state` plus its `transfers` list.
  - Each method is the source's early-return if-chain.
  - Each method is proved to produce exactly the response and new state of the matching step function, and to keep `Inv`.
- `scenarios.dfy` (module `ProposalScenarios`) holds the cases of the vitest suite of `ProposalManagerMock`, written as client methods of the class, each proved to give the outcome the suite expects. Two further cases come from the source lines rather than from the suite: `RejectsSecondAuthority` (lines 93-96) and `RejectsTunablesWithoutAuthority` (lines 100-108).

Responses follow the source's three shapes:

- `Ok(value)` is `{ok: true, value}`.
- `Err(e)` is `{ok: false, value: <code>}`.
- `Refused` is the bare `{ok: false, value: false}`. The manager returns it when the proposal is missing, and when someone other than the proposer tries to close it.

Some behaviour the model makes explicit:

- The setters check the stored authority for JavaScript truthiness. Storing the empty principal therefore uses up the one-time slot but leaves both tunables unsettable forever (`EmptyAuthorityLocksTunables`).
- None of the three configuration calls checks who the caller is.
- The risk level has an upper bound of 10 only. Negative risk levels are accepted.
- In one state and at one block height, voting (`height - start < period`) and execution (`height - start >= period`) exclude each other (`VoteAndExecuteExclusive`).
- Both windows are measured against the period stored when the call is made, and the authority can change it at any time. Cutting the period opens execution while voting was still open at the same height (`PeriodCutOpensExecutionEarly`). Raising it reopens voting on a proposal whose window had closed (`PeriodRaiseReopensVoting`).

## Model

| member | source | states |
|---|---|---|
| ProposalTypes.Error.Code | tests/ProposalManager.test.ts:3-23 | each error the manager produces has its numeric code between 100 and 120; the six declared but never produced codes (104, 105, 112, 113, 117, 118) are never returned |
| ProposalTypes.CodeDecodes | tests/ProposalManager.test.ts:3-23 | distinct errors have distinct codes, so every code returned names exactly one error |
| ProposalSpec.Initial | tests/ProposalManager.test.ts:50-58 | the initial state has no proposals, no votes, no transfers and no authority, and satisfies the invariant |
| ProposalSpec.Verdict | tests/ProposalManager.test.ts:121-133 | an ordered list of checks yields no error exactly when every check passes |
| ProposalSpec.VerdictAt | tests/ProposalManager.test.ts:121-133 | when check i is the first to fail, the verdict is check i's error: earlier checks take precedence |
| ProposalSpec.SetAuthorityContract | tests/ProposalManager.test.ts:93-99 | succeeds exactly when no authority is stored, and then stores the principal and changes nothing else; otherwise NOT_AUTHORIZED with no effect |
| ProposalSpec.SetMaxProposalsPerClub | tests/ProposalManager.test.ts:100-105 | succeeds exactly when a truthy authority is stored and the new limit is positive, and then changes only the limit; otherwise NOT_AUTHORIZED with no effect |
| ProposalSpec.SetVotingPeriod | tests/ProposalManager.test.ts:106-111 | succeeds exactly when a truthy authority is stored and the new period is positive, and then changes only the period; otherwise NOT_AUTHORIZED with no effect |
| ProposalSpec.ProposeVerdictChain | tests/ProposalManager.test.ts:121-133 | the verdict over the eleven proposal checks equals the source's nested chain: club id, active club, club limit, amount, target, duration, description, risk, return, membership, funds, in that order with their codes |
| ProposalSpec.ProposeInvestment | tests/ProposalManager.test.ts:112-152 | succeeds exactly when all eleven checks pass; a refusal is an error code and leaves the state unchanged; a success returns the old id counter and advances it by one |
| ProposalSpec.ProposeResponse | tests/ProposalManager.test.ts:121-151 | the response of a proposal is the code of the first failing check, in the source's order, or else Ok of the old id counter |
| ProposalSpec.ProposeStoresOpenProposal | tests/ProposalManager.test.ts:134-151 | a successful proposal stores an open record (caller as proposer, zero tallies, start at the current height) under (club, new id), bumps that club's count, and leaves votes, transfers and tunables alone |
| ProposalSpec.VoteVerdictChain | tests/ProposalManager.test.ts:157-164 | the verdict over the six vote checks equals the source's chain: active club, membership, open status, window, ballot not yet cast, positive stake |
| ProposalSpec.VoteOnProposal | tests/ProposalManager.test.ts:153-173 | the bare refusal happens exactly when the proposal is missing; success happens exactly when all six checks pass; every failure leaves the state unchanged |
| ProposalSpec.VoteResponse | tests/ProposalManager.test.ts:154-172 | the response of a ballot is the bare refusal for a missing proposal, else the code of the first failing check in the source's order, else Ok(true) |
| ProposalSpec.VoteAddsStake | tests/ProposalManager.test.ts:161-172 | a successful vote records the ballot under (club, id, caller) and adds the caller's stake to the chosen tally of that proposal only, changing nothing else |
| ProposalSpec.ExecuteVerdictChain | tests/ProposalManager.test.ts:178-181 | the verdict over the four execute checks equals the source's chain: active club, open status, window closed, at least 50 votes for |
| ProposalSpec.ExecuteProposal | tests/ProposalManager.test.ts:174-186 | the bare refusal happens exactly when the proposal is missing; success happens exactly when the four checks pass, and then appends one transfer (club, amount, target), marks the proposal executed and changes nothing else; failures have no effect |
| ProposalSpec.ExecuteResponse | tests/ProposalManager.test.ts:175-185 | the response of an execution is the bare refusal for a missing proposal, else the code of the first failing check in the source's order, else Ok(true) |
| ProposalSpec.CloseProposal | tests/ProposalManager.test.ts:187-196 | the bare refusal happens exactly when the proposal is missing or the caller is not its proposer; the only coded error is PROPOSAL_NOT_OPEN; success happens exactly when the proposer closes an open proposal, and then only its status changes |
| ProposalInvariants.SetAuthorityKeepsInv | tests/ProposalManager.test.ts:93-99 | setting the authority keeps the invariant |
| ProposalInvariants.SetMaxProposalsKeepsInv | tests/ProposalManager.test.ts:100-105 | changing the club limit keeps the invariant |
| ProposalInvariants.SetVotingPeriodKeepsInv | tests/ProposalManager.test.ts:106-111 | changing the voting period keeps the invariant |
| ProposalInvariants.ProposeKeepsInv | tests/ProposalManager.test.ts:112-152 | proposing keeps the invariant: ids stay below the counter, records stay well formed, and each club's count equals its number of stored proposals |
| ProposalInvariants.ProposeNeverOverwrites | tests/ProposalManager.test.ts:134-150 | the key a proposal is stored under is never already taken, so a success grows the store by exactly one record |
| ProposalInvariants.VoteKeepsInv | tests/ProposalManager.test.ts:153-173 | voting keeps the invariant: every ballot refers to a stored proposal and tallies stay non-negative |
| ProposalInvariants.ExecuteKeepsInv | tests/ProposalManager.test.ts:174-186 | executing keeps the invariant: the transfer log has as many entries as there are executed proposals, and every executed proposal had at least 50 votes for |
| ProposalInvariants.CloseKeepsInv | tests/ProposalManager.test.ts:187-196 | closing keeps the invariant |
| ProposalProperties.RunKeepsInv | tests/ProposalManager.test.ts:41-197 | the invariant holds after any sequence of calls started from a state that satisfies it |
| ProposalProperties.RunGrows | tests/ProposalManager.test.ts:41-197 | along any sequence of calls: the id counter, the club counts and the tallies never decrease; proposals, ballots and the authority are never removed; a proposal's fixed fields never change and a non-open proposal never changes at all; the transfer log is only appended to |
| ProposalProperties.IdsStrictlyIncrease | tests/ProposalManager.test.ts:134-150 | a later successful proposal, in any club and after any calls, gets a strictly larger id |
| ProposalProperties.ExactlyOnceVoting | tests/ProposalManager.test.ts:161-165 | after a voter's successful ballot, every later vote by the same voter on that proposal fails without effect, and fails with ALREADY_VOTED whenever the earlier checks pass |
| ProposalProperties.VoteAndExecuteExclusive | tests/ProposalManager.test.ts:160-180 | in one state and at one block height, a proposal cannot both accept a vote and be executed |
| ProposalProperties.OneOpenProposalStored | tests/ProposalManager.test.ts:134-151 | setting an authority and then making the usual proposal at height 0 yields a valid state holding exactly one open record (1, 0), with no ballots and the default period |
| ProposalProperties.PeriodCutOpensExecutionEarly | tests/ProposalManager.test.ts:106-111 | because the windows read the period current at call time, a vote at height 10 succeeds, and after the period is cut to 5, execution at that same height also succeeds and logs the transfer |
| ProposalProperties.PeriodRaiseReopensVoting | tests/ProposalManager.test.ts:160 | at height 200 a ballot is refused with VOTING_CLOSED under the period of 144, and the same ballot succeeds once the period is raised to 300 |
| ProposalProperties.TerminalIsFinal | tests/ProposalManager.test.ts:159-192 | an executed or closed proposal stays exactly as it is after any calls, and every later vote, execute or close on it fails without effect |
| ProposalProperties.AuthorityWriteOnce | tests/ProposalManager.test.ts:93-99 | once set, the authority survives any sequence of calls, and every later attempt to set it fails with NOT_AUTHORIZED and no effect |
| ProposalProperties.EmptyAuthorityLocksTunables | tests/ProposalManager.test.ts:94-108 | after the empty principal is stored as authority, both setters fail with NOT_AUTHORIZED after any sequence of calls |
| ProposalManagerModel.ProposalManager.constructor | tests/ProposalManager.test.ts:66-86 | a new manager is in the initial state and valid |
| ProposalManagerModel.ProposalManager.SetAuthorityContract | tests/ProposalManager.test.ts:93-99 | the method's response and new fields are those of the step function, and validity is kept |
| ProposalManagerModel.ProposalManager.SetMaxProposalsPerClub | tests/ProposalManager.test.ts:100-105 | the method's response and new fields are those of the step function, and validity is kept |
| ProposalManagerModel.ProposalManager.SetVotingPeriod | tests/ProposalManager.test.ts:106-111 | the method's response and new fields are those of the step function, and validity is kept |
| ProposalManagerModel.ProposalManager.ProposeInvestment | tests/ProposalManager.test.ts:112-152 | the if-chain's response and in-place updates are those of the step function, and validity is kept |
| ProposalManagerModel.ProposalManager.VoteOnProposal | tests/ProposalManager.test.ts:153-173 | the if-chain's response and in-place updates are those of the step function, and validity is kept |
| ProposalManagerModel.ProposalManager.ExecuteProposal | tests/ProposalManager.test.ts:174-186 | the if-chain's response, the transfer it appends and the status update are those of the step function, and validity is kept |
| ProposalManagerModel.ProposalManager.CloseProposal | tests/ProposalManager.test.ts:187-196 | the if-chain's response and status update are those of the step function, and validity is kept |
| ProposalSpec.SuiteWorld | tests/ProposalManager.test.ts:200-207 | the suite's collaborators at a given height and caller: club 1 is active with 1000 in funds, the caller is a member exactly when it is ST1TEST, and ST1TEST has stake 100 |
| ProposalScenarios.WithProposal | tests/ProposalManager.test.ts:229 | after the usual proposal, a new manager holds proposal (1, 0): open, amount 500, no votes, started at height 0 |
| ProposalScenarios.CreatesProposal | tests/ProposalManager.test.ts:208-216 | the first proposal gets id 0 and stores the given amount, target and description |
| ProposalScenarios.RejectsInvalidClubId | tests/ProposalManager.test.ts:217-221 | club id 0 is refused with code 111 |
| ProposalScenarios.RejectsWhenMaxExceeded | tests/ProposalManager.test.ts:222-227 | with a club limit of 0, proposing is refused with code 120 |
| ProposalScenarios.VotesSuccessfully | tests/ProposalManager.test.ts:228-234 | a vote in favour succeeds and adds the voter's stake of 100 to the tally for |
| ProposalScenarios.RejectsSecondVote | tests/ProposalManager.test.ts:235-241 | a second vote by the same member is refused with code 107 |
| ProposalScenarios.ExecutesProposal | tests/ProposalManager.test.ts:242-251 | at height 144, with 100 votes for, execution succeeds, marks the proposal executed, and logs exactly one transfer of 500 to the target |
| ProposalScenarios.RejectsExecutionBelowThreshold | tests/ProposalManager.test.ts:252-258 | with no votes, execution at height 144 is refused with code 110 |
| ProposalScenarios.ClosesProposal | tests/ProposalManager.test.ts:259-265 | the proposer closes the proposal, whose status becomes closed |
| ProposalScenarios.RejectsCloseByNonProposer | tests/ProposalManager.test.ts:266-271 | another caller's close gets the bare refusal, and the proposal stays open |
| ProposalScenarios.SetsAuthority | tests/ProposalManager.test.ts:272-276 | the first authority write succeeds and stores the principal |
| ProposalScenarios.RejectsSecondAuthority | tests/ProposalManager.test.ts:93-96 | a second authority write is refused with NOT_AUTHORIZED and keeps the first principal |
| ProposalScenarios.SetsMaxProposals | tests/ProposalManager.test.ts:277-282 | with an authority set, the club limit becomes 50 |
| ProposalScenarios.SetsVotingPeriod | tests/ProposalManager.test.ts:283-288 | with an authority set, the voting period becomes 200 |
| ProposalScenarios.RejectsTunablesWithoutAuthority | tests/ProposalManager.test.ts:100-108 | without an authority, both setters are refused with NOT_AUTHORIZED |
| ProposalScenarios.RejectsInvalidAmount | tests/ProposalManager.test.ts:289-293 | amount 0 is refused with code 101 |
| ProposalScenarios.RejectsInvalidTarget | tests/ProposalManager.test.ts:294-298 | the caller as target is refused with code 102 |
| ProposalScenarios.RejectsNonMember | tests/ProposalManager.test.ts:299-304 | a caller whose membership is false is refused with code 100 |
| ProposalScenarios.RejectsInsufficientFunds | tests/ProposalManager.test.ts:305-310 | club funds below the amount are refused with code 108 |

## Left out

- The manager's own copies of block height, caller, memberships, stakes, funds and active clubs (lines 59-64) are not fields of the class. The manager only reads them, so they are the `Env` parameter of each operation. How a test sets them is not modelled.
- `reset` is modelled only through the state it establishes, which is the constructor and `ProposalSpec.Initial`. Resetting a manager that is in use is not a separate method.
- The string keys `club-id` and `club-id-voter` are modelled as tuples of their parts. For the non-negative ids the manager stores, the two encodings identify the same entries.
- The numbers are JavaScript numbers, modelled as unbounded integers. Fractional values, NaN, and precision loss above 2^53 are not modelled.
- A description's length is its number of characters, not JavaScript's UTF-16 code units.
- Proposals are modelled as values. The source mutates the stored object and then sets it again under the same key. That gives the same map contents, and it is written as a map update.
- The transfer log records only the intent to transfer. No funds move and `FUND_TRANSFER_FAILED` never arises, as in the source.
- The six declared but unused error codes (104, 105, 112, 113, 117, 118) have no constructor in `ProposalTypes.Error`.
- The vitest harness and its `expect` calls are replaced by the scenario methods' postconditions.
