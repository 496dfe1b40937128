# PeopleNet governance core in Dafny

This project models the on-chain core of PeopleNet and the front end's data helpers:

- **The diamond controller** (EIP-2535, "Diamonds, Multi-Facet Proxy"). It keeps a table from function selector to facet contract. Only the owner may change the table, through `diamondCut`. The loupe queries read the table, and ERC-165 `supportsInterface` is answered (EIP-165).
- **The AAO ledger** behind `AAOFacet`. AAOs are Macro or Micro organisations. Each has members and admins. Members file proposals and vote on them, and owners or admins open bounty tasks that members take, complete and have verified.
- **The Macro and Micro factories.** Each creates AAOs on behalf of its caller. The Micro factory checks the parent before creating.
- **`TokenFacet`**, a registry of token contracts by address.
- **The front end's helpers** in `ui/utils/contracts.js`. `formatAAO`, `formatProposal` and `formatToken` fill defaults into records. The contract wrapper answers from mock data when a call fails or a function is missing.

The contracts' Solidity source is not part of this model. Their behaviour is rebuilt from the Hardhat test files that drive them. Each contract below states what those tests assert, plus the rules the tests imply, such as dense ids, one ballot per voter, and tallies equal to the ballots.

Layout, one module per file:

- `common.dfy` (`Common`): addresses and the `Option` / `Result` / `Outcome` wrappers.
- `diamond.dfy` (`Diamond`): the selector table as a value, the batch semantics of a cut, and the class `DiamondController`, which updates its table in place.
- `aao_state.dfy` (`AAOState`): the ledger's storage as a value (`LedgerState`). It also holds the invariant `Inv`, the relation `Evolves` every entry point keeps, the reason each entry point reverts, and the lemmas about them.
- `aao_ledger.dfy` (`AAOLedger`): the class `AAOLedger`, with one method per facet entry point and one function per view.
- `aao_factory.dfy` (`AAOFactory`): the classes `MacroAAOFactory` and `MicroAAOFactory`.
- `token_registry.dfy` (`TokenRegistry`): the class `TokenFacet`.
- `ui_format.dfy` (`UIFormat`): the record normalisers over a small JavaScript value type.
- `ui_fallback.dfy` (`UIFallback`): the mock-data fallbacks.
- `scenarios.dfy` (`Scenarios`): the tests' call sequences, replayed on fresh objects. Each method's postcondition is what the test expects. Where a test file shares one deployment across its tests (`test/facets/AAOFactory.test.js:18`), the earlier history is abbreviated to what the postconditions need.

Modelling choices:

- Addresses are natural numbers, and 0 is the zero address. Selectors are opaque four-byte values.
- The ledger's `executeProposal` rule is a parameter of the ledger (`ExecutionPolicy`). `Unconditional` executes any Active proposal. `SimpleMajority` needs more votes for than against. The scenarios hold under both.
- `executeProposal` takes no caller, so any account may execute, members or not. The tests only ever execute as USER1 (`test/facets/AAOAdvanced.test.js:189`).
- An Add cut with an empty selector list and a non-zero facet address succeeds and leaves the selector table unchanged. The tests never send one.
- Field names follow `test/facets/AAOAdvanced.test.js` (`active`, `forVotes`, `againstVotes`). `test/facets/AAOFacet.test.js` reads the same fields as `isActive`, `yesVotes` and `noVotes`.
- The creator is a member from creation, because the creator votes without joining (`test/facets/AAOFacet.test.js:132-149`). The owner cannot leave.
- `assignAdminRole` is open to the owner and to existing admins, as `test/facets/AAOAdvanced.test.js:240-263` shows. Only the owner may revoke an admin.
- A terminated AAO is frozen. Every change to it reverts, and a second termination reverts with `AlreadyTerminated`. This follows the warning at `ui/components/AAODetails.js:481`.
- `verifyTask(false)` sends a Completed task back to Assigned.
- `getMacroAAOId` on a Macro AAO reverts (`NotAMicroAAO`).
- Task status 3 is Verified. The comment at `test/facets/AAOFacet.test.js:200` calls it "Completed"; the value the test checks is the one after verification.
- Deregistering a token keeps the order of the other registered tokens.

## Model

| member | source | states |
|---|---|---|
| Diamond.ActionCode | test/helpers/diamond.js:3 | the code is 0 exactly for Add, 1 exactly for Replace and 2 exactly for Remove |
| Diamond.ActionFromCode | test/helpers/diamond.js:3 | a wire code decodes to an action exactly when it is at most 2 |
| Diamond.ActionCodeRoundTrip | test/helpers/diamond.js:3 | decoding an action's code gives the action back; distinct actions have distinct codes |
| Diamond.AddOne | test/diamond.test.js:47-63 | adding one unmapped selector maps it to the facet and lists the facet (once) |
| Diamond.AddOneValid | test/diamond.test.js:47-63 | adding one selector to a non-zero facet keeps the table consistent |
| Diamond.AddSelectorsSpec | test/diamond.test.js:47-63 | a successful Add keeps every earlier mapping, routes every added selector to the facet and lists it |
| Diamond.AddSelectorsOutcome | test/facets/DiamondController.test.js:56-71 | an Add succeeds iff its selectors are distinct and unmapped, and then maps exactly the old and new selectors |
| Diamond.ApplyCutsSpec | test/facets/DiamondController.test.js:56-71 | a successful batch keeps the table consistent, keeps old mappings, and routes every selector of every entry to that entry's facet |
| Diamond.ApplyCutsOutcome | test/facets/DiamondController.test.js:56-71 | a batch succeeds iff every entry adds to a non-zero facet and the batch's selectors are distinct and not yet served |
| Diamond.DiamondController.constructor | test/diamond.test.js:38-43 | deployment fixes the owner, routes `diamondCut` to the cut facet and declares ERC-165 |
| Diamond.DiamondController.DiamondCut | test/diamond.test.js:75-80 | any caller but the owner is refused with the owner error whatever the cuts (even none); the owner's batch applies all-or-nothing as `ApplyCuts` says |
| Diamond.DiamondController.Facets | test/diamond.test.js:60-62 | the listing holds exactly the facets that serve some selector |
| Diamond.DiamondController.FacetAddress | scripts/utils/check-facet-functions.js:40-53 | the facet a selector maps to, or the zero address exactly when it is unmapped |
| Diamond.DiamondController.Route | test/facets/DiamondController.test.js:99-107 | a call on the controller is delegated to its selector's facet, and fails exactly when there is none |
| Diamond.DiamondController.SupportsInterface | test/diamond.test.js:39-43 | ERC-165's id 0x01ffc9a7 is always reported supported |
| AAOState.ProposalStatusCode | test/facets/AAOAdvanced.test.js:141-210 | status 0 is exactly Active and 1 exactly Executed |
| AAOState.TaskStatusCode | test/facets/AAOFacet.test.js:182-200 | status 1 is exactly Assigned and 3 exactly Verified |
| AAOState.IdsOwnedByExactly | test/facets/AAOFactory.test.js:257-273 | the per-creator list holds exactly the AAOs the account owns, in increasing id order |
| AAOState.IdsOwnedByAppend | test/facets/AAOFactory.test.js:257-273 | a new AAO's id is appended to its owner's list and to no other |
| AAOState.IdsOwnedBySameOwners | test/facets/AAOFacet.test.js:44-74 | changing topic, duration or active leaves every creator list unchanged |
| AAOState.TallyAfterBallot | test/facets/AAOAdvanced.test.js:146-179 | a new true ballot raises the for tally by one, and a false one the against tally; the other is unchanged |
| AAOState.EmptyLedgerInv | test/facets/AAOAdvanced.test.js:88 | a fresh deployment satisfies the ledger invariant |
| AAOState.OneBallotPerVoter | test/facets/AAOAdvanced.test.js:181-186 | the two tallies add up to the number of distinct voters |
| AAOState.VoteKeepsInv | test/facets/AAOAdvanced.test.js:146-186 | an admitted ballot keeps the invariant and only raises tallies, never changing an earlier ballot |
| AAOState.VoteEvolves | test/facets/AAOAdvanced.test.js:146-186 | an admitted ballot changes no AAO, member, admin or task, and keeps every earlier ballot |
| AAOState.CreateKeepsInv | test/facets/AAOFactory.test.js:233-273 | an admitted creation keeps the invariant, including every creator list, and changes no earlier record |
| AAOState.CreateEvolves | test/facets/AAOFactory.test.js:233-255 | a creation leaves every earlier AAO, proposal, ballot and task as it was |
| AAOState.CreatorListsAfterCreate | test/facets/AAOFactory.test.js:257-273 | after a creation each creator's list is still exactly the ids that creator owns |
| AAOState.CreatedRecordLinked | test/facets/AAOFactory.test.js:174-229 | after a creation every AAO is still well linked (a Micro's parent is an earlier Macro) and lists its owner as a member |
| AAOLedger.AAOLedger.constructor | test/facets/AAOAdvanced.test.js:88 | a new ledger is empty, so the first AAO gets id 0 |
| AAOLedger.AAOLedger.CreateAAOFor | test/facets/AAOFactory.test.js:173-229 | an unknown or Micro parent reverts and changes nothing; otherwise the id is the old count, the creator owns and is the sole member of an active AAO, and its kind follows the parent |
| AAOLedger.AAOLedger.CreateAAO | test/facets/AAOFacet.test.js:24-42 | a Macro AAO with the given topic and duration, owned by the caller, active, with id the old count |
| AAOLedger.AAOLedger.ModifyAAO | test/facets/AAOFacet.test.js:44-59 | only the owner of an active AAO may change it; topic and duration are replaced and nothing else changes |
| AAOLedger.AAOLedger.TerminateAAO | test/facets/AAOFacet.test.js:61-74 | only the owner may terminate; the AAO becomes inactive and a second termination reverts |
| AAOLedger.AAOLedger.JoinAAO | test/facets/AAOFacet.test.js:88-94 | a non-member joins an active AAO; the member set gains exactly the caller |
| AAOLedger.AAOLedger.LeaveAAO | test/facets/AAOFacet.test.js:96-103 | a member other than the owner leaves; the member set loses exactly the caller |
| AAOLedger.AAOLedger.AssignAdminRole | test/facets/AAOAdvanced.test.js:215-263 | the owner or an admin of an active AAO adds the target to the admins |
| AAOLedger.AAOLedger.RevokeAdminRole | test/facets/AAOAdvanced.test.js:265-288 | only the owner revokes, and only an admin; the target leaves the admin set |
| AAOLedger.AAOLedger.SubmitProposal | test/facets/AAOAdvanced.test.js:111-144 | a member's proposal gets the next global id and starts Active with no votes; a non-member is refused |
| AAOLedger.AAOLedger.Vote | test/facets/AAOAdvanced.test.js:146-186 | a member's first ballot on an Active proposal raises the matching tally; a second ballot reverts with `AlreadyVoted` |
| AAOLedger.AAOLedger.ExecuteProposal | test/facets/AAOAdvanced.test.js:188-211 | an Active proposal the policy admits becomes Executed; a decided proposal cannot be executed again |
| AAOLedger.AAOLedger.CreateBounty | test/facets/AAOFacet.test.js:166-183 | the owner or an admin opens an Open, unassigned task with the next global task id |
| AAOLedger.AAOLedger.AssignTask | test/facets/AAOFacet.test.js:166-183 | a member takes an Open task, which becomes Assigned to the caller |
| AAOLedger.AAOLedger.CompleteTask | test/facets/AAOFacet.test.js:185-201 | only the assignee completes an Assigned task |
| AAOLedger.AAOLedger.VerifyTask | test/facets/AAOFacet.test.js:185-201 | the owner or an admin approves a Completed task (Verified) or sends it back (Assigned) |
| AAOLedger.AAOLedger.GetAAO | test/facets/AAOFacet.test.js:36-41 | succeeds exactly for existing ids and then returns the stored record `aaos[id]`, fails with AAONotFound otherwise; the owner is a member and a record is Macro iff it has no parent |
| AAOLedger.AAOLedger.IsMember | test/facets/AAOFacet.test.js:88-103 | true exactly when the AAO exists and the address is in its member set; hence false for unknown AAOs and always true for the owner |
| AAOLedger.AAOLedger.IsAdmin | test/facets/AAOAdvanced.test.js:235-287 | true exactly for accounts in the AAO's admin set |
| AAOLedger.AAOLedger.GetMembersCount | ui/components/AAOList.js:187 | defined exactly for existing AAOs (AAONotFound otherwise), and then the size of the member set, at least one (the owner) |
| AAOLedger.AAOLedger.GetProposal | test/facets/AAOAdvanced.test.js:174-178 | defined exactly for existing ids and then the stored proposal, ProposalNotFound otherwise; the tallies add up to the number of ballots |
| AAOLedger.AAOLedger.GetTask | test/facets/AAOFacet.test.js:178-182 | defined exactly for existing ids and then the stored task, TaskNotFound otherwise; a task is Open iff it has no assignee |
| AAOLedger.AAOLedger.GetTotalAAOCount | test/facets/AAOFactory.test.js:233-255 | ids are dense: an id names an AAO iff it is below the count |
| AAOLedger.AAOLedger.GetAAOsByCreator | test/facets/AAOFactory.test.js:257-273 | exactly the AAOs the account owns, in increasing id order |
| AAOLedger.AAOLedger.GetAAOsByMember | ui/components/AAOList.js:59 | exactly the AAOs the account belongs to, in increasing id order |
| AAOLedger.AAOLedger.GetMacroAAOId | test/facets/AAOFactory.test.js:174-197 | defined exactly for Micro AAOs; a Macro AAO fails with NotAMicroAAO and an unknown id with AAONotFound; the result is an earlier Macro and the recorded parent |
| AAOFactory.MacroAAOFactory.CreateMacroAAO | test/facets/AAOFactory.test.js:96-154 | the external caller, not the factory, owns a new active Macro AAO; `AAOCreated` names caller, topic and Macro kind |
| AAOFactory.MicroAAOFactory.CreateMicroAAO | test/facets/AAOFactory.test.js:174-229 | reverts with "Parent Macro AAO does not exist" or "Parent AAO must be a Macro AAO" and changes nothing; otherwise a Micro AAO whose `getMacroAAOId` is the parent |
| TokenRegistry.Without | test/facets/TokenFacet.test.js:127-151 | removal drops exactly the token, keeps a duplicate-free list duplicate-free and never lengthens it |
| TokenRegistry.WithoutAt | test/facets/TokenFacet.test.js:127-151 | in a duplicate-free list, removing the token is cutting out its position |
| TokenRegistry.WithoutAbsent | test/facets/TokenFacet.test.js:127-151 | removing an absent token changes nothing |
| TokenRegistry.DistinctLength | test/facets/TokenFacet.test.js:98-117 | a duplicate-free list is as long as its set of elements |
| TokenRegistry.TokenFacet.constructor | test/facets/TokenFacet.test.js:54-84 | a new registry is empty |
| TokenRegistry.TokenFacet.RegisterToken | test/facets/TokenFacet.test.js:55-96 | only the owner registers; a registered address is refused; otherwise name and symbol are recorded and the address appended once |
| TokenRegistry.TokenFacet.DeregisterToken | test/facets/TokenFacet.test.js:127-151 | only the owner deregisters a registered token, which is forgotten and cut from the list |
| TokenRegistry.TokenFacet.IsTokenRegistered | test/facets/TokenFacet.test.js:76-150 | true exactly for listed addresses |
| TokenRegistry.TokenFacet.GetTokenInfo | test/facets/TokenFacet.test.js:80-83 | a registered token answers the record stored for it, the name and symbol given at registration; an unregistered one fails with `NotRegistered` |
| TokenRegistry.TokenFacet.GetRegisteredTokens | test/facets/TokenFacet.test.js:112-116 | every registered address exactly once, so its length is the number of tokens |
| UIFormat.Prop | ui/utils/contracts.js:192 | an object's own property reads as its value; a missing property, or any property of a non-object, reads as undefined |
| UIFormat.Or | ui/utils/contracts.js:193-194 | `a \|\| b` is `a` when `a` is truthy and `b` otherwise; the result is truthy exactly when either operand is |
| UIFormat.StringNumber | ui/utils/contracts.js:195 | `Number(s)`: the empty string is 0, a decimal digit string its non-negative value, anything else NaN |
| UIFormat.JsNumber | ui/utils/contracts.js:195 | `Number(v)` is a number or NaN: numbers pass through, null, '' and `[]` give 0, undefined and objects NaN, booleans 0/1, BigInts their value, arrays of two or more NaN |
| UIFormat.ElementNumber | ui/utils/contracts.js:195 | the one element of an array converts through its string: undefined and null give 0, booleans NaN, anything else as `Number` |
| UIFormat.SingletonListNumber | ui/utils/contracts.js:195 | `Number([x])` equals `Number(x)` except for undefined (0 instead of NaN) and booleans (NaN instead of 0/1) |
| UIFormat.NumberField | ui/utils/contracts.js:195-199 | numbers pass through, BigInts convert, falsy non-numbers become 0, and every truthy value converts as `Number(v)` |
| UIFormat.NumberFieldIsNumberButUndefined | ui/utils/contracts.js:195 | the `typeof` / truthiness guard differs from plain `Number(v)` only on undefined, which becomes 0 instead of NaN |
| UIFormat.FormatAAO | ui/utils/contracts.js:187-200 | null iff the input is falsy; otherwise exactly the eight keys, `id` copied, topic / owner / members kept when truthy and replaced by 'Unknown Topic' / the zero address / `[]` otherwise, duration and macroAAOId converted by the number-field rule, `active` / `isMacro` kept when defined and true otherwise |
| UIFormat.FormatProposal | ui/utils/contracts.js:217-230 | null iff falsy input; otherwise exactly the seven modelled keys, id / aaoId / forVotes / againstVotes converted by the number-field rule (0 when missing), proposer and text kept when truthy and defaulted to the zero address / 'Unknown Proposal' otherwise, status kept when defined and 0 otherwise |
| UIFormat.FormatToken | ui/utils/contracts.js:247-258 | null iff falsy input; otherwise exactly the five modelled keys, address / name / symbol kept when truthy and defaulted to the zero address / 'Unknown Token' / 'UNK' otherwise, decimals / isActive kept when defined and 18 / true otherwise |
| UIFormat.FormatAAOIdempotent | ui/utils/contracts.js:187-200 | formatting a formatted AAO changes nothing |
| UIFormat.FormatProposalIdempotent | ui/utils/contracts.js:217-230 | formatting a formatted proposal changes none of the modelled fields (all but `createdAt`) |
| UIFormat.FormatTokenIdempotent | ui/utils/contracts.js:247-258 | formatting a formatted token changes none of the modelled fields (all but `registeredAt`) |
| UIFallback.LowerChar | ui/utils/contracts.js:79 | the result is never a capital; a capital becomes its lowercase letter (code + 32) and every other character is kept |
| UIFallback.ToLower | ui/utils/contracts.js:79-87 | lower-casing keeps the length, leaves no capital, and keeps every character that is not a capital in place |
| UIFallback.ToLowerIdempotent | ui/utils/contracts.js:79-87 | lower-casing twice is lower-casing once |
| UIFallback.MatchingIndices | ui/utils/contracts.js:80-89 | exactly the positions of the accepted mocks, in increasing order |
| UIFallback.FilterIdsIndices | ui/utils/contracts.js:80-90 | the ids of exactly the accepted mocks, in list order |
| UIFallback.FilterIdsMembers | ui/utils/contracts.js:80-90 | an id is returned iff some accepted mock carries it |
| UIFallback.FilterIdsSameCriterion | ui/utils/contracts.js:80-90 | criteria accepting the same mocks select the same ids |
| UIFallback.FallbacksIgnoreCase | ui/utils/contracts.js:79-91 | the creator and member fallbacks ignore the argument's case |
| UIFallback.FindById | ui/utils/contracts.js:96 | `find` returns the first mock with that id, or nothing iff there is none |
| UIFallback.MockFor | ui/utils/contracts.js:96-118 | the mock with that id, or the first mock when there is none |
| UIFallback.CallFailedFallback | ui/utils/contracts.js:76-128 | getAAOsByCreator / getAAOsByMember answer the creator / member filter of the mocks, getAAO every field of the mock with that id (the first mock for an unknown id), getMembersCount / getMacroAAOId that mock's count / macro id; every other name gets a mock transaction |
| UIFallback.Contains | ui/utils/contracts.js:141-143 | `includes` holds iff the text occurs at some position |
| UIFallback.MissingFunctionResult | ui/utils/contracts.js:140-156 | a `get…Count` name gives 0, another `get…By…` name [], another `get…` name null, any other a mock transaction |
| UIFallback.MockDataConsistent | ui/utils/contracts.js:15-49 | every mock counts its members correctly and lists its owner; only the Micro names a Macro |
| UIFallback.MockAccountsDiffer | ui/utils/contracts.js:19-41 | the two mock accounts differ even ignoring case |
| UIFallback.MockOwners | ui/utils/contracts.js:19-41 | which mock account owns each mock |
| UIFallback.MockMembers | ui/utils/contracts.js:23-45 | which mock accounts each mock lists as members |
| UIFallback.CreatorFallbackOnMockAccounts | ui/utils/contracts.js:77-83 | the creator fallback gives ["1","2"] for the first account and ["3"] for the second |
| UIFallback.MemberFallbackOnAlice | ui/utils/contracts.js:85-91 | the member fallback gives ["1","2","3"] for the first account |
| UIFallback.MemberFallbackOnCarol | ui/utils/contracts.js:85-91 | the member fallback gives ["1","3"] for the second account |
| UIFallback.MockLookups | ui/utils/contracts.js:93-120 | known ids answer from their own mock; an unknown id from the first |
| Scenarios.DiamondScenario | test/diamond.test.js:38-80 | ERC-165 is supported; after the owner's Add the loupe facet is listed; a stranger's empty cut reverts |
| Scenarios.LoupeSelectorsFresh | test/facets/DiamondController.test.js:45-50 | the loupe's selectors are distinct and clash with neither `diamondCut` nor the AAO facet's |
| Scenarios.BatchApplies | test/facets/DiamondController.test.js:56-71 | the two-entry cut succeeds on a fresh controller |
| Scenarios.BatchCutScenario | test/facets/DiamondController.test.js:56-107 | both facets are listed and AAO calls on the controller route to the AAO facet |
| Scenarios.TokenScenario | test/facets/TokenFacet.test.js:55-151 | info reads back; a second registration reverts; two tokens list as two; deregistration forgets |
| Scenarios.AAOLifecycleScenario | test/facets/AAOFacet.test.js:24-74 | created active with topic and owner; modified topic; terminated inactive |
| Scenarios.FirstAAOScenario | test/facets/DiamondController.test.js:97-160 | the first AAO has id 0 with topic, owner and duration as given, and a user can join it |
| Scenarios.MembershipScenario | test/facets/AAOFacet.test.js:77-114 | join makes a member, leave undoes it, and the owner can appoint an admin |
| Scenarios.MembershipAAO | test/facets/AAOFacet.test.js:77-94 | the membership test's AAO: active, owned by the deployer, with USER1 joined |
| Scenarios.ThreeMemberAAO | test/facets/AAOFacet.test.js:117-131 | the governance fixture: one active AAO with three members and nothing else |
| Scenarios.TaskAAO | test/facets/AAOFacet.test.js:155-164 | the task fixture: one active AAO "Task Test AAO" owned by OWNER whose members are exactly OWNER and USER1 |
| Scenarios.VotingScenario | test/facets/AAOFacet.test.js:132-149 | the owner's and a member's yes votes give 2 for and 0 against |
| Scenarios.TaskAssignScenario | test/facets/AAOFacet.test.js:166-183 | the task keeps its description, has the member as assignee and status 1 |
| Scenarios.TaskVerifyScenario | test/facets/AAOFacet.test.js:185-201 | assign, complete, approve gives status 3 |
| Scenarios.AdvancedSetup | test/facets/AAOAdvanced.test.js:80-103 | AAO 0 with three joined users and AAO 1, both owned by the deployer |
| Scenarios.FirstProposal | test/facets/AAOAdvanced.test.js:111-144 | the first proposal has id 0, the given text and proposer, status 0 and no votes |
| Scenarios.TwoBallotsCast | test/facets/AAOAdvanced.test.js:146-179 | after ballots for and against, the proposal holds 1 for, 1 against and those two ballots |
| Scenarios.ThreeBallotsCast | test/facets/AAOAdvanced.test.js:146-179 | after ballots for, against, for, the proposal holds 2 for, 1 against and those three ballots |
| Scenarios.AdvancedVotingScenario | test/facets/AAOAdvanced.test.js:111-211 | votes T, F, T give 2/1; a repeat ballot reverts with `AlreadyVoted`; execution gives status 1 |
| Scenarios.AdminDelegationScenario | test/facets/AAOAdvanced.test.js:215-288 | owner appoints USER1, USER1 appoints USER2, owner revokes USER2 |
| Scenarios.SecondAAOScenario | test/facets/AAOAdvanced.test.js:292-346 | a user joins AAO 1 and its first proposal takes global id 1 |
| Scenarios.TwoProposalsFiled | test/facets/AAOAdvanced.test.js:339 | the deployment after proposals 0 and 1 |
| Scenarios.ThirdProposalBacked | test/facets/AAOAdvanced.test.js:363-377 | the third proposal takes id 2 and, with two votes for and none against, is still Active |
| Scenarios.ThirdProposalScenario | test/facets/AAOAdvanced.test.js:363-383 | the next proposal takes id 2 and, after two yes votes, executes (status 1) |
| Scenarios.MacroFactoryScenario | test/facets/AAOFactory.test.js:96-154 | the Macro record, its `AAOCreated` event, and another user's ownership |
| Scenarios.MicroFactoryScenario | test/facets/AAOFactory.test.js:160-229 | the Micro record and its parent, and both parent-check reverts |
| Scenarios.FactoryCountScenario | test/facets/AAOFactory.test.js:233-255 | each creation adds one to the count; the Macro's id is count less one |
| Scenarios.TwoMacrosByUser1 | test/facets/AAOFactory.test.js:257-266 | USER1's two Macro AAOs have distinct ids and are owned by USER1 |
| Scenarios.CreatorListScenario | test/facets/AAOFactory.test.js:257-273 | a creator's list has at least the two new ids and every listed AAO is theirs |

## Left out

- The Solidity source of the facets, the factories and the manager contracts is not part of this model. Behaviour not pinned by a test follows the choices listed above.
- EVM dispatch mechanics (delegatecall, shared storage, the fallback itself) are not modelled. Routing is a selector-to-facet lookup.
- Diamond.DiamondController.DiamondCut: the Replace and Remove actions are refused with `ActionNotModelled`, and the init-call hook is absent. Their tests are empty placeholders.
- Selector computation (`getSelectors` / `getSelector`, which hash function signatures) is left out. Selectors are opaque values, and the AAO facet's selectors in the scenarios are stand-ins.
- Gas, time, durations as deadlines, and event encoding are left out. Events are an appended log.
- The `loupe` queries `facetFunctionSelectors` and `facetAddresses` are left out. `facets()` is modelled as the list of facet addresses, which is what the tests read.
- UIFormat.StringNumber: `Number()` on a string handles the empty string and decimal digit strings only. Surrounding whitespace, a sign, a decimal point, an exponent, hexadecimal and 'Infinity' give NaN in the model, unlike JavaScript.
- UIFormat.JsNumber: numbers are integers. Fractions, the 2^53 precision limit, and the TypeError that `Number` raises on a Symbol (the formatters' catch branch) are not modelled.
- UIFormat.FormatProposal and UIFormat.FormatToken omit the `createdAt` / `registeredAt` timestamps, which need the clock (`new Date`).
- UIFormat.FormatProposalIdempotent: holds for the modelled fields only. The source's formatter is not idempotent on `createdAt`: a second call turns the Date made by the first into `new Date(Number(date) * 1000)`, a timestamp a thousand times larger (ui/utils/contracts.js:229).
- UIFormat.FormatTokenIdempotent: holds for the modelled fields only. A second call likewise rescales `registeredAt` (ui/utils/contracts.js:257).
- The `catch` branches of the three formatters are left out. Over the modelled value type nothing they do can throw.
- UIFallback.LowerChar: `toLowerCase` lowers ASCII capitals only. Addresses are hexadecimal, so nothing else arises.
- The Proxy, the async wrapper, console logging and the contract addresses of `createContractWithErrorHandling` are left out. So are the factory getters (`getAAOFacet`, …), which only construct wrappers.
- The React components, pages, deployment scripts and configuration are not part of this model.
- The crypto library tests and the placeholder token tests are left out. They assert nothing about behaviour.
