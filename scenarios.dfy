/** The call sequences of the Hardhat test files, replayed against the
    model on fresh deployments. Each method returns what the test reads
    back, and its postcondition is what the test expects of it. */
module Scenarios {
  import opened Common
  import opened Diamond
  import opened AAOState
  import opened AAOLedger
  import opened AAOFactory
  import opened TokenRegistry

  // Accounts and contract addresses the tests use.
  const OWNER: Address := 1
  const USER1: Address := 2
  const USER2: Address := 3
  const USER3: Address := 4
  const CUT_FACET: Address := 10
  const LOUPE_FACET: Address := 11
  const AAO_FACET: Address := 12
  const TOKEN1: Address := 20
  const TOKEN2: Address := 21

  /** The loupe facet's selectors: `facets()`, `facetFunctionSelectors`,
      `facetAddresses()`, `facetAddress` and `supportsInterface`. */
  const LOUPE_SELECTORS: seq<Selector> := [0x7a0ed627, 0xadfca15e, 0x52ef6b2c, 0xcdffacc6, 0x01ffc9a7]

  /** Stand-ins for the AAO facet's `createAAO` and `joinAAO` selectors;
      selectors are opaque values here, so any two distinct values not
      used by the loupe or the cut facet serve. */
  const CREATE_AAO_SELECTOR: Selector := 0xa0000001
  const JOIN_AAO_SELECTOR: Selector := 0xa0000002

  /** test/diamond.test.js: ERC-165 is supported from deployment, the owner
      can add the loupe facet, which then shows in `facets()`, and anyone
      else's cut, even an empty one, reverts with the owner reason. */
  method DiamondScenario() returns (supportsErc165: bool, facets: seq<Address>, strangerCut: Outcome<CutError>)
    ensures supportsErc165
    ensures LOUPE_FACET in facets && CUT_FACET in facets
    ensures strangerCut == Fail(CutError.NotContractOwner)
  {
    var d := new DiamondController(OWNER, CUT_FACET);
    supportsErc165 := d.SupportsInterface(ERC165_INTERFACE_ID);
    var cuts := [FacetCut(LOUPE_FACET, Add, LOUPE_SELECTORS)];
    ghost var t0 := d.Table();
    ApplyCutsSpec(t0, cuts);
    var ok := d.DiamondCut(OWNER, cuts);
    assert ok == Pass;
    assert d.facetOf[LOUPE_SELECTORS[0]] == LOUPE_FACET;
    assert d.facetOf[DIAMOND_CUT_SELECTOR] == CUT_FACET;
    facets := d.Facets();
    strangerCut := d.DiamondCut(USER1, []);
  }

  /** The cut of test/facets/DiamondController.test.js: the loupe facet and
      the AAO facet, both added in one call. */
  const BATCH: seq<FacetCut> := [
    FacetCut(LOUPE_FACET, Add, LOUPE_SELECTORS),
    FacetCut(AAO_FACET, Add, [CREATE_AAO_SELECTOR, JOIN_AAO_SELECTOR])]

  /** The loupe's selectors are distinct from each other and from the
      selectors the cut facet and the AAO facet serve. */
  lemma LoupeSelectorsFresh()
    ensures NoDuplicates(LOUPE_SELECTORS)
    ensures forall i :: 0 <= i < |LOUPE_SELECTORS| ==>
      LOUPE_SELECTORS[i] !in {DIAMOND_CUT_SELECTOR, CREATE_AAO_SELECTOR, JOIN_AAO_SELECTOR}
    ensures forall s :: s in LOUPE_SELECTORS ==>
      s != DIAMOND_CUT_SELECTOR && s != CREATE_AAO_SELECTOR && s != JOIN_AAO_SELECTOR
  {
  }

  /** On a freshly deployed controller, which serves only `diamondCut`, the
      batch succeeds. */
  lemma BatchApplies(t0: SelectorTable)
    requires t0.facetOf == map[DIAMOND_CUT_SELECTOR := CUT_FACET]
    ensures ApplyCuts(t0, BATCH).Success?
  {
    LoupeSelectorsFresh();
    var aaoSelectors := [CREATE_AAO_SELECTOR, JOIN_AAO_SELECTOR];
    assert CutSelectors(BATCH[1..]) == aaoSelectors + CutSelectors([]);
    assert CutSelectors(BATCH) == LOUPE_SELECTORS + aaoSelectors;
    assert AddsOnly(BATCH);
    assert NoDuplicates(aaoSelectors);
    assert forall x :: x in LOUPE_SELECTORS ==> x !in aaoSelectors;
    NoDuplicatesAppend(LOUPE_SELECTORS, aaoSelectors);
    assert forall x :: x in LOUPE_SELECTORS + aaoSelectors ==> x !in t0.facetOf;
    ApplyCutsOutcome(t0, BATCH);
  }

  /** test/facets/DiamondController.test.js: one cut carrying two Add
      entries (the loupe facet and the AAO facet) applies both, and calls on
      the controller are then routed to the facet that serves them. */
  method BatchCutScenario() returns (cut: Outcome<CutError>, facets: seq<Address>,
                                     createRoute: Result<Address, DispatchError>,
                                     loupeRoute: Result<Address, DispatchError>)
    ensures cut == Pass
    ensures LOUPE_FACET in facets && AAO_FACET in facets
    ensures createRoute == Success(AAO_FACET) && loupeRoute == Success(LOUPE_FACET)
  {
    var d := new DiamondController(OWNER, CUT_FACET);
    ghost var t0 := d.Table();
    ApplyCutsSpec(t0, BATCH);
    BatchApplies(t0);
    cut := d.DiamondCut(OWNER, BATCH);
    assert BATCH[0].functionSelectors[0] == LOUPE_SELECTORS[0];
    assert BATCH[1].functionSelectors[0] == CREATE_AAO_SELECTOR;
    assert d.facetOf[LOUPE_SELECTORS[0]] == LOUPE_FACET;
    assert d.facetOf[CREATE_AAO_SELECTOR] == AAO_FACET;
    facets := d.Facets();
    createRoute := d.Route(CREATE_AAO_SELECTOR);
    loupeRoute := d.Route(LOUPE_SELECTORS[0]);
  }

  /** test/facets/TokenFacet.test.js: registration records name and symbol,
      a second registration of the same address reverts, two registrations
      list both tokens, and deregistration forgets the token. */
  method TokenScenario()
    returns (info: Result<TokenInfo, TokenError>, again: Outcome<TokenError>, listed: seq<Address>,
             stillRegistered: bool)
    ensures info == Success(TokenInfo("Mock Token 1", "MT1"))
    ensures again == Fail(AlreadyRegistered)
    ensures |listed| == 2 && TOKEN1 in listed && TOKEN2 in listed
    ensures !stillRegistered
  {
    var t := new TokenFacet(OWNER);
    var r1 := t.RegisterToken(OWNER, TOKEN1, "Mock Token 1", "MT1");
    info := t.GetTokenInfo(TOKEN1);
    again := t.RegisterToken(OWNER, TOKEN1, "Mock Token 1", "MT1");
    var r2 := t.RegisterToken(OWNER, TOKEN2, "Mock Token 2", "MT2");
    listed := t.GetRegisteredTokens();
    var r3 := t.DeregisterToken(OWNER, TOKEN1);
    stillRegistered := t.IsTokenRegistered(TOKEN1);
  }

  /** test/facets/AAOFacet.test.js, AAO management: the creator owns the new
      active AAO; modification replaces the topic; termination makes the
      AAO inactive. */
  method AAOLifecycleScenario(policy: ExecutionPolicy)
    returns (created: AAO, modified: AAO, terminated: AAO)
    ensures created.topic == "Test AAO" && created.owner == OWNER && created.active
    ensures modified.topic == "Updated Topic"
    ensures !terminated.active
  {
    var l := new AAOLedger(policy);
    var a := l.CreateAAO(OWNER, "Test AAO", 86400);
    created := l.GetAAO(a).value;
    var b := l.CreateAAO(OWNER, "Original Topic", 86400);
    var m := l.ModifyAAO(OWNER, b, "Updated Topic", 172800);
    modified := l.GetAAO(b).value;
    var c := l.CreateAAO(OWNER, "Test AAO", 86400);
    var t := l.TerminateAAO(OWNER, c);
    terminated := l.GetAAO(c).value;
  }

  /** test/facets/DiamondController.test.js: the first AAO of a deployment
      has id 0 and the creator's topic, owner and duration, and another
      account can join it. */
  method FirstAAOScenario(policy: ExecutionPolicy) returns (id: AaoId, details: AAO, joined: bool)
    ensures id == 0
    ensures details.topic == "Test AAO" && details.owner == OWNER && details.duration == 86400
    ensures joined
  {
    var l := new AAOLedger(policy);
    id := l.CreateAAO(OWNER, "Test AAO", 86400);
    details := l.GetAAO(0).value;
    var j := l.JoinAAO(USER1, 0);
    joined := l.IsMember(0, USER1);
  }

  /** The membership test's AAO, created by OWNER and joined by USER1. */
  method MembershipAAO(policy: ExecutionPolicy) returns (l: AAOLedger, id: AaoId)
    ensures fresh(l) && l.Valid() && id < |l.aaos|
    ensures l.aaos[id].active && l.aaos[id].owner == OWNER && l.members[id] == {OWNER, USER1}
  {
    l := new AAOLedger(policy);
    id := l.CreateAAO(OWNER, "Membership Test AAO", 86400);
    assert l.aaos[id].active && l.aaos[id].owner == OWNER && l.members[id] == {OWNER};
    var j := l.JoinAAO(USER1, id);
  }

  /** test/facets/AAOFacet.test.js, membership: joining makes a member,
      leaving undoes it, and the owner can make a member an admin. */
  method MembershipScenario(policy: ExecutionPolicy)
    returns (joined: bool, afterLeave: bool, admin: bool)
    ensures joined && !afterLeave && admin
  {
    var l, id := MembershipAAO(policy);
    joined := l.IsMember(id, USER1);
    var lv := l.LeaveAAO(USER1, id);
    assert l.aaos[id].active && l.aaos[id].owner == OWNER && l.members[id] == {OWNER};
    afterLeave := l.IsMember(id, USER1);
    var j2 := l.JoinAAO(USER1, id);
    assert l.aaos[id].active && l.aaos[id].owner == OWNER && USER1 in l.members[id];
    var a := l.AssignAdminRole(OWNER, id, USER1);
    admin := l.IsAdmin(id, USER1);
  }

  /** A fresh ledger holding one active AAO owned by OWNER, which USER1 and
      USER2 have joined: the governance tests' fixture. */
  method ThreeMemberAAO(policy: ExecutionPolicy, topic: string, duration: nat) returns (l: AAOLedger)
    ensures fresh(l) && l.Valid() && l.policy == policy
    ensures |l.aaos| == 1 && l.aaos[0].active && l.aaos[0].owner == OWNER
    ensures l.members[0] == {OWNER, USER1, USER2} && l.admins[0] == {}
    ensures l.proposals == [] && l.ballots == [] && l.tasks == []
  {
    l := new AAOLedger(policy);
    var id := l.CreateAAO(OWNER, topic, duration);
    assert l.aaos[id].active && l.members[id] == {OWNER};
    var j1 := l.JoinAAO(USER1, id);
    assert l.aaos[id].active && l.members[id] == {OWNER, USER1};
    var j2 := l.JoinAAO(USER2, id);
  }

  /** The task tests' fixture: a fresh ledger holding the active AAO
      "Task Test AAO", owned by OWNER and joined by USER1 alone. */
  method TaskAAO(policy: ExecutionPolicy) returns (l: AAOLedger)
    ensures fresh(l) && l.Valid() && l.policy == policy
    ensures |l.aaos| == 1 && l.aaos[0].active && l.aaos[0].owner == OWNER
    ensures l.aaos[0].topic == "Task Test AAO"
    ensures l.members[0] == {OWNER, USER1} && l.admins[0] == {}
    ensures l.proposals == [] && l.ballots == [] && l.tasks == []
  {
    l := new AAOLedger(policy);
    var id := l.CreateAAO(OWNER, "Task Test AAO", 86400);
    assert l.aaos[id].active && l.members[id] == {OWNER};
    var j := l.JoinAAO(USER1, id);
  }

  /** test/facets/AAOFacet.test.js, governance: two members vote for a
      member's proposal; the tallies are 2 for and 0 against. */
  method VotingScenario(policy: ExecutionPolicy) returns (p: Proposal)
    ensures p.text == "Test Proposal" && p.forVotes == 2 && p.againstVotes == 0
  {
    var l := ThreeMemberAAO(policy, "Governance Test AAO", 86400);
    var pid := l.SubmitProposal(USER1, 0, "Test Proposal");
    assert l.proposals[0] == Proposal(0, USER1, "Test Proposal", 0, 0, Active) && l.ballots[0] == map[];
    var v1 := l.Vote(OWNER, 0, true);
    assert l.proposals[0] == Proposal(0, USER1, "Test Proposal", 1, 0, Active) && l.ballots[0] == map[OWNER := true];
    var v2 := l.Vote(USER2, 0, true);
    p := l.GetProposal(0).value;
  }

  /** test/facets/AAOFacet.test.js, tasks: a member takes an open bounty,
      which is then Assigned (status 1) with that member as assignee. */
  method TaskAssignScenario(policy: ExecutionPolicy) returns (taken: Task)
    ensures taken.description == "Test Task" && taken.assignee == Some(USER1)
    ensures TaskStatusCode(taken.status) == 1
  {
    var l := TaskAAO(policy);
    var t := l.CreateBounty(OWNER, 0, "Test Task", 1000000000000000000);
    assert l.tasks[0] == Task(0, "Test Task", 1000000000000000000, None, Open);
    var a := l.AssignTask(USER1, 0);
    taken := l.GetTask(0).value;
  }

  /** test/facets/AAOFacet.test.js, tasks: after the assignee completes a
      task and the owner approves it, its status is 3 (Verified). */
  method TaskVerifyScenario(policy: ExecutionPolicy) returns (verified: Task)
    ensures TaskStatusCode(verified.status) == 3
  {
    var l := TaskAAO(policy);
    var t := l.CreateBounty(OWNER, 0, "Complete Task Test", 1000000000000000000);
    assert l.tasks[0].status == Open && l.aaos[0].active && USER1 in l.members[0];
    var a := l.AssignTask(USER1, 0);
    assert l.tasks[0].status == Assigned && l.tasks[0].assignee == Some(USER1) && l.aaos[0].active;
    var c := l.CompleteTask(USER1, 0);
    assert l.tasks[0].status == Completed && l.aaos[0].active && l.aaos[0].owner == OWNER;
    var v := l.VerifyTask(OWNER, 0, true);
    verified := l.GetTask(0).value;
  }

  /** The shared deployment of test/facets/AAOAdvanced.test.js: AAO 0
      ("Test Macro AAO", 30 days) with USER1, USER2 and USER3 joined, and
      AAO 1 ("Test Micro AAO", 7 days), both created by OWNER. */
  method AdvancedSetup(policy: ExecutionPolicy) returns (l: AAOLedger)
    ensures fresh(l) && l.Valid() && l.policy == policy
    ensures |l.aaos| == 2 && l.aaos[0].active && l.aaos[1].active
    ensures l.aaos[0].owner == OWNER && l.aaos[1].owner == OWNER
    ensures l.members[0] == {OWNER, USER1, USER2, USER3} && l.members[1] == {OWNER}
    ensures l.admins[0] == {} && l.proposals == [] && l.ballots == [] && l.tasks == []
  {
    l := ThreeMemberAAO(policy, "Test Macro AAO", 86400 * 30);
    var j := l.JoinAAO(USER3, 0);
    assert l.members[0] == {OWNER, USER1, USER2, USER3} && l.aaos[0].active;
    var micro := l.CreateAAO(OWNER, "Test Micro AAO", 86400 * 7);
  }

  /** test/facets/AAOAdvanced.test.js, proposal creation: USER1's proposal
      on AAO 0 gets id 0 and starts Active (status 0) with no votes. */
  method FirstProposal(policy: ExecutionPolicy) returns (l: AAOLedger, submitted: Proposal)
    ensures fresh(l) && l.Valid()
    ensures submitted.text == "Proposal to add a new feature" && submitted.proposer == USER1
    ensures submitted.aaoId == 0 && ProposalStatusCode(submitted.status) == 0
    ensures submitted.forVotes == 0 && submitted.againstVotes == 0
    ensures |l.aaos| == 2 && l.aaos[0].active && l.aaos[1].active && l.aaos[1].owner == OWNER
    ensures l.members[0] == {OWNER, USER1, USER2, USER3} && l.members[1] == {OWNER}
    ensures l.proposals == [submitted] && l.ballots == [map[]]
  {
    l := AdvancedSetup(policy);
    var pid := l.SubmitProposal(USER1, 0, "Proposal to add a new feature");
    submitted := l.GetProposal(0).value;
  }

  /** The voting test's first two ballots: USER1 for, USER2 against. */
  method TwoBallotsCast(policy: ExecutionPolicy) returns (l: AAOLedger, submitted: Proposal)
    ensures fresh(l) && l.Valid()
    ensures submitted.text == "Proposal to add a new feature" && submitted.proposer == USER1
    ensures submitted.aaoId == 0 && ProposalStatusCode(submitted.status) == 0
    ensures submitted.forVotes == 0 && submitted.againstVotes == 0
    ensures |l.aaos| == 2 && l.aaos[0].active && USER1 in l.members[0] && USER3 in l.members[0]
    ensures |l.proposals| == 1 && l.proposals[0] == submitted.(forVotes := 1, againstVotes := 1)
    ensures l.ballots[0] == map[USER1 := true, USER2 := false]
  {
    l, submitted := FirstProposal(policy);
    var v1 := l.Vote(USER1, 0, true);
    assert l.proposals[0] == submitted.(forVotes := 1) && l.ballots[0] == map[USER1 := true];
    var v2 := l.Vote(USER2, 0, false);
  }

  /** The voting test's ballots: USER1 for, USER2 against, USER3 for. */
  method ThreeBallotsCast(policy: ExecutionPolicy) returns (l: AAOLedger, submitted: Proposal)
    ensures fresh(l) && l.Valid()
    ensures submitted.text == "Proposal to add a new feature" && submitted.proposer == USER1
    ensures submitted.aaoId == 0 && ProposalStatusCode(submitted.status) == 0
    ensures submitted.forVotes == 0 && submitted.againstVotes == 0
    ensures |l.aaos| == 2 && l.aaos[0].active && USER1 in l.members[0]
    ensures |l.proposals| == 1 && l.proposals[0] == submitted.(forVotes := 2, againstVotes := 1)
    ensures l.ballots[0] == map[USER1 := true, USER2 := false, USER3 := true]
  {
    l, submitted := TwoBallotsCast(policy);
    var v3 := l.Vote(USER3, 0, true);
  }

  /** test/facets/AAOAdvanced.test.js, voting: USER1 for, USER2 against and
      USER3 for give 2 for and 1 against; USER1's second ballot reverts;
      execution then marks the proposal Executed (status 1). */
  method AdvancedVotingScenario(policy: ExecutionPolicy)
    returns (submitted: Proposal, voted: Proposal, again: Outcome<Error>, executed: Proposal)
    ensures submitted.text == "Proposal to add a new feature" && submitted.proposer == USER1
    ensures submitted.aaoId == 0 && ProposalStatusCode(submitted.status) == 0
    ensures submitted.forVotes == 0 && submitted.againstVotes == 0
    ensures voted.forVotes == 2 && voted.againstVotes == 1
    ensures again == Fail(AlreadyVoted)
    ensures ProposalStatusCode(executed.status) == 1
  {
    var l;
    l, submitted := ThreeBallotsCast(policy);
    voted := l.GetProposal(0).value;
    again := l.Vote(USER1, 0, false);
    var e := l.ExecuteProposal(0);
    executed := l.GetProposal(0).value;
  }

  /** test/facets/AAOAdvanced.test.js, admin roles: the owner makes USER1 an
      admin, USER1 as admin makes USER2 one, and the owner revokes USER2. */
  method AdminDelegationScenario(policy: ExecutionPolicy)
    returns (firstAdmin: bool, secondAdmin: bool, afterRevoke: bool)
    ensures firstAdmin && secondAdmin && !afterRevoke
  {
    var l := AdvancedSetup(policy);
    var a1 := l.AssignAdminRole(OWNER, 0, USER1);
    firstAdmin := l.IsAdmin(0, USER1);
    assert l.aaos[0].active && USER1 in l.admins[0] && l.aaos[0].owner == OWNER;
    var a2 := l.AssignAdminRole(USER1, 0, USER2);
    secondAdmin := l.IsAdmin(0, USER2);
    var r := l.RevokeAdminRole(OWNER, 0, USER2);
    afterRevoke := l.IsAdmin(0, USER2);
  }

  /** test/facets/AAOAdvanced.test.js, second AAO: USER1 joins AAO 1 and
      files a proposal there, which takes id 1 because proposal ids are
      counted across all AAOs. */
  method SecondAAOScenario(policy: ExecutionPolicy) returns (joined: bool, pid: Result<ProposalId, Error>, filed: Proposal)
    ensures joined
    ensures pid == Success(1)
    ensures filed.text == "Micro AAO Proposal" && filed.aaoId == 1
  {
    var l, first := FirstProposal(policy);
    var j := l.JoinAAO(USER1, 1);
    joined := l.IsMember(1, USER1);
    pid := l.SubmitProposal(USER1, 1, "Micro AAO Proposal");
    filed := l.GetProposal(1).value;
  }

  /** The deployment after the two proposals above: ids 0 and 1 are taken. */
  method TwoProposalsFiled(policy: ExecutionPolicy) returns (l: AAOLedger)
    ensures fresh(l) && l.Valid()
    ensures |l.aaos| == 2 && l.aaos[0].active && l.members[0] == {OWNER, USER1, USER2, USER3}
    ensures |l.proposals| == 2
  {
    var first;
    l, first := FirstProposal(policy);
    var j := l.JoinAAO(USER1, 1);
    var pid := l.SubmitProposal(USER1, 1, "Micro AAO Proposal");
  }

  /** The token-integration test's third proposal on AAO 0, with USER1's
      and USER2's votes for it. */
  method ThirdProposalBacked(policy: ExecutionPolicy) returns (l: AAOLedger, pid: Result<ProposalId, Error>)
    ensures fresh(l) && l.Valid()
    ensures pid == Success(2)
    ensures |l.proposals| == 3 && l.proposals[2].aaoId < |l.aaos| && l.aaos[l.proposals[2].aaoId].active
    ensures l.proposals[2].status == Active
    ensures l.proposals[2].forVotes == 2 && l.proposals[2].againstVotes == 0
  {
    l := TwoProposalsFiled(policy);
    pid := l.SubmitProposal(USER1, 0, "Proposal to use Mock Token for AAO operations");
    assert l.proposals[2].forVotes == 0 && l.proposals[2].againstVotes == 0 && l.ballots[2] == map[];
    var v1 := l.Vote(USER1, 2, true);
    assert l.proposals[2].forVotes == 1 && l.proposals[2].againstVotes == 0 && l.ballots[2] == map[USER1 := true];
    var v2 := l.Vote(USER2, 2, true);
  }

  /** test/facets/AAOAdvanced.test.js, token integration: a third proposal
      on AAO 0 takes id 2; with two votes for it, execution marks it
      Executed (status 1). */
  method ThirdProposalScenario(policy: ExecutionPolicy) returns (pid: Result<ProposalId, Error>, executed: Proposal)
    ensures pid == Success(2)
    ensures ProposalStatusCode(executed.status) == 1
  {
    var l;
    l, pid := ThirdProposalBacked(policy);
    var e := l.ExecuteProposal(2);
    executed := l.GetProposal(2).value;
  }

  /** test/facets/AAOFactory.test.js, Macro factory: the caller (not the
      factory) owns the new active Macro AAO, whose `AAOCreated` event
      names the caller, the topic and the Macro kind. */
  method MacroFactoryScenario(policy: ExecutionPolicy) returns (created: AAO, event: Event, other: AAO)
    ensures created.topic == "Test Macro AAO" && created.duration == 2592000
    ensures created.owner == OWNER && created.active && created.isMacro
    ensures event.AAOCreated? && event.creator == OWNER && event.topic == "Event Test Macro AAO" && event.isMacro
    ensures other.owner == USER1
  {
    var l := new AAOLedger(policy);
    var macros := new MacroAAOFactory(l);
    var a := macros.CreateMacroAAO(OWNER, "Test Macro AAO", 60 * 60 * 24 * 30);
    created := l.GetAAO(a).value;
    var b := macros.CreateMacroAAO(OWNER, "Event Test Macro AAO", 60 * 60 * 24 * 30);
    event := l.log[|l.log| - 1];
    var c := macros.CreateMacroAAO(USER1, "User1 Macro AAO", 60 * 60 * 24 * 30);
    other := l.GetAAO(c).value;
  }

  /** test/facets/AAOFactory.test.js, Micro factory: a Micro AAO under a
      Macro records its parent; parent 9999 reverts with "Parent Macro AAO
      does not exist" and a Micro parent with "Parent AAO must be a Macro
      AAO". */
  method MicroFactoryScenario(policy: ExecutionPolicy)
    returns (micro: AAO, parent: Result<AaoId, Error>, macroId: AaoId,
             missing: Result<AaoId, string>, nested: Result<AaoId, string>)
    ensures micro.topic == "Child Micro AAO" && micro.duration == 1296000
    ensures micro.owner == OWNER && micro.active && !micro.isMacro
    ensures parent == Success(macroId)
    ensures missing == Failure(PARENT_NOT_FOUND_REASON)
    ensures nested == Failure(PARENT_NOT_MACRO_REASON)
  {
    var l := new AAOLedger(policy);
    var macros := new MacroAAOFactory(l);
    var micros := new MicroAAOFactory(l, macros);
    macroId := macros.CreateMacroAAO(OWNER, "Parent Macro AAO", 60 * 60 * 24 * 30);
    var m := micros.CreateMicroAAO(OWNER, "Child Micro AAO", 60 * 60 * 24 * 15, macroId);
    micro := l.GetAAO(m.value).value;
    parent := l.GetMacroAAOId(m.value);
    missing := micros.CreateMicroAAO(OWNER, "Invalid Parent Micro AAO", 60 * 60 * 24 * 15, 9999);
    nested := micros.CreateMicroAAO(OWNER, "Second Micro AAO", 60 * 60 * 24 * 15, m.value);
  }

  /** test/facets/AAOFactory.test.js, integration: each factory creation
      adds one to the total count, and the new Macro's id is the count less
      one. */
  method FactoryCountScenario(policy: ExecutionPolicy) returns (initialCount: nat, afterMacro: nat, finalCount: nat)
    ensures afterMacro == initialCount + 1 && finalCount == afterMacro + 1
  {
    var l := new AAOLedger(policy);
    var macros := new MacroAAOFactory(l);
    var micros := new MicroAAOFactory(l, macros);
    initialCount := l.GetTotalAAOCount();
    var a := macros.CreateMacroAAO(OWNER, "Count Test Macro AAO", 60 * 60 * 24 * 30);
    afterMacro := l.GetTotalAAOCount();
    var m := micros.CreateMicroAAO(OWNER, "Count Test Micro AAO", 60 * 60 * 24 * 15, afterMacro - 1);
    finalCount := l.GetTotalAAOCount();
  }

  /** The deployment of the creator-list test, abbreviated: the file's
      deployment is shared by all its tests, so by then USER1 has already
      created other AAOs; here the deployer's Macro AAO stands for that
      history, followed by the two Macro AAOs USER1 creates through the
      factory. The postconditions speak only of those two. */
  method TwoMacrosByUser1(policy: ExecutionPolicy) returns (l: AAOLedger, u1: AaoId, u2: AaoId)
    ensures fresh(l) && l.Valid()
    ensures u1 != u2 && u1 < |l.aaos| && u2 < |l.aaos|
    ensures l.aaos[u1].owner == USER1 && l.aaos[u2].owner == USER1
  {
    l := new AAOLedger(policy);
    var macros := new MacroAAOFactory(l);
    var a := macros.CreateMacroAAO(OWNER, "Parent Macro AAO", 60 * 60 * 24 * 30);
    u1 := macros.CreateMacroAAO(USER1, "User1 AAO 1", 60 * 60 * 24 * 30);
    assert l.aaos[u1].owner == USER1;
    u2 := macros.CreateMacroAAO(USER1, "User1 AAO 2", 60 * 60 * 24 * 30);
  }

  /** test/facets/AAOFactory.test.js, integration: after USER1 creates two
      Macro AAOs, USER1's list holds at least two ids and every AAO it
      names is owned by USER1. */
  method CreatorListScenario(policy: ExecutionPolicy) returns (byUser1: seq<AaoId>, owners: seq<Address>)
    ensures |byUser1| >= 2
    ensures |owners| == |byUser1| && forall k :: 0 <= k < |owners| ==> owners[k] == USER1
  {
    var l, u1, u2 := TwoMacrosByUser1(policy);
    byUser1 := l.GetAAOsByCreator(USER1);
    assert u1 in byUser1 && u2 in byUser1 && u1 != u2;
    owners := [];
    var k := 0;
    while k < |byUser1|
      invariant 0 <= k <= |byUser1| && |owners| == k
      invariant forall j :: 0 <= j < k ==> owners[j] == USER1
    {
      assert byUser1[k] in byUser1;
      owners := owners + [l.GetAAO(byUser1[k]).value.owner];
      k := k + 1;
    }
  }
}
