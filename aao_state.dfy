/** The governance ledger's storage as a value: AAOs (macro and micro
    organisations), their members and admins, proposals with their ballots,
    bounty tasks, the per-creator index and the event log. The invariant
    `Inv`, the evolution relation `Evolves` and, per entry point, the reason
    (if any) it reverts are defined here; the class in module AAOLedger
    updates this state in place. */
module AAOState {
  import opened Common

  type AaoId = nat
  type ProposalId = nat
  type TaskId = nat

  /** One AAO as `getAAO` reports it. `parent` is the Macro a Micro AAO
      belongs to. */
  datatype AAO = AAO(topic: string, owner: Address, duration: nat, active: bool, isMacro: bool, parent: Option<AaoId>)

  /** Proposal status, reported as 0 (Active), 1 (Executed), 2 (Rejected). */
  datatype ProposalStatus = Active | Executed | Rejected

  function ProposalStatusCode(st: ProposalStatus): (code: nat)
    ensures code <= 2
    ensures code == 0 <==> st == Active
    ensures code == 1 <==> st == Executed
  {
    match st
    case Active => 0
    case Executed => 1
    case Rejected => 2
  }

  datatype Proposal = Proposal(aaoId: AaoId, proposer: Address, text: string, forVotes: nat, againstVotes: nat, status: ProposalStatus)

  /** Task status, reported as 0 (Open), 1 (Assigned), 2 (Completed),
      3 (Verified). */
  datatype TaskStatus = Open | Assigned | Completed | Verified

  function TaskStatusCode(st: TaskStatus): (code: nat)
    ensures code <= 3
    ensures code == 1 <==> st == Assigned
    ensures code == 3 <==> st == Verified
  {
    match st
    case Open => 0
    case Assigned => 1
    case Completed => 2
    case Verified => 3
  }

  datatype Task = Task(aaoId: AaoId, description: string, reward: nat, assignee: Option<Address>, status: TaskStatus)

  /** What `executeProposal` demands of the tallies: nothing, or strictly
      more votes for than against. */
  datatype ExecutionPolicy = Unconditional | SimpleMajority

  datatype Event =
    | AAOCreated(aaoId: AaoId, creator: Address, topic: string, isMacro: bool)
    | AAOModified(aaoId: AaoId, topic: string, duration: nat)
    | AAOTerminated(aaoId: AaoId)
    | AAOMemberJoined(aaoId: AaoId, member: Address)
    | AAOMemberLeft(aaoId: AaoId, member: Address)
    | AAOAdminAssigned(aaoId: AaoId, admin: Address)
    | AAOAdminRevoked(aaoId: AaoId, admin: Address)
    | ProposalSubmitted(proposalId: ProposalId, aaoId: AaoId, proposer: Address)
    | VoteCast(proposalId: ProposalId, voter: Address, support: bool)
    | ProposalExecuted(proposalId: ProposalId)
    | BountyCreated(taskId: TaskId, aaoId: AaoId, reward: nat)
    | TaskAssigned(taskId: TaskId, assignee: Address)
    | TaskCompleted(taskId: TaskId)
    | TaskVerified(taskId: TaskId, approved: bool)

  datatype Error =
    | AAONotFound
    | ParentNotFound
    | ParentNotMacro
    | NotOwner
    | NotPrivileged
    | AAOInactive
    | AlreadyTerminated
    | AlreadyMember
    | NotMember
    | OwnerCannotLeave
    | NotAnAdmin
    | ProposalNotFound
    | ProposalNotActive
    | AlreadyVoted
    | MajorityNotReached
    | TaskNotFound
    | TaskNotOpen
    | TaskNotAssigned
    | NotAssignee
    | TaskNotCompleted
    | NotAMicroAAO

  /** Revert reasons of the two parent checks of Micro AAO creation. */
  const PARENT_NOT_FOUND_REASON: string := "Parent Macro AAO does not exist"
  const PARENT_NOT_MACRO_REASON: string := "Parent AAO must be a Macro AAO"

  /** The ledger's whole storage. Ids are positions: AAO `i` is `aaos[i]`
      with members `members[i]` and admins `admins[i]`; proposal `p` is
      `proposals[p]` with ballots `ballots[p]` (voter to support); task `t`
      is `tasks[t]`. */
  datatype LedgerState = LedgerState(
    aaos: seq<AAO>,
    members: seq<set<Address>>,
    admins: seq<set<Address>>,
    proposals: seq<Proposal>,
    ballots: seq<map<Address, bool>>,
    tasks: seq<Task>,
    byCreator: map<Address, seq<AaoId>>,
    log: seq<Event>)

  const EMPTY_LEDGER: LedgerState := LedgerState([], [], [], [], [], [], map[], [])

  /** The voters who voted for, and against. */
  function Supporters(b: map<Address, bool>): set<Address>
  {
    set v | v in b && b[v]
  }

  function Opponents(b: map<Address, bool>): set<Address>
  {
    set v | v in b && !b[v]
  }

  /** The ids of the AAOs owned by `u`, in creation order. */
  function IdsOwnedBy(aaos: seq<AAO>, u: Address): seq<AaoId>
    decreases |aaos|
  {
    if aaos == [] then []
    else IdsOwnedBy(aaos[..|aaos| - 1], u) + (if aaos[|aaos| - 1].owner == u then [|aaos| - 1] else [])
  }

  /** What `getAAOsByCreator(u)` returns: the list kept for `u`. */
  function CreatorList(s: LedgerState, u: Address): seq<AaoId>
  {
    if u in s.byCreator then s.byCreator[u] else []
  }

  /** A Macro AAO has no parent; a Micro AAO's parent is an earlier Macro. */
  ghost predicate WellLinked(aaos: seq<AAO>, i: nat)
    requires i < |aaos|
  {
    && (aaos[i].isMacro <==> aaos[i].parent.None?)
    && (aaos[i].parent.Some? ==> aaos[i].parent.value < i && aaos[aaos[i].parent.value].isMacro)
  }

  /** A proposal's tallies count its ballots for and against. */
  ghost predicate TalliesMatch(p: Proposal, b: map<Address, bool>)
  {
    p.forVotes == |Supporters(b)| && p.againstVotes == |Opponents(b)|
  }

  ghost predicate TaskConsistent(t: Task, aaoCount: nat)
  {
    t.aaoId < aaoCount && (t.status == Open <==> t.assignee.None?)
  }

  /** The ledger invariant. */
  ghost predicate Inv(s: LedgerState)
  {
    && |s.members| == |s.aaos| && |s.admins| == |s.aaos|
    && (forall i :: 0 <= i < |s.aaos| ==> s.aaos[i].owner in s.members[i])
    && (forall i :: 0 <= i < |s.aaos| ==> WellLinked(s.aaos, i))
    && |s.ballots| == |s.proposals|
    && (forall p :: 0 <= p < |s.proposals| ==> s.proposals[p].aaoId < |s.aaos|)
    && (forall p :: 0 <= p < |s.proposals| ==> TalliesMatch(s.proposals[p], s.ballots[p]))
    && (forall t :: 0 <= t < |s.tasks| ==> TaskConsistent(s.tasks[t], |s.aaos|))
    && (forall u :: CreatorList(s, u) == IdsOwnedBy(s.aaos, u))
  }

  /** How one AAO record may change: owner, kind and parent never change,
      and once inactive the record is frozen. */
  ghost predicate AAOEvolves(a: AAO, a': AAO)
  {
    && a'.owner == a.owner && a'.isMacro == a.isMacro && a'.parent == a.parent
    && (!a.active ==> a' == a)
  }

  /** Every ballot cast stays cast, with the same choice. */
  ghost predicate BallotsKept(b: map<Address, bool>, b': map<Address, bool>)
  {
    forall v :: v in b ==> v in b' && b'[v] == b[v]
  }

  /** How one proposal may change: its AAO, proposer and text never change,
      tallies never decrease, and a decided proposal stays decided. */
  ghost predicate ProposalEvolves(p: Proposal, p': Proposal)
  {
    && p'.aaoId == p.aaoId && p'.proposer == p.proposer && p'.text == p.text
    && p'.forVotes >= p.forVotes && p'.againstVotes >= p.againstVotes
    && (p.status != Active ==> p'.status == p.status)
  }

  /** How one task may change: AAO, description and reward never change,
      and a verified task stays verified with the same assignee. */
  ghost predicate TaskEvolves(t: Task, t': Task)
  {
    && t'.aaoId == t.aaoId && t'.description == t.description && t'.reward == t.reward
    && (t.status == Verified ==> t' == t)
  }

  /** The relation every entry point keeps between the state before and
      after it: ids are never reused or dropped, the log only grows, the
      records evolve as above, and everything that belongs to an inactive
      AAO (its record, members, admins, proposals, ballots, tasks) is
      frozen. */
  ghost predicate Evolves(s: LedgerState, s': LedgerState)
    requires Inv(s) && Inv(s')
  {
    && |s.aaos| <= |s'.aaos| && |s.proposals| <= |s'.proposals| && |s.tasks| <= |s'.tasks|
    && s.log <= s'.log
    && (forall i :: 0 <= i < |s.aaos| ==> AAOEvolves(s.aaos[i], s'.aaos[i]))
    && (forall i :: 0 <= i < |s.aaos| && !s.aaos[i].active ==>
          s'.members[i] == s.members[i] && s'.admins[i] == s.admins[i])
    && (forall p :: 0 <= p < |s.proposals| ==>
          ProposalEvolves(s.proposals[p], s'.proposals[p]) && BallotsKept(s.ballots[p], s'.ballots[p]))
    && (forall p :: 0 <= p < |s.proposals| && !s.aaos[s.proposals[p].aaoId].active ==>
          s'.proposals[p] == s.proposals[p] && s'.ballots[p] == s.ballots[p])
    && (forall t :: 0 <= t < |s.tasks| ==> TaskEvolves(s.tasks[t], s'.tasks[t]))
    && (forall t :: 0 <= t < |s.tasks| && !s.aaos[s.tasks[t].aaoId].active ==> s'.tasks[t] == s.tasks[t])
  }

  /** The proposal after one more ballot for (`support`) or against it. */
  function Tallied(p: Proposal, support: bool): Proposal
  {
    if support then p.(forVotes := p.forVotes + 1) else p.(againstVotes := p.againstVotes + 1)
  }

  /** The ballots after `v` votes `support`. */
  function WithBallot(b: map<Address, bool>, v: Address, support: bool): map<Address, bool>
  {
    b[v := support]
  }

  /** The ledger after `caller` votes `support` on proposal `pid`. */
  function AfterVote(s: LedgerState, caller: Address, pid: ProposalId, support: bool): LedgerState
    requires pid < |s.proposals| && pid < |s.ballots|
  {
    s.(proposals := s.proposals[pid := Tallied(s.proposals[pid], support)],
       ballots := s.ballots[pid := WithBallot(s.ballots[pid], caller, support)],
       log := s.log + [VoteCast(pid, caller, support)])
  }

  /** The ledger after `creator` creates an AAO under `parent` (a Macro
      when there is none): the new id is the number of AAOs so far, the
      creator is the first member, there are no admins, and the id is
      appended to the creator's list. */
  function AfterCreate(s: LedgerState, creator: Address, topic: string, duration: nat, parent: Option<AaoId>): LedgerState
  {
    var id := |s.aaos|;
    s.(aaos := s.aaos + [AAO(topic, creator, duration, true, parent.None?, parent)],
       members := s.members + [{creator}],
       admins := s.admins + [{}],
       byCreator := s.byCreator[creator := CreatorList(s, creator) + [id]],
       log := s.log + [AAOCreated(id, creator, topic, parent.None?)])
  }

  /** The owner and the admins of an AAO are its privileged accounts. */
  predicate Privileged(s: LedgerState, id: AaoId, a: Address)
    requires Inv(s) && id < |s.aaos|
  {
    a == s.aaos[id].owner || a in s.admins[id]
  }

  // ---- Why each entry point reverts (None: it succeeds) ----

  /** Creation under `parent`: the parent must exist and be a Macro. */
  function CreateFailure(s: LedgerState, parent: Option<AaoId>): Option<Error>
  {
    match parent
    case None => None
    case Some(p) =>
      if p >= |s.aaos| then Some(ParentNotFound)
      else if !s.aaos[p].isMacro then Some(ParentNotMacro)
      else None
  }

  /** The AAO must exist and still be active. */
  function ActiveAAOFailure(s: LedgerState, id: AaoId): Option<Error>
  {
    if id >= |s.aaos| then Some(AAONotFound)
    else if !s.aaos[id].active then Some(AAOInactive)
    else None
  }

  function ModifyFailure(s: LedgerState, caller: Address, id: AaoId): Option<Error>
  {
    if id >= |s.aaos| then Some(AAONotFound)
    else if caller != s.aaos[id].owner then Some(NotOwner)
    else if !s.aaos[id].active then Some(AAOInactive)
    else None
  }

  function TerminateFailure(s: LedgerState, caller: Address, id: AaoId): Option<Error>
  {
    if id >= |s.aaos| then Some(AAONotFound)
    else if caller != s.aaos[id].owner then Some(NotOwner)
    else if !s.aaos[id].active then Some(AlreadyTerminated)
    else None
  }

  function JoinFailure(s: LedgerState, caller: Address, id: AaoId): Option<Error>
    requires Inv(s)
  {
    if ActiveAAOFailure(s, id).Some? then ActiveAAOFailure(s, id)
    else if caller in s.members[id] then Some(AlreadyMember)
    else None
  }

  function LeaveFailure(s: LedgerState, caller: Address, id: AaoId): Option<Error>
    requires Inv(s)
  {
    if ActiveAAOFailure(s, id).Some? then ActiveAAOFailure(s, id)
    else if caller !in s.members[id] then Some(NotMember)
    else if caller == s.aaos[id].owner then Some(OwnerCannotLeave)
    else None
  }

  function AssignAdminFailure(s: LedgerState, caller: Address, id: AaoId): Option<Error>
    requires Inv(s)
  {
    if ActiveAAOFailure(s, id).Some? then ActiveAAOFailure(s, id)
    else if !Privileged(s, id, caller) then Some(NotPrivileged)
    else None
  }

  function RevokeAdminFailure(s: LedgerState, caller: Address, id: AaoId, target: Address): Option<Error>
    requires Inv(s)
  {
    if ActiveAAOFailure(s, id).Some? then ActiveAAOFailure(s, id)
    else if caller != s.aaos[id].owner then Some(NotOwner)
    else if target !in s.admins[id] then Some(NotAnAdmin)
    else None
  }

  function SubmitFailure(s: LedgerState, caller: Address, id: AaoId): Option<Error>
    requires Inv(s)
  {
    if ActiveAAOFailure(s, id).Some? then ActiveAAOFailure(s, id)
    else if caller !in s.members[id] then Some(NotMember)
    else None
  }

  function VoteFailure(s: LedgerState, caller: Address, pid: ProposalId): Option<Error>
    requires Inv(s)
  {
    if pid >= |s.proposals| then Some(ProposalNotFound)
    else
      var id := s.proposals[pid].aaoId;
      if ActiveAAOFailure(s, id).Some? then ActiveAAOFailure(s, id)
      else if caller !in s.members[id] then Some(NotMember)
      else if s.proposals[pid].status != Active then Some(ProposalNotActive)
      else if caller in s.ballots[pid] then Some(AlreadyVoted)
      else None
  }

  function ExecuteFailure(s: LedgerState, policy: ExecutionPolicy, pid: ProposalId): Option<Error>
    requires Inv(s)
  {
    if pid >= |s.proposals| then Some(ProposalNotFound)
    else
      var p := s.proposals[pid];
      if ActiveAAOFailure(s, p.aaoId).Some? then ActiveAAOFailure(s, p.aaoId)
      else if p.status != Active then Some(ProposalNotActive)
      else if policy == SimpleMajority && p.forVotes <= p.againstVotes then Some(MajorityNotReached)
      else None
  }

  function CreateBountyFailure(s: LedgerState, caller: Address, id: AaoId): Option<Error>
    requires Inv(s)
  {
    if ActiveAAOFailure(s, id).Some? then ActiveAAOFailure(s, id)
    else if !Privileged(s, id, caller) then Some(NotPrivileged)
    else None
  }

  function AssignTaskFailure(s: LedgerState, caller: Address, tid: TaskId): Option<Error>
    requires Inv(s)
  {
    if tid >= |s.tasks| then Some(TaskNotFound)
    else
      var t := s.tasks[tid];
      if ActiveAAOFailure(s, t.aaoId).Some? then ActiveAAOFailure(s, t.aaoId)
      else if caller !in s.members[t.aaoId] then Some(NotMember)
      else if t.status != Open then Some(TaskNotOpen)
      else None
  }

  function CompleteTaskFailure(s: LedgerState, caller: Address, tid: TaskId): Option<Error>
    requires Inv(s)
  {
    if tid >= |s.tasks| then Some(TaskNotFound)
    else
      var t := s.tasks[tid];
      if ActiveAAOFailure(s, t.aaoId).Some? then ActiveAAOFailure(s, t.aaoId)
      else if t.status != Assigned then Some(TaskNotAssigned)
      else if t.assignee != Some(caller) then Some(NotAssignee)
      else None
  }

  function VerifyTaskFailure(s: LedgerState, caller: Address, tid: TaskId): Option<Error>
    requires Inv(s)
  {
    if tid >= |s.tasks| then Some(TaskNotFound)
    else
      var t := s.tasks[tid];
      if ActiveAAOFailure(s, t.aaoId).Some? then ActiveAAOFailure(s, t.aaoId)
      else if !Privileged(s, t.aaoId, caller) then Some(NotPrivileged)
      else if t.status != Completed then Some(TaskNotCompleted)
      else None
  }

  // ---- Lemmas ----

  /** `IdsOwnedBy` lists exactly the AAOs owned by `u`, in strictly
      increasing id order. */
  lemma {:induction false} IdsOwnedByExactly(aaos: seq<AAO>, u: Address)
    ensures forall i: nat :: i in IdsOwnedBy(aaos, u) <==> i < |aaos| && aaos[i].owner == u
    ensures forall k, l :: 0 <= k < l < |IdsOwnedBy(aaos, u)| ==> IdsOwnedBy(aaos, u)[k] < IdsOwnedBy(aaos, u)[l]
    decreases |aaos|
  {
    if aaos != [] {
      var n := |aaos| - 1;
      var init := aaos[..n];
      IdsOwnedByExactly(init, u);
      assert forall i :: 0 <= i < n ==> init[i] == aaos[i];
      var ids := IdsOwnedBy(aaos, u);
      var prefix := IdsOwnedBy(init, u);
      assert ids == prefix + (if aaos[n].owner == u then [n] else []);
      assert forall x :: x in prefix ==> x < n;
      forall k, l | 0 <= k < l < |ids| ensures ids[k] < ids[l] {
        if l >= |prefix| {
          assert ids[l] == n && ids[k] == prefix[k] && prefix[k] in prefix;
        }
      }
    }
  }

  /** Creating one more AAO adds its id to its owner's list and to no
      other list. */
  lemma IdsOwnedByAppend(aaos: seq<AAO>, a: AAO, u: Address)
    ensures IdsOwnedBy(aaos + [a], u) == IdsOwnedBy(aaos, u) + (if a.owner == u then [|aaos|] else [])
  {
    assert (aaos + [a])[..|aaos|] == aaos;
  }

  /** The lists depend only on the owners: changing any other field of the
      records (topic, duration, active) leaves every list as it was. */
  lemma {:induction false} IdsOwnedBySameOwners(a: seq<AAO>, b: seq<AAO>, u: Address)
    requires |a| == |b|
    requires forall i :: 0 <= i < |a| ==> a[i].owner == b[i].owner
    ensures IdsOwnedBy(a, u) == IdsOwnedBy(b, u)
    decreases |a|
  {
    if a != [] {
      IdsOwnedBySameOwners(a[..|a| - 1], b[..|b| - 1], u);
    }
  }

  /** A new ballot raises exactly one tally by one. */
  lemma TallyAfterBallot(b: map<Address, bool>, v: Address, support: bool)
    requires v !in b
    ensures Supporters(b[v := support]) == if support then Supporters(b) + {v} else Supporters(b)
    ensures Opponents(b[v := support]) == if support then Opponents(b) else Opponents(b) + {v}
    ensures |Supporters(b[v := support])| == |Supporters(b)| + (if support then 1 else 0)
    ensures |Opponents(b[v := support])| == |Opponents(b)| + (if support then 0 else 1)
  {
    assert v !in Supporters(b) && v !in Opponents(b);
  }

  /** The state of a fresh deployment satisfies the invariant. */
  lemma EmptyLedgerInv()
    ensures Inv(EMPTY_LEDGER)
  {
  }

  /** In a consistent ledger no account is counted twice on one proposal:
      the tallies together equal the number of distinct voters. */
  lemma {:induction false} OneBallotPerVoter(s: LedgerState, pid: ProposalId)
    requires Inv(s) && pid < |s.proposals|
    ensures s.proposals[pid].forVotes + s.proposals[pid].againstVotes == |s.ballots[pid]|
  {
    var b := s.ballots[pid];
    assert TalliesMatch(s.proposals[pid], b);
    assert Supporters(b) !! Opponents(b);
    assert Supporters(b) + Opponents(b) == b.Keys;
  }

  /** An admitted ballot only adds to one proposal's ballots and tallies,
      so it is an allowed evolution of any consistent ledger. */
  lemma VoteEvolves(s: LedgerState, caller: Address, pid: ProposalId, support: bool)
    requires Inv(s) && VoteFailure(s, caller, pid).None?
    requires Inv(AfterVote(s, caller, pid, support))
    ensures Evolves(s, AfterVote(s, caller, pid, support))
  {
    var s' := AfterVote(s, caller, pid, support);
    assert s'.aaos == s.aaos && s'.members == s.members && s'.admins == s.admins && s'.tasks == s.tasks;
    assert ProposalEvolves(s.proposals[pid], s'.proposals[pid]);
    assert BallotsKept(s.ballots[pid], s'.ballots[pid]);
    assert forall q :: 0 <= q < |s.proposals| && q != pid ==>
      s'.proposals[q] == s.proposals[q] && s'.ballots[q] == s.ballots[q];
  }

  /** A ballot that `VoteFailure` admits keeps the invariant and is an
      allowed evolution: the tally that moves is the one matching the
      ballot, and no earlier ballot changes. */
  lemma VoteKeepsInv(s: LedgerState, caller: Address, pid: ProposalId, support: bool)
    requires Inv(s) && VoteFailure(s, caller, pid).None?
    ensures Inv(AfterVote(s, caller, pid, support))
    ensures Evolves(s, AfterVote(s, caller, pid, support))
  {
    var s' := AfterVote(s, caller, pid, support);
    TallyAfterBallot(s.ballots[pid], caller, support);
    forall q | 0 <= q < |s'.proposals|
      ensures s'.proposals[q].aaoId < |s'.aaos| && TalliesMatch(s'.proposals[q], s'.ballots[q])
    {
      if q != pid {
        assert s'.proposals[q] == s.proposals[q] && s'.ballots[q] == s.ballots[q];
        assert TalliesMatch(s.proposals[q], s.ballots[q]);
      }
    }
    assert s'.aaos == s.aaos && s'.byCreator == s.byCreator;
    assert Inv(s');
    VoteEvolves(s, caller, pid, support);
  }

  /** After a creation every creator's list is still the ids it owns. */
  lemma CreatorListsAfterCreate(s: LedgerState, creator: Address, topic: string, duration: nat, parent: Option<AaoId>)
    requires forall u :: CreatorList(s, u) == IdsOwnedBy(s.aaos, u)
    ensures forall u ::
      CreatorList(AfterCreate(s, creator, topic, duration, parent), u)
        == IdsOwnedBy(AfterCreate(s, creator, topic, duration, parent).aaos, u)
  {
    var s' := AfterCreate(s, creator, topic, duration, parent);
    forall u ensures CreatorList(s', u) == IdsOwnedBy(s'.aaos, u) {
      IdsOwnedByAppend(s.aaos, s'.aaos[|s.aaos|], u);
    }
  }

  /** After a creation whose parent is an existing Macro (or absent) every
      record is still well linked and lists its owner as a member. */
  lemma CreatedRecordLinked(s: LedgerState, creator: Address, topic: string, duration: nat, parent: Option<AaoId>)
    requires |s.members| == |s.aaos| && CreateFailure(s, parent).None?
    requires forall i :: 0 <= i < |s.aaos| ==> WellLinked(s.aaos, i) && s.aaos[i].owner in s.members[i]
    ensures var s' := AfterCreate(s, creator, topic, duration, parent);
      forall i :: 0 <= i < |s'.aaos| ==> WellLinked(s'.aaos, i) && s'.aaos[i].owner in s'.members[i]
  {
    var s' := AfterCreate(s, creator, topic, duration, parent);
    forall i | 0 <= i < |s'.aaos| ensures WellLinked(s'.aaos, i) && s'.aaos[i].owner in s'.members[i] {
      if i < |s.aaos| {
        assert s'.aaos[i] == s.aaos[i] && s'.members[i] == s.members[i];
        assert WellLinked(s.aaos, i) && s.aaos[i].owner in s.members[i];
      }
    }
  }

  /** A creation keeps every earlier record, so it is an allowed evolution
      of any consistent ledger. */
  lemma CreateEvolves(s: LedgerState, creator: Address, topic: string, duration: nat, parent: Option<AaoId>)
    requires Inv(s) && Inv(AfterCreate(s, creator, topic, duration, parent))
    ensures Evolves(s, AfterCreate(s, creator, topic, duration, parent))
  {
    var s' := AfterCreate(s, creator, topic, duration, parent);
    assert s'.proposals == s.proposals && s'.ballots == s.ballots && s'.tasks == s.tasks;
    assert forall i :: 0 <= i < |s.aaos| ==>
      s'.aaos[i] == s.aaos[i] && s'.members[i] == s.members[i] && s'.admins[i] == s.admins[i];
  }

  /** A creation that `CreateFailure` admits keeps the invariant (in
      particular every creator's list stays the ids it owns) and is an
      allowed evolution. */
  lemma CreateKeepsInv(s: LedgerState, creator: Address, topic: string, duration: nat, parent: Option<AaoId>)
    requires Inv(s) && CreateFailure(s, parent).None?
    ensures Inv(AfterCreate(s, creator, topic, duration, parent))
    ensures Evolves(s, AfterCreate(s, creator, topic, duration, parent))
  {
    var s' := AfterCreate(s, creator, topic, duration, parent);
    CreatorListsAfterCreate(s, creator, topic, duration, parent);
    CreatedRecordLinked(s, creator, topic, duration, parent);
    forall t | 0 <= t < |s'.tasks| ensures TaskConsistent(s'.tasks[t], |s'.aaos|) {
      assert TaskConsistent(s.tasks[t], |s.aaos|);
    }
    assert Inv(s');
    CreateEvolves(s, creator, topic, duration, parent);
  }
}
