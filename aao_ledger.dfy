/** The AAO facet with its library storage: one object whose fields are the
    ledger's storage, updated in place by one method per entry point. Each
    method takes the transaction's sender as `caller`, reverts (returns a
    failure and changes nothing) exactly when the matching `...Failure`
    function of module AAOState gives a reason, and otherwise states the
    whole new state. Every method keeps the invariant `Inv` and the
    evolution relation `Evolves`. */
module AAOLedger {
  import opened Common
  import opened AAOState

  class AAOLedger {
    /** The rule `executeProposal` applies to the tallies. */
    const policy: ExecutionPolicy

    var aaos: seq<AAO>
    var members: seq<set<Address>>
    var admins: seq<set<Address>>
    var proposals: seq<Proposal>
    var ballots: seq<map<Address, bool>>
    var tasks: seq<Task>
    var byCreator: map<Address, seq<AaoId>>
    var log: seq<Event>

    ghost function State(): LedgerState
      reads this
    {
      LedgerState(aaos, members, admins, proposals, ballots, tasks, byCreator, log)
    }

    ghost predicate Valid()
      reads this
    {
      Inv(State())
    }

    constructor (policy: ExecutionPolicy)
      ensures Valid() && this.policy == policy
      ensures State() == EMPTY_LEDGER
    {
      this.policy := policy;
      aaos, members, admins := [], [], [];
      proposals, ballots, tasks := [], [], [];
      byCreator, log := map[], [];
    }

    /** Creates an AAO owned by `creator`: a Macro when `parent` is None, a
        Micro under the Macro `parent` otherwise. The new id is the number
        of AAOs created before; the creator is its first member; the id is
        appended to the creator's list; `AAOCreated` is emitted. */
    method CreateAAOFor(creator: Address, topic: string, duration: nat, parent: Option<AaoId>)
      returns (r: Result<AaoId, Error>)
      requires Valid()
      modifies this
      ensures Valid() && Evolves(old(State()), State())
      ensures CreateFailure(old(State()), parent).Some? ==>
        r == Failure(CreateFailure(old(State()), parent).value) && State() == old(State())
      ensures CreateFailure(old(State()), parent).None? ==>
        r == Success(|old(aaos)|) && State() == AfterCreate(old(State()), creator, topic, duration, parent)
    {
      if parent.Some? {
        if parent.value >= |aaos| {
          return Failure(ParentNotFound);
        }
        if !aaos[parent.value].isMacro {
          return Failure(ParentNotMacro);
        }
      }
      CreateKeepsInv(State(), creator, topic, duration, parent);
      var id := |aaos|;
      var mine := if creator in byCreator then byCreator[creator] else [];
      aaos := aaos + [AAO(topic, creator, duration, true, parent.None?, parent)];
      members := members + [{creator}];
      admins := admins + [{}];
      byCreator := byCreator[creator := mine + [id]];
      log := log + [AAOCreated(id, creator, topic, parent.None?)];
      r := Success(id);
    }

    /** `createAAO(topic, duration)`: a Macro AAO owned by the caller; it
        cannot revert. */
    method CreateAAO(caller: Address, topic: string, duration: nat) returns (id: AaoId)
      requires Valid()
      modifies this
      ensures Valid() && Evolves(old(State()), State())
      ensures id == |old(aaos)|
      ensures State() == AfterCreate(old(State()), caller, topic, duration, None)
    {
      var r := CreateAAOFor(caller, topic, duration, None);
      id := r.value;
    }

    /** `modifyAAO`: the owner of an active AAO replaces its topic and
        duration. */
    method ModifyAAO(caller: Address, id: AaoId, topic: string, duration: nat) returns (r: Outcome<Error>)
      requires Valid()
      modifies this
      ensures Valid() && Evolves(old(State()), State())
      ensures r == ToOutcome(ModifyFailure(old(State()), caller, id))
      ensures r.Fail? ==> State() == old(State())
      ensures r.Pass? ==> State() == old(State()).(
        aaos := old(aaos)[id := old(aaos)[id].(topic := topic, duration := duration)],
        log := old(log) + [AAOModified(id, topic, duration)])
    {
      if id >= |aaos| {
        return Fail(AAONotFound);
      }
      if caller != aaos[id].owner {
        return Fail(NotOwner);
      }
      if !aaos[id].active {
        return Fail(AAOInactive);
      }
      ghost var s := State();
      aaos := aaos[id := aaos[id].(topic := topic, duration := duration)];
      log := log + [AAOModified(id, topic, duration)];
      r := Pass;
      forall u ensures CreatorList(State(), u) == IdsOwnedBy(aaos, u) {
        IdsOwnedBySameOwners(s.aaos, aaos, u);
      }
      assert forall i :: 0 <= i < |aaos| ==> WellLinked(aaos, i) by {
        forall i | 0 <= i < |aaos| ensures WellLinked(aaos, i) {
          assert WellLinked(s.aaos, i);
        }
      }
    }

    /** `terminateAAO`: the owner makes an active AAO inactive, for good;
        terminating it a second time reverts. */
    method TerminateAAO(caller: Address, id: AaoId) returns (r: Outcome<Error>)
      requires Valid()
      modifies this
      ensures Valid() && Evolves(old(State()), State())
      ensures r == ToOutcome(TerminateFailure(old(State()), caller, id))
      ensures r.Fail? ==> State() == old(State())
      ensures r.Pass? ==> State() == old(State()).(
        aaos := old(aaos)[id := old(aaos)[id].(active := false)],
        log := old(log) + [AAOTerminated(id)])
    {
      if id >= |aaos| {
        return Fail(AAONotFound);
      }
      if caller != aaos[id].owner {
        return Fail(NotOwner);
      }
      if !aaos[id].active {
        return Fail(AlreadyTerminated);
      }
      ghost var s := State();
      aaos := aaos[id := aaos[id].(active := false)];
      log := log + [AAOTerminated(id)];
      r := Pass;
      forall u ensures CreatorList(State(), u) == IdsOwnedBy(aaos, u) {
        IdsOwnedBySameOwners(s.aaos, aaos, u);
      }
      assert forall i :: 0 <= i < |aaos| ==> WellLinked(aaos, i) by {
        forall i | 0 <= i < |aaos| ensures WellLinked(aaos, i) {
          assert WellLinked(s.aaos, i);
        }
      }
    }

    /** `joinAAO`: the caller becomes a member of an active AAO and
        `AAOMemberJoined` is emitted. */
    method JoinAAO(caller: Address, id: AaoId) returns (r: Outcome<Error>)
      requires Valid()
      modifies this
      ensures Valid() && Evolves(old(State()), State())
      ensures r == ToOutcome(JoinFailure(old(State()), caller, id))
      ensures r.Fail? ==> State() == old(State())
      ensures r.Pass? ==> State() == old(State()).(
        members := old(members)[id := old(members)[id] + {caller}],
        log := old(log) + [AAOMemberJoined(id, caller)])
    {
      if id >= |aaos| {
        return Fail(AAONotFound);
      }
      if !aaos[id].active {
        return Fail(AAOInactive);
      }
      if caller in members[id] {
        return Fail(AlreadyMember);
      }
      members := members[id := members[id] + {caller}];
      log := log + [AAOMemberJoined(id, caller)];
      r := Pass;
    }

    /** `leaveAAO`: a member other than the owner stops being a member. */
    method LeaveAAO(caller: Address, id: AaoId) returns (r: Outcome<Error>)
      requires Valid()
      modifies this
      ensures Valid() && Evolves(old(State()), State())
      ensures r == ToOutcome(LeaveFailure(old(State()), caller, id))
      ensures r.Fail? ==> State() == old(State())
      ensures r.Pass? ==> State() == old(State()).(
        members := old(members)[id := old(members)[id] - {caller}],
        log := old(log) + [AAOMemberLeft(id, caller)])
    {
      if id >= |aaos| {
        return Fail(AAONotFound);
      }
      if !aaos[id].active {
        return Fail(AAOInactive);
      }
      if caller !in members[id] {
        return Fail(NotMember);
      }
      if caller == aaos[id].owner {
        return Fail(OwnerCannotLeave);
      }
      members := members[id := members[id] - {caller}];
      log := log + [AAOMemberLeft(id, caller)];
      r := Pass;
    }

    /** `assignAdminRole`: the owner or an admin of an active AAO makes
        `target` an admin. */
    method AssignAdminRole(caller: Address, id: AaoId, target: Address) returns (r: Outcome<Error>)
      requires Valid()
      modifies this
      ensures Valid() && Evolves(old(State()), State())
      ensures r == ToOutcome(AssignAdminFailure(old(State()), caller, id))
      ensures r.Fail? ==> State() == old(State())
      ensures r.Pass? ==> State() == old(State()).(
        admins := old(admins)[id := old(admins)[id] + {target}],
        log := old(log) + [AAOAdminAssigned(id, target)])
    {
      if id >= |aaos| {
        return Fail(AAONotFound);
      }
      if !aaos[id].active {
        return Fail(AAOInactive);
      }
      if caller != aaos[id].owner && caller !in admins[id] {
        return Fail(NotPrivileged);
      }
      admins := admins[id := admins[id] + {target}];
      log := log + [AAOAdminAssigned(id, target)];
      r := Pass;
    }

    /** `revokeAdminRole`: the owner of an active AAO takes the admin role
        away from an admin. */
    method RevokeAdminRole(caller: Address, id: AaoId, target: Address) returns (r: Outcome<Error>)
      requires Valid()
      modifies this
      ensures Valid() && Evolves(old(State()), State())
      ensures r == ToOutcome(RevokeAdminFailure(old(State()), caller, id, target))
      ensures r.Fail? ==> State() == old(State())
      ensures r.Pass? ==> State() == old(State()).(
        admins := old(admins)[id := old(admins)[id] - {target}],
        log := old(log) + [AAOAdminRevoked(id, target)])
    {
      if id >= |aaos| {
        return Fail(AAONotFound);
      }
      if !aaos[id].active {
        return Fail(AAOInactive);
      }
      if caller != aaos[id].owner {
        return Fail(NotOwner);
      }
      if target !in admins[id] {
        return Fail(NotAnAdmin);
      }
      admins := admins[id := admins[id] - {target}];
      log := log + [AAOAdminRevoked(id, target)];
      r := Pass;
    }

    /** `submitProposal`: a member of an active AAO files a proposal; its id
        comes from one counter shared by all AAOs, it starts Active with no
        votes, and `ProposalSubmitted` is emitted. */
    method SubmitProposal(caller: Address, id: AaoId, text: string) returns (r: Result<ProposalId, Error>)
      requires Valid()
      modifies this
      ensures Valid() && Evolves(old(State()), State())
      ensures SubmitFailure(old(State()), caller, id).Some? ==>
        r == Failure(SubmitFailure(old(State()), caller, id).value) && State() == old(State())
      ensures SubmitFailure(old(State()), caller, id).None? ==>
        var pid := |old(proposals)|;
        && r == Success(pid)
        && State() == old(State()).(
             proposals := old(proposals) + [Proposal(id, caller, text, 0, 0, Active)],
             ballots := old(ballots) + [map[]],
             log := old(log) + [ProposalSubmitted(pid, id, caller)])
    {
      if id >= |aaos| {
        return Failure(AAONotFound);
      }
      if !aaos[id].active {
        return Failure(AAOInactive);
      }
      if caller !in members[id] {
        return Failure(NotMember);
      }
      var pid := |proposals|;
      proposals := proposals + [Proposal(id, caller, text, 0, 0, Active)];
      ballots := ballots + [map[]];
      log := log + [ProposalSubmitted(pid, id, caller)];
      r := Success(pid);
      assert Supporters(map[]) == {} && Opponents(map[]) == {};
    }

    /** `vote`: a member of the proposal's AAO casts one ballot on an Active
        proposal; the matching tally goes up by one and `VoteCast` is
        emitted. A second ballot by the same account reverts. */
    method Vote(caller: Address, pid: ProposalId, support: bool) returns (r: Outcome<Error>)
      requires Valid()
      modifies this
      ensures Valid() && Evolves(old(State()), State())
      ensures r == ToOutcome(VoteFailure(old(State()), caller, pid))
      ensures r.Fail? ==> State() == old(State())
      ensures r.Pass? ==> State() == AfterVote(old(State()), caller, pid, support)
    {
      if pid >= |proposals| {
        return Fail(ProposalNotFound);
      }
      var p := proposals[pid];
      var id := p.aaoId;
      if !aaos[id].active {
        return Fail(AAOInactive);
      }
      if caller !in members[id] {
        return Fail(NotMember);
      }
      if p.status != Active {
        return Fail(ProposalNotActive);
      }
      if caller in ballots[pid] {
        return Fail(AlreadyVoted);
      }
      VoteKeepsInv(State(), caller, pid, support);
      ballots := ballots[pid := WithBallot(ballots[pid], caller, support)];
      proposals := proposals[pid := Tallied(p, support)];
      log := log + [VoteCast(pid, caller, support)];
      r := Pass;
    }

    /** `executeProposal`: an Active proposal of an active AAO that the
        ledger's policy admits becomes Executed, and `ProposalExecuted` is
        emitted. */
    method ExecuteProposal(pid: ProposalId) returns (r: Outcome<Error>)
      requires Valid()
      modifies this
      ensures Valid() && Evolves(old(State()), State())
      ensures r == ToOutcome(ExecuteFailure(old(State()), policy, pid))
      ensures r.Fail? ==> State() == old(State())
      ensures r.Pass? ==> State() == old(State()).(
        proposals := old(proposals)[pid := old(proposals)[pid].(status := Executed)],
        log := old(log) + [ProposalExecuted(pid)])
    {
      if pid >= |proposals| {
        return Fail(ProposalNotFound);
      }
      var p := proposals[pid];
      if !aaos[p.aaoId].active {
        return Fail(AAOInactive);
      }
      if p.status != Active {
        return Fail(ProposalNotActive);
      }
      if policy == SimpleMajority && p.forVotes <= p.againstVotes {
        return Fail(MajorityNotReached);
      }
      proposals := proposals[pid := p.(status := Executed)];
      log := log + [ProposalExecuted(pid)];
      r := Pass;
    }

    /** `createBounty`: the owner or an admin of an active AAO opens a task;
        task ids come from one counter shared by all AAOs. */
    method CreateBounty(caller: Address, id: AaoId, description: string, reward: nat)
      returns (r: Result<TaskId, Error>)
      requires Valid()
      modifies this
      ensures Valid() && Evolves(old(State()), State())
      ensures CreateBountyFailure(old(State()), caller, id).Some? ==>
        r == Failure(CreateBountyFailure(old(State()), caller, id).value) && State() == old(State())
      ensures CreateBountyFailure(old(State()), caller, id).None? ==>
        var tid := |old(tasks)|;
        && r == Success(tid)
        && State() == old(State()).(
             tasks := old(tasks) + [Task(id, description, reward, None, Open)],
             log := old(log) + [BountyCreated(tid, id, reward)])
    {
      if id >= |aaos| {
        return Failure(AAONotFound);
      }
      if !aaos[id].active {
        return Failure(AAOInactive);
      }
      if caller != aaos[id].owner && caller !in admins[id] {
        return Failure(NotPrivileged);
      }
      var tid := |tasks|;
      tasks := tasks + [Task(id, description, reward, None, Open)];
      log := log + [BountyCreated(tid, id, reward)];
      r := Success(tid);
    }

    /** `assignTask`: a member of the task's AAO takes an Open task, which
        becomes Assigned to the caller. */
    method AssignTask(caller: Address, tid: TaskId) returns (r: Outcome<Error>)
      requires Valid()
      modifies this
      ensures Valid() && Evolves(old(State()), State())
      ensures r == ToOutcome(AssignTaskFailure(old(State()), caller, tid))
      ensures r.Fail? ==> State() == old(State())
      ensures r.Pass? ==> State() == old(State()).(
        tasks := old(tasks)[tid := old(tasks)[tid].(assignee := Some(caller), status := Assigned)],
        log := old(log) + [TaskAssigned(tid, caller)])
    {
      if tid >= |tasks| {
        return Fail(TaskNotFound);
      }
      var t := tasks[tid];
      if !aaos[t.aaoId].active {
        return Fail(AAOInactive);
      }
      if caller !in members[t.aaoId] {
        return Fail(NotMember);
      }
      if t.status != Open {
        return Fail(TaskNotOpen);
      }
      tasks := tasks[tid := t.(assignee := Some(caller), status := Assigned)];
      log := log + [TaskAssigned(tid, caller)];
      r := Pass;
    }

    /** `completeTask`: the assignee of an Assigned task marks it
        Completed. */
    method CompleteTask(caller: Address, tid: TaskId) returns (r: Outcome<Error>)
      requires Valid()
      modifies this
      ensures Valid() && Evolves(old(State()), State())
      ensures r == ToOutcome(CompleteTaskFailure(old(State()), caller, tid))
      ensures r.Fail? ==> State() == old(State())
      ensures r.Pass? ==> State() == old(State()).(
        tasks := old(tasks)[tid := old(tasks)[tid].(status := Completed)],
        log := old(log) + [TaskCompleted(tid)])
    {
      if tid >= |tasks| {
        return Fail(TaskNotFound);
      }
      var t := tasks[tid];
      if !aaos[t.aaoId].active {
        return Fail(AAOInactive);
      }
      if t.status != Assigned {
        return Fail(TaskNotAssigned);
      }
      if t.assignee != Some(caller) {
        return Fail(NotAssignee);
      }
      tasks := tasks[tid := t.(status := Completed)];
      log := log + [TaskCompleted(tid)];
      r := Pass;
    }

    /** `verifyTask`: the owner or an admin of the task's AAO judges a
        Completed task: approved, it becomes Verified; rejected, it goes
        back to Assigned with the same assignee. */
    method VerifyTask(caller: Address, tid: TaskId, approved: bool) returns (r: Outcome<Error>)
      requires Valid()
      modifies this
      ensures Valid() && Evolves(old(State()), State())
      ensures r == ToOutcome(VerifyTaskFailure(old(State()), caller, tid))
      ensures r.Fail? ==> State() == old(State())
      ensures r.Pass? ==> State() == old(State()).(
        tasks := old(tasks)[tid := old(tasks)[tid].(status := if approved then Verified else Assigned)],
        log := old(log) + [TaskVerified(tid, approved)])
    {
      if tid >= |tasks| {
        return Fail(TaskNotFound);
      }
      var t := tasks[tid];
      if !aaos[t.aaoId].active {
        return Fail(AAOInactive);
      }
      if caller != aaos[t.aaoId].owner && caller !in admins[t.aaoId] {
        return Fail(NotPrivileged);
      }
      if t.status != Completed {
        return Fail(TaskNotCompleted);
      }
      tasks := tasks[tid := t.(status := if approved then Verified else Assigned)];
      log := log + [TaskVerified(tid, approved)];
      r := Pass;
    }

    // ---- Queries ----

    /** `getAAO`: the record of an existing AAO; an unknown id reverts. */
    function GetAAO(id: AaoId): (r: Result<AAO, Error>)
      reads this
      requires Valid()
      ensures r.Success? <==> id < |aaos|
      ensures r.Failure? ==> r.error == AAONotFound
      ensures r.Success? ==> r.value == aaos[id]
      ensures r.Success? ==> r.value.owner in members[id] && (r.value.isMacro <==> r.value.parent.None?)
    {
      if id < |aaos| then (assert WellLinked(aaos, id); Success(aaos[id])) else Failure(AAONotFound)
    }

    /** `isMember`: false for an unknown AAO; the owner is always a member. */
    function IsMember(id: AaoId, a: Address): (b: bool)
      reads this
      requires Valid()
      ensures b <==> id < |members| && a in members[id]
      ensures b ==> id < |aaos|
      ensures id < |aaos| && a == aaos[id].owner ==> b
    {
      id < |aaos| && a in members[id]
    }

    /** `isAdmin`: false for an unknown AAO. */
    function IsAdmin(id: AaoId, a: Address): (b: bool)
      reads this
      requires Valid()
      ensures b <==> id < |admins| && a in admins[id]
    {
      id < |aaos| && a in admins[id]
    }

    /** `getMembersCount`: the number of members, at least one (the owner). */
    function GetMembersCount(id: AaoId): (r: Result<nat, Error>)
      reads this
      requires Valid()
      ensures r.Success? <==> id < |aaos|
      ensures r.Failure? ==> r.error == AAONotFound
      ensures r.Success? ==> r.value == |members[id]| && r.value >= 1
    {
      if id < |aaos| then Success(|members[id]|) else Failure(AAONotFound)
    }

    /** `getProposal`. */
    function GetProposal(pid: ProposalId): (r: Result<Proposal, Error>)
      reads this
      requires Valid()
      ensures r.Success? <==> pid < |proposals|
      ensures r.Failure? ==> r.error == ProposalNotFound
      ensures r.Success? ==> r.value == proposals[pid]
      ensures r.Success? ==> r.value.aaoId < |aaos|
      ensures r.Success? ==> r.value.forVotes + r.value.againstVotes == |ballots[pid]|
    {
      if pid < |proposals| then (OneBallotPerVoter(State(), pid); Success(proposals[pid]))
      else Failure(ProposalNotFound)
    }

    /** `getTask`. */
    function GetTask(tid: TaskId): (r: Result<Task, Error>)
      reads this
      requires Valid()
      ensures r.Success? <==> tid < |tasks|
      ensures r.Failure? ==> r.error == TaskNotFound
      ensures r.Success? ==> r.value == tasks[tid]
      ensures r.Success? ==> r.value.aaoId < |aaos| && (r.value.status == Open <==> r.value.assignee.None?)
    {
      if tid < |tasks| then Success(tasks[tid]) else Failure(TaskNotFound)
    }

    /** `getTotalAAOCount`: ids are dense, so every id below the count names
        an AAO and none at or above it does. */
    function GetTotalAAOCount(): (n: nat)
      reads this
      requires Valid()
      ensures forall id: AaoId :: GetAAO(id).Success? <==> id < n
    {
      |aaos|
    }

    /** `getAAOsByCreator`: exactly the AAOs `u` created (and owns), in
        creation order. */
    function GetAAOsByCreator(u: Address): (ids: seq<AaoId>)
      reads this
      requires Valid()
      ensures forall i: nat :: i in ids <==> i < |aaos| && aaos[i].owner == u
      ensures forall k, l :: 0 <= k < l < |ids| ==> ids[k] < ids[l]
    {
      IdsOwnedByExactly(aaos, u);
      assert CreatorList(State(), u) == IdsOwnedBy(aaos, u);
      if u in byCreator then byCreator[u] else []
    }

    /** `getAAOsByMember`: exactly the AAOs `u` is a member of, in id order. */
    method GetAAOsByMember(u: Address) returns (ids: seq<AaoId>)
      requires Valid()
      ensures forall i: nat :: i in ids <==> i < |aaos| && u in members[i]
      ensures forall k, l :: 0 <= k < l < |ids| ==> ids[k] < ids[l]
    {
      ids := [];
      var i := 0;
      while i < |aaos|
        invariant 0 <= i <= |aaos|
        invariant forall j: nat :: j in ids <==> j < i && u in members[j]
        invariant forall k :: 0 <= k < |ids| ==> ids[k] < i
        invariant forall k, l :: 0 <= k < l < |ids| ==> ids[k] < ids[l]
      {
        if u in members[i] {
          ids := ids + [i];
        }
        i := i + 1;
      }
    }

    /** `getMacroAAOId`: the Macro a Micro AAO belongs to. */
    function GetMacroAAOId(id: AaoId): (r: Result<AaoId, Error>)
      reads this
      requires Valid()
      ensures r.Success? <==> id < |aaos| && !aaos[id].isMacro
      ensures r.Failure? ==> r.error == (if id < |aaos| then NotAMicroAAO else AAONotFound)
      ensures r.Success? ==> r.value < id && aaos[r.value].isMacro && aaos[id].parent == Some(r.value)
    {
      if id >= |aaos| then Failure(AAONotFound)
      else if aaos[id].isMacro then Failure(NotAMicroAAO)
      else (assert WellLinked(aaos, id); Success(aaos[id].parent.value))
    }
  }
}
