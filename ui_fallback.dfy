/** What the front end's contract wrapper answers when a call fails or the
    contract has no such function: answers computed from a fixed list of
    three mock AAOs, addresses compared without regard to case, and
    name-based defaults for functions the contract lacks. */
module UIFallback {
  import opened Common

  /** One mock AAO. `id` is a decimal string, as the wrapper compares it
      with the argument's `toString()`. */
  datatype MockAAO = MockAAO(
    id: string, topic: string, owner: string, duration: nat, active: bool, isMacro: bool,
    members: seq<string>, macroAAOId: nat, membersCount: nat)

  /** The record the `getAAO` fallback returns (no id, no member count). */
  datatype AAOView = AAOView(
    topic: string, duration: nat, owner: string, active: bool, isMacro: bool,
    members: seq<string>, macroAAOId: nat)

  /** A value the wrapper hands back instead of the contract's. */
  datatype MockReturn =
    | Number(n: nat)
    | Ids(ids: seq<string>)
    | Record(view: AAOView)
    | NullValue
    | MockTransaction

  const ALICE: string := "0x70997970C51812dc3A010C7d01b50e0d17dc79C8"
  const CAROL: string := "0x3C44CdDdB6a900fa2b585dd299e03d12FA4293BC"

  const MOCK_AAOS: seq<MockAAO> := [
    MockAAO("1", "Governance DAO", ALICE, 31536000, true, true, [ALICE, CAROL], 0, 2),
    MockAAO("2", "Development DAO", ALICE, 15768000, true, true, [ALICE], 0, 1),
    MockAAO("3", "Marketing Micro DAO", CAROL, 7884000, true, false, [CAROL, ALICE], 1, 2)
  ]

  // ---- Case-insensitive comparison ----

  /** `toLowerCase` on one character; only ASCII letters change. The
      result is never a capital, a capital becomes its lowercase letter, and
      every other character is its own lowercase. */
  function LowerChar(c: char): (d: char)
    ensures !('A' <= d <= 'Z')
    ensures 'A' <= c <= 'Z' ==> 'a' <= d <= 'z' && d as int == c as int + 32
    ensures !('A' <= c <= 'Z') ==> d == c
  {
    if 'A' <= c <= 'Z' then (c as int + 32) as char else c
  }

  /** `toLowerCase` on a string: no capital is left, every character that
      is not a capital is kept in place, and each capital is replaced by
      its lowercase letter. */
  function ToLower(s: string): (r: string)
    ensures |r| == |s|
    ensures forall i :: 0 <= i < |r| ==> !('A' <= r[i] <= 'Z')
    ensures forall i :: 0 <= i < |s| && !('A' <= s[i] <= 'Z') ==> r[i] == s[i]
    ensures forall i :: 0 <= i < |s| ==> r[i] == LowerChar(s[i])
  {
    seq(|s|, i requires 0 <= i < |s| => LowerChar(s[i]))
  }

  /** Lower-casing twice is lower-casing once. */
  lemma ToLowerIdempotent(s: string)
    ensures ToLower(ToLower(s)) == ToLower(s)
  {
    assert forall i :: 0 <= i < |s| ==> LowerChar(LowerChar(s[i])) == LowerChar(s[i]);
  }

  predicate SameIgnoringCase(a: string, b: string)
  {
    ToLower(a) == ToLower(b)
  }

  // ---- Filtering the mock list ----

  /** The two filters the address fallbacks apply. */
  datatype Criterion = OwnedBy(creator: string) | HasMember(member: string)

  /** `aao.owner.toLowerCase() === creator` and
      `aao.members.some(m => m.toLowerCase() === member)`, the argument
      having been lower-cased by the caller. */
  predicate Accepts(c: Criterion, m: MockAAO)
  {
    match c
    case OwnedBy(a) => ToLower(m.owner) == ToLower(a)
    case HasMember(a) => exists x :: x in m.members && ToLower(x) == ToLower(a)
  }

  /** The positions of `list` whose entry `c` accepts, in increasing
      order. */
  function MatchingIndices(list: seq<MockAAO>, c: Criterion): (idx: seq<nat>)
    ensures forall i: nat :: i in idx <==> i < |list| && Accepts(c, list[i])
    ensures forall k, l :: 0 <= k < l < |idx| ==> idx[k] < idx[l]
    decreases |list|
  {
    if list == [] then []
    else
      var n := |list| - 1;
      var prefix := MatchingIndices(list[..n], c);
      assert forall i :: 0 <= i < n ==> list[..n][i] == list[i];
      assert forall x :: x in prefix ==> x < n;
      var idx := prefix + (if Accepts(c, list[n]) then [n] else []);
      assert forall k, l :: 0 <= k < l < |idx| ==> idx[k] < idx[l] by {
        forall k, l | 0 <= k < l < |idx| ensures idx[k] < idx[l] {
          if l >= |prefix| {
            assert idx[k] == prefix[k] && prefix[k] in prefix;
          }
        }
      }
      idx
  }

  /** `list.filter(...).map(aao => aao.id)`. */
  function FilterIds(list: seq<MockAAO>, c: Criterion): seq<string>
    decreases |list|
  {
    if list == [] then [] else FilterIds(list[..|list| - 1], c) + Kept(c, list[|list| - 1])
  }

  /** The filter returns the ids of exactly the accepted entries, in list
      order: its `k`th id is that of the `k`th accepted position. */
  lemma {:induction false} FilterIdsIndices(list: seq<MockAAO>, c: Criterion)
    ensures |FilterIds(list, c)| == |MatchingIndices(list, c)|
    ensures forall k :: 0 <= k < |FilterIds(list, c)| ==>
      MatchingIndices(list, c)[k] < |list| && FilterIds(list, c)[k] == list[MatchingIndices(list, c)[k]].id
    decreases |list|
  {
    if list != [] {
      var n := |list| - 1;
      FilterIdsIndices(list[..n], c);
      assert forall i :: 0 <= i < n ==> list[..n][i] == list[i];
    }
  }

  /** One entry's contribution to the filtered ids. */
  function Kept(c: Criterion, m: MockAAO): seq<string>
  {
    if Accepts(c, m) then [m.id] else []
  }

  /** Filtering a list with one more entry at the end. */
  lemma FilterIdsSnoc(list: seq<MockAAO>, m: MockAAO, c: Criterion)
    ensures FilterIds(list + [m], c) == FilterIds(list, c) + Kept(c, m)
  {
    assert (list + [m])[..|list|] == list;
  }

  /** On a three-entry list, the filter keeps each entry on its own. */
  lemma FilterIdsOfThree(list: seq<MockAAO>, c: Criterion)
    requires |list| == 3
    ensures FilterIds(list, c) == Kept(c, list[0]) + Kept(c, list[1]) + Kept(c, list[2])
  {
    var x, y, z := list[0], list[1], list[2];
    assert list == [x, y] + [z] && [x, y] == [x] + [y] && [x] == [] + [x];
    FilterIdsSnoc([], x, c);
    FilterIdsSnoc([x], y, c);
    FilterIdsSnoc([x, y], z, c);
  }

  /** An id is returned exactly when some accepted entry carries it. */
  lemma FilterIdsMembers(list: seq<MockAAO>, c: Criterion, x: string)
    ensures x in FilterIds(list, c) <==> exists i :: 0 <= i < |list| && Accepts(c, list[i]) && list[i].id == x
  {
    FilterIdsIndices(list, c);
    var ids := FilterIds(list, c);
    var idx := MatchingIndices(list, c);
    if x in ids {
      var k :| 0 <= k < |ids| && ids[k] == x;
      assert idx[k] in idx;
    }
    if exists i :: 0 <= i < |list| && Accepts(c, list[i]) && list[i].id == x {
      var i :| 0 <= i < |list| && Accepts(c, list[i]) && list[i].id == x;
      var i': nat := i;
      assert i' in idx;
      var k :| 0 <= k < |idx| && idx[k] == i';
      assert ids[k] == x;
    }
  }

  /** Two criteria that accept the same entries select the same ids. */
  lemma {:induction false} FilterIdsSameCriterion(list: seq<MockAAO>, c: Criterion, d: Criterion)
    requires forall m :: m in list ==> (Accepts(c, m) <==> Accepts(d, m))
    ensures FilterIds(list, c) == FilterIds(list, d)
    decreases |list|
  {
    if list != [] {
      var n := |list| - 1;
      var last := list[n];
      assert forall m :: m in list[..n] ==> m in list;
      FilterIdsSameCriterion(list[..n], c, d);
      assert Accepts(c, last) <==> Accepts(d, last) by { assert last in list; }
      assert Kept(c, last) == Kept(d, last);
    }
  }

  /** The `getAAOsByCreator` fallback: ids of the mock AAOs whose owner
      equals the argument ignoring case. */
  function CreatorFallback(creator: string): (ids: seq<string>)
  {
    FilterIds(MOCK_AAOS, OwnedBy(creator))
  }

  /** The `getAAOsByMember` fallback: ids of the mock AAOs one of whose
      members equals the argument ignoring case. */
  function MemberFallback(member: string): (ids: seq<string>)
  {
    FilterIds(MOCK_AAOS, HasMember(member))
  }

  /** Both address fallbacks ignore the case of their argument. */
  lemma FallbacksIgnoreCase(a: string)
    ensures CreatorFallback(ToLower(a)) == CreatorFallback(a)
    ensures MemberFallback(ToLower(a)) == MemberFallback(a)
  {
    ToLowerIdempotent(a);
    FilterIdsSameCriterion(MOCK_AAOS, OwnedBy(ToLower(a)), OwnedBy(a));
    FilterIdsSameCriterion(MOCK_AAOS, HasMember(ToLower(a)), HasMember(a));
  }

  // ---- Lookup by id ----

  /** `list.find(aao => aao.id === id)`: the first entry with that id. */
  function FindById(list: seq<MockAAO>, id: string): (r: Option<MockAAO>)
    ensures r.None? <==> forall i :: 0 <= i < |list| ==> list[i].id != id
    ensures r.Some? ==>
      exists i :: 0 <= i < |list| && list[i] == r.value && r.value.id == id && (forall j :: 0 <= j < i ==> list[j].id != id)
  {
    if list == [] then None
    else if list[0].id == id then Some(list[0])
    else
      var r := FindById(list[1..], id);
      assert forall i :: 0 <= i < |list| - 1 ==> list[1..][i] == list[i + 1];
      assert r.Some? ==>
        exists i :: 0 <= i < |list| && list[i] == r.value && r.value.id == id && (forall j :: 0 <= j < i ==> list[j].id != id) by {
        if r.Some? {
          var i :| 0 <= i < |list| - 1 && list[1..][i] == r.value && r.value.id == id
            && (forall j :: 0 <= j < i ==> list[1..][j].id != id);
          assert list[i + 1] == r.value;
        }
      }
      r
  }

  /** `MOCK_AAOS.find(...) || MOCK_AAOS[0]`: the mock with that id, or the
      first mock when there is none. */
  function MockFor(id: string): (m: MockAAO)
    ensures m in MOCK_AAOS
    ensures (exists i :: 0 <= i < |MOCK_AAOS| && MOCK_AAOS[i].id == id) ==> m.id == id
    ensures (forall i :: 0 <= i < |MOCK_AAOS| ==> MOCK_AAOS[i].id != id) ==> m == MOCK_AAOS[0]
  {
    match FindById(MOCK_AAOS, id)
    case Some(m) => m
    case None => MOCK_AAOS[0]
  }

  /** The names whose failures are answered with mock data. */
  const VIEW_FALLBACKS: set<string> :=
    {"getAAOsByCreator", "getAAOsByMember", "getAAO", "getMembersCount", "getMacroAAOId"}

  /** The answer to a failed call of `prop` with first argument `arg`
      (already turned into a string): mock data for the five view
      functions, a mock transaction for anything else. */
  function CallFailedFallback(prop: string, arg: string): (r: MockReturn)
    ensures r.MockTransaction? <==> prop !in VIEW_FALLBACKS
    ensures r.Record? ==> exists m :: m in MOCK_AAOS && r.view.topic == m.topic && r.view.owner == m.owner
    ensures r.Number? && prop == "getMembersCount" ==>
      exists m :: m in MOCK_AAOS && r.n == m.membersCount && r.n == |m.members|
    ensures prop == "getAAOsByCreator" ==> r == Ids(CreatorFallback(arg))
    ensures prop == "getAAOsByMember" ==> r == Ids(MemberFallback(arg))
    ensures prop == "getAAO" ==>
      var m := MockFor(arg);
      && r.Record?
      && r.view.topic == m.topic && r.view.duration == m.duration && r.view.owner == m.owner
      && r.view.active == m.active && r.view.isMacro == m.isMacro
      && r.view.members == m.members && r.view.macroAAOId == m.macroAAOId
    ensures prop == "getMembersCount" ==> r == Number(MockFor(arg).membersCount)
    ensures prop == "getMacroAAOId" ==> r == Number(MockFor(arg).macroAAOId)
  {
    if prop == "getAAOsByCreator" then Ids(CreatorFallback(arg))
    else if prop == "getAAOsByMember" then Ids(MemberFallback(arg))
    else if prop == "getAAO" then
      var m := MockFor(arg);
      Record(AAOView(m.topic, m.duration, m.owner, m.active, m.isMacro, m.members, m.macroAAOId))
    else if prop == "getMembersCount" then Number(MockFor(arg).membersCount)
    else if prop == "getMacroAAOId" then Number(MockFor(arg).macroAAOId)
    else MockTransaction
  }

  // ---- Functions the contract does not have ----

  predicate StartsWith(s: string, prefix: string)
  {
    |prefix| <= |s| && s[..|prefix|] == prefix
  }

  /** `t` occurs in `s` at position `i`. */
  predicate OccursAt(s: string, t: string, i: nat)
  {
    i + |t| <= |s| && s[i..i + |t|] == t
  }

  /** `s.includes(t)`, scanning from the left. */
  function Contains(s: string, t: string): (b: bool)
    ensures b <==> exists i: nat :: OccursAt(s, t, i)
    decreases |s|
  {
    if StartsWith(s, t) then
      assert OccursAt(s, t, 0);
      true
    else if s == [] then false
    else
      var b := Contains(s[1..], t);
      assert b <==> exists i: nat :: OccursAt(s, t, i) by {
        forall i: nat | 0 < i ensures OccursAt(s, t, i) <==> OccursAt(s[1..], t, i - 1) {
          if i + |t| <= |s| {
            SliceOfTail(s, i, |t|);
          }
        }
        assert !OccursAt(s, t, 0);
        if b {
          var i: nat :| OccursAt(s[1..], t, i);
          assert OccursAt(s, t, i + 1);
        }
      }
      b
  }

  /** A window of `s[1..]` is the window of `s` one position further. */
  lemma SliceOfTail(s: string, i: nat, len: nat)
    requires 0 < i && i + len <= |s|
    ensures s[i..i + len] == s[1..][i - 1..i - 1 + len]
  {
    var a := s[i..i + len];
    var b := s[1..][i - 1..i - 1 + len];
    forall j | 0 <= j < len ensures a[j] == b[j] {
      assert a[j] == s[i + j];
      assert b[j] == s[1..][i - 1 + j];
    }
  }

  /** The answer for a function the contract lacks: a `get…Count` name
      yields 0, any other `get…By…` name an empty list, any other `get…`
      name null, and every other name a mock transaction. */
  function MissingFunctionResult(prop: string): (r: MockReturn)
    ensures r.MockTransaction? <==> !StartsWith(prop, "get")
    ensures r == Number(0) <==> StartsWith(prop, "get") && Contains(prop, "Count")
    ensures r == Ids([]) <==> StartsWith(prop, "get") && !Contains(prop, "Count") && Contains(prop, "By")
    ensures r == NullValue <==> StartsWith(prop, "get") && !Contains(prop, "Count") && !Contains(prop, "By")
  {
    if StartsWith(prop, "get") then
      if Contains(prop, "Count") then Number(0)
      else if Contains(prop, "By") then Ids([])
      else NullValue
    else MockTransaction
  }

  // ---- The mock data ----

  /** Every mock AAO counts its members correctly and lists its owner as
      a member; only the Micro one names a Macro (the first mock's id). */
  lemma MockDataConsistent()
    ensures forall m :: m in MOCK_AAOS ==> m.membersCount == |m.members| && m.owner in m.members
    ensures forall m :: m in MOCK_AAOS ==> (m.isMacro <==> m.macroAAOId == 0)
  {
  }

  /** The two mock accounts differ even ignoring case. */
  lemma MockAccountsDiffer()
    ensures ToLower(ALICE) != ToLower(CAROL)
  {
    assert ToLower(ALICE)[2] != ToLower(CAROL)[2];
  }

  /** Whom each mock AAO names as its owner. */
  lemma MockOwners()
    ensures Accepts(OwnedBy(ALICE), MOCK_AAOS[0]) && !Accepts(OwnedBy(CAROL), MOCK_AAOS[0])
    ensures Accepts(OwnedBy(ALICE), MOCK_AAOS[1]) && !Accepts(OwnedBy(CAROL), MOCK_AAOS[1])
    ensures !Accepts(OwnedBy(ALICE), MOCK_AAOS[2]) && Accepts(OwnedBy(CAROL), MOCK_AAOS[2])
  {
    MockAccountsDiffer();
  }

  /** Whom each mock AAO lists as a member. */
  lemma MockMembers()
    ensures Accepts(HasMember(ALICE), MOCK_AAOS[0]) && Accepts(HasMember(CAROL), MOCK_AAOS[0])
    ensures Accepts(HasMember(ALICE), MOCK_AAOS[1]) && !Accepts(HasMember(CAROL), MOCK_AAOS[1])
    ensures Accepts(HasMember(ALICE), MOCK_AAOS[2]) && Accepts(HasMember(CAROL), MOCK_AAOS[2])
  {
    MockAccountsDiffer();
    assert ALICE in MOCK_AAOS[0].members && CAROL in MOCK_AAOS[0].members;
    assert ALICE in MOCK_AAOS[1].members && MOCK_AAOS[1].members == [ALICE];
    assert ALICE in MOCK_AAOS[2].members && CAROL in MOCK_AAOS[2].members;
  }

  /** ALICE created the first two mocks; CAROL the third. */
  lemma CreatorFallbackOnMockAccounts()
    ensures CreatorFallback(ALICE) == ["1", "2"]
    ensures CreatorFallback(CAROL) == ["3"]
  {
    MockOwners();
    FilterIdsOfThree(MOCK_AAOS, OwnedBy(ALICE));
    FilterIdsOfThree(MOCK_AAOS, OwnedBy(CAROL));
  }

  /** ALICE belongs to all three mocks. */
  lemma MemberFallbackOnAlice()
    ensures MemberFallback(ALICE) == ["1", "2", "3"]
  {
    MockMembers();
    FilterIdsOfThree(MOCK_AAOS, HasMember(ALICE));
  }

  /** CAROL belongs to the first and third mocks. */
  lemma MemberFallbackOnCarol()
    ensures MemberFallback(CAROL) == ["1", "3"]
  {
    MockMembers();
    FilterIdsOfThree(MOCK_AAOS, HasMember(CAROL));
  }

  /** Looking up a known id answers from that mock; an unknown id answers
      from the first mock. */
  lemma MockLookups()
    ensures CallFailedFallback("getMacroAAOId", "3") == Number(1)
    ensures CallFailedFallback("getMembersCount", "2") == Number(1)
    ensures CallFailedFallback("getAAO", "42").view.topic == "Governance DAO"
  {
    assert MOCK_AAOS[2].id == "3" && MOCK_AAOS[1].id == "2";
    assert forall i :: 0 <= i < |MOCK_AAOS| ==> MOCK_AAOS[i].id != "42";
  }
}
