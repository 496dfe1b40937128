/** The diamond dispatcher (EIP-2535, "Diamonds, Multi-Facet Proxy"):
    a table from function selector to the facet contract that implements it,
    an owner who alone may change the table through `diamondCut`, the loupe
    queries over the table, and ERC-165 interface support (EIP-165). */
module Diamond {
  import opened Common

  /** A four-byte value, read as an unsigned number. */
  type Bytes4 = x: nat | x < 0x1_0000_0000

  /** A function selector; selectors are opaque values here. */
  type Selector = Bytes4

  /** An ERC-165 interface identifier. */
  type InterfaceId = Bytes4

  /** The interface identifier of ERC-165 itself (`supportsInterface(bytes4)`). */
  const ERC165_INTERFACE_ID: InterfaceId := 0x01ffc9a7

  /** The selector of `diamondCut`, which the controller's constructor maps to
      the cut facet it is deployed with. */
  const DIAMOND_CUT_SELECTOR: Selector := 0x1f931c1c

  /** The action of one entry of a cut; on the wire Add = 0, Replace = 1,
      Remove = 2. */
  datatype FacetCutAction = Add | Replace | Remove

  function ActionCode(a: FacetCutAction): (code: nat)
    ensures code == 0 <==> a == Add
    ensures code == 1 <==> a == Replace
    ensures code == 2 <==> a == Remove
  {
    match a
    case Add => 0
    case Replace => 1
    case Remove => 2
  }

  function ActionFromCode(code: nat): (a: Option<FacetCutAction>)
    ensures a.Some? <==> code <= 2
  {
    if code == 0 then Some(Add)
    else if code == 1 then Some(Replace)
    else if code == 2 then Some(Remove)
    else None
  }

  /** Decoding the wire code of an action gives the action back, and the
      three actions have three distinct codes. */
  lemma ActionCodeRoundTrip(a: FacetCutAction, b: FacetCutAction)
    ensures ActionFromCode(ActionCode(a)) == Some(a)
    ensures ActionCode(a) == ActionCode(b) ==> a == b
  {
  }

  datatype FacetCut = FacetCut(facetAddress: Address, action: FacetCutAction, functionSelectors: seq<Selector>)

  datatype CutError =
    | NotContractOwner
    | AddFacetZeroAddress
    | SelectorAlreadyMapped(selector: Selector)
    | ActionNotModelled(action: FacetCutAction)

  datatype DispatchError = FunctionNotFound(selector: Selector)

  /** The revert reason of a cut attempted by anyone but the owner. */
  const NOT_OWNER_REASON: string := "LibDiamond: Must be contract owner"

  /** The dispatcher's table as a value: which facet each selector routes to,
      and the facet addresses in the order they were first added. */
  datatype SelectorTable = SelectorTable(facetOf: map<Selector, Address>, facets: seq<Address>)

  /** The table is consistent: no facet is listed twice, the zero address is
      never a target, every target is listed, and every listed facet is the
      target of some selector. */
  ghost predicate TableValid(t: SelectorTable)
  {
    && NoDuplicates(t.facets)
    && (forall s :: s in t.facetOf ==> t.facetOf[s] != ZERO_ADDRESS && t.facetOf[s] in t.facets)
    && (forall k :: 0 <= k < |t.facets| ==> t.facets[k] in t.facetOf.Values)
  }

  /** Maps one unmapped selector to `facet`, listing the facet if new. */
  function AddOne(t: SelectorTable, facet: Address, sel: Selector): (t': SelectorTable)
    requires sel !in t.facetOf
    ensures t'.facetOf == t.facetOf[sel := facet]
    ensures facet in t'.facets
    ensures forall a :: a in t'.facets <==> a in t.facets || a == facet
  {
    SelectorTable(t.facetOf[sel := facet], if facet in t.facets then t.facets else t.facets + [facet])
  }

  /** Adds the selectors one by one; a selector that is already mapped
      (including one repeated in the list) makes the whole step fail. */
  function AddSelectors(t: SelectorTable, facet: Address, sels: seq<Selector>): Result<SelectorTable, CutError>
    decreases |sels|
  {
    if sels == [] then Success(t)
    else if sels[0] in t.facetOf then Failure(SelectorAlreadyMapped(sels[0]))
    else AddSelectors(AddOne(t, facet, sels[0]), facet, sels[1..])
  }

  function ApplyCut(t: SelectorTable, cut: FacetCut): Result<SelectorTable, CutError>
  {
    if cut.action != Add then Failure(ActionNotModelled(cut.action))
    else if cut.facetAddress == ZERO_ADDRESS then Failure(AddFacetZeroAddress)
    else AddSelectors(t, cut.facetAddress, cut.functionSelectors)
  }

  /** The whole batch, in list order; the first failing entry decides the
      error and nothing of the batch is kept. */
  function ApplyCuts(t: SelectorTable, cuts: seq<FacetCut>): Result<SelectorTable, CutError>
    decreases |cuts|
  {
    if cuts == [] then Success(t)
    else match ApplyCut(t, cuts[0])
      case Failure(e) => Failure(e)
      case Success(t1) => ApplyCuts(t1, cuts[1..])
  }

  lemma AddOneValid(t: SelectorTable, facet: Address, sel: Selector)
    requires TableValid(t) && sel !in t.facetOf && facet != ZERO_ADDRESS
    ensures TableValid(AddOne(t, facet, sel))
  {
    var t' := AddOne(t, facet, sel);
    forall k | 0 <= k < |t'.facets| ensures t'.facets[k] in t'.facetOf.Values {
      if t'.facets[k] == facet {
        assert t'.facetOf[sel] == facet;
      } else {
        assert k < |t.facets|;
        assert t.facets[k] in t.facetOf.Values;
        var s :| s in t.facetOf && t.facetOf[s] == t.facets[k];
        assert s != sel && t'.facetOf[s] == t.facets[k];
      }
    }
  }

  /** Adding selectors keeps the table consistent, keeps every earlier
      mapping, and on success routes every added selector to the facet. */
  lemma {:induction false} AddSelectorsSpec(t: SelectorTable, facet: Address, sels: seq<Selector>)
    requires TableValid(t) && facet != ZERO_ADDRESS
    ensures AddSelectors(t, facet, sels).Success? ==>
      var t' := AddSelectors(t, facet, sels).value;
      && TableValid(t')
      && (forall s :: s in t.facetOf ==> s in t'.facetOf && t'.facetOf[s] == t.facetOf[s])
      && (forall a :: a in t.facets ==> a in t'.facets)
      && (forall i :: 0 <= i < |sels| ==> sels[i] in t'.facetOf && t'.facetOf[sels[i]] == facet)
      && (sels != [] ==> facet in t'.facets)
    decreases |sels|
  {
    if sels != [] && sels[0] !in t.facetOf {
      var t1 := AddOne(t, facet, sels[0]);
      AddOneValid(t, facet, sels[0]);
      AddSelectorsSpec(t1, facet, sels[1..]);
      if AddSelectors(t, facet, sels).Success? {
        var t' := AddSelectors(t, facet, sels).value;
        forall i | 0 <= i < |sels| ensures sels[i] in t'.facetOf && t'.facetOf[sels[i]] == facet {
          if i > 0 { assert sels[i] == sels[1..][i - 1]; }
        }
      }
    }
  }

  /** Adding selectors succeeds exactly when they are pairwise distinct and
      none is mapped yet, and then maps exactly the old selectors and the
      new ones. */
  lemma {:induction false} AddSelectorsOutcome(t: SelectorTable, facet: Address, sels: seq<Selector>)
    ensures AddSelectors(t, facet, sels).Success? <==>
      NoDuplicates(sels) && forall i :: 0 <= i < |sels| ==> sels[i] !in t.facetOf
    ensures AddSelectors(t, facet, sels).Success? ==>
      forall s :: s in AddSelectors(t, facet, sels).value.facetOf <==> s in t.facetOf || s in sels
    decreases |sels|
  {
    if sels != [] {
      if sels[0] in t.facetOf {
        assert AddSelectors(t, facet, sels).Failure?;
      } else {
        var t1 := AddOne(t, facet, sels[0]);
        var rest := sels[1..];
        AddSelectorsOutcome(t1, facet, rest);
        assert forall i :: 0 < i < |sels| ==> sels[i] == rest[i - 1];
        assert forall x :: x in sels <==> x == sels[0] || x in rest;
        if NoDuplicates(sels) && forall i :: 0 <= i < |sels| ==> sels[i] !in t.facetOf {
          assert NoDuplicates(rest);
          assert forall i :: 0 <= i < |rest| ==> rest[i] !in t1.facetOf;
        }
        if AddSelectors(t, facet, sels).Success? {
          assert NoDuplicates(rest);
          forall i, j | 0 <= i < j < |sels| ensures sels[i] != sels[j] {
            if i == 0 {
              assert rest[j - 1] !in t1.facetOf;
            }
          }
        }
      }
    }
  }

  /** A batch that succeeds keeps the table consistent, never changes or
      drops an existing mapping, and routes every selector of every entry
      to that entry's facet, which the facet listing then includes. */
  lemma {:induction false} ApplyCutsSpec(t: SelectorTable, cuts: seq<FacetCut>)
    requires TableValid(t)
    ensures ApplyCuts(t, cuts).Success? ==>
      var t' := ApplyCuts(t, cuts).value;
      && TableValid(t')
      && (forall s :: s in t.facetOf ==> s in t'.facetOf && t'.facetOf[s] == t.facetOf[s])
      && (forall a :: a in t.facets ==> a in t'.facets)
      && (forall k, i :: 0 <= k < |cuts| && 0 <= i < |cuts[k].functionSelectors| ==>
            var s := cuts[k].functionSelectors[i];
            s in t'.facetOf && t'.facetOf[s] == cuts[k].facetAddress)
      && (forall k :: 0 <= k < |cuts| && cuts[k].functionSelectors != [] ==> cuts[k].facetAddress in t'.facets)
    decreases |cuts|
  {
    if cuts != [] && ApplyCut(t, cuts[0]).Success? {
      var t1 := ApplyCut(t, cuts[0]).value;
      AddSelectorsSpec(t, cuts[0].facetAddress, cuts[0].functionSelectors);
      ApplyCutsSpec(t1, cuts[1..]);
      if ApplyCuts(t, cuts).Success? {
        var t' := ApplyCuts(t, cuts).value;
        assert t' == ApplyCuts(t1, cuts[1..]).value;
        forall k, i | 0 <= k < |cuts| && 0 <= i < |cuts[k].functionSelectors|
          ensures cuts[k].functionSelectors[i] in t'.facetOf
          ensures t'.facetOf[cuts[k].functionSelectors[i]] == cuts[k].facetAddress
        {
          if k > 0 { assert cuts[k] == cuts[1..][k - 1]; }
        }
        forall k | 0 <= k < |cuts| && cuts[k].functionSelectors != []
          ensures cuts[k].facetAddress in t'.facets
        {
          if k > 0 { assert cuts[k] == cuts[1..][k - 1]; }
        }
      }
    }
  }

  /** Every selector a batch names, entry by entry. */
  function CutSelectors(cuts: seq<FacetCut>): (sels: seq<Selector>)
    ensures forall k, i :: 0 <= k < |cuts| && 0 <= i < |cuts[k].functionSelectors| ==>
      cuts[k].functionSelectors[i] in sels
    decreases |cuts|
  {
    if cuts == [] then []
    else
      var rest := CutSelectors(cuts[1..]);
      assert forall k :: 1 <= k < |cuts| ==> cuts[k] == cuts[1..][k - 1];
      cuts[0].functionSelectors + rest
  }

  /** Every entry of the batch is an Add of a non-zero facet. */
  predicate AddsOnly(cuts: seq<FacetCut>)
  {
    forall k :: 0 <= k < |cuts| ==> cuts[k].action == Add && cuts[k].facetAddress != ZERO_ADDRESS
  }

  lemma {:induction false} NoDuplicatesAppend(a: seq<Selector>, b: seq<Selector>)
    ensures NoDuplicates(a + b) <==> NoDuplicates(a) && NoDuplicates(b) && forall x :: x in a ==> x !in b
  {
    if NoDuplicates(a) && NoDuplicates(b) && forall x :: x in a ==> x !in b {
      forall i, j | 0 <= i < j < |a + b| ensures (a + b)[i] != (a + b)[j] {
        if j >= |a| && i < |a| {
          assert (a + b)[i] in a && (a + b)[j] in b;
        }
      }
    }
    if NoDuplicates(a + b) {
      forall i, j | 0 <= i < j < |a| ensures a[i] != a[j] {
        assert a[i] == (a + b)[i] && a[j] == (a + b)[j];
      }
      forall i, j | 0 <= i < j < |b| ensures b[i] != b[j] {
        assert b[i] == (a + b)[|a| + i] && b[j] == (a + b)[|a| + j];
      }
      forall i, j | 0 <= i < |a| && 0 <= j < |b| ensures a[i] != b[j] {
        assert a[i] == (a + b)[i] && b[j] == (a + b)[|a| + j];
      }
    }
  }

  /** A batch applies exactly when every entry adds selectors to a non-zero
      facet and the selectors of the whole batch are distinct and not yet
      served. */
  lemma {:induction false} ApplyCutsOutcome(t: SelectorTable, cuts: seq<FacetCut>)
    ensures ApplyCuts(t, cuts).Success? <==>
      && AddsOnly(cuts)
      && NoDuplicates(CutSelectors(cuts))
      && forall s :: s in CutSelectors(cuts) ==> s !in t.facetOf
    decreases |cuts|
  {
    if cuts != [] {
      var c, rest := cuts[0], cuts[1..];
      assert CutSelectors(cuts) == c.functionSelectors + CutSelectors(rest);
      NoDuplicatesAppend(c.functionSelectors, CutSelectors(rest));
      assert AddsOnly(cuts) <==> c.action == Add && c.facetAddress != ZERO_ADDRESS && AddsOnly(rest) by {
        assert forall k :: 1 <= k < |cuts| ==> cuts[k] == rest[k - 1];
      }
      if c.action == Add && c.facetAddress != ZERO_ADDRESS {
        AddSelectorsOutcome(t, c.facetAddress, c.functionSelectors);
        if AddSelectors(t, c.facetAddress, c.functionSelectors).Success? {
          ApplyCutsOutcome(AddSelectors(t, c.facetAddress, c.functionSelectors).value, rest);
        }
      }
    }
  }

  /** The controller contract: the table, its owner and the interfaces it
      declares. */
  class DiamondController {
    var owner: Address
    var facetOf: map<Selector, Address>
    var facetList: seq<Address>
    var supportedInterfaces: set<InterfaceId>

    ghost function Table(): SelectorTable
      reads this
    {
      SelectorTable(facetOf, facetList)
    }

    /** The table is consistent and ERC-165 itself is always declared. */
    ghost predicate Valid()
      reads this
    {
      TableValid(Table()) && ERC165_INTERFACE_ID in supportedInterfaces
    }

    /** Deployment: the owner is fixed, `diamondCut` routes to the cut facet,
        and ERC-165 is declared supported before any cut. */
    constructor (contractOwner: Address, diamondCutFacet: Address)
      requires diamondCutFacet != ZERO_ADDRESS
      ensures Valid()
      ensures owner == contractOwner
      ensures facetOf == map[DIAMOND_CUT_SELECTOR := diamondCutFacet]
      ensures facetList == [diamondCutFacet]
      ensures supportedInterfaces == {ERC165_INTERFACE_ID}
    {
      owner := contractOwner;
      facetOf := map[DIAMOND_CUT_SELECTOR := diamondCutFacet];
      facetList := [diamondCutFacet];
      supportedInterfaces := {ERC165_INTERFACE_ID};
      new;
      assert facetOf[DIAMOND_CUT_SELECTOR] == diamondCutFacet;
    }

    /** `diamondCut`: only the owner may call it, whatever the cut list holds
        (even an empty one); the batch is applied in order and either all of
        it takes effect or none of it does. */
    method DiamondCut(caller: Address, cuts: seq<FacetCut>) returns (r: Outcome<CutError>)
      requires Valid()
      modifies this
      ensures Valid()
      ensures owner == old(owner) && supportedInterfaces == old(supportedInterfaces)
      ensures caller != old(owner) ==> r == Fail(NotContractOwner) && Table() == old(Table())
      ensures caller == old(owner) ==>
        match ApplyCuts(old(Table()), cuts)
        case Success(t) => r == Pass && Table() == t
        case Failure(e) => r == Fail(e) && Table() == old(Table())
    {
      if caller != owner {
        return Fail(NotContractOwner);
      }
      ghost var t0 := Table();
      var tab := SelectorTable(facetOf, facetList);
      var i := 0;
      while i < |cuts|
        invariant 0 <= i <= |cuts|
        invariant TableValid(tab)
        invariant ApplyCuts(t0, cuts) == ApplyCuts(tab, cuts[i..])
        invariant unchanged(this) && Table() == t0
      {
        var cut := cuts[i];
        assert cuts[i..] == [cut] + cuts[i + 1..];
        if cut.action != Add {
          return Fail(ActionNotModelled(cut.action));
        }
        if cut.facetAddress == ZERO_ADDRESS {
          return Fail(AddFacetZeroAddress);
        }
        var sels := cut.functionSelectors;
        ghost var before := tab;
        var j := 0;
        while j < |sels|
          invariant 0 <= j <= |sels|
          invariant TableValid(tab)
          invariant AddSelectors(before, cut.facetAddress, sels) == AddSelectors(tab, cut.facetAddress, sels[j..])
          invariant unchanged(this)
        {
          var sel := sels[j];
          assert sels[j..][0] == sel && sels[j..][1..] == sels[j + 1..];
          if sel in tab.facetOf {
            return Fail(SelectorAlreadyMapped(sel));
          }
          AddOneValid(tab, cut.facetAddress, sel);
          var list := if cut.facetAddress in tab.facets then tab.facets else tab.facets + [cut.facetAddress];
          tab := SelectorTable(tab.facetOf[sel := cut.facetAddress], list);
          j := j + 1;
        }
        i := i + 1;
      }
      facetOf, facetList := tab.facetOf, tab.facets;
      r := Pass;
    }

    /** Loupe `facets()`: the addresses of the facets that serve at least
        one selector, in the order they were added. */
    function Facets(): (fs: seq<Address>)
      reads this
      requires Valid()
      ensures forall a :: a in fs <==> exists s :: s in facetOf && facetOf[s] == a
    {
      assert forall a :: a in facetList ==> a in facetOf.Values;
      facetList
    }

    /** Loupe `facetAddress(selector)`: the facet a selector routes to, or the
        zero address when the selector is not mapped. */
    function FacetAddress(sel: Selector): (a: Address)
      reads this
      requires Valid()
      ensures a == ZERO_ADDRESS <==> sel !in facetOf
      ensures sel in facetOf ==> a == facetOf[sel]
    {
      if sel in facetOf then facetOf[sel] else ZERO_ADDRESS
    }

    /** The fallback of the controller: a call is delegated to the facet its
        selector maps to, and fails when there is none. */
    function Route(sel: Selector): (r: Result<Address, DispatchError>)
      reads this
      requires Valid()
      ensures r.Success? <==> FacetAddress(sel) != ZERO_ADDRESS
      ensures r.Success? ==> r.value == FacetAddress(sel)
      ensures r.Failure? ==> r.error == FunctionNotFound(sel)
    {
      if sel in facetOf then Success(facetOf[sel]) else Failure(FunctionNotFound(sel))
    }

    /** ERC-165 `supportsInterface`: the declared interfaces, which always
        include ERC-165 itself. */
    function SupportsInterface(id: InterfaceId): (b: bool)
      reads this
      requires Valid()
      ensures id == ERC165_INTERFACE_ID ==> b
    {
      id in supportedInterfaces
    }
  }
}
