/** The token facet: a registry of token contracts by address, each with a
    name and a symbol, plus the list of registered addresses in
    registration order. Mutation is reserved to the owner and an address
    is registered at most once. */
module TokenRegistry {
  import opened Common

  datatype TokenInfo = TokenInfo(name: string, symbol: string)

  datatype TokenEvent =
    | TokenRegistered(token: Address, name: string, symbol: string)
    | TokenDeregistered(token: Address)

  datatype TokenError = NotContractOwner | AlreadyRegistered | NotRegistered

  /** `s` with every occurrence of `a` removed, the others in order. */
  function Without(s: seq<Address>, a: Address): (r: seq<Address>)
    ensures forall x :: x in r <==> x in s && x != a
    ensures NoDuplicates(s) ==> NoDuplicates(r)
    ensures |r| <= |s|
  {
    if s == [] then []
    else
      var rest := Without(s[1..], a);
      assert forall x :: x in s[1..] ==> x in s;
      if s[0] == a then rest
      else
        assert NoDuplicates(s) ==> s[0] !in s[1..];
        [s[0]] + rest
  }

  /** In a list without duplicates, removing the element at `i` is the same
      as cutting position `i` out. */
  lemma {:induction false} WithoutAt(s: seq<Address>, i: nat)
    requires NoDuplicates(s) && i < |s|
    ensures Without(s, s[i]) == s[..i] + s[i + 1..]
    decreases i
  {
    if i == 0 {
      assert s[0] !in s[1..];
      WithoutAbsent(s[1..], s[0]);
    } else {
      WithoutAt(s[1..], i - 1);
      assert s[1..][i - 1] == s[i];
      assert s[1..][..i - 1] + s[1..][i..] == s[1..i] + s[i + 1..];
      assert s[..i] + s[i + 1..] == [s[0]] + (s[1..i] + s[i + 1..]);
    }
  }

  /** Removing an absent element changes nothing. */
  lemma {:induction false} WithoutAbsent(s: seq<Address>, a: Address)
    requires a !in s
    ensures Without(s, a) == s
    decreases |s|
  {
    if s != [] {
      WithoutAbsent(s[1..], a);
      assert [s[0]] + s[1..] == s;
    }
  }

  /** A list without duplicates has as many entries as it has distinct
      elements. */
  lemma {:induction false} DistinctLength(s: seq<Address>)
    requires NoDuplicates(s)
    ensures |Elements(s)| == |s|
    decreases |s|
  {
    if s != [] {
      DistinctLength(s[1..]);
      assert s[0] !in Elements(s[1..]);
      assert Elements(s) == Elements(s[1..]) + {s[0]};
    }
  }

  /** The addresses occurring in `s`. */
  function Elements(s: seq<Address>): set<Address>
  {
    set x | x in s
  }

  class TokenFacet {
    const owner: Address
    var tokens: map<Address, TokenInfo>
    var registered: seq<Address>
    var log: seq<TokenEvent>

    /** The list holds each registered address exactly once. */
    ghost predicate Valid()
      reads this
    {
      NoDuplicates(registered) && forall a :: a in tokens <==> a in registered
    }

    constructor (owner: Address)
      ensures Valid() && this.owner == owner
      ensures tokens == map[] && registered == [] && log == []
    {
      this.owner := owner;
      tokens, registered, log := map[], [], [];
    }

    /** `registerToken(token, name, symbol)`: owner only; an address already
        registered reverts; otherwise the token is recorded, appended to the
        list and `TokenRegistered` is emitted. */
    method RegisterToken(caller: Address, token: Address, name: string, symbol: string)
      returns (r: Outcome<TokenError>)
      requires Valid()
      modifies this
      ensures Valid()
      ensures caller != owner ==> r == Fail(NotContractOwner) && unchanged(this)
      ensures caller == owner && token in old(tokens) ==> r == Fail(AlreadyRegistered) && unchanged(this)
      ensures caller == owner && token !in old(tokens) ==>
        && r == Pass
        && tokens == old(tokens)[token := TokenInfo(name, symbol)]
        && registered == old(registered) + [token]
        && log == old(log) + [TokenRegistered(token, name, symbol)]
    {
      if caller != owner {
        return Fail(NotContractOwner);
      }
      if token in tokens {
        return Fail(AlreadyRegistered);
      }
      tokens := tokens[token := TokenInfo(name, symbol)];
      registered := registered + [token];
      log := log + [TokenRegistered(token, name, symbol)];
      r := Pass;
    }

    /** `deregisterToken(token)`: owner only; an unregistered address
        reverts; otherwise the token is forgotten, taken out of the list
        (the others keep their order) and `TokenDeregistered` is emitted. */
    method DeregisterToken(caller: Address, token: Address) returns (r: Outcome<TokenError>)
      requires Valid()
      modifies this
      ensures Valid()
      ensures caller != owner ==> r == Fail(NotContractOwner) && unchanged(this)
      ensures caller == owner && token !in old(tokens) ==> r == Fail(NotRegistered) && unchanged(this)
      ensures caller == owner && token in old(tokens) ==>
        && r == Pass
        && tokens == old(tokens) - {token}
        && registered == Without(old(registered), token)
        && log == old(log) + [TokenDeregistered(token)]
    {
      if caller != owner {
        return Fail(NotContractOwner);
      }
      if token !in tokens {
        return Fail(NotRegistered);
      }
      var i := 0;
      while registered[i] != token
        invariant 0 <= i < |registered|
        invariant token in registered[i..]
        invariant unchanged(this)
        decreases |registered| - i
      {
        assert registered[i..] == [registered[i]] + registered[i + 1..];
        i := i + 1;
      }
      WithoutAt(registered, i);
      registered := registered[..i] + registered[i + 1..];
      tokens := tokens - {token};
      log := log + [TokenDeregistered(token)];
      r := Pass;
    }

    /** `isTokenRegistered(token)`. */
    function IsTokenRegistered(token: Address): (b: bool)
      reads this
      requires Valid()
      ensures b <==> token in registered
    {
      token in tokens
    }

    /** `getTokenInfo(token)`: the name and symbol recorded at
        registration; an unregistered address has none. */
    function GetTokenInfo(token: Address): (r: Result<TokenInfo, TokenError>)
      reads this
      requires Valid()
      ensures r.Success? <==> token in registered
      ensures r.Failure? ==> r.error == NotRegistered
      ensures r.Success? ==> r.value == tokens[token]
    {
      if token in tokens then Success(tokens[token]) else Failure(NotRegistered)
    }

    /** `getRegisteredTokens()`: every registered address once, so its
        length is the number of registered tokens. */
    function GetRegisteredTokens(): (ts: seq<Address>)
      reads this
      requires Valid()
      ensures NoDuplicates(ts)
      ensures forall a :: a in ts <==> a in tokens
      ensures |ts| == |tokens.Keys|
    {
      DistinctLength(registered);
      assert Elements(registered) == tokens.Keys;
      registered
    }
  }
}
