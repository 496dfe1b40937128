/** The front end's record normalisers (`formatAAO`, `formatProposal`,
    `formatToken`). They work on untyped JavaScript values, so the model
    carries a small JavaScript value type with the language's truthiness,
    `||`, `!== undefined` and `typeof x === 'number'` written out. */
module UIFormat {

  /** A JavaScript value as the normalisers see it. Numbers are integers
      (plus NaN); `Big` is a BigInt as the chain client returns it. */
  datatype JsValue =
    | Undefined
    | Null
    | Bool(b: bool)
    | Num(n: int)
    | NaN
    | Big(big: int)
    | Str(s: string)
    | List(items: seq<JsValue>)
    | Obj(fields: map<Key, JsValue>)

  /** The property names the normalisers read and write. */
  datatype Key =
    | id | topic | owner | duration | active | isMacro | members | macroAAOId
    | aaoId | proposer | text | forVotes | againstVotes | status
    | address | name | symbol | decimals | isActive

  /** ethers' `ZeroAddress`. */
  const ZERO_ADDRESS_STRING: string := "0x0000000000000000000000000000000000000000"

  const UNKNOWN_TOPIC: string := "Unknown Topic"
  const UNKNOWN_PROPOSAL: string := "Unknown Proposal"
  const UNKNOWN_TOKEN: string := "Unknown Token"
  const UNKNOWN_SYMBOL: string := "UNK"
  const DEFAULT_DECIMALS: int := 18
  /** Proposal status 0 is Active. */
  const DEFAULT_STATUS: int := 0

  /** JavaScript truthiness: undefined, null, false, 0, NaN, 0n and the
      empty string are falsy; everything else (arrays and objects
      included) is truthy. */
  predicate Truthy(v: JsValue)
  {
    match v
    case Undefined => false
    case Null => false
    case Bool(b) => b
    case Num(n) => n != 0
    case NaN => false
    case Big(n) => n != 0
    case Str(s) => s != ""
    case List(_) => true
    case Obj(_) => true
  }

  /** `v[k]`: a missing property, or a property of a non-object, reads as
      undefined. */
  function Prop(v: JsValue, k: Key): (r: JsValue)
    ensures v.Obj? && k in v.fields ==> r == v.fields[k]
    ensures !(v.Obj? && k in v.fields) ==> r == Undefined
  {
    if v.Obj? && k in v.fields then v.fields[k] else Undefined
  }

  /** `a || b`: the first operand when it is truthy, the second otherwise;
      the result is truthy exactly when one of the operands is. */
  function Or(a: JsValue, b: JsValue): (r: JsValue)
    ensures Truthy(a) ==> r == a
    ensures !Truthy(a) ==> r == b
    ensures Truthy(r) <==> Truthy(a) || Truthy(b)
  {
    if Truthy(a) then a else b
  }

  /** `a !== undefined ? a : b`. */
  function DefinedOr(a: JsValue, b: JsValue): (r: JsValue)
    ensures a != Undefined ==> r == a
    ensures a == Undefined ==> r == b
  {
    if a != Undefined then a else b
  }

  predicate IsDigit(c: char)
  {
    '0' <= c <= '9'
  }

  /** The value of a string of decimal digits. */
  function DecimalValue(s: string): (n: nat)
    requires forall i :: 0 <= i < |s| ==> IsDigit(s[i])
    decreases |s|
  {
    if s == [] then 0
    else
      assert IsDigit(s[|s| - 1]);
      10 * DecimalValue(s[..|s| - 1]) + (s[|s| - 1] as int - '0' as int)
  }

  predicate AllDigits(s: string)
  {
    forall i :: 0 <= i < |s| ==> IsDigit(s[i])
  }

  /** `Number(s)` for a string: the empty string is 0, a string of decimal
      digits its value, anything else NaN. */
  function StringNumber(s: string): (r: JsValue)
    ensures r.Num? || r.NaN?
    ensures s == "" ==> r == Num(0)
    ensures r.Num? ==> r.n >= 0
    ensures AllDigits(s) ==> r == Num(DecimalValue(s))
    ensures !AllDigits(s) ==> r == NaN
  {
    if AllDigits(s) then Num(DecimalValue(s)) else NaN
  }

  /** `Number(v)`. An array converts through its string form: the empty
      array is 0, a one-element array the number of its element's string
      (undefined and null print as the empty string, so they give 0), and a
      longer array, which prints with commas, NaN. An object prints as
      "[object Object]" and gives NaN. */
  function JsNumber(v: JsValue): (r: JsValue)
    decreases v, 0
    ensures r.Num? || r.NaN?
    ensures v.Num? || v.NaN? ==> r == v
    ensures v == Null || v == Str("") || v == List([]) ==> r == Num(0)
    ensures v == Undefined || v.Obj? ==> r == NaN
    ensures v.Bool? ==> r == Num(if v.b then 1 else 0)
    ensures v.Big? ==> r == Num(v.big)
    ensures v.Str? && AllDigits(v.s) ==> r == Num(DecimalValue(v.s))
    ensures v.List? && |v.items| > 1 ==> r == NaN
  {
    match v
    case Undefined => NaN
    case Null => Num(0)
    case Bool(b) => Num(if b then 1 else 0)
    case Num(_) => v
    case NaN => NaN
    case Big(n) => Num(n)
    case Str(s) => StringNumber(s)
    case List(items) =>
      if |items| == 0 then Num(0)
      else if |items| == 1 then ElementNumber(items[0])
      else NaN
    case Obj(_) => NaN
  }

  /** `Number(String(e))` for the one element of an array. */
  function ElementNumber(e: JsValue): (r: JsValue)
    decreases e, 1
    ensures r.Num? || r.NaN?
    ensures e == Undefined || e == Null ==> r == Num(0)
    ensures e.Bool? ==> r == NaN
    ensures !e.Undefined? && !e.Bool? ==> r == JsNumber(e)
  {
    match e
    case Undefined => Num(0)
    case Null => Num(0)
    case Bool(_) => NaN
    case _ => JsNumber(e)
  }

  /** A one-element array converts like its element, except that
      `undefined` and booleans print differently from their numbers. */
  lemma {:induction false} SingletonListNumber(x: JsValue)
    ensures !x.Undefined? && !x.Bool? ==> JsNumber(List([x])) == JsNumber(x)
    ensures JsNumber(List([Undefined])) == Num(0) && JsNumber(Undefined) == NaN
    ensures x.Bool? ==> JsNumber(List([x])) == NaN && JsNumber(x).Num?
  {
    assert [x][0] == x;
    assert [Undefined][0] == Undefined;
  }

  /** `typeof v === 'number' ? v : (v ? Number(v) : 0)`: the result is
      always a number, a number passes through, and a falsy value
      becomes 0. */
  function NumberField(v: JsValue): (r: JsValue)
    ensures r.Num? || r.NaN?
    ensures v.Num? || v.NaN? ==> r == v
    ensures !Truthy(v) && !v.Num? && !v.NaN? ==> r == Num(0)
    ensures v.Big? ==> r == Num(v.big)
    ensures Truthy(v) ==> r == JsNumber(v)
  {
    if v.Num? || v.NaN? then v
    else if Truthy(v) then JsNumber(v)
    else Num(0)
  }

  /** The guard in front of `Number` matters only for `undefined`, which
      becomes 0 rather than NaN: on every other value the field conversion
      is plain `Number(v)`. */
  lemma {:induction false} NumberFieldIsNumberButUndefined(v: JsValue)
    ensures v != Undefined ==> NumberField(v) == JsNumber(v)
    ensures NumberField(Undefined) == Num(0) && JsNumber(Undefined) == NaN
  {
    if v != Undefined && !Truthy(v) && !v.Num? && !v.NaN? {
      assert v == Null || v == Bool(false) || v == Big(0) || v == Str("");
    }
  }

  /** `formatAAO(aao)`: null for a falsy argument; otherwise the record
      with a falsy topic or owner replaced by 'Unknown Topic' or the zero
      address, numeric fields made numbers, and `active` / `isMacro`
      defaulted to true only when undefined. */
  function FormatAAO(aao: JsValue): (r: JsValue)
    ensures r == Null <==> !Truthy(aao)
    ensures r != Null ==>
      && r.Obj?
      && r.fields.Keys == {id, topic, owner, duration, active, isMacro, members, macroAAOId}
      && Prop(r, id) == Prop(aao, id)
      && Truthy(Prop(r, topic)) && Truthy(Prop(r, owner)) && Truthy(Prop(r, members))
      && (Truthy(Prop(aao, topic)) ==> Prop(r, topic) == Prop(aao, topic))
      && (!Truthy(Prop(aao, topic)) ==> Prop(r, topic) == Str(UNKNOWN_TOPIC))
      && (Truthy(Prop(aao, owner)) ==> Prop(r, owner) == Prop(aao, owner))
      && (!Truthy(Prop(aao, owner)) ==> Prop(r, owner) == Str(ZERO_ADDRESS_STRING))
      && (Prop(aao, active) == Undefined ==> Prop(r, active) == Bool(true))
      && (Prop(aao, active) != Undefined ==> Prop(r, active) == Prop(aao, active))
      && (Prop(aao, isMacro) != Undefined ==> Prop(r, isMacro) == Prop(aao, isMacro))
      && (Prop(aao, isMacro) == Undefined ==> Prop(r, isMacro) == Bool(true))
      && (Truthy(Prop(aao, members)) ==> Prop(r, members) == Prop(aao, members))
      && (!Truthy(Prop(aao, members)) ==> Prop(r, members) == List([]))
      && Prop(r, duration) == NumberField(Prop(aao, duration))
      && Prop(r, macroAAOId) == NumberField(Prop(aao, macroAAOId))
      && (Prop(r, duration).Num? || Prop(r, duration).NaN?)
      && (Prop(r, macroAAOId).Num? || Prop(r, macroAAOId).NaN?)
  {
    if !Truthy(aao) then Null
    else
      var topic' := Or(Prop(aao, topic), Str(UNKNOWN_TOPIC));
      var owner' := Or(Prop(aao, owner), Str(ZERO_ADDRESS_STRING));
      var members' := Or(Prop(aao, members), List([]));
      var duration' := NumberField(Prop(aao, duration));
      var macro' := NumberField(Prop(aao, macroAAOId));
      var active' := DefinedOr(Prop(aao, active), Bool(true));
      var isMacro' := DefinedOr(Prop(aao, isMacro), Bool(true));
      var m := map[
        id := Prop(aao, id), topic := topic', owner := owner', duration := duration',
        active := active', isMacro := isMacro', members := members', macroAAOId := macro'];
      assert m.Keys == {id, topic, owner, duration, active, isMacro, members, macroAAOId};
      var r := Obj(m);
      assert Prop(r, id) == Prop(aao, id) && Prop(r, topic) == topic' && Prop(r, owner) == owner';
      assert Prop(r, members) == members' && Prop(r, duration) == duration' && Prop(r, macroAAOId) == macro';
      assert Prop(r, active) == active' && Prop(r, isMacro) == isMacro';
      r
  }

  /** `formatProposal(proposal)` without its creation timestamp: null for a
      falsy argument; otherwise numeric ids and tallies, a falsy proposer
      or text replaced by the zero address or 'Unknown Proposal', and the
      status kept when defined and 0 (Active) otherwise. */
  function FormatProposal(proposal: JsValue): (r: JsValue)
    ensures r == Null <==> !Truthy(proposal)
    ensures r != Null ==>
      && r.Obj?
      && r.fields.Keys == {id, aaoId, proposer, text, forVotes, againstVotes, status}
      && Truthy(Prop(r, proposer)) && Truthy(Prop(r, text))
      && (Truthy(Prop(proposal, text)) ==> Prop(r, text) == Prop(proposal, text))
      && (!Truthy(Prop(proposal, text)) ==> Prop(r, text) == Str(UNKNOWN_PROPOSAL))
      && (Truthy(Prop(proposal, proposer)) ==> Prop(r, proposer) == Prop(proposal, proposer))
      && (!Truthy(Prop(proposal, proposer)) ==> Prop(r, proposer) == Str(ZERO_ADDRESS_STRING))
      && (Prop(proposal, status) != Undefined ==> Prop(r, status) == Prop(proposal, status))
      && (Prop(proposal, status) == Undefined ==> Prop(r, status) == Num(DEFAULT_STATUS))
      && Prop(r, id) == NumberField(Prop(proposal, id))
      && Prop(r, aaoId) == NumberField(Prop(proposal, aaoId))
      && Prop(r, forVotes) == NumberField(Prop(proposal, forVotes))
      && Prop(r, againstVotes) == NumberField(Prop(proposal, againstVotes))
      && (Prop(r, id).Num? || Prop(r, id).NaN?) && (Prop(r, aaoId).Num? || Prop(r, aaoId).NaN?)
      && (Prop(r, forVotes).Num? || Prop(r, forVotes).NaN?)
      && (Prop(r, againstVotes).Num? || Prop(r, againstVotes).NaN?)
      && (Prop(proposal, id) == Undefined ==> Prop(r, id) == Num(0))
      && (Prop(proposal, aaoId) == Undefined ==> Prop(r, aaoId) == Num(0))
      && (Prop(proposal, forVotes) == Undefined ==> Prop(r, forVotes) == Num(0))
      && (Prop(proposal, againstVotes) == Undefined ==> Prop(r, againstVotes) == Num(0))
  {
    if !Truthy(proposal) then Null
    else
      var id' := NumberField(Prop(proposal, id));
      var aaoId' := NumberField(Prop(proposal, aaoId));
      var proposer' := Or(Prop(proposal, proposer), Str(ZERO_ADDRESS_STRING));
      var text' := Or(Prop(proposal, text), Str(UNKNOWN_PROPOSAL));
      var for' := NumberField(Prop(proposal, forVotes));
      var against' := NumberField(Prop(proposal, againstVotes));
      var status' := DefinedOr(Prop(proposal, status), Num(DEFAULT_STATUS));
      var m := map[
        id := id', aaoId := aaoId', proposer := proposer', text := text',
        forVotes := for', againstVotes := against', status := status'];
      assert m.Keys == {id, aaoId, proposer, text, forVotes, againstVotes, status};
      var r := Obj(m);
      assert Prop(r, id) == id' && Prop(r, aaoId) == aaoId' && Prop(r, proposer) == proposer';
      assert Prop(r, text) == text' && Prop(r, forVotes) == for' && Prop(r, againstVotes) == against';
      assert Prop(r, status) == status';
      r
  }

  /** `formatToken(token)` without its registration timestamp: null for a
      falsy argument; otherwise a falsy address, name or symbol replaced by
      the zero address, 'Unknown Token' or 'UNK', and `decimals` /
      `isActive` defaulted to 18 / true only when undefined. */
  function FormatToken(token: JsValue): (r: JsValue)
    ensures r == Null <==> !Truthy(token)
    ensures r != Null ==>
      && r.Obj?
      && r.fields.Keys == {address, name, symbol, decimals, isActive}
      && Truthy(Prop(r, address)) && Truthy(Prop(r, name)) && Truthy(Prop(r, symbol))
      && (Truthy(Prop(token, address)) ==> Prop(r, address) == Prop(token, address))
      && (!Truthy(Prop(token, address)) ==> Prop(r, address) == Str(ZERO_ADDRESS_STRING))
      && (Truthy(Prop(token, name)) ==> Prop(r, name) == Prop(token, name))
      && (!Truthy(Prop(token, name)) ==> Prop(r, name) == Str(UNKNOWN_TOKEN))
      && (Truthy(Prop(token, symbol)) ==> Prop(r, symbol) == Prop(token, symbol))
      && (!Truthy(Prop(token, symbol)) ==> Prop(r, symbol) == Str(UNKNOWN_SYMBOL))
      && (Prop(token, decimals) != Undefined ==> Prop(r, decimals) == Prop(token, decimals))
      && (Prop(token, decimals) == Undefined ==> Prop(r, decimals) == Num(DEFAULT_DECIMALS))
      && (Prop(token, isActive) != Undefined ==> Prop(r, isActive) == Prop(token, isActive))
      && (Prop(token, isActive) == Undefined ==> Prop(r, isActive) == Bool(true))
  {
    if !Truthy(token) then Null
    else
      var address' := Or(Prop(token, address), Str(ZERO_ADDRESS_STRING));
      var name' := Or(Prop(token, name), Str(UNKNOWN_TOKEN));
      var symbol' := Or(Prop(token, symbol), Str(UNKNOWN_SYMBOL));
      var decimals' := DefinedOr(Prop(token, decimals), Num(DEFAULT_DECIMALS));
      var isActive' := DefinedOr(Prop(token, isActive), Bool(true));
      var m := map[
        address := address', name := name', symbol := symbol', decimals := decimals', isActive := isActive'];
      assert m[address] == address' && m[name] == name' && m[symbol] == symbol';
      assert m[decimals] == decimals' && m[isActive] == isActive';
      Obj(m)
  }

  // ---- Normalising is idempotent ----

  /** Formatting a formatted AAO changes nothing. */
  lemma FormatAAOIdempotent(aao: JsValue)
    ensures FormatAAO(FormatAAO(aao)) == FormatAAO(aao)
  {
    var r := FormatAAO(aao);
    if r != Null {
      var r2 := FormatAAO(r);
      assert Truthy(r) && r2 != Null;
      forall k | k in r.fields ensures k in r2.fields && r2.fields[k] == r.fields[k] {
        assert Prop(r2, k) == Prop(r, k);
      }
    }
  }

  /** Formatting a formatted proposal changes nothing. */
  lemma FormatProposalIdempotent(proposal: JsValue)
    ensures FormatProposal(FormatProposal(proposal)) == FormatProposal(proposal)
  {
    var r := FormatProposal(proposal);
    if r != Null {
      var r2 := FormatProposal(r);
      assert Truthy(r) && r2 != Null;
      forall k | k in r.fields ensures k in r2.fields && r2.fields[k] == r.fields[k] {
        assert Prop(r2, k) == Prop(r, k);
      }
    }
  }

  /** Formatting a formatted token changes nothing. */
  lemma FormatTokenIdempotent(token: JsValue)
    ensures FormatToken(FormatToken(token)) == FormatToken(token)
  {
    var r := FormatToken(token);
    if r != Null {
      var r2 := FormatToken(r);
      assert Truthy(r) && r2 != Null;
      forall k | k in r.fields ensures k in r2.fields && r2.fields[k] == r.fields[k] {
        assert Prop(r2, k) == Prop(r, k);
      }
    }
  }
}
