/** Shared vocabulary of the ledger-side model: account addresses and the
    usual failure-carrying wrappers. */
module Common {

  /** An account or contract address. Addresses are opaque; only equality
      matters, and 0 stands for the zero address. */
  type Address = nat

  const ZERO_ADDRESS: Address := 0

  datatype Option<+T> = None | Some(value: T)

  /** The result of an entry point that returns a value or reverts. */
  datatype Result<+T, +E> = Success(value: T) | Failure(error: E)

  /** The result of an entry point that returns nothing or reverts. */
  datatype Outcome<+E> = Pass | Fail(error: E)

  function ToOutcome<E>(failure: Option<E>): (r: Outcome<E>)
    ensures r.Pass? <==> failure.None?
    ensures r.Fail? ==> r.error == failure.value
  {
    match failure
    case None => Pass
    case Some(e) => Fail(e)
  }

  /** No element occurs twice. */
  ghost predicate NoDuplicates<T>(s: seq<T>)
  {
    forall i, j :: 0 <= i < j < |s| ==> s[i] != s[j]
  }
}
