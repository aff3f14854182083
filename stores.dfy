/**
 * The provider lookup `app[store]` of index.js: a plain object holding the
 * Google Play provider under `g` and the iTunes provider under `i`. Any other
 * code reads `undefined` (or an inherited non-provider member), so the
 * provider method called on it fails with a TypeError.
 */
module Stores {
  import opened Wrappers

  /** The two providers, created as `aso('gplay')` and `aso('itunes')`. */
  datatype Store = GooglePlay | ITunes

  /** The `--store` code a provider is registered under. */
  function Code(s: Store): string
  {
    match s
    case GooglePlay => "g"
    case ITunes => "i"
  }

  /** `app[store]`: the provider registered under the code, if any. */
  function Resolve(code: string): (r: Option<Store>)
    ensures forall s :: r == Some(s) <==> code == Code(s)
    ensures r.None? <==> code != "i" && code != "g"
  {
    if code == "g" then Some(GooglePlay)
    else if code == "i" then Some(ITunes)
    else None
  }

  /**
   * Why a command fails before reaching a provider: the TypeError raised by
   * calling the provider method on what the lookup found. Its message names
   * only the property read (the operation), not the store code.
   */
  datatype Error = TypeError(operation: string)

  /**
   * `app[store].<operation>(...)`: the provider the call reaches, or the
   * TypeError raised for an unregistered code, naming the operation.
   */
  function ProviderFor(code: string, operation: string): (r: Result<Store, Error>)
    ensures r.Success? <==> code in {"i", "g"}
    ensures r.Success? ==> Code(r.value) == code
    ensures r.Failure? ==> r.error == TypeError(operation)
  {
    match Resolve(code)
    case Some(s) => Success(s)
    case None => Failure(TypeError(operation))
  }

  /** Codes and stores are in one-to-one correspondence. */
  lemma CodeRoundTrip(s: Store, t: Store)
    ensures Resolve(Code(s)) == Some(s)
    ensures Code(s) == Code(t) ==> s == t
  {
  }

  /** Codes are case-sensitive and exact: upper case, full names and the empty code all fail. */
  lemma UnknownCodes()
    ensures Resolve("I") == None && Resolve("G") == None
    ensures Resolve("itunes") == None && Resolve("gplay") == None
    ensures Resolve("") == None
  {
  }
}
