/**
 * `useNetwork`: the name of the Filecoin network the wallet's chain id
 * belongs to. `getNetwork` is declared `async`, so it hands back a promise
 * of the name rather than the name itself; the query's "unsupported" guard
 * tests that promise.
 */
module Network {
  import opened Wrappers

  const CalibrationChainId: int := 314159
  const MainnetChainId: int := 314

  /** The name of the network with that chain id, or `null` for any other chain. */
  function NetworkName(chainId: int): (r: Option<string>)
    ensures r == Some("calibration") <==> chainId == CalibrationChainId
    ensures r == Some("mainnet") <==> chainId == MainnetChainId
    ensures r.None? <==> chainId != CalibrationChainId && chainId != MainnetChainId
  {
    if chainId == CalibrationChainId then Some("calibration")
    else if chainId == MainnetChainId then Some("mainnet")
    else None
  }

  /** The chain id of a supported network's name: the inverse lookup. */
  function ChainIdOf(name: string): (r: Option<int>)
  {
    if name == "calibration" then Some(CalibrationChainId)
    else if name == "mainnet" then Some(MainnetChainId)
    else None
  }

  /** Name and chain id determine each other on the two supported networks. */
  lemma NameRoundTrip(chainId: int, name: string)
    ensures NetworkName(chainId) == Some(name) <==> ChainIdOf(name) == Some(chainId)
  {
  }

  /** A settled JavaScript promise: an object, whatever it resolves to. */
  datatype Promise<T> = Promise(resolved: T)

  /**
   * The truthiness of a promise. A promise is an object, hence always truthy
   * in JavaScript, whatever it resolves to (even `null`): this is the
   * language's rule, not a placeholder.
   */
  predicate PromiseTruthy<T>(p: Promise<T>)
  {
    true
  }

  /** `getNetwork`: async, so it wraps the name in a promise. */
  function GetNetwork(chainId: int): (p: Promise<Option<string>>)
    ensures p.resolved == NetworkName(chainId)
  {
    Promise(NetworkName(chainId))
  }

  /** `!chainId`: the chain id is absent or 0. */
  predicate ChainIdMissing(chainId: Option<int>)
  {
    chainId.None? || chainId.value == 0
  }

  /**
   * The query function as written: a missing chain id throws; the
   * "Unsupported network" guard tests the promise, which is always truthy,
   * so an unknown chain resolves to `null`.
   */
  function NetworkQuery(chainId: Option<int>): (r: Result<Option<string>>)
    ensures ChainIdMissing(chainId) <==> r.Err?
    ensures r.Err? ==> r.message == "Chain ID not found"
    ensures r.Ok? ==> r.value == NetworkName(chainId.value)
  {
    if ChainIdMissing(chainId) then Err("Chain ID not found")
    else
      var network := GetNetwork(chainId.value);
      if !PromiseTruthy(network) then Err("Unsupported network")
      else Ok(network.resolved)
  }

  /** The guard as written never fires: chain 1 (not a Filecoin chain) resolves to `null`. */
  lemma UnsupportedResolvesNull()
    ensures NetworkQuery(Some(1)) == Ok(None)
    ensures forall c :: NetworkQuery(Some(c)) != Err("Unsupported network")
  {
  }

  /** The query function with the name awaited before the guard: an unknown chain is an error. */
  function NetworkQueryAwaited(chainId: Option<int>): (r: Result<string>)
    ensures r.Ok? <==> !ChainIdMissing(chainId) && NetworkName(chainId.value).Some?
    ensures r.Ok? ==> ChainIdOf(r.value) == Some(chainId.value)
    ensures ChainIdMissing(chainId) ==> r == Err("Chain ID not found")
    ensures !ChainIdMissing(chainId) && NetworkName(chainId.value).None? ==> r == Err("Unsupported network")
  {
    if ChainIdMissing(chainId) then Err("Chain ID not found")
    else
      var network := GetNetwork(chainId.value).resolved;
      if network.None? then Err("Unsupported network")
      else Ok(network.value)
  }

  /** Both versions agree on every supported chain and on a missing chain id. */
  lemma AwaitedAgrees(chainId: Option<int>)
    ensures NetworkQueryAwaited(chainId).Ok? ==> NetworkQuery(chainId) == Ok(Some(NetworkQueryAwaited(chainId).value))
    ensures ChainIdMissing(chainId) ==> NetworkQuery(chainId).Err? && NetworkQuery(chainId).message == NetworkQueryAwaited(chainId).message
    ensures NetworkQueryAwaited(chainId) == Err("Unsupported network") ==> NetworkQuery(chainId) == Ok(None)
  {
  }
}
