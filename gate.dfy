/** Dependency readiness gate: postpone while a Provider or Host has not
    yet observed its latest generation. */
module Gate {
  import opened Resources

  /** The dependency is mid-reconciliation. */
  predicate Lagging(d: Dependency)
  {
    d.observedGeneration < d.generation
  }

  ghost predicate AnyLagging(items: seq<Dependency>)
  {
    exists i :: 0 <= i < |items| && Lagging(items[i])
  }

  /** Reference verdict: an error when a listing that is needed fails,
      otherwise whether some Provider or some Host lags. The Host listing
      is not needed once a Provider lags. */
  ghost function PostponeVerdict(providers: Listing<Dependency>, hosts: Listing<Dependency>): Result<bool>
  {
    if providers.ListFailed? then Err
    else if AnyLagging(providers.items) then Ok(true)
    else if hosts.ListFailed? then Err
    else Ok(AnyLagging(hosts.items))
  }

  /** postpone: scan the Providers, then the Hosts, stopping at the first
      lagging one. */
  method Postpone(providers: Listing<Dependency>, hosts: Listing<Dependency>) returns (r: Result<bool>)
    ensures r == PostponeVerdict(providers, hosts)
  {
    if providers.ListFailed? {
      return Err;
    }
    var i := 0;
    while i < |providers.items|
      invariant 0 <= i <= |providers.items|
      invariant forall k :: 0 <= k < i ==> !Lagging(providers.items[k])
    {
      if Lagging(providers.items[i]) {
        return Ok(true);
      }
      i := i + 1;
    }
    if hosts.ListFailed? {
      return Err;
    }
    var j := 0;
    while j < |hosts.items|
      invariant 0 <= j <= |hosts.items|
      invariant forall k :: 0 <= k < j ==> !Lagging(hosts.items[k])
    {
      if Lagging(hosts.items[j]) {
        return Ok(true);
      }
      j := j + 1;
    }
    return Ok(false);
  }
}
