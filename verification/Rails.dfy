/** The simulated rail: it answers each client reference once and repeats the answer from its cache. */
module Rails {
  import opened LedgerTables
  import opened TransferRows

  datatype RailResult = RailResult(accepted: bool, reference: nat)

  class SimulatedRail {
    var cache: map<RowId, RailResult>
    var issued: nat  // references generated so far; each new one is fresh

    /** A restarted process starts with an empty cache. */
    constructor ()
      ensures cache == map[] && issued == 0
    {
      cache, issued := map[], 0;
    }

    /** `answered` is false when the caller's deadline passes before the rail responds. */
    method Send(clientReference: Option<RowId>, counterparty: string, answered: bool) returns (r: Option<RailResult>)
      modifies this
      ensures clientReference.Some? && clientReference.value in old(cache) ==>
        r == Some(old(cache)[clientReference.value]) && cache == old(cache) && issued == old(issued)
      ensures !(clientReference.Some? && clientReference.value in old(cache)) ==>
        && r == (if answered then Some(RailResult(!RailRejects(counterparty), old(issued))) else None)
        && cache == (if answered && clientReference.Some? then old(cache)[clientReference.value := r.value] else old(cache))
        && issued == old(issued) + if answered then 1 else 0
    {
      if clientReference.Some? && clientReference.value in cache {
        return Some(cache[clientReference.value]);
      }
      if !answered {
        return None;
      }
      var result := RailResult(!RailRejects(counterparty), issued);
      issued := issued + 1;
      if clientReference.Some? {
        cache := cache[clientReference.value := result];
      }
      r := Some(result);
    }
  }
}
