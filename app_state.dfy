/** The in-memory list of saved send-money requests. */
module Managers {
  import opened Wrappers
  import opened Transactions

  class AppState {
    var requests: seq<TransactionModel>

    /** The list starts empty. */
    constructor ()
      ensures requests == []
    {
      requests := [];
    }

    /** `addRequest`: appends, keeping every earlier request where it was. */
    method AddRequest(request: TransactionModel)
      modifies this`requests
      ensures requests == old(requests) + [request]
    {
      requests := requests + [request];
    }

    /**
     * `loadRequests`, given what reading and decoding the stored list
     * produced: a decoded list replaces the requests; missing or undecodable
     * data changes nothing.
     */
    method LoadRequests(decoded: Option<seq<TransactionModel>>)
      modifies this`requests
      ensures decoded.Some? ==> requests == decoded.value
      ensures decoded.None? ==> requests == old(requests)
    {
      if decoded.Some? {
        requests := decoded.value;
      }
    }
  }

  /** Saving a request and then another keeps both, in order, after the old ones. */
  method AddTwo(state: AppState, first: TransactionModel, second: TransactionModel)
    modifies state
    ensures state.requests == old(state.requests) + [first, second]
    ensures |state.requests| == |old(state.requests)| + 2
    ensures state.requests[..|old(state.requests)|] == old(state.requests)
  {
    state.AddRequest(first);
    state.AddRequest(second);
  }
}
