/**
 * The service state container of src/context/ServiceContext.tsx: the state, the reducer,
 * the error classification of `handleServiceError`, and the provider's intents (fetch, add,
 * update, delete, set filters, refresh) as sequences of reducer dispatches.
 *
 * Each intent runs to completion in one call; the API reply of each request is a parameter.
 */
module ServiceContext {
  import opened Wrappers
  import opened Errors
  import opened Retry
  import opened ServiceApi
  import opened Domain

  datatype ServiceState = ServiceState(
    services: seq<Service>,
    loading: bool,
    error: Option<Thrown>,
    filters: SearchParams,
    pendingOperations: int)

  const InitialState := ServiceState([], false, None, NoFilters, 0)

  /** The reducer's actions; `Unrecognised` stands for any action type the reducer does not list. */
  datatype Action =
    | SetServices(services: seq<Service>)
    | SetLoading(loading: bool)
    | SetError(error: Option<Thrown>)
    | AddService(service: Service)
    | UpdateService(service: Service)
    | DeleteService(id: int)
    | SetFilters(filters: SearchParams)
    | IncrementPending
    | DecrementPending
    | Unrecognised(tag: string)

  /**
   * `serviceReducer`: each action rewrites its own field of a new state and leaves the others
   * as they were; an unrecognised action returns the state unchanged.
   */
  function Reduce(s: ServiceState, a: Action): (t: ServiceState)
    ensures AgreeExcept(s, t, Writes(a))
    ensures a.Unrecognised? ==> t == s
  {
    match a
    case SetServices(list) => s.(services := list)
    case SetLoading(b) => s.(loading := b)
    case SetError(e) => s.(error := e)
    case AddService(x) => s.(services := [x] + s.services)
    case UpdateService(x) => s.(services := Replace(s.services, x))
    case DeleteService(id) => s.(services := WithoutId(s.services, id))
    case SetFilters(f) => s.(filters := f)
    case IncrementPending => s.(pendingOperations := s.pendingOperations + 1)
    case DecrementPending => s.(pendingOperations := if s.pendingOperations - 1 < 0 then 0 else s.pendingOperations - 1)
    case Unrecognised(_) => s
  }

  /** The state field an action writes. */
  datatype StateField = ServicesField | LoadingField | ErrorField | FiltersField | PendingField | NoField

  function Writes(a: Action): StateField {
    match a
    case SetServices(_) => ServicesField
    case AddService(_) => ServicesField
    case UpdateService(_) => ServicesField
    case DeleteService(_) => ServicesField
    case SetLoading(_) => LoadingField
    case SetError(_) => ErrorField
    case SetFilters(_) => FiltersField
    case IncrementPending => PendingField
    case DecrementPending => PendingField
    case Unrecognised(_) => NoField
  }

  predicate AgreeExcept(s: ServiceState, t: ServiceState, f: StateField) {
    && (f != ServicesField ==> t.services == s.services)
    && (f != LoadingField ==> t.loading == s.loading)
    && (f != ErrorField ==> t.error == s.error)
    && (f != FiltersField ==> t.filters == s.filters)
    && (f != PendingField ==> t.pendingOperations == s.pendingOperations)
  }

  /**
   * The pending counter moves by one per action, is clamped at zero on the way down, and so
   * is never negative when it starts non-negative.
   */
  lemma PendingNeverNegative(s: ServiceState, a: Action)
    requires s.pendingOperations >= 0
    ensures Reduce(s, a).pendingOperations >= 0
    ensures a.IncrementPending? ==> Reduce(s, a).pendingOperations == s.pendingOperations + 1
    ensures a.DecrementPending? && s.pendingOperations > 0 ==> Reduce(s, a).pendingOperations == s.pendingOperations - 1
    ensures a.DecrementPending? && s.pendingOperations == 0 ==> Reduce(s, a).pendingOperations == 0
  {
  }

  /** An increment followed by a decrement restores any non-negative count. */
  lemma PendingBalance(s: ServiceState)
    requires s.pendingOperations >= 0
    ensures Reduce(Reduce(s, IncrementPending), DecrementPending).pendingOperations == s.pendingOperations
  {
  }

  /**
   * `ADD_SERVICE` puts the payload first and keeps the other entries in order; the result has
   * unique ids exactly when the old list had and the payload's id is new.
   */
  lemma AddServiceSpec(s: ServiceState, x: Service)
    ensures var t := Reduce(s, AddService(x)).services;
      |t| == |s.services| + 1 && t[0] == x && t[1..] == s.services
    ensures IdsUnique(Reduce(s, AddService(x)).services) <==> IdsUnique(s.services) && !HasId(s.services, x.id)
  {
    PrependUnique(s.services, x);
    assert ([x] + s.services)[1..] == s.services;
  }

  /**
   * `UPDATE_SERVICE` keeps length and order, replaces exactly the entries with the payload's id,
   * and keeps ids unique.
   */
  lemma UpdateServiceSpec(s: ServiceState, x: Service)
    ensures var t := Reduce(s, UpdateService(x)).services;
      && |t| == |s.services|
      && Ids(t) == Ids(s.services)
      && (forall i :: 0 <= i < |t| ==> t[i] == (if s.services[i].id == x.id then x else s.services[i]))
      && (IdsUnique(s.services) ==> IdsUnique(t))
  {
    ReplaceByIdSpec(s.services, x);
  }

  /**
   * `DELETE_SERVICE` removes every entry with the id, keeps the others in order, never grows
   * the list and keeps ids unique.
   */
  lemma DeleteServiceSpec(s: ServiceState, id: int)
    ensures var t := Reduce(s, DeleteService(id)).services;
      && |t| <= |s.services|
      && !HasId(t, id)
      && (forall x: Service :: x.id != id ==> multiset(t)[x] == multiset(s.services)[x])
      && Seqs.IsSubsequence(t, s.services)
      && (IdsUnique(s.services) ==> IdsUnique(t))
  {
    assert Reduce(s, DeleteService(id)).services == WithoutId(s.services, id);
    WithoutIdSpec(s.services, id);
  }

  /**
   * The classification in `handleServiceError`: a `ServiceOperationError` is kept as it is,
   * another Error becomes `UNKNOWN_ERROR` with its own message, and anything else becomes
   * `OPERATION_ERROR` with the intent's fallback message.
   */
  function Classify(error: Thrown, fallback: string): (r: Thrown)
    ensures r.OperationError?
    ensures error.OperationError? ==> r == error
    ensures error.PlainError? ==> r.code == UNKNOWN_ERROR && r.message == error.message
    ensures error.NonError? ==> r.code == OPERATION_ERROR && r.message == fallback
  {
    match error
    case OperationError(_, _, _, _) => error
    case PlainError(_, message) => NewOperationError(message, UNKNOWN_ERROR, None)
    case NonError(_) => NewOperationError(fallback, OPERATION_ERROR, None)
  }

  /**
   * Classification always yields a `ServiceOperationError`, is idempotent, and keeps
   * retryability: only an already-retryable error stays retryable.
   */
  lemma ClassifySpec(error: Thrown, fallback: string, fallback': string)
    ensures Classify(error, fallback).OperationError?
    ensures Classify(Classify(error, fallback), fallback') == Classify(error, fallback)
    ensures IsRetryable(Classify(error, fallback)) <==> IsRetryable(error)
  {
    if !error.OperationError? {
      NonTransientCodesNotRetryable(0, if error.PlainError? then error.message else fallback, None);
    }
  }

  /**
   * The cross-file fact behind every `retryOperation(() => ServiceApi.x(...))`: the wrappers
   * never throw, so whatever the configuration, the operation runs once and nothing sleeps.
   */
  lemma WrappedCallRunsOnce<T>(p: Policy, transports: nat -> Transport<T>)
    ensures Retried(p, (k: nat) => Returned(Invoke(transports(k)))) == Trace(Returned(Invoke(transports(0))), 1, [])
  {
    FirstSuccessIsImmediate(p, (k: nat) => Returned(Invoke(transports(k))));
  }

  /**
   * `await retryOperation(() => ServiceApi.x(...))` with the hook's default configuration:
   * the first reply is returned after one call.
   */
  method RetriedCall<T>(transports: nat -> Transport<T>) returns (response: ApiResponse<T>, calls: nat)
    ensures response == Invoke(transports(0)) && calls == 1
  {
    var op := (k: nat) => Returned(Invoke(transports(k)));
    var outcome, n, sleeps := RetryOperation(Resolve(RetryConfig(None, None, None)), op);
    WrappedCallRunsOnce(DefaultPolicy, transports);
    response, calls := outcome.value, n;
  }

  /** The `ServiceOperationError` an intent throws for an error envelope. */
  function EnvelopeError<T>(response: ApiResponse<T>): Thrown
    requires response.error.Some?
  {
    NewOperationError(response.error.value.message, response.error.value.code, None)
  }

  const NotFoundError := NewOperationError("Service not found", NOT_FOUND, None)

  /** The provider: the reducer's current state, and the log of every action dispatched so far. */
  class ServiceProvider {
    var state: ServiceState
    ghost var dispatched: seq<Action>

    ghost predicate Valid()
      reads this
    {
      && state.pendingOperations >= 0
      && (state.error.Some? ==> state.error.value.OperationError?)
    }

    constructor ()
      ensures Valid() && state == InitialState && dispatched == []
    {
      state := InitialState;
      dispatched := [];
    }

    method Dispatch(a: Action)
      modifies this
      ensures state == Reduce(old(state), a)
      ensures dispatched == old(dispatched) + [a]
    {
      state := Reduce(state, a);
      dispatched := dispatched + [a];
    }

    /** The opening dispatches of a counted intent: one more pending operation, loading, no error. */
    method BeginTracked()
      requires Valid()
      modifies this
      ensures Valid()
      ensures state == old(state).(pendingOperations := old(state.pendingOperations) + 1, loading := true, error := None)
      ensures dispatched == old(dispatched) + [IncrementPending, SetLoading(true), SetError(None)]
    {
      Dispatch(IncrementPending);
      Dispatch(SetLoading(true));
      Dispatch(SetError(None));
    }

    /** The closing dispatches of a counted intent, run on every path: one fewer pending operation, not loading. */
    method EndTracked()
      requires Valid() && state.pendingOperations >= 1
      modifies this
      ensures Valid()
      ensures state == old(state).(pendingOperations := old(state.pendingOperations) - 1, loading := false)
      ensures dispatched == old(dispatched) + [DecrementPending, SetLoading(false)]
    {
      Dispatch(DecrementPending);
      EndUntracked();
    }

    /** The opening dispatches of an uncounted intent (update, delete): loading, no error. */
    method BeginUntracked()
      requires Valid()
      modifies this
      ensures Valid()
      ensures state == old(state).(loading := true, error := None)
      ensures dispatched == old(dispatched) + [SetLoading(true), SetError(None)]
    {
      Dispatch(SetLoading(true));
      Dispatch(SetError(None));
    }

    /** The closing dispatch of an uncounted intent: not loading. */
    method EndUntracked()
      requires Valid()
      modifies this
      ensures Valid()
      ensures state == old(state).(loading := false)
      ensures dispatched == old(dispatched) + [SetLoading(false)]
    {
      Dispatch(SetLoading(false));
    }

    /** `handleServiceError`: classify, record in the state, and hand back for rethrowing. */
    method HandleServiceError(error: Thrown, fallback: string) returns (e: Thrown)
      requires Valid()
      modifies this
      ensures Valid()
      ensures e == Classify(error, fallback) && e.OperationError?
      ensures state == old(state).(error := Some(e))
      ensures dispatched == old(dispatched) + [SetError(Some(e))]
    {
      e := Classify(error, fallback);
      Dispatch(SetError(Some(e)));
    }

    /**
     * `fetchServices(params)`: `params` is never used. `transports(k)` is what the k-th call of
     * `getAllServices` meets; `calls` counts those calls. Success replaces the list wholesale;
     * an error envelope is recorded and the list kept; either way the counter is restored and
     * loading ends false.
     */
    method FetchServices(params: SearchParams, transports: nat -> Transport<seq<Service>>) returns (calls: nat)
      requires Valid()
      modifies this
      ensures Valid()
      ensures calls == 1
      ensures state.pendingOperations == old(state.pendingOperations) && !state.loading
      ensures state.filters == old(state.filters)
      ensures var response := Invoke(transports(0));
        if response.error.Some? then
          && state == old(state).(loading := false, error := Some(EnvelopeError(response)))
          && dispatched == old(dispatched) + [IncrementPending, SetLoading(true), SetError(None),
               SetError(Some(EnvelopeError(response))), DecrementPending, SetLoading(false)]
        else
          && state == old(state).(loading := false, error := None, services := response.data.GetOr([]))
          && dispatched == old(dispatched) + [IncrementPending, SetLoading(true), SetError(None),
               SetServices(response.data.GetOr([])), DecrementPending, SetLoading(false)]
    {
      BeginTracked();
      var response;
      response, calls := RetriedCall(transports);
      if response.error.Some? {
        var _ := HandleServiceError(EnvelopeError(response), "Failed to fetch services");
      } else {
        Dispatch(SetServices(response.data.GetOr([])));
      }
      EndTracked();
    }

    /**
     * `addService(draft)`: the new listing is the server's reply, prepended only after the reply
     * arrives; an error envelope or a reply without data is recorded and rethrown and leaves the
     * list unchanged. The counter is restored and loading ends false on every path.
     */
    method AddService(draft: Draft, transports: nat -> Transport<Service>)
      returns (r: Result<ApiResponse<Service>, Thrown>, calls: nat)
      requires Valid()
      modifies this
      ensures Valid()
      ensures calls == 1
      ensures state.pendingOperations == old(state.pendingOperations) && !state.loading
      ensures state.filters == old(state.filters)
      ensures r.Err? ==> state.services == old(state.services) && state.error == Some(r.error)
      ensures var response := Invoke(transports(0));
        if response.error.Some? then
          && r == Err(EnvelopeError(response))
          && dispatched == old(dispatched) + [IncrementPending, SetLoading(true), SetError(None),
               SetError(Some(r.error)), DecrementPending, SetLoading(false)]
        else if response.data.None? then
          && r == Err(NewOperationError("No service returned", NO_DATA, None))
          && dispatched == old(dispatched) + [IncrementPending, SetLoading(true), SetError(None),
               SetError(Some(r.error)), DecrementPending, SetLoading(false)]
        else
          && r == Ok(response)
          && state == old(state).(loading := false, error := None, services := [response.data.value] + old(state.services))
          && dispatched == old(dispatched) + [IncrementPending, SetLoading(true), SetError(None),
               Action.AddService(response.data.value), DecrementPending, SetLoading(false)]
    {
      BeginTracked();
      var response;
      response, calls := RetriedCall(transports);
      if response.error.Some? {
        var e := HandleServiceError(EnvelopeError(response), "Failed to add service");
        r := Err(e);
      } else if response.data.None? {
        var e := HandleServiceError(NewOperationError("No service returned", NO_DATA, None), "Failed to add service");
        r := Err(e);
      } else {
        Dispatch(Action.AddService(response.data.value));
        r := Ok(response);
      }
      EndTracked();
    }

    /**
     * `updateService(id, patch)`: an id absent from the list fails with `NOT_FOUND` before any
     * request; otherwise `ServiceApi.updateService` is called once, directly (no retry), and its
     * reply replaces the entries with that id. The pending counter is never touched.
     */
    method UpdateService(id: int, patch: map<string, string>, transport: Transport<Service>)
      returns (r: Result<ApiResponse<Service>, Thrown>, apiCalls: nat)
      requires Valid()
      modifies this
      ensures Valid()
      ensures state.pendingOperations == old(state.pendingOperations) && !state.loading
      ensures state.filters == old(state.filters)
      ensures r.Err? ==> state.services == old(state.services) && state.error == Some(r.error)
      ensures !HasId(old(state.services), id) ==>
        && apiCalls == 0
        && r == Err(NotFoundError)
        && dispatched == old(dispatched) + [SetLoading(true), SetError(None), SetError(Some(NotFoundError)), SetLoading(false)]
      ensures HasId(old(state.services), id) ==>
        var response := Invoke(transport);
        && apiCalls == 1
        && (response.error.Some? ==> r == Err(EnvelopeError(response)))
        && (response.error.None? && response.data.None? ==>
              r == Err(NewOperationError("No updated service returned", NO_DATA, None)))
        && (r.Err? ==>
              dispatched == old(dispatched) + [SetLoading(true), SetError(None), SetError(Some(r.error)), SetLoading(false)])
        && (response.error.None? && response.data.Some? ==>
              && r == Ok(response)
              && state == old(state).(loading := false, error := None,
                                      services := Replace(old(state.services), response.data.value))
              && dispatched == old(dispatched) + [SetLoading(true), SetError(None),
                   Action.UpdateService(response.data.value), SetLoading(false)])
    {
      BeginUntracked();
      if !HasId(state.services, id) {
        var e := HandleServiceError(NotFoundError, "Failed to update service");
        r, apiCalls := Err(e), 0;
      } else {
        var response := Invoke(transport);
        apiCalls := 1;
        if response.error.Some? {
          var e := HandleServiceError(EnvelopeError(response), "Failed to update service");
          r := Err(e);
        } else if response.data.None? {
          var e := HandleServiceError(NewOperationError("No updated service returned", NO_DATA, None), "Failed to update service");
          r := Err(e);
        } else {
          Dispatch(Action.UpdateService(response.data.value));
          r := Ok(response);
        }
      }
      EndUntracked();
    }

    /**
     * `deleteService(id)`: an id absent from the list fails with `NOT_FOUND` before any request;
     * otherwise `ServiceApi.deleteService` is called once, directly, and unless it returns an
     * error envelope every entry with that id is removed. The pending counter is never touched.
     */
    method DeleteService(id: int, transport: Transport<()>)
      returns (r: Result<ApiResponse<()>, Thrown>, apiCalls: nat)
      requires Valid()
      modifies this
      ensures Valid()
      ensures state.pendingOperations == old(state.pendingOperations) && !state.loading
      ensures state.filters == old(state.filters)
      ensures r.Err? ==> state.services == old(state.services) && state.error == Some(r.error)
      ensures !HasId(old(state.services), id) ==>
        && apiCalls == 0
        && r == Err(NotFoundError)
        && dispatched == old(dispatched) + [SetLoading(true), SetError(None), SetError(Some(NotFoundError)), SetLoading(false)]
      ensures HasId(old(state.services), id) ==>
        var response := Invoke(transport);
        && apiCalls == 1
        && (response.error.Some? ==>
              && r == Err(EnvelopeError(response))
              && dispatched == old(dispatched) + [SetLoading(true), SetError(None), SetError(Some(r.error)), SetLoading(false)])
        && (response.error.None? ==>
              && r == Ok(response)
              && state == old(state).(loading := false, error := None, services := WithoutId(old(state.services), id))
              && dispatched == old(dispatched) + [SetLoading(true), SetError(None), Action.DeleteService(id), SetLoading(false)])
    {
      BeginUntracked();
      if !HasId(state.services, id) {
        var e := HandleServiceError(NotFoundError, "Failed to delete service");
        r, apiCalls := Err(e), 0;
      } else {
        var response := Invoke(transport);
        apiCalls := 1;
        if response.error.Some? {
          var e := HandleServiceError(EnvelopeError(response), "Failed to delete service");
          r := Err(e);
        } else {
          Dispatch(Action.DeleteService(id));
          r := Ok(response);
        }
      }
      EndUntracked();
    }

    /** `setFilters`: stores the filters and nothing else. */
    method SetFilters(filters: SearchParams)
      requires Valid()
      modifies this
      ensures Valid()
      ensures state == old(state).(filters := filters)
      ensures dispatched == old(dispatched) + [Action.SetFilters(filters)]
    {
      Dispatch(Action.SetFilters(filters));
    }

    /**
     * `refreshServices`: fetches with the stored filters, which the fetch ignores, so the
     * resulting list is exactly what an unfiltered fetch would give.
     */
    method RefreshServices(transports: nat -> Transport<seq<Service>>) returns (calls: nat)
      requires Valid()
      modifies this
      ensures Valid()
      ensures calls == 1
      ensures state.pendingOperations == old(state.pendingOperations) && !state.loading
      ensures state.filters == old(state.filters)
      ensures var response := Invoke(transports(0));
        if response.error.Some? then
          && state == old(state).(loading := false, error := Some(EnvelopeError(response)))
          && dispatched == old(dispatched) + [IncrementPending, SetLoading(true), SetError(None),
               SetError(Some(EnvelopeError(response))), DecrementPending, SetLoading(false)]
        else
          && state == old(state).(loading := false, error := None, services := response.data.GetOr([]))
          && dispatched == old(dispatched) + [IncrementPending, SetLoading(true), SetError(None),
               SetServices(response.data.GetOr([])), DecrementPending, SetLoading(false)]
    {
      calls := FetchServices(state.filters, transports);
    }
  }
}
