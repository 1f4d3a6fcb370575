/** The close requests and lifecycle columns of one hedge configuration (internal/db/mgmt/hedge_close.go). */
module CloseStore {
  import opened Money

  datatype Lifecycle = Active | Closing | CloseFailed | Disabled

  datatype RequestStatus = Requested | Submitted | Verifying | Completed | Failed

  /** A row of hedge_close_requests; its id is its index. */
  datatype Request = Request(execution: Option<nat>, status: RequestStatus)

  datatype Rows = Rows(enabled: bool, lifecycle: Lifecycle, requests: seq<Request>)

  predicate Outstanding(r: Request) {
    r.status.Requested? || r.status.Submitted? || r.status.Verifying?
  }

  /** The newest request that is still outstanding. */
  function NewestOutstanding(requests: seq<Request>): (r: Option<nat>)
    ensures r.Some? ==> r.value < |requests| && Outstanding(requests[r.value])
    ensures r.None? <==> forall i :: 0 <= i < |requests| ==> !Outstanding(requests[i])
  {
    if requests == [] then None
    else if Outstanding(requests[|requests| - 1]) then Some(|requests| - 1)
    else NewestOutstanding(requests[..|requests| - 1])
  }

  /** The newest request an execution is attached to. */
  function FindByExecution(requests: seq<Request>, execution: nat): (r: Option<nat>)
    ensures r.Some? ==> r.value < |requests| && requests[r.value].execution == Some(execution)
    ensures r.Some? ==> forall i :: r.value < i < |requests| ==> requests[i].execution != Some(execution)
    ensures r.None? <==> forall i :: 0 <= i < |requests| ==> requests[i].execution != Some(execution)
  {
    if requests == [] then None
    else if requests[|requests| - 1].execution == Some(execution) then Some(|requests| - 1)
    else FindByExecution(requests[..|requests| - 1], execution)
  }

  /** Opens a request unless one is outstanding; the flag says whether it was created. */
  function Begun(s: Rows): (r: (Rows, nat, bool))
    ensures r.1 < |r.0.requests|
  {
    match NewestOutstanding(s.requests)
    case Some(i) => (s, i, false)
    case None => (Rows(true, Closing, s.requests + [Request(None, Requested)]), |s.requests|, true)
  }

  /** Attaches an execution to a request that is still outstanding. */
  function Attached(s: Rows, id: nat, execution: nat, status: RequestStatus): Rows
    requires id < |s.requests|
  {
    if Outstanding(s.requests[id]) then s.(requests := s.requests[id := Request(Some(execution), status)]) else s
  }

  /** An update of the status column alone: refused by the unique index when it would make a second outstanding
      request. */
  function WithStatus(s: Rows, id: nat, status: RequestStatus): Option<Rows>
    requires id < |s.requests|
  {
    var requests := s.requests[id := s.requests[id].(status := status)];
    if Outstanding(requests[id]) && exists i :: 0 <= i < |requests| && i != id && Outstanding(requests[i]) then None
    else Some(s.(requests := requests))
  }

  /** Ends a request, whatever its status was, and moves the configuration with it. */
  function Finished(s: Rows, id: nat, completed: bool): Rows
    requires id < |s.requests|
  {
    Rows(s.enabled && !completed, if completed then Disabled else CloseFailed,
         s.requests[id := s.requests[id].(status := if completed then Completed else Failed)])
  }

  predicate AtMostOneOutstanding(s: Rows) {
    forall i, j :: 0 <= i < j < |s.requests| ==> !(Outstanding(s.requests[i]) && Outstanding(s.requests[j]))
  }

  class Repository {
    var enabled: bool
    var lifecycle: Lifecycle
    var requests: seq<Request>

    function State(): Rows
      reads this
    {
      Rows(enabled, lifecycle, requests)
    }

    constructor (enabled: bool)
      ensures State() == Rows(enabled, Active, [])
    {
      this.enabled, lifecycle, requests := enabled, Active, [];
    }

    method BeginHedgeCloseRequest() returns (id: nat, created: bool)
      modifies this
      ensures (State(), id, created) == Begun(old(State()))
      ensures old(AtMostOneOutstanding(State())) ==> AtMostOneOutstanding(State())
      ensures id < |requests| && Outstanding(requests[id]) && (!created ==> State() == old(State()))
    {
      var found := NewestOutstanding(requests);
      if found.Some? {
        return found.value, false;
      }
      requests := requests + [Request(None, Requested)];
      enabled, lifecycle := true, Closing;
      return |requests| - 1, true;
    }

    method AttachHedgeCloseExecution(id: nat, execution: nat, status: RequestStatus)
      requires id < |requests|
      modifies this
      ensures State() == Attached(old(State()), id, execution, status) && |requests| == old(|requests|)
    {
      if Outstanding(requests[id]) {
        requests := requests[id := Request(Some(execution), status)];
      }
    }

    /** The loop is the index lookup the database does. */
    method UpdateHedgeCloseStatus(id: nat, status: RequestStatus) returns (ok: bool)
      requires id < |requests|
      modifies this
      ensures ok == WithStatus(old(State()), id, status).Some?
      ensures if ok then Some(State()) == WithStatus(old(State()), id, status) else State() == old(State())
      ensures old(AtMostOneOutstanding(State())) ==> AtMostOneOutstanding(State())
    {
      var updated := requests[id := requests[id].(status := status)];
      if Outstanding(updated[id]) {
        for i := 0 to |updated|
          invariant forall j :: 0 <= j < i && j != id ==> !Outstanding(updated[j])
        {
          if i != id && Outstanding(updated[i]) {
            return false;
          }
        }
      }
      requests := updated;
      return true;
    }

    method CompleteHedgeClose(id: nat)
      requires id < |requests|
      modifies this
      ensures State() == Finished(old(State()), id, true)
    {
      FinishHedgeClose(id, Completed, Disabled);
    }

    method FailHedgeClose(id: nat)
      requires id < |requests|
      modifies this
      ensures State() == Finished(old(State()), id, false)
    {
      FinishHedgeClose(id, Failed, CloseFailed);
    }

    method FinishHedgeClose(id: nat, status: RequestStatus, ended: Lifecycle)
      requires id < |requests|
      modifies this
      ensures requests == old(requests)[id := old(requests)[id].(status := status)]
      ensures lifecycle == ended && enabled == (old(enabled) && !ended.Disabled?)
    {
      requests := requests[id := requests[id].(status := status)];
      lifecycle := ended;
      if ended.Disabled? {
        enabled := false;
      }
    }
  }
}
