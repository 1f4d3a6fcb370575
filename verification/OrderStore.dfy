/** Order plans and executions as the database keeps them: upserts on the unique keys, write-once timestamps and the
    "latest execution" lookup (internal/db/coredb/core.sql.go, order_guard.go). Row ids are positions in the tables. */
module OrderStore {
  import opened Money
  import opened Calculator

  /** The status words of plans, executions and exchange orders; `Other` is any word outside the list. */
  datatype Status = Planned | Submitted | Filled | Canceled | Failed | DryRun | Other

  /** The client order id. The source hashes exactly these fields; the hash is taken to be injective. */
  datatype Key = Key(
    configId: nat, observedAt: int, action: Action, symbol: string, target: real, current: real, adjustment: real)

  datatype Plan = Plan(
    key: Key, side: Side, quantity: real, price: real, reduceOnly: bool, reason: Reason, status: Status,
    updatedAt: int)

  datatype Execution = Execution(
    planId: nat, clientId: Key, orderId: Option<nat>, status: Status, filled: real,
    submittedAt: Option<int>, filledAt: Option<int>, failedAt: Option<int>, updatedAt: int)

  datatype Tables = Tables(plans: seq<Plan>, executions: seq<Execution>)

  /** The check constraint on execution statuses. */
  predicate Recordable(status: Status) {
    status.Submitted? || status.Filled? || status.Failed? || status.DryRun?
  }

  predicate Terminal(status: Status) {
    status.Filled? || status.Failed? || status.DryRun?
  }

  function FindPlan(plans: seq<Plan>, key: Key): (r: Option<nat>)
    ensures r.Some? ==> r.value < |plans| && plans[r.value].key == key
    ensures r.None? <==> forall i :: 0 <= i < |plans| ==> plans[i].key != key
  {
    if plans == [] then None
    else if plans[|plans| - 1].key == key then Some(|plans| - 1)
    else FindPlan(plans[..|plans| - 1], key)
  }

  function FindByClient(executions: seq<Execution>, key: Key): (r: Option<nat>)
    ensures r.Some? ==> r.value < |executions| && executions[r.value].clientId == key
    ensures r.None? <==> forall i :: 0 <= i < |executions| ==> executions[i].clientId != key
  {
    if executions == [] then None
    else if executions[|executions| - 1].clientId == key then Some(|executions| - 1)
    else FindByClient(executions[..|executions| - 1], key)
  }

  function FindByPlan(executions: seq<Execution>, planId: nat): (r: Option<nat>)
    ensures r.Some? ==> r.value < |executions| && executions[r.value].planId == planId
    ensures r.None? <==> forall i :: 0 <= i < |executions| ==> executions[i].planId != planId
  {
    if executions == [] then None
    else if executions[|executions| - 1].planId == planId then Some(|executions| - 1)
    else FindByPlan(executions[..|executions| - 1], planId)
  }

  /** Inserting a plan whose key exists only touches the existing row. */
  function WithPlan(t: Tables, plan: Plan, now: int): (r: (Tables, nat))
    ensures r.1 < |r.0.plans| && r.0.plans[r.1].key == plan.key
  {
    match FindPlan(t.plans, plan.key)
    case Some(i) => (t.(plans := t.plans[i := t.plans[i].(updatedAt := now)]), i)
    case None => (t.(plans := t.plans + [plan.(updatedAt := now)]), |t.plans|)
  }

  function NewExecution(
    planId: nat, key: Key, orderId: Option<nat>, status: Status, filled: real, now: int): Execution
  {
    Execution(planId, key, orderId, status, filled,
              if status.Submitted? || status.Filled? then Some(now) else None,
              if status.Filled? then Some(now) else None,
              if status.Failed? then Some(now) else None,
              now)
  }

  /** Inserting an execution: refused for a status outside the check constraint or a second row with the same client
      id, and only a touch when the plan already has one. */
  function WithExecution(t: Tables, e: Execution, now: int): Option<(Tables, nat)> {
    if !Recordable(e.status) then None
    else
      match FindByPlan(t.executions, e.planId)
      case Some(i) => Some((t.(executions := t.executions[i := t.executions[i].(updatedAt := now)]), i))
      case None =>
        if FindByClient(t.executions, e.clientId).Some? then None
        else Some((t.(executions := t.executions + [e]), |t.executions|))
  }

  function Coalesce(stamp: Option<int>, now: int): Option<int> {
    if stamp.Some? then stamp else Some(now)
  }

  function WithExecutionStatus(
    t: Tables, id: nat, orderId: Option<nat>, status: Status, filled: real, now: int): Tables
    requires id < |t.executions|
  {
    var e := t.executions[id];
    t.(executions := t.executions[id := e.(
      orderId := orderId, status := status, filled := filled, updatedAt := now,
      submittedAt := if status.Submitted? || status.Filled? then Coalesce(e.submittedAt, now) else e.submittedAt,
      filledAt := if status.Filled? then Coalesce(e.filledAt, now) else e.filledAt,
      failedAt := if status.Failed? then Coalesce(e.failedAt, now) else e.failedAt)])
  }

  function WithPlanStatus(t: Tables, id: nat, status: Status, now: int): Tables
    requires id < |t.plans|
  {
    t.(plans := t.plans[id := t.plans[id].(status := status, updatedAt := now)])
  }

  predicate PlanKnown(t: Tables, key: Key) {
    exists i :: 0 <= i < |t.plans| && t.plans[i].key == key
  }

  /** A plan with a new key is appended; one whose key is known changes nothing but that row's update time. */
  lemma PlanInsertedExactly(t: Tables, plan: Plan, now: int)
    ensures var (r, id) := WithPlan(t, plan, now);
            && r.executions == t.executions
            && if PlanKnown(t, plan.key) then
                 id < |t.plans| && t.plans[id].key == plan.key
                 && r.plans == t.plans[id := t.plans[id].(updatedAt := now)]
               else id == |t.plans| && r.plans == t.plans + [plan.(updatedAt := now)]
  {
    var found := FindPlan(t.plans, plan.key);
    if found.Some? {
      assert t.plans[found.value].key == plan.key;
    }
  }

  predicate PlanExecuted(t: Tables, planId: nat) {
    exists i :: 0 <= i < |t.executions| && t.executions[i].planId == planId
  }

  predicate ClientKnown(t: Tables, key: Key) {
    exists i :: 0 <= i < |t.executions| && t.executions[i].clientId == key
  }

  /** An execution is refused exactly for a status outside the check constraint, or a client id in use when its plan has none
      yet; if the plan has one, nothing but that row's update time changes, and otherwise the row is appended. */
  lemma ExecutionInsertedExactly(t: Tables, e: Execution, now: int)
    ensures var r := WithExecution(t, e, now);
            var allowed := e.status.Submitted? || e.status.Filled? || e.status.Failed? || e.status.DryRun?;
            && (r.None? <==> !allowed || (!PlanExecuted(t, e.planId) && ClientKnown(t, e.clientId)))
            && (r.Some? && PlanExecuted(t, e.planId) ==>
                  r.value.1 < |t.executions| && t.executions[r.value.1].planId == e.planId
                  && r.value.0 == t.(executions := t.executions[r.value.1 := t.executions[r.value.1].(updatedAt := now)]))
            && (r.Some? && !PlanExecuted(t, e.planId) ==>
                  r.value == (t.(executions := t.executions + [e]), |t.executions|))
  {
    var sibling, twin := FindByPlan(t.executions, e.planId), FindByClient(t.executions, e.clientId);
    if sibling.Some? {
      assert t.executions[sibling.value].planId == e.planId;
    }
    if twin.Some? {
      assert t.executions[twin.value].clientId == e.clientId;
    }
  }

  /** The first of two times that is known. */
  predicate FirstOf(r: Option<int>, earlier: Option<int>, now: int) {
    r.Some? && r.value == if earlier.Some? then earlier.value else now
  }

  /** The most recently updated execution, the later row winning a tie. */
  function Latest(executions: seq<Execution>): (r: Option<nat>)
    ensures r.None? <==> executions == []
    ensures r.Some? ==> r.value < |executions|
    ensures r.Some? ==> forall i :: 0 <= i < |executions| ==>
              executions[i].updatedAt < executions[r.value].updatedAt
              || (executions[i].updatedAt == executions[r.value].updatedAt && i <= r.value)
  {
    if executions == [] then None
    else
      var n := |executions| - 1;
      var earlier := Latest(executions[..n]);
      if earlier.None? || executions[earlier.value].updatedAt <= executions[n].updatedAt then Some(n) else earlier
  }

  class Database {
    var plans: seq<Plan>
    var executions: seq<Execution>

    function Rows(): Tables
      reads this
    {
      Tables(plans, executions)
    }

    constructor ()
      ensures Rows() == Tables([], [])
    {
      plans, executions := [], [];
    }

    method CreateOrderPlan(plan: Plan, now: int) returns (id: nat)
      modifies this
      ensures (Rows(), id) == WithPlan(old(Rows()), plan, now)
    {
      var found := FindPlan(plans, plan.key);
      if found.Some? {
        id := found.value;
        plans := plans[id := plans[id].(updatedAt := now)];
      } else {
        id := |plans|;
        plans := plans + [plan.(updatedAt := now)];
      }
    }

    method CreateOrderExecution(e: Execution, now: int) returns (id: Option<nat>)
      modifies this
      ensures id.None? <==> WithExecution(old(Rows()), e, now).None?
      ensures id.None? ==> Rows() == old(Rows())
      ensures id.Some? ==> Some((Rows(), id.value)) == WithExecution(old(Rows()), e, now)
    {
      if !Recordable(e.status) {
        return None;
      }
      var sibling := FindByPlan(executions, e.planId);
      if sibling.Some? {
        executions := executions[sibling.value := executions[sibling.value].(updatedAt := now)];
        return sibling;
      }
      var twin := FindByClient(executions, e.clientId);
      if twin.Some? {
        return None;
      }
      executions := executions + [e];
      return Some(|executions| - 1);
    }

    method UpdateOrderExecutionStatus(id: nat, orderId: Option<nat>, status: Status, filled: real, now: int)
      requires id < |executions|
      modifies this
      ensures Rows() == WithExecutionStatus(old(Rows()), id, orderId, status, filled, now)
      ensures |executions| == |old(executions)| && plans == old(plans)
      ensures forall i :: 0 <= i < |executions| && i != id ==> executions[i] == old(executions)[i]
      ensures var e, was := executions[id], old(executions)[id];
              && e.planId == was.planId && e.clientId == was.clientId
              && e.orderId == orderId && e.status == status && e.filled == filled && e.updatedAt == now
              && (if status.Submitted? || status.Filled? then FirstOf(e.submittedAt, was.submittedAt, now)
                  else e.submittedAt == was.submittedAt)
              && (if status.Filled? then FirstOf(e.filledAt, was.filledAt, now) else e.filledAt == was.filledAt)
              && (if status.Failed? then FirstOf(e.failedAt, was.failedAt, now) else e.failedAt == was.failedAt)
    {
      var e := executions[id];
      if status.Submitted? || status.Filled? {
        e := e.(submittedAt := Coalesce(e.submittedAt, now));
      }
      if status.Filled? {
        e := e.(filledAt := Coalesce(e.filledAt, now));
      }
      if status.Failed? {
        e := e.(failedAt := Coalesce(e.failedAt, now));
      }
      executions := executions[id := e.(orderId := orderId, status := status, filled := filled, updatedAt := now)];
    }

    method UpdateOrderPlanStatus(id: nat, status: Status, now: int)
      requires id < |plans|
      modifies this
      ensures Rows() == WithPlanStatus(old(Rows()), id, status, now)
      ensures |plans| == |old(plans)| && executions == old(executions)
      ensures forall i :: 0 <= i < |plans| && i != id ==> plans[i] == old(plans)[i]
      ensures var p := old(plans)[id];
              plans[id] == Plan(p.key, p.side, p.quantity, p.price, p.reduceOnly, p.reason, status, now)
    {
      plans := plans[id := plans[id].(status := status, updatedAt := now)];
    }
  }
}
