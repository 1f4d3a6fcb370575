/** Bounded chains of delayed reconciliation tasks (internal/tasks/reconciliation.go). */
module Chains {
  import opened Money

  /** One pending task: attempt number `attempt` of the chain that follows an execution. */
  datatype Task = Task(execution: nat, attempt: nat, close: bool)

  const ORDER_CHECKPOINTS := [1, 2, 5, 10]

  const CLOSE_CHECKPOINTS := [1, 2, 5, 10, 30, 60]

  function Checkpoints(close: bool): seq<int> {
    if close then CLOSE_CHECKPOINTS else ORDER_CHECKPOINTS
  }

  /** Seconds to wait before an attempt, or none once the checkpoints are used up. */
  function DelayAt(checkpoints: seq<int>, attempt: int): Option<int> {
    if attempt < 0 || attempt >= |checkpoints| then None
    else if attempt == 0 then Some(checkpoints[0])
    else Some(checkpoints[attempt] - checkpoints[attempt - 1])
  }

  /** What the queue does with a task: outside the uniqueness window it is accepted, inside it skips a task that is
      already pending. It refuses when it fails, or when the key of a task lost in a crash is still remembered. */
  datatype Queueing = Accepts | SkipsPending | Refuses

  function Enqueue(tasks: seq<Task>, t: Task, queueing: Queueing): seq<Task> {
    if DelayAt(Checkpoints(t.close), t.attempt).None? || queueing.Refuses? || (queueing.SkipsPending? && t in tasks)
    then tasks else tasks + [t]
  }

  function Without(tasks: seq<Task>, i: nat): seq<Task>
    requires i < |tasks|
  {
    tasks[..i] + tasks[i + 1..]
  }

  /** How many attempts are left in all pending chains. */
  function AttemptsLeft(tasks: seq<Task>): nat
  {
    if tasks == [] then 0 else AttemptsLeft(tasks[..|tasks| - 1]) + Left(tasks[|tasks| - 1])
  }

  function Left(t: Task): nat {
    if t.attempt < |Checkpoints(t.close)| then |Checkpoints(t.close)| - t.attempt else 0
  }

  /** The time of attempt `k` after its chain was scheduled. */
  function TimeOf(checkpoints: seq<int>, k: nat): int
    requires k < |checkpoints|
    decreases k
  {
    DelayAt(checkpoints, k).value + if k == 0 then 0 else TimeOf(checkpoints, k - 1)
  }

  /** For any checkpoints, the delays up to attempt `k` add up to checkpoint `k`; when the checkpoints increase from a
      positive first one, every delay is positive. */
  lemma {:induction false} DelaysReachCheckpoint(checkpoints: seq<int>, k: nat)
    requires k < |checkpoints|
    ensures TimeOf(checkpoints, k) == checkpoints[k]
    ensures checkpoints[0] > 0 && (forall i :: 0 < i < |checkpoints| ==> checkpoints[i - 1] < checkpoints[i])
            ==> DelayAt(checkpoints, k).value > 0
    decreases k
  {
    if k > 0 {
      DelaysReachCheckpoint(checkpoints, k - 1);
    }
  }

  /** The attempts of a chain come one, two, five and ten seconds after it was scheduled, and those of a close also thirty
      and sixty; there are no others. */
  lemma AttemptsComeExactly(close: bool, k: nat)
    ensures DelayAt(Checkpoints(close), k).Some? <==> k < if close then 6 else 4
    ensures DelayAt(Checkpoints(close), k).Some? ==>
              TimeOf(Checkpoints(close), k) ==
              if k == 0 then 1 else if k == 1 then 2 else if k == 2 then 5 else if k == 3 then 10
              else if k == 4 then 30 else 60
  {
    if k < |Checkpoints(close)| {
      DelaysReachCheckpoint(Checkpoints(close), k);
    }
  }

  /** The last attempt of an ordinary chain comes ten seconds after it was scheduled, of a close chain sixty. */
  lemma LastAttempt(close: bool)
    ensures TimeOf(Checkpoints(close), |Checkpoints(close)| - 1) == if close then 60 else 10
    ensures forall k :: 0 <= k < |Checkpoints(close)| ==> DelayAt(Checkpoints(close), k).value > 0
  {
    DelaysReachCheckpoint(Checkpoints(close), |Checkpoints(close)| - 1);
    forall k | 0 <= k < |Checkpoints(close)|
      ensures DelayAt(Checkpoints(close), k).value > 0
    {
      DelaysReachCheckpoint(Checkpoints(close), k);
    }
  }

  lemma {:induction false} RemovalTakesAttempts(tasks: seq<Task>, i: nat)
    requires i < |tasks|
    ensures AttemptsLeft(tasks) == AttemptsLeft(Without(tasks, i)) + Left(tasks[i])
    decreases |tasks|
  {
    hide Left;
    var n := |tasks| - 1;
    if i == n {
      assert Without(tasks, i) == tasks[..n];
    } else {
      RemovalTakesAttempts(tasks[..n], i);
      assert Without(tasks, i) == Without(tasks[..n], i) + [tasks[n]];
      assert (Without(tasks[..n], i) + [tasks[n]])[..n - 1] == Without(tasks[..n], i);
    }
  }

  lemma EnqueueAddsAttempts(tasks: seq<Task>, t: Task, queueing: Queueing)
    ensures AttemptsLeft(Enqueue(tasks, t, queueing)) <= AttemptsLeft(tasks) + Left(t)
  {
    assert (tasks + [t])[..|tasks|] == tasks;
  }
}
