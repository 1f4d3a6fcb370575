/** The cooldown over whole runs: between a fill and any later order of automatic hedging lies at least the cooldown,
    whatever exchange, positions and clocks do. */
module Cooldown {
  import opened Money
  import opened Calculator
  import opened OrderStore
  import opened ExitPosition
  import opened HedgeLoop
  import opened Idempotence
  import opened Sequencing

  /** Whatever follows a filled execution was stored at least `cooldown` after that fill was. */
  predicate Spaced(executions: seq<Execution>, cooldown: int) {
    forall i, j :: 0 <= i < j < |executions| && executions[i].status.Filled? ==>
      executions[j].updatedAt >= executions[i].updatedAt + cooldown
  }

  /** Every run uses the same cooldown. */
  predicate OneCooldown(steps: seq<Timed>, cooldown: int) {
    forall i :: 0 <= i < |steps| && steps[i].event.Run? ==> steps[i].event.run.cooldown == cooldown
  }

  lemma LastRowLater(before: seq<Execution>, after: seq<Execution>, cooldown: int)
    requires Spaced(before, cooldown) && before != [] && |after| == |before|
    requires forall k :: 0 <= k < |before| - 1 ==> after[k] == before[k]
    requires after[|before| - 1].updatedAt >= before[|before| - 1].updatedAt
    ensures Spaced(after, cooldown)
  {
  }

  lemma ReconciledIsSpaced(s: State, id: nat, c: Config, works: bool, fetch: Fetch, cooldown: int)
    requires InSequence(s) && Spaced(s.tables.executions, cooldown)
    requires id < |s.tables.executions| && s.tables.executions[id].status.Submitted?
    requires Reconciled(s, id, c, works, fetch).Some?
    ensures Spaced(Reconciled(s, id, c, works, fetch).value.tables.executions, cooldown)
  {
    ReconciledIsOrdered(s, id, c, works, fetch);
    ReconciledRow(s, id, c, works, fetch);
    assert s.tables.executions[id].updatedAt <= s.now;
    hide Reconciled, InSequence, Spaced;
    LastRowLater(s.tables.executions, Reconciled(s, id, c, works, fetch).value.tables.executions, cooldown);
  }

  /** The time from which the guard lets a run order after the executions so far. */
  predicate CooledDown(s: State, cooldown: int) {
    s.tables.executions != [] && Last(s).status.Filled? ==> s.now >= Last(s).updatedAt + cooldown
  }

  lemma PassedIsCooledDown(s: State, cooldown: int)
    requires InSequence(s) && s.tables.executions != []
    ensures BlockAfter(s, |s.tables.executions| - 1, cooldown).None? ==> CooledDown(s, cooldown)
  {
    hide Sound;
  }

  lemma NothingToCoolDown(s: State, cooldown: int)
    requires s.tables.executions == []
    ensures CooledDown(s, cooldown)
  {
  }

  /** A run that gets past its guard starts at least the cooldown after the last fill. */
  lemma GuardedIsSpaced(s: State, run: RunInput)
    requires InSequence(s) && Spaced(s.tables.executions, run.cooldown)
    ensures var (r, block) := Guarded(s, run);
            Spaced(r.tables.executions, run.cooldown) && (block.None? ==> CooledDown(r, run.cooldown))
  {
    hide Reconciled, InSequence, Spaced, Latest, BlockAfter, CooledDown;
    if s.tables.executions == [] {
      NothingToCoolDown(s, run.cooldown);
    } else {
      SequenceSeesLast(s);
      var id := |s.tables.executions| - 1;
      var works := run.accountUsable && run.fetchWorks;
      if !s.tables.executions[id].status.Submitted? {
        PassedIsCooledDown(s, run.cooldown);
      } else if Reconciled(s, id, run.config, works, run.guardFetch).Some? {
        ReconciledIsOrdered(s, id, run.config, works, run.guardFetch);
        ReconciledIsSpaced(s, id, run.config, works, run.guardFetch, run.cooldown);
        PassedIsCooledDown(Reconciled(s, id, run.config, works, run.guardFetch).value, run.cooldown);
      }
    }
  }

  lemma NextRowLater(rows: seq<Execution>, more: seq<Execution>, cooldown: int)
    requires Spaced(rows, cooldown)
    requires more != [] && more[..|more| - 1] == rows
    requires rows != [] ==> more[|rows|].updatedAt >= rows[|rows| - 1].updatedAt
    requires rows != [] && rows[|rows| - 1].status.Filled? ==>
               more[|rows|].updatedAt >= rows[|rows| - 1].updatedAt + cooldown
    ensures Spaced(more, cooldown)
  {
    forall i, j | 0 <= i < j < |more| && more[i].status.Filled?
      ensures more[j].updatedAt >= more[i].updatedAt + cooldown
    {
      assert more[i] == rows[i] && (j < |rows| ==> more[j] == rows[j]);
    }
  }

  lemma DecidedIsSpaced(s: State, run: RunInput)
    requires InSequence(s) && CooledDown(s, run.cooldown) && Spaced(s.tables.executions, run.cooldown)
    ensures Spaced(Decided(s, run).0.tables.executions, run.cooldown)
  {
    hide Decided, Spaced, Sound, Adds;
    DecidedRow(s, run);
    if Adds(s, run) {
      NextRowLater(s.tables.executions, Decided(s, run).0.tables.executions, run.cooldown);
    }
  }

  lemma LaterIsCooledDown(s: State, elapsed: nat, cooldown: int)
    requires CooledDown(s, cooldown)
    ensures CooledDown(s.(now := s.now + elapsed), cooldown)
  {
    assert s.tables.executions != [] ==> Last(s.(now := s.now + elapsed)) == Last(s);
  }

  lemma RunIsSpaced(s: State, run: RunInput)
    requires InSequence(s) && run.kind.Automatic? && Spaced(s.tables.executions, run.cooldown)
    ensures Spaced(RunOnce(s, run).0.tables.executions, run.cooldown)
  {
    hide InSequence, Guarded, Decided, Spaced, CooledDown, Pending;
    GuardedIsOrdered(s, run);
    GuardedIsSpaced(s, run);
    var (s0, block) := Guarded(s, run);
    if block.None? {
      LaterIsOrdered(s0, run.pause);
      LaterIsCooledDown(s0, run.pause, run.cooldown);
      DecidedIsSpaced(s0.(now := s0.now + run.pause), run);
    }
  }

  predicate CooldownStep(timed: Timed, cooldown: int) {
    timed.event.Run? ==> timed.event.run.kind.Automatic? && timed.event.run.cooldown == cooldown
  }

  lemma StepIsSpaced(s: State, timed: Timed, cooldown: int)
    requires InSequence(s) && Spaced(s.tables.executions, cooldown) && CooldownStep(timed, cooldown)
    ensures Spaced(Step(s, timed).tables.executions, cooldown)
  {
    hide InSequence, RunOnce, Reconciled, Spaced, Synced;
    LaterIsOrdered(s, timed.elapsed);
    var s1 := s.(now := s.now + timed.elapsed);
    match timed.event
    case Run(run) => RunIsSpaced(s1, run);
    case ReconcileTask(id, c, works, fetch) =>
      if id < |s1.tables.executions| && s1.tables.executions[id].status.Submitted?
         && Reconciled(s1, id, c, works, fetch).Some? {
        ReconciledIsSpaced(s1, id, c, works, fetch, cooldown);
      }
    case SyncPosition(target, fetch) => SyncTouchesSnapshotOnly(s1, target, fetch);
    case _ =>
  }

  lemma CooldownStepsInTurn(s: State, timed: Timed, cooldown: int)
    requires InSequence(s) && CooldownStep(timed, cooldown)
    ensures InSequence(Step(s, timed))
  {
    hide InSequence, Step, Adds, Pending;
    StepIsOrderedExactly(s, timed);
  }

  lemma {:induction false} TraceIsSpaced(s: State, steps: seq<Timed>, cooldown: int)
    requires InSequence(s) && Spaced(s.tables.executions, cooldown)
    requires forall i :: 0 <= i < |steps| ==> CooldownStep(steps[i], cooldown)
    ensures Spaced(Trace(s, steps).tables.executions, cooldown)
    decreases |steps|
  {
    if steps != [] {
      hide InSequence, Step, Spaced, CooldownStep;
      StepIsSpaced(s, steps[0], cooldown);
      CooldownStepsInTurn(s, steps[0], cooldown);
      TraceIsSpaced(Step(s, steps[0]), steps[1..], cooldown);
    }
  }

  /** In every run of automatic hedging with one cooldown, each execution that follows a fill - filled, failed or dry -
      was stored at least the cooldown after that fill. */
  lemma CooldownIsKept(s: State, steps: seq<Timed>, cooldown: int, i: nat, j: nat)
    requires Initial(s) && AllAutomatic(steps) && OneCooldown(steps, cooldown)
    requires i < j < |Trace(s, steps).tables.executions| && Trace(s, steps).tables.executions[i].status.Filled?
    ensures Trace(s, steps).tables.executions[j].updatedAt >= Trace(s, steps).tables.executions[i].updatedAt + cooldown
  {
    hide Sound, Chronological, Trace;
    InitiallyOrdered(s);
    TraceIsSpaced(s, steps, cooldown);
  }
}
