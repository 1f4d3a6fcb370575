/** What reconciling a submitted order does, and exactly when an automatic run gets past its guard and why it is blocked,
    both read off the stored rows and the exchange's orders. */
module Guard {
  import opened Money
  import opened Calculator
  import opened Positions
  import opened OrderStore
  import opened ExitPosition
  import opened HedgeLoop
  import opened Idempotence

  // ---- Reconciling ----------------------------------------------------------------------------------------------

  lemma {:induction false} NewestOrder(orders: seq<ExchangeOrder>, key: Key)
    ensures var r := FindByClientId(orders, key);
            && (r.None? <==> forall j :: 0 <= j < |orders| ==> orders[j].clientId != key)
            && (r.Some? ==> r.value < |orders| && orders[r.value].clientId == key
                            && forall j :: r.value < j < |orders| ==> orders[j].clientId != key)
    decreases |orders|
  {
    if orders != [] && orders[|orders| - 1].clientId != key {
      NewestOrder(orders[..|orders| - 1], key);
    }
  }

  /** Which exchange order a fetch reads: the one the execution names, and otherwise the newest with its client id. */
  lemma FetchesExactly(s: State, e: Execution)
    ensures var r := FetchOrder(s, e);
            if e.orderId.Some? && e.orderId.value < |s.orders| then r == e.orderId
            else
              && (r.None? <==> forall j :: 0 <= j < |s.orders| ==> s.orders[j].clientId != e.clientId)
              && (r.Some? ==> s.orders[r.value].clientId == e.clientId
                              && forall j :: r.value < j < |s.orders| ==> s.orders[j].clientId != e.clientId)
  {
    NewestOrder(s.orders, e.clientId);
    hide FindByClientId;
  }

  /** The fill of a reconciled order is what a position fetch shows. */
  predicate FillShown(c: Config, stored: Option<Snapshot>, side: Side, o: ExchangeOrder, fetch: Fetch) {
    !c.dryRun && ShowsHeld(c.targetSymbol, fetch, QuantityOf(stored) + Directed(side, Abs(o.filled)))
  }

  /** A reconcile works exactly when the order can be read. Then the execution and its plan say what the exchange says:
      filled for a filled order, failed for one that failed or was canceled, submitted otherwise, with its filled quantity,
      its order and the present time; no other row changes. The snapshot is replaced exactly when the order is filled and
      the position fetch shows the fill. */
  lemma ReconciledExactly(s: State, id: nat, c: Config, works: bool, fetch: Fetch)
    requires Sound(s.tables) && id < |s.tables.executions|
    ensures var e, r := s.tables.executions[id], Reconciled(s, id, c, works, fetch);
            && (r.Some? <==> works && FetchOrder(s, e).Some?)
            && (r.Some? ==>
                  var o, row := s.orders[FetchOrder(s, e).value], r.value.tables.executions[id];
                  && (row.status.Filled? <==> o.status.Filled?)
                  && (row.status.Failed? <==> o.status.Failed? || o.status.Canceled?)
                  && (row.status.Submitted? <==> !o.status.Filled? && !o.status.Failed? && !o.status.Canceled?)
                  && row.filled == o.filled && row.orderId == FetchOrder(s, e) && row.updatedAt == s.now
                  && row.planId == e.planId && row.clientId == e.clientId
                  && r.value.tables == s.tables.(plans := r.value.tables.plans, executions := s.tables.executions[id := row])
                  && r.value.tables.plans == s.tables.plans[e.planId := s.tables.plans[e.planId].(status := row.status,
                                                                                                  updatedAt := s.now)]
                  && r.value == s.(tables := r.value.tables, snapshot := r.value.snapshot)
                  && if o.status.Filled? && FillShown(c, s.snapshot, s.tables.plans[e.planId].side, o, fetch)
                     then r.value.snapshot.Some? && r.value.snapshot.value.observedAt == s.now
                          && r.value.snapshot.value.quantity ==
                             QuantityOf(s.snapshot) + Directed(s.tables.plans[e.planId].side, Abs(o.filled))
                     else r.value.snapshot == s.snapshot)
  {
    var e := s.tables.executions[id];
    assert e.planId < |s.tables.plans|;
    hide Sound, FetchOrder;
    if works && FetchOrder(s, e).Some? {
      var o := s.orders[FetchOrder(s, e).value];
      var r := Reconciled(s, id, c, works, fetch).value;
      RefreshStoresExactly(c, s.snapshot, s.snapshot, s.tables.plans[e.planId].side, o.filled, r.tables.executions[id],
                           fetch, s.now);
      hide RefreshedAfter, FirstOpen;
    }
  }

  // ---- The guard ------------------------------------------------------------------------------------------------

  /** The exchange order the guard reads: that of the latest execution, if it is submitted and can be read. */
  function OrderRead(s: State, run: RunInput): Option<ExchangeOrder> {
    match Latest(s.tables.executions)
    case None => None
    case Some(id) =>
      var e := s.tables.executions[id];
      if e.status.Submitted? && run.accountUsable && run.fetchWorks && FetchOrder(s, e).Some?
      then Some(s.orders[FetchOrder(s, e).value]) else None
  }

  /** The latest execution is submitted, and the exchange does not say that its order has ended. */
  predicate AwaitsOrder(s: State, run: RunInput) {
    match Latest(s.tables.executions)
    case None => false
    case Some(id) =>
      var o := OrderRead(s, run);
      && s.tables.executions[id].status.Submitted?
      && (o.None? || !(o.value.status.Filled? || o.value.status.Failed? || o.value.status.Canceled?))
  }

  /** The time of the latest fill: of the latest execution if it is filled, or now, if the exchange says so now. */
  function FilledAt(s: State, run: RunInput): Option<int> {
    match Latest(s.tables.executions)
    case None => None
    case Some(id) =>
      var e, o := s.tables.executions[id], OrderRead(s, run);
      if e.status.Filled? then Some(e.updatedAt)
      else if o.Some? && o.value.status.Filled? then Some(s.now) else None
  }

  predicate CoolsDown(s: State, run: RunInput) {
    FilledAt(s, run).Some? && run.cooldown > 0 && s.now < FilledAt(s, run).value + run.cooldown
  }

  /** The fill the guard finds just now is shown by its position fetch. */
  predicate ShownNow(s: State, run: RunInput)
    requires Latest(s.tables.executions).Some?
  {
    var e, o := s.tables.executions[Latest(s.tables.executions).value], OrderRead(s, run);
    o.Some? && e.planId < |s.tables.plans|
    && FillShown(run.config, s.snapshot, s.tables.plans[e.planId].side, o.value, run.guardFetch)
  }

  /** No snapshot is as recent as the latest fill. */
  predicate AwaitsSync(s: State, run: RunInput) {
    && FilledAt(s, run).Some? && !CoolsDown(s, run) && !ShownNow(s, run)
    && (s.snapshot.None? || s.snapshot.value.observedAt < FilledAt(s, run).value)
  }

  /** Nothing was executed yet, the latest execution has failed, was dry or is found failed now, or it is filled, the cooldown
      is over and a snapshot is as recent as the fill. */
  predicate GetsThrough(s: State, run: RunInput) {
    match Latest(s.tables.executions)
    case None => true
    case Some(id) =>
      var e, o := s.tables.executions[id], OrderRead(s, run);
      || e.status.Failed? || e.status.DryRun?
      || (o.Some? && (o.value.status.Failed? || o.value.status.Canceled?))
      || (FilledAt(s, run).Some? && !CoolsDown(s, run) && !AwaitsSync(s, run))
  }

  /** From every sound store: exactly when an automatic run is blocked for which reason, and exactly when it is not; a run
      with another reason never is. */
  lemma BlockedExactly(s: State, run: RunInput)
    requires Sound(s.tables)
    ensures var outcome := RunOnce(s, run).1;
            && (run.kind.Automatic? ==>
                  && (outcome == Blocked(PendingOrder) <==> AwaitsOrder(s, run))
                  && (outcome == Blocked(Cooldown) <==> CoolsDown(s, run))
                  && (outcome == Blocked(PositionSyncWait) <==> AwaitsSync(s, run))
                  && (!outcome.Blocked? <==> GetsThrough(s, run)))
            && (!run.kind.Automatic? ==> !outcome.Blocked?)
  {
    GuardBlocksExactly(s, run);
    NeverBlockedLater(AtDecision(s, run), run);
    hide Sound, Guarded, Decided, AwaitsOrder, CoolsDown, AwaitsSync, GetsThrough;
  }

  /** So a run is blocked exactly if it is automatic and does not get through. */
  lemma BlockedAtAll(s: State, run: RunInput)
    requires Sound(s.tables)
    ensures RunOnce(s, run).1.Blocked? <==> run.kind.Automatic? && !GetsThrough(s, run)
  {
    hide Sound, RunOnce, GetsThrough, AwaitsOrder, CoolsDown, AwaitsSync;
    BlockedExactly(s, run);
  }

  lemma NeverBlockedLater(s: State, run: RunInput)
    ensures !Decided(s, run).1.Blocked?
  {
    hide RunDecision, Executed, RefreshedAfter;
  }

  lemma GuardBlocksExactly(s: State, run: RunInput)
    requires Sound(s.tables)
    ensures var block := Guarded(s, run).1;
            && (block == Some(PendingOrder) <==> AwaitsOrder(s, run))
            && (block == Some(HedgeLoop.Cooldown) <==> CoolsDown(s, run))
            && (block == Some(PositionSyncWait) <==> AwaitsSync(s, run))
            && (block.None? <==> GetsThrough(s, run))
  {
    hide Latest, Reconciled, FetchOrder, FillShown;
    var latest := Latest(s.tables.executions);
    if latest.Some? {
      var id := latest.value;
      StoredStatus(s, id);
      if s.tables.executions[id].status.Submitted? {
        ReconciledExactly(s, id, run.config, run.accountUsable && run.fetchWorks, run.guardFetch);
      }
      hide Sound;
    }
  }

  lemma StoredStatus(s: State, id: nat)
    requires Sound(s.tables) && id < |s.tables.executions|
    ensures var status := s.tables.executions[id].status;
            status.Submitted? || status.Filled? || status.Failed? || status.DryRun?
    ensures s.tables.executions[id].planId < |s.tables.plans|
  {
    assert Stamped(s.tables.executions[id]);
  }

  /** An order that failed or was canceled at the exchange does not block the next automatic run that can read it. */
  lemma EndedOrderUnblocks(s: State, run: RunInput, id: nat)
    requires Sound(s.tables) && run.kind.Automatic? && Latest(s.tables.executions) == Some(id)
    requires s.tables.executions[id].status.Submitted? && run.accountUsable && run.fetchWorks
    requires FetchOrder(s, s.tables.executions[id]).Some?
    requires var o := s.orders[FetchOrder(s, s.tables.executions[id]).value]; o.status.Failed? || o.status.Canceled?
    ensures !RunOnce(s, run).1.Blocked?
  {
    hide Sound, RunOnce, FetchOrder, Latest;
    BlockedExactly(s, run);
  }
}
