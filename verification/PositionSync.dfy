/** The periodic position sync (internal/service/position_sync_service.go): configurations grouped by account, and the
    positions of an account folded into one net snapshot per configured symbol. */
module PositionSync {
  import opened Money
  import opened Calculator
  import opened Positions
  import opened Symbols

  function Normalize(symbol: string): string {
    Upper(Trim(symbol))
  }

  // ---- Grouping -------------------------------------------------------------------------------------------------

  datatype Account = Account(id: nat, agent: nat)

  datatype SyncConfig = SyncConfig(agent: nat, account: Account, target: string)

  /** The symbols to sync on one account: normalised symbol to the target as configured. */
  datatype Group = Group(account: Account, symbols: map<string, string>)

  predicate Eligible(c: SyncConfig) {
    c.account.id != 0 && c.account.agent == c.agent && Normalize(Trim(c.target)) != ""
  }

  function Joined(groups: map<nat, Group>, c: SyncConfig): map<nat, Group> {
    if !Eligible(c) then groups
    else
      var symbols := if c.account.id in groups then groups[c.account.id].symbols else map[];
      groups[c.account.id := Group(c.account, symbols[Normalize(Trim(c.target)) := Trim(c.target)])]
  }

  function Grouped(configs: seq<SyncConfig>): map<nat, Group> {
    if configs == [] then map[] else Joined(Grouped(configs[..|configs| - 1]), configs[|configs| - 1])
  }

  predicate Wants(c: SyncConfig, account: nat, symbol: string) {
    Eligible(c) && c.account.id == account && Normalize(c.target) == symbol
  }

  predicate Requested(groups: map<nat, Group>, account: nat, symbol: string) {
    account in groups && symbol in groups[account].symbols
  }

  /** A configuration wants a symbol synced exactly if it names it up to case and blanks, not blank, on an account that exists
      and belongs to its agent. */
  lemma WantsExactly(c: SyncConfig, account: nat, symbol: string)
    ensures Wants(c, account, symbol) <==>
            c.account.id == account && account != 0 && c.account.agent == c.agent
            && symbol == Upper(Trim(c.target)) && symbol != ""
  {
    NormalizeOnce(c.target);
    hide Upper, Trim;
  }

  lemma NormalizeOnce(symbol: string)
    ensures Normalize(Trim(symbol)) == Normalize(symbol) && Normalize(Normalize(symbol)) == Normalize(symbol)
  {
    TrimTwice(symbol);
    UpperOfTrim(Trim(symbol));
    UpperTwice(Trim(symbol));
  }

  /** An account syncs exactly the normalised target symbols of its eligible configurations, each under a spelling that
      normalises to it. */
  lemma {:induction false} GroupsAreExact(configs: seq<SyncConfig>, account: nat, symbol: string)
    ensures Requested(Grouped(configs), account, symbol) <==>
            exists i :: 0 <= i < |configs| && Wants(configs[i], account, symbol)
    ensures Requested(Grouped(configs), account, symbol) ==> Normalize(Grouped(configs)[account].symbols[symbol]) == symbol
    decreases |configs|
  {
    hide Normalize, Eligible;
    if configs != [] {
      var n := |configs| - 1;
      GroupsAreExact(configs[..n], account, symbol);
      NormalizeOnce(configs[n].target);
      if Wants(configs[n], account, symbol) {
        assert Requested(Grouped(configs), account, symbol);
      } else if Requested(Grouped(configs), account, symbol) {
        assert Requested(Grouped(configs[..n]), account, symbol);
        var i :| 0 <= i < n && Wants(configs[..n][i], account, symbol);
        assert configs[i] == configs[..n][i];
      }
      forall i | 0 <= i < n && Wants(configs[i], account, symbol)
        ensures Requested(Grouped(configs), account, symbol)
      {
        assert configs[..n][i] == configs[i];
      }
    }
  }

  /** The last configuration that wants a symbol on an account. */
  function LastWanting(configs: seq<SyncConfig>, account: nat, symbol: string): Option<nat> {
    if configs == [] then None
    else if Wants(configs[|configs| - 1], account, symbol) then Some(|configs| - 1)
    else LastWanting(configs[..|configs| - 1], account, symbol)
  }

  lemma {:induction false} LastWantingIsLast(configs: seq<SyncConfig>, account: nat, symbol: string)
    ensures var r := LastWanting(configs, account, symbol);
            && (r.None? <==> forall k :: 0 <= k < |configs| ==> !Wants(configs[k], account, symbol))
            && (r.Some? ==> r.value < |configs| && Wants(configs[r.value], account, symbol)
                            && forall k :: r.value < k < |configs| ==> !Wants(configs[k], account, symbol))
    decreases |configs|
  {
    hide Wants;
    if configs != [] {
      LastWantingIsLast(configs[..|configs| - 1], account, symbol);
    }
  }

  lemma JoinedSpelling(groups: map<nat, Group>, c: SyncConfig, account: nat, symbol: string)
    ensures var r := Joined(groups, c);
            if Wants(c, account, symbol) then
              Requested(r, account, symbol) && r[account].symbols[symbol] == Trim(c.target)
            else
              && (Requested(r, account, symbol) <==> Requested(groups, account, symbol))
              && (Requested(r, account, symbol) ==> r[account].symbols[symbol] == groups[account].symbols[symbol])
  {
    NormalizeOnce(c.target);
    hide Normalize, Eligible, Trim;
  }

  /** The spelling under which a symbol's snapshot is written is that of the last configuration that wants it. */
  lemma {:induction false} SpellingIsTheLast(configs: seq<SyncConfig>, account: nat, symbol: string)
    ensures var last := LastWanting(configs, account, symbol);
            if last.None? then !Requested(Grouped(configs), account, symbol)
            else last.value < |configs| && Requested(Grouped(configs), account, symbol)
                 && Grouped(configs)[account].symbols[symbol] == Trim(configs[last.value].target)
    decreases |configs|
  {
    hide Wants, Joined, Trim;
    if configs != [] {
      var n := |configs| - 1;
      SpellingIsTheLast(configs[..n], account, symbol);
      JoinedSpelling(Grouped(configs[..n]), configs[n], account, symbol);
    }
  }

  /** Configuration `k` wants the same symbol of the same account as configuration `i`. */
  predicate SameWish(configs: seq<SyncConfig>, i: nat, k: int)
    requires i < |configs|
  {
    0 <= k < |configs| && Wants(configs[k], configs[i].account.id, Normalize(configs[i].target))
  }

  predicate SameSpelling(configs: seq<SyncConfig>, i: nat, k: int)
    requires i < |configs| && 0 <= k < |configs|
  {
    Trim(configs[k].target) == Trim(configs[i].target)
  }

  /** A later configuration than `j` wants the symbol under the spelling of configuration `i`. */
  ghost predicate SpelledAgain(configs: seq<SyncConfig>, i: nat, j: nat)
    requires i < |configs|
  {
    exists k :: j < k < |configs| && SameWish(configs, i, k) && SameSpelling(configs, i, k)
  }

  /** For every list of configurations: the snapshot an eligible configuration reads, under its own spelling, is written by
      the sync if and only if every later configuration that wants the same symbol of the account under another spelling
      is followed by one that spells it this way again. */
  lemma SpellingWrittenExactly(configs: seq<SyncConfig>, i: nat)
    requires i < |configs| && Eligible(configs[i])
    ensures var account, symbol := configs[i].account.id, Normalize(configs[i].target);
            && Requested(Grouped(configs), account, symbol)
            && (Trim(configs[i].target) in Grouped(configs)[account].symbols.Values <==>
                  forall j :: i < j < |configs| && SameWish(configs, i, j) && !SameSpelling(configs, i, j) ==>
                    SpelledAgain(configs, i, j))
  {
    var account, symbol := configs[i].account.id, Normalize(configs[i].target);
    assert SameWish(configs, i, i);
    NormalizeOnce(configs[i].target);
    LastWantingIsLast(configs, account, symbol);
    SpellingIsTheLast(configs, account, symbol);
    SpellingIsUnderItsSymbol(configs, account, symbol, Trim(configs[i].target));
    var last := LastWanting(configs, account, symbol).value;
    assert forall k :: last < k < |configs| ==> !SameWish(configs, i, k);
    assert SameSpelling(configs, i, last) <==> Trim(configs[last].target) == Trim(configs[i].target);
    hide Normalize, Eligible, Wants, Trim, Grouped, LastWanting;
    LastDecides(configs, i, last);
  }

  /** The last of them decides. */
  lemma LastDecides(configs: seq<SyncConfig>, i: nat, last: nat)
    requires i < |configs| && last < |configs| && SameWish(configs, i, i) && SameWish(configs, i, last)
    requires forall k :: last < k < |configs| ==> !SameWish(configs, i, k)
    ensures SameSpelling(configs, i, last) <==>
            forall j :: i < j < |configs| && SameWish(configs, i, j) && !SameSpelling(configs, i, j) ==>
              SpelledAgain(configs, i, j)
  {
    hide Trim, Wants, Eligible, Normalize;
    assert SameSpelling(configs, i, i);
    hide SameWish, SameSpelling;
    assert i <= last;
    if SameSpelling(configs, i, last) {
      forall j | i < j < |configs| && SameWish(configs, i, j) && !SameSpelling(configs, i, j)
        ensures SpelledAgain(configs, i, j)
      {
        assert j < last;
      }
    } else {
      assert i < last && !SpelledAgain(configs, i, last);
    }
  }

  /** A spelling can only be written under the symbol it normalises to. */
  lemma SpellingIsUnderItsSymbol(configs: seq<SyncConfig>, account: nat, symbol: string, spelling: string)
    requires Requested(Grouped(configs), account, symbol) && Normalize(spelling) == symbol
    ensures spelling in Grouped(configs)[account].symbols.Values <==> Grouped(configs)[account].symbols[symbol] == spelling
  {
    hide Normalize, Grouped, Eligible;
    var symbols := Grouped(configs)[account].symbols;
    if spelling in symbols.Values {
      var other :| other in symbols && symbols[other] == spelling;
      GroupsAreExact(configs, account, other);
      assert Requested(Grouped(configs), account, other);
    }
  }

  /** Two configurations whose targets differ only in case share one snapshot, under the later spelling: the sync never
      writes the snapshot the earlier one reads. */
  lemma CaseTwinsShareASnapshot(a: SyncConfig, b: SyncConfig)
    requires Eligible(a) && Eligible(b) && a.account == b.account
    requires Normalize(a.target) == Normalize(b.target) && Trim(a.target) != Trim(b.target)
    ensures a.account.id in Grouped([a, b])
    ensures var symbols := Grouped([a, b])[a.account.id].symbols;
            symbols == map[Normalize(b.target) := Trim(b.target)] && Trim(a.target) !in symbols.Values
  {
    NormalizeOnce(a.target);
    NormalizeOnce(b.target);
    hide Normalize, Eligible;
    assert [a, b][..1] == [a] && [a][..0] == [];
    assert Grouped([a]) == Joined(map[], a);
  }

  method GroupPositionSyncAccounts(configs: seq<SyncConfig>) returns (groups: map<nat, Group>)
    ensures groups == Grouped(configs)
  {
    groups := map[];
    for i := 0 to |configs|
      invariant groups == Grouped(configs[..i])
    {
      var c := configs[i];
      assert configs[..i + 1][..i] == configs[..i];
      if c.account.id == 0 || c.account.agent != c.agent {
        continue;
      }
      var target := Trim(c.target);
      var normalized := Normalize(target);
      if normalized == "" {
        continue;
      }
      var group := if c.account.id in groups then groups[c.account.id] else Group(c.account, map[]);
      groups := groups[c.account.id := Group(c.account, group.symbols[normalized := target])];
    }
    assert configs[..|configs|] == configs;
  }

  // ---- Folding positions ----------------------------------------------------------------------------------------

  datatype Aggregate = Aggregate(
    symbol: string, quantity: real, notional: real, entry: real, mark: real, observedAt: int)

  function Folded(a: Aggregate, p: RawPosition): Aggregate {
    Aggregate(a.symbol, a.quantity + SignedQuantity(p), a.notional + SignedNotional(p),
              if p.entry > 0.0 then p.entry else a.entry, if p.mark > 0.0 then p.mark else a.mark,
              if p.updatedAt > a.observedAt then p.updatedAt else a.observedAt)
  }

  /** What one symbol's snapshot becomes: the positions on that symbol folded in the order they were reported. */
  function AggregateOf(normalized: string, symbol: string, positions: seq<RawPosition>, now: int): Aggregate {
    if positions == [] then Aggregate(symbol, 0.0, 0.0, 0.0, 0.0, now)
    else
      var before := AggregateOf(normalized, symbol, positions[..|positions| - 1], now);
      var p := positions[|positions| - 1];
      if Normalize(p.symbol) == normalized then Folded(before, p) else before
  }

  function SnapshotOf(a: Aggregate): Snapshot {
    Snapshot(Net, a.quantity, a.notional, a.entry, a.mark, a.observedAt)
  }

  function Amount(p: RawPosition, normalized: string, quantity: bool): real {
    if Normalize(p.symbol) != normalized then 0.0 else if quantity then SignedQuantity(p) else SignedNotional(p)
  }

  /** The signed sum over the positions on a symbol. */
  function SignedSum(positions: seq<RawPosition>, normalized: string, quantity: bool): real {
    if positions == [] then 0.0
    else SignedSum(positions[..|positions| - 1], normalized, quantity)
         + Amount(positions[|positions| - 1], normalized, quantity)
  }

  lemma {:induction false} AggregateIsSignedSum(
    normalized: string, symbol: string, positions: seq<RawPosition>, now: int)
    ensures var a := AggregateOf(normalized, symbol, positions, now);
            && a.symbol == symbol && a.quantity == SignedSum(positions, normalized, true)
            && a.notional == SignedSum(positions, normalized, false) && a.observedAt >= now
    decreases |positions|
  {
    hide Normalize;
    if positions != [] {
      AggregateIsSignedSum(normalized, symbol, positions[..|positions| - 1], now);
    }
  }

  /** Any position may be taken out of the sum. */
  lemma {:induction false} SumWithout(positions: seq<RawPosition>, i: nat, normalized: string, quantity: bool)
    requires i < |positions|
    ensures SignedSum(positions, normalized, quantity) ==
            SignedSum(positions[..i] + positions[i + 1..], normalized, quantity)
            + Amount(positions[i], normalized, quantity)
    decreases |positions|
  {
    hide Amount;
    var n := |positions| - 1;
    var rest := positions[..i] + positions[i + 1..];
    if i == n {
      assert rest == positions[..n];
    } else {
      SumWithout(positions[..n], i, normalized, quantity);
      assert rest[..n - 1] == positions[..n][..i] + positions[..n][i + 1..];
      assert rest[n - 1] == positions[n];
    }
  }

  /** Quantity and notional of the snapshot do not depend on the order in which the exchange lists the positions. */
  lemma {:induction false} SumIsOrderFree(a: seq<RawPosition>, b: seq<RawPosition>, normalized: string, quantity: bool)
    requires multiset(a) == multiset(b)
    ensures SignedSum(a, normalized, quantity) == SignedSum(b, normalized, quantity)
    decreases |a|
  {
    hide Amount;
    if a == [] {
      assert |multiset(b)| == 0;
    } else {
      var n := |a| - 1;
      assert a[n] in multiset(b);
      var i :| 0 <= i < |b| && b[i] == a[n];
      Removal(a, n);
      Removal(b, i);
      SumIsOrderFree(a[..n] + a[n + 1..], b[..i] + b[i + 1..], normalized, quantity);
      SumWithout(a, n, normalized, quantity);
      SumWithout(b, i, normalized, quantity);
    }
  }

  lemma Removal(s: seq<RawPosition>, i: nat)
    requires i < |s|
    ensures multiset(s[..i] + s[i + 1..]) == multiset(s) - multiset{s[i]}
  {
    assert s == s[..i] + [s[i]] + s[i + 1..];
  }

  /** A position on the symbol with a positive price. */
  predicate Priced(p: RawPosition, normalized: string, mark: bool) {
    Normalize(p.symbol) == normalized && (if mark then p.mark > 0.0 else p.entry > 0.0)
  }

  /** The last positive mark, or entry price, that the list shows for the symbol; zero when it shows none. */
  function LastPrice(positions: seq<RawPosition>, normalized: string, mark: bool): real {
    if positions == [] then 0.0
    else
      var p := positions[|positions| - 1];
      if Priced(p, normalized, mark) then (if mark then p.mark else p.entry)
      else LastPrice(positions[..|positions| - 1], normalized, mark)
  }

  /** It is that of position `i`, after which none on the symbol has one. */
  lemma {:induction false} NoneIsPricedLater(positions: seq<RawPosition>, normalized: string, mark: bool) returns (i: int)
    ensures var price := LastPrice(positions, normalized, mark);
            if i < 0 then price == 0.0
            else i < |positions| && Normalize(positions[i].symbol) == normalized && price > 0.0
                 && price == if mark then positions[i].mark else positions[i].entry
    ensures forall j :: 0 <= j < |positions| && i < j && Normalize(positions[j].symbol) == normalized ==>
              if mark then positions[j].mark <= 0.0 else positions[j].entry <= 0.0
    decreases |positions|
  {
    hide Normalize;
    i := |positions| - 1;
    if positions != [] && !Priced(positions[i], normalized, mark) {
      i := NoneIsPricedLater(positions[..i], normalized, mark);
    }
  }

  /** Mark and entry price of the snapshot are the last positive ones listed for the symbol, its stamp is the latest of the
      positions' and the present. */
  lemma {:induction false} AggregateKeepsLast(
    normalized: string, symbol: string, positions: seq<RawPosition>, now: int)
    ensures var a := AggregateOf(normalized, symbol, positions, now);
            && a.mark == LastPrice(positions, normalized, true) && a.entry == LastPrice(positions, normalized, false)
            && a.observedAt >= now
            && (forall p :: p in positions && Normalize(p.symbol) == normalized ==> p.updatedAt <= a.observedAt)
            && (a.observedAt == now
                || exists p :: p in positions && Normalize(p.symbol) == normalized && p.updatedAt == a.observedAt)
    decreases |positions|
  {
    hide Normalize, SignedQuantity, SignedNotional;
    if positions != [] {
      var earlier, p := positions[..|positions| - 1], positions[|positions| - 1];
      AggregateKeepsLast(normalized, symbol, earlier, now);
      assert positions == earlier + [p];
      var before := AggregateOf(normalized, symbol, earlier, now);
      if before.observedAt != now {
        var q :| q in earlier && Normalize(q.symbol) == normalized && q.updatedAt == before.observedAt;
        assert q in positions;
      }
    }
  }

  /** The snapshot a position sync stores for a symbol: on the NET side, with the signed sums of quantity and notional, the last
      positive prices and the latest stamp. */
  lemma StoredSnapshotExactly(normalized: string, symbol: string, positions: seq<RawPosition>, now: int)
    ensures var s := SnapshotOf(AggregateOf(normalized, symbol, positions, now));
            && s.side == Net && s.quantity == SignedSum(positions, normalized, true)
            && s.notional == SignedSum(positions, normalized, false)
            && s.mark == LastPrice(positions, normalized, true) && s.entry == LastPrice(positions, normalized, false)
            && s.observedAt >= now
            && (forall p :: p in positions && Normalize(p.symbol) == normalized ==> p.updatedAt <= s.observedAt)
            && (s.observedAt == now
                || exists p :: p in positions && Normalize(p.symbol) == normalized && p.updatedAt == s.observedAt)
  {
    hide Normalize, AggregateOf, SignedSum, LastPrice;
    AggregateIsSignedSum(normalized, symbol, positions, now);
    AggregateKeepsLast(normalized, symbol, positions, now);
  }

  predicate AtMark(p: RawPosition, normalized: string, mark: real) {
    Normalize(p.symbol) == normalized ==>
      p.mark == mark && (p.notional == 0.0 || Abs(p.notional) == Abs(p.quantity) * mark)
  }

  /** When all positions on a symbol share one positive mark and value themselves at it, or leave their notional unset,
      the net snapshot is valued at that mark too - so its quantity and notional have the same sign. */
  lemma {:induction false} CommonMarkIsKept(
    positions: seq<RawPosition>, normalized: string, symbol: string, now: int, mark: real)
    requires mark > 0.0 && forall i :: 0 <= i < |positions| ==> AtMark(positions[i], normalized, mark)
    ensures var a := AggregateOf(normalized, symbol, positions, now);
            && a.notional == a.quantity * mark && (a.mark == mark || (a.mark == 0.0 && a.quantity == 0.0))
            && Sign(a.quantity) == Sign(a.notional)
    decreases |positions|
  {
    hide Normalize, SignedQuantity, SignedNotional;
    var a := AggregateOf(normalized, symbol, positions, now);
    if positions != [] {
      var p := positions[|positions| - 1];
      var earlier := positions[..|positions| - 1];
      assert forall i :: 0 <= i < |earlier| ==> earlier[i] == positions[i];
      CommonMarkIsKept(earlier, normalized, symbol, now, mark);
      if Normalize(p.symbol) == normalized {
        assert AtMark(positions[|positions| - 1], normalized, mark);
        LegAtMark(p, mark);
        var before := AggregateOf(normalized, symbol, earlier, now);
        Distributes(before.quantity, SignedQuantity(p), mark);
      }
    }
    MarkKeepsSign(a.quantity, mark);
  }

  lemma Distributes(x: real, y: real, mark: real)
    ensures (x + y) * mark == x * mark + y * mark
  {
  }

  lemma LegAtMark(p: RawPosition, mark: real)
    requires p.mark == mark > 0.0 && (p.notional == 0.0 || Abs(p.notional) == Abs(p.quantity) * mark)
    ensures SignedNotional(p) == SignedQuantity(p) * mark
  {
    var q := SignedQuantity(p);
    assert Abs(q) == Abs(p.quantity);
    if q < 0.0 {
      assert Abs(q) * mark == -(q * mark);
      MarkKeepsSign(q, mark);
    } else if q > 0.0 {
      assert Abs(q) * mark == q * mark;
      MarkKeepsSign(q, mark);
    }
  }

  /** The monitor reads the snapshot of a list of positions as the notional that is stored if and only if the two signed
      sums of the list do not have opposite signs. */
  lemma ReadAsStoredExactly(normalized: string, symbol: string, positions: seq<RawPosition>, now: int)
    ensures var s := SnapshotOf(AggregateOf(normalized, symbol, positions, now));
            var quantity, notional := SignedSum(positions, normalized, true), SignedSum(positions, normalized, false);
            ReadNotional(s) == s.notional <==> Sign(quantity) * Sign(notional) != -1
  {
    AggregateIsSignedSum(normalized, symbol, positions, now);
    hide AggregateOf, SignedSum;
    ReadsExactly(SnapshotOf(AggregateOf(normalized, symbol, positions, now)));
  }

  /** A hedge-mode account with a long and a short leg at different marks is stored with a quantity and a notional of
      opposite signs, which the monitor and the calculator read as different positions. */
  lemma MixedLegsAreStoredMixed(now: int)
    ensures var legs := [RawPosition("BTC", Long, 1.0, 100.0, 0.0, 100.0, 0),
                         RawPosition("BTC", Short, 2.0, 80.0, 0.0, 40.0, 0)];
            var s := SnapshotOf(AggregateOf("BTC", "BTC", legs, now));
            && s.quantity == -1.0 && s.notional == 20.0 && s.side == Net
            && ReadNotional(s) == -20.0 != ToPosition("BTC", Some(s)).notional
  {
    var long := RawPosition("BTC", Long, 1.0, 100.0, 0.0, 100.0, 0);
    var short := RawPosition("BTC", Short, 2.0, 80.0, 0.0, 40.0, 0);
    assert Normalize("BTC") == "BTC" by {
      assert Trim("BTC") == "BTC" && Upper("BTC") == "BTC";
    }
    assert [long, short][..1] == [long] && [long][..0] == [];
    assert AggregateOf("BTC", "BTC", [long], now) == Folded(Aggregate("BTC", 0.0, 0.0, 0.0, 0.0, now), long);
  }

  // ---- Syncing one account --------------------------------------------------------------------------------------

  /** The stored snapshots of one account, by symbol as written. */
  class PositionStore {
    var snapshots: map<string, Snapshot>

    constructor ()
      ensures snapshots == map[]
    {
      snapshots := map[];
    }

    /** Every configured symbol gets exactly one net snapshot, zero where the exchange reports nothing; no other
        snapshot is touched. The first and the last loop visit their map in an arbitrary order. */
    method SyncAccount(group: Group, positions: seq<RawPosition>, now: int)
      requires forall n :: n in group.symbols ==> Normalize(group.symbols[n]) == n
      modifies this
      ensures snapshots.Keys == old(snapshots.Keys) + group.symbols.Values
      ensures forall n :: n in group.symbols ==>
                snapshots[group.symbols[n]] == SnapshotOf(AggregateOf(n, group.symbols[n], positions, now))
      ensures forall s :: s in old(snapshots) && s !in group.symbols.Values ==> snapshots[s] == old(snapshots)[s]
    {
      hide Normalize;
      var aggregates := ZeroAggregates(group, now);
      aggregates := FoldPositions(group, aggregates, positions, now);
      forall n | n in group.symbols
        ensures aggregates[n].symbol == group.symbols[n]
      {
        AggregateIsSignedSum(n, group.symbols[n], positions, now);
      }
      Upsert(aggregates);
      assert WrittenSymbols(aggregates) == group.symbols.Values;
    }

    static method ZeroAggregates(group: Group, now: int) returns (aggregates: map<string, Aggregate>)
      ensures aggregates.Keys == group.symbols.Keys
      ensures forall n :: n in aggregates ==> aggregates[n] == AggregateOf(n, group.symbols[n], [], now)
    {
      aggregates := map[];
      var rest := group.symbols.Keys;
      while rest != {}
        invariant rest <= group.symbols.Keys && aggregates.Keys == group.symbols.Keys - rest
        invariant forall n :: n in aggregates ==> aggregates[n] == AggregateOf(n, group.symbols[n], [], now)
        decreases |rest|
      {
        var n :| n in rest;
        aggregates := aggregates[n := Aggregate(group.symbols[n], 0.0, 0.0, 0.0, 0.0, now)];
        rest := rest - {n};
      }
    }

    static method FoldPositions(group: Group, zero: map<string, Aggregate>, positions: seq<RawPosition>, now: int)
      returns (aggregates: map<string, Aggregate>)
      requires zero.Keys == group.symbols.Keys
      requires forall n :: n in zero ==> zero[n] == AggregateOf(n, group.symbols[n], [], now)
      ensures aggregates.Keys == group.symbols.Keys
      ensures forall n :: n in aggregates ==> aggregates[n] == AggregateOf(n, group.symbols[n], positions, now)
    {
      hide Normalize, Folded;
      aggregates := zero;
      for i := 0 to |positions|
        invariant aggregates.Keys == group.symbols.Keys
        invariant forall n :: n in aggregates ==>
                    aggregates[n] == AggregateOf(n, group.symbols[n], positions[..i], now)
      {
        var n := Normalize(positions[i].symbol);
        assert positions[..i + 1][..i] == positions[..i];
        if n in aggregates {
          aggregates := aggregates[n := Folded(aggregates[n], positions[i])];
        }
      }
      assert positions[..|positions|] == positions;
    }

    method Upsert(aggregates: map<string, Aggregate>)
      requires forall n :: n in aggregates ==> Normalize(aggregates[n].symbol) == n
      modifies this
      ensures snapshots.Keys == old(snapshots.Keys) + WrittenSymbols(aggregates)
      ensures forall n :: n in aggregates ==> snapshots[aggregates[n].symbol] == SnapshotOf(aggregates[n])
      ensures forall s :: s in old(snapshots) && s !in WrittenSymbols(aggregates) ==> snapshots[s] == old(snapshots)[s]
    {
      hide Normalize;
      var rest := aggregates.Keys;
      while rest != {}
        invariant rest <= aggregates.Keys
        invariant old(snapshots.Keys) <= snapshots.Keys <= old(snapshots.Keys) + WrittenSymbols(aggregates)
        invariant forall n :: n in aggregates.Keys - rest ==>
                    aggregates[n].symbol in snapshots && snapshots[aggregates[n].symbol] == SnapshotOf(aggregates[n])
        invariant forall s :: s in old(snapshots) && s !in WrittenSymbols(aggregates) ==> snapshots[s] == old(snapshots)[s]
        decreases |rest|
      {
        var n :| n in rest;
        snapshots := snapshots[aggregates[n].symbol := SnapshotOf(aggregates[n])];
        rest := rest - {n};
      }
    }
  }

  function WrittenSymbols(aggregates: map<string, Aggregate>): set<string> {
    set n | n in aggregates :: aggregates[n].symbol
  }
}
