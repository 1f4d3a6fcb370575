/** The stored markets: upserting and pruning them, and what a whole account sync leaves behind. */
module MarketTable {
  import opened Money
  import opened Symbols
  import opened MarketRows
  import opened MarketSync

  type Table = map<Identity, Market>

  function UpsertedAll(t: Table, ms: seq<Market>): Table {
    if ms == [] then t else UpsertedAll(t, ms[..|ms| - 1])[IdentityOf(ms[|ms| - 1]) := ms[|ms| - 1]]
  }

  /** Rows are prepared again before they are written; the unique index decides between insert and update. */
  function Upserted(t: Table, ms: seq<Market>): Option<Table> {
    if ms == [] then Some(t)
    else
      var prepared := PrepareAll(ms);
      if prepared.None? then None else Some(UpsertedAll(t, prepared.value))
  }

  datatype PruneFilter = PruneFilter(
    exchange: string, ccxtId: string, env: string, marketType: string, settle: string, allowed: set<string>,
    useAllowlist: bool)

  function NormalSet(symbols: set<string>): set<string> {
    set s | s in symbols && NormalSymbol(s) != "" :: NormalSymbol(s)
  }

  /** The filter with its columns cleaned. */
  function CleanFilter(f: PruneFilter): PruneFilter {
    f.(exchange := Trim(f.exchange), ccxtId := Lower(Trim(f.ccxtId)), env := NormalEnv(f.env),
       marketType := Lower(Trim(f.marketType)), settle := Upper(Trim(f.settle)), allowed := NormalSet(f.allowed))
  }

  /** A filter without a complete scope, or without a criterion, prunes nothing. */
  predicate Prunes(f: PruneFilter) {
    && f.exchange != "" && f.ccxtId != "" && f.env != "" && f.settle != ""
    && (f.marketType != "" || f.useAllowlist)
  }

  predicate InScope(m: Market, f: PruneFilter) {
    m.exchange == f.exchange && m.ccxtId == f.ccxtId && m.env == f.env && m.settle == f.settle
  }

  /** The delete condition inside the scope. */
  predicate Unwanted(m: Market, f: PruneFilter) {
    if f.marketType != "" && f.useAllowlist && f.allowed != {} then
      m.marketType != f.marketType || m.normalized !in f.allowed
    else if f.marketType != "" && f.useAllowlist then true
    else if f.marketType != "" then m.marketType != f.marketType
    else if f.useAllowlist && f.allowed != {} then m.normalized !in f.allowed
    else true
  }

  function Pruned(t: Table, filter: PruneFilter): Table {
    var f := CleanFilter(filter);
    if !Prunes(f) then t else map k | k in t && !(InScope(t[k], f) && Unwanted(t[k], f)) :: t[k]
  }

  function FilterOf(a: Account, env: string, allow: Option<set<string>>): PruneFilter {
    PruneFilter(a.exchange, a.ccxtId, env, a.marketType, a.settle, if allow.None? then {} else NormalSet(allow.value),
                allow.Some?)
  }

  /** One account sync; an invalid market changes nothing. */
  function Synced(t: Table, a: Account, env: string, listed: seq<Listed>, allow: Option<set<string>>): Option<Table> {
    var written := Written(a, env, listed, allow);
    if written.None? then None
    else
      var upserted := Upserted(t, written.value);
      if upserted.None? then None else Some(Pruned(upserted.value, FilterOf(a, env, allow)))
  }

  predicate CompleteScope(a: Account, env: string) {
    Trim(a.exchange) != "" && Trim(a.ccxtId) != "" && Trim(a.settle) != "" && (env == "paper" || env == "live")
  }

  // ---- Rows that are written again ------------------------------------------------------------------------------

  lemma {:induction false} CleanRowsAreFixed(ms: seq<Market>)
    requires AllClean(ms)
    ensures PrepareEach(ms) == Some(ms)
    decreases |ms|
  {
    hide Clean, Prepare;
    if ms != [] {
      CleanRowsAreFixed(ms[..|ms| - 1]);
      CleanIsFixed(ms[|ms| - 1]);
      assert ms == ms[..|ms| - 1] + [ms[|ms| - 1]];
    }
  }

  lemma {:induction false} UniqueRowsAreFixed(ms: seq<Market>)
    requires Unique(ms)
    ensures Dedupe(ms) == ms
    decreases |ms|
  {
    hide IdentityOf;
    if ms != [] {
      var n := |ms| - 1;
      UniqueRowsAreFixed(ms[..n]);
      assert IndexOf(ms[..n], IdentityOf(ms[n])).None?;
      assert ms == ms[..n] + [ms[n]];
    }
  }

  /** Preparing the written rows a second time changes nothing, so each of them is stored as it is. */
  lemma WrittenIsStored(t: Table, a: Account, env: string, listed: seq<Listed>, allow: Option<set<string>>)
    requires Written(a, env, listed, allow).Some?
    ensures Upserted(t, Written(a, env, listed, allow).value) == Some(UpsertedAll(t, Written(a, env, listed, allow).value))
  {
    WrittenIsClean(a, env, listed, allow);
    var ms := Written(a, env, listed, allow).value;
    hide Written, AllClean, Unique, PrepareEach, Dedupe;
    CleanRowsAreFixed(ms);
    UniqueRowsAreFixed(ms);
    if ms == [] {
      assert UpsertedAll(t, ms) == t;
    }
  }

  lemma {:induction false} UpsertStores(t: Table, ms: seq<Market>)
    requires Unique(ms)
    ensures forall i :: 0 <= i < |ms| ==> IdentityOf(ms[i]) in UpsertedAll(t, ms)
    ensures forall i :: 0 <= i < |ms| ==> UpsertedAll(t, ms)[IdentityOf(ms[i])] == ms[i]
    decreases |ms|
  {
    hide IdentityOf;
    if ms != [] {
      var n := |ms| - 1;
      UpsertStores(t, ms[..n]);
      forall i | 0 <= i < n
        ensures IdentityOf(ms[i]) in UpsertedAll(t, ms) && UpsertedAll(t, ms)[IdentityOf(ms[i])] == ms[i]
      {
        assert ms[..n][i] == ms[i] && IdentityOf(ms[i]) != IdentityOf(ms[n]);
      }
    }
  }

  lemma {:induction false} UpsertOfStored(t: Table, ms: seq<Market>)
    requires forall i :: 0 <= i < |ms| ==> IdentityOf(ms[i]) in t && t[IdentityOf(ms[i])] == ms[i]
    ensures UpsertedAll(t, ms) == t
    decreases |ms|
  {
    hide IdentityOf;
    if ms != [] {
      UpsertOfStored(t, ms[..|ms| - 1]);
    }
  }

  // ---- What a sync leaves behind --------------------------------------------------------------------------------

  lemma SetOfNormals(symbols: set<string>)
    ensures NormalSet(NormalSet(symbols)) == NormalSet(symbols)
  {
    forall s | s in symbols
      ensures NormalSymbol(NormalSymbol(s)) == NormalSymbol(s)
    {
      NormalSymbolTwice(s);
    }
    hide NormalSymbol;
    forall s | s in NormalSet(symbols)
      ensures s in NormalSet(NormalSet(symbols))
    {
      assert NormalSymbol(s) == s;
    }
  }

  /** A clean row of the account's type whose symbol is allowed is never unwanted. */
  lemma WantedRow(m: Market, a: Account, env: string, allow: Option<set<string>>)
    requires Clean(m) && TypeFits(m, a.marketType) && SymbolFits(m, allow)
    ensures var f := CleanFilter(FilterOf(a, env, allow)); Prunes(f) ==> !Unwanted(m, f)
  {
    var f := CleanFilter(FilterOf(a, env, allow));
    if f.marketType != "" {
      TypeIsEqual(m, a.marketType);
    }
    if allow.Some? {
      SetOfNormals(allow.value);
      assert AllowedAs(m) == m.normalized;
      assert NormalSymbol(m.normalized) == m.normalized != "";
      hide NormalSymbol, Clean, TypeFits;
      assert m.normalized in f.allowed;
    }
  }

  lemma TypeIsEqual(m: Market, marketType: string)
    requires Clean(m) && TypeFits(m, marketType) && Lower(Trim(marketType)) != ""
    ensures m.marketType == Lower(Trim(marketType))
  {
    var x := Lower(Trim(marketType));
    LowerLaws(Trim(m.marketType));
    LowerLaws(Trim(marketType));
    LowerLaws(x);
    hide Lower, Upper, Trim;
    assert Lower(Upper(Trim(m.marketType))) == Lower(Upper(x));
  }

  /** After a successful sync every stored row in the account's scope has its market type and an allowed symbol,
      whatever was stored before. */
  lemma ScopeIsClean(t: Table, a: Account, env: string, listed: seq<Listed>, allow: Option<set<string>>, k: Identity)
    requires Synced(t, a, env, listed, allow).Some? && CompleteScope(a, env)
    requires k in Synced(t, a, env, listed, allow).value
    requires var m := Synced(t, a, env, listed, allow).value[k];
             && m.exchange == Trim(a.exchange) && m.ccxtId == Lower(Trim(a.ccxtId)) && m.env == env
             && m.settle == Upper(Trim(a.settle))
    ensures var m := Synced(t, a, env, listed, allow).value[k];
            && (Lower(Trim(a.marketType)) != "" ==> m.marketType == Lower(Trim(a.marketType)))
            && (allow.Some? ==> exists s :: s in allow.value && NormalSymbol(s) == m.normalized)
  {
    var u := Upserted(t, Written(a, env, listed, allow).value).value;
    var f := CleanFilter(FilterOf(a, env, allow));
    ScopeFields(a, env);
    if allow.Some? {
      SetOfNormals(allow.value);
    }
    hide Written, Upserted, NormalSymbol, Lower, Upper, Trim, NormalEnv;
    if Prunes(f) {
      var m := Pruned(u, FilterOf(a, env, allow))[k];
      assert InScope(m, f) && !Unwanted(m, f);
    }
  }

  lemma ScopeFields(a: Account, env: string)
    requires CompleteScope(a, env)
    ensures NormalEnv(env) == env && Lower(Trim(a.ccxtId)) != "" && Upper(Trim(a.settle)) != ""
  {
    WordsAreClean();
  }

  /** No row written by a sync is removed by its own prune: each is stored afterwards, exactly as written. */
  lemma OwnRowsStay(t: Table, a: Account, env: string, listed: seq<Listed>, allow: Option<set<string>>, i: nat)
    requires Written(a, env, listed, allow).Some? && i < |Written(a, env, listed, allow).value|
    ensures Synced(t, a, env, listed, allow).Some?
    ensures var m := Written(a, env, listed, allow).value[i];
            var u := Synced(t, a, env, listed, allow).value;
            IdentityOf(m) in u && u[IdentityOf(m)] == m
  {
    hide Written, Upserted, UpsertedAll, Clean, Unique, AllClean, IdentityOf, TypeFits, SymbolFits, Pruned, FilterOf,
      CleanFilter, Prunes, Unwanted;
    var ms := Written(a, env, listed, allow).value;
    WrittenIsStored(t, a, env, listed, allow);
    WrittenRow(a, env, listed, allow, i);
    UpsertStores(t, ms);
    WantedRow(ms[i], a, env, allow);
    PruneSpares(UpsertedAll(t, ms), FilterOf(a, env, allow), IdentityOf(ms[i]));
  }

  lemma WrittenRow(a: Account, env: string, listed: seq<Listed>, allow: Option<set<string>>, i: nat)
    requires Written(a, env, listed, allow).Some? && i < |Written(a, env, listed, allow).value|
    ensures var ms := Written(a, env, listed, allow).value;
            Unique(ms) && Clean(ms[i]) && TypeFits(ms[i], a.marketType) && SymbolFits(ms[i], allow)
  {
    hide Written, Clean, Unique, TypeFits, SymbolFits;
    WrittenIsClean(a, env, listed, allow);
    assert Written(a, env, listed, allow).value[i] in Written(a, env, listed, allow).value;
  }

  lemma PruneSpares(t: Table, filter: PruneFilter, k: Identity)
    requires k in t && (Prunes(CleanFilter(filter)) ==> !Unwanted(t[k], CleanFilter(filter)))
    ensures k in Pruned(t, filter) && Pruned(t, filter)[k] == t[k]
  {
    hide CleanFilter, Unwanted, Prunes;
  }

  /** A second sync of the same data changes nothing. */
  lemma SyncTwice(t: Table, a: Account, env: string, listed: seq<Listed>, allow: Option<set<string>>)
    requires Synced(t, a, env, listed, allow).Some?
    ensures Synced(Synced(t, a, env, listed, allow).value, a, env, listed, allow) == Synced(t, a, env, listed, allow)
  {
    var u := Synced(t, a, env, listed, allow).value;
    var ms := Written(a, env, listed, allow).value;
    forall i | 0 <= i < |ms|
      ensures IdentityOf(ms[i]) in u && u[IdentityOf(ms[i])] == ms[i]
    {
      OwnRowsStay(t, a, env, listed, allow, i);
    }
    UpsertOfStored(u, ms);
    WrittenIsStored(u, a, env, listed, allow);
    PrunedTwice(Upserted(t, ms).value, FilterOf(a, env, allow));
    hide Written, Upserted, UpsertedAll, Pruned, IdentityOf;
  }

  lemma PrunedTwice(t: Table, f: PruneFilter)
    ensures Pruned(Pruned(t, f), f) == Pruned(t, f)
  {
    hide CleanFilter, InScope, Unwanted, Prunes;
  }

  /** Exactly which rows a prune leaves: with an incomplete scope or without a criterion all of them, otherwise those of any
      other exchange, adapter, environment or settlement currency, and inside the scope those of the filter's market type,
      if it names one, with an allowed symbol, if there is an allowlist; an empty allowlist allows none. */
  lemma PruneKeepsExactly(t: Table, filter: PruneFilter, k: Identity)
    requires k in t
    ensures var m := t[k];
            var marketType, allowed := Lower(Trim(filter.marketType)), NormalSet(filter.allowed);
            k in Pruned(t, filter) <==>
              || Trim(filter.exchange) == "" || Lower(Trim(filter.ccxtId)) == "" || NormalEnv(filter.env) == ""
              || Upper(Trim(filter.settle)) == "" || (marketType == "" && !filter.useAllowlist)
              || m.exchange != Trim(filter.exchange) || m.ccxtId != Lower(Trim(filter.ccxtId))
              || m.env != NormalEnv(filter.env) || m.settle != Upper(Trim(filter.settle))
              || ((marketType == "" || m.marketType == marketType)
                  && (filter.useAllowlist ==> m.normalized in allowed))
    ensures k in Pruned(t, filter) ==> Pruned(t, filter)[k] == t[k]
  {
    hide Trim, Lower, Upper, NormalEnv, NormalSet;
  }

  /** A sync touches no row of another exchange, adapter, environment or settlement currency, unless it writes one with the
      same identity. */
  lemma OthersStay(t: Table, a: Account, env: string, listed: seq<Listed>, allow: Option<set<string>>, k: Identity)
    requires Synced(t, a, env, listed, allow).Some? && k in t
    requires forall m :: m in Written(a, env, listed, allow).value ==> IdentityOf(m) != k
    requires t[k].exchange != Trim(a.exchange) || t[k].ccxtId != Lower(Trim(a.ccxtId)) || t[k].env != NormalEnv(env)
             || t[k].settle != Upper(Trim(a.settle))
    ensures var u := Synced(t, a, env, listed, allow).value; k in u && u[k] == t[k]
  {
    var ms := Written(a, env, listed, allow).value;
    WrittenIsStored(t, a, env, listed, allow);
    UpsertSpares(t, ms, k);
    hide Written, UpsertedAll, Upserted, IdentityOf, Trim, Lower, Upper, NormalEnv, NormalSet, Pruned;
    PruneKeepsExactly(UpsertedAll(t, ms), FilterOf(a, env, allow), k);
  }

  lemma {:induction false} EachPrepared(ms: seq<Market>)
    ensures PrepareEach(ms).None? <==> exists i :: 0 <= i < |ms| && Prepare(ms[i]).Rejected?
    ensures PrepareEach(ms).Some? ==>
              |PrepareEach(ms).value| == |ms|
              && forall i :: 0 <= i < |ms| ==> Prepare(ms[i]) == Prepared(PrepareEach(ms).value[i])
    decreases |ms|
  {
    hide Prepare;
    if ms != [] {
      EachPrepared(ms[..|ms| - 1]);
    }
  }

  lemma {:induction false} UpsertHolds(t: Table, ms: seq<Market>, k: Identity)
    ensures var u, last := UpsertedAll(t, ms), LastOf(ms, k);
            && (k in u <==> k in t || last.Some?)
            && (k in u ==> u[k] == if last.Some? then last.value else t[k])
    decreases |ms|
  {
    hide IdentityOf;
    if ms != [] {
      UpsertHolds(t, ms[..|ms| - 1], k);
    }
  }

  /** Exactly what an upsert stores: nothing if one of the rows cannot be prepared; otherwise every identity among the prepared
      rows has the last of them, and every other row stays. */
  lemma UpsertedExactly(t: Table, ms: seq<Market>, k: Identity)
    ensures var each, u := PrepareEach(ms), Upserted(t, ms);
            && (u.None? <==> exists i :: 0 <= i < |ms| && Prepare(ms[i]).Rejected?)
            && (u.Some? ==>
                  && each.Some? && |each.value| == |ms|
                  && (forall i :: 0 <= i < |ms| ==> Prepare(ms[i]) == Prepared(each.value[i]))
                  && var last := LastOf(each.value, k);
                     && (k in u.value <==> k in t || last.Some?)
                     && (k in u.value ==> u.value[k] == if last.Some? then last.value else t[k]))
  {
    EachPrepared(ms);
    var each := PrepareEach(ms);
    if each.Some? {
      var kept := Dedupe(each.value);
      DedupeIsExact(each.value);
      UpsertHolds(t, kept, k);
      var last := LastOf(each.value, k);
      if last.Some? {
        KeptExactly(each.value, kept, last.value);
      }
      if LastOf(kept, k).Some? {
        KeptExactly(each.value, kept, LastOf(kept, k).value);
      }
      hide Dedupe, PrepareEach, Prepare, UpsertedAll, LastInFirstOrder, IdentityOf;
    }
  }

  lemma {:induction false} UpsertSpares(t: Table, ms: seq<Market>, k: Identity)
    requires forall m :: m in ms ==> IdentityOf(m) != k
    ensures (k in UpsertedAll(t, ms) <==> k in t) && (k in t ==> UpsertedAll(t, ms)[k] == t[k])
    decreases |ms|
  {
    hide IdentityOf;
    if ms != [] {
      UpsertSpares(t, ms[..|ms| - 1], k);
    }
  }

  // ---- The repository and the service ---------------------------------------------------------------------------

  class MarketRepository {
    var rows: Table

    constructor ()
      ensures rows == map[]
    {
      rows := map[];
    }

    method UpsertExchangeMarkets(ms: seq<Market>) returns (ok: bool)
      modifies this
      ensures ok == Upserted(old(rows), ms).Some?
      ensures rows == if ok then Upserted(old(rows), ms).value else old(rows)
    {
      hide PrepareAll, IdentityOf;
      if ms == [] {
        return true;
      }
      var prepared := PrepareExchangeMarketsForSave(ms);
      if prepared.None? {
        return false;
      }
      for i := 0 to |prepared.value|
        invariant rows == UpsertedAll(old(rows), prepared.value[..i])
      {
        assert prepared.value[..i + 1][..i] == prepared.value[..i];
        rows := rows[IdentityOf(prepared.value[i]) := prepared.value[i]];
      }
      assert prepared.value[..|prepared.value|] == prepared.value;
      return true;
    }

    /** Visits the rows in an arbitrary order. */
    method PruneExchangeMarkets(filter: PruneFilter)
      modifies this
      ensures rows == Pruned(old(rows), filter)
    {
      hide InScope, Unwanted, CleanFilter;
      var f := CleanFilter(filter);
      if !Prunes(f) {
        return;
      }
      var rest := rows.Keys;
      while rest != {}
        invariant rest <= rows.Keys <= old(rows).Keys
        invariant forall k :: k in old(rows) ==>
                    (k in rows <==> k in rest || !(InScope(old(rows)[k], f) && Unwanted(old(rows)[k], f)))
        invariant forall k :: k in rows ==> rows[k] == old(rows)[k]
        decreases |rest|
      {
        var k :| k in rest;
        if InScope(rows[k], f) && Unwanted(rows[k], f) {
          rows := rows - {k};
        }
        rest := rest - {k};
      }
    }

    method SyncAccount(a: Account, env: string, listed: seq<Listed>, allow: Option<set<string>>) returns (count: Option<nat>)
      modifies this
      ensures count.Some? <==> Synced(old(rows), a, env, listed, allow).Some?
      ensures count.Some? ==> Some(rows) == Synced(old(rows), a, env, listed, allow)
                              && count.value == |Written(a, env, listed, allow).value|
      ensures count.None? ==> rows == old(rows)
    {
      hide Upserted, Pruned, PrepareAll;
      var models := ExchangeMarketModelsFromMarkets(listed, a, env);
      var prepared := PrepareExchangeMarketsForSave(models);
      if prepared.None? {
        return None;
      }
      var typed := FilterMarketsByAccountMarketType(prepared.value, a.marketType);
      var ms := FilterMarketsByAllowlist(typed, allow);
      var ok := UpsertExchangeMarkets(ms);
      if !ok {
        return None;
      }
      PruneExchangeMarkets(FilterOf(a, env, allow));
      return Some(|ms|);
    }
  }

  method ExchangeMarketModelsFromMarkets(listed: seq<Listed>, a: Account, env: string) returns (ms: seq<Market>)
    ensures ms == Models(listed, a, env)
  {
    hide ModelOf;
    ms := [];
    for i := 0 to |listed|
      invariant ms == Models(listed[..i], a, env)
    {
      assert listed[..i + 1][..i] == listed[..i];
      ms := ms + [ModelOf(listed[i], a, env)];
    }
    assert listed[..|listed|] == listed;
  }

  method PrepareExchangeMarketsForSave(ms: seq<Market>) returns (prepared: Option<seq<Market>>)
    ensures prepared == PrepareAll(ms)
  {
    hide Prepare;
    var each: seq<Market> := [];
    for i := 0 to |ms|
      invariant PrepareEach(ms[..i]) == Some(each)
    {
      assert ms[..i + 1][..i] == ms[..i];
      var p := Prepare(ms[i]);
      if p.Rejected? {
        FailedPrefix(ms, i + 1);
        return None;
      }
      each := each + [p.market];
    }
    assert ms[..|ms|] == ms;
    var kept := DedupeExchangeMarkets(each);
    return Some(kept);
  }

  lemma {:induction false} FailedPrefix(ms: seq<Market>, n: nat)
    requires n <= |ms| && PrepareEach(ms[..n]).None?
    ensures PrepareEach(ms).None?
    decreases |ms|
  {
    hide Prepare;
    if n < |ms| {
      assert ms[..|ms| - 1][..n] == ms[..n];
      FailedPrefix(ms[..|ms| - 1], n);
    } else {
      assert ms[..n] == ms;
    }
  }

  method FilterMarketsByAccountMarketType(ms: seq<Market>, marketType: string) returns (kept: seq<Market>)
    ensures kept == OfType(ms, marketType)
  {
    hide TypeFits;
    kept := [];
    for i := 0 to |ms|
      invariant kept == OfType(ms[..i], marketType)
    {
      assert ms[..i + 1][..i] == ms[..i];
      if TypeFits(ms[i], marketType) {
        kept := kept + [ms[i]];
      }
    }
    assert ms[..|ms|] == ms;
  }

  method FilterMarketsByAllowlist(ms: seq<Market>, allow: Option<set<string>>) returns (kept: seq<Market>)
    ensures kept == Allowed(ms, allow)
  {
    hide AllowedAs;
    if allow.None? {
      return ms;
    }
    kept := [];
    for i := 0 to |ms|
      invariant kept == Allowed(ms[..i], allow)
    {
      assert ms[..i + 1][..i] == ms[..i];
      var symbol := AllowedAs(ms[i]);
      if symbol in allow.value {
        kept := kept + [ms[i].(normalized := symbol)];
      }
    }
    assert ms[..|ms|] == ms;
  }
}
