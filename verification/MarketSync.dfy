/** Syncing the markets of one account (internal/service/market_sync_service.go, internal/db/mgmt/exchange_market.go):
    fetched markets are cleaned, deduplicated, filtered and upserted, and what no longer belongs is pruned. */
module MarketSync {
  import opened Money
  import opened Symbols
  import opened MarketRows

  // ---- Deduplication --------------------------------------------------------------------------------------------

  /** The first position of an identity. */
  function IndexOf(ms: seq<Market>, key: Identity): (r: Option<nat>)
    ensures r.Some? ==> r.value < |ms| && IdentityOf(ms[r.value]) == key
    ensures r.Some? ==> forall i :: 0 <= i < r.value ==> IdentityOf(ms[i]) != key
    ensures r.None? <==> forall i :: 0 <= i < |ms| ==> IdentityOf(ms[i]) != key
  {
    if ms == [] then None
    else
      var earlier := IndexOf(ms[..|ms| - 1], key);
      if earlier.Some? then earlier
      else if IdentityOf(ms[|ms| - 1]) == key then Some(|ms| - 1) else None
  }

  /** The last market with an identity. */
  function LastOf(ms: seq<Market>, key: Identity): (r: Option<Market>)
    ensures r.Some? ==> r.value in ms && IdentityOf(r.value) == key
    ensures r.None? <==> forall i :: 0 <= i < |ms| ==> IdentityOf(ms[i]) != key
  {
    if ms == [] then None
    else if IdentityOf(ms[|ms| - 1]) == key then Some(ms[|ms| - 1])
    else LastOf(ms[..|ms| - 1], key)
  }

  lemma {:induction false} NoneIsLater(ms: seq<Market>, key: Identity) returns (i: nat)
    requires LastOf(ms, key).Some?
    ensures i < |ms| && ms[i] == LastOf(ms, key).value && IdentityOf(ms[i]) == key
    ensures forall j :: i < j < |ms| ==> IdentityOf(ms[j]) != key
    decreases |ms|
  {
    hide IdentityOf;
    i := |ms| - 1;
    if IdentityOf(ms[i]) != key {
      i := NoneIsLater(ms[..|ms| - 1], key);
    }
  }

  function Placed(kept: seq<Market>, m: Market): seq<Market> {
    match IndexOf(kept, IdentityOf(m))
    case Some(i) => kept[i := m]
    case None => kept + [m]
  }

  function Dedupe(ms: seq<Market>): seq<Market> {
    if ms == [] then [] else Placed(Dedupe(ms[..|ms| - 1]), ms[|ms| - 1])
  }

  predicate Unique(ms: seq<Market>) {
    forall i, j :: 0 <= i < j < |ms| ==> IdentityOf(ms[i]) != IdentityOf(ms[j])
  }

  /** `kept` holds the last market of every identity of `ms`, in the order in which the identities first occur. */
  ghost predicate LastInFirstOrder(ms: seq<Market>, kept: seq<Market>) {
    && Unique(kept)
    && (forall i :: 0 <= i < |kept| ==> LastOf(ms, IdentityOf(kept[i])) == Some(kept[i]))
    && (forall key :: IndexOf(ms, key).Some? <==> IndexOf(kept, key).Some?)
    && (forall i, j :: 0 <= i < j < |kept| ==> OccursBefore(ms, IdentityOf(kept[i]), IdentityOf(kept[j])))
  }

  /** Both identities occur, the first one earlier. */
  predicate OccursBefore(ms: seq<Market>, first: Identity, second: Identity) {
    && IndexOf(ms, first).Some? && IndexOf(ms, second).Some?
    && IndexOf(ms, first).value < IndexOf(ms, second).value
  }

  lemma {:induction false} DedupeIsExact(ms: seq<Market>)
    ensures LastInFirstOrder(ms, Dedupe(ms))
    decreases |ms|
  {
    if ms != [] {
      DedupeIsExact(ms[..|ms| - 1]);
      PlacedKeepsOrder(ms, Dedupe(ms[..|ms| - 1]));
    }
  }

  lemma PlacedKeepsOrder(ms: seq<Market>, kept: seq<Market>)
    requires ms != [] && LastInFirstOrder(ms[..|ms| - 1], kept)
    ensures LastInFirstOrder(ms, Placed(kept, ms[|ms| - 1]))
  {
    hide Unique, LastOf, IndexOf, Placed, IdentityOf, OccursBefore;
    PlacedIsUnique(kept, ms[|ms| - 1]);
    LastsFollow(ms, kept);
    KeysFollow(ms, kept);
    PairsInOrder(ms, kept);
  }

  lemma PlacedIsUnique(kept: seq<Market>, m: Market)
    requires Unique(kept)
    ensures Unique(Placed(kept, m))
  {
    hide LastOf, IndexOf, Placed, IdentityOf, Unique;
    PlacedKeys(kept, m);
  }

  /** Placing a market adds its identity and no other. */
  lemma KeysFollow(ms: seq<Market>, kept: seq<Market>)
    requires ms != [] && Unique(kept)
    requires forall key :: IndexOf(ms[..|ms| - 1], key).Some? <==> IndexOf(kept, key).Some?
    ensures forall key :: IndexOf(ms, key).Some? <==> IndexOf(Placed(kept, ms[|ms| - 1]), key).Some?
  {
    hide LastOf, IndexOf, Placed, IdentityOf, Unique;
    PlacedKeys(kept, ms[|ms| - 1]);
    KeysOfLonger(ms);
  }

  lemma PairsInOrder(ms: seq<Market>, kept: seq<Market>)
    requires ms != [] && LastInFirstOrder(ms[..|ms| - 1], kept)
    ensures var r := Placed(kept, ms[|ms| - 1]);
            forall i, j :: 0 <= i < j < |r| ==> OccursBefore(ms, IdentityOf(r[i]), IdentityOf(r[j]))
  {
    hide LastInFirstOrder, IndexOf, Placed, IdentityOf, OccursBefore;
    var r := Placed(kept, ms[|ms| - 1]);
    forall i, j | 0 <= i < j < |r|
      ensures OccursBefore(ms, IdentityOf(r[i]), IdentityOf(r[j]))
    {
      PairInOrder(ms, kept, i, j);
    }
  }

  lemma LastsFollow(ms: seq<Market>, kept: seq<Market>)
    requires ms != [] && Unique(kept)
    requires forall i :: 0 <= i < |kept| ==> LastOf(ms[..|ms| - 1], IdentityOf(kept[i])) == Some(kept[i])
    ensures var r := Placed(kept, ms[|ms| - 1]);
            forall i :: 0 <= i < |r| ==> LastOf(ms, IdentityOf(r[i])) == Some(r[i])
  {
    var r := Placed(kept, ms[|ms| - 1]);
    PlacedKeys(kept, ms[|ms| - 1]);
    hide LastOf, IndexOf, Placed, IdentityOf, Unique;
    forall i | 0 <= i < |r|
      ensures LastOf(ms, IdentityOf(r[i])) == Some(r[i])
    {
      LastOfLonger(ms, IdentityOf(r[i]));
    }
  }

  lemma PairInOrder(ms: seq<Market>, kept: seq<Market>, i: nat, j: nat)
    requires ms != [] && LastInFirstOrder(ms[..|ms| - 1], kept) && i < j < |Placed(kept, ms[|ms| - 1])|
    ensures var r := Placed(kept, ms[|ms| - 1]);
            OccursBefore(ms, IdentityOf(r[i]), IdentityOf(r[j]))
  {
    var m := ms[|ms| - 1];
    var r := Placed(kept, m);
    PlacedKeys(kept, m);
    IndexOfLonger(ms, IdentityOf(r[i]));
    IndexOfLonger(ms, IdentityOf(r[j]));
    hide LastOf, IndexOf, Placed, IdentityOf;
    if j < |kept| {
      assert IdentityOf(r[i]) == IdentityOf(kept[i]) && IdentityOf(r[j]) == IdentityOf(kept[j]);
    } else {
      assert IdentityOf(r[i]) == IdentityOf(kept[i]) && r[j] == m;
    }
  }

  lemma PlacedKeys(kept: seq<Market>, m: Market)
    requires Unique(kept)
    ensures var r := Placed(kept, m);
            && Unique(r) && |kept| <= |r| <= |kept| + 1
            && (forall i :: 0 <= i < |kept| ==> IdentityOf(r[i]) == IdentityOf(kept[i]))
            && (forall i :: 0 <= i < |kept| && IdentityOf(kept[i]) != IdentityOf(m) ==> r[i] == kept[i])
            && (forall i :: 0 <= i < |r| && IdentityOf(r[i]) == IdentityOf(m) ==> r[i] == m)
            && (|r| > |kept| ==> r[|kept|] == m && IndexOf(kept, IdentityOf(m)).None?)
            && (forall key :: IndexOf(r, key).Some? <==> IndexOf(kept, key).Some? || key == IdentityOf(m))
  {
    var r := Placed(kept, m);
    hide IdentityOf;
    forall key
      ensures IndexOf(r, key).Some? <==> IndexOf(kept, key).Some? || key == IdentityOf(m)
    {
      if IndexOf(kept, key).Some? {
        assert IdentityOf(r[IndexOf(kept, key).value]) == key;
      }
      if key == IdentityOf(m) {
        assert r == kept + [m] ==> IdentityOf(r[|kept|]) == key;
      }
    }
  }

  lemma KeysOfLonger(ms: seq<Market>)
    requires ms != []
    ensures forall key :: IndexOf(ms, key).Some? <==>
              IndexOf(ms[..|ms| - 1], key).Some? || key == IdentityOf(ms[|ms| - 1])
  {
  }

  lemma LastOfLonger(ms: seq<Market>, key: Identity)
    requires ms != []
    ensures LastOf(ms, key) ==
            if key == IdentityOf(ms[|ms| - 1]) then Some(ms[|ms| - 1]) else LastOf(ms[..|ms| - 1], key)
  {
  }

  lemma IndexOfLonger(ms: seq<Market>, key: Identity)
    requires ms != []
    ensures IndexOf(ms, key) ==
            if IndexOf(ms[..|ms| - 1], key).Some? then IndexOf(ms[..|ms| - 1], key)
            else if key == IdentityOf(ms[|ms| - 1]) then Some(|ms| - 1) else None
  {
  }

  /** A map from each identity in a list to its position. */
  ghost predicate Indexes(indexes: map<Identity, nat>, kept: seq<Market>) {
    forall key :: IndexOf(kept, key) == if key in indexes then Some(indexes[key]) else None
  }

  lemma IndexesFollow(indexes: map<Identity, nat>, kept: seq<Market>, m: Market)
    requires Unique(kept) && Indexes(indexes, kept)
    ensures var key := IdentityOf(m);
            Indexes(if key in indexes then indexes else indexes[key := |kept|], Placed(kept, m))
  {
    hide Unique, IdentityOf, Placed, IndexOf;
    var key := IdentityOf(m);
    var after := if key in indexes then indexes else indexes[key := |kept|];
    forall other
      ensures IndexOf(Placed(kept, m), other) == if other in after then Some(after[other]) else None
    {
      IndexFollows(indexes, kept, m, other);
    }
  }

  lemma IndexFollows(indexes: map<Identity, nat>, kept: seq<Market>, m: Market, other: Identity)
    requires Unique(kept) && Indexes(indexes, kept)
    ensures var key := IdentityOf(m);
            var after := if key in indexes then indexes else indexes[key := |kept|];
            IndexOf(Placed(kept, m), other) == if other in after then Some(after[other]) else None
  {
    var r, key := Placed(kept, m), IdentityOf(m);
    PlacedKeys(kept, m);
    assert IndexOf(kept, other) == if other in indexes then Some(indexes[other]) else None;
    assert IndexOf(kept, key) == if key in indexes then Some(indexes[key]) else None;
    assert r == if key in indexes then kept[indexes[key] := m] else kept + [m];
    hide IdentityOf, IndexOf, Unique, Placed;
    if other in indexes {
      FoundAt(r, indexes[other], other);
    } else if other == key {
      FoundAt(r, |kept|, other);
    }
  }

  lemma FoundAt(ms: seq<Market>, i: nat, key: Identity)
    requires Unique(ms) && i < |ms| && IdentityOf(ms[i]) == key
    ensures IndexOf(ms, key) == Some(i)
  {
    hide IdentityOf;
  }

  lemma {:induction false} DedupeUnique(ms: seq<Market>)
    ensures Unique(Dedupe(ms))
    decreases |ms|
  {
    DedupeIsExact(ms);
  }

  /** The loop keeps the position of every identity seen so far in a map. */
  method DedupeExchangeMarkets(ms: seq<Market>) returns (kept: seq<Market>)
    ensures kept == Dedupe(ms)
  {
    hide Unique, IdentityOf;
    var indexes: map<Identity, nat> := map[];
    kept := [];
    for k := 0 to |ms|
      invariant kept == Dedupe(ms[..k]) && Indexes(indexes, kept)
    {
      var m := ms[k];
      var key := IdentityOf(m);
      assert ms[..k + 1][..k] == ms[..k];
      DedupeUnique(ms[..k]);
      IndexesFollow(indexes, kept, m);
      assert IndexOf(kept, key) == if key in indexes then Some(indexes[key]) else None;
      if key in indexes {
        kept := kept[indexes[key] := m];
      } else {
        indexes := indexes[key := |kept|];
        kept := kept + [m];
      }
    }
    assert ms[..|ms|] == ms;
  }

  // ---- From fetched markets to the rows to write ----------------------------------------------------------------

  /** A market as the exchange lists it. */
  datatype Listed = Listed(
    exchange: string, ccxtId: string, marketType: string, settle: string, symbol: string, base: string, quote: string,
    swap: bool, future: bool, spot: bool, option: bool, details: int)

  datatype Account = Account(exchange: string, ccxtId: string, marketType: string, settle: string)

  function OrElse(value: string, otherwise: string): string {
    if Trim(value) == "" then otherwise else Trim(value)
  }

  function ModelOf(l: Listed, a: Account, env: string): Market {
    Market(OrElse(l.exchange, a.exchange), OrElse(l.ccxtId, a.ccxtId), env, OrElse(l.marketType, a.marketType),
           OrElse(l.settle, a.settle), l.symbol, NormalSymbol(l.symbol), l.base, l.quote, l.swap, l.future, l.spot,
           l.option, l.details)
  }

  function Models(listed: seq<Listed>, a: Account, env: string): seq<Market> {
    if listed == [] then []
    else Models(listed[..|listed| - 1], a, env) + [ModelOf(listed[|listed| - 1], a, env)]
  }

  /** One invalid market fails the whole list. */
  function PrepareEach(ms: seq<Market>): Option<seq<Market>> {
    if ms == [] then Some([])
    else
      var earlier, last := PrepareEach(ms[..|ms| - 1]), Prepare(ms[|ms| - 1]);
      if earlier.None? || last.Rejected? then None else Some(earlier.value + [last.market])
  }

  function PrepareAll(ms: seq<Market>): Option<seq<Market>> {
    var prepared := PrepareEach(ms);
    if prepared.None? then None else Some(Dedupe(prepared.value))
  }

  predicate TypeFits(m: Market, marketType: string) {
    Lower(Trim(marketType)) == "" || EqualFold(Trim(m.marketType), Lower(Trim(marketType)))
  }

  function AllowedAs(m: Market): string {
    if NormalSymbol(m.normalized) == "" then NormalSymbol(m.symbol) else NormalSymbol(m.normalized)
  }

  predicate SymbolFits(m: Market, allow: Option<set<string>>) {
    allow.None? || AllowedAs(m) in allow.value
  }

  function OfType(ms: seq<Market>, marketType: string): seq<Market> {
    if ms == [] then []
    else OfType(ms[..|ms| - 1], marketType)
         + if TypeFits(ms[|ms| - 1], marketType) then [ms[|ms| - 1]] else []
  }

  function Allowed(ms: seq<Market>, allow: Option<set<string>>): seq<Market> {
    if allow.None? then ms
    else if ms == [] then []
    else
      var m := ms[|ms| - 1];
      Allowed(ms[..|ms| - 1], allow) + if SymbolFits(m, allow) then [m.(normalized := AllowedAs(m))] else []
  }

  /** The rows one sync writes. */
  function Written(a: Account, env: string, listed: seq<Listed>, allow: Option<set<string>>): Option<seq<Market>> {
    var prepared := PrepareAll(Models(listed, a, env));
    if prepared.None? then None else Some(Allowed(OfType(prepared.value, a.marketType), allow))
  }

  predicate AllClean(ms: seq<Market>) {
    forall i :: 0 <= i < |ms| ==> Clean(ms[i])
  }

  lemma {:induction false} PreparedAreClean(ms: seq<Market>)
    requires PrepareEach(ms).Some?
    ensures AllClean(PrepareEach(ms).value)
    decreases |ms|
  {
    hide Prepare, Clean;
    if ms != [] {
      PreparedAreClean(ms[..|ms| - 1]);
      PreparedIsClean(ms[|ms| - 1]);
    }
  }

  lemma DedupeKeepsClean(ms: seq<Market>)
    requires AllClean(ms)
    ensures AllClean(Dedupe(ms)) && Unique(Dedupe(ms))
  {
    DedupeIsExact(ms);
    hide Clean;
    var kept := Dedupe(ms);
    forall i | 0 <= i < |kept|
      ensures Clean(kept[i])
    {
      assert LastOf(ms, IdentityOf(kept[i])) == Some(kept[i]);
    }
  }

  /** A filter only leaves out rows. */
  ghost predicate Part(some: seq<Market>, all: seq<Market>) {
    && (Unique(all) ==> Unique(some))
    && (forall m :: m in some ==> m in all)
  }

  lemma {:induction false} OfTypeIsPart(ms: seq<Market>, marketType: string)
    ensures Part(OfType(ms, marketType), ms)
    ensures forall m :: m in OfType(ms, marketType) ==> TypeFits(m, marketType)
    decreases |ms|
  {
    hide TypeFits, IdentityOf;
    if ms != [] {
      var n := |ms| - 1;
      OfTypeIsPart(ms[..n], marketType);
      LongerPart(OfType(ms[..n], marketType), ms);
    }
  }

  lemma {:induction false} AllowedIsPart(ms: seq<Market>, allow: Option<set<string>>)
    requires AllClean(ms)
    ensures Part(Allowed(ms, allow), ms)
    ensures forall m :: m in Allowed(ms, allow) ==> SymbolFits(m, allow)
    decreases |ms|
  {
    hide IdentityOf;
    if allow.Some? && ms != [] {
      var n := |ms| - 1;
      AllowedIsPart(ms[..n], allow);
      LongerPart(Allowed(ms[..n], allow), ms);
      assert Clean(ms[n]);
      assert AllowedAs(ms[n]) == ms[n].normalized;
      hide NormalSymbol, Clean;
    }
  }

  lemma LongerPart(some: seq<Market>, ms: seq<Market>)
    requires ms != [] && Part(some, ms[..|ms| - 1])
    ensures Part(some, ms) && Part(some + [ms[|ms| - 1]], ms)
  {
    hide IdentityOf;
    var n := |ms| - 1;
    var more := some + [ms[n]];
    if Unique(ms) {
      forall i, j | 0 <= i < j < |more|
        ensures IdentityOf(more[i]) != IdentityOf(more[j])
      {
        if j == |some| {
          assert some[i] in some;
          var k :| 0 <= k < n && ms[..n][k] == some[i];
          assert IdentityOf(ms[k]) != IdentityOf(ms[n]);
        }
      }
    }
  }

  /** The rows written are clean, have distinct identities, and satisfy the account's type and the allowlist. */
  lemma WrittenIsClean(a: Account, env: string, listed: seq<Listed>, allow: Option<set<string>>)
    requires Written(a, env, listed, allow).Some?
    ensures var ms := Written(a, env, listed, allow).value;
            && AllClean(ms) && Unique(ms)
            && forall m :: m in ms ==> TypeFits(m, a.marketType) && SymbolFits(m, allow)
  {
    var models := Models(listed, a, env);
    var each := PrepareEach(models).value;
    PreparedAreClean(models);
    DedupeKeepsClean(each);
    var prepared := Dedupe(each);
    var typed := OfType(prepared, a.marketType);
    OfTypeIsPart(prepared, a.marketType);
    hide Clean, TypeFits, SymbolFits, Unique, Dedupe, PrepareEach;
    PartIsClean(typed, prepared);
    AllowedIsPart(typed, allow);
    PartIsClean(Allowed(typed, allow), typed);
  }

  lemma PartIsClean(some: seq<Market>, all: seq<Market>)
    requires Part(some, all) && AllClean(all)
    ensures AllClean(some)
  {
    hide Clean, Unique;
    forall i | 0 <= i < |some|
      ensures Clean(some[i])
    {
      assert some[i] in all;
    }
  }

  /** The columns of the row a listed market becomes: its own where it has them and the account's otherwise, its symbol
      normalised, everything else as listed. */
  lemma ListedExactly(l: Listed, a: Account, env: string)
    ensures var m := ModelOf(l, a, env);
            && m.exchange == (if Trim(l.exchange) != "" then Trim(l.exchange) else a.exchange)
            && m.ccxtId == (if Trim(l.ccxtId) != "" then Trim(l.ccxtId) else a.ccxtId)
            && m.marketType == (if Trim(l.marketType) != "" then Trim(l.marketType) else a.marketType)
            && m.settle == (if Trim(l.settle) != "" then Trim(l.settle) else a.settle)
            && m.env == env && m.symbol == l.symbol && m.normalized == NormalSymbol(l.symbol)
            && m.base == l.base && m.quote == l.quote && m.details == l.details
            && m.swap == l.swap && m.future == l.future && m.spot == l.spot && m.option == l.option
  {
    hide Trim, NormalSymbol;
  }

  lemma {:induction false} OfTypeExactly(ms: seq<Market>, marketType: string)
    ensures forall m :: m in OfType(ms, marketType) <==> m in ms && TypeFits(m, marketType)
    decreases |ms|
  {
    hide TypeFits;
    if ms != [] {
      OfTypeExactly(ms[..|ms| - 1], marketType);
      assert ms == ms[..|ms| - 1] + [ms[|ms| - 1]];
    }
  }

  lemma CleanIsAllowedAs(m: Market, allow: Option<set<string>>)
    requires Clean(m)
    ensures m.(normalized := AllowedAs(m)) == m
    ensures SymbolFits(m, allow) <==> (allow.Some? ==> m.normalized in allow.value)
  {
    assert AllowedAs(m) == m.normalized by {
      hide Trim, Upper, Lower, InferredType, KnownType;
    }
    hide NormalSymbol, Clean, AllowedAs;
  }

  lemma {:induction false} AllowedExactly(ms: seq<Market>, allow: Option<set<string>>)
    requires AllClean(ms)
    ensures forall m :: m in Allowed(ms, allow) <==> m in ms && (allow.Some? ==> m.normalized in allow.value)
    decreases |ms|
  {
    hide Clean, SymbolFits, AllowedAs;
    if allow.Some? && ms != [] {
      var n := |ms| - 1;
      AllowedExactly(ms[..n], allow);
      assert ms == ms[..n] + [ms[n]];
      CleanIsAllowedAs(ms[n], allow);
    }
  }

  /** Exactly which rows a sync writes: of the listed markets, prepared, the last with each identity, of the account's market
      type, if it has one, up to case, and allowed, if there is an allowlist. One market that cannot be prepared refuses
      them all. */
  lemma WrittenExactly(a: Account, env: string, listed: seq<Listed>, allow: Option<set<string>>, m: Market)
    ensures var each, written := PrepareEach(Models(listed, a, env)), Written(a, env, listed, allow);
            && (written.None? <==> each.None?)
            && (written.Some? ==>
                  (m in written.value <==>
                     && LastOf(each.value, IdentityOf(m)) == Some(m)
                     && (Lower(Trim(a.marketType)) == "" || Upper(Trim(m.marketType)) == Upper(Lower(Trim(a.marketType))))
                     && (allow.Some? ==> m.normalized in allow.value)))
  {
    var each := PrepareEach(Models(listed, a, env));
    if each.Some? {
      PreparedAreClean(Models(listed, a, env));
      DedupeKeepsClean(each.value);
      DedupeIsExact(each.value);
      KeptExactly(each.value, Dedupe(each.value), m);
      OfTypeExactly(Dedupe(each.value), a.marketType);
      OfTypeKeepsClean(Dedupe(each.value), a.marketType);
      AllowedExactly(OfType(Dedupe(each.value), a.marketType), allow);
      hide Dedupe, OfType, Allowed, LastOf, IdentityOf, PrepareEach, Models, AllClean, LastInFirstOrder, Trim, Lower, Upper;
    }
  }

  lemma OfTypeKeepsClean(ms: seq<Market>, marketType: string)
    requires AllClean(ms)
    ensures AllClean(OfType(ms, marketType))
  {
    hide Clean;
    OfTypeIsPart(ms, marketType);
    PartIsClean(OfType(ms, marketType), ms);
  }

  lemma KeptExactly(ms: seq<Market>, kept: seq<Market>, m: Market)
    requires LastInFirstOrder(ms, kept)
    ensures m in kept <==> LastOf(ms, IdentityOf(m)) == Some(m)
  {
    hide LastOf, IndexOf, Unique, OccursBefore;
    if LastOf(ms, IdentityOf(m)) == Some(m) {
      assert LastOf(ms, IdentityOf(m)).Some? && IndexOf(ms, IdentityOf(m)).Some?;
      var i := IndexOf(kept, IdentityOf(m)).value;
      assert LastOf(ms, IdentityOf(kept[i])) == Some(kept[i]);
    }
  }

  /** The columns of the unique index. */
  lemma SameIdentityExactly(m: Market, n: Market)
    ensures IdentityOf(m) == IdentityOf(n) <==>
            && m.exchange == n.exchange && m.ccxtId == n.ccxtId && m.env == n.env && m.marketType == n.marketType
            && m.settle == n.settle && m.normalized == n.normalized
  {
  }
}
