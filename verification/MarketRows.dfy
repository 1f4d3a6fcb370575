/** Rows of exchange_markets and how they are cleaned before they are stored (internal/db/mgmt/exchange_market.go). */
module MarketRows {
  import opened Symbols

  // ---- Symbols --------------------------------------------------------------------------------------------------

  function BeforeColon(s: string): string {
    if s == "" || s[0] == ':' then "" else [s[0]] + BeforeColon(s[1..])
  }

  predicate Kept(c: char) {
    'A' <= c <= 'Z' || '0' <= c <= '9'
  }

  function OnlyKept(s: string): (r: string)
    ensures forall i :: 0 <= i < |r| ==> Kept(r[i])
  {
    if s == "" then "" else OnlyKept(s[..|s| - 1]) + if Kept(s[|s| - 1]) then [s[|s| - 1]] else ""
  }

  function NormalSymbol(symbol: string): (r: string)
    ensures forall i :: 0 <= i < |r| ==> Kept(r[i])
  {
    OnlyKept(BeforeColon(Upper(Trim(symbol))))
  }

  /** A symbol of upper-case letters and digits is already normal; so normalising is idempotent. */
  lemma NormalIsFixed(s: string)
    requires forall i :: 0 <= i < |s| ==> Kept(s[i])
    ensures NormalSymbol(s) == s
  {
    if s != "" {
      assert Kept(s[0]) && Kept(s[|s| - 1]);
      assert Trim(s) == s;
    }
    assert Upper(s) == s;
    KeptBeforeColon(s);
    KeptStays(s);
  }

  lemma {:induction false} KeptBeforeColon(s: string)
    requires forall i :: 0 <= i < |s| ==> Kept(s[i])
    ensures BeforeColon(s) == s
    decreases |s|
  {
    if s != "" {
      assert Kept(s[0]);
      KeptBeforeColon(s[1..]);
    }
  }

  lemma {:induction false} KeptStays(s: string)
    requires forall i :: 0 <= i < |s| ==> Kept(s[i])
    ensures OnlyKept(s) == s
    decreases |s|
  {
    if s != "" {
      KeptStays(s[..|s| - 1]);
    }
  }

  lemma {:induction false} OnlyKeptJoins(a: string, b: string)
    ensures OnlyKept(a + b) == OnlyKept(a) + OnlyKept(b)
    decreases |b|
  {
    if b == "" {
      assert a + b == a;
    } else {
      var n := |b| - 1;
      OnlyKeptJoins(a, b[..n]);
      assert (a + b)[..|a + b| - 1] == a + b[..n];
    }
  }

  lemma {:induction false} BeforeFirstColon(head: string, tail: string)
    requires forall i :: 0 <= i < |head| ==> head[i] != ':'
    ensures BeforeColon(head + ":" + tail) == head && BeforeColon(head) == head
    decreases |head|
  {
    if head != "" {
      BeforeFirstColon(head[1..], tail);
      assert (head + ":" + tail)[1..] == head[1..] + ":" + tail;
    }
  }

  /** A character that upper-casing and trimming leave as it is. */
  predicate Plain(c: char) {
    Kept(c) || c == '/' || c == '-' || c == '_' || c == ':'
  }

  predicate AllPlain(s: string) {
    forall i :: 0 <= i < |s| ==> Plain(s[i])
  }

  lemma PlainJoins(a: string, b: string)
    requires AllPlain(a) && AllPlain(b)
    ensures AllPlain(a + b)
  {
    hide Plain;
  }

  lemma PlainStays(s: string)
    requires s != "" && AllPlain(s)
    ensures Upper(Trim(s)) == s
  {
    assert Plain(s[0]) && Plain(s[|s| - 1]);
    assert Trim(s) == s;
    hide Trim;
    forall i | 0 <= i < |s|
      ensures UpperChar(s[i]) == s[i]
    {
      assert Plain(s[i]);
    }
    hide Upper, AllPlain, Plain, UpperChar;
    assert Upper(s) == s;
  }

  lemma OnlySeparator(separator: char)
    requires !Kept(separator)
    ensures OnlyKept([separator]) == ""
  {
    assert [separator][..0] == [];
  }

  lemma WholeIsPlain(base: string, separator: char, quote: string, suffix: string)
    requires AllKept(base) && AllKept(quote) && AllKept(suffix) && Plain(separator)
    ensures AllPlain(base + [separator] + quote + ":" + suffix)
  {
    assert AllPlain(base) && AllPlain(quote) && AllPlain(suffix);
    hide AllKept;
    PlainJoins(base, [separator]);
    PlainJoins(base + [separator], quote);
    PlainJoins(base + [separator] + quote, ":");
    PlainJoins(base + [separator] + quote + ":", suffix);
  }

  predicate AllKept(s: string) {
    forall i :: 0 <= i < |s| ==> Kept(s[i])
  }

  lemma HeadIsKept(base: string, separator: char, quote: string)
    requires AllKept(base) && AllKept(quote) && !Kept(separator)
    ensures OnlyKept(base + [separator] + quote) == base + quote
  {
    KeptStays(base);
    KeptStays(quote);
    OnlySeparator(separator);
    hide OnlyKept, AllKept;
    OnlyKeptJoins(base + [separator], quote);
    OnlyKeptJoins(base, [separator]);
    assert base + "" == base;
  }

  /** A name of upper-case letters and digits, split by a separator that is neither, and followed by a settlement suffix, is
      normalised to its letters and digits without separator and suffix. */
  lemma SuffixIsDropped(base: string, separator: char, quote: string, suffix: string)
    requires forall i :: 0 <= i < |base| ==> 'A' <= base[i] <= 'Z' || '0' <= base[i] <= '9'
    requires forall i :: 0 <= i < |quote| ==> 'A' <= quote[i] <= 'Z' || '0' <= quote[i] <= '9'
    requires forall i :: 0 <= i < |suffix| ==> 'A' <= suffix[i] <= 'Z' || '0' <= suffix[i] <= '9'
    requires separator == '/' || separator == '-' || separator == '_'
    ensures NormalSymbol(base + [separator] + quote + ":" + suffix) == base + quote
  {
    assert AllKept(base) && AllKept(quote) && AllKept(suffix) && Plain(separator) && !Kept(separator);
    hide Trim, Upper, OnlyKept, BeforeColon, AllPlain, Kept, AllKept, Plain;
    PlainSuffixIsDropped(base, separator, quote, suffix);
  }

  lemma PlainSuffixIsDropped(base: string, separator: char, quote: string, suffix: string)
    requires AllKept(base) && AllKept(quote) && AllKept(suffix) && Plain(separator) && !Kept(separator)
    requires separator != ':'
    ensures NormalSymbol(base + [separator] + quote + ":" + suffix) == base + quote
  {
    var head := base + [separator] + quote;
    NoColon(head, base, separator, quote);
    hide Trim, Upper, OnlyKept, BeforeColon, AllPlain, Kept, AllKept, Plain;
    WholeIsPlain(base, separator, quote, suffix);
    PlainStays(head + ":" + suffix);
    BeforeFirstColon(head, suffix);
    HeadIsKept(base, separator, quote);
  }

  lemma NoColon(head: string, base: string, separator: char, quote: string)
    requires head == base + [separator] + quote && separator != ':'
    requires forall i :: 0 <= i < |base| ==> Kept(base[i])
    requires forall i :: 0 <= i < |quote| ==> Kept(quote[i])
    ensures forall i :: 0 <= i < |head| ==> head[i] != ':'
  {
    forall i | 0 <= i < |head|
      ensures head[i] != ':'
    {
      assert head[i] == if i < |base| then base[i] else if i == |base| then separator else quote[i - |base| - 1];
      assert i < |base| ==> Kept(base[i]);
      assert i > |base| ==> Kept(quote[i - |base| - 1]);
    }
  }

  lemma NormalSymbolTwice(symbol: string)
    ensures NormalSymbol(NormalSymbol(symbol)) == NormalSymbol(symbol)
  {
    NormalIsFixed(NormalSymbol(symbol));
  }

  method NormalizeMarketSymbol(symbol: string) returns (r: string)
    ensures r == NormalSymbol(symbol)
  {
    var s := Upper(Trim(symbol));
    if s == "" {
      return "";
    }
    var head := CutAtColon(s);
    r := "";
    for i := 0 to |head|
      invariant r == OnlyKept(head[..i])
    {
      hide BeforeColon, Upper, Trim;
      assert head[..i + 1][..i] == head[..i];
      if Kept(head[i]) {
        r := r + [head[i]];
      }
    }
    assert head[..|head|] == head;
  }

  method CutAtColon(s: string) returns (head: string)
    ensures head == BeforeColon(s)
  {
    var index := 0;
    while index < |s| && s[index] != ':'
      invariant 0 <= index <= |s|
      invariant BeforeColon(s) == s[..index] + BeforeColon(s[index..])
    {
      assert s[index..][1..] == s[index + 1..];
      index := index + 1;
    }
    return s[..index];
  }

  // ---- Cleaning one row -----------------------------------------------------------------------------------------

  /** A row without its timestamps; `details` stands for the columns that are only copied. */
  datatype Market = Market(
    exchange: string, ccxtId: string, env: string, marketType: string, settle: string, symbol: string,
    normalized: string, base: string, quote: string, swap: bool, future: bool, spot: bool, option: bool, details: int)

  /** The columns of the unique index. */
  datatype Identity = Identity(
    exchange: string, ccxtId: string, env: string, marketType: string, settle: string, normalized: string)

  function IdentityOf(m: Market): Identity {
    Identity(m.exchange, m.ccxtId, m.env, m.marketType, m.settle, m.normalized)
  }

  function NormalEnv(value: string): string {
    var v := Lower(Trim(value));
    if v == "paper" || v == "live" then v else ""
  }

  function InferredType(m: Market): string {
    if m.swap then "swap" else if m.future then "future" else if m.spot then "spot" else if m.option then "option" else ""
  }

  function CleanSymbol(m: Market): string {
    var own := NormalSymbol(m.normalized);
    var derived := if own == "" then NormalSymbol(Trim(m.symbol)) else own;
    var base, quote := Upper(Trim(m.base)), Upper(Trim(m.quote));
    if derived == "" && base != "" && quote != "" then NormalSymbol(base + quote) else derived
  }

  function Cleaned(m: Market): Market {
    var marketType := Lower(Trim(m.marketType));
    m.(exchange := Trim(m.exchange), ccxtId := Lower(Trim(m.ccxtId)),
       env := if Trim(m.env) == "" then "paper" else NormalEnv(Trim(m.env)),
       marketType := if marketType == "" then InferredType(m) else marketType,
       symbol := Trim(m.symbol), base := Upper(Trim(m.base)), quote := Upper(Trim(m.quote)),
       settle := Upper(Trim(m.settle)), normalized := CleanSymbol(m))
  }

  datatype Invalid = ExchangeRequired | SymbolRequired | NormalizedRequired | UnknownEnv | UnknownType

  datatype Prepared = Prepared(market: Market) | Rejected(why: Invalid)

  predicate KnownType(t: string) {
    t == "" || t == "spot" || t == "margin" || t == "swap" || t == "future" || t == "option"
  }

  function Prepare(m: Market): Prepared {
    var c := Cleaned(m);
    if c.env == "" then Rejected(UnknownEnv)
    else if c.exchange == "" then Rejected(ExchangeRequired)
    else if c.symbol == "" then Rejected(SymbolRequired)
    else if c.normalized == "" then Rejected(NormalizedRequired)
    else if !KnownType(c.marketType) then Rejected(UnknownType)
    else Prepared(c)
  }

  /** Exactly why a row is refused, in the order in which its columns are looked at. */
  lemma RejectedExactly(m: Market)
    ensures var c, r := Cleaned(m), Prepare(m);
            var unknown := Trim(m.env) != "" && Lower(Trim(m.env)) != "paper" && Lower(Trim(m.env)) != "live";
            && (r == Rejected(UnknownEnv) <==> unknown)
            && (r == Rejected(ExchangeRequired) <==> !unknown && Trim(m.exchange) == "")
            && (r == Rejected(Invalid.SymbolRequired) <==> !unknown && Trim(m.exchange) != "" && Trim(m.symbol) == "")
            && (r == Rejected(NormalizedRequired) <==>
                  !unknown && Trim(m.exchange) != "" && Trim(m.symbol) != "" && c.normalized == "")
            && (r == Rejected(UnknownType) <==>
                  && !unknown && Trim(m.exchange) != "" && Trim(m.symbol) != "" && c.normalized != ""
                  && c.marketType != "" && c.marketType != "spot" && c.marketType != "margin" && c.marketType != "swap"
                  && c.marketType != "future" && c.marketType != "option")
            && (r.Prepared? ==> r.market == c)
  {
    TrimTwice(m.env);
    hide Trim, Lower, Upper, CleanSymbol, InferredType;
  }

  /** The columns of a cleaned row: names without blanks in one case, the environment "paper" when none is given, the market
      type as given or else from the flags, swap before future before spot before option, and as normal symbol the first of
      the given one, the listed one and base with quote that is not blank. */
  lemma CleanedExactly(m: Market)
    ensures var c := Cleaned(m);
            && c == m.(exchange := c.exchange, ccxtId := c.ccxtId, env := c.env, marketType := c.marketType,
                       symbol := c.symbol, base := c.base, quote := c.quote, settle := c.settle, normalized := c.normalized)
            && c.exchange == Trim(m.exchange) && c.ccxtId == Lower(Trim(m.ccxtId)) && c.symbol == Trim(m.symbol)
            && c.base == Upper(Trim(m.base)) && c.quote == Upper(Trim(m.quote)) && c.settle == Upper(Trim(m.settle))
            && (Trim(m.env) == "" ==> c.env == "paper")
            && (Lower(Trim(m.env)) == "paper" || Lower(Trim(m.env)) == "live" ==> c.env == Lower(Trim(m.env)))
            && (Lower(Trim(m.marketType)) != "" ==> c.marketType == Lower(Trim(m.marketType)))
            && (Lower(Trim(m.marketType)) == "" ==>
                  && (m.swap ==> c.marketType == "swap") && (!m.swap && m.future ==> c.marketType == "future")
                  && (!m.swap && !m.future && m.spot ==> c.marketType == "spot")
                  && (!m.swap && !m.future && !m.spot && m.option ==> c.marketType == "option")
                  && (!m.swap && !m.future && !m.spot && !m.option ==> c.marketType == ""))
            && (NormalSymbol(m.normalized) != "" ==> c.normalized == NormalSymbol(m.normalized))
            && (NormalSymbol(m.normalized) == "" && NormalSymbol(Trim(m.symbol)) != "" ==>
                  c.normalized == NormalSymbol(Trim(m.symbol)))
            && (NormalSymbol(m.normalized) == "" && NormalSymbol(Trim(m.symbol)) == "" && c.base != "" && c.quote != "" ==>
                  c.normalized == NormalSymbol(c.base + c.quote))
  {
    TrimTwice(m.env);
    assert Lower("") == "";
    hide Trim, Lower, Upper, NormalSymbol;
  }

  /** What every stored row looks like. */
  predicate Clean(m: Market) {
    && m.exchange == Trim(m.exchange) != "" && m.ccxtId == Lower(Trim(m.ccxtId)) && (m.env == "paper" || m.env == "live")
    && m.marketType == Lower(Trim(m.marketType)) && m.settle == Upper(Trim(m.settle))
    && m.normalized == NormalSymbol(m.normalized) != "" && m.symbol == Trim(m.symbol) != ""
    && m.base == Upper(Trim(m.base)) && m.quote == Upper(Trim(m.quote))
    && (m.marketType == "" ==> InferredType(m) == "")
    && KnownType(m.marketType)
  }

  lemma PreparedIsClean(m: Market)
    requires Prepare(m).Prepared?
    ensures Clean(Prepare(m).market)
  {
    hide Trim, Upper, Lower, NormalSymbol, KnownType, InferredType, CleanSymbol, Cleaned;
    NamesAreClean(m);
    TypeIsClean(m);
    SymbolIsNormal(m);
    EnvIsClean(m);
  }

  lemma EnvIsClean(m: Market)
    ensures Cleaned(m).env != "" ==> Cleaned(m).env == "paper" || Cleaned(m).env == "live"
  {
    hide Trim, Lower, Upper, CleanSymbol, InferredType;
  }

  lemma NamesAreClean(m: Market)
    ensures var c := Cleaned(m);
            && c.exchange == Trim(c.exchange) && c.symbol == Trim(c.symbol) && c.ccxtId == Lower(Trim(c.ccxtId))
            && c.settle == Upper(Trim(c.settle)) && c.base == Upper(Trim(c.base)) && c.quote == Upper(Trim(c.quote))
            && c.normalized == CleanSymbol(m)
  {
    hide Trim, Upper, Lower, NormalEnv, InferredType, CleanSymbol;
    TrimTwice(m.exchange);
    TrimTwice(m.symbol);
    CleanedTwice(m.ccxtId);
    CleanedTwice(m.settle);
    CleanedTwice(m.base);
    CleanedTwice(m.quote);
  }

  lemma TypeIsClean(m: Market)
    ensures var t := Cleaned(m).marketType;
            Lower(Trim(t)) == t && (t == "" ==> InferredType(Cleaned(m)) == "")
  {
    CleanedTwice(m.marketType);
    WordsAreClean();
    hide Trim, Upper, Lower, NormalSymbol, CleanSymbol;
  }

  lemma SymbolIsNormal(m: Market)
    ensures NormalSymbol(CleanSymbol(m)) == CleanSymbol(m)
  {
    NormalSymbolTwice(m.normalized);
    NormalSymbolTwice(Trim(m.symbol));
    NormalSymbolTwice(Upper(Trim(m.base)) + Upper(Trim(m.quote)));
    hide Trim, Upper, NormalSymbol;
  }

  lemma WordIsClean(t: string)
    requires forall i :: 0 <= i < |t| ==> 'a' <= t[i] <= 'z'
    ensures Trim(t) == t && Lower(t) == t
  {
    assert Lower(t) == t by {
      hide Trim;
    }
    hide Lower;
    if t != "" {
      assert !Space(t[0]) && !Space(t[|t| - 1]);
    }
  }

  lemma WordsAreClean()
    ensures Lower(Trim("")) == "" && Lower(Trim("spot")) == "spot" && Lower(Trim("swap")) == "swap"
    ensures Lower(Trim("future")) == "future" && Lower(Trim("option")) == "option"
    ensures Lower(Trim("paper")) == "paper" && Trim("paper") == "paper"
    ensures Lower(Trim("live")) == "live" && Trim("live") == "live"
  {
    hide Trim, Lower;
    WordIsClean("");
    WordIsClean("spot");
    WordIsClean("swap");
    WordIsClean("future");
    WordIsClean("option");
    WordIsClean("paper");
    WordIsClean("live");
  }

  /** Preparing a clean row changes nothing, so preparing twice is preparing once. */
  lemma CleanIsFixed(m: Market)
    requires Clean(m)
    ensures Prepare(m) == Prepared(m)
  {
    WordsAreClean();
    hide Upper, Lower, NormalSymbol, Trim, KnownType, InferredType;
    assert CleanSymbol(m) == m.normalized;
    hide CleanSymbol;
  }

  lemma PrepareTwice(m: Market)
    requires Prepare(m).Prepared?
    ensures Prepare(Prepare(m).market) == Prepare(m)
  {
    PreparedIsClean(m);
    CleanIsFixed(Prepare(m).market);
  }
}
