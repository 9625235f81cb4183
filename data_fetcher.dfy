/** Choosing a data source and a symbol, and normalising what the sources
    return: ticker candidates, market detection, the adapter fallback order,
    search de-duplication, Screener table cells, Yahoo ratios and the
    company-name validation ladder. Network calls are parameters. */
module DataFetcher {
  import opened Wrappers
  import opened Text
  import opened Numbers
  import opened Dicts
  import opened FinancialModel

  // ------------------------------------------------------------ tickers

  /** The Indian tickers the Yahoo adapter and the validator know. */
  function IndianTickers(): set<string>
  {
    {"TCS", "RELIANCE", "INFY", "HDFCBANK", "ICICIBANK", "HINDUNILVR",
     "SBIN", "BHARTIARTL", "ITC", "KOTAKBANK", "LT", "AXISBANK",
     "WIPRO", "ASIANPAINT", "MARUTI", "HCLTECH", "SUNPHARMA", "TITAN",
     "ULTRACEMCO", "BAJFINANCE", "NESTLEIND", "TECHM", "POWERGRID",
     "NTPC", "TATAMOTORS", "TATASTEEL", "JSWSTEEL", "ONGC", "COALINDIA",
     "ADANIENT", "ADANIPORTS", "BAJAJFINSV", "DRREDDY", "CIPLA", "EICHERMOT",
     "GRASIM", "DIVISLAB", "BRITANNIA", "APOLLOHOSP", "INDUSINDBK", "M&M",
     "BPCL", "HEROMOTOCO", "HINDALCO", "TATACONSUM", "BAJAJ-AUTO", "UPL"}
  }

  /** The shorter list the multi-source fetcher uses to detect the market. */
  function MultiSourceIndianTickers(): set<string>
  {
    {"TCS", "RELIANCE", "INFY", "HDFCBANK", "ICICIBANK", "HINDUNILVR",
     "SBIN", "BHARTIARTL", "ITC", "KOTAKBANK", "LT", "AXISBANK",
     "WIPRO", "ASIANPAINT", "MARUTI", "HCLTECH", "SUNPHARMA", "TITAN",
     "ULTRACEMCO", "BAJFINANCE", "NESTLEIND", "TECHM", "POWERGRID",
     "NTPC", "TATAMOTORS", "TATASTEEL", "JSWSTEEL", "ONGC", "COALINDIA"}
  }

  /** `company_identifier.upper().strip()` */
  function Normalize(id: string): string { Strip(Upper(id)) }

  predicate HasExchangeSuffix(t: string) { Contains(t, ".NS") || Contains(t, ".BO") }

  /** The Yahoo symbols to try for an identifier, in order. */
  function Candidates(id: string): seq<string>
  {
    CandidatesFor(Normalize(id), IndianTickers())
  }

  /** The symbols to try for a normalised identifier `t`, given the known
      Indian tickers. */
  function CandidatesFor(t: string, known: set<string>): seq<string>
  {
    if HasExchangeSuffix(t) || '.' in t then [t]
    else if t in known then [t + ".NS", t + ".BO", t]
    else [t]
  }

  /** `YahooFinanceFetcher._resolve_ticker` */
  method ResolveTicker(id: string) returns (cs: seq<string>)
    ensures cs == Candidates(id)
  {
    var t := Normalize(id);
    cs := ResolveNormalized(t, IndianTickers());
  }

  /** The body of `_resolve_ticker` once the identifier is normalised. */
  method ResolveNormalized(t: string, known: set<string>) returns (cs: seq<string>)
    ensures cs == CandidatesFor(t, known)
  {
    cs := [];
    if HasExchangeSuffix(t) || '.' in t {
      cs := cs + [t];
      return;
    }
    if t in known {
      cs := cs + [t + ".NS"];
      cs := cs + [t + ".BO"];
    }
    cs := cs + [t];
  }

  /** The normalised identifier is always tried, last; a dotted one alone;
      a known Indian ticker on the NSE, then the BSE, then bare; any other
      identifier alone. */
  lemma CandidatesShape(id: string)
    ensures var cs := Candidates(id); cs != [] && cs[|cs| - 1] == Normalize(id)
    ensures '.' in Normalize(id) ==> Candidates(id) == [Normalize(id)]
    ensures '.' !in Normalize(id) && Normalize(id) in IndianTickers() ==>
              Candidates(id) == [Normalize(id) + ".NS", Normalize(id) + ".BO", Normalize(id)]
    ensures '.' !in Normalize(id) && Normalize(id) !in IndianTickers() ==> Candidates(id) == [Normalize(id)]
  {
    DotOfSuffix(Normalize(id));
  }

  /** An exchange suffix contains a dot, so the suffix test adds nothing to
      the dot test. */
  lemma DotOfSuffix(t: string)
    ensures HasExchangeSuffix(t) ==> '.' in t
  {
    if Contains(t, ".NS") {
      var i := IndexOf(t, ".NS").value;
      assert t[i] == t[i..i + 3][0] == '.';
    }
    if Contains(t, ".BO") {
      var i := IndexOf(t, ".BO").value;
      assert t[i] == t[i..i + 3][0] == '.';
    }
  }

  /** `MultiSourceFetcher._detect_market` */
  function DetectMarket(id: string): (m: string)
    ensures m == "india" || m == "global"
    ensures m == "india" <==> HasExchangeSuffix(Normalize(id)) || Normalize(id) in MultiSourceIndianTickers()
  {
    var t := Normalize(id);
    if HasExchangeSuffix(t) then "india"
    else if t in MultiSourceIndianTickers() then "india"
    else "global"
  }

  lemma MultiSourceTickersAreKnown()
    ensures MultiSourceIndianTickers() <= IndianTickers()
    ensures forall t :: t in MultiSourceIndianTickers() ==> '.' !in t
  {
  }

  /** Whenever the market is detected as Indian, the first Yahoo symbol tried
      carries an Indian exchange suffix. */
  lemma DetectedIndiaTriesExchangeFirst(id: string)
    requires DetectMarket(id) == "india"
    ensures HasExchangeSuffix(Candidates(id)[0])
  {
    var t := Normalize(id);
    if !HasExchangeSuffix(t) {
      assert t in MultiSourceIndianTickers();
      MultiSourceTickersAreKnown();
      KnownCandidatesFor(t, IndianTickers());
      ContainsAppended(t, ".NS");
    }
  }

  /** A word of capital letters is its own normal form. */
  lemma CapitalWordIsNormal(t: string)
    requires t != [] && forall i :: 0 <= i < |t| ==> IsUpperChar(t[i])
    ensures Normalize(t) == t
  {
    CapitalsAreUpper(t);
    assert !IsSpaceChar(t[0]) && !IsSpaceChar(t[|t| - 1]);
  }

  lemma CapitalsAreUpper(t: string)
    requires forall i :: 0 <= i < |t| ==> IsUpperChar(t[i])
    ensures Upper(t) == t
  {
  }

  lemma AdanientIsKnown()
    ensures "ADANIENT" in IndianTickers()
  {
  }

  lemma AdanientIsNotDetected()
    ensures "ADANIENT" !in MultiSourceIndianTickers()
  {
  }

  /** ADANIENT is in the Yahoo list only: the Yahoo adapter tries the Indian
      exchanges for it while market detection calls it global. */
  lemma AdanientDisagreement()
    ensures Candidates("ADANIENT") == ["ADANIENT" + ".NS", "ADANIENT" + ".BO", "ADANIENT"]
    ensures DetectMarket("ADANIENT") == "global"
  {
    AdanientCandidates();
    AdanientMarket();
  }

  lemma AdanientCandidates()
    ensures Candidates("ADANIENT") == ["ADANIENT" + ".NS", "ADANIENT" + ".BO", "ADANIENT"]
  {
    CapitalWordIsNormal("ADANIENT");
    AdanientIsKnown();
    KnownTickerCandidates("ADANIENT");
  }

  lemma AdanientMarket()
    ensures DetectMarket("ADANIENT") == "global"
  {
    CapitalWordIsNormal("ADANIENT");
    AdanientIsNotDetected();
    UnlistedTickerMarket("ADANIENT");
  }

  /** A normal dot-free ticker of the Yahoo list gets both exchanges. */
  lemma KnownTickerCandidates(t: string)
    requires Normalize(t) == t && '.' !in t && t in IndianTickers()
    ensures Candidates(t) == [t + ".NS", t + ".BO", t]
  {
    KnownCandidatesFor(t, IndianTickers());
  }

  /** A known dot-free ticker is tried on the NSE, then the BSE, then bare. */
  lemma KnownCandidatesFor(t: string, known: set<string>)
    requires '.' !in t && t in known
    ensures CandidatesFor(t, known) == [t + ".NS", t + ".BO", t]
  {
    DotOfSuffix(t);
  }

  /** A normal dot-free ticker outside the multi-source list is global. */
  lemma UnlistedTickerMarket(t: string)
    requires Normalize(t) == t && '.' !in t && t !in MultiSourceIndianTickers()
    ensures DetectMarket(t) == "global"
  {
    DotOfSuffix(t);
  }

  // ----------------------------------------------------- adapter fallback

  /** The configured data sources. */
  datatype Adapter = Screener | Yahoo | Fmp(api_key: string)

  /** One call of an adapter: it raised, or it returned a record or None. */
  datatype Attempt = Raised | Returned(result: Option<FinancialData>)

  /** `data and (data.revenue or data.net_income)` */
  predicate Qualifies(a: Attempt) { a.Returned? && a.result.Some? && IsUsable(a.result.value) }

  /** The first qualifying result, unchanged; None when none qualifies. */
  function FirstUsable(atts: seq<Attempt>): (r: Option<FinancialData>)
    ensures r.Some? <==> exists i :: 0 <= i < |atts| && Qualifies(atts[i])
    ensures r.Some? ==> exists i :: 0 <= i < |atts| && Qualifies(atts[i]) && atts[i].result == r
                          && forall j :: 0 <= j < i ==> !Qualifies(atts[j])
  {
    if atts == [] then None
    else if Qualifies(atts[0]) then atts[0].result
    else
      var r := FirstUsable(atts[1..]);
      assert forall i :: 1 <= i < |atts| ==> atts[i] == atts[1..][i - 1];
      r
  }

  /** Tries the items in order and returns the first usable record: the loop
      shared by the Yahoo adapter (over symbols) and the multi-source fetcher
      (over adapters). */
  method FetchFirst<A>(items: seq<A>, fetch: A -> Attempt) returns (r: Option<FinancialData>)
    ensures r == FirstUsable(MapList(items, fetch))
  {
    ghost var atts := MapList(items, fetch);
    var i := 0;
    while i < |items|
      invariant 0 <= i <= |items|
      invariant FirstUsable(atts) == FirstUsable(atts[i..])
    {
      var a := fetch(items[i]);
      assert a == atts[i] == atts[i..][0];
      if Qualifies(a) {
        return a.result;
      }
      assert atts[i..][1..] == atts[i + 1..];
      i := i + 1;
    }
    return None;
  }

  /** `YahooFinanceFetcher.fetch_data`: the symbol candidates in order, each
      fetched by `fetchSymbol`. */
  method YahooFetch(id: string, fetchSymbol: string -> Attempt) returns (r: Option<FinancialData>)
    ensures r == FirstUsable(MapList(Candidates(id), fetchSymbol))
  {
    var cs := ResolveTicker(id);
    r := FetchFirst(cs, fetchSymbol);
  }

  predicate IsYahoo(a: Adapter) { a.Yahoo? }
  predicate IsScreener(a: Adapter) { a.Screener? }
  predicate IsOther(a: Adapter) { a.Fmp? }

  /** `[f for f in fs if p(f)]` */
  function Only(fs: seq<Adapter>, p: Adapter -> bool): (r: seq<Adapter>)
    ensures |r| <= |fs|
    ensures forall i :: 0 <= i < |r| ==> p(r[i])
  {
    if fs == [] then [] else (if p(fs[0]) then [fs[0]] else []) + Only(fs[1..], p)
  }

  /** The order for an Indian company: Yahoo, then Screener, then the rest,
      each group in configured order. */
  function IndiaOrder(fs: seq<Adapter>): seq<Adapter>
  {
    Only(fs, IsYahoo) + Only(fs, IsScreener) + Only(fs, IsOther)
  }

  /** The India order is a permutation of the configured adapters. */
  lemma {:induction false} IndiaOrderIsPermutation(fs: seq<Adapter>)
    ensures multiset(IndiaOrder(fs)) == multiset(fs)
  {
    if fs != [] {
      IndiaOrderIsPermutation(fs[1..]);
      assert fs == [fs[0]] + fs[1..];
    }
  }

  /** `preferred_market` after auto-detection */
  function MarketFor(id: string, preferred: string): string
  {
    if Lower(preferred) == "auto" then DetectMarket(id) else preferred
  }

  function AdapterOrder(configured: seq<Adapter>, id: string, preferred: string): seq<Adapter>
  {
    if Lower(MarketFor(id, preferred)) == "india" then IndiaOrder(configured) else configured
  }

  /** `MultiSourceFetcher.fetch_data`: `fetch` is each adapter's own
      `fetch_data` for this identifier and year count. */
  method MultiSourceFetch(configured: seq<Adapter>, id: string, preferred: string, fetch: Adapter -> Attempt)
    returns (r: Option<FinancialData>)
    ensures r == FirstUsable(MapList(AdapterOrder(configured, id, preferred), fetch))
    ensures multiset(AdapterOrder(configured, id, preferred)) == multiset(configured)
  {
    var market := preferred;
    if Lower(preferred) == "auto" {
      market := DetectMarket(id);
    }
    var fetchers := configured;
    if Lower(market) == "india" {
      fetchers := Only(configured, IsYahoo) + Only(configured, IsScreener) + Only(configured, IsOther);
      IndiaOrderIsPermutation(configured);
    }
    r := FetchFirst(fetchers, fetch);
  }

  function Truthy(key: Option<string>): bool { key.Some? && key.value != "" }

  /** `DataFetcherFactory.get_all_fetchers`: Screener always, Yahoo when the
      library is installed, FMP when a key is given. */
  function AllFetchers(fmpKey: Option<string>, yahooInstalled: bool): (fs: seq<Adapter>)
    ensures fs != [] && fs[0] == Screener
    ensures Yahoo in fs <==> yahooInstalled
    ensures (exists k :: Fmp(k) in fs) <==> Truthy(fmpKey)
  {
    [Screener] + (if yahooInstalled then [Yahoo] else []) + (if Truthy(fmpKey) then [Fmp(fmpKey.value)] else [])
  }

  /** With auto-detection of an Indian identifier and every source
      available, Yahoo goes first, then Screener, then FMP. */
  lemma IndiaOrderOfAllFetchers(key: string)
    requires key != ""
    ensures IndiaOrder(AllFetchers(Some(key), true)) == [Yahoo, Screener, Fmp(key)]
  {
    var fs := AllFetchers(Some(key), true);
    assert fs == [Screener, Yahoo, Fmp(key)];
    OnlyOfThree(key);
  }

  /** Each filter picks its one adapter out of Screener, Yahoo and FMP. */
  lemma OnlyOfThree(key: string)
    ensures Only([Screener, Yahoo, Fmp(key)], IsYahoo) == [Yahoo]
    ensures Only([Screener, Yahoo, Fmp(key)], IsScreener) == [Screener]
    ensures Only([Screener, Yahoo, Fmp(key)], IsOther) == [Fmp(key)]
  {
    var fs := [Screener, Yahoo, Fmp(key)];
    OnlyStep(fs, IsYahoo);
    OnlyStep(fs[1..], IsYahoo);
    OnlyStep(fs[2..], IsYahoo);
    OnlyStep(fs, IsScreener);
    OnlyStep(fs[1..], IsScreener);
    OnlyStep(fs[2..], IsScreener);
    OnlyStep(fs, IsOther);
    OnlyStep(fs[1..], IsOther);
    OnlyStep(fs[2..], IsOther);
    assert fs[1..][1..] == fs[2..] && fs[2..][1..] == [];
  }

  /** One unfolding of the filter. */
  lemma OnlyStep(fs: seq<Adapter>, p: Adapter -> bool)
    requires fs != []
    ensures Only(fs, p) == (if p(fs[0]) then [fs[0]] else []) + Only(fs[1..], p)
  {
  }

  /** `DataFetcherFactory.create_fetcher`; creating the Yahoo adapter without
      its library raises. */
  function CreateFetcher(market: string, key: Option<string>, yahooInstalled: bool): (r: Result<Adapter>)
    ensures r.Ok? && r.value == Screener <==> Lower(market) == "india"
    ensures r.Ok? && r.value.Fmp? <==> Lower(market) in ["us", "global"] && Truthy(key)
    ensures r.Err? <==> Lower(market) != "india" && !(Lower(market) in ["us", "global"] && Truthy(key)) && !yahooInstalled
  {
    var m := Lower(market);
    if m == "india" then Ok(Screener)
    else if m in ["us", "global"] && Truthy(key) then Ok(Fmp(key.value))
    else if yahooInstalled then Ok(Yahoo)
    else Err("yfinance is required for Yahoo Finance fetching")
  }

  // --------------------------------------------------------------- search

  datatype Match = Match(name: string, ticker: string)

  /** Two results are the same company when these agree. */
  function SameCompanyKey(m: Match): (string, string) { (Lower(m.name), Upper(m.ticker)) }

  function KeysOf(ms: seq<Match>): set<(string, string)>
  {
    set i | 0 <= i < |ms| :: SameCompanyKey(ms[i])
  }

  /** The results in order, each kept only when no earlier kept result has
      its key. */
  function Dedup(ms: seq<Match>): (r: seq<Match>)
    ensures forall i, j :: 0 <= i < j < |r| ==> SameCompanyKey(r[i]) != SameCompanyKey(r[j])
    ensures forall i :: 0 <= i < |r| ==> r[i] in ms
    ensures forall i :: 0 <= i < |ms| ==> SameCompanyKey(ms[i]) in KeysOf(r)
    decreases |ms|
  {
    if ms == [] then []
    else
      var init := ms[..|ms| - 1];
      var m := ms[|ms| - 1];
      var p := Dedup(init);
      assert forall i :: 0 <= i < |init| ==> init[i] == ms[i];
      if SameCompanyKey(m) in KeysOf(p) then p
      else
        KeysOfAppend(p, m);
        p + [m]
  }

  lemma PrefixStep<T>(a: seq<T>, b: seq<T>, j: nat)
    requires j < |b|
    ensures a + b[..j + 1] == (a + b[..j]) + [b[j]]
  {
    assert b[..j + 1] == b[..j] + [b[j]];
  }

  lemma DedupStep(x: seq<Match>, m: Match)
    ensures Dedup(x + [m]) == if SameCompanyKey(m) in KeysOf(Dedup(x)) then Dedup(x) else Dedup(x) + [m]
  {
    assert (x + [m])[..|x|] == x;
  }

  /** One result of the inner loop: kept exactly when its key is unseen. */
  lemma UnseenStep(acc: seq<Match>, all: seq<Match>, seen: set<(string, string)>, m: Match)
    requires all == Dedup(acc) && seen == KeysOf(all)
    ensures SameCompanyKey(m) !in seen ==> Dedup(acc + [m]) == all + [m] && KeysOf(all + [m]) == seen + {SameCompanyKey(m)}
    ensures SameCompanyKey(m) in seen ==> Dedup(acc + [m]) == all
  {
    DedupStep(acc, m);
    KeysOfAppend(all, m);
  }

  lemma KeysOfAppend(p: seq<Match>, m: Match)
    ensures KeysOf(p + [m]) == KeysOf(p) + {SameCompanyKey(m)}
  {
    var q := p + [m];
    forall x | x in KeysOf(q)
      ensures x in KeysOf(p) + {SameCompanyKey(m)}
    {
      var i :| 0 <= i < |q| && SameCompanyKey(q[i]) == x;
      if i < |p| {
        assert q[i] == p[i];
      }
    }
    forall x | x in KeysOf(p)
      ensures x in KeysOf(q)
    {
      var i :| 0 <= i < |p| && SameCompanyKey(p[i]) == x;
      assert q[i] == p[i];
    }
    assert SameCompanyKey(q[|p|]) in KeysOf(q);
  }

  /** A kept result is the first of the input with its key. */
  lemma {:induction false} DedupKeepsFirstSeen(ms: seq<Match>, k: nat)
    requires k < |Dedup(ms)|
    ensures exists i :: 0 <= i < |ms| && ms[i] == Dedup(ms)[k]
              && forall j :: 0 <= j < i ==> SameCompanyKey(ms[j]) != SameCompanyKey(ms[i])
    decreases |ms|
  {
    var init := ms[..|ms| - 1];
    var m := ms[|ms| - 1];
    var p := Dedup(init);
    assert forall i :: 0 <= i < |init| ==> init[i] == ms[i];
    if k < |p| {
      DedupKeepsFirstSeen(init, k);
    } else {
      assert Dedup(ms) == p + [m] && Dedup(ms)[k] == m;
      forall j | 0 <= j < |ms| - 1
        ensures SameCompanyKey(ms[j]) != SameCompanyKey(m)
      {
        assert SameCompanyKey(init[j]) in KeysOf(p);
      }
    }
  }

  function Flatten(rss: seq<seq<Match>>): seq<Match>
  {
    if rss == [] then [] else Flatten(rss[..|rss| - 1]) + rss[|rss| - 1]
  }

  /** What each adapter's search answered, skipping the ones that raised. */
  function Answers(fs: seq<Adapter>, search: Adapter -> Option<seq<Match>>): (rss: seq<seq<Match>>)
    ensures |rss| <= |fs|
  {
    if fs == [] then []
    else
      var init := Answers(fs[..|fs| - 1], search);
      match search(fs[|fs| - 1])
      case None => init
      case Some(rs) => init + [rs]
  }

  /** `MultiSourceFetcher.search_company` */
  method SearchAll(fs: seq<Adapter>, search: Adapter -> Option<seq<Match>>) returns (all: seq<Match>)
    ensures all == Dedup(Flatten(Answers(fs, search)))
  {
    all := [];
    var seen: set<(string, string)> := {};
    for i := 0 to |fs|
      invariant all == Dedup(Flatten(Answers(fs[..i], search)))
      invariant seen == KeysOf(all)
    {
      assert fs[..i + 1][..i] == fs[..i];
      ghost var before := Flatten(Answers(fs[..i], search));
      var answer := search(fs[i]);
      if answer.Some? {
        assert Answers(fs[..i + 1], search) == Answers(fs[..i], search) + [answer.value];
        all, seen := AddUnseen(before, all, seen, answer.value);
      }
    }
    assert fs[..|fs|] == fs;
  }

  /** The inner loop of the search: appends each result whose key is not yet
      seen. */
  method AddUnseen(ghost before: seq<Match>, all: seq<Match>, seen: set<(string, string)>, rs: seq<Match>)
    returns (all': seq<Match>, seen': set<(string, string)>)
    requires all == Dedup(before) && seen == KeysOf(all)
    ensures all' == Dedup(before + rs) && seen' == KeysOf(all')
  {
    all', seen' := all, seen;
    assert before + rs[..0] == before;
    for j := 0 to |rs|
      invariant all' == Dedup(before + rs[..j])
      invariant seen' == KeysOf(all')
    {
      all', seen' := KeepIfUnseen(before, rs, j, all', seen');
    }
    assert rs[..|rs|] == rs;
  }

  /** One step of the inner loop: result `j` is appended, and its key marked
      seen, when the key is not seen yet. */
  method KeepIfUnseen(ghost before: seq<Match>, rs: seq<Match>, j: nat, all: seq<Match>, seen: set<(string, string)>)
    returns (all': seq<Match>, seen': set<(string, string)>)
    requires j < |rs| && all == Dedup(before + rs[..j]) && seen == KeysOf(all)
    ensures all' == Dedup(before + rs[..j + 1]) && seen' == KeysOf(all')
  {
    var r := rs[j];
    PrefixStep(before, rs, j);
    UnseenStep(before + rs[..j], all, seen, r);
    all', seen' := all, seen;
    var key := SameCompanyKey(r);
    if key !in seen {
      seen' := seen + {key};
      all' := all + [r];
    }
  }

  // ------------------------------------------------------ Screener pages

  /** The company identifier of a Screener result URL such as
      `/company/TCS/consolidated/`, upper-cased; "" when the URL has another
      shape. */
  function ScreenerTicker(url: string): (t: string)
    ensures forall i :: 0 <= i < |t| ==> !IsLowerChar(t[i]) && t[i] != '/'
    ensures var parts := SplitNonEmpty(url, '/'); (|parts| >= 2 && parts[0] == "company") <==> t != ""
  {
    var parts := SplitNonEmpty(url, '/');
    if |parts| >= 2 && parts[0] == "company" then Upper(parts[1]) else ""
  }

  predicate KeptTicker(t: string) { t != "" && t != "CONSOLIDATED" && t != "STANDALONE" }

  /** The matches a list of (name, url) search items yields, in order. */
  function ScreenerMatches(items: seq<(string, string)>): (ms: seq<Match>)
    ensures |ms| <= |items|
    ensures forall k :: 0 <= k < |ms| ==> KeptTicker(ms[k].ticker)
    ensures forall k :: 0 <= k < |ms| ==> exists i :: 0 <= i < |items| && ms[k] == Match(items[i].0, ScreenerTicker(items[i].1))
    decreases |items|
  {
    if items == [] then []
    else
      var init := items[..|items| - 1];
      var p := ScreenerMatches(init);
      assert forall i :: 0 <= i < |init| ==> init[i] == items[i];
      var item := items[|items| - 1];
      var t := ScreenerTicker(item.1);
      if KeptTicker(t) then p + [Match(item.0, t)] else p
  }

  /** The result parsing of `ScreenerInFetcher.search_company`: the first ten
      items, each kept when its URL names a company. */
  method ParseScreenerSearch(items: seq<(string, string)>) returns (ms: seq<Match>)
    ensures ms == ScreenerMatches(Take(items, 10))
    ensures |ms| <= 10
  {
    var first := Take(items, 10);
    ms := [];
    for i := 0 to |first|
      invariant ms == ScreenerMatches(first[..i])
    {
      ms := ParseScreenerItem(first, i, ms);
    }
    assert first[..|first|] == first;
  }

  /** One item of the parsing loop: its match is appended when its URL names
      a company. */
  method ParseScreenerItem(items: seq<(string, string)>, i: nat, ms: seq<Match>) returns (ms': seq<Match>)
    requires i < |items| && ms == ScreenerMatches(items[..i])
    ensures ms' == ScreenerMatches(items[..i + 1])
  {
    assert items[..i + 1][..i] == items[..i];
    var name := items[i].0;
    var parts := SplitNonEmpty(items[i].1, '/');
    var ticker := "";
    if |parts| >= 2 && parts[0] == "company" {
      ticker := Upper(parts[1]);
    }
    assert ticker == ScreenerTicker(items[i].1);
    ms' := ms;
    if ticker != "" && ticker != "CONSOLIDATED" && ticker != "STANDALONE" {
      ms' := ms + [Match(name, ticker)];
    }
  }

  /** A results table as the page holds it: the header cells (first one
      included) and the body rows of cells, each part possibly missing. */
  datatype HtmlTable = HtmlTable(header: Option<seq<string>>, body: Option<seq<seq<string>>>)

  /** `lst[-n:]` for any integer `n`: with `n > 0` the last `n` items (or
      all), with `n == 0` all of them, with `n < 0` all but the first `-n`. */
  function LastN<T>(s: seq<T>, n: int): (r: seq<T>)
    ensures n > 0 ==> |r| <= n && |r| <= |s| && r == s[|s| - |r|..] && (|s| >= n ==> |r| == n) && (|s| < n ==> r == s)
    ensures n == 0 ==> r == s
  {
    if n > 0 then (if n >= |s| then s else s[|s| - n..])
    else if n == 0 then s
    else if -n >= |s| then [] else s[-n..]
  }

  /** `lst[1:]` */
  function AfterFirst<T>(s: seq<T>): (r: seq<T>)
    ensures |r| == if s == [] then 0 else |s| - 1
  {
    if s == [] then [] else s[1..]
  }

  function StripAll(cells: seq<string>): (r: seq<string>)
    ensures |r| == |cells| && forall i :: 0 <= i < |cells| ==> r[i] == Strip(cells[i])
  {
    seq(|cells|, i requires 0 <= i < |cells| => Strip(cells[i]))
  }

  predicate NoSeparators(s: string) { forall i :: 0 <= i < |s| ==> s[i] != ',' && s[i] != '%' }

  lemma StripKeepsNoSeparators(x: string)
    requires NoSeparators(x)
    ensures NoSeparators(Strip(x))
  {
    var p := (c: char) => c != ',' && c != '%';
    assert forall i :: 0 <= i < |x| ==> p(x[i]);
    StripKeepsChars(x, p);
  }

  lemma {:induction false} ReplaceKeepsNoSeparators(x: string, pat: string)
    requires |pat| > 0 && NoSeparators(x)
    ensures NoSeparators(Replace(x, pat, ""))
    decreases |x|
  {
    if |x| >= |pat| {
      if x[..|pat|] == pat {
        ReplaceKeepsNoSeparators(x[|pat|..], pat);
      } else {
        ReplaceKeepsNoSeparators(x[1..], pat);
      }
    }
  }

  /** A cell's text with thousands separators and percent signs removed. */
  function Cleaned(v: string): (c: string)
    ensures NoSeparators(c)
  {
    var a := Replace(v, ",", "");
    ReplaceCharGone(v, ',');
    var b := Replace(a, "%", "");
    ReplaceCharGone(a, '%');
    assert NoSeparators(b);
    StripKeepsNoSeparators(b);
    Strip(b)
  }

  /** The number a table cell holds; None for an empty cell, a dash, or
      text `parse` (Python's `float`) rejects. */
  function CellValue(v: string, parse: string -> Option<real>): Option<real>
  {
    var c := Cleaned(v);
    if c != "" && c != "-" then parse(c) else None
  }

  /** The numbers of a row's cells. */
  function CellValues(values: seq<string>, parse: string -> Option<real>): (cells: seq<Option<real>>)
    ensures |cells| == |values| && forall i :: 0 <= i < |values| ==> cells[i] == CellValue(values[i], parse)
  {
    seq(|values|, i requires 0 <= i < |values| => CellValue(values[i], parse))
  }

  /** The entries the header labels receive from one row's cell numbers,
      label by label; a repeated label keeps its last value. */
  function RowData(labels: seq<string>, cells: seq<Option<real>>): Series
    decreases |labels|
  {
    if labels == [] then []
    else
      var i := |labels| - 1;
      var acc := RowData(labels[..i], cells);
      if i < |cells| && cells[i].Some? then Set(acc, labels[i], cells[i].value) else acc
  }

  /** A row gives no more entries than there are labels. */
  lemma {:induction false} RowDataSize(labels: seq<string>, cells: seq<Option<real>>)
    ensures |RowData(labels, cells)| <= |labels|
    decreases |labels|
  {
    if labels != [] {
      RowDataSize(labels[..|labels| - 1], cells);
    }
  }

  /** Every key of a row's data is a label. */
  lemma {:induction false} RowDataKeys(labels: seq<string>, cells: seq<Option<real>>)
    ensures forall k :: HasKey(RowData(labels, cells), k) ==> k in labels
    decreases |labels|
  {
    if labels != [] {
      var i := |labels| - 1;
      RowDataKeys(labels[..i], cells);
      assert forall k :: k in labels[..i] ==> k in labels;
    }
  }

  predicate DistinctLabels(labels: seq<string>) { forall i, j :: 0 <= i < j < |labels| ==> labels[i] != labels[j] }

  /** What the last label adds to a row's data, for one key. */
  lemma RowDataLast(labels: seq<string>, cells: seq<Option<real>>, k: string)
    requires labels != []
    ensures var i := |labels| - 1;
            var acc := RowData(labels[..i], cells);
            var d := RowData(labels, cells);
            && (HasKey(d, k) <==> HasKey(acc, k) || (k == labels[i] && i < |cells| && cells[i].Some?))
            && (k != labels[i] && HasKey(acc, k) ==> Get(d, k) == Get(acc, k))
            && (k == labels[i] && i < |cells| && cells[i].Some? ==> Get(d, k) == cells[i].value)
  {
  }

  /** With distinct labels, a label's entry is exactly its cell's number: a
      missing, empty, dash or unparsable cell leaves the label out rather than
      giving it 0. */
  lemma {:induction false} RowDataCell(labels: seq<string>, cells: seq<Option<real>>, j: nat)
    requires DistinctLabels(labels) && j < |labels|
    ensures HasKey(RowData(labels, cells), labels[j]) <==> j < |cells| && cells[j].Some?
    ensures HasKey(RowData(labels, cells), labels[j]) ==> Get(RowData(labels, cells), labels[j]) == cells[j].value
    decreases |labels|
  {
    var i := |labels| - 1;
    var init := labels[..i];
    RowDataLast(labels, cells, labels[j]);
    if j < i {
      assert DistinctLabels(init);
      assert init[j] == labels[j] != labels[i];
      RowDataCell(init, cells, j);
    } else {
      RowDataKeys(init, cells);
      assert labels[j] !in init by {
        assert forall k :: 0 <= k < i ==> init[k] == labels[k] != labels[j];
      }
    }
  }

  /** An empty or dash cell has no number. */
  lemma BlankCellHasNoValue(v: string, parse: string -> Option<real>)
    requires Cleaned(v) == "" || Cleaned(v) == "-"
    ensures CellValue(v, parse) == None
  {
  }

  /** Does a body row carry the metric (its first cell, stripped and
      lower-cased, contains the lower-cased metric name)? */
  predicate RowMatches(row: seq<string>, metric: string)
  {
    row != [] && Contains(Lower(Strip(row[0])), Lower(metric))
  }

  /** The row test for one metric. */
  function RowTest(metric: string): seq<string> -> bool
  {
    row => RowMatches(row, metric)
  }

  /** The position of the first body row carrying the metric. */
  function FirstRow(rows: seq<seq<string>>, metric: string): (r: Option<nat>)
    ensures r.Some? ==> r.value < |rows|
  {
    FirstWhere(rows, RowTest(metric))
  }

  /** The position of the first item passing `p`. */
  function FirstWhere<T>(xs: seq<T>, p: T -> bool): (r: Option<nat>)
    ensures r.Some? ==> r.value < |xs|
  {
    if xs == [] then None
    else if p(xs[0]) then Some(0)
    else
      var t := FirstWhere(xs[1..], p);
      if t.Some? then Some(t.value + 1) else None
  }

  /** The item found passes `p` and no earlier one does; when none is
      found, no item passes. */
  lemma {:induction false} FirstWhereSpec<T>(xs: seq<T>, p: T -> bool)
    ensures FirstWhere(xs, p).Some? ==>
              p(xs[FirstWhere(xs, p).value]) && forall j :: 0 <= j < FirstWhere(xs, p).value ==> !p(xs[j])
    ensures FirstWhere(xs, p).None? ==> forall j :: 0 <= j < |xs| ==> !p(xs[j])
  {
    if xs != [] && !p(xs[0]) {
      FirstWhereSpec(xs[1..], p);
      assert forall j :: 1 <= j < |xs| ==> xs[j] == xs[1..][j - 1];
    }
  }

  /** When no item before `k` passes `p`, the search answers `k` if item `k`
      passes and nothing if `k` is past the end. */
  lemma {:induction false} FirstWhereAt<T>(xs: seq<T>, p: T -> bool, k: nat)
    requires k <= |xs| && forall j :: 0 <= j < k ==> !p(xs[j])
    ensures k < |xs| && p(xs[k]) ==> FirstWhere(xs, p) == Some(k)
    ensures k == |xs| ==> FirstWhere(xs, p) == None
  {
    if xs != [] && k > 0 {
      assert !p(xs[0]);
      forall j | 0 <= j < k - 1
        ensures !p(xs[1..][j])
      {
        assert xs[1..][j] == xs[j + 1];
      }
      FirstWhereAt(xs[1..], p, k - 1);
    }
  }

  /** The row found carries the metric and no earlier row does; when none
      is found, no row carries it. */
  lemma FirstRowSpec(rows: seq<seq<string>>, metric: string)
    ensures FirstRow(rows, metric).Some? ==>
              RowMatches(rows[FirstRow(rows, metric).value], metric)
              && forall j :: 0 <= j < FirstRow(rows, metric).value ==> !RowMatches(rows[j], metric)
    ensures FirstRow(rows, metric).None? ==> forall j :: 0 <= j < |rows| ==> !RowMatches(rows[j], metric)
  {
    FirstWhereSpec(rows, RowTest(metric));
  }

  /** The year labels of a table: the header cells after the first,
      stripped, of which the last `years`. */
  function YearLabels(header: seq<string>, years: int): seq<string>
  {
    LastN(StripAll(AfterFirst(header)), years)
  }

  /** What `_extract_table_data` returns for a table (None: no such section
      or no table in it). */
  function TableData(table: Option<HtmlTable>, metric: string, years: int, parse: string -> Option<real>): Series
  {
    match table
    case None => []
    case Some(t) =>
      if t.header.None? || t.body.None? then []
      else
        var labels := YearLabels(t.header.value, years);
        var rows := t.body.value;
        match FirstRow(rows, metric)
        case None => []
        case Some(i) => RowData(labels, CellValues(LastN(StripAll(AfterFirst(rows[i])), years), parse))
  }

  /** `ScreenerInFetcher._extract_table_data` */
  method ExtractTableData(table: Option<HtmlTable>, metric: string, years: int, parse: string -> Option<real>)
    returns (data: Series)
    ensures data == TableData(table, metric, years, parse)
  {
    data := [];
    if table.None? || table.value.header.None? {
      return;
    }
    var labels := YearLabels(table.value.header.value, years);
    if table.value.body.None? {
      return;
    }
    var rows := table.value.body.value;
    var found := FindRow(rows, metric);
    if found.None? {
      return;
    }
    var values := LastN(StripAll(AfterFirst(rows[found.value])), years);
    data := FillRow(labels, values, parse);
  }

  /** The first body row carrying the metric. */
  method FindRow(rows: seq<seq<string>>, metric: string) returns (found: Option<nat>)
    ensures found == FirstRow(rows, metric)
  {
    var carries := RowTest(metric);
    var k := 0;
    while k < |rows|
      invariant 0 <= k <= |rows|
      invariant forall j :: 0 <= j < k ==> !carries(rows[j])
    {
      if carries(rows[k]) {
        FirstWhereAt(rows, carries, k);
        return Some(k);
      }
      k := k + 1;
    }
    FirstWhereAt(rows, carries, |rows|);
    return None;
  }

  /** The loop over the year labels that records each cell's number. */
  method FillRow(labels: seq<string>, values: seq<string>, parse: string -> Option<real>) returns (data: Series)
    ensures data == RowData(labels, CellValues(values, parse))
  {
    ghost var cells := CellValues(values, parse);
    data := [];
    for i := 0 to |labels|
      invariant data == RowData(labels[..i], cells)
    {
      assert labels[..i + 1][..i] == labels[..i];
      if i < |values| {
        var val := Cleaned(values[i]);
        if val != "" && val != "-" {
          var f := parse(val);
          if f.Some? {
            data := Set(data, labels[i], f.value);
          }
        }
      }
    }
    assert labels[..|labels|] == labels;
  }

  /** The table data holds only year labels, at most `years` of them when
      `years` is positive. */
  lemma TableDataBounds(table: Option<HtmlTable>, metric: string, years: int, parse: string -> Option<real>)
    requires table.Some? && table.value.header.Some?
    ensures forall k :: HasKey(TableData(table, metric, years, parse), k) ==> k in YearLabels(table.value.header.value, years)
    ensures years > 0 ==> |TableData(table, metric, years, parse)| <= years
  {
    var t := table.value;
    var labels := YearLabels(t.header.value, years);
    if t.body.Some? {
      match FirstRow(t.body.value, metric)
      case None =>
      case Some(i) =>
        RowDataKeys(labels, CellValues(LastN(StripAll(AfterFirst(t.body.value[i])), years), parse));
        RowDataSize(labels, CellValues(LastN(StripAll(AfterFirst(t.body.value[i])), years), parse));
    }
  }

  /** An empty table section, or a table without header or body, gives no
      data. */
  lemma MissingTableGivesNothing(table: Option<HtmlTable>, metric: string, years: int, parse: string -> Option<real>)
    requires table.None? || table.value.header.None? || table.value.body.None?
    ensures TableData(table, metric, years, parse) == []
  {
  }

  /** With `years == 0` the slice `[-0:]` keeps every column. */
  lemma ZeroYearsKeepsAllColumns(header: seq<string>)
    ensures YearLabels(header, 0) == StripAll(AfterFirst(header))
  {
  }

  /** The text handed to `float` by `_parse_value`. */
  function ParsedText(s: string): (r: string)
    ensures NoSeparators(r)
  {
    var c := Cleaned(s);
    if Contains(c, "Cr") then
      ReplaceKeepsNoSeparators(c, "Cr");
      StripKeepsNoSeparators(Replace(c, "Cr", ""));
      Strip(Replace(c, "Cr", ""))
    else c
  }

  /** `ScreenerInFetcher._parse_value`: a number, 0.0 when unparsable. */
  function ParseValue(s: string, parse: string -> Option<real>): real
  {
    match parse(ParsedText(s))
    case Some(v) => v
    case None => 0.0
  }

  /** A plain number (no separator, percent sign, unit or outer blanks)
      reaches `float` unchanged, and an unparsable one reads as 0. */
  lemma PlainValueParsesAsItself(s: string, parse: string -> Option<real>)
    requires ',' !in s && '%' !in s && !Contains(s, "Cr")
    requires s == [] || (!IsSpaceChar(s[0]) && !IsSpaceChar(s[|s| - 1]))
    ensures ParsedText(s) == s
    ensures ParseValue(s, parse) == if parse(s).Some? then parse(s).value else 0.0
  {
    ReplaceAbsent(s, ",");
    ReplaceAbsent(s, "%");
  }

  // ------------------------------------------------------- Yahoo ratios

  /** `num[y] / den[y] * scale` when both exist and the denominator is not
      zero. */
  function RatioAt(num: Series, den: Series, scale: real, y: string): Option<real>
  {
    if HasKey(num, y) && HasKey(den, y) && Get(den, y) != 0.0 then Some(Scaled(Get(num, y), Get(den, y), scale)) else None
  }

  /** `num / den * scale`. */
  function Scaled(num: real, den: real, scale: real): real
    requires den != 0.0
  {
    num / den * scale
  }

  function Ratio(num: Series, den: Series, scale: real): string -> Option<real>
  {
    y => RatioAt(num, den, scale, y)
  }

  /** The record after `YahooFinanceFetcher._calculate_ratios`. */
  function YahooRatios(d: FinancialData): FinancialData
  {
    var ys := Keys(d.revenue);
    d.(roe := FillWith(d.roe, ys, Ratio(d.net_income, d.shareholders_equity, 100.0)),
       roa := FillWith(d.roa, ys, Ratio(d.net_income, d.total_assets, 100.0)),
       debt_to_equity := FillWith(d.debt_to_equity, ys, Ratio(d.total_debt, d.shareholders_equity, 1.0)),
       operating_margin := FillWith(d.operating_margin, ys, Ratio(d.operating_income, d.revenue, 100.0)),
       net_margin := FillWith(d.net_margin, ys, Ratio(d.net_income, d.revenue, 100.0)))
  }

  /** `YahooFinanceFetcher._calculate_ratios`, one pass over the revenue
      years; the new record is returned. */
  method YahooCalculateRatios(d: FinancialData) returns (r: FinancialData)
    ensures r == YahooRatios(d)
  {
    var ys := Keys(d.revenue);
    var roe, roa, de, om, nm := d.roe, d.roa, d.debt_to_equity, d.operating_margin, d.net_margin;
    for i := 0 to |ys|
      invariant roe == FillWith(d.roe, ys[..i], Ratio(d.net_income, d.shareholders_equity, 100.0))
      invariant roa == FillWith(d.roa, ys[..i], Ratio(d.net_income, d.total_assets, 100.0))
      invariant de == FillWith(d.debt_to_equity, ys[..i], Ratio(d.total_debt, d.shareholders_equity, 1.0))
      invariant om == FillWith(d.operating_margin, ys[..i], Ratio(d.operating_income, d.revenue, 100.0))
      invariant nm == FillWith(d.net_margin, ys[..i], Ratio(d.net_income, d.revenue, 100.0))
    {
      roe := RatioStep(roe, d.roe, ys, i, d.net_income, d.shareholders_equity, 100.0);
      roa := RatioStep(roa, d.roa, ys, i, d.net_income, d.total_assets, 100.0);
      de := RatioStep(de, d.debt_to_equity, ys, i, d.total_debt, d.shareholders_equity, 1.0);
      om := RatioStep(om, d.operating_margin, ys, i, d.operating_income, d.revenue, 100.0);
      nm := RatioStep(nm, d.net_margin, ys, i, d.net_income, d.revenue, 100.0);
    }
    assert ys[..|ys|] == ys;
    r := d.(roe := roe, roa := roa, debt_to_equity := de, operating_margin := om, net_margin := nm);
  }

  /** One year of one ratio: `acc[y] = num[y] / den[y] * scale` when both
      operands exist and the denominator is not zero. */
  method RatioStep(acc: Series, ghost base: Series, ys: seq<string>, i: nat, num: Series, den: Series, scale: real)
    returns (acc': Series)
    requires i < |ys| && acc == FillWith(base, ys[..i], Ratio(num, den, scale))
    ensures acc' == FillWith(base, ys[..i + 1], Ratio(num, den, scale))
  {
    var year := ys[i];
    ghost var f := Ratio(num, den, scale);
    assert f(year) == RatioAt(num, den, scale, year);
    FillWithStep(base, ys, i, f);
    acc' := acc;
    if HasKey(num, year) && HasKey(den, year) && Get(den, year) != 0.0 {
      acc' := Set(acc, year, Scaled(Get(num, year), Get(den, year), scale));
    } else {
      assert f(year).None?;
    }
  }

  /** A ratio series after the pass: a year gains (or changes) its entry
      exactly when it is a listed year with both operands and a non-zero
      denominator; every other entry is kept. */
  lemma RatioFill(base: Series, ys: seq<string>, num: Series, den: Series, scale: real, k: string)
    ensures HasKey(FillWith(base, ys, Ratio(num, den, scale)), k) <==>
              HasKey(base, k) || (k in ys && HasKey(num, k) && HasKey(den, k) && Get(den, k) != 0.0)
    ensures k in ys && HasKey(num, k) && HasKey(den, k) && Get(den, k) != 0.0 ==>
              Get(FillWith(base, ys, Ratio(num, den, scale)), k) == Scaled(Get(num, k), Get(den, k), scale)
    ensures !(k in ys && HasKey(num, k) && HasKey(den, k) && Get(den, k) != 0.0) && HasKey(base, k) ==>
              Get(FillWith(base, ys, Ratio(num, den, scale)), k) == Get(base, k)
  {
    assert Ratio(num, den, scale)(k) == RatioAt(num, den, scale, k);
    FillWithSpec(base, ys, Ratio(num, den, scale), k);
  }

  /** Return on equity is net income over equity in percent, and the
      input series are untouched. */
  lemma YahooReturnOnEquity(d: FinancialData, k: string)
    requires HasKey(d.revenue, k) && HasKey(d.net_income, k) && HasKey(d.shareholders_equity, k) && Get(d.shareholders_equity, k) != 0.0
    ensures HasKey(YahooRatios(d).roe, k) && Get(YahooRatios(d).roe, k) == Get(d.net_income, k) / Get(d.shareholders_equity, k) * 100.0
    ensures YahooRatios(d).revenue == d.revenue && YahooRatios(d).net_income == d.net_income
    ensures YahooRatios(d).shareholders_equity == d.shareholders_equity && YahooRatios(d).total_debt == d.total_debt
  {
    RatioFill(d.roe, Keys(d.revenue), d.net_income, d.shareholders_equity, 100.0, k);
  }

  /** Debt to equity is the unscaled quotient. */
  lemma YahooDebtToEquity(d: FinancialData, k: string)
    requires HasKey(d.revenue, k) && HasKey(d.total_debt, k) && HasKey(d.shareholders_equity, k) && Get(d.shareholders_equity, k) != 0.0
    ensures HasKey(YahooRatios(d).debt_to_equity, k)
    ensures Get(YahooRatios(d).debt_to_equity, k) == Get(d.total_debt, k) / Get(d.shareholders_equity, k)
  {
    RatioFill(d.debt_to_equity, Keys(d.revenue), d.total_debt, d.shareholders_equity, 1.0, k);
  }

  /** The net margin is net income over revenue in percent; a zero revenue
      year gains none. */
  lemma YahooNetMargin(d: FinancialData, k: string)
    requires HasKey(d.revenue, k) && HasKey(d.net_income, k)
    ensures Get(d.revenue, k) != 0.0 ==> HasKey(YahooRatios(d).net_margin, k)
    ensures Get(d.revenue, k) != 0.0 ==> Get(YahooRatios(d).net_margin, k) == Get(d.net_income, k) / Get(d.revenue, k) * 100.0
    ensures Get(d.revenue, k) == 0.0 ==> (HasKey(YahooRatios(d).net_margin, k) <==> HasKey(d.net_margin, k))
  {
    RatioFill(d.net_margin, Keys(d.revenue), d.net_income, d.revenue, 100.0, k);
  }

  /** A year outside the revenue series gains no new ratio. */
  lemma YahooRatiosOnlyRevenueYears(d: FinancialData, k: string)
    requires !HasKey(d.revenue, k)
    ensures HasKey(YahooRatios(d).roe, k) <==> HasKey(d.roe, k)
    ensures HasKey(YahooRatios(d).roa, k) <==> HasKey(d.roa, k)
    ensures HasKey(YahooRatios(d).debt_to_equity, k) <==> HasKey(d.debt_to_equity, k)
    ensures HasKey(YahooRatios(d).operating_margin, k) <==> HasKey(d.operating_margin, k)
    ensures HasKey(YahooRatios(d).net_margin, k) <==> HasKey(d.net_margin, k)
  {
    var ys := Keys(d.revenue);
    RatioFill(d.roe, ys, d.net_income, d.shareholders_equity, 100.0, k);
    RatioFill(d.roa, ys, d.net_income, d.total_assets, 100.0, k);
    RatioFill(d.debt_to_equity, ys, d.total_debt, d.shareholders_equity, 1.0, k);
    RatioFill(d.operating_margin, ys, d.operating_income, d.revenue, 100.0, k);
    RatioFill(d.net_margin, ys, d.net_income, d.revenue, 100.0, k);
  }

  // --------------------------------------------------- name validation

  /** What `validate_company_name` returns. */
  datatype Validation = Validation(valid: bool, matches: seq<Match>, best_match: Option<Match>, error: Option<string>)

  /** Valid exactly when there is no error; a valid answer has matches and
      its first as best match, an invalid one neither. */
  predicate WellFormed(r: Validation)
  {
    (r.valid <==> r.error.None?)
    && (r.valid ==> r.matches != [] && r.best_match == Some(r.matches[0]))
    && (!r.valid ==> r.matches == [] && r.best_match.None?)
  }

  function Invalid(msg: string): (r: Validation)
    ensures WellFormed(r) && !r.valid && r.error == Some(msg)
  {
    Validation(false, [], None, Some(msg))
  }

  function Accepted(ms: seq<Match>): (r: Validation)
    requires ms != []
    ensures WellFormed(r) && r.valid && r.matches == ms
  {
    Validation(true, ms, Some(ms[0]), None)
  }

  /** Short, upper-case and alphanumeric once dots and dashes are removed. */
  predicate LooksLikeTicker(q: string)
  {
    |q| <= 10 && IsAlnum(Replace(Replace(q, ".", ""), "-", "")) && IsUpperStr(q)
  }

  /** The query without its exchange suffixes. */
  function BareTicker(q: string): string { Replace(Replace(q, ".NS", ""), ".BO", "") }

  /** The query, then its NSE symbol for a known unsuffixed Indian ticker. */
  function QueryVariants(q: string): (vs: seq<string>)
    ensures 1 <= |vs| <= 2 && vs[0] == q
    ensures |vs| == 2 ==> LooksLikeTicker(q) && !HasExchangeSuffix(q) && vs[1] == BareTicker(q) + ".NS"
  {
    if LooksLikeTicker(q) && BareTicker(q) in IndianTickers() && !HasExchangeSuffix(q) then [q, BareTicker(q) + ".NS"]
    else [q]
  }

  /** Some match's upper-cased name is neither the query as typed, nor the
      variant searched, nor the bare query: a real company name rather than
      an echo of the input. */
  predicate NamesACompany(ms: seq<Match>, q: string, v: string)
  {
    exists i :: 0 <= i < |ms| && Upper(ms[i].name) != q && Upper(ms[i].name) != v && Upper(ms[i].name) != BareTicker(q)
  }

  /** The first variant whose search answer is accepted, with that answer. */
  function FirstAccepted(vs: seq<string>, q: string, search: string -> seq<Match>): (r: Option<seq<Match>>)
    ensures r.Some? <==> exists k :: 0 <= k < |vs| && search(vs[k]) != [] && NamesACompany(search(vs[k]), q, vs[k])
    ensures r.Some? ==> r.value != [] && exists k :: 0 <= k < |vs| && r.value == search(vs[k]) && NamesACompany(r.value, q, vs[k])
  {
    if vs == [] then None
    else if search(vs[0]) != [] && NamesACompany(search(vs[0]), q, vs[0]) then Some(search(vs[0]))
    else
      assert forall k :: 1 <= k < |vs| ==> vs[k] == vs[1..][k - 1];
      FirstAccepted(vs[1..], q, search)
  }

  /** The direct FMP profile lookup; `profile(v)` is the company name of a
      successful non-empty answer for symbol `v`. */
  function FirstProfile(vs: seq<string>, q: string, profile: string -> Option<string>): (r: Option<Match>)
    ensures r.Some? ==> r.value.name != "" && Upper(r.value.name) != q
  {
    if vs == [] then None
    else
      var v := vs[0];
      var p := profile(v);
      if p.Some? && p.value != "" && Upper(p.value) != q && Upper(p.value) != BareTicker(v) then
        Some(Match(p.value, if '.' in v then v else Upper(q)))
      else FirstProfile(vs[1..], q, profile)
  }

  /** The static table of major Indian companies. */
  function IndianStockNames(): map<string, string>
  {
    map["RELIANCE" := "Reliance Industries Limited",
        "TCS" := "Tata Consultancy Services Limited",
        "INFY" := "Infosys Limited",
        "HDFCBANK" := "HDFC Bank Limited",
        "ICICIBANK" := "ICICI Bank Limited",
        "HINDUNILVR" := "Hindustan Unilever Limited",
        "SBIN" := "State Bank of India",
        "BHARTIARTL" := "Bharti Airtel Limited",
        "ITC" := "ITC Limited",
        "KOTAKBANK" := "Kotak Mahindra Bank Limited",
        "LT" := "Larsen & Toubro Limited",
        "AXISBANK" := "Axis Bank Limited",
        "WIPRO" := "Wipro Limited",
        "ASIANPAINT" := "Asian Paints Limited",
        "MARUTI" := "Maruti Suzuki India Limited",
        "HCLTECH" := "HCL Technologies Limited",
        "SUNPHARMA" := "Sun Pharmaceutical Industries Limited",
        "TITAN" := "Titan Company Limited",
        "ULTRACEMCO" := "UltraTech Cement Limited",
        "BAJFINANCE" := "Bajaj Finance Limited",
        "NESTLEIND" := "Nestle India Limited",
        "TECHM" := "Tech Mahindra Limited",
        "POWERGRID" := "Power Grid Corporation of India Limited",
        "NTPC" := "NTPC Limited",
        "TATAMOTORS" := "Tata Motors Limited",
        "TATASTEEL" := "Tata Steel Limited",
        "JSWSTEEL" := "JSW Steel Limited",
        "ONGC" := "Oil and Natural Gas Corporation Limited",
        "COALINDIA" := "Coal India Limited",
        "ADANIENT" := "Adani Enterprises Limited",
        "ADANIPORTS" := "Adani Ports and Special Economic Zone Limited",
        "BAJAJFINSV" := "Bajaj Finserv Limited",
        "DRREDDY" := "Dr. Reddy's Laboratories Limited",
        "CIPLA" := "Cipla Limited",
        "EICHERMOT" := "Eicher Motors Limited",
        "GRASIM" := "Grasim Industries Limited",
        "DIVISLAB" := "Divi's Laboratories Limited",
        "BRITANNIA" := "Britannia Industries Limited",
        "APOLLOHOSP" := "Apollo Hospitals Enterprise Limited",
        "INDUSINDBK" := "IndusInd Bank Limited",
        "M&M" := "Mahindra & Mahindra Limited",
        "BPCL" := "Bharat Petroleum Corporation Limited",
        "HEROMOTOCO" := "Hero MotoCorp Limited",
        "HINDALCO" := "Hindalco Industries Limited",
        "TATACONSUM" := "Tata Consumer Products Limited",
        "BAJAJ-AUTO" := "Bajaj Auto Limited",
        "UPL" := "UPL Limited"]
  }

  function TickerNotFound(q: string): string
  {
    "Ticker '" + q + "' not found. Please verify the ticker symbol."
  }

  function NameNotFound(q: string): string
  {
    "No matching companies found for '" + q + "'. Please check the spelling or try entering a ticker symbol."
  }

  const EmptyNameError := "Company name or ticker cannot be empty"

  /** The last step: the static table, for ticker-shaped queries only. */
  function StaticFallback(q: string, table: map<string, string>): (r: Validation)
    ensures WellFormed(r)
    ensures r.valid <==> LooksLikeTicker(q) && BareTicker(q) in table
  {
    var base := BareTicker(q);
    if LooksLikeTicker(q) && base in table then
      Accepted([Match(table[base], if !HasExchangeSuffix(q) then base + ".NS" else q)])
    else if LooksLikeTicker(q) then Invalid(TickerNotFound(q))
    else Invalid(NameNotFound(q))
  }

  /** A table hit names the listed company, under the NSE symbol unless the
      query already carried an exchange suffix. */
  lemma StaticHit(q: string, table: map<string, string>)
    requires LooksLikeTicker(q) && BareTicker(q) in table
    ensures StaticFallback(q, table).matches
         == [Match(table[BareTicker(q)], if HasExchangeSuffix(q) then q else BareTicker(q) + ".NS")]
  {
  }

  /** A miss reports a ticker that was not found for a ticker-shaped query,
      and a name that was not found otherwise. */
  lemma StaticMiss(q: string, table: map<string, string>)
    requires !(LooksLikeTicker(q) && BareTicker(q) in table)
    ensures StaticFallback(q, table).error == Some(if LooksLikeTicker(q) then TickerNotFound(q) else NameNotFound(q))
  {
  }

  /** The answers of the online steps, in order: FMP search, Yahoo search,
      then the direct FMP profile for ticker-shaped queries. */
  function OnlineAnswer(q: string, fmpKey: Option<string>, yahooInstalled: bool,
                        fmpSearch: string -> seq<Match>, yahooSearch: string -> seq<Match>,
                        profile: string -> Option<string>): (r: Option<seq<Match>>)
    ensures r.Some? ==> r.value != []
    ensures !Truthy(fmpKey) && !yahooInstalled ==> r.None?
  {
    var vs := QueryVariants(q);
    var fmp := if Truthy(fmpKey) then FirstAccepted(vs, q, fmpSearch) else None;
    if fmp.Some? then fmp
    else
      var yahoo := if yahooInstalled then FirstAccepted(vs, q, yahooSearch) else None;
      if yahoo.Some? then yahoo
      else
        var direct := if LooksLikeTicker(q) && Truthy(fmpKey) then FirstProfile(vs, q, profile) else None;
        if direct.Some? then Some([direct.value]) else None
  }

  /** `validate_company_name`; the static table (`IndianStockNames()` in
      the source) is the last resort. */
  function Validate(name: string, fmpKey: Option<string>, yahooInstalled: bool,
                    fmpSearch: string -> seq<Match>, yahooSearch: string -> seq<Match>,
                    profile: string -> Option<string>, table: map<string, string>): (r: Validation)
    ensures WellFormed(r)
    ensures Strip(name) == "" ==> r == Invalid(EmptyNameError)
  {
    if Strip(name) == "" then Invalid(EmptyNameError)
    else
      var q := Strip(name);
      match OnlineAnswer(q, fmpKey, yahooInstalled, fmpSearch, yahooSearch, profile)
      case Some(ms) => Accepted(ms)
      case None => StaticFallback(q, table)
  }

  /** An accepted FMP answer is the validation's answer, its first match the
      best, and it names a real company. */
  lemma SearchAnswerWins(name: string, fmpKey: Option<string>, yahooInstalled: bool,
                         fmpSearch: string -> seq<Match>, yahooSearch: string -> seq<Match>,
                         profile: string -> Option<string>, table: map<string, string>)
    requires Strip(name) != "" && Truthy(fmpKey)
    requires FirstAccepted(QueryVariants(Strip(name)), Strip(name), fmpSearch).Some?
    ensures var r := Validate(name, fmpKey, yahooInstalled, fmpSearch, yahooSearch, profile, table);
            r.valid && r.best_match == Some(r.matches[0])
            && exists k :: 0 <= k < |QueryVariants(Strip(name))| && r.matches == fmpSearch(QueryVariants(Strip(name))[k])
                 && NamesACompany(r.matches, Strip(name), QueryVariants(Strip(name))[k])
  {
  }

  /** With no online source the static table decides, and only for a
      ticker-shaped query. */
  lemma OfflineUsesStaticTable(name: string, fmpSearch: string -> seq<Match>, yahooSearch: string -> seq<Match>,
                               profile: string -> Option<string>, table: map<string, string>)
    requires Strip(name) != ""
    ensures var r := Validate(name, None, false, fmpSearch, yahooSearch, profile, table);
            var q := Strip(name);
            (r.valid <==> LooksLikeTicker(q) && BareTicker(q) in table)
            && (r.valid ==> r.matches[0].ticker == if HasExchangeSuffix(q) then q else BareTicker(q) + ".NS")
  {
  }

  /** The ampersand keeps "M&M" from looking like a ticker. */
  lemma AmpersandIsNotTickerShaped()
    ensures !LooksLikeTicker("M&M")
  {
    var q := "M&M";
    ReplaceAbsent(q, ".");
    ReplaceAbsent(q, "-");
    assert q[1] == '&';
  }

  /** Even with "M&M" in the static table (as it is, see
      `MahindraIsListed`), it never looks like a ticker: offline it is
      reported as a name that was not found. */
  lemma AmpersandTickerNeverReachesTable(fmpSearch: string -> seq<Match>, yahooSearch: string -> seq<Match>,
                                         profile: string -> Option<string>, table: map<string, string>)
    requires "M&M" in table
    ensures !Validate("M&M", None, false, fmpSearch, yahooSearch, profile, table).valid
    ensures Validate("M&M", None, false, fmpSearch, yahooSearch, profile, table).error == Some(NameNotFound("M&M"))
  {
    AmpersandIsNotTickerShaped();
    assert Strip("M&M") == "M&M";
    OfflineMiss("M&M", fmpSearch, yahooSearch, profile, table);
  }

  lemma MahindraIsListed()
    ensures "M&M" in IndianStockNames()
  {
  }

  /** Offline, a plain name is reported as not found. */
  lemma OfflineMiss(name: string, fmpSearch: string -> seq<Match>, yahooSearch: string -> seq<Match>,
                    profile: string -> Option<string>, table: map<string, string>)
    requires Strip(name) == name && name != "" && !LooksLikeTicker(name)
    ensures !Validate(name, None, false, fmpSearch, yahooSearch, profile, table).valid
    ensures Validate(name, None, false, fmpSearch, yahooSearch, profile, table).error == Some(NameNotFound(name))
  {
    assert OnlineAnswer(name, None, false, fmpSearch, yahooSearch, profile).None?;
    StaticMiss(name, table);
  }

  /** A query that starts with a lower-case letter, has no dot and does not
      end in whitespace is its own stripped form, is not ticker-shaped and
      has no suffix to drop. */
  lemma LowerCaseQueryIsPlain(q: string)
    requires q != [] && IsLowerChar(q[0]) && !IsSpaceChar(q[|q| - 1]) && '.' !in q
    ensures Strip(q) == q && !LooksLikeTicker(q) && BareTicker(q) == q && QueryVariants(q) == [q]
  {
    assert !IsUpperStr(q);
    ReplaceAbsent(q, ".NS");
    ReplaceAbsent(q, ".BO");
  }

  /** A query starting with a lower-case letter changes under upper-casing. */
  lemma UpperChangesLowerCase(q: string)
    requires q != [] && IsLowerChar(q[0])
    ensures Upper(q) != q
  {
    assert Upper(q)[0] != q[0];
  }

  /** The echo test compares the upper-cased name with the query as typed:
      for a query that is not ticker-shaped and changes under upper-casing,
      an answer that merely repeats it in upper case is accepted. */
  lemma EchoTestIsCaseSensitive(q: string, key: string, fmpSearch: string -> seq<Match>,
                                yahooSearch: string -> seq<Match>, profile: string -> Option<string>,
                                table: map<string, string>)
    requires q != [] && Strip(q) == q && !LooksLikeTicker(q) && BareTicker(q) == q && Upper(q) != q
    requires key != "" && fmpSearch(q) == [Match(q, Upper(q))]
    ensures Validate(q, Some(key), false, fmpSearch, yahooSearch, profile, table).valid
    ensures Validate(q, Some(key), false, fmpSearch, yahooSearch, profile, table).best_match == Some(Match(q, Upper(q)))
  {
    EchoAnswerAccepted(q, fmpSearch);
    EchoIsOnlineAnswer(q, key, fmpSearch, yahooSearch, profile);
  }

  lemma EchoAnswerAccepted(q: string, search: string -> seq<Match>)
    requires !LooksLikeTicker(q) && BareTicker(q) == q && Upper(q) != q
    requires search(q) == [Match(q, Upper(q))]
    ensures QueryVariants(q) == [q]
    ensures FirstAccepted([q], q, search) == Some(search(q))
  {
    assert Upper(search(q)[0].name) == Upper(q);
    assert NamesACompany(search(q), q, q);
  }

  lemma EchoIsOnlineAnswer(q: string, key: string, fmpSearch: string -> seq<Match>,
                           yahooSearch: string -> seq<Match>, profile: string -> Option<string>)
    requires key != "" && QueryVariants(q) == [q] && FirstAccepted([q], q, fmpSearch).Some?
    ensures OnlineAnswer(q, Some(key), false, fmpSearch, yahooSearch, profile) == FirstAccepted([q], q, fmpSearch)
  {
  }

  /** "infy" is such a query. */
  lemma LowerCaseQueryIsEchoAccepted()
    ensures Strip("infy") == "infy" && !LooksLikeTicker("infy") && BareTicker("infy") == "infy"
    ensures Upper("infy") != "infy"
  {
    var q := "infy";
    assert IsLowerChar(q[0]) && !IsSpaceChar(q[3]) && '.' !in q;
    LowerCaseQueryIsPlain(q);
    UpperChangesLowerCase(q);
  }
}
