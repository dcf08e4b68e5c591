/** The acquisition layer of `utils/api_connector.py`: the `CepeaAPI` service with its
    price-table cache, exchange-rate lookup, product catalogue and historical-price pipeline.
    The file system becomes two fields (the cache directory as a map from path to file, the
    product list file as an optional value), the `investpy` download and the exchange-rate
    endpoint become replies passed in, and "today" is a parameter. */
module ApiConnector {
  import opened Common
  import opened Dates
  import opened Sorting

  // ---------------------------------------------------------------- cache paths

  const CacheDir: string := "data/commodity_cache"

  /** `os.path.join(a, b)` on POSIX: an absolute `b` replaces `a`; otherwise one separator joins them. */
  function PathJoin(a: string, b: string): (p: string)
    ensures |b| > 0 && b[0] == '/' ==> p == b
  {
    if |b| > 0 && b[0] == '/' then b
    else if |a| == 0 || a[|a| - 1] == '/' then a + b
    else a + "/" + b
  }

  /** `<code>_<YYYYMMDD>_<YYYYMMDD>.parquet` */
  function CacheFileName(code: string, start: Date, end: Date): (name: string)
    ensures |name| == |code| + 26
    ensures name[0] == if |code| > 0 then code[0] else '_'
    ensures name[..|code|] == code
  {
    code + "_" + Ymd(start) + "_" + Ymd(end) + ".parquet"
  }

  /** `_get_cache_path`: the file name joined to the cache directory; a code that starts with
      `/` makes the file name absolute, and `os.path.join` then drops the directory. */
  function CachePath(code: string, start: Date, end: Date): (p: string)
    ensures |code| > 0 && code[0] == '/' ==> p == CacheFileName(code, start, end)
    ensures !(|code| > 0 && code[0] == '/') ==> p == CacheDir + "/" + CacheFileName(code, start, end)
  {
    PathJoin(CacheDir, CacheFileName(code, start, end))
  }

  /** For one product code, each (start, end) pair has its own cache file. */
  lemma CachePathInjective(code: string, s1: Date, e1: Date, s2: Date, e2: Date)
    requires CachePath(code, s1, e1) == CachePath(code, s2, e2)
    ensures s1 == s2 && e1 == e2
  {
    var f1, f2 := CacheFileName(code, s1, e1), CacheFileName(code, s2, e2);
    assert f1[0] == f2[0];
    if f1[0] != '/' {
      var prefix := CacheDir + "/";
      assert CachePath(code, s1, e1) == prefix + f1;
      assert CachePath(code, s2, e2) == prefix + f2;
      assert (prefix + f1)[|prefix|..] == f1;
      assert (prefix + f2)[|prefix|..] == f2;
    }
    assert f1 == f2;
    var n := |code| + 1;
    assert f1[n..n + 8] == Ymd(s1) && f2[n..n + 8] == Ymd(s2);
    assert f1[n + 9..n + 17] == Ymd(e1) && f2[n + 9..n + 17] == Ymd(e2);
    YmdInjective(s1, s2);
    YmdInjective(e1, e2);
  }

  // ---------------------------------------------------------------- exchange rate

  /** Local-currency units per US dollar used when no quote is available. */
  const FallbackRate: real := 5.0

  /** What the exchange-rate endpoint gave back. `RequestFailed`: the request raised before a
      body was decoded (network error, error status, invalid JSON). `Reply`: the decoded body's
      `value` list when it has one, each entry's `cotacaoCompra` as a float, or `None` when the
      entry has no such key or it does not convert. */
  datatype RateReply =
    | RequestFailed
    | Reply(value: Option<seq<Option<real>>>)

  /** The buy quote of the first entry of a reply, if there is one. */
  function BuyQuote(reply: RateReply): (q: Option<real>)
    ensures q.Some? ==> reply.Reply? && reply.value.Some? && |reply.value.value| > 0
    ensures reply.Reply? && reply.value.Some? && |reply.value.value| > 0 ==> q == reply.value.value[0]
  {
    match reply
    case RequestFailed => None
    case Reply(None) => None
    case Reply(Some(entries)) => if |entries| == 0 then None else entries[0]
  }

  /** `_get_exchange_rate` with the lookup performed: future dates and every failure give the
      fallback; otherwise the first entry's buy quote. */
  function ExchangeRate(date: Date, today: Date, reply: RateReply): (rate: real)
    ensures Before(today, date) ==> rate == FallbackRate
    ensures rate == FallbackRate || (!Before(today, date) && BuyQuote(reply) == Some(rate))
  {
    if Before(today, date) then FallbackRate
    else BuyQuote(reply).GetOr(FallbackRate)
  }

  /** A future date never consults the endpoint: every reply gives the same rate, the fallback. */
  lemma FutureRateIgnoresReply(date: Date, today: Date, r1: RateReply, r2: RateReply)
    requires Before(today, date)
    ensures ExchangeRate(date, today, r1) == ExchangeRate(date, today, r2) == FallbackRate
  {
  }

  /** Up to and including today, a usable first entry is the rate; a reply without one gives the fallback. */
  lemma PastRateIsQuote(date: Date, today: Date, reply: RateReply)
    requires !Before(today, date)
    ensures BuyQuote(reply).Some? ==> ExchangeRate(date, today, reply) == BuyQuote(reply).value
    ensures BuyQuote(reply).None? ==> ExchangeRate(date, today, reply) == FallbackRate
  {
  }

  /** `_get_exchange_rate` as the source stands: `requests` is never imported, so for a
      non-future date the call raises `NameError`, which the handler turns into the fallback. */
  function ExchangeRateAsWritten(date: Date, today: Date): (rate: real)
    ensures rate == FallbackRate
  {
    if Before(today, date) then FallbackRate
    else FallbackRate
  }

  /** Every rate request failing: what the source as written does, since `requests` is unbound. */
  const AllRequestsFail: Date -> RateReply := (d: Date) => RequestFailed

  /** The code as written is the corrected lookup with every request failing. */
  lemma AsWrittenIsAllRequestsFailing(date: Date, today: Date)
    ensures ExchangeRateAsWritten(date, today) == ExchangeRate(date, today, AllRequestsFail(date))
  {
  }

  /** A concrete past date with a well-formed quote of 4.85: the source as written still returns 5.0. */
  lemma MissingImportDiscardsQuote()
    ensures var d: Date, t: Date := CalendarDay(2024, 1, 2), CalendarDay(2024, 6, 3);
            && ExchangeRateAsWritten(d, t) == 5.0
            && ExchangeRate(d, t, Reply(Some([Some(4.85)]))) == 4.85
  {
  }

  // ---------------------------------------------------------------- product catalogue

  datatype ProductInfo = ProductInfo(investpyName: string, country: string, currency: string, unit: string)

  /** `product_investpy_map`, in insertion order. */
  const ProductInvestpyMap: seq<(string, ProductInfo)> := [
    ("BGI", ProductInfo("Live Cattle", "United States", "USD", "@")),
    ("MIL", ProductInfo("US Corn", "United States", "USD", "bu")),
    ("SOJ", ProductInfo("US Soybeans", "United States", "USD", "bu")),
    ("CAF", ProductInfo("Coffee", "United States", "USD", "lb")),
    ("SUC", ProductInfo("Sugar", "United States", "USD", "lb"))
  ]

  ghost predicate DistinctCodes(m: seq<(string, ProductInfo)>) {
    forall i, j :: 0 <= i < j < |m| ==> m[i].0 != m[j].0
  }

  lemma ProductMapCodesDistinct()
    ensures DistinctCodes(ProductInvestpyMap)
  {
  }

  /** `dict.get(code)`: the entry stored under `code`, if any. */
  function Lookup(m: seq<(string, ProductInfo)>, code: string): (r: Option<ProductInfo>)
    ensures r.Some? <==> exists i :: 0 <= i < |m| && m[i].0 == code
    ensures r.Some? ==> exists i :: 0 <= i < |m| && m[i] == (code, r.value)
  {
    if |m| == 0 then None
    else if m[0].0 == code then Some(m[0].1)
    else
      var r := Lookup(m[1..], code);
      assert r.Some? ==> m[1..][0..] == m[1..];
      r
  }

  /** With distinct codes, looking an entry's code up finds that entry. */
  lemma {:induction false} LookupFindsEntry(m: seq<(string, ProductInfo)>, i: nat)
    requires DistinctCodes(m) && i < |m|
    ensures Lookup(m, m[i].0) == Some(m[i].1)
  {
    if i > 0 {
      assert m[0].0 != m[i].0;
      LookupFindsEntry(m[1..], i - 1);
    }
  }

  /** One element of the persisted product list. */
  datatype ProductEntry = ProductEntry(code: string, name: string, unit: string, currency: string)

  /** The entry built for one map item: `{code, name: investpy_name, unit, currency}`. */
  function CatalogueEntry(code: string, info: ProductInfo): ProductEntry {
    ProductEntry(code, info.investpyName, info.unit, info.currency)
  }

  /** `products` holds one entry per map item, in map order. */
  ghost predicate ListsMap(products: seq<ProductEntry>, m: seq<(string, ProductInfo)>) {
    |products| == |m| && forall i :: 0 <= i < |m| ==> products[i] == CatalogueEntry(m[i].0, m[i].1)
  }

  /** The loop of `get_available_products` that builds `products_list`. */
  method BuildProductsList(m: seq<(string, ProductInfo)>) returns (products: seq<ProductEntry>)
    ensures |products| == |m|
    ensures forall i :: 0 <= i < |m| ==> products[i].code == m[i].0 && products[i].name == m[i].1.investpyName
    ensures ListsMap(products, m)
  {
    products := [];
    for k := 0 to |m|
      invariant |products| == k
      invariant forall i :: 0 <= i < k ==> products[i] == CatalogueEntry(m[i].0, m[i].1)
    {
      var (code, info) := m[k];
      products := products + [ProductEntry(code, info.investpyName, info.unit, info.currency)];
    }
  }

  /** Every listed product resolves to its own map entry, with the same name, unit and currency,
      and no code is listed twice. */
  lemma CatalogueResolves(products: seq<ProductEntry>)
    requires ListsMap(products, ProductInvestpyMap)
    ensures forall i, j :: 0 <= i < j < |products| ==> products[i].code != products[j].code
    ensures forall i :: 0 <= i < |products| ==>
              && Lookup(ProductInvestpyMap, products[i].code).Some?
              && products[i].name == Lookup(ProductInvestpyMap, products[i].code).value.investpyName
              && products[i].unit == Lookup(ProductInvestpyMap, products[i].code).value.unit
              && products[i].currency == Lookup(ProductInvestpyMap, products[i].code).value.currency
  {
    ProductMapCodesDistinct();
    forall i | 0 <= i < |products|
      ensures Lookup(ProductInvestpyMap, products[i].code) == Some(ProductInvestpyMap[i].1)
    {
      LookupFindsEntry(ProductInvestpyMap, i);
    }
  }

  /** The product list file: unreadable (corrupt JSON, no permission) or a stored list. */
  datatype StoreFile = Unreadable | Stored(products: seq<ProductEntry>)

  // ---------------------------------------------------------------- historical prices

  /** One row of the table `investpy` returned: its `Date` and `Close` cells. */
  datatype FetchedRow = FetchedRow(date: Field<Date>, close: Field<real>)

  /** The `investpy` download: it raised (unknown commodity, network error), or it gave a table. */
  datatype FetchReply = FetchFailed | Fetched(rows: seq<FetchedRow>)

  /** A row after the column assignments and before `dropna`. */
  datatype FramedRow = FramedRow(date: Option<Date>, product: string, price: Option<real>,
                                 priceUsd: Option<real>, exchangeRate: Option<real>)

  /** A row of the returned table: `price` in local currency; for USD-quoted products also the
      dollar price and the rate used to convert it. */
  datatype PricePoint = PricePoint(date: Date, product: string, price: real,
                                   priceUsd: Option<real>, exchangeRate: Option<real>)

  type Table = seq<PricePoint>

  /** The cache directory: a path that exists maps to its file, readable (`Some`) or not (`None`). */
  type CacheFiles = map<string, Option<Table>>

  function DateKey(p: PricePoint): Option<Date> {
    Some(p.date)
  }

  /** Rename, `to_datetime`, `product` column, `to_numeric`, and the currency columns. */
  function FrameRow(row: FetchedRow, code: string, currency: string, today: Date,
                    rates: Date -> RateReply): (r: FramedRow)
    ensures r.product == code && r.date == Parsed(row.date)
    ensures currency == "USD" ==>
              && r.priceUsd == Numeric(row.close)
              && (r.exchangeRate.Some? <==> r.date.Some?)
              && (r.date.Some? ==> r.exchangeRate == Some(ExchangeRate(r.date.value, today, rates(r.date.value))))
              && (r.price.Some? <==> r.priceUsd.Some? && r.date.Some?)
              && (r.price.Some? ==> r.price.value == r.priceUsd.value * r.exchangeRate.value)
    ensures currency != "USD" ==>
              r.price == Numeric(row.close) && r.priceUsd.None? && r.exchangeRate.None?
  {
    var date := Parsed(row.date);
    var close := Numeric(row.close);
    if currency == "USD" then
      var rate := if date.Some? then Some(ExchangeRate(date.value, today, rates(date.value))) else None;
      var price := if close.Some? && rate.Some? then Some(close.value * rate.value) else None;
      FramedRow(date, code, price, close, rate)
    else
      FramedRow(date, code, close, None, None)
  }

  /** `dropna(subset=['date', 'price'])` on one row. */
  function Complete(r: FramedRow): (p: Option<PricePoint>)
    ensures p.Some? <==> r.date.Some? && r.price.Some?
    ensures p.Some? ==> && p.value.date == r.date.value && p.value.price == r.price.value
                        && p.value.product == r.product
                        && p.value.priceUsd == r.priceUsd && p.value.exchangeRate == r.exchangeRate
  {
    if r.date.Some? && r.price.Some? then Some(PricePoint(r.date.value, r.product, r.price.value, r.priceUsd, r.exchangeRate))
    else None
  }

  function FramedRows(rows: seq<FetchedRow>, code: string, currency: string, today: Date,
                      rates: Date -> RateReply): (f: seq<FramedRow>)
    ensures |f| == |rows|
    ensures forall i :: 0 <= i < |rows| ==> f[i] == FrameRow(rows[i], code, currency, today, rates)
  {
    seq(|rows|, i requires 0 <= i < |rows| => FrameRow(rows[i], code, currency, today, rates))
  }

  /** The table built from a fetched table whose dates all parsed: framed, cleaned, sorted. */
  function Normalise(rows: seq<FetchedRow>, code: string, currency: string, today: Date,
                     rates: Date -> RateReply): (t: Table)
    ensures SortedBy(t, DateKey)
    ensures multiset(t) == multiset(FilterMap(FramedRows(rows, code, currency, today, rates), Complete))
  {
    SortBy(FilterMap(FramedRows(rows, code, currency, today, rates), Complete), DateKey)
  }

  predicate ConsistentRow(p: PricePoint) {
    && (p.priceUsd.Some? <==> p.exchangeRate.Some?)
    && (p.priceUsd.Some? ==> p.price == p.priceUsd.value * p.exchangeRate.value)
  }

  /** What every table the service produces satisfies: ascending dates, consistent currency legs. */
  ghost predicate WellFormedTable(t: Table) {
    SortedBy(t, DateKey) && forall i :: 0 <= i < |t| ==> ConsistentRow(t[i])
  }

  ghost predicate StoreWellFormed(cache: CacheFiles) {
    forall p :: p in cache && cache[p].Some? ==> WellFormedTable(cache[p].value)
  }

  /** What survives `dropna` of one framed row. */
  ghost predicate FromRow(row: FetchedRow, code: string, currency: string, today: Date,
                          rates: Date -> RateReply, p: PricePoint)
  {
    && p.product == code
    && row.date == Value(p.date) && row.close.Value?
    && (currency == "USD" ==>
          && p.priceUsd == Some(row.close.v)
          && p.exchangeRate == Some(ExchangeRate(p.date, today, rates(p.date)))
          && p.price == row.close.v * ExchangeRate(p.date, today, rates(p.date)))
    && (currency != "USD" ==>
          && p.priceUsd.None? && p.exchangeRate.None?
          && p.price == row.close.v)
  }

  lemma CompleteFrameRow(row: FetchedRow, code: string, currency: string, today: Date,
                         rates: Date -> RateReply, p: PricePoint)
    requires Complete(FrameRow(row, code, currency, today, rates)) == Some(p)
    ensures FromRow(row, code, currency, today, rates, p)
    ensures ConsistentRow(p)
  {
  }

  /** Each row of the normalised table comes from one fetched row with that date: its product is
      the requested code; for a USD product it carries the close as `priceUsd`, the rate of its
      date, and `price = priceUsd * rate`; otherwise `price` is the close and both legs are absent. */
  lemma NormaliseRowsComeFromFetch(rows: seq<FetchedRow>, code: string, currency: string, today: Date,
                                   rates: Date -> RateReply, p: PricePoint)
    requires p in Normalise(rows, code, currency, today, rates)
    ensures exists i :: 0 <= i < |rows| && FromRow(rows[i], code, currency, today, rates, p)
    ensures ConsistentRow(p)
  {
    var framed := FramedRows(rows, code, currency, today, rates);
    SortByMembers(FilterMap(framed, Complete), DateKey, p);
    var i :| 0 <= i < |framed| && Complete(framed[i]) == Some(p);
    CompleteFrameRow(rows[i], code, currency, today, rates, p);
  }

  /** A fetched row with a date and a numeric close is never dropped; each kept row occurs as
      often as fetched rows produce it (no de-duplication); and when every row has both, the
      table has exactly as many rows as were fetched (no filtering by range). */
  lemma NormaliseKeepsCompleteRows(rows: seq<FetchedRow>, code: string, currency: string, today: Date,
                                   rates: Date -> RateReply)
    ensures forall i :: 0 <= i < |rows| && rows[i].date.Value? && rows[i].close.Value? ==>
              Complete(FrameRow(rows[i], code, currency, today, rates)).Some?
              && Complete(FrameRow(rows[i], code, currency, today, rates)).value in Normalise(rows, code, currency, today, rates)
    ensures (forall i :: 0 <= i < |rows| ==> rows[i].date.Value? && rows[i].close.Value?) ==>
              |Normalise(rows, code, currency, today, rates)| == |rows|
    ensures |Normalise(rows, code, currency, today, rates)| <= |rows|
    ensures forall p :: multiset(Normalise(rows, code, currency, today, rates))[p]
                        == Hits(FramedRows(rows, code, currency, today, rates), Complete, p)
  {
    var framed := FramedRows(rows, code, currency, today, rates);
    var kept := FilterMap(framed, Complete);
    forall p ensures multiset(Normalise(rows, code, currency, today, rates))[p] == Hits(framed, Complete, p) {
      FilterMapCounts(framed, Complete, p);
    }
    forall i | 0 <= i < |rows| && rows[i].date.Value? && rows[i].close.Value?
      ensures Complete(FrameRow(rows[i], code, currency, today, rates)).Some?
      ensures Complete(FrameRow(rows[i], code, currency, today, rates)).value in Normalise(rows, code, currency, today, rates)
    {
      assert framed[i] == FrameRow(rows[i], code, currency, today, rates);
      FilterMapKeeps(framed, Complete, i);
      SortByMembers(kept, DateKey, Complete(framed[i]).value);
    }
    if forall i :: 0 <= i < |rows| ==> rows[i].date.Value? && rows[i].close.Value? {
      FilterMapKeepsAll(framed, Complete);
    }
  }

  /** The table the source as written builds for a USD-quoted product: every row carries the
      fallback rate, and its `price` is the dollar close times 5.0, whatever the date. */
  lemma NormaliseAsWritten(rows: seq<FetchedRow>, code: string, today: Date, p: PricePoint)
    requires p in Normalise(rows, code, "USD", today, AllRequestsFail)
    ensures p.exchangeRate == Some(FallbackRate)
    ensures p.priceUsd.Some? && p.price == p.priceUsd.value * FallbackRate
  {
    NormaliseRowsComeFromFetch(rows, code, "USD", today, AllRequestsFail, p);
    AsWrittenIsAllRequestsFailing(p.date, today);
  }

  /** The normalised table is sorted by date and its currency legs agree. */
  lemma NormaliseWellFormed(rows: seq<FetchedRow>, code: string, currency: string, today: Date,
                            rates: Date -> RateReply)
    ensures WellFormedTable(Normalise(rows, code, currency, today, rates))
  {
    var t := Normalise(rows, code, currency, today, rates);
    forall k | 0 <= k < |t| ensures ConsistentRow(t[k]) {
      NormaliseRowsComeFromFetch(rows, code, currency, today, rates, t[k]);
    }
  }

  /** The download lacks the `Date` or the `Close` column: every row is without that cell, so
      selecting the renamed `date` or `price` column raises `KeyError`. */
  predicate MissingColumn(rows: seq<FetchedRow>) {
    || (forall i :: 0 <= i < |rows| ==> rows[i].date.Absent?)
    || (forall i :: 0 <= i < |rows| ==> rows[i].close.Absent?)
  }

  /** A USD download with a row whose date is `NaT`: `_get_exchange_rate` compares `NaT` with
      today's date before its `try`, and pandas 2 rejects that comparison with `TypeError`. */
  predicate UndatedUsdRow(rows: seq<FetchedRow>, currency: string) {
    currency == "USD" && exists i :: 0 <= i < |rows| && (rows[i].date.Null? || rows[i].date.Absent?)
  }

  /** The outcome of one `get_historical_prices` call: the returned table and the cache after it. */
  datatype Served = Served(table: Table, cache: CacheFiles)

  /** A readable, non-empty cached table under `path`. */
  function CacheHit(cache: CacheFiles, path: string): Option<Table> {
    if path in cache && cache[path].Some? && |cache[path].value| > 0 then cache[path] else None
  }

  /** `get_historical_prices` as a function of the cache and the external replies. */
  function Serve(cache: CacheFiles, code: string, start: Date, end: Date, today: Date,
                 fetch: FetchReply, rates: Date -> RateReply, writable: bool): (r: Served)
    ensures r.cache == cache || r.cache == cache[CachePath(code, start, end) := Some(r.table)]
    ensures !writable ==> r.cache == cache
  {
    var path := CachePath(code, start, end);
    if CacheHit(cache, path).Some? then Served(CacheHit(cache, path).value, cache)
    else match Lookup(ProductInvestpyMap, code)
      case None => Served([], cache)
      case Some(info) =>
        match fetch
        case FetchFailed => Served([], cache)
        case Fetched(rows) =>
          if |rows| == 0 then Served([], cache)
          else if MissingColumn(rows) then Served([], cache)
          else if exists i :: 0 <= i < |rows| && rows[i].date.Malformed? then Served([], cache)
          else if UndatedUsdRow(rows, info.currency) then Served([], cache)
          else
            var t := Normalise(rows, code, info.currency, today, rates);
            Served(t, if writable then cache[path := Some(t)] else cache)
  }

  /** A non-empty cached table is returned as stored, before the code is looked up and
      whatever the download would have given. */
  lemma ServeCacheFirst(cache: CacheFiles, code: string, start: Date, end: Date, today: Date,
                        fetch: FetchReply, rates: Date -> RateReply, writable: bool)
    requires CacheHit(cache, CachePath(code, start, end)).Some?
    ensures Serve(cache, code, start, end, today, fetch, rates, writable)
            == Served(cache[CachePath(code, start, end)].value, cache)
  {
  }

  /** On a miss with a mapped code and a usable download, the table is the normalised download,
      and it is stored under the request's own path when the write succeeds. */
  lemma ServeFetches(cache: CacheFiles, code: string, start: Date, end: Date, today: Date,
                     rows: seq<FetchedRow>, rates: Date -> RateReply, writable: bool)
    requires CacheHit(cache, CachePath(code, start, end)).None?
    requires Lookup(ProductInvestpyMap, code).Some?
    requires |rows| > 0 && !MissingColumn(rows)
    requires forall i :: 0 <= i < |rows| ==> !rows[i].date.Malformed?
    requires !UndatedUsdRow(rows, Lookup(ProductInvestpyMap, code).value.currency)
    ensures var t := Normalise(rows, code, Lookup(ProductInvestpyMap, code).value.currency, today, rates);
            Serve(cache, code, start, end, today, Fetched(rows), rates, writable)
            == Served(t, if writable then cache[CachePath(code, start, end) := Some(t)] else cache)
  {
  }

  /** On a miss, an unmapped code, a failed or empty download, a download without a `Date` or
      `Close` column, a date `to_datetime` rejects, or a USD download with a missing date gives
      the empty table and leaves the cache alone. */
  lemma ServeDegradesToEmpty(cache: CacheFiles, code: string, start: Date, end: Date, today: Date,
                             fetch: FetchReply, rates: Date -> RateReply, writable: bool)
    requires CacheHit(cache, CachePath(code, start, end)).None?
    requires || Lookup(ProductInvestpyMap, code).None?
             || fetch.FetchFailed?
             || (fetch.Fetched? && |fetch.rows| == 0)
             || (fetch.Fetched? && MissingColumn(fetch.rows))
             || (fetch.Fetched? && exists i :: 0 <= i < |fetch.rows| && fetch.rows[i].date.Malformed?)
             || (fetch.Fetched? && Lookup(ProductInvestpyMap, code).Some?
                 && UndatedUsdRow(fetch.rows, Lookup(ProductInvestpyMap, code).value.currency))
    ensures Serve(cache, code, start, end, today, fetch, rates, writable) == Served([], cache)
  {
  }

  /** A failed cache write changes nothing but the cache: the same table is returned. */
  lemma ServeWriteFailureKeepsTable(cache: CacheFiles, code: string, start: Date, end: Date, today: Date,
                                    fetch: FetchReply, rates: Date -> RateReply)
    ensures Serve(cache, code, start, end, today, fetch, rates, false).table
            == Serve(cache, code, start, end, today, fetch, rates, true).table
    ensures Serve(cache, code, start, end, today, fetch, rates, false).cache == cache
  {
  }

  /** After a call that returned rows and could write its cache file, repeating the call with the
      same arguments returns the same table, whatever the download would now give, and writes nothing. */
  lemma ServeRepeatIsCached(cache: CacheFiles, code: string, start: Date, end: Date, today: Date,
                            fetch: FetchReply, rates: Date -> RateReply,
                            today2: Date, fetch2: FetchReply, rates2: Date -> RateReply, writable2: bool)
    requires |Serve(cache, code, start, end, today, fetch, rates, true).table| > 0
    ensures var first := Serve(cache, code, start, end, today, fetch, rates, true);
            Serve(first.cache, code, start, end, today2, fetch2, rates2, writable2) == first
  {
  }

  /** The call touches at most its own cache file. */
  lemma ServeWritesOnlyItsPath(cache: CacheFiles, code: string, start: Date, end: Date, today: Date,
                               fetch: FetchReply, rates: Date -> RateReply, writable: bool)
    ensures var after := Serve(cache, code, start, end, today, fetch, rates, writable).cache;
            && after.Keys <= cache.Keys + {CachePath(code, start, end)}
            && forall p :: p in cache && p != CachePath(code, start, end) ==> p in after && after[p] == cache[p]
  {
  }

  /** If every cached table is well formed, the returned table is, and so is the cache afterwards. */
  lemma ServeWellFormed(cache: CacheFiles, code: string, start: Date, end: Date, today: Date,
                        fetch: FetchReply, rates: Date -> RateReply, writable: bool)
    requires StoreWellFormed(cache)
    ensures WellFormedTable(Serve(cache, code, start, end, today, fetch, rates, writable).table)
    ensures StoreWellFormed(Serve(cache, code, start, end, today, fetch, rates, writable).cache)
  {
    var path := CachePath(code, start, end);
    var out := Serve(cache, code, start, end, today, fetch, rates, writable);
    if CacheHit(cache, path).Some? {
      assert out == Served(cache[path].value, cache);
    } else if Lookup(ProductInvestpyMap, code).None? || fetch.FetchFailed? || |fetch.rows| == 0 || MissingColumn(fetch.rows)
              || (exists i :: 0 <= i < |fetch.rows| && fetch.rows[i].date.Malformed?)
              || UndatedUsdRow(fetch.rows, Lookup(ProductInvestpyMap, code).value.currency) {
      assert out == Served([], cache);
    } else {
      var t := Normalise(fetch.rows, code, Lookup(ProductInvestpyMap, code).value.currency, today, rates);
      NormaliseWellFormed(fetch.rows, code, Lookup(ProductInvestpyMap, code).value.currency, today, rates);
      assert out == Served(t, if writable then cache[path := Some(t)] else cache);
    }
  }

  // ---------------------------------------------------------------- the service object

  class CepeaApi {
    /** The cache directory's files. */
    var cache: CacheFiles
    /** `data/products_list.json`: absent, or present and readable or not. */
    var productStore: Option<StoreFile>

    /** `__init__`: the directories are created; what they already hold is given. */
    constructor (files: CacheFiles, store: Option<StoreFile>)
      ensures cache == files && productStore == store
    {
      cache := files;
      productStore := store;
    }

    /** `_load_from_cache`: the file's table when the file exists and reads, `None` otherwise. */
    method LoadFromCache(path: string) returns (t: Option<Table>)
      ensures t.Some? <==> path in cache && cache[path].Some?
      ensures t.Some? ==> t.value == cache[path].value
    {
      if path in cache {
        t := cache[path];
      } else {
        t := None;
      }
    }

    /** `_save_to_cache`: a failed write is swallowed. */
    method SaveToCache(t: Table, path: string, writable: bool)
      modifies this`cache
      ensures cache == if writable then old(cache)[path := Some(t)] else old(cache)
    {
      if writable {
        cache := cache[path := Some(t)];
      }
    }

    /** `get_available_products`: the stored list verbatim when the file exists; otherwise the
        list built from the map, persisted and returned; `[]` on any error. */
    method GetAvailableProducts(writable: bool) returns (products: seq<ProductEntry>)
      modifies this`productStore
      ensures old(productStore).Some? ==> productStore == old(productStore)
      ensures old(productStore) == Some(Unreadable) ==> products == []
      ensures old(productStore).Some? && old(productStore).value.Stored? ==>
                products == old(productStore).value.products
      ensures old(productStore).None? && writable ==>
                ListsMap(products, ProductInvestpyMap) && productStore == Some(Stored(products))
      ensures old(productStore).None? && !writable ==> products == [] && productStore == None
    {
      if productStore.Some? {
        match productStore.value {
          case Unreadable => products := [];
          case Stored(list) => products := list;
        }
        return;
      }
      var built := BuildProductsList(ProductInvestpyMap);
      if writable {
        productStore := Some(Stored(built));
        products := built;
      } else {
        products := [];
      }
    }

    /** `get_historical_prices`: cache lookup, product lookup, download, currency columns,
        `dropna`, sort, best-effort cache write; every failure gives the empty table. */
    method GetHistoricalPrices(code: string, start: Date, end: Date, today: Date,
                               fetch: FetchReply, rates: Date -> RateReply, writable: bool)
      returns (table: Table)
      modifies this`cache
      ensures Served(table, cache) == Serve(old(cache), code, start, end, today, fetch, rates, writable)
    {
      var path := CachePath(code, start, end);
      ghost var expected := Serve(cache, code, start, end, today, fetch, rates, writable);
      var cached := LoadFromCache(path);
      if cached.Some? && |cached.value| > 0 {
        return cached.value;
      }
      assert CacheHit(cache, path).None?;
      var info := Lookup(ProductInvestpyMap, code);
      if info.None? || fetch.FetchFailed? {
        return [];
      }
      var rows := fetch.rows;
      if |rows| == 0 {
        return [];
      }
      if MissingColumn(rows) {
        // Selecting the renamed `date` or `price` column raises `KeyError`.
        return [];
      }
      if exists i :: 0 <= i < |rows| && rows[i].date.Malformed? {
        // `pd.to_datetime` raises; the handler returns the empty table.
        return [];
      }
      if UndatedUsdRow(rows, info.value.currency) {
        // Comparing `NaT` with today's date raises `TypeError`.
        return [];
      }
      var df := FramedRows(rows, code, info.value.currency, today, rates);
      var cleaned := FilterMap(df, Complete);
      table := SortBy(cleaned, DateKey);
      assert table == Normalise(rows, code, info.value.currency, today, rates);
      assert expected == Served(table, if writable then cache[path := Some(table)] else cache);
      SaveToCache(table, path, writable);
    }
  }
}
