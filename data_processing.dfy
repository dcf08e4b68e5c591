/** `utils/data_processing.py`: `process_quotes_data`, which turns the raw quotes payload into a
    table of (data, preco, variacao_dia) rows with a numeric price, sorted by date. */
module DataProcessing {
  import opened Common
  import opened Dates
  import opened Sorting

  /** One element of `data["cotacoes"]`: its `data`, `preco` and `variacao_dia` entries. */
  datatype QuoteRecord = QuoteRecord(data: Field<Date>, preco: Field<real>, variacaoDia: Field<real>)

  /** One output row; only `preco` is guaranteed to be present. */
  datatype Quote = Quote(data: Option<Date>, preco: real, variacaoDia: Option<real>)

  /** What the function raises: `KeyError` for a column no record has, or the parse error of
      `pd.to_datetime` on a date it cannot read. */
  datatype QuotesError = MissingColumn(name: string) | UnparseableDate

  /** `data`: `None` or a dictionary; its `cotacoes` entry, when present, is the list of records. */
  type Payload = Option<map<string, seq<QuoteRecord>>>

  /** `pd.DataFrame(records)` has a column for every key some record carries. */
  predicate HasData(recs: seq<QuoteRecord>) { exists i :: 0 <= i < |recs| && !recs[i].data.Absent? }
  predicate HasPreco(recs: seq<QuoteRecord>) { exists i :: 0 <= i < |recs| && !recs[i].preco.Absent? }
  predicate HasVariacao(recs: seq<QuoteRecord>) { exists i :: 0 <= i < |recs| && !recs[i].variacaoDia.Absent? }

  predicate HasMalformedDate(recs: seq<QuoteRecord>) {
    exists i :: 0 <= i < |recs| && recs[i].data.Malformed?
  }

  /** The conditions under which building the table raises. */
  predicate Raises(recs: seq<QuoteRecord>) {
    !HasData(recs) || HasMalformedDate(recs) || !HasPreco(recs) || !HasVariacao(recs)
  }

  /** A record after the three coercions, kept only when `preco` is numeric (`dropna(subset=["preco"])`). */
  function Priced(rec: QuoteRecord): (q: Option<Quote>)
    ensures q.Some? <==> rec.preco.Value?
    ensures q.Some? ==> q.value == Quote(Parsed(rec.data), rec.preco.v, Numeric(rec.variacaoDia))
  {
    var preco := Numeric(rec.preco);
    if preco.Some? then Some(Quote(Parsed(rec.data), preco.value, Numeric(rec.variacaoDia))) else None
  }

  function QuoteKey(q: Quote): Option<Date> {
    q.data
  }

  /** `process_quotes_data`. */
  function ProcessQuotesData(payload: Payload): (r: Result<seq<Quote>, QuotesError>)
    ensures payload.None? || "cotacoes" !in payload.value ==> r == Ok([])
    ensures payload.Some? && "cotacoes" in payload.value ==>
              (r.Err? <==> Raises(payload.value["cotacoes"]))
    ensures r.Ok? && payload.Some? && "cotacoes" in payload.value ==>
              && SortedBy(r.value, QuoteKey)
              && multiset(r.value) == multiset(FilterMap(payload.value["cotacoes"], Priced))
              && |r.value| <= |payload.value["cotacoes"]|
  {
    if payload.None? || "cotacoes" !in payload.value then Ok([])
    else
      var recs := payload.value["cotacoes"];
      if !HasData(recs) then Err(MissingColumn("data"))
      else if HasMalformedDate(recs) then Err(UnparseableDate)
      else if !HasPreco(recs) then Err(MissingColumn("preco"))
      else if !HasVariacao(recs) then Err(MissingColumn("variacao_dia"))
      else Ok(SortBy(FilterMap(recs, Priced), QuoteKey))
  }

  /** Every output row is one input record with a numeric `preco`, its date and its coerced
      `variacao_dia`: no row is invented. */
  lemma QuotesComeFromPricedRecords(recs: seq<QuoteRecord>, q: Quote)
    requires ProcessQuotesData(Some(map["cotacoes" := recs])).Ok?
    requires q in ProcessQuotesData(Some(map["cotacoes" := recs])).value
    ensures exists i :: 0 <= i < |recs| && recs[i].preco == Value(q.preco)
              && Parsed(recs[i].data) == q.data && Numeric(recs[i].variacaoDia) == q.variacaoDia
  {
    var kept := FilterMap(recs, Priced);
    ProcessedRows(recs);
    SortByMembers(kept, QuoteKey, q);
    PricedSource(recs, kept, q);
  }

  /** A successful result is the priced records, sorted. */
  lemma ProcessedRows(recs: seq<QuoteRecord>)
    requires ProcessQuotesData(Some(map["cotacoes" := recs])).Ok?
    ensures ProcessQuotesData(Some(map["cotacoes" := recs])).value == SortBy(FilterMap(recs, Priced), QuoteKey)
  {
    assert "cotacoes" in map["cotacoes" := recs] && map["cotacoes" := recs]["cotacoes"] == recs;
  }

  lemma PricedSource(recs: seq<QuoteRecord>, kept: seq<Quote>, q: Quote)
    requires kept == FilterMap(recs, Priced) && q in kept
    ensures exists i :: 0 <= i < |recs| && recs[i].preco == Value(q.preco)
              && Parsed(recs[i].data) == q.data && Numeric(recs[i].variacaoDia) == q.variacaoDia
  {
    var i :| 0 <= i < |recs| && Priced(recs[i]) == Some(q);
    assert recs[i].preco == Value(q.preco);
  }

  /** Every record with a numeric `preco` is kept, even when its `variacao_dia` is not numeric
      (that cell just becomes missing). */
  lemma PricedRecordsAreKept(recs: seq<QuoteRecord>, i: nat)
    requires ProcessQuotesData(Some(map["cotacoes" := recs])).Ok?
    requires i < |recs| && recs[i].preco.Value?
    ensures Quote(Parsed(recs[i].data), recs[i].preco.v, Numeric(recs[i].variacaoDia))
              in ProcessQuotesData(Some(map["cotacoes" := recs])).value
    ensures recs[i].variacaoDia.Malformed? ==>
              Quote(Parsed(recs[i].data), recs[i].preco.v, None) in ProcessQuotesData(Some(map["cotacoes" := recs])).value
  {
    FilterMapKeeps(recs, Priced, i);
    SortByMembers(FilterMap(recs, Priced), QuoteKey, Priced(recs[i]).value);
  }

  /** Dated rows come first in ascending order; rows whose date is missing come last. */
  lemma MissingDatesSortLast(recs: seq<QuoteRecord>, i: nat, j: nat)
    requires ProcessQuotesData(Some(map["cotacoes" := recs])).Ok?
    requires i < j < |ProcessQuotesData(Some(map["cotacoes" := recs])).value|
    ensures var out := ProcessQuotesData(Some(map["cotacoes" := recs])).value;
            && (out[i].data.None? ==> out[j].data.None?)
            && (out[i].data.Some? && out[j].data.Some? ==> !Before(out[j].data.value, out[i].data.value))
  {
  }

  /** An empty `cotacoes` list builds a table without columns, so the `data` lookup raises. */
  lemma EmptyQuotesListRaises()
    ensures ProcessQuotesData(Some(map["cotacoes" := []])) == Err(MissingColumn("data"))
  {
  }
}
