/** The single-symbol metrics endpoint. */
module MetricsApi {
  import opened Models
  import opened Api
  import Compare
  import Ingestion

  /** `fetch_asset_by_symbol`: a missing asset is a 404 with a fixed detail. */
  function FetchAssetBySymbol(session: Session, symbol: string): (r: Result<Asset>)
    ensures r.Ok? ==> session.Open? && r.value in session.db.assets && r.value.symbol == symbol
    ensures r.Err? <==> QueryAsset(session, symbol) == Ok(None)
    ensures r.Err? ==> r.error == HttpError(404, "Asset not found")
  {
    match QueryAsset(session, symbol)
    case Ok(None) => Err(HttpError(404, "Asset not found"))
    case Ok(Some(a)) => Ok(a)
    case Raised => Raised
  }

  /** `fetch_metric_by_asset`: an asset without a metric row is a 404 with a fixed detail. */
  function FetchMetricByAsset(session: Session, assetId: nat): (r: Result<Metric>)
    ensures r.Ok? ==> session.Open? && r.value in session.db.metrics && r.value.assetId == assetId
    ensures r.Err? <==> QueryMetric(session, assetId) == Ok(None)
    ensures r.Err? ==> r.error == HttpError(404, "Metrics not available for this asset")
  {
    match QueryMetric(session, assetId)
    case Ok(None) => Err(HttpError(404, "Metrics not available for this asset"))
    case Ok(Some(m)) => Ok(m)
    case Raised => Raised
  }

  /** The dictionary `format_metrics_response` builds. */
  datatype MetricsResponse = MetricsResponse(
    symbol: string,
    latestPrice: real,
    changePercent24h: real,
    averagePrice7d: real)

  function FormatMetricsResponse(symbol: string, m: Metric): MetricsResponse {
    MetricsResponse(symbol, m.latestPrice, m.changePercent24h, m.averagePrice7d)
  }

  /** `get_metrics`. */
  function GetMetrics(session: Session, symbol: string): Result<MetricsResponse> {
    var asset := FetchAssetBySymbol(session, symbol);
    if !asset.Ok? then HandleErrors(Propagate(asset))
    else
      var metric := FetchMetricByAsset(session, asset.value.id);
      if !metric.Ok? then HandleErrors(Propagate(metric))
      else Ok(FormatMetricsResponse(symbol, metric.value))
  }

  /** On a valid store the endpoint succeeds exactly when the symbol has a
      stored metric, and answers with the requested symbol and exactly that
      metric's three values. */
  lemma GetMetricsSucceedsIffStored(db: Db, symbol: string)
    requires Valid(db)
    ensures GetMetrics(Open(db), symbol).Ok? <==> StoredMetric(db, symbol).Some?
    ensures StoredMetric(db, symbol).Some? ==>
      var m := StoredMetric(db, symbol).value;
      GetMetrics(Open(db), symbol).value
        == MetricsResponse(symbol, m.latestPrice, m.changePercent24h, m.averagePrice7d)
  {
    QueryAssetOnSchema(db, symbol);
    match FindAssetBySymbol(db.assets, symbol) {
      case None =>
      case Some(a) => QueryMetricOnValid(db, a.id);
    }
  }

  /** An unknown symbol is 404 "Asset not found". */
  lemma GetMetricsUnknownSymbol(db: Db, symbol: string)
    requires forall i :: 0 <= i < |db.assets| ==> db.assets[i].symbol != symbol
    ensures GetMetrics(Open(db), symbol) == Err(HttpError(404, "Asset not found"))
  {
    QueryAssetUnknown(db, symbol);
  }

  /** A stored asset without a metric row is 404 "Metrics not available for this asset". */
  lemma GetMetricsMissingMetric(db: Db, symbol: string)
    requires Valid(db)
    requires FindAssetBySymbol(db.assets, symbol).Some? && StoredMetric(db, symbol).None?
    ensures GetMetrics(Open(db), symbol) == Err(HttpError(404, "Metrics not available for this asset"))
  {
    QueryAssetOnSchema(db, symbol);
    QueryMetricOnValid(db, FindAssetBySymbol(db.assets, symbol).value.id);
  }

  /** A session whose queries raise gives 500 "Internal Server Error". */
  lemma GetMetricsBrokenSession(symbol: string)
    ensures GetMetrics(Broken, symbol) == Err(InternalServerError)
  {
  }

  /** No non-HTTP error escapes; every reported error is one of the two 404s,
      passed through unchanged, or the generic 500. */
  lemma GetMetricsErrorsAreMapped(session: Session, symbol: string)
    ensures !GetMetrics(session, symbol).Raised?
    ensures GetMetrics(session, symbol).Err? ==>
      GetMetrics(session, symbol).error in {
        HttpError(404, "Asset not found"),
        HttpError(404, "Metrics not available for this asset"),
        InternalServerError}
  {
  }

  /** The metrics endpoint and the comparison endpoint agree: on any session
      one succeeds for a symbol exactly when the other's lookup of it does,
      with the same three values. */
  lemma AgreesWithCompare(session: Session, symbol: string)
    ensures GetMetrics(session, symbol).Ok? <==> Compare.SymbolMetric(session, symbol).Ok?
    ensures GetMetrics(session, symbol).Ok? ==>
      var r := GetMetrics(session, symbol).value;
      Compare.SymbolMetric(session, symbol).value
        == MetricView(r.latestPrice, r.changePercent24h, r.averagePrice7d)
  {
  }

  /** A symbol whose ingestion succeeded is served with exactly the values
      computed from its closes. */
  lemma IngestedSymbolIsServed(db: Db, symbol: string, feed: Ingestion.Feed,
                               fault: (string, nat) -> Ingestion.Fault, now: int)
    requires Valid(db) && Ingestion.FeedBaselinesNonZero(feed)
    requires Ingestion.IngestSymbol(db, symbol, Ingestion.FeedFetch(feed), fault, now).1.Done?
    ensures var after := Ingestion.IngestSymbol(db, symbol, Ingestion.FeedFetch(feed), fault, now).0;
      var data := Ingestion.FetchAssetData(feed, symbol).value;
      GetMetrics(Open(after), symbol)
        == Ok(MetricsResponse(symbol, data.latestPrice, data.changePercent24h, data.averagePrice7d))
  {
    var fetch := Ingestion.FeedFetch(feed);
    var after := Ingestion.IngestSymbol(db, symbol, fetch, fault, now).0;
    var data := fetch(symbol).value;
    Ingestion.DoneSymbolIsStored(db, symbol, fetch, fault, now);
    Ingestion.AttemptsPreserveValid(db, symbol, data, fault, now, 0);
    GetMetricsSucceedsIffStored(after, symbol);
  }
}
