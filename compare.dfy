/** The comparison endpoint: the metrics of two symbols side by side, each
    looked up as an asset and then as that asset's metric row. */
module Compare {
  import opened Models
  import opened Api

  /** `get_asset_by_symbol`: a missing asset is a 404 naming the symbol. */
  function GetAssetBySymbol(session: Session, symbol: string): (r: Result<Asset>)
    ensures r.Ok? ==> session.Open? && r.value in session.db.assets && r.value.symbol == symbol
    ensures r.Err? <==> QueryAsset(session, symbol) == Ok(None)
    ensures r.Err? ==> r.error == HttpError(404, "Asset " + symbol + " not found")
  {
    match QueryAsset(session, symbol)
    case Ok(None) => Err(HttpError(404, "Asset " + symbol + " not found"))
    case Ok(Some(a)) => Ok(a)
    case Raised => Raised
  }

  /** `get_metric_by_asset_id`: an asset without a metric row is a 404 naming the symbol. */
  function GetMetricByAssetId(session: Session, assetId: nat, symbol: string): (r: Result<Metric>)
    ensures r.Ok? ==> session.Open? && r.value in session.db.metrics && r.value.assetId == assetId
    ensures r.Err? <==> QueryMetric(session, assetId) == Ok(None)
    ensures r.Err? ==> r.error == HttpError(404, "Metrics not available for " + symbol)
  {
    match QueryMetric(session, assetId)
    case Ok(None) => Err(HttpError(404, "Metrics not available for " + symbol))
    case Ok(Some(m)) => Ok(m)
    case Raised => Raised
  }

  /** One turn of the loop: the asset, then its metric, formatted. */
  function SymbolMetric(session: Session, symbol: string): Result<MetricView> {
    var asset := GetAssetBySymbol(session, symbol);
    if !asset.Ok? then Propagate(asset)
    else
      var metric := GetMetricByAssetId(session, asset.value.id, symbol);
      if !metric.Ok? then Propagate(metric) else Ok(FormatMetric(metric.value))
  }

  /** The response body: the entries under the keys `asset1` and `asset2`. */
  datatype Comparison = Comparison(asset1: MetricView, asset2: MetricView)

  /** What `compare_assets` answers: the first symbol is looked up before the
      second, and the first error ends the request. */
  function Compared(session: Session, asset1: string, asset2: string): Result<Comparison> {
    var v1 := SymbolMetric(session, asset1);
    if !v1.Ok? then HandleErrors(Propagate(v1))
    else
      var v2 := SymbolMetric(session, asset2);
      if !v2.Ok? then HandleErrors(Propagate(v2))
      else Ok(Comparison(v1.value, v2.value))
  }

  /** `compare_assets`: fills the `metrics` dictionary one symbol at a time,
      then reads the two entries back out. */
  method CompareAssets(session: Session, asset1: string, asset2: string)
    returns (r: Result<Comparison>)
    ensures r == Compared(session, asset1, asset2)
  {
    var metrics: map<string, MetricView> := map[];
    var symbols := [asset1, asset2];
    var i := 0;
    while i < |symbols|
      invariant 0 <= i <= |symbols|
      invariant forall s :: s in metrics <==> s in symbols[..i]
      invariant forall s :: s in metrics ==> SymbolMetric(session, s) == Ok(metrics[s])
      invariant i > 0 ==> SymbolMetric(session, asset1).Ok?
    {
      var symbol := symbols[i];
      var asset := GetAssetBySymbol(session, symbol);
      if !asset.Ok? {
        assert SymbolMetric(session, symbol) == Propagate(asset);
        return HandleErrors(Propagate(asset));
      }
      var metric := GetMetricByAssetId(session, asset.value.id, symbol);
      if !metric.Ok? {
        assert SymbolMetric(session, symbol) == Propagate(metric);
        return HandleErrors(Propagate(metric));
      }
      metrics := metrics[symbol := FormatMetric(metric.value)];
      i := i + 1;
    }
    assert symbols[..i] == [asset1, asset2];
    return Ok(Comparison(metrics[asset1], metrics[asset2]));
  }

  /** On a valid store a turn succeeds exactly when the symbol has a stored
      metric, and then yields that metric's values. */
  lemma SymbolMetricFindsStored(db: Db, symbol: string)
    requires Valid(db)
    ensures SymbolMetric(Open(db), symbol).Ok? <==> StoredMetric(db, symbol).Some?
    ensures StoredMetric(db, symbol).Some? ==>
      SymbolMetric(Open(db), symbol).value == FormatMetric(StoredMetric(db, symbol).value)
  {
    QueryAssetOnSchema(db, symbol);
    match FindAssetBySymbol(db.assets, symbol) {
      case None =>
      case Some(a) => QueryMetricOnValid(db, a.id);
    }
  }

  /** On a valid store a failed turn reports the first thing missing. */
  lemma SymbolMetricReportsMissing(db: Db, symbol: string)
    requires Valid(db)
    ensures FindAssetBySymbol(db.assets, symbol).None? ==>
      SymbolMetric(Open(db), symbol) == Err(HttpError(404, "Asset " + symbol + " not found"))
    ensures FindAssetBySymbol(db.assets, symbol).Some? && StoredMetric(db, symbol).None? ==>
      SymbolMetric(Open(db), symbol) == Err(HttpError(404, "Metrics not available for " + symbol))
  {
    QueryAssetOnSchema(db, symbol);
    match FindAssetBySymbol(db.assets, symbol) {
      case None =>
      case Some(a) => QueryMetricOnValid(db, a.id);
    }
  }

  /** The comparison succeeds exactly when both symbols have a stored metric,
      and then each entry holds exactly that metric's three values. */
  lemma CompareSucceedsIffBothStored(db: Db, asset1: string, asset2: string)
    requires Valid(db)
    ensures Compared(Open(db), asset1, asset2).Ok? <==>
      StoredMetric(db, asset1).Some? && StoredMetric(db, asset2).Some?
    ensures Compared(Open(db), asset1, asset2).Ok? ==>
      Compared(Open(db), asset1, asset2).value
        == Comparison(FormatMetric(StoredMetric(db, asset1).value), FormatMetric(StoredMetric(db, asset2).value))
  {
    SymbolMetricFindsStored(db, asset1);
    SymbolMetricFindsStored(db, asset2);
  }

  /** `asset1` is checked first: when it is unknown the error names it,
      whatever `asset2` is. */
  lemma CompareChecksFirstSymbolFirst(db: Db, asset1: string, asset2: string)
    requires forall i :: 0 <= i < |db.assets| ==> db.assets[i].symbol != asset1
    ensures Compared(Open(db), asset1, asset2) == Err(HttpError(404, "Asset " + asset1 + " not found"))
  {
    QueryAssetUnknown(db, asset1);
  }

  /** A stored asset without a metric row is a 404 naming its symbol. */
  lemma CompareMissingMetric(db: Db, asset1: string, asset2: string)
    requires Valid(db)
    requires FindAssetBySymbol(db.assets, asset1).Some? && StoredMetric(db, asset1).None?
    ensures Compared(Open(db), asset1, asset2) == Err(HttpError(404, "Metrics not available for " + asset1))
  {
    SymbolMetricReportsMissing(db, asset1);
  }

  /** Once the first symbol's turn has gone through, an unknown second
      symbol is the 404 naming it. */
  lemma CompareSecondSymbolUnknown(db: Db, asset1: string, asset2: string)
    requires SymbolMetric(Open(db), asset1).Ok?
    requires forall i :: 0 <= i < |db.assets| ==> db.assets[i].symbol != asset2
    ensures Compared(Open(db), asset1, asset2) == Err(HttpError(404, "Asset " + asset2 + " not found"))
  {
    QueryAssetUnknown(db, asset2);
  }

  /** Comparing a symbol with itself gives two equal entries. */
  lemma CompareWithItself(session: Session, symbol: string)
    ensures Compared(session, symbol, symbol).Ok? ==>
      Compared(session, symbol, symbol).value.asset1 == Compared(session, symbol, symbol).value.asset2
  {
  }

  /** A session whose queries raise gives 500 "Internal Server Error". */
  lemma CompareBrokenSession(asset1: string, asset2: string)
    ensures Compared(Broken, asset1, asset2) == Err(InternalServerError)
  {
  }

  /** The endpoint never lets a non-HTTP error escape, and every error it
      reports is one of the two 404s for either symbol, passed through
      unchanged, or the generic 500. */
  lemma CompareErrorsAreMapped(session: Session, asset1: string, asset2: string)
    ensures !Compared(session, asset1, asset2).Raised?
    ensures Compared(session, asset1, asset2).Err? ==>
      Compared(session, asset1, asset2).error in {
        HttpError(404, "Asset " + asset1 + " not found"),
        HttpError(404, "Metrics not available for " + asset1),
        HttpError(404, "Asset " + asset2 + " not found"),
        HttpError(404, "Metrics not available for " + asset2),
        InternalServerError}
  {
  }

  /** Two metric rows for the first symbol's asset make `scalar_one_or_none`
      raise, which the endpoint reports as a 500, whatever the second symbol is. */
  lemma CompareDuplicateMetricRows(db: Db, symbol: string, other: string, i: nat, j: nat)
    requires Schema(db) && FindAssetBySymbol(db.assets, symbol).Some?
    requires i < j < |db.metrics| && db.metrics[i].assetId == db.metrics[j].assetId
    requires db.metrics[i].assetId == FindAssetBySymbol(db.assets, symbol).value.id
    ensures Compared(Open(db), symbol, other) == Err(InternalServerError)
  {
    QueryAssetOnSchema(db, symbol);
    QueryMetricRaisesOnDuplicates(db, i, j);
  }
}
