/** What the HTTP endpoints hand back, the two queries several of them share,
    and the metric dictionary `format_metric` builds. */
module Api {
  import opened Models

  datatype HttpError = HttpError(status: int, detail: string)

  /** What a step of an endpoint ends with: a value, an `HTTPException`, or
      any other exception (`Raised`). */
  datatype Result<T> = Ok(value: T) | Err(error: HttpError) | Raised

  /** What a step that returns nothing ends with: nothing, or an `HTTPException`. */
  datatype Outcome = Pass | Fail(error: HttpError)

  /** The generic error the endpoints turn any other exception into. */
  const InternalServerError := HttpError(500, "Internal Server Error")

  /** A failed step's exception, propagated unchanged to a step of another type. */
  function Propagate<T, U>(r: Result<T>): (s: Result<U>)
    requires !r.Ok?
    ensures !s.Ok?
    ensures s.Err? <==> r.Err?
    ensures s.Err? ==> s.error == r.error
  {
    match r
    case Err(e) => Err(e)
    case Raised => Raised
  }

  /** The endpoints' `except HTTPException: raise` followed by `except
      Exception: raise HTTPException(500, "Internal Server Error")`. */
  function HandleErrors<T>(r: Result<T>): (s: Result<T>)
    ensures !s.Raised?
    ensures r.Raised? ==> s == Err(InternalServerError)
    ensures !r.Raised? ==> s == r
  {
    if r.Raised? then Err(InternalServerError) else r
  }

  /** What `scalar_one_or_none` makes of the rows of a query: nothing, the one
      row, or `MultipleResultsFound` for more than one. */
  function ScalarOneOrNone<T>(rows: seq<T>): (r: Result<Option<T>>)
    ensures r.Ok? && r.value.None? <==> rows == []
    ensures r.Ok? && r.value.Some? <==> |rows| == 1
    ensures r.Ok? && r.value.Some? ==> r.value.value == rows[0]
    ensures !r.Err?
  {
    if rows == [] then Ok(None)
    else if |rows| == 1 then Ok(Some(rows[0]))
    else Raised
  }

  /** `execute(select(Asset).where(Asset.symbol == symbol))` and
      `scalar_one_or_none`, on a session that may be broken. */
  function QueryAsset(session: Session, symbol: string): (r: Result<Option<Asset>>)
    ensures !r.Err?
    ensures session.Broken? ==> r.Raised?
    ensures r.Ok? && r.value.Some? ==>
      session.Open? && r.value.value in session.db.assets && r.value.value.symbol == symbol
  {
    match session
    case Broken => Raised
    case Open(db) =>
      var rows := AssetsWithSymbol(db.assets, symbol);
      var r := ScalarOneOrNone(rows);
      assert r.Ok? && r.value.Some? ==> r.value.value in rows;
      r
  }

  /** `execute(select(Metric).where(Metric.asset_id == asset_id))` and
      `scalar_one_or_none`, on a session that may be broken. */
  function QueryMetric(session: Session, assetId: nat): (r: Result<Option<Metric>>)
    ensures !r.Err?
    ensures session.Broken? ==> r.Raised?
    ensures r.Ok? && r.value.Some? ==>
      session.Open? && r.value.value in session.db.metrics && r.value.value.assetId == assetId
  {
    match session
    case Broken => Raised
    case Open(db) =>
      var rows := MetricsOf(db.metrics, assetId);
      var r := ScalarOneOrNone(rows);
      assert r.Ok? && r.value.Some? ==> r.value.value in rows;
      r
  }

  /** On a store with unique symbols the asset query never raises and finds
      exactly what the lookup finds. */
  lemma QueryAssetOnSchema(db: Db, symbol: string)
    requires Schema(db)
    ensures QueryAsset(Open(db), symbol) == Ok(FindAssetBySymbol(db.assets, symbol))
  {
    AssetsWithSymbolUnique(db.assets, symbol);
  }

  /** A symbol no asset carries gives no row and no error, on any store. */
  lemma QueryAssetUnknown(db: Db, symbol: string)
    requires forall i :: 0 <= i < |db.assets| ==> db.assets[i].symbol != symbol
    ensures QueryAsset(Open(db), symbol) == Ok(None)
  {
    AssetsWithSymbolNone(db.assets, symbol);
  }

  /** With at most one metric per asset the metric query never raises and
      finds exactly what the lookup finds. */
  lemma QueryMetricOnValid(db: Db, assetId: nat)
    requires AtMostOneMetricPerAsset(db.metrics)
    ensures QueryMetric(Open(db), assetId) == Ok(FindMetric(db.metrics, assetId))
  {
    MetricsOfAtMostOne(db.metrics, assetId);
  }

  /** An asset with two metric rows makes the metric query raise. */
  lemma QueryMetricRaisesOnDuplicates(db: Db, i: nat, j: nat)
    requires i < j < |db.metrics| && db.metrics[i].assetId == db.metrics[j].assetId
    ensures QueryMetric(Open(db), db.metrics[i].assetId) == Raised
  {
    MetricsOfTwo(db.metrics, i, j);
  }

  /** The metric query raises exactly when two rows point at the asset, the
      same condition under which `upsert_metric`'s lookup raises. */
  lemma QueryMetricRaisesIffDuplicated(db: Db, assetId: nat)
    ensures QueryMetric(Open(db), assetId).Raised? <==> !MetricLookupUnique(db.metrics, assetId)
  {
    if MetricLookupUnique(db.metrics, assetId) {
      MetricsOfUnique(db.metrics, assetId);
    } else {
      var i, j :| 0 <= i < j < |db.metrics| && db.metrics[i].assetId == assetId && db.metrics[j].assetId == assetId;
      MetricsOfTwo(db.metrics, i, j);
    }
  }

  /** The dictionary `format_metric` builds: the three values of a metric row. */
  datatype MetricView = MetricView(latestPrice: real, changePercent24h: real, averagePrice7d: real)

  function FormatMetric(m: Metric): MetricView {
    MetricView(m.latestPrice, m.changePercent24h, m.averagePrice7d)
  }

  /** The formatted metric exposes the three values and nothing else: two rows
      format alike exactly when their values agree, whatever their id, asset
      and timestamp. */
  lemma FormatMetricKeepsExactlyTheValues(m: Metric, n: Metric)
    ensures FormatMetric(m) == FormatMetric(n) <==>
      m.latestPrice == n.latestPrice && m.changePercent24h == n.changePercent24h
      && m.averagePrice7d == n.averagePrice7d
  {
  }
}
