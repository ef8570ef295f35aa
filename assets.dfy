/** The asset listing endpoint: every asset with its metric rows. */
module Assets {
  import opened Models
  import opened Api

  /** The dictionary `format_asset` builds. `metrics` is `None` for an asset
      whose relationship list is empty. */
  datatype AssetView = AssetView(symbol: string, name: string, metrics: Option<seq<MetricView>>)

  /** `format_asset`, given the asset's relationship list. */
  function FormatAsset(a: Asset, metrics: seq<Metric>): AssetView {
    AssetView(
      a.symbol,
      a.name,
      if metrics == [] then None
      else Some(seq(|metrics|, i requires 0 <= i < |metrics| => FormatMetric(metrics[i]))))
  }

  /** `list_assets` over `fetch_assets_with_metrics`: every asset with its
      eagerly loaded metrics; any exception is a 500. */
  function ListAssets(session: Session): Result<seq<AssetView>> {
    match session
    case Broken => HandleErrors(Raised)
    case Open(db) =>
      Ok(seq(|db.assets|, i requires 0 <= i < |db.assets| =>
        FormatAsset(db.assets[i], MetricsOf(db.metrics, db.assets[i].id))))
  }

  /** One entry per stored asset, in order, with its symbol and name; its
      metrics are `None` exactly when no metric row points at it, and are
      otherwise the formatted rows that do. */
  lemma ListAssetsOneEntryPerAsset(db: Db)
    ensures ListAssets(Open(db)).Ok?
    ensures var v := ListAssets(Open(db)).value;
      && |v| == |db.assets|
      && forall i :: 0 <= i < |v| ==>
        && v[i].symbol == db.assets[i].symbol && v[i].name == db.assets[i].name
        && (v[i].metrics.None? <==> forall k :: 0 <= k < |db.metrics| ==> db.metrics[k].assetId != db.assets[i].id)
        && (v[i].metrics.Some? ==> forall mv :: mv in v[i].metrics.value <==>
              exists m :: m in db.metrics && m.assetId == db.assets[i].id && mv == FormatMetric(m))
        && (v[i].metrics.Some? ==>
              var ms := MetricsOf(db.metrics, db.assets[i].id);
              && |v[i].metrics.value| == |ms|
              && forall j :: 0 <= j < |ms| ==> v[i].metrics.value[j] == FormatMetric(ms[j]))
  {
    var v := ListAssets(Open(db)).value;
    forall i | 0 <= i < |v|
      ensures v[i].metrics.None? <==> forall k :: 0 <= k < |db.metrics| ==> db.metrics[k].assetId != db.assets[i].id
      ensures v[i].metrics.Some? ==> forall mv :: mv in v[i].metrics.value <==>
              exists m :: m in db.metrics && m.assetId == db.assets[i].id && mv == FormatMetric(m)
    {
      var ms := MetricsOf(db.metrics, db.assets[i].id);
      if ms == [] {
        forall k | 0 <= k < |db.metrics| ensures db.metrics[k].assetId != db.assets[i].id {
          assert db.metrics[k] !in ms;
        }
      } else {
        assert ms[0] in ms;
        forall mv ensures mv in v[i].metrics.value <==>
          exists m :: m in db.metrics && m.assetId == db.assets[i].id && mv == FormatMetric(m)
        {
          if mv in v[i].metrics.value {
            var j :| 0 <= j < |ms| && v[i].metrics.value[j] == mv;
            assert ms[j] in ms;
          }
          if exists m :: m in db.metrics && m.assetId == db.assets[i].id && mv == FormatMetric(m) {
            var m :| m in db.metrics && m.assetId == db.assets[i].id && mv == FormatMetric(m);
            assert m in ms;
            var j :| 0 <= j < |ms| && ms[j] == m;
            assert v[i].metrics.value[j] == mv;
          }
        }
      }
    }
  }

  /** With at most one metric per asset, an entry's metrics are absent or
      the single stored metric of that asset. */
  lemma ListAssetsOnValid(db: Db, i: nat)
    requires Valid(db) && i < |db.assets|
    ensures var e := ListAssets(Open(db)).value[i];
      && (StoredMetric(db, db.assets[i].symbol).None? ==> e.metrics.None?)
      && (StoredMetric(db, db.assets[i].symbol).Some? ==>
            e.metrics == Some([FormatMetric(StoredMetric(db, db.assets[i].symbol).value)]))
  {
    FindAssetUnique(db, i);
    MetricsOfAtMostOne(db.metrics, db.assets[i].id);
    var ms := MetricsOf(db.metrics, db.assets[i].id);
    var e := ListAssets(Open(db)).value[i];
    assert e == FormatAsset(db.assets[i], ms);
    if |ms| == 1 {
      assert e.metrics.value == [FormatMetric(ms[0])];
    }
  }

  /** A session whose queries raise gives 500 "Internal Server Error". */
  lemma ListAssetsBrokenSession()
    ensures ListAssets(Broken) == Err(InternalServerError)
  {
  }

  /** The shape of the integration test: one asset with one metric row gives
      one entry with that symbol, name and the three values. */
  lemma ListAssetsSingleAsset(a: Asset, m: Metric)
    requires m.assetId == a.id
    ensures ListAssets(Open(Db([a], [m], a.id + 1, m.id + 1)))
      == Ok([AssetView(a.symbol, a.name, Some([MetricView(m.latestPrice, m.changePercent24h, m.averagePrice7d)]))])
  {
    assert MetricsOf([m], a.id) == [m];
    var e := FormatAsset(a, [m]);
    assert e.metrics.value == [FormatMetric(m)];
    assert ListAssets(Open(Db([a], [m], a.id + 1, m.id + 1))).value == [e];
  }
}
