/** The two tables of the market-data store and the constraints the schema
    declares on them: an `assets` table keyed by id with a unique symbol, and a
    `metrics` table whose rows point at an asset through `asset_id`. */
module Models {

  datatype Option<T> = None | Some(value: T)

  /** A row of the `assets` table. `lastUpdated` is the creation day. */
  datatype Asset = Asset(id: nat, symbol: string, name: string, lastUpdated: int)

  /** A row of the `metrics` table. `timestamp` is the insertion day. */
  datatype Metric = Metric(
    id: nat,
    assetId: nat,
    latestPrice: real,
    changePercent24h: real,
    averagePrice7d: real,
    timestamp: int)

  /** The whole store as a value: both tables, in row order, and the next
      surrogate key each table hands out. */
  datatype Db = Db(assets: seq<Asset>, metrics: seq<Metric>, nextAssetId: nat, nextMetricId: nat)

  /** A freshly created database: no rows, keys start at 1. */
  const EmptyDb := Db([], [], 1, 1)

  /** A database session as the read endpoints see it: either its queries
      answer from `db`, or every query raises an error that is not an HTTP error. */
  datatype Session = Open(db: Db) | Broken

  ghost predicate HasAsset(assets: seq<Asset>, id: nat) {
    exists i :: 0 <= i < |assets| && assets[i].id == id
  }

  /** The constraints the schema declares: primary keys, the unique symbol,
      the foreign key from metrics to assets, and freshness of the next keys. */
  ghost predicate Schema(db: Db) {
    && (forall i, j :: 0 <= i < j < |db.assets| ==>
          db.assets[i].id != db.assets[j].id && db.assets[i].symbol != db.assets[j].symbol)
    && (forall i, j :: 0 <= i < j < |db.metrics| ==> db.metrics[i].id != db.metrics[j].id)
    && (forall i :: 0 <= i < |db.metrics| ==> HasAsset(db.assets, db.metrics[i].assetId))
    && (forall i :: 0 <= i < |db.assets| ==> db.assets[i].id < db.nextAssetId)
    && (forall i :: 0 <= i < |db.metrics| ==> db.metrics[i].id < db.nextMetricId)
  }

  /** Not a schema constraint (the relation is one-to-many); the ingestion
      upsert is what keeps it. */
  ghost predicate AtMostOneMetricPerAsset(metrics: seq<Metric>) {
    forall i, j :: 0 <= i < j < |metrics| ==> metrics[i].assetId != metrics[j].assetId
  }

  ghost predicate Valid(db: Db) {
    Schema(db) && AtMostOneMetricPerAsset(db.metrics)
  }

  /** `select(Asset).where(Asset.symbol == symbol)` followed by `scalar_one_or_none`. */
  function FindAssetBySymbol(assets: seq<Asset>, symbol: string): (r: Option<Asset>)
    ensures r.Some? ==> r.value in assets && r.value.symbol == symbol
    ensures r.None? <==> forall i :: 0 <= i < |assets| ==> assets[i].symbol != symbol
  {
    if assets == [] then None
    else if assets[0].symbol == symbol then Some(assets[0])
    else FindAssetBySymbol(assets[1..], symbol)
  }

  /** Every row `select(Asset).where(Asset.symbol == symbol)` returns, in row order. */
  function AssetsWithSymbol(assets: seq<Asset>, symbol: string): (r: seq<Asset>)
    ensures forall a :: a in r <==> a in assets && a.symbol == symbol
  {
    if assets == [] then []
    else if assets[0].symbol == symbol then [assets[0]] + AssetsWithSymbol(assets[1..], symbol)
    else AssetsWithSymbol(assets[1..], symbol)
  }

  /** Position of the metric row of an asset, if there is one. */
  function FindMetricIndex(metrics: seq<Metric>, assetId: nat): (r: Option<nat>)
    ensures r.Some? ==> r.value < |metrics| && metrics[r.value].assetId == assetId
    ensures r.Some? ==> forall k :: 0 <= k < r.value ==> metrics[k].assetId != assetId
    ensures r.None? <==> forall k :: 0 <= k < |metrics| ==> metrics[k].assetId != assetId
  {
    if metrics == [] then None
    else if metrics[0].assetId == assetId then Some(0)
    else match FindMetricIndex(metrics[1..], assetId)
      case None => None
      case Some(k) => Some(k + 1)
  }

  /** The first metric row of an asset. Where at most one row points at the
      asset (`MetricLookupUnique`) this is what `select(Metric).where(Metric.asset_id
      == asset_id)` followed by `scalar_one_or_none` returns; where several do,
      that query raises instead. */
  function FindMetric(metrics: seq<Metric>, assetId: nat): (r: Option<Metric>)
    ensures r.Some? ==> r.value in metrics && r.value.assetId == assetId
    ensures r.None? <==> forall k :: 0 <= k < |metrics| ==> metrics[k].assetId != assetId
  {
    match FindMetricIndex(metrics, assetId)
    case None => None
    case Some(k) => Some(metrics[k])
  }

  /** `scalar_one_or_none` over the metric rows of an asset returns rather
      than raising `MultipleResultsFound`: no two rows point at the asset. */
  predicate MetricLookupUnique(metrics: seq<Metric>, assetId: nat) {
    forall i, j :: 0 <= i < j < |metrics| && metrics[i].assetId == assetId ==> metrics[j].assetId != assetId
  }

  /** The `Asset.metrics` relationship: every metric row of an asset, in row order. */
  function MetricsOf(metrics: seq<Metric>, assetId: nat): (r: seq<Metric>)
    ensures forall m :: m in r <==> m in metrics && m.assetId == assetId
    ensures |r| <= |metrics|
  {
    if metrics == [] then []
    else if metrics[0].assetId == assetId then [metrics[0]] + MetricsOf(metrics[1..], assetId)
    else MetricsOf(metrics[1..], assetId)
  }

  /** With unique symbols, the lookup finds the one asset that carries the symbol. */
  lemma {:induction false} FindAssetUnique(db: Db, i: nat)
    requires Schema(db) && i < |db.assets|
    decreases i
    ensures FindAssetBySymbol(db.assets, db.assets[i].symbol) == Some(db.assets[i])
  {
    var s := db.assets[i].symbol;
    if i > 0 {
      assert db.assets[0].symbol != s;
      var rest := db.(assets := db.assets[1..], metrics := []);
      FindAssetUnique(rest, i - 1);
    }
  }

  /** A symbol no asset carries selects no row. */
  lemma {:induction false} AssetsWithSymbolNone(assets: seq<Asset>, symbol: string)
    requires forall i :: 0 <= i < |assets| ==> assets[i].symbol != symbol
    ensures AssetsWithSymbol(assets, symbol) == []
  {
    if assets != [] {
      var rest := assets[1..];
      assert forall i :: 0 <= i < |rest| ==> rest[i].symbol != symbol by {
        forall i | 0 <= i < |rest| ensures rest[i].symbol != symbol {
          assert rest[i] == assets[i + 1];
        }
      }
      AssetsWithSymbolNone(rest, symbol);
    }
  }

  /** With unique symbols, the query returns exactly the row the lookup finds, or nothing. */
  lemma {:induction false} AssetsWithSymbolUnique(assets: seq<Asset>, symbol: string)
    requires forall i, j :: 0 <= i < j < |assets| ==> assets[i].symbol != assets[j].symbol
    ensures FindAssetBySymbol(assets, symbol).None? ==> AssetsWithSymbol(assets, symbol) == []
    ensures FindAssetBySymbol(assets, symbol).Some? ==>
      AssetsWithSymbol(assets, symbol) == [FindAssetBySymbol(assets, symbol).value]
  {
    if assets != [] {
      var rest := assets[1..];
      assert forall i, j :: 0 <= i < j < |rest| ==> rest[i].symbol != rest[j].symbol by {
        forall i, j | 0 <= i < j < |rest| ensures rest[i].symbol != rest[j].symbol {
          assert rest[i] == assets[i + 1] && rest[j] == assets[j + 1];
        }
      }
      AssetsWithSymbolUnique(rest, symbol);
      if assets[0].symbol == symbol {
        assert forall i :: 0 <= i < |rest| ==> rest[i].symbol != symbol by {
          forall i | 0 <= i < |rest| ensures rest[i].symbol != symbol {
            assert rest[i] == assets[i + 1];
          }
        }
      }
    }
  }

  /** The metric row the store holds for a symbol: that of the asset carrying it. */
  function StoredMetric(db: Db, symbol: string): (r: Option<Metric>)
    ensures r.Some? ==> r.value in db.metrics
    ensures r.Some? ==>
      && FindAssetBySymbol(db.assets, symbol).Some?
      && r.value.assetId == FindAssetBySymbol(db.assets, symbol).value.id
  {
    match FindAssetBySymbol(db.assets, symbol)
    case None => None
    case Some(a) => FindMetric(db.metrics, a.id)
  }

  /** With at most one metric per asset, the relationship holds exactly the row
      the lookup finds, or nothing. */
  lemma {:induction false} MetricsOfAtMostOne(metrics: seq<Metric>, assetId: nat)
    requires AtMostOneMetricPerAsset(metrics)
    ensures FindMetric(metrics, assetId).None? ==> MetricsOf(metrics, assetId) == []
    ensures FindMetric(metrics, assetId).Some? ==> MetricsOf(metrics, assetId) == [FindMetric(metrics, assetId).value]
  {
    if metrics != [] {
      MetricsOfAtMostOne(metrics[1..], assetId);
      if metrics[0].assetId == assetId {
        assert forall k :: 0 <= k < |metrics[1..]| ==> metrics[1..][k].assetId != assetId by {
          forall k | 0 <= k < |metrics[1..]| ensures metrics[1..][k].assetId != assetId {
            assert metrics[1..][k] == metrics[k + 1];
          }
        }
      }
    }
  }

  /** An asset no metric row points at has an empty relationship list. */
  lemma {:induction false} MetricsOfNone(metrics: seq<Metric>, assetId: nat)
    requires forall k :: 0 <= k < |metrics| ==> metrics[k].assetId != assetId
    ensures MetricsOf(metrics, assetId) == []
  {
    if metrics != [] {
      var rest := metrics[1..];
      assert forall k :: 0 <= k < |rest| ==> rest[k].assetId != assetId by {
        forall k | 0 <= k < |rest| ensures rest[k].assetId != assetId {
          assert rest[k] == metrics[k + 1];
        }
      }
      MetricsOfNone(rest, assetId);
    }
  }

  /** Where no two rows point at an asset, its relationship list has at most one row. */
  lemma {:induction false} MetricsOfUnique(metrics: seq<Metric>, assetId: nat)
    requires MetricLookupUnique(metrics, assetId)
    ensures |MetricsOf(metrics, assetId)| <= 1
  {
    if metrics != [] {
      var rest := metrics[1..];
      assert MetricLookupUnique(rest, assetId) by {
        forall i, j | 0 <= i < j < |rest| && rest[i].assetId == assetId
          ensures rest[j].assetId != assetId
        {
          assert rest[i] == metrics[i + 1] && rest[j] == metrics[j + 1];
        }
      }
      MetricsOfUnique(rest, assetId);
      if metrics[0].assetId == assetId {
        assert forall k :: 0 <= k < |rest| ==> rest[k].assetId != assetId by {
          forall k | 0 <= k < |rest| ensures rest[k].assetId != assetId {
            assert rest[k] == metrics[k + 1];
          }
        }
        MetricsOfNone(rest, assetId);
      }
    }
  }

  /** Two metric rows of one asset are both in its relationship list. */
  lemma {:induction false} MetricsOfTwo(metrics: seq<Metric>, i: nat, j: nat)
    requires i < j < |metrics| && metrics[i].assetId == metrics[j].assetId
    decreases i
    ensures |MetricsOf(metrics, metrics[i].assetId)| >= 2
  {
    var rest := metrics[1..];
    if i == 0 {
      assert rest[j - 1] == metrics[j];
      assert metrics[j] in MetricsOf(rest, metrics[j].assetId);
    } else {
      assert rest[i - 1] == metrics[i] && rest[j - 1] == metrics[j];
      MetricsOfTwo(rest, i - 1, j - 1);
    }
  }

  /** With at most one metric per asset, the metric row of an asset is the
      one the lookup finds. */
  lemma FindMetricUnique(metrics: seq<Metric>, k: nat)
    requires AtMostOneMetricPerAsset(metrics) && k < |metrics|
    ensures FindMetric(metrics, metrics[k].assetId) == Some(metrics[k])
  {
    var r := FindMetricIndex(metrics, metrics[k].assetId);
    assert r.Some?;
  }

  /** The schema alone allows an asset with two metric rows: the "at most one"
      rule is not a constraint of the tables. */
  lemma SchemaAllowsSeveralMetricsPerAsset()
    ensures exists db :: Schema(db) && !AtMostOneMetricPerAsset(db.metrics)
  {
    var a := Asset(1, "BTC-USD", "BTC-USD", 0);
    var m1 := Metric(1, 1, 1.0, 0.0, 1.0, 0);
    var m2 := Metric(2, 1, 2.0, 0.0, 2.0, 0);
    var db := Db([a], [m1, m2], 2, 3);
    assert HasAsset(db.assets, m1.assetId) by { assert db.assets[0].id == 1; }
    assert Schema(db);
    assert db.metrics[0].assetId == db.metrics[1].assetId;
  }

  /** The database the services share. Every commit of the service is an
      immediate update of these fields. */
  class Store {
    var assets: seq<Asset>
    var metrics: seq<Metric>
    var nextAssetId: nat
    var nextMetricId: nat

    function State(): Db
      reads this
    {
      Db(assets, metrics, nextAssetId, nextMetricId)
    }

    /** Tables as `create_all` leaves them. */
    constructor ()
      ensures State() == EmptyDb && Valid(State())
    {
      assets, metrics := [], [];
      nextAssetId, nextMetricId := 1, 1;
    }
  }
}
