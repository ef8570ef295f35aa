/** The ingestion service: the date window of a fetch, the find-or-create
    upserts of an asset and of its metric row, and the batch that runs fetch
    and persistence for every symbol with three attempts each. The provider
    and the points where persistence raises are inputs. */
module Ingestion {
  import opened Models
  import opened PriceMetrics

  const DefaultDaysBack := 15
  const MaxRetries := 3
  const DefaultSymbols: seq<string> := ["BTC-USD", "ETH-USD", "TSLA"]

  /** `get_date_range` with days numbered as integers: the window ends the day
      after `now` and starts `daysBack` days before its end. */
  function DateRange(now: int, daysBack: int): (r: (int, int))
    ensures r.1 == now + 1
    ensures r.1 - r.0 == daysBack
  {
    var end := now + 1;
    (end - daysBack, end)
  }

  /** The window `fetch_asset_data` asks the provider for, with the default
      look-back: the fifteen days from fourteen days before `now` up to, not
      including, the day after it. */
  lemma FetchWindow(now: int)
    ensures DateRange(now, DefaultDaysBack) == (now - 14, now + 1)
  {
  }

  /** What the provider returns for each symbol over the window, closes in
      date order. A symbol missing from the map is one whose request raised. */
  type Feed = map<string, seq<real>>

  ghost predicate FeedBaselinesNonZero(feed: Feed) {
    forall s :: s in feed ==> BaselineNonZero(feed[s])
  }

  /** `fetch_asset_data`: every failure of the provider or of the arithmetic
      is caught and becomes "no data". */
  function FetchAssetData(feed: Feed, symbol: string): (r: Option<MetricData>)
    requires symbol in feed ==> BaselineNonZero(feed[symbol])
    ensures r.None? <==> symbol !in feed || |feed[symbol]| < 2
    ensures r.Some? ==> r.value.symbol == symbol && r.value.latestPrice == feed[symbol][|feed[symbol]| - 1]
  {
    if symbol in feed then ComputeMetrics(symbol, feed[symbol]) else None
  }

  /** What `fetch_asset_data` answers for each symbol during one batch. The
      batch is stated over these answers; `FeedFetch` gives them for a
      provider that returns the closes in `feed`. */
  type Fetch = string -> Option<MetricData>

  function FeedFetch(feed: Feed): Fetch
    requires FeedBaselinesNonZero(feed)
  {
    s => FetchAssetData(feed, s)
  }

  // ---------------------------------------------------------------------------
  // upsert_asset

  /** The effect of `upsert_asset` on the database, and the asset it returns. */
  function UpsertAssetDb(db: Db, symbol: string, now: int): (r: (Db, Asset))
    ensures r.1.symbol == symbol && r.1 in r.0.assets && HasAsset(r.0.assets, r.1.id)
    ensures r.0.metrics == db.metrics && r.0.nextMetricId == db.nextMetricId
  {
    match FindAssetBySymbol(db.assets, symbol)
    case Some(a) =>
      assert exists i :: 0 <= i < |db.assets| && db.assets[i] == a;
      (db, a)
    case None =>
      var a := Asset(db.nextAssetId, symbol, symbol, now);
      var assets := db.assets + [a];
      assert assets[|db.assets|] == a;
      (db.(assets := assets, nextAssetId := db.nextAssetId + 1), a)
  }

  /** An asset that is already stored is returned as it is, and nothing changes. */
  lemma UpsertAssetExisting(db: Db, i: nat, now: int)
    requires Schema(db) && i < |db.assets|
    ensures UpsertAssetDb(db, db.assets[i].symbol, now) == (db, db.assets[i])
  {
    FindAssetUnique(db, i);
  }

  /** A symbol not yet stored adds exactly one asset, named after its symbol,
      under a fresh key; the metrics are untouched. */
  lemma UpsertAssetNew(db: Db, symbol: string, now: int)
    requires forall i :: 0 <= i < |db.assets| ==> db.assets[i].symbol != symbol
    ensures var r := UpsertAssetDb(db, symbol, now);
      && r.1 == Asset(db.nextAssetId, symbol, symbol, now)
      && r.0.assets == db.assets + [r.1]
      && r.0.nextAssetId == db.nextAssetId + 1
      && r.0.metrics == db.metrics
  {
  }

  lemma {:induction false} FindAssetAppend(assets: seq<Asset>, a: Asset)
    requires forall i :: 0 <= i < |assets| ==> assets[i].symbol != a.symbol
    ensures FindAssetBySymbol(assets + [a], a.symbol) == Some(a)
  {
    if assets == [] {
      assert [] + [a] == [a];
    } else {
      assert (assets + [a])[1..] == assets[1..] + [a];
      FindAssetAppend(assets[1..], a);
    }
  }

  /** Upserting a symbol twice is upserting it once. */
  lemma UpsertAssetIdempotent(db: Db, symbol: string, now: int, later: int)
    ensures var r := UpsertAssetDb(db, symbol, now);
      UpsertAssetDb(r.0, symbol, later) == r
  {
    var r := UpsertAssetDb(db, symbol, now);
    if FindAssetBySymbol(db.assets, symbol).None? {
      FindAssetAppend(db.assets, r.1);
    }
  }

  lemma HasAssetAppend(assets: seq<Asset>, a: Asset, id: nat)
    requires HasAsset(assets, id)
    ensures HasAsset(assets + [a], id)
  {
    var i :| 0 <= i < |assets| && assets[i].id == id;
    assert (assets + [a])[i] == assets[i];
  }

  /** `upsert_asset` keeps every schema constraint and the one-metric rule. */
  lemma UpsertAssetPreservesValid(db: Db, symbol: string, now: int)
    requires Valid(db)
    ensures Valid(UpsertAssetDb(db, symbol, now).0)
  {
    if FindAssetBySymbol(db.assets, symbol).None? {
      var r := UpsertAssetDb(db, symbol, now).0;
      forall i | 0 <= i < |r.metrics|
        ensures HasAsset(r.assets, r.metrics[i].assetId)
      {
        HasAssetAppend(db.assets, r.assets[|db.assets|], r.metrics[i].assetId);
      }
    }
  }

  /** The symbol's asset is the one the lookup finds afterwards. */
  lemma UpsertAssetFindable(db: Db, symbol: string, now: int)
    requires Schema(db)
    ensures var r := UpsertAssetDb(db, symbol, now);
      FindAssetBySymbol(r.0.assets, symbol) == Some(r.1)
  {
    var r := UpsertAssetDb(db, symbol, now);
    if FindAssetBySymbol(db.assets, symbol).None? {
      FindAssetAppend(db.assets, r.1);
    }
  }

  // ---------------------------------------------------------------------------
  // upsert_metric

  /** The effect of `upsert_metric` on the database when its lookup returns:
      overwrite the three values of the asset's metric row, or insert a new
      row. Where two rows point at the asset the lookup raises instead; that
      branch is taken by `Attempt`. */
  function UpsertMetricDb(db: Db, assetId: nat, data: MetricData, now: int): (r: Db)
    requires MetricLookupUnique(db.metrics, assetId)
    ensures r.assets == db.assets && r.nextAssetId == db.nextAssetId
  {
    match FindMetricIndex(db.metrics, assetId)
    case Some(k) =>
      var m := db.metrics[k].(
        latestPrice := data.latestPrice,
        changePercent24h := data.changePercent24h,
        averagePrice7d := data.averagePrice7d);
      db.(metrics := db.metrics[k := m])
    case None =>
      var m := Metric(db.nextMetricId, assetId, data.latestPrice, data.changePercent24h,
                      data.averagePrice7d, now);
      db.(metrics := db.metrics + [m], nextMetricId := db.nextMetricId + 1)
  }

  /** The three values of `data` as a metric row of `assetId` carries them. */
  predicate Carries(m: Metric, assetId: nat, data: MetricData) {
    && m.assetId == assetId
    && m.latestPrice == data.latestPrice
    && m.changePercent24h == data.changePercent24h
    && m.averagePrice7d == data.averagePrice7d
  }

  /** An existing row is overwritten in place: same position, same id, asset and
      timestamp, the new three values; no row is added and no other row changes. */
  lemma UpsertMetricUpdatesInPlace(db: Db, k: nat, data: MetricData, now: int)
    requires AtMostOneMetricPerAsset(db.metrics) && k < |db.metrics|
    ensures var old_ := db.metrics[k];
      var r := UpsertMetricDb(db, old_.assetId, data, now);
      && |r.metrics| == |db.metrics| && r.nextMetricId == db.nextMetricId
      && Carries(r.metrics[k], old_.assetId, data)
      && r.metrics[k].id == old_.id && r.metrics[k].timestamp == old_.timestamp
      && (forall j :: 0 <= j < |db.metrics| && j != k ==> r.metrics[j] == db.metrics[j])
  {
    FindMetricUnique(db.metrics, k);
  }

  /** An asset without a metric gets exactly one new row, with a fresh key. */
  lemma UpsertMetricInserts(db: Db, assetId: nat, data: MetricData, now: int)
    requires forall k :: 0 <= k < |db.metrics| ==> db.metrics[k].assetId != assetId
    ensures UpsertMetricDb(db, assetId, data, now).metrics
      == db.metrics + [Metric(db.nextMetricId, assetId, data.latestPrice,
                              data.changePercent24h, data.averagePrice7d, now)]
    ensures UpsertMetricDb(db, assetId, data, now).nextMetricId == db.nextMetricId + 1
  {
  }

  /** Afterwards the asset's metric row, as the lookup finds it, holds `data`. */
  lemma UpsertMetricReadBack(db: Db, assetId: nat, data: MetricData, now: int)
    requires MetricLookupUnique(db.metrics, assetId)
    ensures var f := FindMetric(UpsertMetricDb(db, assetId, data, now).metrics, assetId);
      f.Some? && Carries(f.value, assetId, data)
  {
    var r := UpsertMetricDb(db, assetId, data, now);
    match FindMetricIndex(db.metrics, assetId)
    case Some(k) =>
      assert forall j :: 0 <= j < k ==> r.metrics[j] == db.metrics[j];
      assert r.metrics[k].assetId == assetId;
      var f := FindMetricIndex(r.metrics, assetId);
      assert f.Some?;
      assert f.value == k;
    case None =>
      assert r.metrics[|db.metrics|].assetId == assetId;
      var f := FindMetricIndex(r.metrics, assetId);
      assert f.Some? && f.value == |db.metrics|;
  }

  /** For an asset that exists, `upsert_metric` keeps every schema constraint
      and at most one metric per asset. */
  lemma UpsertMetricPreservesValid(db: Db, assetId: nat, data: MetricData, now: int)
    requires Valid(db) && HasAsset(db.assets, assetId)
    ensures Valid(UpsertMetricDb(db, assetId, data, now))
  {
    var r := UpsertMetricDb(db, assetId, data, now);
    match FindMetricIndex(db.metrics, assetId) {
      case Some(k) =>
        SameKeysKeepValid(db, r.metrics);
      case None =>
        AppendKeepsValid(db, r.metrics[|db.metrics|]);
    }
  }

  /** Rewriting the values of metric rows, keeping each row's key and asset,
      keeps every constraint. */
  lemma SameKeysKeepValid(db: Db, metrics: seq<Metric>)
    requires Valid(db) && |metrics| == |db.metrics|
    requires forall j :: 0 <= j < |metrics| ==>
      metrics[j].id == db.metrics[j].id && metrics[j].assetId == db.metrics[j].assetId
    ensures Valid(db.(metrics := metrics))
  {
  }

  /** A new row under the next key, for a stored asset that has no row yet,
      keeps every constraint. */
  lemma AppendKeepsValid(db: Db, m: Metric)
    requires Valid(db) && HasAsset(db.assets, m.assetId) && m.id == db.nextMetricId
    requires forall k :: 0 <= k < |db.metrics| ==> db.metrics[k].assetId != m.assetId
    ensures Valid(db.(metrics := db.metrics + [m], nextMetricId := db.nextMetricId + 1))
  {
    var r := db.metrics + [m];
    assert forall j :: 0 <= j < |db.metrics| ==> r[j] == db.metrics[j];
  }

  /** Ingesting the same symbol twice with different values leaves one metric
      row for its asset, holding the second values. */
  lemma UpsertTwiceKeepsLatest(db: Db, symbol: string, first: MetricData, second: MetricData, now: int, later: int)
    requires Valid(db)
    ensures
      var (db1, a1) := UpsertAssetDb(db, symbol, now);
      var db2 := UpsertMetricDb(db1, a1.id, first, now);
      var (db3, a2) := UpsertAssetDb(db2, symbol, later);
      && a2 == a1
      && MetricLookupUnique(db3.metrics, a2.id)
      && (var db4 := UpsertMetricDb(db3, a2.id, second, later);
          && |MetricsOf(db4.metrics, a1.id)| == 1
          && Carries(MetricsOf(db4.metrics, a1.id)[0], a1.id, second))
  {
    var (db1, a1) := UpsertAssetDb(db, symbol, now);
    UpsertAssetPreservesValid(db, symbol, now);
    UpsertAssetFindable(db, symbol, now);
    var db2 := UpsertMetricDb(db1, a1.id, first, now);
    UpsertMetricPreservesValid(db1, a1.id, first, now);
    assert db2.assets == db1.assets;
    var (db3, a2) := UpsertAssetDb(db2, symbol, later);
    assert a2 == a1;
    assert db3 == db2;
    var db4 := UpsertMetricDb(db3, a2.id, second, later);
    UpsertMetricPreservesValid(db3, a2.id, second, later);
    UpsertMetricReadBack(db3, a2.id, second, later);
    MetricsOfAtMostOne(db4.metrics, a1.id);
  }

  // ---------------------------------------------------------------------------
  // the ingest_data retry loop

  /** Where persistence raises on a given attempt: nowhere, inside
      `upsert_asset` (nothing is committed), or inside `upsert_metric` (the
      asset has already been committed). */
  datatype Fault = NoFault | AssetFault | MetricFault

  /** How a symbol's retry loop ended: stored after that many attempts, left
      alone because there was no data, or given up after three failures. */
  datatype SymbolOutcome = Done(attempts: nat) | Skipped | Failed

  /** One pass through the `try` block of the retry loop, raising where `f`
      says: the store it leaves and whether it persisted. A raise inside
      `upsert_metric` comes after `upsert_asset` has committed; besides the
      injected ones, `upsert_metric`'s lookup raises by itself when two metric
      rows point at the asset. */
  function Attempt(db: Db, symbol: string, data: MetricData, f: Fault, now: int): (r: (Db, bool))
    ensures r.1 <==> f == NoFault && MetricLookupUnique(db.metrics, UpsertAssetDb(db, symbol, now).1.id)
    ensures AtMostOneMetricPerAsset(db.metrics) ==> (r.1 <==> f == NoFault)
  {
    match f
    case AssetFault => (db, false)
    case MetricFault => (UpsertAssetDb(db, symbol, now).0, false)
    case NoFault =>
      var stored := UpsertAssetDb(db, symbol, now);
      if MetricLookupUnique(stored.0.metrics, stored.1.id) then
        (UpsertMetricDb(stored.0, stored.1.id, data, now), true)
      else (stored.0, false)
  }

  /** Attempts `k`, `k + 1`, ... of persisting `data`, until one succeeds or
      the three are used up. */
  function Attempts(db: Db, symbol: string, data: MetricData, fault: (string, nat) -> Fault, now: int, k: nat)
    : (r: (Db, SymbolOutcome))
    decreases MaxRetries - k
  {
    if k >= MaxRetries then (db, Failed)
    else
      var (after, persisted) := Attempt(db, symbol, data, fault(symbol, k), now);
      if persisted then (after, Done(k + 1))
      else Attempts(after, symbol, data, fault, now, k + 1)
  }

  /** One symbol of the batch: a fetch that yields nothing ends its loop at once. */
  function IngestSymbol(db: Db, symbol: string, fetch: Fetch, fault: (string, nat) -> Fault, now: int)
    : (r: (Db, SymbolOutcome))
  {
    match fetch(symbol)
    case None => (db, Skipped)
    case Some(data) => Attempts(db, symbol, data, fault, now, 0)
  }

  /** The batch: every symbol in order, each starting from the store the
      previous one left. */
  function IngestAll(db: Db, symbols: seq<string>, fetch: Fetch, fault: (string, nat) -> Fault, now: int)
    : (r: (Db, seq<SymbolOutcome>))
    ensures |r.1| == |symbols|
    decreases |symbols|
  {
    if symbols == [] then (db, [])
    else
      var first := IngestSymbol(db, symbols[0], fetch, fault, now);
      var rest := IngestAll(first.0, symbols[1..], fetch, fault, now);
      (rest.0, [first.1] + rest.1)
  }

  /** How the retry loop of a symbol ends, from attempt `k` on; it does not
      depend on the store. */
  function RetryOutcome(symbol: string, fault: (string, nat) -> Fault, k: nat): SymbolOutcome
    decreases MaxRetries - k
  {
    if k >= MaxRetries then Failed
    else if fault(symbol, k) == NoFault then Done(k + 1)
    else RetryOutcome(symbol, fault, k + 1)
  }

  function ExpectedOutcome(symbol: string, fetch: Fetch, fault: (string, nat) -> Fault): SymbolOutcome {
    if fetch(symbol).None? then Skipped else RetryOutcome(symbol, fault, 0)
  }

  /** The retry loop stops at the first attempt that persists, and gives up
      only when all three attempts failed. */
  lemma {:induction false} RetryOutcomeCharacterised(symbol: string, fault: (string, nat) -> Fault, k: nat)
    requires k <= MaxRetries
    decreases MaxRetries - k
    ensures RetryOutcome(symbol, fault, k) == Failed
      <==> forall j :: k <= j < MaxRetries ==> fault(symbol, j) != NoFault
    ensures RetryOutcome(symbol, fault, k).Done? ==>
      var n := RetryOutcome(symbol, fault, k).attempts;
      && k < n <= MaxRetries
      && fault(symbol, n - 1) == NoFault
      && forall j :: k <= j < n - 1 ==> fault(symbol, j) != NoFault
    ensures !RetryOutcome(symbol, fault, k).Skipped?
  {
    if k < MaxRetries && fault(symbol, k) != NoFault {
      RetryOutcomeCharacterised(symbol, fault, k + 1);
    }
  }

  /** On a store that keeps the one-metric rule the outcome of the attempts
      depends on the faults alone. */
  lemma {:induction false} AttemptsOutcome(db: Db, symbol: string, data: MetricData, fault: (string, nat) -> Fault, now: int, k: nat)
    requires Valid(db)
    decreases MaxRetries - k
    ensures Attempts(db, symbol, data, fault, now, k).1 == RetryOutcome(symbol, fault, k)
  {
    if k < MaxRetries {
      match fault(symbol, k)
      case NoFault =>
      case AssetFault => AttemptsOutcome(db, symbol, data, fault, now, k + 1);
      case MetricFault =>
        UpsertAssetPreservesValid(db, symbol, now);
        AttemptsOutcome(UpsertAssetDb(db, symbol, now).0, symbol, data, fault, now, k + 1);
    }
  }

  /** On a store where two metric rows point at the symbol's stored asset,
      `upsert_metric` raises on every attempt: the loop gives up after three
      attempts and the store is unchanged, whatever the injected faults. */
  lemma DuplicateMetricRowsFailEveryAttempt(db: Db, symbol: string, fetch: Fetch, fault: (string, nat) -> Fault,
                                            now: int, i: nat, j: nat)
    requires fetch(symbol).Some? && FindAssetBySymbol(db.assets, symbol).Some?
    requires i < j < |db.metrics| && db.metrics[i].assetId == db.metrics[j].assetId
    requires db.metrics[i].assetId == FindAssetBySymbol(db.assets, symbol).value.id
    ensures IngestSymbol(db, symbol, fetch, fault, now) == (db, Failed)
  {
    DuplicatesKeepFailing(db, symbol, fetch(symbol).value, fault, now, 0);
  }

  lemma {:induction false} DuplicatesKeepFailing(db: Db, symbol: string, data: MetricData,
                                                 fault: (string, nat) -> Fault, now: int, k: nat)
    requires UpsertAssetDb(db, symbol, now).0 == db
    requires !MetricLookupUnique(db.metrics, UpsertAssetDb(db, symbol, now).1.id)
    decreases MaxRetries - k
    ensures Attempts(db, symbol, data, fault, now, k) == (db, Failed)
  {
    if k < MaxRetries {
      DuplicatesKeepFailing(db, symbol, data, fault, now, k + 1);
    }
  }

  /** Every symbol is visited, in order, whatever happened to the ones before:
      the i-th outcome is the one the i-th symbol's own data and faults give. */
  lemma {:induction false} IngestVisitsEverySymbol(db: Db, symbols: seq<string>, fetch: Fetch, fault: (string, nat) -> Fault, now: int)
    requires Valid(db)
    decreases |symbols|
    ensures var outcomes := IngestAll(db, symbols, fetch, fault, now).1;
      forall i :: 0 <= i < |symbols| ==> outcomes[i] == ExpectedOutcome(symbols[i], fetch, fault)
  {
    if symbols != [] {
      var first := IngestSymbol(db, symbols[0], fetch, fault, now);
      match fetch(symbols[0]) {
        case None =>
        case Some(data) =>
          AttemptsOutcome(db, symbols[0], data, fault, now, 0);
          AttemptsPreserveValid(db, symbols[0], data, fault, now, 0);
      }
      IngestVisitsEverySymbol(first.0, symbols[1..], fetch, fault, now);
      var outcomes := IngestAll(db, symbols, fetch, fault, now).1;
      forall i | 0 <= i < |symbols|
        ensures outcomes[i] == ExpectedOutcome(symbols[i], fetch, fault)
      {
        if i > 0 {
          assert symbols[1..][i - 1] == symbols[i];
        }
      }
    }
  }

  /** `ingest_data` called without symbols runs BTC-USD, ETH-USD and TSLA, in
      that order, each with its own outcome. */
  lemma IngestDefaultSymbols(db: Db, fetch: Fetch, fault: (string, nat) -> Fault, now: int)
    requires Valid(db)
    ensures IngestAll(db, DefaultSymbols, fetch, fault, now).1 == [
      ExpectedOutcome("BTC-USD", fetch, fault),
      ExpectedOutcome("ETH-USD", fetch, fault),
      ExpectedOutcome("TSLA", fetch, fault)]
  {
    IngestVisitsEverySymbol(db, DefaultSymbols, fetch, fault, now);
  }


  /** No data for a symbol: its loop ends on the first fetch and the store is unchanged. */
  lemma NoDataLeavesStoreUnchanged(db: Db, symbol: string, feed: Feed, fault: (string, nat) -> Fault, now: int)
    requires FeedBaselinesNonZero(feed)
    requires symbol !in feed || |feed[symbol]| < 2
    ensures IngestSymbol(db, symbol, FeedFetch(feed), fault, now) == (db, Skipped)
  {
  }

  lemma {:induction false} AttemptsPreserveValid(db: Db, symbol: string, data: MetricData, fault: (string, nat) -> Fault, now: int, k: nat)
    requires Valid(db)
    decreases MaxRetries - k
    ensures Valid(Attempts(db, symbol, data, fault, now, k).0)
  {
    if k < MaxRetries {
      var stored := UpsertAssetDb(db, symbol, now);
      UpsertAssetPreservesValid(db, symbol, now);
      match fault(symbol, k)
      case NoFault => UpsertMetricPreservesValid(stored.0, stored.1.id, data, now);
      case AssetFault => AttemptsPreserveValid(db, symbol, data, fault, now, k + 1);
      case MetricFault => AttemptsPreserveValid(stored.0, symbol, data, fault, now, k + 1);
    }
  }

  /** The batch keeps every schema constraint and at most one metric per asset. */
  lemma {:induction false} IngestPreservesValid(db: Db, symbols: seq<string>, fetch: Fetch, fault: (string, nat) -> Fault, now: int)
    requires Valid(db)
    decreases |symbols|
    ensures Valid(IngestAll(db, symbols, fetch, fault, now).0)
  {
    if symbols != [] {
      var first := IngestSymbol(db, symbols[0], fetch, fault, now);
      match fetch(symbols[0]) {
        case None =>
        case Some(data) => AttemptsPreserveValid(db, symbols[0], data, fault, now, 0);
      }
      IngestPreservesValid(first.0, symbols[1..], fetch, fault, now);
    }
  }

  lemma {:induction false} AttemptsDoneStores(db: Db, symbol: string, data: MetricData, fault: (string, nat) -> Fault, now: int, k: nat)
    requires Valid(db)
    requires Attempts(db, symbol, data, fault, now, k).1.Done?
    decreases MaxRetries - k
    ensures var r := Attempts(db, symbol, data, fault, now, k).0;
      var a := FindAssetBySymbol(r.assets, symbol);
      a.Some? && FindMetric(r.metrics, a.value.id).Some?
      && Carries(FindMetric(r.metrics, a.value.id).value, a.value.id, data)
  {
    var stored := UpsertAssetDb(db, symbol, now);
    UpsertAssetPreservesValid(db, symbol, now);
    match fault(symbol, k)
    case NoFault =>
      UpsertAssetFindable(db, symbol, now);
      UpsertMetricReadBack(stored.0, stored.1.id, data, now);
    case AssetFault => AttemptsDoneStores(db, symbol, data, fault, now, k + 1);
    case MetricFault => AttemptsDoneStores(stored.0, symbol, data, fault, now, k + 1);
  }

  /** A symbol whose loop ends in success has its asset stored, and that
      asset's metric row holds the values just computed from its closes. */
  lemma DoneSymbolIsStored(db: Db, symbol: string, fetch: Fetch, fault: (string, nat) -> Fault, now: int)
    requires Valid(db)
    requires IngestSymbol(db, symbol, fetch, fault, now).1.Done?
    ensures var r := IngestSymbol(db, symbol, fetch, fault, now).0;
      var a := FindAssetBySymbol(r.assets, symbol);
      a.Some? && FindMetric(r.metrics, a.value.id).Some?
      && Carries(FindMetric(r.metrics, a.value.id).value, a.value.id, fetch(symbol).value)
  {
    AttemptsDoneStores(db, symbol, fetch(symbol).value, fault, now, 0);
  }

  /** The partial state `ingest_data` allows: when `upsert_metric` raises on
      every attempt, a new symbol ends up stored as an asset with no metric. */
  lemma MetricFailureLeavesAssetWithoutMetric(db: Db, symbol: string, feed: Feed, now: int)
    requires Valid(db) && FeedBaselinesNonZero(feed)
    requires symbol in feed && |feed[symbol]| >= 2
    requires forall i :: 0 <= i < |db.assets| ==> db.assets[i].symbol != symbol
    ensures var r := IngestSymbol(db, symbol, FeedFetch(feed), (s: string, k: nat) => MetricFault, now);
      && r.1 == Failed
      && FindAssetBySymbol(r.0.assets, symbol).Some?
      && FindMetric(r.0.metrics, FindAssetBySymbol(r.0.assets, symbol).value.id).None?
  {
    var fault := (s: string, k: nat) => MetricFault;
    var data := FetchAssetData(feed, symbol).value;
    var (db1, a) := UpsertAssetDb(db, symbol, now);
    assert FindAssetBySymbol(db.assets, symbol).None?;
    assert a.id == db.nextAssetId;
    UpsertAssetFindable(db, symbol, now);
    forall k | 0 <= k < |db1.metrics| ensures db1.metrics[k].assetId != a.id {
      assert db1.metrics[k] == db.metrics[k];
      assert HasAsset(db.assets, db.metrics[k].assetId);
      var i :| 0 <= i < |db.assets| && db.assets[i].id == db.metrics[k].assetId;
      assert db.assets[i].id < db.nextAssetId;
    }
    UpsertAssetIdempotent(db, symbol, now, now);
    AttemptStep(db, symbol, data, fault, now, 0);
    MetricFaultsKeepFailing(db1, symbol, data, fault, now, 1);
  }

  /** Once the asset is stored, attempts whose metric upsert always raises
      leave the store alone and end in failure. */
  lemma {:induction false} MetricFaultsKeepFailing(db: Db, symbol: string, data: MetricData,
                                                   fault: (string, nat) -> Fault, now: int, k: nat)
    requires forall j :: fault(symbol, j) == MetricFault
    requires UpsertAssetDb(db, symbol, now).0 == db
    decreases MaxRetries - k
    ensures Attempts(db, symbol, data, fault, now, k) == (db, Failed)
  {
    if k < MaxRetries {
      MetricFaultsKeepFailing(db, symbol, data, fault, now, k + 1);
    }
  }

  // ---------------------------------------------------------------------------
  // the imperative service, on the shared store

  method UpsertAsset(store: Store, symbol: string, now: int) returns (asset: Asset)
    requires Valid(store.State())
    modifies store
    ensures (store.State(), asset) == UpsertAssetDb(old(store.State()), symbol, now)
    ensures Valid(store.State())
  {
    UpsertAssetPreservesValid(store.State(), symbol, now);
    var found := FindAssetBySymbol(store.assets, symbol);
    if found.Some? {
      asset := found.value;
    } else {
      asset := Asset(store.nextAssetId, symbol, symbol, now);
      store.assets := store.assets + [asset];
      store.nextAssetId := store.nextAssetId + 1;
    }
  }

  method UpsertMetric(store: Store, assetId: nat, data: MetricData, now: int)
    requires Valid(store.State()) && HasAsset(store.assets, assetId)
    modifies store
    ensures store.State() == UpsertMetricDb(old(store.State()), assetId, data, now)
    ensures Valid(store.State())
  {
    UpsertMetricPreservesValid(store.State(), assetId, data, now);
    var existing := FindMetricIndex(store.metrics, assetId);
    if existing.Some? {
      var k := existing.value;
      var m := store.metrics[k];
      m := m.(latestPrice := data.latestPrice);
      m := m.(changePercent24h := data.changePercent24h);
      m := m.(averagePrice7d := data.averagePrice7d);
      store.metrics := store.metrics[k := m];
    } else {
      var m := Metric(store.nextMetricId, assetId, data.latestPrice, data.changePercent24h,
                      data.averagePrice7d, now);
      store.metrics := store.metrics + [m];
      store.nextMetricId := store.nextMetricId + 1;
    }
  }

  /** One turn of the retry loop, as `Attempts` takes it. */
  lemma AttemptStep(db: Db, symbol: string, data: MetricData, fault: (string, nat) -> Fault, now: int, k: nat)
    requires k < MaxRetries
    ensures fault(symbol, k) == AssetFault ==>
      Attempts(db, symbol, data, fault, now, k) == Attempts(db, symbol, data, fault, now, k + 1)
    ensures fault(symbol, k) == MetricFault ==>
      Attempts(db, symbol, data, fault, now, k)
        == Attempts(UpsertAssetDb(db, symbol, now).0, symbol, data, fault, now, k + 1)
    ensures fault(symbol, k) == NoFault ==>
      var stored := UpsertAssetDb(db, symbol, now);
      Attempts(db, symbol, data, fault, now, k)
        == if MetricLookupUnique(stored.0.metrics, stored.1.id)
           then (UpsertMetricDb(stored.0, stored.1.id, data, now), Done(k + 1))
           else Attempts(stored.0, symbol, data, fault, now, k + 1)
  {
  }

  /** The persistence half of one attempt's `try` block, with `f` saying
      where, if anywhere, it raises. Reports whether it persisted. */
  method PersistOnce(store: Store, symbol: string, data: MetricData, f: Fault, now: int)
    returns (persisted: bool)
    requires Valid(store.State())
    modifies store
    ensures Valid(store.State())
    ensures (store.State(), persisted) == Attempt(old(store.State()), symbol, data, f, now)
  {
    if f == AssetFault {
      return false;
    }
    var asset := UpsertAsset(store, symbol, now);
    if f == MetricFault {
      return false;
    }
    UpsertMetric(store, asset.id, data, now);
    return true;
  }

  /** The body of `ingest_data`'s outer loop: the retry loop of one symbol,
      fetching afresh on every attempt. */
  method RetrySymbol(store: Store, symbol: string, fetch: Fetch, fault: (string, nat) -> Fault, now: int)
    returns (outcome: SymbolOutcome)
    requires Valid(store.State())
    modifies store
    ensures (store.State(), outcome) == IngestSymbol(old(store.State()), symbol, fetch, fault, now)
    ensures Valid(store.State())
  {
    ghost var before := store.State();
    ghost var target := IngestSymbol(before, symbol, fetch, fault, now);
    ghost var fetched := fetch(symbol);
    outcome := Failed;
    var retries := MaxRetries;
    while retries > 0
      invariant 0 <= retries <= MaxRetries
      invariant Valid(store.State())
      invariant fetched.None? ==> store.State() == before
      invariant retries < MaxRetries ==> fetched.Some?
      invariant fetched.Some? ==> Attempts(store.State(), symbol, fetched.value, fault, now, MaxRetries - retries) == target
    {
      var data := fetch(symbol);
      if data.None? {
        outcome := Skipped;
        return;
      }
      var persisted := PersistOnce(store, symbol, data.value, fault(symbol, MaxRetries - retries), now);
      if persisted {
        outcome := Done(MaxRetries - retries + 1);
        return;
      }
      retries := retries - 1;
    }
  }

  /** `ingest_data`: every symbol in order, each with its own retry loop.
      Returns how each symbol's loop ended. */
  method IngestData(store: Store, symbols: seq<string>, fetch: Fetch, fault: (string, nat) -> Fault, now: int)
    returns (outcomes: seq<SymbolOutcome>)
    requires Valid(store.State())
    modifies store
    ensures (store.State(), outcomes) == IngestAll(old(store.State()), symbols, fetch, fault, now)
    ensures Valid(store.State())
  {
    ghost var final := IngestAll(store.State(), symbols, fetch, fault, now);
    outcomes := [];
    var i := 0;
    while i < |symbols|
      invariant 0 <= i <= |symbols|
      invariant Valid(store.State())
      invariant IngestAll(store.State(), symbols[i..], fetch, fault, now).0 == final.0
      invariant outcomes + IngestAll(store.State(), symbols[i..], fetch, fault, now).1 == final.1
    {
      IngestAllStep(store.State(), symbols, i, fetch, fault, now);
      var outcome := RetrySymbol(store, symbols[i], fetch, fault, now);
      outcomes := outcomes + [outcome];
      i := i + 1;
    }
    assert symbols[i..] == [];
    assert outcomes + [] == outcomes;
  }

  /** The batch from the `i`-th symbol on is that symbol's loop followed by the rest. */
  lemma IngestAllStep(db: Db, symbols: seq<string>, i: nat, fetch: Fetch, fault: (string, nat) -> Fault, now: int)
    requires i < |symbols|
    ensures var first := IngestSymbol(db, symbols[i], fetch, fault, now);
      var rest := IngestAll(first.0, symbols[i + 1..], fetch, fault, now);
      IngestAll(db, symbols[i..], fetch, fault, now) == (rest.0, [first.1] + rest.1)
  {
    assert symbols[i..][0] == symbols[i] && symbols[i..][1..] == symbols[i + 1..];
  }
}
