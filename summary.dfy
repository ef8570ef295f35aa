/** The summary endpoint: the inner join of assets with their metric rows,
    projected to symbol, change and average, handed to the text generator. */
module Summary {
  import opened Models
  import opened Api
  import opened GenAi

  /** One joined pair, projected to the three selected columns. */
  function Project(a: Asset, m: Metric): SummaryRow {
    SummaryRow(a.symbol, m.changePercent24h, m.averagePrice7d)
  }

  function RowsFor(a: Asset, ms: seq<Metric>): (r: seq<SummaryRow>)
    ensures |r| == |ms|
    ensures forall j :: 0 <= j < |ms| ==> r[j] == Project(a, ms[j])
  {
    if ms == [] then [] else [Project(a, ms[0])] + RowsFor(a, ms[1..])
  }

  /** `select(Asset.symbol, Metric.change_percent_24h, Metric.average_price_7d)
      .join(Metric, Asset.id == Metric.asset_id)`, enumerated asset by asset. */
  function JoinRows(assets: seq<Asset>, metrics: seq<Metric>): seq<SummaryRow> {
    if assets == [] then []
    else RowsFor(assets[0], MetricsOf(metrics, assets[0].id)) + JoinRows(assets[1..], metrics)
  }

  /** A pair of an asset row and a metric row that the join condition accepts. */
  ghost predicate Joined(assets: seq<Asset>, metrics: seq<Metric>, row: SummaryRow) {
    exists a, m :: a in assets && m in metrics && a.id == m.assetId && row == Project(a, m)
  }

  /** The join yields a row exactly for each pair the join condition accepts:
      assets without a metric row contribute nothing. */
  lemma {:induction false} JoinRowsMembership(assets: seq<Asset>, metrics: seq<Metric>, row: SummaryRow)
    ensures row in JoinRows(assets, metrics) <==> Joined(assets, metrics, row)
  {
    if assets != [] {
      var a := assets[0];
      var here := RowsFor(a, MetricsOf(metrics, a.id));
      JoinRowsMembership(assets[1..], metrics, row);
      if row in here {
        var j :| 0 <= j < |here| && here[j] == row;
        var m := MetricsOf(metrics, a.id)[j];
        assert m in MetricsOf(metrics, a.id);
        assert a in assets && m in metrics && a.id == m.assetId && row == Project(a, m);
      }
      if Joined(assets, metrics, row) {
        var a', m :| a' in assets && m in metrics && a'.id == m.assetId && row == Project(a', m);
        if a' == a {
          var ms := MetricsOf(metrics, a.id);
          assert m in ms;
          var j :| 0 <= j < |ms| && ms[j] == m;
          assert here[j] == row;
        } else {
          assert a' in assets[1..];
          assert Joined(assets[1..], metrics, row);
        }
      }
    }
  }

  /** How many of `assets` carry the key `id`. */
  function CountId(assets: seq<Asset>, id: nat): nat {
    if assets == [] then 0 else (if assets[0].id == id then 1 else 0) + CountId(assets[1..], id)
  }

  lemma {:induction false} CountIdUnique(assets: seq<Asset>, id: nat)
    requires forall i, j :: 0 <= i < j < |assets| ==> assets[i].id != assets[j].id
    requires HasAsset(assets, id)
    ensures CountId(assets, id) == 1
  {
    var rest := assets[1..];
    assert forall i, j :: 0 <= i < j < |rest| ==> rest[i].id != rest[j].id by {
      forall i, j | 0 <= i < j < |rest| ensures rest[i].id != rest[j].id {
        assert rest[i] == assets[i + 1] && rest[j] == assets[j + 1];
      }
    }
    var k :| 0 <= k < |assets| && assets[k].id == id;
    if k == 0 {
      CountIdAbsent(rest, id);
    } else {
      assert rest[k - 1].id == id;
      CountIdUnique(rest, id);
    }
  }

  lemma {:induction false} CountIdAbsent(assets: seq<Asset>, id: nat)
    requires forall i :: 0 <= i < |assets| ==> assets[i].id != id
    ensures CountId(assets, id) == 0
  {
    if assets != [] {
      assert forall i :: 0 <= i < |assets[1..]| ==> assets[1..][i].id != id by {
        forall i | 0 <= i < |assets[1..]| ensures assets[1..][i].id != id {
          assert assets[1..][i] == assets[i + 1];
        }
      }
      CountIdAbsent(assets[1..], id);
    }
  }

  /** Taking the first metric row off removes exactly one joined row for each
      asset carrying its key. */
  lemma {:induction false} JoinRowsConsMetric(assets: seq<Asset>, metrics: seq<Metric>)
    requires metrics != []
    ensures |JoinRows(assets, metrics)|
      == CountId(assets, metrics[0].assetId) + |JoinRows(assets, metrics[1..])|
  {
    if assets != [] {
      JoinRowsConsMetric(assets[1..], metrics);
    }
  }

  /** On a store that keeps its schema, the join has exactly one row per
      metric row, as every metric row points at exactly one asset. */
  lemma {:induction false} JoinRowsCount(db: Db)
    requires Schema(db)
    decreases |db.metrics|
    ensures |JoinRows(db.assets, db.metrics)| == |db.metrics|
  {
    if db.metrics == [] {
      JoinRowsNoMetrics(db.assets);
    } else {
      var rest := db.(metrics := db.metrics[1..]);
      assert Schema(rest) by {
        forall i | 0 <= i < |rest.metrics| ensures HasAsset(rest.assets, rest.metrics[i].assetId) {
          assert rest.metrics[i] == db.metrics[i + 1];
        }
        forall i, j | 0 <= i < j < |rest.metrics| ensures rest.metrics[i].id != rest.metrics[j].id {
          assert rest.metrics[i] == db.metrics[i + 1] && rest.metrics[j] == db.metrics[j + 1];
        }
        forall i | 0 <= i < |rest.metrics| ensures rest.metrics[i].id < rest.nextMetricId {
          assert rest.metrics[i] == db.metrics[i + 1];
        }
      }
      JoinRowsCount(rest);
      JoinRowsConsMetric(db.assets, db.metrics);
      CountIdUnique(db.assets, db.metrics[0].assetId);
    }
  }

  lemma {:induction false} JoinRowsNoMetrics(assets: seq<Asset>)
    ensures JoinRows(assets, []) == []
  {
    if assets != [] {
      JoinRowsNoMetrics(assets[1..]);
    }
  }

  /** `fetch_asset_metrics`: the projected join, or the exception a broken
      session raises. An empty result is returned as the empty list. */
  function FetchAssetMetrics(session: Session): (r: Result<seq<SummaryRow>>)
    ensures !r.Err?
  {
    match session
    case Broken => Raised
    case Open(db) => Ok(JoinRows(db.assets, db.metrics))
  }

  const NoDataMessage := "No data available to summarize."

  /** `get_summary`, with `generate_summary` as a parameter: `None` stands for
      the `ValueError` it raises when the text generator fails. */
  function GetSummary(session: Session, generate: seq<SummaryRow> -> Option<string>): Result<string> {
    var data := FetchAssetMetrics(session);
    if !data.Ok? then HandleErrors(Propagate(data))
    else if data.value == [] then Ok(NoDataMessage)
    else match generate(data.value)
      case None => HandleErrors(Raised)
      case Some(text) => Ok(text)
  }

  /** With no metric rows the summary is the fixed message, whatever the
      generator would have said, and the generator is not consulted. */
  lemma SummaryWithoutMetrics(db: Db, generate: seq<SummaryRow> -> Option<string>)
    requires db.metrics == []
    ensures GetSummary(Open(db), generate) == Ok(NoDataMessage)
  {
    JoinRowsNoMetrics(db.assets);
  }

  /** On a store that keeps its schema, the fixed message is given exactly
      when there are no metric rows; otherwise the text is the generator's,
      on the joined rows, or a 500 when it fails. */
  lemma SummaryIsGenerated(db: Db, generate: seq<SummaryRow> -> Option<string>)
    requires Schema(db)
    ensures var rows := JoinRows(db.assets, db.metrics);
      && (rows == [] <==> db.metrics == [])
      && (db.metrics != [] && generate(rows).Some? ==> GetSummary(Open(db), generate) == Ok(generate(rows).value))
      && (db.metrics != [] && generate(rows).None? ==> GetSummary(Open(db), generate) == Err(InternalServerError))
  {
    JoinRowsCount(db);
  }

  /** A session whose queries raise gives 500 "Internal Server Error". */
  lemma SummaryBrokenSession(generate: seq<SummaryRow> -> Option<string>)
    ensures GetSummary(Broken, generate) == Err(InternalServerError)
  {
  }
}
