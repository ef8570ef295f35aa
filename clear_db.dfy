/** The bulk clear endpoint: delete every metric row, commit, delete every
    asset row, commit. Which of the two steps raises is an input. */
module ClearDb {
  import opened Models
  import opened Api
  import Assets
  import Summary
  import GenAi

  datatype Table = MetricTable | AssetTable

  /** The store after `delete(model)` and its commit: the table is empty,
      the other table and the key counters are untouched. */
  function ClearedTable(db: Db, table: Table): (r: Db)
    ensures r.nextAssetId == db.nextAssetId && r.nextMetricId == db.nextMetricId
  {
    match table
    case MetricTable => db.(metrics := [])
    case AssetTable => db.(assets := [])
  }

  /** `clear_table_data`: `fails` says that the delete or its commit raises,
      which leaves the table as it was. Reports whether it went through. */
  method ClearTableData(store: Store, table: Table, fails: bool) returns (cleared: bool)
    modifies store
    ensures cleared <==> !fails
    ensures store.State() == if fails then old(store.State()) else ClearedTable(old(store.State()), table)
  {
    if fails {
      return false;
    }
    match table {
      case MetricTable => store.metrics := [];
      case AssetTable => store.assets := [];
    }
    return true;
  }

  const ClearError := HttpError(500, "Error clearing data.")

  /** What `clear_all_data` does to the store and how it ends, when the steps
      in `failing` raise: metrics first, then assets, stopping at the first
      failure with the committed steps kept. */
  function ClearAll(db: Db, failing: set<Table>): (Db, Outcome) {
    if MetricTable in failing then (db, Fail(ClearError))
    else
      var noMetrics := ClearedTable(db, MetricTable);
      if AssetTable in failing then (noMetrics, Fail(ClearError))
      else (ClearedTable(noMetrics, AssetTable), Pass)
  }

  /** `clear_all_data`. */
  method ClearAllData(store: Store, failing: set<Table>) returns (outcome: Outcome)
    modifies store
    ensures (store.State(), outcome) == ClearAll(old(store.State()), failing)
    ensures old(Valid(store.State())) ==> Valid(store.State())
  {
    ghost var before := store.State();
    ClearAllKeepsValid(before, failing);
    var cleared := ClearTableData(store, MetricTable, MetricTable in failing);
    if !cleared {
      return Fail(ClearError);
    }
    cleared := ClearTableData(store, AssetTable, AssetTable in failing);
    if !cleared {
      return Fail(ClearError);
    }
    return Pass;
  }

  const ClearedMessage := "Database cleared successfully."
  const ClearDbError := HttpError(500, "Failed to clear database.")

  /** The endpoint's answer for how `clear_all_data` ended: its own 500 is
      caught like any other exception and replaced. */
  function ClearDbAnswer(outcome: Outcome): (r: Result<string>)
    ensures r.Ok? <==> outcome.Pass?
  {
    match outcome
    case Pass => Ok(ClearedMessage)
    case Fail(_) => Err(ClearDbError)
  }

  /** `clear_db`. */
  method ClearDb(store: Store, failing: set<Table>) returns (r: Result<string>)
    modifies store
    ensures (store.State(), r) == (ClearAll(old(store.State()), failing).0, ClearDbAnswer(ClearAll(old(store.State()), failing).1))
    ensures old(Valid(store.State())) ==> Valid(store.State())
  {
    var outcome := ClearAllData(store, failing);
    r := ClearDbAnswer(outcome);
  }

  /** Clearing one table empties it and leaves the other exactly as it was. */
  lemma ClearTableEmptiesOnlyThatTable(db: Db, table: Table)
    ensures ClearedTable(db, table).metrics == if table == MetricTable then [] else db.metrics
    ensures ClearedTable(db, table).assets == if table == AssetTable then [] else db.assets
  {
  }

  /** After a clear that succeeds both tables are empty; it succeeds exactly
      when neither step raises. */
  lemma ClearAllEmptiesBothTables(db: Db, failing: set<Table>)
    ensures ClearAll(db, failing).1 == Pass <==> failing * {MetricTable, AssetTable} == {}
    ensures ClearAll(db, failing).1 == Pass ==>
      ClearAll(db, failing).0.assets == [] && ClearAll(db, failing).0.metrics == []
  {
    if MetricTable in failing {
      assert MetricTable in failing * {MetricTable, AssetTable};
    } else if AssetTable in failing {
      assert AssetTable in failing * {MetricTable, AssetTable};
    }
  }

  /** When the asset step raises, the metric step stays committed: no
      metrics, every asset still there. */
  lemma ClearAllPartial(db: Db)
    ensures ClearAll(db, {AssetTable}) == (db.(metrics := []), Fail(ClearError))
  {
  }

  /** Metrics go first, so every state the clear passes through or stops in
      keeps the schema, and no metric row ever points at a deleted asset. */
  lemma ClearAllKeepsValid(db: Db, failing: set<Table>)
    ensures Valid(db) ==> Valid(ClearedTable(db, MetricTable))
    ensures Valid(db) ==> Valid(ClearAll(db, failing).0)
  {
  }

  /** The other order would not: with any metric row present, deleting the
      assets first leaves that row pointing at nothing. */
  lemma AssetsFirstBreaksForeignKey(db: Db)
    requires db.metrics != []
    ensures !Schema(ClearedTable(db, AssetTable))
  {
    var c := ClearedTable(db, AssetTable);
    assert !HasAsset(c.assets, c.metrics[0].assetId);
  }

  /** The endpoint's message is the success message exactly when the clear
      went through, and every failure is the same 500. */
  lemma ClearDbAnswers(db: Db, failing: set<Table>)
    ensures var r := ClearDbAnswer(ClearAll(db, failing).1);
      && (r.Ok? ==> r.value == "Database cleared successfully.")
      && (r.Err? ==> r.error == HttpError(500, "Failed to clear database."))
      && (r.Ok? <==> MetricTable !in failing && AssetTable !in failing)
  {
  }

  /** After a successful clear the listing is empty and the summary is the
      fixed no-data message, whatever the text generator would say. */
  lemma ClearedStoreReadsEmpty(db: Db, generate: seq<GenAi.SummaryRow> -> Option<string>)
    ensures var r := ClearAll(db, {});
      && Assets.ListAssets(Open(r.0)) == Ok([])
      && Summary.GetSummary(Open(r.0), generate) == Ok(Summary.NoDataMessage)
  {
    var r := ClearAll(db, {});
    Summary.SummaryWithoutMetrics(r.0, generate);
    assert Assets.ListAssets(Open(r.0)).value == [];
  }
}
