/**
  `FocusConverter`: loads each provider's rules in sorted order, prepares the
  horizontal conversion plan for one provider, applies it to a lazy frame and
  streams the loader's batches to the exporter.
 */
module Converter {
  import opened Wrappers
  import opened ConversionTypes
  import opened Rules
  import opened Plan
  import opened Frames
  import opened Seqs

  /**
    The data exporter collaborator, reduced to the calls made on it that
    return: the `collect` writes that complete and the `close` calls.
   */
  class DataExporter {
    var collected: seq<Export>
    var closeCalls: nat

    constructor ()
      ensures collected == [] && closeCalls == 0
    {
      collected, closeCalls := [], 0;
    }

    /** `collect(lf=..., collected_columns=...)`: writes one converted batch. */
    method Collect(frame: Table, columns: set<string>)
      modifies this
      ensures collected == old(collected) + [Export(frame, columns)]
      ensures closeCalls == old(closeCalls)
    {
      collected := collected + [Export(frame, columns)];
    }

    /** `close()`: flushes and releases the export. */
    method Close()
      modifies this
      ensures closeCalls == old(closeCalls) + 1
      ensures collected == old(collected)
    {
      closeCalls := closeCalls + 1;
    }
  }

  class FocusConverter {
    var plans: map<string, seq<ConversionRule>>
    var dataLoader: seq<Batch>          // the batches `data_scanner()` yields, in order
    var dataExporter: DataExporter?     // `None` until `configure_data_export`

    // the horizontal transformation plan
    var hCollectedColumns: seq<string>
    var hColumnExprs: seq<ColumnExpr>
    var hSqlQueries: seq<Compiled>

    // columns to drop from the final frame; created once, never reset
    var temporaryColumns: seq<string>

    // the rules handed to the dependency graph's `add_conversion_node`
    var conversionNodes: seq<ConversionRule>

    constructor ()
      ensures temporaryColumns == [] && conversionNodes == []
      ensures dataExporter == null && dataLoader == [] && plans == map[]
      ensures hCollectedColumns == [] && hColumnExprs == [] && hSqlQueries == []
    {
      temporaryColumns, conversionNodes := [], [];
      dataExporter, dataLoader, plans := null, [], map[];
      hCollectedColumns, hColumnExprs, hSqlQueries := [], [], [];
    }

    /**
      The per-provider step of `load_provider_conversion_configs`, given each
      provider directory's name and its already-loaded rules in listing order.
     */
    method LoadProviderConversionConfigs(providers: seq<(string, seq<ConversionRule>)>)
      modifies this`plans
      ensures plans == LoadedPlans(providers)
    {
      var loaded: map<string, seq<ConversionRule>> := map[];
      var i := 0;
      while i < |providers|
        invariant 0 <= i <= |providers|
        invariant loaded == LoadedPlans(providers[..i])
      {
        var (provider, providerPlans) := providers[i];
        assert providers[..i + 1][..i] == providers[..i];
        loaded := loaded[provider := SortRules(providerPlans)];
        i := i + 1;
      }
      assert providers[..i] == providers;
      plans := loaded;
    }

    /** `load_data`: the loader whose scanner yields `batches`. */
    method LoadData(batches: seq<Batch>)
      modifies this`dataLoader
      ensures dataLoader == batches
    {
      dataLoader := batches;
    }

    /** `configure_data_export`: a new exporter with nothing written yet. */
    method ConfigureDataExport()
      modifies this`dataExporter
      ensures fresh(dataExporter) && dataExporter.collected == [] && dataExporter.closeCalls == 0
    {
      dataExporter := new DataExporter();
    }

    /**
      `prepare_horizontal_conversion_plan`.  The plan lists are reset; the
      temporary columns and the graph's nodes only grow.  A kind without a
      compiler raises after its rule's alias and focus column are recorded.
     */
    method PrepareHorizontalConversionPlan(provider: string) returns (res: Result<seq<ColumnExpr>, Error>)
      modifies this`hCollectedColumns, this`hColumnExprs, this`hSqlQueries, this`temporaryColumns, this`conversionNodes
      ensures provider !in plans ==>
        && res == Failure(UnknownProvider(provider))
        && hCollectedColumns == [] && hColumnExprs == [AddProvider(provider)] && hSqlQueries == []
        && temporaryColumns == old(temporaryColumns) && conversionNodes == old(conversionNodes)
      ensures provider in plans ==>
        var rules := plans[provider];
        var n := FirstUnsupported(rules);
        && hColumnExprs == [AddProvider(provider)] + ExprEntries(rules[..n])
        && hSqlQueries == SqlEntries(rules[..n])
        && hCollectedColumns == FocusColumns(Visited(rules))
        && temporaryColumns == old(temporaryColumns) + TempAliases(Visited(rules))
        && conversionNodes == old(conversionNodes) + Visited(rules)
        && res == if n < |rules| then Failure(NotImplemented(rules[n].conversionType)) else Success(hColumnExprs)
      ensures res.Success? ==>
        && hColumnExprs[0] == AddProvider(provider)
        && |hColumnExprs| + |hSqlQueries| == 1 + |plans[provider]|
        && |hCollectedColumns| == |plans[provider]|
    {
      hCollectedColumns := [];
      hColumnExprs := [];
      hSqlQueries := [];
      hColumnExprs := hColumnExprs + [AddProvider(provider)];
      if provider !in plans {
        return Failure(UnknownProvider(provider));
      }
      var rules := plans[provider];
      var stop := PrepareRules(rules);
      if stop.Some? {
        return Failure(NotImplemented(stop.value));
      }
      VisitsAll(rules);
      SplitCount(rules);
      FocusColumnsAt(rules);
      return Success(hColumnExprs);
    }

    /**
      The preparation loop over one provider's rules: each rule in turn, up to
      and including the first whose kind has no compiler, whose kind it returns.
     */
    method PrepareRules(rules: seq<ConversionRule>) returns (stop: Option<ConversionType>)
      modifies this`hCollectedColumns, this`hColumnExprs, this`hSqlQueries, this`temporaryColumns, this`conversionNodes
      ensures
        var n := FirstUnsupported(rules);
        && hColumnExprs == old(hColumnExprs) + ExprEntries(rules[..n])
        && hSqlQueries == old(hSqlQueries) + SqlEntries(rules[..n])
        && hCollectedColumns == old(hCollectedColumns) + FocusColumns(Visited(rules))
        && temporaryColumns == old(temporaryColumns) + TempAliases(Visited(rules))
        && conversionNodes == old(conversionNodes) + Visited(rules)
        && stop == if n < |rules| then Some(rules[n].conversionType) else None
    {
      var i := 0;
      ghost var done: seq<ConversionRule> := [];
      while i < |rules|
        invariant i <= FirstUnsupported(rules) && done == rules[..i]
        invariant hColumnExprs == old(hColumnExprs) + ExprEntries(done)
        invariant hSqlQueries == old(hSqlQueries) + SqlEntries(done)
        invariant hCollectedColumns == old(hCollectedColumns) + FocusColumns(done)
        invariant temporaryColumns == old(temporaryColumns) + TempAliases(done)
        invariant conversionNodes == old(conversionNodes) + done
      {
        var plan := rules[i];
        assert rules[..i + 1] == done + [plan];
        PlanAppend(done, [plan]);
        AppendAssoc(old(hColumnExprs), ExprEntries(done), ExprEntries([plan]));
        AppendAssoc(old(hSqlQueries), SqlEntries(done), SqlEntries([plan]));
        AppendAssoc(old(hCollectedColumns), FocusColumns(done), FocusColumns([plan]));
        AppendAssoc(old(temporaryColumns), TempAliases(done), TempAliases([plan]));
        AppendAssoc(old(conversionNodes), done, [plan]);
        var supported := PrepareRule(plan);
        done := done + [plan];
        if !supported {
          StopsAt(rules, i);
          return Some(plan.conversionType);
        }
        GoesPast(rules, i);
        i := i + 1;
      }
      VisitsAll(rules);
      return None;
    }

    /**
      The body of the preparation loop for one rule: its alias, the temporary
      column, the graph node, the focus column, and the dispatch on its kind.
      Returns false where the source raises `NotImplementedError`.
     */
    method PrepareRule(plan: ConversionRule) returns (supported: bool)
      modifies this`hCollectedColumns, this`hColumnExprs, this`hSqlQueries, this`temporaryColumns, this`conversionNodes
      ensures supported == Supported(plan)
      ensures temporaryColumns == old(temporaryColumns) + TempAliases([plan])
      ensures conversionNodes == old(conversionNodes) + [plan]
      ensures hCollectedColumns == old(hCollectedColumns) + FocusColumns([plan])
      ensures hColumnExprs == old(hColumnExprs) + ExprEntries([plan])
      ensures hSqlQueries == old(hSqlQueries) + SqlEntries([plan])
    {
      OneRuleOneEntry(plan);
      var columnAlias: string;
      if plan.columnPrefix.Some? && plan.columnPrefix.value != "" {
        columnAlias := plan.columnPrefix.value + "_" + plan.focusColumn;
        temporaryColumns := temporaryColumns + [columnAlias];
      } else {
        columnAlias := plan.focusColumn;
      }
      conversionNodes := conversionNodes + [plan];
      hCollectedColumns := hCollectedColumns + [plan.focusColumn];

      var compiled := Compiled(plan.conversionType, columnAlias, plan);
      supported := true;
      match plan.conversionType {
        case ConvertTimezone => hColumnExprs := hColumnExprs + [RuleExpr(compiled)];
        case AssignTimezone => hColumnExprs := hColumnExprs + [RuleExpr(compiled)];
        case AssignUtcTimezone => hColumnExprs := hColumnExprs + [RuleExpr(compiled)];
        case RenameColumn => hColumnExprs := hColumnExprs + [RuleExpr(compiled)];
        case SqlQuery => hSqlQueries := hSqlQueries + [compiled];
        case SqlCondition => hSqlQueries := hSqlQueries + [compiled];
        case ParseDatetime => hColumnExprs := hColumnExprs + [RuleExpr(compiled)];
        case UnnestColumn => hColumnExprs := hColumnExprs + [RuleExpr(compiled)];
        case _ => supported := false;
      }
    }

    /** `__apply_sql_queries__`: runs every query against the one context. */
    static method ApplySqlQueries(lf: Table, sqlContext: SqlContext, sqlQueries: seq<Compiled>, eng: Engines)
      returns (out: Table)
      ensures out == RunQueries(sqlContext, lf, sqlQueries, eng)
      ensures out == if sqlQueries == [] then lf else eng.execute(sqlContext, sqlQueries[|sqlQueries| - 1])
    {
      out := lf;
      var i := 0;
      while i < |sqlQueries|
        invariant 0 <= i <= |sqlQueries|
        invariant RunQueries(sqlContext, out, sqlQueries[i..], eng) == RunQueries(sqlContext, lf, sqlQueries, eng)
      {
        out := eng.execute(sqlContext, sqlQueries[i]);
        assert sqlQueries[i..][1..] == sqlQueries[i + 1..];
        i := i + 1;
      }
      RunQueriesLastWins(sqlContext, lf, sqlQueries, eng);
    }

    /** `__apply_column_expressions__`: `with_columns` with each expression, in order. */
    static method ApplyColumnExpressions(lf: Table, columnExpressions: seq<ColumnExpr>, eng: Engines)
      returns (out: Table)
      ensures out == ApplyExprs(lf, columnExpressions, eng)
    {
      out := lf;
      var i := 0;
      while i < |columnExpressions|
        invariant 0 <= i <= |columnExpressions|
        invariant ApplyExprs(out, columnExpressions[i..], eng) == ApplyExprs(lf, columnExpressions, eng)
      {
        out := eng.withColumns(out, columnExpressions[i]);
        assert columnExpressions[i..][1..] == columnExpressions[i + 1..];
        i := i + 1;
      }
    }

    /** `apply_plan`: no temporary column is left in the result. */
    method ApplyPlan(lf: Table, eng: Engines) returns (out: Table)
      ensures out == PlanResult(lf, hColumnExprs, hSqlQueries, temporaryColumns, eng)
      ensures forall c :: c in temporaryColumns ==> c !in out
    {
      out := ApplyColumnExpressions(lf, hColumnExprs, eng);
      var sqlContext := CreateSqlContext(out);
      out := ApplySqlQueries(out, sqlContext, hSqlQueries, eng);
      out := DropColumns(out, temporaryColumns);
    }

    /**
      `convert`: converts and exports the batches in loader order and stops at
      the first one that raises.  An exception caught by the `except` clause
      closes the exporter, if there is one, and is re-raised; one raised by
      the scanner itself propagates without closing.  A run without error
      never closes.
     */
    method Convert(eng: Engines) returns (outcome: Outcome<Error>)
      modifies dataExporter
      ensures
        var n := FirstFailing(dataLoader, dataExporter != null);
        && (dataExporter != null ==>
              && dataExporter.collected == old(dataExporter.collected)
                   + Exports(dataLoader[..n], hColumnExprs, hSqlQueries, temporaryColumns, ColumnSet(hCollectedColumns), eng)
              && dataExporter.closeCalls == old(dataExporter.closeCalls)
                   + (if n < |dataLoader| && !BatchError(dataLoader[n], true).value.ScanFailure? then 1 else 0))
        && outcome == if n < |dataLoader| then Fail(BatchError(dataLoader[n], dataExporter != null).value) else Pass
    {
      var exporter, batches := dataExporter, dataLoader;
      var hasExporter := exporter != null;
      var exprs, queries, temps := hColumnExprs, hSqlQueries, temporaryColumns;
      var columns := ColumnSet(hCollectedColumns);
      var error: Option<Error> := None;
      var i := 0;
      while i < |batches|
        invariant i <= FirstFailing(batches, hasExporter)
        invariant error.Some? ==> i < |batches| && error == BatchError(batches[i], hasExporter)
        invariant exporter != null ==>
          && exporter.collected == old(exporter.collected) + Exports(batches[..i], exprs, queries, temps, columns, eng)
          && exporter.closeCalls == old(exporter.closeCalls)
      {
        var batch := batches[i];
        if batch.fault.Some? && batch.fault.value.ScanFault? {
          error := Some(ScanFailure(batch.fault.value.reason));
          break;
        }
        if batch.fault.Some? && batch.fault.value.ApplyFault? {
          error := Some(ConversionFailure(batch.fault.value.reason));
          break;
        }
        var lf := ApplyPlan(batch.frame, eng);
        if exporter == null {
          error := Some(MissingExporter);
          break;
        }
        if batch.fault.Some? {
          error := Some(ConversionFailure(batch.fault.value.reason));
          break;
        }
        PassesAt(batches, hasExporter, i);
        ExportsSnoc(batches, i, exprs, queries, temps, columns, eng);
        exporter.Collect(lf, columns);
        i := i + 1;
      }

      if error.Some? {
        FailsAt(batches, hasExporter, i);
        if exporter != null && !error.value.ScanFailure? {
          exporter.Close();
        }
        return Fail(error.value);
      }
      assert batches[..i] == batches;
      return Pass;
    }
  }
}
