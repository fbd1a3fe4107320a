/**
  The data side of a conversion: a lazy frame as a map from column name to
  column, the two external engines (polars' `with_columns` and the SQL
  context's `execute`), what `apply_plan` makes of one frame, and what
  `convert` hands to the exporter for a stream of batches.
 */
module Frames {
  import opened Wrappers
  import opened Plan
  import opened Seqs

  /** An abstract column of cell values. */
  datatype Column = Column(cells: seq<string>)

  /** A lazy frame: its columns by name. */
  type Table = map<string, Column>

  /** The SQL context: the frame registered once, before any query runs. */
  datatype SqlContext = SqlContext(registered: Table)

  /** `SQLFunctions.create_sql_context(lf=lf)`. */
  function CreateSqlContext(lf: Table): SqlContext {
    SqlContext(lf)
  }

  /**
    The engines the executor delegates to: `lf.with_columns(expr)` and
    `sql_context.execute(query)`; both fall outside this model.
   */
  datatype Engines = Engines(withColumns: (Table, ColumnExpr) -> Table, execute: (SqlContext, Compiled) -> Table)

  /** The frame after applying `exprs` to `lf`, first to last. */
  function ApplyExprs(lf: Table, exprs: seq<ColumnExpr>, eng: Engines): Table
    decreases |exprs|
  {
    if exprs == [] then lf else ApplyExprs(eng.withColumns(lf, exprs[0]), exprs[1..], eng)
  }

  /** Applying a concatenation applies the first part, then the second on its result. */
  lemma {:induction false} ApplyExprsAppend(lf: Table, a: seq<ColumnExpr>, b: seq<ColumnExpr>, eng: Engines)
    ensures ApplyExprs(lf, a + b, eng) == ApplyExprs(ApplyExprs(lf, a, eng), b, eng)
    decreases |a|
  {
    if a == [] {
      assert a + b == b;
    } else {
      assert (a + b)[1..] == a[1..] + b;
      ApplyExprsAppend(eng.withColumns(lf, a[0]), a[1..], b, eng);
    }
  }

  /** The frame after running `queries` in turn, each one's result replacing `lf`. */
  function RunQueries(ctx: SqlContext, lf: Table, queries: seq<Compiled>, eng: Engines): Table
    decreases |queries|
  {
    if queries == [] then lf else RunQueries(ctx, eng.execute(ctx, queries[0]), queries[1..], eng)
  }

  /**
    Every query runs against the context's registered frame, so only the
    last query's result survives; with no queries the frame is unchanged.
   */
  lemma {:induction false} RunQueriesLastWins(ctx: SqlContext, lf: Table, queries: seq<Compiled>, eng: Engines)
    ensures RunQueries(ctx, lf, queries, eng) ==
      if queries == [] then lf else eng.execute(ctx, queries[|queries| - 1])
    decreases |queries|
  {
    if queries != [] {
      RunQueriesLastWins(ctx, eng.execute(ctx, queries[0]), queries[1..], eng);
    }
  }

  /** `lf.drop(columns)`: every named column is gone and every other column is kept. */
  function DropColumns(lf: Table, columns: seq<string>): (r: Table)
    ensures forall c :: c in columns ==> c !in r
    ensures forall c :: c in r <==> c in lf && c !in columns
    ensures forall c :: c in r ==> r[c] == lf[c]
  {
    map c | c in lf && c !in columns :: lf[c]
  }

  /**
    `apply_plan`: the column expressions in order, then the SQL queries
    against a context over the expression-augmented frame, then the
    temporary columns dropped.
   */
  function PlanResult(lf: Table, exprs: seq<ColumnExpr>, queries: seq<Compiled>, temps: seq<string>, eng: Engines): Table {
    var withExprs := ApplyExprs(lf, exprs, eng);
    DropColumns(RunQueries(CreateSqlContext(withExprs), withExprs, queries, eng), temps)
  }

  /** The deduplicated set `set(columns)`. */
  function ColumnSet(columns: seq<string>): (r: set<string>)
    ensures forall c :: c in r <==> c in columns
    ensures |r| <= |columns|
  {
    if columns == [] then {} else {columns[0]} + ColumnSet(columns[1..])
  }

  /** Where processing a batch raises, when it does. */
  datatype Fault =
    | ScanFault(reason: string)     // while the scanner produces the batch, before the `try`
    | ApplyFault(reason: string)    // while building the batch's lazy plan
    | CollectFault(reason: string)  // inside `collect`, which then logs nothing

  /** One batch from the data loader's scanner, possibly faulty. */
  datatype Batch = Batch(frame: Table, fault: Option<Fault>)

  /**
    The exception processing `b` raises.  A scanner fault comes first, since
    the batch never reaches the loop body.  Without an exporter, the lookup
    of `collect` on `None` fails before the frame is materialised.
   */
  function BatchError(b: Batch, hasExporter: bool): Option<Error> {
    if b.fault.Some? && b.fault.value.ScanFault? then Some(ScanFailure(b.fault.value.reason))
    else if b.fault.Some? && b.fault.value.ApplyFault? then Some(ConversionFailure(b.fault.value.reason))
    else if !hasExporter then Some(MissingExporter)
    else if b.fault.Some? then Some(ConversionFailure(b.fault.value.reason))
    else None
  }

  /** The position of the first batch that raises, or `|batches|` when none does. */
  function FirstFailing(batches: seq<Batch>, hasExporter: bool): (n: nat)
    ensures n <= |batches|
    ensures forall i :: 0 <= i < n ==> BatchError(batches[i], hasExporter).None?
    ensures n < |batches| ==> BatchError(batches[n], hasExporter).Some?
  {
    if batches == [] || BatchError(batches[0], hasExporter).Some? then 0
    else 1 + FirstFailing(batches[1..], hasExporter)
  }

  /** The conversion stops at batch `i` when every earlier batch passed and batch `i` raises. */
  lemma FailsAt(batches: seq<Batch>, hasExporter: bool, i: nat)
    requires i < |batches| && i <= FirstFailing(batches, hasExporter)
    requires BatchError(batches[i], hasExporter).Some?
    ensures FirstFailing(batches, hasExporter) == i
  {
  }

  /** The conversion goes past batch `i` when it does not raise. */
  lemma PassesAt(batches: seq<Batch>, hasExporter: bool, i: nat)
    requires i < |batches| && i <= FirstFailing(batches, hasExporter)
    requires BatchError(batches[i], hasExporter).None?
    ensures i + 1 <= FirstFailing(batches, hasExporter)
  {
  }

  /** One `collect` call that returns: the converted frame and the columns to export. */
  datatype Export = Export(frame: Table, columns: set<string>)

  /** The completed `collect` calls for `batches`, one per batch, in loader order. */
  function Exports(batches: seq<Batch>, exprs: seq<ColumnExpr>, queries: seq<Compiled>, temps: seq<string>,
                   columns: set<string>, eng: Engines): seq<Export>
  {
    if batches == [] then []
    else
      var head := Export(PlanResult(batches[0].frame, exprs, queries, temps, eng), columns);
      [head] + Exports(batches[1..], exprs, queries, temps, columns, eng)
  }

  /** The `i`-th export is batch `i` converted by the plan. */
  lemma {:induction false} ExportsAt(batches: seq<Batch>, exprs: seq<ColumnExpr>, queries: seq<Compiled>,
                                      temps: seq<string>, columns: set<string>, eng: Engines)
    ensures |Exports(batches, exprs, queries, temps, columns, eng)| == |batches|
    ensures forall i :: 0 <= i < |batches| ==>
      Exports(batches, exprs, queries, temps, columns, eng)[i]
        == Export(PlanResult(batches[i].frame, exprs, queries, temps, eng), columns)
  {
    if batches != [] {
      ExportsAt(batches[1..], exprs, queries, temps, columns, eng);
    }
  }

  /** Converting one more batch appends its one export. */
  lemma ExportsSnoc(batches: seq<Batch>, i: nat, exprs: seq<ColumnExpr>, queries: seq<Compiled>,
                    temps: seq<string>, columns: set<string>, eng: Engines)
    requires i < |batches|
    ensures Exports(batches[..i + 1], exprs, queries, temps, columns, eng)
      == Exports(batches[..i], exprs, queries, temps, columns, eng)
         + [Export(PlanResult(batches[i].frame, exprs, queries, temps, eng), columns)]
  {
    assert batches[..i + 1] == batches[..i] + [batches[i]];
    ExportsAppend(batches[..i], [batches[i]], exprs, queries, temps, columns, eng);
    assert [batches[i]][1..] == [];
  }

  lemma {:induction false} ExportsAppend(a: seq<Batch>, b: seq<Batch>, exprs: seq<ColumnExpr>, queries: seq<Compiled>,
                                          temps: seq<string>, columns: set<string>, eng: Engines)
    ensures Exports(a + b, exprs, queries, temps, columns, eng)
      == Exports(a, exprs, queries, temps, columns, eng) + Exports(b, exprs, queries, temps, columns, eng)
  {
    if a == [] {
      assert a + b == b;
    } else {
      ConsAppend(a, b);
      ExportsAppend(a[1..], b, exprs, queries, temps, columns, eng);
    }
  }

  /** Without an exporter, the very first batch raises. */
  lemma NoExporterFailsFirstBatch(batches: seq<Batch>)
    requires batches != []
    ensures FirstFailing(batches, false) == 0
    ensures BatchError(batches[0], false) ==
      if batches[0].fault.Some? && batches[0].fault.value.ScanFault?
      then Some(ScanFailure(batches[0].fault.value.reason))
      else if batches[0].fault.Some? && batches[0].fault.value.ApplyFault?
      then Some(ConversionFailure(batches[0].fault.value.reason))
      else Some(MissingExporter)
  {
  }

  /** The scanner's own exception is the only one that escapes the `except` clause. */
  lemma ScanFailureOnlyFromScanner(b: Batch, hasExporter: bool)
    requires BatchError(b, hasExporter).Some?
    ensures BatchError(b, hasExporter).value.ScanFailure? <==> b.fault.Some? && b.fault.value.ScanFault?
  {
  }
}
