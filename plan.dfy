/**
  What `prepare_horizontal_conversion_plan` builds from a provider's sorted
  rules, as functions of the rule list: the working alias of each rule, the
  dispatch of each rule kind, and the four lists the preparation fills.
 */
module Plan {
  import opened ConversionTypes
  import opened Rules
  import opened Seqs

  /** The errors a conversion can end with. */
  datatype Error =
    | NotImplemented(kind: ConversionType)  // `NotImplementedError` for an undispatched kind
    | UnknownProvider(provider: string)     // `KeyError` on `self.plans[provider]`
    | ConversionFailure(reason: string)     // any exception raised while converting a batch
    | MissingExporter                       // `AttributeError`: no exporter was configured
    | ScanFailure(reason: string)           // raised by the data scanner, outside the `try`

  /** `if plan.column_prefix:` with Python truthiness: `None` and `""` are unset. */
  predicate HasPrefix(r: ConversionRule) {
    r.columnPrefix.Some? && r.columnPrefix.value != ""
  }

  /** The working column alias of a rule. */
  function Alias(r: ConversionRule): string {
    if HasPrefix(r) then r.columnPrefix.value + "_" + r.focusColumn else r.focusColumn
  }

  /** Where the dispatch sends a rule of each kind. */
  datatype Target = Expressions | Sql | Unsupported

  function TargetOf(k: ConversionType): Target {
    match k
    case ConvertTimezone | AssignTimezone | AssignUtcTimezone | RenameColumn
       | ParseDatetime | UnnestColumn => Expressions
    case SqlQuery | SqlCondition => Sql
    case Lookup | MapValues | AssignStaticValue | ApplyDefaultIfColumnMissing
       | SetColumnDtypes => Unsupported
  }

  predicate Supported(r: ConversionRule) {
    TargetOf(r.conversionType) != Unsupported
  }

  /**
    A compiled entry: the output of the kind's compiler applied to
    `(plan, column_alias)`, kept as an opaque descriptor.
   */
  datatype Compiled = Compiled(kind: ConversionType, alias: string, plan: ConversionRule)

  /** An entry of `h_column_exprs`. */
  datatype ColumnExpr =
    | AddProvider(provider: string)  // `ColumnFunctions.add_provider(provider=...)`
    | RuleExpr(compiled: Compiled)

  function Compile(r: ConversionRule): Compiled {
    Compiled(r.conversionType, Alias(r), r)
  }

  /** The rule-derived entries of `h_column_exprs`, in rule order. */
  function ExprEntries(rs: seq<ConversionRule>): seq<ColumnExpr> {
    if rs == [] then []
    else
      var head := if TargetOf(rs[0].conversionType) == Expressions then [RuleExpr(Compile(rs[0]))] else [];
      head + ExprEntries(rs[1..])
  }

  /** The entries of `h_sql_queries`, in rule order. */
  function SqlEntries(rs: seq<ConversionRule>): seq<Compiled> {
    if rs == [] then []
    else
      var head := if TargetOf(rs[0].conversionType) == Sql then [Compile(rs[0])] else [];
      head + SqlEntries(rs[1..])
  }

  /** `h_collected_columns`: the focus column of each rule. */
  function FocusColumns(rs: seq<ConversionRule>): seq<string> {
    if rs == [] then [] else [rs[0].focusColumn] + FocusColumns(rs[1..])
  }

  /** What the rules append to `__temporary_columns__`: the alias of each prefixed rule. */
  function TempAliases(rs: seq<ConversionRule>): seq<string> {
    if rs == [] then []
    else (if HasPrefix(rs[0]) then [Alias(rs[0])] else []) + TempAliases(rs[1..])
  }

  /** The position of the first rule whose kind is not dispatched, or `|rs|` when there is none. */
  function FirstUnsupported(rs: seq<ConversionRule>): (n: nat)
    ensures n <= |rs|
    ensures forall i :: 0 <= i < n ==> Supported(rs[i])
    ensures n < |rs| ==> !Supported(rs[n])
  {
    if rs == [] || !Supported(rs[0]) then 0 else 1 + FirstUnsupported(rs[1..])
  }

  /**
    The rules the preparation visits: all of them, or those up to and
    including the first one that raises.
   */
  function Visited(rs: seq<ConversionRule>): seq<ConversionRule> {
    var n := FirstUnsupported(rs);
    if n < |rs| then rs[..n + 1] else rs
  }

  /** The preparation stops at rule `i` when every earlier rule is dispatched and `rs[i]` is not. */
  lemma StopsAt(rs: seq<ConversionRule>, i: nat)
    requires i < |rs| && i <= FirstUnsupported(rs) && !Supported(rs[i])
    ensures FirstUnsupported(rs) == i
    ensures Visited(rs) == rs[..i + 1]
  {
  }

  /** The preparation goes past rule `i` when it is dispatched. */
  lemma GoesPast(rs: seq<ConversionRule>, i: nat)
    requires i < |rs| && i <= FirstUnsupported(rs) && Supported(rs[i])
    ensures i + 1 <= FirstUnsupported(rs)
  {
  }

  /** With every rule dispatched, the preparation visits them all. */
  lemma VisitsAll(rs: seq<ConversionRule>)
    requires FirstUnsupported(rs) == |rs|
    ensures Visited(rs) == rs && rs[..FirstUnsupported(rs)] == rs
  {
  }

  /** Each list of the plan is built rule by rule: it distributes over concatenation. */
  lemma PlanAppend(a: seq<ConversionRule>, b: seq<ConversionRule>)
    ensures ExprEntries(a + b) == ExprEntries(a) + ExprEntries(b)
    ensures SqlEntries(a + b) == SqlEntries(a) + SqlEntries(b)
    ensures FocusColumns(a + b) == FocusColumns(a) + FocusColumns(b)
    ensures TempAliases(a + b) == TempAliases(a) + TempAliases(b)
  {
    ExprEntriesAppend(a, b);
    SqlEntriesAppend(a, b);
    FocusColumnsAppend(a, b);
    TempAliasesAppend(a, b);
  }

  lemma {:induction false} ExprEntriesAppend(a: seq<ConversionRule>, b: seq<ConversionRule>)
    ensures ExprEntries(a + b) == ExprEntries(a) + ExprEntries(b)
  {
    if a == [] {
      assert a + b == b;
    } else {
      ConsAppend(a, b);
      ExprEntriesAppend(a[1..], b);
      AppendAssoc(if TargetOf(a[0].conversionType) == Expressions then [RuleExpr(Compile(a[0]))] else [], ExprEntries(a[1..]), ExprEntries(b));
    }
  }

  lemma {:induction false} SqlEntriesAppend(a: seq<ConversionRule>, b: seq<ConversionRule>)
    ensures SqlEntries(a + b) == SqlEntries(a) + SqlEntries(b)
  {
    if a == [] {
      assert a + b == b;
    } else {
      ConsAppend(a, b);
      SqlEntriesAppend(a[1..], b);
      AppendAssoc(if TargetOf(a[0].conversionType) == Sql then [Compile(a[0])] else [], SqlEntries(a[1..]), SqlEntries(b));
    }
  }

  lemma {:induction false} FocusColumnsAppend(a: seq<ConversionRule>, b: seq<ConversionRule>)
    ensures FocusColumns(a + b) == FocusColumns(a) + FocusColumns(b)
  {
    if a == [] {
      assert a + b == b;
    } else {
      ConsAppend(a, b);
      FocusColumnsAppend(a[1..], b);
    }
  }

  lemma {:induction false} TempAliasesAppend(a: seq<ConversionRule>, b: seq<ConversionRule>)
    ensures TempAliases(a + b) == TempAliases(a) + TempAliases(b)
  {
    if a == [] {
      assert a + b == b;
    } else {
      ConsAppend(a, b);
      TempAliasesAppend(a[1..], b);
    }
  }

  /** A single rule: a supported rule adds exactly one entry to exactly one list. */
  lemma OneRuleOneEntry(r: ConversionRule)
    ensures |ExprEntries([r])| + |SqlEntries([r])| == if Supported(r) then 1 else 0
    ensures TargetOf(r.conversionType) == Expressions <==> ExprEntries([r]) == [RuleExpr(Compile(r))]
    ensures TargetOf(r.conversionType) == Sql <==> SqlEntries([r]) == [Compile(r)]
    ensures FocusColumns([r]) == [r.focusColumn]
    ensures TempAliases([r]) == if HasPrefix(r) then [r.columnPrefix.value + "_" + r.focusColumn] else []
  {
    assert [r][1..] == [];
  }

  /** The collected columns are the focus columns, one per rule, in rule order. */
  lemma {:induction false} FocusColumnsAt(rs: seq<ConversionRule>)
    ensures |FocusColumns(rs)| == |rs|
    ensures forall i :: 0 <= i < |rs| ==> FocusColumns(rs)[i] == rs[i].focusColumn
  {
    if rs != [] {
      FocusColumnsAt(rs[1..]);
    }
  }

  /** When every rule is dispatched, the two lists together hold one entry per rule. */
  lemma {:induction false} SplitCount(rs: seq<ConversionRule>)
    requires forall i :: 0 <= i < |rs| ==> Supported(rs[i])
    ensures |ExprEntries(rs)| + |SqlEntries(rs)| == |rs|
  {
    if rs != [] {
      assert Supported(rs[0]);
      SplitCount(rs[1..]);
    }
  }

  /** An expression entry comes from an expression-kind rule, compiled with that rule's alias. */
  lemma {:induction false} ExprEntriesMembers(rs: seq<ConversionRule>, e: ColumnExpr)
    ensures e in ExprEntries(rs) <==>
      exists i :: 0 <= i < |rs| && TargetOf(rs[i].conversionType) == Expressions && e == RuleExpr(Compile(rs[i]))
  {
    if rs != [] {
      ExprEntriesMembers(rs[1..], e);
      assert forall i :: 0 < i < |rs| ==> rs[i] == rs[1..][i - 1];
      if e in ExprEntries(rs[1..]) {
        var i :| 0 <= i < |rs[1..]| && TargetOf(rs[1..][i].conversionType) == Expressions && e == RuleExpr(Compile(rs[1..][i]));
        assert rs[i + 1] == rs[1..][i];
      }
    }
  }

  /** A SQL entry comes from a SQL-kind rule, compiled with that rule's alias. */
  lemma {:induction false} SqlEntriesMembers(rs: seq<ConversionRule>, q: Compiled)
    ensures q in SqlEntries(rs) <==>
      exists i :: 0 <= i < |rs| && TargetOf(rs[i].conversionType) == Sql && q == Compile(rs[i])
  {
    if rs != [] {
      SqlEntriesMembers(rs[1..], q);
      assert forall i :: 0 < i < |rs| ==> rs[i] == rs[1..][i - 1];
      if q in SqlEntries(rs[1..]) {
        var i :| 0 <= i < |rs[1..]| && TargetOf(rs[1..][i].conversionType) == Sql && q == Compile(rs[1..][i]);
        assert rs[i + 1] == rs[1..][i];
      }
    }
  }

  /** A temporary column is `prefix + "_" + focus_column` of some prefixed rule. */
  lemma {:induction false} TempAliasesMembers(rs: seq<ConversionRule>, a: string)
    ensures a in TempAliases(rs) <==>
      exists i :: 0 <= i < |rs| && HasPrefix(rs[i]) && a == rs[i].columnPrefix.value + "_" + rs[i].focusColumn
  {
    if rs != [] {
      TempAliasesMembers(rs[1..], a);
      assert forall i :: 0 < i < |rs| ==> rs[i] == rs[1..][i - 1];
      if a in TempAliases(rs[1..]) {
        var i :| 0 <= i < |rs[1..]| && HasPrefix(rs[1..][i]) && a == rs[1..][i].columnPrefix.value + "_" + rs[1..][i].focusColumn;
        assert rs[i + 1] == rs[1..][i];
      }
    }
  }
}
