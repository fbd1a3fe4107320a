# FOCUS converter: plan builder and executor

This project models the core of the FOCUS converter, which turns a cloud
provider's billing export into the FOCUS format. The model covers:

- how `FocusConverter` keeps each provider's conversion rules in
  `(dimension_id, priority)` order;
- how `prepare_horizontal_conversion_plan` turns one provider's rules into a
  list of column expressions, a list of SQL queries, the collected focus
  columns and the temporary columns;
- how `apply_plan` applies that plan to one lazy frame;
- how `convert` streams the data loader's batches to the exporter and what it
  does on the first failure.

It also models the package `conversion_functions`: the closed set of rule
kinds and their string tags, the file-name filter that picks plugin modules,
the module name `load_module` derives from a path, and the class-level
`plugins` registry of `Base`.

Layout, one module per file:

- `wrappers.dfy`: `Option`, `Result` and `Outcome`.
- `seqs.dfy`: two facts about concatenation.
- `conversion_types.dfy`: the rule kinds and their tags.
- `plugins.dfy`: the file filter, path helpers, the registry and the import loop.
- `rules.dfy`: the rule record, the stable sort and the provider map.
- `plan.dfy`: what preparation builds, as functions of the rule list.
- `frames.dfy`: frames, the external engines, and what `apply_plan` and `convert` produce.
- `converter.dfy`: the `FocusConverter` and `DataExporter` classes.

The classes keep the source's imperative form. `FocusConverter` has the
source's instance fields. Its methods update those fields in loops and are
proved against the specification functions of `plan.dfy` and `frames.dfy`.
The properties are proved as lemmas about those functions.

## Behaviour worth noting

- **SQL queries.** `apply_plan` builds one SQL context, before the query loop,
  from the frame after the column expressions
  (focus_converter_base/focus_converter/converter.py:175). Every query in
  `__apply_sql_queries__` runs against that context (converter.py:152-153).
  So only the last query's result survives, and with no query the frame is
  unchanged (`Frames.RunQueriesLastWins`).
- **Equal keys.** `sorted` is stable. So among rule files with equal
  `(dimension_id, priority)`, the listing order decides the plan order. Two
  listings give the same plan exactly when they agree on that order within
  every key (`Rules.SortRulesReorder`, `Rules.EqualKeysKeepInputOrder`).
- **Scanner failures.** The loop header of `convert` is outside the `try`
  (converter.py:188-196). An exception the data scanner raises while
  producing a batch therefore propagates without the exporter being closed
  (`Converter.FocusConverter.Convert`, `Frames.ScanFailureOnlyFromScanner`).

## Model

| member | source | states |
|---|---|---|
| ConversionTypes.ParseTagRoundTrip | focus_converter_base/focus_converter/conversion_functions/__init__.py:7-37 | Parsing a kind's tag gives the kind back |
| ConversionTypes.ParseTag | focus_converter_base/focus_converter/conversion_functions/__init__.py:7-37 | Looking up a tag gives a kind whose tag is that string; it gives none exactly when no kind has that tag |
| ConversionTypes.TagsDistinct | focus_converter_base/focus_converter/conversion_functions/__init__.py:7-37 | Two kinds with the same tag are the same kind |
| ConversionTypes.AllTypesComplete | focus_converter_base/focus_converter/conversion_functions/__init__.py:7-37 | There are exactly 13 kinds, every kind is listed, and their tags are pairwise distinct |
| Plugins.StartsWithIsPrefix | focus_converter_base/focus_converter/conversion_functions/__init__.py:70-71 | `startswith` holds iff the pattern is a prefix of the string |
| Plugins.EndsWithIsSuffix | focus_converter_base/focus_converter/conversion_functions/__init__.py:72 | `endswith` holds iff the pattern is a suffix of the string |
| Plugins.PluginFileNameChars | focus_converter_base/focus_converter/conversion_functions/__init__.py:69-73 | An entry is loaded iff it ends in ".py", does not start with "." and does not start with "__" |
| Plugins.PluginFileNameExamples | focus_converter_base/focus_converter/conversion_functions/__init__.py:69-73 | "__init__.py", ".x.py", ".py" and "sql_functions.pyc" are rejected; "sql_functions.py" is accepted |
| Plugins.ModuleName | focus_converter_base/focus_converter/conversion_functions/__init__.py:55-56 | The module name is a suffix of the path, holds no separator, and is the whole path or follows a separator |
| Plugins.ModuleNameUnique | focus_converter_base/focus_converter/conversion_functions/__init__.py:55-56 | Any separator-free suffix that is the whole path or follows a separator is the module name |
| Plugins.JoinShape | focus_converter_base/focus_converter/conversion_functions/__init__.py:74 | `os.path.join(dir, fname)`: `fname` ends the result; an absolute `fname` replaces `dir`; otherwise `dir` comes first, followed by one `/` unless `dir` is empty or already ends in one |
| Plugins.JoinModuleName | focus_converter_base/focus_converter/conversion_functions/__init__.py:55-74 | Loading directory entry `fname` gives the module the name `fname` |
| Plugins.PluginFileNamesMembers | focus_converter_base/focus_converter/conversion_functions/__init__.py:67-74 | An entry is imported iff it is listed and passes the filter |
| Plugins.PluginPathsModuleNames | focus_converter_base/focus_converter/conversion_functions/__init__.py:55-74 | The loaded modules' names are exactly the accepted entries, in listing order |
| Plugins.PluginBase.InitSubclass | focus_converter_base/focus_converter/conversion_functions/__init__.py:47-50 | The new subclass is appended at the end; earlier entries are kept |
| Plugins.RegisterTwice | focus_converter_base/focus_converter/conversion_functions/__init__.py:47-50 | Registering one class twice keeps both entries: there is no duplicate check |
| Plugins.ExecModule | focus_converter_base/focus_converter/conversion_functions/__init__.py:57-59 | Executing a module runs `__init_subclass__` once per class it defines: the registry grows by those classes, in definition order |
| Plugins.LoadPluginModules | focus_converter_base/focus_converter/conversion_functions/__init__.py:67-74 | The loop loads exactly the accepted entries' paths, and the registry grows by each module's classes in order |
| Rules.SortRules | focus_converter_base/focus_converter/converter.py:56-60 | The sorted plan is ascending by `(dimension_id, priority)` and is a permutation of the input |
| Rules.SortRulesStable | focus_converter_base/focus_converter/converter.py:56-60 | Among rules with one key, the sorted plan keeps the input order |
| Rules.SortRulesUnique | focus_converter_base/focus_converter/converter.py:56-60 | The sorted plan is the only sorted arrangement that keeps the input order within each key |
| Rules.SortRulesReorder | focus_converter_base/focus_converter/converter.py:56-60 | Two inputs give the same plan iff they agree on the order of the rules within each key |
| Rules.EqualKeysKeepInputOrder | focus_converter_base/focus_converter/converter.py:56-60 | Two different rules with one key come out in the order they went in |
| Rules.LoadedPlansKeys | focus_converter_base/focus_converter/converter.py:42-61 | Exactly the listed providers have a plan |
| Rules.LoadedPlansAt | focus_converter_base/focus_converter/converter.py:56-61 | A provider not listed again later maps to its own rules, sorted |
| Converter.FocusConverter.LoadProviderConversionConfigs | focus_converter_base/focus_converter/converter.py:41-61 | The loop stores the provider map, with each provider's rules sorted |
| Plan.FirstUnsupported | focus_converter_base/focus_converter/converter.py:82-145 | The position of the first rule whose kind has no compiler: every earlier rule is dispatched, and this one is not |
| Plan.OneRuleOneEntry | focus_converter_base/focus_converter/converter.py:84-141 | A rule adds one entry to one list iff its kind is dispatched; its alias is `prefix_focus` and is a temporary column iff the prefix is set and non-empty; its focus column is recorded |
| Plan.PlanAppend | focus_converter_base/focus_converter/converter.py:82-141 | Each plan list is built rule by rule: it distributes over concatenation |
| Plan.FocusColumnsAt | focus_converter_base/focus_converter/converter.py:93 | The collected columns are the rules' focus columns, one per rule, in rule order |
| Plan.SplitCount | focus_converter_base/focus_converter/converter.py:95-141 | With every rule dispatched, the two lists hold one entry per rule between them |
| Plan.ExprEntriesMembers | focus_converter_base/focus_converter/converter.py:95-141 | An expression entry is exactly some expression-kind rule compiled with its alias |
| Plan.SqlEntriesMembers | focus_converter_base/focus_converter/converter.py:120-131 | A SQL entry is exactly some SQL-kind rule compiled with its alias |
| Plan.TempAliasesMembers | focus_converter_base/focus_converter/converter.py:84-86 | A temporary column is exactly `prefix + "_" + focus_column` of some prefixed rule |
| Converter.FocusConverter.PrepareRule | focus_converter_base/focus_converter/converter.py:83-145 | One loop step: the alias, the temporary column, the graph node, the focus column, and one entry in the list for the rule's kind; false for a kind without a compiler |
| Converter.FocusConverter.PrepareRules | focus_converter_base/focus_converter/converter.py:82-145 | The loop visits the rules up to and including the first unsupported one, returns its kind, and extends each list by the visited rules' entries |
| Converter.FocusConverter.PrepareHorizontalConversionPlan | focus_converter_base/focus_converter/converter.py:69-146 | The three plan lists are reset and the add-provider entry comes first; temporary columns and graph nodes only grow, even across calls; an unknown provider or an unsupported kind fails after the visited rules are recorded; on success the lists hold `1 + len(rules)` entries and one collected column per rule |
| Frames.ApplyExprsAppend | focus_converter_base/focus_converter/converter.py:160-161 | Applying a concatenation of expressions applies the first part, then the second to its result |
| Frames.RunQueriesLastWins | focus_converter_base/focus_converter/converter.py:148-178 | The SQL loop yields the last query's result against the one context, or the frame when there is no query |
| Frames.DropColumns | focus_converter_base/focus_converter/converter.py:181 | Every dropped column is gone, every other column is kept with its values |
| Frames.ColumnSet | focus_converter_base/focus_converter/converter.py:192 | `set(h_collected_columns)` holds exactly the collected columns and is no larger than the list |
| Frames.FirstFailing | focus_converter_base/focus_converter/converter.py:188-196 | The position of the first batch that raises: every earlier batch passes, and this one fails |
| Frames.ExportsAt | focus_converter_base/focus_converter/converter.py:188-193 | The i-th completed `collect` call gets batch i converted by the plan and the deduplicated collected columns |
| Frames.ExportsAppend | focus_converter_base/focus_converter/converter.py:188-193 | The completed `collect` calls for a concatenation of batches are those of each part, in order |
| Frames.ScanFailureOnlyFromScanner | focus_converter_base/focus_converter/converter.py:188-196 | A batch's error is the scanner's own exception exactly when the scanner failed to produce it |
| Frames.NoExporterFailsFirstBatch | focus_converter_base/focus_converter/converter.py:188-191 | Without an exporter, the first batch already raises: the scanner's exception, the apply-stage exception or the `AttributeError` of `None.collect` |
| Converter.FocusConverter.ApplyColumnExpressions | focus_converter_base/focus_converter/converter.py:156-162 | The loop applies every expression in list order |
| Converter.FocusConverter.ApplySqlQueries | focus_converter_base/focus_converter/converter.py:148-154 | The loop runs every query against the one context; the last query's result, or the frame, comes out |
| Converter.FocusConverter.ApplyPlan | focus_converter_base/focus_converter/converter.py:168-183 | Expressions first, then the SQL queries against a context over the expression-augmented frame, then the temporary columns dropped: none is left |
| Converter.FocusConverter.Convert | focus_converter_base/focus_converter/converter.py:185-203 | Batches before the first failing one are collected in loader order, none after it, and that error is returned; when the error is raised inside the `try`, an existing exporter is closed exactly once; a scanner exception leaves it unclosed; on success close is never called |
| Converter.DataExporter.Collect | focus_converter_base/focus_converter/converter.py:191-193 | A `collect` that returns logs one more export; close calls are unchanged |
| Converter.DataExporter.Close | focus_converter_base/focus_converter/converter.py:200-201 | One more close call; the exports are unchanged |
| Converter.FocusConverter.LoadData | focus_converter_base/focus_converter/converter.py:63-64 | The loader holds the given batches |
| Converter.FocusConverter.ConfigureDataExport | focus_converter_base/focus_converter/converter.py:66-67 | A new exporter with nothing written and no close call |
| Plugins.PluginBase.constructor | focus_converter_base/focus_converter/conversion_functions/__init__.py:43 | The shared registry starts empty |
| Converter.FocusConverter.constructor | focus_converter_base/focus_converter/converter.py:37-39 | The temporary columns start empty; every field the source leaves unset starts empty or absent |

## Left out

- Polars semantics of the compilers (timezones, datetime parsing, unnest, rename, add-provider): a compiled entry is an opaque descriptor of its kind, alias and rule.
- `with_columns`, `create_sql_context` and `execute` are external engines: `withColumns` and `execute` are function parameters, and query text is opaque.
- `map_values`, `static_value` and the other non-dispatched kinds: their compilers are not part of this model, and preparation rejects them.
- YAML loading and pydantic validation of a rule file: the rules come in already parsed.
- `os.listdir` and `resource_filename`: the provider directories and their files come in as a list, in listing order.
- Converter.FocusConverter.LoadProviderConversionConfigs: the order of the files inside one provider directory comes from the caller, so a nondeterministic listing cannot be expressed.
- The `NetworkSimulator` graph and `explain`: `add_conversion_node` is recorded as the `conversionNodes` log and nothing more.
- Dynamic import with `importlib`: executing a module is reduced to the classes it defines, given by the caller.
- The `print` calls in `__init_subclass__`, and the `logging` calls, are output only.
- Plugins.PluginBase.InitSubclass: registers a class by its name; class objects are not modelled.
- Windows paths: `os.path` follows POSIX rules with `/` as the only separator.
- The `AttributeError` raised by a use of `plans`, `h_*` or `data_loader` before it is set: the constructor sets these fields to empty.
- Converter.FocusConverter.Convert: the exception object is reduced to the `Error` value it carries, and a batch's failure is given with the batch as a scanner, apply-stage or collect-stage fault. A `collect` that raises leaves no entry, so `collected` holds the completed writes only: the failing call itself is not logged. A `BaseException` that is not an `Exception` (such as `KeyboardInterrupt`) is not modelled: like a scanner exception it would propagate without `close`.
- polars' `drop` of a column the frame lacks: the model drops it silently.
- main.py (the command-line interface) and the tests that call functions or parameters that are not in the modelled code.
