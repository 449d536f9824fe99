# VerticaPy typing, DSN reading and linear-model constructors in Dafny

This project models three sequential pieces of VerticaPy, the Python client for
the Vertica database, and proves what they promise.

- **Column type casts.** These come from `verticapy/core/vdataframe/_typing.py`.
  - A vDataColumn keeps an append-only list `_transf` of
    `(template, declared type, category)` entries.
  - `vDCTyping.astype` picks a SQL template from the target type and the current
    category. It checks the engine version for `array` and `json`, samples the
    longest value for text-to-`array`/`vmap`, and validates the template against
    the engine. Only then does it append one entry. On any failure it raises
    `ConversionError` and leaves the list alone.
  - `category`, `ctype`, `isnum`, `isdate`, `isbool` and `isarray` read the last
    entry.
  - The vDataFrame helpers are loops over the columns: `astype` over a
    dictionary, `bool_to_int`, `numcol`, `datecol`, `catcol` and `dtypes`.
- **DSN reading.** This comes from `verticapy/connect/read.py`.
  - `read_dsn` turns a section's option lines into a connection dictionary. It
    starts from defaults and finds the `env` flag. It then renames keys, converts
    integers and flags, and looks up credentials in the environment when the flag
    is on.
  - `available_connections` lists the sections other than the automatic
    connection's own.
- **Linear-model constructors.** These come from `verticapy/learn/linear_model.py`.
  - The constructors of `ElasticNet`, `Lasso`, `LinearRegression`,
    `LogisticRegression` and `Ridge` validate the solver, and the penalty for the
    classifier.
  - `fit_intercept=False` is refused on engines older than 12.
  - Each constructor builds a `parameters` dictionary whose keys depend on the
    penalty.

The database never appears in the model. Every round trip is an input:

- the version triple;
- the longest value of a column;
- whether the validation query runs;
- the `catcol` low-cardinality answer;
- the parsed configuration file, as a map from section to option lines;
- the engine's own answer to whether a column holds maps (the second half of `isvmap()`);
- the environment, as a map from variable names to values.

The helpers the typing code imports from other modules are uninterpreted
functions held in `Typing.Oracles`: `to_sql_dtype`, `to_category`, `guess_sep`
and `clean_query`.

## Layout

- `wrappers.dfy`: `Option`, `Result` and `Outcome`.
- `strings.dfy`: the Python `str` operations the code uses, on `seq<char>`.
- `typing.dfy`: entries, templates, and `Convert`, the value-level meaning of
  `vDCTyping.astype`. It also holds the read predicates.
- `typing_properties.dfy`: what `astype` does for each (target, category) pair.
- `frame_spec.dfy`: the frame-level meanings. `Select` is the column filter;
  `CastAll` is a sequence of casts that stops at the first failure. The cast
  lemmas hold for any column cast; `VDataFrame.Converter` instantiates them
  with `Convert`.
- `vdataframe.dfy`: the classes `Column` and `Frame`. Their methods mutate
  `_transf` in place and are proved against `typing.dfy` and `frame_spec.dfy`.
- `dsn.dfy`: `ReadDsn`, an imperative method with both loops, proved against
  the fold `ReadDsnSpec`, together with the properties of that fold.
- `linear_model.dfy`: the class `LinearModel` and one factory per estimator.
  Each factory is proved against `Configure`, which has its own properties.

## Model

| member | source | states |
|---|---|---|
| Typing.Convert | verticapy/core/vdataframe/_typing.py:193-286 | a successful cast yields an entry whose category is `to_category` of its declared type, whose template is the cleaned rendering of a template and was accepted by the engine; a failure names the column (the type it names is stated by `CastProperties.ConvertFailures`) |
| Typing.CType | verticapy/core/vdataframe/_typing.py:302-311 | `ctype()` is the declared type lower-cased: same length, and already in lower case |
| Typing.IsBool | verticapy/core/vdataframe/_typing.py:327-337 | `isbool()` holds exactly when the lower-cased declared type starts with `bool` |
| Typing.IsArray | verticapy/core/vdataframe/_typing.py:315-325 | `isarray()` holds exactly when the lower-cased declared type starts with `array` |
| Typing.IsDate | verticapy/core/vdataframe/_typing.py:339-349 | `isdate()` holds exactly when the category is `date`, and then the column is not numeric |
| Typing.IsNum | verticapy/core/vdataframe/_typing.py:351-361 | `isnum()` holds exactly when the category is `int` or `float`, and then the column is not a date |
| Typing.IsVMap | verticapy/core/vdataframe/_typing.py:363-375 | `isvmap()` holds for every `vmap` column, and without the engine's own answer only for those |
| Typing.RenderHasPlaceholder | verticapy/core/vdataframe/_typing.py:263-264 | every template keeps the `{}` that `format` later fills with the column name |
| Typing.HeaderNamesRoundTrip | verticapy/core/vdataframe/_typing.py:218-220 | the header names of `vmap(h)` are `h`, and only a type of that exact form yields `h` |
| CastProperties.JsonTarget | verticapy/core/vdataframe/_typing.py:252-260 | a `json` target records `varchar`; a vmap column gets canonical `MAPTOSTRING`; any other column gets `TO_JSON` from 10.1.0 on and otherwise the version error naming `json` |
| CastProperties.VMapTarget | verticapy/core/vdataframe/_typing.py:211-225 | a `vmap...` target on a text column records `vmap`; the template is the JSON extractor exactly when the stripped sample is a braced object longer than two; otherwise it is the delimited extractor with the guessed separator and the header names; a missing sample raises |
| CastProperties.ArrayTarget | verticapy/core/vdataframe/_typing.py:198-245 | an `array` target on a text column fails below 10.0.0, fails without a sample, and otherwise uses `STRING_TO_ARRAY` with the guessed separator, the sample's brackets, and the null-element flag exactly when a doubled separator occurs once blanks are removed |
| CastProperties.ArrayGateBeforeSample | verticapy/core/vdataframe/_typing.py:198-208 | below 10.0.0 the outcome of an `array` cast does not depend on the engine's sample, so the gate comes before the query |
| CastProperties.BracketsAreEnds | verticapy/core/vdataframe/_typing.py:231-238 | inferred brackets are the sample's own first and last characters, only `()` or `{}`, and only for samples longer than two; a sample longer than two enclosed in `()` or in `{}` always yields them |
| CastProperties.CharTargetOnVMap | verticapy/core/vdataframe/_typing.py:246-251 | a `varchar...`/`char...` target on a vmap column uses non-canonical `MAPTOSTRING` cast to that type |
| CastProperties.PlainCastOtherwise | verticapy/core/vdataframe/_typing.py:261-262 | every other (target, category) pair, including `array`/`vmap` on a non-text column, gets the plain `{}::type` cast |
| CastProperties.ConvertFailures | verticapy/core/vdataframe/_typing.py:194-286 | `astype` raises only for the version gate of `array` (text column) or `json` (non-vmap column), a missing sample in the collection branch, or the engine rejecting the chosen template; the error names the converted requested type for the first two, and the type the template would have recorded (`vmap`, `varchar` or the requested type) for the last |
| CastProperties.DeclaredByChoose | verticapy/core/vdataframe/_typing.py:263-278 | a successful cast appends exactly the cleaned rendering of the template the branches chose, recorded under the type they chose |
| CastProperties.CategoryAfterCast | verticapy/core/vdataframe/_typing.py:278-300 | after a successful cast `category()` is `to_category` of the recorded type; `isnum()` and `isdate()` read exactly that category, and `isvmap()` holds whenever it is `vmap` and, unless the engine's own inspection reports a map, only then |
| CastProperties.JsonReadsAsVarchar | verticapy/core/vdataframe/_typing.py:252-260 | after a successful `json` cast the column's `ctype()` is `varchar` and it is neither an array nor a boolean |
| CastProperties.ArrayReadsAsArray | verticapy/core/vdataframe/_typing.py:315-337 | after a successful text-to-`array` cast, `isarray()` holds, `isbool()` does not, and `ctype()` is `array` |
| CastProperties.VMapReadsAsVMap | verticapy/core/vdataframe/_typing.py:211-225 | after a successful text-to-`vmap...` cast the declared type is `vmap` whatever header names were given, and the category is `to_category("vmap")` |
| CastProperties.PredicatesExclusive | verticapy/core/vdataframe/_typing.py:327-361 | `isnum` and `isdate` never both hold, and neither do `isarray` and `isbool` |
| CastProperties.BracketExamples | verticapy/core/vdataframe/_typing.py:231-238 | `{1,2,3}` yields braces and `1,2,3` yields no brackets |
| CastProperties.AgeToVMapExample | verticapy/core/vdataframe/_typing.py:211-225 | a text column with sample `10\|20\|30` and separator `\|` becomes a `vmap` column through the delimited extractor with no header names |
| FrameSpec.SelectMembers | verticapy/core/vdataframe/_typing.py:147-167 | a column is selected exactly when it is listed, exists and passes the filter |
| FrameSpec.SelectConcat | verticapy/core/vdataframe/_typing.py:124-129 | selection keeps the column order |
| FrameSpec.CatColExcludesFloat | verticapy/core/vdataframe/_typing.py:106-107 | `catcol` never returns a float column |
| FrameSpec.CatColIncludes | verticapy/core/vdataframe/_typing.py:93-111 | `catcol` always returns a listed column that is neither int nor float, and a boolean int column |
| FrameSpec.CastOneShape | verticapy/core/vdataframe/_typing.py:57-58 | one cast keeps the set of columns, changes only the named column, changes nothing on failure, and on success appends exactly the entry the column cast gives |
| FrameSpec.CastAllStops | verticapy/core/vdataframe/_typing.py:57-58 | once a cast fails, the remaining pairs are never applied |
| FrameSpec.CastAllAppendOnly | verticapy/core/vdataframe/_typing.py:39-59 | a sequence of casts keeps the set of columns, only appends to each list, and leaves unnamed columns untouched |
| FrameSpec.CastAllSucceeds | verticapy/core/vdataframe/_typing.py:57-59 | when every pair names a distinct column and all succeed, each named column gains exactly the entry computed from its own last entry |
| FrameSpec.BoolPairsNames | verticapy/core/vdataframe/_typing.py:71-74 | the casts `bool_to_int` issues name exactly the boolean columns, each with target `int` |
| FrameSpec.BoolPairsDistinct | verticapy/core/vdataframe/_typing.py:71-74 | listing each column once casts each boolean column once |
| FrameSpec.BoolToIntCastsBools | verticapy/core/vdataframe/_typing.py:62-75 | a successful `bool_to_int` appends the cast-to-`int` entry to exactly the boolean columns and leaves every other column unchanged |
| VDataFrame.Column.AsType | verticapy/core/vdataframe/_typing.py:193-286 | on success `_transf` gains exactly the entry `Convert` gives; on failure the error is raised and `_transf` is unchanged |
| VDataFrame.Column.ChooseTemplate | verticapy/core/vdataframe/_typing.py:193-262 | the template and the type to record, or the error of a version gate or of a missing sample, are those of `Choose` |
| VDataFrame.Frame.CastColumn | verticapy/core/vdataframe/_typing.py:58 | one dictionary item's cast, seen on the whole frame, is `CastOne` |
| VDataFrame.Frame.AsType | verticapy/core/vdataframe/_typing.py:39-59 | the frame after casting, and the error raised, are `CastAll` of the pairs in order; casts before a failure stay done |
| VDataFrame.Frame.BoolToInt | verticapy/core/vdataframe/_typing.py:62-75 | the frame is cast as by `CastAll` over the boolean columns in column order, with target `int` |
| VDataFrame.Frame.NumCol | verticapy/core/vdataframe/_typing.py:147-167 | the result is the numeric, non-excluded columns in column order, and contains a name exactly when it qualifies |
| VDataFrame.Frame.DateCol | verticapy/core/vdataframe/_typing.py:114-129 | the result is the date columns in column order, and contains a name exactly when it qualifies |
| VDataFrame.Frame.CatCol | verticapy/core/vdataframe/_typing.py:77-112 | the result is the categorical selection in column order and never holds a float column |
| VDataFrame.IsCategorical | verticapy/core/vdataframe/_typing.py:94-110 | the per-column decision of `catcol` is the categorical filter, and a kept column is never float |
| VDataFrame.Frame.DTypes | verticapy/core/vdataframe/_typing.py:132-145 | the index is the column list; each type is that column's `ctype()` and is lower case |
| Strings.Strip | verticapy/core/vdataframe/_typing.py:209 | the stripped sample is no longer than the sample and has no white space at either end |
| Strings.RemoveChar | verticapy/core/vdataframe/_typing.py:227 | removing blanks leaves no blank and never lengthens the string |
| Strings.RemoveCharCounts | verticapy/core/vdataframe/_typing.py:227 | every character other than the blank occurs in the result exactly as often as in the sample, and the blank never does |
| Strings.RemoveCharConcat | verticapy/core/vdataframe/_typing.py:227 | removal works piece by piece, so the kept characters stay in their order |
| Strings.Drop | verticapy/connect/read.py:127 | `name[8:]` is the rest of the name after its first eight characters, empty for shorter names |
| Dsn.ReadDsn | verticapy/connect/read.py:44-146 | the result of both loops, or the error raised, is `ReadDsnSpec` |
| Dsn.ApplyLine | verticapy/connect/read.py:82-140 | one iteration of the option loop (credential, host, uid, numeric, pwd branches, then the rest) is `ApplyLowered` |
| Dsn.ApplyOtherLine | verticapy/connect/read.py:115-140 | the later branches of the option loop, none of which can raise, are `ApplyOther` |
| Dsn.AvailableConnections | verticapy/connect/read.py:34-38 | a section is listed exactly when it is in the file and is not the automatic connection's |
| Dsn.ApplyOptionsStops | verticapy/connect/read.py:89-99 | once an option raises, the later options are never read |
| Dsn.EnvFlagFirstOption | verticapy/connect/read.py:73-78 | the `env` flag is on exactly when the first option named `env...` has a value spelling true |
| Dsn.ApplyOptionsFails | verticapy/connect/read.py:84-99 | reading fails exactly when the flag is on and some credential option names an unset variable; the error names the renamed option and the variable |
| Dsn.ApplyOptionsKeepsKeys | verticapy/connect/read.py:67-142 | reading only adds keys |
| Dsn.ReadDsnOutcome | verticapy/connect/read.py:62-146 | an unknown section raises; otherwise reading fails only by the env rule, and a success always carries `port`, `user` and `session_label` |
| Dsn.SessionLabelKept | verticapy/connect/read.py:139-140 | without a `vp_test_` option, the session label is the default whatever the file says |
| Dsn.DefaultKept | verticapy/connect/read.py:67-71 | `port` and `user` keep their default (5433, `dbadmin`) unless an option is named after them, is `uid` (for `user`), or carries the `vp_test_` marker |
| Dsn.NumericOptions | verticapy/connect/read.py:107-110 | `port` and `connection_timeout` become integers when all digits and are stored as text otherwise |
| Dsn.FlagOptions | verticapy/connect/read.py:129-137 | the five flag options store whether the lower-cased value spells true |
| Dsn.TestOptions | verticapy/connect/read.py:126-127 | `vp_test_<key>` stores its value under `<key>` |
| Dsn.SkippedOptions | verticapy/connect/read.py:139-140 | `env...` options and a `session_label` option whose names carry no `vp_test_` marker never reach the dictionary |
| Dsn.RenamedOptions | verticapy/connect/read.py:84-124 | server names go to `host`, Kerberos names to their snake-case keys, `uid`/`pwd` to `user`/`password` without the flag; with it, credentials come from the environment or raise |
| LinearModels.LinearModel.NewElasticNet | verticapy/learn/linear_model.py:102-131 | the constructor's object state, or its error, is `Configure(ElasticNet, ...)` |
| LinearModels.LinearModel.NewLasso | verticapy/learn/linear_model.py:169-196 | the constructor's object state, or its error, is `Configure(Lasso, ...)` |
| LinearModels.LinearModel.NewLinearRegression | verticapy/learn/linear_model.py:230-255 | the constructor's object state, or its error, is `Configure(LinearRegression, ...)` |
| LinearModels.LinearModel.NewLogisticRegression | verticapy/learn/linear_model.py:300-342 | building the seven-key dictionary and deleting keys in place leaves the state `Configure(LogisticRegression, ...)` gives, or its error |
| LinearModels.LinearModel.NewRidge | verticapy/learn/linear_model.py:379-406 | the constructor's object state, or its error, is `Configure(Ridge, ...)` |
| LinearModels.DeletedKeys | verticapy/learn/linear_model.py:325-339 | deleting `l1_ratio` (and `C` for `none`) from the full dictionary leaves exactly the penalty's dictionary |
| LinearModels.Accepts | verticapy/learn/linear_model.py:300-342 | construction succeeds exactly when the penalty and the solver are in their lists, the engine is 12 or later unless an intercept is fitted, and an unpenalised classifier does not use `cgd` |
| LinearModels.SolverChecked | verticapy/learn/linear_model.py:311-314 | `cgd` is allowed only for ElasticNet, Lasso and LogisticRegression; a solver outside the list is reported with the list, whatever the version |
| LinearModels.PenaltyCheckedFirst | verticapy/learn/linear_model.py:311-313 | the classifier's penalty is checked before anything else |
| LinearModels.VersionGate | verticapy/learn/linear_model.py:320-324 | `fit_intercept=False` before version 12 always fails, and with the version error once penalty and solver pass |
| LinearModels.NoneRejectsCgd | verticapy/learn/linear_model.py:334-337 | an unpenalised classifier rejects `cgd`, naming the list `bfgs`, `newton` |
| LinearModels.RecordedParameters | verticapy/learn/linear_model.py:325-342 | the recorded dictionary has exactly the penalty's keys and holds the penalty, the lower-cased solver and the other arguments unchanged |
| LinearModels.KeysByPenalty | verticapy/learn/linear_model.py:123-131 | `C` is kept for every penalty but `none`, `l1_ratio` only for `enet`; the regressors' penalties are `enet`, `l1`, `none` and `l2` |
| LinearModels.ModelKinds | verticapy/learn/linear_model.py:315-319 | the classifier records `LOGISTIC_REG`/`PREDICT_LOGISTIC_REG` as a `CLASSIFIER`, every regressor `LINEAR_REG`/`PREDICT_LINEAR_REG` as a `REGRESSOR` of type `LinearRegression` |
| LinearModels.DefaultsAccepted | verticapy/learn/linear_model.py:300-310 | every constructor accepts its default arguments on any engine |

## Left out

- The SQL text of the queries, `_executeSQL`, the history entry and the returned parent are not modelled. The engine answers are inputs instead.
- The exact white space of the templates is not modelled. `clean_query` is an uninterpreted function.
- `str.format` on a template that contains other braces is not modelled. The `{}` placeholder is shown to survive, but a brace in a guessed separator would make `format` raise in the source, and the model does not capture that failure.
- The bodies of `to_sql_dtype`, `to_category`, `guess_sep` and the engine-side `isvmap` are not modelled. They are uninterpreted, so `Typing.IsVMap` takes that answer as an argument.
- `_format_colnames` and `get_columns` are not modelled. A dictionary key must already be a column name (an unknown name raises `MissingColumn`), and `numcol` filters exclusions after listing the columns.
- `str.lower`, `str.isnumeric` and `str.strip` are modelled on ASCII letters, ASCII digits and Python's white-space set. Other Unicode case mappings and numerals are not.
- Strings.Strip: states only the length bound and the clean ends, not that the result is a contiguous part of the input.
- The `exec` in the `backup_server_node` branch is not modelled. The value is stored as given, which matches the source only for values without quotes or escapes.
- The configuration parser is not modelled: its `DEFAULT` section, its own lower-casing of option names, and reading the file. The parsed section is an input.
- `Frame.AsType` and `Frame.BoolToInt` answer every probe of one call from a single `Engine` value. In the source each probe reads `self._parent._genSQL()`, which already includes the casts done earlier in the same loop, so the engine's answers can change between columns; the model does not capture that.
- The process environment is a map, and `SESSION_LABEL` and the automatic connection's section name are parameters. `os.getenv` returning an empty string counts as set, as in the source.
- Dictionary key order is not modelled. `Dsn.Info` and the `parameters` dictionary are Dafny maps.
- The decorators `check_minimum_version`, `check_dtypes` and `save_verticapy_logs` are not modelled, nor the `Regressor` and `BinaryClassifier` base classes.
- `tol`, `C` and `l1_ratio` are opaque reals and are never inspected.
- LinearModels.LinearModel.NewLogisticRegression: the second solver check for `l1`/`l2` (verticapy/learn/linear_model.py:340-342) is not repeated. The first check already guarantees it, so that branch cannot raise.
- A `vp_test_` marker anywhere in an option name drops the first eight characters of the name, not the marker. This is modelled as written (`Dsn.ApplyOther`), and `Dsn.TestOptions` states it for names that begin with the marker.
