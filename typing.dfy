/**
 * The type-cast engine of a vDataColumn (verticapy/core/vdataframe/_typing.py):
 * the entries of a column's `_transf` list, the choice of the SQL template
 * that `vDCTyping.astype` appends, and the read predicates over the last entry.
 *
 * Everything here is pure.  The helpers defined in other modules of the
 * library (`to_sql_dtype`, `to_category`, `guess_sep`, `clean_query`) are
 * fields of `Oracles`; the database round trips are fields of `Engine`.
 */
module Typing {
  import opened Wrappers
  import opened Strings

  /** The semantic category stored in the third slot of a `_transf` entry. */
  datatype Category = Date | Int | Float | Text | Binary | Spatial | Uuid | VMap | Undefined

  /** One `(template, declared type, category)` triple of `_transf`. */
  datatype Entry = Entry(template: string, dtype: string, category: Category)

  /** A column's `_transf` list: created with one entry and never emptied. */
  type Chain = s: seq<Entry> | |s| > 0 witness [Entry("{}", "", Undefined)]

  /** The entry every read of the column looks at (`_transf[-1]`). */
  function Last(c: Chain): Entry {
    c[|c| - 1]
  }

  /** The engine version triple `vertica_version()` reports. */
  datatype Version = Version(major: nat, minor: nat, patch: nat)

  /** `vertica_version(condition=min)` passes: lexicographic comparison. */
  predicate AtLeast(v: Version, min: Version) {
    v.major > min.major
    || (v.major == min.major && (v.minor > min.minor || (v.minor == min.minor && v.patch >= min.patch)))
  }

  /** Minimum version for a text-to-array cast. */
  const ArrayMinimum := Version(10, 0, 0)

  /** Minimum version for `TO_JSON`. */
  const ToJsonMinimum := Version(10, 1, 0)

  /** The imported helpers whose bodies are not part of this model. */
  datatype Oracles = Oracles(
    toSqlDtype: string -> string,
    toCategory: string -> Category,
    guessSep: string -> string,
    cleanQuery: string -> string)

  /**
   * What the database answers.  `longest(alias)` is the longest value of the
   * column (None when that query raises or yields NULL); `accepts(alias, t)`
   * says whether the validation query over template `t` runs without error.
   */
  datatype Engine = Engine(
    version: Version,
    longest: string -> Option<string>,
    accepts: (string, string) -> bool)

  /** Why a conversion was refused. */
  datatype Cause = VersionTooOld(required: Version) | NoSample | Rejected

  /** `ConversionError`: names the column and the type as it stood when raised. */
  datatype ConversionError = ConversionError(column: string, dtype: string, cause: Cause)

  /** The SQL expression templates `astype` can append; `{}` stands for the column. */
  datatype Template =
    | Cast(target: string)
    | MapJsonExtractor
    | MapDelimitedExtractor(delimiter: string, headerNames: Option<string>)
    | StringToArray(delimiter: string, brackets: Option<(char, char)>, nullElement: bool)
    | MapToString(target: string)
    | MapToCanonicalJson
    | ToJson

  /** The SQL text of a template, with white space normalised to single blanks. */
  function Render(t: Template): string {
    Head(t) + "{}" + Tail(t)
  }

  /** The text of a template before its `{}` placeholder. */
  function Head(t: Template): string {
    match t
    case Cast(_) => ""
    case MapJsonExtractor => "MAPJSONEXTRACTOR("
    case MapDelimitedExtractor(_, _) => "MAPDELIMITEDEXTRACTOR("
    case StringToArray(_, _, _) => "STRING_TO_ARRAY("
    case MapToString(_) => "MAPTOSTRING("
    case MapToCanonicalJson => "MAPTOSTRING("
    case ToJson => "TO_JSON("
  }

  /** The text of a template after its `{}` placeholder. */
  function Tail(t: Template): string {
    match t
    case Cast(target) => "::" + target
    case MapJsonExtractor => " USING PARAMETERS flatten_maps=false)"
    case MapDelimitedExtractor(sep, header) =>
      " USING PARAMETERS delimiter='" + sep + "'"
      + (match header case Some(h) => ", header_names='" + h + "'" case None => "")
      + ")"
    case StringToArray(sep, brackets, nullElement) =>
      " USING PARAMETERS collection_delimiter='" + sep + "'"
      + (match brackets
         case Some((open, close)) => ", collection_open='" + [open] + "', collection_close='" + [close] + "'"
         case None => "")
      + (if nullElement then ", collection_null_element=''" else "")
      + ")"
    case MapToString(target) => " USING PARAMETERS canonical_json=false)::" + target
    case MapToCanonicalJson => " USING PARAMETERS canonical_json=true)"
    case ToJson => ")"
  }

  /** Every template keeps the `{}` placeholder that `str.format` fills with the column name. */
  lemma RenderHasPlaceholder(t: Template)
    ensures Contains(Render(t), "{}")
  {
    ContainsMiddle(Head(t), "{}", Tail(t));
  }

  /** A needle placed after any prefix is contained. */
  lemma {:induction false} ContainsMiddle(a: string, t: string, b: string)
    ensures Contains(a + t + b, t)
  {
    if a != [] {
      assert (a + t + b)[1..] == a[1..] + t + b;
      ContainsMiddle(a[1..], t, b);
    }
  }

  /** The sample is a JSON object: longer than two characters and wrapped in braces. */
  predicate IsJsonObject(s: string) {
    |s| > 2 && s[0] == '{' && s[|s| - 1] == '}'
  }

  /** The `collection_open` / `collection_close` pair inferred from the sample, if any. */
  function Brackets(s: string): Option<(char, char)> {
    if |s| > 2 && ((s[0] == '(' && s[|s| - 1] == ')') || (s[0] == '{' && s[|s| - 1] == '}'))
    then Some((s[0], s[|s| - 1]))
    else None
  }

  /** The `header_names` of a `vmap(h1,...,hk)` type, if the type has that form. */
  function HeaderNames(dtype: string): Option<string> {
    if |dtype| > 4 && dtype[..5] == "vmap(" && dtype[|dtype| - 1] == ')' then
      assert dtype[4] == '(';
      Some(dtype[5..|dtype| - 1])
    else None
  }

  /** `HeaderNames` reads back exactly what sits between `vmap(` and `)`, and nothing else. */
  lemma HeaderNamesRoundTrip(dtype: string, h: string)
    ensures HeaderNames("vmap(" + h + ")") == Some(h)
    ensures HeaderNames(dtype) == Some(h) ==> dtype == "vmap(" + h + ")"
  {
    var d := "vmap(" + h + ")";
    assert d[..5] == "vmap(" && d[5..|d| - 1] == h;
    if HeaderNames(dtype) == Some(h) {
      assert dtype == dtype[..5] + dtype[5..|dtype| - 1] + [dtype[|dtype| - 1]];
    }
  }

  /** A type the text-to-map/array branch handles (`array` or `vmap...`). */
  predicate IsCollectionTarget(dtype: string) {
    dtype == "array" || StartsWith(dtype, "vmap")
  }

  /** A character type the map-to-string branch handles (`varchar...` or `char...`). */
  predicate IsCharTarget(dtype: string) {
    Take(dtype, 7) == "varchar" || Take(dtype, 4) == "char"
  }

  /**
   * The template `astype` chooses for the (already normalised) type `dtype` on a
   * column of category `category`, with the declared type it records; or the
   * error raised by a version gate or by the sample query.
   */
  function Choose(alias: string, category: Category, dtype: string, o: Oracles, e: Engine)
    : Result<(Template, string), ConversionError>
  {
    if IsCollectionTarget(dtype) && category == Text then
      if dtype == "array" && !AtLeast(e.version, ArrayMinimum) then
        Failure(ConversionError(alias, dtype, VersionTooOld(ArrayMinimum)))
      else
        match e.longest(alias)
        case None => Failure(ConversionError(alias, dtype, NoSample))
        case Some(raw) =>
          var s := Strip(raw);
          var sep := o.guessSep(s);
          if StartsWith(dtype, "vmap") then
            if IsJsonObject(s) then Success((MapJsonExtractor, "vmap"))
            else Success((MapDelimitedExtractor(sep, HeaderNames(dtype)), "vmap"))
          else
            Success((StringToArray(sep, Brackets(s), Contains(RemoveChar(s, ' '), sep + sep)), dtype))
    else if IsCharTarget(dtype) && category == VMap then
      Success((MapToString(dtype), dtype))
    else if dtype == "json" then
      if category == VMap then Success((MapToCanonicalJson, "varchar"))
      else if !AtLeast(e.version, ToJsonMinimum) then
        Failure(ConversionError(alias, dtype, VersionTooOld(ToJsonMinimum)))
      else Success((ToJson, "varchar"))
    else
      Success((Cast(dtype), dtype))
  }

  /**
   * The whole of `vDCTyping.astype` on a column named `alias` whose last entry
   * has category `category`: the entry it appends, or the error it raises.
   */
  function Convert(alias: string, category: Category, requested: string, o: Oracles, e: Engine)
    : (r: Result<Entry, ConversionError>)
    ensures r.Success? ==> r.value.category == o.toCategory(r.value.dtype)
    ensures r.Success? ==> e.accepts(alias, r.value.template)
    ensures r.Success? ==> exists t :: r.value.template == o.cleanQuery(Render(t))
    ensures r.Failure? ==> r.error.column == alias
  {
    match Choose(alias, category, o.toSqlDtype(requested), o, e)
    case Failure(err) => Failure(err)
    case Success((t, declared)) =>
      var template := o.cleanQuery(Render(t));
      if e.accepts(alias, template) then Success(Entry(template, declared, o.toCategory(declared)))
      else Failure(ConversionError(alias, declared, Rejected))
  }

  // ---------------------------------------------------------------------------
  // Read predicates over the last entry

  /** `ctype()`: the declared type, lower-cased; lower-casing it again changes nothing. */
  function CType(e: Entry): (t: string)
    ensures Lower(t) == t
    ensures |t| == |e.dtype|
  {
    LowerIdempotent(e.dtype);
    Lower(e.dtype)
  }

  /** `isnum()`: the category is `int` or `float`, so never a date. */
  predicate IsNum(e: Entry): (b: bool)
    ensures b <==> e.category == Int || e.category == Float
    ensures b ==> e.category != Date
  {
    e.category in {Float, Int}
  }

  /** `isdate()`: the category is `date`, so never a number. */
  predicate IsDate(e: Entry): (b: bool)
    ensures b <==> e.category == Date
    ensures b ==> e.category != Int && e.category != Float
  {
    e.category == Date
  }

  /** `isbool()`: the first four characters of `ctype()` are `bool`. */
  function IsBool(e: Entry): (b: bool)
    ensures b <==> StartsWith(Lower(e.dtype), "bool")
  {
    Take(CType(e), 4) == "bool"
  }

  /** `isarray()`: the first five characters of `ctype()`, lower-cased again, are `array`. */
  function IsArray(e: Entry): (b: bool)
    ensures b <==> StartsWith(Lower(e.dtype), "array")
  {
    var head := Take(CType(e), 5);
    assert Lower(head) == head by {
      assert forall i :: 0 <= i < |head| ==> head[i] == CType(e)[i];
    }
    Lower(head) == "array"
  }

  /** `isvmap()`: category `vmap`, or the engine's own inspection (an oracle) says so. */
  predicate IsVMap(e: Entry, inspected: bool): (b: bool)
    ensures e.category == VMap ==> b
    ensures !inspected ==> (b <==> e.category == VMap)
  {
    e.category == VMap || inspected
  }
}
