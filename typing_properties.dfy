/**
 * What `vDCTyping.astype` promises for each (target type, current category)
 * pair, and how the read predicates see the entry it appends.
 */
module CastProperties {
  import opened Wrappers
  import opened Strings
  import opened Typing

  /**
   * A `json` target always records `varchar`.  A vmap column goes through
   * canonical `MAPTOSTRING`; any other column needs version 10.1.0 (else the
   * gate raises, naming `json`) and goes through `TO_JSON`.
   */
  lemma JsonTarget(alias: string, category: Category, o: Oracles, e: Engine)
    ensures var r := Choose(alias, category, "json", o, e);
      && (r.Success? ==> r.value.1 == "varchar")
      && (category == VMap ==> r == Success((MapToCanonicalJson, "varchar")))
      && (category != VMap && !AtLeast(e.version, ToJsonMinimum) ==>
            r == Failure(ConversionError(alias, "json", VersionTooOld(ToJsonMinimum))))
      && (category != VMap && AtLeast(e.version, ToJsonMinimum) ==> r == Success((ToJson, "varchar")))
  {
    NotStartsWith("json", "vmap", 0);
    assert Take("json", 4) != "char" by { assert Take("json", 4)[0] == 'j'; }
  }

  /**
   * A `vmap...` target on a text column records `vmap`.  The template is the JSON
   * extractor exactly when the stripped sample is a braced object; otherwise the
   * delimited extractor with the guessed separator and the header names of a
   * `vmap(h1,...,hk)` type.  No version gate applies; a failed sample raises.
   */
  lemma VMapTarget(alias: string, dtype: string, o: Oracles, e: Engine)
    requires StartsWith(dtype, "vmap")
    ensures var r := Choose(alias, Text, dtype, o, e);
      match e.longest(alias)
      case None => r == Failure(ConversionError(alias, dtype, NoSample))
      case Some(raw) =>
        var s := Strip(raw);
        && r.Success? && r.value.1 == "vmap"
        && (r.value.0 == MapJsonExtractor <==> IsJsonObject(s))
        && (!IsJsonObject(s) ==> r.value.0 == MapDelimitedExtractor(o.guessSep(s), HeaderNames(dtype)))
  {
    assert dtype[..4][0] == 'v';
    assert dtype != "array";
  }

  /**
   * An `array` target on a text column: below 10.0.0 the gate raises whatever the
   * column holds (the sample query is never issued); otherwise the template is
   * `STRING_TO_ARRAY` with the guessed separator, the sample's brackets when it is
   * wrapped in `()` or `{}`, and the null-element flag exactly when a doubled
   * separator occurs in the sample once blanks are removed.
   */
  lemma ArrayTarget(alias: string, o: Oracles, e: Engine)
    ensures var r := Choose(alias, Text, "array", o, e);
      && (!AtLeast(e.version, ArrayMinimum) ==>
            r == Failure(ConversionError(alias, "array", VersionTooOld(ArrayMinimum))))
      && (AtLeast(e.version, ArrayMinimum) && e.longest(alias).None? ==>
            r == Failure(ConversionError(alias, "array", NoSample)))
      && (AtLeast(e.version, ArrayMinimum) && e.longest(alias).Some? ==>
            var s := Strip(e.longest(alias).value);
            var sep := o.guessSep(s);
            r == Success((StringToArray(sep, Brackets(s), Contains(RemoveChar(s, ' '), sep + sep)), "array")))
  {
    NotStartsWith("array", "vmap", 0);
  }

  /** The version gate of an `array` cast does not depend on the column's contents. */
  lemma ArrayGateBeforeSample(alias: string, o: Oracles, e1: Engine, e2: Engine)
    requires e1.version == e2.version && !AtLeast(e1.version, ArrayMinimum)
    ensures Choose(alias, Text, "array", o, e1) == Choose(alias, Text, "array", o, e2)
  {
    ArrayTarget(alias, o, e1);
    ArrayTarget(alias, o, e2);
  }

  /** Brackets are the sample's own first and last characters, `()` or `{}` only. */
  lemma BracketsAreEnds(s: string)
    ensures Brackets(s).Some? ==> |s| > 2 && Brackets(s).value == (s[0], s[|s| - 1])
    ensures Brackets(s).Some? ==> Brackets(s).value in {('(', ')'), ('{', '}')}
    ensures Brackets(s).None? ==> !(|s| > 2 && s[0] == '{' && s[|s| - 1] == '}')
    ensures Brackets(s).None? ==> !(|s| > 2 && s[0] == '(' && s[|s| - 1] == ')')
  {
  }

  /** A `varchar...`/`char...` target on a vmap column: non-canonical `MAPTOSTRING` cast to that type. */
  lemma CharTargetOnVMap(alias: string, dtype: string, o: Oracles, e: Engine)
    requires StartsWith(dtype, "varchar") || StartsWith(dtype, "char")
    ensures Choose(alias, VMap, dtype, o, e) == Success((MapToString(dtype), dtype))
  {
  }

  /**
   * Every other pair gets the plain `{}::dtype` cast, recorded under `dtype`:
   * including `array`/`vmap` on a non-text column and a character type on a
   * non-vmap column.
   */
  lemma PlainCastOtherwise(alias: string, category: Category, dtype: string, o: Oracles, e: Engine)
    requires !(IsCollectionTarget(dtype) && category == Text)
    requires !(IsCharTarget(dtype) && category == VMap)
    requires dtype != "json"
    ensures Choose(alias, category, dtype, o, e) == Success((Cast(dtype), dtype))
  {
  }

  /**
   * Only three things make `astype` raise: a version gate (for `array` or
   * `json` only), a failed sample query (text-to-`array`/`vmap` only), and the
   * engine rejecting the validation query.
   */
  lemma ConvertFailures(alias: string, category: Category, requested: string, o: Oracles, e: Engine)
    ensures var r := Convert(alias, category, requested, o, e);
      var dtype := o.toSqlDtype(requested);
      r.Failure? ==>
        match r.error.cause
        case VersionTooOld(min) =>
          r.error.dtype == dtype
          && ((dtype == "array" && category == Text && min == ArrayMinimum && !AtLeast(e.version, min))
              || (dtype == "json" && category != VMap && min == ToJsonMinimum && !AtLeast(e.version, min)))
        case NoSample =>
          r.error.dtype == dtype && IsCollectionTarget(dtype) && category == Text && e.longest(alias).None?
        case Rejected =>
          Choose(alias, category, dtype, o, e).Success?
          && r.error.dtype == Choose(alias, category, dtype, o, e).value.1
          && !e.accepts(alias, o.cleanQuery(Render(Choose(alias, category, dtype, o, e).value.0)))
  {
  }

  // ---------------------------------------------------------------------------
  // Reading back the appended entry

  /** A successful cast records the declared type its template was chosen with. */
  lemma DeclaredByChoose(alias: string, category: Category, requested: string, o: Oracles, e: Engine)
    requires Convert(alias, category, requested, o, e).Success?
    ensures Choose(alias, category, o.toSqlDtype(requested), o, e).Success?
    ensures Convert(alias, category, requested, o, e).value.dtype
         == Choose(alias, category, o.toSqlDtype(requested), o, e).value.1
    ensures Convert(alias, category, requested, o, e).value.template
         == o.cleanQuery(Render(Choose(alias, category, o.toSqlDtype(requested), o, e).value.0))
  {
  }

  /** An entry declared `varchar` reads as `varchar`, neither array nor boolean. */
  lemma VarcharReads(entry: Entry)
    requires entry.dtype == "varchar"
    ensures CType(entry) == "varchar" && !IsArray(entry) && !IsBool(entry)
  {
    assert Lower("varchar") == "varchar";
    NotStartsWith("varchar", "array", 0);
    NotStartsWith("varchar", "bool", 0);
  }

  /** An entry declared `array` reads as an array and not as a boolean. */
  lemma ArrayReads(entry: Entry)
    requires entry.dtype == "array"
    ensures IsArray(entry) && !IsBool(entry) && CType(entry) == "array"
  {
    assert Lower("array") == "array";
    NotStartsWith("array", "bool", 0);
  }

  /** An entry declared `vmap` reads as `vmap` and not as an array. */
  lemma VMapReads(entry: Entry)
    requires entry.dtype == "vmap"
    ensures CType(entry) == "vmap" && !IsArray(entry)
  {
    assert Lower("vmap") == "vmap";
    NotStartsWith("vmap", "array", 0);
  }

  /** After a successful cast to `json`, the column reads as a plain `varchar`. */
  lemma JsonReadsAsVarchar(alias: string, category: Category, requested: string, o: Oracles, e: Engine)
    requires o.toSqlDtype(requested) == "json"
    requires Convert(alias, category, requested, o, e).Success?
    ensures var entry := Convert(alias, category, requested, o, e).value;
      CType(entry) == "varchar" && !IsArray(entry) && !IsBool(entry)
  {
    DeclaredByChoose(alias, category, requested, o, e);
    JsonTarget(alias, category, o, e);
    VarcharReads(Convert(alias, category, requested, o, e).value);
  }

  /** After a successful text-to-`array` cast, `isarray()` holds and `isbool()` does not. */
  lemma ArrayReadsAsArray(alias: string, requested: string, o: Oracles, e: Engine)
    requires o.toSqlDtype(requested) == "array"
    requires Convert(alias, Text, requested, o, e).Success?
    ensures var entry := Convert(alias, Text, requested, o, e).value;
      IsArray(entry) && !IsBool(entry) && CType(entry) == "array"
  {
    DeclaredByChoose(alias, Text, requested, o, e);
    ArrayTarget(alias, o, e);
    ArrayReads(Convert(alias, Text, requested, o, e).value);
  }

  /** After a successful text-to-`vmap...` cast, the column's type reads `vmap`, whatever header names were given. */
  lemma VMapReadsAsVMap(alias: string, requested: string, o: Oracles, e: Engine)
    requires StartsWith(o.toSqlDtype(requested), "vmap")
    requires Convert(alias, Text, requested, o, e).Success?
    ensures var entry := Convert(alias, Text, requested, o, e).value;
      CType(entry) == "vmap" && entry.category == o.toCategory("vmap") && !IsArray(entry)
  {
    DeclaredByChoose(alias, Text, requested, o, e);
    VMapTarget(alias, o.toSqlDtype(requested), o, e);
    VMapReads(Convert(alias, Text, requested, o, e).value);
  }

  /**
   * After a successful cast, `category()` is `to_category` of the recorded
   * type; `isnum()` and `isdate()` read exactly that, and so does `isvmap()`
   * unless the engine's own inspection reports a map.
   */
  lemma CategoryAfterCast(alias: string, category: Category, requested: string, o: Oracles, e: Engine, inspected: bool)
    requires Convert(alias, category, requested, o, e).Success?
    ensures var entry := Convert(alias, category, requested, o, e).value;
      var c := o.toCategory(entry.dtype);
      && entry.category == c
      && (IsNum(entry) <==> c == Int || c == Float)
      && (IsDate(entry) <==> c == Date)
      && (c == VMap ==> IsVMap(entry, inspected))
      && (!inspected ==> (IsVMap(entry, inspected) <==> c == VMap))
  {
  }

  /** `isnum()` and `isdate()` never hold together, nor do `isarray()` and `isbool()`. */
  lemma PredicatesExclusive(e: Entry)
    ensures !(IsNum(e) && IsDate(e))
    ensures !(IsArray(e) && IsBool(e))
  {
    var l := Lower(e.dtype);
    if StartsWith(l, "array") {
      assert l[..5][0] == l[0];
      NotStartsWith(l, "bool", 0);
    }
  }

  // ---------------------------------------------------------------------------
  // Worked examples

  /** Bracket inference on a braced sample and on a bare one. */
  lemma BracketExamples()
    ensures Brackets("{1,2,3}") == Some(('{', '}'))
    ensures Brackets("1,2,3") == None
  {
  }

  /**
   * Column `age` of category text, longest value `10|20|30`, separator guessed
   * as `|`: casting to `vmap` appends a delimited-extractor entry of type `vmap`.
   */
  lemma AgeToVMapExample(o: Oracles, e: Engine)
    requires o.toSqlDtype("vmap") == "vmap"
    requires e.longest("age") == Some("10|20|30")
    requires o.guessSep("10|20|30") == "|"
    requires e.accepts("age", o.cleanQuery(Render(MapDelimitedExtractor("|", None))))
    ensures Convert("age", Text, "vmap", o, e)
         == Success(Entry(o.cleanQuery(Render(MapDelimitedExtractor("|", None))), "vmap", o.toCategory("vmap")))
  {
    StripUnchanged("10|20|30");
    VMapTarget("age", "vmap", o, e);
    assert HeaderNames("vmap") == None;
  }
}
