/**
 * The objects of verticapy/core/vdataframe/_typing.py: a vDataColumn whose
 * `_transf` list `astype` appends to, and a vDataFrame whose helpers loop over
 * its columns.  Each method is proved against the functions of `Typing` and
 * `FrameSpec`.
 */
module VDataFrame {
  import opened Wrappers
  import opened Strings
  import opened Typing
  import opened FrameSpec

  /** `vDCTyping.astype` as the column cast the frame operations apply. */
  function Converter(o: Oracles, e: Engine): ColumnCast {
    (alias, category, requested) => Convert(alias, category, requested, o, e)
  }

  /** The per-column test of `catcol`, for a column whose last entry is `entry`. */
  method IsCategorical(column: string, entry: Entry, lowCardinality: string -> bool) returns (b: bool)
    ensures b == Keeps(Categorical(lowCardinality), column, entry)
    ensures b ==> entry.category != Float
  {
    if entry.category == Int && !IsBool(entry) {
      b := lowCardinality(column);
    } else if entry.category == Float {
      b := false;
    } else {
      b := true;
    }
  }

  /** A vDataColumn: its name and its append-only `_transf` list. */
  class Column {
    const alias: string
    var transf: Chain

    /** A column as the loader creates it, with the entry of its stored type. */
    constructor (alias: string, stored: Entry)
      ensures this.alias == alias && transf == [stored]
    {
      this.alias := alias;
      transf := [stored];
    }

    /** `_transf[-1]`, the entry every read predicate looks at. */
    function LastEntry(): Entry
      reads this
    {
      Last(transf)
    }

    /**
     * `vDCTyping.astype`: choose a template for the requested type, run the
     * version gates and the probes, and append one entry only once the engine
     * has accepted it.  On any failure the list is left exactly as it was.
     */
    method AsType(requested: string, o: Oracles, e: Engine) returns (r: Outcome<ConversionError>)
      modifies this
      ensures var c := Convert(alias, old(LastEntry()).category, requested, o, e);
        match c
        case Success(entry) => r == Pass && transf == old(transf) + [entry]
        case Failure(err) => r == Fail(err) && transf == old(transf)
    {
      var dtype := o.toSqlDtype(requested);
      var choice := ChooseTemplate(dtype, Last(transf).category, o, e);
      if choice.Failure? {
        return Fail(choice.error);
      }
      var (template, declared) := choice.value;
      var text := o.cleanQuery(Render(template));
      if !e.accepts(alias, text) {
        return Fail(ConversionError(alias, declared, Rejected));
      }
      transf := transf + [Entry(text, declared, o.toCategory(declared))];
      r := Pass;
    }

    /**
     * The branches of `vDCTyping.astype` before the validation query: the
     * template for `dtype` on a column of `category`, with the type to record,
     * or the error of a version gate or of the sample query.  It is the
     * statement form of `Typing.Choose`, kept apart from `AsType` so that each
     * of the two is checked against its function on its own.
     */
    method ChooseTemplate(dtype: string, category: Category, o: Oracles, e: Engine)
      returns (choice: Result<(Template, string), ConversionError>)
      ensures choice == Choose(alias, category, dtype, o, e)
    {
      var target := dtype;
      var template: Template;
      if IsCollectionTarget(target) && category == Text {
        if target == "array" && !AtLeast(e.version, ArrayMinimum) {
          return Failure(ConversionError(alias, target, VersionTooOld(ArrayMinimum)));
        }
        var biggest := e.longest(alias);
        if biggest.None? {
          return Failure(ConversionError(alias, target, NoSample));
        }
        var s := Strip(biggest.value);
        var sep := o.guessSep(s);
        if StartsWith(target, "vmap") {
          if IsJsonObject(s) {
            template := MapJsonExtractor;
          } else {
            template := MapDelimitedExtractor(sep, HeaderNames(target));
          }
          target := "vmap";
        } else {
          var nullElement := Contains(RemoveChar(s, ' '), sep + sep);
          template := StringToArray(sep, Brackets(s), nullElement);
        }
      } else if IsCharTarget(target) && category == VMap {
        template := MapToString(target);
      } else if target == "json" {
        if category == VMap {
          template := MapToCanonicalJson;
        } else {
          if !AtLeast(e.version, ToJsonMinimum) {
            return Failure(ConversionError(alias, target, VersionTooOld(ToJsonMinimum)));
          }
          template := ToJson;
        }
        target := "varchar";
      } else {
        template := Cast(target);
      }
      choice := Success((template, target));
    }
  }

  /** A vDataFrame: its columns in `get_columns()` order, each a distinct object. */
  class Frame {
    var names: seq<string>
    var cols: map<string, Column>

    /** The columns are listed once each, are exactly the keys, and are distinct objects named by their key. */
    ghost predicate Valid()
      reads this
    {
      && (forall i, j :: 0 <= i < j < |names| ==> names[i] != names[j])
      && (forall i :: 0 <= i < |names| ==> names[i] in cols)
      && (forall n :: n in cols ==> n in names && cols[n].alias == n)
      && (forall m, n :: m in cols && n in cols && m != n ==> cols[m] != cols[n])
    }

    /** Every column's `_transf` list, by name. */
    ghost function Chains(): Chains
      reads this, cols.Values
    {
      map n | n in cols :: cols[n].transf
    }

    /** A frame with no columns yet; the loader adds them one by one with `AddColumn`. */
    constructor ()
      ensures Valid() && names == [] && cols == map[]
    {
      names := [];
      cols := map[];
    }

    /** Appends a fresh column to the frame, as the loader does for each stored column. */
    method AddColumn(name: string, stored: Entry)
      requires Valid() && name !in cols
      modifies this
      ensures Valid()
      ensures names == old(names) + [name]
      ensures name in cols && fresh(cols[name]) && cols[name].transf == [stored]
      ensures cols.Keys == old(cols).Keys + {name}
      ensures forall n :: n in old(cols) ==> cols[n] == old(cols)[n]
    {
      var c := new Column(name, stored);
      names := names + [name];
      cols := cols[name := c];
    }

    /** `self[column].astype(dtype)`: one column's cast, seen on the whole frame. */
    method CastColumn(n: string, requested: string, o: Oracles, e: Engine) returns (r: Outcome<CastError>)
      requires Valid()
      modifies cols.Values
      ensures Valid()
      ensures (Chains(), r) == CastOne(old(Chains()), (n, requested), Converter(o, e))
    {
      if n !in cols {
        return Fail(MissingColumn(n));
      }
      var c := cols[n];
      ghost var pre := Chains();
      var res := c.AsType(requested, o, e);
      assert Chains() == pre[n := c.transf];
      CastOneFrom(pre, n, requested, Converter(o, e), c.transf, res);
      r := Lift(res);
    }

    /**
     * `vDFTyping.astype(dtype)`: cast the columns of the dictionary one after the
     * other; the first failure is raised and the casts before it stay done.
     */
    method AsType(dtypes: seq<(string, string)>, o: Oracles, e: Engine) returns (r: Outcome<CastError>)
      requires Valid()
      modifies cols.Values
      ensures Valid()
      ensures (Chains(), r) == CastAll(old(Chains()), dtypes, Converter(o, e))
    {
      ghost var start := Chains();
      var i := 0;
      while i < |dtypes|
        invariant 0 <= i <= |dtypes|
        invariant Valid()
        invariant CastAll(start, dtypes[..i], Converter(o, e)) == (Chains(), Pass)
      {
        ghost var before := Chains();
        CastAllSnoc(start, dtypes, i, Converter(o, e));
        assert CastAll(start, dtypes[..i + 1], Converter(o, e)) == CastOne(before, dtypes[i], Converter(o, e));
        var res := CastColumn(dtypes[i].0, dtypes[i].1, o, e);
        assert CastAll(start, dtypes[..i + 1], Converter(o, e)) == (Chains(), res);
        if res.Fail? {
          CastAllStops(start, dtypes, i + 1, Converter(o, e));
          return res;
        }
        i := i + 1;
      }
      assert dtypes[..i] == dtypes;
      r := Pass;
    }

    /**
     * `bool_to_int`: cast every boolean column to `int`, in column order,
     * stopping at the first failure.
     */
    method BoolToInt(o: Oracles, e: Engine) returns (r: Outcome<CastError>)
      requires Valid()
      modifies cols.Values
      ensures Valid()
      ensures (Chains(), r) == CastAll(old(Chains()), BoolPairs(names, old(Chains())), Converter(o, e))
    {
      ghost var start := Chains();
      var i := 0;
      while i < |names|
        invariant 0 <= i <= |names|
        invariant Valid()
        invariant CastAll(start, BoolPairs(names[..i], start), Converter(o, e)) == (Chains(), Pass)
      {
        var n := names[i];
        BoolPairsStep(names, i, start, Converter(o, e));
        assert n !in names[..i];
        BoolPairsNotYet(names, i, start, Converter(o, e));
        assert cols[n].LastEntry() == Last(start[n]);
        if IsBool(cols[n].LastEntry()) {
          var res := CastColumn(n, "int", o, e);
          if res.Fail? {
            BoolPairsStopAt(names, i + 1, start, Converter(o, e));
            return res;
          }
        }
        i := i + 1;
      }
      assert names[..i] == names;
      r := Pass;
    }

    /** `numcol(exclude_columns)`: the numerical columns not excluded, in column order. */
    method NumCol(exclude: seq<string>) returns (columns: seq<string>)
      requires Valid()
      ensures columns == Select(names, Chains(), Numeric(exclude))
      ensures forall n :: n in columns <==> n in names && n !in exclude && IsNum(cols[n].LastEntry())
    {
      ghost var ch := Chains();
      columns := [];
      var i := 0;
      while i < |names|
        invariant 0 <= i <= |names|
        invariant columns == Select(names[..i], ch, Numeric(exclude))
      {
        var column := names[i];
        SelectSnoc(names, i, ch, Numeric(exclude));
        assert cols[column].LastEntry() == Last(ch[column]);
        if column !in exclude && IsNum(cols[column].LastEntry()) {
          columns := columns + [column];
        }
        i := i + 1;
      }
      assert names[..i] == names;
      forall n ensures n in columns <==> n in names && n !in exclude && IsNum(cols[n].LastEntry()) {
        SelectMembers(names, ch, Numeric(exclude), n);
      }
    }

    /** `datecol()`: the date columns, in column order. */
    method DateCol() returns (columns: seq<string>)
      requires Valid()
      ensures columns == Select(names, Chains(), Dates)
      ensures forall n :: n in columns <==> n in names && IsDate(cols[n].LastEntry())
    {
      ghost var ch := Chains();
      columns := [];
      var i := 0;
      while i < |names|
        invariant 0 <= i <= |names|
        invariant columns == Select(names[..i], ch, Dates)
      {
        var column := names[i];
        SelectSnoc(names, i, ch, Dates);
        assert cols[column].LastEntry() == Last(ch[column]);
        if IsDate(cols[column].LastEntry()) {
          columns := columns + [column];
        }
        i := i + 1;
      }
      assert names[..i] == names;
      forall n ensures n in columns <==> n in names && IsDate(cols[n].LastEntry()) {
        SelectMembers(names, ch, Dates, n);
      }
    }

    /**
     * `catcol(max_cardinality)`: non-numeric columns, boolean int columns, and the
     * int columns the engine reports as low-cardinality; never a float column.
     */
    method CatCol(lowCardinality: string -> bool) returns (columns: seq<string>)
      requires Valid()
      ensures columns == Select(names, Chains(), Categorical(lowCardinality))
      ensures forall n :: n in columns ==> n in names && n in Chains() && Last(Chains()[n]).category != Float
    {
      ghost var ch := Chains();
      columns := [];
      var i := 0;
      while i < |names|
        invariant 0 <= i <= |names|
        invariant columns == Select(names[..i], ch, Categorical(lowCardinality))
      {
        var column := names[i];
        SelectSnoc(names, i, ch, Categorical(lowCardinality));
        var entry := cols[column].LastEntry();
        assert entry == Last(ch[column]);
        var isCat := IsCategorical(column, entry, lowCardinality);
        if isCat {
          columns := columns + [column];
        }
        i := i + 1;
      }
      assert names[..i] == names;
      forall n | n in columns ensures n in names && n in ch && Last(ch[n]).category != Float {
        CatColExcludesFloat(names, ch, lowCardinality, n);
      }
    }

    /** `dtypes()`: each column paired with its lower-case declared type. */
    method DTypes() returns (index: seq<string>, dtype: seq<string>)
      requires Valid()
      ensures index == names && |dtype| == |names|
      ensures forall i :: 0 <= i < |names| ==> dtype[i] == CType(cols[names[i]].LastEntry())
      ensures forall i :: 0 <= i < |dtype| ==> Lower(dtype[i]) == dtype[i]
    {
      index, dtype := [], [];
      var i := 0;
      while i < |names|
        invariant 0 <= i <= |names|
        invariant index == names[..i] && |dtype| == i
        invariant forall k :: 0 <= k < i ==> dtype[k] == CType(cols[names[k]].LastEntry())
      {
        var column := names[i];
        index := index + [column];
        dtype := dtype + [CType(cols[column].LastEntry())];
        i := i + 1;
      }
    }
  }
}
