/**
 * The frame-level helpers of `vDFTyping` (verticapy/core/vdataframe/_typing.py,
 * lines 37-167) as functions over the frame's columns: `numcol`, `datecol` and
 * `catcol` are order-preserving filters of the column list, and `astype` over a
 * dictionary and `bool_to_int` are sequences of single-column casts.
 */
module FrameSpec {
  import opened Wrappers
  import opened Strings
  import opened Typing

  /** Every column's `_transf` list, by column name. */
  type Chains = map<string, Chain>

  /**
   * The single-column cast a frame operation applies: given the column's name,
   * the category of its last entry and the requested type, the entry to append
   * or the error raised.  The frame's methods use `Typing.Convert` here.
   */
  type ColumnCast = (string, Category, string) -> Result<Entry, ConversionError>

  // ---------------------------------------------------------------------------
  // Column filters

  /** Which filter is applied. */
  datatype Selector =
    | Numeric(exclude: seq<string>)                  // numcol(exclude_columns)
    | Dates                                          // datecol()
    | Categorical(lowCardinality: string -> bool)    // catcol(max_cardinality)

  /**
   * Whether column `n`, whose last entry is `e`, is kept.  For `catcol`,
   * `lowCardinality(n)` is the engine's answer to "fewer distinct values than
   * `max_cardinality`", asked only of integer columns that are not booleans.
   */
  predicate Keeps(sel: Selector, n: string, e: Entry) {
    match sel
    case Numeric(exclude) => n !in exclude && IsNum(e)
    case Dates => IsDate(e)
    case Categorical(lowCardinality) =>
      if e.category == Int && !IsBool(e) then lowCardinality(n)
      else if e.category == Float then false
      else true
  }

  /** The names of `names`, in order, whose column is kept by `sel`. */
  function Select(names: seq<string>, ch: Chains, sel: Selector): seq<string> {
    if names == [] then []
    else
      var n := names[|names| - 1];
      Select(names[..|names| - 1], ch, sel)
      + (if n in ch && Keeps(sel, n, Last(ch[n])) then [n] else [])
  }

  /** Looking at one more name of the list appends it exactly when it is kept. */
  lemma SelectSnoc(names: seq<string>, i: nat, ch: Chains, sel: Selector)
    requires i < |names|
    ensures Select(names[..i + 1], ch, sel)
         == Select(names[..i], ch, sel) + (if names[i] in ch && Keeps(sel, names[i], Last(ch[names[i]])) then [names[i]] else [])
  {
    assert names[..i + 1][..i] == names[..i];
  }

  /** A name is selected exactly when it is listed, is a column, and is kept. */
  lemma {:induction false} SelectMembers(names: seq<string>, ch: Chains, sel: Selector, n: string)
    ensures n in Select(names, ch, sel) <==> n in names && n in ch && Keeps(sel, n, Last(ch[n]))
  {
    if names != [] {
      var init := names[..|names| - 1];
      SelectMembers(init, ch, sel, n);
      assert names == init + [names[|names| - 1]];
    }
  }

  /** Selection keeps the order of the list: selecting from a concatenation concatenates the selections. */
  lemma {:induction false} SelectConcat(a: seq<string>, b: seq<string>, ch: Chains, sel: Selector)
    ensures Select(a + b, ch, sel) == Select(a, ch, sel) + Select(b, ch, sel)
  {
    if b == [] {
      assert a + b == a;
    } else {
      var init := b[..|b| - 1];
      assert (a + b)[..|a + b| - 1] == a + init;
      SelectConcat(a, init, ch, sel);
    }
  }

  /** `catcol` never returns a float column. */
  lemma CatColExcludesFloat(names: seq<string>, ch: Chains, lowCardinality: string -> bool, n: string)
    requires n in Select(names, ch, Categorical(lowCardinality))
    ensures n in names && n in ch && Last(ch[n]).category != Float
  {
    SelectMembers(names, ch, Categorical(lowCardinality), n);
  }

  /**
   * `catcol` always returns a listed column whose category is neither int nor
   * float, and an int column that is a boolean, whatever the engine answers.
   */
  lemma CatColIncludes(names: seq<string>, ch: Chains, lowCardinality: string -> bool, n: string)
    requires n in names && n in ch
    requires Last(ch[n]).category !in {Int, Float} || (Last(ch[n]).category == Int && IsBool(Last(ch[n])))
    ensures n in Select(names, ch, Categorical(lowCardinality))
  {
    SelectMembers(names, ch, Categorical(lowCardinality), n);
  }

  // ---------------------------------------------------------------------------
  // Casting several columns

  /** What a frame-level cast raises: an unknown column, or a column's ConversionError. */
  datatype CastError = MissingColumn(name: string) | Conversion(error: ConversionError)

  /** `self[column].astype(dtype)` for one `(column, dtype)` pair. */
  function CastOne(ch: Chains, pair: (string, string), cast: ColumnCast): (Chains, Outcome<CastError>) {
    var (n, requested) := pair;
    if n !in ch then (ch, Fail(MissingColumn(n)))
    else
      match cast(n, Last(ch[n]).category, requested)
      case Failure(err) => (ch, Fail(Conversion(err)))
      case Success(entry) => (ch[n := ch[n] + [entry]], Pass)
  }

  /** One cast appends at most one entry, to the named column only. */
  lemma CastOneShape(ch: Chains, pair: (string, string), cast: ColumnCast)
    ensures var (after, r) := CastOne(ch, pair, cast);
      && after.Keys == ch.Keys
      && (forall m :: m in ch && m != pair.0 ==> after[m] == ch[m])
      && (r.Fail? ==> after == ch)
      && (r.Pass? ==>
            && pair.0 in ch
            && cast(pair.0, Last(ch[pair.0]).category, pair.1).Success?
            && after[pair.0] == ch[pair.0] + [cast(pair.0, Last(ch[pair.0]).category, pair.1).value])
  {
  }

  /** A column-level outcome, seen at frame level. */
  function Lift(r: Outcome<ConversionError>): Outcome<CastError> {
    match r
    case Pass => Pass
    case Fail(err) => Fail(Conversion(err))
  }

  /**
   * Whatever updates one existing column's chain the way `cast` says (append
   * on success, nothing on failure) has computed `CastOne`.
   */
  lemma CastOneFrom(ch: Chains, n: string, requested: string, cast: ColumnCast, after: Chain, r: Outcome<ConversionError>)
    requires n in ch
    requires match cast(n, Last(ch[n]).category, requested)
      case Success(entry) => r == Pass && after == ch[n] + [entry]
      case Failure(err) => r == Fail(err) && after == ch[n]
    ensures CastOne(ch, (n, requested), cast) == (ch[n := after], Lift(r))
  {
    if r.Fail? {
      assert ch[n := after] == ch;
    }
  }

  /**
   * The pairs cast one after the other, stopping at the first error; the casts
   * already done stay done.
   */
  function CastAll(ch: Chains, pairs: seq<(string, string)>, cast: ColumnCast): (Chains, Outcome<CastError>) {
    if pairs == [] then (ch, Pass)
    else
      var prev := CastAll(ch, pairs[..|pairs| - 1], cast);
      if prev.1.Fail? then prev else CastOne(prev.0, pairs[|pairs| - 1], cast)
  }

  /** Extending the prefix by one pair casts that pair, unless the prefix already failed. */
  lemma CastAllSnoc(ch: Chains, pairs: seq<(string, string)>, i: nat, cast: ColumnCast)
    requires i < |pairs| && CastAll(ch, pairs[..i], cast).1.Pass?
    ensures CastAll(ch, pairs[..i + 1], cast) == CastOne(CastAll(ch, pairs[..i], cast).0, pairs[i], cast)
  {
    assert pairs[..i + 1][..i] == pairs[..i];
  }

  /** Once a prefix of the pairs fails, the rest of the pairs change nothing. */
  lemma {:induction false} CastAllStops(ch: Chains, pairs: seq<(string, string)>, k: nat, cast: ColumnCast)
    requires k <= |pairs| && CastAll(ch, pairs[..k], cast).1.Fail?
    ensures CastAll(ch, pairs, cast) == CastAll(ch, pairs[..k], cast)
  {
    if k < |pairs| {
      assert pairs[..|pairs| - 1][..k] == pairs[..k];
      CastAllStops(ch, pairs[..|pairs| - 1], k, cast);
    } else {
      assert pairs[..k] == pairs;
    }
  }

  /** The names a list of pairs refers to. */
  function Names(pairs: seq<(string, string)>): set<string> {
    set i | 0 <= i < |pairs| :: pairs[i].0
  }

  /** Distinct keys, as in a Python dictionary. */
  predicate DistinctNames(pairs: seq<(string, string)>) {
    forall i, j :: 0 <= i < j < |pairs| ==> pairs[i].0 != pairs[j].0
  }

  /** `b` is `a` with zero or more entries appended. */
  predicate Extends(a: Chain, b: Chain) {
    |a| <= |b| && b[..|a|] == a
  }

  /**
   * Casting never adds or removes columns, only appends to chains, and leaves
   * every column the pairs do not name untouched.
   */
  lemma {:induction false} CastAllAppendOnly(ch: Chains, pairs: seq<(string, string)>, cast: ColumnCast)
    ensures var after := CastAll(ch, pairs, cast).0;
      && after.Keys == ch.Keys
      && (forall n :: n in ch ==> Extends(ch[n], after[n]))
      && (forall n :: n in ch && n !in Names(pairs) ==> after[n] == ch[n])
  {
    if pairs != [] {
      var init := pairs[..|pairs| - 1];
      var last := pairs[|pairs| - 1];
      CastAllAppendOnly(ch, init, cast);
      assert pairs == init + [last];
      NamesConcat(init, [last]);
      assert Names([last]) == {last.0};
      var mid := CastAll(ch, init, cast);
      if mid.1.Pass? {
        assert CastAll(ch, pairs, cast) == CastOne(mid.0, last, cast);
        CastOneKeepsGrowth(ch, mid.0, Names(init), last, cast);
      }
    }
  }

  /** One more cast after a run of casts still only appends, and only to the names seen so far. */
  lemma CastOneKeepsGrowth(ch: Chains, mid: Chains, named: set<string>, last: (string, string), cast: ColumnCast)
    requires mid.Keys == ch.Keys
    requires forall n :: n in ch ==> Extends(ch[n], mid[n])
    requires forall n :: n in ch && n !in named ==> mid[n] == ch[n]
    ensures var after := CastOne(mid, last, cast).0;
      && after.Keys == ch.Keys
      && (forall n :: n in ch ==> Extends(ch[n], after[n]))
      && (forall n :: n in ch && n !in named + {last.0} ==> after[n] == ch[n])
  {
    CastOneShape(mid, last, cast);
    var after := CastOne(mid, last, cast).0;
    forall n | n in ch
      ensures Extends(ch[n], after[n])
    {
      ExtendsTrans(ch[n], mid[n], after[n]);
    }
  }

  /** Appending is transitive. */
  lemma ExtendsTrans(a: Chain, b: Chain, c: Chain)
    requires Extends(a, b) && (c == b || (|c| == |b| + 1 && c[..|b|] == b))
    ensures Extends(a, c)
  {
    assert c[..|b|][..|a|] == c[..|a|];
  }

  /**
   * When every named pair is a distinct column and the whole list succeeds,
   * each named column gains exactly the entry `astype` computes from its own
   * last entry, and no other column changes.
   */
  lemma {:induction false} CastAllSucceeds(ch: Chains, pairs: seq<(string, string)>, cast: ColumnCast, i: nat)
    requires DistinctNames(pairs) && i < |pairs|
    requires CastAll(ch, pairs, cast).1.Pass?
    ensures var (n, requested) := pairs[i];
      var after := CastAll(ch, pairs, cast).0;
      && n in ch && n in after
      && cast(n, Last(ch[n]).category, requested).Success?
      && after[n] == ch[n] + [cast(n, Last(ch[n]).category, requested).value]
  {
    var init := pairs[..|pairs| - 1];
    var last := pairs[|pairs| - 1];
    var mid := CastAll(ch, init, cast);
    assert mid.1.Pass?;
    assert CastAll(ch, pairs, cast) == CastOne(mid.0, last, cast);
    if i == |pairs| - 1 {
      assert last.0 !in Names(init) by {
        forall j | 0 <= j < |init| ensures init[j].0 != last.0 { assert init[j] == pairs[j]; }
      }
      LastCastSucceeds(ch, mid.0, init, last, cast);
    } else {
      assert init[i] == pairs[i];
      assert DistinctNames(init) by {
        forall a, b | 0 <= a < b < |init| ensures init[a].0 != init[b].0 {
          assert init[a] == pairs[a] && init[b] == pairs[b];
        }
      }
      CastAllSucceeds(ch, init, cast, i);
      assert last.0 != pairs[i].0;
      CastOneShape(mid.0, last, cast);
    }
  }

  /** The last cast of a successful run, on a column no earlier pair named, appends its own entry. */
  lemma LastCastSucceeds(ch: Chains, mid: Chains, init: seq<(string, string)>, last: (string, string), cast: ColumnCast)
    requires mid == CastAll(ch, init, cast).0 && last.0 !in Names(init)
    requires CastOne(mid, last, cast).1.Pass?
    ensures var after := CastOne(mid, last, cast).0;
      && last.0 in ch && last.0 in after
      && cast(last.0, Last(ch[last.0]).category, last.1).Success?
      && after[last.0] == ch[last.0] + [cast(last.0, Last(ch[last.0]).category, last.1).value]
  {
    CastAllAppendOnly(ch, init, cast);
    CastOneShape(mid, last, cast);
  }

  // ---------------------------------------------------------------------------
  // bool_to_int

  /** The `(column, "int")` pairs for the boolean columns of `names`, in order. */
  function BoolPairs(names: seq<string>, ch: Chains): seq<(string, string)> {
    if names == [] then []
    else
      var n := names[|names| - 1];
      BoolPairs(names[..|names| - 1], ch) + (if n in ch && IsBool(Last(ch[n])) then [(n, "int")] else [])
  }

  /** One more column either adds its cast to `int` (a boolean column) or changes nothing. */
  lemma BoolPairsStep(names: seq<string>, i: nat, ch: Chains, cast: ColumnCast)
    requires i < |names| && CastAll(ch, BoolPairs(names[..i], ch), cast).1.Pass?
    ensures var n := names[i];
      var prev := CastAll(ch, BoolPairs(names[..i], ch), cast);
      CastAll(ch, BoolPairs(names[..i + 1], ch), cast)
        == if n in ch && IsBool(Last(ch[n])) then CastOne(prev.0, (n, "int"), cast) else prev
  {
    assert names[..i + 1][..i] == names[..i];
    var p := BoolPairs(names[..i], ch);
    var n := names[i];
    if n in ch && IsBool(Last(ch[n])) {
      assert BoolPairs(names[..i + 1], ch) == p + [(n, "int")];
      CastAllAppendOne(ch, p, (n, "int"), cast);
    } else {
      assert BoolPairs(names[..i + 1], ch) == p + [];
      assert p + [] == p;
    }
  }

  /** A column not yet reached by `bool_to_int`'s loop still has its original chain. */
  lemma BoolPairsNotYet(names: seq<string>, i: nat, ch: Chains, cast: ColumnCast)
    requires i < |names| && names[i] in ch && names[i] !in names[..i]
    ensures names[i] in CastAll(ch, BoolPairs(names[..i], ch), cast).0
    ensures CastAll(ch, BoolPairs(names[..i], ch), cast).0[names[i]] == ch[names[i]]
  {
    BoolPairsNames(names[..i], ch);
    CastAllAppendOnly(ch, BoolPairs(names[..i], ch), cast);
  }

  /** A failure among the first columns is the failure of the whole of `bool_to_int`. */
  lemma BoolPairsStopAt(names: seq<string>, k: nat, ch: Chains, cast: ColumnCast)
    requires k <= |names| && CastAll(ch, BoolPairs(names[..k], ch), cast).1.Fail?
    ensures CastAll(ch, BoolPairs(names, ch), cast) == CastAll(ch, BoolPairs(names[..k], ch), cast)
  {
    BoolPairsPrefix(names, k, ch);
    CastAllStops(ch, BoolPairs(names, ch), |BoolPairs(names[..k], ch)|, cast);
  }

  /** Casting one more pair after a successful list. */
  lemma CastAllAppendOne(ch: Chains, p: seq<(string, string)>, x: (string, string), cast: ColumnCast)
    requires CastAll(ch, p, cast).1.Pass?
    ensures CastAll(ch, p + [x], cast) == CastOne(CastAll(ch, p, cast).0, x, cast)
  {
    assert (p + [x])[..|p|] == p;
  }

  /** The pairs of a prefix of the columns are a prefix of the pairs. */
  lemma {:induction false} BoolPairsPrefix(names: seq<string>, k: nat, ch: Chains)
    requires k <= |names|
    ensures |BoolPairs(names[..k], ch)| <= |BoolPairs(names, ch)|
    ensures BoolPairs(names, ch)[..|BoolPairs(names[..k], ch)|] == BoolPairs(names[..k], ch)
  {
    if k == |names| {
      assert names[..k] == names;
    } else {
      var init := names[..|names| - 1];
      assert init[..k] == names[..k];
      BoolPairsPrefix(init, k, ch);
    }
  }

  /** The names of a concatenation are the names of its parts. */
  lemma NamesConcat(p: seq<(string, string)>, q: seq<(string, string)>)
    ensures Names(p + q) == Names(p) + Names(q)
  {
    forall n | n in Names(p + q) ensures n in Names(p) + Names(q) {
      var i :| 0 <= i < |p + q| && (p + q)[i].0 == n;
      if i >= |p| { assert q[i - |p|] == (p + q)[i]; } else { assert p[i] == (p + q)[i]; }
    }
    forall n | n in Names(p) ensures n in Names(p + q) {
      var i :| 0 <= i < |p| && p[i].0 == n;
      assert (p + q)[i] == p[i];
    }
    forall n | n in Names(q) ensures n in Names(p + q) {
      var i :| 0 <= i < |q| && q[i].0 == n;
      assert (p + q)[|p| + i] == q[i];
    }
  }

  /** The pairs name exactly the boolean columns of the list, each with target `int`. */
  lemma {:induction false} BoolPairsNames(names: seq<string>, ch: Chains)
    ensures forall n :: n in Names(BoolPairs(names, ch)) <==> n in names && n in ch && IsBool(Last(ch[n]))
    ensures forall i :: 0 <= i < |BoolPairs(names, ch)| ==> BoolPairs(names, ch)[i].1 == "int"
  {
    if names != [] {
      var init := names[..|names| - 1];
      var last := names[|names| - 1];
      BoolPairsNames(init, ch);
      var p := BoolPairs(init, ch);
      var extra: seq<(string, string)> := if last in ch && IsBool(Last(ch[last])) then [(last, "int")] else [];
      assert BoolPairs(names, ch) == p + extra;
      NamesConcat(p, extra);
      if last in ch && IsBool(Last(ch[last])) {
        assert extra[0].0 == last;
        assert Names(extra) == {last};
      } else {
        assert Names(extra) == {};
      }
      assert names == init + [last];
      assert forall n :: n in names <==> n in init || n == last;
      forall i | 0 <= i < |p + extra| ensures (p + extra)[i].1 == "int" {
        if i >= |p| { assert (p + extra)[i] == extra[i - |p|]; } else { assert (p + extra)[i] == p[i]; }
      }
    }
  }

  /** Listing each column once lists each boolean column once. */
  lemma {:induction false} BoolPairsDistinct(names: seq<string>, ch: Chains)
    requires forall i, j :: 0 <= i < j < |names| ==> names[i] != names[j]
    ensures DistinctNames(BoolPairs(names, ch))
  {
    if names != [] {
      var init := names[..|names| - 1];
      var last := names[|names| - 1];
      assert forall i, j :: 0 <= i < j < |init| ==> init[i] != init[j] by {
        forall i, j | 0 <= i < j < |init| ensures init[i] != init[j] { assert init[i] == names[i] && init[j] == names[j]; }
      }
      BoolPairsDistinct(init, ch);
      BoolPairsNames(init, ch);
      var p := BoolPairs(init, ch);
      var extra: seq<(string, string)> := if last in ch && IsBool(Last(ch[last])) then [(last, "int")] else [];
      assert BoolPairs(names, ch) == p + extra;
      assert last !in init by {
        forall k | 0 <= k < |init| ensures init[k] != last { assert init[k] == names[k]; }
      }
      assert last !in Names(p);
      forall i, j | 0 <= i < j < |p + extra| ensures (p + extra)[i].0 != (p + extra)[j].0 {
        if j >= |p| {
          assert (p + extra)[j] == extra[0];
          assert (p + extra)[i] == p[i];
          assert p[i].0 in Names(p);
        } else {
          assert (p + extra)[i] == p[i] && (p + extra)[j] == p[j];
        }
      }
    }
  }

  /**
   * `bool_to_int` on a frame whose columns all exist and are listed once: when
   * it succeeds, exactly the boolean columns gain the entry of a cast to `int`,
   * and every other column is unchanged.
   */
  lemma BoolToIntCastsBools(names: seq<string>, ch: Chains, cast: ColumnCast, n: string)
    requires forall i, j :: 0 <= i < j < |names| ==> names[i] != names[j]
    requires CastAll(ch, BoolPairs(names, ch), cast).1.Pass?
    requires n in ch
    ensures n in CastAll(ch, BoolPairs(names, ch), cast).0
    ensures var after := CastAll(ch, BoolPairs(names, ch), cast).0;
      if n in names && IsBool(Last(ch[n])) then
        && cast(n, Last(ch[n]).category, "int").Success?
        && after[n] == ch[n] + [cast(n, Last(ch[n]).category, "int").value]
      else after[n] == ch[n]
  {
    var pairs := BoolPairs(names, ch);
    BoolPairsNames(names, ch);
    BoolPairsDistinct(names, ch);
    CastAllAppendOnly(ch, pairs, cast);
    if n in names && IsBool(Last(ch[n])) {
      var i :| 0 <= i < |pairs| && pairs[i].0 == n;
      CastAllSucceeds(ch, pairs, cast, i);
    }
  }
}
