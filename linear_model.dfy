/**
 * The constructors of the linear models (verticapy/learn/linear_model.py):
 * `ElasticNet`, `Lasso`, `LinearRegression`, `LogisticRegression` and
 * `Ridge`.  Each validates its `solver` (and, for the classifier, its
 * `penalty`), gates `fit_intercept=False` on the engine's major version, and
 * builds the `parameters` dictionary whose keys depend on the penalty.
 *
 * The engine version is a parameter; the float hyper-parameters are carried
 * as opaque reals and never inspected.
 */
module LinearModels {
  import opened Wrappers
  import opened Strings

  /** The five estimators. */
  datatype Estimator = ElasticNet | Lasso | LinearRegression | LogisticRegression | Ridge

  /** A value of the `parameters` dictionary. */
  datatype Param = Text(s: string) | Number(x: real) | Whole(n: int) | Flag(b: bool)

  /** `ParameterError`: a value outside its allowed list, or `fit_intercept=False` on an old engine. */
  datatype ParameterError =
    | NotInList(parameter: string, value: string, allowed: seq<string>)
    | FitInterceptUnsupported

  /**
   * The constructor's arguments.  Estimators without a `penalty`, `C` or
   * `l1_ratio` argument ignore those fields.
   */
  datatype Hyper = Hyper(penalty: string, tol: real, c: real, maxIter: int, solver: string, l1Ratio: real, fitIntercept: bool)

  /** Everything a successful constructor sets on the new object. */
  datatype Config = Config(
    typeName: string, name: string,
    fitFunction: string, predictFunction: string,
    modelType: string, subtype: string,
    parameters: map<string, Param>)

  /** The penalties `LogisticRegression` accepts. */
  const Penalties: seq<string> := ["none", "l1", "l2", "enet"]

  /** The solvers an estimator accepts, in the order its error message lists them. */
  function SolverChoices(est: Estimator): seq<string> {
    if est in {LinearRegression, Ridge} then ["newton", "bfgs"] else ["newton", "bfgs", "cgd"]
  }

  /** The penalty an estimator records: fixed for the regressors, the lower-cased argument for the classifier. */
  function PenaltyOf(est: Estimator, h: Hyper): string {
    match est
    case ElasticNet => "enet"
    case Lasso => "l1"
    case LinearRegression => "none"
    case Ridge => "l2"
    case LogisticRegression => Lower(h.penalty)
  }

  /** The keys every estimator records. */
  const BaseKeys: set<string> := {"penalty", "tol", "max_iter", "solver", "fit_intercept"}

  /** The dictionary keys for a penalty: `C` unless unpenalised, `l1_ratio` only for `enet`. */
  function KeysFor(penalty: string): set<string> {
    if penalty == "none" then BaseKeys
    else if penalty == "enet" then BaseKeys + {"C", "l1_ratio"}
    else BaseKeys + {"C"}
  }

  /** The `parameters` dictionary recorded for a penalty. */
  function Parameters(penalty: string, h: Hyper): map<string, Param> {
    if penalty == "none" then
      map["penalty" := Text(penalty), "tol" := Number(h.tol), "max_iter" := Whole(h.maxIter),
          "solver" := Text(Lower(h.solver)), "fit_intercept" := Flag(h.fitIntercept)]
    else if penalty == "enet" then
      map["penalty" := Text(penalty), "tol" := Number(h.tol), "C" := Number(h.c), "max_iter" := Whole(h.maxIter),
          "solver" := Text(Lower(h.solver)), "l1_ratio" := Number(h.l1Ratio), "fit_intercept" := Flag(h.fitIntercept)]
    else
      map["penalty" := Text(penalty), "tol" := Number(h.tol), "C" := Number(h.c), "max_iter" := Whole(h.maxIter),
          "solver" := Text(Lower(h.solver)), "fit_intercept" := Flag(h.fitIntercept)]
  }

  /** The classifier's seven-key dictionary, before any key is deleted. */
  function FullParameters(penalty: string, h: Hyper): map<string, Param> {
    map["penalty" := Text(penalty), "tol" := Number(h.tol), "C" := Number(h.c), "max_iter" := Whole(h.maxIter),
        "solver" := Text(Lower(h.solver)), "l1_ratio" := Number(h.l1Ratio), "fit_intercept" := Flag(h.fitIntercept)]
  }

  /** Deleting `l1_ratio` (and, for `none`, `C`) from the full dictionary leaves the penalty's dictionary. */
  lemma DeletedKeys(penalty: string, h: Hyper)
    ensures penalty == "none" ==> FullParameters(penalty, h) - {"l1_ratio"} - {"C"} == Parameters(penalty, h)
    ensures penalty != "none" && penalty != "enet" ==> FullParameters(penalty, h) - {"l1_ratio"} == Parameters(penalty, h)
    ensures penalty == "enet" ==> FullParameters(penalty, h) == Parameters(penalty, h)
  {
    var full := FullParameters(penalty, h);
    if penalty == "none" {
      assert (full - {"l1_ratio"} - {"C"}).Keys == Parameters(penalty, h).Keys;
    } else if penalty != "enet" {
      assert (full - {"l1_ratio"}).Keys == Parameters(penalty, h).Keys;
    }
  }

  /** The fields that identify the model in the database. */
  function Kind(est: Estimator, name: string, parameters: map<string, Param>): Config {
    if est == LogisticRegression then
      Config("LogisticRegression", name, "LOGISTIC_REG", "PREDICT_LOGISTIC_REG", "SUPERVISED", "CLASSIFIER", parameters)
    else
      Config("LinearRegression", name, "LINEAR_REG", "PREDICT_LINEAR_REG", "SUPERVISED", "REGRESSOR", parameters)
  }

  /**
   * What the constructor of `est` does with arguments `h` on an engine of major
   * version `major`: the checks in source order, then the configured model.
   */
  function Configure(est: Estimator, name: string, h: Hyper, major: int): Result<Config, ParameterError> {
    var penalty := PenaltyOf(est, h);
    var solver := Lower(h.solver);
    if est == LogisticRegression && penalty !in Penalties then
      Failure(NotInList("penalty", penalty, Penalties))
    else if solver !in SolverChoices(est) then
      Failure(NotInList("solver", solver, SolverChoices(est)))
    else if major < 12 && !h.fitIntercept then
      Failure(FitInterceptUnsupported)
    else if est == LogisticRegression && penalty == "none" && solver !in ["bfgs", "newton"] then
      Failure(NotInList("solver", solver, ["bfgs", "newton"]))
    else
      Success(Kind(est, name, Parameters(penalty, h)))
  }

  /** A linear model object as the constructors leave it. */
  class LinearModel {
    var typeName: string
    var name: string
    var fitFunction: string
    var predictFunction: string
    var modelType: string
    var subtype: string
    var parameters: map<string, Param>

    /** The identifying fields, set before the version gate; the dictionary comes later. */
    constructor (typeName: string, name: string, fitFunction: string, predictFunction: string, subtype: string)
      ensures this.typeName == typeName && this.name == name
      ensures this.fitFunction == fitFunction && this.predictFunction == predictFunction
      ensures modelType == "SUPERVISED" && this.subtype == subtype && parameters == map[]
    {
      this.typeName, this.name := typeName, name;
      this.fitFunction, this.predictFunction := fitFunction, predictFunction;
      modelType, this.subtype := "SUPERVISED", subtype;
      parameters := map[];
    }

    /** The object's state as a value. */
    function State(): Config
      reads this
    {
      Config(typeName, name, fitFunction, predictFunction, modelType, subtype, parameters)
    }

    /** `ElasticNet(name, tol, C, max_iter, solver, l1_ratio, fit_intercept)` */
    static method NewElasticNet(name: string, tol: real, c: real, maxIter: int, solver: string, l1Ratio: real, fitIntercept: bool, major: int)
      returns (r: Result<LinearModel, ParameterError>)
      ensures r.Success? ==> fresh(r.value)
      ensures View(r) == Configure(ElasticNet, name, Hyper("", tol, c, maxIter, solver, l1Ratio, fitIntercept), major)
    {
      var s := Lower(solver);
      if s !in ["newton", "bfgs", "cgd"] {
        return Failure(NotInList("solver", s, ["newton", "bfgs", "cgd"]));
      }
      var m := new LinearModel("LinearRegression", name, "LINEAR_REG", "PREDICT_LINEAR_REG", "REGRESSOR");
      if major < 12 && !fitIntercept {
        return Failure(FitInterceptUnsupported);
      }
      m.parameters := map[
        "penalty" := Text("enet"), "tol" := Number(tol), "C" := Number(c), "max_iter" := Whole(maxIter),
        "solver" := Text(s), "l1_ratio" := Number(l1Ratio), "fit_intercept" := Flag(fitIntercept)];
      return Success(m);
    }

    /** `Lasso(name, tol, C, max_iter, solver, fit_intercept)` */
    static method NewLasso(name: string, tol: real, c: real, maxIter: int, solver: string, fitIntercept: bool, major: int)
      returns (r: Result<LinearModel, ParameterError>)
      ensures r.Success? ==> fresh(r.value)
      ensures View(r) == Configure(Lasso, name, Hyper("", tol, c, maxIter, solver, 0.0, fitIntercept), major)
    {
      var s := Lower(solver);
      if s !in ["newton", "bfgs", "cgd"] {
        return Failure(NotInList("solver", s, ["newton", "bfgs", "cgd"]));
      }
      var m := new LinearModel("LinearRegression", name, "LINEAR_REG", "PREDICT_LINEAR_REG", "REGRESSOR");
      if major < 12 && !fitIntercept {
        return Failure(FitInterceptUnsupported);
      }
      m.parameters := map[
        "penalty" := Text("l1"), "tol" := Number(tol), "C" := Number(c), "max_iter" := Whole(maxIter),
        "solver" := Text(s), "fit_intercept" := Flag(fitIntercept)];
      return Success(m);
    }

    /** `LinearRegression(name, tol, max_iter, solver, fit_intercept)` */
    static method NewLinearRegression(name: string, tol: real, maxIter: int, solver: string, fitIntercept: bool, major: int)
      returns (r: Result<LinearModel, ParameterError>)
      ensures r.Success? ==> fresh(r.value)
      ensures View(r) == Configure(LinearRegression, name, Hyper("", tol, 0.0, maxIter, solver, 0.0, fitIntercept), major)
    {
      var s := Lower(solver);
      if s !in ["newton", "bfgs"] {
        return Failure(NotInList("solver", s, ["newton", "bfgs"]));
      }
      var m := new LinearModel("LinearRegression", name, "LINEAR_REG", "PREDICT_LINEAR_REG", "REGRESSOR");
      if major < 12 && !fitIntercept {
        return Failure(FitInterceptUnsupported);
      }
      m.parameters := map[
        "penalty" := Text("none"), "tol" := Number(tol), "max_iter" := Whole(maxIter),
        "solver" := Text(s), "fit_intercept" := Flag(fitIntercept)];
      return Success(m);
    }

    /**
     * `LogisticRegression(name, penalty, tol, C, max_iter, solver, l1_ratio,
     * fit_intercept)`: the full dictionary is built, then `l1_ratio` (and for
     * `none` also `C`) is deleted in place.
     */
    static method NewLogisticRegression(name: string, penalty: string, tol: real, c: real, maxIter: int, solver: string, l1Ratio: real, fitIntercept: bool, major: int)
      returns (r: Result<LinearModel, ParameterError>)
      ensures r.Success? ==> fresh(r.value)
      ensures View(r) == Configure(LogisticRegression, name, Hyper(penalty, tol, c, maxIter, solver, l1Ratio, fitIntercept), major)
    {
      var p := Lower(penalty);
      if p !in ["none", "l1", "l2", "enet"] {
        return Failure(NotInList("penalty", p, ["none", "l1", "l2", "enet"]));
      }
      var s := Lower(solver);
      if s !in ["newton", "bfgs", "cgd"] {
        return Failure(NotInList("solver", s, ["newton", "bfgs", "cgd"]));
      }
      var m := new LinearModel("LogisticRegression", name, "LOGISTIC_REG", "PREDICT_LOGISTIC_REG", "CLASSIFIER");
      if major < 12 && !fitIntercept {
        return Failure(FitInterceptUnsupported);
      }
      m.parameters := map[
        "penalty" := Text(p), "tol" := Number(tol), "C" := Number(c), "max_iter" := Whole(maxIter),
        "solver" := Text(s), "l1_ratio" := Number(l1Ratio), "fit_intercept" := Flag(fitIntercept)];
      DeletedKeys(p, Hyper(penalty, tol, c, maxIter, solver, l1Ratio, fitIntercept));
      if p == "none" {
        m.parameters := m.parameters - {"l1_ratio"};
        m.parameters := m.parameters - {"C"};
        if s !in ["bfgs", "newton"] {
          return Failure(NotInList("solver", s, ["bfgs", "newton"]));
        }
      } else if p in {"l1", "l2"} {
        m.parameters := m.parameters - {"l1_ratio"};
      }
      return Success(m);
    }

    /** `Ridge(name, tol, C, max_iter, solver, fit_intercept)` */
    static method NewRidge(name: string, tol: real, c: real, maxIter: int, solver: string, fitIntercept: bool, major: int)
      returns (r: Result<LinearModel, ParameterError>)
      ensures r.Success? ==> fresh(r.value)
      ensures View(r) == Configure(Ridge, name, Hyper("", tol, c, maxIter, solver, 0.0, fitIntercept), major)
    {
      var s := Lower(solver);
      if s !in ["newton", "bfgs"] {
        return Failure(NotInList("solver", s, ["newton", "bfgs"]));
      }
      var m := new LinearModel("LinearRegression", name, "LINEAR_REG", "PREDICT_LINEAR_REG", "REGRESSOR");
      if major < 12 && !fitIntercept {
        return Failure(FitInterceptUnsupported);
      }
      m.parameters := map[
        "penalty" := Text("l2"), "tol" := Number(tol), "C" := Number(c), "max_iter" := Whole(maxIter),
        "solver" := Text(s), "fit_intercept" := Flag(fitIntercept)];
      return Success(m);
    }
  }

  /** A constructor's outcome as a value: the new object's state, or the error. */
  function View(r: Result<LinearModel, ParameterError>): Result<Config, ParameterError>
    reads if r.Success? then {r.value} else {}
  {
    match r
    case Success(m) => Success(m.State())
    case Failure(err) => Failure(err)
  }

  // ---------------------------------------------------------------------------
  // Properties of the constructors

  /**
   * A constructor succeeds exactly when the penalty (classifier only) and the
   * solver are in their lists, the engine is 12 or later unless an intercept is
   * fitted, and an unpenalised classifier does not ask for `cgd`.
   */
  lemma Accepts(est: Estimator, name: string, h: Hyper, major: int)
    ensures Configure(est, name, h, major).Success?
        <==> && (est == LogisticRegression ==> PenaltyOf(est, h) in Penalties)
             && Lower(h.solver) in SolverChoices(est)
             && (major >= 12 || h.fitIntercept)
             && !(est == LogisticRegression && PenaltyOf(est, h) == "none" && Lower(h.solver) == "cgd")
  {
  }

  /**
   * The solver lists: `newton` and `bfgs` everywhere, `cgd` only for
   * `ElasticNet`, `Lasso` and `LogisticRegression`.  A solver outside the list
   * is reported, with the list, whatever the engine version.
   */
  lemma SolverChecked(est: Estimator, name: string, h: Hyper, major: int)
    ensures forall v :: v in SolverChoices(est) <==> v in {"newton", "bfgs"} || (v == "cgd" && est in {ElasticNet, Lasso, LogisticRegression})
    ensures (est == LogisticRegression ==> PenaltyOf(est, h) in Penalties) && Lower(h.solver) !in SolverChoices(est) ==>
      Configure(est, name, h, major) == Failure(NotInList("solver", Lower(h.solver), SolverChoices(est)))
  {
  }

  /** The classifier's penalty is checked before anything else. */
  lemma PenaltyCheckedFirst(name: string, h: Hyper, major: int)
    requires Lower(h.penalty) !in Penalties
    ensures Configure(LogisticRegression, name, h, major) == Failure(NotInList("penalty", Lower(h.penalty), Penalties))
  {
  }

  /**
   * `fit_intercept=False` on an engine older than 12 is refused, but only once
   * the penalty and the solver have passed.
   */
  lemma VersionGate(est: Estimator, name: string, h: Hyper, major: int)
    requires major < 12 && !h.fitIntercept
    ensures Configure(est, name, h, major).Failure?
    ensures (est == LogisticRegression ==> PenaltyOf(est, h) in Penalties) && Lower(h.solver) in SolverChoices(est) ==>
      Configure(est, name, h, major) == Failure(FitInterceptUnsupported)
  {
  }

  /** An unpenalised classifier refuses `cgd`, naming the shorter list. */
  lemma NoneRejectsCgd(name: string, h: Hyper, major: int)
    requires Lower(h.penalty) == "none" && Lower(h.solver) == "cgd"
    requires major >= 12 || h.fitIntercept
    ensures Configure(LogisticRegression, name, h, major) == Failure(NotInList("solver", "cgd", ["bfgs", "newton"]))
  {
  }

  /**
   * The recorded dictionary: exactly the penalty's keys, holding the recorded
   * penalty, the lower-cased solver and the other arguments unchanged.
   */
  lemma RecordedParameters(est: Estimator, name: string, h: Hyper, major: int)
    requires Configure(est, name, h, major).Success?
    ensures var p := Configure(est, name, h, major).value.parameters;
      && p.Keys == KeysFor(PenaltyOf(est, h))
      && p["penalty"] == Text(PenaltyOf(est, h)) && p["solver"] == Text(Lower(h.solver))
      && p["tol"] == Number(h.tol) && p["max_iter"] == Whole(h.maxIter) && p["fit_intercept"] == Flag(h.fitIntercept)
      && ("C" in p ==> p["C"] == Number(h.c))
      && ("l1_ratio" in p ==> p["l1_ratio"] == Number(h.l1Ratio))
  {
    var penalty := PenaltyOf(est, h);
    var p := Parameters(penalty, h);
    if penalty == "none" {
      assert p.Keys == KeysFor(penalty);
    } else if penalty == "enet" {
      assert p.Keys == KeysFor(penalty);
    } else {
      assert p.Keys == KeysFor(penalty);
    }
  }

  /**
   * Which optional keys a penalty keeps: `C` for every penalty but `none`,
   * `l1_ratio` for `enet` only.  The regressors' penalties are fixed:
   * `enet`, `l1`, `none`, `l2`.
   */
  lemma KeysByPenalty(est: Estimator, h: Hyper)
    ensures forall penalty :: "C" in KeysFor(penalty) <==> penalty != "none"
    ensures forall penalty :: "l1_ratio" in KeysFor(penalty) <==> penalty == "enet"
    ensures forall penalty :: KeysFor(penalty) <= BaseKeys + {"C", "l1_ratio"} && BaseKeys <= KeysFor(penalty)
    ensures PenaltyOf(ElasticNet, h) == "enet" && PenaltyOf(Lasso, h) == "l1"
    ensures PenaltyOf(LinearRegression, h) == "none" && PenaltyOf(Ridge, h) == "l2"
  {
  }

  /**
   * The classifier records `LOGISTIC_REG` / `PREDICT_LOGISTIC_REG` as a
   * `CLASSIFIER`; every regressor records type `LinearRegression` with
   * `LINEAR_REG` / `PREDICT_LINEAR_REG` as a `REGRESSOR`.  All are supervised
   * and keep the given name.
   */
  lemma ModelKinds(est: Estimator, name: string, h: Hyper, major: int)
    requires Configure(est, name, h, major).Success?
    ensures var c := Configure(est, name, h, major).value;
      && c.name == name && c.modelType == "SUPERVISED"
      && (est == LogisticRegression ==>
            c.typeName == "LogisticRegression" && c.fitFunction == "LOGISTIC_REG"
            && c.predictFunction == "PREDICT_LOGISTIC_REG" && c.subtype == "CLASSIFIER")
      && (est != LogisticRegression ==>
            c.typeName == "LinearRegression" && c.fitFunction == "LINEAR_REG"
            && c.predictFunction == "PREDICT_LINEAR_REG" && c.subtype == "REGRESSOR")
  {
  }

  /** The arguments each constructor defaults to. */
  function DefaultHyper(est: Estimator): Hyper {
    var solver := match est
      case ElasticNet => "cgd"
      case Lasso => "CGD"
      case LinearRegression => "Newton"
      case LogisticRegression => "newton"
      case Ridge => "newton";
    Hyper("None", 0.000001, 1.0, 100, solver, 0.5, true)
  }

  /** Every constructor accepts its own default arguments on any engine. */
  lemma DefaultsAccepted(est: Estimator, name: string, major: int)
    ensures Configure(est, name, DefaultHyper(est), major).Success?
  {
    var h := DefaultHyper(est);
    assert Lower("CGD") == "cgd";
    assert Lower("Newton") == "newton";
    assert Lower("cgd") == "cgd";
    assert Lower("newton") == "newton";
    assert Lower("None") == "none";
  }
}
