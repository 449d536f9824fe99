/**
 * Reading connection credentials from a DSN configuration file
 * (verticapy/connect/read.py): `read_dsn` and `available_connections`.
 *
 * The parsed file is a map from section names to their `(option, value)`
 * lines in file order; the process environment is a map from variable names
 * to values.  File access and the configuration parser are not modelled.
 */
module Dsn {
  import opened Wrappers
  import opened Strings

  /** A value of the returned `conn_info` dictionary. */
  datatype Value = Int(n: int) | Bool(b: bool) | Str(s: string)

  /** The dictionary `read_dsn` returns (key order is not modelled). */
  type Info = map<string, Value>

  /** `NameError` for an unknown section; `ParameterError` for a missing environment variable. */
  datatype DsnError =
    | MissingSection(section: string)
    | MissingEnvVariable(option: string, variable: string)

  /** The spellings of true the reader accepts (compared after lower-casing). */
  predicate Truthy(v: string) {
    v in {"true", "t", "yes", "y"}
  }

  /** Options whose value is parsed as a flag. */
  predicate IsBoolOption(name: string) {
    name in {"ssl", "autocommit", "use_prepared_statements", "connection_load_balance", "disable_copy_local"}
  }

  /** Options read from the environment when the `env` flag is set. */
  predicate IsCredential(name: string) {
    name in {"pwd", "password", "uid", "user"}
  }

  /** An option name (any case) that switches the environment lookup. */
  predicate IsEnvName(name: string) {
    StartsWith(Lower(name), "env")
  }

  /** The dictionary before any option is read. */
  function Defaults(sessionLabel: string): Info {
    map["port" := Int(5433), "user" := Str("dbadmin"), "session_label" := Str(sessionLabel)]
  }

  /** The first `env...` option decides the flag; without one it is off. */
  function EnvFlag(options: seq<(string, string)>): bool {
    if options == [] then false
    else if IsEnvName(options[0].0) then Truthy(Lower(options[0].1))
    else EnvFlag(options[1..])
  }

  /** The key an environment-read credential is stored under. */
  function CredentialKey(name: string): string {
    if name == "pwd" then "password" else if name == "uid" then "user" else name
  }

  /** One option line applied to the dictionary: its name is lower-cased first. */
  function ApplyOption(info: Info, option: (string, string), env: bool, vars: map<string, string>): Result<Info, DsnError> {
    ApplyLowered(info, Lower(option.0), option.1, env, vars)
  }

  /** The branch ladder of `read_dsn` for a lower-cased option name: the first five branches. */
  function ApplyLowered(info: Info, name: string, val: string, env: bool, vars: map<string, string>): Result<Info, DsnError> {
    if IsCredential(name) && env then
      var key := CredentialKey(name);
      if val in vars then Success(info[key := Str(vars[val])])
      else Failure(MissingEnvVariable(key, val))
    else if name in {"servername", "server"} then Success(info["host" := Str(val)])
    else if name == "uid" then Success(info["user" := Str(val)])
    else if name in {"port", "connection_timeout"} && IsDigits(val) then Success(info[name := Int(DigitsValue(val))])
    else if name == "pwd" then Success(info["password" := Str(val)])
    else Success(ApplyOther(info, name, val))
  }

  /** The rest of the ladder, none of whose branches can fail. */
  function ApplyOther(info: Info, name: string, val: string): Info {
    if name == "backup_server_node" then info["backup_server_node" := Str(val)]
    else if name == "kerberosservicename" then info["kerberos_service_name" := Str(val)]
    else if name == "kerberoshostname" then info["kerberos_host_name" := Str(val)]
    else if Contains(name, "vp_test_") then info[Drop(name, 8) := Str(val)]
    else if IsBoolOption(name) then info[name := Bool(Truthy(Lower(val)))]
    else if name != "session_label" && !StartsWith(name, "env") then info[name := Str(val)]
    else info
  }

  /** The option lines applied in file order; the first error stops the reading. */
  function ApplyOptions(info: Info, options: seq<(string, string)>, env: bool, vars: map<string, string>): Result<Info, DsnError> {
    if options == [] then Success(info)
    else
      match ApplyOptions(info, options[..|options| - 1], env, vars)
      case Failure(err) => Failure(err)
      case Success(mid) => ApplyOption(mid, options[|options| - 1], env, vars)
  }

  /** `read_dsn(section)` over a parsed file and an environment. */
  function ReadDsnSpec(config: map<string, seq<(string, string)>>, section: string, vars: map<string, string>, sessionLabel: string)
    : Result<Info, DsnError>
  {
    if section !in config then Failure(MissingSection(section))
    else
      var options := config[section];
      ApplyOptions(Defaults(sessionLabel), options, EnvFlag(options), vars)
  }

  /** Extending the lines read by one applies that line, unless reading already failed. */
  lemma ApplyOptionsSnoc(info: Info, options: seq<(string, string)>, i: nat, env: bool, vars: map<string, string>)
    requires i < |options| && ApplyOptions(info, options[..i], env, vars).Success?
    ensures ApplyOptions(info, options[..i + 1], env, vars)
         == ApplyOption(ApplyOptions(info, options[..i], env, vars).value, options[i], env, vars)
  {
    assert options[..i + 1][..i] == options[..i];
  }

  /** Once a prefix of the lines fails, the rest is never read. */
  lemma {:induction false} ApplyOptionsStops(info: Info, options: seq<(string, string)>, k: nat, env: bool, vars: map<string, string>)
    requires k <= |options| && ApplyOptions(info, options[..k], env, vars).Failure?
    ensures ApplyOptions(info, options, env, vars) == ApplyOptions(info, options[..k], env, vars)
  {
    if k < |options| {
      assert options[..|options| - 1][..k] == options[..k];
      ApplyOptionsStops(info, options[..|options| - 1], k, env, vars);
    } else {
      assert options[..k] == options;
    }
  }

  /**
   * `read_dsn`: fail on an unknown section; otherwise start from the defaults,
   * find the `env` flag, then apply every option line in order.
   */
  method ReadDsn(config: map<string, seq<(string, string)>>, section: string, vars: map<string, string>, sessionLabel: string)
    returns (r: Result<Info, DsnError>)
    ensures r == ReadDsnSpec(config, section, vars, sessionLabel)
  {
    if section !in config {
      return Failure(MissingSection(section));
    }
    var options := config[section];
    var info := Defaults(sessionLabel);

    var env := false;
    var i := 0;
    while i < |options|
      invariant 0 <= i <= |options|
      invariant EnvFlag(options) == EnvFlag(options[i..])
    {
      assert options[i..][1..] == options[i + 1..];
      if IsEnvName(options[i].0) {
        if Truthy(Lower(options[i].1)) {
          env := true;
        }
        break;
      }
      i := i + 1;
    }
    assert env == EnvFlag(options);

    ghost var start := info;
    i := 0;
    while i < |options|
      invariant 0 <= i <= |options|
      invariant ApplyOptions(start, options[..i], env, vars) == Success(info)
    {
      ApplyOptionsSnoc(start, options, i, env, vars);
      var res := ApplyLine(info, Lower(options[i].0), options[i].1, env, vars);
      if res.Failure? {
        ApplyOptionsStops(start, options, i + 1, env, vars);
        return res;
      }
      info := res.value;
      i := i + 1;
    }
    assert options[..i] == options;
    r := Success(info);
  }

  /**
   * One iteration of the second loop of `read_dsn`, on the lower-cased option
   * name: the statement form of `ApplyLowered`, kept apart from `ReadDsn` so
   * that each loop step is checked against the function on its own.
   */
  method ApplyLine(info: Info, name: string, val: string, env: bool, vars: map<string, string>)
    returns (r: Result<Info, DsnError>)
    ensures r == ApplyLowered(info, name, val, env, vars)
  {
    var conn := info;
    if IsCredential(name) && env {
      var key := name;
      if name == "pwd" {
        key := "password";
      } else if name == "uid" {
        key := "user";
      }
      if val !in vars {
        return Failure(MissingEnvVariable(key, val));
      }
      conn := conn[key := Str(vars[val])];
    } else if name in {"servername", "server"} {
      conn := conn["host" := Str(val)];
    } else if name == "uid" {
      conn := conn["user" := Str(val)];
    } else if name in {"port", "connection_timeout"} && IsDigits(val) {
      conn := conn[name := Int(DigitsValue(val))];
    } else if name == "pwd" {
      conn := conn["password" := Str(val)];
    } else {
      conn := ApplyOtherLine(conn, name, val);
    }
    return Success(conn);
  }

  /** The later branches of one iteration, none of which can fail: the statement form of `ApplyOther`. */
  method ApplyOtherLine(info: Info, name: string, val: string) returns (conn: Info)
    ensures conn == ApplyOther(info, name, val)
  {
    conn := info;
    if name == "backup_server_node" {
      conn := conn["backup_server_node" := Str(val)];
    } else if name == "kerberosservicename" {
      conn := conn["kerberos_service_name" := Str(val)];
    } else if name == "kerberoshostname" {
      conn := conn["kerberos_host_name" := Str(val)];
    } else if Contains(name, "vp_test_") {
      conn := conn[Drop(name, 8) := Str(val)];
    } else if IsBoolOption(name) {
      conn := conn[name := Bool(Truthy(Lower(val)))];
    } else if name != "session_label" && !StartsWith(name, "env") {
      conn := conn[name := Str(val)];
    }
  }

  /**
   * `available_connections()`: the sections of the file without the automatic
   * connection's own section, in file order.
   */
  function AvailableConnections(sections: seq<string>, auto: string): (r: seq<string>)
    ensures forall s :: s in r <==> s in sections && s != auto
    ensures |r| <= |sections|
  {
    if sections == [] then []
    else (if sections[0] == auto then [] else [sections[0]]) + AvailableConnections(sections[1..], auto)
  }

  // ---------------------------------------------------------------------------
  // Properties of read_dsn

  /** Position `i` holds the first `env...` option of the list. */
  predicate FirstEnvAt(options: seq<(string, string)>, i: int) {
    0 <= i < |options| && IsEnvName(options[i].0) && forall j :: 0 <= j < i ==> !IsEnvName(options[j].0)
  }

  /** The `env` flag is on exactly when the first `env...` option holds a spelling of true. */
  lemma {:induction false} EnvFlagFirstOption(options: seq<(string, string)>)
    ensures EnvFlag(options) <==> exists i :: FirstEnvAt(options, i) && Truthy(Lower(options[i].1))
  {
    if options != [] && !IsEnvName(options[0].0) {
      var rest := options[1..];
      EnvFlagFirstOption(rest);
      if EnvFlag(options) {
        var i :| FirstEnvAt(rest, i) && Truthy(Lower(rest[i].1));
        assert FirstEnvAt(options, i + 1) by {
          forall j | 0 <= j < i + 1 ensures !IsEnvName(options[j].0) {
            if j > 0 { assert options[j] == rest[j - 1]; }
          }
        }
      }
      if exists i :: FirstEnvAt(options, i) && Truthy(Lower(options[i].1)) {
        var i :| FirstEnvAt(options, i) && Truthy(Lower(options[i].1));
        assert i > 0;
        assert FirstEnvAt(rest, i - 1) by {
          forall j | 0 <= j < i - 1 ensures !IsEnvName(rest[j].0) {
            assert rest[j] == options[j + 1];
          }
        }
      }
    } else if options != [] {
      assert FirstEnvAt(options, 0);
      if exists i :: FirstEnvAt(options, i) && Truthy(Lower(options[i].1)) {
        var i :| FirstEnvAt(options, i) && Truthy(Lower(options[i].1));
        assert i == 0;
      }
    }
  }

  /**
   * Reading fails exactly when the `env` flag is on and some credential option
   * names an environment variable that is not set.
   */
  lemma {:induction false} ApplyOptionsFails(info: Info, options: seq<(string, string)>, env: bool, vars: map<string, string>)
    ensures ApplyOptions(info, options, env, vars).Failure?
        <==> env && exists i :: 0 <= i < |options| && IsCredential(Lower(options[i].0)) && options[i].1 !in vars
    ensures ApplyOptions(info, options, env, vars).Failure? ==>
        exists i :: 0 <= i < |options| && IsCredential(Lower(options[i].0))
          && ApplyOptions(info, options, env, vars).error
             == MissingEnvVariable(CredentialKey(Lower(options[i].0)), options[i].1)
  {
    if options != [] {
      var init := options[..|options| - 1];
      var last := options[|options| - 1];
      ApplyOptionsFails(info, init, env, vars);
      forall i | 0 <= i < |init| ensures init[i] == options[i] { }
      var mid := ApplyOptions(info, init, env, vars);
      if mid.Success? && !(env && IsCredential(Lower(last.0)) && last.1 !in vars) {
        assert ApplyOption(mid.value, last, env, vars).Success?;
        forall i | 0 <= i < |options| && IsCredential(Lower(options[i].0)) && options[i].1 !in vars
          ensures !env
        {
          if i < |init| { assert init[i] == options[i]; }
        }
      }
    }
  }

  /** Reading only adds keys: a successful read keeps every key it started with. */
  lemma {:induction false} ApplyOptionsKeepsKeys(info: Info, options: seq<(string, string)>, env: bool, vars: map<string, string>)
    requires ApplyOptions(info, options, env, vars).Success?
    ensures info.Keys <= ApplyOptions(info, options, env, vars).value.Keys
  {
    if options != [] {
      ApplyOptionsKeepsKeys(info, options[..|options| - 1], env, vars);
    }
  }

  /**
   * `read_dsn` fails on an unknown section, or with the `env` flag on when a
   * credential's variable is unset; otherwise the result always carries
   * `port`, `user` and `session_label`.
   */
  lemma ReadDsnOutcome(config: map<string, seq<(string, string)>>, section: string, vars: map<string, string>, sessionLabel: string)
    ensures var r := ReadDsnSpec(config, section, vars, sessionLabel);
      && (section !in config ==> r == Failure(MissingSection(section)))
      && (section in config ==>
            var options := config[section];
            && (r.Failure? <==> EnvFlag(options) && exists i :: 0 <= i < |options| && IsCredential(Lower(options[i].0)) && options[i].1 !in vars)
            && (r.Success? ==> "port" in r.value && "user" in r.value && "session_label" in r.value))
  {
    if section in config {
      var options := config[section];
      ApplyOptionsFails(Defaults(sessionLabel), options, EnvFlag(options), vars);
      if ReadDsnSpec(config, section, vars, sessionLabel).Success? {
        ApplyOptionsKeepsKeys(Defaults(sessionLabel), options, EnvFlag(options), vars);
      }
    }
  }

  /**
   * The session label is never overwritten from the file unless an option
   * name contains `vp_test_`: a `session_label` option is skipped.
   */
  lemma {:induction false} SessionLabelKept(info: Info, options: seq<(string, string)>, env: bool, vars: map<string, string>)
    requires "session_label" in info
    requires forall i :: 0 <= i < |options| ==> !Contains(Lower(options[i].0), "vp_test_")
    requires ApplyOptions(info, options, env, vars).Success?
    ensures var r := ApplyOptions(info, options, env, vars).value;
      "session_label" in r && r["session_label"] == info["session_label"]
  {
    if options != [] {
      var init := options[..|options| - 1];
      var last := options[|options| - 1];
      forall i | 0 <= i < |init| ensures !Contains(Lower(init[i].0), "vp_test_") {
        assert init[i] == options[i];
      }
      SessionLabelKept(info, init, env, vars);
      LabelUntouched(ApplyOptions(info, init, env, vars).value, Lower(last.0), last.1, env, vars);
    }
  }

  /**
   * `port` (default 5433) and `user` (default `dbadmin`) keep the value they
   * had unless some option is named after them (`uid` also writes `user`) or
   * carries the `vp_test_` marker.
   */
  lemma {:induction false} DefaultKept(info: Info, options: seq<(string, string)>, env: bool, vars: map<string, string>, key: string)
    requires key in {"port", "user"} && key in info
    requires forall i :: 0 <= i < |options| ==> !Writes(Lower(options[i].0), key)
    requires ApplyOptions(info, options, env, vars).Success?
    ensures var r := ApplyOptions(info, options, env, vars).value;
      key in r && r[key] == info[key]
  {
    if options != [] {
      var init := options[..|options| - 1];
      var last := options[|options| - 1];
      forall i | 0 <= i < |init| ensures !Writes(Lower(init[i].0), key) {
        assert init[i] == options[i];
      }
      DefaultKept(info, init, env, vars, key);
      LineKeepsDefault(ApplyOptions(info, init, env, vars).value, Lower(last.0), last.1, env, vars, key);
    }
  }

  /** Whether a lower-cased option name can write `key` (`port` or `user`). */
  predicate Writes(name: string, key: string) {
    name == key || (key == "user" && name == "uid") || Contains(name, "vp_test_")
  }

  /** One line whose name cannot write `key` leaves `key` as it was. */
  lemma LineKeepsDefault(info: Info, name: string, val: string, env: bool, vars: map<string, string>, key: string)
    requires key in {"port", "user"} && key in info && !Writes(name, key)
    requires ApplyLowered(info, name, val, env, vars).Success?
    ensures var r := ApplyLowered(info, name, val, env, vars).value;
      key in r && r[key] == info[key]
  {
    if (IsCredential(name) && env) || name in {"servername", "server"} || name == "uid"
       || (name in {"port", "connection_timeout"} && IsDigits(val)) || name == "pwd" {
      EarlyKeepsDefault(info, name, val, env, vars, key);
    } else {
      ReachesOther(info, name, val, env, vars);
      OtherKeepsDefault(info, name, val, key);
    }
  }

  /** The first five branches write `key` only for the names `Writes` lists. */
  lemma EarlyKeepsDefault(info: Info, name: string, val: string, env: bool, vars: map<string, string>, key: string)
    requires key in {"port", "user"} && key in info && !Writes(name, key)
    requires (IsCredential(name) && env) || name in {"servername", "server"} || name == "uid"
             || (name in {"port", "connection_timeout"} && IsDigits(val)) || name == "pwd"
    requires ApplyLowered(info, name, val, env, vars).Success?
    ensures var r := ApplyLowered(info, name, val, env, vars).value;
      key in r && r[key] == info[key]
  {
    if IsCredential(name) && env {
      CredentialKeepsDefault(info, name, val, vars, key);
    } else {
      PlainEarlyKeepsDefault(info, name, val, env, vars, key);
    }
  }

  /** An environment-read credential is stored under `password`, `user` or its own name. */
  lemma CredentialKeepsDefault(info: Info, name: string, val: string, vars: map<string, string>, key: string)
    requires key in {"port", "user"} && key in info && name != key && !(key == "user" && name == "uid")
    requires IsCredential(name) && val in vars
    ensures var r := ApplyLowered(info, name, val, true, vars).value;
      key in r && r[key] == info[key]
  {
    FixedKeysDiffer(key);
    assert CredentialKey(name) != key;
  }

  /** The server, `uid`, numeric and `pwd` branches write `host`, `user`, their own name and `password`. */
  lemma PlainEarlyKeepsDefault(info: Info, name: string, val: string, env: bool, vars: map<string, string>, key: string)
    requires key in {"port", "user"} && key in info && name != key && !(key == "user" && name == "uid")
    requires !(IsCredential(name) && env)
    requires name in {"servername", "server"} || name == "uid"
             || (name in {"port", "connection_timeout"} && IsDigits(val)) || name == "pwd"
    ensures var r := ApplyLowered(info, name, val, env, vars).value;
      key in r && r[key] == info[key]
  {
    FixedKeysDiffer(key);
  }

  /** The later branches write `key` only for a name equal to it or a `vp_test_` name. */
  lemma OtherKeepsDefault(info: Info, name: string, val: string, key: string)
    requires key in {"port", "user"} && key in info && name != key && !Contains(name, "vp_test_")
    ensures var r := ApplyOther(info, name, val);
      key in r && r[key] == info[key]
  {
    if name in {"backup_server_node", "kerberosservicename", "kerberoshostname"} {
      RenamedKeepDefault(info, name, val, key);
    } else {
      NamedKeepsDefault(info, name, val, key);
    }
  }

  /** The backup node and Kerberos keys are neither `port` nor `user`. */
  lemma RenamedKeepDefault(info: Info, name: string, val: string, key: string)
    requires key in {"port", "user"} && key in info
    requires name in {"backup_server_node", "kerberosservicename", "kerberoshostname"}
    ensures var r := ApplyOther(info, name, val);
      key in r && r[key] == info[key]
  {
    FixedKeysDiffer(key);
  }

  /** The flag and catch-all branches write the option's own name, or nothing. */
  lemma NamedKeepsDefault(info: Info, name: string, val: string, key: string)
    requires key in info && name != key && !Contains(name, "vp_test_")
    requires name !in {"backup_server_node", "kerberosservicename", "kerberoshostname"}
    ensures var r := ApplyOther(info, name, val);
      key in r && r[key] == info[key]
  {
  }

  /** `port` and `user` are none of the keys the ladder writes under a fixed name. */
  lemma FixedKeysDiffer(key: string)
    requires key in {"port", "user"}
    ensures key !in {"host", "password", "backup_server_node", "kerberos_service_name", "kerberos_host_name"}
  {
  }

  /** No single line without `vp_test_` in its name writes the `session_label` key. */
  lemma LabelUntouched(info: Info, name: string, val: string, env: bool, vars: map<string, string>)
    requires "session_label" in info && !Contains(name, "vp_test_")
    requires ApplyLowered(info, name, val, env, vars).Success?
    ensures var r := ApplyLowered(info, name, val, env, vars).value;
      "session_label" in r && r["session_label"] == info["session_label"]
  {
    if (IsCredential(name) && env) || name in {"servername", "server"} || name == "uid"
       || (name in {"port", "connection_timeout"} && IsDigits(val)) || name == "pwd" {
      EarlyKeepsLabel(info, name, val, env, vars);
    } else {
      ReachesOther(info, name, val, env, vars);
      OtherKeepsLabel(info, name, val);
    }
  }

  /** The keys the first five branches write are not `session_label`. */
  lemma EarlyKeepsLabel(info: Info, name: string, val: string, env: bool, vars: map<string, string>)
    requires "session_label" in info
    requires (IsCredential(name) && env) || name in {"servername", "server"} || name == "uid"
             || (name in {"port", "connection_timeout"} && IsDigits(val)) || name == "pwd"
    requires ApplyLowered(info, name, val, env, vars).Success?
    ensures var r := ApplyLowered(info, name, val, env, vars).value;
      "session_label" in r && r["session_label"] == info["session_label"]
  {
    if IsCredential(name) && env {
      assert CredentialKey(name) in {"password", "user"};
    }
  }

  /** A name none of the first five branches takes falls through to the rest of the ladder. */
  lemma ReachesOther(info: Info, name: string, val: string, env: bool, vars: map<string, string>)
    requires !(IsCredential(name) && env)
    requires !(name in {"servername", "server"} || name == "uid"
               || (name in {"port", "connection_timeout"} && IsDigits(val)) || name == "pwd")
    ensures ApplyLowered(info, name, val, env, vars) == Success(ApplyOther(info, name, val))
  {
  }

  /** The later branches never write `session_label` either. */
  lemma OtherKeepsLabel(info: Info, name: string, val: string)
    requires "session_label" in info && !Contains(name, "vp_test_")
    ensures var r := ApplyOther(info, name, val);
      "session_label" in r && r["session_label"] == info["session_label"]
  {
    if name in {"backup_server_node", "kerberosservicename", "kerberoshostname"} {
      RenamedKeepLabel(info, name, val);
    } else if IsBoolOption(name) {
      FlagKeepsLabel(info, name, val);
    } else {
      PlainKeepsLabel(info, name, val);
    }
  }

  /** The backup node and Kerberos keys are not `session_label`. */
  lemma RenamedKeepLabel(info: Info, name: string, val: string)
    requires "session_label" in info
    requires name in {"backup_server_node", "kerberosservicename", "kerberoshostname"}
    ensures var r := ApplyOther(info, name, val);
      "session_label" in r && r["session_label"] == info["session_label"]
  {
  }

  /** No flag option is named `session_label`. */
  lemma FlagKeepsLabel(info: Info, name: string, val: string)
    requires "session_label" in info && !Contains(name, "vp_test_")
    requires name !in {"backup_server_node", "kerberosservicename", "kerberoshostname"} && IsBoolOption(name)
    ensures var r := ApplyOther(info, name, val);
      "session_label" in r && r["session_label"] == info["session_label"]
  {
  }

  /** The catch-all branch skips a `session_label` option. */
  lemma PlainKeepsLabel(info: Info, name: string, val: string)
    requires "session_label" in info && !Contains(name, "vp_test_")
    requires name !in {"backup_server_node", "kerberosservicename", "kerberoshostname"} && !IsBoolOption(name)
    ensures var r := ApplyOther(info, name, val);
      "session_label" in r && r["session_label"] == info["session_label"]
  {
  }

  // ---------------------------------------------------------------------------
  // How each kind of (lower-cased) option line is stored

  /** A name without a `v` cannot contain `vp_test_`. */
  lemma NoTestMarker(name: string)
    requires 'v' !in name
    ensures !Contains(name, "vp_test_")
  {
    if Contains(name, "vp_test_") { ContainsChars(name, "vp_test_", 'v'); }
  }

  /** None of the flag option names contains `vp_test_`. */
  lemma FlagNamesUnmarked(name: string)
    requires IsBoolOption(name)
    ensures !Contains(name, "vp_test_")
  {
    if name == "ssl" { NoTestMarker("ssl"); }
    else if name == "autocommit" { NoTestMarker("autocommit"); }
    else if name == "use_prepared_statements" { NoTestMarker("use_prepared_statements"); }
    else if name == "connection_load_balance" { NoTestMarker("connection_load_balance"); }
    else { NoTestMarker("disable_copy_local"); }
  }

  /** `port` and `connection_timeout` become integers when all digits, else stay strings. */
  lemma NumericOptions(info: Info, name: string, val: string, env: bool, vars: map<string, string>)
    requires name in {"port", "connection_timeout"}
    ensures IsDigits(val) ==> ApplyLowered(info, name, val, env, vars) == Success(info[name := Int(DigitsValue(val))])
    ensures !IsDigits(val) ==> ApplyLowered(info, name, val, env, vars) == Success(info[name := Str(val)])
  {
    NumericNamesUnlisted(name);
    if !IsDigits(val) {
      ReachesOther(info, name, val, env, vars);
      OtherPlain(info, name, val);
    }
  }

  /** `port` and `connection_timeout` are reached by no other branch of the ladder. */
  lemma NumericNamesUnlisted(name: string)
    requires name in {"port", "connection_timeout"}
    ensures !IsCredential(name) && name !in {"servername", "server"} && name != "uid" && name != "pwd"
    ensures name !in {"backup_server_node", "kerberosservicename", "kerberoshostname"}
    ensures !Contains(name, "vp_test_") && !IsBoolOption(name)
    ensures name != "session_label" && !StartsWith(name, "env")
  {
    if name == "port" {
      NoTestMarker("port");
      NotStartsWith("port", "env", 0);
    } else {
      TimeoutUnlisted();
    }
  }

  /** `connection_timeout` is reached by no other branch of the ladder. */
  lemma TimeoutUnlisted()
    ensures var name := "connection_timeout";
      && !Contains(name, "vp_test_") && !StartsWith(name, "env")
      && !IsBoolOption(name) && !IsCredential(name)
  {
    TimeoutUnmarked();
    TimeoutNoFlag();
  }

  /** `connection_timeout` neither carries `vp_test_` nor starts with `env`. */
  lemma TimeoutUnmarked()
    ensures !Contains("connection_timeout", "vp_test_") && !StartsWith("connection_timeout", "env")
  {
    NoTestMarker("connection_timeout");
    NotStartsWith("connection_timeout", "env", 0);
  }

  /** `connection_timeout` is neither a flag nor a credential option. */
  lemma TimeoutNoFlag()
    ensures !IsBoolOption("connection_timeout") && !IsCredential("connection_timeout")
  {
  }

  /** A name none of the later branches takes is stored as given. */
  lemma OtherPlain(info: Info, name: string, val: string)
    requires name !in {"backup_server_node", "kerberosservicename", "kerberoshostname"}
    requires !Contains(name, "vp_test_") && !IsBoolOption(name)
    requires name != "session_label" && !StartsWith(name, "env")
    ensures ApplyOther(info, name, val) == info[name := Str(val)]
  {
  }

  /** The five flag options store whether the value, lower-cased, spells true. */
  lemma FlagOptions(info: Info, name: string, val: string, env: bool, vars: map<string, string>)
    requires IsBoolOption(name)
    ensures ApplyLowered(info, name, val, env, vars) == Success(info[name := Bool(Truthy(Lower(val)))])
  {
    assert !IsCredential(name);
    assert name !in {"servername", "server"};
    assert name != "uid";
    assert name !in {"port", "connection_timeout"};
    assert name != "pwd";
    assert name != "backup_server_node" && name != "kerberosservicename" && name != "kerberoshostname";
    FlagNamesUnmarked(name);
  }

  /** A `vp_test_<key>` option stores its value, as a string, under `<key>`. */
  lemma TestOptions(info: Info, key: string, val: string, env: bool, vars: map<string, string>)
    ensures ApplyLowered(info, "vp_test_" + key, val, env, vars) == Success(info[key := Str(val)])
  {
    var l := "vp_test_" + key;
    assert l[0] == 'v';
    assert !IsCredential(l);
    assert l !in {"servername", "server"} && l != "uid";
    assert l !in {"port", "connection_timeout"} && l != "pwd";
    assert l != "backup_server_node" && l != "kerberosservicename" && l != "kerberoshostname";
    assert Contains(l, "vp_test_") by { assert l[..8] == "vp_test_"; }
    assert Drop(l, 8) == key;
  }

  /** `env...` options and a `session_label` option never reach the dictionary when the name carries no `vp_test_` marker. */
  lemma SkippedOptions(info: Info, name: string, val: string, env: bool, vars: map<string, string>)
    requires StartsWith(name, "env") || name == "session_label"
    requires !Contains(name, "vp_test_")
    ensures ApplyLowered(info, name, val, env, vars) == Success(info)
  {
    if StartsWith(name, "env") {
      EnvNamesUnlisted(name);
    } else {
      SessionLabelUnlisted();
    }
    ReachesOther(info, name, val, env, vars);
    OtherSkips(info, name, val);
  }

  /** No name of the ladder starts with `env`. */
  lemma EnvNamesUnlisted(name: string)
    requires StartsWith(name, "env")
    ensures !IsCredential(name) && name !in {"servername", "server"} && name != "uid"
    ensures name !in {"port", "connection_timeout"} && name != "pwd"
    ensures name !in {"backup_server_node", "kerberosservicename", "kerberoshostname"} && !IsBoolOption(name)
  {
    assert name[0] == name[..3][0];
  }

  /** `session_label` is none of the names the ladder handles. */
  lemma SessionLabelUnlisted()
    ensures var name := "session_label";
      && !IsCredential(name) && name !in {"servername", "server"} && name != "uid"
      && name !in {"port", "connection_timeout"} && name != "pwd"
      && name !in {"backup_server_node", "kerberosservicename", "kerberoshostname"} && !IsBoolOption(name)
  {
  }

  /** The catch-all branch drops `session_label` and `env...` names. */
  lemma OtherSkips(info: Info, name: string, val: string)
    requires name !in {"backup_server_node", "kerberosservicename", "kerberoshostname"}
    requires !Contains(name, "vp_test_") && !IsBoolOption(name)
    requires name == "session_label" || StartsWith(name, "env")
    ensures ApplyOther(info, name, val) == info
  {
  }

  /**
   * Renamed options: `servername`/`server` go to `host`, the Kerberos names to
   * their snake-case keys, and without the `env` flag `uid` to `user` and `pwd`
   * to `password`.  With the flag, a credential option stores the named
   * environment variable's value, or fails when it is unset.
   */
  lemma RenamedOptions(info: Info, name: string, val: string, env: bool, vars: map<string, string>)
    ensures name in {"servername", "server"} ==> ApplyLowered(info, name, val, env, vars) == Success(info["host" := Str(val)])
    ensures name == "kerberosservicename" ==>
      ApplyLowered(info, name, val, env, vars) == Success(info["kerberos_service_name" := Str(val)])
    ensures name == "kerberoshostname" ==>
      ApplyLowered(info, name, val, env, vars) == Success(info["kerberos_host_name" := Str(val)])
    ensures !env && name == "uid" ==> ApplyLowered(info, name, val, env, vars) == Success(info["user" := Str(val)])
    ensures !env && name == "pwd" ==> ApplyLowered(info, name, val, env, vars) == Success(info["password" := Str(val)])
    ensures env && IsCredential(name) ==>
      ApplyLowered(info, name, val, env, vars)
        == if val in vars then Success(info[CredentialKey(name) := Str(vars[val])])
           else Failure(MissingEnvVariable(CredentialKey(name), val))
  {
  }
}
