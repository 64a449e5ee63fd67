/**
 * The process environment as setup.py sees it: `os.getenv`, Python
 * truthiness of the strings it returns, the exceptions the build step
 * raises, the vcpkg validator and the module-level `default_lib_dir`.
 */
module Environment {
  import opened Wrappers

  /**
   * `os.environ`: variable name to value. On Windows `os.environ` stores
   * every name upper-cased (see `EnvKey`), so the map holds the names in
   * that form there.
   */
  type Env = map<string, string>

  /** ASCII upper-casing of one character. */
  function UpperChar(c: char): char
  {
    if 'a' <= c <= 'z' then (c as int - 32) as char else c
  }

  /**
   * The name under which `os.environ[name] = value` stores a variable:
   * upper-cased on Windows, where environment names are case-insensitive,
   * and unchanged elsewhere.
   */
  function EnvKey(system: string, name: string): (r: string)
    ensures |r| == |name|
    ensures system != "Windows" ==> r == name
    ensures system == "Windows" ==> forall i :: 0 <= i < |name| ==> r[i] == UpperChar(name[i])
  {
    if system == "Windows" then seq(|name|, i requires 0 <= i < |name| => UpperChar(name[i])) else name
  }

  /** The exceptions that reach the packaging tool. */
  datatype Error =
      /** `EnvironmentError` naming the vcpkg variable that is unset or empty. */
    | EnvironmentError(variable: string)
      /** `RuntimeError`: the configure step left `CMakeError.log` behind. */
    | RuntimeError
      /** `TypeError` from `os.path.join(None, ".local")` when `HOME` is unset. */
    | TypeError
      /** An `OSError` from `open` other than `FileNotFoundError`, which nothing catches. */
    | OpenError

  /** `os.getenv(name)`. */
  function Getenv(env: Env, name: string): Option<string>
  {
    if name in env then Some(env[name]) else None
  }

  /** Python truthiness of an optional string: neither `None` nor `""`. */
  predicate Truthy(v: Option<string>)
  {
    v.Some? && v.value != ""
  }

  /** `bool(os.getenv(name))`. */
  predicate IsSet(env: Env, name: string)
  {
    Truthy(Getenv(env, name))
  }

  /** The variables `set_vcpkg_environment_variables` checks, in the order it checks them. */
  const VcpkgVariables: seq<string> := ["VCPKG_ROOT_DIR", "VCPKG_DEFAULT_TRIPLET", "VCPKG_FEATURE_FLAGS"]

  /**
   * `set_vcpkg_environment_variables`: fails naming the first of the three
   * variables that is unset or empty, otherwise returns their values in order.
   */
  function SetVcpkgEnvironmentVariables(env: Env): (r: Result<(string, string, string), Error>)
    ensures r.Success? <==> forall i :: 0 <= i < |VcpkgVariables| ==> IsSet(env, VcpkgVariables[i])
    ensures r.Success? ==>
      r.value == (env[VcpkgVariables[0]], env[VcpkgVariables[1]], env[VcpkgVariables[2]])
    ensures r.Failure? ==>
      exists i :: 0 <= i < |VcpkgVariables| && r.error == EnvironmentError(VcpkgVariables[i])
        && !IsSet(env, VcpkgVariables[i])
        && forall j :: 0 <= j < i ==> IsSet(env, VcpkgVariables[j])
  {
    var root, triplet, flags := VcpkgVariables[0], VcpkgVariables[1], VcpkgVariables[2];
    if !IsSet(env, root) then
      Failure(EnvironmentError(root))
    else if !IsSet(env, triplet) then
      Failure(EnvironmentError(triplet))
    else if !IsSet(env, flags) then
      Failure(EnvironmentError(flags))
    else
      Success((env[root], env[triplet], env[flags]))
  }

  /** True when `s` ends with `suffix`. */
  predicate EndsWith(s: string, suffix: string)
  {
    |suffix| <= |s| && s[|s| - |suffix|..] == suffix
  }

  /** `posixpath.join(a, b)` for two arguments. */
  function PosixJoin(a: string, b: string): (r: string)
    ensures EndsWith(r, b)
    ensures b != [] && b[0] != '/' && a != [] && a[|a| - 1] != '/' ==> r == a + "/" + b
    ensures (b == [] || b[0] != '/') && (a == [] || a[|a| - 1] == '/') ==> r == a + b
    ensures b == [] || b[0] != '/' ==> a <= r
    ensures b != [] && b[0] == '/' ==> r == b
  {
    if b != [] && b[0] == '/' then b
    else if a == [] || a[|a| - 1] == '/' then
      assert (a + b)[..|a|] == a;
      a + b
    else
      assert (a + "/" + b)[..|a|] == a;
      a + "/" + b
  }

  /**
   * `default_lib_dir`: `""` on Windows, `$HOME/.local` elsewhere; joining an
   * unset `HOME` raises `TypeError` when setup.py is imported.
   */
  function DefaultLibDir(system: string, env: Env): (r: Result<string, Error>)
    ensures system == "Windows" ==> r == Success("")
    ensures system != "Windows" ==> (r.Success? <==> "HOME" in env)
    ensures system != "Windows" && r.Success? ==> r.value != "" && EndsWith(r.value, ".local")
    ensures system != "Windows" && r.Success? ==> env["HOME"] <= r.value
    ensures system != "Windows" && "HOME" in env ==>
      var home := env["HOME"];
      r == Success(if home == [] || home[|home| - 1] == '/' then home + ".local" else home + "/.local")
    ensures r.Failure? ==> r.error == TypeError
  {
    if system == "Windows" then Success("")
    else if "HOME" !in env then Failure(TypeError)
    else
      assert ".local"[0] == '.';
      assert env["HOME"] + "/" + ".local" == env["HOME"] + "/.local";
      Success(PosixJoin(env["HOME"], ".local"))
  }
}
