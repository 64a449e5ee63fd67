/**
 * The build step of the `build_ext` command (`CMakeBuild.run` and
 * `CMakeBuild.move_output`) as functions from one host state to the next.
 * The `CMakeBuild` class in module BuildExt performs these steps on a
 * mutable host and is proved to match them; the lemmas here state the
 * ordering and gating properties of the step.
 */
module BuildSteps {
  import opened Wrappers
  import opened Environment
  import opened Paths
  import opened HostModel

  /** The file CMake writes into the build directory when configuring fails. */
  const ErrorLogName: string := "CMakeError.log"
  /** Overrides the CMake build type. */
  const BuildTypeVariable: string := "PYBAMM_CPP_BUILD_TYPE"
  /** Turns on the vcpkg integration. */
  const UseVcpkgVariable: string := "PYBAMM_USE_VCPKG"

  /** What the running interpreter offers the build step besides the host state. */
  datatype Platform = Platform(
    /** `platform.system()` */
    system: string,
    /** `sys.executable` */
    executable: string,
    /** `os.path.dirname(__file__)` of setup.py */
    setupDir: string,
    lib: PathLib)

  /** The fields of a finalized `CMakeBuild` command that `run` reads. */
  datatype BuildExtOptions = BuildExtOptions(
    /** names of `self.extensions`, in order */
    extensions: seq<string>,
    buildTemp: string,
    suitesparseRoot: Option<string>,
    sundialsRoot: Option<string>)

  /** What the external CMake does: the paths its configure and build steps create. */
  datatype CMakeOutcome = CMakeOutcome(configureWrites: set<string>, buildWrites: set<string>)

  /** How `run` ends: it returns, or it raises. */
  datatype Status = Done | Failed(error: Error)

  // ---------------------------------------------------------------- cmake_args

  /** The `-D<name>=` prefix of a CMake cache definition. */
  function FlagPrefix(name: string): string
  {
    "-D" + name + "="
  }

  function Flag(name: string, value: string): string
  {
    FlagPrefix(name) + value
  }

  /** `os.getenv("PYBAMM_CPP_BUILD_TYPE", "RELEASE")`: a variable set to `""` stays `""`. */
  function BuildType(env: Env): (r: string)
    ensures BuildTypeVariable in env ==> r == env[BuildTypeVariable]
    ensures BuildTypeVariable !in env ==> r == "RELEASE"
  {
    if BuildTypeVariable in env then env[BuildTypeVariable] else "RELEASE"
  }

  /**
   * `cmake_args` as `run` builds it: three fixed definitions, then the
   * SuiteSparse root and the SUNDIALS root, each only when it is truthy.
   */
  function CMakeArgs(env: Env, system: string, executable: string,
                     suitesparseRoot: Option<string>, sundialsRoot: Option<string>,
                     abspath: string -> string): (r: seq<string>)
    ensures |r| == 3 + (if Truthy(suitesparseRoot) then 1 else 0) + (if Truthy(sundialsRoot) then 1 else 0)
    ensures 3 <= |r| <= 5
    ensures r[..3] == [Flag("CMAKE_BUILD_TYPE", BuildType(env)),
                       Flag("PYTHON_EXECUTABLE", executable),
                       Flag("USE_PYTHON_CASADI", if system == "Windows" then "FALSE" else "TRUE")]
    ensures Truthy(suitesparseRoot) ==> r[3] == Flag("SuiteSparse_ROOT", abspath(suitesparseRoot.value))
    ensures Truthy(sundialsRoot) ==> r[|r| - 1] == Flag("SUNDIALS_ROOT", abspath(sundialsRoot.value))
  {
    var fixed := [Flag("CMAKE_BUILD_TYPE", BuildType(env)),
                  Flag("PYTHON_EXECUTABLE", executable),
                  Flag("USE_PYTHON_CASADI", if system == "Windows" then "FALSE" else "TRUE")];
    var withSuiteSparse :=
      if Truthy(suitesparseRoot) then fixed + [Flag("SuiteSparse_ROOT", abspath(suitesparseRoot.value))] else fixed;
    if Truthy(sundialsRoot) then withSuiteSparse + [Flag("SUNDIALS_ROOT", abspath(sundialsRoot.value))]
    else withSuiteSparse
  }

  /** What CMake reads for `name` from a definition list: the first `-D<name>=` entry. */
  function FlagValue(args: seq<string>, name: string): Option<string>
  {
    if args == [] then None
    else if FlagPrefix(name) <= args[0] then Some(args[0][|FlagPrefix(name)|..])
    else FlagValue(args[1..], name)
  }

  /** A name whose prefix differs from `n`'s before either ends never matches a definition of `n`. */
  lemma {:induction false} FlagValueMiss(n: string, m: string, v: string, k: nat)
    requires k < |m| && k < |n| && m[k] != n[k]
    ensures FlagValue([Flag(n, v)], m) == None
  {
    assert FlagPrefix(m)[k + 2] == m[k];
    assert Flag(n, v)[k + 2] == n[k];
    assert [Flag(n, v)][1..] == [];
  }

  lemma {:induction false} FlagValueHit(n: string, v: string)
    ensures FlagValue([Flag(n, v)], n) == Some(v)
  {
    assert [Flag(n, v)][0] == FlagPrefix(n) + v;
  }

  /** The first definition wins: reading `pre + post` looks in `pre` first. */
  lemma {:induction false} FlagValueConcat(pre: seq<string>, post: seq<string>, n: string)
    ensures FlagValue(pre + post, n)
         == if FlagValue(pre, n).Some? then FlagValue(pre, n) else FlagValue(post, n)
    decreases |pre|
  {
    if pre == [] {
      assert pre + post == post;
    } else {
      assert (pre + post)[0] == pre[0];
      assert (pre + post)[1..] == pre[1..] + post;
      FlagValueConcat(pre[1..], post, n);
    }
  }

  /** The definitions of `cmake_args`, split at the optional ones. */
  lemma CMakeArgsShape(env: Env, system: string, executable: string,
                       suitesparseRoot: Option<string>, sundialsRoot: Option<string>,
                       abspath: string -> string)
    ensures CMakeArgs(env, system, executable, suitesparseRoot, sundialsRoot, abspath)
         == [Flag("CMAKE_BUILD_TYPE", BuildType(env))]
          + [Flag("PYTHON_EXECUTABLE", executable)]
          + [Flag("USE_PYTHON_CASADI", if system == "Windows" then "FALSE" else "TRUE")]
          + (if Truthy(suitesparseRoot) then [Flag("SuiteSparse_ROOT", abspath(suitesparseRoot.value))] else [])
          + (if Truthy(sundialsRoot) then [Flag("SUNDIALS_ROOT", abspath(sundialsRoot.value))] else [])
  {
  }

  /** Reads `name` from the five pieces of `cmake_args`. */
  lemma {:induction false} ReadPieces(a: seq<string>, b: seq<string>, c: seq<string>, d: seq<string>, e: seq<string>, name: string)
    ensures FlagValue(a + b + c + d + e, name)
         == if FlagValue(a, name).Some? then FlagValue(a, name)
            else if FlagValue(b, name).Some? then FlagValue(b, name)
            else if FlagValue(c, name).Some? then FlagValue(c, name)
            else if FlagValue(d, name).Some? then FlagValue(d, name)
            else FlagValue(e, name)
  {
    FlagValueConcat(a + b + c + d, e, name);
    FlagValueConcat(a + b + c, d, name);
    FlagValueConcat(a + b, c, name);
    FlagValueConcat(a, b, name);
  }

  /** The names `cmake_args` defines, in order. */
  const DefinedNames: seq<string> :=
    ["CMAKE_BUILD_TYPE", "PYTHON_EXECUTABLE", "USE_PYTHON_CASADI", "SuiteSparse_ROOT", "SUNDIALS_ROOT"]

  /** The five pieces of `cmake_args`: one per defined name, the optional ones possibly empty. */
  function Pieces(env: Env, system: string, executable: string,
                  suitesparseRoot: Option<string>, sundialsRoot: Option<string>,
                  abspath: string -> string): seq<seq<string>>
  {
    [[Flag(DefinedNames[0], BuildType(env))],
     [Flag(DefinedNames[1], executable)],
     [Flag(DefinedNames[2], if system == "Windows" then "FALSE" else "TRUE")],
     if Truthy(suitesparseRoot) then [Flag(DefinedNames[3], abspath(suitesparseRoot.value))] else [],
     if Truthy(sundialsRoot) then [Flag(DefinedNames[4], abspath(sundialsRoot.value))] else []]
  }

  /** Piece `j` defines nothing but `DefinedNames[j]`. */
  lemma {:induction false} PieceMiss(ps: seq<seq<string>>, env: Env, system: string, executable: string,
                                    suitesparseRoot: Option<string>, sundialsRoot: Option<string>,
                                    abspath: string -> string, i: nat, j: nat)
    requires ps == Pieces(env, system, executable, suitesparseRoot, sundialsRoot, abspath)
    requires i < 5 && j < 5 && i != j
    ensures FlagValue(ps[j], DefinedNames[i]) == None
  {
    var k := if {i, j} == {3, 4} then 1 else 0;
    if ps[j] != [] {
      var v := ps[j][0][|FlagPrefix(DefinedNames[j])|..];
      assert ps[j] == [Flag(DefinedNames[j], v)];
      FlagValueMiss(DefinedNames[j], DefinedNames[i], v, k);
    }
  }

  /** Reading name `i` finds it in piece `i` or nowhere. */
  lemma {:induction false} ReadBackAt(env: Env, system: string, executable: string,
                                     suitesparseRoot: Option<string>, sundialsRoot: Option<string>,
                                     abspath: string -> string, i: nat)
    requires i < 5
    ensures var ps := Pieces(env, system, executable, suitesparseRoot, sundialsRoot, abspath);
      FlagValue(CMakeArgs(env, system, executable, suitesparseRoot, sundialsRoot, abspath), DefinedNames[i])
      == FlagValue(ps[i], DefinedNames[i])
  {
    var ps := Pieces(env, system, executable, suitesparseRoot, sundialsRoot, abspath);
    CMakeArgsShape(env, system, executable, suitesparseRoot, sundialsRoot, abspath);
    assert CMakeArgs(env, system, executable, suitesparseRoot, sundialsRoot, abspath)
        == ps[0] + ps[1] + ps[2] + ps[3] + ps[4];
    ReadPieces(ps[0], ps[1], ps[2], ps[3], ps[4], DefinedNames[i]);
    forall j | 0 <= j < 5 && j != i
      ensures FlagValue(ps[j], DefinedNames[i]) == None
    {
      PieceMiss(ps, env, system, executable, suitesparseRoot, sundialsRoot, abspath, i, j);
    }
  }

  /**
   * Reading the definitions back gives every option `run` resolved: the
   * build type, the interpreter, the CasADi switch, and each library root
   * exactly when it is truthy.
   */
  lemma {:induction false} CMakeArgsReadBack(env: Env, system: string, executable: string,
                                            suitesparseRoot: Option<string>, sundialsRoot: Option<string>,
                                            abspath: string -> string)
    ensures var args := CMakeArgs(env, system, executable, suitesparseRoot, sundialsRoot, abspath);
      && FlagValue(args, DefinedNames[0]) == Some(BuildType(env))
      && FlagValue(args, DefinedNames[1]) == Some(executable)
      && FlagValue(args, DefinedNames[2]) == Some(if system == "Windows" then "FALSE" else "TRUE")
      && FlagValue(args, DefinedNames[3])
         == (if Truthy(suitesparseRoot) then Some(abspath(suitesparseRoot.value)) else None)
      && FlagValue(args, DefinedNames[4])
         == (if Truthy(sundialsRoot) then Some(abspath(sundialsRoot.value)) else None)
  {
    ReadBackAt(env, system, executable, suitesparseRoot, sundialsRoot, abspath, 0);
    ReadBackAt(env, system, executable, suitesparseRoot, sundialsRoot, abspath, 1);
    ReadBackAt(env, system, executable, suitesparseRoot, sundialsRoot, abspath, 2);
    ReadBackAt(env, system, executable, suitesparseRoot, sundialsRoot, abspath, 3);
    ReadBackAt(env, system, executable, suitesparseRoot, sundialsRoot, abspath, 4);
    FlagValueHit(DefinedNames[0], BuildType(env));
    FlagValueHit(DefinedNames[1], executable);
    FlagValueHit(DefinedNames[2], if system == "Windows" then "FALSE" else "TRUE");
    if Truthy(suitesparseRoot) {
      FlagValueHit(DefinedNames[3], abspath(suitesparseRoot.value));
    }
    if Truthy(sundialsRoot) {
      FlagValueHit(DefinedNames[4], abspath(sundialsRoot.value));
    }
  }

  // ---------------------------------------------------------------- build directory

  /**
   * `get_build_directory`: `build_temp` itself, except on Windows, where
   * the build tooling appends a configuration directory to it and its
   * parent is used instead.
   */
  function BuildDirectory(buildTemp: string, p: Platform): (r: string)
    ensures p.system == "Windows" ==> r == p.lib.parent(buildTemp)
    ensures p.system != "Windows" ==> r == buildTemp
  {
    if p.system == "Windows" then p.lib.parent(buildTemp) else buildTemp
  }

  /** `os.path.join(build_dir, "CMakeError.log")` */
  function ErrorLogPath(dir: string, lib: PathLib): string
  {
    lib.join(dir, ErrorLogName)
  }

  /**
   * The part of `run` before configuring: create the build directory if it
   * is absent, then remove a `CMakeError.log` left by an earlier attempt.
   */
  function Prepare(st: HostState, dir: string, lib: PathLib): (r: HostState)
    ensures ErrorLogPath(dir, lib) !in r.paths
    ensures ErrorLogPath(dir, lib) != dir ==> dir in r.paths
    ensures r.paths == st.paths + {dir} - {ErrorLogPath(dir, lib)}
    ensures r.env == st.env
    ensures r.log == st.log
      + (if dir in st.paths then [] else [MadeDir(dir)])
      + (if ErrorLogPath(dir, lib) in st.paths + {dir} then [Removed(ErrorLogPath(dir, lib))] else [])
  {
    var made := if dir in st.paths then st else st.Makedirs(dir);
    if ErrorLogPath(dir, lib) in made.paths then made.Remove(ErrorLogPath(dir, lib)) else made
  }

  // ---------------------------------------------------------------- vcpkg

  /** The names `run` assigns the vcpkg settings to in `build_env`, in order. */
  const VcpkgKeys: seq<string> := ["vcpkg_root_dir", "vcpkg_default_triplet", "vcpkg_feature_flags"]

  /**
   * The environment after `build_env[key] = value` for the three settings:
   * `os.environ` stores each name through `EnvKey`.
   */
  function WithVcpkgSettings(system: string, env: Env, values: (string, string, string)): Env
  {
    env[EnvKey(system, VcpkgKeys[0]) := values.0]
       [EnvKey(system, VcpkgKeys[1]) := values.1]
       [EnvKey(system, VcpkgKeys[2]) := values.2]
  }

  /**
   * When `PYBAMM_USE_VCPKG` is truthy, validate the vcpkg variables and
   * copy them into the process environment itself.
   */
  function InjectVcpkg(system: string, st: HostState): (r: Result<HostState, Error>)
    ensures !IsSet(st.env, UseVcpkgVariable) ==> r == Success(st)
    ensures IsSet(st.env, UseVcpkgVariable) ==>
      match SetVcpkgEnvironmentVariables(st.env)
      case Failure(e) => r == Failure(e)
      case Success(values) =>
        r.Success? && r.value.paths == st.paths && r.value.log == st.log
        && r.value.env == WithVcpkgSettings(system, st.env, values)
  {
    if !IsSet(st.env, UseVcpkgVariable) then Success(st)
    else match SetVcpkgEnvironmentVariables(st.env)
      case Failure(e) => Failure(e)
      case Success(values) =>
        Success(st.Setenv(EnvKey(system, VcpkgKeys[0]), values.0)
                  .Setenv(EnvKey(system, VcpkgKeys[1]), values.1)
                  .Setenv(EnvKey(system, VcpkgKeys[2]), values.2))
  }

  /** On Windows the lower-case names denote the validated variables themselves. */
  lemma WindowsVcpkgKeys()
    ensures forall k :: 0 <= k < |VcpkgKeys| ==> EnvKey("Windows", VcpkgKeys[k]) == VcpkgVariables[k]
  {
    assert EnvKey("Windows", VcpkgKeys[0]) == VcpkgVariables[0];
    assert EnvKey("Windows", VcpkgKeys[1]) == VcpkgVariables[1];
    assert EnvKey("Windows", VcpkgKeys[2]) == VcpkgVariables[2];
  }

  /**
   * Where the vcpkg settings go: elsewhere than on Windows, under three
   * lower-case names beside the validated variables; on Windows onto the
   * validated variables themselves, with their own values, so the
   * environment is unchanged.
   */
  lemma {:induction false} VcpkgSettingsTargets(system: string, st: HostState)
    requires IsSet(st.env, UseVcpkgVariable)
    requires InjectVcpkg(system, st).Success?
    ensures var env := InjectVcpkg(system, st).value.env;
      && (system == "Windows" ==> env == st.env)
      && (system != "Windows" ==>
            forall k :: 0 <= k < |VcpkgKeys| ==> VcpkgKeys[k] in env && env[VcpkgKeys[k]] == st.env[VcpkgVariables[k]])
  {
    var values := SetVcpkgEnvironmentVariables(st.env).value;
    if system == "Windows" {
      WindowsVcpkgKeys();
      var e0 := st.env[VcpkgVariables[0] := values.0];
      assert e0 == st.env;
      var e1 := e0[VcpkgVariables[1] := values.1];
      assert e1 == st.env;
      assert e1[VcpkgVariables[2] := values.2] == st.env;
    } else {
      assert VcpkgKeys[0] != VcpkgKeys[1] && VcpkgKeys[0] != VcpkgKeys[2] && VcpkgKeys[1] != VcpkgKeys[2];
    }
  }

  // ---------------------------------------------------------------- configure and build

  /** `["cmake", cmake_list_dir] + cmake_args` */
  function ConfigureArgv(p: Platform, args: seq<string>): seq<string>
  {
    ["cmake", p.lib.abspath(p.setupDir)] + args
  }

  const BuildArgv: seq<string> := ["cmake", "--build", ".", "--config", "Release"]

  // ---------------------------------------------------------------- move_output

  /** `Path(self.build_temp).resolve() / os.path.basename(self.get_ext_filename(name))` */
  function SourcePath(buildTemp: string, lib: PathLib, name: string): string
  {
    lib.join(lib.resolve(buildTemp), lib.basename(lib.extFilename(name)))
  }

  /** `Path(self.get_ext_fullpath(name)).resolve()` */
  function DestPath(lib: PathLib, name: string): string
  {
    lib.resolve(lib.extFullpath(name))
  }

  /** `move_output`: create the destination's parent directory, then copy the module there. */
  function MoveOutput(st: HostState, buildTemp: string, lib: PathLib, name: string): (r: HostState)
    ensures r.log == st.log + [MadeDir(lib.parent(DestPath(lib, name))), Copied(SourcePath(buildTemp, lib, name), DestPath(lib, name))]
    ensures r.env == st.env
    ensures r.paths == st.paths + {lib.parent(DestPath(lib, name)), DestPath(lib, name)}
  {
    st.Makedirs(lib.parent(DestPath(lib, name))).CopyFile(SourcePath(buildTemp, lib, name), DestPath(lib, name))
  }

  /** The events `move_output` logs for each of `names`, in order. */
  function MoveEvents(buildTemp: string, lib: PathLib, names: seq<string>): seq<Event>
    decreases |names|
  {
    if names == [] then []
    else
      var name := names[|names| - 1];
      MoveEvents(buildTemp, lib, names[..|names| - 1])
        + [MadeDir(lib.parent(DestPath(lib, name))), Copied(SourcePath(buildTemp, lib, name), DestPath(lib, name))]
  }

  /**
   * `move_output` for each of `names`, in order. It only creates
   * directories and copies: it appends exactly `MoveEvents` to the log,
   * keeps the environment, and leaves every destination existing.
   */
  function MoveAll(st: HostState, buildTemp: string, lib: PathLib, names: seq<string>): (r: HostState)
    ensures r.log == st.log + MoveEvents(buildTemp, lib, names)
    ensures r.env == st.env
    ensures st.paths <= r.paths
    ensures forall i :: 0 <= i < |names| ==> DestPath(lib, names[i]) in r.paths
    decreases |names|
  {
    if names == [] then st
    else
      var init := names[..|names| - 1];
      assert forall i :: 0 <= i < |init| ==> names[i] == init[i];
      MoveOutput(MoveAll(st, buildTemp, lib, init), buildTemp, lib, names[|names| - 1])
  }

  /**
   * Extension `i` contributes events `2i` and `2i+1`: the directory creation
   * for its destination, then the copy from under `build_temp` (not the
   * build directory) to that destination.
   */
  lemma {:induction false} MoveEventsAt(buildTemp: string, lib: PathLib, names: seq<string>, i: nat)
    requires i < |names|
    ensures |MoveEvents(buildTemp, lib, names)| == 2 * |names|
    ensures MoveEvents(buildTemp, lib, names)[2 * i] == MadeDir(lib.parent(DestPath(lib, names[i])))
    ensures MoveEvents(buildTemp, lib, names)[2 * i + 1]
         == Copied(SourcePath(buildTemp, lib, names[i]), DestPath(lib, names[i]))
    decreases |names|
  {
    var init := names[..|names| - 1];
    if i < |init| {
      MoveEventsAt(buildTemp, lib, init, i);
    } else if init != [] {
      MoveEventsAt(buildTemp, lib, init, 0);
    } else {
      assert MoveEvents(buildTemp, lib, init) == [];
    }
  }

  // ---------------------------------------------------------------- run

  /** The host state in which the configure step runs, or the vcpkg error raised before it. */
  function BeforeConfigure(o: BuildExtOptions, p: Platform, st: HostState): Result<HostState, Error>
  {
    InjectVcpkg(p.system, Prepare(st, BuildDirectory(o.buildTemp, p), p.lib))
  }

  /** The configure subprocess as it is issued from host state `st`. */
  function ConfigureEvent(o: BuildExtOptions, p: Platform, env0: Env, st: HostState): Event
  {
    var args := CMakeArgs(env0, p.system, p.executable, o.suitesparseRoot, o.sundialsRoot, p.lib.abspath);
    Ran(ConfigureArgv(p, args), BuildDirectory(o.buildTemp, p), st.env)
  }

  /** The configure subprocess, run from `ready` in the build directory; it creates `cmake.configureWrites`. */
  function Configure(o: BuildExtOptions, p: Platform, cmake: CMakeOutcome, env0: Env, ready: HostState): (r: HostState)
    ensures r.log == ready.log + [ConfigureEvent(o, p, env0, ready)]
    ensures r.env == ready.env && r.paths == ready.paths + cmake.configureWrites
  {
    ready.Subprocess(ConfigureEvent(o, p, env0, ready).argv, BuildDirectory(o.buildTemp, p), cmake.configureWrites)
  }

  /** The build subprocess, then `move_output` for every extension. */
  function BuildAndMove(o: BuildExtOptions, p: Platform, cmake: CMakeOutcome, configured: HostState): (r: HostState)
    ensures r.log == configured.log + [Ran(BuildArgv, BuildDirectory(o.buildTemp, p), configured.env)]
                     + MoveEvents(o.buildTemp, p.lib, o.extensions)
    ensures r.env == configured.env
  {
    var built := configured.Subprocess(BuildArgv, BuildDirectory(o.buildTemp, p), cmake.buildWrites);
    MoveAll(built, o.buildTemp, p.lib, o.extensions)
  }

  /**
   * `CMakeBuild.run` from host state `st`, with `cmake` saying what the
   * external tool creates. Exit codes of the two subprocesses are not an
   * input: the code never reads them.
   */
  function Run(o: BuildExtOptions, p: Platform, cmake: CMakeOutcome, st: HostState): (r: (Status, HostState))
    ensures st.log <= r.1.log
    ensures o.extensions == [] ==> r == (Done, st)
  {
    if o.extensions == [] then (Done, st)
    else
      var dir := BuildDirectory(o.buildTemp, p);
      match BeforeConfigure(o, p, st)
      case Failure(e) => (Failed(e), Prepare(st, dir, p.lib))
      case Success(ready) =>
        var configured := Configure(o, p, cmake, st.env, ready);
        if ErrorLogPath(dir, p.lib) in configured.paths then (Failed(RuntimeError), configured)
        else (Done, BuildAndMove(o, p, cmake, configured))
  }

  /** `run` on a non-empty extension list, stage by stage. */
  lemma RunStages(o: BuildExtOptions, p: Platform, cmake: CMakeOutcome, st: HostState)
    requires o.extensions != []
    ensures BeforeConfigure(o, p, st).Failure? ==>
      && BeforeConfigure(o, p, st).error.EnvironmentError?
      && Run(o, p, cmake, st) == (Failed(BeforeConfigure(o, p, st).error), Prepare(st, BuildDirectory(o.buildTemp, p), p.lib))
    ensures BeforeConfigure(o, p, st).Success? ==>
      var configured := Configure(o, p, cmake, st.env, BeforeConfigure(o, p, st).value);
      Run(o, p, cmake, st)
      == if ErrorLogPath(BuildDirectory(o.buildTemp, p), p.lib) in cmake.configureWrites
         then (Failed(RuntimeError), configured)
         else (Done, BuildAndMove(o, p, cmake, configured))
  {
  }

  // ---------------------------------------------------------------- properties of run

  /** The subprocesses among `events`, in order. */
  function Subprocesses(events: seq<Event>): seq<Event>
    decreases |events|
  {
    if events == [] then []
    else (if events[0].Ran? then [events[0]] else []) + Subprocesses(events[1..])
  }

  /** The copies among `events`, in order. */
  function Copies(events: seq<Event>): seq<Event>
    decreases |events|
  {
    if events == [] then []
    else (if events[0].Copied? then [events[0]] else []) + Copies(events[1..])
  }

  lemma {:induction false} FiltersAppend(a: seq<Event>, b: seq<Event>)
    ensures Subprocesses(a + b) == Subprocesses(a) + Subprocesses(b)
    ensures Copies(a + b) == Copies(a) + Copies(b)
    decreases |a|
  {
    if a == [] {
      assert a + b == b;
    } else {
      assert a + b == [a[0]] + (a[1..] + b);
      assert a == [a[0]] + a[1..];
      FiltersCons(a[0], a[1..] + b);
      FiltersCons(a[0], a[1..]);
      FiltersAppend(a[1..], b);
    }
  }

  lemma FiltersCons(e: Event, rest: seq<Event>)
    ensures Subprocesses([e] + rest) == (if e.Ran? then [e] else []) + Subprocesses(rest)
    ensures Copies([e] + rest) == (if e.Copied? then [e] else []) + Copies(rest)
  {
    assert ([e] + rest)[0] == e && ([e] + rest)[1..] == rest;
  }

  /** Directory creations and removals only: no subprocess, no copy. */
  predicate Housekeeping(events: seq<Event>)
  {
    forall i :: 0 <= i < |events| ==> events[i].MadeDir? || events[i].Removed?
  }

  lemma {:induction false} HousekeepingFiltered(events: seq<Event>)
    requires Housekeeping(events)
    ensures Subprocesses(events) == [] && Copies(events) == []
    decreases |events|
  {
    if events != [] {
      HousekeepingFiltered(events[1..]);
    }
  }

  /** One copy per extension, in list order. */
  function CopiesFor(buildTemp: string, lib: PathLib, names: seq<string>): seq<Event>
  {
    seq(|names|, i requires 0 <= i < |names| => Copied(SourcePath(buildTemp, lib, names[i]), DestPath(lib, names[i])))
  }

  /** `move_output` runs no subprocess and copies each extension once, in order. */
  lemma {:induction false} MoveEventsFiltered(buildTemp: string, lib: PathLib, names: seq<string>)
    ensures Subprocesses(MoveEvents(buildTemp, lib, names)) == []
    ensures Copies(MoveEvents(buildTemp, lib, names)) == CopiesFor(buildTemp, lib, names)
    decreases |names|
  {
    if names != [] {
      var init := names[..|names| - 1];
      var name := names[|names| - 1];
      var copy := Copied(SourcePath(buildTemp, lib, name), DestPath(lib, name));
      var pair := [MadeDir(lib.parent(DestPath(lib, name))), copy];
      MoveEventsFiltered(buildTemp, lib, init);
      FiltersAppend(MoveEvents(buildTemp, lib, init), pair);
      FiltersCons(copy, []);
      FiltersCons(pair[0], [copy]);
      assert pair == [pair[0]] + [copy];
      assert CopiesFor(buildTemp, lib, names) == CopiesFor(buildTemp, lib, init) + [copy];
    }
  }

  /** The preparation only appends directory creations and removals to the log. */
  lemma PrepareHousekeeping(st: HostState, dir: string, lib: PathLib)
    ensures |st.log| <= |Prepare(st, dir, lib).log|
    ensures Prepare(st, dir, lib).log[..|st.log|] == st.log
    ensures Housekeeping(Prepare(st, dir, lib).log[|st.log|..])
  {
  }

  /** The events the preparation logs: no subprocess, no copy. */
  lemma {:induction false} PrepareFiltered(st: HostState, dir: string, lib: PathLib)
    ensures var added := Prepare(st, dir, lib).log[|st.log|..];
      Subprocesses(added) == [] && Copies(added) == []
  {
    PrepareHousekeeping(st, dir, lib);
    HousekeepingFiltered(Prepare(st, dir, lib).log[|st.log|..]);
  }

  /**
   * The configure step runs in a build directory with no `CMakeError.log`,
   * right after the preparation and the vcpkg check, and nothing else has
   * happened since `run` started.
   */
  lemma {:induction false} ConfigureRunsInCleanDirectory(o: BuildExtOptions, p: Platform, cmake: CMakeOutcome, st: HostState)
    requires o.extensions != []
    requires BeforeConfigure(o, p, st).Success?
    ensures var ready := BeforeConfigure(o, p, st).value;
      var dir := BuildDirectory(o.buildTemp, p);
      var after := Run(o, p, cmake, st).1;
      && ErrorLogPath(dir, p.lib) !in ready.paths
      && ready.paths == st.paths + {dir} - {ErrorLogPath(dir, p.lib)}
      && ready.log == Prepare(st, dir, p.lib).log
      && |ready.log| < |after.log|
      && after.log[|ready.log|] == ConfigureEvent(o, p, st.env, ready)
      && Subprocesses(ready.log[|st.log|..]) == []
  {
    var dir := BuildDirectory(o.buildTemp, p);
    PrepareFiltered(st, dir, p.lib);
    var ready := BeforeConfigure(o, p, st).value;
    var configured := ready.Subprocess(ConfigureEvent(o, p, st.env, ready).argv, dir, cmake.configureWrites);
    if ErrorLogPath(dir, p.lib) !in configured.paths {
      var built := configured.Subprocess(BuildArgv, dir, cmake.buildWrites);
      assert Run(o, p, cmake, st).1.log == built.log + MoveEvents(o.buildTemp, p.lib, o.extensions);
    }
  }

  /**
   * Only the configure step's own `CMakeError.log` decides the outcome: a
   * stale one from an earlier attempt was removed, and exit codes play no
   * part.
   */
  lemma {:induction false} ErrorLogDecides(o: BuildExtOptions, p: Platform, cmake: CMakeOutcome, st: HostState)
    requires o.extensions != []
    requires BeforeConfigure(o, p, st).Success?
    ensures Run(o, p, cmake, st).0
         == if ErrorLogPath(BuildDirectory(o.buildTemp, p), p.lib) in cmake.configureWrites
            then Failed(RuntimeError) else Done
  {
  }

  /**
   * When configuring leaves `CMakeError.log`, `run` raises `RuntimeError`
   * after exactly one subprocess (the configure step): no build, no copy.
   */
  lemma {:induction false} FailedConfigureStopsBuild(o: BuildExtOptions, p: Platform, cmake: CMakeOutcome, st: HostState)
    requires Run(o, p, cmake, st).0 == Failed(RuntimeError)
    ensures BeforeConfigure(o, p, st).Success?
    ensures var after := Run(o, p, cmake, st).1;
      var added := after.log[|st.log|..];
      && Subprocesses(added) == [ConfigureEvent(o, p, st.env, BeforeConfigure(o, p, st).value)]
      && Copies(added) == []
      && ErrorLogPath(BuildDirectory(o.buildTemp, p), p.lib) in after.paths
  {
    RunStages(o, p, cmake, st);
    var dir := BuildDirectory(o.buildTemp, p);
    var ready := BeforeConfigure(o, p, st).value;
    PrepareHousekeeping(st, dir, p.lib);
    OneRunAfter(Run(o, p, cmake, st).1.log, st.log, ready.log, ConfigureEvent(o, p, st.env, ready));
  }

  /** After `base`: housekeeping up to `prefix`, then one subprocess. */
  lemma {:induction false} OneRunAfter(log: seq<Event>, base: seq<Event>, prefix: seq<Event>, only: Event)
    requires log == prefix + [only]
    requires |base| <= |prefix| && Housekeeping(prefix[|base|..])
    requires only.Ran?
    ensures Subprocesses(log[|base|..]) == [only]
    ensures Copies(log[|base|..]) == []
  {
    var housekeeping := prefix[|base|..];
    assert log[|base|..] == housekeeping + [only];
    HousekeepingFiltered(housekeeping);
    FiltersAppend(housekeeping, [only]);
    FiltersCons(only, []);
  }

  /** After `base`: housekeeping up to `prefix`, two subprocesses, then subprocess-free events. */
  lemma {:induction false} TwoRunsAfter(log: seq<Event>, base: seq<Event>, prefix: seq<Event>,
                                        first: Event, second: Event, rest: seq<Event>)
    requires log == prefix + [first, second] + rest
    requires |base| <= |prefix| && Housekeeping(prefix[|base|..])
    requires first.Ran? && second.Ran? && Subprocesses(rest) == []
    ensures Subprocesses(log[|base|..]) == [first, second]
    ensures Copies(log[|base|..]) == Copies(rest)
  {
    var housekeeping := prefix[|base|..];
    assert log[|base|..] == housekeeping + [first, second] + rest;
    HousekeepingFiltered(housekeeping);
    FiltersAppend(housekeeping + [first, second], rest);
    FiltersAppend(housekeeping, [first, second]);
    FiltersCons(second, []);
    FiltersCons(first, [second]);
    assert [first, second] == [first] + [second];
  }

  /** The log of a successful `run` on a non-empty extension list, event by event. */
  lemma {:induction false} SuccessfulRunLog(o: BuildExtOptions, p: Platform, cmake: CMakeOutcome, st: HostState)
    requires o.extensions != []
    requires Run(o, p, cmake, st).0 == Done
    ensures BeforeConfigure(o, p, st).Success?
    ensures ErrorLogPath(BuildDirectory(o.buildTemp, p), p.lib) !in cmake.configureWrites
    ensures var ready := BeforeConfigure(o, p, st).value;
      Run(o, p, cmake, st).1.log
      == Prepare(st, BuildDirectory(o.buildTemp, p), p.lib).log
         + [ConfigureEvent(o, p, st.env, ready), Ran(BuildArgv, BuildDirectory(o.buildTemp, p), ready.env)]
         + MoveEvents(o.buildTemp, p.lib, o.extensions)
  {
    RunStages(o, p, cmake, st);
  }

  /**
   * A successful `run` on a non-empty extension list: preparation, then
   * configure, then exactly one build, then one `move_output` per
   * extension in list order; both subprocesses run in the build directory
   * with the process environment as it stands after the vcpkg step.
   */
  lemma {:induction false} SuccessfulRunOrder(o: BuildExtOptions, p: Platform, cmake: CMakeOutcome, st: HostState)
    requires o.extensions != []
    requires Run(o, p, cmake, st).0 == Done
    ensures BeforeConfigure(o, p, st).Success?
    ensures ErrorLogPath(BuildDirectory(o.buildTemp, p), p.lib) !in cmake.configureWrites
    ensures var ready := BeforeConfigure(o, p, st).value;
      var added := Run(o, p, cmake, st).1.log[|st.log|..];
      && Subprocesses(added)
         == [ConfigureEvent(o, p, st.env, ready), Ran(BuildArgv, BuildDirectory(o.buildTemp, p), ready.env)]
      && Copies(added) == CopiesFor(o.buildTemp, p.lib, o.extensions)
  {
    SuccessfulRunLog(o, p, cmake, st);
    var dir := BuildDirectory(o.buildTemp, p);
    var ready := BeforeConfigure(o, p, st).value;
    PrepareHousekeeping(st, dir, p.lib);
    MoveEventsFiltered(o.buildTemp, p.lib, o.extensions);
    TwoRunsAfter(Run(o, p, cmake, st).1.log, st.log, Prepare(st, dir, p.lib).log,
                 ConfigureEvent(o, p, st.env, ready), Ran(BuildArgv, dir, ready.env),
                 MoveEvents(o.buildTemp, p.lib, o.extensions));
  }

  /**
   * With `PYBAMM_USE_VCPKG` truthy and a vcpkg variable unset or empty,
   * `run` raises the validator's `EnvironmentError` after preparing the
   * build directory and before any subprocess.
   */
  lemma {:induction false} VcpkgErrorStopsBeforeConfigure(o: BuildExtOptions, p: Platform, cmake: CMakeOutcome, st: HostState)
    requires o.extensions != []
    requires IsSet(st.env, UseVcpkgVariable)
    requires SetVcpkgEnvironmentVariables(st.env).Failure?
    ensures var after := Run(o, p, cmake, st).1;
      && Run(o, p, cmake, st).0 == Failed(SetVcpkgEnvironmentVariables(st.env).error)
      && Subprocesses(after.log[|st.log|..]) == []
      && Copies(after.log[|st.log|..]) == []
      && after.env == st.env
  {
    PrepareFiltered(st, BuildDirectory(o.buildTemp, p), p.lib);
  }

  /**
   * The vcpkg settings land in the process environment itself: after `run`
   * the environment holds them as `WithVcpkgSettings` says (and nothing
   * else changed), and it is the environment every subprocess receives.
   */
  lemma {:induction false} VcpkgSettingsPersist(o: BuildExtOptions, p: Platform, cmake: CMakeOutcome, st: HostState)
    requires o.extensions != []
    requires BeforeConfigure(o, p, st).Success?
    ensures var after := Run(o, p, cmake, st).1;
      && after.env == (if IsSet(st.env, UseVcpkgVariable)
                       then WithVcpkgSettings(p.system, st.env, SetVcpkgEnvironmentVariables(st.env).value)
                       else st.env)
      && forall e :: e in Subprocesses(after.log[|st.log|..]) ==> e.Ran? && e.env == after.env
  {
    var dir := BuildDirectory(o.buildTemp, p);
    var ready := BeforeConfigure(o, p, st).value;
    if Run(o, p, cmake, st).0 == Done {
      SuccessfulRunOrder(o, p, cmake, st);
      assert Run(o, p, cmake, st).1 == BuildAndMove(o, p, cmake, Configure(o, p, cmake, st.env, ready));
    } else {
      FailedConfigureStopsBuild(o, p, cmake, st);
    }
  }
}
