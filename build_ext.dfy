/**
 * `CMakeBuild`, the `build_ext` command of setup.py: its options, how it
 * finalizes them, and `run` and `move_output` acting on the host. Each
 * method is proved to do exactly what the functions of module BuildSteps
 * describe.
 */
module BuildExt {
  import opened Wrappers
  import opened Environment
  import opened Paths
  import opened HostModel
  import opened Options
  import opened BuildSteps

  /** The root a `CMakeBuild` ends up with, given its own and the calling command's. */
  function FinalizedRoot(own: Option<string>, caller: Option<string>, defaultLibDir: string): string
  {
    Defaulted(SetUndefined(own, caller), defaultLibDir)
  }

  /**
   * The root `run` sees after `finalize_options`, when the calling command
   * (`install` or `bdist_wheel`) was given `callerOwn` and finalized it
   * first: a non-empty own root, else the caller's root when the own one
   * was undefined, else `default_lib_dir`.
   */
  lemma RootAfterFinalize(own: Option<string>, callerOwn: Option<string>, defaultLibDir: string)
    ensures FinalizedRoot(own, Some(Defaulted(callerOwn, defaultLibDir)), defaultLibDir)
         == if Truthy(own) then own.value
            else if own.None? && Truthy(callerOwn) then callerOwn.value
            else defaultLibDir
  {
  }

  /**
   * From the command line to CMake: after `finalize_options` each library
   * root reaches CMake as its absolute path; off Windows a root is always
   * passed (falling back to `$HOME/.local`), on Windows only when some
   * command was given a non-empty root.
   */
  lemma {:induction false} RootsReachCMake(env: Env, system: string, executable: string, abspath: string -> string,
                                          ownSuiteSparse: Option<string>, callerSuiteSparse: Option<string>,
                                          ownSundials: Option<string>, callerSundials: Option<string>)
    requires DefaultLibDir(system, env).Success?
    ensures var d := DefaultLibDir(system, env).value;
      var suitesparse := FinalizedRoot(ownSuiteSparse, Some(Defaulted(callerSuiteSparse, d)), d);
      var sundials := FinalizedRoot(ownSundials, Some(Defaulted(callerSundials, d)), d);
      var args := CMakeArgs(env, system, executable, Some(suitesparse), Some(sundials), abspath);
      && FlagValue(args, DefinedNames[3])
         == (if Truthy(ownSuiteSparse) then Some(abspath(ownSuiteSparse.value))
             else if ownSuiteSparse.None? && Truthy(callerSuiteSparse) then Some(abspath(callerSuiteSparse.value))
             else if system == "Windows" then None
             else Some(abspath(d)))
      && FlagValue(args, DefinedNames[4])
         == (if Truthy(ownSundials) then Some(abspath(ownSundials.value))
             else if ownSundials.None? && Truthy(callerSundials) then Some(abspath(callerSundials.value))
             else if system == "Windows" then None
             else Some(abspath(d)))
      && (system != "Windows" ==> |args| == 5)
  {
    var d := DefaultLibDir(system, env).value;
    RootAfterFinalize(ownSuiteSparse, callerSuiteSparse, d);
    RootAfterFinalize(ownSundials, callerSundials, d);
    var suitesparse := FinalizedRoot(ownSuiteSparse, Some(Defaulted(callerSuiteSparse, d)), d);
    var sundials := FinalizedRoot(ownSundials, Some(Defaulted(callerSundials, d)), d);
    CMakeArgsReadBack(env, system, executable, Some(suitesparse), Some(sundials), abspath);
  }

  class CMakeBuild {
    /** names of `self.extensions` */
    var extensions: seq<string>
    /** `self.build_temp`, as `build_ext.finalize_options` sets it */
    var buildTemp: string
    var suitesparseRoot: Option<string>
    var sundialsRoot: Option<string>

    /** The command as `initialize_options` and the command-line parser leave it. */
    constructor (extensions: seq<string>, buildTemp: string,
                 suitesparseRoot: Option<string>, sundialsRoot: Option<string>)
      ensures Options() == BuildExtOptions(extensions, buildTemp, suitesparseRoot, sundialsRoot)
    {
      this.extensions, this.buildTemp := extensions, buildTemp;
      this.suitesparseRoot, this.sundialsRoot := suitesparseRoot, sundialsRoot;
    }

    /** What `run` reads of the command. */
    function Options(): BuildExtOptions
      reads this
    {
      BuildExtOptions(extensions, buildTemp, suitesparseRoot, sundialsRoot)
    }

    /**
     * `finalize_options`: take undefined roots from `install` when that
     * command exists (finalizing it), otherwise from `bdist_wheel`; then
     * replace a falsy root by `default_lib_dir`.
     */
    method FinalizeOptions(install: CustomInstall?, wheel: BdistWheel, defaultLibDir: string)
      requires install != null ==> install.Valid()
      requires wheel.Valid()
      modifies this, install, wheel
      ensures install != null ==> install.Valid()
      ensures wheel.Valid()
      ensures extensions == old(extensions) && buildTemp == old(buildTemp)
      ensures install != null ==> install.finalized && unchanged(wheel)
      ensures install != null && !old(install.finalized) ==>
        install.suitesparseRoot == Some(Defaulted(old(install.suitesparseRoot), defaultLibDir))
        && install.sundialsRoot == Some(Defaulted(old(install.sundialsRoot), defaultLibDir))
      ensures install != null && old(install.finalized) ==> unchanged(install)
      ensures install == null ==> wheel.finalized
      ensures install == null && !old(wheel.finalized) ==>
        wheel.suitesparseRoot == Some(Defaulted(old(wheel.suitesparseRoot), defaultLibDir))
        && wheel.sundialsRoot == Some(Defaulted(old(wheel.sundialsRoot), defaultLibDir))
      ensures install == null && old(wheel.finalized) ==> unchanged(wheel)
      ensures var callerSuiteSparse := if install != null then install.suitesparseRoot else wheel.suitesparseRoot;
        suitesparseRoot == Some(FinalizedRoot(old(suitesparseRoot), callerSuiteSparse, defaultLibDir))
      ensures var callerSundials := if install != null then install.sundialsRoot else wheel.sundialsRoot;
        sundialsRoot == Some(FinalizedRoot(old(sundialsRoot), callerSundials, defaultLibDir))
    {
      var callerSuiteSparse, callerSundials;
      if install != null {
        install.EnsureFinalized(defaultLibDir);
        callerSuiteSparse, callerSundials := install.suitesparseRoot, install.sundialsRoot;
      } else {
        wheel.EnsureFinalized(defaultLibDir);
        callerSuiteSparse, callerSundials := wheel.suitesparseRoot, wheel.sundialsRoot;
      }
      if suitesparseRoot.None? {
        suitesparseRoot := callerSuiteSparse;
      }
      if sundialsRoot.None? {
        sundialsRoot := callerSundials;
      }
      if !Truthy(suitesparseRoot) {
        suitesparseRoot := Some(defaultLibDir);
      }
      if !Truthy(sundialsRoot) {
        sundialsRoot := Some(defaultLibDir);
      }
    }

    /** `move_output`: create the destination's parent directory, then copy the module from under `build_temp`. */
    method MoveOutput(host: Host, lib: PathLib, name: string)
      modifies host
      ensures host.State() == BuildSteps.MoveOutput(old(host.State()), buildTemp, lib, name)
    {
      var resolvedTemp := lib.resolve(buildTemp);
      var destPath := lib.resolve(lib.extFullpath(name));
      var sourcePath := lib.join(resolvedTemp, lib.basename(lib.extFilename(name)));
      var destDirectory := lib.parent(destPath);
      host.Makedirs(destDirectory);
      host.CopyFile(sourcePath, destPath);
    }

    /** The `cmake_args` list `run` builds by appending, from the environment as it stands. */
    method CMakeArgsFor(host: Host, p: Platform) returns (cmakeArgs: seq<string>)
      ensures cmakeArgs == CMakeArgs(host.env, p.system, p.executable, suitesparseRoot, sundialsRoot, p.lib.abspath)
    {
      var useCasadi := if p.system == "Windows" then false else true;
      var buildTypeVar := host.Getenv(BuildTypeVariable);
      var buildType := if buildTypeVar.Some? then buildTypeVar.value else "RELEASE";
      cmakeArgs := [Flag("CMAKE_BUILD_TYPE", buildType),
                    Flag("PYTHON_EXECUTABLE", p.executable),
                    Flag("USE_PYTHON_CASADI", if useCasadi then "TRUE" else "FALSE")];
      if Truthy(suitesparseRoot) {
        cmakeArgs := cmakeArgs + [Flag("SuiteSparse_ROOT", p.lib.abspath(suitesparseRoot.value))];
      }
      if Truthy(sundialsRoot) {
        cmakeArgs := cmakeArgs + [Flag("SUNDIALS_ROOT", p.lib.abspath(sundialsRoot.value))];
      }
    }

    /** The start of `run`: create the build directory if absent, then remove a stale `CMakeError.log`. */
    method PrepareBuildDirectory(host: Host, buildDir: string, lib: PathLib)
      modifies host
      ensures host.State() == Prepare(old(host.State()), buildDir, lib)
    {
      var dirExists := host.Exists(buildDir);
      if !dirExists {
        host.Makedirs(buildDir);
      }
      var errorLog := ErrorLogPath(buildDir, lib);
      var staleLog := host.Exists(errorLog);
      if staleLog {
        host.Remove(errorLog);
      }
    }

    /** The vcpkg part of `run`: validate, then write the settings into `os.environ`. */
    method UseVcpkg(host: Host, system: string) returns (outcome: Result<(), Error>)
      modifies host
      ensures InjectVcpkg(system, old(host.State())) == (if outcome.Success? then Success(host.State()) else Failure(outcome.error))
      ensures outcome.Failure? ==> unchanged(host)
    {
      var useVcpkg := host.Getenv(UseVcpkgVariable);
      if Truthy(useVcpkg) {
        var settings := SetVcpkgEnvironmentVariables(host.env);
        if settings.Failure? {
          return Failure(settings.error);
        }
        host.Setenv(EnvKey(system, VcpkgKeys[0]), settings.value.0);
        host.Setenv(EnvKey(system, VcpkgKeys[1]), settings.value.1);
        host.Setenv(EnvKey(system, VcpkgKeys[2]), settings.value.2);
      }
      return Success(());
    }

    /** `run`: configure, check for `CMakeError.log`, build, and move every extension into place. */
    method Run(host: Host, p: Platform, cmake: CMakeOutcome) returns (status: Status)
      modifies host
      ensures (status, host.State()) == BuildSteps.Run(Options(), p, cmake, old(host.State()))
    {
      if extensions == [] {
        return Done;
      }
      ghost var st := host.State();
      var cmakeArgs := CMakeArgsFor(host, p);
      var buildDir := BuildDirectory(buildTemp, p);
      PrepareBuildDirectory(host, buildDir, p.lib);
      var vcpkg := UseVcpkg(host, p.system);
      if vcpkg.Failure? {
        return Failed(vcpkg.error);
      }
      ghost var ready := host.State();

      var cmakeListDir := p.lib.abspath(p.setupDir);
      host.Subprocess(["cmake", cmakeListDir] + cmakeArgs, buildDir, cmake.configureWrites);
      assert host.State() == Configure(Options(), p, cmake, st.env, ready);

      var configureFailed := host.Exists(ErrorLogPath(buildDir, p.lib));
      if configureFailed {
        return Failed(RuntimeError);
      }
      host.Subprocess(BuildArgv, buildDir, cmake.buildWrites);
      ghost var built := host.State();
      for i := 0 to |extensions|
        invariant host.State() == MoveAll(built, buildTemp, p.lib, extensions[..i])
      {
        MoveOutput(host, p.lib, extensions[i]);
        assert extensions[..i + 1][..i] == extensions[..i];
      }
      assert extensions[..|extensions|] == extensions;
      return Done;
    }
  }
}
