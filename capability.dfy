/**
 * `compile_KLU` and the choice of `ext_modules`: whether the `idaklu`
 * extension is built at all.
 */
module Capability {
  import opened Wrappers
  import opened Environment
  import BuildSteps
  import HostModel

  /** How `subprocess.run(["cmake", "--version"])` ends. */
  datatype CMakeProbe =
      /** the tool ran, with whatever exit code: the code does not look at it */
    | Exited(code: int)
      /** `OSError`: the tool could not be started */
    | RaisedOSError

  /** How `open(".../pybind11/tools/pybind11Tools.cmake")` ends. */
  datatype OpenOutcome = Opened | FileNotFound | OtherOSError

  /** The only extension setup.py declares. */
  const IdakluName: string := "pybamm.solvers.idaklu"

  /**
   * `compile_KLU`: true exactly when CMake could be started and the
   * pybind11 tools file could be opened. The platform is only logged.
   * An `OSError` from `open` other than `FileNotFoundError` is not caught
   * and escapes.
   */
  method CompileKLU(system: string, cmake: CMakeProbe, pybind11Tools: OpenOutcome)
    returns (r: Result<bool, Error>)
    ensures r.Failure? <==> pybind11Tools == OtherOSError
    ensures r.Failure? ==> r.error == OpenError
    ensures r.Success? ==> (r.value <==> cmake.Exited? && pybind11Tools == Opened)
  {
    var cmakeFound := true;
    var pybind11Found := true;
    var windows := system == "" || system == "Windows";  // logged only
    if cmake.RaisedOSError? {
      cmakeFound := false;
    }
    match pybind11Tools {
      case Opened =>
      case FileNotFound =>
        pybind11Found := false;
      case OtherOSError =>
        return Failure(OpenError);
    }
    r := Success(cmakeFound && pybind11Found);
  }

  /** `ext_modules = [idaklu_ext] if compile_KLU() else []` */
  function ExtModules(compileKLU: bool): (r: seq<string>)
    ensures r == [] <==> !compileKLU
    ensures compileKLU ==> r == [IdakluName]
  {
    if compileKLU then [IdakluName] else []
  }

  /**
   * When `compile_KLU` is false, `build_ext` has no extension and `run`
   * changes nothing: no directory, no subprocess, no copy.
   */
  lemma NoKLUNoBuild(buildTemp: string, suitesparseRoot: Option<string>, sundialsRoot: Option<string>,
                     p: BuildSteps.Platform, cmake: BuildSteps.CMakeOutcome, st: HostModel.HostState)
    ensures BuildSteps.Run(BuildSteps.BuildExtOptions(ExtModules(false), buildTemp, suitesparseRoot, sundialsRoot),
                           p, cmake, st)
         == (BuildSteps.Done, st)
  {
  }
}
