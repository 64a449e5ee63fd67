# Native-extension build step of PyBaMM's setup.py, modelled in Dafny

PyBaMM's `setup.py` decides whether to build the optional `idaklu` solver extension. When it does, it drives CMake to build the extension and copies the result into the package layout. This project models that build step as a small sequential state machine over an abstract host. The host has:

- a process environment (`map<string, string>`);
- a set of existing paths;
- an append-only log of what the step does: directory creations, removals, subprocesses (with the argument list, working directory and environment each received), and copies.

Some path functions the build step uses are fields of a `PathLib` value: `os.path.abspath`, `Path.resolve`, `Path.parents[0]`, `os.path.basename`, `get_ext_fullpath`, `get_ext_filename`, and the two joins inside `run`/`move_output` (the build directory with `CMakeError.log`, `build_temp` with the file name). Every property about `run` therefore holds whatever those functions return. Two joins are modelled with POSIX semantics instead:
- `os.path.join(HOME, ".local")` in `default_lib_dir`, through `Environment.PosixJoin`;
- `os.path.join(*parts)` in `pybamm_data`, through `PackageData.JoinParts`.

On Windows, `os.environ` stores every variable name upper-cased. `Environment.EnvKey` models this, so setting `vcpkg_root_dir` there rewrites `VCPKG_ROOT_DIR` itself. What CMake does is an input: `CMakeOutcome` gives the paths its configure step and its build step create.

Modules:

- `Environment`: `os.getenv`, Python truthiness, the exceptions, `set_vcpkg_environment_variables`, `default_lib_dir`.
- `Paths`: the `PathLib` record.
- `HostModel`: the host state, its steps, and a `Host` class that performs them in place.
- `Options`: the `--suitesparse-root`/`--sundials-root` options of `install` and `bdist_wheel`, and their defaulting.
- `BuildSteps`: `CMakeBuild.run` and `move_output` as functions on host states, with the ordering and gating lemmas.
- `BuildExt`: the `CMakeBuild` class. Its `run`, `move_output` and helper methods are proved to match `BuildSteps`. Its `FinalizeOptions` is proved against `FinalizedRoot`.
- `Capability`: `compile_KLU` and the `ext_modules` choice.
- `PackageData`: the `pybamm_data` list.

Behaviour of `setup.py` worth noting:

- The comment on `compile_KLU` promises two checks the code never makes. The Windows flag is computed but only logged, and no "casadi-headers" directory is looked for. Only CMake and the pybind11 tools file decide the result.
- The build type is whatever `PYBAMM_CPP_BUILD_TYPE` holds. That includes `""`, because `os.getenv` with a default returns a variable that is set but empty. It is not an enumeration.
- The vcpkg validator rejects an empty variable as well as an unset one.
- `move_output` copies from under `build_temp`, not from the build directory. On Windows these differ.
- Neither subprocess's exit code is read anywhere. Only `CMakeError.log` gates the rest of `run`.

## Model

| member | source | states |
|---|---|---|
| `Environment.SetVcpkgEnvironmentVariables` | setup.py:31-46 | succeeds exactly when all three vcpkg variables are set and non-empty, returning their values in order; otherwise fails naming the first of `VCPKG_ROOT_DIR`, `VCPKG_DEFAULT_TRIPLET`, `VCPKG_FEATURE_FLAGS` that is unset or empty (all earlier ones are set) |
| `Environment.DefaultLibDir` | setup.py:26-28 | `""` exactly on Windows; elsewhere `TypeError` when `HOME` is unset, and otherwise a non-empty path that starts with `HOME` and ends in `.local`: exactly `HOME + "/.local"`, or `HOME + ".local"` when `HOME` is empty or already ends in `/` |
| `Options.Defaulted` | setup.py:213-218 | a truthy root is kept, a falsy one (`None` or `""`) becomes `default_lib_dir`; the result is empty only if both are |
| `Options.SetUndefined` | setup.py:71-75 | an option that is still `None` takes the calling command's value; any other value, `""` included, is kept |
| `Options.CustomInstall.constructor` | setup.py:208-211 | the command starts unfinalized, and so `Valid`, with the roots given on the command line (`None` when absent) |
| `Options.CustomInstall.FinalizeOptions` | setup.py:213-218 | each root becomes `Defaulted(old root, default_lib_dir)` |
| `Options.BdistWheel.constructor` | setup.py:232-235 | the command starts unfinalized, and so `Valid`, with the roots given on the command line |
| `Options.BdistWheel.FinalizeOptions` | setup.py:237-242 | each root becomes `Defaulted(old root, default_lib_dir)` |
| `BuildExt.CMakeBuild.constructor` | setup.py:55-58 | the command's options are its extensions, `build_temp` and the two roots as given |
| `BuildExt.CMakeBuild.FinalizeOptions` | setup.py:60-79 | finalizes `install` if that command exists and otherwise `bdist_wheel`, leaving the other untouched, and keeps both commands `Valid` (finalized only once both roots are defined); then each root is its own if defined, else the caller's, and a falsy result becomes `default_lib_dir` |
| `BuildExt.RootAfterFinalize` | setup.py:71-79 | after finalizing, a root is the non-empty own root, else the caller's non-empty root when the own one was undefined, else `default_lib_dir` |
| `BuildExt.RootsReachCMake` | setup.py:76-113 | after finalizing, each root reaches CMake as its absolute path; off Windows both roots are always passed, so `cmake_args` has five entries; on Windows a root is passed only when some command was given a non-empty one |
| `BuildExt.CMakeBuild.CMakeArgsFor` | setup.py:95-113 | the list built by appending equals `BuildSteps.CMakeArgs` of the current environment |
| `BuildExt.CMakeBuild.PrepareBuildDirectory` | setup.py:115-124 | the host afterwards is `BuildSteps.Prepare` of the host before |
| `BuildExt.CMakeBuild.UseVcpkg` | setup.py:126-135 | matches `BuildSteps.InjectVcpkg` for the host's platform; on failure the host is untouched |
| `BuildExt.CMakeBuild.MoveOutput` | setup.py:163-175 | the host afterwards is `BuildSteps.MoveOutput` of the host before |
| `BuildExt.CMakeBuild.Run` | setup.py:91-161 | the status returned and the host afterwards are exactly `BuildSteps.Run` of the options, platform, CMake behaviour and host before |
| `BuildSteps.BuildType` | setup.py:100 | `PYBAMM_CPP_BUILD_TYPE` when the variable exists, even if empty; `RELEASE` only when it is absent |
| `BuildSteps.CMakeArgs` | setup.py:100-113 | starts with exactly the build type (default `RELEASE`), the interpreter and `USE_PYTHON_CASADI` (`FALSE` exactly on Windows); then the SuiteSparse root and then the SUNDIALS root, each only if truthy; length 3 to 5 |
| `BuildSteps.CMakeArgsReadBack` | setup.py:100-113 | reading each `-D<name>=` definition back from `cmake_args` gives the resolved option; a root's definition is found exactly when that root is truthy |
| `BuildSteps.BuildDirectory` | setup.py:81-89 | the parent of `build_temp` on Windows, `build_temp` itself elsewhere |
| `BuildSteps.Prepare` | setup.py:115-124 | afterwards `CMakeError.log` does not exist, and the paths are exactly the old ones plus the build directory minus the log; so the build directory exists whenever the log's path is not the directory itself. It logs a directory creation only if the directory was absent, then a removal only if the log existed |
| `BuildSteps.InjectVcpkg` | setup.py:126-135 | without `PYBAMM_USE_VCPKG` nothing changes; with it, the validator's error is raised, or its three values are written into the process environment under the names `os.environ` uses for `vcpkg_root_dir`, `vcpkg_default_triplet` and `vcpkg_feature_flags`; paths and log are untouched |
| `BuildSteps.VcpkgSettingsTargets` | setup.py:133-135 | off Windows, the three lower-case names hold the validated values; on Windows they are the validated variables themselves, so the environment is unchanged |
| `BuildSteps.Configure` | setup.py:137-141 | logs one subprocess `cmake <abspath(setup dir)> <cmake_args>` in the build directory, with the current environment |
| `BuildSteps.BuildAndMove` | setup.py:151-161 | logs the `cmake --build . --config Release` subprocess, then the events of `move_output` for every extension |
| `BuildSteps.MoveOutput` | setup.py:163-175 | logs the creation of the parent of `resolve(get_ext_fullpath(name))`, then a copy from `resolve(build_temp)/basename(get_ext_filename(name))` to it; both paths exist afterwards, and the environment is kept |
| `BuildSteps.MoveAll` | setup.py:160-161 | moving a list of extensions appends exactly `MoveEvents`, keeps the environment, and leaves every destination existing |
| `BuildSteps.MoveEventsAt` | setup.py:163-175 | extension `i` logs the creation of its destination's parent, then a copy from `resolve(build_temp)/basename(get_ext_filename(name))` to `resolve(get_ext_fullpath(name))`; nothing is deleted |
| `BuildSteps.MoveEventsFiltered` | setup.py:160-161 | `move_output` runs no subprocess and copies once per extension, in list order |
| `BuildSteps.Run` | setup.py:91-161 | the log only grows; with no extensions, nothing changes and `run` returns |
| `BuildSteps.ConfigureRunsInCleanDirectory` | setup.py:115-141 | configure runs in a state whose paths are the starting paths plus the build directory minus `CMakeError.log`, so the log is absent; it is the first subprocess of `run` and comes right after this preparation |
| `BuildSteps.ErrorLogDecides` | setup.py:139-150 | once configure is reached, `run` fails with `RuntimeError` exactly when configure itself writes `CMakeError.log`; a stale log does not count |
| `BuildSteps.FailedConfigureStopsBuild` | setup.py:139-150 | on `RuntimeError`, configure was the only subprocess and nothing was copied |
| `BuildSteps.SuccessfulRunLog` | setup.py:115-161 | a successful run logs the preparation, then configure, then build, then the moves |
| `BuildSteps.SuccessfulRunOrder` | setup.py:139-161 | a successful run issues exactly two subprocesses, configure then build, and one copy per extension in list order |
| `BuildSteps.VcpkgErrorStopsBeforeConfigure` | setup.py:115-135 | with vcpkg requested and a variable missing, `run` raises the validator's error with no subprocess, no copy and an unchanged environment |
| `BuildSteps.VcpkgSettingsPersist` | setup.py:126-157 | `run` writes the vcpkg settings into the process environment itself (`build_env` is `os.environ`), so they remain after `run` as `InjectVcpkg` placed them; every subprocess `run` starts receives that environment |
| `Capability.CompileKLU` | setup.py:248-282 | returns exactly "CMake could be started and the pybind11 tools file opened", whatever the platform; a non-zero exit of `cmake --version` still counts as found; an `OSError` from `open` other than `FileNotFoundError` escapes |
| `Capability.ExtModules` | setup.py:324 | the extension list is empty exactly when `compile_KLU` is false, and is the single `idaklu` extension otherwise |
| `Capability.NoKLUNoBuild` | setup.py:91-93 | when `compile_KLU` is false, `run` changes nothing |
| `PackageData.JoinSplit` | setup.py:305 | joining the components of a path with `/` gives the path back |
| `PackageData.SplitJoin` | setup.py:305 | splitting joined separator-free components gives the components back |
| `PackageData.StripFirstComponent` | setup.py:305 | the kept path has exactly the components after the first, and is the text after the first separator |
| `PackageData.StripAll` | setup.py:304-306 | one kept path per globbed path, in order, each being the globbed path without its first component |
| `PackageData.GatheredAll` | setup.py:289-306 | the gathered list holds the stripped csv results, then py, then md, then txt |
| `PackageData.BuildPackageData` | setup.py:288-309 | `pybamm_data` is the stripped glob results in csv, py, md, txt order, followed by `./CITATIONS.bib`, `./plotting/pybamm.mplstyle` and `../CMakeBuild.py` |

## Left out

- `pybamm/input/parameters/lithium_ion/Sturm2019.py` and `Sturm2018.py`: floating-point curve fits, calls into the interpolation library, and constant parameter dictionaries. No build logic.
- Real path semantics for `abspath`, `resolve`, `parents[0]`, `basename`, `get_ext_fullpath`, `get_ext_filename` and the joins inside `run` and `move_output`: these are arbitrary functions the model is given.
- The base-class calls `build_ext.finalize_options`, `install.finalize_options`, `bdist_wheel.finalize_options`, `install.run` and `bdist_wheel.run` are setuptools/wheel code. `build_temp` and the extension list are taken as given.
- `get_finalized_command` and `set_undefined_options` are modelled only as far as setup.py relies on them. That means: finalize the calling command once, then copy options that are still `None`.
- `copy_file` always succeeds in the model and records the destination. The error distutils raises when the source file is missing is not modelled.
- File-system operations always succeed in the model. `os.makedirs` (setup.py:117), `os.remove` (setup.py:124) and `Path.mkdir` (setup.py:174) never raise `OSError`, for example on a permission error.
- Windows environment names: only the writes the build step makes are upper-cased, through `EnvKey`. The model expects the other names setup.py reads (`PYBAMM_USE_VCPKG`, `PYBAMM_CPP_BUILD_TYPE`, the vcpkg variables, `HOME`) to be stored upper-case, as `os.environ` stores them on Windows.
- A subprocess that cannot be started at all (an `OSError` from `subprocess.run` inside `run`) is not modelled. Every subprocess runs to completion, and CMake's effects are the `CMakeOutcome` input.
- `os.path.exists` and `os.path.isfile` both read the one set of existing paths. Files and directories are not told apart.
- Logging, `print`, the `setup.log` file handler, `exec` of `version.py`, reading `README.md`, and the `setup()` call are I/O with no bearing on the build decisions.
- `compile_KLU` only logs the Windows flag, never checks for the "casadi-headers" directory its comment mentions, and never closes the file it opens. None of these affects its result.
- The `idaklu_ext` sources list is static data. Its entries lack commas, so they form one concatenated string. This has no bearing on the modelled logic.
- `pybamm_data` uses the POSIX separator. On Windows `os.path.join` would use `\`.
- `PackageData.BuildPackageData` requires every globbed path to have at least two components, none of them empty or `.`. For such paths `Path(f).parts` is a plain split on `/`. Paths with repeated or trailing separators, which `pathlib` normalises, are not modelled; `glob` with this pattern does not return such paths.
- Timeouts, retries and concurrency: the code has none.
