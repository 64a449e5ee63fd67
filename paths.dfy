/**
 * The path functions setup.py takes from the standard library and from
 * setuptools. Their real semantics (normalisation, symlinks, the
 * interpreter's ABI tag) are not modelled: each is an arbitrary function
 * the build step is given, so every property proved holds for all of them.
 */
module Paths {

  datatype PathLib = PathLib(
    /** `os.path.abspath` */
    abspath: string -> string,
    /** `Path(p).resolve()` */
    resolve: string -> string,
    /** `Path(p).parents[0]` */
    parent: string -> string,
    /** `os.path.join(a, b)` and `Path(a) / b` */
    join: (string, string) -> string,
    /** `os.path.basename` */
    basename: string -> string,
    /** `build_ext.get_ext_fullpath(name)` */
    extFullpath: string -> string,
    /** `build_ext.get_ext_filename(name)` */
    extFilename: string -> string)
}
