/**
 * The two library-root options (`--suitesparse-root`, `--sundials-root`)
 * that the `install` and `bdist_wheel` commands add, and the defaulting
 * rule every command applies when it finalizes them.
 */
module Options {
  import opened Wrappers
  import opened Environment

  /**
   * `root if root else default_lib_dir`: a falsy root (`None` or `""`)
   * becomes the default library directory, any other root is kept.
   */
  function Defaulted(root: Option<string>, defaultLibDir: string): (r: string)
    ensures Truthy(root) ==> r == root.value
    ensures !Truthy(root) ==> r == defaultLibDir
    ensures r != "" <==> Truthy(root) || defaultLibDir != ""
  {
    if Truthy(root) then root.value else defaultLibDir
  }

  /**
   * distutils' `set_undefined_options` for one option: an option still
   * `None` takes the calling command's value; any other value, `""`
   * included, is kept.
   */
  function SetUndefined(own: Option<string>, caller: Option<string>): (r: Option<string>)
    ensures own.Some? ==> r == own
    ensures own.None? ==> r == caller
  {
    if own.None? then caller else own
  }

  /** The `install` command with its two extra options. */
  class CustomInstall {
    var suitesparseRoot: Option<string>
    var sundialsRoot: Option<string>
    /** distutils' `finalized` flag, set by `ensure_finalized`. */
    var finalized: bool

    /** distutils only marks a command finalized once both roots are defined. */
    predicate Valid()
      reads this
    {
      finalized ==> suitesparseRoot.Some? && sundialsRoot.Some?
    }

    /** `__init__` followed by `initialize_options`; the command-line parser then stores what the user gave. */
    constructor (suitesparseRoot: Option<string>, sundialsRoot: Option<string>)
      ensures this.suitesparseRoot == suitesparseRoot && this.sundialsRoot == sundialsRoot
      ensures !finalized
      ensures Valid()
    {
      this.suitesparseRoot, this.sundialsRoot, this.finalized := suitesparseRoot, sundialsRoot, false;
    }

    method FinalizeOptions(defaultLibDir: string)
      modifies this
      ensures suitesparseRoot == Some(Defaulted(old(suitesparseRoot), defaultLibDir))
      ensures sundialsRoot == Some(Defaulted(old(sundialsRoot), defaultLibDir))
      ensures finalized == old(finalized)
      ensures Valid()
    {
      if !Truthy(suitesparseRoot) {
        suitesparseRoot := Some(defaultLibDir);
      }
      if !Truthy(sundialsRoot) {
        sundialsRoot := Some(defaultLibDir);
      }
    }

    /** distutils' `ensure_finalized`: finalize once. */
    method EnsureFinalized(defaultLibDir: string)
      requires Valid()
      modifies this
      ensures Valid() && finalized
      ensures old(finalized) ==> unchanged(this)
      ensures !old(finalized) ==>
        suitesparseRoot == Some(Defaulted(old(suitesparseRoot), defaultLibDir))
        && sundialsRoot == Some(Defaulted(old(sundialsRoot), defaultLibDir))
    {
      if !finalized {
        FinalizeOptions(defaultLibDir);
        finalized := true;
      }
    }
  }

  /** The `bdist_wheel` command with its two extra options. */
  class BdistWheel {
    var suitesparseRoot: Option<string>
    var sundialsRoot: Option<string>
    var finalized: bool

    /** distutils only marks a command finalized once both roots are defined. */
    predicate Valid()
      reads this
    {
      finalized ==> suitesparseRoot.Some? && sundialsRoot.Some?
    }

    constructor (suitesparseRoot: Option<string>, sundialsRoot: Option<string>)
      ensures this.suitesparseRoot == suitesparseRoot && this.sundialsRoot == sundialsRoot
      ensures !finalized
      ensures Valid()
    {
      this.suitesparseRoot, this.sundialsRoot, this.finalized := suitesparseRoot, sundialsRoot, false;
    }

    method FinalizeOptions(defaultLibDir: string)
      modifies this
      ensures suitesparseRoot == Some(Defaulted(old(suitesparseRoot), defaultLibDir))
      ensures sundialsRoot == Some(Defaulted(old(sundialsRoot), defaultLibDir))
      ensures finalized == old(finalized)
      ensures Valid()
    {
      if !Truthy(suitesparseRoot) {
        suitesparseRoot := Some(defaultLibDir);
      }
      if !Truthy(sundialsRoot) {
        sundialsRoot := Some(defaultLibDir);
      }
    }

    method EnsureFinalized(defaultLibDir: string)
      requires Valid()
      modifies this
      ensures Valid() && finalized
      ensures old(finalized) ==> unchanged(this)
      ensures !old(finalized) ==>
        suitesparseRoot == Some(Defaulted(old(suitesparseRoot), defaultLibDir))
        && sundialsRoot == Some(Defaulted(old(sundialsRoot), defaultLibDir))
    {
      if !finalized {
        FinalizeOptions(defaultLibDir);
        finalized := true;
      }
    }
  }
}
