/**
 * The host the build step acts on: the process environment, the set of
 * paths that exist, and an append-only log of the file-system operations
 * and subprocesses it issues.
 */
module HostModel {
  import opened Environment

  /** One observable action of the build step. */
  datatype Event =
      /** `os.makedirs(d)` or `Path(d).mkdir(parents=True, exist_ok=True)` */
    | MadeDir(dir: string)
      /** `os.remove(p)` */
    | Removed(path: string)
      /** `subprocess.run(argv, cwd=cwd, env=env)`, with the environment it was given */
    | Ran(argv: seq<string>, cwd: string, env: Env)
      /** `copy_file(src, dst)` */
    | Copied(src: string, dst: string)

  datatype HostState = HostState(env: Env, paths: set<string>, log: seq<Event>)
  {
    function Makedirs(dir: string): (r: HostState)
      ensures r.env == env && dir in r.paths && r.log == log + [MadeDir(dir)]
    {
      this.(paths := paths + {dir}, log := log + [MadeDir(dir)])
    }

    function Remove(path: string): (r: HostState)
      ensures r.env == env && path !in r.paths && r.log == log + [Removed(path)]
    {
      this.(paths := paths - {path}, log := log + [Removed(path)])
    }

    /** `os.environ[name] = value` */
    function Setenv(name: string, value: string): (r: HostState)
      ensures r.paths == paths && r.log == log && r.env == env[name := value]
    {
      this.(env := env[name := value])
    }

    /** A subprocess that runs to completion, creating the paths in `writes`. */
    function Subprocess(argv: seq<string>, cwd: string, writes: set<string>): (r: HostState)
      ensures r.env == env && r.paths == paths + writes && r.log == log + [Ran(argv, cwd, env)]
    {
      this.(paths := paths + writes, log := log + [Ran(argv, cwd, env)])
    }

    function CopyFile(src: string, dst: string): (r: HostState)
      ensures r.env == env && dst in r.paths && r.log == log + [Copied(src, dst)]
    {
      this.(paths := paths + {dst}, log := log + [Copied(src, dst)])
    }
  }

  /** The host as mutable state; each method performs one step and logs it. */
  class Host {
    var env: Env
    var paths: set<string>
    var log: seq<Event>

    function State(): HostState
      reads this
    {
      HostState(env, paths, log)
    }

    constructor (env: Env, paths: set<string>)
      ensures State() == HostState(env, paths, [])
    {
      this.env, this.paths, this.log := env, paths, [];
    }

    method Exists(path: string) returns (b: bool)
      ensures b <==> path in State().paths
    {
      b := path in paths;
    }

    method Getenv(name: string) returns (v: Wrappers.Option<string>)
      ensures v == Environment.Getenv(State().env, name)
    {
      v := Environment.Getenv(env, name);
    }

    method Makedirs(dir: string)
      modifies this
      ensures State() == old(State()).Makedirs(dir)
    {
      paths, log := paths + {dir}, log + [MadeDir(dir)];
    }

    method Remove(path: string)
      modifies this
      ensures State() == old(State()).Remove(path)
    {
      paths, log := paths - {path}, log + [Removed(path)];
    }

    method Setenv(name: string, value: string)
      modifies this
      ensures State() == old(State()).Setenv(name, value)
    {
      env := env[name := value];
    }

    method Subprocess(argv: seq<string>, cwd: string, writes: set<string>)
      modifies this
      ensures State() == old(State()).Subprocess(argv, cwd, writes)
    {
      paths, log := paths + writes, log + [Ran(argv, cwd, env)];
    }

    method CopyFile(src: string, dst: string)
      modifies this
      ensures State() == old(State()).CopyFile(src, dst)
    {
      paths, log := paths + {dst}, log + [Copied(src, dst)];
    }
  }
}
