/** The dispatch in `main` for the `init` and `new` commands: which package name
    and which directory `new` is called with. Argument parsing, the diagnostics
    printed on failure and the process exit are not modelled; a failure is
    returned as a value instead. */
module Cli {
  import opened Wrappers
  import opened Fs
  import Scaffold

  datatype Command =
    | Init(given: Option<string>)   // the optional `name` argument
    | New(name: string)
    | Add(name: string)
    | Remove(name: string)
    | Update

  /** The arguments `main` passes to `new`. */
  datatype Invocation = Invocation(name: string, path: Option<Path>)

  datatype CliError =
    | CurrentDirUnavailable(cause: IoError)   // `env::current_dir` failed
    | NoDirectoryName                         // the current directory has no base name
    | Unimplemented                           // `add`, `remove`, `update` stop at `todo!()`

  /** A component of a path below the root, as `Path::components` yields it:
      a non-empty name without `/`; never `.`, which parsing drops; `..` stays. */
  predicate IsComponent(c: string)
  {
    c != "" && c != "." && forall k :: 0 <= k < |c| ==> c[k] != '/'
  }

  /** An absolute path, as its components below the root. */
  predicate IsComponentPath(cwd: seq<string>)
  {
    forall i :: 0 <= i < |cwd| ==> IsComponent(cwd[i])
  }

  /** `file_name` of an absolute path: its final name, if it ends in one. */
  function BaseName(cwd: seq<string>): (r: Option<string>)
    requires IsComponentPath(cwd)
    // A base name is a proper name, and the path is its parent extended by it.
    ensures r.Some? ==> IsComponent(r.value) && r.value != ".." &&
                        cwd != [] && cwd == cwd[..|cwd| - 1] + [r.value]
    // Only the root and a path ending in `..` have none.
    ensures r.None? <==> cwd == [] || cwd[|cwd| - 1] == ".."
  {
    if cwd == [] || cwd[|cwd| - 1] == ".." then None else Some(cwd[|cwd| - 1])
  }

  /** Entering a directory by name makes that name the base name. */
  lemma BaseNameOfChild(parent: seq<string>, c: string)
    requires IsComponentPath(parent) && IsComponent(c) && c != ".."
    ensures IsComponentPath(parent + [c])
    ensures BaseName(parent + [c]) == Some(c)
  {
  }

  /** The root and a path that climbs out with `..` have no base name. */
  lemma NoBaseName(parent: seq<string>)
    requires IsComponentPath(parent)
    ensures BaseName([]) == None
    ensures IsComponentPath(parent + [".."]) && BaseName(parent + [".."]) == None
  {
  }

  /** The call `main` makes for a command, given what `env::current_dir`
      returns. The current directory is consulted only by `init` without a name. */
  function Plan(cmd: Command, cwd: Result<seq<string>, IoError>): (r: Result<Invocation, CliError>)
    requires cwd.Ok? ==> IsComponentPath(cwd.value)
    // `init` always scaffolds in place; an explicit name is used verbatim.
    ensures cmd.Init? && r.Ok? ==> r.value.path == None
    ensures cmd.Init? && cmd.given.Some? ==> r == Ok(Invocation(cmd.given.value, None))
    // Without a name, `init` takes the base name of the current directory, or fails.
    ensures cmd.Init? && cmd.given.None? ==>
              (r.Ok? <==> cwd.Ok? && BaseName(cwd.value).Some?) &&
              (r.Ok? ==> r.value.name == cwd.value[|cwd.value| - 1]) &&
              (cwd.Err? ==> r == Err(CurrentDirUnavailable(cwd.error))) &&
              (cwd.Ok? && BaseName(cwd.value).None? ==> r == Err(NoDirectoryName))
    // `new <name>` uses the name both as package name and as directory.
    ensures cmd.New? ==> r == Ok(Invocation(cmd.name, Some(cmd.name)))
    ensures cmd.Add? || cmd.Remove? || cmd.Update? ==> r == Err(Unimplemented)
  {
    match cmd
    case Init(Some(name)) => Ok(Invocation(name, None))
    case Init(None) =>
      if cwd.Err? then Err(CurrentDirUnavailable(cwd.error))
      else if BaseName(cwd.value).None? then Err(NoDirectoryName)
      else Ok(Invocation(BaseName(cwd.value).value, None))
    case New(name) => Ok(Invocation(name, Some(name)))
    case Add(_) => Err(Unimplemented)
    case Remove(_) => Err(Unimplemented)
    case Update => Err(Unimplemented)
  }

  /** `init` and `new` scaffold under the same package name exactly when the
      `init` directory's base name is the `new` name; `new` alone creates it. */
  lemma InitAndNewAgreeOnName(cwd: seq<string>, name: string)
    requires IsComponentPath(cwd) && cwd != [] && cwd[|cwd| - 1] == name && name != ".."
    ensures Plan(Init(None), Ok(cwd)).Ok? && Plan(New(name), Ok(cwd)).Ok?
    ensures Plan(Init(None), Ok(cwd)).value.name == Plan(New(name), Ok(cwd)).value.name
    ensures Plan(Init(None), Ok(cwd)).value.path == None
    ensures Plan(New(name), Ok(cwd)).value.path == Some(name)
  {
  }

  datatype RunError = Usage(cli: CliError) | Failed(init: Scaffold.InitError)

  /** One run of the program for `cmd`: pick the arguments, then call `new`.
      A command that fails before `new` leaves the filesystem untouched. */
  method Run(fs: FileSystem, cmd: Command, cwd: Result<seq<string>, IoError>) returns (r: Result<(), RunError>)
    requires cwd.Ok? ==> IsComponentPath(cwd.value)
    requires fs.Valid()
    modifies fs
    ensures fs.Valid()
    ensures Plan(cmd, cwd).Err? ==>
              r == Err(Usage(Plan(cmd, cwd).error)) && fs.dirs == old(fs.dirs) && fs.files == old(fs.files)
    ensures Plan(cmd, cwd).Ok? ==>
              var inv := Plan(cmd, cwd).value;
              var o := Scaffold.NewSpec(old(fs.dirs), old(fs.files), fs.faults, inv.name, inv.path);
              fs.dirs == o.dirs && fs.files == o.files &&
              r == (if o.result.Ok? then Ok(()) else Err(Failed(o.result.error)))
  {
    var plan := Plan(cmd, cwd);
    if plan.Err? {
      return Err(Usage(plan.error));
    }
    var result := Scaffold.New(fs, plan.value.name, plan.value.path);
    if result.Err? {
      return Err(Failed(result.error));
    }
    return Ok(());
  }
}
