# apollo: project scaffolding, modelled in Dafny

apollo is a command-line manager for Luna packages. Its manifest, `apollo.toml`, gives a package's
name, version and entry-point library, plus a `[dependencies]` table. The only commands
implemented are `init [name]` and `new <name>`. Both call `new(name, path)`:

1. If a directory is given, `new` creates it and fails with `CreatingDirectory` if that fails.
2. It picks the manifest path: `<dir>/apollo.toml`, or `apollo.toml` in the current directory.
3. It builds the manifest: `[package] name / version = "v0.1" / lib = "init.luna"` and an empty
   `[dependencies]`.
4. If a file can already be read at that path, it returns `AlreadyExists`.
5. Otherwise it writes the manifest, and fails with `WritingFile` if the write fails.

`add`, `remove` and `update` stop at `todo!()`. The crate also builds the registry URL of a package
file and renders each `InitError` as a one-line message.

The modules:

- `Wrappers`: `Option` and `Result`.
- `Registry`: `REPO_LINK` and `package_file_link`.
- `Manifest`: the manifest as a document (a map from section to a key/value table) and the fresh
  manifest `new` writes.
- `Fs`: an abstract filesystem class. It holds a set of directories and a map from path to file
  contents. Its methods are `CreateDir`, `Read` and `Write`, the three `std::fs` calls `new` makes.
  Failures the operating system may add are the constant `Faults`, fixed when the filesystem is
  built. Its `refused` paths cannot be created (permissions). On its `interrupted` paths, `write`
  creates the file, then the write breaks off (a full disk), which leaves a truncated file. This
  makes every operation a function of its starting state.
  `Consistent` says the filesystem is a tree. The root (`""`), `.` and `..` always exist, and every
  enclosing directory of an entry exists.
- `Scaffold`: `InitError`, its `Display` rendering, the manifest path, and `new`. `new` appears
  twice: `NewSpec` is a function that specifies it, and `New` is the method that runs its steps in
  order against a `FileSystem`. `New` is proved equal to `NewSpec`.
- `Cli`: the name selection of `main` for `init` and `new`, and one run of a command.

## Model

| member | source | states |
|---|---|---|
| `Registry.PackageFileLink` | src/main.rs:7-10 | the URL starts with `REPO_LINK`, then has `/registry/`, and ends with the package name; its length is the sum of the three |
| `Registry.PackageFileLinkInjective` | src/main.rs:8-10 | distinct packages get distinct URLs |
| `Manifest.NewManifest` | src/main.rs:75-81 | the fresh manifest has exactly the sections `package` and `dependencies`; `package` has exactly `name` = the given name, `version` = `v0.1` and `lib` = `init.luna`; `dependencies` is empty |
| `Manifest.NewManifestDeterminedByName` | src/main.rs:75-81 | two fresh manifests are equal iff their package names are |
| `Fs.FileSystem.CreateDir` | src/main.rs:70 | `create_dir` fails with `NotFound` on the empty path, with `Exists` if the path is taken, with `NotFound` if a parent is missing, or with the OS's refusal; on success it adds exactly that directory; files never change |
| `Fs.FileSystem.Read` | src/main.rs:82 | `read` succeeds iff a file exists at the path, and then returns its contents; otherwise it fails with `IsADirectory` on a directory and with `NotFound` on the empty path or a missing file; it changes nothing |
| `Fs.FileSystem.Write` | src/main.rs:85 | `write` fails on the empty path, on a directory, on a missing parent or on an OS refusal to create the file, and then changes nothing; if the write breaks off after the file is created, it fails and leaves a truncated file; otherwise it stores the contents at the path; directories never change |
| `Fs.AncestorsOfChild` | src/main.rs:71 | the directories enclosing `dir/leaf` are `dir` and the directories enclosing `dir` |
| `Scaffold.Display` | src/main.rs:93-105 | `AlreadyExists` renders as `package already present`; `WritingFile(e)` as the `apollo.toml` write prefix followed by `e`; `CreatingDirectory(e)` as `can not create directory: ` followed by `e` |
| `Scaffold.DisplayIdentifiesError` | src/main.rs:93-105 | equal messages come from the same kind of error with causes that render alike |
| `Scaffold.ManifestPath` | src/main.rs:69-74 | the target is `p/apollo.toml` and lies directly inside `p` for `Some(p)`; it is exactly `apollo.toml`, in no subdirectory, for `None` |
| `Scaffold.NewSpec` | src/main.rs:68-86 | no existing file ever changes; success adds exactly the manifest, at a path that held no file; an error adds no file, except that a write that breaks off leaves a truncated manifest at a path that held no file; the only directory that can appear is the requested one, if it was new; a failed creation changes nothing; after every other outcome the directory exists (no rollback); `AlreadyExists` only when a file is at the target |
| `Scaffold.NewOnExistingDirectory` | src/main.rs:69-70 | for `Some(p)` where `p` is already a directory, the result is `CreatingDirectory(Exists)` and the filesystem is unchanged |
| `Scaffold.NewOnCurrentOrParentDirectory` | src/main.rs:69-70 | on a consistent filesystem, `new .` and `new ..` give `CreatingDirectory(Exists)` and change nothing |
| `Scaffold.NewWithEmptyDirectory` | src/main.rs:69-70 | for `Some("")` the result is `CreatingDirectory(NotFound)` and the filesystem is unchanged |
| `Scaffold.AlreadyExistsUnreachableInNewDirectory` | src/main.rs:70-83 | on a consistent filesystem the `Some(p)` path never returns `AlreadyExists`, because a directory `create_dir` has just made holds no manifest |
| `Scaffold.NewSucceedsInFreshDirectory` | src/main.rs:68-86 | if `p` is new, its parents exist and the OS hinders none of the steps, `new` succeeds; it adds `p` and writes the fresh manifest at `p/apollo.toml` |
| `Scaffold.NewInCurrentDirectory` | src/main.rs:72-85 | without a directory: no directory changes; `AlreadyExists` iff a file `apollo.toml` exists; success when the name is free and the OS hinders no step; `WritingFile(IsADirectory)` when `apollo.toml` is a directory |
| `Scaffold.InterruptedWriteBlocksRetry` | src/main.rs:68-86 | when a failed `new` leaves something behind, that is a truncated manifest; running the same `new` again then fails without changes, with `AlreadyExists` in the current directory and with `CreatingDirectory(Exists)` for a directory |
| `Scaffold.NewPreservesConsistency` | src/main.rs:68-86 | every outcome of `new` leaves a consistent filesystem |
| `Scaffold.New` | src/main.rs:68-86 | running create, read, write in order with early returns gives exactly the `NewSpec` outcome; on `Some(p)` it never returns `AlreadyExists`; it overwrites no existing file |
| `Cli.BaseName` | src/main.rs:40 | for an absolute path given as proper components, a base name is a proper name other than `..`, and the path is its parent extended by it; there is none exactly for the root or a path ending in `..` |
| `Cli.BaseNameOfChild` | src/main.rs:40 | the base name of a parent path extended by a proper name is that name |
| `Cli.NoBaseName` | src/main.rs:40-44 | the root and a path ending in `..` have no base name |
| `Cli.Plan` | src/main.rs:30-61 | `init <name>` uses the name verbatim; `init` reads the current directory only when no name is given, and then uses its base name or fails with no call to `new`; `init` never creates a directory; `new <name>` passes the name as package name and as directory; `add`, `remove` and `update` are unimplemented |
| `Cli.InitAndNewAgreeOnName` | src/main.rs:31-55 | `init` in a directory named `n` and `new n` choose the same package name; only `new` creates a directory |
| `Cli.Run` | src/main.rs:29-65 | a command that fails before `new` leaves the filesystem unchanged; otherwise the filesystem and the result are those of `NewSpec` for the chosen arguments |

## Behaviour worth knowing

- `package.lib` names `init.luna`, but nothing writes that file (src/main.rs:79). `new` writes
  only `apollo.toml`.
- An explicit `init` name is used verbatim and may be empty (src/main.rs:31-32). `Cli.Plan` and
  `Scaffold.NewSpec` allow this.
- `add`, `remove` and `update` are `todo!()` (src/main.rs:62-64). `Cli.Plan` returns
  `Unimplemented` for them.

## Left out

- Argument parsing with clap (src/main.rs:12-28): a library with no logic of this crate's own.
- The `ERROR: ...` diagnostics and `process::exit(1)` (src/main.rs:34-59). A failure is returned
  as a `Cli.RunError` value instead.
- The panic of `todo!()` in `add`, `remove` and `update` is modelled as the error
  `Cli.CliError.Unimplemented`.
- The TOML text produced by `toml::toml!` and `to_string()` (src/main.rs:75-85), because it is a
  foreign library. A written manifest is held as the document itself (`Fs.Contents.ManifestText`).
  Nothing is claimed about the text.
- Real operating-system behaviour is abstract:
  - Paths are plain strings with no normalisation, so `a/` and `a` are different paths. For `new`
    this means:
    - If `a` does not exist, `new a/` fails with `CreatingDirectory(NotFound)`, where the real call
      creates `a`.
    - If `a` exists, `new a/` records a separate directory `a/` and succeeds, where the real call
      fails with `Exists`.
    - `new /` records a directory `/` and succeeds, where the real call fails with `Exists`.
    - `new a/./b` and `new a/../b` are taken literally.
  - A missing parent directory is `NotFound` whether or not a file sits in its place.
  - OS refusals and interrupted writes are the fixed `Faults`, not live permission or disk checks.
  - An interrupted write leaves `Truncated(c)`: some first bytes of `c`, which bytes is not modelled.
- `Fs.FileSystem.Read`: does not model a file that exists but cannot be read. `read` succeeds here
  exactly when the file exists. For a real file that is writable but unreadable, `read` fails and
  `new` would go on to overwrite it. The "never overwrites" properties rest on this abstraction.
- `env::current_dir` is a parameter (`Result<seq<string>, IoError>`): the current directory as its
  components below the root, as `Path::components` yields them (`Cli.IsComponentPath`), or the
  error it returned. `Cli.Plan`, `Cli.BaseName` and `Cli.Run` require this shape.
- `Cli.BaseName`: does not model the failure of `to_str()` on a base name that is not valid
  UTF-8, because strings here are always sequences of characters.
- `Fs.Describe`: the texts for `Exists`, `NotFound` and `IsADirectory` are those of the Rust
  standard library on Linux. Other platforms word them differently.
