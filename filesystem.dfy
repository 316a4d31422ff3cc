/** The part of `std::fs` that project scaffolding touches: `create_dir`, `read`
    and `write`, over an abstract filesystem of directories and files named by
    path strings. Whatever the operating system may refuse beyond the structural
    failures (permissions, a full disk, ...) is given up front as `Faults`, so
    every operation is a function of the state it starts in. */
module Fs {
  import opened Wrappers
  import Manifest

  type Path = string

  /** The causes of an I/O failure that the model distinguishes. */
  datatype IoError =
    | Exists                    // the path is already taken
    | NotFound                  // a directory on the way is missing
    | IsADirectory              // a file operation on a directory
    | Os(description: string)   // any other refusal, as the OS words it

  /** How an I/O error is rendered (`{err}`); the first three are the texts of
      the standard library on Linux. */
  function Describe(e: IoError): string
  {
    match e
    case Exists => "File exists (os error 17)"
    case NotFound => "No such file or directory (os error 2)"
    case IsADirectory => "Is a directory (os error 21)"
    case Os(d) => d
  }

  /** What a file holds: the rendering of a manifest document, other bytes, or
      the first bytes (possibly none) of some contents whose writing broke off. */
  datatype Contents =
    | ManifestText(doc: Manifest.Document)
    | Bytes(data: seq<bv8>)
    | Truncated(intended: Contents)

  /** The failures the operating system adds at given paths: `refused` paths
      cannot be created (as a directory, or as a file by `File::create`);
      writing to an `interrupted` path creates the file, then `write_all`
      breaks off with the given error (a full disk, an I/O error). */
  datatype Faults = Faults(refused: map<Path, IoError>, interrupted: map<Path, IoError>)

  /** The directories a path lies in: every prefix that ends just before a `/`. */
  function Ancestors(p: Path): set<Path>
  {
    set i | 0 <= i < |p| && p[i] == '/' :: p[..i]
  }

  /** A filesystem is a tree: the root (`""`, the prefix of every absolute path)
      and the current and parent directories `.` and `..` always exist, every
      entry's enclosing directories exist, and no path is both a directory and
      a file. */
  ghost predicate Consistent(dirs: set<Path>, files: map<Path, Contents>)
  {
    && "" in dirs && "." in dirs && ".." in dirs
    && (forall d :: d in dirs ==> Ancestors(d) <= dirs)
    && (forall f :: f in files ==> Ancestors(f) <= dirs)
    && (forall f :: f in files ==> f !in dirs)
  }

  /** Why `create_dir(p)` fails, if it does. The empty path names nothing, so
      it fails as missing even where `""` stands for the root. */
  function CreateDirFailure(dirs: set<Path>, files: map<Path, Contents>,
                            faults: Faults, p: Path): Option<IoError>
  {
    if p == "" then Some(NotFound)
    else if p in dirs || p in files then Some(Exists)
    else if !(Ancestors(p) <= dirs) then Some(NotFound)
    else if p in faults.refused then Some(faults.refused[p])
    else None
  }

  /** Why `write(p, _)` fails before anything is written, if it does: the
      `File::create` step. */
  function CreateFileFailure(dirs: set<Path>, faults: Faults, p: Path): Option<IoError>
  {
    if p == "" then Some(NotFound)
    else if p in dirs then Some(IsADirectory)
    else if !(Ancestors(p) <= dirs) then Some(NotFound)
    else if p in faults.refused then Some(faults.refused[p])
    else None
  }

  /** `p` is a direct entry of directory `dir`. */
  lemma {:induction false} AncestorsOfChild(dir: Path, leaf: string)
    requires leaf != [] && forall k :: 0 <= k < |leaf| ==> leaf[k] != '/'
    ensures Ancestors(dir + "/" + leaf) == Ancestors(dir) + {dir}
  {
    var c := dir + "/" + leaf;
    forall a | a in Ancestors(c) ensures a in Ancestors(dir) + {dir} {
      var i :| 0 <= i < |c| && c[i] == '/' && a == c[..i];
      if i < |dir| {
        assert c[..i] == dir[..i] && dir[i] == '/';
      } else if i == |dir| {
        assert c[..i] == dir;
      } else {
        assert false;
      }
    }
    forall a | a in Ancestors(dir) + {dir} ensures a in Ancestors(c) {
      if a == dir {
        assert c[|dir|] == '/' && c[..|dir|] == dir;
      } else {
        var i :| 0 <= i < |dir| && dir[i] == '/' && a == dir[..i];
        assert c[i] == '/' && c[..i] == a;
      }
    }
  }

  /** A path without a `/` lies in no directory but the current one. */
  lemma NoAncestors(p: Path)
    requires forall k :: 0 <= k < |p| ==> p[k] != '/'
    ensures Ancestors(p) == {}
  {
  }

  class FileSystem {
    var dirs: set<Path>
    var files: map<Path, Contents>
    const faults: Faults

    ghost predicate Valid()
      reads this
    {
      Consistent(dirs, files)
    }

    constructor (dirs: set<Path>, files: map<Path, Contents>, faults: Faults)
      requires Consistent(dirs, files)
      ensures Valid()
      ensures this.dirs == dirs && this.files == files && this.faults == faults
    {
      this.dirs := dirs;
      this.files := files;
      this.faults := faults;
    }

    /** `fs::create_dir`: adds the directory `p`, which must be new and whose
        enclosing directories must exist; no file changes. */
    method CreateDir(p: Path) returns (r: Result<(), IoError>)
      requires Valid()
      modifies this
      ensures Valid()
      ensures files == old(files)
      ensures CreateDirFailure(old(dirs), old(files), faults, p).Some? ==>
                r == Err(CreateDirFailure(old(dirs), old(files), faults, p).value) &&
                dirs == old(dirs)
      ensures CreateDirFailure(old(dirs), old(files), faults, p).None? ==>
                r == Ok(()) && p !in old(dirs) && dirs == old(dirs) + {p}
    {
      var failure := CreateDirFailure(dirs, files, faults, p);
      if failure.Some? {
        return Err(failure.value);
      }
      dirs := dirs + {p};
      return Ok(());
    }

    /** `fs::read`: the contents of `p`, which succeeds exactly when `p` is a file. */
    method Read(p: Path) returns (r: Result<Contents, IoError>)
      requires Valid()
      ensures r.Ok? <==> p in files
      ensures r.Ok? ==> r.value == files[p]
      ensures r.Err? ==> r.error == (if p != "" && p in dirs then IsADirectory else NotFound)
    {
      if p in files {
        return Ok(files[p]);
      } else if p != "" && p in dirs {
        return Err(IsADirectory);
      }
      return Err(NotFound);
    }

    /** `fs::write`: `File::create` (which truncates what was at `p`), then
        `write_all` of `c`. A failure to create changes nothing; a write that
        breaks off leaves a truncated file. Directories do not change. */
    method Write(p: Path, c: Contents) returns (r: Result<(), IoError>)
      requires Valid()
      modifies this
      ensures Valid()
      ensures dirs == old(dirs)
      ensures CreateFileFailure(old(dirs), faults, p).Some? ==>
                r == Err(CreateFileFailure(old(dirs), faults, p).value) && files == old(files)
      ensures CreateFileFailure(old(dirs), faults, p).None? && p in faults.interrupted ==>
                r == Err(faults.interrupted[p]) && files == old(files)[p := Truncated(c)]
      ensures CreateFileFailure(old(dirs), faults, p).None? && p !in faults.interrupted ==>
                r == Ok(()) && files == old(files)[p := c]
    {
      var failure := CreateFileFailure(dirs, faults, p);
      if failure.Some? {
        return Err(failure.value);
      }
      if p in faults.interrupted {
        files := files[p := Truncated(c)];
        return Err(faults.interrupted[p]);
      }
      files := files[p := c];
      return Ok(());
    }
  }
}
